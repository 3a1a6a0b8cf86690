/** The driver's public address type. */
module XBee {
  import opened Bytes

  /** A peer address: a 16-bit network address or a 64-bit hardware address. */
  datatype Addr = Short(short: u16) | Long(long: u64)
}
