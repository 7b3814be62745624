/** The platform-independent attribute record of package `file`. It has no
    behaviour of its own; it only ties the other value types together. */
module FileMetadata {
  import opened FileMode

  /** Go's uint32. */
  newtype UInt32 = x: int | 0 <= x < 0x1_0000_0000

  /** Go's int64. */
  newtype Int64 = x: int | -0x8000_0000_0000_0000 <= x < 0x8000_0000_0000_0000

  /** Permission bits, owner and group ids, length in bytes, the target of a
      symlink and the numbers of a device. The three timestamps are not part
      of this model. */
  datatype Metadata = Metadata(
    perms: Mode,
    uid: UInt32,
    gid: UInt32,
    size: Int64,
    linkname: string,
    devmajor: Int64,
    devminor: Int64)
}
