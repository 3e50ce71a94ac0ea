/** The archive's per-entry metadata record (the archive's `Link` class):
    one filesystem entry as archived. -1 stands for "unknown" in the
    numeric fields, as in the archive. */
module Links {

  import opened Wrappers
  import opened JavaInt

  datatype FileLinkType = RegularFile | Directory | SymbolicLink | Other

  /** The archive's marker for an unknown size, time, uid, gid or mode. */
  const Unknown: int := -1

  datatype Link = Link(
    linkName: Option<string>,
    linkTarget: Option<string>,
    /** `None` is Java's `null`: the type was not determined. */
    linkType: Option<FileLinkType>,
    size: Long,
    /** Seconds since the epoch. */
    lastModified: Long,
    uid: Int,
    gid: Int,
    /** The Java `short` mode as its sixteen bits: bits 0-8 rwx for owner,
        group and others, bit 9 sticky, bit 10 setgid, bit 11 setuid;
        0xffff is the `short` -1 (unknown). */
    permissions: bv16,
    crc32: Int)

  /** The eight-argument constructor, which leaves the checksum at 0. */
  function NewLink(linkName: Option<string>, linkTarget: Option<string>,
                   linkType: Option<FileLinkType>, size: Long, lastModified: Long,
                   uid: Int, gid: Int, permissions: bv16): (l: Link)
    ensures l.crc32 == 0
    ensures l.linkType == linkType && l.size == size && l.lastModified == lastModified
    ensures l.uid == uid && l.gid == gid && l.permissions == permissions
  {
    Link(linkName, linkTarget, linkType, size, lastModified, uid, gid, permissions, 0)
  }

  predicate IsDirectory(l: Link)
  {
    l.linkType == Some(Directory)
  }
}
