/** The symbolic mode string of a listing (`ListEntry.getPermissionString`):
    the ten-character file mode of the long format of `ls` as POSIX.1-2017
    (IEEE Std 1003.1) describes it in the STDOUT section of the `ls` utility. */
module Permissions {

  import opened Wrappers
  import opened JavaInt

  /** The Java `short` -1 that marks an unknown mode. */
  const UnknownMode: bv16 := 0xffff

  const S_ISUID: bv16 := 0x800  // 04000
  const S_ISGID: bv16 := 0x400  // 02000
  const S_ISVTX: bv16 := 0x200  // 01000
  const S_IRUSR: bv16 := 0x100  // 0400
  const S_IWUSR: bv16 := 0x080  // 0200
  const S_IXUSR: bv16 := 0x040  // 0100
  const S_IRGRP: bv16 := 0x020  // 040
  const S_IWGRP: bv16 := 0x010  // 020
  const S_IXGRP: bv16 := 0x008  // 010
  const S_IROTH: bv16 := 0x004  // 04
  const S_IWOTH: bv16 := 0x002  // 02
  const S_IXOTH: bv16 := 0x001  // 01

  predicate Has(m: bv16, mask: bv16)
  {
    m & mask != 0
  }

  /** The execute column: `x`/`-` for the execute bit, overlaid by the
      special bit as `lower` (execute set) or `upper` (execute clear). */
  function ExecChar(exec: bool, special: bool, lower: char, upper: char): char
  {
    if special then (if exec then lower else upper) else (if exec then 'x' else '-')
  }

  function Triplet(m: bv16, read: bv16, write: bv16, exec: bv16, special: bv16,
                   lower: char, upper: char): (t: string)
    ensures |t| == 3
  {
    [if Has(m, read) then 'r' else '-',
     if Has(m, write) then 'w' else '-',
     ExecChar(Has(m, exec), Has(m, special), lower, upper)]
  }

  /** `getPermissionString(link, false)`: the type character (`d` for a
      directory, `-` otherwise) followed by the owner, group and other
      columns. An unknown mode (-1) shows nine dashes. */
  function PermissionString(m: bv16, isDirectory: bool): (r: string)
    ensures |r| == 10
    ensures r[0] == (if isDirectory then 'd' else '-')
  {
    var kind := if isDirectory then 'd' else '-';
    if m == UnknownMode then [kind] + "---------"
    else
      [kind]
        + Triplet(m, S_IRUSR, S_IWUSR, S_IXUSR, S_ISUID, 's', 'S')
        + Triplet(m, S_IRGRP, S_IWGRP, S_IXGRP, S_ISGID, 's', 'S')
        + Triplet(m, S_IROTH, S_IWOTH, S_IXOTH, S_ISVTX, 't', 'T')
  }

  /** The mode string uses no characters beyond the type and mode letters. */
  lemma PermissionStringAlphabet(m: bv16, isDirectory: bool)
    ensures forall i :: 0 <= i < 10 ==> PermissionString(m, isDirectory)[i] in "-drwxsStT"
  {
    var r := PermissionString(m, isDirectory);
    if m != UnknownMode {
      var u := Triplet(m, S_IRUSR, S_IWUSR, S_IXUSR, S_ISUID, 's', 'S');
      var g := Triplet(m, S_IRGRP, S_IWGRP, S_IXGRP, S_ISGID, 's', 'S');
      var o := Triplet(m, S_IROTH, S_IWOTH, S_IXOTH, S_ISVTX, 't', 'T');
      assert r == [r[0]] + u + g + o;
    }
  }

  /** Reads one rwx column back; `None` for a character that cannot stand there. */
  function ParseTriplet(t: string, read: bv16, write: bv16, exec: bv16, special: bv16,
                        lower: char, upper: char): Option<bv16>
    requires |t| == 3
  {
    var r: Option<bv16> := if t[0] == 'r' then Some(read) else if t[0] == '-' then Some(0) else None;
    var w: Option<bv16> := if t[1] == 'w' then Some(write) else if t[1] == '-' then Some(0) else None;
    var x: Option<bv16> :=
      if t[2] == lower then Some(exec | special)
      else if t[2] == upper then Some(special)
      else if t[2] == 'x' then Some(exec)
      else if t[2] == '-' then Some(0)
      else None;
    if r.Some? && w.Some? && x.Some? then Some(r.value | w.value | x.value) else None
  }

  /** The inverse of `PermissionString` on known modes: the mode and the
      directory flag read back from the ten characters. */
  function ParsePermissionString(s: string): Option<(bv16, bool)>
  {
    if |s| != 10 || (s[0] != 'd' && s[0] != '-') then None
    else
      var u := ParseTriplet(s[1..4], S_IRUSR, S_IWUSR, S_IXUSR, S_ISUID, 's', 'S');
      var g := ParseTriplet(s[4..7], S_IRGRP, S_IWGRP, S_IXGRP, S_ISGID, 's', 'S');
      var o := ParseTriplet(s[7..10], S_IROTH, S_IWOTH, S_IXOTH, S_ISVTX, 't', 'T');
      if u.Some? && g.Some? && o.Some? then Some((u.value | g.value | o.value, s[0] == 'd'))
      else None
  }

  lemma OwnerRoundTrip(m: bv16)
    ensures ParseTriplet(Triplet(m, S_IRUSR, S_IWUSR, S_IXUSR, S_ISUID, 's', 'S'),
                         S_IRUSR, S_IWUSR, S_IXUSR, S_ISUID, 's', 'S') == Some(m & 0x9c0)
  {
  }

  lemma GroupRoundTrip(m: bv16)
    ensures ParseTriplet(Triplet(m, S_IRGRP, S_IWGRP, S_IXGRP, S_ISGID, 's', 'S'),
                         S_IRGRP, S_IWGRP, S_IXGRP, S_ISGID, 's', 'S') == Some(m & 0x438)
  {
  }

  lemma OtherRoundTrip(m: bv16)
    ensures ParseTriplet(Triplet(m, S_IROTH, S_IWOTH, S_IXOTH, S_ISVTX, 't', 'T'),
                         S_IROTH, S_IWOTH, S_IXOTH, S_ISVTX, 't', 'T') == Some(m & 0x207)
  {
  }

  /** Every mode the twelve bits can hold is recovered exactly from its string:
      the string shows all mode bits and the directory flag. */
  lemma PermissionStringRoundTrip(m: bv16, isDirectory: bool)
    requires m <= 0xfff
    ensures ParsePermissionString(PermissionString(m, isDirectory)) == Some((m, isDirectory))
  {
    var s := PermissionString(m, isDirectory);
    assert s[1..4] == Triplet(m, S_IRUSR, S_IWUSR, S_IXUSR, S_ISUID, 's', 'S');
    assert s[4..7] == Triplet(m, S_IRGRP, S_IWGRP, S_IXGRP, S_ISGID, 's', 'S');
    assert s[7..10] == Triplet(m, S_IROTH, S_IWOTH, S_IXOTH, S_ISVTX, 't', 'T');
    OwnerRoundTrip(m);
    GroupRoundTrip(m);
    OtherRoundTrip(m);
    var u := ParseTriplet(s[1..4], S_IRUSR, S_IWUSR, S_IXUSR, S_ISUID, 's', 'S');
    var g := ParseTriplet(s[4..7], S_IRGRP, S_IWGRP, S_IXGRP, S_ISGID, 's', 'S');
    var o := ParseTriplet(s[7..10], S_IROTH, S_IWOTH, S_IXOTH, S_ISVTX, 't', 'T');
    assert u == Some(m & 0x9c0) && g == Some(m & 0x438) && o == Some(m & 0x207);
    TwelveBits(m);
  }

  lemma TwelveBits(m: bv16)
    requires m <= 0xfff
    ensures (m & 0x9c0) | (m & 0x438) | (m & 0x207) == m
  {
  }

  /** How the three execute columns carry the setuid, setgid and sticky bits,
      and how the read and write columns follow their bits. */
  lemma ExecuteColumns(m: bv16, isDirectory: bool)
    requires m != UnknownMode
    ensures var s := PermissionString(m, isDirectory);
      && (s[1] == 'r' <==> Has(m, S_IRUSR)) && (s[2] == 'w' <==> Has(m, S_IWUSR))
      && (s[4] == 'r' <==> Has(m, S_IRGRP)) && (s[5] == 'w' <==> Has(m, S_IWGRP))
      && (s[7] == 'r' <==> Has(m, S_IROTH)) && (s[8] == 'w' <==> Has(m, S_IWOTH))
      && (s[3] == 's' <==> Has(m, S_ISUID) && Has(m, S_IXUSR))
      && (s[3] == 'S' <==> Has(m, S_ISUID) && !Has(m, S_IXUSR))
      && (s[3] == 'x' <==> !Has(m, S_ISUID) && Has(m, S_IXUSR))
      && (s[6] == 's' <==> Has(m, S_ISGID) && Has(m, S_IXGRP))
      && (s[6] == 'S' <==> Has(m, S_ISGID) && !Has(m, S_IXGRP))
      && (s[6] == 'x' <==> !Has(m, S_ISGID) && Has(m, S_IXGRP))
      && (s[9] == 't' <==> Has(m, S_ISVTX) && Has(m, S_IXOTH))
      && (s[9] == 'T' <==> Has(m, S_ISVTX) && !Has(m, S_IXOTH))
      && (s[9] == 'x' <==> !Has(m, S_ISVTX) && Has(m, S_IXOTH))
  {
  }

  /** An unknown mode shows no permission at all. */
  lemma UnknownModeIsDashes(isDirectory: bool)
    ensures PermissionString(UnknownMode, isDirectory)[1..] == "---------"
  {
  }

  /** The expectations of `testGetPermissions` for plain rwx modes (octal in comments). */
  lemma PlainModeTable()
    ensures PermissionString(0, false) == "----------"
    ensures PermissionString(0x1b6, false) == "-rw-rw-rw-"   // 0666
    ensures PermissionString(0x124, false) == "-r--r--r--"   // 0444
    ensures PermissionString(0x1c0, false) == "-rwx------"   // 0700
  {
  }

  /** The expectations of `testGetPermissions` for setuid, setgid and sticky modes. */
  lemma SpecialBitTable()
    ensures PermissionString(0x9ed, false) == "-rwsr-xr-x"  // 04755
    ensures PermissionString(0x9ad, false) == "-rwSr-xr-x"  // 04655
    ensures PermissionString(0x5ed, false) == "-rwxr-sr-x"  // 02755
    ensures PermissionString(0x5e5, false) == "-rwxr-Sr-x"  // 02745
    ensures PermissionString(0x3ed, false) == "-rwxr-xr-t"  // 01755
    ensures PermissionString(0x3ec, false) == "-rwxr-xr-T"  // 01754
  {
  }

  /** The expectations of `testGetPermissions` for directories. */
  lemma DirectoryTable()
    ensures PermissionString(0, true) == "d---------"
    ensures PermissionString(0x1ed, true) == "drwxr-xr-x"    // 0755
  {
  }
}
