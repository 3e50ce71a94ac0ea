/** One line of an archive listing (the archive's `ListEntry.describeLink`):
    the path alone, or in verbose mode tab-separated columns for the mode,
    owner, group, size, modification time, checksum and path. Columns
    whose data is unknown are left out, with no empty column in their place.
    Local-time formatting of the timestamp is a parameter (`formatTime`). */
module ListEntries {

  import opened Wrappers
  import opened JavaInt
  import opened Text
  import opened Links
  import opened Permissions
  import opened IdCaches

  const Tab: char := '\t'

  /** The size column of a directory. */
  const DirectorySize: string := "       DIR"

  /** The checksum column of a directory. */
  const NoChecksum: string := "        "

  datatype ListEntry = ListEntry(path: string, link: Link, verbose: bool, numeric: bool)

  /** Whether the link carries ownership, that is a known uid and a known
      gid: the mode, owner and group columns are shown only then. */
  predicate HasOwnership(link: Link)
  {
    link.uid != Unknown && link.gid != Unknown
  }

  predicate HasLastModified(link: Link)
  {
    link.lastModified != Unknown
  }

  /** The signed value of the sixteen mode bits, as a Java `short`. */
  function ShortValue(m: bv16): (v: int)
    ensures -0x8000 <= v < 0x8000
  {
    if m < 0x8000 then m as int else m as int - 0x10000
  }

  /** The mode column: symbolic, or octal when numeric ids are requested. */
  function ModeColumn(link: Link, numeric: bool): string
  {
    if numeric then IntToStringRadix(ShortValue(link.permissions), 8)
    else PermissionString(link.permissions, IsDirectory(link))
  }

  /** The size, right-justified to ten characters (`%10d`), or `DIR`. */
  function SizeColumn(link: Link): string
  {
    if IsDirectory(link) then DirectorySize else PadLeft(IntToString(link.size), 10, ' ')
  }

  /** The CRC32 checksum as eight hex digits, or blanks for a directory. */
  function ChecksumColumn(link: Link): string
  {
    if IsDirectory(link) then NoChecksum else Hex8(link.crc32)
  }

  /** The verbose columns, given the owner and group names to show. */
  function Columns(e: ListEntry, user: string, group: string, formatTime: int -> string): seq<string>
  {
    (if HasOwnership(e.link) then [ModeColumn(e.link, e.numeric), user, group] else [])
      + [SizeColumn(e.link)]
      + (if HasLastModified(e.link) then [formatTime(e.link.lastModified)] else [])
      + [ChecksumColumn(e.link), e.path]
  }

  /** The listing line, given the owner and group names to show. */
  function Line(e: ListEntry, user: string, group: string, formatTime: int -> string): string
  {
    if e.verbose then Join(Columns(e, user, group, formatTime), Tab) else e.path
  }

  /** `describeLink()`: resolves owner and group through the session's
      cache (only when they are shown) and lays out the line. */
  method DescribeLink(e: ListEntry, cache: IdCache, formatTime: int -> string) returns (line: string)
    requires cache.Valid()
    modifies cache
    ensures cache.Valid()
    ensures line == Line(e, DisplayName(cache.userNameOf, e.link.uid, e.numeric),
                         DisplayName(cache.groupNameOf, e.link.gid, e.numeric), formatTime)
    ensures !(e.verbose && HasOwnership(e.link) && !e.numeric) ==>
      cache.users == old(cache.users) && cache.groups == old(cache.groups) && cache.queries == old(cache.queries)
    ensures e.verbose && HasOwnership(e.link) && !e.numeric ==>
      && cache.users == old(cache.users)[e.link.uid := DisplayName(cache.userNameOf, e.link.uid, false)]
      && cache.groups == old(cache.groups)[e.link.gid := DisplayName(cache.groupNameOf, e.link.gid, false)]
      && cache.queries == old(cache.queries) + (if e.link.uid in old(cache.users) then 0 else 1)
                                             + (if e.link.gid in old(cache.groups) then 0 else 1)
  {
    if !e.verbose {
      return e.path;
    }
    var user, group := "", "";
    if HasOwnership(e.link) {
      user := cache.GetUser(e.link, e.numeric);
      group := cache.GetGroup(e.link, e.numeric);
    }
    line := Join(Columns(e, user, group, formatTime), Tab);
  }

  lemma NoTabInDigits(s: string, radix: nat)
    requires AllDigits(s, radix)
    ensures Tab !in s
  {
    forall i | 0 <= i < |s| ensures s[i] != Tab {
      assert IsDigit(s[i], radix);
    }
  }

  lemma NoTabInNumber(i: int, radix: nat)
    requires 2 <= radix <= 16
    ensures Tab !in IntToStringRadix(i, radix)
  {
    var s := IntToStringRadix(i, radix);
    if i < 0 {
      NoTabInDigits(s[1..], radix);
      assert s == [s[0]] + s[1..];
    } else {
      NoTabInDigits(s, radix);
    }
  }

  lemma NoTabInMode(link: Link, numeric: bool)
    ensures Tab !in ModeColumn(link, numeric)
  {
    if numeric {
      NoTabInNumber(ShortValue(link.permissions), 8);
    } else {
      PermissionStringAlphabet(link.permissions, IsDirectory(link));
    }
  }

  lemma NoTabInSize(link: Link)
    ensures Tab !in SizeColumn(link)
  {
    if !IsDirectory(link) {
      var n := IntToString(link.size);
      NoTabInNumber(link.size, 10);
      var c := PadLeft(n, 10, ' ');
      assert c == c[..|c| - |n|] + n;
    }
  }

  lemma NoTabInChecksum(link: Link)
    ensures Tab !in ChecksumColumn(link)
  {
    if !IsDirectory(link) {
      NoTabInDigits(Hex8(link.crc32), 16);
    }
  }

  lemma NoTabInColumns(e: ListEntry, user: string, group: string, formatTime: int -> string)
    requires Tab !in user && Tab !in group && Tab !in e.path
    requires Tab !in formatTime(e.link.lastModified)
    ensures var cols := Columns(e, user, group, formatTime);
      forall i :: 0 <= i < |cols| ==> Tab !in cols[i]
  {
    NoTabInMode(e.link, e.numeric);
    NoTabInSize(e.link);
    NoTabInChecksum(e.link);
  }

  /** Which columns a verbose line has, in which order: the path is always
      last, the checksum before it; mode, owner and group open the line
      exactly when the uid and the gid are known; the time stands after the size exactly
      when it is known. Unless a name, the time or the path holds a tab
      itself, splitting the line at its tabs gives these columns back. */
  lemma {:induction false} VerboseLayout(e: ListEntry, user: string, group: string, formatTime: int -> string)
    requires e.verbose
    requires Tab !in user && Tab !in group && Tab !in e.path
    requires Tab !in formatTime(e.link.lastModified)
    ensures var cols := Split(Line(e, user, group, formatTime), Tab);
      var own := if HasOwnership(e.link) then 3 else 0;
      var time := if HasLastModified(e.link) then 1 else 0;
      && |cols| == own + 3 + time
      && cols[|cols| - 1] == e.path
      && cols[|cols| - 2] == ChecksumColumn(e.link)
      && cols[own] == SizeColumn(e.link)
      && (HasLastModified(e.link) ==> cols[own + 1] == formatTime(e.link.lastModified))
      && (HasOwnership(e.link) ==>
            cols[0] == ModeColumn(e.link, e.numeric) && cols[1] == user && cols[2] == group)
  {
    var cols := Columns(e, user, group, formatTime);
    NoTabInColumns(e, user, group, formatTime);
    SplitJoin(cols, Tab);
    if HasOwnership(e.link) {
      assert cols[..3] == [ModeColumn(e.link, e.numeric), user, group];
    }
  }

  /** The size column of a file is its byte count right-justified to ten
      characters, and reads back as that count. */
  lemma SizeColumnReadsBack(link: Link)
    requires !IsDirectory(link)
    requires 0 <= link.size < 10_000_000_000
    ensures |SizeColumn(link)| == 10
    ensures exists k :: 0 <= k < 10 && (forall i :: 0 <= i < k ==> SizeColumn(link)[i] == ' ')
              && ParseInt(SizeColumn(link)[k..], 10) == Some(link.size as int)
  {
    var n := IntToString(link.size);
    assert n == NatToDigits(link.size, 10);
    assert Pow(10, 10) == 10_000_000_000 by {
      assert Pow(10, 5) == 100_000 by {
        assert Pow(10, 2) == 100;
      }
      assert Pow(10, 10) == 10 * 10 * 10 * 10 * 10 * Pow(10, 5);
    }
    DigitsLength(link.size, 10, 10);
    var c := SizeColumn(link);
    assert c == PadLeft(n, 10, ' ');
    var k := 10 - |n|;
    assert c[k..] == n;
    IntToStringRoundTrip(link.size, 10);
  }

  /** The checksum column of a file is eight hex digits whose value is the
      CRC32 read as an unsigned 32-bit number; a directory shows blanks
      whatever checksum it carries. */
  lemma ChecksumColumnMeaning(link: Link)
    ensures IsDirectory(link) ==> ChecksumColumn(link) == "        "
    ensures !IsDirectory(link) ==> var c := ChecksumColumn(link);
      |c| == 8 && AllDigits(c, 16) && DigitsValue(c, 16) == Unsigned32(link.crc32)
  {
  }

  lemma NumberExamples()
    ensures IntToString(100) == "100" && IntToString(111) == "111" && IntToString(0) == "0"
    ensures IntToStringRadix(0x1ed, 8) == "755" && IntToStringRadix(0, 8) == "0"
  {
    assert NatToDigits(10, 10) == "10";
    assert NatToDigits(11, 10) == "11";
    assert NatToDigits(61, 8) == "75";
  }

  lemma ColumnExamples()
    ensures PadLeft("100", 10, ' ') == "       100"
    ensures PadLeft("111", 10, ' ') == "       111"
    ensures Hex8(0) == "00000000" && Hex8(200) == "000000c8"
  {
    assert seq(7, _ => ' ') == "       ";
    assert NatToDigits(200, 16) == "c8";
    assert seq(7, _ => '0') == "0000000";
    assert seq(6, _ => '0') == "000000";
  }

  const ExampleTime: string := "2000-01-01 00:00:00"
  /** The test's timestamp, `946681200491L / 1000L` seconds. */
  const ExampleSeconds: int := 946681200

  // The entries `testDescribeLink` lists, in its order, at the path
  // `dir/link_name` there and at any `path` here.
  function PlainEntry(path: string): ListEntry
  {
    ListEntry(path, NewLink(None, None, None, -1, -1, -1, -1, 0xffff), false, false)
  }
  function SizeOnlyEntry(path: string): ListEntry
  {
    ListEntry(path, NewLink(None, None, Some(RegularFile), 100, -1, -1, -1, 0xffff), true, false)
  }
  function RootFileEntry(path: string): ListEntry
  {
    ListEntry(path, NewLink(None, None, Some(RegularFile), 111, ExampleSeconds, 0, 0, 0x1ed), true, false)
  }
  function RootDirectoryEntry(path: string): ListEntry
  {
    ListEntry(path, Link(None, None, Some(Directory), 111, ExampleSeconds, 0, 0, 0, 0), true, false)
  }
  function NumericFileEntry(path: string): ListEntry
  {
    ListEntry(path, Link(None, None, Some(RegularFile), 111, ExampleSeconds, 0, 0, 0x1ed, 200), true, true)
  }
  function NumericDirectoryEntry(path: string): ListEntry
  {
    ListEntry(path, NewLink(Some("link_name2"), None, Some(Directory), 111, ExampleSeconds, 0, 0, 0), true, true)
  }
  function NoOwnerEntry(path: string): ListEntry
  {
    ListEntry(path, NewLink(Some("link_name"), None, Some(RegularFile), 111, ExampleSeconds, -1, 0, 0x1ed), true, false)
  }
  function NoOwnerNoTimeEntry(path: string): ListEntry
  {
    ListEntry(path, NewLink(Some("link_name2"), None, Some(RegularFile), 111, -1, -1, 0, 0x1ed), true, false)
  }

  lemma FileWithoutOwnerColumns(path: string, u: string, g: string, f: int -> string)
    ensures Columns(SizeOnlyEntry(path), u, g, f) == ["       100", "00000000", path]
    ensures Line(SizeOnlyEntry(path), u, g, f) == Join(["       100", "00000000", path], Tab)
  {
    NumberExamples();
    ColumnExamples();
  }

  lemma FileColumns(path: string, u: string, g: string, f: int -> string)
    requires f(ExampleSeconds) == ExampleTime
    ensures Columns(RootFileEntry(path), u, g, f) == ["-rwxr-xr-x", u, g, "       111", ExampleTime, "00000000", path]
    ensures Line(RootFileEntry(path), u, g, f) == Join(["-rwxr-xr-x", u, g, "       111", ExampleTime, "00000000", path], Tab)
  {
    NumberExamples();
    ColumnExamples();
    assert PermissionString(0x1ed, false) == "-rwxr-xr-x";
  }

  lemma DirectoryColumns(path: string, u: string, g: string, f: int -> string)
    requires f(ExampleSeconds) == ExampleTime
    ensures Columns(RootDirectoryEntry(path), u, g, f) == ["d---------", u, g, "       DIR", ExampleTime, "        ", path]
    ensures Line(RootDirectoryEntry(path), u, g, f) == Join(["d---------", u, g, "       DIR", ExampleTime, "        ", path], Tab)
  {
    DirectoryTable();
  }

  lemma NumericFileColumns(path: string, u: string, g: string, f: int -> string)
    requires f(ExampleSeconds) == ExampleTime
    ensures Columns(NumericFileEntry(path), u, g, f) == ["755", u, g, "       111", ExampleTime, "000000c8", path]
    ensures Line(NumericFileEntry(path), u, g, f) == Join(["755", u, g, "       111", ExampleTime, "000000c8", path], Tab)
  {
    NumberExamples();
    ColumnExamples();
  }

  lemma NumericDirectoryColumns(path: string, u: string, g: string, f: int -> string)
    requires f(ExampleSeconds) == ExampleTime
    ensures Columns(NumericDirectoryEntry(path), u, g, f) == ["0", u, g, "       DIR", ExampleTime, "        ", path]
    ensures Line(NumericDirectoryEntry(path), u, g, f) == Join(["0", u, g, "       DIR", ExampleTime, "        ", path], Tab)
  {
    NumberExamples();
  }

  lemma UnknownOwnerColumns(path: string, u: string, g: string, f: int -> string)
    requires f(ExampleSeconds) == ExampleTime
    ensures Columns(NoOwnerEntry(path), u, g, f) == ["       111", ExampleTime, "00000000", path]
    ensures Line(NoOwnerEntry(path), u, g, f) == Join(["       111", ExampleTime, "00000000", path], Tab)
    ensures Columns(NoOwnerNoTimeEntry(path), u, g, f) == ["       111", "00000000", path]
    ensures Line(NoOwnerNoTimeEntry(path), u, g, f) == Join(["       111", "00000000", path], Tab)
  {
    NumberExamples();
    ColumnExamples();
  }

  /** The first two lines of `testDescribeLink`: the path alone, and a file
      of which only the size is known. */
  method DescribePlainLines(cache: IdCache, formatTime: int -> string, path: string) returns (l0: string, l1: string)
    requires cache.Valid()
    modifies cache
    ensures cache.Valid()
    ensures cache.users == old(cache.users) && cache.groups == old(cache.groups)
    ensures cache.queries == old(cache.queries)
    ensures l0 == path
    ensures l1 == Join(["       100", "00000000", path], Tab)
  {
    l0 := DescribeLink(PlainEntry(path), cache, formatTime);
    var e := SizeOnlyEntry(path);
    FileWithoutOwnerColumns(path, DisplayName(cache.userNameOf, e.link.uid, e.numeric),
                            DisplayName(cache.groupNameOf, e.link.gid, e.numeric), formatTime);
    l1 := DescribeLink(e, cache, formatTime);
  }

  /** The lines of a file and a directory owned by uid and gid 0. */
  method DescribeOwnedLines(cache: IdCache, rootGroup: string, formatTime: int -> string, path: string)
    returns (l2: string, l3: string)
    requires cache.Valid()
    requires cache.userNameOf(0) == Some("root") && cache.groupNameOf(0) == Some(rootGroup)
    requires formatTime(ExampleSeconds) == ExampleTime
    modifies cache
    ensures cache.Valid()
    ensures cache.queries == old(cache.queries) + (if 0 in old(cache.users) then 0 else 1)
                                                + (if 0 in old(cache.groups) then 0 else 1)
    ensures l2 == Join(["-rwxr-xr-x", "root", rootGroup, "       111", ExampleTime, "00000000", path], Tab)
    ensures l3 == Join(["d---------", "root", rootGroup, "       DIR", ExampleTime, "        ", path], Tab)
  {
    var e := RootFileEntry(path);
    assert DisplayName(cache.userNameOf, e.link.uid, e.numeric) == "root";
    assert DisplayName(cache.groupNameOf, e.link.gid, e.numeric) == rootGroup;
    FileColumns(path, "root", rootGroup, formatTime);
    l2 := DescribeLink(e, cache, formatTime);
    e := RootDirectoryEntry(path);
    assert DisplayName(cache.userNameOf, e.link.uid, e.numeric) == "root";
    assert DisplayName(cache.groupNameOf, e.link.gid, e.numeric) == rootGroup;
    DirectoryColumns(path, "root", rootGroup, formatTime);
    l3 := DescribeLink(e, cache, formatTime);
  }

  /** The same owner in numeric mode: the ids are printed as they are. */
  method DescribeNumericLines(cache: IdCache, formatTime: int -> string, path: string) returns (l4: string, l5: string)
    requires cache.Valid()
    requires formatTime(ExampleSeconds) == ExampleTime
    modifies cache
    ensures cache.Valid() && cache.queries == old(cache.queries)
    ensures l4 == Join(["755", "0", "0", "       111", ExampleTime, "000000c8", path], Tab)
    ensures l5 == Join(["0", "0", "0", "       DIR", ExampleTime, "        ", path], Tab)
  {
    assert IntToString(0) == "0" by { NumberExamples(); }
    var e := NumericFileEntry(path);
    assert DisplayName(cache.userNameOf, e.link.uid, e.numeric) == DisplayName(cache.groupNameOf, e.link.gid, e.numeric) == "0";
    NumericFileColumns(path, "0", "0", formatTime);
    l4 := DescribeLink(e, cache, formatTime);
    e := NumericDirectoryEntry(path);
    assert DisplayName(cache.userNameOf, e.link.uid, e.numeric) == DisplayName(cache.groupNameOf, e.link.gid, e.numeric) == "0";
    NumericDirectoryColumns(path, "0", "0", formatTime);
    l5 := DescribeLink(e, cache, formatTime);
  }

  /** Files with an unknown uid, with and without a known time. */
  method DescribeUnownedLines(cache: IdCache, formatTime: int -> string, path: string) returns (l6: string, l7: string)
    requires cache.Valid()
    requires formatTime(ExampleSeconds) == ExampleTime
    modifies cache
    ensures cache.Valid() && cache.queries == old(cache.queries)
    ensures l6 == Join(["       111", ExampleTime, "00000000", path], Tab)
    ensures l7 == Join(["       111", "00000000", path], Tab)
  {
    var e := NoOwnerEntry(path);
    UnknownOwnerColumns(path, DisplayName(cache.userNameOf, e.link.uid, e.numeric),
                        DisplayName(cache.groupNameOf, e.link.gid, e.numeric), formatTime);
    l6 := DescribeLink(e, cache, formatTime);
    l7 := DescribeLink(NoOwnerNoTimeEntry(path), cache, formatTime);
  }

  /** The expectations of `testDescribeLink` as one session sharing one
      cache: uid and gid 0 name `root` and `rootGroup`, and the timestamp
      946681200 formats as the first second of the year 2000. Each expected
      line is written as its tab-separated columns. The account database is
      asked twice in all, once for uid 0 and once for gid 0. */
  method DescribeLinkSession(userNameOf: int -> Option<string>, groupNameOf: int -> Option<string>,
                             rootGroup: string, formatTime: int -> string, path: string)
    returns (lines: seq<string>, queries: nat)
    requires userNameOf(0) == Some("root") && groupNameOf(0) == Some(rootGroup)
    requires formatTime(ExampleSeconds) == ExampleTime
    ensures queries == 2
    ensures |lines| == 8
    ensures lines[0] == path
    ensures lines[1] == Join(["       100", "00000000", path], Tab)
    ensures lines[2] == Join(["-rwxr-xr-x", "root", rootGroup, "       111", ExampleTime, "00000000", path], Tab)
    ensures lines[3] == Join(["d---------", "root", rootGroup, "       DIR", ExampleTime, "        ", path], Tab)
    ensures lines[4] == Join(["755", "0", "0", "       111", ExampleTime, "000000c8", path], Tab)
    ensures lines[5] == Join(["0", "0", "0", "       DIR", ExampleTime, "        ", path], Tab)
    ensures lines[6] == Join(["       111", ExampleTime, "00000000", path], Tab)
    ensures lines[7] == Join(["       111", "00000000", path], Tab)
  {
    assert 946681200491 / 1000 == ExampleSeconds;
    var cache := new IdCache(userNameOf, groupNameOf);
    var l0, l1 := DescribePlainLines(cache, formatTime, path);
    var l2, l3 := DescribeOwnedLines(cache, rootGroup, formatTime, path);
    var l4, l5 := DescribeNumericLines(cache, formatTime, path);
    var l6, l7 := DescribeUnownedLines(cache, formatTime, path);
    lines := [l0, l1, l2, l3, l4, l5, l6, l7];
    queries := cache.queries;
  }
}
