/**
 The skill archive reader: what it accepts is a plain ZIP archive (sections 4.3.7, 4.3.12 and 4.3.16
 of PKWARE APPNOTE) whose directory has no gaps, whose entries share no bytes, and whose paths can
 be laid out in a directory. Decoding text, inflating and checksums are parameters.
 */
module SkillZip {
  import opened Options

  type byte = x: int | 0 <= x < 256
  type Bytes = seq<byte>

  /** UTF-8 decoding; inflating under a ceiling, with the input consumed; the checksum. */
  datatype Codec = Codec(
    utf8: Bytes -> Option<string>,
    inflate: (Bytes, nat) -> Option<(Bytes, nat)>,
    crc32: Bytes -> nat)

  datatype Central = Central(flags: nat, scheme: nat, crc: nat, compressed: nat, expanded: nat, filename: Bytes,
                             name: string, directory: bool, path: string, mode: nat, local: nat, next: nat)
  /** One accepted entry: where its record is, the bytes it occupies and what they hold. */
  datatype Found = Found(at: nat, entry: Central, start: nat, finish: nat, bytes: Bytes)
  datatype Range = Range(from: nat, to: nat)
  datatype File = File(bytes: Bytes, executable: bool)
  datatype Result<+T> = Ok(value: T) | Invalid | TooLarge

  const END_RECORD: nat := 0x06054b50
  const CENTRAL_HEADER: nat := 0x02014b50
  const LOCAL_HEADER: nat := 0x04034b50

  function U16(d: Bytes, at: nat): nat
    requires at + 2 <= |d|
  {
    (d[at] as int) + 256 * (d[at + 1] as int)
  }

  function U32(d: Bytes, at: nat): nat
    requires at + 4 <= |d|
  {
    U16(d, at) + 65536 * U16(d, at + 2)
  }

  /** Whether bit `at` of a number, given as the power of two, is set. */
  predicate Bit(value: nat, power: nat)
    requires power > 0
  {
    value / power % 2 == 1
  }

  /** A general purpose flag other than the two for deflate's effort, the descriptor's and the encoding's. */
  predicate UnknownFlags(flags: nat) { Bit(flags, 1) || flags / 16 % 128 != 0 || flags / 4096 != 0 }

  const DESCRIPTOR: nat := 8

  // --- The end record ------------------------------------------------------------------------------------

  /** An end record starts here and its comment runs to the end of the archive. */
  predicate EndsAt(d: Bytes, end: nat) {
    end + 22 <= |d| && U32(d, end) == END_RECORD && end + 22 + U16(d, end + 20) == |d|
  }

  function Lowest(d: Bytes): nat { if |d| > 65557 then |d| - 65557 else 0 }

  /** Where the search down to the longest comment's start stops: there, or one byte below its window. */
  function FindEnd(d: Bytes, from: int): (end: int)
    requires from + 22 <= |d|
    ensures end <= from && (from >= Lowest(d) - 1 ==> end >= Lowest(d) - 1)
    ensures end >= Lowest(d) ==> EndsAt(d, end)
    ensures forall e: nat | Lowest(d) <= e <= from && EndsAt(d, e) :: end >= Lowest(d) && e <= end
    decreases from - Lowest(d) + 1
  {
    if from >= Lowest(d) && !EndsAt(d, from) then FindEnd(d, from - 1) else from
  }

  datatype End = End(end: nat, count: nat, central: nat)

  /** The record where the search stopped; that the comment fits is checked only by the search. */
  function EndRecord(d: Bytes): Option<End> {
    var end := FindEnd(d, |d| - 22);
    if end < 0 || U32(d, end) != END_RECORD then None
    else if U16(d, end + 4) != 0 || U16(d, end + 6) != 0 || U16(d, end + 8) != U16(d, end + 10) then None
    else
      var count, central := U16(d, end + 10), U32(d, end + 16);
      if count == 0 || count > 1000 || central + U32(d, end + 12) != end then None
      else Some(End(end, count, central))
  }

  /** The search in place, and the checks behind it. */
  method EndOfCentralDirectory(d: Bytes) returns (ending: Option<End>)
    ensures ending == EndRecord(d)
  {
    var end := |d| - 22;
    while end >= Lowest(d) && !EndsAt(d, end)
      invariant end + 22 <= |d| && FindEnd(d, |d| - 22) == FindEnd(d, end)
      decreases end - Lowest(d) + 1
    {
      end := end - 1;
    }
    if end < 0 || U32(d, end) != END_RECORD || U16(d, end + 4) != 0 || U16(d, end + 6) != 0
       || U16(d, end + 8) != U16(d, end + 10)
    {
      return None;
    }
    var count, central := U16(d, end + 10), U32(d, end + 16);
    if count == 0 || count > 1000 || central + U32(d, end + 12) != end { return None; }
    return Some(End(end, count, central));
  }

  /** The end record read: closed by its comment exactly if it is in the window of comments. */
  predicate EndFound(d: Bytes, end: End) {
    && end.end + 22 <= |d| && U32(d, end.end) == END_RECORD && end.count == U16(d, end.end + 10)
    && end.end >= Lowest(d) - 1 && (EndsAt(d, end.end) <==> end.end >= Lowest(d))
  }

  /**
   The end record an archive is read by is the last one whose comment runs to the end of the archive, if
   any does; if none does, it is the one at the byte below the window of comments, if there is one.
   */
  lemma EndRecordIsLast(d: Bytes)
    requires EndRecord(d).Some?
    ensures EndFound(d, EndRecord(d).value)
    ensures var end := EndRecord(d).value.end;
            && (forall e: nat | EndsAt(d, e) :: end >= Lowest(d) && e <= end)
            && (EndsAt(d, end) <==> exists e: nat :: EndsAt(d, e))
  {
    var end := EndRecord(d).value.end;
    forall e: nat | EndsAt(d, e) ensures end >= Lowest(d) && e <= end { assert U16(d, e + 20) < 65536; }
    if EndsAt(d, end) { assert U16(d, end + 20) < 65536; }
  }

  // --- Paths ----------------------------------------------------------------------------------------------

  function Split(path: string): (parts: seq<string>)
    ensures parts != []
  {
    if path == [] then [""]
    else if path[0] == '/' then [""] + Split(path[1..])
    else var rest := Split(path[1..]); [[path[0]] + rest[0]] + rest[1..]
  }

  function Join(parts: seq<string>): string {
    if parts == [] then "" else if |parts| == 1 then parts[0] else parts[0] + "/" + Join(parts[1..])
  }

  predicate Plain(part: string) { part != "" && part != "." && part != ".." }

  /** A relative path of ordinary names. */
  predicate SafePath(path: string) {
    && path != ""
    && (forall c | c in path :: c != '\\' && c != ':' && c as int >= 32)
    && forall part | part in Split(path) :: Plain(part)
  }

  function PathOf(name: string): string { if name != "" && name[|name| - 1] == '/' then name[..|name| - 1] else name }

  predicate IsDirectory(name: string) { name != "" && name[|name| - 1] == '/' }

  // --- One entry ------------------------------------------------------------------------------------------

  function CentralAt(c: Codec, d: Bytes, at: nat, end: nat): Option<Central>
    requires end <= |d|
  {
    if at + 46 > end || U32(d, at) != CENTRAL_HEADER then None
    else
      var flags, scheme, crc := U16(d, at + 8), U16(d, at + 10), U32(d, at + 16);
      var compressed, expanded := U32(d, at + 20), U32(d, at + 24);
      var length, extra, comment := U16(d, at + 28), U16(d, at + 30), U16(d, at + 32);
      var mode, local := U32(d, at + 38) / 65536, U32(d, at + 42);
      var next := at + 46 + length + extra + comment;
      if UnknownFlags(flags) || (scheme != 0 && scheme != 8) || U16(d, at + 34) != 0
         || next > end || length == 0 || length > 1024
      then None
      else
        var filename := d[at + 46..at + 46 + length];
        match c.utf8(filename)
        case None => None
        case Some(name) =>
          if !SafePath(PathOf(name)) then None
          else Some(Central(flags, scheme, crc, compressed, expanded, filename, name, IsDirectory(name), PathOf(name),
                            mode, local, next))
  }

  predicate Executable(mode: nat) { Bit(mode, 1) || Bit(mode, 8) || Bit(mode, 64) }

  /** The Unix file type in the mode, if there is one, is that of the entry. */
  predicate KindAgrees(e: Central) {
    var kind := e.mode / 4096;
    kind == 0 || kind == if e.directory then 4 else 8
  }

  function LocalRange(d: Bytes, e: Central, central: nat): Option<Range>
    requires central <= |d|
  {
    var length := |e.filename|;
    if e.local + 30 > central || U32(d, e.local) != LOCAL_HEADER || U16(d, e.local + 6) != e.flags
       || U16(d, e.local + 8) != e.scheme || U16(d, e.local + 26) != length
       || e.local + 30 + length > |d| || d[e.local + 30..e.local + 30 + length] != e.filename
    then None
    else if !Bit(e.flags, DESCRIPTOR)
            && (U32(d, e.local + 14) != e.crc || U32(d, e.local + 18) != e.compressed || U32(d, e.local + 22) != e.expanded)
    then None
    else
      var start := e.local + 30 + length + U16(d, e.local + 28);
      var finish := start + e.compressed;
      if start > central || finish > central then None else Some(Range(start, finish))
  }

  function EntryBytes(c: Codec, source: Bytes, e: Central): Option<Bytes> {
    if e.scheme != 8 then Some(source)
    else
      match c.inflate(source, if e.expanded > 1 then e.expanded else 1)
      case None => None
      case Some((bytes, consumed)) => if consumed != |source| then None else Some(bytes)
  }

  // --- The whole archive ---------------------------------------------------------------------------------------

  function Paths(found: seq<Found>): set<string> { set f | f in found :: f.entry.path }

  function Expanded(found: seq<Found>): nat
    decreases |found|
  {
    if found == [] then 0 else Expanded(found[..|found| - 1]) + found[|found| - 1].entry.expanded
  }

  function ReadEntry(c: Codec, d: Bytes, limit: nat, at: nat, end: End, before: seq<Found>): Result<Found>
    requires end.central <= end.end <= |d|
  {
    match CentralAt(c, d, at, end.end)
    case None => Invalid
    case Some(e) =>
      if e.path in Paths(before) || !KindAgrees(e) then Invalid
      else if Expanded(before) + e.expanded > limit then TooLarge
      else
        match LocalRange(d, e, end.central)
        case None => Invalid
        case Some(range) =>
          match EntryBytes(c, d[range.from..range.to], e)
          case None => Invalid
          case Some(bytes) =>
            if |bytes| != e.expanded || c.crc32(bytes) != e.crc || (e.directory && e.expanded != 0) then Invalid
            else Ok(Found(at, e, range.from, range.to, bytes))
  }

  /** Reads the record at an offset, given what was read before. */
  type Reader = (nat, seq<Found>) -> Result<Found>

  function EntryReader(c: Codec, d: Bytes, limit: nat, end: End): Reader
    requires end.central <= end.end <= |d|
  {
    (at: nat, before: seq<Found>) => ReadEntry(c, d, limit, at, end, before)
  }

  function ReadEntries(read: Reader, at: nat, stop: nat, left: nat, before: seq<Found>): Result<seq<Found>>
    decreases left
  {
    if left == 0 then if at == stop then Ok(before) else Invalid
    else
      match read(at, before)
      case Invalid => Invalid
      case TooLarge => TooLarge
      case Ok(f) => ReadEntries(read, f.entry.next, stop, left - 1, before + [f])
  }

  function RangesOf(found: seq<Found>): seq<Range> {
    seq(|found|, i requires 0 <= i < |found| => Range(found[i].entry.local, found[i].finish))
  }

  function InsertRange(r: Range, sorted: seq<Range>): seq<Range> {
    if sorted == [] || r.from < sorted[0].from then [r] + sorted else [sorted[0]] + InsertRange(r, sorted[1..])
  }

  function SortRanges(ranges: seq<Range>): seq<Range>
    decreases |ranges|
  {
    if ranges == [] then [] else InsertRange(ranges[|ranges| - 1], SortRanges(ranges[..|ranges| - 1]))
  }

  /** Each range ends before the next begins. */
  predicate Apart(sorted: seq<Range>) {
    |sorted| < 2 || (sorted[1].from >= sorted[0].to && Apart(sorted[1..]))
  }

  function FileNames(found: seq<Found>): set<string> { set f | f in found && !f.entry.directory :: f.entry.name }

  /** The paths of the directories a path goes through, as joined from its parts. */
  function Parents(path: string): set<string> {
    var parts := Split(path);
    set n | 0 < n < |parts| :: Join(parts[..n])
  }

  predicate FilesAreLeaves(found: seq<Found>) { forall f | f in found :: Parents(f.entry.path) !! FileNames(found) }

  /** The records in order, then the checks over all of them. */
  function ReadAll(read: Reader, end: End): Result<seq<Found>> {
    match ReadEntries(read, end.central, end.end, end.count, [])
    case Invalid => Invalid
    case TooLarge => TooLarge
    case Ok(found) => if !Apart(SortRanges(RangesOf(found))) || !FilesAreLeaves(found) then Invalid else Ok(found)
  }

  function ReadArchive(c: Codec, d: Bytes, limit: nat): Result<seq<Found>> {
    match EndRecord(d)
    case None => Invalid
    case Some(end) => ReadAll(EntryReader(c, d, limit, end), end)
  }

  // --- Disjointness: sorting and comparing neighbours is enough -------------------------------------------------

  predicate Overlap(a: Range, b: Range) { a.from < b.to && b.from < a.to }

  /** No range overlaps a later one. */
  ghost predicate Disjoint(ranges: seq<Range>) {
    forall i, j | 0 <= i < j < |ranges| :: !Overlap(ranges[i], ranges[j])
  }

  ghost predicate Solid(ranges: seq<Range>) { forall r | r in ranges :: r.from < r.to }

  ghost predicate Rising(ranges: seq<Range>) {
    ranges == [] || ((forall r | r in ranges[1..] :: ranges[0].from <= r.from) && Rising(ranges[1..]))
  }

  /** As Disjoint, but said from the front: the shape insertion keeps. */
  ghost predicate Clear(ranges: seq<Range>) {
    ranges == [] || ((forall r | r in ranges[1..] :: !Overlap(ranges[0], r)) && Clear(ranges[1..]))
  }

  lemma {:induction false} ClearIsDisjoint(ranges: seq<Range>)
    ensures Clear(ranges) <==> Disjoint(ranges)
  {
    if ranges != [] {
      ClearIsDisjoint(ranges[1..]);
      assert ranges == [ranges[0]] + ranges[1..];
      if Disjoint(ranges) {
        forall i, j | 0 <= i < j < |ranges[1..]| ensures !Overlap(ranges[1..][i], ranges[1..][j]) {
          assert ranges[1..][i] == ranges[i + 1] && ranges[1..][j] == ranges[j + 1];
        }
        forall r | r in ranges[1..] ensures !Overlap(ranges[0], r) {
          var j :| 0 <= j < |ranges[1..]| && ranges[1..][j] == r;
          assert ranges[j + 1] == r;
        }
      }
      if Clear(ranges) {
        forall i, j | 0 <= i < j < |ranges| ensures !Overlap(ranges[i], ranges[j]) {
          assert ranges[j] == ranges[1..][j - 1];
          if i > 0 { assert ranges[i] == ranges[1..][i - 1]; }
        }
      }
    }
  }

  lemma {:induction false} InsertKeeps(r: Range, sorted: seq<Range>)
    requires Rising(sorted)
    ensures Rising(InsertRange(r, sorted))
    ensures forall x :: x in InsertRange(r, sorted) <==> x == r || x in sorted
    ensures Clear(InsertRange(r, sorted)) <==> Clear(sorted) && forall x | x in sorted :: !Overlap(x, r)
  {
    if sorted == [] {
    } else if r.from < sorted[0].from {
      assert ([r] + sorted)[1..] == sorted && sorted == [sorted[0]] + sorted[1..];
    } else {
      InsertKeeps(r, sorted[1..]);
      assert sorted == [sorted[0]] + sorted[1..];
      assert InsertRange(r, sorted)[1..] == InsertRange(r, sorted[1..]);
    }
  }

  lemma {:induction false} SortingKeeps(ranges: seq<Range>)
    ensures Rising(SortRanges(ranges)) && |SortRanges(ranges)| == |ranges|
    ensures forall x :: x in SortRanges(ranges) <==> x in ranges
    ensures Clear(SortRanges(ranges)) <==> Disjoint(ranges)
    decreases |ranges|
  {
    if ranges != [] {
      var init, last := ranges[..|ranges| - 1], ranges[|ranges| - 1];
      SortingKeeps(init);
      InsertKeeps(last, SortRanges(init));
      assert ranges == init + [last];
      InsertedLength(last, SortRanges(init));
      LastJoins(init, last);
    }
  }

  lemma {:induction false} InsertedLength(r: Range, sorted: seq<Range>)
    ensures |InsertRange(r, sorted)| == |sorted| + 1
  {
    if sorted != [] && r.from >= sorted[0].from { InsertedLength(r, sorted[1..]); }
  }

  lemma LastJoins(init: seq<Range>, last: Range)
    ensures Disjoint(init + [last]) <==> Disjoint(init) && forall x | x in init :: !Overlap(x, last)
  {
    var all := init + [last];
    if Disjoint(all) {
      forall i, j | 0 <= i < j < |init| ensures !Overlap(init[i], init[j]) {
        assert all[i] == init[i] && all[j] == init[j];
      }
      forall x | x in init ensures !Overlap(x, last) {
        var i :| 0 <= i < |init| && init[i] == x;
        assert all[i] == x && all[|init|] == last;
      }
    }
    if Disjoint(init) && forall x | x in init :: !Overlap(x, last) {
      forall i, j | 0 <= i < j < |all| ensures !Overlap(all[i], all[j]) {
        if j == |init| { assert all[i] in init; }
      }
    }
  }

  /** Among sorted ranges that are not empty, neighbours apart means all apart. */
  lemma {:induction false} NeighboursDecide(sorted: seq<Range>)
    requires Rising(sorted) && Solid(sorted)
    ensures Apart(sorted) <==> Clear(sorted)
  {
    if |sorted| >= 2 {
      forall r | r in sorted[1..] ensures r in sorted {}
      NeighboursDecide(sorted[1..]);
      assert sorted[1] == sorted[1..][0] && sorted[1] in sorted;
      assert sorted[1..] == [sorted[1]] + sorted[1..][1..];
      if Apart(sorted) {
        forall r | r in sorted[1..] ensures !Overlap(sorted[0], r) { assert r == sorted[1] || r in sorted[1..][1..]; }
      }
    }
  }

  /** The reader's check accepts exactly the ranges of which no two overlap. */
  lemma ApartIffDisjoint(ranges: seq<Range>)
    requires Solid(ranges)
    ensures Apart(SortRanges(ranges)) <==> Disjoint(ranges)
  {
    SortingKeeps(ranges);
    NeighboursDecide(SortRanges(ranges));
  }

  // --- Directory prefixes --------------------------------------------------------------------------------------

  /** Putting a character in front of the first part puts it in front of the path. */
  lemma JoinPrefixed(c: char, parts: seq<string>)
    requires parts != []
    ensures Join([[c] + parts[0]] + parts[1..]) == [c] + Join(parts)
  {
    var prefixed := [[c] + parts[0]] + parts[1..];
    assert prefixed[1..] == parts[1..];
    if |parts| > 1 { assert [c] + (parts[0] + "/" + Join(parts[1..])) == ([c] + parts[0]) + "/" + Join(parts[1..]); }
  }

  /** An empty part in front puts a slash in front of the path. */
  lemma JoinRooted(parts: seq<string>)
    requires parts != []
    ensures Join([""] + parts) == ['/'] + Join(parts)
  {
    assert ([""] + parts)[1..] == parts;
    assert "" + "/" + Join(parts) == ['/'] + Join(parts);
  }

  lemma {:induction false} JoinSplit(path: string)
    ensures Join(Split(path)) == path
  {
    if path != [] {
      JoinSplit(path[1..]);
      assert path == [path[0]] + path[1..];
      if path[0] == '/' { JoinRooted(Split(path[1..])); } else { JoinPrefixed(path[0], Split(path[1..])); }
    }
  }

  /** The first parts of a path are those of the rest of it, behind its first character. */
  lemma LeadingParts(path: string, n: nat)
    requires path != "" && 0 < n <= |Split(path)|
    ensures path[0] == '/' ==> Split(path)[..n] == [""] + Split(path[1..])[..n - 1]
    ensures path[0] != '/' ==> Split(path)[..n] == [[path[0]] + Split(path[1..])[..n][0]] + Split(path[1..])[..n][1..]
  {
  }

  /** A parent joined from the first parts is the path cut at a slash. */
  lemma {:induction false} ParentCut(path: string, n: nat) returns (k: nat)
    requires 0 < n < |Split(path)|
    ensures k < |path| && path[k] == '/' && path[..k] == Join(Split(path)[..n])
  {
    LeadingParts(path, n);
    var rest := Split(path[1..]);
    if path[0] == '/' && n == 1 {
      k := 0;
      assert Split(path)[..1] == [""];
    } else if path[0] == '/' {
      var m := ParentCut(path[1..], n - 1);
      k := m + 1;
      JoinRooted(rest[..n - 1]);
      assert path[..k] == [path[0]] + path[1..][..m];
    } else {
      var m := ParentCut(path[1..], n);
      k := m + 1;
      JoinPrefixed(path[0], rest[..n]);
      assert path[..k] == [path[0]] + path[1..][..m];
    }
  }

  /** Which number of parts a cut at a slash leaves. */
  lemma {:induction false} CutAfter(path: string, k: nat) returns (n: nat)
    requires k < |path| && path[k] == '/'
    ensures 0 < n < |Split(path)| && Join(Split(path)[..n]) == path[..k]
    decreases |path|
  {
    var rest := Split(path[1..]);
    if k == 0 {
      n := 1;
      assert Split(path)[..1] == [""];
    } else {
      var m := CutAfter(path[1..], k - 1);
      assert path[..k] == [path[0]] + path[1..][..k - 1];
      if path[0] == '/' {
        n := m + 1;
        JoinRooted(rest[..m]);
      } else {
        n := m;
        JoinPrefixed(path[0], rest[..n]);
      }
      LeadingParts(path, n);
    }
  }

  /** `file` is a directory that `path` goes through. */
  ghost predicate GoesThrough(path: string, file: string) {
    |file| < |path| && path[|file|] == '/' && path[..|file|] == file
  }

  lemma ParentsIff(path: string, file: string)
    ensures file in Parents(path) <==> GoesThrough(path, file)
  {
    if file in Parents(path) {
      var n :| 0 < n < |Split(path)| && Join(Split(path)[..n]) == file;
      var k := ParentCut(path, n);
    }
    if GoesThrough(path, file) { var n := CutAfter(path, |file|); }
  }

  // --- The parts of a path --------------------------------------------------------------------------------------

  /** What lies between two slashes, or a slash and an end of the path. */
  ghost predicate Stretch(path: string, i: nat, j: nat) {
    && i <= j <= |path| && (i == 0 || path[i - 1] == '/') && (j == |path| || path[j] == '/')
    && forall x | i <= x < j :: path[x] != '/'
  }

  lemma TailSlice(path: string, i: nat, j: nat)
    requires path != "" && i <= j < |path|
    ensures path[i + 1..j + 1] == path[1..][i..j]
  {
    var one, other := path[i + 1..j + 1], path[1..][i..j];
    forall k | 0 <= k < j - i ensures one[k] == other[k] { assert other[k] == path[1..][i + k] == path[i + k + 1]; }
  }

  lemma StretchOnward(path: string, i: nat, j: nat)
    requires path != "" && i <= j < |path|
    ensures path[i + 1..j + 1] == path[1..][i..j]
    ensures i > 0 ==> (Stretch(path, i + 1, j + 1) <==> Stretch(path[1..], i, j))
    ensures i == 0 && path[0] == '/' ==> (Stretch(path, 1, j + 1) <==> Stretch(path[1..], 0, j))
    ensures i == 0 && path[0] != '/' ==> (Stretch(path, 0, j + 1) <==> Stretch(path[1..], 0, j))
  {
    TailSlice(path, i, j);
    assert forall x | i <= x < j :: path[1..][x] == path[x + 1];
  }

  /** The first part is the first stretch. */
  lemma {:induction false} FirstPart(path: string) returns (j: nat)
    ensures Stretch(path, 0, j) && Split(path)[0] == path[..j]
  {
    if path == "" || path[0] == '/' {
      j := 0;
    } else {
      var k := FirstPart(path[1..]);
      j := k + 1;
      StretchOnward(path, 0, k);
      assert path[..j] == [path[0]] + path[1..][..k];
    }
  }

  /** Every part is a stretch. */
  lemma {:induction false} PartIsStretch(path: string, k: nat) returns (i: nat, j: nat)
    requires k < |Split(path)|
    ensures Stretch(path, i, j) && path[i..j] == Split(path)[k] && (k > 0 ==> i > 0)
    decreases |path|
  {
    if k == 0 {
      i := 0;
      j := FirstPart(path);
    } else {
      var rest := Split(path[1..]);
      var at := if path[0] == '/' then k - 1 else k;
      assert Split(path)[k] == rest[at];
      i, j := PartIsStretch(path[1..], at);
      StretchOnward(path, i, j);
      i, j := i + 1, j + 1;
    }
  }

  /** Every stretch is a part. */
  lemma {:induction false} StretchIsPart(path: string, i: nat, j: nat) returns (k: nat)
    requires Stretch(path, i, j)
    ensures k < |Split(path)| && Split(path)[k] == path[i..j] && (k > 0 <==> i > 0)
    decreases |path|
  {
    if i == 0 {
      var first := FirstPart(path);
      k := 0;
    } else {
      StretchOnward(path, i - 1, j - 1);
      var m := StretchIsPart(path[1..], i - 1, j - 1);
      k := if path[0] == '/' then m + 1 else m;
      assert path[i..j] == path[1..][i - 1..j - 1];
    }
  }

  /** A path is safe exactly if it has ordinary characters and nothing empty, `.` or `..` between its slashes. */
  lemma SafePathIff(path: string)
    ensures SafePath(path)
            <==> (forall c | c in path :: c != '\\' && c != ':' && c as int >= 32)
                 && forall i: nat, j: nat | Stretch(path, i, j) :: path[i..j] !in {"", ".", ".."}
  {
    if forall part | part in Split(path) :: Plain(part) {
      forall i: nat, j: nat | Stretch(path, i, j) ensures path[i..j] !in {"", ".", ".."} {
        var k := StretchIsPart(path, i, j);
        assert Split(path)[k] in Split(path);
      }
    }
    if forall i: nat, j: nat | Stretch(path, i, j) :: path[i..j] !in {"", ".", ".."} {
      if path == "" { assert Stretch(path, 0, 0); }
      forall part | part in Split(path) ensures Plain(part) {
        var k :| 0 <= k < |Split(path)| && Split(path)[k] == part;
        var i, j := PartIsStretch(path, k);
      }
    }
  }

  // --- Soundness --------------------------------------------------------------------------------------------------

  /** The records follow one another without a gap from `at` to `end`. */
  ghost predicate Tiles(found: seq<Found>, at: nat, end: nat)
    decreases |found|
  {
    if found == [] then at == end
    else found[|found| - 1].entry.next == end && found[|found| - 1].at < end && Tiles(found[..|found| - 1], at, found[|found| - 1].at)
  }

  /** Deflate's effort in two bits, a descriptor behind the data, and UTF-8 names; no other flag. */
  ghost predicate KnownFlags(flags: nat) {
    exists effort: nat, descriptor: nat, unicode: nat ::
      effort < 4 && descriptor < 2 && unicode < 2 && flags == 2 * effort + 8 * descriptor + 2048 * unicode
  }

  lemma FlagsIff(flags: nat)
    requires flags < 65536
    ensures UnknownFlags(flags) <==> !KnownFlags(flags)
  {
    if !UnknownFlags(flags) {
      assert flags % 2 == 0 && flags / 16 % 128 == 0 && flags / 4096 == 0;
      var effort, descriptor, unicode := flags / 2 % 4, flags / 8 % 2, flags / 2048;
      assert flags == 2 * effort + 8 * descriptor + 2048 * unicode;
    }
  }

  /** The central record at an offset says this of its entry (section 4.3.12). */
  ghost predicate CentralRecord(c: Codec, d: Bytes, at: nat, e: Central, end: nat) {
    && at + 46 <= end <= |d| && U32(d, at) == CENTRAL_HEADER
    && e.flags == U16(d, at + 8) && KnownFlags(e.flags)
    && e.scheme == U16(d, at + 10) && e.scheme in {0, 8}
    && e.crc == U32(d, at + 16) && e.compressed == U32(d, at + 20) && e.expanded == U32(d, at + 24)
    && |e.filename| == U16(d, at + 28) && 1 <= |e.filename| <= 1024
    && U16(d, at + 34) == 0 && e.mode == U16(d, at + 40) && e.local == U32(d, at + 42)
    && e.next == at + 46 + |e.filename| + U16(d, at + 30) + U16(d, at + 32) && e.next <= end
    && e.filename == d[at + 46..at + 46 + |e.filename|]
    && c.utf8(e.filename) == Some(e.name) && SafePath(e.path)
    && e.name == e.path + (if e.directory then "/" else "") && (e.directory <==> e.name[|e.name| - 1] == '/')
  }

  /** The local header agrees with it, and the data between `start` and `finish` ends before the directory. */
  ghost predicate LocalHeader(d: Bytes, e: Central, start: nat, finish: nat, central: nat) {
    && e.local + 30 <= central <= |d| && U32(d, e.local) == LOCAL_HEADER
    && U16(d, e.local + 6) == e.flags && U16(d, e.local + 8) == e.scheme && U16(d, e.local + 26) == |e.filename|
    && e.local + 30 + |e.filename| <= |d| && d[e.local + 30..e.local + 30 + |e.filename|] == e.filename
    && (e.flags / 8 % 2 == 0 ==>
          U32(d, e.local + 14) == e.crc && U32(d, e.local + 18) == e.compressed && U32(d, e.local + 22) == e.expanded)
    && start == e.local + 30 + |e.filename| + U16(d, e.local + 28) && finish == start + e.compressed && finish <= central
  }

  /** The bytes are those stored, or what all of those stored inflate to, and are as long as declared. */
  ghost predicate Body(c: Codec, source: Bytes, e: Central, bytes: Bytes) {
    && (e.scheme == 0 ==> bytes == source)
    && (e.scheme == 8 ==> c.inflate(source, if e.expanded == 0 then 1 else e.expanded) == Some((bytes, |source|)))
    && |bytes| == e.expanded && c.crc32(bytes) == e.crc && (e.directory ==> bytes == [])
  }

  /** What each accepted entry is, taken alone. */
  ghost predicate Genuine(c: Codec, d: Bytes, end: End, f: Found) {
    && CentralRecord(c, d, f.at, f.entry, end.end)
    && f.entry.mode / 4096 in {0, if f.entry.directory then 4 else 8}
    && LocalHeader(d, f.entry, f.start, f.finish, end.central)
    && Body(c, d[f.start..f.finish], f.entry, f.bytes)
  }

  lemma HighHalf(d: Bytes, at: nat)
    requires at + 4 <= |d|
    ensures U32(d, at) / 65536 == U16(d, at + 2) && U16(d, at) < 65536
  {
  }

  lemma NamesSplit(name: string, path: string, directory: bool)
    ensures name != "" && path == PathOf(name) && directory == IsDirectory(name)
            <==> name == path + (if directory then "/" else "") && name != "" && (directory <==> name[|name| - 1] == '/')
  {
    if name != "" && IsDirectory(name) { assert name == name[..|name| - 1] + "/"; }
    if directory && name == path + "/" { assert name[..|name| - 1] == path; }
  }

  lemma CentralIff(c: Codec, d: Bytes, at: nat, end: nat, e: Central)
    requires end <= |d|
    ensures CentralAt(c, d, at, end) == Some(e) <==> CentralRecord(c, d, at, e, end)
  {
    if at + 46 <= end {
      HighHalf(d, at + 38);
      HighHalf(d, at + 8);
      FlagsIff(U16(d, at + 8));
      NamesSplit(e.name, e.path, e.directory);
    }
  }

  lemma LocalIff(d: Bytes, e: Central, central: nat, start: nat, finish: nat)
    requires central <= |d|
    ensures LocalRange(d, e, central) == Some(Range(start, finish)) <==> LocalHeader(d, e, start, finish, central)
  {
  }

  lemma BodyIff(c: Codec, source: Bytes, e: Central, bytes: Bytes)
    requires e.scheme in {0, 8}
    ensures EntryBytes(c, source, e) == Some(bytes)
            && |bytes| == e.expanded && c.crc32(bytes) == e.crc && !(e.directory && e.expanded != 0)
            <==> Body(c, source, e, bytes)
  {
  }

  /** An entry is read exactly if it is genuine, under a new path, and its size is within the limit. */
  lemma EntryIff(c: Codec, d: Bytes, limit: nat, at: nat, end: End, before: seq<Found>, f: Found)
    requires end.central <= end.end <= |d|
    ensures ReadEntry(c, d, limit, at, end, before) == Ok(f)
            <==> f.at == at && Genuine(c, d, end, f) && f.entry.path !in Paths(before)
                 && Expanded(before) + f.entry.expanded <= limit
  {
    var e := f.entry;
    CentralIff(c, d, at, end.end, e);
    if CentralAt(c, d, at, end.end) == Some(e) {
      LocalIff(d, e, end.central, f.start, f.finish);
      if LocalRange(d, e, end.central) == Some(Range(f.start, f.finish)) { BodyIff(c, d[f.start..f.finish], e, f.bytes); }
    }
  }

  /** Everything accepted so far: genuine entries under new paths, back to back, within the limit. */
  ghost predicate SoundSoFar(c: Codec, d: Bytes, limit: nat, end: End, found: seq<Found>, at: nat)
    decreases |found|
  {
    if found == [] then at == end.central
    else
      var init, f := found[..|found| - 1], found[|found| - 1];
      && f.entry.next == at && f.at < at <= end.end
      && f.entry.path !in Paths(init) && Expanded(found) <= limit
      && Genuine(c, d, end, f)
      && SoundSoFar(c, d, limit, end, init, f.at)
  }

  lemma EntryKeepsSound(c: Codec, d: Bytes, limit: nat, at: nat, end: End, before: seq<Found>)
    requires end.central <= end.end <= |d| && ReadEntry(c, d, limit, at, end, before).Ok?
    requires SoundSoFar(c, d, limit, end, before, at)
    ensures var f := ReadEntry(c, d, limit, at, end, before).value;
            SoundSoFar(c, d, limit, end, before + [f], f.entry.next)
  {
    var f := ReadEntry(c, d, limit, at, end, before).value;
    EntryIff(c, d, limit, at, end, before, f);
    assert (before + [f])[..|before|] == before;
  }

  /** One read from here keeps the invariant. */
  ghost predicate Keeps(read: Reader, inv: (seq<Found>, nat) -> bool, at: nat, before: seq<Found>) {
    inv(before, at) && read(at, before).Ok? ==>
      inv(before + [read(at, before).value], read(at, before).value.entry.next)
  }

  /** What every entry read keeps, all of them keep. */
  lemma {:induction false} EntriesKeep(
      read: Reader, inv: (seq<Found>, nat) -> bool, at: nat, stop: nat, left: nat, before: seq<Found>)
    requires inv(before, at) && ReadEntries(read, at, stop, left, before).Ok?
    requires forall a: nat, b :: Keeps(read, inv, a, b)
    ensures var found := ReadEntries(read, at, stop, left, before).value; inv(found, stop) && |found| == |before| + left
    decreases left
  {
    if left > 0 {
      assert Keeps(read, inv, at, before);
      var f := read(at, before).value;
      EntriesKeep(read, inv, f.entry.next, stop, left - 1, before + [f]);
    }
  }

  ghost function SoundHere(c: Codec, d: Bytes, limit: nat, end: End): (seq<Found>, nat) -> bool {
    (found: seq<Found>, at: nat) => SoundSoFar(c, d, limit, end, found, at)
  }

  lemma ReaderKeepsSound(c: Codec, d: Bytes, limit: nat, end: End, at: nat, before: seq<Found>)
    requires end.central <= end.end <= |d|
    ensures Keeps(EntryReader(c, d, limit, end), SoundHere(c, d, limit, end), at, before)
  {
    var result := ReadEntry(c, d, limit, at, end, before);
    if SoundSoFar(c, d, limit, end, before, at) && result.Ok? { EntryKeepsSound(c, d, limit, at, end, before); }
  }

  lemma EntriesAreSound(c: Codec, d: Bytes, limit: nat, end: End)
    requires end.central <= end.end <= |d|
    requires ReadEntries(EntryReader(c, d, limit, end), end.central, end.end, end.count, []).Ok?
    ensures var found := ReadEntries(EntryReader(c, d, limit, end), end.central, end.end, end.count, []).value;
            SoundSoFar(c, d, limit, end, found, end.end) && |found| == end.count
  {
    var read := EntryReader(c, d, limit, end);
    var inv := SoundHere(c, d, limit, end);
    forall a: nat, b ensures Keeps(read, inv, a, b) { ReaderKeepsSound(c, d, limit, end, a, b); }
    EntriesKeep(read, inv, end.central, end.end, end.count, []);
  }

  ghost predicate DistinctPaths(found: seq<Found>) {
    forall i, j | 0 <= i < j < |found| :: found[i].entry.path != found[j].entry.path
  }

  /** The same facts about each entry, each pair of entries and all of them. */
  lemma {:induction false} SoundMeans(c: Codec, d: Bytes, limit: nat, end: End, found: seq<Found>, at: nat)
    requires SoundSoFar(c, d, limit, end, found, at)
    ensures Tiles(found, end.central, at) && DistinctPaths(found) && Expanded(found) <= limit
    ensures forall f | f in found :: Genuine(c, d, end, f)
    decreases |found|
  {
    if found != [] {
      var init, f := found[..|found| - 1], found[|found| - 1];
      SoundMeans(c, d, limit, end, init, f.at);
      assert found == init + [f];
      forall i, j | 0 <= i < j < |found| ensures found[i].entry.path != found[j].entry.path {
        if j == |init| { assert init[i] in init; }
      }
    }
  }

  lemma RangesAreSolid(c: Codec, d: Bytes, end: End, found: seq<Found>)
    requires forall f | f in found :: Genuine(c, d, end, f)
    ensures Solid(RangesOf(found))
  {
    forall r | r in RangesOf(found) ensures r.from < r.to {
      var i :| 0 <= i < |found| && RangesOf(found)[i] == r;
      assert found[i] in found;
    }
  }

  /** No two entries share a byte of header or data. */
  ghost predicate Separate(found: seq<Found>) {
    forall i, j | 0 <= i < j < |found| ::
      found[i].finish <= found[j].entry.local || found[j].finish <= found[i].entry.local
  }

  lemma CheckedRangesAreSeparate(found: seq<Found>)
    requires Solid(RangesOf(found))
    ensures Apart(SortRanges(RangesOf(found))) <==> Separate(found)
  {
    ApartIffDisjoint(RangesOf(found));
    forall i, j | 0 <= i < j < |found|
      ensures Overlap(RangesOf(found)[i], RangesOf(found)[j])
              <==> !(found[i].finish <= found[j].entry.local || found[j].finish <= found[i].entry.local)
    {
    }
    if !Disjoint(RangesOf(found)) {
      var i, j :| 0 <= i < j < |found| && Overlap(RangesOf(found)[i], RangesOf(found)[j]);
    }
  }

  /** No file is a directory on another entry's path. */
  ghost predicate NoFileIsADirectory(found: seq<Found>) {
    forall f, g | f in found && g in found && !g.entry.directory :: !GoesThrough(f.entry.path, g.entry.name)
  }

  lemma CheckedFilesAreLeaves(found: seq<Found>)
    ensures FilesAreLeaves(found) <==> NoFileIsADirectory(found)
  {
    forall f, g | f in found && g in found && !g.entry.directory
      ensures g.entry.name in Parents(f.entry.path) <==> GoesThrough(f.entry.path, g.entry.name)
    {
      ParentsIff(f.entry.path, g.entry.name);
    }
    if FilesAreLeaves(found) {
      forall f, g | f in found && g in found && !g.entry.directory ensures !GoesThrough(f.entry.path, g.entry.name) {
        assert g.entry.name in FileNames(found);
      }
    }
  }

  ghost predicate SoundArchive(c: Codec, d: Bytes, limit: nat, end: End, found: seq<Found>) {
    && |found| == end.count && Tiles(found, end.central, end.end)
    && (forall f | f in found :: Genuine(c, d, end, f))
    && Separate(found) && DistinctPaths(found) && NoFileIsADirectory(found)
    && Expanded(found) <= limit
  }

  lemma ReadArchivesAreSound(c: Codec, d: Bytes, limit: nat, end: End)
    requires end.central <= end.end <= |d| && ReadAll(EntryReader(c, d, limit, end), end).Ok?
    ensures SoundArchive(c, d, limit, end, ReadAll(EntryReader(c, d, limit, end), end).value)
  {
    EntriesAreSound(c, d, limit, end);
    CheckedArchivesAreSound(c, d, limit, end, ReadAll(EntryReader(c, d, limit, end), end).value);
  }

  lemma CheckedArchivesAreSound(c: Codec, d: Bytes, limit: nat, end: End, found: seq<Found>)
    requires SoundSoFar(c, d, limit, end, found, end.end) && |found| == end.count
    requires Apart(SortRanges(RangesOf(found))) && FilesAreLeaves(found)
    ensures SoundArchive(c, d, limit, end, found)
  {
    SoundMeans(c, d, limit, end, found, end.end);
    RangesAreSolid(c, d, end, found);
    CheckedRangesAreSeparate(found);
    CheckedFilesAreLeaves(found);
  }

  /**
   An accepted archive: it has an end record, which closes it exactly if it lies where the longest comment
   could start or later, and is otherwise one byte below; the declared number of central records runs from
   the directory's start to the end record without a gap; no two entries share a byte and all lie
   before the directory; paths are distinct and safe; no file is a directory on another's path; and
   the declared sizes are the sizes of the bodies and sum to no more than the limit.
   */
  lemma AcceptedArchivesAreSound(c: Codec, d: Bytes, limit: nat)
    requires ReadArchive(c, d, limit).Ok?
    ensures EndRecord(d).Some?
    ensures var end := EndRecord(d).value;
            && end.central <= end.end && EndFound(d, end)
            && SoundArchive(c, d, limit, end, ReadArchive(c, d, limit).value)
  {
    var end := EndRecord(d).value;
    assert EndFound(d, end) by { EndRecordIsLast(d); }
    ReadArchivesAreSound(c, d, limit, end);
  }

  // --- Completeness ---------------------------------------------------------------------------------------------

  lemma {:induction false} ExpandedGrows(found: seq<Found>, n: nat)
    requires n < |found|
    ensures Expanded(found[..n]) + found[n].entry.expanded <= Expanded(found)
    decreases |found|
  {
    var init := found[..|found| - 1];
    if n < |init| {
      ExpandedGrows(init, n);
      assert init[..n] == found[..n];
    }
  }

  lemma DistinctBefore(init: seq<Found>, f: Found)
    requires DistinctPaths(init + [f])
    ensures DistinctPaths(init) && f.entry.path !in Paths(init)
  {
    var found := init + [f];
    forall i, j | 0 <= i < j < |init| ensures init[i].entry.path != init[j].entry.path {
      assert init[i] == found[i] && init[j] == found[j];
    }
    forall g | g in init ensures g.entry.path != f.entry.path {
      var i :| 0 <= i < |init| && init[i] == g;
      assert found[i] == g && found[|init|] == f;
    }
  }

  lemma {:induction false} SoundAgain(c: Codec, d: Bytes, limit: nat, end: End, found: seq<Found>, at: nat)
    requires Tiles(found, end.central, at) && at <= end.end && DistinctPaths(found) && Expanded(found) <= limit
    requires forall f | f in found :: Genuine(c, d, end, f)
    ensures SoundSoFar(c, d, limit, end, found, at)
    decreases |found|
  {
    if found != [] {
      var init, f := found[..|found| - 1], found[|found| - 1];
      assert f in found && found == init + [f];
      DistinctBefore(init, f);
      SoundAgain(c, d, limit, end, init, f.at);
    }
  }

  /** Each of these is what is read where it is, and leads to the next. */
  ghost predicate Chains(read: Reader, found: seq<Found>, from: nat, at: nat)
    decreases |found|
  {
    if found == [] then at == from
    else
      var init, f := found[..|found| - 1], found[|found| - 1];
      read(f.at, init) == Ok(f) && f.entry.next == at && Chains(read, init, from, f.at)
  }

  lemma {:induction false} ChainsAreFollowed(
      read: Reader, found: seq<Found>, from: nat, at: nat, stop: nat, count: nat)
    requires Chains(read, found, from, at) && |found| <= count
    ensures ReadEntries(read, from, stop, count, []) == ReadEntries(read, at, stop, count - |found|, found)
    decreases |found|
  {
    if found != [] {
      var init, f := found[..|found| - 1], found[|found| - 1];
      ChainsAreFollowed(read, init, from, f.at, stop, count);
      assert found == init + [f];
    }
  }

  /** The reader of these records, said so that it unfolds only where a record is read. */
  ghost predicate Reads(read: Reader, c: Codec, d: Bytes, limit: nat, end: End)
    requires end.central <= end.end <= |d|
  {
    forall at: nat, before {:trigger ReadEntry(c, d, limit, at, end, before)} ::
      read(at, before) == ReadEntry(c, d, limit, at, end, before)
  }

  /** Sound entries are a chain for the reader. */
  lemma {:induction false} SoundChains(c: Codec, d: Bytes, limit: nat, end: End, found: seq<Found>, at: nat, read: Reader)
    requires end.central <= end.end <= |d| && SoundSoFar(c, d, limit, end, found, at) && Reads(read, c, d, limit, end)
    ensures Chains(read, found, end.central, at)
    decreases |found|
  {
    if found != [] {
      var init, f := found[..|found| - 1], found[|found| - 1];
      SoundChains(c, d, limit, end, init, f.at, read);
      EntryIff(c, d, limit, f.at, end, init, f);
    }
  }

  /** The end record: the last one whose comment closes the archive, or else one a byte below where one could. */
  ghost predicate IsEnd(d: Bytes, end: End) {
    && end.end + 22 <= |d| && U32(d, end.end) == END_RECORD
    && (if EndsAt(d, end.end) then forall e: nat | EndsAt(d, e) :: e <= end.end
        else end.end + 65558 == |d| && forall e: nat :: !EndsAt(d, e))
    && U32(d, end.end + 4) == 0 && U16(d, end.end + 8) == U16(d, end.end + 10) == end.count && 1 <= end.count <= 1000
    && U32(d, end.end + 16) == end.central && end.central + U32(d, end.end + 12) == end.end
  }

  lemma EndIff(d: Bytes, end: End)
    ensures EndRecord(d) == Some(end) <==> IsEnd(d, end)
  {
    var found := FindEnd(d, |d| - 22);
    if EndRecord(d) == Some(end) {
      EndRecordIsLast(d);
      NoDisks(d, end.end);
    }
    if IsEnd(d, end) {
      NoDisks(d, end.end);
      assert U16(d, end.end + 20) < 65536;
      assert EndsAt(d, end.end) ==> end.end >= Lowest(d);
      assert found == end.end;
    }
  }

  lemma NoDisks(d: Bytes, at: nat)
    requires at + 22 <= |d|
    ensures U32(d, at + 4) == 0 <==> U16(d, at + 4) == 0 && U16(d, at + 6) == 0
  {
  }

  /** The file is this archive: its end record, and the entries its directory lists, in order. */
  ghost predicate IsArchive(c: Codec, d: Bytes, limit: nat, end: End, found: seq<Found>) {
    IsEnd(d, end) && SoundArchive(c, d, limit, end, found)
  }

  /**
   An archive is accepted, with exactly the entries it has, stored or deflated, if and only if it is
   well-formed: nothing else is accepted and nothing well-formed is refused.
   */
  lemma ArchivesAreAcceptedIff(c: Codec, d: Bytes, limit: nat, found: seq<Found>)
    ensures ReadArchive(c, d, limit) == Ok(found)
            <==> exists end: End :: IsArchive(c, d, limit, end, found)
  {
    if ReadArchive(c, d, limit) == Ok(found) {
      var end := EndRecord(d).value;
      EndIff(d, end);
      AcceptedArchivesAreSound(c, d, limit);
      assert IsArchive(c, d, limit, end, found);
    }
    if exists end: End :: IsArchive(c, d, limit, end, found) {
      var end: End :| IsArchive(c, d, limit, end, found);
      EndIff(d, end);
      WellFormedIsRead(c, d, limit, end, found);
    }
  }

  lemma WellFormedIsRead(c: Codec, d: Bytes, limit: nat, end: End, found: seq<Found>)
    requires end.central <= end.end <= |d| && SoundArchive(c, d, limit, end, found)
    ensures ReadAll(EntryReader(c, d, limit, end), end) == Ok(found)
  {
    var read := EntryReader(c, d, limit, end);
    SoundAgain(c, d, limit, end, found, end.end);
    SoundChains(c, d, limit, end, found, end.end, read);
    ChainsAreFollowed(read, found, end.central, end.end, end.end, end.count);
    RangesAreSolid(c, d, end, found);
    CheckedRangesAreSeparate(found);
    CheckedFilesAreLeaves(found);
  }

  // --- Too large ---------------------------------------------------------------------------------------------------

  /** Behind these well-formed entries comes another, under a new path, that does not fit the limit. */
  ghost predicate Exceeds(c: Codec, d: Bytes, limit: nat, end: End, found: seq<Found>, at: nat, e: Central) {
    && |found| < end.count && Tiles(found, end.central, at) && DistinctPaths(found) && Expanded(found) <= limit
    && (forall f | f in found :: Genuine(c, d, end, f))
    && CentralRecord(c, d, at, e, end.end) && e.mode / 4096 in {0, if e.directory then 4 else 8}
    && e.path !in Paths(found) && Expanded(found) + e.expanded > limit
  }

  lemma EntryExceedsIff(c: Codec, d: Bytes, limit: nat, at: nat, end: End, before: seq<Found>, e: Central)
    requires end.central <= end.end <= |d| && CentralRecord(c, d, at, e, end.end)
    ensures ReadEntry(c, d, limit, at, end, before) == TooLarge
            <==> e.mode / 4096 in {0, if e.directory then 4 else 8} && e.path !in Paths(before)
                 && Expanded(before) + e.expanded > limit
  {
    CentralIff(c, d, at, end.end, e);
  }

  /** Where reading the records stops for their size, the record there is the one that stops it. */
  lemma {:induction false} ExcessIsRead(
      read: Reader, inv: (seq<Found>, nat) -> bool, at: nat, stop: nat, left: nat, before: seq<Found>)
    returns (found: seq<Found>, here: nat)
    requires inv(before, at) && ReadEntries(read, at, stop, left, before).TooLarge?
    requires forall a: nat, b :: Keeps(read, inv, a, b)
    ensures inv(found, here) && |found| < |before| + left && read(here, found).TooLarge?
    decreases left
  {
    assert Keeps(read, inv, at, before);
    match read(at, before) {
      case Ok(f) => found, here := ExcessIsRead(read, inv, f.entry.next, stop, left - 1, before + [f]);
      case _ => found, here := before, at;
    }
  }

  lemma ReadExcess(c: Codec, d: Bytes, limit: nat, end: End, found: seq<Found>, at: nat)
    requires end.central <= end.end <= |d| && SoundSoFar(c, d, limit, end, found, at) && |found| < end.count
    requires ReadEntry(c, d, limit, at, end, found).TooLarge?
    ensures exists before, from, e :: Exceeds(c, d, limit, end, before, from, e)
  {
    var e := CentralAt(c, d, at, end.end).value;
    CentralIff(c, d, at, end.end, e);
    EntryExceedsIff(c, d, limit, at, end, found, e);
    SoundMeans(c, d, limit, end, found, at);
    assert Exceeds(c, d, limit, end, found, at, e);
  }

  lemma ExcessIsFound(c: Codec, d: Bytes, limit: nat, end: End)
    requires end.central <= end.end <= |d| && ReadAll(EntryReader(c, d, limit, end), end).TooLarge?
    ensures exists found, at, e :: Exceeds(c, d, limit, end, found, at, e)
  {
    var read, inv := EntryReader(c, d, limit, end), SoundHere(c, d, limit, end);
    forall a: nat, b ensures Keeps(read, inv, a, b) { ReaderKeepsSound(c, d, limit, end, a, b); }
    var found, at := ExcessIsRead(read, inv, end.central, end.end, end.count, []);
    ReadExcess(c, d, limit, end, found, at);
  }

  lemma ExcessStops(c: Codec, d: Bytes, limit: nat, end: End, found: seq<Found>, at: nat, e: Central)
    requires end.central <= end.end <= |d| && Exceeds(c, d, limit, end, found, at, e)
    ensures ReadAll(EntryReader(c, d, limit, end), end).TooLarge?
  {
    var read := EntryReader(c, d, limit, end);
    SoundAgain(c, d, limit, end, found, at);
    SoundChains(c, d, limit, end, found, at, read);
    ChainsAreFollowed(read, found, end.central, at, end.end, end.count);
    EntryExceedsIff(c, d, limit, at, end, found, e);
    StopsAt(read, at, end.end, end.count - |found|, found);
  }

  lemma StopsAt(read: Reader, at: nat, stop: nat, left: nat, before: seq<Found>)
    requires left > 0 && read(at, before).TooLarge?
    ensures ReadEntries(read, at, stop, left, before).TooLarge?
  {
  }

  /**
   An archive is too large if and only if well-formed entries lead to one whose declared size exceeds
   what is left; what comes behind that one makes no difference.
   */
  lemma ArchivesAreTooLargeIff(c: Codec, d: Bytes, limit: nat)
    ensures ReadArchive(c, d, limit).TooLarge?
            <==> exists end: End :: IsEnd(d, end) && exists found, at, e :: Exceeds(c, d, limit, end, found, at, e)
  {
    if ReadArchive(c, d, limit).TooLarge? {
      var end := EndRecord(d).value;
      EndIff(d, end);
      ExcessIsFound(c, d, limit, end);
    }
    if end: End :| IsEnd(d, end) && exists found, at, e :: Exceeds(c, d, limit, end, found, at, e) {
      var found, at, e :| Exceeds(c, d, limit, end, found, at, e);
      EndIff(d, end);
      ExcessStops(c, d, limit, end, found, at, e);
    }
  }

  // --- An end record that does not end the archive ---------------------------------------------------------------

  ghost predicate Zeros(z: Bytes) { forall i | 0 <= i < |z| :: z[i] == 0 }

  lemma SameNumbers(d: Bytes, z: Bytes, at: nat)
    requires at + 4 <= |d|
    ensures U16(d + z, at) == U16(d, at) && U32(d + z, at) == U32(d, at)
  {
  }

  lemma SameFields(d: Bytes, z: Bytes, at: nat)
    requires at + 46 <= |d|
    ensures U32(d + z, at) == U32(d, at) && U16(d + z, at + 8) == U16(d, at + 8) && U16(d + z, at + 10) == U16(d, at + 10)
    ensures U32(d + z, at + 16) == U32(d, at + 16) && U32(d + z, at + 20) == U32(d, at + 20)
    ensures U32(d + z, at + 24) == U32(d, at + 24) && U16(d + z, at + 28) == U16(d, at + 28)
    ensures U16(d + z, at + 30) == U16(d, at + 30) && U16(d + z, at + 32) == U16(d, at + 32)
    ensures U16(d + z, at + 34) == U16(d, at + 34)
    ensures U32(d + z, at + 38) == U32(d, at + 38) && U32(d + z, at + 42) == U32(d, at + 42)
  {
  }

  lemma SameRecord(c: Codec, d: Bytes, z: Bytes, at: nat, end: nat)
    requires end <= |d|
    ensures CentralAt(c, d + z, at, end) == CentralAt(c, d, at, end)
  {
    if at + 46 <= end {
      SameFields(d, z, at);
      var length := U16(d, at + 28);
      if at + 46 + length <= |d| { assert (d + z)[at + 46..at + 46 + length] == d[at + 46..at + 46 + length]; }
    }
  }

  lemma SameLocalFields(d: Bytes, z: Bytes, at: nat)
    requires at + 30 <= |d|
    ensures U32(d + z, at) == U32(d, at) && U16(d + z, at + 6) == U16(d, at + 6) && U16(d + z, at + 8) == U16(d, at + 8)
    ensures U32(d + z, at + 14) == U32(d, at + 14) && U32(d + z, at + 18) == U32(d, at + 18)
    ensures U32(d + z, at + 22) == U32(d, at + 22) && U16(d + z, at + 26) == U16(d, at + 26)
    ensures U16(d + z, at + 28) == U16(d, at + 28)
  {
  }

  lemma SameRange(d: Bytes, z: Bytes, e: Central, central: nat)
    requires central <= |d|
    ensures LocalRange(d + z, e, central) == LocalRange(d, e, central)
  {
    if e.local + 30 <= central {
      SameLocalFields(d, z, e.local);
      var from, to := e.local + 30, e.local + 30 + |e.filename|;
      if to <= |d| { assert (d + z)[from..to] == d[from..to]; }
    }
  }

  lemma SameEntry(c: Codec, d: Bytes, z: Bytes, limit: nat, at: nat, end: End, before: seq<Found>)
    requires end.central <= end.end <= |d|
    ensures ReadEntry(c, d + z, limit, at, end, before) == ReadEntry(c, d, limit, at, end, before)
  {
    SameRecord(c, d, z, at, end.end);
    var e := CentralAt(c, d, at, end.end);
    if e.Some? {
      SameRange(d, z, e.value, end.central);
      var range := LocalRange(d, e.value, end.central);
      if range.Some? { assert (d + z)[range.value.from..range.value.to] == d[range.value.from..range.value.to]; }
    }
  }

  lemma {:induction false} SameEntries(one: Reader, other: Reader, at: nat, stop: nat, left: nat, before: seq<Found>)
    requires forall a: nat, b :: one(a, b) == other(a, b)
    ensures ReadEntries(one, at, stop, left, before) == ReadEntries(other, at, stop, left, before)
    decreases left
  {
    if left > 0 && one(at, before).Ok? {
      var f := one(at, before).value;
      SameEntries(one, other, f.entry.next, stop, left - 1, before + [f]);
    }
  }

  lemma {:induction false} NothingEndsIn(d: Bytes, from: int, end: nat)
    requires end == Lowest(d) - 1 <= from && from + 22 <= |d|
    requires forall e: nat | end < e <= from :: !EndsAt(d, e)
    ensures FindEnd(d, from) == end
    decreases from
  {
    if from > end { NothingEndsIn(d, from - 1, end); }
  }

  /** Behind a record without a comment 65536 zero bytes leave no record whose comment ends the archive. */
  lemma PaddingHidesTheEnd(d: Bytes, z: Bytes)
    requires EndRecord(d).Some? && EndRecord(d).value.end + 22 == |d| && Zeros(z) && |z| == 65536
    ensures EndRecord(d + z) == EndRecord(d) && !EndsAt(d + z, EndRecord(d).value.end)
  {
    var end, padded := EndRecord(d).value.end, d + z;
    EndRecordIsLast(d);
    assert Lowest(padded) == end + 1;
    forall e: nat | end < e <= |padded| - 22 ensures !EndsAt(padded, e) {
      if e + 3 < |d| {
        assert U16(d, end + 20) == 0;
        assert padded[end + 20] == d[end + 20] && padded[end + 21] == d[end + 21];
        assert padded[e + 20] == 0 && padded[e + 21] == 0;
      } else {
        assert padded[e + 3] == 0;
      }
    }
    NothingEndsIn(padded, |padded| - 22, end);
    forall k: nat | k + 4 <= |d| ensures U16(padded, k) == U16(d, k) && U32(padded, k) == U32(d, k) { SameNumbers(d, z, k); }
  }

  /**
   What the check behind the search does not see: an accepted archive without a comment is accepted just
   the same with 65536 zero bytes behind it, although no end record closes what is then read.
   */
  lemma PaddedArchivesAreAccepted(c: Codec, d: Bytes, z: Bytes, limit: nat)
    requires ReadArchive(c, d, limit).Ok? && EndRecord(d).value.end + 22 == |d| && Zeros(z) && |z| == 65536
    ensures ReadArchive(c, d + z, limit) == ReadArchive(c, d, limit)
    ensures forall e: nat :: !EndsAt(d + z, e)
  {
    var end := EndRecord(d).value;
    PaddingHidesTheEnd(d, z);
    EndRecordIsLast(d + z);
    var one, other := EntryReader(c, d + z, limit, end), EntryReader(c, d, limit, end);
    forall a: nat, b ensures one(a, b) == other(a, b) { SameEntry(c, d, z, limit, a, end, b); }
    SameEntries(one, other, end.central, end.end, end.count, []);
  }

  function Nulls(n: nat): Bytes { seq(n, _ => 0) }

  /** One empty file named `a`, stored: its local header, its central record and the end record. */
  const TINY_LOCAL: Bytes := [0x50, 0x4b, 3, 4, 20, 0] + Nulls(20) + [1, 0, 0, 0, 0x61]
  const TINY_CENTRAL: Bytes := [0x50, 0x4b, 1, 2, 20, 0, 20, 0] + Nulls(20) + [1, 0] + Nulls(16) + [0x61]
  const TINY_END: Bytes := [80, 75, 5, 6, 0, 0, 0, 0, 1, 0, 1, 0, 47, 0, 0, 0, 31, 0, 0, 0, 0, 0]
  const TINY: Bytes := TINY_LOCAL + TINY_CENTRAL + TINY_END

  lemma ShiftedNumbers(a: Bytes, b: Bytes, at: nat)
    requires at + 2 <= |b|
    ensures U16(a + b, |a| + at) == U16(b, at) && (at + 4 <= |b| ==> U32(a + b, |a| + at) == U32(b, at))
  {
  }

  lemma TinyEnds()
    ensures EndRecord(TINY) == Some(End(78, 1, 31)) && |TINY| == 100
  {
    var before := TINY_LOCAL + TINY_CENTRAL;
    ShiftedNumbers(before, TINY_END, 0);
    ShiftedNumbers(before, TINY_END, 4);
    ShiftedNumbers(before, TINY_END, 6);
    ShiftedNumbers(before, TINY_END, 8);
    ShiftedNumbers(before, TINY_END, 10);
    ShiftedNumbers(before, TINY_END, 12);
    ShiftedNumbers(before, TINY_END, 16);
    ShiftedNumbers(before, TINY_END, 20);
    assert U32(TINY_END, 0) == END_RECORD && U16(TINY_END, 20) == 0;
    assert EndsAt(TINY, 78);
    assert U16(TINY_END, 4) == 0 && U16(TINY_END, 6) == 0 && U16(TINY_END, 8) == 1 && U16(TINY_END, 10) == 1;
    assert U32(TINY_END, 12) == 47 && U32(TINY_END, 16) == 31;
  }

  function TinyEntry(): Central { Central(0, 0, 0, 0, 0, [0x61], "a", false, "a", 0, 0, 78) }

  lemma SplitA()
    ensures Split("a") == ["a"]
  {
    var path: string := "a";
    assert path[1..] == "" && path[0] == 'a' && Split("") == [""];
    assert Split(path) == [[path[0]] + [""][0]] + [""][1..];
    assert [path[0]] + [""][0] == "a";
  }

  lemma TinyCentral(c: Codec)
    requires c.utf8([0x61]) == Some("a")
    ensures CentralAt(c, TINY, 31, 78) == Some(TinyEntry())
  {
    var d := TINY_LOCAL + TINY_CENTRAL;
    SameRecord(c, d, TINY_END, 31, 78);
    TinyCentralFields(d);
    TinyCentralSizes(d);
    SplitA();
    assert SafePath("a");
  }

  lemma TinyCentralBytes()
    ensures |TINY_LOCAL| == 31 && |TINY_CENTRAL| == 47 && U32(TINY_CENTRAL, 0) == CENTRAL_HEADER && U16(TINY_CENTRAL, 28) == 1
    ensures forall k | 8 <= k < 28 || 30 <= k < 46 :: TINY_CENTRAL[k] == 0
    ensures TINY_CENTRAL[46] == 0x61
  {
  }

  lemma NullNumbers(a: Bytes, b: Bytes, at: nat)
    requires at + 4 <= |b| && b[at] == b[at + 1] == 0
    ensures U16(a + b, |a| + at) == 0
    ensures b[at + 2] == b[at + 3] == 0 ==> U32(a + b, |a| + at) == 0
  {
  }

  lemma TinyCentralFields(d: Bytes)
    requires d == TINY_LOCAL + TINY_CENTRAL
    ensures |d| == 78 && U32(d, 31) == CENTRAL_HEADER && U16(d, 39) == 0 && U16(d, 41) == 0 && U32(d, 47) == 0
    ensures U32(d, 51) == 0 && U32(d, 55) == 0 && U16(d, 59) == 1 && d[77..78] == [0x61]
  {
    TinyCentralBytes();
    ShiftedNumbers(TINY_LOCAL, TINY_CENTRAL, 0);
    ShiftedNumbers(TINY_LOCAL, TINY_CENTRAL, 28);
    NullNumbers(TINY_LOCAL, TINY_CENTRAL, 8);
    NullNumbers(TINY_LOCAL, TINY_CENTRAL, 10);
    NullNumbers(TINY_LOCAL, TINY_CENTRAL, 16);
    NullNumbers(TINY_LOCAL, TINY_CENTRAL, 20);
    NullNumbers(TINY_LOCAL, TINY_CENTRAL, 24);
    assert d[77] == TINY_CENTRAL[46];
  }

  lemma TinyCentralSizes(d: Bytes)
    requires d == TINY_LOCAL + TINY_CENTRAL
    ensures |d| == 78 && U16(d, 61) == 0 && U16(d, 63) == 0 && U16(d, 65) == 0 && U32(d, 69) == 0 && U32(d, 73) == 0
  {
    TinyCentralBytes();
    NullNumbers(TINY_LOCAL, TINY_CENTRAL, 30);
    NullNumbers(TINY_LOCAL, TINY_CENTRAL, 32);
    NullNumbers(TINY_LOCAL, TINY_CENTRAL, 34);
    NullNumbers(TINY_LOCAL, TINY_CENTRAL, 38);
    NullNumbers(TINY_LOCAL, TINY_CENTRAL, 42);
  }

  lemma TinyLocalBytes()
    ensures |TINY_LOCAL| == 31 && U32(TINY_LOCAL, 0) == LOCAL_HEADER && U16(TINY_LOCAL, 26) == 1 && U16(TINY_LOCAL, 28) == 0
    ensures forall k | 6 <= k < 26 :: TINY_LOCAL[k] == 0
    ensures TINY_LOCAL[30] == 0x61
  {
  }

  lemma TinyRange()
    ensures LocalRange(TINY, TinyEntry(), 31) == Some(Range(31, 31))
  {
    assert TINY == TINY_LOCAL + (TINY_CENTRAL + TINY_END);
    SameRange(TINY_LOCAL, TINY_CENTRAL + TINY_END, TinyEntry(), 31);
    TinyLocalBytes();
    assert TINY_LOCAL[30..31] == [0x61];
  }

  lemma TinyIsAccepted(c: Codec, limit: nat)
    requires c.utf8([0x61]) == Some("a") && c.crc32([]) == 0
    ensures ReadArchive(c, TINY, limit) == Ok([Found(31, TinyEntry(), 31, 31, [])])
  {
    TinyEnds();
    TinyCentral(c);
    TinyRange();
    var end, f := End(78, 1, 31), Found(31, TinyEntry(), 31, 31, []);
    assert TINY[31..31] == [];
    var read := EntryReader(c, TINY, limit, end);
    assert read(31, []) == Ok(f);
    assert [] + [f] == [f];
    assert ReadEntries(read, 78, 78, 0, [f]) == Ok([f]);
    assert ReadEntries(read, 31, 78, 1, []) == Ok([f]);
    assert RangesOf([f]) == [Range(0, 31)] && SortRanges([]) == [];
    SplitA();
    assert Parents("a") == {};
  }

  /** So such archives exist: one file and 65536 zero bytes. */
  lemma AnUnclosedArchiveIsAccepted(c: Codec, z: Bytes, limit: nat)
    requires c.utf8([0x61]) == Some("a") && c.crc32([]) == 0 && Zeros(z) && |z| == 65536
    ensures ReadArchive(c, TINY + z, limit).Ok? && EndRecord(TINY + z).value.end == |TINY + z| - 65558
    ensures forall e: nat :: !EndsAt(TINY + z, e)
  {
    TinyEnds();
    TinyIsAccepted(c, limit);
    PaddedArchivesAreAccepted(c, TINY, z, limit);
    PaddingHidesTheEnd(TINY, z);
  }

  // --- The reader in place ---------------------------------------------------------------------------------------------

  function FilesOf(found: seq<Found>): map<string, File>
    decreases |found|
  {
    if found == [] then map[]
    else
      var f := found[|found| - 1];
      var rest := FilesOf(found[..|found| - 1]);
      if f.entry.directory then rest else rest[f.entry.name := File(f.bytes, Executable(f.entry.mode))]
  }

  lemma {:induction false} FilesAreNamed(found: seq<Found>)
    ensures FilesOf(found).Keys == FileNames(found)
    decreases |found|
  {
    if found != [] {
      var init, f := found[..|found| - 1], found[|found| - 1];
      assert found == init + [f];
      FilesAreNamed(init);
      assert FileNames(found) == FileNames(init) + if f.entry.directory then {} else {f.entry.name};
    }
  }

  /** An execute permission in one of the three octal digits of owner, group and others. */
  predicate MayExecute(mode: nat) {
    mode / 64 % 8 % 2 == 1 || mode / 8 % 8 % 2 == 1 || mode % 8 % 2 == 1
  }

  lemma OddDigit(n: nat)
    ensures n % 8 % 2 == n % 2
  {
    assert n == 2 * (4 * (n / 8)) + n % 8;
  }

  lemma ExecutableIff(mode: nat)
    ensures Executable(mode) <==> MayExecute(mode)
  {
    OddDigit(mode);
    OddDigit(mode / 8);
    OddDigit(mode / 64);
    assert mode / 1 == mode;
  }

  /** The files are those listed, each under its path with its bytes and whether it may be executed. */
  ghost predicate Lists(files: map<string, File>, found: seq<Found>) {
    && (forall path | path in files :: exists f :: f in found && !f.entry.directory && f.entry.path == path)
    && forall f | f in found && !f.entry.directory ::
         f.entry.path in files && files[f.entry.path] == File(f.bytes, MayExecute(f.entry.mode))
  }

  lemma {:induction false} FilesAreListed(found: seq<Found>)
    requires DistinctPaths(found) && forall f | f in found && !f.entry.directory :: f.entry.name == f.entry.path
    ensures Lists(FilesOf(found), found)
    decreases |found|
  {
    if found != [] {
      var init, f := found[..|found| - 1], found[|found| - 1];
      assert found == init + [f] && f in found;
      DistinctBefore(init, f);
      FilesAreListed(init);
      ExecutableIff(f.entry.mode);
    }
  }

  /** The files of an archive, said of the archive that is there. */
  lemma ArchivesAreRead(c: Codec, d: Bytes, limit: nat, end: End, found: seq<Found>)
    requires IsArchive(c, d, limit, end, found)
    ensures ReadArchive(c, d, limit) == Ok(found) && Lists(FilesOf(found), found)
  {
    ArchivesAreAcceptedIff(c, d, limit, found);
    assert forall f | f in found && !f.entry.directory :: Genuine(c, d, end, f);
    forall f | f in found && !f.entry.directory ensures f.entry.name == f.entry.path {
      assert Genuine(c, d, end, f) && f.entry.name == f.entry.path + "";
    }
    FilesAreListed(found);
  }

  /** One record, checked against the names and the size so far. */
  method ReadRecord(c: Codec, d: Bytes, limit: nat, at: nat, end: End, names: set<string>, size: nat,
                    ghost before: seq<Found>, ghost read: Reader)
    returns (result: Result<Found>)
    requires end.central <= end.end <= |d| && names == Paths(before) && size == Expanded(before)
    requires Reads(read, c, d, limit, end)
    ensures result == read(at, before)
  {
    assert read(at, before) == ReadEntry(c, d, limit, at, end, before);
    var central := CentralAt(c, d, at, end.end);
    if central.None? { return Invalid; }
    var entry := central.value;
    if entry.path in names || !KindAgrees(entry) { return Invalid; }
    if size + entry.expanded > limit { return TooLarge; }
    var range := LocalRange(d, entry, end.central);
    if range.None? { return Invalid; }
    var bytes := EntryBytes(c, d[range.value.from..range.value.to], entry);
    if bytes.None? { return Invalid; }
    if |bytes.value| != entry.expanded || c.crc32(bytes.value) != entry.crc || (entry.directory && entry.expanded != 0) {
      return Invalid;
    }
    return Ok(Found(at, entry, range.value.from, range.value.to, bytes.value));
  }

  /** The names, ranges, sizes and files of one more entry. */
  lemma OneMore(found: seq<Found>, f: Found)
    ensures Paths(found + [f]) == Paths(found) + {f.entry.path}
    ensures RangesOf(found + [f]) == RangesOf(found) + [Range(f.entry.local, f.finish)]
    ensures Expanded(found + [f]) == Expanded(found) + f.entry.expanded
    ensures FilesOf(found + [f]) == if f.entry.directory then FilesOf(found)
                                    else FilesOf(found)[f.entry.name := File(f.bytes, Executable(f.entry.mode))]
  {
    assert (found + [f])[..|found|] == found;
  }

  lemma ClashIff(found: seq<Found>, names: set<string>, entries: map<string, File>)
    requires names == Paths(found) && entries == FilesOf(found)
    ensures (exists name | name in names :: exists parent | parent in Parents(name) :: parent in entries)
            <==> !FilesAreLeaves(found)
  {
    FilesAreNamed(found);
    if !FilesAreLeaves(found) {
      var f :| f in found && !(Parents(f.entry.path) !! FileNames(found));
      var parent :| parent in Parents(f.entry.path) && parent in FileNames(found);
      assert f.entry.path in names && parent in entries;
    }
  }

  /** The records, keeping the files, the names and the ranges as they go by. */
  method ReadRecords(c: Codec, d: Bytes, limit: nat, end: End, ghost read: Reader)
    returns (result: Result<map<string, File>>, names: set<string>, ranges: seq<Range>)
    requires end.central <= end.end <= |d| && Reads(read, c, d, limit, end)
    ensures match ReadEntries(read, end.central, end.end, end.count, [])
            case Ok(found) => result == Ok(FilesOf(found)) && names == Paths(found) && ranges == RangesOf(found)
            case Invalid => result == Invalid
            case TooLarge => result == TooLarge
  {
    ghost var found: seq<Found> := [];
    var entries: map<string, File> := map[];
    names, ranges := {}, [];
    var at, size, index := end.central, 0, 0;
    while index < end.count
      invariant 0 <= index <= end.count
      invariant entries == FilesOf(found) && names == Paths(found) && ranges == RangesOf(found) && size == Expanded(found)
      invariant ReadEntries(read, end.central, end.end, end.count, [])
                == ReadEntries(read, at, end.end, end.count - index, found)
    {
      var record := ReadRecord(c, d, limit, at, end, names, size, found, read);
      if record.Invalid? { return Invalid, names, ranges; }
      if record.TooLarge? { return TooLarge, names, ranges; }
      var f := record.value;
      OneMore(found, f);
      names := names + {f.entry.path};
      size := size + f.entry.expanded;
      ranges := ranges + [Range(f.entry.local, f.finish)];
      if !f.entry.directory { entries := entries[f.entry.name := File(f.bytes, Executable(f.entry.mode))]; }
      found := found + [f];
      at := f.entry.next;
      index := index + 1;
    }
    return if at == end.end then Ok(entries) else Invalid, names, ranges;
  }

  /** Reads an archive: its records in order, then the checks over all of them. */
  method ReadSkillZip(c: Codec, d: Bytes, limit: nat) returns (result: Result<map<string, File>>)
    ensures match ReadArchive(c, d, limit)
            case Ok(found) => result == Ok(FilesOf(found))
            case Invalid => result == Invalid
            case TooLarge => result == TooLarge
    ensures result.Ok? <==> exists end, found :: IsArchive(c, d, limit, end, found)
    ensures forall end, found | IsArchive(c, d, limit, end, found) :: result.Ok? && Lists(result.value, found)
  {
    forall end, found | IsArchive(c, d, limit, end, found)
      ensures ReadArchive(c, d, limit) == Ok(found) && Lists(FilesOf(found), found)
    {
      ArchivesAreRead(c, d, limit, end, found);
    }
    if ReadArchive(c, d, limit).Ok? { ArchivesAreAcceptedIff(c, d, limit, ReadArchive(c, d, limit).value); }
    var ending := EndOfCentralDirectory(d);
    if ending.None? { return Invalid; }
    var end := ending.value;
    var names, ranges;
    ghost var read := EntryReader(c, d, limit, end);
    result, names, ranges := ReadRecords(c, d, limit, end, read);
    if !result.Ok? { return; }
    if !Apart(SortRanges(ranges)) { return Invalid; }
    var entries := result.value;
    ClashIff(ReadEntries(read, end.central, end.end, end.count, []).value, names, entries);
    if exists name | name in names :: exists parent | parent in Parents(name) :: parent in entries { return Invalid; }
  }
}
