// Reading a ZIP archive by random access: `readCentralDirectory`, `dataStart`,
// `readEntry` and `entryReader` of packages/apk/src/index.ts, against the
// format of PKWARE's APPNOTE.TXT, sections 4.3.7, 4.3.12 and 4.3.16.

module Bytes {
  type Byte = b: int | 0 <= b < 256

  type Bytes = seq<Byte>

  /** `DataView` reads, little-endian. Outside the buffer they throw, hence the bounds. */
  function U16(b: Bytes, at: nat): nat
    requires at + 2 <= |b|
  {
    var x: int, y: int := b[at], b[at + 1];
    x + 256 * y
  }

  function U32(b: Bytes, at: nat): nat
    requires at + 4 <= |b|
  {
    U16(b, at) + 0x1_0000 * U16(b, at + 2)
  }

  /** `subarray(start, end)`: clamped to the buffer. */
  function Sub(b: Bytes, start: nat, end: int): Bytes {
    if start >= |b| || end <= start then []
    else if end >= |b| then b[start..]
    else b[start..end]
  }

  lemma SliceOfSlice(b: Bytes, lo: nat, hi: nat, from: nat, to: nat)
    requires lo <= hi <= |b| && from <= to <= hi - lo
    ensures b[lo..hi][from..to] == b[lo + from..lo + to]
  {
    var x, y := b[lo..hi][from..to], b[lo + from..lo + to];
    forall i | 0 <= i < |x| ensures x[i] == y[i] {
      assert x[i] == b[lo..hi][from + i] == b[lo + from + i];
    }
    assert x == y;
  }

  lemma U16Of(b: Bytes, from: nat, to: nat, at: nat)
    requires from <= to <= |b| && from + at + 2 <= to
    ensures U16(b[from..to], at) == U16(b, from + at)
  {
  }

  lemma U32Of(b: Bytes, from: nat, to: nat, at: nat)
    requires from <= to <= |b| && from + at + 4 <= to
    ensures U32(b[from..to], at) == U32(b, from + at)
  {
  }
}

module Zip {
  import opened Bytes
  import opened Numbers
  import opened Options

  /** A call that returns or throws. */
  datatype Outcome<+T> = Ok(value: T) | Thrown

  /** What decodes and inflates bytes. `inflate` may throw. */
  datatype Codec = Codec(utf8: Bytes -> string, utf16: Bytes -> string, inflate: Bytes -> Outcome<Bytes>)

  const EOCD_SIGNATURE: nat := 0x0605_4b50
  const CENTRAL_SIGNATURE: nat := 0x0201_4b50
  const LOCAL_SIGNATURE: nat := 0x0403_4b50
  const MAX_COMMENT: nat := 0xffff

  // --- Readers -----------------------------------------------------------------------

  /** Random access to bytes: a whole file or buffer, or a stretch of another reader. */
  datatype Reader = Whole(bytes: Bytes) | Window(outer: Reader, start: nat, length: nat)

  function Size(r: Reader): nat {
    match r
    case Whole(bytes) => |bytes|
    case Window(_, _, length) => length
  }

  function Read(r: Reader, from: nat, length: int): Bytes {
    match r
    case Whole(bytes) => Sub(bytes, from, from + length)
    case Window(outer, start, size) => Read(outer, start + from, Min(length, size - from))
  }

  /** The reader answers every read, in range or past the end, as `b` itself would. */
  ghost predicate Serves(r: Reader, b: Bytes) {
    Size(r) == |b| && forall from: nat, length: int :: Read(r, from, length) == Sub(b, from, from + length)
  }

  lemma WholeServes(b: Bytes)
    ensures Serves(Whole(b), b)
  {
  }

  /** A window onto a reader of `b` is a reader of that stretch of `b`. */
  lemma WindowServes(r: Reader, b: Bytes, start: nat, length: nat)
    requires Serves(r, b) && start + length <= |b|
    ensures Serves(Window(r, start, length), b[start..start + length])
  {
    var w, stretch := Window(r, start, length), b[start..start + length];
    forall from: nat, n: int ensures Read(w, from, n) == Sub(stretch, from, from + n) {
      assert Read(w, from, n) == Read(r, start + from, Min(n, length - from));
      StretchRead(b, start, length, from, n);
    }
  }

  lemma StretchRead(b: Bytes, start: nat, length: nat, from: nat, n: int)
    requires start + length <= |b|
    ensures Sub(b, start + from, start + from + Min(n, length - from)) == Sub(b[start..start + length], from, from + n)
  {
    var stretch, end := b[start..start + length], start + from + Min(n, length - from);
    if from < length && n > 0 {
      assert start + from < end <= |b|;
      SliceOfSlice(b, start, start + length, from, end - start);
    } else {
      assert Sub(stretch, from, from + n) == [];
      assert end <= start + from;
    }
  }

  // --- The directory --------------------------------------------------------------------

  datatype Entry = Entry(name: string, compression: nat, offset: nat, size: nat)

  /** The last end-record signature at or before `i`. */
  function FindEnd(tail: Bytes, i: int): (at: Option<nat>)
    requires i + 22 <= |tail|
    ensures at.Some? ==> at.value <= i
  {
    if i < 0 then None
    else if U32(tail, i) == EOCD_SIGNATURE then Some(i)
    else FindEnd(tail, i - 1)
  }

  predicate HeaderAt(dir: Bytes, offset: nat) {
    offset + 46 <= |dir| && U32(dir, offset) == CENTRAL_SIGNATURE
  }

  function EntryAt(dir: Bytes, offset: nat, codec: Codec): Entry
    requires HeaderAt(dir, offset)
  {
    Entry(codec.utf8(Sub(dir, offset + 46, offset + 46 + U16(dir, offset + 28))),
          U16(dir, offset + 10), U32(dir, offset + 42), U32(dir, offset + 20))
  }

  function NextHeader(dir: Bytes, offset: nat): nat
    requires HeaderAt(dir, offset)
  {
    offset + 46 + U16(dir, offset + 28) + U16(dir, offset + 30) + U16(dir, offset + 32)
  }

  /** At most `count` entries from `offset`, stopping at anything that is not a header. */
  function Walk(dir: Bytes, offset: nat, count: nat, codec: Codec): seq<Entry>
    decreases count
  {
    if count == 0 || !HeaderAt(dir, offset) then []
    else [EntryAt(dir, offset, codec)] + Walk(dir, NextHeader(dir, offset), count - 1, codec)
  }

  /** The tail of the file: the end record and the largest comment there can be. */
  function TailStart(size: nat): nat {
    size - Min(size, MAX_COMMENT + 22)
  }

  function Tail(r: Reader): Bytes {
    Read(r, TailStart(Size(r)), Size(r) - TailStart(Size(r)))
  }

  /** What the end record says: how many entries, and where the directory is. */
  datatype EndRecord = EndRecord(count: nat, size: nat, at: nat)

  function EndRecordOf(tail: Bytes): Option<EndRecord> {
    match FindEnd(tail, |tail| - 22)
    case None => None
    case Some(i) => Some(EndRecord(U16(tail, i + 10), U32(tail, i + 12), U32(tail, i + 16)))
  }

  /** The directory, out of the tail when it begins there. */
  function DirectoryOf(r: Reader, end: EndRecord): Bytes {
    var start := TailStart(Size(r));
    if end.at >= start then Sub(Tail(r), end.at - start, end.at - start + end.size)
    else Read(r, end.at, end.size)
  }

  function ReadCentralDirectory(r: Reader, codec: Codec): Outcome<seq<Entry>> {
    match EndRecordOf(Tail(r))
    case None => Thrown
    case Some(end) => Ok(Walk(DirectoryOf(r, end), 0, end.count, codec))
  }

  /** The loop that looks for the end record, from the back. */
  method FindEndRecord(tail: Bytes) returns (end: Option<EndRecord>)
    ensures end == EndRecordOf(tail)
  {
    var i := |tail| - 22;
    while i >= 0
      invariant i + 22 <= |tail|
      invariant FindEnd(tail, |tail| - 22) == FindEnd(tail, i)
    {
      if U32(tail, i) == EOCD_SIGNATURE {
        return Some(EndRecord(U16(tail, i + 10), U32(tail, i + 12), U32(tail, i + 16)));
      }
      i := i - 1;
    }
    return None;
  }

  /** The loop that collects the entries. */
  method WalkEntries(dir: Bytes, count: nat, codec: Codec) returns (entries: seq<Entry>)
    ensures entries == Walk(dir, 0, count, codec)
  {
    hide U16, U32, EntryAt, NextHeader;
    entries := [];
    var offset: nat := 0;
    ghost var all := Walk(dir, 0, count, codec);
    for i := 0 to count
      invariant all == entries + Walk(dir, offset, count - i, codec)
    {
      if offset + 46 > |dir| { break; }
      if U32(dir, offset) != CENTRAL_SIGNATURE { break; }
      var entry, next := EntryAt(dir, offset, codec), NextHeader(dir, offset);
      ghost var rest := Walk(dir, next, count - i - 1, codec);
      assert entries + ([entry] + rest) == (entries + [entry]) + rest;
      entries, offset := entries + [entry], next;
    }
  }

  method ListEntries(r: Reader, codec: Codec) returns (entries: Outcome<seq<Entry>>)
    ensures entries == ReadCentralDirectory(r, codec)
  {
    hide Walk, FindEnd, Sub, U16, U32;
    var start := TailStart(Size(r));
    var tail := Read(r, start, Size(r) - start);
    assert tail == Tail(r);
    var end := FindEndRecord(tail);
    if end.None? { return Thrown; }
    var EndRecord(count, size, at) := end.value;
    var dir := if at >= start then Sub(tail, at - start, at - start + size) else Read(r, at, size);
    assert dir == DirectoryOf(r, end.value);
    var found := WalkEntries(dir, count, codec);
    return Ok(found);
  }

  // --- One entry ---------------------------------------------------------------------------

  function DataStart(r: Reader, entry: Entry): Outcome<nat> {
    var header := Read(r, entry.offset, 30);
    if |header| < 30 || U32(header, 0) != LOCAL_SIGNATURE then Thrown
    else Ok(entry.offset + 30 + U16(header, 26) + U16(header, 28))
  }

  function ReadEntry(r: Reader, entry: Entry, codec: Codec): Outcome<Bytes> {
    match DataStart(r, entry)
    case Thrown => Thrown
    case Ok(start) =>
      var data := Read(r, start, entry.size);
      if entry.compression == 0 then Ok(data)
      else if entry.compression == 8 then codec.inflate(data)
      else Thrown
  }

  function EntryReader(r: Reader, entry: Entry, codec: Codec): Outcome<Reader> {
    if entry.compression != 0 then
      match ReadEntry(r, entry, codec)
      case Thrown => Thrown
      case Ok(data) => Ok(Whole(data))
    else
      match DataStart(r, entry)
      case Thrown => Thrown
      case Ok(start) => Ok(Window(r, start, entry.size))
  }

  lemma ListedFrom(r: Reader, end: EndRecord, dir: Bytes, codec: Codec)
    requires EndRecordOf(Tail(r)) == Some(end) && DirectoryOf(r, end) == dir
    ensures ReadCentralDirectory(r, codec) == Ok(Walk(dir, 0, end.count, codec))
  {
  }

  /** Readers of the same bytes list the same entries. */
  lemma SameBytesSameListing(r: Reader, b: Bytes, codec: Codec)
    requires Serves(r, b)
    ensures ReadCentralDirectory(r, codec) == ReadCentralDirectory(Whole(b), codec)
  {
    assert Tail(r) == Tail(Whole(b));
    var end := EndRecordOf(Tail(r));
    if end.Some? {
      SameBytesSameDirectory(r, b, end.value);
      ListedFrom(r, end.value, DirectoryOf(r, end.value), codec);
      ListedFrom(Whole(b), end.value, DirectoryOf(r, end.value), codec);
    }
  }

  lemma SameBytesSameDirectory(r: Reader, b: Bytes, end: EndRecord)
    requires Serves(r, b)
    ensures DirectoryOf(r, end) == DirectoryOf(Whole(b), end)
  {
    WholeServes(b);
  }

  /** And read the same bytes for each of them. */
  lemma SameBytesSameReading(r: Reader, b: Bytes, entry: Entry, codec: Codec)
    requires Serves(r, b)
    ensures DataStart(r, entry) == DataStart(Whole(b), entry)
    ensures ReadEntry(r, entry, codec) == ReadEntry(Whole(b), entry, codec)
  {
    assert Read(r, entry.offset, 30) == Read(Whole(b), entry.offset, 30);
    if DataStart(r, entry).Ok? {
      var start := DataStart(r, entry).value;
      assert Read(r, start, entry.size) == Read(Whole(b), start, entry.size);
    }
  }

  // --- What an archive is -----------------------------------------------------------------

  /** One member: what the format records of it, and where. `data` is as stored, compressed or not. */
  datatype Member = Member(
    name: Bytes, compression: nat, data: Bytes, offset: nat,
    localExtra: Bytes, centralExtra: Bytes, comment: Bytes)

  /** `part` stands in `b` at `at`. */
  predicate PartAt(b: Bytes, at: nat, part: Bytes) {
    at + |part| <= |b| && b[at..at + |part|] == part
  }

  /** APPNOTE.TXT 4.3.7: local header, name, extra field, data. */
  predicate LocalRecordAt(b: Bytes, m: Member) {
    && m.offset + 30 <= |b|
    && U32(b, m.offset) == LOCAL_SIGNATURE
    && U16(b, m.offset + 26) == |m.name|
    && U16(b, m.offset + 28) == |m.localExtra|
    && PartAt(b, m.offset + 30, m.name + m.localExtra + m.data)
  }

  /** APPNOTE.TXT 4.3.12: central header, name, extra field, comment. */
  predicate CentralHeaderAt(dir: Bytes, at: nat, m: Member) {
    && at + 46 <= |dir|
    && U32(dir, at) == CENTRAL_SIGNATURE
    && U16(dir, at + 10) == m.compression
    && U32(dir, at + 20) == |m.data|
    && U16(dir, at + 28) == |m.name|
    && U16(dir, at + 30) == |m.centralExtra|
    && U16(dir, at + 32) == |m.comment|
    && U32(dir, at + 42) == m.offset
    && PartAt(dir, at + 46, m.name + m.centralExtra + m.comment)
  }

  function HeaderLength(m: Member): nat {
    46 + |m.name| + |m.centralExtra| + |m.comment|
  }

  predicate DirectoryAt(dir: Bytes, at: nat, ms: seq<Member>)
    decreases |ms|
  {
    ms == [] || (CentralHeaderAt(dir, at, ms[0]) && DirectoryAt(dir, at + HeaderLength(ms[0]), ms[1..]))
  }

  /** APPNOTE.TXT 4.3.16: the end record at `end`, the archive comment running to the end of the file. */
  predicate EndRecordAt(b: Bytes, end: nat, count: nat, dirStart: nat, dirSize: nat) {
    && end + 22 <= |b| && |b| - end - 22 <= MAX_COMMENT
    && U32(b, end) == EOCD_SIGNATURE
    && U16(b, end + 10) == count
    && U32(b, end + 12) == dirSize
    && U32(b, end + 16) == dirStart
    && U16(b, end + 20) == |b| - end - 22
  }

  ghost predicate NoEndAfter(b: Bytes, end: nat) {
    forall i | end < i <= |b| - 22 :: U32(b, i) != EOCD_SIGNATURE
  }

  /** An archive of `ms`, its records wherever they are, whose comment holds no later end signature. */
  ghost predicate IsArchive(b: Bytes, ms: seq<Member>, dirStart: nat, dirSize: nat, end: nat) {
    && EndRecordAt(b, end, |ms|, dirStart, dirSize)
    && dirStart + dirSize <= end
    && DirectoryAt(b[dirStart..dirStart + dirSize], 0, ms)
    && (forall m | m in ms :: LocalRecordAt(b, m))
    && NoEndAfter(b, end)
  }

  function EntryOf(m: Member, codec: Codec): Entry {
    Entry(codec.utf8(m.name), m.compression, m.offset, |m.data|)
  }

  function EntriesOf(ms: seq<Member>, codec: Codec): seq<Entry> {
    seq(|ms|, i requires 0 <= i < |ms| => EntryOf(ms[i], codec))
  }

  // --- Reading an archive -------------------------------------------------------------------

  lemma {:induction false} EndFound(tail: Bytes, end: nat, i: int)
    requires end <= i && i + 22 <= |tail|
    requires U32(tail, end) == EOCD_SIGNATURE
    requires forall k | end < k <= i :: U32(tail, k) != EOCD_SIGNATURE
    ensures FindEnd(tail, i) == Some(end)
    decreases i
  {
    if i > end {
      EndFound(tail, end, i - 1);
    }
  }

  lemma EntryRead(dir: Bytes, at: nat, m: Member, codec: Codec)
    requires CentralHeaderAt(dir, at, m)
    ensures HeaderAt(dir, at)
    ensures EntryAt(dir, at, codec) == EntryOf(m, codec)
    ensures NextHeader(dir, at) == at + HeaderLength(m)
  {
    var rest := m.name + m.centralExtra + m.comment;
    assert dir[at + 46..at + 46 + |m.name|] == dir[at + 46..at + 46 + |rest|][..|m.name|];
    assert Sub(dir, at + 46, at + 46 + |m.name|) == m.name;
  }

  lemma {:induction false} DirectoryWalked(dir: Bytes, at: nat, ms: seq<Member>, codec: Codec)
    requires DirectoryAt(dir, at, ms)
    ensures Walk(dir, at, |ms|, codec) == EntriesOf(ms, codec)
    decreases |ms|
  {
    if ms != [] {
      EntryRead(dir, at, ms[0], codec);
      DirectoryWalked(dir, at + HeaderLength(ms[0]), ms[1..], codec);
      assert EntriesOf(ms, codec) == [EntryOf(ms[0], codec)] + EntriesOf(ms[1..], codec);
    }
  }

  /** The search from the back stops at the true end record, and reads its fields. */
  lemma EndRecordRead(b: Bytes, end: nat, count: nat, dirStart: nat, dirSize: nat)
    requires EndRecordAt(b, end, count, dirStart, dirSize) && NoEndAfter(b, end)
    ensures EndRecordOf(Tail(Whole(b))) == Some(EndRecord(count, dirSize, dirStart))
  {
    var start := TailStart(|b|);
    var tail, e := b[start..|b|], end - start;
    assert Tail(Whole(b)) == tail;
    U32Of(b, start, |b|, e);
    forall k | e < k <= |tail| - 22 ensures U32(tail, k) != EOCD_SIGNATURE {
      U32Of(b, start, |b|, k);
    }
    EndFound(tail, e, |tail| - 22);
    U16Of(b, start, |b|, e + 10);
    U32Of(b, start, |b|, e + 12);
    U32Of(b, start, |b|, e + 16);
  }

  lemma DirectoryRead(b: Bytes, end: EndRecord)
    requires end.at + end.size <= |b|
    ensures DirectoryOf(Whole(b), end) == b[end.at..end.at + end.size]
  {
    var start := TailStart(|b|);
    assert Tail(Whole(b)) == b[start..|b|];
    if end.at >= start {
      SliceOfSlice(b, start, |b|, end.at - start, end.at - start + end.size);
    }
  }

  /**
   * Every member of an archive is listed, in order and exactly, whether the
   * directory lies in the tail that is searched or before it.
   */
  lemma ArchiveListed(b: Bytes, ms: seq<Member>, dirStart: nat, dirSize: nat, end: nat, codec: Codec)
    requires IsArchive(b, ms, dirStart, dirSize, end)
    ensures ReadCentralDirectory(Whole(b), codec) == Ok(EntriesOf(ms, codec))
  {
    EndRecordRead(b, end, |ms|, dirStart, dirSize);
    DirectoryRead(b, EndRecord(|ms|, dirSize, dirStart));
    ListedFrom(Whole(b), EndRecord(|ms|, dirSize, dirStart), b[dirStart..dirStart + dirSize], codec);
    DirectoryWalked(b[dirStart..dirStart + dirSize], 0, ms, codec);
  }

  /**
   * Every member's bytes are found past its own local header, whatever the
   * two extra fields, and read exactly: stored as they are, deflated inflated.
   */
  lemma MemberRead(b: Bytes, m: Member, codec: Codec)
    requires LocalRecordAt(b, m)
    ensures DataStart(Whole(b), EntryOf(m, codec)) == Ok(m.offset + 30 + |m.name| + |m.localExtra|)
    ensures PartAt(b, m.offset + 30 + |m.name| + |m.localExtra|, m.data)
    ensures ReadEntry(Whole(b), EntryOf(m, codec), codec) ==
      if m.compression == 0 then Ok(m.data)
      else if m.compression == 8 then codec.inflate(m.data)
      else Thrown
  {
    DataFound(b, m, codec);
    var rest, skip := m.name + m.localExtra + m.data, |m.name| + |m.localExtra|;
    var start := m.offset + 30 + skip;
    assert b[start..start + |m.data|] == b[m.offset + 30..m.offset + 30 + |rest|][skip..];
    assert rest[skip..] == m.data;
    assert Read(Whole(b), start, |m.data|) == m.data;
  }

  lemma DataFound(b: Bytes, m: Member, codec: Codec)
    requires LocalRecordAt(b, m)
    ensures DataStart(Whole(b), EntryOf(m, codec)) == Ok(m.offset + 30 + |m.name| + |m.localExtra|)
  {
    assert Read(Whole(b), m.offset, 30) == b[m.offset..m.offset + 30];
    U32Of(b, m.offset, m.offset + 30, 0);
    U16Of(b, m.offset, m.offset + 30, 26);
    U16Of(b, m.offset, m.offset + 30, 28);
  }

  /** The same through any reader of the archive, nested or not. */
  lemma ArchiveRead(r: Reader, b: Bytes, ms: seq<Member>, dirStart: nat, dirSize: nat, end: nat, i: nat, codec: Codec)
    requires Serves(r, b) && IsArchive(b, ms, dirStart, dirSize, end) && i < |ms|
    ensures ReadCentralDirectory(r, codec) == Ok(EntriesOf(ms, codec))
    ensures ms[i].compression == 0 ==> ReadEntry(r, EntriesOf(ms, codec)[i], codec) == Ok(ms[i].data)
    ensures ms[i].compression == 8 ==> ReadEntry(r, EntriesOf(ms, codec)[i], codec) == codec.inflate(ms[i].data)
  {
    SameBytesSameListing(r, b, codec);
    SameBytesSameReading(r, b, EntryOf(ms[i], codec), codec);
    ArchiveListed(b, ms, dirStart, dirSize, end, codec);
    assert ms[i] in ms;
    MemberRead(b, ms[i], codec);
  }
}
