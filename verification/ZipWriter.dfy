// The one-entry ZIP writer of apps/hub/src/services/zip.ts: an uploaded `.apk`
// becomes a bundle holding it as `base.apk`, stored.

module ZipWriter {
  import opened Bytes
  import opened Zip

  const MAX_U16: nat := 0xffff
  const MAX_U32: nat := 0xffff_ffff

  function LE16(v: nat): (b: Bytes)
    requires v <= MAX_U16
    ensures |b| == 2
  {
    [v % 256, v / 256]
  }

  lemma LE16Reads(v: nat)
    requires v <= MAX_U16
    ensures U16(LE16(v), 0) == v
  {
  }

  function LE32(v: nat): (b: Bytes)
    requires v <= MAX_U32
    ensures |b| == 4
  {
    LE16(v % 0x1_0000) + LE16(v / 0x1_0000)
  }

  /** `Buffer.writeUInt16LE`: throws when the value does not fit, so the caller looks first. */
  method WriteUInt16LE(buffer: array<Byte>, value: nat, at: nat)
    requires at + 2 <= buffer.Length && value <= MAX_U16
    modifies buffer
    ensures buffer[..at + 2] == old(buffer[..at]) + LE16(value)
  {
    buffer[at], buffer[at + 1] := value % 256, value / 256;
  }

  method WriteUInt32LE(buffer: array<Byte>, value: nat, at: nat)
    requires at + 4 <= buffer.Length && value <= MAX_U32
    modifies buffer
    ensures buffer[..at + 4] == old(buffer[..at]) + LE32(value)
  {
    ghost var was := buffer[..at];
    WriteUInt16LE(buffer, value % 0x1_0000, at);
    WriteUInt16LE(buffer, value / 0x1_0000, at + 2);
    assert buffer[..at + 4] == (was + LE16(value % 0x1_0000)) + LE16(value / 0x1_0000);
  }

  /** `name.copy(buffer, at)`. */
  method Copy(name: Bytes, buffer: array<Byte>, at: nat)
    requires at + |name| == buffer.Length
    modifies buffer
    ensures buffer[..] == old(buffer[..at]) + name
  {
    for i := 0 to |name|
      invariant buffer[..at + i] == old(buffer[..at]) + name[..i]
    {
      buffer[at + i] := name[i];
    }
  }

  // --- The layout ----------------------------------------------------------------------

  /** A moment on the wall clock. */
  datatype Clock = Clock(year: nat, month: nat, day: nat, hours: nat, minutes: nat, seconds: nat) {
    predicate Valid() {
      1 <= month <= 12 && 1 <= day <= 31 && hours < 24 && minutes < 60 && seconds < 60
    }
  }

  /** `dosTimestamp`: shifts and ors of fields that do not overlap. */
  function DosTime(c: Clock): nat { c.hours * 2048 + c.minutes * 32 + c.seconds / 2 }

  function DosYear(c: Clock): nat { if c.year < 1980 then 1980 else c.year }

  function DosDate(c: Clock): nat { (DosYear(c) - 1980) * 512 + c.month * 32 + c.day }

  /** What the headers say of the file besides its name and size. */
  datatype Stamp = Stamp(crc: nat, time: nat, date: nat)

  function StampOf(crc: nat, c: Clock): Stamp { Stamp(crc, DosTime(c), DosDate(c)) }

  /** The pair reads back as the moment, to two seconds; a date of 2108 or later does not fit its field. */
  lemma TimestampFits(c: Clock)
    requires c.Valid()
    ensures DosTime(c) <= MAX_U16
    ensures DosDate(c) <= MAX_U16 <==> c.year < 2108
    ensures DosTime(c) / 2048 == c.hours && DosTime(c) / 32 % 64 == c.minutes && DosTime(c) % 32 == c.seconds / 2
    ensures DosDate(c) / 512 == DosYear(c) - 1980 && DosDate(c) / 32 % 16 == c.month && DosDate(c) % 32 == c.day
  {
    assert DosTime(c) / 32 == c.hours * 64 + c.minutes;
    assert DosDate(c) / 32 == (DosYear(c) - 1980) * 16 + c.month;
  }

  /** What both headers hold: the version needed, flags, method, time and date. */
  function KindFields(stamp: Stamp): (b: Bytes)
    requires stamp.time <= MAX_U16 && stamp.date <= MAX_U16
    ensures |b| == 10
  {
    LE16(20) + LE16(0) + LE16(0) + LE16(stamp.time) + LE16(stamp.date)
  }

  /** And then: the checksum, both sizes, and the lengths of the name and the extra field. */
  function SizeFields(name: Bytes, size: nat, stamp: Stamp): (b: Bytes)
    requires |name| <= MAX_U16 && size <= MAX_U32 && stamp.crc <= MAX_U32
    ensures |b| == 16
  {
    LE32(stamp.crc) + LE32(size) + LE32(size) + LE16(|name|) + LE16(0)
  }

  function FileFields(name: Bytes, size: nat, stamp: Stamp): (b: Bytes)
    requires Fits(name, size, stamp)
    ensures |b| == 26
  {
    KindFields(stamp) + SizeFields(name, size, stamp)
  }

  /** APPNOTE.TXT 4.3.7, up to the name. */
  function LocalFields(name: Bytes, size: nat, stamp: Stamp): (b: Bytes)
    requires Fits(name, size, stamp)
    ensures |b| == 30
  {
    LE32(LOCAL_SIGNATURE) + FileFields(name, size, stamp)
  }

  /** APPNOTE.TXT 4.3.12, up to the name. */
  function CentralFields(name: Bytes, size: nat, stamp: Stamp): (b: Bytes)
    requires Fits(name, size, stamp)
    ensures |b| == 46
  {
    LE32(CENTRAL_SIGNATURE) + LE16(20) + FileFields(name, size, stamp)
    + LE16(0) + LE16(0) + LE16(0) + LE32(0) + LE32(0)
  }

  /** APPNOTE.TXT 4.3.16. */
  function EndFields(name: Bytes, size: nat, stamp: Stamp): Bytes
    requires Fits(name, size, stamp)
  {
    LE32(EOCD_SIGNATURE) + LE16(0) + LE16(0) + LE16(1) + LE16(1)
    + LE32(46 + |name|) + LE32(30 + |name| + size) + LE16(0)
  }

  /** Every field fits its width. */
  predicate Fits(name: Bytes, size: nat, stamp: Stamp) {
    && |name| <= MAX_U16 && stamp.crc <= MAX_U32
    && stamp.time <= MAX_U16 && stamp.date <= MAX_U16
    && 30 + |name| + size <= MAX_U32
  }

  function Bundle(name: Bytes, content: Bytes, stamp: Stamp): Bytes
    requires Fits(name, |content|, stamp)
  {
    LocalFields(name, |content|, stamp) + name
    + content
    + (CentralFields(name, |content|, stamp) + name)
    + EndFields(name, |content|, stamp)
  }

  method WriteKindFields(buffer: array<Byte>, at: nat, stamp: Stamp) returns (done: bool)
    requires at + 10 <= buffer.Length && stamp.time <= MAX_U16
    modifies buffer
    ensures done <==> stamp.date <= MAX_U16
    ensures done ==> buffer[..at + 10] == old(buffer[..at]) + KindFields(stamp)
  {
    WriteUInt16LE(buffer, 20, at);
    WriteUInt16LE(buffer, 0, at + 2);
    WriteUInt16LE(buffer, 0, at + 4);
    WriteUInt16LE(buffer, stamp.time, at + 6);
    if stamp.date > MAX_U16 { return false; }
    WriteUInt16LE(buffer, stamp.date, at + 8);
    return true;
  }

  method WriteSizeFields(buffer: array<Byte>, at: nat, name: Bytes, size: nat, stamp: Stamp) returns (done: bool)
    requires at + 16 <= buffer.Length && size <= MAX_U32 && stamp.crc <= MAX_U32
    modifies buffer
    ensures done <==> |name| <= MAX_U16
    ensures done ==> buffer[..at + 16] == old(buffer[..at]) + SizeFields(name, size, stamp)
  {
    WriteUInt32LE(buffer, stamp.crc, at);
    WriteUInt32LE(buffer, size, at + 4);
    WriteUInt32LE(buffer, size, at + 8);
    if |name| > MAX_U16 { return false; }
    WriteUInt16LE(buffer, |name|, at + 12);
    WriteUInt16LE(buffer, 0, at + 14);
    return true;
  }

  method WriteFileFields(buffer: array<Byte>, at: nat, name: Bytes, size: nat, stamp: Stamp) returns (done: bool)
    requires at + 26 <= buffer.Length
    requires size <= MAX_U32 && stamp.crc <= MAX_U32 && stamp.time <= MAX_U16
    modifies buffer
    ensures done <==> |name| <= MAX_U16 && stamp.date <= MAX_U16
    ensures done && Fits(name, size, stamp) ==> buffer[..at + 26] == old(buffer[..at]) + FileFields(name, size, stamp)
  {
    done := WriteKindFields(buffer, at, stamp);
    if !done { return; }
    ghost var first := buffer[..at + 10];
    done := WriteSizeFields(buffer, at + 10, name, size, stamp);
    if done { assert buffer[..at + 26] == first + SizeFields(name, size, stamp); }
  }

  method LocalHeader(name: Bytes, size: nat, stamp: Stamp) returns (header: Outcome<Bytes>)
    requires size < MAX_U32 && stamp.crc <= MAX_U32 && stamp.time <= MAX_U16
    ensures header.Ok? <==> |name| <= MAX_U16 && stamp.date <= MAX_U16
    ensures header.Ok? && Fits(name, size, stamp) ==> header.value == LocalFields(name, size, stamp) + name
  {
    hide FileFields, LE16, LE32;
    var local := new Byte[30 + |name|](_ => 0);
    WriteUInt32LE(local, LOCAL_SIGNATURE, 0);
    var done := WriteFileFields(local, 4, name, size, stamp);
    if !done { return Thrown; }
    Copy(name, local, 30);
    return Ok(local[..]);
  }

  method CentralHeader(name: Bytes, size: nat, stamp: Stamp) returns (header: Outcome<Bytes>)
    requires size < MAX_U32 && stamp.crc <= MAX_U32 && stamp.time <= MAX_U16
    ensures header.Ok? <==> |name| <= MAX_U16 && stamp.date <= MAX_U16
    ensures header.Ok? && Fits(name, size, stamp) ==> header.value == CentralFields(name, size, stamp) + name
  {
    hide FileFields, LE16, LE32;
    var central := new Byte[46 + |name|](_ => 0);
    WriteUInt32LE(central, CENTRAL_SIGNATURE, 0);
    WriteUInt16LE(central, 20, 4);
    var done := WriteFileFields(central, 6, name, size, stamp);
    if !done { return Thrown; }
    ghost var head := central[..32];
    WriteUInt16LE(central, 0, 32);
    WriteUInt16LE(central, 0, 34);
    WriteUInt16LE(central, 0, 36);
    WriteUInt32LE(central, 0, 38);
    WriteUInt32LE(central, 0, 42);
    assert central[..46] == head + LE16(0) + LE16(0) + LE16(0) + LE32(0) + LE32(0);
    Copy(name, central, 46);
    return Ok(central[..]);
  }

  method EndHeader(name: Bytes, size: nat, stamp: Stamp) returns (header: Outcome<Bytes>)
    requires |name| <= MAX_U16
    ensures header.Ok? <==> 30 + |name| + size <= MAX_U32
    ensures header.Ok? && Fits(name, size, stamp) ==> header.value == EndFields(name, size, stamp)
  {
    hide LE16, LE32;
    var end := new Byte[22](_ => 0);
    WriteUInt32LE(end, EOCD_SIGNATURE, 0);
    WriteUInt16LE(end, 0, 4);
    WriteUInt16LE(end, 0, 6);
    WriteUInt16LE(end, 1, 8);
    WriteUInt16LE(end, 1, 10);
    WriteUInt32LE(end, 46 + |name|, 12);
    if 30 + |name| + size > MAX_U32 { return Thrown; }
    WriteUInt32LE(end, 30 + |name| + size, 16);
    WriteUInt16LE(end, 0, 20);
    assert end[..] == end[..22];
    return Ok(end[..]);
  }

  /**
   * The size check alone does not decide: the directory's own offset must fit
   * 32 bits too, so the largest content is short of it by the local header.
   */
  method WrapAsBundle(content: Bytes, name: Bytes, crc: nat, c: Clock) returns (bundle: Outcome<Bytes>)
    requires crc <= MAX_U32 && c.Valid()
    ensures bundle.Ok? <==> 30 + |name| + |content| <= MAX_U32 && |name| <= MAX_U16 && c.year < 2108
    ensures bundle.Ok? ==> Fits(name, |content|, StampOf(crc, c)) && bundle.value == Bundle(name, content, StampOf(crc, c))
  {
    TimestampFits(c);
    if |content| >= MAX_U32 { return Thrown; }
    var local := LocalHeader(name, |content|, StampOf(crc, c));
    if local.Thrown? { return Thrown; }
    var central := CentralHeader(name, |content|, StampOf(crc, c));
    if central.Thrown? { return Thrown; }
    var end := EndHeader(name, |content|, StampOf(crc, c));
    if end.Thrown? { return Thrown; }
    return Ok(local.value + content + central.value + end.value);
  }

  // --- What was written is an archive ------------------------------------------------------

  lemma LocalFieldsRead(name: Bytes, size: nat, stamp: Stamp)
    requires Fits(name, size, stamp)
    ensures var h := LocalFields(name, size, stamp);
      |h| == 30 && U32(h, 0) == LOCAL_SIGNATURE && U16(h, 26) == |name| && U16(h, 28) == 0
  {
  }

  lemma CentralFieldsRead(name: Bytes, size: nat, stamp: Stamp)
    requires Fits(name, size, stamp)
    ensures var h := CentralFields(name, size, stamp);
      && |h| == 46 && U32(h, 0) == CENTRAL_SIGNATURE && U16(h, 10) == 0 && U32(h, 20) == size
      && U16(h, 28) == |name| && U16(h, 30) == 0 && U16(h, 32) == 0 && U32(h, 42) == 0
  {
  }

  lemma EndFieldsRead(name: Bytes, size: nat, stamp: Stamp)
    requires Fits(name, size, stamp)
    ensures var h := EndFields(name, size, stamp);
      && |h| == 22 && U32(h, 0) == EOCD_SIGNATURE && U16(h, 10) == 1
      && U32(h, 12) == 46 + |name| && U32(h, 16) == 30 + |name| + size && U16(h, 20) == 0
  {
  }

  /** The wrapped file, as the format sees it: one member, stored, at the front. */
  function Wrapped(name: Bytes, content: Bytes): Member {
    Member(name, 0, content, 0, [], [], [])
  }

  lemma BundleIsArchive(name: Bytes, content: Bytes, stamp: Stamp)
    requires Fits(name, |content|, stamp)
    ensures var start := 30 + |name| + |content|;
      IsArchive(Bundle(name, content, stamp), [Wrapped(name, content)], start, 46 + |name|, start + 46 + |name|)
  {
    LocalFieldsRead(name, |content|, stamp);
    CentralFieldsRead(name, |content|, stamp);
    EndFieldsRead(name, |content|, stamp);
    PartsMakeArchive(name, content, LocalFields(name, |content|, stamp), CentralFields(name, |content|, stamp),
                     EndFields(name, |content|, stamp));
  }

  /** Whatever else the three headers say, these fields make the whole an archive. */
  lemma PartsMakeArchive(name: Bytes, content: Bytes, local: Bytes, central: Bytes, end: Bytes)
    requires |local| == 30 && |central| == 46 && |end| == 22
    requires U32(local, 0) == LOCAL_SIGNATURE && U16(local, 26) == |name| && U16(local, 28) == 0
    requires U32(central, 0) == CENTRAL_SIGNATURE && U16(central, 10) == 0 && U32(central, 20) == |content|
    requires U16(central, 28) == |name| && U16(central, 30) == 0 && U16(central, 32) == 0 && U32(central, 42) == 0
    requires U32(end, 0) == EOCD_SIGNATURE && U16(end, 10) == 1
    requires U32(end, 12) == 46 + |name| && U32(end, 16) == 30 + |name| + |content| && U16(end, 20) == 0
    ensures var start := 30 + |name| + |content|;
      IsArchive(local + name + content + (central + name) + end,
                [Wrapped(name, content)], start, 46 + |name|, start + 46 + |name|)
  {
    var b, start, m := local + name + content + (central + name) + end, 30 + |name| + |content|, Wrapped(name, content);
    assert b[..30] == local;
    assert b[30..start] == name + [] + content;
    assert b[start..start + 46 + |name|] == central + name;
    assert b[start + 46 + |name|..] == end;
    FrontRead(b, local, m);
    DirectoryWritten(b[start..start + 46 + |name|], central, m);
    EndWritten(b, start + 46 + |name|, end);
  }

  lemma FrontRead(b: Bytes, local: Bytes, m: Member)
    requires m.offset == 0 && |local| == 30 && PartAt(b, 0, local)
    requires U32(local, 0) == LOCAL_SIGNATURE && U16(local, 26) == |m.name| && U16(local, 28) == |m.localExtra|
    requires PartAt(b, 30, m.name + m.localExtra + m.data)
    ensures LocalRecordAt(b, m)
  {
    U32Of(b, 0, 30, 0);
    U16Of(b, 0, 30, 26);
    U16Of(b, 0, 30, 28);
  }

  lemma DirectoryWritten(dir: Bytes, central: Bytes, m: Member)
    requires dir == central + m.name && m.offset == 0 && m.comment == [] && m.centralExtra == [] && |central| == 46
    requires U32(central, 0) == CENTRAL_SIGNATURE && U16(central, 10) == m.compression && U32(central, 20) == |m.data|
    requires U16(central, 28) == |m.name| && U16(central, 30) == 0 && U16(central, 32) == 0 && U32(central, 42) == 0
    ensures DirectoryAt(dir, 0, [m])
  {
    assert dir[46..46 + |m.name|] == m.name;
    assert m.name + m.centralExtra + m.comment == m.name;
    assert CentralHeaderAt(dir, 0, m);
    assert DirectoryAt(dir, HeaderLength(m), [m][1..]);
  }

  lemma EndWritten(b: Bytes, at: nat, end: Bytes)
    requires at <= |b| && b[at..] == end && |end| == 22
    requires U32(end, 0) == EOCD_SIGNATURE && U16(end, 20) == 0
    ensures EndRecordAt(b, at, U16(end, 10), U32(end, 16), U32(end, 12)) && NoEndAfter(b, at)
  {
    assert b[at..] == b[at..|b|];
    U32Of(b, at, |b|, 0);
    U16Of(b, at, |b|, 10);
    U32Of(b, at, |b|, 12);
    U32Of(b, at, |b|, 16);
    U16Of(b, at, |b|, 20);
  }

  /** Written, then read: the bundle lists its one entry, and the entry's bytes are the content's. */
  lemma BundleReadsBack(b: Bytes, name: Bytes, content: Bytes, stamp: Stamp, codec: Codec)
    requires Fits(name, |content|, stamp) && b == Bundle(name, content, stamp)
    ensures ReadCentralDirectory(Whole(b), codec) == Ok([EntryOf(Wrapped(name, content), codec)])
    ensures ReadEntry(Whole(b), EntryOf(Wrapped(name, content), codec), codec) == Ok(content)
  {
    var start, m := 30 + |name| + |content|, Wrapped(name, content);
    BundleIsArchive(name, content, stamp);
    OneMemberRead(b, m, start, 46 + |name|, start + 46 + |name|, codec);
  }

  lemma OneMemberRead(b: Bytes, m: Member, start: nat, size: nat, end: nat, codec: Codec)
    requires IsArchive(b, [m], start, size, end) && m.compression == 0
    ensures ReadCentralDirectory(Whole(b), codec) == Ok([EntryOf(m, codec)])
    ensures ReadEntry(Whole(b), EntryOf(m, codec), codec) == Ok(m.data)
    ensures DataStart(Whole(b), EntryOf(m, codec)) == Ok(m.offset + 30 + |m.name| + |m.localExtra|)
    ensures PartAt(b, m.offset + 30 + |m.name| + |m.localExtra|, m.data)
  {
    ArchiveListed(b, [m], start, size, end, codec);
    assert EntriesOf([m], codec) == [EntryOf(m, codec)];
    assert m in [m];
    MemberRead(b, m, codec);
  }
}
