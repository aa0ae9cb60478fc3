// A writer of the binary XML that Manifest.dfy reads, in the layout Android's
// tools give it, and the round trip through packages/apk/src/index.ts.

module ManifestEncoder {
  import opened Bytes
  import opened Options
  import opened Zip
  import opened ZipWriter
  import opened Manifest

  const NONE: nat := 0xffff_ffff

  // --- Reading what was appended --------------------------------------------------------

  lemma FrontU32(a: Bytes, b: Bytes, at: nat)
    requires at + 4 <= |a|
    ensures U32(a + b, at) == U32(a, at)
  {
    assert (a + b)[0..|a|] == a;
    U32Of(a + b, 0, |a|, at);
  }

  lemma BackU32(a: Bytes, b: Bytes, at: nat)
    requires at + 4 <= |b|
    ensures U32(a + b, |a| + at) == U32(b, at)
  {
    assert (a + b)[|a|..|a| + |b|] == b;
    U32Of(a + b, |a|, |a| + |b|, at);
  }

  lemma FrontU16(a: Bytes, b: Bytes, at: nat)
    requires at + 2 <= |a|
    ensures U16(a + b, at) == U16(a, at)
  {
    assert (a + b)[0..|a|] == a;
    U16Of(a + b, 0, |a|, at);
  }

  lemma LE32Reads(v: nat)
    requires v <= MAX_U32
    ensures U32(LE32(v), 0) == v
  {
  }

  // --- Chunks ----------------------------------------------------------------------------

  function Chunk(kind: nat, headerSize: nat, body: Bytes): (b: Bytes)
    requires kind <= MAX_U16 && headerSize <= MAX_U16 && 8 + |body| <= MAX_U32
    ensures |b| == 8 + |body|
  {
    (LE16(kind) + LE16(headerSize) + LE32(8 + |body|)) + body
  }

  lemma ChunkIsChunk(kind: nat, headerSize: nat, body: Bytes)
    requires kind <= MAX_U16 && headerSize <= MAX_U16 && 8 + |body| <= MAX_U32
    ensures IsChunk(Chunk(kind, headerSize, body), kind)
  {
    var head := LE16(kind) + LE16(headerSize) + LE32(8 + |body|);
    FrontU16(head, body, 0);
    FrontU32(head, body, 4);
    FrontU16(LE16(kind), LE16(headerSize) + LE32(8 + |body|), 0);
    assert head == LE16(kind) + (LE16(headerSize) + LE32(8 + |body|));
    LE16Reads(kind);
    BackU32(LE16(kind) + LE16(headerSize), LE32(8 + |body|), 0);
    LE32Reads(8 + |body|);
  }

  /** A read inside the body. */
  lemma ChunkU32(kind: nat, headerSize: nat, body: Bytes, at: nat)
    requires kind <= MAX_U16 && headerSize <= MAX_U16 && 8 + |body| <= MAX_U32 && at + 4 <= |body|
    ensures U32(Chunk(kind, headerSize, body), 8 + at) == U32(body, at)
  {
    BackU32(LE16(kind) + LE16(headerSize) + LE32(8 + |body|), body, at);
  }

  // --- The resource map --------------------------------------------------------------------

  predicate AllFit(values: seq<nat>) {
    forall v | v in values :: v <= MAX_U32
  }

  function Words(values: seq<nat>): (b: Bytes)
    requires AllFit(values)
    ensures |b| == |values| * 4
  {
    if values == [] then []
    else
      assert values[0] in values && forall v | v in values[1..] :: v in values;
      LE32(values[0]) + Words(values[1..])
  }

  lemma {:induction false} WordsRead(values: seq<nat>, i: nat)
    requires AllFit(values) && i < |values|
    ensures U32(Words(values), i * 4) == values[i]
    decreases |values|
  {
    assert values[0] in values && forall v | v in values[1..] :: v in values;
    if i == 0 {
      FrontU32(LE32(values[0]), Words(values[1..]), 0);
      LE32Reads(values[0]);
    } else {
      WordsRead(values[1..], i - 1);
      BackU32(LE32(values[0]), Words(values[1..]), (i - 1) * 4);
    }
  }

  function EncodeMap(ids: seq<nat>): Bytes
    requires AllFit(ids) && 8 + |ids| * 4 <= MAX_U32
  {
    Chunk(CHUNK_RESOURCE_MAP, 8, Words(ids))
  }

  lemma MapEncoded(ids: seq<nat>)
    requires AllFit(ids) && 8 + |ids| * 4 <= MAX_U32
    ensures IsMap(EncodeMap(ids), ids)
  {
    ChunkIsChunk(CHUNK_RESOURCE_MAP, 8, Words(ids));
    forall i | 0 <= i < |ids| ensures U32(EncodeMap(ids), 8 + i * 4) == ids[i] {
      WordsRead(ids, i);
      ChunkU32(CHUNK_RESOURCE_MAP, 8, Words(ids), i * 4);
    }
  }

  // --- The string pool ------------------------------------------------------------------------

  predicate AllRecordable(texts: seq<Text>, utf8: bool) {
    forall t | t in texts :: Recordable(t, utf8)
  }

  /** A record and its terminator. */
  function Stored(t: Text, utf8: bool): Bytes
    requires Recordable(t, utf8)
  {
    Record(t, utf8) + (if utf8 then [0] else [0, 0])
  }

  function StoredAll(texts: seq<Text>, utf8: bool): seq<Bytes>
    requires AllRecordable(texts, utf8)
  {
    seq(|texts|, i requires 0 <= i < |texts| => Stored(texts[i], utf8))
  }

  /** Where a piece begins when they are joined. */
  function StartOf(pieces: seq<Bytes>, i: nat): (at: nat)
    requires i < |pieces|
    ensures at + |pieces[i]| <= |Join(pieces)|
  {
    if i == 0 then 0 else |pieces[0]| + StartOf(pieces[1..], i - 1)
  }

  function Starts(pieces: seq<Bytes>): (o: seq<nat>)
    ensures forall v | v in o :: v <= |Join(pieces)|
  {
    seq(|pieces|, i requires 0 <= i < |pieces| => StartOf(pieces, i))
  }

  /** `part` stands in `b` at `at`, byte by byte. */
  predicate Agrees(b: Bytes, at: int, part: Bytes) {
    && 0 <= at && at + |part| <= |b|
    && forall k | 0 <= k < |part| :: b[at + k] == part[k]
  }

  lemma AgreesBehind(front: Bytes, data: Bytes, at: int, place: int, part: Bytes)
    requires Agrees(data, at, part) && place == |front| + at
    ensures Agrees(front + data, place, part)
  {
    forall k | 0 <= k < |part| ensures (front + data)[place + k] == part[k] {
      assert (front + data)[place + k] == data[at + k];
    }
  }

  lemma AgreesInFront(b: Bytes, at: nat, part: Bytes, more: Bytes)
    requires Agrees(b, at, part + more)
    ensures PartAt(b, at, part)
  {
    forall k | 0 <= k < |part| ensures b[at..at + |part|][k] == part[k] {
      assert b[at + k] == (part + more)[k];
    }
    assert b[at..at + |part|] == part;
  }

  lemma {:induction false} PieceStands(pieces: seq<Bytes>, i: nat)
    requires i < |pieces|
    ensures Agrees(Join(pieces), StartOf(pieces, i), pieces[i])
    decreases |pieces|
  {
    if i > 0 {
      var at := StartOf(pieces[1..], i - 1);
      PieceStands(pieces[1..], i - 1);
      assert pieces[1..][i - 1] == pieces[i];
      AgreesBehind(pieces[0], Join(pieces[1..]), at, |pieces[0]| + at, pieces[i]);
    }
  }

  lemma PieceFurtherBehind(head: Bytes, front: Bytes, pieces: seq<Bytes>, i: nat, place: nat)
    requires i < |pieces| && place == |head| + |front| + StartOf(pieces, i)
    ensures Agrees(head + (front + Join(pieces)), place, pieces[i])
  {
    var at := StartOf(pieces, i);
    PieceStands(pieces, i);
    AgreesBehind(front, Join(pieces), at, |front| + at, pieces[i]);
    AgreesBehind(head, front + Join(pieces), |front| + at, place, pieces[i]);
  }

  predicate PoolFits(texts: seq<Text>, utf8: bool) {
    AllRecordable(texts, utf8) && 28 + |texts| * 4 + |Join(StoredAll(texts, utf8))| <= MAX_U32
  }

  /** Counts of strings and styles, flags, where the strings and the styles start. */
  function PoolHeader(count: nat, utf8: bool): (b: Bytes)
    requires 28 + count * 4 <= MAX_U32
    ensures |b| == 20
  {
    LE32(count) + LE32(0) + LE32(if utf8 then 0x100 else 0) + LE32(28 + count * 4) + LE32(0)
  }

  lemma PoolHeaderRead(count: nat, utf8: bool)
    requires 28 + count * 4 <= MAX_U32
    ensures var h := PoolHeader(count, utf8);
      U32(h, 0) == count && U32(h, 8) == (if utf8 then 0x100 else 0) && U32(h, 12) == 28 + count * 4
  {
  }

  /** A pool of pieces: the header, the table of where they are, and they. */
  function PoolOf(pieces: seq<Bytes>, utf8: bool): Bytes
    requires 28 + |pieces| * 4 + |Join(pieces)| <= MAX_U32
  {
    Chunk(CHUNK_STRING_POOL, 28, PoolHeader(|pieces|, utf8) + Words(Starts(pieces)) + Join(pieces))
  }

  function EncodePool(texts: seq<Text>, utf8: bool): Bytes
    requires PoolFits(texts, utf8)
  {
    PoolOf(StoredAll(texts, utf8), utf8)
  }

  lemma FirstParts(kind: nat, header: Bytes, table: Bytes, data: Bytes, at: nat)
    requires kind <= MAX_U16 && 8 + |header| + |table| + |data| <= MAX_U32
    ensures var chunk := Chunk(kind, 28, header + table + data);
      && (at + 4 <= |header| ==> U32(chunk, 8 + at) == U32(header, at))
      && (at + 4 <= |table| ==> U32(chunk, 8 + |header| + at) == U32(table, at))
  {
    var body, front := header + table + data, header + table;
    if at + 4 <= |header| {
      FrontU32(header, table, at);
      FrontU32(front, data, at);
      ChunkU32(kind, 28, body, at);
    }
    if at + 4 <= |table| {
      BackU32(header, table, at);
      FrontU32(front, data, |header| + at);
      ChunkU32(kind, 28, body, |header| + at);
    }
  }

  lemma PoolFieldsRead(pieces: seq<Bytes>, utf8: bool)
    requires 28 + |pieces| * 4 + |Join(pieces)| <= MAX_U32
    ensures var chunk := PoolOf(pieces, utf8);
      U32(chunk, 8) == |pieces| && U32(chunk, 16) == (if utf8 then 0x100 else 0) && U32(chunk, 20) == 28 + |pieces| * 4
  {
    PoolHeaderRead(|pieces|, utf8);
    FirstParts(CHUNK_STRING_POOL, PoolHeader(|pieces|, utf8), Words(Starts(pieces)), Join(pieces), 0);
    FirstParts(CHUNK_STRING_POOL, PoolHeader(|pieces|, utf8), Words(Starts(pieces)), Join(pieces), 8);
    FirstParts(CHUNK_STRING_POOL, PoolHeader(|pieces|, utf8), Words(Starts(pieces)), Join(pieces), 12);
  }

  lemma FlagRead(chunk: Bytes, utf8: bool)
    requires |chunk| >= 24 && U32(chunk, 16) == (if utf8 then 0x100 else 0)
    ensures FormOf(chunk).utf8 == utf8
  {
  }

  lemma TableRead(pieces: seq<Bytes>, utf8: bool, i: nat)
    requires 28 + |pieces| * 4 + |Join(pieces)| <= MAX_U32 && i < |pieces|
    ensures U32(PoolOf(pieces, utf8), 28 + i * 4) == Starts(pieces)[i]
  {
    hide U32, StartOf, Words, Chunk;
    WordsRead(Starts(pieces), i);
    FirstParts(CHUNK_STRING_POOL, PoolHeader(|pieces|, utf8), Words(Starts(pieces)), Join(pieces), i * 4);
  }

  lemma RecordPlaced(texts: seq<Text>, utf8: bool, i: nat, place: nat)
    requires PoolFits(texts, utf8) && i < |texts|
    requires place == 28 + |texts| * 4 + StartOf(StoredAll(texts, utf8), i)
    ensures RecordAt(EncodePool(texts, utf8), place, texts[i], utf8)
  {
    var pieces := StoredAll(texts, utf8);
    var front := PoolHeader(|pieces|, utf8) + Words(Starts(pieces));
    var head := LE16(CHUNK_STRING_POOL) + LE16(28) + LE32(8 + |front + Join(pieces)|);
    PieceFurtherBehind(head, front, pieces, i, place);
    AgreesInFront(head + (front + Join(pieces)), place, Record(texts[i], utf8), if utf8 then [0] else [0, 0]);
  }

  lemma RecordsPlaced(chunk: Bytes, texts: seq<Text>, utf8: bool, start: nat)
    requires PoolFits(texts, utf8) && chunk == EncodePool(texts, utf8) && start == 28 + |texts| * 4
    ensures forall i | 0 <= i < |texts| :: RecordAt(chunk, start + U32(chunk, 28 + i * 4), texts[i], utf8)
  {
    hide RecordAt, StartOf, Join, PoolHeader, Words;
    forall i | 0 <= i < |texts| ensures RecordAt(chunk, start + U32(chunk, 28 + i * 4), texts[i], utf8) {
      TableRead(StoredAll(texts, utf8), utf8, i);
      RecordPlaced(texts, utf8, i, start + U32(chunk, 28 + i * 4));
    }
  }

  lemma PoolEncoded(texts: seq<Text>, utf8: bool)
    requires PoolFits(texts, utf8)
    ensures IsPool(EncodePool(texts, utf8), utf8, texts)
  {
    hide PoolHeader, Words, Join, RecordAt;
    var pieces, chunk := StoredAll(texts, utf8), EncodePool(texts, utf8);
    ChunkIsChunk(CHUNK_STRING_POOL, 28, PoolHeader(|pieces|, utf8) + Words(Starts(pieces)) + Join(pieces));
    PoolFieldsRead(pieces, utf8);
    FlagRead(chunk, utf8);
    RecordsPlaced(chunk, texts, utf8, U32(chunk, 20));
  }

  // --- The element -------------------------------------------------------------------------------

  predicate AttrFits(a: Attr) {
    a.name <= MAX_U32 && -0x8000_0000 <= a.raw < 0x8000_0000 && a.kind < 256 && a.data <= MAX_U32
  }

  /** Two's complement. */
  function Unsigned(v: int): nat
    requires -0x8000_0000 <= v < 0x8000_0000
  {
    if v < 0 then v + 0x1_0000_0000 else v
  }

  /** Namespace, name, raw value; then the typed value: its size, a zero, its type, its data. */
  function EncodeAttr(a: Attr): (b: Bytes)
    requires AttrFits(a)
    ensures |b| == 20
  {
    LE32(NONE) + LE32(a.name) + LE32(Unsigned(a.raw)) + LE16(8) + [0] + [a.kind] + LE32(a.data)
  }

  lemma AttrReads(a: Attr)
    requires AttrFits(a)
    ensures AttrAt(EncodeAttr(a), 0) == a
  {
    var b := EncodeAttr(a);
    var lead := LE32(NONE) + LE32(a.name) + LE32(Unsigned(a.raw)) + LE16(8) + [0] + [a.kind];
    assert b == LE32(NONE) + (LE32(a.name) + (LE32(Unsigned(a.raw)) + LE16(8) + [0] + [a.kind] + LE32(a.data)));
    BackU32(LE32(NONE), LE32(a.name) + (LE32(Unsigned(a.raw)) + LE16(8) + [0] + [a.kind] + LE32(a.data)), 0);
    FrontU32(LE32(a.name), LE32(Unsigned(a.raw)) + LE16(8) + [0] + [a.kind] + LE32(a.data), 0);
    LE32Reads(a.name);
    RawReads(a);
    BackU32(lead, LE32(a.data), 0);
    LE32Reads(a.data);
  }

  lemma RawReads(a: Attr)
    requires AttrFits(a)
    ensures U32(EncodeAttr(a), 8) == Unsigned(a.raw)
  {
    var rest := LE16(8) + [0] + [a.kind] + LE32(a.data);
    assert EncodeAttr(a) == (LE32(NONE) + LE32(a.name)) + (LE32(Unsigned(a.raw)) + rest);
    BackU32(LE32(NONE) + LE32(a.name), LE32(Unsigned(a.raw)) + rest, 0);
    FrontU32(LE32(Unsigned(a.raw)), rest, 0);
    LE32Reads(Unsigned(a.raw));
  }

  /** Read where it stands, an attribute is the one written there. */
  lemma AttrInPlace(chunk: Bytes, at: nat, a: Attr)
    requires AttrFits(a) && PartAt(chunk, at, EncodeAttr(a))
    ensures at + 20 <= |chunk| && AttrAt(chunk, at) == a
  {
    AttrReads(a);
    U32Of(chunk, at, at + 20, 4);
    U32Of(chunk, at, at + 20, 8);
    U32Of(chunk, at, at + 20, 16);
    assert chunk[at + 15] == chunk[at..at + 20][15];
  }

  predicate AttrsFit(attrs: seq<Attr>) {
    forall a | a in attrs :: AttrFits(a)
  }

  function EncodeAttrs(attrs: seq<Attr>): (b: Bytes)
    requires AttrsFit(attrs)
    ensures |b| == |attrs| * 20
  {
    if attrs == [] then []
    else
      assert attrs[0] in attrs && forall a | a in attrs[1..] :: a in attrs;
      EncodeAttr(attrs[0]) + EncodeAttrs(attrs[1..])
  }

  lemma {:induction false} AttrsInPlace(chunk: Bytes, at: nat, attrs: seq<Attr>)
    requires AttrsFit(attrs) && PartAt(chunk, at, EncodeAttrs(attrs))
    ensures AttrsAt(chunk, at, 20, attrs)
    decreases |attrs|
  {
    if attrs != [] {
      assert attrs[0] in attrs && forall a | a in attrs[1..] :: a in attrs;
      var first, rest := EncodeAttr(attrs[0]), EncodeAttrs(attrs[1..]);
      assert EncodeAttrs(attrs) == first + rest + [];
      PartOfPart(chunk, at, first, rest, []);
      AttrInPlace(chunk, at, attrs[0]);
      AttrsInPlace(chunk, at + 20, attrs[1..]);
    }
  }

  predicate ElementFits(attrs: seq<Attr>) {
    AttrsFit(attrs) && |attrs| <= MAX_U16
  }

  /** Line, comment, namespace, name; then where the attributes are, how long each is, how many. */
  function ElementHeader(line: nat, name: nat, count: nat): (b: Bytes)
    requires line <= MAX_U32 && name <= MAX_U32 && count <= MAX_U16
    ensures |b| == 28
  {
    LE32(line) + LE32(NONE) + LE32(NONE) + LE32(name) + LE16(20) + LE16(20) + LE16(count) + LE16(0) + LE16(0) + LE16(0)
  }

  lemma ElementHeaderRead(line: nat, name: nat, count: nat)
    requires line <= MAX_U32 && name <= MAX_U32 && count <= MAX_U16
    ensures var h := ElementHeader(line, name, count);
      U16(h, 16) == 20 && U16(h, 18) == 20 && U16(h, 20) == count
  {
    var h := ElementHeader(line, name, count);
    assert h[20..22] == LE16(count);
    LE16Reads(count);
  }

  function EncodeElement(line: nat, name: nat, attrs: seq<Attr>): Bytes
    requires line <= MAX_U32 && name <= MAX_U32 && ElementFits(attrs)
  {
    Chunk(CHUNK_START_ELEMENT, 16, ElementHeader(line, name, |attrs|) + EncodeAttrs(attrs))
  }

  lemma ElementFieldRead(line: nat, name: nat, attrs: seq<Attr>, at: nat)
    requires line <= MAX_U32 && name <= MAX_U32 && ElementFits(attrs) && at + 2 <= 28
    ensures U16(EncodeElement(line, name, attrs), 8 + at) == U16(ElementHeader(line, name, |attrs|), at)
  {
    var header, rest := ElementHeader(line, name, |attrs|), EncodeAttrs(attrs);
    var head := LE16(CHUNK_START_ELEMENT) + LE16(16) + LE32(8 + |header + rest|);
    assert EncodeElement(line, name, attrs)[8..36] == header;
    U16Of(EncodeElement(line, name, attrs), 8, 36, at);
  }

  /** Where the attributes start, how far apart they are, and how many. */
  lemma ElementFieldsRead(line: nat, name: nat, attrs: seq<Attr>)
    requires line <= MAX_U32 && name <= MAX_U32 && ElementFits(attrs)
    ensures var chunk := EncodeElement(line, name, attrs);
      U16(chunk, 24) == 20 && U16(chunk, 26) == 20 && U16(chunk, 28) == |attrs|
  {
    ElementHeaderRead(line, name, |attrs|);
    ElementFieldRead(line, name, attrs, 16);
    ElementFieldRead(line, name, attrs, 18);
    ElementFieldRead(line, name, attrs, 20);
  }

  lemma ElementEncoded(line: nat, name: nat, attrs: seq<Attr>)
    requires line <= MAX_U32 && name <= MAX_U32 && ElementFits(attrs)
    ensures IsElement(EncodeElement(line, name, attrs), attrs)
  {
    var chunk, header := EncodeElement(line, name, attrs), ElementHeader(line, name, |attrs|);
    ChunkIsChunk(CHUNK_START_ELEMENT, 16, header + EncodeAttrs(attrs));
    ElementFieldsRead(line, name, attrs);
    assert chunk[36..] == EncodeAttrs(attrs);
    AttrsInPlace(chunk, 36, attrs);
  }

  // --- The round trip --------------------------------------------------------------------------------

  predicate Encodable(item: Item) {
    match item
    case Pool(utf8, texts) => PoolFits(texts, utf8)
    case Map(ids) => AllFit(ids) && 8 + |ids| * 4 <= MAX_U32
    case Other(kind) =>
      kind <= MAX_U16 && kind !in {CHUNK_STRING_POOL, CHUNK_RESOURCE_MAP, CHUNK_START_ELEMENT}
  }

  function EncodeItem(item: Item): Bytes
    requires Encodable(item)
  {
    match item
    case Pool(utf8, texts) => EncodePool(texts, utf8)
    case Map(ids) => EncodeMap(ids)
    case Other(kind) => Chunk(kind, 8, [])
  }

  lemma ItemEncoded(item: Item)
    requires Encodable(item)
    ensures Holds(EncodeItem(item), item)
  {
    match item
    case Pool(utf8, texts) => PoolEncoded(texts, utf8);
    case Map(ids) => MapEncoded(ids);
    case Other(kind) => ChunkIsChunk(kind, 8, []);
  }

  predicate AllEncodable(items: seq<Item>) {
    forall item | item in items :: Encodable(item)
  }

  function EncodeItems(items: seq<Item>): seq<Bytes>
    requires AllEncodable(items)
  {
    if items == [] then []
    else
      assert items[0] in items && forall item | item in items[1..] :: item in items;
      [EncodeItem(items[0])] + EncodeItems(items[1..])
  }

  lemma {:induction false} ItemsEncoded(items: seq<Item>)
    requires AllEncodable(items)
    ensures HoldAll(EncodeItems(items), items)
    decreases |items|
  {
    if items != [] {
      assert items[0] in items && forall item | item in items[1..] :: item in items;
      ItemEncoded(items[0]);
      ItemsEncoded(items[1..]);
      assert EncodeItems(items)[1..] == EncodeItems(items[1..]);
    }
  }

  function Encode(head: Bytes, items: seq<Item>, line: nat, name: nat, attrs: seq<Attr>, rest: Bytes): Bytes
    requires AllEncodable(items) && line <= MAX_U32 && name <= MAX_U32 && ElementFits(attrs)
  {
    head + Join(EncodeItems(items)) + EncodeElement(line, name, attrs) + rest
  }

  lemma EncodedIsManifest(head: Bytes, items: seq<Item>, line: nat, name: nat, attrs: seq<Attr>, rest: Bytes)
    requires |head| == 8
    requires AllEncodable(items) && line <= MAX_U32 && name <= MAX_U32 && ElementFits(attrs)
    ensures IsManifest(Encode(head, items, line, name, attrs, rest), items, attrs)
  {
    var axml := Encode(head, items, line, name, attrs, rest);
    var chunks, element := EncodeItems(items), EncodeElement(line, name, attrs);
    ItemsEncoded(items);
    ElementEncoded(line, name, attrs);
    assert axml == head + Join(chunks) + element + rest;
  }

  /** Whatever manifest is written, under whatever file header and before whatever else, is the one that is read. */
  lemma EncodedIsParsed(
      head: Bytes, items: seq<Item>, line: nat, name: nat, attrs: seq<Attr>, rest: Bytes, codec: Codec)
    requires |head| == 8
    requires AllEncodable(items) && line <= MAX_U32 && name <= MAX_U32 && ElementFits(attrs)
    ensures Parse(Encode(head, items, line, name, attrs, rest), codec)
         == Ok(Described(SaidAll(State([], []), items, codec), attrs, EMPTY))
  {
    EncodedIsManifest(head, items, line, name, attrs, rest);
    ManifestParsed(Encode(head, items, line, name, attrs, rest), items, attrs, codec);
  }

  /** And with one pool, one map and one attribute of each kind, what is read is literally what was written. */
  lemma WrittenIsRead(
      head: Bytes, utf8: bool, texts: seq<Text>, ids: seq<nat>, line: nat, name: nat, attrs: seq<Attr>, rest: Bytes,
      p: nat, v: nat, c: nat, codec: Codec)
    requires |head| == 8 && line <= MAX_U32 && name <= MAX_U32 && ElementFits(attrs)
    requires AllEncodable([Pool(utf8, texts), Map(ids)])
    requires IsTheOne(State(Decoded(utf8, texts, codec), ids), attrs, Package, p) && Names(attrs[p], texts)
    requires IsTheOne(State(Decoded(utf8, texts, codec), ids), attrs, VersionName, v) && Names(attrs[v], texts)
    requires IsTheOne(State(Decoded(utf8, texts, codec), ids), attrs, VersionCode, c) && IsNumber(attrs[c])
    ensures Parse(Encode(head, [Pool(utf8, texts), Map(ids)], line, name, attrs, rest), codec) == Ok(Info(
      Some(Decode(texts[attrs[p].raw], utf8, codec)),
      Some(Decode(texts[attrs[v].raw], utf8, codec)),
      Some(Decimal(attrs[c].data))))
  {
    EncodedIsManifest(head, [Pool(utf8, texts), Map(ids)], line, name, attrs, rest);
    ManifestYields(Encode(head, [Pool(utf8, texts), Map(ids)], line, name, attrs, rest),
                   utf8, texts, ids, attrs, p, v, c, codec);
  }
}
