// Reading Android's binary XML: `readStringPool` and `parseManifest` of
// packages/apk/src/index.ts, as far as the first start element.

module Manifest {
  import opened Options
  import opened Bytes
  import opened Zip
  import opened ZipWriter

  const CHUNK_STRING_POOL: nat := 0x0001
  const CHUNK_RESOURCE_MAP: nat := 0x0180
  const CHUNK_START_ELEMENT: nat := 0x0102

  const TYPE_STRING: nat := 0x03
  const TYPE_INT_DEC: nat := 0x10
  const TYPE_INT_HEX: nat := 0x11

  const ATTR_VERSION_CODE: nat := 0x0101_021b
  const ATTR_VERSION_NAME: nat := 0x0101_021c

  datatype Info = Info(packageName: Option<string>, versionName: Option<string>, versionCode: Option<string>)

  const EMPTY: Info := Info(None, None, None)

  // --- The string pool -----------------------------------------------------------------

  /** A byte, as masks and shifts see it: past the end they see nothing, which counts as 0. */
  function ByteAt(b: Bytes, i: nat): nat { if i < |b| then b[i] else 0 }

  /** How many bytes a length takes, by the high bit of its first. */
  function LengthWidth(b: Bytes, at: nat): nat { if ByteAt(b, at) >= 0x80 then 2 else 1 }

  function LengthAt(b: Bytes, at: nat): nat {
    if ByteAt(b, at) >= 0x80 then (ByteAt(b, at) - 0x80) * 256 + ByteAt(b, at + 1) else ByteAt(b, at)
  }

  function TextAt(chunk: Bytes, offset: nat, utf8: bool, codec: Codec): Outcome<string> {
    if offset >= |chunk| then Ok("")
    else if utf8 then
      var second := offset + LengthWidth(chunk, offset);
      var start := second + LengthWidth(chunk, second);
      Ok(codec.utf8(Sub(chunk, start, start + LengthAt(chunk, second))))
    else if offset + 2 > |chunk| then Thrown
    else Ok(codec.utf16(Sub(chunk, offset + 2, offset + 2 + U16(chunk, offset) * 2)))
  }

  /** What the pool's header says: the string form, and where the strings start. */
  datatype Form = Form(utf8: bool, start: nat)

  function FormOf(chunk: Bytes): Form
    requires |chunk| >= 24
  {
    Form(U32(chunk, 16) / 256 % 2 == 1, U32(chunk, 20))
  }

  function PoolString(chunk: Bytes, i: nat, form: Form, codec: Codec): Outcome<string> {
    if 28 + i * 4 + 4 > |chunk| then Thrown
    else TextAt(chunk, form.start + U32(chunk, 28 + i * 4), form.utf8, codec)
  }

  /** The first `n` strings; one that throws takes the whole pool with it. */
  function PoolStrings(chunk: Bytes, n: nat, form: Form, codec: Codec): Outcome<seq<string>> {
    if n == 0 then Ok([])
    else
      match PoolStrings(chunk, n - 1, form, codec)
      case Thrown => Thrown
      case Ok(strings) =>
        match PoolString(chunk, n - 1, form, codec)
        case Thrown => Thrown
        case Ok(text) => Ok(strings + [text])
  }

  function StringPool(chunk: Bytes, codec: Codec): Outcome<seq<string>> {
    if |chunk| < 24 then Thrown else PoolStrings(chunk, U32(chunk, 8), FormOf(chunk), codec)
  }

  lemma {:induction false} OneThrowsAll(chunk: Bytes, i: nat, n: nat, form: Form, codec: Codec)
    requires i <= n && PoolStrings(chunk, i, form, codec).Thrown?
    ensures PoolStrings(chunk, n, form, codec).Thrown?
  {
    if i < n { OneThrowsAll(chunk, i, n - 1, form, codec); }
  }

  method ReadStringPool(chunk: Bytes, codec: Codec) returns (pool: Outcome<seq<string>>)
    ensures pool == StringPool(chunk, codec)
  {
    if |chunk| < 24 { return Thrown; }
    var count, form := U32(chunk, 8), FormOf(chunk);
    var strings := [];
    for i := 0 to count
      invariant PoolStrings(chunk, i, form, codec) == Ok(strings)
    {
      var text := PoolString(chunk, i, form, codec);
      if text.Thrown? {
        OneThrowsAll(chunk, i + 1, count, form, codec);
        return Thrown;
      }
      strings := strings + [text.value];
    }
    return Ok(strings);
  }

  // --- The first element -----------------------------------------------------------------

  /** What the chunks so far have said. */
  datatype State = State(strings: seq<string>, ids: seq<nat>)

  datatype Attr = Attr(name: nat, raw: int, kind: nat, data: nat)

  /** `DataView.getInt32`. */
  function I32(b: Bytes, at: nat): int
    requires at + 4 <= |b|
  {
    if U32(b, at) >= 0x8000_0000 then U32(b, at) - 0x1_0000_0000 else U32(b, at)
  }

  function AttrAt(chunk: Bytes, at: nat): Attr
    requires at + 20 <= |chunk|
  {
    Attr(U32(chunk, at + 4), I32(chunk, at + 8), chunk[at + 15], U32(chunk, at + 16))
  }

  /** `String(n)` of an unsigned number. */
  function Decimal(n: nat): string {
    if n < 10 then [Digit(n)] else Decimal(n / 10) + [Digit(n % 10)]
  }

  function Digit(d: nat): char
    requires d < 10
  {
    ['0', '1', '2', '3', '4', '5', '6', '7', '8', '9'][d]
  }

  function Numeral(s: string): nat {
    if s == [] then 0
    else
      var last := s[|s| - 1];
      Numeral(s[..|s| - 1]) * 10 + (if '0' <= last <= '9' then last as nat - '0' as nat else 0)
  }

  /** The digits are the number's, without a leading zero. */
  lemma {:induction false} DecimalReads(n: nat)
    ensures Numeral(Decimal(n)) == n
    ensures Decimal(n) != [] && (n > 0 ==> Decimal(n)[0] != '0')
  {
    if n >= 10 {
      DecimalReads(n / 10);
      assert Decimal(n)[..|Decimal(n)| - 1] == Decimal(n / 10);
    } else {
      assert Decimal(n)[..0] == [];
    }
  }

  function Value(st: State, a: Attr): Option<string> {
    if a.kind == TYPE_STRING then (if 0 <= a.raw < |st.strings| then Some(st.strings[a.raw]) else None)
    else if a.kind == TYPE_INT_DEC || a.kind == TYPE_INT_HEX then Some(Decimal(a.data))
    else None
  }

  /** The three attributes that are looked for. Their names may be gone from the pool; their resource ids stay. */
  datatype Role = Package | VersionName | VersionCode | Neither

  function RoleOf(st: State, a: Attr): Role {
    var name := if a.name < |st.strings| then st.strings[a.name] else "";
    var id := if a.name < |st.ids| then st.ids[a.name] else 0;
    if name == "package" then Package
    else if name == "versionName" || id == ATTR_VERSION_NAME then VersionName
    else if name == "versionCode" || id == ATTR_VERSION_CODE then VersionCode
    else Neither
  }

  function With(info: Info, role: Role, value: Option<string>): Info {
    match role
    case Package => info.(packageName := value)
    case VersionName => info.(versionName := value)
    case VersionCode => info.(versionCode := value)
    case Neither => info
  }

  function Field(info: Info, role: Role): Option<string> {
    match role
    case Package => info.packageName
    case VersionName => info.versionName
    case VersionCode => info.versionCode
    case Neither => None
  }

  function Attributes(chunk: Bytes, st: State, at: nat, step: nat, count: nat, info: Info): Info
    decreases count
  {
    if count == 0 || at + 20 > |chunk| then info
    else
      var a := AttrAt(chunk, at);
      Attributes(chunk, st, at + step, step, count - 1, With(info, RoleOf(st, a), Value(st, a)))
  }

  function Element(chunk: Bytes, st: State): Outcome<Info> {
    if |chunk| < 30 then Thrown
    else Ok(Attributes(chunk, st, 16 + U16(chunk, 24), U16(chunk, 26), U16(chunk, 28), EMPTY))
  }

  method ReadElement(chunk: Bytes, st: State) returns (info: Outcome<Info>)
    ensures info == Element(chunk, st)
  {
    if |chunk| < 30 { return Thrown; }
    var start, step, count := U16(chunk, 24), U16(chunk, 26), U16(chunk, 28);
    var at, found := 16 + start, EMPTY;
    ghost var all := Attributes(chunk, st, at, step, count, EMPTY);
    for i := 0 to count
      invariant at >= 0 && all == Attributes(chunk, st, at, step, count - i, found)
    {
      if at + 20 > |chunk| { break; }
      var a := AttrAt(chunk, at);
      found := With(found, RoleOf(st, a), Value(st, a));
      at := at + step;
    }
    return Ok(found);
  }

  // --- The walk --------------------------------------------------------------------------

  function ResourceIds(chunk: Bytes): seq<nat> {
    if |chunk| < 12 then []
    else seq((|chunk| - 8) / 4, i requires 0 <= i < (|chunk| - 8) / 4 => U32(chunk, 8 + i * 4))
  }

  method ReadResourceIds(chunk: Bytes) returns (ids: seq<nat>)
    ensures ids == ResourceIds(chunk)
  {
    ids := [];
    var i := 8;
    while i + 4 <= |chunk|
      invariant i == 8 + |ids| * 4 && (i == 8 || i <= |chunk|)
      invariant forall k | 0 <= k < |ids| :: ids[k] == U32(chunk, 8 + k * 4)
    {
      ids := ids + [U32(chunk, i)];
      i := i + 4;
    }
  }

  /** There is a chunk at `offset`: its size is not 0 and does not overrun the file. */
  predicate ChunkAt(axml: Bytes, offset: nat) {
    offset + 8 <= |axml| && U32(axml, offset + 4) > 0 && offset + U32(axml, offset + 4) <= |axml|
  }

  /** A chunk before the first element: it may replace the strings or the ids. */
  function Feed(kind: nat, chunk: Bytes, st: State, codec: Codec): Outcome<State> {
    if kind == CHUNK_STRING_POOL then
      match StringPool(chunk, codec)
      case Thrown => Thrown
      case Ok(strings) => Ok(st.(strings := strings))
    else if kind == CHUNK_RESOURCE_MAP then Ok(st.(ids := ResourceIds(chunk)))
    else Ok(st)
  }

  function ParseFrom(axml: Bytes, offset: nat, st: State, codec: Codec): Outcome<Info>
    decreases |axml| - offset
  {
    if !ChunkAt(axml, offset) then Ok(EMPTY)
    else
      var size, kind := U32(axml, offset + 4), U16(axml, offset);
      var chunk := axml[offset..offset + size];
      if kind == CHUNK_START_ELEMENT then Element(chunk, st)
      else
        match Feed(kind, chunk, st, codec)
        case Thrown => Thrown
        case Ok(next) => ParseFrom(axml, offset + size, next, codec)
  }

  /** `parseManifest`, past the file header. */
  function Parse(axml: Bytes, codec: Codec): Outcome<Info> {
    ParseFrom(axml, 8, State([], []), codec)
  }

  method ParseManifest(axml: Bytes, codec: Codec) returns (info: Outcome<Info>)
    ensures info == Parse(axml, codec)
  {
    hide Element, StringPool, ResourceIds, U16, U32;
    var strings: seq<string>, ids: seq<nat>, offset: nat := [], [], 8;
    while offset + 8 <= |axml|
      invariant Parse(axml, codec) == ParseFrom(axml, offset, State(strings, ids), codec)
      decreases |axml| - offset
    {
      var kind, size := U16(axml, offset), U32(axml, offset + 4);
      if size == 0 || offset + size > |axml| { break; }
      var chunk := axml[offset..offset + size];
      if kind == CHUNK_STRING_POOL {
        var pool := ReadStringPool(chunk, codec);
        if pool.Thrown? { return Thrown; }
        strings := pool.value;
      } else if kind == CHUNK_RESOURCE_MAP {
        ids := ReadResourceIds(chunk);
      } else if kind == CHUNK_START_ELEMENT {
        info := ReadElement(chunk, State(strings, ids));
        return info;
      }
      offset := offset + size;
    }
    return Ok(EMPTY);
  }

  // --- What a manifest is ------------------------------------------------------------------

  /** A string as a pool records it: its encoded bytes, and how many characters it says they are. */
  datatype Text = Text(bytes: Bytes, chars: nat)

  const MAX_LENGTH: nat := 0x7fff

  /** A length of the UTF-8 form: two bytes, the high bit set, above 0x7f. */
  function LengthPrefix(n: nat): Bytes
    requires n <= MAX_LENGTH
  {
    if n < 0x80 then [n] else [0x80 + n / 256, n % 256]
  }

  predicate Recordable(t: Text, utf8: bool) {
    if utf8 then t.chars <= MAX_LENGTH && |t.bytes| <= MAX_LENGTH
    else |t.bytes| % 2 == 0 && |t.bytes| / 2 <= MAX_LENGTH
  }

  function Record(t: Text, utf8: bool): Bytes
    requires Recordable(t, utf8)
  {
    if utf8 then LengthPrefix(t.chars) + LengthPrefix(|t.bytes|) + t.bytes
    else LE16(|t.bytes| / 2) + t.bytes
  }

  /** What can stand before the first element. */
  datatype Item = Pool(utf8: bool, texts: seq<Text>) | Map(ids: seq<nat>) | Other(kind: nat)

  predicate IsChunk(chunk: Bytes, kind: nat) {
    |chunk| >= 8 && U16(chunk, 0) == kind && U32(chunk, 4) == |chunk|
  }

  /** A pool: a table of offsets, each leading to its string's record, wherever the records lie. */
  predicate IsPool(chunk: Bytes, utf8: bool, texts: seq<Text>) {
    && IsChunk(chunk, CHUNK_STRING_POOL)
    && 28 + |texts| * 4 <= |chunk|
    && U32(chunk, 8) == |texts|
    && FormOf(chunk).utf8 == utf8
    && forall i | 0 <= i < |texts| :: RecordAt(chunk, U32(chunk, 20) + U32(chunk, 28 + i * 4), texts[i], utf8)
  }

  predicate RecordAt(chunk: Bytes, at: nat, t: Text, utf8: bool) {
    Recordable(t, utf8) && PartAt(chunk, at, Record(t, utf8))
  }

  predicate IsMap(chunk: Bytes, ids: seq<nat>) {
    && IsChunk(chunk, CHUNK_RESOURCE_MAP)
    && |chunk| == 8 + |ids| * 4
    && forall i | 0 <= i < |ids| :: U32(chunk, 8 + i * 4) == ids[i]
  }

  predicate Holds(chunk: Bytes, item: Item) {
    match item
    case Pool(utf8, texts) => IsPool(chunk, utf8, texts)
    case Map(ids) => IsMap(chunk, ids)
    case Other(kind) =>
      IsChunk(chunk, kind) && kind !in {CHUNK_STRING_POOL, CHUNK_RESOURCE_MAP, CHUNK_START_ELEMENT}
  }

  /** A start element: its attributes at a stride of its own choosing. */
  predicate IsElement(chunk: Bytes, attrs: seq<Attr>) {
    && IsChunk(chunk, CHUNK_START_ELEMENT)
    && |chunk| >= 30
    && U16(chunk, 28) == |attrs|
    && AttrsAt(chunk, 16 + U16(chunk, 24), U16(chunk, 26), attrs)
  }

  predicate AttrsAt(chunk: Bytes, at: nat, step: nat, attrs: seq<Attr>)
    decreases |attrs|
  {
    attrs == [] ||
    (at + 20 <= |chunk| && AttrAt(chunk, at) == attrs[0] && AttrsAt(chunk, at + step, step, attrs[1..]))
  }

  function Join(chunks: seq<Bytes>): Bytes {
    if chunks == [] then [] else chunks[0] + Join(chunks[1..])
  }

  /** A header, the items' chunks, the element, and anything after it. */
  ghost predicate IsManifest(axml: Bytes, items: seq<Item>, attrs: seq<Attr>) {
    exists head: Bytes, chunks: seq<Bytes>, element: Bytes, rest: Bytes ::
      && axml == head + Join(chunks) + element + rest
      && |head| == 8
      && HoldAll(chunks, items)
      && IsElement(element, attrs)
  }

  predicate HoldAll(chunks: seq<Bytes>, items: seq<Item>)
    decreases |chunks|
  {
    |chunks| == |items| && (chunks == [] || (Holds(chunks[0], items[0]) && HoldAll(chunks[1..], items[1..])))
  }

  // --- What it means -----------------------------------------------------------------------

  function Decode(t: Text, utf8: bool, codec: Codec): string {
    if utf8 then codec.utf8(t.bytes) else codec.utf16(t.bytes)
  }

  function Decoded(utf8: bool, texts: seq<Text>, codec: Codec): seq<string> {
    seq(|texts|, i requires 0 <= i < |texts| => Decode(texts[i], utf8, codec))
  }

  function Said(st: State, item: Item, codec: Codec): State {
    match item
    case Pool(utf8, texts) => st.(strings := Decoded(utf8, texts, codec))
    case Map(ids) => st.(ids := ids)
    case Other(_) => st
  }

  function SaidAll(st: State, items: seq<Item>, codec: Codec): State
    decreases |items|
  {
    if items == [] then st else SaidAll(Said(st, items[0], codec), items[1..], codec)
  }

  function Described(st: State, attrs: seq<Attr>, info: Info): Info {
    if attrs == [] then info
    else Described(st, attrs[1..], With(info, RoleOf(st, attrs[0]), Value(st, attrs[0])))
  }

  predicate Silent(st: State, attrs: seq<Attr>, role: Role) {
    forall a | a in attrs :: RoleOf(st, a) != role
  }

  /** A field keeps its value unless an attribute has its role. */
  lemma {:induction false} SilentKeeps(st: State, attrs: seq<Attr>, info: Info, role: Role)
    requires Silent(st, attrs, role)
    ensures Field(Described(st, attrs, info), role) == Field(info, role)
  {
    if attrs != [] {
      assert attrs[0] in attrs;
      SilentKeeps(st, attrs[1..], With(info, RoleOf(st, attrs[0]), Value(st, attrs[0])), role);
    }
  }

  /** An attribute decides its field when no later one has the same role. */
  lemma {:induction false} LastDecides(st: State, attrs: seq<Attr>, info: Info, i: nat)
    requires i < |attrs| && RoleOf(st, attrs[i]) != Neither
    requires Silent(st, attrs[i + 1..], RoleOf(st, attrs[i]))
    ensures Field(Described(st, attrs, info), RoleOf(st, attrs[i])) == Value(st, attrs[i])
    decreases i
  {
    var next := With(info, RoleOf(st, attrs[0]), Value(st, attrs[0]));
    if i == 0 {
      SilentKeeps(st, attrs[1..], next, RoleOf(st, attrs[0]));
    } else {
      assert attrs[1..][i..] == attrs[i + 1..];
      LastDecides(st, attrs[1..], next, i - 1);
    }
  }

  // --- The parser reads what is there --------------------------------------------------------

  lemma PrefixRead(b: Bytes, at: nat, n: nat)
    requires n <= MAX_LENGTH && PartAt(b, at, LengthPrefix(n))
    ensures LengthAt(b, at) == n && LengthWidth(b, at) == |LengthPrefix(n)|
  {
    var p := LengthPrefix(n);
    assert b[at] == b[at..at + |p|][0];
    if n >= 0x80 { assert b[at + 1] == b[at..at + |p|][1]; }
  }

  lemma PartOfPart(b: Bytes, at: nat, p: Bytes, q: Bytes, r: Bytes)
    requires PartAt(b, at, p + q + r)
    ensures PartAt(b, at, p) && PartAt(b, at + |p|, q) && PartAt(b, at + |p| + |q|, r)
  {
    var whole := p + q + r;
    SliceOfSlice(b, at, at + |whole|, 0, |p|);
    SliceOfSlice(b, at, at + |whole|, |p|, |p| + |q|);
    SliceOfSlice(b, at, at + |whole|, |p| + |q|, |whole|);
    assert whole[..|p|] == p && whole[|p|..|p| + |q|] == q && whole[|p| + |q|..] == r;
  }

  lemma PartTaken(b: Bytes, at: nat, p: Bytes)
    requires PartAt(b, at, p)
    ensures Sub(b, at, at + |p|) == p
  {
  }

  lemma Utf8Read(chunk: Bytes, at: nat, t: Text, codec: Codec)
    requires RecordAt(chunk, at, t, true)
    ensures TextAt(chunk, at, true, codec) == Ok(codec.utf8(t.bytes))
  {
    var first, second := Utf8Parts(chunk, at, t);
    Utf8Text(chunk, at, first, second, t.bytes, codec);
  }

  lemma Utf8Parts(chunk: Bytes, at: nat, t: Text) returns (first: nat, second: nat)
    requires RecordAt(chunk, at, t, true)
    ensures at < |chunk| && LengthWidth(chunk, at) == first && LengthWidth(chunk, at + first) == second
    ensures LengthAt(chunk, at + first) == |t.bytes| && PartAt(chunk, at + first + second, t.bytes)
  {
    var chars, size := LengthPrefix(t.chars), LengthPrefix(|t.bytes|);
    first, second := |chars|, |size|;
    PartOfPart(chunk, at, chars, size, t.bytes);
    PrefixRead(chunk, at, t.chars);
    PrefixRead(chunk, at + first, |t.bytes|);
  }

  lemma Utf8Text(chunk: Bytes, at: nat, first: nat, second: nat, bytes: Bytes, codec: Codec)
    requires at < |chunk| && LengthWidth(chunk, at) == first && LengthWidth(chunk, at + first) == second
    requires LengthAt(chunk, at + first) == |bytes| && PartAt(chunk, at + first + second, bytes)
    ensures TextAt(chunk, at, true, codec) == Ok(codec.utf8(bytes))
  {
    PartTaken(chunk, at + first + second, bytes);
  }

  lemma Utf16Read(chunk: Bytes, at: nat, t: Text, codec: Codec)
    requires RecordAt(chunk, at, t, false)
    ensures TextAt(chunk, at, false, codec) == Ok(codec.utf16(t.bytes))
  {
    Utf16Parts(chunk, at, t);
    Utf16Text(chunk, at, t.bytes, codec);
  }

  lemma Utf16Parts(chunk: Bytes, at: nat, t: Text)
    requires RecordAt(chunk, at, t, false)
    ensures at + 2 <= |chunk| && U16(chunk, at) * 2 == |t.bytes| && PartAt(chunk, at + 2, t.bytes)
  {
    var size := LE16(|t.bytes| / 2);
    assert size + t.bytes == size + t.bytes + [];
    PartOfPart(chunk, at, size, t.bytes, []);
    LE16Reads(|t.bytes| / 2);
    U16Of(chunk, at, at + 2, 0);
  }

  lemma Utf16Text(chunk: Bytes, at: nat, bytes: Bytes, codec: Codec)
    requires at + 2 <= |chunk| && U16(chunk, at) * 2 == |bytes| && PartAt(chunk, at + 2, bytes)
    ensures TextAt(chunk, at, false, codec) == Ok(codec.utf16(bytes))
  {
    PartTaken(chunk, at + 2, bytes);
  }

  lemma TextRead(chunk: Bytes, at: nat, t: Text, utf8: bool, codec: Codec)
    requires RecordAt(chunk, at, t, utf8)
    ensures TextAt(chunk, at, utf8, codec) == Ok(Decode(t, utf8, codec))
  {
    if utf8 { Utf8Read(chunk, at, t, codec); } else { Utf16Read(chunk, at, t, codec); }
  }

  lemma {:induction false} StringsRead(chunk: Bytes, strings: seq<string>, n: nat, form: Form, codec: Codec)
    requires n <= |strings|
    requires forall i | 0 <= i < |strings| :: PoolString(chunk, i, form, codec) == Ok(strings[i])
    ensures PoolStrings(chunk, n, form, codec) == Ok(strings[..n])
  {
    if n > 0 {
      StringsRead(chunk, strings, n - 1, form, codec);
      assert PoolString(chunk, n - 1, form, codec) == Ok(strings[n - 1]);
      assert strings[..n] == strings[..n - 1] + [strings[n - 1]];
    }
  }

  lemma PoolRead(chunk: Bytes, utf8: bool, texts: seq<Text>, codec: Codec)
    requires IsPool(chunk, utf8, texts)
    ensures StringPool(chunk, codec) == Ok(Decoded(utf8, texts, codec))
  {
    var strings, form := Decoded(utf8, texts, codec), FormOf(chunk);
    forall i | 0 <= i < |texts| ensures PoolString(chunk, i, form, codec) == Ok(strings[i]) {
      TextRead(chunk, U32(chunk, 20) + U32(chunk, 28 + i * 4), texts[i], utf8, codec);
    }
    StringsRead(chunk, strings, |texts|, form, codec);
    assert strings[..|texts|] == strings;
  }

  /** A chunk the walk takes for what the item says. */
  ghost predicate Feeds(chunk: Bytes, item: Item, codec: Codec) {
    && |chunk| >= 8 && IsChunk(chunk, U16(chunk, 0))
    && U16(chunk, 0) != CHUNK_START_ELEMENT
    && forall st: State :: Feed(U16(chunk, 0), chunk, st, codec) == Ok(Said(st, item, codec))
  }

  lemma MapRead(chunk: Bytes, ids: seq<nat>)
    requires IsMap(chunk, ids)
    ensures ResourceIds(chunk) == ids
  {
  }

  lemma ItemRead(chunk: Bytes, item: Item, codec: Codec)
    requires Holds(chunk, item)
    ensures Feeds(chunk, item, codec)
  {
    match item
    case Pool(utf8, texts) => PoolRead(chunk, utf8, texts, codec);
    case Map(ids) => MapRead(chunk, ids);
    case Other(_) =>
  }

  lemma {:induction false} AttrsRead(chunk: Bytes, st: State, at: nat, step: nat, attrs: seq<Attr>, info: Info)
    requires AttrsAt(chunk, at, step, attrs)
    ensures Attributes(chunk, st, at, step, |attrs|, info) == Described(st, attrs, info)
    decreases |attrs|
  {
    if attrs != [] {
      AttrsRead(chunk, st, at + step, step, attrs[1..], With(info, RoleOf(st, attrs[0]), Value(st, attrs[0])));
    }
  }

  /** A chunk standing at `offset` is the chunk the walk takes. */
  lemma ChunkTaken(axml: Bytes, offset: nat, chunk: Bytes, kind: nat)
    requires PartAt(axml, offset, chunk) && IsChunk(chunk, kind)
    ensures ChunkAt(axml, offset) && U32(axml, offset + 4) == |chunk| && U16(axml, offset) == kind
    ensures axml[offset..offset + U32(axml, offset + 4)] == chunk
  {
    U32Of(axml, offset, offset + |chunk|, 4);
    U16Of(axml, offset, offset + |chunk|, 0);
  }

  /** From `offset` the walk goes on past `length` bytes, knowing what the item says. */
  ghost predicate Taken(axml: Bytes, offset: nat, length: nat, item: Item, codec: Codec) {
    forall st: State ::
      ParseFrom(axml, offset, st, codec) == ParseFrom(axml, offset + length, Said(st, item, codec), codec)
  }

  ghost predicate AllTaken(axml: Bytes, offset: nat, lengths: seq<nat>, items: seq<Item>, codec: Codec)
    decreases |items|
  {
    |lengths| == |items| && (items == [] ||
      (Taken(axml, offset, lengths[0], items[0], codec)
       && AllTaken(axml, offset + lengths[0], lengths[1..], items[1..], codec)))
  }

  function Sum(lengths: seq<nat>): nat {
    if lengths == [] then 0 else lengths[0] + Sum(lengths[1..])
  }

  lemma ItemTaken(axml: Bytes, offset: nat, chunk: Bytes, item: Item, codec: Codec)
    requires PartAt(axml, offset, chunk) && Holds(chunk, item)
    ensures Taken(axml, offset, |chunk|, item, codec)
  {
    ItemRead(chunk, item, codec);
    ChunkTaken(axml, offset, chunk, U16(chunk, 0));
  }

  lemma ElementTaken(axml: Bytes, offset: nat, element: Bytes, attrs: seq<Attr>, st: State, codec: Codec)
    requires PartAt(axml, offset, element) && IsElement(element, attrs)
    ensures ParseFrom(axml, offset, st, codec) == Ok(Described(st, attrs, EMPTY))
  {
    ChunkTaken(axml, offset, element, CHUNK_START_ELEMENT);
    AttrsRead(element, st, 16 + U16(element, 24), U16(element, 26), attrs, EMPTY);
  }

  lemma FirstChunk(axml: Bytes, offset: nat, chunks: seq<Bytes>)
    requires chunks != [] && PartAt(axml, offset, Join(chunks))
    ensures PartAt(axml, offset, chunks[0]) && PartAt(axml, offset + |chunks[0]|, Join(chunks[1..]))
    ensures |Join(chunks)| == |chunks[0]| + |Join(chunks[1..])|
  {
    var tail := Join(chunks[1..]);
    assert Join(chunks) == chunks[0] + tail + [];
    PartOfPart(axml, offset, chunks[0], tail, []);
  }

  lemma {:induction false} ChunksTaken(axml: Bytes, offset: nat, chunks: seq<Bytes>, items: seq<Item>, codec: Codec)
    returns (lengths: seq<nat>)
    requires HoldAll(chunks, items) && PartAt(axml, offset, Join(chunks))
    ensures AllTaken(axml, offset, lengths, items, codec) && Sum(lengths) == |Join(chunks)|
    decreases |chunks|
  {
    if chunks == [] {
      lengths := [];
    } else {
      FirstChunk(axml, offset, chunks);
      ItemTaken(axml, offset, chunks[0], items[0], codec);
      var tail := ChunksTaken(axml, offset + |chunks[0]|, chunks[1..], items[1..], codec);
      lengths := [|chunks[0]|] + tail;
      assert lengths[1..] == tail;
    }
  }

  lemma {:induction false} ItemsTaken(
      axml: Bytes, offset: nat, lengths: seq<nat>, end: nat, items: seq<Item>, st: State, last: State, codec: Codec)
    requires AllTaken(axml, offset, lengths, items, codec)
    requires end == offset + Sum(lengths) && last == SaidAll(st, items, codec)
    ensures ParseFrom(axml, offset, st, codec) == ParseFrom(axml, end, last, codec)
    decreases |items|
  {
    if items != [] {
      assert Taken(axml, offset, lengths[0], items[0], codec);
      ItemsTaken(axml, offset + lengths[0], lengths[1..], end, items[1..], Said(st, items[0], codec), last, codec);
    }
  }

  /**
   * The parser inverts the format: whatever chunks precede the element, in
   * either string form and any layout, the three attributes come out as the
   * manifest says them.
   */
  lemma ManifestParsed(axml: Bytes, items: seq<Item>, attrs: seq<Attr>, codec: Codec)
    requires IsManifest(axml, items, attrs)
    ensures Parse(axml, codec) == Ok(Described(SaidAll(State([], []), items, codec), attrs, EMPTY))
  {
    var head: Bytes, chunks: seq<Bytes>, element: Bytes, rest: Bytes :|
      && axml == head + Join(chunks) + element + rest
      && |head| == 8
      && HoldAll(chunks, items)
      && IsElement(element, attrs);
    var at := 8 + |Join(chunks)|;
    assert axml[8..at] == Join(chunks);
    var lengths := ChunksTaken(axml, 8, chunks, items, codec);
    ItemsTaken(axml, 8, lengths, at, items, State([], []), SaidAll(State([], []), items, codec), codec);
    assert axml[at..at + |element|] == element;
    ElementTaken(axml, at, element, attrs, SaidAll(State([], []), items, codec), codec);
  }

  /** `i` alone has the role. */
  predicate IsTheOne(st: State, attrs: seq<Attr>, role: Role, i: nat) {
    && i < |attrs|
    && forall k | 0 <= k < |attrs| :: RoleOf(st, attrs[k]) == role <==> k == i
  }

  lemma OneDecides(st: State, attrs: seq<Attr>, role: Role, i: nat)
    requires role != Neither && IsTheOne(st, attrs, role, i)
    ensures Field(Described(st, attrs, EMPTY), role) == Value(st, attrs[i])
  {
    forall a | a in attrs[i + 1..] ensures RoleOf(st, a) != role {
      var k :| 0 <= k < |attrs[i + 1..]| && attrs[i + 1..][k] == a;
      assert attrs[i + 1 + k] == a;
    }
    LastDecides(st, attrs, EMPTY, i);
  }

  lemma PoolThenMap(utf8: bool, texts: seq<Text>, ids: seq<nat>, codec: Codec)
    ensures SaidAll(State([], []), [Pool(utf8, texts), Map(ids)], codec) == State(Decoded(utf8, texts, codec), ids)
  {
    assert [Pool(utf8, texts), Map(ids)][1..] == [Map(ids)];
    assert SaidAll(State(Decoded(utf8, texts, codec), []), [Map(ids)], codec) == State(Decoded(utf8, texts, codec), ids);
  }

  lemma ThreeDecide(st: State, attrs: seq<Attr>, p: nat, v: nat, c: nat)
    requires IsTheOne(st, attrs, Package, p) && IsTheOne(st, attrs, VersionName, v) && IsTheOne(st, attrs, VersionCode, c)
    ensures Described(st, attrs, EMPTY) == Info(Value(st, attrs[p]), Value(st, attrs[v]), Value(st, attrs[c]))
  {
    OneDecides(st, attrs, Package, p);
    OneDecides(st, attrs, VersionName, v);
    OneDecides(st, attrs, VersionCode, c);
  }

  predicate Names(a: Attr, texts: seq<Text>) {
    a.kind == TYPE_STRING && 0 <= a.raw < |texts|
  }

  predicate IsNumber(a: Attr) {
    a.kind in {TYPE_INT_DEC, TYPE_INT_HEX}
  }

  lemma NamedValue(utf8: bool, texts: seq<Text>, ids: seq<nat>, a: Attr, codec: Codec)
    requires Names(a, texts)
    ensures Value(State(Decoded(utf8, texts, codec), ids), a) == Some(Decode(texts[a.raw], utf8, codec))
  {
  }

  lemma ThreeRead(utf8: bool, texts: seq<Text>, ids: seq<nat>, attrs: seq<Attr>, p: nat, v: nat, c: nat, codec: Codec)
    requires IsTheOne(State(Decoded(utf8, texts, codec), ids), attrs, Package, p) && Names(attrs[p], texts)
    requires IsTheOne(State(Decoded(utf8, texts, codec), ids), attrs, VersionName, v) && Names(attrs[v], texts)
    requires IsTheOne(State(Decoded(utf8, texts, codec), ids), attrs, VersionCode, c) && IsNumber(attrs[c])
    ensures Described(State(Decoded(utf8, texts, codec), ids), attrs, EMPTY) == Info(
      Some(Decode(texts[attrs[p].raw], utf8, codec)),
      Some(Decode(texts[attrs[v].raw], utf8, codec)),
      Some(Decimal(attrs[c].data)))
  {
    ThreeDecide(State(Decoded(utf8, texts, codec), ids), attrs, p, v, c);
    NamedValue(utf8, texts, ids, attrs[p], codec);
    NamedValue(utf8, texts, ids, attrs[v], codec);
  }

  lemma PoolAndMapParsed(axml: Bytes, utf8: bool, texts: seq<Text>, ids: seq<nat>, attrs: seq<Attr>, codec: Codec)
    requires IsManifest(axml, [Pool(utf8, texts), Map(ids)], attrs)
    ensures Parse(axml, codec) == Ok(Described(State(Decoded(utf8, texts, codec), ids), attrs, EMPTY))
  {
    ManifestParsed(axml, [Pool(utf8, texts), Map(ids)], attrs, codec);
    PoolThenMap(utf8, texts, ids, codec);
  }

  /**
   * So from a manifest with one pool, one resource map and one attribute of
   * each kind, among whatever others, the parser takes the package, the
   * version name and the version code that were written.
   */
  lemma ManifestYields(
      axml: Bytes, utf8: bool, texts: seq<Text>, ids: seq<nat>, attrs: seq<Attr>, p: nat, v: nat, c: nat, codec: Codec)
    requires IsTheOne(State(Decoded(utf8, texts, codec), ids), attrs, Package, p) && Names(attrs[p], texts)
    requires IsTheOne(State(Decoded(utf8, texts, codec), ids), attrs, VersionName, v) && Names(attrs[v], texts)
    requires IsTheOne(State(Decoded(utf8, texts, codec), ids), attrs, VersionCode, c) && IsNumber(attrs[c])
    ensures IsManifest(axml, [Pool(utf8, texts), Map(ids)], attrs) ==>
      Parse(axml, codec) == Ok(Info(
        Some(Decode(texts[attrs[p].raw], utf8, codec)),
        Some(Decode(texts[attrs[v].raw], utf8, codec)),
        Some(Decimal(attrs[c].data))))
  {
    if IsManifest(axml, [Pool(utf8, texts), Map(ids)], attrs) {
      PoolAndMapParsed(axml, utf8, texts, ids, attrs, codec);
    }
    ThreeRead(utf8, texts, ids, attrs, p, v, c, codec);
  }
}
