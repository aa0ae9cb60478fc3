// What an uploaded build says of itself: `pickManifestSource` and
// `readApkInfo` of packages/apk/src/index.ts, on a plain package, on a bundle,
// and on the one-entry bundle that `wrapAsBundle` makes of a package.

module ApkInfo {
  import opened Options
  import opened Strings
  import opened Bytes
  import opened Zip
  import opened ZipWriter
  import opened Manifest

  const MANIFEST := "AndroidManifest.xml"

  // --- Choosing what to read -----------------------------------------------------------

  /** An ASCII letter in lower case; the `i` flag of the patterns folds no more than these. */
  function Lower(c: char): char {
    if 'A' <= c <= 'Z' then (c as int + 32) as char else c
  }

  function LowerAll(s: string): string {
    seq(|s|, i requires 0 <= i < |s| => Lower(s[i]))
  }

  predicate Contains(s: string, part: string) {
    |s| >= |part| && (s[..|part|] == part || (s != [] && Contains(s[1..], part)))
  }

  /** `toLowerCase` also takes the Kelvin sign to a `k`. */
  predicate IsApk(e: Entry) {
    var name := e.name;
    HasSuffix(seq(|name|, i requires 0 <= i < |name| => if name[i] == '\U{212A}' then 'k' else Lower(name[i])), ".apk")
  }

  predicate IsManifest(e: Entry) { e.name == MANIFEST }

  /** `/(^|\/)base\.apk$/i` */
  predicate IsBase(e: Entry) {
    HasSuffix(LowerAll(e.name), "base.apk") && (|e.name| == 8 || e.name[|e.name| - 9] == '/')
  }

  /** `!/split_|config\./i` */
  predicate IsPlain(e: Entry) {
    !Contains(LowerAll(e.name), "split_") && !Contains(LowerAll(e.name), "config.")
  }

  function Find(entries: seq<Entry>, wanted: Entry -> bool): Option<Entry> {
    if entries == [] then None
    else if wanted(entries[0]) then Some(entries[0])
    else Find(entries[1..], wanted)
  }

  function Filter(entries: seq<Entry>, wanted: Entry -> bool): seq<Entry> {
    if entries == [] then []
    else if wanted(entries[0]) then [entries[0]] + Filter(entries[1..], wanted)
    else Filter(entries[1..], wanted)
  }

  datatype Source = ManifestOf(entry: Entry) | PackageIn(entry: Entry) | Nothing

  function FindManifest(entries: seq<Entry>): Option<Entry> {
    Find(entries, IsManifest)
  }

  /** The base split, by its name; or the first that no configuration names; or the first. */
  function FindBase(apks: seq<Entry>): Option<Entry> {
    match Find(apks, IsBase)
    case Some(e) => Some(e)
    case None =>
      match Find(apks, IsPlain)
      case Some(e) => Some(e)
      case None => if apks == [] then None else Some(apks[0])
  }

  function PickManifestSource(entries: seq<Entry>): Source {
    match FindManifest(entries)
    case Some(e) => ManifestOf(e)
    case None =>
      match FindBase(Filter(entries, IsApk))
      case Some(e) => PackageIn(e)
      case None => Nothing
  }

  // --- Reading it ----------------------------------------------------------------------

  function InfoIn(r: Reader, manifest: Entry, codec: Codec): Outcome<Info> {
    match ReadEntry(r, manifest, codec)
    case Thrown => Thrown
    case Ok(axml) => Parse(axml, codec)
  }

  /** The manifest inside the package that a bundle holds. */
  function InfoInside(inner: Reader, codec: Codec): Outcome<Info> {
    match ReadCentralDirectory(inner, codec)
    case Thrown => Thrown
    case Ok(entries) =>
      match FindManifest(entries)
      case None => Ok(EMPTY)
      case Some(manifest) => InfoIn(inner, manifest, codec)
  }

  function InfoOf(r: Reader, codec: Codec): Outcome<Info> {
    match ReadCentralDirectory(r, codec)
    case Thrown => Thrown
    case Ok(entries) =>
      match PickManifestSource(entries)
      case ManifestOf(manifest) => InfoIn(r, manifest, codec)
      case Nothing => Ok(EMPTY)
      case PackageIn(apk) =>
        match EntryReader(r, apk, codec)
        case Thrown => Thrown
        case Ok(inner) => InfoInside(inner, codec)
  }

  /** Whatever throws, the caller gets an empty answer. */
  function ReadApkInfo(r: Reader, codec: Codec): Info {
    match InfoOf(r, codec)
    case Thrown => EMPTY
    case Ok(info) => info
  }

  // --- Only the bytes matter -------------------------------------------------------------

  lemma SameBytesSameManifest(r: Reader, b: Bytes, codec: Codec)
    requires Serves(r, b)
    ensures InfoInside(r, codec) == InfoInside(Whole(b), codec)
  {
    SameBytesSameListing(r, b, codec);
    var entries := ReadCentralDirectory(r, codec);
    if entries.Ok? && FindManifest(entries.value).Some? {
      SameBytesSameReading(r, b, FindManifest(entries.value).value, codec);
    }
  }

  // --- Wrapping is transparent -----------------------------------------------------------

  const BASE_NAME: Bytes := [0x62, 0x61, 0x73, 0x65, 0x2e, 0x61, 0x70, 0x6b]

  lemma BaseIsPicked(e: Entry)
    requires e.name == "base.apk"
    ensures PickManifestSource([e]) == PackageIn(e)
  {
    var name := e.name;
    var lowered := seq(|name|, i requires 0 <= i < |name| => if name[i] == '\U{212A}' then 'k' else Lower(name[i]));
    assert lowered == name && LowerAll(name) == name;
    assert name[4..] == ".apk" && name[0..] == name;
    assert IsApk(e) && IsBase(e);
    assert |e.name| != |MANIFEST|;
    assert [e][1..] == [];
    assert Find([e], IsManifest) == None;
    assert Filter([e], IsApk) == [e];
    assert Find([e], IsBase) == Some(e);
  }

  predicate ListsManifest(b: Bytes, codec: Codec) {
    var entries := ReadCentralDirectory(Whole(b), codec);
    entries.Ok? && FindManifest(entries.value).Some?
  }

  /** One stored entry called `base.apk`: what is read is read inside it. */
  lemma LookedInside(b: Bytes, e: Entry, start: nat, content: Bytes, codec: Codec)
    requires e.name == "base.apk" && e.compression == 0 && e.size == |content| && PartAt(b, start, content)
    ensures ReadCentralDirectory(Whole(b), codec) == Ok([e]) && DataStart(Whole(b), e) == Ok(start) ==>
      InfoOf(Whole(b), codec) == InfoInside(Whole(content), codec)
  {
    BaseIsPicked(e);
    WindowSays(b, start, content, codec);
  }

  /** What a window onto the content says is what the content says. */
  lemma WindowSays(b: Bytes, start: nat, content: Bytes, codec: Codec)
    requires PartAt(b, start, content)
    ensures InfoInside(Window(Whole(b), start, |content|), codec) == InfoInside(Whole(content), codec)
  {
    WholeServes(b);
    WindowServes(Whole(b), b, start, |content|);
    SameBytesSameManifest(Window(Whole(b), start, |content|), content, codec);
  }

  lemma BundleSays(content: Bytes, stamp: Stamp, codec: Codec)
    requires Fits(BASE_NAME, |content|, stamp) && codec.utf8(BASE_NAME) == "base.apk"
    ensures InfoOf(Whole(Bundle(BASE_NAME, content, stamp)), codec) == InfoInside(Whole(content), codec)
  {
    var m, start := Wrapped(BASE_NAME, content), 38 + |content|;
    BundleIsArchive(BASE_NAME, content, stamp);
    WrappedSays(Bundle(BASE_NAME, content, stamp), content, start, 54, start + 54, codec);
  }

  lemma WrappedSays(b: Bytes, content: Bytes, start: nat, size: nat, end: nat, codec: Codec)
    requires Zip.IsArchive(b, [Wrapped(BASE_NAME, content)], start, size, end) && codec.utf8(BASE_NAME) == "base.apk"
    ensures InfoOf(Whole(b), codec) == InfoInside(Whole(content), codec)
  {
    var m := Wrapped(BASE_NAME, content);
    OneMemberRead(b, m, start, size, end, codec);
    LookedInside(b, EntryOf(m, codec), 38, content, codec);
  }

  /**
   * Wrapping a package changes nothing that is read out of it; a file that
   * lists no manifest of its own reads as empty once wrapped.
   */
  lemma WrappingIsTransparent(content: Bytes, stamp: Stamp, codec: Codec)
    requires Fits(BASE_NAME, |content|, stamp) && codec.utf8(BASE_NAME) == "base.apk"
    ensures ReadApkInfo(Whole(Bundle(BASE_NAME, content, stamp)), codec)
         == if ListsManifest(content, codec) then ReadApkInfo(Whole(content), codec) else EMPTY
  {
    BundleSays(content, stamp, codec);
  }
}
