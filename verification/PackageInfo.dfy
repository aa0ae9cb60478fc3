// From the bytes of an uploaded build to the package, version name and version
// code written in its manifest: a plain package, and a bundle of packages.

module PackageInfo {
  import opened Options
  import opened Strings
  import opened Bytes
  import opened Zip
  import opened Manifest
  import opened ApkInfo

  // --- What is written ---------------------------------------------------------------------------

  /** A manifest's strings, attributes, and which of them name the package and its version. */
  datatype Writing = Writing(
    utf8: bool, texts: seq<Text>, ids: seq<nat>, attrs: seq<Attr>, package': nat, versionName: nat, versionCode: nat)

  /** The attribute is called this, by the pool. */
  predicate Called(w: Writing, k: nat, name: string, codec: Codec)
    requires k < |w.attrs|
  {
    w.attrs[k].name < |w.texts| && Decode(w.texts[w.attrs[k].name], w.utf8, codec) == name
  }

  /** The attribute has this resource id, whatever it is called. */
  predicate HasId(w: Writing, k: nat, id: nat)
    requires k < |w.attrs|
  {
    w.attrs[k].name < |w.ids| && w.ids[w.attrs[k].name] == id
  }

  /**
   * One attribute is the package, one the version name and one the version
   * code, by name or by the resource id that survives a stripped pool; the
   * first two are strings of the pool and the third is a number.
   */
  predicate IsClear(w: Writing, codec: Codec) {
    && w.package' < |w.attrs| && w.versionName < |w.attrs| && w.versionCode < |w.attrs|
    && (forall k | 0 <= k < |w.attrs| :: Called(w, k, "package", codec) <==> k == w.package')
    && (forall k | 0 <= k < |w.attrs| && k != w.package' ::
          Called(w, k, "versionName", codec) || HasId(w, k, 0x0101_021c) <==> k == w.versionName)
    && (forall k | 0 <= k < |w.attrs| && k != w.package' && k != w.versionName ::
          Called(w, k, "versionCode", codec) || HasId(w, k, 0x0101_021b) <==> k == w.versionCode)
    && w.package' != w.versionName && w.package' != w.versionCode && w.versionName != w.versionCode
    && w.attrs[w.package'].kind == 0x03 && 0 <= w.attrs[w.package'].raw < |w.texts|
    && w.attrs[w.versionName].kind == 0x03 && 0 <= w.attrs[w.versionName].raw < |w.texts|
    && w.attrs[w.versionCode].kind in {0x10, 0x11}
  }

  ghost predicate IsWritten(axml: Bytes, w: Writing, codec: Codec) {
    IsClear(w, codec) && Manifest.IsManifest(axml, [Pool(w.utf8, w.texts), Map(w.ids)], w.attrs)
  }

  lemma ClearRole(w: Writing, k: nat, codec: Codec)
    requires IsClear(w, codec) && k < |w.attrs|
    ensures RoleOf(State(Decoded(w.utf8, w.texts, codec), w.ids), w.attrs[k]) ==
      if k == w.package' then Package else if k == w.versionName then VersionName
      else if k == w.versionCode then VersionCode else Neither
  {
    var st := State(Decoded(w.utf8, w.texts, codec), w.ids);
    var name := if w.attrs[k].name < |st.strings| then st.strings[w.attrs[k].name] else "";
    assert Called(w, k, "package", codec) <==> name == "package";
    assert Called(w, k, "versionName", codec) <==> name == "versionName";
    assert Called(w, k, "versionCode", codec) <==> name == "versionCode";
  }

  lemma ClearIsRead(w: Writing, codec: Codec)
    requires IsClear(w, codec)
    ensures var st := State(Decoded(w.utf8, w.texts, codec), w.ids);
      && IsTheOne(st, w.attrs, Package, w.package') && Names(w.attrs[w.package'], w.texts)
      && IsTheOne(st, w.attrs, VersionName, w.versionName) && Names(w.attrs[w.versionName], w.texts)
      && IsTheOne(st, w.attrs, VersionCode, w.versionCode) && IsNumber(w.attrs[w.versionCode])
  {
    hide RoleOf, Decoded;
    forall k | 0 <= k < |w.attrs|
      ensures RoleOf(State(Decoded(w.utf8, w.texts, codec), w.ids), w.attrs[k]) ==
        if k == w.package' then Package else if k == w.versionName then VersionName
        else if k == w.versionCode then VersionCode else Neither
    {
      ClearRole(w, k, codec);
    }
  }

  /** The three things it says, as they are written. */
  function Wrote(w: Writing, codec: Codec): Info
    requires IsClear(w, codec)
  {
    Info(Some(Decode(w.texts[w.attrs[w.package'].raw], w.utf8, codec)),
         Some(Decode(w.texts[w.attrs[w.versionName].raw], w.utf8, codec)),
         Some(Decimal(w.attrs[w.versionCode].data)))
  }

  lemma WritingParsed(axml: Bytes, w: Writing, codec: Codec)
    requires IsWritten(axml, w, codec)
    ensures Parse(axml, codec) == Ok(Wrote(w, codec))
  {
    hide RoleOf, Decoded, IsTheOne, Names, IsNumber, Manifest.IsManifest, Parse, Decode, Decimal;
    ClearIsRead(w, codec);
    ManifestYields(axml, w.utf8, w.texts, w.ids, w.attrs, w.package', w.versionName, w.versionCode, codec);
  }

  // --- Where it is held --------------------------------------------------------------------------

  /** The member holds these bytes, stored or deflated. */
  predicate Carries(m: Member, content: Bytes, codec: Codec) {
    (m.compression == 0 && m.data == content) || (m.compression == 8 && codec.inflate(m.data) == Ok(content))
  }

  /** An archive, and where its records are. */
  datatype Layout = Layout(members: seq<Member>, start: nat, size: nat, end: nat)

  ghost predicate IsLaidOut(b: Bytes, l: Layout) {
    Zip.IsArchive(b, l.members, l.start, l.size, l.end)
  }

  /** The member `i` is the first of that name. */
  predicate FirstNamed(ms: seq<Member>, i: nat, name: string, codec: Codec) {
    i < |ms| && codec.utf8(ms[i].name) == name && forall j | 0 <= j < i :: codec.utf8(ms[j].name) != name
  }

  lemma {:induction false} FindAt(entries: seq<Entry>, wanted: Entry -> bool, i: nat)
    requires i < |entries| && wanted(entries[i]) && forall j | 0 <= j < i :: !wanted(entries[j])
    ensures Find(entries, wanted) == Some(entries[i])
  {
    if i > 0 {
      assert !wanted(entries[0]);
      FindAt(entries[1..], wanted, i - 1);
    }
  }

  lemma {:induction false} FindNone(entries: seq<Entry>, wanted: Entry -> bool)
    requires forall e | e in entries :: !wanted(e)
    ensures Find(entries, wanted) == None
  {
    if entries != [] {
      assert entries[0] in entries;
      FindNone(entries[1..], wanted);
    }
  }

  /** The first wanted among those kept is the first that is both. */
  lemma {:induction false} FindAmong(entries: seq<Entry>, kept: Entry -> bool, wanted: Entry -> bool, i: nat)
    requires i < |entries| && wanted(entries[i]) && kept(entries[i])
    requires forall j | 0 <= j < i :: !(wanted(entries[j]) && kept(entries[j]))
    ensures Find(Filter(entries, kept), wanted) == Some(entries[i])
  {
    if i > 0 {
      assert !(wanted(entries[0]) && kept(entries[0]));
      FindAmong(entries[1..], kept, wanted, i - 1);
      var rest := Filter(entries[1..], kept);
      assert ([entries[0]] + rest)[1..] == rest;
    }
  }

  lemma {:induction false} FindNoneAmong(entries: seq<Entry>, kept: Entry -> bool, wanted: Entry -> bool)
    requires forall e | e in entries :: !(wanted(e) && kept(e))
    ensures Find(Filter(entries, kept), wanted) == None
  {
    if entries != [] {
      assert entries[0] in entries;
      FindNoneAmong(entries[1..], kept, wanted);
      var rest := Filter(entries[1..], kept);
      assert ([entries[0]] + rest)[1..] == rest;
    }
  }

  // --- A plain package ---------------------------------------------------------------------------

  lemma ManifestFound(l: Layout, i: nat, codec: Codec)
    requires FirstNamed(l.members, i, "AndroidManifest.xml", codec)
    ensures FindManifest(EntriesOf(l.members, codec)) == Some(EntryOf(l.members[i], codec))
  {
    var entries := EntriesOf(l.members, codec);
    assert forall j | 0 <= j < |entries| :: entries[j].name == codec.utf8(l.members[j].name);
    FindAt(entries, ApkInfo.IsManifest, i);
  }

  lemma MemberSays(b: Bytes, l: Layout, i: nat, axml: Bytes, w: Writing, codec: Codec)
    requires IsLaidOut(b, l) && i < |l.members| && Carries(l.members[i], axml, codec) && IsWritten(axml, w, codec)
    ensures InfoIn(Whole(b), EntryOf(l.members[i], codec), codec) == Ok(Wrote(w, codec))
  {
    hide IsWritten, IsClear, Wrote;
    assert l.members[i] in l.members;
    MemberRead(b, l.members[i], codec);
    WritingParsed(axml, w, codec);
  }

  /**
   * A package, end to end: from the bytes of an archive that holds a manifest
   * of its own, stored or deflated and wherever it lies, what is read is the
   * package, the version name and the version code written in it.
   */
  lemma PackageSays(b: Bytes, l: Layout, i: nat, axml: Bytes, w: Writing, codec: Codec)
    requires IsLaidOut(b, l) && FirstNamed(l.members, i, "AndroidManifest.xml", codec)
    requires Carries(l.members[i], axml, codec) && IsWritten(axml, w, codec)
    ensures ReadApkInfo(Whole(b), codec) == Info(
      Some(Decode(w.texts[w.attrs[w.package'].raw], w.utf8, codec)),
      Some(Decode(w.texts[w.attrs[w.versionName].raw], w.utf8, codec)),
      Some(Decimal(w.attrs[w.versionCode].data)))
  {
    hide IsWritten, IsClear, InfoIn;
    ArchiveListed(b, l.members, l.start, l.size, l.end, codec);
    ManifestFound(l, i, codec);
    MemberSays(b, l, i, axml, w, codec);
  }

  /** The same package read from inside a bundle. */
  lemma PackageInside(b: Bytes, l: Layout, i: nat, axml: Bytes, w: Writing, codec: Codec)
    requires IsLaidOut(b, l) && FirstNamed(l.members, i, "AndroidManifest.xml", codec)
    requires Carries(l.members[i], axml, codec) && IsWritten(axml, w, codec)
    ensures InfoInside(Whole(b), codec) == Ok(Wrote(w, codec))
  {
    hide IsWritten, IsClear, InfoIn, Wrote;
    ArchiveListed(b, l.members, l.start, l.size, l.end, codec);
    ManifestFound(l, i, codec);
    MemberSays(b, l, i, axml, w, codec);
  }

  // --- A bundle ------------------------------------------------------------------------------------

  /** The base split by its name, at the top or in a folder, in any case. */
  predicate SaysBase(name: string) {
    LowerAll(name) == "base.apk" || HasSuffix(LowerAll(name), "/base.apk")
  }

  /** A package by the end of its name, in any case. */
  predicate SaysApk(name: string) {
    var n := |name|;
    n >= 4 && name[n - 4] == '.' && name[n - 3] in {'a', 'A'} && name[n - 2] in {'p', 'P'}
    && name[n - 1] in {'k', 'K', '\U{212A}'}
  }

  lemma ApkIff(e: Entry)
    ensures IsApk(e) <==> SaysApk(e.name)
  {
    var name, n := e.name, |e.name|;
    var folded := seq(n, i requires 0 <= i < n => if name[i] == '\U{212A}' then 'k' else Lower(name[i]));
    if n >= 4 {
      var ending := folded[n - 4..];
      assert ending == ".apk" <==> ending[0] == '.' && ending[1] == 'a' && ending[2] == 'p' && ending[3] == 'k';
    }
  }

  lemma BaseIff(e: Entry)
    ensures IsBase(e) <==> SaysBase(e.name)
  {
    var lower, n := LowerAll(e.name), |e.name|;
    if n >= 9 {
      assert lower[n - 9..] == [lower[n - 9]] + lower[n - 8..];
      assert lower[n - 9] == '/' <==> e.name[n - 9] == '/';
      assert "/base.apk" == ['/'] + "base.apk";
      assert lower[n - 9..][0] == lower[n - 9] && lower[n - 9..][1..] == lower[n - 8..];
    } else if n == 8 {
      assert lower[0..] == lower;
    }
  }

  /** What a text that ends so ends in. */
  lemma LastFour(s: string)
    requires |s| >= 8 && s[|s| - 8..] == "base.apk"
    ensures s[|s| - 4] == '.' && s[|s| - 3] == 'a' && s[|s| - 2] == 'p' && s[|s| - 1] == 'k'
  {
    var ending, n := s[|s| - 8..], |s|;
    assert ending[4] == s[n - 4] && ending[5] == s[n - 3] && ending[6] == s[n - 2] && ending[7] == s[n - 1];
  }

  lemma BaseIsApk(e: Entry)
    requires IsBase(e)
    ensures IsApk(e)
  {
    hide IsApk, Lower;
    var n := |e.name|;
    LastFour(LowerAll(e.name));
    LowerIs(e.name[n - 4]);
    LowerIs(e.name[n - 3]);
    LowerIs(e.name[n - 2]);
    LowerIs(e.name[n - 1]);
    ApkIff(e);
  }

  lemma LowerIs(c: char)
    ensures Lower(c) == 'a' ==> c in {'a', 'A'}
    ensures Lower(c) == 'p' ==> c in {'p', 'P'}
    ensures Lower(c) == 'k' ==> c in {'k', 'K'}
    ensures Lower(c) == '.' ==> c == '.'
  {
  }

  /** No manifest at the top, and the first base by name is this one. */
  predicate FirstBase(ms: seq<Member>, i: nat, codec: Codec) {
    && i < |ms| && SaysBase(codec.utf8(ms[i].name))
    && (forall m | m in ms :: codec.utf8(m.name) != "AndroidManifest.xml")
    && (forall j | 0 <= j < i :: !SaysBase(codec.utf8(ms[j].name)))
  }

  lemma BaseFound(l: Layout, i: nat, codec: Codec)
    requires FirstBase(l.members, i, codec)
    ensures i < |l.members|
    ensures PickManifestSource(EntriesOf(l.members, codec)) == PackageIn(EntryOf(l.members[i], codec))
  {
    hide IsApk, IsBase, SaysBase;
    var entries := EntriesOf(l.members, codec);
    assert forall j | 0 <= j < |entries| :: entries[j].name == codec.utf8(l.members[j].name);
    forall e | e in entries ensures !ApkInfo.IsManifest(e) {
      var j :| 0 <= j < |entries| && entries[j] == e;
      assert l.members[j] in l.members;
    }
    FindNone(entries, ApkInfo.IsManifest);
    forall j | 0 <= j <= i ensures IsBase(entries[j]) <==> SaysBase(entries[j].name) {
      BaseIff(entries[j]);
    }
    BaseIsApk(entries[i]);
    FindAmong(entries, IsApk, IsBase, i);
  }

  lemma {:induction false} ContainsIff(s: string, part: string)
    ensures Contains(s, part) <==> exists k :: ReadsAt(s, part, k)
  {
    if |s| >= |part| && s[..|part|] == part {
      assert ReadsAt(s, part, 0);
    } else if s != [] {
      ContainsIff(s[1..], part);
      if Contains(s[1..], part) {
        var k :| ReadsAt(s[1..], part, k);
        assert s[k + 1..k + 1 + |part|] == s[1..][k..k + |part|];
        assert ReadsAt(s, part, k + 1);
      }
      if k :| ReadsAt(s, part, k) {
        assert k > 0;
        assert s[1..][k - 1..k - 1 + |part|] == s[k..k + |part|];
        assert ReadsAt(s[1..], part, k - 1);
      }
    }
  }

  /** The name, in lower case, says nowhere that it is a split or a configuration. */
  ghost predicate SaysNoSplit(e: Entry) {
    forall k :: !ReadsAt(LowerAll(e.name), "split_", k) && !ReadsAt(LowerAll(e.name), "config.", k)
  }

  /**
   * Without a manifest at the top and a base by name, the first package whose
   * name says it is no split is opened; without one of those, the first
   * package; and without a package, nothing.
   */
  lemma FallbackIsPicked(entries: seq<Entry>, i: nat)
    requires forall e | e in entries :: e.name != "AndroidManifest.xml" && !SaysBase(e.name)
    ensures i < |entries| && SaysApk(entries[i].name) && SaysNoSplit(entries[i])
            && (forall j | 0 <= j < i :: !(SaysApk(entries[j].name) && SaysNoSplit(entries[j])))
      ==> PickManifestSource(entries) == PackageIn(entries[i])
    ensures i < |entries| && SaysApk(entries[i].name) && (forall j | 0 <= j < i :: !SaysApk(entries[j].name))
            && (forall e | e in entries && SaysApk(e.name) :: !SaysNoSplit(e))
      ==> PickManifestSource(entries) == PackageIn(entries[i])
    ensures (forall e | e in entries :: !SaysApk(e.name)) ==> PickManifestSource(entries) == Source.Nothing
  {
    hide IsApk, IsBase, SaysNoSplit, IsPlain, SaysApk, SaysBase;
    FindNone(entries, ApkInfo.IsManifest);
    forall e | e in entries
      ensures !IsBase(e) && (IsPlain(e) <==> SaysNoSplit(e)) && (IsApk(e) <==> SaysApk(e.name))
    {
      BaseIff(e);
      PlainIff(e);
      ApkIff(e);
    }
    FindNoneAmong(entries, IsApk, IsBase);
    if i < |entries| && SaysApk(entries[i].name) && SaysNoSplit(entries[i])
       && forall j | 0 <= j < i :: !(SaysApk(entries[j].name) && SaysNoSplit(entries[j]))
    {
      FindAmong(entries, IsApk, IsPlain, i);
    }
    if forall e | e in entries && SaysApk(e.name) :: !SaysNoSplit(e) {
      FindNoneAmong(entries, IsApk, IsPlain);
      FirstKept(entries, IsApk, i);
    }
  }

  lemma PlainIff(e: Entry)
    ensures IsPlain(e) <==> SaysNoSplit(e)
  {
    ContainsIff(LowerAll(e.name), "split_");
    ContainsIff(LowerAll(e.name), "config.");
  }

  lemma {:induction false} FirstKept(entries: seq<Entry>, kept: Entry -> bool, i: nat)
    ensures i < |entries| && kept(entries[i]) && (forall j | 0 <= j < i :: !kept(entries[j])) ==>
      Filter(entries, kept) != [] && Filter(entries, kept)[0] == entries[i]
    ensures (forall e | e in entries :: !kept(e)) ==> Filter(entries, kept) == []
  {
    if entries != [] {
      assert entries[0] in entries;
      FirstKept(entries[1..], kept, if i > 0 then i - 1 else 0);
      assert i > 0 && i < |entries| ==> entries[1..][i - 1] == entries[i];
      assert forall j | 0 <= j < |entries| - 1 :: entries[1..][j] == entries[j + 1];
    }
  }

  /** A member read in place or inflated reads as what it carries. */
  lemma CarriedSays(b: Bytes, l: Layout, i: nat, apk: Bytes, codec: Codec) returns (inner: Reader)
    requires IsLaidOut(b, l) && i < |l.members| && Carries(l.members[i], apk, codec)
    ensures EntryReader(Whole(b), EntryOf(l.members[i], codec), codec) == Ok(inner)
    ensures InfoInside(inner, codec) == InfoInside(Whole(apk), codec)
  {
    hide InfoInside, DataStart, ReadEntry, PartAt, LocalRecordAt, CentralHeaderAt, EndRecordAt, DirectoryAt, NoEndAfter;
    var m := l.members[i];
    assert m in l.members;
    MemberRead(b, m, codec);
    if m.compression == 0 {
      var start := m.offset + 30 + |m.name| + |m.localExtra|;
      inner := Window(Whole(b), start, |m.data|);
      WindowSays(b, start, m.data, codec);
    } else {
      inner := Whole(apk);
    }
  }

  lemma OpenedSays(r: Reader, entries: seq<Entry>, apk: Entry, inner: Reader, info: Info, codec: Codec)
    requires ReadCentralDirectory(r, codec) == Ok(entries) && PickManifestSource(entries) == PackageIn(apk)
    requires EntryReader(r, apk, codec) == Ok(inner) && InfoInside(inner, codec) == Ok(info)
    ensures ReadApkInfo(r, codec) == info
  {
    hide ReadCentralDirectory, PickManifestSource, EntryReader, InfoInside;
  }

  /**
   * And a bundle, end to end: among any number of splits, the base package,
   * stored or deflated, is opened, and what is read is what its own manifest
   * says.
   */
  lemma BundleSaysItsBase(
      b: Bytes, l: Layout, i: nat, apk: Bytes, inside: Layout, j: nat, axml: Bytes, w: Writing, codec: Codec)
    requires IsLaidOut(b, l) && FirstBase(l.members, i, codec) && Carries(l.members[i], apk, codec)
    requires IsLaidOut(apk, inside) && FirstNamed(inside.members, j, "AndroidManifest.xml", codec)
    requires Carries(inside.members[j], axml, codec) && IsWritten(axml, w, codec)
    ensures ReadApkInfo(Whole(b), codec) == Info(
      Some(Decode(w.texts[w.attrs[w.package'].raw], w.utf8, codec)),
      Some(Decode(w.texts[w.attrs[w.versionName].raw], w.utf8, codec)),
      Some(Decimal(w.attrs[w.versionCode].data)))
  {
    hide IsClear, FirstBase, FirstNamed, Carries, InfoInside, IsArchive, EntriesOf, EntryOf;
    hide ReadCentralDirectory, PickManifestSource, EntryReader, ReadApkInfo;
    ArchiveListed(b, l.members, l.start, l.size, l.end, codec);
    BaseFound(l, i, codec);
    var inner := CarriedSays(b, l, i, apk, codec);
    PackageInside(apk, inside, j, axml, w, codec);
    OpenedSays(Whole(b), EntriesOf(l.members, codec), EntryOf(l.members[i], codec), inner, Wrote(w, codec), codec);
  }
}
