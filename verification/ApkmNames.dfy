// What the name of a split says, and what that makes of it on one box: names,
// ABIs, densities and languages spelled out.

module ApkmNames {
  import opened Options
  import opened Strings
  import opened Apkm

  // --- Names ------------------------------------------------------------------------------------

  const CONFIG := "config."

  lemma {:induction false} LastIndexAt(s: string, part: string, i: int, k: nat)
    requires k <= i && i + |part| <= |s| && ReadsAt(s, part, k)
    requires forall j | k < j <= i :: !ReadsAt(s, part, j)
    ensures LastIndexFrom(s, part, i) == Some(k)
    decreases i
  {
    assert ReadsAt(s, part, i) <==> s[i..i + |part|] == part;
    if k < i { LastIndexAt(s, part, i - 1, k); }
  }

  lemma {:induction false} LastIndexNone(s: string, part: string, i: int)
    requires i + |part| <= |s| && forall j | 0 <= j <= i :: !ReadsAt(s, part, j)
    ensures LastIndexFrom(s, part, i) == None
  {
    if i >= 0 {
      assert ReadsAt(s, part, i) <==> s[i..i + |part|] == part;
      LastIndexNone(s, part, i - 1);
    }
  }

  function Marked(prefix: string, q: string): string {
    prefix + CONFIG + q + ".apk"
  }

  /** Where each character of a marked name stands. */
  lemma MarkedAt(prefix: string, q: string)
    ensures var s, at, n := Marked(prefix, q), |prefix|, |q|;
      && |s| == at + 7 + n + 4 && ReadsAt(s, CONFIG, at) && s[at + 6] == '.' && s[at + 7..] == q + ".apk"
      && (forall i | 0 <= i < n :: s[at + 7 + i] == q[i])
      && (forall i | 0 <= i < 4 :: s[at + 7 + n + i] == ".apk"[i])
  {
    var s, at := Marked(prefix, q), |prefix|;
    assert s[at..at + 7] == CONFIG;
  }

  lemma CharOf(s: string, part: string, k: nat, i: nat)
    requires ReadsAt(s, part, k) && i < |part|
    ensures k + |part| <= |s| && s[k + i] == part[i]
  {
    assert s[k + i] == s[k..k + |part|][i];
  }

  /** After its marker the only dot is that of `.apk`. */
  lemma DotAt(prefix: string, q: string, k: nat)
    requires (forall c | c in q :: c != '.') && |prefix| + 7 <= k < |Marked(prefix, q)|
    ensures Marked(prefix, q)[k] == '.' <==> k == |prefix| + 7 + |q|
  {
    hide Marked;
    var s, at, n := Marked(prefix, q), |prefix|, |q|;
    MarkedAt(prefix, q);
    if k < at + 7 + n {
      assert s[k] == q[k - at - 7] && q[k - at - 7] in q;
    } else {
      assert s[k] == ".apk"[k - at - 7 - n];
    }
  }

  /** A later marker would end the qualifier. */
  lemma LaterMarker(prefix: string, q: string, j: nat)
    requires (forall c | c in q :: c != '.') && ReadsAt(Marked(prefix, q), CONFIG, j) && j > |prefix|
    ensures HasSuffix(q, "config")
  {
    hide Marked, ReadsAt;
    var s, at, n := Marked(prefix, q), |prefix|, |q|;
    MarkedAt(prefix, q);
    CharOf(s, CONFIG, j, 6);
    DotAt(prefix, q, j + 6);
    assert j + 6 == at + 7 + n;
    forall k | j <= k < j + 6 ensures s[k] != '.' && s[k] == CONFIG[k - j] {
      CharOf(s, CONFIG, j, k - j);
    }
    assert !(j <= at + 6 < j + 6);
    assert n >= 6;
    forall i | 0 <= i < 6 ensures q[n - 6 + i] == "config"[i] {
      assert s[j + i] == s[at + 7 + (n - 6 + i)] == q[n - 6 + i];
    }
    assert q[n - 6..] == "config";
  }

  /** And so would the ending of a base. */
  lemma BaseEnding(prefix: string, q: string)
    requires HasSuffix(Marked(prefix, q), "_base.apk")
    ensures HasSuffix(q, "_base")
  {
    hide Marked, ReadsAt;
    var s, at, n := Marked(prefix, q), |prefix|, |q|;
    MarkedAt(prefix, q);
    var from := |s| - 9;
    forall k | from <= k < from + 5 ensures s[k] == "_base"[k - from] && s[k] != '.' {
      assert s[k] == s[from..][k - from];
    }
    assert !(from <= at + 6 < from + 5);
    assert n >= 5;
    forall i | 0 <= i < 5 ensures q[n - 5 + i] == "_base"[i] {
      assert s[from + i] == s[at + 7 + (n - 5 + i)] == q[n - 5 + i];
    }
    assert q[n - 5..] == "_base";
  }

  /** A qualifier as bundles carry them: nothing in it reads as another marker. */
  predicate IsQualifier(q: string) {
    (forall c | c in q :: c != '.') && !HasSuffix(q, "config") && !HasSuffix(q, "_base")
  }

  lemma MarkedIsClassified(name: string, prefix: string, q: string, t: Text)
    requires t.lower(name) == Marked(prefix, q) && IsQualifier(q)
    ensures Classify(name, t) == Entry(name, q, QualifierKind(q, t))
  {
    hide Marked, QualifierKind, LastIndexFrom;
    var s, at := t.lower(name), |prefix|;
    MarkedAt(prefix, q);
    if HasSuffix(s, "_base.apk") { BaseEnding(prefix, q); }
    forall j | at < j <= |s| - 7 ensures !ReadsAt(s, CONFIG, j) {
      if ReadsAt(s, CONFIG, j) { LaterMarker(prefix, q, j); }
    }
    LastIndexAt(s, CONFIG, |s| - 7, at);
    Unsuffixed(q);
  }

  lemma Unsuffixed(q: string)
    ensures TrimSuffix(q + ".apk", ".apk") == q
  {
    assert (q + ".apk")[|q|..] == ".apk" && (q + ".apk")[..|q|] == q;
  }

  lemma KindIs(q: string, t: Text)
    ensures QualifierKind(q, t) ==
      if q in {"arm64_v8a", "arm64-v8a", "armeabi_v7a", "armeabi-v7a", "x86", "x86_64"} then Abi
      else if q in {"ldpi", "mdpi", "tvdpi", "hdpi", "xhdpi", "xxhdpi", "xxxhdpi", "nodpi", "anydpi"} then Density
      else if t.size(q) <= 7 then Language else Other
  {
  }

  /**
   * A split that its name marks as one of a configuration: its qualifier is
   * what stands between the marker and `.apk`, and makes it the split of an
   * ABI, of a density, of a language when it is short, or of none of these.
   */
  lemma SplitIsWhatItSays(name: string, prefix: string, q: string, t: Text)
    requires t.lower(name) == prefix + "config." + q + ".apk" && IsQualifier(q)
    ensures Classify(name, t) == Entry(name, q,
      if q in {"arm64_v8a", "arm64-v8a", "armeabi_v7a", "armeabi-v7a", "x86", "x86_64"} then Abi
      else if q in {"ldpi", "mdpi", "tvdpi", "hdpi", "xhdpi", "xxhdpi", "xxxhdpi", "nodpi", "anydpi"} then Density
      else if t.size(q) <= 7 then Language else Other)
  {
    hide Classify, QualifierKind, IsQualifier;
    MarkedIsClassified(name, prefix, q, t);
    KindIs(q, t);
  }

  /** One that is not so marked is a feature when it says it is a split, and else the base. */
  lemma UnmarkedIsBaseOrFeature(name: string, t: Text)
    requires forall k :: !ReadsAt(t.lower(name), "config.", k)
    ensures Classify(name, t) == Entry(name, "",
      if "split_" <= t.lower(name) && !HasSuffix(t.lower(name), "_base.apk") then Other else Base)
  {
    var s := t.lower(name);
    if |s| >= 7 { LastIndexNone(s, CONFIG, |s| - 7); }
    assert !("split_" <= "base.apk") by { assert "split_"[0] != "base.apk"[0]; }
  }

  // --- Languages -----------------------------------------------------------------------------------

  lemma {:induction false} IndexAt(s: string, c: char, i: nat, k: nat)
    requires i <= k < |s| && s[k] == c && forall j | i <= j < k :: s[j] != c
    ensures IndexFrom(s, [c], i) == Some(k)
    decreases k - i
  {
    assert s[i..i + 1] == [s[i]];
    if i < k { IndexAt(s, c, i + 1, k); }
  }

  lemma {:induction false} IndexNone(s: string, c: char, i: nat)
    requires forall j | i <= j < |s| :: s[j] != c
    ensures IndexFrom(s, [c], i) == None
    decreases |s| - i
  {
    if i + 1 <= |s| {
      assert s[i..i + 1] == [s[i]];
      IndexNone(s, c, i + 1);
    }
  }

  /** A region or a script after the language is dropped: `pt_br` and `zh-hans` are `pt` and `zh`. */
  lemma LanguageWithoutRegion(qualifier: string, head: string, sep: char, tail: string, t: Text)
    requires t.lower(qualifier) == head + [sep] + tail && sep in {'_', '-'} && head != ""
    requires forall c | c in head :: c !in {'_', '-'}
    requires sep == '-' ==> forall c | c in tail :: c != '_'
    ensures PrimaryLanguage(qualifier, t) == head
  {
    var q := t.lower(qualifier);
    forall j | 0 <= j < |head| ensures q[j] !in {'_', '-'} { assert q[j] == head[j] && head[j] in head; }
    if sep == '_' {
      IndexAt(q, '_', 0, |head|);
    } else {
      forall j | 0 <= j < |q| ensures q[j] != '_' {
        if j > |head| { assert q[j] == tail[j - |head| - 1] && tail[j - |head| - 1] in tail; }
      }
      IndexNone(q, '_', 0);
      IndexAt(q, '-', 0, |head|);
    }
    assert q[..|head|] == head;
  }

  lemma LanguageAlone(qualifier: string, t: Text)
    requires forall c | c in t.lower(qualifier) :: c !in {'_', '-'}
    ensures PrimaryLanguage(qualifier, t) == t.lower(qualifier)
  {
    var q := t.lower(qualifier);
    assert forall j | 0 <= j < |q| :: q[j] in q;
    IndexNone(q, '_', 0);
    IndexNone(q, '-', 0);
  }

  // --- What it makes of a split ----------------------------------------------------------------------

  /** The two spellings name one ABI. */
  predicate SameAbi(a: string, b: string) {
    || (a in {"arm64_v8a", "arm64-v8a"} && b in {"arm64_v8a", "arm64-v8a"})
    || (a in {"armeabi_v7a", "armeabi-v7a"} && b in {"armeabi_v7a", "armeabi-v7a"})
    || (a == "x86" && b == "x86")
    || (a == "x86_64" && b == "x86_64")
  }

  lemma FitsIff(e: Entry, sel: Selection, t: Text)
    requires e.qualifier in {"arm64_v8a", "arm64-v8a", "armeabi_v7a", "armeabi-v7a", "x86", "x86_64"}
    ensures Fits(e, sel, t) <==> SameAbi(e.qualifier, t.lower(sel.abi))
  {
  }

  /** The dots per inch a bucket stands for. */
  predicate Dpi(bucket: string, dpi: int) {
    || (bucket == "ldpi" && dpi == 120) || (bucket == "mdpi" && dpi == 160) || (bucket == "tvdpi" && dpi == 213)
    || (bucket == "hdpi" && dpi == 240) || (bucket == "xhdpi" && dpi == 320) || (bucket == "xxhdpi" && dpi == 480)
    || (bucket == "xxxhdpi" && dpi == 640)
  }

  /** How far a bucket is from the box; a box that reports nothing counts as 320. */
  function Away(dpi: int, density: int): int {
    var target := if density <= 0 then 320 else density;
    if dpi < target then target - dpi else dpi - target
  }

  lemma DpiIs(bucket: string, dpi: int)
    requires Dpi(bucket, dpi)
    ensures bucket in DENSITIES && DENSITIES[bucket] == dpi > 0
  {
  }

  /**
   * What a bundle with distinct names installs on a box, split by split and
   * apart from those forced in: an ABI split exactly when it is the box's ABI
   * in either spelling; a density split with a scale only when no other is
   * nearer to the box's screen; a language split when it is English or the
   * box's language, and one that is neither only when there is none of those.
   */
  lemma InstalledIff(entries: seq<Entry>, sel: Selection, t: Text, r: Result, e: Entry)
    requires Distinct(entries) && Selected(entries, sel, t, r) && r.Ok? && e in entries
    requires forall name | name in sel.extra :: t.lower(name) != t.lower(e.name)
    ensures e.kind == Abi && e.qualifier in {"arm64_v8a", "arm64-v8a", "armeabi_v7a", "armeabi-v7a", "x86", "x86_64"}
      ==> (e in r.entries <==> SameAbi(e.qualifier, t.lower(sel.abi)))
    ensures e.kind == Density && e in r.entries ==>
      forall f, here, there | f in entries && f.kind == Density && Dpi(e.qualifier, here) && Dpi(f.qualifier, there)
                              && Away(there, sel.density) < 0x4000_0000 ::
        Away(here, sel.density) <= Away(there, sel.density)
    ensures e.kind == Language ==>
      var language := PrimaryLanguage(e.qualifier, t);
      language == "en" || (language != "" && language == PrimaryLanguage(sel.language, t)) ==> e in r.entries
    ensures e.kind == Language && e in r.entries ==>
      var language := PrimaryLanguage(e.qualifier, t);
      || language == "en" || language == PrimaryLanguage(sel.language, t)
      || forall l | l in entries && l.kind == Language :: PrimaryLanguage(l.qualifier, t) != "en"
    ensures e.kind == Other ==> e in r.entries
  {
    hide Selected, Distinct, PrimaryLanguage;
    SelectionIsExact(entries, sel, t, r, e);
    assert !Forced(e, sel, t);
    if e.kind == Abi && e.qualifier in {"arm64_v8a", "arm64-v8a", "armeabi_v7a", "armeabi-v7a", "x86", "x86_64"} {
      FitsIff(e, sel, t);
    }
    if e.kind == Density && e in r.entries {
      forall f, here, there | f in entries && f.kind == Density && Dpi(e.qualifier, here) && Dpi(f.qualifier, there)
                              && Away(there, sel.density) < 0x4000_0000
        ensures Away(here, sel.density) <= Away(there, sel.density)
      {
        NearestIsPicked(entries, sel.density, e, f, here, there);
      }
    }
  }

  /** A split the job names, in whatever case, is installed whatever it is. */
  lemma NamedIsInstalled(entries: seq<Entry>, sel: Selection, t: Text, r: Result, e: Entry, name: string)
    requires Distinct(entries) && Selected(entries, sel, t, r) && r.Ok? && e in entries
    requires name in sel.extra && t.lower(name) == t.lower(e.name)
    ensures e in r.entries
  {
    SelectionIsExact(entries, sel, t, r, e);
  }

  lemma NearestIsPicked(entries: seq<Entry>, density: int, e: Entry, f: Entry, here: int, there: int)
    requires IsDensityPick(e, entries, density) && f in entries && f.kind == Density
    requires Dpi(e.qualifier, here) && Dpi(f.qualifier, there) && Away(there, density) < 0x4000_0000
    ensures Away(here, density) <= Away(there, density)
  {
    var all := OfKind(entries, Density);
    InKind(entries, Density, f);
    DpiIs(e.qualifier, here);
    DpiIs(f.qualifier, there);
    var j :| 0 <= j < |all| && all[j] == f;
    assert Scaled(all[j], density) && all[j] in all;
  }
}
