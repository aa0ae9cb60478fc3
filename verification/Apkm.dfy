// Choosing the splits of a bundle for one box: `classify`, `Select`,
// `pickDensity`, `primaryLanguage` and `normalizeAbi` of
// agent/internal/apkm/apkm.go.

module Apkm {
  import opened Options
  import opened Strings

  /** `strings.ToLower`, and the length of a string in bytes. */
  datatype Text = Text(lower: string -> string, size: string -> nat)

  datatype Kind = Base | Abi | Density | Language | Other

  datatype Entry = Entry(name: string, qualifier: string, kind: Kind)

  const ABIS: map<string, string> := map[
    "arm64_v8a" := "arm64-v8a", "arm64-v8a" := "arm64-v8a",
    "armeabi_v7a" := "armeabi-v7a", "armeabi-v7a" := "armeabi-v7a",
    "x86" := "x86", "x86_64" := "x86_64"]

  const DENSITIES: map<string, nat> := map[
    "ldpi" := 120, "mdpi" := 160, "tvdpi" := 213, "hdpi" := 240, "xhdpi" := 320,
    "xxhdpi" := 480, "xxxhdpi" := 640, "nodpi" := 0, "anydpi" := 0]

  // --- Names -----------------------------------------------------------------------------

  function TrimSuffix(s: string, suffix: string): string {
    if HasSuffix(s, suffix) then s[..|s| - |suffix|] else s
  }

  /** `strings.Index`, from `i` on. */
  function IndexFrom(s: string, part: string, i: nat): (at: Option<nat>)
    ensures at.Some? ==> at.value + |part| <= |s|
    decreases |s| - i
  {
    if i + |part| > |s| then None
    else if s[i..i + |part|] == part then Some(i)
    else IndexFrom(s, part, i + 1)
  }

  /** `strings.LastIndex`, at or before `i`. */
  function LastIndexFrom(s: string, part: string, i: int): (at: Option<nat>)
    requires i + |part| <= |s|
    ensures at.Some? ==> at.value + |part| <= |s|
  {
    if i < 0 then None
    else if s[i..i + |part|] == part then Some(i)
    else LastIndexFrom(s, part, i - 1)
  }

  function LastIndex(s: string, part: string): (at: Option<nat>)
    ensures at.Some? ==> at.value + |part| <= |s|
  {
    LastIndexFrom(s, part, |s| - |part|)
  }

  function QualifierKind(qualifier: string, t: Text): Kind {
    if qualifier in ABIS then Abi
    else if qualifier in DENSITIES then Density
    else if t.size(qualifier) <= 7 then Language
    else Other
  }

  function Classify(name: string, t: Text): Entry {
    var lower := t.lower(name);
    if lower == "base.apk" || HasSuffix(lower, "_base.apk") then Entry(name, "", Base)
    else
      match LastIndex(lower, "config.")
      case None => Entry(name, "", if "split_" <= lower then Other else Base)
      case Some(i) =>
        var qualifier := TrimSuffix(lower[i + |"config."|..], ".apk");
        Entry(name, qualifier, QualifierKind(qualifier, t))
  }

  /** What the first of `seps` to be found past the start cuts off. */
  function PrimaryLanguage(qualifier: string, t: Text): string {
    var q := t.lower(qualifier);
    var underscore, dash := IndexFrom(q, "_", 0), IndexFrom(q, "-", 0);
    if underscore.Some? && underscore.value > 0 then q[..underscore.value]
    else if dash.Some? && dash.value > 0 then q[..dash.value]
    else q
  }

  /** A missing key reads as the empty string. */
  function AbiOf(qualifier: string): string {
    if qualifier in ABIS then ABIS[qualifier] else ""
  }

  function NormalizeAbi(abi: string, t: Text): string {
    if t.lower(abi) in ABIS then ABIS[t.lower(abi)] else t.lower(abi)
  }

  // --- One density split -------------------------------------------------------------------

  const FAR: nat := 0x4000_0000

  function Target(density: int): int { if density <= 0 then 320 else density }

  function Delta(dpi: int, density: int): nat {
    if dpi < Target(density) then Target(density) - dpi else dpi - Target(density)
  }

  /** A bucket with a scale, near enough to be compared at all. */
  predicate Scaled(e: Entry, density: int) {
    e.qualifier in DENSITIES && DENSITIES[e.qualifier] > 0 && Delta(DENSITIES[e.qualifier], density) < FAR
  }

  /** `nodpi` and `anydpi`: they fit any screen. */
  predicate Unscaled(e: Entry) {
    e.qualifier in DENSITIES && DENSITIES[e.qualifier] == 0
  }

  function Distance(e: Entry, density: int): nat
    requires e.qualifier in DENSITIES
  {
    Delta(DENSITIES[e.qualifier], density)
  }

  /** The split at `i` is the one for this density: the first of the nearest, or the first unscaled if none has a scale. */
  predicate IsPick(entries: seq<Entry>, density: int, i: nat)
    requires i < |entries|
  {
    if exists e <- entries :: Scaled(e, density) then
      && Scaled(entries[i], density)
      && (forall j | 0 <= j < |entries| && Scaled(entries[j], density) ::
            Distance(entries[i], density) <= Distance(entries[j], density))
      && (forall j | 0 <= j < i && Scaled(entries[j], density) ::
            Distance(entries[i], density) < Distance(entries[j], density))
    else
      Unscaled(entries[i]) && forall j | 0 <= j < i :: !Unscaled(entries[j])
  }

  method PickDensity(entries: seq<Entry>, density: int) returns (best: Option<nat>)
    ensures best.Some? ==> best.value < |entries| && IsPick(entries, density, best.value)
    ensures best.None? ==> forall e | e in entries :: !Scaled(e, density) && !Unscaled(e)
  {
    best := None;
    var bestDelta := FAR;
    for i := 0 to |entries|
      invariant best.None? ==> bestDelta == FAR
      invariant best.None? ==> forall j | 0 <= j < i :: !Scaled(entries[j], density) && !Unscaled(entries[j])
      invariant best.Some? ==> best.value < i
      invariant best.Some? && bestDelta == FAR ==>
        && (forall j | 0 <= j < i :: !Scaled(entries[j], density))
        && Unscaled(entries[best.value]) && (forall j | 0 <= j < best.value :: !Unscaled(entries[j]))
      invariant bestDelta <= FAR
      invariant best.Some? && bestDelta < FAR ==>
        && Scaled(entries[best.value], density) && Distance(entries[best.value], density) == bestDelta
        && (forall j | 0 <= j < i && Scaled(entries[j], density) :: bestDelta <= Distance(entries[j], density))
        && (forall j | 0 <= j < best.value && Scaled(entries[j], density) :: bestDelta < Distance(entries[j], density))
    {
      if entries[i].qualifier in DENSITIES {
        var dpi := DENSITIES[entries[i].qualifier];
        if dpi == 0 {
          if best.None? { best := Some(i); }
        } else {
          var delta := Delta(dpi, density);
          if delta < bestDelta { best, bestDelta := Some(i), delta; }
        }
      }
    }
  }

  // --- Order -----------------------------------------------------------------------------------

  predicate Before(a: string, b: string) {
    if b == "" then false
    else if a == "" then true
    else if a[0] == b[0] then Before(a[1..], b[1..])
    else a[0] < b[0]
  }

  lemma {:induction false} OneComesFirst(a: string, b: string)
    requires a != b
    ensures Before(a, b) != Before(b, a)
  {
    if a != "" && b != "" && a[0] == b[0] {
      assert a == [a[0]] + a[1..] && b == [b[0]] + b[1..];
      OneComesFirst(a[1..], b[1..]);
    }
  }

  lemma {:induction false} NotBeforeItself(a: string)
    ensures !Before(a, a)
  {
    if a != "" { NotBeforeItself(a[1..]); }
  }

  lemma {:induction false} BeforeCarries(a: string, b: string, c: string)
    requires !Before(b, a) && !Before(c, b)
    ensures !Before(c, a)
  {
    if a != "" && b != "" && c != "" && a[0] == b[0] == c[0] { BeforeCarries(a[1..], b[1..], c[1..]); }
  }

  /** By name; equal names in either order. */
  predicate Sorted(entries: seq<Entry>) {
    forall i, j | 0 <= i < j < |entries| :: !Before(entries[j].name, entries[i].name)
  }

  function Insert(e: Entry, entries: seq<Entry>): (r: seq<Entry>)
    ensures multiset(r) == multiset(entries) + multiset{e}
    ensures |r| == |entries| + 1
  {
    if entries == [] || Before(e.name, entries[0].name) then [e] + entries
    else
      assert entries == [entries[0]] + entries[1..];
      [entries[0]] + Insert(e, entries[1..])
  }

  lemma {:induction false} InsertSorts(e: Entry, entries: seq<Entry>)
    requires Sorted(entries)
    ensures Sorted(Insert(e, entries))
  {
    var r := Insert(e, entries);
    if entries == [] {
    } else if Before(e.name, entries[0].name) {
      OneComesFirst(e.name, entries[0].name) by { NotBeforeItself(e.name); }
      forall j | 0 < j < |r| ensures !Before(r[j].name, e.name) {
        BeforeCarries(e.name, entries[0].name, r[j].name) by { if j == 1 { NotBeforeItself(entries[0].name); } }
      }
    } else {
      InsertSorts(e, entries[1..]);
      forall j | 0 < j < |r| ensures !Before(r[j].name, entries[0].name) {
        assert r[j] == r[1..][j - 1] && r[j] in multiset(r[1..]);
        if r[j] != e { assert r[j] in entries[1..]; }
      }
    }
  }

  /** `sort.Slice` by name. */
  function SortByName(entries: seq<Entry>): (r: seq<Entry>)
    ensures multiset(r) == multiset(entries)
  {
    if entries == [] then []
    else
      assert entries == entries[..|entries| - 1] + [entries[|entries| - 1]];
      Insert(entries[|entries| - 1], SortByName(entries[..|entries| - 1]))
  }

  lemma {:induction false} SortSorts(entries: seq<Entry>)
    ensures Sorted(SortByName(entries))
  {
    if entries != [] {
      SortSorts(entries[..|entries| - 1]);
      InsertSorts(entries[|entries| - 1], SortByName(entries[..|entries| - 1]));
    }
  }

  // --- What belongs on the box -------------------------------------------------------------------

  datatype Selection = Selection(abi: string, density: int, language: string, extra: seq<string>)

  datatype Result = Ok(entries: seq<Entry>) | NoBase | NoAbi

  function OfKind(entries: seq<Entry>, kind: Kind): seq<Entry> {
    if entries == [] then []
    else
      var before, e := OfKind(entries[..|entries| - 1], kind), entries[|entries| - 1];
      if e.kind == kind then before + [e] else before
  }

  lemma {:induction false} InKind(entries: seq<Entry>, kind: Kind, e: Entry)
    ensures e in OfKind(entries, kind) <==> e in entries && e.kind == kind
  {
    if entries != [] {
      var before := entries[..|entries| - 1];
      InKind(before, kind, e);
      assert entries == before + [entries[|entries| - 1]];
    }
  }

  predicate Fits(e: Entry, sel: Selection, t: Text) {
    AbiOf(e.qualifier) == NormalizeAbi(sel.abi, t)
  }

  /** English, or the box's own language when it has one. */
  predicate Spoken(e: Entry, sel: Selection, t: Text) {
    var language := PrimaryLanguage(e.qualifier, t);
    language == "en" || (language == PrimaryLanguage(sel.language, t) && language != "")
  }

  predicate Forced(e: Entry, sel: Selection, t: Text) {
    exists name <- sel.extra :: t.lower(name) == t.lower(e.name)
  }

  /** The first of the first kind there is. */
  predicate IsFirst(e: Entry, entries: seq<Entry>, kind: Kind) {
    OfKind(entries, kind) != [] && OfKind(entries, kind)[0] == e
  }

  predicate IsDensityPick(e: Entry, entries: seq<Entry>, density: int) {
    var all := OfKind(entries, Density);
    exists i | 0 <= i < |all| :: all[i] == e && IsPick(all, density, i)
  }

  predicate IsLanguagePick(e: Entry, entries: seq<Entry>, sel: Selection, t: Text) {
    && e.kind == Language
    && (Spoken(e, sel, t)
        || (IsFirst(e, entries, Language) && forall l | l in entries && l.kind == Language :: !Spoken(l, sel, t)))
  }

  /** Belongs on the box by what it is. */
  predicate Fitting(e: Entry, entries: seq<Entry>, sel: Selection, t: Text) {
    match e.kind
    case Other => true
    case Base => IsFirst(e, entries, Base)
    case Abi => Fits(e, sel, t)
    case Density => IsDensityPick(e, entries, sel.density)
    case Language => IsLanguagePick(e, entries, sel, t)
  }

  predicate Distinct(entries: seq<Entry>) {
    forall i, j | 0 <= i < j < |entries| :: entries[i].name != entries[j].name
  }

  predicate Named(entries: seq<Entry>, name: string) {
    exists e <- entries :: e.name == name
  }

  /**
   * What the selection of a bundle may be. Names decide what is forced in, so
   * of entries that share a name one is enough.
   */
  ghost predicate Selected(entries: seq<Entry>, sel: Selection, t: Text, r: Result) {
    && (r.NoBase? <==> OfKind(entries, Base) == [])
    && (r.NoAbi? <==> OfKind(entries, Base) != [] && OfKind(entries, Abi) != []
                      && forall e | e in entries && e.kind == Abi :: !Fits(e, sel, t))
    && (r.Ok? ==>
         && Sorted(r.entries)
         && (Distinct(entries) ==> Distinct(r.entries))
         && (forall e | e in r.entries :: e in entries && (Fitting(e, entries, sel, t) || Forced(e, sel, t)))
         && (forall e | e in entries && Fitting(e, entries, sel, t) :: e in r.entries)
         && (forall e | e in entries && Forced(e, sel, t) :: Named(r.entries, e.name)))
  }

  lemma SameName(entries: seq<Entry>, a: Entry, b: Entry)
    requires Distinct(entries) && a in entries && b in entries && a.name == b.name
    ensures a == b
  {
  }

  /** With distinct names, the selection is exactly what fits and what is forced. */
  lemma SelectionIsExact(entries: seq<Entry>, sel: Selection, t: Text, r: Result, e: Entry)
    requires Selected(entries, sel, t, r) && r.Ok? && Distinct(entries)
    ensures e in r.entries <==> e in entries && (Fitting(e, entries, sel, t) || Forced(e, sel, t))
  {
    if e in entries && Forced(e, sel, t) {
      var other :| other in r.entries && other.name == e.name;
      SameName(entries, e, other);
    }
  }

  // --- Choosing ------------------------------------------------------------------------------------

  lemma OneMore(entries: seq<Entry>, e: Entry, kind: Kind)
    ensures OfKind(entries + [e], kind) == if e.kind == kind then OfKind(entries, kind) + [e] else OfKind(entries, kind)
  {
    assert (entries + [e])[..|entries|] == entries;
  }

  lemma {:induction false} KindDistinct(entries: seq<Entry>, kind: Kind)
    requires Distinct(entries)
    ensures Distinct(OfKind(entries, kind))
  {
    if entries != [] {
      var before, e := entries[..|entries| - 1], entries[|entries| - 1];
      KindDistinct(before, kind);
      forall x | x in OfKind(before, kind) ensures x.name != e.name {
        InKind(before, kind, x);
      }
    }
  }

  /** The first loop: one list a kind, and the first base. */
  method Partition(entries: seq<Entry>)
    returns (base: Option<Entry>, others: seq<Entry>, abis: seq<Entry>, densities: seq<Entry>, languages: seq<Entry>)
    ensures base == if OfKind(entries, Base) == [] then None else Some(OfKind(entries, Base)[0])
    ensures others == OfKind(entries, Other) && abis == OfKind(entries, Abi)
    ensures densities == OfKind(entries, Density) && languages == OfKind(entries, Language)
  {
    base, others, abis, densities, languages := None, [], [], [], [];
    for i := 0 to |entries|
      invariant base == if OfKind(entries[..i], Base) == [] then None else Some(OfKind(entries[..i], Base)[0])
      invariant others == OfKind(entries[..i], Other) && abis == OfKind(entries[..i], Abi)
      invariant densities == OfKind(entries[..i], Density) && languages == OfKind(entries[..i], Language)
    {
      var e := entries[i];
      assert entries[..i + 1] == entries[..i] + [e];
      OneMore(entries[..i], e, Base);
      OneMore(entries[..i], e, Other);
      OneMore(entries[..i], e, Abi);
      OneMore(entries[..i], e, Density);
      OneMore(entries[..i], e, Language);
      match e.kind
      case Base => if base.None? { base := Some(e); }
      case Abi => abis := abis + [e];
      case Density => densities := densities + [e];
      case Language => languages := languages + [e];
      case Other => others := others + [e];
    }
    assert entries[..|entries|] == entries;
  }

  lemma StaysDistinct(entries: seq<Entry>, i: nat, added: seq<Entry>)
    requires Distinct(entries) && i < |entries| && Distinct(added)
    requires forall e | e in added :: e in entries[..i]
    ensures Distinct(added + [entries[i]])
  {
    forall k | 0 <= k < |added| ensures added[k].name != entries[i].name {
      assert added[k] in entries[..i];
    }
  }

  method MatchingAbis(abis: seq<Entry>, sel: Selection, t: Text) returns (added: seq<Entry>)
    ensures forall e :: e in added <==> e in abis && Fits(e, sel, t)
    ensures Distinct(abis) ==> Distinct(added)
  {
    added := [];
    var want := NormalizeAbi(sel.abi, t);
    for i := 0 to |abis|
      invariant forall e :: e in added <==> e in abis[..i] && Fits(e, sel, t)
      invariant Distinct(abis) ==> Distinct(added)
    {
      assert abis[..i + 1] == abis[..i] + [abis[i]];
      if AbiOf(abis[i].qualifier) == want {
        if Distinct(abis) { StaysDistinct(abis, i, added); }
        added := added + [abis[i]];
      }
    }
    assert abis[..|abis|] == abis;
  }

  method MatchingLanguages(languages: seq<Entry>, sel: Selection, t: Text) returns (added: seq<Entry>)
    ensures (exists l <- languages :: Spoken(l, sel, t)) ==> forall e :: e in added <==> e in languages && Spoken(e, sel, t)
    ensures !(exists l <- languages :: Spoken(l, sel, t)) ==> added == if languages == [] then [] else [languages[0]]
    ensures Distinct(languages) ==> Distinct(added)
  {
    added := [];
    if |languages| > 0 {
      var want := {"en"};
      var language := PrimaryLanguage(sel.language, t);
      if language != "" { want := want + {language}; }
      for i := 0 to |languages|
        invariant forall e :: e in added <==> e in languages[..i] && Spoken(e, sel, t)
        invariant Distinct(languages) ==> Distinct(added)
      {
        assert languages[..i + 1] == languages[..i] + [languages[i]];
        if PrimaryLanguage(languages[i].qualifier, t) in want {
          if Distinct(languages) { StaysDistinct(languages, i, added); }
          added := added + [languages[i]];
        }
      }
      assert languages[..|languages|] == languages;
      if added == [] {
        assert forall l | l in languages :: !Spoken(l, sel, t);
        added := [languages[0]];
      } else {
        assert added[0] in languages && Spoken(added[0], sel, t);
      }
    }
  }

  method AddExtras(entries: seq<Entry>, sel: Selection, t: Text, fitting: seq<Entry>) returns (chosen: seq<Entry>)
    ensures forall e | e in fitting :: e in chosen
    ensures forall e | e in chosen :: e in fitting || (e in entries && Forced(e, sel, t))
    ensures forall e | e in entries && Forced(e, sel, t) :: Named(chosen, e.name)
    ensures Distinct(fitting) ==> Distinct(chosen)
  {
    var extra: set<string> := {};
    for i := 0 to |sel.extra|
      invariant forall name :: name in extra <==> exists k | 0 <= k < i :: t.lower(sel.extra[k]) == name
    {
      extra := extra + {t.lower(sel.extra[i])};
    }
    chosen := fitting;
    for i := 0 to |entries|
      invariant forall e | e in fitting :: e in chosen
      invariant forall e | e in chosen :: e in fitting || (e in entries && Forced(e, sel, t))
      invariant forall k | 0 <= k < i && Forced(entries[k], sel, t) :: Named(chosen, entries[k].name)
      invariant Distinct(fitting) ==> Distinct(chosen)
    {
      var e := entries[i];
      ForcedIff(e, sel, t);
      if t.lower(e.name) in extra && !Named(chosen, e.name) {
        var longer := chosen + [e];
        forall k | 0 <= k <= i && Forced(entries[k], sel, t) ensures Named(longer, entries[k].name) {
          if k < i {
            var other :| other in chosen && other.name == entries[k].name;
            assert other in longer;
          } else {
            assert e in longer;
          }
        }
        chosen := longer;
      }
    }
  }

  lemma ForcedIff(e: Entry, sel: Selection, t: Text)
    ensures Forced(e, sel, t) <==> exists k | 0 <= k < |sel.extra| :: t.lower(sel.extra[k]) == t.lower(e.name)
  {
    if Forced(e, sel, t) {
      var name :| name in sel.extra && t.lower(name) == t.lower(e.name);
      var k :| 0 <= k < |sel.extra| && sel.extra[k] == name;
      assert t.lower(sel.extra[k]) == t.lower(e.name);
    }
  }

  /** The parts the loops collected, one kind each. */
  ghost predicate IsPart(entries: seq<Entry>, sel: Selection, t: Text, kind: Kind, part: seq<Entry>) {
    && (forall e :: e in part <==> e in entries && e.kind == kind && Fitting(e, entries, sel, t))
    && (Distinct(entries) ==> Distinct(part))
  }

  lemma OtherPart(entries: seq<Entry>, sel: Selection, t: Text)
    ensures IsPart(entries, sel, t, Other, OfKind(entries, Other))
  {
    forall e ensures e in OfKind(entries, Other) <==> e in entries && e.kind == Other { InKind(entries, Other, e); }
    if Distinct(entries) { KindDistinct(entries, Other); }
  }

  lemma BasePart(entries: seq<Entry>, sel: Selection, t: Text)
    requires OfKind(entries, Base) != []
    ensures IsPart(entries, sel, t, Base, [OfKind(entries, Base)[0]])
  {
    InKind(entries, Base, OfKind(entries, Base)[0]);
  }

  lemma AbiPart(entries: seq<Entry>, sel: Selection, t: Text, added: seq<Entry>)
    requires forall e :: e in added <==> e in OfKind(entries, Abi) && Fits(e, sel, t)
    requires Distinct(OfKind(entries, Abi)) ==> Distinct(added)
    ensures IsPart(entries, sel, t, Abi, added)
  {
    forall e ensures e in OfKind(entries, Abi) <==> e in entries && e.kind == Abi { InKind(entries, Abi, e); }
    if Distinct(entries) { KindDistinct(entries, Abi); }
  }

  lemma PickIsUnique(all: seq<Entry>, density: int, i: nat, j: nat)
    requires i < |all| && j < |all| && IsPick(all, density, i) && IsPick(all, density, j)
    ensures i == j
  {
  }

  lemma DensityPart(entries: seq<Entry>, sel: Selection, t: Text, pick: Option<nat>)
    requires var all := OfKind(entries, Density);
      && (pick.Some? ==> pick.value < |all| && IsPick(all, sel.density, pick.value))
      && (pick.None? ==> forall e | e in all :: !Scaled(e, sel.density) && !Unscaled(e))
    ensures IsPart(entries, sel, t, Density, if pick.Some? then [OfKind(entries, Density)[pick.value]] else [])
  {
    hide OfKind;
    var all := OfKind(entries, Density);
    forall e | e in all ensures e in entries && e.kind == Density { InKind(entries, Density, e); }
    forall i | 0 <= i < |all| && IsPick(all, sel.density, i) ensures pick == Some(i) {
      assert all[i] in all;
      if pick.Some? { PickIsUnique(all, sel.density, i, pick.value); }
    }
  }

  lemma LanguagePart(entries: seq<Entry>, sel: Selection, t: Text, added: seq<Entry>)
    requires var all := OfKind(entries, Language);
      && ((exists l <- all :: Spoken(l, sel, t)) ==> forall e :: e in added <==> e in all && Spoken(e, sel, t))
      && (!(exists l <- all :: Spoken(l, sel, t)) ==> added == if all == [] then [] else [all[0]])
      && (Distinct(all) ==> Distinct(added))
    ensures IsPart(entries, sel, t, Language, added)
  {
    var all := OfKind(entries, Language);
    forall e ensures e in all <==> e in entries && e.kind == Language { InKind(entries, Language, e); }
    if Distinct(entries) { KindDistinct(entries, Language); }
  }

  /** Parts of different kinds have no name in common. */
  lemma TogetherDistinct(entries: seq<Entry>, a: seq<Entry>, b: seq<Entry>)
    requires Distinct(entries) && Distinct(a) && Distinct(b)
    requires forall e | e in a :: e in entries
    requires forall e | e in b :: e in entries
    requires forall x, y | x in a && y in b :: x.kind != y.kind
    ensures Distinct(a + b)
  {
    forall i, j | 0 <= i < |a| && 0 <= j < |b| ensures a[i].name != b[j].name {
      assert a[i] in a && b[j] in b;
      if a[i].name == b[j].name { SameName(entries, a[i], b[j]); }
    }
  }

  lemma PartsAreFitting(
      entries: seq<Entry>, sel: Selection, t: Text,
      o: seq<Entry>, b: seq<Entry>, a: seq<Entry>, d: seq<Entry>, l: seq<Entry>)
    requires IsPart(entries, sel, t, Other, o) && IsPart(entries, sel, t, Base, b) && IsPart(entries, sel, t, Abi, a)
    requires IsPart(entries, sel, t, Density, d) && IsPart(entries, sel, t, Language, l)
    ensures forall e :: e in o + b + a + d + l <==> e in entries && Fitting(e, entries, sel, t)
    ensures Distinct(entries) ==> Distinct(o + b + a + d + l)
  {
    if Distinct(entries) {
      TogetherDistinct(entries, o, b);
      TogetherDistinct(entries, o + b, a);
      TogetherDistinct(entries, o + b + a, d);
      TogetherDistinct(entries, o + b + a + d, l);
    }
  }

  method Select(entries: seq<Entry>, sel: Selection, t: Text) returns (r: Result)
    ensures Selected(entries, sel, t, r)
  {
    var base, others, abis, densities, languages := Partition(entries);
    if base.None? { return NoBase; }
    var matching := MatchingAbis(abis, sel, t);
    AbiPart(entries, sel, t, matching);
    if |abis| > 0 && matching == [] {
      assert forall e | e in entries && e.kind == Abi :: !Fits(e, sel, t);
      return NoAbi;
    }
    if |abis| > 0 { assert matching[0] in matching; }
    var pick := PickDensity(densities, sel.density);
    var density := if pick.Some? then [densities[pick.value]] else [];
    var spoken := MatchingLanguages(languages, sel, t);
    var fitting := others + [base.value] + matching + density + spoken;
    OtherPart(entries, sel, t);
    BasePart(entries, sel, t);
    DensityPart(entries, sel, t, pick);
    LanguagePart(entries, sel, t, spoken);
    PartsAreFitting(entries, sel, t, others, [base.value], matching, density, spoken);
    var chosen := AddExtras(entries, sel, t, fitting);
    SortedSelection(entries, sel, t, chosen);
    return Ok(SortByName(chosen));
  }

  /** Sorting neither adds, drops nor repeats. */
  lemma SortedSelection(entries: seq<Entry>, sel: Selection, t: Text, chosen: seq<Entry>)
    ensures var r := SortByName(chosen);
      && Sorted(r) && (forall e :: e in r <==> e in chosen) && (Distinct(chosen) ==> Distinct(r))
      && (forall name :: Named(chosen, name) ==> Named(r, name))
  {
    var r := SortByName(chosen);
    SortSorts(chosen);
    forall e ensures e in r <==> e in chosen { assert e in multiset(r) <==> e in multiset(chosen); }
    if Distinct(chosen) { SameMembersDistinct(chosen, r); }
    forall name | Named(chosen, name) ensures Named(r, name) {
      var e :| e in chosen && e.name == name;
      assert e in r;
    }
  }

  lemma OnceEach(a: seq<Entry>, i: nat)
    requires Distinct(a) && i < |a|
    ensures multiset(a)[a[i]] == 1
  {
    assert a == a[..i] + [a[i]] + a[i + 1..];
    assert a[i] !in a[..i] && a[i] !in a[i + 1..];
    assert multiset(a) == multiset(a[..i]) + multiset{a[i]} + multiset(a[i + 1..]);
  }

  lemma CountedTwice(r: seq<Entry>, i: nat, j: nat)
    requires i < j < |r| && r[i] == r[j]
    ensures multiset(r)[r[i]] >= 2
  {
    assert r == r[..i] + [r[i]] + r[i + 1..j] + [r[j]] + r[j + 1..];
  }

  lemma SameMembersDistinct(a: seq<Entry>, r: seq<Entry>)
    requires multiset(a) == multiset(r) && Distinct(a)
    ensures Distinct(r)
  {
    forall i, j | 0 <= i < j < |r| ensures r[i].name != r[j].name {
      assert r[i] in multiset(a) && r[j] in multiset(a);
      if r[i].name == r[j].name {
        SameName(a, r[i], r[j]);
        CountedTwice(r, i, j);
        var k :| 0 <= k < |a| && a[k] == r[i];
        OnceEach(a, k);
      }
    }
  }

  // --- What the box gets -----------------------------------------------------------------------------

  /** Of the density splits at most one fits; of the languages, if there are any, at least one. */
  lemma OneDensitySomeLanguage(entries: seq<Entry>, sel: Selection, t: Text)
    ensures forall a, b | a in entries && b in entries && a.kind == b.kind == Density
              && Fitting(a, entries, sel, t) && Fitting(b, entries, sel, t) :: a == b
    ensures (exists e <- entries :: e.kind == Language)
        ==> exists e <- entries :: e.kind == Language && Fitting(e, entries, sel, t)
  {
    var all := OfKind(entries, Density);
    forall a, b | IsDensityPick(a, entries, sel.density) && IsDensityPick(b, entries, sel.density) ensures a == b {
      var i :| 0 <= i < |all| && all[i] == a && IsPick(all, sel.density, i);
      var j :| 0 <= j < |all| && all[j] == b && IsPick(all, sel.density, j);
      PickIsUnique(all, sel.density, i, j);
    }
    if l :| l in entries && l.kind == Language {
      if s :| s in entries && s.kind == Language && Spoken(s, sel, t) {
        assert Fitting(s, entries, sel, t);
      } else {
        InKind(entries, Language, l);
        var first := OfKind(entries, Language)[0];
        InKind(entries, Language, first);
        assert Fitting(first, entries, sel, t);
      }
    }
  }

  lemma SomeEntry(b: seq<Entry>)
    requires b != []
    ensures exists e :: e in b
  {
    assert b[0] in b;
  }

  /** Strictly increasing names, so a set of entries is listed in one way only. */
  lemma {:induction false} OneListing(a: seq<Entry>, b: seq<Entry>)
    requires Sorted(a) && Distinct(a) && Sorted(b) && Distinct(b)
    requires forall e :: e in a <==> e in b
    ensures a == b
    decreases |a|
  {
    if a == [] {
      if b != [] { SomeEntry(b); }
    } else {
      assert a[0] in b;
      FirstIsFirst(a, b);
      forall e ensures e in a[1..] <==> e in b[1..] {
        if e in a[1..] { assert e in b && e != a[0]; }
        if e in b[1..] { assert e in a && e != b[0]; }
      }
      OneListing(a[1..], b[1..]);
      assert a == [a[0]] + a[1..] && b == [b[0]] + b[1..];
    }
  }

  lemma FirstIsFirst(a: seq<Entry>, b: seq<Entry>)
    requires a != [] && b != [] && Sorted(a) && Distinct(a) && Sorted(b) && Distinct(b)
    requires forall e :: e in a <==> e in b
    ensures a[0] == b[0]
  {
    assert a[0] in b && b[0] in a;
    var i :| 0 <= i < |b| && b[i] == a[0];
    var j :| 0 <= j < |a| && a[j] == b[0];
    if i > 0 && j > 0 { OneComesFirst(a[0].name, b[0].name); }
  }

  /** What a bundle with distinct names installs is determined by the bundle and the box. */
  lemma SelectionIsDetermined(entries: seq<Entry>, sel: Selection, t: Text, r: Result, other: Result)
    requires Distinct(entries) && Selected(entries, sel, t, r) && Selected(entries, sel, t, other)
    ensures r == other
  {
    if r.Ok? {
      forall e ensures e in r.entries <==> e in other.entries {
        SelectionIsExact(entries, sel, t, r, e);
        SelectionIsExact(entries, sel, t, other, e);
      }
      OneListing(r.entries, other.entries);
    }
  }

  /** A bundle that is only a `base.apk` installs it, on every box. */
  lemma WrappedPackageIsSelected(sel: Selection, t: Text, r: Result)
    requires t.lower("base.apk") == "base.apk"
    requires Selected([Classify("base.apk", t)], sel, t, r)
    ensures r == Ok([Classify("base.apk", t)])
  {
    var e := Entry("base.apk", "", Base);
    assert Classify("base.apk", t) == e;
    OneBase(e, sel, t, r);
  }

  lemma OneOfItsKind(e: Entry, sel: Selection, t: Text)
    requires e.kind == Base
    ensures OfKind([e], Base) == [e] && OfKind([e], Abi) == []
    ensures Fitting(e, [e], sel, t)
  {
    hide IsDensityPick, IsLanguagePick, Fits;
    assert [e] == [] + [e];
    OneMore([], e, Base);
    OneMore([], e, Abi);
    hide OfKind;
  }

  lemma OneIsListed(e: Entry)
    ensures Sorted([e]) && Distinct([e])
  {
  }

  lemma OneBase(e: Entry, sel: Selection, t: Text, r: Result)
    requires e.kind == Base && Selected([e], sel, t, r)
    ensures r == Ok([e])
  {
    hide Fitting, Forced, Sorted, Distinct, OfKind, Fits;
    OneOfItsKind(e, sel, t);
    OneIsListed(e);
    assert e in [e] && e in r.entries;
    OneListing(r.entries, [e]);
  }
}
