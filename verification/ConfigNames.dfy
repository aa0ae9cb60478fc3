// What each of the twelve placeholder names stands for, from the template to
// the rendered JSON, and exactly which templates the save-time check accepts.

module ConfigNames {
  import opened Options
  import opened Json
  import opened ConfigTemplate

  const QUOTE: Unit := 0x22
  const BACKSLASH: Unit := 0x5c

  /** Text that means itself inside a JSON string and holds no brace. */
  predicate IsPlain(t: Text) {
    forall u | u in t :: u >= 0x20 && u !in {QUOTE, BACKSLASH, OPEN, CLOSE}
  }

  /** A template that is one JSON string with one placeholder in it. */
  function OneString(pre: Text, name: Text, post: Text): Text {
    [QUOTE] + pre + [OPEN, OPEN] + name + [CLOSE, CLOSE] + post + [QUOTE]
  }

  // --- The template in pieces --------------------------------------------------------------------

  lemma PlainStep(t: Text, i: nat)
    requires i < |t| && t[i] != OPEN
    ensures Pieces(t, i) == [Code(t[i])] + Pieces(t, i + 1)
  {
  }

  lemma Regroup(a: seq<Sym>, b: seq<Sym>, c: seq<Sym>)
    ensures a + (b + c) == a + b + c
  {
  }

  lemma CodesFrom(t: Text, i: nat, j: nat)
    requires i < j <= |t|
    ensures Codes(t[i..j]) == [Code(t[i])] + Codes(t[i + 1..j])
  {
  }

  lemma {:induction false} PlainPieces(t: Text, i: nat, j: nat)
    requires i <= j <= |t| && forall k | i <= k < j :: t[k] != OPEN
    ensures Pieces(t, i) == Codes(t[i..j]) + Pieces(t, j)
    decreases j - i
  {
    hide Pieces, Codes;
    if i == j {
      assert t[i..j] == [];
      NoCodes(Pieces(t, j));
    } else {
      PlainPieces(t, i + 1, j);
      PlainStep(t, i);
      CodesFrom(t, i, j);
      Regroup([Code(t[i])], Codes(t[i + 1..j]), Pieces(t, j));
    }
  }

  lemma NoCodes(s: seq<Sym>)
    ensures Codes([]) + s == s
  {
  }

  /** A name as it can stand between the braces. */
  predicate IsName(name: Text) {
    name != [] && !IsBlank(name[0]) && !IsBlank(name[|name| - 1]) && forall u | u in name :: u !in {OPEN, CLOSE}
  }

  /** What stands between the braces of a token. */
  lemma InBraces(t: Text, i: nat, name: Text)
    requires i + 4 + |name| <= |t| && t[i..i + 4 + |name|] == [OPEN, OPEN] + name + [CLOSE, CLOSE]
    ensures t[i + 2..i + 2 + |name|] == name
    ensures t[i] == OPEN && t[i + 1] == OPEN && t[i + |name| + 2] == CLOSE && t[i + |name| + 3] == CLOSE
  {
    var token := t[i..i + 4 + |name|];
    assert t[i] == token[0] && t[i + 1] == token[1];
    assert t[i + |name| + 2] == token[|name| + 2] && t[i + |name| + 3] == token[|name| + 3];
    forall k | 0 <= k < |name| ensures t[i + 2 + k] == name[k] {
      assert t[i + 2 + k] == token[k + 2];
    }
  }

  lemma TokenPiece(t: Text, i: nat, name: Text)
    requires IsName(name) && i + 4 + |name| <= |t|
    requires t[i..i + 4 + |name|] == [OPEN, OPEN] + name + [CLOSE, CLOSE]
    ensures Pieces(t, i) == [Hole(name)] + Pieces(t, i + 4 + |name|)
  {
    hide TokenEnd, Pieces, IsBlank;
    var n := |name|;
    InBraces(t, i, name);
    forall k | i + 2 <= k < i + n + 2 ensures t[k] !in {OPEN, CLOSE} {
      assert t[k] == t[i + 2..i + 2 + n][k - i - 2] && name[k - i - 2] in name;
    }
    TokenIsTheMatch(t, i, i + 4 + n);
    Trimmed(name);
    TokenStep(t, i);
  }

  lemma Trimmed(name: Text)
    requires IsName(name)
    ensures Trim(name) == name
  {
  }

  lemma TokenStep(t: Text, i: nat)
    requires i < |t| && TokenEnd(t, i).Some?
    ensures Pieces(t, i) == [Hole(NameAt(t, i))] + Pieces(t, TokenEnd(t, i).value)
  {
  }

  function Body(pre: Text, name: Text, post: Text): seq<Sym> {
    Codes(pre) + [Hole(name)] + Codes(post)
  }

  lemma OneStringPieces(pre: Text, name: Text, post: Text)
    requires IsPlain(pre) && IsPlain(post) && IsName(name)
    ensures Pieces(OneString(pre, name, post), 0) == [Code(QUOTE)] + Body(pre, name, post) + [Code(QUOTE)]
  {
    hide IsName, IsBlank, TokenEnd, Pieces, Codes;
    var t := OneString(pre, name, post);
    var i := 1 + |pre|;
    var j := i + 4 + |name|;
    assert t[..i] == [QUOTE] + pre;
    assert t[i..j] == [OPEN, OPEN] + name + [CLOSE, CLOSE];
    assert t[j..] == post + [QUOTE];
    forall k | 0 <= k < i ensures t[k] != OPEN {
      assert k > 0 ==> t[k] == pre[k - 1] && pre[k - 1] in pre;
    }
    forall k | j <= k < |t| ensures t[k] != OPEN {
      assert k < |t| - 1 ==> t[k] == post[k - j] && post[k - j] in post;
    }
    PlainPieces(t, 0, i);
    TokenPiece(t, i, name);
    PlainPieces(t, j, |t|);
    PiecesAtEnd(t);
    assert t[0..i] == [QUOTE] + pre && t[j..|t|] == post + [QUOTE];
    CodesAppend([QUOTE], pre);
    CodesAppend(post, [QUOTE]);
    CodesOfOne(QUOTE);
  }

  lemma PiecesAtEnd(t: Text)
    ensures Pieces(t, |t|) == []
  {
  }

  lemma CodesOfOne(u: Unit)
    ensures Codes([u]) == [Code(u)]
  {
  }

  // --- The document it is ---------------------------------------------------------------------------

  predicate StandsInString(s: Sym) {
    s.Hole? || (s.u >= 0x20 && s.u !in {QUOTE, BACKSLASH})
  }

  lemma {:induction false} RunInString(body: seq<Sym>, s: seq<Sym>)
    requires forall x | x in s :: StandsInString(x)
    ensures Run(Machine(InString(body), []), s) == Machine(InString(body + s), [])
    decreases |s|
  {
    if s == [] {
      assert body + s == body;
    } else {
      assert s[0] in s && forall x | x in s[1..] :: x in s;
      RunInString(body + [s[0]], s[1..]);
      assert body + [s[0]] + s[1..] == body + s;
    }
  }

  lemma QuotedDocument(body: seq<Sym>)
    requires forall x | x in body :: StandsInString(x)
    ensures Document([Code(QUOTE)] + body + [Code(QUOTE)]) == Some(String(body))
  {
    var s := [Code(QUOTE)] + body + [Code(QUOTE)];
    var inside := Machine(InString([]), []);
    assert s[0] == Code(QUOTE) && s[1..] == body + [Code(QUOTE)];
    assert Step(START, s[0]) == inside;
    RunAppend(inside, body, [Code(QUOTE)]);
    RunInString([], body);
    assert [] + body == body;
    ClosingQuote(body);
    assert Run(START, s) == Machine(Between, [Str(body)]);
    assert [Str(body)][1..] == [];
  }

  lemma ClosingQuote(body: seq<Sym>)
    ensures Run(Machine(InString(body), []), [Code(QUOTE)]) == Machine(Between, [Str(body)])
  {
    assert [Code(QUOTE)][1..] == [];
    assert [] + [Str(body)] == [Str(body)];
  }

  lemma {:induction false} FillCodes(t: Text, f: Filling)
    ensures Fill(Codes(t), f) == Codes(t)
  {
    if t != [] {
      FillCodes(t[1..], f);
      assert Codes(t)[1..] == Codes(t[1..]);
    }
  }

  lemma FillBody(pre: Text, name: Text, post: Text, f: Filling)
    ensures Fill(Body(pre, name, post), f) == Codes(pre + f(name) + post)
  {
    FillAppend(Codes(pre) + [Hole(name)], Codes(post), f);
    FillAppend(Codes(pre), [Hole(name)], f);
    FillCodes(pre, f);
    FillCodes(post, f);
    assert Fill([Hole(name)], f) == Codes(f(name)) by { assert [Hole(name)][1..] == []; }
    CodesAppend(pre, f(name));
    CodesAppend(pre + f(name), post);
  }

  lemma {:induction false} NamesOfCodes(t: Text, s: seq<Sym>)
    ensures Names(Codes(t) + s) == Names(s)
  {
    if t == [] {
      assert Codes(t) + s == s;
    } else {
      NamesOfCodes(t[1..], s);
      assert (Codes(t) + s)[1..] == Codes(t[1..]) + s;
    }
  }

  lemma OneStringNames(pre: Text, name: Text, post: Text)
    requires IsPlain(pre) && IsPlain(post) && IsName(name)
    ensures Names(Pieces(OneString(pre, name, post), 0)) == [name]
  {
    hide Pieces;
    OneStringPieces(pre, name, post);
    var rest := Codes(post) + [Code(QUOTE)];
    CodesAppend([QUOTE], pre);
    CodesOfOne(QUOTE);
    assert [Code(QUOTE)] + Body(pre, name, post) + [Code(QUOTE)] == Codes([QUOTE] + pre) + ([Hole(name)] + rest);
    NamesOfCodes([QUOTE] + pre, [Hole(name)] + rest);
    assert ([Hole(name)] + rest)[1..] == rest;
    CodesAppend(post, [QUOTE]);
    NamesOfCodes(post + [QUOTE], []);
    assert Codes(post + [QUOTE]) + [] == rest;
  }

  // --- What a name stands for ------------------------------------------------------------------------

  /** The template renders, and what it renders reads as this value between the two plain texts. */
  ghost predicate Shows(pre: Text, name: Text, post: Text, d: Device, value: Text) {
    && Render(OneString(pre, name, post), d).Rendered?
    && JsonParse(Render(OneString(pre, name, post), d).text) == Some(String(Codes(pre + value + post)))
  }

  /** The template is refused because the box has nothing for the name. */
  predicate HasNone(pre: Text, name: Text, post: Text, d: Device) {
    Render(OneString(pre, name, post), d) == EmptyPlaceholder([name])
  }

  lemma PickOne(name: Text, p: Text -> bool)
    ensures Pick([name], p) == if p(name) then [name] else []
  {
    assert [name][1..] == [];
  }

  lemma RendersOne(pre: Text, name: Text, post: Text, d: Device)
    requires IsPlain(pre) && IsPlain(post) && IsName(name)
    ensures match Read(name, d)
      case None => Render(OneString(pre, name, post), d) == UnknownPlaceholder([name])
      case Some(value) =>
        if value.Some? && value.value != [] then Shows(pre, name, post, d, value.value) else HasNone(pre, name, post, d)
  {
    hide Read, Pieces, IsName, Replace;
    OneStringNames(pre, name, post);
    PickOne(name, IsUnread(d));
    PickOne(name, IsMissing(d));
    if Read(name, d).Some? && Read(name, d).value.Some? && Read(name, d).value.value != [] {
      var f := ValueOf(d);
      OneStringPieces(pre, name, post);
      assert forall x | x in Body(pre, name, post) :: StandsInString(x) by { BodyStands(pre, name, post); }
      QuotedDocument(Body(pre, name, post));
      FilledDocument(Pieces(OneString(pre, name, post), 0), f);
      FillBody(pre, name, post, f);
    }
  }

  lemma BodyStands(pre: Text, name: Text, post: Text)
    requires IsPlain(pre) && IsPlain(post)
    ensures forall x | x in Body(pre, name, post) :: StandsInString(x)
  {
    forall x | x in Body(pre, name, post) ensures StandsInString(x) {
      if x in Codes(pre) {
        assert x.u in pre;
      } else if x in Codes(post) {
        assert x.u in post;
      }
    }
  }

  /** The name is letters and dots. */
  predicate IsDotted(s: string) {
    s != "" && forall c | c in s :: 'a' <= c <= 'z' || 'A' <= c <= 'Z' || c == '.'
  }

  lemma DottedIsName(s: string)
    requires IsDotted(s)
    ensures IsName(Ascii(s))
  {
    forall u | u in Ascii(s) ensures u == 0x2e || 0x41 <= u <= 0x5a || 0x61 <= u <= 0x7a {
      var i :| 0 <= i < |Ascii(s)| && Ascii(s)[i] == u;
      assert s[i] in s;
    }
    assert Ascii(s)[0] in Ascii(s) && Ascii(s)[|s| - 1] in Ascii(s);
  }

  /** The box shows this value for the name, or is refused for having none. */
  ghost predicate StandsFor(pre: Text, name: string, post: Text, d: Device, value: Option<Text>) {
    if value.Some? && value.value != [] then Shows(pre, Ascii(name), post, d, value.value)
    else HasNone(pre, Ascii(name), post, d)
  }

  lemma Stands(pre: Text, name: string, post: Text, d: Device, value: Option<Text>)
    requires IsPlain(pre) && IsPlain(post) && IsDotted(name) && Read(Ascii(name), d) == Some(value)
    ensures StandsFor(pre, name, post, d, value)
  {
    hide Shows, HasNone, Read, IsName;
    DottedIsName(name);
    RendersOne(pre, Ascii(name), post, d);
  }

  lemma DottedNames()
    ensures IsDotted("device.id") && IsDotted("device.name") && IsDotted("device.serial") && IsDotted("device.model")
  {
  }

  lemma LongDottedNames()
    ensures IsDotted("device.manufacturer") && IsDotted("device.androidVersion") && IsDotted("device.rotomDeviceId")
  {
  }

  lemma OtherDottedNames()
    ensures IsDotted("device.abi") && IsDotted("device.localIp") && IsDotted("device.publicIp")
    ensures IsDotted("device.rotomOrigin") && IsDotted("group.name")
  {
  }

  /** The hub reads each name from the field of that name. */
  lemma Fields(d: Device)
    ensures Read(Ascii("device.id"), d) == Some(Some(d.id))
    ensures Read(Ascii("device.name"), d) == Some(Some(d.name))
    ensures Read(Ascii("device.serial"), d) == Some(Some(d.serial))
    ensures Read(Ascii("device.model"), d) == Some(d.model)
    ensures Read(Ascii("device.manufacturer"), d) == Some(d.manufacturer)
    ensures Read(Ascii("device.androidVersion"), d) == Some(d.androidVersion)
    ensures Read(Ascii("device.abi"), d) == Some(d.abi)
    ensures Read(Ascii("device.localIp"), d) == Some(d.localIp)
    ensures Read(Ascii("device.publicIp"), d) == Some(d.publicIp)
    ensures Read(Ascii("device.rotomOrigin"), d) == Some(d.rotomOrigin)
    ensures Read(Ascii("device.rotomDeviceId"), d) == Some(d.rotomDeviceId)
    ensures Read(Ascii("group.name"), d) == Some(match d.group case None => None case Some(group) => Some(group.name))
  {
    assert Ascii("group.name")[0] != Ascii("device.abi")[0];
    var lengths := (|Ascii("device.id")|, |Ascii("device.name")|, |Ascii("device.serial")|, |Ascii("device.model")|,
      |Ascii("device.manufacturer")|, |Ascii("device.androidVersion")|, |Ascii("device.abi")|, |Ascii("device.localIp")|,
      |Ascii("device.publicIp")|, |Ascii("device.rotomOrigin")|, |Ascii("device.rotomDeviceId")|, |Ascii("group.name")|);
    assert lengths == (9, 11, 13, 12, 19, 21, 10, 14, 15, 18, 20, 10);
  }

  /**
   * What every placeholder stands for, from the template to the document. A
   * template that is one JSON string with one placeholder renders, for any
   * box, to the JSON string with the box's own field of that name in its
   * place, unit for unit; and is refused exactly when the field is empty.
   */
  lemma NamesStandForFields(pre: Text, post: Text, d: Device)
    requires IsPlain(pre) && IsPlain(post)
    ensures StandsFor(pre, "device.id", post, d, Some(d.id))
    ensures StandsFor(pre, "device.name", post, d, Some(d.name))
    ensures StandsFor(pre, "device.serial", post, d, Some(d.serial))
    ensures StandsFor(pre, "device.model", post, d, d.model)
    ensures StandsFor(pre, "device.manufacturer", post, d, d.manufacturer)
    ensures StandsFor(pre, "device.androidVersion", post, d, d.androidVersion)
    ensures StandsFor(pre, "device.abi", post, d, d.abi)
    ensures StandsFor(pre, "device.localIp", post, d, d.localIp)
    ensures StandsFor(pre, "device.publicIp", post, d, d.publicIp)
    ensures StandsFor(pre, "device.rotomOrigin", post, d, d.rotomOrigin)
    ensures StandsFor(pre, "device.rotomDeviceId", post, d, d.rotomDeviceId)
    ensures StandsFor(pre, "group.name", post, d,
      match d.group case None => None case Some(group) => Some(group.name))
  {
    hide StandsFor, Read, Ascii, IsPlain, IsDotted;
    Fields(d);
    DottedNames();
    LongDottedNames();
    OtherDottedNames();
    Stands(pre, "device.id", post, d, Some(d.id));
    Stands(pre, "device.name", post, d, Some(d.name));
    Stands(pre, "device.serial", post, d, Some(d.serial));
    Stands(pre, "device.model", post, d, d.model);
    Stands(pre, "device.manufacturer", post, d, d.manufacturer);
    Stands(pre, "device.androidVersion", post, d, d.androidVersion);
    Stands(pre, "device.abi", post, d, d.abi);
    Stands(pre, "device.localIp", post, d, d.localIp);
    Stands(pre, "device.publicIp", post, d, d.publicIp);
    Stands(pre, "device.rotomOrigin", post, d, d.rotomOrigin);
    Stands(pre, "device.rotomDeviceId", post, d, d.rotomDeviceId);
    Stands(pre, "group.name", post, d, match d.group case None => None case Some(group) => Some(group.name));
  }

  /** The twelve names there are. */
  predicate IsKnown(name: Text) {
    || name == Ascii("device.id") || name == Ascii("device.name") || name == Ascii("device.serial")
    || name == Ascii("device.model") || name == Ascii("device.manufacturer") || name == Ascii("device.androidVersion")
    || name == Ascii("device.abi") || name == Ascii("device.localIp") || name == Ascii("device.publicIp")
    || name == Ascii("device.rotomOrigin") || name == Ascii("device.rotomDeviceId") || name == Ascii("group.name")
  }

  /** Any other name is refused as unknown. */
  lemma OtherNamesAreUnknown(pre: Text, name: Text, post: Text, d: Device)
    requires IsPlain(pre) && IsPlain(post) && IsName(name) && !IsKnown(name)
    ensures Render(OneString(pre, name, post), d) == UnknownPlaceholder([name])
  {
    hide Ascii;
    RendersOne(pre, name, post, d);
  }

  // --- When the save-time check accepts ---------------------------------------------------------------

  lemma KnownIsListed(name: Text, d: Device)
    ensures IsKnown(name) <==> name in CONFIG_PLACEHOLDERS
  {
    TablesAgree(name, d);
  }

  /**
   * The save-time check accepts a template exactly when every name in it is
   * one of the twelve and it is a JSON document with its placeholders inside
   * strings only.
   */
  lemma AcceptedIff(t: Text)
    ensures CheckConfigTemplate(t) == Accepted <==>
      (forall name | name in Names(Pieces(t, 0)) :: IsKnown(name)) && Document(Pieces(t, 0)).Some?
  {
    hide Pieces, Names, Document, IsKnown;
    var s, names := Pieces(t, 0), Names(Pieces(t, 0));
    PickNone(names, IsUnknown());
    forall name | name in names ensures IsKnown(name) <==> !IsUnknown()(name) {
      KnownIsListed(name, NOBODY);
    }
    if CheckConfigTemplate(t) == Accepted {
      AcceptedIsDocument(t);
    }
    if Document(s).Some? {
      StandInNeedsNoEscape();
      ReplaceSame(s, StandIns(), Escaping(StandIns()));
      FilledDocument(s, StandIns());
    }
  }

  /**
   * Why a template is refused for a box: a name that is none of the twelve
   * comes first, then a name for which the box has nothing; and it is rendered
   * exactly when there is neither.
   */
  lemma RefusedIff(t: Text, d: Device)
    ensures var names := Names(Pieces(t, 0));
      && (Render(t, d).UnknownPlaceholder? <==> exists name :: name in names && !IsKnown(name))
      && (Render(t, d).EmptyPlaceholder? <==>
            (forall name | name in names :: IsKnown(name)) && exists name :: name in names && Missing(name, d))
      && (Render(t, d).Rendered? <==> forall name | name in names :: IsKnown(name) && !Missing(name, d))
  {
    hide Pieces, Names, IsKnown, Replace, Missing, Read;
    var names := Names(Pieces(t, 0));
    PickNone(names, IsUnread(d));
    PickNone(names, IsMissing(d));
    forall name | name in names ensures IsKnown(name) <==> !IsUnread(d)(name) {
      KnownIsListed(name, d);
      TablesAgree(name, d);
    }
  }

  /** What is pushed to a box: nothing without a path and a template of its group, else the rendered text at that path. */
  lemma PushedIff(d: Device)
    ensures RenderConfig(d) == RenderOutcome.Nothing <==>
      || d.group.None?
      || d.group.value.mitmConfigPath in {None, Some([])}
      || d.group.value.mitmConfig in {None, Some([])}
    ensures RenderConfig(d).File? ==>
      && Render(d.group.value.mitmConfig.value, d) == Rendered(RenderConfig(d).file.content)
      && RenderConfig(d).file.path == d.group.value.mitmConfigPath.value
      && JsonParse(RenderConfig(d).file.content).Some?
  {
    hide Render, JsonParse;
  }

  const NOBODY := Device([], [], [], None, None, None, None, None, None, None, None, None)

  // --- What a rendering depends on ----------------------------------------------------------------------

  /** The two boxes have the same value for the name. */
  predicate AgreeOn(name: Text, d: Device, e: Device) {
    && (name == Ascii("device.id") ==> d.id == e.id)
    && (name == Ascii("device.name") ==> d.name == e.name)
    && (name == Ascii("device.serial") ==> d.serial == e.serial)
    && (name == Ascii("device.model") ==> d.model == e.model)
    && (name == Ascii("device.manufacturer") ==> d.manufacturer == e.manufacturer)
    && (name == Ascii("device.androidVersion") ==> d.androidVersion == e.androidVersion)
    && (name == Ascii("device.abi") ==> d.abi == e.abi)
    && (name == Ascii("device.localIp") ==> d.localIp == e.localIp)
    && (name == Ascii("device.publicIp") ==> d.publicIp == e.publicIp)
    && (name == Ascii("device.rotomOrigin") ==> d.rotomOrigin == e.rotomOrigin)
    && (name == Ascii("device.rotomDeviceId") ==> d.rotomDeviceId == e.rotomDeviceId)
    && (name == Ascii("group.name") ==>
          d.group.Some? == e.group.Some? && (d.group.Some? ==> d.group.value.name == e.group.value.name))
  }

  lemma AgreedReads(name: Text, d: Device, e: Device)
    requires AgreeOn(name, d, e)
    ensures Read(name, d) == Read(name, e)
  {
    hide Ascii;
  }

  /** What the substitution takes from a name is what the table reads for it. */
  lemma TakesWhatIsRead(name: Text, d: Device)
    ensures IsUnread(d)(name) == Read(name, d).None?
    ensures IsMissing(d)(name) == (Read(name, d) in {Some(None), Some(Some([]))})
    ensures Escaping(ValueOf(d))(name)
         == EscapeForJsonString(match Read(name, d) case Some(Some(v)) => v case _ => [])
  {
    hide Read, EscapeForJsonString;
  }

  lemma {:induction false} PickSame(names: seq<Text>, p: Text -> bool, q: Text -> bool)
    requires forall name | name in names :: p(name) == q(name)
    ensures Pick(names, p) == Pick(names, q)
  {
    if names != [] {
      assert names[0] in names && forall name | name in names[1..] :: name in names;
      PickSame(names[1..], p, q);
    }
  }

  /**
   * Any template renders alike, or is refused alike, for two boxes that have
   * the same values for the names it uses: nothing else of a box gets into its
   * config.
   */
  lemma SameValuesSameText(t: Text, d: Device, e: Device)
    requires forall name | name in Names(Pieces(t, 0)) :: AgreeOn(name, d, e)
    ensures Render(t, d) == Render(t, e)
  {
    hide Pieces, Names, AgreeOn, Replace, Pick, EscapeForJsonString, Read, IsUnread, IsMissing, Escaping, ValueOf;
    var names := Names(Pieces(t, 0));
    forall name | name in names
      ensures IsUnread(d)(name) == IsUnread(e)(name) && IsMissing(d)(name) == IsMissing(e)(name)
      ensures Escaping(ValueOf(d))(name) == Escaping(ValueOf(e))(name)
    {
      AgreedReads(name, d, e);
      TakesWhatIsRead(name, d);
      TakesWhatIsRead(name, e);
    }
    PickSame(names, IsUnread(d), IsUnread(e));
    PickSame(names, IsMissing(d), IsMissing(e));
    ReplaceSame(Pieces(t, 0), Escaping(ValueOf(d)), Escaping(ValueOf(e)));
  }
}
