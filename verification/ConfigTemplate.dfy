// Config templates: the check at save time, `checkConfigTemplate` of
// apps/web/src/actions/settings.ts, and the substitution at install time,
// `renderTemplate` and `renderConfig` of apps/hub/src/services/deviceConfig.ts.
// What the first accepts, the second cannot break, whatever a box is called.

module ConfigTemplate {
  import opened Options
  import opened Json

  // --- Placeholders ------------------------------------------------------------------

  function Ascii(s: string): Text {
    seq(|s|, i requires 0 <= i < |s| => if s[i] as int < 0x80 then s[i] as int else 0x3f)
  }

  datatype Group = Group(name: Text, mitmConfigPath: Option<Text>, mitmConfig: Option<Text>)

  datatype Device = Device(
    id: Text,
    name: Text,
    serial: Text,
    model: Option<Text>,
    manufacturer: Option<Text>,
    androidVersion: Option<Text>,
    abi: Option<Text>,
    localIp: Option<Text>,
    publicIp: Option<Text>,
    rotomOrigin: Option<Text>,
    rotomDeviceId: Option<Text>,
    group: Option<Group>)

  /** The names the dashboard validates against. */
  const CONFIG_PLACEHOLDERS: seq<Text> := [
    Ascii("device.id"), Ascii("device.name"), Ascii("device.serial"), Ascii("device.model"),
    Ascii("device.manufacturer"), Ascii("device.androidVersion"), Ascii("device.abi"),
    Ascii("device.localIp"), Ascii("device.publicIp"), Ascii("device.rotomOrigin"),
    Ascii("device.rotomDeviceId"), Ascii("group.name")]

  /** The hub's own table: none for a name it does not have, else what the box has for it. */
  function Read(name: Text, d: Device): Option<Option<Text>> {
    if name == Ascii("device.id") then Some(Some(d.id))
    else if name == Ascii("device.name") then Some(Some(d.name))
    else if name == Ascii("device.serial") then Some(Some(d.serial))
    else if name == Ascii("device.model") then Some(d.model)
    else if name == Ascii("device.manufacturer") then Some(d.manufacturer)
    else if name == Ascii("device.androidVersion") then Some(d.androidVersion)
    else if name == Ascii("device.abi") then Some(d.abi)
    else if name == Ascii("device.localIp") then Some(d.localIp)
    else if name == Ascii("device.publicIp") then Some(d.publicIp)
    else if name == Ascii("device.rotomOrigin") then Some(d.rotomOrigin)
    else if name == Ascii("device.rotomDeviceId") then Some(d.rotomDeviceId)
    else if name == Ascii("group.name") then Some(if d.group.Some? then Some(d.group.value.name) else None)
    else None
  }

  /** The two lists of names, kept in two packages, are one list. */
  lemma TablesAgree(name: Text, d: Device)
    ensures name in CONFIG_PLACEHOLDERS <==> Read(name, d).Some?
  {
    var k := CONFIG_PLACEHOLDERS;
    assert name in k <==>
      name in {k[0], k[1], k[2], k[3], k[4], k[5], k[6], k[7], k[8], k[9], k[10], k[11]};
  }

  predicate Missing(name: Text, d: Device) {
    Read(name, d) == Some(None) || Read(name, d) == Some(Some([]))
  }

  function ValueOf(d: Device): Filling {
    (name: Text) => match Read(name, d) case Some(Some(v)) => v case _ => []
  }

  // --- Finding the tokens ----------------------------------------------------------------

  const OPEN: Unit := 0x7b
  const CLOSE: Unit := 0x7d

  /** First brace at or after `i`, or the end. */
  function BraceAt(t: Text, i: nat): (j: nat)
    requires i <= |t|
    ensures i <= j <= |t|
    ensures j < |t| ==> t[j] in {OPEN, CLOSE}
    ensures forall k | i <= k < j :: t[k] !in {OPEN, CLOSE}
    decreases |t| - i
  {
    if i == |t| || t[i] in {OPEN, CLOSE} then i else BraceAt(t, i + 1)
  }

  /** Where the match of `{{[^{}]*}}` that starts at `i` ends, if there is one. */
  function TokenEnd(t: Text, i: nat): (end: Option<nat>)
    requires i <= |t|
    ensures end.Some? ==> i + 4 <= end.value <= |t|
  {
    if i + 2 <= |t| && t[i] == OPEN && t[i + 1] == OPEN then
      var j := BraceAt(t, i + 2);
      if j + 2 <= |t| && t[j] == CLOSE && t[j + 1] == CLOSE then Some(j + 2) else None
    else None
  }

  /** `end` closes a match of the expression at `i`: two braces, no brace, two braces. */
  predicate IsMatch(t: Text, i: nat, end: nat) {
    && i + 4 <= end <= |t|
    && t[i] == OPEN && t[i + 1] == OPEN && t[end - 2] == CLOSE && t[end - 1] == CLOSE
    && forall k | i + 2 <= k < end - 2 :: t[k] !in {OPEN, CLOSE}
  }

  /** There is at most one match at a place, and it is the one found. */
  lemma TokenIsTheMatch(t: Text, i: nat, end: nat)
    requires i <= |t|
    ensures TokenEnd(t, i) == Some(end) <==> IsMatch(t, i, end)
  {
    if IsMatch(t, i, end) {
      var j := BraceAt(t, i + 2);
      assert t[end - 2] in {OPEN, CLOSE};
      assert j == end - 2;
    }
  }

  /** What `String.prototype.trim` strips. */
  predicate IsBlank(u: Unit) {
    || 0x09 <= u <= 0x0d || u in {0x20, 0xa0, 0x1680, 0x202f, 0x205f, 0x3000, 0xfeff}
    || 0x2000 <= u <= 0x200a || u in {0x2028, 0x2029}
  }

  function Trim(t: Text): Text
    decreases |t|
  {
    if t == [] then []
    else if IsBlank(t[0]) then Trim(t[1..])
    else if IsBlank(t[|t| - 1]) then Trim(t[..|t| - 1])
    else t
  }

  function NameAt(t: Text, i: nat): Text
    requires i <= |t| && TokenEnd(t, i).Some?
  {
    Trim(t[i + 2..TokenEnd(t, i).value - 2])
  }

  /** The template as text with holes, from `i` on: leftmost matches, none overlapping. */
  function Pieces(t: Text, i: nat): seq<Sym>
    requires i <= |t|
    decreases |t| - i
  {
    if i == |t| then []
    else match TokenEnd(t, i)
      case Some(end) => [Hole(NameAt(t, i))] + Pieces(t, end)
      case None => [Code(t[i])] + Pieces(t, i + 1)
  }

  /** The names used, in order, from `i` on. */
  function Names(s: seq<Sym>): seq<Text> {
    if s == [] then []
    else (match s[0] case Hole(name) => [name] case Code(_) => []) + Names(s[1..])
  }

  /** The text with each hole replaced. */
  function Replace(s: seq<Sym>, g: Filling): Text {
    if s == [] then []
    else (match s[0] case Hole(name) => g(name) case Code(u) => [u]) + Replace(s[1..], g)
  }

  // --- The check at save time ---------------------------------------------------------------

  const STAND_IN: Text := Ascii("PLACEHOLDER")

  function StandIns(): Filling { (name: Text) => STAND_IN }

  datatype Check = Accepted | UnknownNames(names: seq<Text>) | NotJson

  /** The names a judgement picks out, in order. */
  function Pick(names: seq<Text>, p: Text -> bool): seq<Text> {
    if names == [] then []
    else (if p(names[0]) then [names[0]] else []) + Pick(names[1..], p)
  }

  lemma {:induction false} PickNone(names: seq<Text>, p: Text -> bool)
    ensures Pick(names, p) == [] <==> forall n | n in names :: !p(n)
  {
    if names != [] {
      PickNone(names[1..], p);
      assert forall n :: n in names <==> n == names[0] || n in names[1..];
    }
  }

  function IsUnknown(): Text -> bool {
    (name: Text) => name !in CONFIG_PLACEHOLDERS
  }

  function CheckConfigTemplate(t: Text): Check {
    var unknown := Pick(Names(Pieces(t, 0)), IsUnknown());
    if unknown != [] then UnknownNames(unknown)
    else if JsonParse(Replace(Pieces(t, 0), StandIns())).None? then NotJson
    else Accepted
  }

  // --- Escaping ------------------------------------------------------------------------------

  predicate IsHigh(u: Unit) { 0xd800 <= u <= 0xdbff }
  predicate IsLow(u: Unit) { 0xdc00 <= u <= 0xdfff }

  function HexDigit(h: Hexit): Unit {
    if h < 10 then 0x30 + h else 0x61 + h - 10
  }

  function EscapeUnit(u: Unit): Text {
    if u == 0x08 then [0x5c, 0x62]
    else if u == 0x09 then [0x5c, 0x74]
    else if u == 0x0a then [0x5c, 0x6e]
    else if u == 0x0c then [0x5c, 0x66]
    else if u == 0x0d then [0x5c, 0x72]
    else if u in {0x22, 0x5c} then [0x5c, u]
    else if u < 0x20 || IsHigh(u) || IsLow(u) then
      [0x5c, 0x75, HexDigit(u / 16 / 16 / 16), HexDigit(u / 16 / 16 % 16), HexDigit(u / 16 % 16), HexDigit(u % 16)]
    else [u]
  }

  /** `JSON.stringify(value).slice(1, -1)`: surrogate pairs stand, lone surrogates are escaped. */
  function EscapeForJsonString(v: Text): Text {
    if v == [] then []
    else if |v| > 1 && IsHigh(v[0]) && IsLow(v[1]) then [v[0], v[1]] + EscapeForJsonString(v[2..])
    else EscapeUnit(v[0]) + EscapeForJsonString(v[1..])
  }

  // --- The substitution at install time ----------------------------------------------------------

  datatype Rendered = Rendered(text: Text) | UnknownPlaceholder(names: seq<Text>) | EmptyPlaceholder(names: seq<Text>)

  function IsUnread(d: Device): Text -> bool {
    (name: Text) => Read(name, d).None?
  }

  function IsMissing(d: Device): Text -> bool {
    (name: Text) => Missing(name, d)
  }

  function Escaping(f: Filling): Filling {
    (name: Text) => EscapeForJsonString(f(name))
  }

  function Render(t: Text, d: Device): Rendered {
    var pieces := Pieces(t, 0);
    var unknown, empty := Pick(Names(pieces), IsUnread(d)), Pick(Names(pieces), IsMissing(d));
    if unknown != [] then UnknownPlaceholder(unknown)
    else if empty != [] then EmptyPlaceholder(empty)
    else Rendered(Replace(pieces, Escaping(ValueOf(d))))
  }

  lemma PickFirst(name: Text, rest: seq<Text>, p: Text -> bool)
    ensures Pick([name] + rest, p) == (if p(name) then [name] else []) + Pick(rest, p)
  {
    assert ([name] + rest)[1..] == rest;
  }

  lemma PickOn(all: seq<Text>, name: Text, rest: seq<Text>, p: Text -> bool, done: seq<Text>, done': seq<Text>)
    requires Pick(all, p) == done + Pick([name] + rest, p)
    requires done' == done + (if p(name) then [name] else [])
    ensures Pick(all, p) == done' + Pick(rest, p)
  {
    PickFirst(name, rest, p);
  }

  /** One placeholder: `unknown` and `empty` grow by it, or the text does. */
  method Substitute(t: Text, i: nat, end: nat, d: Device, unknown: seq<Text>, empty: seq<Text>, text: Text)
    returns (unknown': seq<Text>, empty': seq<Text>, text': Text)
    requires i <= |t| && TokenEnd(t, i) == Some(end)
    ensures var name := NameAt(t, i);
      && unknown' == unknown + (if IsUnread(d)(name) then [name] else [])
      && empty' == empty + (if IsMissing(d)(name) then [name] else [])
      && (!IsUnread(d)(name) && !IsMissing(d)(name) ==> text' == text + Escaping(ValueOf(d))(name))
  {
    var name := NameAt(t, i);
    var read := Read(name, d);
    if read.None? {
      return unknown + [name], empty, text + t[i..end];
    }
    if read.value.None? || read.value.value == [] {
      return unknown, empty + [name], text + t[i..end];
    }
    return unknown, empty, text + EscapeForJsonString(read.value.value);
  }

  lemma NextPlain(t: Text, i: nat, f: Filling)
    requires i < |t| && TokenEnd(t, i).None?
    ensures Names(Pieces(t, i)) == Names(Pieces(t, i + 1))
    ensures Replace(Pieces(t, i), f) == [t[i]] + Replace(Pieces(t, i + 1), f)
  {
    assert Pieces(t, i)[1..] == Pieces(t, i + 1);
  }

  lemma NextToken(t: Text, i: nat, f: Filling)
    requires i < |t| && TokenEnd(t, i).Some?
    ensures var end := TokenEnd(t, i).value;
      && Names(Pieces(t, i)) == [NameAt(t, i)] + Names(Pieces(t, end))
      && Replace(Pieces(t, i), f) == f(NameAt(t, i)) + Replace(Pieces(t, end), f)
  {
    assert Pieces(t, i)[1..] == Pieces(t, TokenEnd(t, i).value);
  }

  /** What the callback has collected so far, against what is still to come. */
  ghost predicate Collected(
    t: Text, i: nat, p: Text -> bool, q: Text -> bool, f: Filling,
    unknown: seq<Text>, empty: seq<Text>, text: Text)
    requires i <= |t|
  {
    var all, rest := Pieces(t, 0), Pieces(t, i);
    && Pick(Names(all), p) == unknown + Pick(Names(rest), p)
    && Pick(Names(all), q) == empty + Pick(Names(rest), q)
    && (unknown == [] && empty == [] ==> Replace(all, f) == text + Replace(rest, f))
  }

  lemma CollectPlain(
    t: Text, i: nat, p: Text -> bool, q: Text -> bool, f: Filling,
    unknown: seq<Text>, empty: seq<Text>, text: Text)
    requires i < |t| && TokenEnd(t, i).None? && Collected(t, i, p, q, f, unknown, empty, text)
    ensures Collected(t, i + 1, p, q, f, unknown, empty, text + [t[i]])
  {
    NextPlain(t, i, f);
  }

  lemma CollectToken(
    t: Text, i: nat, p: Text -> bool, q: Text -> bool, f: Filling,
    unknown: seq<Text>, empty: seq<Text>, text: Text,
    unknown': seq<Text>, empty': seq<Text>, text': Text)
    requires i < |t| && TokenEnd(t, i).Some? && Collected(t, i, p, q, f, unknown, empty, text)
    requires var name := NameAt(t, i);
      && unknown' == unknown + (if p(name) then [name] else [])
      && empty' == empty + (if q(name) then [name] else [])
      && (!p(name) && !q(name) ==> text' == text + f(name))
    ensures Collected(t, TokenEnd(t, i).value, p, q, f, unknown', empty', text')
  {
    var name, rest := NameAt(t, i), Names(Pieces(t, TokenEnd(t, i).value));
    NextToken(t, i, f);
    PickOn(Names(Pieces(t, 0)), name, rest, p, unknown, unknown');
    PickOn(Names(Pieces(t, 0)), name, rest, q, empty, empty');
    if unknown' == [] && empty' == [] {
      assert unknown == [] && !p(name) && empty == [] && !q(name);
      Regroup(text, f(name), Replace(Pieces(t, TokenEnd(t, i).value), f));
    }
  }

  lemma Regroup(a: Text, b: Text, c: Text)
    ensures a + (b + c) == a + b + c
  {
  }

  lemma CollectStart(t: Text, p: Text -> bool, q: Text -> bool, f: Filling)
    ensures Collected(t, 0, p, q, f, [], [], [])
  {
    assert [] + Replace(Pieces(t, 0), f) == Replace(Pieces(t, 0), f);
  }

  lemma CollectDone(
    t: Text, p: Text -> bool, q: Text -> bool, f: Filling, unknown: seq<Text>, empty: seq<Text>, text: Text)
    requires Collected(t, |t|, p, q, f, unknown, empty, text)
    ensures Pick(Names(Pieces(t, 0)), p) == unknown && Pick(Names(Pieces(t, 0)), q) == empty
    ensures unknown == [] && empty == [] ==> Replace(Pieces(t, 0), f) == text
  {
    assert Pieces(t, |t|) == [];
    assert unknown + [] == unknown && empty + [] == empty && text + [] == text;
  }

  /** `renderTemplate`: the replace callback pushing onto `unknown` and `empty` as it goes. */
  method RenderTemplate(t: Text, d: Device) returns (r: Rendered)
    ensures r == Render(t, d)
  {
    var unknown: seq<Text>, empty: seq<Text>, text: Text := [], [], [];
    ghost var p, q, f := IsUnread(d), IsMissing(d), Escaping(ValueOf(d));
    CollectStart(t, p, q, f);
    var i := 0;
    while i < |t|
      invariant i <= |t| && Collected(t, i, p, q, f, unknown, empty, text)
      decreases |t| - i
    {
      var end := TokenEnd(t, i);
      if end.None? {
        CollectPlain(t, i, p, q, f, unknown, empty, text);
        text := text + [t[i]];
        i := i + 1;
      } else {
        ghost var u, e, x := unknown, empty, text;
        unknown, empty, text := Substitute(t, i, end.value, d, unknown, empty, text);
        CollectToken(t, i, p, q, f, u, e, x, unknown, empty, text);
        i := end.value;
      }
    }
    CollectDone(t, p, q, f, unknown, empty, text);
    if unknown != [] {
      r := UnknownPlaceholder(unknown);
    } else if empty != [] {
      r := EmptyPlaceholder(empty);
    } else {
      r := Rendered(text);
    }
  }

  datatype ConfigFile = ConfigFile(path: Text, content: Text)

  datatype RenderOutcome = Nothing | File(file: ConfigFile) | Refused(why: Rendered) | Broken

  /** `renderConfig`. */
  function RenderConfig(d: Device): RenderOutcome {
    match d.group
    case None => Nothing
    case Some(group) =>
      if group.mitmConfigPath in {None, Some([])} || group.mitmConfig in {None, Some([])} then Nothing
      else
        var rendered := Render(group.mitmConfig.value, d);
        if !rendered.Rendered? then Refused(rendered)
        else if JsonParse(rendered.text).None? then Broken
        else File(ConfigFile(group.mitmConfigPath.value, rendered.text))
  }

  // --- Reading back what was escaped -----------------------------------------------------------------

  lemma HexDigitReads(h: Hexit)
    ensures HexValue(HexDigit(h)) == Some(h)
  {
  }

  lemma FourDigits(u: Unit)
    ensures ((u / 16 / 16 / 16 * 16 + u / 16 / 16 % 16) * 16 + u / 16 % 16) * 16 + u % 16 == u
  {
    var v := u / 16;
    var w := v / 16;
    assert u == 16 * v + u % 16 && v == 16 * w + v % 16 && w == 16 * (w / 16) + w % 16;
  }

  lemma HexEscapeReads(body: seq<Sym>, out: seq<Token>, u: Unit)
    ensures Run(Machine(InString(body), out),
                Codes([0x5c, 0x75, HexDigit(u / 16 / 16 / 16), HexDigit(u / 16 / 16 % 16),
                       HexDigit(u / 16 % 16), HexDigit(u % 16)]))
         == Machine(InString(body + [Code(u)]), out)
  {
    var a, b, c, e := u / 16 / 16 / 16, u / 16 / 16 % 16, u / 16 % 16, u % 16;
    FourDigits(u);
    HexDigitReads(e);
    HexStep(body, out, [], a);
    HexStep(body, out, [] + [a], b);
    HexStep(body, out, [] + [a] + [b], c);
    RunSix(Machine(InString(body), out), Codes([0x5c, 0x75, HexDigit(a), HexDigit(b), HexDigit(c), HexDigit(e)]));
  }

  lemma HexStep(body: seq<Sym>, out: seq<Token>, read: seq<Hexit>, h: Hexit)
    requires |read| < 3
    ensures Step(Machine(Hex(body, read), out), Code(HexDigit(h))) == Machine(Hex(body, read + [h]), out)
  {
    HexDigitReads(h);
  }

  lemma EscapedUnitReads(body: seq<Sym>, out: seq<Token>, u: Unit)
    ensures Run(Machine(InString(body), out), Codes(EscapeUnit(u))) == Machine(InString(body + [Code(u)]), out)
  {
    var m := Machine(InString(body), out);
    var s := Codes(EscapeUnit(u));
    if |s| == 1 {
      assert Run(m, s) == Run(Step(m, s[0]), s[1..]);
    } else if |s| == 2 {
      RunTwo(m, s);
    } else {
      HexEscapeReads(body, out, u);
    }
  }

  lemma RunTwo(m: Machine, s: seq<Sym>)
    requires |s| == 2
    ensures Run(m, s) == Step(Step(m, s[0]), s[1])
  {
    assert Run(m, s) == Run(Step(m, s[0]), s[1..]);
    assert Run(Step(m, s[0]), s[1..]) == Run(Step(Step(m, s[0]), s[1]), []) by { assert s[1..][1..] == []; }
  }

  lemma RunSix(m: Machine, s: seq<Sym>)
    requires |s| == 6
    ensures Run(m, s) == Step(Step(Step(Step(Step(Step(m, s[0]), s[1]), s[2]), s[3]), s[4]), s[5])
  {
    var m1 := Step(m, s[0]);
    var m2 := Step(m1, s[1]);
    var m3 := Step(m2, s[2]);
    var m4 := Step(m3, s[3]);
    var m5 := Step(m4, s[4]);
    assert Run(m, s) == Run(m1, s[1..]);
    assert Run(m1, s[1..]) == Run(m2, s[2..]) by { assert s[1..][1..] == s[2..]; }
    assert Run(m2, s[2..]) == Run(m3, s[3..]) by { assert s[2..][1..] == s[3..]; }
    assert Run(m3, s[3..]) == Run(m4, s[4..]) by { assert s[3..][1..] == s[4..]; }
    assert Run(m4, s[4..]) == Run(m5, s[5..]) by { assert s[4..][1..] == s[5..]; }
    assert Run(m5, s[5..]) == Run(Step(m5, s[5]), []) by { assert s[5..][1..] == []; }
  }

  /** Inside a string literal, escaped text reads back as exactly the value, every unit of it. */
  lemma {:induction false} EscapedReads(body: seq<Sym>, out: seq<Token>, v: Text)
    ensures Run(Machine(InString(body), out), Codes(EscapeForJsonString(v)))
         == Machine(InString(body + Codes(v)), out)
    decreases |v|
  {
    hide EscapeUnit;
    var m := Machine(InString(body), out);
    if v == [] {
      assert body + Codes(v) == body;
    } else if |v| > 1 && IsHigh(v[0]) && IsLow(v[1]) {
      var mid := body + [Code(v[0])] + [Code(v[1])];
      CodesAppend([v[0], v[1]], EscapeForJsonString(v[2..]));
      RunAppend(m, Codes([v[0], v[1]]), Codes(EscapeForJsonString(v[2..])));
      RunTwo(m, Codes([v[0], v[1]]));
      assert Run(m, Codes([v[0], v[1]])) == Machine(InString(mid), out);
      EscapedReads(mid, out, v[2..]);
      assert mid + Codes(v[2..]) == body + Codes(v);
    } else {
      CodesAppend(EscapeUnit(v[0]), EscapeForJsonString(v[1..]));
      RunAppend(m, Codes(EscapeUnit(v[0])), Codes(EscapeForJsonString(v[1..])));
      EscapedUnitReads(body, out, v[0]);
      EscapedReads(body + [Code(v[0])], out, v[1..]);
      assert body + [Code(v[0])] + Codes(v[1..]) == body + Codes(v);
    }
  }

  // --- Template and rendering, side by side ------------------------------------------------------------

  /** The lexer on the filled text, given where it stands on the template. */
  function FillState(s: State, f: Filling): State {
    match s
    case InString(body) => InString(Fill(body, f))
    case Escaped(body) => Escaped(Fill(body, f))
    case Hex(body, read) => Hex(Fill(body, f), read)
    case _ => s
  }

  function FillMachine(m: Machine, f: Filling): Machine {
    if m.Bad? then Bad else Machine(FillState(m.state, f), FillTokens(m.out, f))
  }

  lemma FillTokensAppend(out: seq<Token>, t: Token, f: Filling)
    ensures FillTokens(out + [t], f) == FillTokens(out, f) + [FillToken(t, f)]
  {
  }

  lemma FillCode(body: seq<Sym>, u: Unit, f: Filling)
    ensures Fill(body + [Code(u)], f) == Fill(body, f) + [Code(u)]
  {
    FillAppend(body, [Code(u)], f);
    assert Fill([Code(u)], f) == [Code(u)];
  }

  lemma BeginFilled(out: seq<Token>, u: Unit, f: Filling)
    ensures FillMachine(Begin(out, u), f) == Begin(FillTokens(out, f), u)
  {
    if Punctuation(u).Some? {
      FillTokensAppend(out, Punctuation(u).value, f);
    }
  }

  /** A unit that both texts share moves both lexers alike. */
  lemma StepFilled(m: Machine, u: Unit, f: Filling)
    ensures FillMachine(Step(m, Code(u)), f) == Step(FillMachine(m, f), Code(u))
  {
    hide HexValue, Unescape;
    if m.Machine? {
      match m.state
      case Between => BeginFilled(m.out, u, f);
      case InWord(w, _) => FillTokensAppend(m.out, Word(w), f);
      case InNumber(_, digits) =>
        FillTokensAppend(m.out, Num(digits), f);
        BeginFilled(m.out + [Num(digits)], u, f);
      case InString(body) =>
        FillTokensAppend(m.out, Str(body), f);
        FillCode(body, u, f);
      case Escaped(body) =>
        if Unescape(u).Some? { FillCode(body, Unescape(u).value, f); }
      case Hex(body, read) =>
        if |read| >= 3 && HexValue(u).Some? {
          FillCode(body, ((read[0] * 16 + read[1]) * 16 + read[2]) * 16 + HexValue(u).value, f);
        }
    }
  }

  /** A hole inside a string becomes its value there, decoded. */
  lemma HoleFilled(m: Machine, name: Text, f: Filling)
    requires m.Machine? && m.state.InString?
    ensures FillMachine(Step(m, Hole(name)), f)
         == Run(FillMachine(m, f), Codes(EscapeForJsonString(f(name))))
  {
    var body := m.state.body;
    FillAppend(body, [Hole(name)], f);
    assert Fill([Hole(name)], f) == Codes(f(name));
    EscapedReads(Fill(body, f), FillTokens(m.out, f), f(name));
  }

  /**
   * Where the template lexes at all, the filled text lexes to the same tokens
   * with the holes of its strings filled.
   */
  lemma {:induction false} RunFilled(m: Machine, s: seq<Sym>, f: Filling)
    requires Run(m, s) != Bad
    ensures FillMachine(Run(m, s), f) == Run(FillMachine(m, f), Codes(Replace(s, Escaping(f))))
    decreases |s|
  {
    if s != [] {
      if m.Bad? { BadStaysBad(s); }
      var next := Step(m, s[0]);
      if next.Bad? { BadStaysBad(s[1..]); }
      RunFilled(next, s[1..], f);
      var g := Escaping(f);
      var first := match s[0] case Hole(name) => g(name) case Code(u) => [u];
      CodesAppend(first, Replace(s[1..], g));
      RunAppend(FillMachine(m, f), Codes(first), Codes(Replace(s[1..], g)));
      match s[0]
      case Code(u) => StepFilled(m, u, f);
      case Hole(name) => HoleFilled(m, name, f);
    }
  }

  lemma StandInNeedsNoEscape()
    ensures EscapeForJsonString(STAND_IN) == STAND_IN
    ensures |STAND_IN| > 0 && STAND_IN[0] == 0x50
  {
    var v := STAND_IN;
    assert v == [0x50, 0x4c, 0x41, 0x43, 0x45, 0x48, 0x4f, 0x4c, 0x44, 0x45, 0x52];
    PlainNeedsNoEscape(v);
  }

  lemma PlainUnit(u: Unit)
    requires 0x30 <= u < 0x5c
    ensures EscapeUnit(u) == [u] && !IsHigh(u)
  {
  }

  lemma {:induction false} PlainNeedsNoEscape(v: Text)
    requires forall u | u in v :: 0x30 <= u < 0x5c
    ensures EscapeForJsonString(v) == v
  {
    hide EscapeUnit;
    if v != [] {
      assert v[0] in v;
      assert forall u | u in v[1..] :: u in v;
      PlainUnit(v[0]);
      PlainNeedsNoEscape(v[1..]);
      assert v == [v[0]] + v[1..];
    }
  }

  /** Outside a string the stand-in is nothing JSON allows: its first letter begins and continues no token. */
  lemma CapitalPOnlyInStrings(m: Machine)
    requires m.Machine? && !m.state.InString?
    ensures Step(m, Code(0x50)) == Bad
  {
  }

  lemma StandInOnlyInStrings(m: Machine)
    requires m.Machine? && !m.state.InString?
    ensures Run(m, Codes(STAND_IN)) == Bad
  {
    StandInNeedsNoEscape();
    CapitalPOnlyInStrings(m);
    BadStaysBad(Codes(STAND_IN)[1..]);
  }

  /** So a template that lexes with the stand-in in every hole has its holes inside strings only. */
  lemma {:induction false} StandInLexes(m: Machine, s: seq<Sym>)
    requires Run(FillMachine(m, StandIns()), Codes(Replace(s, StandIns()))) != Bad
    ensures Run(m, s) != Bad
    decreases |s|
  {
    var f := StandIns();
    if s != [] {
      var first := match s[0] case Hole(name) => f(name) case Code(u) => [u];
      CodesAppend(first, Replace(s[1..], f));
      RunAppend(FillMachine(m, f), Codes(first), Codes(Replace(s[1..], f)));
      if m.Bad? { BadStaysBad(Codes(Replace(s, f))); }
      match s[0] {
        case Code(u) => StepFilled(m, u, f);
        case Hole(name) =>
          if m.Machine? && m.state.InString? {
            StandInNeedsNoEscape();
            HoleFilled(m, name, f);
          } else if m.Machine? {
            StandInOnlyInStrings(FillMachine(m, f));
            BadStaysBad(Codes(Replace(s[1..], f)));
          }
      }
      StandInLexes(Step(m, s[0]), s[1..]);
    }
  }

  lemma {:induction false} ReplaceSame(s: seq<Sym>, g: Filling, h: Filling)
    requires forall name | name in Names(s) :: g(name) == h(name)
    ensures Replace(s, g) == Replace(s, h)
  {
    if s != [] {
      assert forall name | name in Names(s[1..]) :: name in Names(s);
      ReplaceSame(s[1..], g, h);
    }
  }

  lemma FinishFilled(m: Machine, f: Filling)
    ensures Finish(FillMachine(m, f)) == match Finish(m)
      case None => None
      case Some(tokens) => Some(FillTokens(tokens, f))
  {
    if m.Machine? && m.state.InNumber? {
      FillTokensAppend(m.out, Num(m.state.digits), f);
    }
  }

  /** Whatever fills a template's holes, the document is the template's with those strings in it. */
  lemma FilledDocument(s: seq<Sym>, f: Filling)
    requires Document(s).Some?
    ensures JsonParse(Replace(s, Escaping(f))) == Some(FillValue(Document(s).value, f))
  {
    RunFilled(START, s, f);
    FinishFilled(Run(START, s), f);
    var tokens := Lex(s).value;
    ParseFilled(tokens, f);
    assert FillMachine(START, f) == START;
  }

  lemma AcceptedIsDocument(t: Text)
    requires CheckConfigTemplate(t) == Accepted
    ensures Document(Pieces(t, 0)).Some?
    ensures JsonParse(Replace(Pieces(t, 0), StandIns())) == Some(FillValue(Document(Pieces(t, 0)).value, StandIns()))
  {
    var s, f := Pieces(t, 0), StandIns();
    StandInNeedsNoEscape();
    ReplaceSame(s, f, Escaping(f));
    assert FillMachine(START, f) == START;
    StandInLexes(START, s);
    RunFilled(START, s, f);
    FinishFilled(Run(START, s), f);
    ParseFilled(Lex(s).value, f);
  }

  /**
   * The guarantee of the save-time check. If it accepts a template, then the
   * template is one JSON document with holes in its strings; the checked text
   * is that document with the stand-in in each hole; and what any box renders
   * is the same document with the box's own raw values in the same holes.
   */
  lemma AcceptedTemplatesKeepTheirStructure(t: Text, d: Device)
    requires CheckConfigTemplate(t) == Accepted && Render(t, d).Rendered?
    ensures var document := Document(Pieces(t, 0));
      && document.Some?
      && JsonParse(Replace(Pieces(t, 0), StandIns())) == Some(FillValue(document.value, StandIns()))
      && JsonParse(Render(t, d).text) == Some(FillValue(document.value, ValueOf(d)))
  {
    AcceptedIsDocument(t);
    FilledDocument(Pieces(t, 0), ValueOf(d));
  }

  /**
   * An accepted template is refused for a box exactly when the box has no
   * value for a name it uses, and never for an unknown name; and the guard
   * against a rendered file that is not JSON never fires.
   */
  lemma AcceptedTemplatesRender(d: Device)
    requires d.group.Some? && d.group.value.mitmConfigPath !in {None, Some([])}
    requires d.group.value.mitmConfig !in {None, Some([])}
    requires CheckConfigTemplate(d.group.value.mitmConfig.value) == Accepted
    ensures var names := Names(Pieces(d.group.value.mitmConfig.value, 0));
      && RenderConfig(d) != Broken
      && (RenderConfig(d).File? <==> forall n | n in names :: !Missing(n, d))
      && (RenderConfig(d).Refused? ==> RenderConfig(d).why.EmptyPlaceholder?)
  {
    var t := d.group.value.mitmConfig.value;
    var names := Names(Pieces(t, 0));
    PickNone(names, IsUnknown());
    PickNone(names, IsUnread(d));
    PickNone(names, IsMissing(d));
    forall n | n in names ensures Read(n, d).Some? {
      assert !IsUnknown()(n);
      TablesAgree(n, d);
    }
    if Render(t, d).Rendered? {
      AcceptedTemplatesKeepTheirStructure(t, d);
    }
  }
}
