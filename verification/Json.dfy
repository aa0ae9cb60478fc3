// JSON as RFC 8259 defines it, read over UTF-16 code units: the reference the
// config templates are judged by. Text may have holes in it; a hole is legal
// only between the quotes of a string, which is what makes a template with
// placeholders a document of its own.

module Json {
  import opened Options

  /** A UTF-16 code unit, as a JavaScript string holds them. */
  type Unit = x: int | 0 <= x < 0x1_0000

  type Text = seq<Unit>

  type Hexit = h: int | 0 <= h < 16

  datatype Sym = Code(u: Unit) | Hole(name: Text)

  datatype Token =
    | LBrace | RBrace | LBracket | RBracket | Colon | Comma
    | Word(w: Literal)
    | Num(digits: Text)
    | Str(body: seq<Sym>)

  datatype Literal = True | False | Null

  // --- Lexing (RFC 8259, sections 2, 3, 6 and 7) -----------------------------------

  function Spelling(w: Literal): Text {
    match w
    case True => [0x74, 0x72, 0x75, 0x65]
    case False => [0x66, 0x61, 0x6c, 0x73, 0x65]
    case Null => [0x6e, 0x75, 0x6c, 0x6c]
  }

  datatype NumberPart = Minus | Zero | Whole | Point | Fraction | E | ESign | Exponent

  datatype State =
    | Between
    | InWord(w: Literal, at: nat)
    | InNumber(part: NumberPart, digits: Text)
    | InString(body: seq<Sym>)
    | Escaped(body: seq<Sym>)
    | Hex(body: seq<Sym>, read: seq<Hexit>)

  datatype Machine = Bad | Machine(state: State, out: seq<Token>)

  predicate IsSpace(u: Unit) { u in {0x20, 0x09, 0x0a, 0x0d} }

  predicate IsDigit(u: Unit) { 0x30 <= u <= 0x39 }

  function Punctuation(u: Unit): Option<Token> {
    if u == 0x7b then Some(LBrace) else if u == 0x7d then Some(RBrace)
    else if u == 0x5b then Some(LBracket) else if u == 0x5d then Some(RBracket)
    else if u == 0x3a then Some(Colon) else if u == 0x2c then Some(Comma)
    else None
  }

  function HexValue(u: Unit): Option<Hexit> {
    if IsDigit(u) then Some(u - 0x30)
    else if 0x61 <= u <= 0x66 then Some(u - 0x61 + 10)
    else if 0x41 <= u <= 0x46 then Some(u - 0x41 + 10)
    else None
  }

  /** The unit a two-character escape stands for. */
  function Unescape(u: Unit): Option<Unit> {
    if u in {0x22, 0x5c, 0x2f} then Some(u)
    else if u == 0x62 then Some(0x08) else if u == 0x66 then Some(0x0c)
    else if u == 0x6e then Some(0x0a) else if u == 0x72 then Some(0x0d)
    else if u == 0x74 then Some(0x09)
    else None
  }

  /** The part a number is in after one more unit, or none if the unit ends it. */
  function NextPart(part: NumberPart, u: Unit): Option<NumberPart> {
    match part
    case Minus => if u == 0x30 then Some(Zero) else if IsDigit(u) then Some(Whole) else None
    case Zero => if u == 0x2e then Some(Point) else if u in {0x65, 0x45} then Some(E) else None
    case Whole =>
      if IsDigit(u) then Some(Whole) else if u == 0x2e then Some(Point) else if u in {0x65, 0x45} then Some(E) else None
    case Point => if IsDigit(u) then Some(Fraction) else None
    case Fraction => if IsDigit(u) then Some(Fraction) else if u in {0x65, 0x45} then Some(E) else None
    case E => if u in {0x2b, 0x2d} then Some(ESign) else if IsDigit(u) then Some(Exponent) else None
    case ESign => if IsDigit(u) then Some(Exponent) else None
    case Exponent => if IsDigit(u) then Some(Exponent) else None
  }

  predicate MayEnd(part: NumberPart) {
    part in {Zero, Whole, Fraction, Exponent}
  }

  function Begin(out: seq<Token>, u: Unit): Machine {
    if IsSpace(u) then Machine(Between, out)
    else if Punctuation(u).Some? then Machine(Between, out + [Punctuation(u).value])
    else if u == 0x22 then Machine(InString([]), out)
    else if u == 0x2d then Machine(InNumber(Minus, [u]), out)
    else if u == 0x30 then Machine(InNumber(Zero, [u]), out)
    else if IsDigit(u) then Machine(InNumber(Whole, [u]), out)
    else if u == 0x74 then Machine(InWord(True, 1), out)
    else if u == 0x66 then Machine(InWord(False, 1), out)
    else if u == 0x6e then Machine(InWord(Null, 1), out)
    else Bad
  }

  function Step(m: Machine, s: Sym): Machine {
    if m.Bad? then Bad
    else match s
      case Hole(_) =>
        if m.state.InString? then m.(state := InString(m.state.body + [s])) else Bad
      case Code(u) =>
        match m.state
        case Between => Begin(m.out, u)
        case InWord(w, at) =>
          if at < |Spelling(w)| && u == Spelling(w)[at] then
            if at + 1 == |Spelling(w)| then Machine(Between, m.out + [Word(w)]) else m.(state := InWord(w, at + 1))
          else Bad
        case InNumber(part, digits) =>
          (match NextPart(part, u)
           case Some(next) => m.(state := InNumber(next, digits + [u]))
           case None => if MayEnd(part) then Begin(m.out + [Num(digits)], u) else Bad)
        case InString(body) =>
          if u == 0x22 then Machine(Between, m.out + [Str(body)])
          else if u == 0x5c then m.(state := Escaped(body))
          else if u < 0x20 then Bad
          else m.(state := InString(body + [s]))
        case Escaped(body) =>
          if u == 0x75 then m.(state := Hex(body, []))
          else (match Unescape(u)
                case Some(x) => m.(state := InString(body + [Code(x)]))
                case None => Bad)
        case Hex(body, read) =>
          (match HexValue(u)
           case None => Bad
           case Some(h) =>
             if |read| < 3 then m.(state := Hex(body, read + [h]))
             else m.(state := InString(body + [Code(((read[0] * 16 + read[1]) * 16 + read[2]) * 16 + h)])))
  }

  function Run(m: Machine, s: seq<Sym>): Machine
    decreases |s|
  {
    if s == [] then m else Run(Step(m, s[0]), s[1..])
  }

  function Finish(m: Machine): Option<seq<Token>> {
    match m
    case Bad => None
    case Machine(Between, out) => Some(out)
    case Machine(InNumber(part, digits), out) => if MayEnd(part) then Some(out + [Num(digits)]) else None
    case Machine(_, _) => None
  }

  const START := Machine(Between, [])

  function Lex(s: seq<Sym>): Option<seq<Token>> {
    Finish(Run(START, s))
  }

  // --- Parsing (RFC 8259, sections 2, 4 and 5) -----------------------------------------

  /** Members keep their order and their duplicates: what the text says, before any reader merges keys. */
  datatype Value =
    | Leaf(w: Literal)
    | Number(digits: Text)
    | String(body: seq<Sym>)
    | Array(items: Items)
    | Object(members: Members)

  datatype Items = NoItems | Item(head: Value, tail: Items)

  datatype Members = NoMembers | Member(key: seq<Sym>, value: Value, rest: Members)

  datatype Parsed<T> = Parsed(value: T, rest: seq<Token>)

  function ParseValue(t: seq<Token>): (r: Option<Parsed<Value>>)
    ensures r.Some? ==> |r.value.rest| < |t|
    decreases |t|, 0
  {
    if t == [] then None
    else match t[0]
      case Word(w) => Some(Parsed(Leaf(w), t[1..]))
      case Num(digits) => Some(Parsed(Number(digits), t[1..]))
      case Str(body) => Some(Parsed(String(body), t[1..]))
      case LBracket =>
        if |t| > 1 && t[1] == RBracket then Some(Parsed(Array(NoItems), t[2..]))
        else (match ParseItems(t[1..])
              case None => None
              case Some(p) => Some(Parsed(Array(p.value), p.rest)))
      case LBrace =>
        if |t| > 1 && t[1] == RBrace then Some(Parsed(Object(NoMembers), t[2..]))
        else (match ParseMembers(t[1..])
              case None => None
              case Some(p) => Some(Parsed(Object(p.value), p.rest)))
      case _ => None
  }

  /** One or more items and the closing bracket. */
  function ParseItems(t: seq<Token>): (r: Option<Parsed<Items>>)
    ensures r.Some? ==> |r.value.rest| < |t|
    decreases |t|, 1
  {
    match ParseValue(t)
    case None => None
    case Some(head) =>
      if head.rest == [] then None
      else if head.rest[0] == RBracket then Some(Parsed(Item(head.value, NoItems), head.rest[1..]))
      else if head.rest[0] == Comma then
        (match ParseItems(head.rest[1..])
         case None => None
         case Some(tail) => Some(Parsed(Item(head.value, tail.value), tail.rest)))
      else None
  }

  /** One or more members and the closing brace. */
  function ParseMembers(t: seq<Token>): (r: Option<Parsed<Members>>)
    ensures r.Some? ==> |r.value.rest| < |t|
    decreases |t|, 1
  {
    if |t| < 3 || !t[0].Str? || t[1] != Colon then None
    else match ParseValue(t[2..])
      case None => None
      case Some(v) =>
        if v.rest == [] then None
        else if v.rest[0] == RBrace then Some(Parsed(Member(t[0].body, v.value, NoMembers), v.rest[1..]))
        else if v.rest[0] == Comma then
          (match ParseMembers(v.rest[1..])
           case None => None
           case Some(rest) => Some(Parsed(Member(t[0].body, v.value, rest.value), rest.rest)))
        else None
  }

  function Parse(t: seq<Token>): Option<Value> {
    match ParseValue(t)
    case Some(p) => if p.rest == [] then Some(p.value) else None
    case None => None
  }

  function Document(s: seq<Sym>): Option<Value> {
    match Lex(s)
    case None => None
    case Some(tokens) => Parse(tokens)
  }

  function Codes(t: Text): seq<Sym> {
    seq(|t|, i requires 0 <= i < |t| => Code(t[i]))
  }

  /** `JSON.parse`: the document a text is, if it is one. */
  function JsonParse(t: Text): Option<Value> {
    Document(Codes(t))
  }

  // --- Filling the holes of what was read -----------------------------------------------

  /** Text for each hole. */
  type Filling = Text -> Text

  function Fill(s: seq<Sym>, f: Filling): seq<Sym> {
    if s == [] then []
    else (match s[0]
          case Code(_) => [s[0]]
          case Hole(name) => Codes(f(name))) + Fill(s[1..], f)
  }

  function FillToken(t: Token, f: Filling): Token {
    if t.Str? then Str(Fill(t.body, f)) else t
  }

  function FillTokens(t: seq<Token>, f: Filling): seq<Token> {
    seq(|t|, i requires 0 <= i < |t| => FillToken(t[i], f))
  }

  function FillValue(v: Value, f: Filling): Value {
    match v
    case String(body) => String(Fill(body, f))
    case Array(items) => Array(FillItems(items, f))
    case Object(members) => Object(FillMembers(members, f))
    case _ => v
  }

  function FillItems(items: Items, f: Filling): Items {
    match items
    case NoItems => NoItems
    case Item(head, tail) => Item(FillValue(head, f), FillItems(tail, f))
  }

  function FillMembers(members: Members, f: Filling): Members {
    match members
    case NoMembers => NoMembers
    case Member(key, value, rest) => Member(Fill(key, f), FillValue(value, f), FillMembers(rest, f))
  }

  lemma FillDrop(t: seq<Token>, n: nat, f: Filling)
    requires n <= |t|
    ensures FillTokens(t, f)[n..] == FillTokens(t[n..], f)
  {
  }

  /** Filling strings changes nothing about structure: parsing and filling commute. */
  lemma {:induction false} ParseFilled(t: seq<Token>, f: Filling)
    ensures ParseValue(FillTokens(t, f)) == match ParseValue(t)
      case None => None
      case Some(p) => Some(Parsed(FillValue(p.value, f), FillTokens(p.rest, f)))
    decreases |t|, 0
  {
    if t != [] {
      FillDrop(t, 1, f);
      if t[0] == LBracket || t[0] == LBrace {
        if |t| > 1 { FillDrop(t, 2, f); }
        if t[0] == LBracket { ParseItemsFilled(t[1..], f); } else { ParseMembersFilled(t[1..], f); }
      }
    }
  }

  lemma {:induction false} ParseItemsFilled(t: seq<Token>, f: Filling)
    ensures ParseItems(FillTokens(t, f)) == match ParseItems(t)
      case None => None
      case Some(p) => Some(Parsed(FillItems(p.value, f), FillTokens(p.rest, f)))
    decreases |t|, 1
  {
    ParseFilled(t, f);
    var head := ParseValue(t);
    if head.Some? && head.value.rest != [] {
      FillDrop(head.value.rest, 1, f);
      if head.value.rest[0] == Comma {
        ParseItemsFilled(head.value.rest[1..], f);
      }
    }
  }

  lemma {:induction false} ParseMembersFilled(t: seq<Token>, f: Filling)
    ensures ParseMembers(FillTokens(t, f)) == match ParseMembers(t)
      case None => None
      case Some(p) => Some(Parsed(FillMembers(p.value, f), FillTokens(p.rest, f)))
    decreases |t|, 1
  {
    if |t| >= 3 && t[0].Str? && t[1] == Colon {
      FillDrop(t, 2, f);
      ParseFilled(t[2..], f);
      var v := ParseValue(t[2..]);
      if v.Some? && v.value.rest != [] {
        FillDrop(v.value.rest, 1, f);
        if v.value.rest[0] == Comma {
          ParseMembersFilled(v.value.rest[1..], f);
        }
      }
    }
  }

  lemma {:induction false} FillAppend(a: seq<Sym>, b: seq<Sym>, f: Filling)
    ensures Fill(a + b, f) == Fill(a, f) + Fill(b, f)
  {
    hide Codes;
    if a == [] {
      assert a + b == b;
    } else {
      FillAppend(a[1..], b, f);
      assert (a + b)[0] == a[0] && (a + b)[1..] == a[1..] + b;
      var first := match a[0] case Code(_) => [a[0]] case Hole(name) => Codes(f(name));
      assert first + (Fill(a[1..], f) + Fill(b, f)) == first + Fill(a[1..], f) + Fill(b, f);
    }
  }

  lemma {:induction false} RunAppend(m: Machine, a: seq<Sym>, b: seq<Sym>)
    ensures Run(m, a + b) == Run(Run(m, a), b)
    decreases |a|
  {
    if a == [] {
      assert a + b == b;
    } else {
      RunAppend(Step(m, a[0]), a[1..], b);
      assert (a + b)[1..] == a[1..] + b;
    }
  }

  lemma {:induction false} BadStaysBad(s: seq<Sym>)
    ensures Run(Bad, s) == Bad
  {
    if s != [] {
      BadStaysBad(s[1..]);
    }
  }

  lemma CodesAppend(a: Text, b: Text)
    ensures Codes(a + b) == Codes(a) + Codes(b)
  {
  }
}
