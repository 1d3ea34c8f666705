/**
 A reader of JSON texts, by recursive descent: each function reads one construct off the front of a
 text and returns what it denotes and what follows it. White space is skipped where a value, a name or
 a closer may start; a number takes the longest run of digits; a surrogate escape is read only with its
 other half. Each construct's lemma says that what is printed, followed by anything that may follow it,
 is read back as what it denotes.
 */
module JsonReader {
  import opened Options
  import opened JsonText

  /** What was read off the front of a text, and what follows it. */
  datatype Read<T> = Read(value: T, rest: string)

  predicate WsChar(c: char) {
    c == ' ' || c == '\t' || c == '\n' || c == '\r'
  }

  function SkipWs(s: string): (r: string)
    ensures |r| <= |s|
  {
    if s != "" && WsChar(s[0]) then SkipWs(s[1..]) else s
  }

  // ---------- numbers ----------

  /** The digits at the front. */
  function ReadDigits(s: string): (r: Read<string>)
    ensures Digits(r.value) && r.value + r.rest == s
  {
    if s != "" && IsDigit(s[0]) then
      var r := ReadDigits(s[1..]);
      assert [s[0]] + r.value + r.rest == [s[0]] + (r.value + r.rest) == s;
      Read([s[0]] + r.value, r.rest)
    else Read("", s)
  }

  /** The fraction, empty if there is none. */
  function ReadFraction(s: string): (r: Read<string>)
    ensures Digits(r.value) && |r.rest| <= |s|
  {
    if s != "" && s[0] == '.' && ReadDigits(s[1..]).value != "" then ReadDigits(s[1..]) else Read("", s)
  }

  function ReadSign(s: string): (r: Read<string>)
    ensures r.value in {"", "+", "-"} && |r.rest| <= |s|
  {
    if s != "" && (s[0] == '+' || s[0] == '-') then Read([s[0]], s[1..]) else Read("", s)
  }

  predicate GoodExponent(e: Exponent) {
    e.digits != "" && Digits(e.digits) && e.sign in {"", "+", "-"}
  }

  function ReadExponent(s: string): (r: Read<Option<Exponent>>)
    ensures r.value.Some? ==> GoodExponent(r.value.value)
    ensures |r.rest| <= |s|
  {
    if s != "" && (s[0] == 'e' || s[0] == 'E') then
      var sign := ReadSign(s[1..]);
      var digits := ReadDigits(sign.rest);
      if digits.value == "" then Read(None, s)
      else Read(Some(Exponent(s[0] == 'E', sign.value, digits.value)), digits.rest)
    else Read(None, s)
  }

  /** "0", or digits that do not start with a zero. */
  function ReadWhole(s: string): Option<Read<string>> {
    var digits := ReadDigits(s);
    if digits.value == "" || (digits.value[0] == '0' && |digits.value| > 1) then None else Some(digits)
  }

  function ReadNumber(s: string): (r: Option<Read<Number>>)
    ensures r.Some? ==> GoodNumber(r.value.value) && |r.value.rest| < |s|
  {
    var neg := s != "" && s[0] == '-';
    match ReadWhole(if neg then s[1..] else s)
    case None => None
    case Some(whole) =>
      var frac := ReadFraction(whole.rest);
      var exp := ReadExponent(frac.rest);
      assert whole.value + whole.rest == if neg then s[1..] else s;
      Some(Read(Number(neg, whole.value, frac.value, exp.value), exp.rest))
  }

  /** What may follow a number. */
  predicate EndsNumber(s: string) {
    s != "" ==> !IsDigit(s[0]) && s[0] != '.' && s[0] != 'e' && s[0] != 'E'
  }

  lemma {:induction false} DigitsRead(d: string, rest: string)
    requires Digits(d) && (rest != "" ==> !IsDigit(rest[0]))
    ensures ReadDigits(d + rest) == Read(d, rest)
    decreases d
  {
    if d == "" {
      assert d + rest == rest;
    } else {
      assert (d + rest)[1..] == d[1..] + rest;
      DigitsRead(d[1..], rest);
      assert d == [d[0]] + d[1..];
    }
  }

  function FracText(frac: string): string {
    if frac == "" then "" else "." + frac
  }

  function ExpText(exp: Option<Exponent>): string {
    match exp
    case None => ""
    case Some(e) => (if e.upper then "E" else "e") + e.sign + e.digits
  }

  lemma FractionRead(frac: string, rest: string)
    requires Digits(frac) && (rest != "" ==> !IsDigit(rest[0]) && rest[0] != '.')
    ensures ReadFraction(FracText(frac) + rest) == Read(frac, rest)
  {
    var s := FracText(frac) + rest;
    if frac == "" {
      assert s == rest;
    } else {
      assert s[0] == '.' && s[1..] == frac + rest;
      DigitsRead(frac, rest);
    }
  }

  lemma ExponentRead(exp: Option<Exponent>, rest: string)
    requires exp.Some? ==> GoodExponent(exp.value)
    requires EndsNumber(rest)
    ensures ReadExponent(ExpText(exp) + rest) == Read(exp, rest)
  {
    var s := ExpText(exp) + rest;
    match exp
    case None => assert s == rest;
    case Some(e) =>
      ExponentSplit(e, rest);
      assert (e.digits + rest)[0] == e.digits[0];
      SignRead(e.sign, e.digits + rest);
      DigitsRead(e.digits, rest);
  }

  lemma ExponentSplit(e: Exponent, rest: string)
    ensures var s := ExpText(Some(e)) + rest;
      s != "" && s[0] == (if e.upper then 'E' else 'e') && s[1..] == e.sign + (e.digits + rest)
  {
    var mark := if e.upper then "E" else "e";
    Join3(mark + e.sign, e.digits, rest);
    Join3(mark, e.sign, e.digits + rest);
    assert ExpText(Some(e)) + rest == mark + (e.sign + (e.digits + rest));
  }

  lemma SignRead(sign: string, rest: string)
    requires sign in {"", "+", "-"} && rest != "" && IsDigit(rest[0])
    ensures ReadSign(sign + rest) == Read(sign, rest)
  {
    if sign == "" {
      assert sign + rest == rest;
    } else {
      assert (sign + rest)[1..] == rest;
    }
  }

  lemma WholeRead(whole: string, rest: string)
    requires whole != "" && Digits(whole) && (whole[0] == '0' ==> |whole| == 1) && (rest != "" ==> !IsDigit(rest[0]))
    ensures ReadWhole(whole + rest) == Some(Read(whole, rest))
  {
    DigitsRead(whole, rest);
  }

  /** What may follow the whole part, and the fraction. */
  lemma TailStarts(frac: string, exp: Option<Exponent>, rest: string)
    requires EndsNumber(rest)
    ensures var tail := ExpText(exp) + rest; tail != "" ==> !IsDigit(tail[0]) && tail[0] != '.'
    ensures var back := FracText(frac) + (ExpText(exp) + rest); back != "" ==> !IsDigit(back[0])
  {
    match exp
    case None => assert ExpText(exp) + rest == rest;
    case Some(e) => assert ExpText(exp)[0] == if e.upper then 'E' else 'e';
  }

  lemma NumberRead(n: Number, rest: string)
    requires GoodNumber(n) && EndsNumber(rest)
    ensures ReadNumber(NumText(n) + rest) == Some(Read(n, rest))
  {
    var tail := ExpText(n.exp) + rest;
    var back := FracText(n.frac) + tail;
    NumberSplit(n, rest);
    TailStarts(n.frac, n.exp, rest);
    WholeRead(n.whole, back);
    FractionRead(n.frac, tail);
    ExponentRead(n.exp, rest);
  }

  lemma Join5(a: string, b: string, c: string, d: string, e: string)
    ensures a + b + c + d + e == a + (b + (c + (d + e)))
  {
    Join3(a + b + c, d, e);
    Join3(a + b, c, d + e);
    Join3(a, b, c + (d + e));
  }

  lemma Join3(a: string, b: string, c: string)
    ensures (a + b) + c == a + (b + c)
  {
  }

  lemma NumberSplit(n: Number, rest: string)
    requires GoodNumber(n)
    ensures var s := NumText(n) + rest;
      && s != "" && (n.neg <==> s[0] == '-')
      && (if n.neg then s[1..] else s) == n.whole + (FracText(n.frac) + (ExpText(n.exp) + rest))
  {
    var s, sign := NumText(n) + rest, if n.neg then "-" else "";
    Join5(sign, n.whole, FracText(n.frac), ExpText(n.exp), rest);
    assert s == sign + (n.whole + (FracText(n.frac) + (ExpText(n.exp) + rest)));
    assert IsDigit(n.whole[0]) && (!n.neg ==> s[0] == n.whole[0]);
  }

  // ---------- strings ----------

  predicate HexAt(s: string) {
    |s| >= 6 && s[0] == '\\' && s[1] == 'u' && IsHex4(s[2..6])
  }

  /** One character of a string. */
  function ReadPart(s: string): (r: Option<Read<Part>>)
    ensures r.Some? ==> GoodPart(r.value.value) && |r.value.rest| < |s|
  {
    if s == "" || s[0] == '"' || s[0] < ' ' then None
    else if s[0] != '\\' then Some(Read(Lit(s[0]), s[1..]))
    else if HexAt(s) then
      if GoodPart(Hex(s[2..6])) then Some(Read(Hex(s[2..6]), s[6..]))
      else if HexAt(s[6..]) && GoodPart(Surrogates(s[2..6], s[6..][2..6])) then
        Some(Read(Surrogates(s[2..6], s[6..][2..6]), s[6..][6..]))
      else None
    else if |s| >= 2 && GoodPart(Short(s[1])) then Some(Read(Short(s[1]), s[2..]))
    else None
  }

  /** The rest of a string, its closing quote included. */
  function ReadParts(s: string): (r: Option<Read<string>>)
    ensures r.Some? ==> |r.value.rest| < |s|
    decreases |s|
  {
    if s != "" && s[0] == '"' then Some(Read("", s[1..]))
    else
      match ReadPart(s)
      case None => None
      case Some(p) =>
        match ReadParts(p.rest)
        case None => None
        case Some(r) => Some(Read([PartValue(p.value)] + r.value, r.rest))
  }

  lemma PartRead(p: Part, rest: string)
    requires GoodPart(p)
    ensures PartText(p) != "" && PartText(p)[0] != '"'
    ensures ReadPart(PartText(p) + rest) == Some(Read(p, rest))
  {
    var s := PartText(p) + rest;
    match p {
      case Lit(c) =>
        assert s[0] == c && s[1..] == rest;
      case Short(c) =>
        assert s[0] == '\\' && s[1] == c && c != 'u' && s[2..] == rest;
      case Hex(h) =>
        HexThere(h, rest);
      case Surrogates(hi, lo) =>
        SurrogatesRead(hi, lo, rest);
    }
  }

  lemma SurrogatesRead(hi: string, lo: string, rest: string)
    requires GoodPart(Surrogates(hi, lo))
    ensures ReadPart(PartText(Surrogates(hi, lo)) + rest) == Some(Read(Surrogates(hi, lo), rest))
  {
    var s, tail := PartText(Surrogates(hi, lo)) + rest, EscapeText(lo) + rest;
    assert s == EscapeText(hi) + tail;
    HexThere(hi, tail);
    HexThere(lo, rest);
    assert !GoodPart(Hex(hi));
  }

  lemma HexThere(h: string, rest: string)
    requires IsHex4(h)
    ensures HexAt(EscapeText(h) + rest) && (EscapeText(h) + rest)[2..6] == h && (EscapeText(h) + rest)[6..] == rest
  {
    var s := EscapeText(h) + rest;
    assert |EscapeText(h)| == 6;
    assert s[2..6] == h;
  }

  lemma {:induction false} PartsRead(parts: seq<Part>, rest: string)
    requires GoodParts(parts)
    ensures ReadParts(PartsText(parts) + "\"" + rest) == Some(Read(PartsValue(parts), rest))
    decreases parts
  {
    var s := PartsText(parts) + "\"" + rest;
    if parts == [] {
      assert s[0] == '"' && s[1..] == rest;
    } else {
      var tail := PartsText(parts[1..]) + "\"" + rest;
      assert s == PartText(parts[0]) + tail;
      PartRead(parts[0], tail);
      PartsRead(parts[1..], rest);
    }
  }

  // ---------- values ----------

  function ReadValue(s: string): (r: Option<Read<Json>>)
    ensures r.Some? ==> |r.value.rest| < |s|
    decreases |s|, 1
  {
    if "null" <= s then Some(Read(JNull, s[4..]))
    else if "true" <= s then Some(Read(JBool(true), s[4..]))
    else if "false" <= s then Some(Read(JBool(false), s[5..]))
    else if s != "" && s[0] == '"' then
      match ReadParts(s[1..])
      case None => None
      case Some(r) => Some(Read(JStr(r.value), r.rest))
    else if s != "" && s[0] == '[' then ReadArray(SkipWs(s[1..]))
    else if s != "" && s[0] == '{' then ReadObject(SkipWs(s[1..]))
    else
      match ReadNumber(s)
      case None => None
      case Some(r) => Some(Read(JNum(NumberValue(r.value)), r.rest))
  }

  /** After the opening bracket. */
  function ReadArray(s: string): (r: Option<Read<Json>>)
    ensures r.Some? ==> |r.value.rest| <= |s|
    decreases |s|, 4
  {
    if s != "" && s[0] == ']' then Some(Read(JArr([]), s[1..]))
    else
      match ReadElems(s)
      case None => None
      case Some(r) => Some(Read(JArr(r.value), r.rest))
  }

  /** After the opening brace. */
  function ReadObject(s: string): (r: Option<Read<Json>>)
    ensures r.Some? ==> |r.value.rest| <= |s|
    decreases |s|, 4
  {
    if s != "" && s[0] == '}' then Some(Read(JObj(map[]), s[1..]))
    else
      match ReadMembers(s)
      case None => None
      case Some(r) => Some(Read(JObj(r.value), r.rest))
  }

  /** A value with the white space around it. */
  function ReadElem(s: string): (r: Option<Read<Json>>)
    ensures r.Some? ==> |r.value.rest| < |s|
    decreases |s|, 2
  {
    match ReadValue(SkipWs(s))
    case None => None
    case Some(r) => Some(Read(r.value, SkipWs(r.rest)))
  }

  /** At least one element, and the closing bracket. */
  function ReadElems(s: string): (r: Option<Read<seq<Json>>>)
    ensures r.Some? ==> |r.value.rest| < |s|
    decreases |s|, 3
  {
    match ReadElem(s)
    case None => None
    case Some(e) =>
      if e.rest != "" && e.rest[0] == ']' then Some(Read([e.value], e.rest[1..]))
      else if e.rest != "" && e.rest[0] == ',' then
        match ReadElems(e.rest[1..])
        case None => None
        case Some(r) => Some(Read([e.value] + r.value, r.rest))
      else None
  }

  /** A name, and the text after the colon. */
  function ReadName(s: string): (r: Option<Read<string>>)
    ensures r.Some? ==> |r.value.rest| < |s|
  {
    var u := SkipWs(s);
    if u != "" && u[0] == '"' then
      match ReadParts(u[1..])
      case None => None
      case Some(k) =>
        var v := SkipWs(k.rest);
        if v != "" && v[0] == ':' then Some(Read(k.value, v[1..])) else None
    else None
  }

  /** At least one member, and the closing brace. */
  function ReadMembers(s: string): (r: Option<Read<map<string, Json>>>)
    ensures r.Some? ==> |r.value.rest| < |s|
    decreases |s|, 3
  {
    match ReadName(s)
    case None => None
    case Some(k) =>
      match ReadElem(k.rest)
      case None => None
      case Some(e) =>
        if e.rest != "" && e.rest[0] == '}' then Some(Read(map[k.value := e.value], e.rest[1..]))
        else if e.rest != "" && e.rest[0] == ',' then
          match ReadMembers(e.rest[1..])
          case None => None
          case Some(r) => Some(Read(map[k.value := e.value] + r.value, r.rest))
        else None
  }

  /** A json.loads for the concrete syntax. */
  function Loads(s: string): Option<Json> {
    match ReadElem(s)
    case None => None
    case Some(r) => if r.rest == "" then Some(r.value) else None
  }

  // ---------- it reads what is printed ----------

  /** What may follow a value and its white space. */
  predicate Closes(s: string) {
    s != "" ==> s[0] == ',' || s[0] == ']' || s[0] == '}'
  }

  lemma {:induction false} WsSkipped(w: string, rest: string)
    requires IsWs(w) && (rest != "" ==> !WsChar(rest[0]))
    ensures SkipWs(w + rest) == rest
    decreases w
  {
    if w == "" {
      assert w + rest == rest;
    } else {
      assert (w + rest)[1..] == w[1..] + rest;
      WsSkipped(w[1..], rest);
    }
  }

  lemma WsEndsNumber(w: string, rest: string)
    requires IsWs(w) && Closes(rest)
    ensures EndsNumber(w + rest)
  {
  }

  /** How a value can start. */
  lemma TextStarts(t: JsonText)
    requires GoodText(t)
    ensures Text(t) != "" && !WsChar(Text(t)[0]) && Text(t)[0] != ']' && Text(t)[0] != '}'
  {
    match t {
      case TNum(n) =>
        assert Text(t)[0] == if n.neg then '-' else n.whole[0];
        assert IsDigit(n.whole[0]);
      case TStr(parts) =>
        assert Text(t)[0] == '"';
      case TArr(pad, elems) =>
        assert Text(t)[0] == '[';
      case TObj(pad, members) =>
        assert Text(t)[0] == '{';
      case _ =>
    }
  }

  lemma WordRead(t: JsonText, rest: string)
    requires t.TNull? || t.TBool?
    ensures GoodText(t) && ReadValue(Text(t) + rest) == Some(Read(Denote(t), rest))
  {
    var s := Text(t) + rest;
    assert s[0] == Text(t)[0];
    assert s[|Text(t)|..] == rest;
    assert Text(t) <= s;
  }

  /** The first character tells what is read. */
  lemma Dispatch(s: string)
    requires s != "" && s[0] != 'n' && s[0] != 't' && s[0] != 'f' && s[0] != '"'
    ensures s[0] == '[' ==> ReadValue(s) == ReadArray(SkipWs(s[1..]))
    ensures s[0] == '{' ==> ReadValue(s) == ReadObject(SkipWs(s[1..]))
    ensures s[0] != '[' && s[0] != '{' && ReadNumber(s).Some? ==>
      ReadValue(s) == Some(Read(JNum(NumberValue(ReadNumber(s).value.value)), ReadNumber(s).value.rest))
  {
    assert "null"[0] == 'n' && "true"[0] == 't' && "false"[0] == 'f';
  }

  lemma NumRead(n: Number, rest: string)
    requires GoodNumber(n) && EndsNumber(rest)
    ensures ReadValue(NumText(n) + rest) == Some(Read(JNum(NumberValue(n)), rest))
  {
    var s := NumText(n) + rest;
    NumberRead(n, rest);
    NumberSplit(n, rest);
    assert IsDigit(n.whole[0]);
    assert n.neg || s[0] == n.whole[0];
    Dispatch(s);
  }

  lemma StrRead(parts: seq<Part>, rest: string)
    requires GoodParts(parts)
    ensures ReadValue(StrText(parts) + rest) == Some(Read(JStr(PartsValue(parts)), rest))
  {
    var s := StrText(parts) + rest;
    assert s[0] == '"' && s[1..] == PartsText(parts) + "\"" + rest;
    PartsRead(parts, rest);
    QuoteDispatch(s);
  }

  lemma QuoteDispatch(s: string)
    requires s != "" && s[0] == '"' && ReadParts(s[1..]).Some?
    ensures ReadValue(s) == Some(Read(JStr(ReadParts(s[1..]).value.value), ReadParts(s[1..]).value.rest))
  {
    assert "null"[0] == 'n' && "true"[0] == 't' && "false"[0] == 'f';
  }

  lemma {:induction false} TextRead(t: JsonText, rest: string)
    requires GoodText(t) && EndsNumber(rest)
    ensures ReadValue(Text(t) + rest) == Some(Read(Denote(t), rest))
    decreases t, 0
  {
    match t {
      case TNum(n) =>
        NumRead(n, rest);
      case TStr(parts) =>
        StrRead(parts, rest);
      case TArr(pad, elems) =>
        ArrRead(pad, elems, rest);
      case TObj(pad, members) =>
        ObjRead(pad, members, rest);
      case _ =>
        WordRead(t, rest);
    }
  }

  lemma {:induction false} ElemRead(e: Elem, rest: string)
    requires GoodElem(e) && Closes(rest)
    ensures ReadElem(ElemText(e) + rest) == Some(Read(DenoteElem(e), rest))
    decreases e, 1
  {
    var tail := e.post + rest;
    assert ElemText(e) + rest == e.pre + (Text(e.val) + tail);
    TextStarts(e.val);
    assert (Text(e.val) + tail)[0] == Text(e.val)[0];
    WsSkipped(e.pre, Text(e.val) + tail);
    WsEndsNumber(e.post, rest);
    TextRead(e.val, tail);
    WsSkipped(e.post, rest);
  }

  /** The elements' text, split after the first one. */
  lemma ElemsSplit(elems: seq<Elem>, rest: string)
    requires elems != []
    ensures ElemsText(elems) + "]" + rest ==
      ElemText(elems[0]) + (if |elems| == 1 then "]" + rest else "," + (ElemsText(elems[1..]) + "]" + rest))
  {
    var first, close := ElemText(elems[0]), "]" + rest;
    var sep, more := if |elems| == 1 then "" else ",", ElemsText(elems[1..]);
    assert ElemsText(elems) == first + sep + more;
    Join5(first, sep, more, "]", rest);
    Join3(more, "]", rest);
    assert |elems| == 1 ==> sep + (more + close) == close;
  }

  lemma {:induction false} ElemsRead(elems: seq<Elem>, rest: string)
    requires GoodElems(elems) && elems != []
    ensures ReadElems(ElemsText(elems) + "]" + rest) == Some(Read(DenoteElems(elems), rest))
    decreases elems, 2
  {
    var e := elems[0];
    ElemsSplit(elems, rest);
    if |elems| == 1 {
      var tail := "]" + rest;
      ElemRead(e, tail);
      assert tail[1..] == rest;
      assert DenoteElems(elems) == [DenoteElem(e)];
    } else {
      var more := ElemsText(elems[1..]) + "]" + rest;
      var tail := "," + more;
      ElemRead(e, tail);
      assert tail[1..] == more;
      ElemsRead(elems[1..], rest);
    }
  }

  /** Leading white space may belong to the bracket or to the first element: it does not matter. */
  lemma ElemSkips(s: string)
    ensures ReadElem(SkipWs(s)) == ReadElem(s) && ReadElems(SkipWs(s)) == ReadElems(s)
  {
    SkipTwice(s);
  }

  lemma {:induction false} SkipTwice(s: string)
    ensures SkipWs(SkipWs(s)) == SkipWs(s)
    decreases s
  {
    if s != "" && WsChar(s[0]) {
      SkipTwice(s[1..]);
    }
  }

  lemma {:induction false} SkipPad(pad: string, s: string)
    requires IsWs(pad)
    ensures SkipWs(pad + s) == SkipWs(s)
    decreases pad
  {
    if pad == "" {
      assert pad + s == s;
    } else {
      assert (pad + s)[1..] == pad[1..] + s;
      SkipPad(pad[1..], s);
    }
  }

  lemma Opened(open: string, pad: string, inner: string, close: string, rest: string)
    requires |open| == 1
    ensures var s := open + pad + inner + close + rest;
      s != "" && s[0] == open[0] && s[1..] == pad + (inner + close + rest)
  {
    Join5(open, pad, inner, close, rest);
    Join3(inner, close, rest);
    assert (open + (pad + (inner + close + rest)))[1..] == pad + (inner + close + rest);
  }

  lemma {:induction false} ArrRead(pad: string, elems: seq<Elem>, rest: string)
    requires IsWs(pad) && GoodElems(elems)
    ensures ReadValue(Text(TArr(pad, elems)) + rest) == Some(Read(JArr(DenoteElems(elems)), rest))
    decreases elems, 3
  {
    var s := Text(TArr(pad, elems)) + rest;
    var body := ElemsText(elems) + "]" + rest;
    Opened("[", pad, ElemsText(elems), "]", rest);
    Dispatch(s);
    SkipPad(pad, body);
    if elems == [] {
      EmptyArray(rest);
      assert body == "]" + rest;
    } else {
      ElemsRead(elems, rest);
      ElemsStart(elems, rest);
      ArrayOf(body);
    }
  }

  lemma ArrayOf(s: string)
    requires ReadElems(s).Some? && SkipWs(s) != "" && SkipWs(s)[0] != ']'
    ensures ReadArray(SkipWs(s)) == Some(Read(JArr(ReadElems(s).value.value), ReadElems(s).value.rest))
  {
    ElemSkips(s);
  }

  lemma EmptyArray(rest: string)
    ensures ReadArray(SkipWs("]" + rest)) == Some(Read(JArr([]), rest))
  {
    assert ("]" + rest)[1..] == rest;
  }

  lemma EmptyObject(rest: string)
    ensures ReadObject(SkipWs("}" + rest)) == Some(Read(JObj(map[]), rest))
  {
    assert ("}" + rest)[1..] == rest;
  }

  /** A row of elements does not look like the end of the array. */
  lemma ElemsStart(elems: seq<Elem>, rest: string)
    requires GoodElems(elems) && elems != []
    ensures var u := SkipWs(ElemsText(elems) + "]" + rest); u != "" && u[0] != ']'
  {
    var e := elems[0];
    var after := if |elems| == 1 then "]" + rest else "," + (ElemsText(elems[1..]) + "]" + rest);
    var tail := e.post + after;
    ElemsSplit(elems, rest);
    Join3(e.pre + Text(e.val), e.post, after);
    Join3(e.pre, Text(e.val), tail);
    assert ElemText(e) + after == e.pre + (Text(e.val) + tail);
    TextStarts(e.val);
    assert (Text(e.val) + tail)[0] == Text(e.val)[0];
    WsSkipped(e.pre, Text(e.val) + tail);
  }

  lemma NameRead(m: Member, rest: string)
    requires GoodMember(m)
    ensures ReadName(m.pre + StrText(m.key) + m.mid + ":" + rest) == Some(Read(PartsValue(m.key), rest))
  {
    var after := m.mid + (":" + rest);
    var u := StrText(m.key) + after;
    Join5(m.pre, StrText(m.key), m.mid, ":", rest);
    QuoteSplit(m.key, after);
    WsSkipped(m.pre, u);
    PartsRead(m.key, after);
    WsSkipped(m.mid, ":" + rest);
    assert (":" + rest)[1..] == rest;
  }

  lemma QuoteSplit(key: seq<Part>, after: string)
    ensures var u := StrText(key) + after; u != "" && u[0] == '"' && u[1..] == PartsText(key) + "\"" + after
  {
    var u := StrText(key) + after;
    assert u[1..] == PartsText(key) + "\"" + after;
  }

  /** The members' text, split after the first one's colon. */
  lemma MembersSplit(members: seq<Member>, rest: string)
    requires members != []
    ensures var m := members[0];
      MembersText(members) + "}" + rest ==
        m.pre + StrText(m.key) + m.mid + ":"
        + (ElemText(m.elem) + (if |members| == 1 then "}" + rest else "," + (MembersText(members[1..]) + "}" + rest)))
  {
    var m, close := members[0], "}" + rest;
    var head := m.pre + StrText(m.key) + m.mid + ":";
    var sep, more := if |members| == 1 then "" else ",", MembersText(members[1..]);
    assert MemberText(m) == head + ElemText(m.elem);
    assert MembersText(members) == head + ElemText(m.elem) + sep + more;
    Join3(MembersText(members), "}", rest);
    Join5(head, ElemText(m.elem), sep, more, close);
    Join3(more, "}", rest);
    assert |members| == 1 ==> sep + (more + close) == close;
  }

  /** How a row of members goes on after its first. */
  lemma MembersFrom(s: string, k: Read<string>, e: Read<Json>)
    requires ReadName(s) == Some(k) && ReadElem(k.rest) == Some(e) && e.rest != ""
    ensures e.rest[0] == '}' ==> ReadMembers(s) == Some(Read(map[k.value := e.value], e.rest[1..]))
    ensures e.rest[0] == ',' && ReadMembers(e.rest[1..]).Some? ==>
      ReadMembers(s) == Some(Read(map[k.value := e.value] + ReadMembers(e.rest[1..]).value.value,
                                  ReadMembers(e.rest[1..]).value.rest))
  {
  }

  lemma {:induction false} MembersRead(members: seq<Member>, rest: string)
    requires GoodMembers(members) && members != []
    ensures ReadMembers(MembersText(members) + "}" + rest) == Some(Read(DenoteMembers(members), rest))
    decreases members, 2
  {
    var m := members[0];
    var tail := if |members| == 1 then "}" + rest else "," + (MembersText(members[1..]) + "}" + rest);
    MembersSplit(members, rest);
    NameRead(m, ElemText(m.elem) + tail);
    ElemRead(m.elem, tail);
    MembersFrom(MembersText(members) + "}" + rest, Read(PartsValue(m.key), ElemText(m.elem) + tail),
                Read(DenoteElem(m.elem), tail));
    if |members| == 1 {
      assert tail[1..] == rest;
      assert DenoteMembers(members) == DenoteMember(m);
    } else {
      assert tail[1..] == MembersText(members[1..]) + "}" + rest;
      MembersRead(members[1..], rest);
    }
  }

  /** A row of members starts with a name, not with the closing brace. */
  lemma MembersStart(members: seq<Member>, rest: string)
    requires GoodMembers(members) && members != []
    ensures var u := SkipWs(MembersText(members) + "}" + rest); u != "" && u[0] == '"'
  {
    var m := members[0];
    MembersSplit(members, rest);
    var after := if |members| == 1 then "}" + rest else "," + (MembersText(members[1..]) + "}" + rest);
    var u := StrText(m.key) + (m.mid + (":" + (ElemText(m.elem) + after)));
    assert MembersText(members) + "}" + rest == m.pre + u;
    assert u[0] == '"';
    WsSkipped(m.pre, u);
  }

  lemma {:induction false} ObjRead(pad: string, members: seq<Member>, rest: string)
    requires IsWs(pad) && GoodMembers(members)
    ensures ReadValue(Text(TObj(pad, members)) + rest) == Some(Read(JObj(DenoteMembers(members)), rest))
    decreases members, 3
  {
    var s := Text(TObj(pad, members)) + rest;
    var body := MembersText(members) + "}" + rest;
    Opened("{", pad, MembersText(members), "}", rest);
    Dispatch(s);
    SkipPad(pad, body);
    if members == [] {
      EmptyObject(rest);
      assert body == "}" + rest;
    } else {
      MembersRead(members, rest);
      MembersStart(members, rest);
      ObjectOf(body);
    }
  }

  lemma ObjectOf(s: string)
    requires ReadMembers(s).Some? && SkipWs(s) != "" && SkipWs(s)[0] == '"'
    ensures ReadObject(SkipWs(s)) == Some(Read(JObj(ReadMembers(s).value.value), ReadMembers(s).value.rest))
  {
    MemberSkips(s);
  }

  lemma MemberSkips(s: string)
    ensures ReadMembers(SkipWs(s)) == ReadMembers(s)
  {
    SkipTwice(s);
    assert ReadName(SkipWs(s)) == ReadName(s);
  }
}
