/**
 JSON texts (RFC 8259) and the values they denote.

 A JsonText is the concrete syntax of one value: it fixes every choice a printer has (white
 space, escapes, number form, member order, repeated names), so a statement about all JsonTexts
 covers every way of writing a value down, white space around it included.
 */
module JsonText {
  import opened Options
  import opened Scanner

  // ---------- values, as json.loads returns them ----------

  datatype Json =
    | JNull
    | JBool(b: bool)
    | JNum(n: real)
    | JStr(s: string)
    | JArr(elems: seq<Json>)
    | JObj(members: map<string, Json>)

  // ---------- concrete syntax ----------

  /** One character of a string (section 7): itself, a two-character escape, or \uXXXX forms. */
  datatype Part =
    | Lit(c: char)
    | Short(c: char)
    | Hex(h: string)
    | Surrogates(hi: string, lo: string)

  datatype Number = Number(neg: bool, whole: string, frac: string, exp: Option<Exponent>)
  datatype Exponent = Exponent(upper: bool, sign: string, digits: string)

  datatype JsonText =
    | TNull
    | TBool(b: bool)
    | TNum(n: Number)
    | TStr(parts: seq<Part>)
    | TArr(pad: string, elems: seq<Elem>)
    | TObj(pad: string, members: seq<Member>)
  /** An element with the white space on both of its sides. */
  datatype Elem = Elem(pre: string, val: JsonText, post: string)
  /** pre "key" mid : elem */
  datatype Member = Member(pre: string, key: seq<Part>, mid: string, elem: Elem)

  predicate IsWs(s: string) {
    forall i :: 0 <= i < |s| ==> s[i] == ' ' || s[i] == '\t' || s[i] == '\n' || s[i] == '\r'
  }

  predicate IsDigit(c: char) {
    '0' <= c <= '9'
  }

  predicate Digits(s: string) {
    forall i :: 0 <= i < |s| ==> IsDigit(s[i])
  }

  predicate IsHexDigit(c: char) {
    IsDigit(c) || 'a' <= c <= 'f' || 'A' <= c <= 'F'
  }

  function HexDigit(c: char): (d: nat)
    requires IsHexDigit(c)
    ensures d < 16
  {
    if IsDigit(c) then c as int - '0' as int
    else if 'a' <= c <= 'f' then 10 + (c as int - 'a' as int)
    else 10 + (c as int - 'A' as int)
  }

  predicate IsHex4(h: string) {
    |h| == 4 && forall i :: 0 <= i < 4 ==> IsHexDigit(h[i])
  }

  function HexValue(h: string): (v: nat)
    requires IsHex4(h)
    ensures v < 0x1_0000
  {
    ((HexDigit(h[0]) * 16 + HexDigit(h[1])) * 16 + HexDigit(h[2])) * 16 + HexDigit(h[3])
  }

  predicate GoodPart(p: Part) {
    match p
    case Lit(c) => c >= ' ' && c != '"' && c != '\\'
    case Short(c) => c in "\"\\/bfnrt"
    case Hex(h) => IsHex4(h) && !(0xD800 <= HexValue(h) < 0xE000)
    case Surrogates(hi, lo) =>
      && IsHex4(hi) && 0xD800 <= HexValue(hi) < 0xDC00
      && IsHex4(lo) && 0xDC00 <= HexValue(lo) < 0xE000
  }

  predicate GoodParts(parts: seq<Part>) {
    forall p :: p in parts ==> GoodPart(p)
  }

  predicate GoodNumber(n: Number) {
    && n.whole != "" && Digits(n.whole) && (n.whole[0] == '0' ==> |n.whole| == 1)
    && Digits(n.frac)
    && (n.exp.Some? ==>
          n.exp.value.digits != "" && Digits(n.exp.value.digits) && n.exp.value.sign in {"", "+", "-"})
  }

  predicate GoodText(t: JsonText)
    decreases t
  {
    match t
    case TNull => true
    case TBool(_) => true
    case TNum(n) => GoodNumber(n)
    case TStr(parts) => GoodParts(parts)
    case TArr(pad, elems) => IsWs(pad) && GoodElems(elems)
    case TObj(pad, members) => IsWs(pad) && GoodMembers(members)
  }

  predicate GoodElems(elems: seq<Elem>)
    decreases elems
  {
    elems == [] || (GoodElem(elems[0]) && GoodElems(elems[1..]))
  }

  predicate GoodMembers(members: seq<Member>)
    decreases members
  {
    members == [] || (GoodMember(members[0]) && GoodMembers(members[1..]))
  }

  predicate GoodElem(e: Elem)
    decreases e
  {
    IsWs(e.pre) && IsWs(e.post) && GoodText(e.val)
  }

  predicate GoodMember(m: Member)
    decreases m
  {
    IsWs(m.pre) && IsWs(m.mid) && GoodParts(m.key) && GoodElem(m.elem)
  }

  function EscapeText(h: string): string {
    "\\u" + h
  }

  function PartText(p: Part): string {
    match p
    case Lit(c) => [c]
    case Short(c) => ['\\', c]
    case Hex(h) => EscapeText(h)
    case Surrogates(hi, lo) => EscapeText(hi) + EscapeText(lo)
  }

  function PartsText(parts: seq<Part>): string {
    if parts == [] then "" else PartText(parts[0]) + PartsText(parts[1..])
  }

  function StrText(parts: seq<Part>): string {
    "\"" + PartsText(parts) + "\""
  }

  function NumText(n: Number): string {
    (if n.neg then "-" else "") + n.whole + (if n.frac == "" then "" else "." + n.frac)
    + match n.exp
      case None => ""
      case Some(e) => (if e.upper then "E" else "e") + e.sign + e.digits
  }

  function Text(t: JsonText): string
    decreases t, 0
  {
    match t
    case TNull => "null"
    case TBool(b) => if b then "true" else "false"
    case TNum(n) => NumText(n)
    case TStr(parts) => StrText(parts)
    case TArr(pad, elems) => "[" + pad + ElemsText(elems) + "]"
    case TObj(pad, members) => "{" + pad + MembersText(members) + "}"
  }

  function ElemText(e: Elem): string
    decreases e, 0
  {
    e.pre + Text(e.val) + e.post
  }

  function ElemsText(elems: seq<Elem>): string
    decreases elems, 1
  {
    if elems == [] then ""
    else ElemText(elems[0]) + (if |elems| == 1 then "" else ",") + ElemsText(elems[1..])
  }

  function MemberText(m: Member): string
    decreases m, 0
  {
    m.pre + StrText(m.key) + m.mid + ":" + ElemText(m.elem)
  }

  function MembersText(members: seq<Member>): string
    decreases members, 1
  {
    if members == [] then ""
    else MemberText(members[0]) + (if |members| == 1 then "" else ",") + MembersText(members[1..])
  }

  // ---------- denotation ----------

  function ShortValue(c: char): char {
    match c
    case 'b' => '\U{8}'
    case 'f' => '\U{c}'
    case 'n' => '\n'
    case 'r' => '\r'
    case 't' => '\t'
    case _ => c
  }

  function PartValue(p: Part): char
    requires GoodPart(p)
  {
    match p
    case Lit(c) => c
    case Short(c) => ShortValue(c)
    case Hex(h) => HexValue(h) as char
    case Surrogates(hi, lo) =>
      (0x1_0000 + (HexValue(hi) - 0xD800) * 0x400 + (HexValue(lo) - 0xDC00)) as char
  }

  function PartsValue(parts: seq<Part>): string
    requires GoodParts(parts)
  {
    if parts == [] then "" else [PartValue(parts[0])] + PartsValue(parts[1..])
  }

  function DigitsValue(s: string): nat
    requires Digits(s)
  {
    if s == "" then 0 else DigitsValue(s[..|s| - 1]) * 10 + (s[|s| - 1] as int - '0' as int)
  }

  function Pow10(n: nat): (r: real)
    ensures r > 0.0
  {
    if n == 0 then 1.0 else 10.0 * Pow10(n - 1)
  }

  /** The exact decimal value; a float's rounding is not modelled. */
  function NumberValue(n: Number): real
    requires GoodNumber(n)
  {
    var m := DigitsValue(n.whole) as real + DigitsValue(n.frac) as real / Pow10(|n.frac|);
    var scaled := match n.exp
      case None => m
      case Some(e) =>
        if e.sign == "-" then m / Pow10(DigitsValue(e.digits)) else m * Pow10(DigitsValue(e.digits));
    if n.neg then -scaled else scaled
  }

  function Denote(t: JsonText): Json
    requires GoodText(t)
    decreases t, 0
  {
    match t
    case TNull => JNull
    case TBool(b) => JBool(b)
    case TNum(n) => JNum(NumberValue(n))
    case TStr(parts) => JStr(PartsValue(parts))
    case TArr(_, elems) => JArr(DenoteElems(elems))
    case TObj(_, members) => JObj(DenoteMembers(members))
  }

  function DenoteElem(e: Elem): Json
    requires GoodElem(e)
    decreases e, 1
  {
    Denote(e.val)
  }

  function DenoteMember(m: Member): map<string, Json>
    requires GoodMember(m)
    decreases m, 1
  {
    map[PartsValue(m.key) := DenoteElem(m.elem)]
  }

  function DenoteElems(elems: seq<Elem>): seq<Json>
    requires GoodElems(elems)
    decreases elems, 1
  {
    if elems == [] then [] else [DenoteElem(elems[0])] + DenoteElems(elems[1..])
  }

  /** A repeated name keeps its last value, as in a Python dict. */
  function DenoteMembers(members: seq<Member>): map<string, Json>
    requires GoodMembers(members)
    decreases members, 1
  {
    if members == [] then map[]
    else DenoteMember(members[0]) + DenoteMembers(members[1..])
  }

  // ---------- json.loads ----------

  function Padded(pre: string, t: JsonText, post: string): string {
    pre + Text(t) + post
  }

  /** json.loads: the value a JSON text denotes, white space around it ignored. Other inputs are
      unconstrained (None stands for JSONDecodeError). */
  ghost predicate ReadsJson(loads: string -> Option<Json>) {
    forall pre, t, post {:trigger Padded(pre, t, post)} ::
      IsWs(pre) && GoodText(t) && IsWs(post) ==> loads(Padded(pre, t, post)) == Some(Denote(t))
  }

  // ---------- JSON texts as scanner items ----------

  /** Characters that are neither quotes nor braces. */
  predicate Dull(s: string) {
    forall i :: 0 <= i < |s| ==> s[i] != '"' && s[i] != '{' && s[i] != '}'
  }

  function Plains(s: string): (items: seq<Item>) {
    if s == "" then [] else [Plain(s[0])] + Plains(s[1..])
  }

  lemma {:induction false} PlainsText(s: string)
    requires Dull(s)
    ensures GoodItems(Plains(s), false) && ItemsText(Plains(s)) == s
  {
    if s != "" {
      PlainsText(s[1..]);
      assert s == [s[0]] + s[1..];
    }
  }

  function EscapeUnits(h: string): seq<Unit> {
    [Escaped('u')] + Raws(h)
  }

  function PartUnits(p: Part): seq<Unit> {
    match p
    case Lit(c) => [Raw(c)]
    case Short(c) => [Escaped(c)]
    case Hex(h) => EscapeUnits(h)
    case Surrogates(hi, lo) => EscapeUnits(hi) + EscapeUnits(lo)
  }

  function Raws(s: string): seq<Unit> {
    if s == "" then [] else [Raw(s[0])] + Raws(s[1..])
  }

  lemma {:induction false} RawsText(s: string)
    requires forall i :: 0 <= i < |s| ==> s[i] != '"' && s[i] != '\\'
    ensures GoodUnits(Raws(s)) && UnitsText(Raws(s)) == s
  {
    if s != "" {
      RawsText(s[1..]);
      assert s == [s[0]] + s[1..];
      assert Raws(s)[1..] == Raws(s[1..]);
    }
  }

  lemma EscapeUnitsText(h: string)
    requires IsHex4(h)
    ensures GoodUnits(EscapeUnits(h)) && UnitsText(EscapeUnits(h)) == EscapeText(h)
  {
    RawsText(h);
    UnitsTextAppend([Escaped('u')], Raws(h));
    assert UnitsText([Escaped('u')]) == UnitText(Escaped('u')) + UnitsText([]);
  }

  lemma PartUnitsText(p: Part)
    requires GoodPart(p)
    ensures GoodUnits(PartUnits(p)) && UnitsText(PartUnits(p)) == PartText(p)
  {
    match p
    case Lit(c) => OneUnit(Raw(c));
    case Short(c) => OneUnit(Escaped(c));
    case Hex(h) => EscapeUnitsText(h);
    case Surrogates(hi, lo) =>
      EscapeUnitsText(hi);
      EscapeUnitsText(lo);
      UnitsTextAppend(EscapeUnits(hi), EscapeUnits(lo));
  }

  lemma OneUnit(u: Unit)
    ensures UnitsText([u]) == UnitText(u)
  {
    assert [u][1..] == [];
  }

  function PartsUnits(parts: seq<Part>): seq<Unit> {
    if parts == [] then [] else PartUnits(parts[0]) + PartsUnits(parts[1..])
  }

  lemma {:induction false} PartsUnitsText(parts: seq<Part>)
    requires GoodParts(parts)
    ensures GoodUnits(PartsUnits(parts)) && UnitsText(PartsUnits(parts)) == PartsText(parts)
  {
    if parts != [] {
      PartUnitsText(parts[0]);
      PartsUnitsText(parts[1..]);
      UnitsTextAppend(PartUnits(parts[0]), PartsUnits(parts[1..]));
    }
  }

  function Str(parts: seq<Part>): Item {
    Quoted(PartsUnits(parts))
  }

  function ItemsOf(t: JsonText): seq<Item>
    decreases t, 0
  {
    match t
    case TNull => Plains("null")
    case TBool(b) => Plains(if b then "true" else "false")
    case TNum(n) => Plains(NumText(n))
    case TStr(parts) => [Str(parts)]
    case TArr(pad, elems) => Plains("[" + pad) + ItemsOfElems(elems) + Plains("]")
    case TObj(pad, members) => [Group(pad, members)]
  }

  function Group(pad: string, members: seq<Member>): Item
    decreases members, 2
  {
    Braced(Plains(pad) + ItemsOfMembers(members))
  }

  function ItemsOfElem(e: Elem): seq<Item>
    decreases e, 0
  {
    Plains(e.pre) + ItemsOf(e.val) + Plains(e.post)
  }

  function Comma(last: bool): string {
    if last then "" else ","
  }

  function ItemsOfElems(elems: seq<Elem>): seq<Item>
    decreases elems, 1
  {
    if elems == [] then []
    else ItemsOfElem(elems[0]) + Plains(Comma(|elems| == 1)) + ItemsOfElems(elems[1..])
  }

  function ItemsOfMember(m: Member): seq<Item>
    decreases m, 0
  {
    Plains(m.pre) + [Str(m.key)] + Plains(m.mid + ":") + ItemsOfElem(m.elem)
  }

  function ItemsOfMembers(members: seq<Member>): seq<Item>
    decreases members, 1
  {
    if members == [] then []
    else ItemsOfMember(members[0]) + Plains(Comma(|members| == 1)) + ItemsOfMembers(members[1..])
  }

  /** The items spell the text out. */
  ghost predicate Spells(items: seq<Item>, text: string) {
    GoodItems(items, false) && ItemsText(items) == text
  }

  lemma SpellsAppend(a: seq<Item>, s: string, b: seq<Item>, t: string)
    requires Spells(a, s) && Spells(b, t)
    ensures Spells(a + b, s + t)
  {
    ItemsTextAppend(a, b);
  }

  lemma SpellsPlain(s: string)
    requires Dull(s)
    ensures Spells(Plains(s), s)
  {
    PlainsText(s);
  }

  lemma SpellsStr(parts: seq<Part>)
    requires GoodParts(parts)
    ensures Spells([Str(parts)], StrText(parts))
  {
    PartsUnitsText(parts);
    assert ItemsText([Str(parts)]) == ItemText(Str(parts)) + ItemsText([]);
  }

  /** Every JSON text is spelled by items, so its strings and braces are balanced. */
  lemma {:induction false} TextSpelled(t: JsonText)
    requires GoodText(t)
    ensures Spells(ItemsOf(t), Text(t))
    decreases t, 0
  {
    match t
    case TNull => SpellsPlain("null");
    case TBool(b) => SpellsPlain(if b then "true" else "false");
    case TNum(n) =>
      SpellsPlain(NumText(n));
    case TStr(parts) => SpellsStr(parts);
    case TArr(pad, elems) =>
      SpellsPlain("[" + pad);
      ElemsSpelled(elems);
      SpellsPlain("]");
      SpellsAppend(Plains("[" + pad), "[" + pad, ItemsOfElems(elems), ElemsText(elems));
      SpellsAppend(Plains("[" + pad) + ItemsOfElems(elems), "[" + pad + ElemsText(elems), Plains("]"), "]");
    case TObj(pad, members) =>
      GroupSpelled(pad, members);
  }

  lemma BracedSpelled(items: seq<Item>, text: string)
    requires Spells(items, text)
    ensures Spells([Braced(items)], "{" + text + "}")
  {
    assert [Braced(items)][1..] == [];
    assert ItemsText([Braced(items)]) == ItemText(Braced(items));
    assert GoodItem(Braced(items), false);
  }

  lemma GroupSpelled(pad: string, members: seq<Member>)
    requires IsWs(pad) && GoodMembers(members)
    ensures Spells([Group(pad, members)], "{" + pad + MembersText(members) + "}")
    decreases members, 2
  {
    SpellsPlain(pad);
    MembersSpelled(members);
    SpellsAppend(Plains(pad), pad, ItemsOfMembers(members), MembersText(members));
    BracedSpelled(Plains(pad) + ItemsOfMembers(members), pad + MembersText(members));
  }

  lemma {:induction false} ElemSpelled(e: Elem)
    requires GoodElem(e)
    ensures Spells(ItemsOfElem(e), ElemText(e))
    decreases e, 0
  {
    SpellsPlain(e.pre);
    TextSpelled(e.val);
    SpellsPlain(e.post);
    SpellsAppend(Plains(e.pre), e.pre, ItemsOf(e.val), Text(e.val));
    SpellsAppend(Plains(e.pre) + ItemsOf(e.val), e.pre + Text(e.val), Plains(e.post), e.post);
  }

  lemma {:induction false} ElemsSpelled(elems: seq<Elem>)
    requires GoodElems(elems)
    ensures Spells(ItemsOfElems(elems), ElemsText(elems))
    decreases elems, 1
  {
    if elems != [] {
      var comma := Comma(|elems| == 1);
      ElemSpelled(elems[0]);
      SpellsPlain(comma);
      ElemsSpelled(elems[1..]);
      SpellsAppend(ItemsOfElem(elems[0]), ElemText(elems[0]), Plains(comma), comma);
      SpellsAppend(ItemsOfElem(elems[0]) + Plains(comma), ElemText(elems[0]) + comma,
                   ItemsOfElems(elems[1..]), ElemsText(elems[1..]));
    }
  }

  lemma {:induction false} MemberSpelled(m: Member)
    requires GoodMember(m)
    ensures Spells(ItemsOfMember(m), MemberText(m))
    decreases m, 0
  {
    SpellsPlain(m.pre);
    SpellsStr(m.key);
    SpellsPlain(m.mid + ":");
    ElemSpelled(m.elem);
    SpellsAppend(Plains(m.pre), m.pre, [Str(m.key)], StrText(m.key));
    SpellsAppend(Plains(m.pre) + [Str(m.key)], m.pre + StrText(m.key), Plains(m.mid + ":"), m.mid + ":");
    SpellsAppend(Plains(m.pre) + [Str(m.key)] + Plains(m.mid + ":"), m.pre + StrText(m.key) + (m.mid + ":"),
                 ItemsOfElem(m.elem), ElemText(m.elem));
    assert m.pre + StrText(m.key) + (m.mid + ":") + ElemText(m.elem) == MemberText(m);
  }

  lemma {:induction false} MembersSpelled(members: seq<Member>)
    requires GoodMembers(members)
    ensures Spells(ItemsOfMembers(members), MembersText(members))
    decreases members, 1
  {
    if members != [] {
      var comma := Comma(|members| == 1);
      MemberSpelled(members[0]);
      SpellsPlain(comma);
      MembersSpelled(members[1..]);
      SpellsAppend(ItemsOfMember(members[0]), MemberText(members[0]), Plains(comma), comma);
      SpellsAppend(ItemsOfMember(members[0]) + Plains(comma), MemberText(members[0]) + comma,
                   ItemsOfMembers(members[1..]), MembersText(members[1..]));
    }
  }

  /** A JSON object, however printed, is one braced group: the scanners take it whole. */
  lemma ObjectIsGroup(t: JsonText)
    requires GoodText(t) && t.TObj?
    ensures IsGroup(Text(t))
  {
    TextSpelled(t);
    var g := Group(t.pad, t.members);
    assert ItemsOf(t) == [g];
    assert GoodItem(ItemsOf(t)[0], false);
    assert ItemsText([g]) == ItemText(g) + ItemsText([]);
    assert GoodItems(g.items, false);
  }
}
