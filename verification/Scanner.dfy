/**
 The brace scanner of agent_driver/report_extractor.py.
 */
module Scanner {

  // ---------- the grammar ----------

  // The reference definition is a grammar, not a scanner: a text is laid out as a row of items
  // (plain characters, quoted strings, braced groups, stray closers) followed by an unfinished tail.
  // Every text has such a layout, the layout is unique as far as its braced groups go, and the
  // scanner returns exactly those groups.

  datatype Unit = Raw(c: char) | Escaped(c: char)

  datatype Item =
    | Plain(c: char)
    | Quoted(units: seq<Unit>)
    | Braced(items: seq<Item>)
    | Stray

  /** What is left open at the end of a text: nothing, a string, or a group around a further tail. */
  datatype Tail =
    | Closed
    | InString(units: seq<Unit>, esc: bool)
    | InBraces(items: seq<Item>, rest: Tail)

  datatype Layout = Layout(items: seq<Item>, tail: Tail)

  predicate GoodUnits(us: seq<Unit>) {
    forall u :: u in us && u.Raw? ==> u.c != '"' && u.c != '\\'
  }

  predicate GoodItem(it: Item, top: bool)
    decreases it
  {
    match it
    case Plain(c) => c != '"' && c != '{' && c != '}'
    case Quoted(us) => GoodUnits(us)
    case Braced(items) => forall i :: 0 <= i < |items| ==> GoodItem(items[i], false)
    case Stray => top
  }

  predicate GoodItems(items: seq<Item>, top: bool) {
    forall i :: 0 <= i < |items| ==> GoodItem(items[i], top)
  }

  predicate GoodTail(t: Tail) {
    match t
    case Closed => true
    case InString(us, _) => GoodUnits(us)
    case InBraces(items, rest) => GoodItems(items, false) && GoodTail(rest)
  }

  predicate GoodLayout(l: Layout) {
    GoodItems(l.items, true) && GoodTail(l.tail)
  }

  function UnitText(u: Unit): string {
    match u
    case Raw(c) => [c]
    case Escaped(c) => ['\\', c]
  }

  function UnitsText(us: seq<Unit>): string {
    if us == [] then "" else UnitText(us[0]) + UnitsText(us[1..])
  }

  function ItemText(it: Item): string
    decreases it, 0
  {
    match it
    case Plain(c) => [c]
    case Quoted(us) => "\"" + UnitsText(us) + "\""
    case Braced(items) => "{" + ItemsText(items) + "}"
    case Stray => "}"
  }

  function ItemsText(items: seq<Item>): string
    decreases items, 1
  {
    if items == [] then "" else ItemText(items[0]) + ItemsText(items[1..])
  }

  function TailText(t: Tail): string {
    match t
    case Closed => ""
    case InString(us, esc) => "\"" + UnitsText(us) + (if esc then "\\" else "")
    case InBraces(items, rest) => "{" + ItemsText(items) + TailText(rest)
  }

  function LayoutText(l: Layout): string {
    ItemsText(l.items) + TailText(l.tail)
  }

  /** The texts of the top-level braced groups, in order. */
  function Groups(items: seq<Item>): seq<string> {
    if items == [] then []
    else (if items[0].Braced? then [ItemText(items[0])] else []) + Groups(items[1..])
  }

  lemma {:induction false} UnitsTextAppend(a: seq<Unit>, b: seq<Unit>)
    ensures UnitsText(a + b) == UnitsText(a) + UnitsText(b)
  {
    if a == [] {
      assert a + b == b;
    } else {
      assert (a + b)[1..] == a[1..] + b;
      UnitsTextAppend(a[1..], b);
    }
  }

  lemma {:induction false} ItemsTextAppend(a: seq<Item>, b: seq<Item>)
    ensures ItemsText(a + b) == ItemsText(a) + ItemsText(b)
  {
    if a == [] {
      assert a + b == b;
    } else {
      assert (a + b)[1..] == a[1..] + b;
      ItemsTextAppend(a[1..], b);
    }
  }

  lemma {:induction false} GroupsAppend(a: seq<Item>, b: seq<Item>)
    ensures Groups(a + b) == Groups(a) + Groups(b)
  {
    if a == [] {
      assert a + b == b;
    } else {
      assert (a + b)[0] == a[0] && (a + b)[1..] == a[1..] + b;
      GroupsAppend(a[1..], b);
      var head := if a[0].Braced? then [ItemText(a[0])] else [];
      assert Groups(a) == head + Groups(a[1..]) && Groups(a + b) == head + Groups(a[1..] + b);
    }
  }

  // ---------- every text has a layout ----------

  datatype Grown = Open(tail: Tail) | Done(item: Item)

  /** One more character after an unfinished tail: it stays open, or closes into an item. */
  function GrowTail(t: Tail, ch: char): Grown
    requires !t.Closed?
  {
    match t
    case InString(us, esc) =>
      if esc then Open(InString(us + [Escaped(ch)], false))
      else if ch == '\\' then Open(InString(us, true))
      else if ch == '"' then Done(Quoted(us))
      else Open(InString(us + [Raw(ch)], false))
    case InBraces(items, rest) =>
      if rest.Closed? then
        if ch == '"' then Open(InBraces(items, InString([], false)))
        else if ch == '{' then Open(InBraces(items, InBraces([], Closed)))
        else if ch == '}' then Done(Braced(items))
        else Open(InBraces(items + [Plain(ch)], Closed))
      else
        match GrowTail(rest, ch)
        case Open(rest') => Open(InBraces(items, rest'))
        case Done(it) => Open(InBraces(items + [it], Closed))
  }

  ghost predicate GrownFrom(g: Grown, t: Tail, ch: char) {
    match g
    case Open(t') => !t'.Closed? && GoodTail(t') && TailText(t') == TailText(t) + [ch]
    case Done(it) => GoodItem(it, false) && ItemText(it) == TailText(t) + [ch]
  }

  lemma UnitsTextSnoc(us: seq<Unit>, u: Unit)
    ensures UnitsText(us + [u]) == UnitsText(us) + UnitText(u)
  {
    UnitsTextAppend(us, [u]);
    assert [u][1..] == [];
    assert UnitsText([u]) == UnitText(u) + "";
  }

  lemma GrowString(us: seq<Unit>, esc: bool, ch: char)
    requires GoodUnits(us)
    ensures GrownFrom(GrowTail(InString(us, esc), ch), InString(us, esc), ch)
  {
    if esc {
      UnitsTextSnoc(us, Escaped(ch));
      assert ['"'] + UnitsText(us) + ['\\', ch] == (['"'] + UnitsText(us) + ['\\']) + [ch];
    } else if ch != '\\' && ch != '"' {
      UnitsTextSnoc(us, Raw(ch));
      assert ['"'] + (UnitsText(us) + [ch]) == (['"'] + UnitsText(us)) + [ch];
    }
  }

  lemma {:induction false} GrowTailText(t: Tail, ch: char)
    requires !t.Closed? && GoodTail(t)
    ensures GrownFrom(GrowTail(t, ch), t, ch)
  {
    match t
    case InString(us, esc) =>
      GrowString(us, esc, ch);
    case InBraces(items, rest) =>
      if rest.Closed? {
        GrowGroup(items, ch);
      } else {
        GrowTailText(rest, ch);
        GrowInside(items, rest, ch);
      }
  }

  lemma GrowGroup(items: seq<Item>, ch: char)
    requires GoodTail(InBraces(items, Closed))
    ensures GrownFrom(GrowTail(InBraces(items, Closed), ch), InBraces(items, Closed), ch)
  {
    if ch == '"' || ch == '{' {
      OpensInside(items, ch);
    } else if ch != '}' {
      MoreInside(items, Plain(ch));
      assert ItemText(Plain(ch)) == [ch];
    }
  }

  /** One more item in an open group. */
  lemma MoreInside(items: seq<Item>, it: Item)
    requires GoodTail(InBraces(items, Closed)) && GoodItem(it, false)
    ensures GoodTail(InBraces(items + [it], Closed))
    ensures TailText(InBraces(items + [it], Closed)) == TailText(InBraces(items, Closed)) + ItemText(it)
  {
    ItemsTextAppend(items, [it]);
    assert ItemsText([it]) == ItemText(it);
    OpenGroupText(items);
    OpenGroupText(items + [it]);
    Join("{", ItemsText(items), ItemText(it));
  }

  lemma OpenGroupText(items: seq<Item>)
    ensures TailText(InBraces(items, Closed)) == "{" + ItemsText(items)
  {
  }

  lemma Join(a: string, b: string, c: string)
    ensures a + (b + c) == a + b + c
  {
  }

  /** A quote or a brace opens something in an open group. */
  lemma OpensInside(items: seq<Item>, ch: char)
    requires GoodTail(InBraces(items, Closed)) && (ch == '"' || ch == '{')
    ensures GrownFrom(GrowTail(InBraces(items, Closed), ch), InBraces(items, Closed), ch)
  {
    OpenGroupText(items);
    assert TailText(if ch == '"' then InString([], false) else InBraces([], Closed)) == [ch];
  }

  lemma {:induction false} GrowInside(items: seq<Item>, rest: Tail, ch: char)
    requires !rest.Closed? && GoodTail(InBraces(items, rest)) && GrownFrom(GrowTail(rest, ch), rest, ch)
    ensures GrownFrom(GrowTail(InBraces(items, rest), ch), InBraces(items, rest), ch)
  {
    Join("{" + ItemsText(items), TailText(rest), [ch]);
    match GrowTail(rest, ch)
    case Open(rest') =>
    case Done(it) =>
      MoreInside(items, it);
      OpenGroupText(items);
  }
  lemma GoodInside(it: Item)
    requires GoodItem(it, false)
    ensures GoodItem(it, true)
  {
  }

  function Grow(l: Layout, ch: char): (r: Layout)
    requires GoodLayout(l)
    ensures GoodLayout(r) && LayoutText(r) == LayoutText(l) + [ch]
  {
    if l.tail.Closed? then
      ItemsTextAppend(l.items, [Plain(ch)]);
      ItemsTextAppend(l.items, [Stray]);
      if ch == '"' then l.(tail := InString([], false))
      else if ch == '{' then l.(tail := InBraces([], Closed))
      else if ch == '}' then l.(items := l.items + [Stray])
      else l.(items := l.items + [Plain(ch)])
    else
      GrowTailText(l.tail, ch);
      match GrowTail(l.tail, ch)
      case Open(t) => l.(tail := t)
      case Done(it) =>
        GoodInside(it);
        ItemsTextAppend(l.items, [it]);
        Layout(l.items + [it], Closed)
  }

  /** The layout of a text. */
  function LayoutOf(text: string): (l: Layout)
    ensures GoodLayout(l) && LayoutText(l) == text
  {
    if text == "" then Layout([], Closed)
    else
      assert text == text[..|text| - 1] + [text[|text| - 1]];
      Grow(LayoutOf(text[..|text| - 1]), text[|text| - 1])
  }

  // ---------- the scanner's state, one character at a time ----------

  /** `current` is text[start..i] while a group is open, and empty otherwise. */
  datatype Scan = Scan(depth: nat, inStr: bool, esc: bool, current: string, out: seq<string>)

  const FRESH := Scan(0, false, false, "", [])

  function Keep(st: Scan, ch: char): string {
    if st.depth > 0 then st.current + [ch] else ""
  }

  function ScanChar(st: Scan, ch: char): Scan {
    if st.inStr then
      if st.esc then st.(esc := false, current := Keep(st, ch))
      else if ch == '\\' then st.(esc := true, current := Keep(st, ch))
      else if ch == '"' then st.(inStr := false, current := Keep(st, ch))
      else st.(current := Keep(st, ch))
    else if ch == '"' then st.(inStr := true, current := Keep(st, ch))
    else if ch == '{' then
      st.(depth := st.depth + 1, current := (if st.depth == 0 then "" else st.current) + [ch])
    else if ch == '}' && st.depth > 0 then
      if st.depth == 1 then st.(depth := 0, current := "", out := st.out + [st.current + [ch]])
      else st.(depth := st.depth - 1, current := Keep(st, ch))
    else st.(current := Keep(st, ch))
  }

  function ScanText(st: Scan, text: string): Scan
    decreases text
  {
    if text == "" then st else ScanText(ScanChar(st, text[0]), text[1..])
  }

  /** The slices the scanner yields over a whole text. */
  function Slices(text: string): seq<string> {
    ScanText(FRESH, text).out
  }

  lemma {:induction false} ScanTextAppend(st: Scan, a: string, b: string)
    ensures ScanText(st, a + b) == ScanText(ScanText(st, a), b)
    decreases a
  {
    if a == "" {
      assert a + b == b;
    } else {
      assert (a + b)[1..] == a[1..] + b;
      ScanTextAppend(ScanChar(st, a[0]), a[1..], b);
    }
  }

  lemma ScanTextSnoc(st: Scan, a: string, ch: char)
    ensures ScanText(st, a + [ch]) == ScanChar(ScanText(st, a), ch)
  {
    ScanTextAppend(st, a, [ch]);
  }

  /** The state after `more` characters of an item were kept. */
  function Kept(st: Scan, more: string): Scan {
    if st.depth > 0 then st.(current := st.current + more) else st
  }

  predicate Resting(st: Scan) {
    !st.inStr && !st.esc && (st.depth == 0 ==> st.current == "")
  }

  predicate Reading(st: Scan) {
    st.inStr && !st.esc && (st.depth == 0 ==> st.current == "")
  }

  lemma {:induction false} ScanUnits(st: Scan, us: seq<Unit>)
    requires Reading(st) && GoodUnits(us)
    ensures ScanText(st, UnitsText(us)) == Kept(st, UnitsText(us))
    decreases us
  {
    if us != [] {
      var u, rest := us[0], UnitsText(us[1..]);
      ScanTextAppend(st, UnitText(u), rest);
      ScanUnit(st, u);
      assert GoodUnits([u]) && GoodUnits(us[1..]);
      ScanUnits(Kept(st, UnitText(u)), us[1..]);
      KeptTwice(st, UnitText(u), rest);
    }
  }

  lemma ScanUnit(st: Scan, u: Unit)
    requires Reading(st) && GoodUnits([u])
    ensures ScanText(st, UnitText(u)) == Kept(st, UnitText(u))
  {
    assert u in [u];
    match u
    case Raw(c) =>
      assert ScanText(st, [c]) == ScanChar(st, c);
    case Escaped(c) =>
      ScanTextSnoc(st, ['\\'], c);
      assert ['\\'] + [c] == ['\\', c];
      assert ScanText(st, ['\\']) == ScanChar(st, '\\');
  }

  lemma ScanQuoted(st: Scan, us: seq<Unit>)
    requires Resting(st) && GoodUnits(us)
    ensures ScanText(st, ItemText(Quoted(us))) == Kept(st, ItemText(Quoted(us)))
  {
    var body := UnitsText(us);
    var quoted := ScanChar(st, '"');
    ScanTextAppend(st, "\"", body);
    assert ScanText(st, "\"") == quoted;
    assert quoted == Kept(st, "\"").(inStr := true);
    ScanUnits(quoted, us);
    ScanTextSnoc(st, "\"" + body, '"');
    KeptTwice(st, "\"", body);
    KeptTwice(st, "\"" + body, "\"");
  }

  lemma KeptTwice(st: Scan, a: string, b: string)
    ensures Kept(Kept(st, a), b) == Kept(st, a + b)
  {
    assert (st.current + a) + b == st.current + (a + b);
  }

  /** Inside a group, an item leaves the scanner's depth and output as they were. */
  lemma {:induction false} ScanInner(st: Scan, it: Item)
    requires Resting(st) && st.depth > 0 && GoodItem(it, false)
    ensures ScanText(st, ItemText(it)) == Kept(st, ItemText(it))
    decreases it, 0
  {
    match it
    case Plain(c) =>
      assert ScanText(st, [c]) == ScanChar(st, c);
    case Quoted(us) =>
      ScanQuoted(st, us);
    case Braced(items) =>
      var body := ItemsText(items);
      var st1 := ScanChar(st, '{');
      ScanTextAppend(st, "{", body);
      assert ScanText(st, "{") == st1;
      ScanInners(st1, items);
      ScanTextSnoc(st, "{" + body, '}');
      assert st.current + ['{'] + body + ['}'] == st.current + ItemText(it);
  }

  lemma {:induction false} ScanInners(st: Scan, items: seq<Item>)
    requires Resting(st) && st.depth > 0 && GoodItems(items, false)
    ensures ScanText(st, ItemsText(items)) == Kept(st, ItemsText(items))
    decreases items, 1
  {
    if items == [] {
      assert st.current + "" == st.current;
    } else {
      var head, rest := ItemText(items[0]), ItemsText(items[1..]);
      ScanTextAppend(st, head, rest);
      ScanInner(st, items[0]);
      ScanInners(Kept(st, head), items[1..]);
      KeptTwice(st, head, rest);
    }
  }

  /** At depth 0, a braced group is emitted whole and nothing else is emitted. */
  lemma ScanTop(st: Scan, it: Item)
    requires Resting(st) && st.depth == 0 && GoodItem(it, true)
    ensures ScanText(st, ItemText(it)) == st.(out := st.out + Groups([it]))
  {
    match it
    case Plain(c) =>
      assert ScanText(st, [c]) == ScanChar(st, c);
    case Stray =>
      assert ScanText(st, "}") == ScanChar(st, '}');
    case Quoted(us) =>
      ScanQuoted(st, us);
    case Braced(items) =>
      var body := ItemsText(items);
      var st1 := ScanChar(st, '{');
      ScanTextAppend(st, "{", body);
      assert ScanText(st, "{") == st1;
      ScanInners(st1, items);
      ScanTextSnoc(st, "{" + body, '}');
      assert "" + ['{'] + body + ['}'] == ItemText(it);
  }

  lemma {:induction false} TopsJoin(st: Scan, next: Scan, head: string, tail: string, first: seq<string>,
                                    rest: seq<string>)
    requires next == st.(out := st.out + first)
    requires ScanText(st, head) == next && ScanText(next, tail) == next.(out := next.out + rest)
    ensures ScanText(st, head + tail) == st.(out := st.out + (first + rest))
  {
    ScanTextAppend(st, head, tail);
    assert (st.out + first) + rest == st.out + (first + rest);
  }

  lemma {:induction false} ScanTops(st: Scan, items: seq<Item>)
    requires Resting(st) && st.depth == 0 && GoodItems(items, true)
    ensures ScanText(st, ItemsText(items)) == st.(out := st.out + Groups(items))
    decreases items
  {
    if items != [] {
      var next := st.(out := st.out + Groups([items[0]]));
      ScanTop(st, items[0]);
      ScanTops(next, items[1..]);
      TopsJoin(st, next, ItemText(items[0]), ItemsText(items[1..]), Groups([items[0]]), Groups(items[1..]));
    } else {
      assert st.out + [] == st.out;
    }
  }

  lemma {:induction false} ScanTail(st: Scan, t: Tail)
    requires Resting(st) && GoodTail(t)
    ensures ScanText(st, TailText(t)).out == st.out
    ensures !t.Closed? ==> !Neutral(ScanText(st, TailText(t)))
    decreases t
  {
    match t
    case Closed =>
    case InString(us, esc) =>
      ScanTextAppend(st, "\"", UnitsText(us));
      assert ScanText(st, "\"") == ScanChar(st, '"');
      ScanUnits(ScanChar(st, '"'), us);
      if esc {
        ScanTextSnoc(st, "\"" + UnitsText(us), '\\');
      } else {
        assert TailText(t) == "\"" + UnitsText(us);
      }
    case InBraces(items, rest) =>
      var st1 := ScanChar(st, '{');
      ScanTextAppend(st, "{", ItemsText(items));
      assert ScanText(st, "{") == st1;
      ScanInners(st1, items);
      ScanTextAppend(st, "{" + ItemsText(items), TailText(rest));
      ScanTail(Kept(st1, ItemsText(items)), rest);
      DepthInTail(Kept(st1, ItemsText(items)), rest);
  }

  /** A tail never closes the groups that were open before it. */
  lemma {:induction false} DepthInTail(st: Scan, t: Tail)
    requires Resting(st) && GoodTail(t)
    ensures ScanText(st, TailText(t)).depth >= st.depth
    decreases t
  {
    match t
    case Closed =>
    case InString(us, esc) =>
      ScanTextAppend(st, "\"", UnitsText(us));
      assert ScanText(st, "\"") == ScanChar(st, '"');
      ScanUnits(ScanChar(st, '"'), us);
      if esc {
        ScanTextSnoc(st, "\"" + UnitsText(us), '\\');
      } else {
        assert TailText(t) == "\"" + UnitsText(us);
      }
    case InBraces(items, rest) =>
      var st1 := ScanChar(st, '{');
      ScanTextAppend(st, "{", ItemsText(items));
      assert ScanText(st, "{") == st1;
      ScanInners(st1, items);
      ScanTextAppend(st, "{" + ItemsText(items), TailText(rest));
      DepthInTail(Kept(st1, ItemsText(items)), rest);
  }

  /** Outside every string and every group. */
  predicate Neutral(st: Scan) {
    st.depth == 0 && !st.inStr && !st.esc
  }

  /** Whatever layout a text is given, the scanner yields that layout's top-level groups. */
  lemma SlicesAreGroups(l: Layout)
    requires GoodLayout(l)
    ensures Slices(LayoutText(l)) == Groups(l.items)
    ensures Neutral(ScanText(FRESH, LayoutText(l))) <==> l.tail.Closed?
  {
    ScanTextAppend(FRESH, ItemsText(l.items), TailText(l.tail));
    ScanTops(FRESH, l.items);
    ScanTail(FRESH.(out := FRESH.out + Groups(l.items)), l.tail);
  }

  /** So two layouts of one text have the same groups: the reference definition is unambiguous. */
  lemma GroupsUnique(l: Layout, m: Layout)
    requires GoodLayout(l) && GoodLayout(m) && LayoutText(l) == LayoutText(m)
    ensures Groups(l.items) == Groups(m.items)
    ensures l.tail.Closed? <==> m.tail.Closed?
  {
    SlicesAreGroups(l);
    SlicesAreGroups(m);
  }

  /** The imperative scanner: `start` marks the open group, slices are cut out of the text. */
  method IterBalancedJsonObjects(text: string) returns (slices: seq<string>)
    ensures slices == Slices(text)
    ensures slices == Groups(LayoutOf(text).items)
    ensures forall l :: GoodLayout(l) && LayoutText(l) == text ==> slices == Groups(l.items)
  {
    slices := [];
    var depth, start := 0, -1;
    var inStr, esc := false, false;
    for i := 0 to |text|
      invariant depth >= 0
      invariant depth > 0 ==> 0 <= start < i
      invariant ScanText(FRESH, text[..i])
             == Scan(depth, inStr, esc, if depth > 0 then text[start..i] else "", slices)
    {
      var ch := text[i];
      assert text[..i + 1] == text[..i] + [ch];
      ScanTextSnoc(FRESH, text[..i], ch);
      assert depth > 0 ==> text[start..i + 1] == text[start..i] + [ch];
      if inStr {
        if esc {
          esc := false;
        } else if ch == '\\' {
          esc := true;
        } else if ch == '"' {
          inStr := false;
        }
      } else if ch == '"' {
        inStr := true;
      } else if ch == '{' {
        if depth == 0 {
          start := i;
        }
        depth := depth + 1;
      } else if ch == '}' && depth > 0 {
        depth := depth - 1;
        if depth == 0 && start >= 0 {
          slices := slices + [text[start..i + 1]];
        }
      }
    }
    assert text[..|text|] == text;
    SlicesAreGroups(LayoutOf(text));
    forall l | GoodLayout(l) && LayoutText(l) == text
      ensures slices == Groups(l.items)
    {
      SlicesAreGroups(l);
    }
  }

  // ---------- one group ----------

  ghost predicate IsGroup(u: string) {
    exists items :: GoodItems(items, false) && u == ItemText(Braced(items))
  }

  /** Yielded slices are never taken back. */
  lemma {:induction false} OutGrows(st: Scan, text: string)
    ensures st.out <= ScanText(st, text).out
    decreases text
  {
    if text != "" {
      OutGrows(ScanChar(st, text[0]), text[1..]);
    }
  }

  lemma GroupScans(u: string)
    requires IsGroup(u)
    ensures ScanText(FRESH, u) == FRESH.(out := [u])
    ensures |u| >= 2 && u[0] == '{'
  {
    var items :| GoodItems(items, false) && u == ItemText(Braced(items));
    ScanTop(FRESH, Braced(items));
    assert Groups([Braced(items)]) == [u] + Groups([Braced(items)][1..]);
  }
}
