/**
 The brace scanner of cc_agent/deploy_repair_agent.py, which starts a fresh scan at every opening
 brace, and how it relates to the single scan of `Scanner`.
 */
module NestedScanner {
  import opened Options
  import opened Scanner

  /** A braced group stands at position i and reads u. */
  ghost predicate GroupAt(text: string, i: int, u: string) {
    && 0 <= i && i + |u| <= |text| && text[i..i + |u|] == u
    && IsGroup(u)
  }

  /** A group at the front of a text is its first slice. */
  lemma GroupIsFirst(text: string, u: string)
    requires GroupAt(text, 0, u)
    ensures Slices(text) != [] && Slices(text)[0] == u && text[0] == '{'
  {
    GroupScans(u);
    assert text == u + text[|u|..];
    ScanTextAppend(FRESH, u, text[|u|..]);
    OutGrows(FRESH.(out := [u]), text[|u|..]);
  }

  /** And the first slice of a text that opens with a brace is a group at its front. */
  lemma FirstIsGroup(text: string)
    requires text != "" && text[0] == '{' && Slices(text) != []
    ensures GroupAt(text, 0, Slices(text)[0])
  {
    var l := LayoutOf(text);
    SlicesAreGroups(l);
    if l.items != [] {
      assert ItemText(l.items[0])[0] == text[0];
      assert GoodItem(l.items[0], true);
      assert l.items[0].Braced?;
      assert GoodItems(l.items[0].items, false);
    }
  }

  /** Some(u) for the group u that stands first in text[from..]. */
  function FirstGroup(text: string, from: nat): (r: Option<string>)
    decreases |text| - from
  {
    if from >= |text| then None
    else if text[from] == '{' && Slices(text[from..]) != [] then Some(Slices(text[from..])[0])
    else FirstGroup(text, from + 1)
  }

  lemma GroupAtShift(text: string, from: nat, u: string)
    requires from <= |text|
    ensures GroupAt(text, from, u) <==> GroupAt(text[from..], 0, u)
  {
    if from + |u| <= |text| {
      assert text[from..][0..|u|] == text[from..from + |u|];
    }
  }

  lemma NoGroupHere(text: string, from: nat)
    requires from >= |text| || text[from] != '{' || Slices(text[from..]) == []
    ensures forall u :: !GroupAt(text, from, u)
  {
    forall u | GroupAt(text, from, u)
      ensures false
    {
      GroupScans(u);
      GroupAtShift(text, from, u);
      GroupIsFirst(text[from..], u);
    }
  }

  /** FirstGroup finds the leftmost position where any group stands, and fails only if none does. */
  lemma {:induction false} FirstGroupExact(text: string, from: nat)
    ensures var r := FirstGroup(text, from);
      && (r.Some? ==> exists i :: from <= i && GroupAt(text, i, r.value)
                               && forall j, u :: from <= j < i ==> !GroupAt(text, j, u))
      && (r.None? ==> forall j, u :: from <= j ==> !GroupAt(text, j, u))
    decreases |text| - from
  {
    if from >= |text| {
      forall j, u | from <= j
        ensures !GroupAt(text, j, u)
      {
        NoGroupHere(text, j);
      }
    } else if text[from] == '{' && Slices(text[from..]) != [] {
      FirstIsGroup(text[from..]);
      GroupAtShift(text, from, Slices(text[from..])[0]);
    } else {
      FirstGroupExact(text, from + 1);
      NoGroupHere(text, from);
      var r := FirstGroup(text, from + 1);
      if r.Some? {
        var i :| from + 1 <= i && GroupAt(text, i, r.value)
              && forall j, u :: from + 1 <= j < i ==> !GroupAt(text, j, u);
        forall j, u | from <= j < i
          ensures !GroupAt(text, j, u)
        {
        }
      }
    }
  }

  /** One character of the inner loop, seen as a step of the scan of what was read since the brace;
      `closed` when it closes that brace. */
  method Advance(text: string, i: nat, j: nat, depth: nat, inStr: bool, esc: bool)
      returns (depth': nat, inStr': bool, esc': bool, closed: bool)
    requires i <= j < |text| && (depth == 0 ==> i == j && text[j] == '{' && !inStr) && (!inStr ==> !esc)
    ensures closed ==> ScanChar(Scan(depth, inStr, esc, text[i..j], []), text[j]) == FRESH.(out := [text[i..j + 1]])
    ensures !closed ==> depth' > 0 && (!inStr' ==> !esc')
    ensures !closed ==>
      ScanChar(Scan(depth, inStr, esc, text[i..j], []), text[j]) == Scan(depth', inStr', esc', text[i..j + 1], [])
  {
    var ch := text[j];
    assert text[i..j + 1] == text[i..j] + [ch];
    depth', inStr', esc', closed := depth, inStr, esc, false;
    if inStr {
      if esc {
        esc' := false;
      } else if ch == '\\' {
        esc' := true;
      } else if ch == '"' {
        inStr' := false;
      }
    } else if ch == '"' {
      inStr' := true;
    } else if ch == '{' {
      depth' := depth + 1;
    } else if ch == '}' {
      depth' := depth - 1;
      closed := depth' == 0;
    }
  }

  /** The inner loop, started at a brace. */
  method GroupFrom(text: string, i: nat) returns (r: Option<string>)
    requires i < |text| && text[i] == '{'
    ensures r.Some? ==> FirstGroup(text, i) == r
    ensures r.None? ==> FirstGroup(text, i) == FirstGroup(text, i + 1)
  {
    var depth, inStr, esc, j, closed := 0, false, false, i, false;
    while j < |text| && !closed
      invariant i <= j <= |text| && (closed ==> j > i)
      invariant !closed ==> (depth > 0 <==> j > i) && (j == i ==> !inStr) && (!inStr ==> !esc)
      invariant !closed ==> ScanText(FRESH, text[i..j]) == Scan(depth, inStr, esc, text[i..j], [])
      invariant closed ==> ScanText(FRESH, text[i..j]) == FRESH.(out := [text[i..j]])
      decreases |text| - j
    {
      assert text[i..j + 1] == text[i..j] + [text[j]];
      ScanTextSnoc(FRESH, text[i..j], text[j]);
      depth, inStr, esc, closed := Advance(text, i, j, depth, inStr, esc);
      j := j + 1;
    }
    if closed {
      assert text[i..] == text[i..j] + text[j..];
      ScanTextAppend(FRESH, text[i..j], text[j..]);
      OutGrows(ScanText(FRESH, text[i..j]), text[j..]);
      return Some(text[i..j]);
    }
    assert text[i..j] == text[i..];
    return None;
  }

  /** The nested-loop scanner: a fresh scan from every opening brace in turn. */
  method FindBalancedJson(text: string) returns (r: Option<string>)
    ensures r == FirstGroup(text, 0)
    ensures r.Some? ==> exists i :: GroupAt(text, i, r.value) && forall j, u :: 0 <= j < i ==> !GroupAt(text, j, u)
    ensures r.None? ==> forall j, u :: !GroupAt(text, j, u)
  {
    FirstGroupExact(text, 0);
    var i := 0;
    while i < |text|
      invariant 0 <= i <= |text|
      invariant FirstGroup(text, 0) == FirstGroup(text, i)
    {
      if text[i] == '{' {
        r := GroupFrom(text, i);
        if r.Some? {
          return;
        }
      }
      i := i + 1;
    }
    return None;
  }

  lemma {:induction false} ScanGap(gap: string)
    requires forall k :: 0 <= k < |gap| ==> gap[k] != '"' && gap[k] != '{'
    ensures ScanText(FRESH, gap) == FRESH
  {
    if gap != "" {
      ScanGap(gap[1..]);
    }
  }

  lemma {:induction false} FirstGroupSkips(text: string, from: nat, k: nat)
    requires from <= k <= |text| && forall i :: from <= i < k ==> text[i] != '{'
    ensures FirstGroup(text, from) == FirstGroup(text, k)
    decreases k - from
  {
    if from < k {
      FirstGroupSkips(text, from + 1, k);
    }
  }

  /** What the linear scanner yields first. */
  function FirstSlice(text: string): Option<string> {
    if Slices(text) == [] then None else Some(Slices(text)[0])
  }

  /** No quote stands before the first brace: k is that brace, or the end. */
  ghost predicate QuoteFree(text: string, k: nat) {
    && k <= |text| && (k < |text| ==> text[k] == '{')
    && forall i :: 0 <= i < k ==> text[i] != '{' && text[i] != '"'
  }

  /** With no quote before the first brace, the linear scanner yields something exactly if that brace is
      closed, */
  lemma SlicesIfClosed(text: string, k: nat)
    requires QuoteFree(text, k)
    ensures Slices(text) == Slices(text[k..])
    ensures Slices(text) != [] <==> exists u :: GroupAt(text, k, u)
  {
    assert text == text[..k] + text[k..];
    ScanGap(text[..k]);
    ScanTextAppend(FRESH, text[..k], text[k..]);
    if k < |text| && Slices(text[k..]) != [] {
      FirstIsGroup(text[k..]);
      GroupAtShift(text, k, Slices(text[k..])[0]);
    }
    forall u | GroupAt(text, k, u)
      ensures Slices(text) != []
    {
      GroupAtShift(text, k, u);
      GroupIsFirst(text[k..], u);
    }
  }

  /** and the two scanners agree exactly if it is closed or no group stands anywhere. */
  lemma ScannersAgree(text: string, k: nat)
    requires QuoteFree(text, k)
    ensures FirstGroup(text, 0) == FirstSlice(text) <==>
      (exists u :: GroupAt(text, k, u)) || forall j, u :: !GroupAt(text, j, u)
    ensures Slices(text) != [] ==> FirstGroup(text, 0) == FirstSlice(text)
  {
    SlicesIfClosed(text, k);
    FirstGroupSkips(text, 0, k);
    FirstGroupExact(text, 0);
  }

  /** The linear scanner is lost in a brace that is never closed; the nested one is not. */
  lemma UnclosedBrace()
    ensures QuoteFree("{{}", 0) && Slices("{{}") == [] && FirstGroup("{{}", 0) == Some("{}")
  {
    var text := "{{}";
    var group := Braced([]);
    assert ItemText(group) == "{}";
    GroupScans("{}");
    assert text == "{" + "{}";
    assert ScanText(FRESH, "{") == ScanChar(FRESH, '{');
    ScanTextAppend(FRESH, "{", "{}");
    ScanInner(ScanChar(FRESH, '{'), group);
    assert text[1..] == "{}";
    assert FirstGroup(text, 1) == Some("{}");
  }

  /** They need not agree when a quote comes first. */
  const BRACES := Quoted([Raw('{'), Raw('}')])
  const ONE := Braced([Plain('1')])

  lemma QuotedBraces()
    ensures ItemText(BRACES) == "\"{}\"" && ItemText(ONE) == "{1}"
    ensures LayoutText(Layout([BRACES, ONE], Closed)) == "\"{}\"{1}" && Groups([BRACES, ONE]) == ["{1}"]
  {
    assert UnitsText([Raw('{'), Raw('}')]) == "{}";
    assert ItemsText([Plain('1')]) == "1";
    assert ItemsText([ONE]) == "{1}";
    assert ItemText(ONE) == "{1}";
    assert Groups([ONE]) == [ItemText(ONE)] + Groups([]);
    assert [BRACES, ONE][1..] == [ONE];
  }

  lemma ScannersDisagree()
    ensures var text := "\"{}\"{1}"; Slices(text) == ["{1}"] && FirstGroup(text, 0) == Some("{}")
  {
    QuotedBraces();
    SlicesAreGroups(Layout([BRACES, ONE], Closed));
    var text := "\"{}\"{1}";
    assert text[0] != '{' && text[1..3] == "{}";
    FirstGroupSkips(text, 0, 1);
    GroupHere(text, 1, "{}");
  }

  /** A group at a position is what the nested scanner finds there. */
  lemma GroupHere(text: string, i: nat, u: string)
    requires i + |u| <= |text| && text[i..i + |u|] == u && u == "{}"
    ensures FirstGroup(text, i) == Some(u)
  {
    assert ItemText(Braced([])) == u;
    GroupAtShift(text, i, u);
    GroupIsFirst(text[i..], u);
  }
}
