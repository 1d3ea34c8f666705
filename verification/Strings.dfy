/** Optional values, in place of Python's None. */
module Options {
  datatype Option<+T> = None | Some(value: T)
}

/** Maps that agree away from one key. */
module Maps {
  lemma PutThere<T>(m: map<string, T>, id: string, x: T)
    ensures m[id := x] - {id} == m - {id}
  {
  }

  lemma Elsewhere<T>(before: map<string, T>, after: map<string, T>, other: string, id: string)
    requires after - {other} == before - {other} && id != other
    ensures (id in after <==> id in before) && (id in before ==> after[id] == before[id])
  {
    assert id in after <==> id in after - {other};
    assert id in before <==> id in before - {other};
    if id in before {
      assert (after - {other})[id] == (before - {other})[id];
    }
  }
}

/**
 The str operations that the text-handling modules rely on: find, rfind, in and strip. find
 picks the least position at which the pattern occurs, rfind the greatest below a bound, and strip the
 text between the first and the last character that is not white space. White space is what str.strip
 takes it to be, and an empty pattern occurs at every position, the end included.
 */
module Strings {
  import opened Options

  ghost predicate OccursAt(s: string, pat: string, i: int) {
    0 <= i && i + |pat| <= |s| && s[i..i + |pat|] == pat
  }

  ghost predicate Contains(s: string, pat: string) {
    exists i :: OccursAt(s, pat, i)
  }

  /** s.find(pat, from): the least position at or after `from`. */
  function Find(s: string, pat: string, from: nat): (r: Option<nat>)
    ensures r.Some? ==> from <= r.value && OccursAt(s, pat, r.value)
    ensures forall j :: from <= j < (if r.Some? then r.value else |s| + 1) ==> !OccursAt(s, pat, j)
    decreases |s| - from
  {
    if from + |pat| > |s| then None
    else if s[from..from + |pat|] == pat then Some(from)
    else Find(s, pat, from + 1)
  }

  /** s[..end].rfind(pat): the greatest position whose occurrence ends by `end`. */
  function RFind(s: string, pat: string, end: nat): (r: Option<nat>)
    requires end <= |s|
    ensures r.Some? ==> r.value + |pat| <= end && OccursAt(s, pat, r.value)
    ensures forall j :: (if r.Some? then r.value < j else true) && j + |pat| <= end ==> !OccursAt(s, pat, j)
  {
    if end < |pat| then None
    else if s[end - |pat|..end] == pat then Some(end - |pat|)
    else RFind(s, pat, end - 1)
  }

  /** Python's `pat in s`. */
  function In(pat: string, s: string): (b: bool)
    ensures b <==> Contains(s, pat)
  {
    Find(s, pat, 0).Some?
  }

  /** The characters str.isspace() accepts. */
  predicate IsSpace(c: char) {
    || '\t' <= c <= '\r' || '\U{1c}' <= c <= ' ' || c == '\U{85}' || c == '\U{a0}' || c == '\U{1680}'
    || '\U{2000}' <= c <= '\U{200a}' || c == '\U{2028}' || c == '\U{2029}' || c == '\U{202f}'
    || c == '\U{205f}' || c == '\U{3000}'
  }

  predicate Blank(s: string) {
    forall i :: 0 <= i < |s| ==> IsSpace(s[i])
  }

  /** No space at either end. */
  predicate Trimmed(s: string) {
    s == "" || (!IsSpace(s[0]) && !IsSpace(s[|s| - 1]))
  }

  function TrimLeft(s: string): string {
    if s != "" && IsSpace(s[0]) then TrimLeft(s[1..]) else s
  }

  function TrimRight(s: string): string {
    if s != "" && IsSpace(s[|s| - 1]) then TrimRight(s[..|s| - 1]) else s
  }

  function Strip(s: string): string {
    TrimRight(TrimLeft(s))
  }

  lemma {:induction false} TrimLeftSplits(s: string) returns (w: string)
    ensures Blank(w) && s == w + TrimLeft(s)
    ensures TrimLeft(s) == "" || !IsSpace(TrimLeft(s)[0])
  {
    if s != "" && IsSpace(s[0]) {
      var v := TrimLeftSplits(s[1..]);
      w := [s[0]] + v;
      assert s == [s[0]] + s[1..];
    } else {
      w := "";
    }
  }

  lemma {:induction false} TrimRightSplits(s: string) returns (w: string)
    ensures Blank(w) && s == TrimRight(s) + w
    ensures TrimRight(s) == "" || !IsSpace(TrimRight(s)[|TrimRight(s)| - 1])
    ensures TrimRight(s) <= s
  {
    if s != "" && IsSpace(s[|s| - 1]) {
      var v := TrimRightSplits(s[..|s| - 1]);
      w := v + [s[|s| - 1]];
      assert s == s[..|s| - 1] + [s[|s| - 1]];
    } else {
      w := "";
    }
  }

  /** Strip removes blanks from both ends, and only those. */
  lemma StripSplits(s: string) returns (pre: string, post: string)
    ensures Blank(pre) && Blank(post) && s == pre + Strip(s) + post
    ensures Trimmed(Strip(s))
  {
    pre := TrimLeftSplits(s);
    post := TrimRightSplits(TrimLeft(s));
    if Strip(s) != "" {
      assert TrimLeft(s)[0] == Strip(s)[0];
    }
  }

  lemma {:induction false} TrimLeftBlank(w: string, s: string)
    requires Blank(w)
    requires s == "" || !IsSpace(s[0])
    ensures TrimLeft(w + s) == s
  {
    if w == "" {
      assert w + s == s;
    } else {
      assert (w + s)[1..] == w[1..] + s;
      TrimLeftBlank(w[1..], s);
    }
  }

  lemma {:induction false} TrimRightBlank(s: string, w: string)
    requires Blank(w)
    requires s == "" || !IsSpace(s[|s| - 1])
    ensures TrimRight(s + w) == s
  {
    if w == "" {
      assert s + w == s;
    } else {
      assert (s + w)[..|s + w| - 1] == s + w[..|w| - 1];
      TrimRightBlank(s, w[..|w| - 1]);
    }
  }

  /** The trimmed core of a padded text is what Strip returns. */
  lemma StripPadded(pre: string, core: string, post: string)
    requires Blank(pre) && Blank(post) && Trimmed(core)
    ensures Strip(pre + core + post) == core
  {
    if core == "" {
      assert pre + core + post == (pre + post) + "";
      TrimLeftBlank(pre + post, "");
      TrimRightBlank("", "");
    } else {
      assert pre + core + post == pre + (core + post);
      TrimLeftBlank(pre, core + post);
      TrimRightBlank(core, post);
    }
  }

  lemma FindIs(s: string, pat: string, from: nat, at: nat)
    requires from <= at && OccursAt(s, pat, at) && forall j :: from <= j < at ==> !OccursAt(s, pat, j)
    ensures Find(s, pat, from) == Some(at)
  {
  }

  lemma RFindIs(s: string, pat: string, at: nat)
    requires OccursAt(s, pat, at) && forall j :: at < j ==> !OccursAt(s, pat, j)
    ensures RFind(s, pat, |s|) == Some(at)
  {
  }

  /** An occurrence in a part is an occurrence in the whole. */
  lemma OccursInWhole(a: string, b: string, c: string, pat: string, i: int)
    requires OccursAt(b, pat, i)
    ensures OccursAt(a + b + c, pat, |a| + i)
  {
    assert (a + b + c)[|a| + i..|a| + i + |pat|] == b[i..i + |pat|];
  }

  /** An occurrence that lies within a part occurs in that part. */
  lemma OccursInPart(a: string, b: string, c: string, pat: string, i: int)
    requires OccursAt(a + b + c, pat, i)
    requires |a| <= i && i + |pat| <= |a| + |b|
    ensures OccursAt(b, pat, i - |a|)
  {
    assert (a + b + c)[i..i + |pat|] == b[i - |a|..i - |a| + |pat|];
  }
}
