/**
 strip_think_blocks (orchestrator/llm_text_utils.py): removing <think>...</think> sections.

 Both tag patterns are one bracketed word: '<', blanks, [a slash, blanks,] the word think in any
 case, blanks, '>'. A pattern is matched against the front of a text and yields what follows it.
 */
module ThinkBlocks {
  import opened Options
  import opened Strings

  /** Equality of one letter under re.IGNORECASE, which folds three non-ASCII letters to i and k. */
  predicate SameLetter(c: char, lower: char)
    requires 'a' <= lower <= 'z'
  {
    || c == lower
    || c as int == lower as int - 32
    || (lower == 'i' && (c == '\U{130}' || c == '\U{131}'))
    || (lower == 'k' && c == '\U{212a}')
  }

  predicate StartsWithThink(t: string) {
    && |t| >= 5
    && SameLetter(t[0], 't') && SameLetter(t[1], 'h') && SameLetter(t[2], 'i')
    && SameLetter(t[3], 'n') && SameLetter(t[4], 'k')
  }

  /** What follows the optional slash and its blanks. */
  function AfterSlash(t: string, closing: bool): Option<string> {
    if !closing then Some(t)
    else if t != "" && t[0] == '/' then Some(TrimLeft(t[1..]))
    else None
  }

  /** What follows the tag at the front of t, if there is one. */
  function AfterTag(t: string, closing: bool): Option<string> {
    if t == "" || t[0] != '<' then None
    else
      match AfterSlash(TrimLeft(t[1..]), closing)
      case None => None
      case Some(y) =>
        if !StartsWithThink(y) then None
        else
          var z := TrimLeft(y[5..]);
          if z != "" && z[0] == '>' then Some(z[1..]) else None
  }

  /** What follows the first closing tag anywhere in t. */
  function AfterClose(t: string): (r: Option<string>)
    ensures r.Some? ==> |r.value| < |t|
  {
    if AfterTag(t, true).Some? then
      AfterTagShorter(t, true);
      AfterTag(t, true)
    else if t == "" then None
    else AfterClose(t[1..])
  }

  /** What follows the block at the front of t: an opening tag up to the first closing tag after it. */
  function AfterBlock(t: string): (r: Option<string>)
    ensures r.Some? ==> |r.value| < |t|
  {
    match AfterTag(t, false)
    case None => None
    case Some(rest) =>
      AfterTagShorter(t, false);
      AfterClose(rest)
  }

  /** _THINK_RE.sub("", t): at each position drop the block that starts there, or keep the character. */
  function DropBlocks(t: string): string
    decreases |t|
  {
    if t == "" then ""
    else
      match AfterBlock(t)
      case Some(rest) => DropBlocks(rest)
      case None => [t[0]] + DropBlocks(t[1..])
  }

  /** _THINK_OPEN_TAIL_RE.sub("", t): everything from the first opening tag on goes. */
  function DropTail(t: string): string {
    if t == "" || AfterTag(t, false).Some? then "" else [t[0]] + DropTail(t[1..])
  }

  /** _CHEAP_PROBE: '<', blanks and the word somewhere; no '>' asked for. */
  predicate Probe(t: string) {
    t != "" && ((t[0] == '<' && StartsWithThink(TrimLeft(t[1..]))) || Probe(t[1..]))
  }

  function StripThinkBlocks(text: string): string {
    if !Probe(text) then text else Strip(DropTail(DropBlocks(text)))
  }

  /** No tag starts anywhere in t. */
  predicate Free(t: string, closing: bool) {
    t == "" || (AfterTag(t, closing).None? && Free(t[1..], closing))
  }

  // ---------- tags and concatenation ----------

  lemma {:induction false} TrimLeftShorter(t: string)
    ensures |TrimLeft(t)| <= |t|
  {
    if t != "" && IsSpace(t[0]) {
      TrimLeftShorter(t[1..]);
    }
  }

  lemma AfterTagShorter(t: string, closing: bool)
    requires AfterTag(t, closing).Some?
    ensures |AfterTag(t, closing).value| < |t|
  {
    var x := TrimLeft(t[1..]);
    TrimLeftShorter(t[1..]);
    if closing {
      TrimLeftShorter(x[1..]);
    }
    TrimLeftShorter(AfterSlash(x, closing).value[5..]);
  }

  lemma {:induction false} TrimLeftAppend(b: string, c: string)
    requires TrimLeft(b) != "" || c == "" || !IsSpace(c[0])
    ensures TrimLeft(b + c) == TrimLeft(b) + c
  {
    if b == "" {
      assert b + c == c;
    } else {
      assert (b + c)[1..] == b[1..] + c;
      if IsSpace(b[0]) {
        TrimLeftAppend(b[1..], c);
      }
    }
  }

  lemma AfterSlashAppend(b: string, c: string, closing: bool)
    requires AfterSlash(b, closing).Some? && AfterSlash(b, closing).value != ""
    ensures AfterSlash(b + c, closing) == Some(AfterSlash(b, closing).value + c)
  {
    if closing {
      assert (b + c)[1..] == b[1..] + c;
      TrimLeftAppend(b[1..], c);
    }
  }

  /** The part of a pattern after the slash: the word, blanks and the closing bracket. */
  function AfterWord(y: string): Option<string> {
    if !StartsWithThink(y) then None
    else
      var z := TrimLeft(y[5..]);
      if z != "" && z[0] == '>' then Some(z[1..]) else None
  }

  lemma AfterTagIs(t: string, closing: bool)
    requires t != "" && t[0] == '<'
    ensures AfterTag(t, closing) ==
      match AfterSlash(TrimLeft(t[1..]), closing) case None => None case Some(y) => AfterWord(y)
  {
  }

  lemma AfterWordAppend(y: string, c: string)
    requires AfterWord(y).Some?
    ensures AfterWord(y + c) == Some(AfterWord(y).value + c)
  {
    assert (y + c)[5..] == y[5..] + c;
    TrimLeftAppend(y[5..], c);
    assert (TrimLeft(y[5..]) + c)[1..] == TrimLeft(y[5..])[1..] + c;
    assert forall i :: 0 <= i < 5 ==> (y + c)[i] == y[i];
  }

  /** A tag is read off the front whatever follows it. */
  lemma AfterTagAppend(b: string, c: string, closing: bool)
    requires AfterTag(b, closing).Some?
    ensures AfterTag(b + c, closing) == Some(AfterTag(b, closing).value + c)
  {
    AfterTagIs(b, closing);
    AfterTagIs(b + c, closing);
    assert (b + c)[1..] == b[1..] + c;
    TrimLeftAppend(b[1..], c);
    AfterSlashAppend(TrimLeft(b[1..]), c, closing);
    AfterWordAppend(AfterSlash(TrimLeft(b[1..]), closing).value, c);
  }

  /** No tag reaches across a '<': text from there on neither completes one nor breaks one. */
  lemma AfterTagStops(b: string, c: string, closing: bool)
    requires b != "" && c != "" && c[0] == '<'
    ensures AfterTag(b + c, closing).Some? <==> AfterTag(b, closing).Some?
  {
    if AfterTag(b, closing).Some? {
      AfterTagAppend(b, c, closing);
    } else if b[0] == '<' {
      AfterTagIs(b, closing);
      AfterTagIs(b + c, closing);
      assert (b + c)[1..] == b[1..] + c;
      var x := TrimLeft(b[1..]);
      TrimLeftAppend(b[1..], c);
      if closing && x != "" {
        assert (x + c)[1..] == x[1..] + c;
        TrimLeftAppend(x[1..], c);
      }
      if AfterSlash(x, closing).Some? {
        AfterWordStops(AfterSlash(x, closing).value, c);
      }
    }
  }

  lemma AfterWordStops(y: string, c: string)
    requires c != "" && c[0] == '<' && AfterWord(y).None?
    ensures AfterWord(y + c).None?
  {
    assert forall i :: 0 <= i < |y| ==> (y + c)[i] == y[i];
    if StartsWithThink(y) {
      assert (y + c)[5..] == y[5..] + c;
      TrimLeftAppend(y[5..], c);
    }
  }

  lemma {:induction false} FreePrefix(b: string, c: string, closing: bool)
    requires Free(b + c, closing)
    ensures Free(b, closing)
  {
    if b != "" {
      assert (b + c)[1..] == b[1..] + c;
      FreePrefix(b[1..], c, closing);
      if AfterTag(b, closing).Some? {
        AfterTagAppend(b, c, closing);
      }
    }
  }

  lemma {:induction false} FreeSuffix(b: string, c: string, closing: bool)
    requires Free(b + c, closing)
    ensures Free(c, closing)
  {
    if b == "" {
      assert b + c == c;
    } else {
      assert (b + c)[1..] == b[1..] + c;
      FreeSuffix(b[1..], c, closing);
    }
  }

  lemma FreeStrip(t: string)
    requires Free(t, false)
    ensures Free(Strip(t), false)
  {
    var pre, post := StripSplits(t);
    assert t == pre + (Strip(t) + post);
    FreeSuffix(pre, Strip(t) + post, false);
    FreePrefix(Strip(t), post, false);
  }

  // ---------- no tag survives; stripping twice changes nothing ----------

  lemma {:induction false} DropTailIsPrefix(t: string) returns (cut: string)
    ensures t == DropTail(t) + cut
  {
    if t == "" || AfterTag(t, false).Some? {
      cut := t;
    } else {
      cut := DropTailIsPrefix(t[1..]);
      assert t == [t[0]] + t[1..];
    }
  }

  lemma {:induction false} DropTailFree(t: string)
    ensures Free(DropTail(t), false)
  {
    if t != "" && AfterTag(t, false).None? {
      DropTailFree(t[1..]);
      assert DropTail(t)[1..] == DropTail(t[1..]);
      var cut := DropTailIsPrefix(t);
      if AfterTag(DropTail(t), false).Some? {
        AfterTagAppend(DropTail(t), cut, false);
      }
    }
  }

  lemma {:induction false} FreeUnchanged(t: string)
    requires Free(t, false)
    ensures DropBlocks(t) == t && DropTail(t) == t
  {
    if t != "" {
      FreeUnchanged(t[1..]);
      assert t == [t[0]] + t[1..];
    }
  }

  lemma {:induction false} NoProbeIsFree(t: string)
    requires !Probe(t)
    ensures Free(t, false)
  {
    if t != "" {
      NoProbeIsFree(t[1..]);
    }
  }

  /** No opening tag survives, not even one that deletions spliced together. */
  lemma NoTagSurvives(text: string)
    ensures Free(StripThinkBlocks(text), false)
  {
    if Probe(text) {
      DropTailFree(DropBlocks(text));
      FreeStrip(DropTail(DropBlocks(text)));
    } else {
      NoProbeIsFree(text);
    }
  }

  lemma Idempotent(text: string)
    ensures StripThinkBlocks(StripThinkBlocks(text)) == StripThinkBlocks(text)
  {
    var v := StripThinkBlocks(text);
    if Probe(text) {
      NoTagSurvives(text);
      FreeUnchanged(v);
      var _, _ := StripSplits(DropTail(DropBlocks(text)));
      StripPadded("", v, "");
      assert "" + v + "" == v;
    }
  }

  // ---------- well-formed transcripts ----------

  /** An answer followed by a complete think block. */
  datatype Segment = Segment(answer: string, open: string, body: string, close: string)

  predicate GoodSegment(s: Segment) {
    AfterTag(s.open, false) == Some("") && AfterTag(s.close, true) == Some("") && Free(s.body, true)
  }

  function Block(s: Segment, rest: string): string {
    s.open + (s.body + (s.close + rest))
  }

  function Transcript(segs: seq<Segment>, last: string): string {
    if segs == [] then last
    else segs[0].answer + Block(segs[0], Transcript(segs[1..], last))
  }

  function Answers(segs: seq<Segment>, last: string): string {
    if segs == [] then last else segs[0].answer + Answers(segs[1..], last)
  }

  lemma Front(b: string, c: string)
    requires b != ""
    ensures (b + c)[0] == b[0] && (b + c)[1..] == b[1..] + c
  {
  }

  lemma AfterCloseHere(close: string, rest: string)
    requires AfterTag(close, true) == Some("")
    ensures AfterClose(close + rest) == Some(rest)
  {
    AfterTagAppend(close, rest, true);
    assert "" + rest == rest;
  }

  lemma {:induction false} AfterCloseFinds(body: string, closer: string)
    requires Free(body, true) && closer != "" && closer[0] == '<'
    ensures AfterClose(body + closer) == AfterClose(closer)
  {
    if body == "" {
      assert body + closer == closer;
    } else {
      Front(body, closer);
      AfterTagStops(body, closer, true);
      AfterCloseFinds(body[1..], closer);
    }
  }

  lemma BlockDropped(s: Segment, rest: string)
    requires GoodSegment(s)
    ensures AfterBlock(Block(s, rest)) == Some(rest)
    ensures DropBlocks(Block(s, rest)) == DropBlocks(rest)
  {
    var tail := s.body + (s.close + rest);
    AfterTagAppend(s.open, tail, false);
    assert "" + tail == tail;
    AfterCloseHere(s.close, rest);
    AfterCloseFinds(s.body, s.close + rest);
  }

  lemma DropBlocksStep(t: string)
    requires t != "" && AfterTag(t, false).None?
    ensures DropBlocks(t) == [t[0]] + DropBlocks(t[1..])
  {
  }

  lemma AnswerStep(answer: string, block: string)
    requires answer != "" && AfterTag(answer, false).None? && block != "" && block[0] == '<'
    ensures DropBlocks(answer + block) == [answer[0]] + DropBlocks(answer[1..] + block)
  {
    Front(answer, block);
    AfterTagStops(answer, block, false);
    DropBlocksStep(answer + block);
  }

  lemma {:induction false} AnswerKept(answer: string, block: string)
    requires Free(answer, false) && block != "" && block[0] == '<'
    ensures DropBlocks(answer + block) == answer + DropBlocks(block)
  {
    if answer == "" {
      assert answer + block == block;
    } else {
      AnswerStep(answer, block);
      AnswerKept(answer[1..], block);
      Front(answer, DropBlocks(block));
    }
  }

  lemma {:induction false} BlocksDropped(segs: seq<Segment>, last: string)
    requires forall i :: 0 <= i < |segs| ==> GoodSegment(segs[i])
    requires Free(Answers(segs, last), false)
    ensures DropBlocks(Transcript(segs, last)) == Answers(segs, last)
  {
    if segs == [] {
      FreeUnchanged(last);
    } else {
      var s, rest := segs[0], Transcript(segs[1..], last);
      FreePrefix(s.answer, Answers(segs[1..], last), false);
      FreeSuffix(s.answer, Answers(segs[1..], last), false);
      AnswerKept(s.answer, Block(s, rest));
      BlockDropped(s, rest);
      BlocksDropped(segs[1..], last);
    }
  }

  lemma {:induction false} ProbeFound(answer: string, t: string)
    requires AfterTag(t, false).Some?
    ensures Probe(answer + t)
  {
    if answer == "" {
      assert answer + t == t;
    } else {
      assert (answer + t)[1..] == answer[1..] + t;
      ProbeFound(answer[1..], t);
    }
  }

  /** Answers interleaved with complete think blocks come out as the trimmed joined answers. */
  lemma TranscriptStripped(segs: seq<Segment>, last: string)
    requires segs != [] && forall i :: 0 <= i < |segs| ==> GoodSegment(segs[i])
    requires Free(Answers(segs, last), false)
    ensures StripThinkBlocks(Transcript(segs, last)) == Strip(Answers(segs, last))
  {
    BlocksDropped(segs, last);
    FreeUnchanged(Answers(segs, last));
    BlockProbed(segs[0], Transcript(segs[1..], last));
  }

  lemma BlockProbed(s: Segment, rest: string)
    requires GoodSegment(s)
    ensures Probe(s.answer + Block(s, rest))
  {
    AfterTagAppend(s.open, s.body + (s.close + rest), false);
    ProbeFound(s.answer, Block(s, rest));
  }

  const SPLICED := Segment("a<thi", "<think>", "", "</think>")

  lemma SplicedIsGood()
    ensures GoodSegment(SPLICED)
  {
    ReadsTag("<think>", "think>", false);
    ReadsTag("</think>", "/think>", true);
  }

  lemma ReadsTag(tag: string, inner: string, closing: bool)
    requires tag == "<" + inner && inner == if closing then "/think>" else "think>"
    ensures AfterTag(tag, closing) == Some("")
  {
    assert tag[1..] == inner;
    assert TrimLeft(inner) == inner;
    assert "/think>"[1..] == "think>" && TrimLeft("think>") == "think>";
    assert AfterSlash(inner, closing) == Some("think>");
    assert "think>"[5..] == ">" && TrimLeft(">") == ">" && ">"[1..] == "";
  }

  lemma HalvesAreFree()
    ensures Free("a<thi", false) && Free("nk>b", false)
  {
    NoProbeIsFree("a<thi") by {
      assert "a<thi"[1..] == "<thi" && "<thi"[1..] == "thi";
    }
    NoProbeIsFree("nk>b");
  }

  lemma SplicedTail()
    ensures DropTail("a<think>b") == "a"
  {
    assert AfterTag("<think>b", false) == Some("b");
    assert "a<think>b"[1..] == "<think>b";
  }

  lemma OneBlock(s: Segment, last: string)
    requires GoodSegment(s) && Free(s.answer, false) && Free(last, false)
    ensures StripThinkBlocks(Transcript([s], last)) == Strip(DropTail(s.answer + last))
  {
    assert Transcript([s][1..], last) == last;
    AnswerKept(s.answer, Block(s, last));
    BlockDropped(s, last);
    FreeUnchanged(last);
    BlockProbed(s, last);
  }

  lemma SplicedJoins()
    ensures Strip(DropTail("a<thi" + "nk>b")) == "a"
  {
    assert "a<thi" + "nk>b" == "a<think>b";
    SplicedTail();
    StripPadded("", "a", "");
    assert "" + "a" + "" == "a";
  }

  /** The clause on joined answers is needed: two answers can splice a tag, and all after it goes. */
  lemma SplicedTagCutsTail()
    ensures StripThinkBlocks(Transcript([SPLICED], "nk>b")) == "a"
  {
    SplicedIsGood();
    HalvesAreFree();
    OneBlock(SPLICED, "nk>b");
    SplicedJoins();
  }
}
