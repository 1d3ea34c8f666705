/**
 extract_report: from an agent's raw stdout to a validated report, and the round trips it is for.
 json.loads is the parameter `loads`, constrained only by ReadsJson.
 */
module Extraction {
  import opened Options
  import opened Strings
  import opened Scanner
  import opened JsonText
  import opened Report

  datatype ErrorKind =
    | FenceMissing | FenceEmpty | JsonInvalid | SchemaInvalid | LaneMismatch | TargetMismatch

  datatype Extracted = Ok(report: RunReport) | Err(kind: ErrorKind)

  const SIGNATURE_KEYS := ["schema_version", "lane", "outcome"]

  function InQuotes(key: string): string {
    "\"" + key + "\""
  }

  /** The blob spells every signature key in quotes, parses, and is an object with those keys. */
  predicate ReportShaped(blob: string, loads: string -> Option<Json>) {
    && (forall i :: 0 <= i < |SIGNATURE_KEYS| ==> In(InQuotes(SIGNATURE_KEYS[i]), blob))
    && match loads(blob)
       case None => false
       case Some(obj) => obj.JObj? && forall i :: 0 <= i < |SIGNATURE_KEYS| ==> SIGNATURE_KEYS[i] in obj.members
  }

  function LastShaped(blobs: seq<string>, loads: string -> Option<Json>): Option<string> {
    if blobs == [] then None
    else if ReportShaped(blobs[|blobs| - 1], loads) then Some(blobs[|blobs| - 1])
    else LastShaped(blobs[..|blobs| - 1], loads)
  }

  /** _salvage_report_payload: keep scanning, the last report-shaped object wins. */
  method SalvageReportPayload(stdout: string, loads: string -> Option<Json>) returns (candidate: Option<string>)
    ensures candidate == LastShaped(Slices(stdout), loads)
  {
    candidate := None;
    var blobs := IterBalancedJsonObjects(stdout);
    for i := 0 to |blobs|
      invariant candidate == LastShaped(blobs[..i], loads)
    {
      LastShapedStep(blobs, i, loads);
      if ReportShaped(blobs[i], loads) {
        candidate := Some(blobs[i]);
      }
    }
    assert blobs[..|blobs|] == blobs;
  }

  lemma LastShapedStep(blobs: seq<string>, i: nat, loads: string -> Option<Json>)
    requires i < |blobs|
    ensures LastShaped(blobs[..i + 1], loads) ==
      if ReportShaped(blobs[i], loads) then Some(blobs[i]) else LastShaped(blobs[..i], loads)
  {
    assert blobs[..i + 1][..i] == blobs[..i];
  }

  /** What the payload amounts to, once one was chosen. */
  function Judge(payload: string, lane: Lane, target: string, loads: string -> Option<Json>): Extracted {
    if Strip(payload) == "" then Err(FenceEmpty)
    else
      match loads(Unwrap(payload))
      case None => Err(JsonInvalid)
      case Some(obj) =>
        if !SchemaValid(obj) then Err(SchemaInvalid)
        else if ToReport(obj).lane != lane then Err(LaneMismatch)
        else if ToReport(obj).targetId != target then Err(TargetMismatch)
        else Ok(Enforce(ToReport(obj)))
  }

  /** The text judged: the last fence's body or, when no fence was opened at all, the salvaged object. */
  function Payload(stdout: string, loads: string -> Option<Json>): Option<string> {
    var fenced := LastFencePayload(stdout);
    if fenced.Some? then fenced
    else if In(FENCE_OPEN, stdout) then None
    else LastShaped(Slices(stdout), loads)
  }

  function Extraction(stdout: string, lane: Lane, target: string, loads: string -> Option<Json>): Extracted {
    match Payload(stdout, loads)
    case None => Err(FenceMissing)
    case Some(payload) => Judge(payload, lane, target, loads)
  }

  method ExtractReport(stdout: string, lane: Lane, target: string, loads: string -> Option<Json>)
      returns (r: Extracted)
    ensures r == Extraction(stdout, lane, target, loads)
  {
    var fenced := LastFencePayload(stdout);
    if fenced.None? {
      if !In(FENCE_OPEN, stdout) {
        fenced := SalvageReportPayload(stdout, loads);
      }
      if fenced.None? {
        return Err(FenceMissing);
      }
    }
    if Strip(fenced.value) == "" {
      return Err(FenceEmpty);
    }
    var parsed := loads(Unwrap(fenced.value));
    if parsed.None? {
      return Err(JsonInvalid);
    }
    var obj := parsed.value;
    if !SchemaValid(obj) {
      return Err(SchemaInvalid);
    }
    if ToReport(obj).lane != lane {
      return Err(LaneMismatch);
    }
    if ToReport(obj).targetId != target {
      return Err(TargetMismatch);
    }
    return Ok(Enforce(ToReport(obj)));
  }

  // ---------- what a successful extraction guarantees, on any input ----------

  /** Whatever the agent printed, an accepted report is within the schema's bounds, is addressed to
      the caller, and names a feature if it claims a pass. */
  lemma AcceptedIsSound(stdout: string, lane: Lane, target: string, loads: string -> Option<Json>)
    requires Extraction(stdout, lane, target, loads).Ok?
    ensures var r := Extraction(stdout, lane, target, loads).report;
      Bounded(r) && r.lane == lane && r.targetId == target && (r.outcome.PASS? ==> r.verdict.coreFeatures != [])
  {
    var payload := Payload(stdout, loads).value;
    var obj := loads(Unwrap(payload)).value;
    ValidIsBounded(obj);
    EnforceKeepsContract(ToReport(obj));
  }

  // ---------- the fence ----------

  /** Three angle brackets and then none: what both fence markers look like. */
  ghost predicate Marker(m: string) {
    |m| >= 5 && m[0] == m[1] == m[2] == '<' && forall k :: 3 <= k < |m| ==> m[k] != '<'
  }

  lemma FencesAreMarkers()
    ensures Marker(FENCE_OPEN) && Marker(FENCE_CLOSE) && FENCE_OPEN[3] != FENCE_CLOSE[3]
  {
  }

  lemma OccursChars(s: string, pat: string, i: int)
    requires OccursAt(s, pat, i)
    ensures forall k :: 0 <= k < |pat| ==> s[i + k] == pat[k]
  {
    var w := s[i..i + |pat|];
    assert forall k :: 0 <= k < |w| ==> w[k] == s[i + k];
  }

  /** A marker can overlap another one only by starting where it starts. */
  lemma MarkersApart(a: string, n: string, c: string, m: string, i: int)
    requires Marker(m) && Marker(n) && OccursAt(a + n + c, m, i)
    ensures i + |m| <= |a| || i == |a| || i >= |a| + |n|
  {
    var s := a + n + c;
    OccursChars(s, m, i);
    assert forall k :: 0 <= k < |n| ==> s[|a| + k] == n[k];
  }

  predicate Unfenced(s: string) {
    !In(FENCE_OPEN, s) && !In(FENCE_CLOSE, s)
  }

  lemma NoLaterOpener(pre: string, open: string, body: string, close: string, post: string, j: int)
    requires Marker(open) && Marker(close) && open[3] != close[3]
    requires !Contains(body, open) && !Contains(post, open)
    requires |pre| < j
    ensures !OccursAt(pre + open + body + close + post, open, j)
  {
    var s := pre + open + body + close + post;
    if OccursAt(s, open, j) {
      assert s == pre + open + (body + close + post);
      MarkersApart(pre, open, body + close + post, open, j);
      assert s == (pre + open + body) + close + post;
      MarkersApart(pre + open + body, close, post, open, j);
      OccursChars(s, open, j);
      var at := |pre| + |open| + |body|;
      assert s[at + 3] == close[3];
      if j + |open| <= at {
        OccursInPart(pre + open, body, close + post, open, j) by {
          assert (pre + open) + body + (close + post) == s;
        }
      } else if j != at {
        OccursInPart(pre + open + body + close, post, "", open, j) by {
          assert (pre + open + body + close) + post + "" == s;
        }
      }
    }
  }

  lemma NoEarlierCloser(head: string, body: string, close: string, post: string, j: int)
    requires Marker(close) && !Contains(body, close) && |head| <= j < |head| + |body|
    ensures !OccursAt(head + body + close + post, close, j)
  {
    var s := head + body + close + post;
    assert head + body + (close + post) == s;
    if OccursAt(s, close, j) {
      MarkersApart(head + body, close, post, close, j);
      OccursInPart(head, body, close + post, close, j);
    }
  }

  lemma BlockFound(pre: string, open: string, body: string, close: string, post: string)
    requires Marker(open) && Marker(close) && open[3] != close[3]
    requires !Contains(body, open) && !Contains(body, close) && !Contains(post, open)
    ensures LastBlock(pre + open + body + close + post, open, close) == Some(body)
  {
    var s, head := pre + open + body + close + post, pre + open;
    LastOpener(pre, open, body, close, post);
    FirstCloser(head, body, close, post);
    BodyBetween(head, body, close, post);
    LastBlockIs(s, open, close, |pre|, |head|, |head| + |body|);
  }

  lemma {:induction false} LastBlockIs(s: string, open: string, close: string, o: nat, at: nat, c: nat)
    requires at == o + |open| && at <= c <= |s| && RFind(s, open, |s|) == Some(o) && Find(s, close, at) == Some(c)
    ensures LastBlock(s, open, close) == Some(s[at..c])
  {
  }

  lemma {:induction false} BodyBetween(head: string, body: string, close: string, post: string)
    ensures var s := head + body + close + post; |head| + |body| <= |s| && s[|head|..|head| + |body|] == body
  {
    var s := head + body + close + post;
    assert s[|head|..|head| + |body|] == body;
  }

  lemma LastOpener(pre: string, open: string, body: string, close: string, post: string)
    requires Marker(open) && Marker(close) && open[3] != close[3]
    requires !Contains(body, open) && !Contains(post, open)
    ensures var s := pre + open + body + close + post; RFind(s, open, |s|) == Some(|pre|)
  {
    var s := pre + open + body + close + post;
    assert s[|pre|..|pre| + |open|] == open;
    forall j | |pre| < j
      ensures !OccursAt(s, open, j)
    {
      NoLaterOpener(pre, open, body, close, post, j);
    }
    RFindIs(s, open, |pre|);
  }

  lemma FirstCloser(head: string, body: string, close: string, post: string)
    requires Marker(close) && !Contains(body, close)
    ensures Find(head + body + close + post, close, |head|) == Some(|head| + |body|)
  {
    var s, at := head + body + close + post, |head|;
    assert s[at + |body|..at + |body| + |close|] == close;
    forall j | at <= j < at + |body|
      ensures !OccursAt(s, close, j)
    {
      NoEarlierCloser(head, body, close, post, j);
    }
    FindIs(s, close, at, at + |body|);
  }

  /** The last fenced block is found whatever stands before it. */
  lemma FencePayload(pre: string, body: string, post: string)
    requires Unfenced(body) && !In(FENCE_OPEN, post)
    ensures LastFencePayload(pre + FENCE_OPEN + body + FENCE_CLOSE + post) == Some(body)
  {
    FencesAreMarkers();
    BlockFound(pre, FENCE_OPEN, body, FENCE_CLOSE, post);
  }

  // ---------- round trips ----------

  /** What every route must deliver. */
  ghost predicate Delivers(stdout: string, t: JsonText, loads: string -> Option<Json>)
    requires GoodText(t) && SchemaValid(Denote(t))
  {
    var r := ToReport(Denote(t));
    Extraction(stdout, r.lane, r.targetId, loads) == Ok(Enforce(r))
  }

  lemma TextEnds(t: JsonText)
    requires t.TObj?
    ensures Text(t)[0] == '{' && Text(t)[|Text(t)| - 1] == '}' && Trimmed(Text(t))
  {
  }

  lemma WsIsBlank(w: string)
    requires IsWs(w)
    ensures Blank(w)
  {
  }

  lemma JudgeText(pre: string, t: JsonText, post: string, loads: string -> Option<Json>)
    requires ReadsJson(loads) && IsWs(pre) && GoodText(t) && SchemaValid(Denote(t)) && IsWs(post)
    ensures var r := ToReport(Denote(t)); Judge(Padded(pre, t, post), r.lane, r.targetId, loads) == Ok(Enforce(r))
  {
    assert t.TObj?;
    TextEnds(t);
    WsIsBlank(pre);
    WsIsBlank(post);
    StripPadded(pre, Text(t), post);
    assert Text(t)[0] != '`';
  }

  /** A report in a final fence is returned exactly, up to the downgrade. */
  lemma Delivered(stdout: string, payload: string, t: JsonText, loads: string -> Option<Json>)
    requires GoodText(t) && SchemaValid(Denote(t)) && Payload(stdout, loads) == Some(payload)
    requires var r := ToReport(Denote(t)); Judge(payload, r.lane, r.targetId, loads) == Ok(Enforce(r))
    ensures Delivers(stdout, t, loads)
  {
  }

  lemma FencedRoundTrip(pre: string, w1: string, t: JsonText, w2: string, post: string, loads: string -> Option<Json>)
    requires ReadsJson(loads) && IsWs(w1) && IsWs(w2) && GoodText(t) && SchemaValid(Denote(t))
    requires Unfenced(Padded(w1, t, w2)) && !In(FENCE_OPEN, post)
    ensures Delivers(pre + FENCE_OPEN + Padded(w1, t, w2) + FENCE_CLOSE + post, t, loads)
  {
    FencePayload(pre, Padded(w1, t, w2), post);
    JudgeText(w1, t, w2, loads);
    Delivered(pre + FENCE_OPEN + Padded(w1, t, w2) + FENCE_CLOSE + post, Padded(w1, t, w2), t, loads);
  }

  /** The same through a markdown code block inside the fence, whatever its info string. */
  lemma MarkdownRoundTrip(pre: string, b1: string, info: string, inner1: string, t: JsonText, inner2: string,
                          b2: string, post: string, loads: string -> Option<Json>)
    requires ReadsJson(loads) && GoodText(t) && SchemaValid(Denote(t))
    requires Blank(b1) && Blank(b2) && Blank(inner1) && Blank(inner2) && '\n' !in info
    requires Unfenced(MarkdownBody(b1, info, inner1, t, inner2, b2)) && !In(FENCE_OPEN, post)
    ensures Delivers(pre + FENCE_OPEN + MarkdownBody(b1, info, inner1, t, inner2, b2) + FENCE_CLOSE + post, t, loads)
  {
    var body := MarkdownBody(b1, info, inner1, t, inner2, b2);
    FencePayload(pre, body, post);
    JudgeMarkdown(b1, info, inner1, t, inner2, b2, loads);
    Delivered(pre + FENCE_OPEN + body + FENCE_CLOSE + post, body, t, loads);
  }

  lemma JudgeMarkdown(b1: string, info: string, inner1: string, t: JsonText, inner2: string, b2: string,
                      loads: string -> Option<Json>)
    requires ReadsJson(loads) && GoodText(t) && SchemaValid(Denote(t))
    requires Blank(b1) && Blank(b2) && Blank(inner1) && Blank(inner2) && '\n' !in info
    ensures var r := ToReport(Denote(t));
      Judge(MarkdownBody(b1, info, inner1, t, inner2, b2), r.lane, r.targetId, loads) == Ok(Enforce(r))
  {
    assert t.TObj?;
    UnwrapsMarkdown(b1, info, inner1, t, inner2, b2);
    BlockNotEmpty(b1, info, inner1 + Text(t) + inner2, b2);
    JudgeUnwrapped(MarkdownBody(b1, info, inner1, t, inner2, b2), t, loads);
  }

  lemma JudgeUnwrapped(payload: string, t: JsonText, loads: string -> Option<Json>)
    requires ReadsJson(loads) && GoodText(t) && SchemaValid(Denote(t))
    requires Strip(payload) != "" && Unwrap(payload) == Text(t)
    ensures var r := ToReport(Denote(t)); Judge(payload, r.lane, r.targetId, loads) == Ok(Enforce(r))
  {
    LoadsText(t, loads);
  }

  lemma LoadsText(t: JsonText, loads: string -> Option<Json>)
    requires ReadsJson(loads) && GoodText(t)
    ensures loads(Text(t)) == Some(Denote(t))
  {
    assert Padded("", t, "") == Text(t);
  }

  lemma BlockNotEmpty(b1: string, info: string, inner: string, b2: string)
    requires Blank(b1) && Blank(b2)
    ensures Strip(b1 + CodeBlock(info, inner) + b2) != ""
  {
    var core := CodeBlock(info, inner);
    assert core[0] == '`' && core[|core| - 1] == '`';
    StripPadded(b1, core, b2);
  }

  function CodeBlock(info: string, inner: string): string {
    "```" + info + "\n" + inner + "```"
  }

  function MarkdownBody(b1: string, info: string, inner1: string, t: JsonText, inner2: string, b2: string): string {
    b1 + CodeBlock(info, inner1 + Text(t) + inner2) + b2
  }

  lemma UnwrapsBlock(b1: string, info: string, inner: string, b2: string)
    requires Blank(b1) && Blank(b2) && '\n' !in info
    ensures Unwrap(b1 + CodeBlock(info, inner) + b2) == Strip(inner)
  {
    var core := CodeBlock(info, inner);
    var nl := 3 + |info|;
    assert core[0] == '`' && core[|core| - 1] == '`';
    StripPadded(b1, core, b2);
    assert StartsWithTicks(core) && EndsWithTicks(core);
    InfoLine(info, inner);
    assert core[nl + 1..|core| - 3] == inner;
  }

  lemma InfoLine(info: string, inner: string)
    requires '\n' !in info
    ensures Find(CodeBlock(info, inner), "\n", 0) == Some(3 + |info|)
  {
    var core := CodeBlock(info, inner);
    var nl := 3 + |info|;
    assert core[nl..nl + 1] == "\n";
    assert OccursAt(core, "\n", nl);
    forall j | 0 <= j < nl
      ensures !OccursAt(core, "\n", j)
    {
      assert core[j] == if j < 3 then '`' else info[j - 3];
      assert core[j..j + 1] != "\n" by { assert core[j..j + 1][0] != '\n'; }
    }
  }

  lemma UnwrapsMarkdown(b1: string, info: string, inner1: string, t: JsonText, inner2: string, b2: string)
    requires t.TObj? && Blank(b1) && Blank(b2) && Blank(inner1) && Blank(inner2) && '\n' !in info
    ensures Unwrap(MarkdownBody(b1, info, inner1, t, inner2, b2)) == Text(t)
  {
    UnwrapsBlock(b1, info, inner1 + Text(t) + inner2, b2);
    TextEnds(t);
    StripPadded(inner1, Text(t), inner2);
  }

  // ---------- salvage ----------

  /** Slices before a neutral point are untouched by what follows, and scanning starts afresh there. */
  lemma SlicesAtNeutral(pre: string, rest: string)
    requires Neutral(ScanText(FRESH, pre))
    ensures Slices(pre + rest) == Slices(pre) + Slices(rest)
  {
    ScanTextAppend(FRESH, pre, rest);
    NeutralIsEmpty(FRESH, pre);
    OutFramed(FRESH, Slices(pre), rest);
    assert Slices(pre) + [] == Slices(pre);
  }

  lemma {:induction false} NeutralIsEmpty(st: Scan, text: string)
    requires st.depth == 0 ==> st.current == ""
    ensures ScanText(st, text).depth == 0 ==> ScanText(st, text).current == ""
    decreases text
  {
    if text != "" {
      NeutralIsEmpty(ScanChar(st, text[0]), text[1..]);
    }
  }

  lemma {:induction false} OutFramed(st: Scan, earlier: seq<string>, text: string)
    ensures ScanText(st.(out := earlier + st.out), text)
         == ScanText(st, text).(out := earlier + ScanText(st, text).out)
    decreases text
  {
    if text != "" {
      var next := ScanChar(st, text[0]);
      assert ScanChar(st.(out := earlier + st.out), text[0]) == next.(out := earlier + next.out) by {
        assert earlier + (st.out + [st.current + [text[0]]]) == (earlier + st.out) + [st.current + [text[0]]];
      }
      OutFramed(next, earlier, text[1..]);
    }
  }

  lemma {:induction false} LastShapedAppend(a: seq<string>, b: seq<string>, loads: string -> Option<Json>)
    ensures LastShaped(a + b, loads) == if LastShaped(b, loads).Some? then LastShaped(b, loads)
      else LastShaped(a, loads)
    decreases |b|
  {
    if b == [] {
      assert a + b == a;
    } else {
      assert (a + b)[..|a + b| - 1] == a + b[..|b| - 1];
      LastShapedAppend(a, b[..|b| - 1], loads);
    }
  }

  /** The raw text carries each signature key in plain quotes. */
  predicate SpellsSignature(text: string) {
    forall i :: 0 <= i < |SIGNATURE_KEYS| ==> In(InQuotes(SIGNATURE_KEYS[i]), text)
  }

  lemma SalvageChoice(pre: string, t: JsonText, post: string, loads: string -> Option<Json>)
    requires ReadsJson(loads) && GoodText(t) && SchemaValid(Denote(t))
    requires Neutral(ScanText(FRESH, pre)) && LastShaped(Slices(post), loads) == None
    ensures LastShaped(Slices(pre + Text(t) + post), loads)
         == if SpellsSignature(Text(t)) then Some(Text(t)) else LastShaped(Slices(pre), loads)
  {
    var text := Text(t);
    assert pre + text + post == pre + (text + post);
    SlicesAtNeutral(pre, text + post);
    ObjectIsGroup(t);
    GroupScans(text);
    SlicesAtNeutral(text, post);
    LastShapedAppend([text], Slices(post), loads);
    LastShapedAppend(Slices(pre), [text] + Slices(post), loads);
    OneShaped(t, loads);
  }

  /** The text itself is report-shaped exactly if it spells the signature keys. */
  lemma OneShaped(t: JsonText, loads: string -> Option<Json>)
    requires ReadsJson(loads) && GoodText(t) && SchemaValid(Denote(t))
    ensures LastShaped([Text(t)], loads) == if SpellsSignature(Text(t)) then Some(Text(t)) else None
  {
    LoadsText(t, loads);
    assert [Text(t)][..0] == [];
    var m := Denote(t).members;
    assert "schema_version" in m && "lane" in m && "outcome" in m;
  }

  /** Without any fence, a report after neutral prose and earlier drafts is returned exactly when it
      spells its signature keys plainly; otherwise whatever the text before it holds is judged. */
  lemma UnfencedRoundTrip(pre: string, t: JsonText, post: string, loads: string -> Option<Json>)
    requires ReadsJson(loads) && GoodText(t) && SchemaValid(Denote(t))
    requires !In(FENCE_OPEN, pre + Text(t) + post)
    requires Neutral(ScanText(FRESH, pre)) && LastShaped(Slices(post), loads) == None
    ensures SpellsSignature(Text(t)) ==> Delivers(pre + Text(t) + post, t, loads)
    ensures !SpellsSignature(Text(t)) ==>
      Payload(pre + Text(t) + post, loads) == LastShaped(Slices(pre), loads)
  {
    SalvageChoice(pre, t, post, loads);
    UnfencedPayload(pre + Text(t) + post, loads);
    if SpellsSignature(Text(t)) {
      JudgeBare(t, loads);
      Delivered(pre + Text(t) + post, Text(t), t, loads);
    }
  }

  lemma JudgeBare(t: JsonText, loads: string -> Option<Json>)
    requires ReadsJson(loads) && GoodText(t) && SchemaValid(Denote(t))
    ensures var r := ToReport(Denote(t)); Judge(Text(t), r.lane, r.targetId, loads) == Ok(Enforce(r))
  {
    JudgeText("", t, "", loads);
    assert Padded("", t, "") == Text(t);
  }

  lemma UnfencedPayload(stdout: string, loads: string -> Option<Json>)
    requires !In(FENCE_OPEN, stdout)
    ensures Payload(stdout, loads) == LastShaped(Slices(stdout), loads)
  {
  }

  /** Prose without an opening brace holds no slice at all. */
  lemma {:induction false} ProseHasNoSlice(st: Scan, prose: string)
    requires st.depth == 0 && '{' !in prose
    ensures ScanText(st, prose).out == st.out
    decreases prose
  {
    if prose != "" {
      ProseHasNoSlice(ScanChar(st, prose[0]), prose[1..]);
    }
  }

  // A printer that does not escape ASCII letters spells the keys plainly.

  function Plainly(s: string): seq<Part> {
    seq(|s|, i requires 0 <= i < |s| => Lit(s[i]))
  }

  lemma {:induction false} PlainlyText(s: string)
    ensures PartsText(Plainly(s)) == s
  {
    if s != "" {
      assert Plainly(s)[1..] == Plainly(s[1..]);
      PlainlyText(s[1..]);
    }
  }

  lemma Inside(a: string, b: string, c: string, pat: string)
    requires Contains(b, pat)
    ensures Contains(a + b + c, pat)
  {
    var at :| OccursAt(b, pat, at);
    OccursInWhole(a, b, c, pat, at);
  }

  lemma ContainsSelf(s: string)
    ensures Contains(s, s)
  {
    assert OccursAt(s, s, 0);
  }

  lemma {:induction false} KeyOccurs(members: seq<Member>, i: nat, key: string)
    requires i < |members| && members[i].key == Plainly(key)
    ensures Contains(MembersText(members), InQuotes(key))
    decreases i
  {
    var m, rest := members[0], MembersText(members[1..]);
    var comma := if |members| == 1 then "" else ",";
    if i == 0 {
      var tail := m.mid + ":" + ElemText(m.elem) + comma + rest;
      PlainlyText(key);
      ContainsSelf(InQuotes(key));
      Inside(m.pre, InQuotes(key), tail, InQuotes(key));
      assert MembersText(members) == m.pre + InQuotes(key) + tail;
    } else {
      KeyOccurs(members[1..], i - 1, key);
      Inside(MemberText(m) + comma, rest, "", InQuotes(key));
      assert MemberText(m) + comma + rest + "" == MembersText(members);
    }
  }

  lemma PlainKeysSpell(t: JsonText)
    requires t.TObj?
    requires forall k :: 0 <= k < |SIGNATURE_KEYS| ==>
      exists i :: 0 <= i < |t.members| && t.members[i].key == Plainly(SIGNATURE_KEYS[k])
    ensures SpellsSignature(Text(t))
  {
    forall k | 0 <= k < |SIGNATURE_KEYS|
      ensures In(InQuotes(SIGNATURE_KEYS[k]), Text(t))
    {
      var i :| 0 <= i < |t.members| && t.members[i].key == Plainly(SIGNATURE_KEYS[k]);
      KeyOccurs(t.members, i, SIGNATURE_KEYS[k]);
      var at :| OccursAt(MembersText(t.members), InQuotes(SIGNATURE_KEYS[k]), at);
      OccursInWhole("{" + t.pad, MembersText(t.members), "}", InQuotes(SIGNATURE_KEYS[k]), at);
    }
  }

  /** End to end: any report within the bounds, printed in any way inside a final fence. */
  lemma ReportSurvivesFence(r: RunReport, pre: string, w1: string, t: JsonText, w2: string, post: string,
                            loads: string -> Option<Json>)
    requires Bounded(r) && ReadsJson(loads)
    requires GoodText(t) && Denote(t) == ToDict(r) && IsWs(w1) && IsWs(w2)
    requires Unfenced(Padded(w1, t, w2)) && !In(FENCE_OPEN, post)
    ensures Extraction(pre + FENCE_OPEN + Padded(w1, t, w2) + FENCE_CLOSE + post, r.lane, r.targetId, loads)
         == Ok(Enforce(r))
  {
    ReportRoundTrip(r);
    FencedRoundTrip(pre, w1, t, w2, post, loads);
  }
}
