/**
 extract_report case by case: which text it judges, and exactly when it answers what.
 */
module ExtractionCases {
  import opened Options
  import opened Strings
  import opened Scanner
  import opened JsonText
  import opened Report
  import opened Extraction

  // ---------- the text that is judged ----------

  /** The last opening marker stands at o, and c is the first closing marker behind it. */
  ghost predicate FenceAt(stdout: string, o: int, c: int) {
    && OccursAt(stdout, "<<<HEYI_RUN_REPORT_JSON>>>", o)
    && (forall j :: o < j ==> !OccursAt(stdout, "<<<HEYI_RUN_REPORT_JSON>>>", j))
    && o + 26 <= c && OccursAt(stdout, "<<<END>>>", c)
    && forall j :: o + 26 <= j < c ==> !OccursAt(stdout, "<<<END>>>", j)
  }

  /** The payload is the body of the last fence, and that fence is closed. */
  ghost predicate LastFenced(stdout: string, payload: string) {
    exists o, c :: FenceAt(stdout, o, c) && payload == stdout[o + 26..c]
  }

  ghost predicate OpensFence(stdout: string) {
    exists o :: OccursAt(stdout, "<<<HEYI_RUN_REPORT_JSON>>>", o)
  }

  /** The blob looks like a report: it spells the three keys, and is an object that has them. */
  ghost predicate LooksLikeReport(blob: string, loads: string -> Option<Json>) {
    && Contains(blob, "\"schema_version\"") && Contains(blob, "\"lane\"") && Contains(blob, "\"outcome\"")
    && loads(blob).Some? && loads(blob).value.JObj?
    && "schema_version" in loads(blob).value.members && "lane" in loads(blob).value.members
    && "outcome" in loads(blob).value.members
  }

  /** The payload is the last slice that looks like a report. */
  ghost predicate LastReport(slices: seq<string>, payload: string, loads: string -> Option<Json>) {
    exists i :: 0 <= i < |slices| && slices[i] == payload && LooksLikeReport(slices[i], loads)
                && forall j :: i < j < |slices| ==> !LooksLikeReport(slices[j], loads)
  }

  /** The text that is judged: the last fence's body, or without any opening marker a slice. */
  ghost predicate Chosen(stdout: string, payload: string, loads: string -> Option<Json>) {
    || LastFenced(stdout, payload)
    || (!OpensFence(stdout) && LastReport(Slices(stdout), payload, loads))
  }

  lemma ShapedIs(blob: string, loads: string -> Option<Json>)
    ensures ReportShaped(blob, loads) <==> LooksLikeReport(blob, loads)
  {
    assert SIGNATURE_KEYS[0] == "schema_version" && SIGNATURE_KEYS[1] == "lane" && SIGNATURE_KEYS[2] == "outcome";
    assert InQuotes("schema_version") == "\"schema_version\"";
    assert InQuotes("lane") == "\"lane\"" && InQuotes("outcome") == "\"outcome\"";
  }

  lemma {:induction false} LastShapedIs(slices: seq<string>, payload: string, loads: string -> Option<Json>)
    ensures LastShaped(slices, loads) == Some(payload) <==> LastReport(slices, payload, loads)
    decreases slices
  {
    if slices != [] {
      var init, last := slices[..|slices| - 1], slices[|slices| - 1];
      ShapedIs(last, loads);
      LastShapedIs(init, payload, loads);
      LastReportSnoc(init, last, payload, loads);
      assert slices == init + [last];
    }
  }

  lemma LastReportSnoc(init: seq<string>, last: string, payload: string, loads: string -> Option<Json>)
    ensures LastReport(init + [last], payload, loads) <==>
      if LooksLikeReport(last, loads) then payload == last else LastReport(init, payload, loads)
  {
    var all := init + [last];
    if LooksLikeReport(last, loads) && payload == last {
      assert all[|init|] == payload;
    }
    if LastReport(init, payload, loads) && !LooksLikeReport(last, loads) {
      var i :| 0 <= i < |init| && init[i] == payload && LooksLikeReport(init[i], loads)
               && forall j :: i < j < |init| ==> !LooksLikeReport(init[j], loads);
      assert all[i] == payload;
    }
    if LastReport(all, payload, loads) {
      var i :| 0 <= i < |all| && all[i] == payload && LooksLikeReport(all[i], loads)
               && forall j :: i < j < |all| ==> !LooksLikeReport(all[j], loads);
      assert all[|init|] == last;
      if i < |init| {
        assert init[i] == payload;
        assert forall j :: 0 <= j < |init| ==> init[j] == all[j];
      }
    }
  }

  lemma FencedIs(stdout: string, payload: string)
    ensures LastFencePayload(stdout) == Some(payload) <==> LastFenced(stdout, payload)
  {
    assert |FENCE_OPEN| == 26;
    var o := RFind(stdout, FENCE_OPEN, |stdout|);
    if o.Some? {
      var c := Find(stdout, FENCE_CLOSE, o.value + 26);
      if c.Some? {
        assert FenceAt(stdout, o.value, c.value);
      }
      forall p, q | FenceAt(stdout, p, q)
        ensures p == o.value && c == Some(q)
      {
        FenceUnique(stdout, o.value, p, q);
      }
    }
  }

  lemma FenceUnique(stdout: string, o: nat, p: int, q: int)
    requires RFind(stdout, FENCE_OPEN, |stdout|) == Some(o) && FenceAt(stdout, p, q)
    ensures p == o && Find(stdout, FENCE_CLOSE, o + 26) == Some(q)
  {
    assert |FENCE_OPEN| == 26;
    RFindIs(stdout, FENCE_OPEN, p);
    FindIs(stdout, FENCE_CLOSE, p + 26, q);
  }

  /** The text judged is the chosen one, and there is none exactly if nothing can be chosen. */
  lemma PayloadIs(stdout: string, loads: string -> Option<Json>, payload: string)
    ensures Payload(stdout, loads) == Some(payload) <==> Chosen(stdout, payload, loads)
  {
    FencedIs(stdout, payload);
    LastShapedIs(Slices(stdout), payload, loads);
    if LastFenced(stdout, payload) {
      var o, c :| FenceAt(stdout, o, c) && payload == stdout[o + 26..c];
      assert OpensFence(stdout);
    }
    if LastFencePayload(stdout).Some? {
      FencedIs(stdout, LastFencePayload(stdout).value);
      var o, c :| FenceAt(stdout, o, c);
      assert OpensFence(stdout);
    }
  }

  // ---------- what is answered ----------

  /** The answer for a chosen text, from what json.loads makes of it, in the order of the checks. */
  ghost predicate Answers(payload: string, lane: Lane, target: string, loads: string -> Option<Json>, r: Extracted) {
    var loaded := loads(Unwrap(payload));
    && (r == Err(FenceEmpty) <==> Blank(payload))
    && (!Blank(payload) ==>
          && (r == Err(JsonInvalid) <==> loaded == None)
          && (loaded.Some? ==>
                && (r == Err(SchemaInvalid) <==> !SchemaValid(loaded.value))
                && (SchemaValid(loaded.value) ==> AnswersValid(loaded.value, lane, target, r))))
  }

  /** The answer for an object within the schema. */
  ghost predicate AnswersValid(obj: Json, lane: Lane, target: string, r: Extracted)
    requires SchemaValid(obj)
  {
    && (r == Err(LaneMismatch) <==> obj.members["lane"] != JStr(if lane == PROJECT then "project" else "skill"))
    && (obj.members["lane"] == JStr(if lane == PROJECT then "project" else "skill") ==>
          && (r == Err(TargetMismatch) <==> obj.members["target_id"] != JStr(target))
          && (obj.members["target_id"] == JStr(target) ==> r.Ok? && IsEnforced(ToReport(obj), r.report)))
  }

  /** The first n characters of a text, or all of a shorter one. */
  predicate IsStart(start: string, text: string, n: nat) {
    start <= text && |start| == if |text| <= n then |text| else n
  }

  /** A pass without a feature becomes partial, with a note on its assessment; all else stays. */
  ghost predicate IsEnforced(r: RunReport, e: RunReport) {
    if r.outcome == PASS && r.verdict.coreFeatures == [] then
      && e.outcome == PARTIAL && e.(outcome := PASS, selfAssessment := r.selfAssessment) == r
      && IsStart(e.selfAssessment, r.selfAssessment + DOWNGRADE_NOTE, 1024)
    else e == r
  }

  lemma BlankIs(s: string)
    ensures Strip(s) == "" <==> Blank(s)
  {
    var pre, post := StripSplits(s);
    if Blank(s) {
      StripPadded(s, "", "");
      assert s + "" + "" == s;
    }
  }

  lemma EnforcedIs(r: RunReport)
    ensures IsEnforced(r, Enforce(r))
  {
  }

  lemma JudgeIs(payload: string, lane: Lane, target: string, loads: string -> Option<Json>)
    ensures Answers(payload, lane, target, loads, Judge(payload, lane, target, loads))
  {
    BlankIs(payload);
    var loaded := loads(Unwrap(payload));
    if loaded.Some? && SchemaValid(loaded.value) {
      EnforcedIs(ToReport(loaded.value));
      LaneIs(loaded.value);
    }
  }

  /** The two fields the caller's expectations are checked against. */
  lemma LaneIs(obj: Json)
    requires SchemaValid(obj)
    ensures obj.members["lane"] == JStr(if ToReport(obj).lane == PROJECT then "project" else "skill")
    ensures obj.members["target_id"] == JStr(ToReport(obj).targetId)
  {
  }

  /** extract_report, on every text: fence_missing exactly if no text can be chosen, and otherwise the answer
      for the one that is. */
  lemma ExtractionIs(stdout: string, lane: Lane, target: string, loads: string -> Option<Json>)
    ensures Extraction.Extraction(stdout, lane, target, loads) == Err(FenceMissing) <==>
      forall p :: !Chosen(stdout, p, loads)
    ensures forall p :: Chosen(stdout, p, loads) ==>
      Answers(p, lane, target, loads, Extraction.Extraction(stdout, lane, target, loads))
  {
    forall p
      ensures Payload(stdout, loads) == Some(p) <==> Chosen(stdout, p, loads)
    {
      PayloadIs(stdout, loads, p);
    }
    if Payload(stdout, loads).Some? {
      JudgeIs(Payload(stdout, loads).value, lane, target, loads);
    }
  }

  // ---------- an unfinished fence ----------

  /** A fence that is opened last and not closed is answered with fence_missing, whatever stands before it: no
      earlier draft is taken. */
  lemma UnfinishedFence(pre: string, tail: string, lane: Lane, target: string, loads: string -> Option<Json>)
    requires !Contains(tail, "<<<HEYI_RUN_REPORT_JSON>>>") && !Contains(tail, "<<<END>>>")
    ensures Extraction.Extraction(pre + "<<<HEYI_RUN_REPORT_JSON>>>" + tail, lane, target, loads) == Err(FenceMissing)
  {
    var stdout := pre + FENCE_OPEN + tail;
    LastOpenerThere(pre, tail);
    assert Find(stdout, FENCE_CLOSE, |pre| + 26) == None by {
      assert |FENCE_OPEN| == 26;
      forall j | |pre| + 26 <= j
        ensures !OccursAt(stdout, FENCE_CLOSE, j)
      {
        OccursInTail(pre + FENCE_OPEN, tail, FENCE_CLOSE, j);
      }
    }
    assert |FENCE_OPEN| == 26;
    assert LastFencePayload(stdout) == None;
    assert OccursAt(stdout, FENCE_OPEN, |pre|);
  }

  lemma OccursInTail(head: string, tail: string, pat: string, j: int)
    requires !Contains(tail, pat) && |head| <= j
    ensures !OccursAt(head + tail, pat, j)
  {
    if OccursAt(head + tail, pat, j) {
      assert tail[j - |head|..j - |head| + |pat|] == (head + tail)[j..j + |pat|];
      assert OccursAt(tail, pat, j - |head|);
    }
  }

  lemma LastOpenerThere(pre: string, tail: string)
    requires !Contains(tail, FENCE_OPEN)
    ensures var stdout := pre + FENCE_OPEN + tail; RFind(stdout, FENCE_OPEN, |stdout|) == Some(|pre|)
  {
    var stdout := pre + FENCE_OPEN + tail;
    FencesAreMarkers();
    assert stdout[|pre|..|pre| + |FENCE_OPEN|] == FENCE_OPEN;
    forall j | |pre| < j
      ensures !OccursAt(stdout, FENCE_OPEN, j)
    {
      if j < |pre| + |FENCE_OPEN| {
        NotInside(pre, tail, j);
      } else {
        OccursInTail(pre + FENCE_OPEN, tail, FENCE_OPEN, j);
      }
    }
    RFindIs(stdout, FENCE_OPEN, |pre|);
  }

  /** A marker does not start inside a marker. */
  lemma NotInside(pre: string, tail: string, j: int)
    requires |pre| < j < |pre| + |FENCE_OPEN|
    ensures !OccursAt(pre + FENCE_OPEN + tail, FENCE_OPEN, j)
  {
    FencesAreMarkers();
    if OccursAt(pre + FENCE_OPEN + tail, FENCE_OPEN, j) {
      MarkersApart(pre, FENCE_OPEN, tail, FENCE_OPEN, j);
    }
  }

  // ---------- the markdown wrapper ----------

  /** A payload that is no code block is taken as it is. */
  lemma UnwrapLeaves(payload: string)
    requires !(StartsWithTicks(Strip(payload)) && Contains(Strip(payload), "\n") && EndsWithTicks(Strip(payload)))
    ensures Unwrap(payload) == payload
  {
  }
}
