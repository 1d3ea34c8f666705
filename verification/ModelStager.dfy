/**
 orchestrator/model_stager.py: recognising a staged model on disk and making sure one is there.
 Downloads, free space and failing directory operations are oracles; a directory is a finite tree.
 */
module ModelStager {
  import opened Options
  import opened Strings

  // ---------- directories ----------

  /** `readable` says whether the folder can be listed. Other is neither a file nor a folder. */
  datatype Node =
    | File(name: string)
    | Folder(name: string, readable: bool, children: seq<Node>)
    | Other(name: string)

  const WEIGHT_SUFFIXES := [".safetensors", ".bin", ".pt", ".gguf", ".npz", ".onnx", ".pth"]
  const WEIGHT_DIR_SUFFIXES := [".mlpackage", ".mlmodelc", ".savedmodel"]
  const MANIFEST_NAMES := ["config.json", "model_index.json", "preprocessor_config.json", "generation_config.json",
                           "tokenizer_config.json", "feature_extractor_config.json"]
  const WEIGHT_FILENAMES := ["model.safetensors.index.json", "pytorch_model.bin.index.json"]

  function Lower(s: string): string {
    seq(|s|, i requires 0 <= i < |s| => if 'A' <= s[i] <= 'Z' then s[i] - 'A' + 'a' else s[i])
  }

  /** Path.suffix: from the last dot on, unless that dot is the first or the last character. */
  function Suffix(name: string): string {
    match RFind(name, ".", |name|)
    case None => ""
    case Some(i) => if 0 < i < |name| - 1 then name[i..] else ""
  }

  predicate Dotted(name: string) {
    name != "" && name[0] == '.'
  }

  predicate EndsWith(name: string, end: string) {
    |end| <= |name| && name[|name| - |end|..] == end
  }

  /** A file, or a folder, that is a weight by its suffix. */
  predicate IsWeight(e: Node) {
    || (e.File? && Lower(Suffix(e.name)) in WEIGHT_SUFFIXES)
    || (e.Folder? && Lower(Suffix(e.name)) in WEIGHT_DIR_SUFFIXES)
  }

  // ---------- the search for weights ----------

  /** What counts as a weight. */
  type Weigher = Node -> bool

  /** Some entry of the folder leads to a weight within the depth bound. */
  predicate WeightBelow(weigh: Weigher, n: Node, depth: nat, maxDepth: nat)
    decreases n, 1
  {
    n.Folder? && n.readable && exists i :: 0 <= i < |n.children| && LeadsToWeight(weigh, n.children[i], depth, maxDepth)
  }

  /** The entry of a folder at this depth is a weight, or a folder to look into. Dotted names are passed over. */
  predicate LeadsToWeight(weigh: Weigher, e: Node, depth: nat, maxDepth: nat)
    decreases e, 2
  {
    !Dotted(e.name) && (weigh(e) || (e.Folder? && depth + 1 < maxDepth && WeightBelow(weigh, e, depth + 1, maxDepth)))
  }

  function Size(n: Node): nat
    decreases n, 1
  {
    1 + if n.Folder? then SizeAll(n, |n.children|) else 0
  }

  function SizeAll(n: Node, k: nat): nat
    requires n.Folder? && k <= |n.children|
    decreases n, 0, k
  {
    if k == 0 then 0 else SizeAll(n, k - 1) + Size(n.children[k - 1])
  }

  function StackSize(stack: seq<(Node, nat)>): nat {
    if stack == [] then 0 else StackSize(stack[..|stack| - 1]) + Size(stack[|stack| - 1].0)
  }

  predicate Pending(weigh: Weigher, stack: seq<(Node, nat)>, maxDepth: nat) {
    exists k :: 0 <= k < |stack| && WeightBelow(weigh, stack[k].0, stack[k].1, maxDepth)
  }

  predicate LeftToDo(weigh: Weigher, entries: seq<Node>, k: nat, depth: nat, maxDepth: nat) {
    exists i :: k <= i < |entries| && LeadsToWeight(weigh, entries[i], depth, maxDepth)
  }

  lemma PendingPush(weigh: Weigher, stack: seq<(Node, nat)>, n: Node, depth: nat, maxDepth: nat)
    ensures Pending(weigh, stack + [(n, depth)], maxDepth) <==>
      Pending(weigh, stack, maxDepth) || WeightBelow(weigh, n, depth, maxDepth)
  {
    var all := stack + [(n, depth)];
    if k :| 0 <= k < |stack| && WeightBelow(weigh, stack[k].0, stack[k].1, maxDepth) {
      assert all[k] == stack[k];
    }
    assert all[|stack|] == (n, depth);
  }

  /** Looks at the entries of one folder: stops at a weight, stacks the folders to look into. */
  method ScanFolder(weigh: Weigher, cur: Node, depth: nat, maxDepth: nat, stack: seq<(Node, nat)>)
      returns (found: bool, stacked: seq<(Node, nat)>)
    requires cur.Folder?
    ensures found ==> LeftToDo(weigh, cur.children, 0, depth, maxDepth)
    ensures !found ==> (Pending(weigh, stacked, maxDepth) <==>
      Pending(weigh, stack, maxDepth) || LeftToDo(weigh, cur.children, 0, depth, maxDepth))
    ensures !found ==> StackSize(stacked) <= StackSize(stack) + SizeAll(cur, |cur.children|)
  {
    found, stacked := false, stack;
    ghost var goal := Pending(weigh, stack, maxDepth) || LeftToDo(weigh, cur.children, 0, depth, maxDepth);
    for k := 0 to |cur.children|
      invariant goal <==> Pending(weigh, stacked, maxDepth) || LeftToDo(weigh, cur.children, k, depth, maxDepth)
      invariant StackSize(stacked) <= StackSize(stack) + SizeAll(cur, k)
    {
      var e := cur.children[k];
      if Dotted(e.name) {
        continue;
      }
      if weigh(e) {
        return true, stacked;
      }
      if e.Folder? && depth + 1 < maxDepth {
        PendingPush(weigh, stacked, e, depth + 1, maxDepth);
        assert (stacked + [(e, depth + 1)])[..|stacked|] == stacked;
        stacked := stacked + [(e, depth + 1)];
      }
    }
  }

  /** _scan_for_weights: a depth-first search with an explicit stack. */
  method ScanForWeights(weigh: Weigher, root: Node, maxDepth: nat) returns (found: bool)
    ensures found <==> WeightBelow(weigh, root, 0, maxDepth)
  {
    var stack: seq<(Node, nat)> := [(root, 0)];
    PendingPush(weigh, [], root, 0, maxDepth);
    assert [] + [(root, 0)] == stack;
    while stack != []
      invariant WeightBelow(weigh, root, 0, maxDepth) <==> Pending(weigh, stack, maxDepth)
      decreases StackSize(stack)
    {
      var (cur, depth) := stack[|stack| - 1];
      var rest := stack[..|stack| - 1];
      assert rest + [(cur, depth)] == stack;
      PendingPush(weigh, rest, cur, depth, maxDepth);
      if cur.Folder? && cur.readable {
        found, rest := ScanFolder(weigh, cur, depth, maxDepth, rest);
        if found {
          return;
        }
      }
      stack := rest;
    }
    return false;
  }

  // ---------- is a directory staged? ----------

  /** The first child folder with this name. */
  function ChildFolder(n: Option<Node>, name: string): Option<Node> {
    if n.None? || !n.value.Folder? then None else FolderIn(n.value.children, name)
  }

  function FolderIn(children: seq<Node>, name: string): Option<Node> {
    if children == [] then None
    else if children[0].Folder? && children[0].name == name then Some(children[0])
    else FolderIn(children[1..], name)
  }

  /** .cache/huggingface/download, if it is there. */
  function Ledger(n: Option<Node>): Option<Node> {
    ChildFolder(ChildFolder(ChildFolder(n, ".cache"), "huggingface"), "download")
  }

  predicate SomeIncomplete(children: seq<Node>) {
    exists i :: 0 <= i < |children| && EndsWith(children[i].name, ".incomplete")
  }

  predicate HasFileUpto(children: seq<Node>, n: nat, names: seq<string>)
    requires n <= |children|
  {
    exists i :: 0 <= i < n && children[i].File? && !Dotted(children[i].name) && children[i].name in names
  }

  /** The ledger can be listed and holds a half-finished file. */
  predicate HalfFinished(n: Option<Node>) {
    match Ledger(n)
    case None => false
    case Some(ledger) => ledger.Folder? && ledger.readable && SomeIncomplete(ledger.children)
  }

  /** _no_download_ledger */
  predicate NoDownloadLedger(n: Option<Node>) {
    Ledger(n).None? || !HalfFinished(n)
  }

  predicate HasFile(n: Node, names: seq<string>)
    requires n.Folder?
  {
    HasFileUpto(n.children, |n.children|, names)
  }

  const MAX_DEPTH: nat := 3

  /** A directory holds usable weights. */
  predicate Staged(n: Option<Node>) {
    && n.Some? && n.value.Folder? && n.value.readable && !HalfFinished(n)
    && (WeightBelow(IsWeight, n.value, 0, MAX_DEPTH) || HasFile(n.value, WEIGHT_FILENAMES))
  }

  /** _has_weight_file. Its test for a manifest changes nothing: Staged does not have it. */
  method HasWeightFile(target: Option<Node>) returns (staged: bool)
    ensures staged <==> Staged(target)
  {
    if target.None? {
      return false;
    }
    if HalfFinished(target) {
      return false;
    }
    var d := target.value;
    var hasWeight := ScanForWeights(IsWeight, d, MAX_DEPTH);
    var hasManifest := false;
    if !d.Folder? || !d.readable {
      return false;
    }
    hasWeight, hasManifest := LookThrough(d.children, hasWeight);
    return hasWeight && (hasManifest || NoDownloadLedger(target));
  }

  /** The loop over the children. */
  method LookThrough(children: seq<Node>, below: bool) returns (hasWeight: bool, hasManifest: bool)
    ensures hasWeight <==> below || HasFileUpto(children, |children|, WEIGHT_FILENAMES)
    ensures hasManifest <==> HasFileUpto(children, |children|, MANIFEST_NAMES)
  {
    hasWeight, hasManifest := below, false;
    for k := 0 to |children|
      invariant hasWeight <==> below || HasFileUpto(children, k, WEIGHT_FILENAMES)
      invariant hasManifest <==> HasFileUpto(children, k, MANIFEST_NAMES)
    {
      var e := children[k];
      if Dotted(e.name) {
        continue;
      }
      if e.File? && e.name in MANIFEST_NAMES {
        hasManifest := true;
      }
      if e.File? && e.name in WEIGHT_FILENAMES {
        hasWeight := true;
      }
    }
  }

  // ---------- what staged means ----------

  /** The path, by places in the listings, leads through readable folders to a weight; nothing on it is dotted. */
  ghost predicate LeadsBy(weigh: Weigher, n: Node, path: seq<nat>)
    decreases path
  {
    && path != [] && n.Folder? && n.readable && path[0] < |n.children| && !Dotted(n.children[path[0]].name)
    && if |path| == 1 then weigh(n.children[path[0]]) else LeadsBy(weigh, n.children[path[0]], path[1..])
  }

  predicate WithinDepth(path: seq<nat>, depth: nat, maxDepth: nat) {
    |path| == 1 || depth + |path| <= maxDepth
  }

  lemma {:induction false} PathToWeight(weigh: Weigher, n: Node, depth: nat, maxDepth: nat) returns (path: seq<nat>)
    requires WeightBelow(weigh, n, depth, maxDepth)
    ensures LeadsBy(weigh, n, path) && WithinDepth(path, depth, maxDepth)
    decreases n
  {
    var i: nat :| i < |n.children| && LeadsToWeight(weigh, n.children[i], depth, maxDepth);
    if weigh(n.children[i]) {
      path := [i];
    } else {
      var rest := PathToWeight(weigh, n.children[i], depth + 1, maxDepth);
      path := [i] + rest;
      assert path[1..] == rest;
    }
  }

  lemma {:induction false} WeightOnPath(weigh: Weigher, n: Node, depth: nat, maxDepth: nat, path: seq<nat>)
    requires LeadsBy(weigh, n, path) && WithinDepth(path, depth, maxDepth)
    ensures WeightBelow(weigh, n, depth, maxDepth)
    decreases path
  {
    var e := n.children[path[0]];
    if |path| > 1 {
      WeightOnPath(weigh, e, depth + 1, maxDepth, path[1..]);
    }
    assert LeadsToWeight(weigh, e, depth, maxDepth);
  }

  /** The i-th child is a folder of this name, the first. */
  predicate FolderAt(n: Node, name: string, i: nat) {
    && n.Folder? && i < |n.children| && n.children[i].Folder? && n.children[i].name == name
    && forall j :: 0 <= j < i ==> !(n.children[j].Folder? && n.children[j].name == name)
  }

  lemma {:induction false} FolderInIs(n: Node, children: seq<Node>, from: nat, name: string)
    requires n.Folder? && from <= |n.children| && children == n.children[from..]
    requires forall j :: 0 <= j < from ==> !(n.children[j].Folder? && n.children[j].name == name)
    ensures match FolderIn(children, name)
            case None => forall i: nat :: !FolderAt(n, name, i)
            case Some(x) => exists i: nat :: FolderAt(n, name, i) && n.children[i] == x
    decreases children
  {
    if children != [] {
      if children[0].Folder? && children[0].name == name {
        assert FolderAt(n, name, from);
      } else {
        FolderInIs(n, children[1..], from + 1, name);
      }
    }
  }

  lemma ChildIs(n: Node, name: string)
    ensures match ChildFolder(Some(n), name)
            case None => forall i: nat :: !FolderAt(n, name, i)
            case Some(x) => x.Folder? && exists i: nat :: FolderAt(n, name, i) && n.children[i] == x
  {
    if n.Folder? {
      FolderInIs(n, n.children, 0, name);
    }
  }

  lemma ChildThere(n: Node, name: string, i: nat)
    requires FolderAt(n, name, i)
    ensures ChildFolder(Some(n), name) == Some(n.children[i])
  {
    ChildIs(n, name);
  }

  /** An .incomplete entry in .cache/huggingface/download, where that can be listed. */
  ghost predicate Unfinished(root: Node) {
    exists i: nat, j: nat, k: nat :: LedgerAt(root, i, j, k) && LeftOpen(root.children[i].children[j].children[k])
  }

  ghost predicate LedgerAt(root: Node, i: nat, j: nat, k: nat) {
    && FolderAt(root, ".cache", i) && FolderAt(root.children[i], "huggingface", j)
    && FolderAt(root.children[i].children[j], "download", k)
  }

  ghost predicate LeftOpen(ledger: Node)
    requires ledger.Folder?
  {
    ledger.readable && exists m :: 0 <= m < |ledger.children| && EndsWith(ledger.children[m].name, ".incomplete")
  }

  lemma LedgerFound(root: Node, i: nat, j: nat, k: nat)
    requires LedgerAt(root, i, j, k)
    ensures Ledger(Some(root)) == Some(root.children[i].children[j].children[k])
  {
    ChildThere(root, ".cache", i);
    ChildThere(root.children[i], "huggingface", j);
    ChildThere(root.children[i].children[j], "download", k);
  }

  lemma LedgerThere(root: Node) returns (i: nat, j: nat, k: nat)
    requires Ledger(Some(root)).Some?
    ensures LedgerAt(root, i, j, k)
  {
    ChildIs(root, ".cache");
    i :| FolderAt(root, ".cache", i);
    ChildThere(root, ".cache", i);
    ChildIs(root.children[i], "huggingface");
    j :| FolderAt(root.children[i], "huggingface", j);
    ChildThere(root.children[i], "huggingface", j);
    ChildIs(root.children[i].children[j], "download");
    k :| FolderAt(root.children[i].children[j], "download", k);
  }

  lemma UnfinishedIs(root: Node)
    ensures HalfFinished(Some(root)) <==> Unfinished(root)
  {
    if HalfFinished(Some(root)) {
      var i, j, k := LedgerThere(root);
      LedgerFound(root, i, j, k);
    }
    if i: nat, j: nat, k: nat :| LedgerAt(root, i, j, k) && LeftOpen(root.children[i].children[j].children[k]) {
      LedgerFound(root, i, j, k);
    }
  }

  /** A directory is staged exactly if it can be listed, no download of it is unfinished, and a weight lies at most
      three levels down, behind no dotted name, or an index file lies in it. */
  lemma StagedIs(root: Node)
    ensures Staged(Some(root)) <==>
      && root.Folder? && root.readable && !Unfinished(root)
      && (|| (exists path: seq<nat> :: |path| <= 3 && LeadsBy(IsWeight, root, path))
          || exists i :: 0 <= i < |root.children| && root.children[i].File?
                         && root.children[i].name in {"model.safetensors.index.json", "pytorch_model.bin.index.json"})
  {
    UnfinishedIs(root);
    if root.Folder? {
      if WeightBelow(IsWeight, root, 0, MAX_DEPTH) {
        var path := PathToWeight(IsWeight, root, 0, MAX_DEPTH);
      }
      if path: seq<nat> :| |path| <= 3 && LeadsBy(IsWeight, root, path) {
        WeightOnPath(IsWeight, root, 0, MAX_DEPTH, path);
      }
    }
  }

  // ---------- staging ----------

  /** What the download call comes back with; `left` is what the target holds by then, and `snapshot`
      what the path it returns holds, if that is another path. */
  datatype Download =
    | Arrived(left: Option<Node>, snapshot: Option<Node>)
    | TimedOut(left: Option<Node>)
    | Broke(left: Option<Node>)

  datatype Staging =
    | Ready(already: bool)
    | SkippedOversize
    | SkippedDiskFull
    | DownloadTimeout
    | DownloadFailed
    | Incomplete

  /** What staging meets: the plan's oversize flag, the estimate and the free space, the download, and
      whether linking and cleaning up work. */
  datatype Situation = Situation(oversize: bool, estimate: Option<nat>, factor: real, floorBytes: int, free: int,
                                 download: Download, linkFails: bool, cleanupFails: bool)

  function HeadroomNeeded(s: Situation): int {
    if s.estimate.None? then s.floorBytes
    else
      var scaled := (s.estimate.value as real * s.factor).Floor;
      if scaled > s.floorBytes then scaled else s.floorBytes
  }

  predicate DiskFull(s: Situation) {
    s.estimate.Some? && s.free < HeadroomNeeded(s)
  }

  class CacheSlot {
    var target: Option<Node>

    method CleanupPartial(fails: bool)
      modifies this
      ensures target == if fails then old(target) else None
    {
      if target.Some? && !fails {
        target := None;
      }
    }

    /** An empty target gives way to a link to the populated snapshot. */
    method LinkSnapshot(snapshot: Option<Node>, fails: bool)
      modifies this
      ensures target == Linked(old(target), snapshot, fails)
    {
      var populated := HasWeightFile(snapshot);
      if populated && !fails {
        if target.Some? && target.value.Folder? && target.value.readable && target.value.children == [] {
          target := None;
        }
        if target.None? {
          target := snapshot;
        }
      }
    }

    /** ensure_model_staged. mkdir makes the target before the download starts. */
    method EnsureStaged(s: Situation) returns (result: Staging)
      modifies this
      ensures result == Outcome(old(target), s)
      ensures target == Left(old(target), s)
    {
      if s.oversize {
        return SkippedOversize;
      }
      var staged := HasWeightFile(target);
      if staged {
        return Ready(true);
      }
      if DiskFull(s) {
        return SkippedDiskFull;
      }
      target := s.download.left;
      if s.download.TimedOut? || s.download.Broke? {
        CleanupPartial(s.cleanupFails);
        return if s.download.TimedOut? then DownloadTimeout else DownloadFailed;
      }
      staged := HasWeightFile(target);
      if !staged {
        LinkSnapshot(s.download.snapshot, s.linkFails);
      }
      staged := HasWeightFile(target);
      if !staged {
        CleanupPartial(s.cleanupFails);
        return Incomplete;
      }
      return Ready(false);
    }
  }

  function Linked(target: Option<Node>, snapshot: Option<Node>, fails: bool): Option<Node> {
    if !Staged(snapshot) || fails then target
    else if target.None? || (target.value.Folder? && target.value.readable && target.value.children == []) then snapshot
    else target
  }

  /** What the target holds once the download is over, before anything is cleaned up. */
  function Downloaded(s: Situation): Option<Node> {
    if s.download.Arrived? && !Staged(s.download.left) then Linked(s.download.left, s.download.snapshot, s.linkFails)
    else s.download.left
  }

  predicate Downloads(target: Option<Node>, s: Situation) {
    !s.oversize && !Staged(target) && !DiskFull(s)
  }

  function Outcome(target: Option<Node>, s: Situation): Staging {
    if s.oversize then SkippedOversize
    else if Staged(target) then Ready(true)
    else if DiskFull(s) then SkippedDiskFull
    else
      match s.download
      case TimedOut(_) => DownloadTimeout
      case Broke(_) => DownloadFailed
      case Arrived(_, _) => if Staged(Downloaded(s)) then Ready(false) else Incomplete
  }

  function Left(target: Option<Node>, s: Situation): Option<Node> {
    if !Downloads(target, s) then target
    else if Outcome(target, s).Ready? || s.cleanupFails then Downloaded(s)
    else None
  }

  predicate Failed(r: Staging) {
    r.DownloadTimeout? || r.DownloadFailed? || r.Incomplete?
  }

  predicate Skipped(r: Staging) {
    r.SkippedOversize? || r.SkippedDiskFull?
  }

  /** Staging ends in one of three ways: ready with the weights in place, skipped with the target
      untouched, or failed with the target gone unless its removal fails too: gone even if an earlier
      call had put it there. */
  lemma StagingOutcomes(target: Option<Node>, s: Situation)
    ensures var r := Outcome(target, s);
      && (r.Ready? ==> Staged(Left(target, s)) && !s.oversize)
      && (Skipped(r) ==> Left(target, s) == target)
      && (Failed(r) && !s.cleanupFails ==> Left(target, s) == None)
      && (Failed(r) ==> !Staged(target) && (r.Incomplete? ==> !Staged(Left(target, s))))
      && (r == Ready(true) ==> Left(target, s) == target)
  {
  }

  /** There is an estimate, and the free space is below the floor or below the estimate with its margin. */
  predicate TooLittleSpace(s: Situation) {
    && s.estimate.Some?
    && (s.free < s.floorBytes || (s.free + 1) as real <= s.estimate.value as real * s.factor)
  }

  /** The link to the snapshot takes the place of a target that has come to nothing. */
  predicate Links(s: Situation)
    requires s.download.Arrived?
  {
    && Staged(s.download.snapshot) && !s.linkFails
    && (s.download.left.None?
        || (s.download.left.value.Folder? && s.download.left.value.readable && s.download.left.value.children == []))
  }

  /** Each way to end, told from the situation. */
  predicate EndsIn(target: Option<Node>, s: Situation, r: Staging) {
    match r
    case SkippedOversize => s.oversize
    case Ready(already) =>
      if already then !s.oversize && Staged(target)
      else
        && !s.oversize && !Staged(target) && !TooLittleSpace(s) && s.download.Arrived?
        && (Staged(s.download.left) || Links(s))
    case SkippedDiskFull => !s.oversize && !Staged(target) && TooLittleSpace(s)
    case DownloadTimeout => !s.oversize && !Staged(target) && !TooLittleSpace(s) && s.download.TimedOut?
    case DownloadFailed => !s.oversize && !Staged(target) && !TooLittleSpace(s) && s.download.Broke?
    case Incomplete =>
      && !s.oversize && !Staged(target) && !TooLittleSpace(s) && s.download.Arrived?
      && !Staged(s.download.left) && !Links(s)
  }

  lemma SpaceIs(s: Situation)
    ensures DiskFull(s) <==> TooLittleSpace(s)
  {
  }

  /** Staging ends as the situation says, and in no other way; and what a download that ended ready leaves is what
      it brought, or the snapshot it was linked to. */
  lemma StagingEnds(target: Option<Node>, s: Situation, r: Staging)
    ensures Outcome(target, s) == r <==> EndsIn(target, s, r)
    ensures Outcome(target, s) == Ready(false) ==>
      Left(target, s) == if Staged(s.download.left) then s.download.left else s.download.snapshot
  {
    SpaceIs(s);
  }

  /** After a staging that ended ready, another one downloads nothing and changes nothing. */
  lemma SecondCallIsNoop(target: Option<Node>, s: Situation, again: Situation)
    requires Outcome(target, s).Ready? && !again.oversize
    ensures Outcome(Left(target, s), again) == Ready(true) && Left(Left(target, s), again) == Left(target, s)
  {
    StagingOutcomes(target, s);
  }

  /** A deeper search finds everything a shallower one does. */
  lemma {:induction false} DeeperFindsMore(weigh: Weigher, n: Node, depth: nat, maxDepth: nat)
    requires WeightBelow(weigh, n, depth, maxDepth)
    ensures WeightBelow(weigh, n, depth, maxDepth + 1)
    decreases n, 1
  {
    var i :| 0 <= i < |n.children| && LeadsToWeight(weigh, n.children[i], depth, maxDepth);
    var e := n.children[i];
    if !weigh(e) {
      DeeperFindsMore(weigh, e, depth + 1, maxDepth);
    }
    assert LeadsToWeight(weigh, e, depth, maxDepth + 1);
  }
}
