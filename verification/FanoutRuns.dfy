/** The trial's promises over whole runs. */
module FanoutRuns {
  import opened Paths
  import opened Wrappers
  import opened Fanout
  import opened FanoutSafety

  lemma ReconcileMoves(t: Trial, p: Path, cycle: string, token: Token, found: bool)
    requires Inv(t)
    ensures var r := Reconcile(t, p, cycle, token, found);
      if r.1 then Moves(t, r.0, p) && StageAt(t, p) == 2 && found && token == Token(t.cycle, p) else r.0 == t
  {
    if Reconcile(t, p, cycle, token, found).1 {
      PutEmitMoves(t, p, Launched(t.nodes[p]), LaunchReconciled);
    }
  }

  /** Some node alone makes a stage move, up to what observation refreshes. */
  ghost predicate OneMove(t: Trial, t1: Trial) {
    exists t0, q :: Unmoved(t, t0) && Inv(t0) && Moves(t0, t1, q)
  }

  lemma StepKeepsInv(t: Trial)
    requires Inv(t)
    ensures Inv(Step(t).0) && (Unmoved(t, Step(t).0) || OneMove(t, Step(t).0))
  {
    var q := StepMoves(t);
    if Unmoved(t, Step(t).0) {
      UnmovedKeepsInv(t, Step(t).0);
    } else {
      UnmovedKeepsInv(t, Seen(t));
      MoveKeepsInv(Seen(t), Step(t).0, q);
    }
  }

  lemma EvidenceUnmoved(t: Trial, p: Path, evidence: Option<Readiness>)
    requires Inv(t)
    ensures Unmoved(t, Do(t, SetEvidence(p, evidence)))
  {
    if p in t.nodes {
      var t1 := Do(t, SetEvidence(p, evidence));
      assert t1.nodes.Keys == t.nodes.Keys;
    }
  }

  /** Every operation either changes no node's stage and logs nothing, or makes
      exactly one node take one allowed stage move; only steps and
      reconciliations move anything. */
  lemma DoMoves(t: Trial, op: Op)
    requires Inv(t)
    ensures Inv(Do(t, op))
    ensures Unmoved(t, Do(t, op)) || ((op.DoStep? || op.DoReconcile?) && OneMove(t, Do(t, op)))
  {
    match op
    case DoStep =>
      StepKeepsInv(t);
    case DoReconcile(p, cycle, token, found) =>
      ReconcileKeepsInv(t, p, cycle, token, found);
    case SetEvidence(p, evidence) =>
      EvidenceUnmoved(t, p, evidence);
      UnmovedKeepsInv(t, Do(t, op));
    case _ =>
      SettingUnmoved(t, op);
      UnmovedKeepsInv(t, Do(t, op));
  }

  lemma ReconcileKeepsInv(t: Trial, p: Path, cycle: string, token: Token, found: bool)
    requires Inv(t)
    ensures var t1 := Reconcile(t, p, cycle, token, found).0; Inv(t1) && (Unmoved(t, t1) || OneMove(t, t1))
  {
    var (t1, moved) := Reconcile(t, p, cycle, token, found);
    ReconcileMoves(t, p, cycle, token, found);
    assert Unmoved(t, t);
    if moved {
      assert Moves(t, t1, p);
      MoveKeepsInv(t, t1, p);
    }
  }

  lemma SettingUnmoved(t: Trial, op: Op)
    requires Inv(t) && !op.DoStep? && !op.DoReconcile? && !op.SetEvidence?
    ensures Unmoved(t, Do(t, op))
  {
  }

  lemma {:induction false} RunKeepsInv(depth: nat, fan: nat, ops: seq<Op>)
    ensures Inv(Run(Begin(depth, fan), ops))
    ensures Run(Begin(depth, fan), ops).depth == depth && Run(Begin(depth, fan), ops).fan == fan
  {
    if ops != [] {
      var before := ops[..|ops| - 1];
      RunKeepsInv(depth, fan, before);
      DoMoves(Run(Begin(depth, fan), before), ops[|ops| - 1]);
    }
  }

  /** No node leaves LIVE before the full tree exists with every node ready, nor
      before every node that precedes it in post-order is terminated. */
  lemma TeardownInPostOrder(depth: nat, fan: nat, ops: seq<Op>, p: Path)
    requires var t := Run(Begin(depth, fan), ops);
      p in t.nodes && t.nodes[p].phase in {Complete, Retiring, Terminated}
    ensures var t := Run(Begin(depth, fan), ops);
      && (forall q | InTree(q, depth, fan) :: q in t.nodes && t.nodes[q].ready)
      && (forall q | InTree(q, depth, fan) && PostBefore(q, p) :: t.nodes[q].phase == Terminated)
  {
    RunKeepsInv(depth, fan, ops);
    var t := Run(Begin(depth, fan), ops);
    assert MayRetire(t, p) by { assert StageAt(t, p) >= 5; }
    forall q | InTree(q, depth, fan)
      ensures q in t.nodes && t.nodes[q].ready && (PostBefore(q, p) ==> t.nodes[q].phase == Terminated)
    {
      assert StageAt(t, q) >= 4;
    }
  }

  /** At most one node is COMPLETE or RETIRING at a time. */
  lemma OneTeardownAtATime(depth: nat, fan: nat, ops: seq<Op>, p: Path, q: Path)
    requires var t := Run(Begin(depth, fan), ops);
      && p in t.nodes && t.nodes[p].phase in {Complete, Retiring}
      && q in t.nodes && t.nodes[q].phase in {Complete, Retiring}
    ensures p == q
  {
    RunKeepsInv(depth, fan, ops);
    var t := Run(Begin(depth, fan), ops);
    assert StageAt(t, p) > 0 && StageAt(t, q) > 0;
    if p != q {
      PostOrderTotal(p, q);
      if PostBefore(p, q) { TeardownInPostOrder(depth, fan, ops, q); }
      else { TeardownInPostOrder(depth, fan, ops, p); }
    }
  }

  /** Each path is submitted at most once in any run, and has been submitted
      exactly when its node is past RESERVED. The peak counts every node ever
      reserved, so it never exceeds the tree. */
  lemma SubmittedAtMostOnce(depth: nat, fan: nat, ops: seq<Op>, p: Path)
    ensures var t := Run(Begin(depth, fan), ops);
      && Submits(Log(t.events), p) <= 1
      && (Submits(Log(t.events), p) == 1 <==> p in t.nodes && t.nodes[p].phase != Reserved)
      && t.peakOccupied == |t.nodes| <= TreeSize(depth, fan)
  {
    RunKeepsInv(depth, fan, ops);
    var t := Run(Begin(depth, fan), ops);
    var tree := LevelOrder(depth, fan);
    LevelOrderIsExact(depth, fan);
    forall q | q in t.nodes.Keys ensures q in tree { assert StageAt(t, q) > 0; }
    SetInSequence(t.nodes.Keys, tree);
  }

  lemma {:induction false} SetInSequence<T>(a: set<T>, s: seq<T>)
    requires forall x | x in a :: x in s
    ensures |a| <= |s|
  {
    if a != {} {
      var last := s[|s| - 1];
      SetInSequence(a - {last}, s[..|s| - 1]);
      assert a - {last} == if last in a then a - {last} else a;
    }
  }

  /** While stopped or held, a step confirms an accepted termination exactly when
      it is the root's: a RETIRING node below the root waits, because the descent
      to it passes the control check of its LIVE ancestors. */
  lemma StoppedStep(depth: nat, fan: nat, ops: seq<Op>)
    requires var t := Run(Begin(depth, fan), ops); !t.enabled || t.hold
    ensures var t := Run(Begin(depth, fan), ops); var t1 := Step(t).0;
      && (forall p | p != Root :: StageAt(t1, p) == StageAt(t, p))
      && (StageAt(t1, Root) != StageAt(t, Root) ==> StageAt(t, Root) == 6 && StageAt(t1, Root) == 7)
      && (StageAt(t1, Root) != StageAt(t, Root) <==>
            AllFenced(t) && StageAt(t, Root) == 6 && !HasFault(t, Root, {Termination, Missing}))
  {
    RunKeepsInv(depth, fan, ops);
    var t := Run(Begin(depth, fan), ops);
    var q := StepMoves(t);
    if AllFenced(t) && StageAt(t, Root) == 6 {
      RootRetiresLast(t);
    }
  }

  lemma RootRetiresLast(t: Trial)
    requires Inv(t) && AllFenced(t) && StageAt(t, Root) == 6
    ensures StageAt(Step(t).0, Root) != 6 <==> !HasFault(t, Root, {Termination, Missing})
  {
    var seen := Seen(t);
    ObserveUnmoved(t);
    UnmovedKeepsInv(t, seen);
    assert Sound(t.nodes[Root], Root) && seen.nodes[Root] == t.nodes[Root];
    LevelOrderIsExact(t.depth, t.fan);
    LevelOrderBounded(seen);
    OnlyRootLeft(seen, LevelOrder(t.depth, t.fan));
    assert Step(t) == Advance(seen, Root);
    RetiringAdvance(seen, Root);
  }

  lemma RetiringAdvance(t: Trial, p: Path)
    requires StageAt(t, p) == 6 && Fenced(t, t.nodes[p]) && |p| <= t.depth
    ensures StageAt(Advance(t, p).0, p) == if HasFault(t, p, {Termination, Missing}) then 6 else 7
  {
  }

  lemma {:induction false} OnlyRootLeft(t: Trial, ps: seq<Path>)
    requires Inv(t) && StageAt(t, Root) >= 6
    requires forall p | p in ps :: |p| <= t.depth && InTree(p, t.depth, t.fan)
    ensures Scan(t, ps) == Advance(t, Root)
  {
    if ps != [] {
      assert ps[0] in ps && ps == [ps[0]] + ps[1..];
      assert MayRetire(t, Root);
      assert StageAt(t, ps[0]) >= 6 by {
        if ps[0] != Root { assert PostBefore(ps[0], Root); }
      }
      OnlyRootLeft(t, ps[1..]);
    }
  }

  // ----- How long a run can take -----

  function Progress(t: Trial): nat {
    Sum(LevelOrder(t.depth, t.fan), p => StageAt(t, p))
  }

  lemma ProgressOfMove(t: Trial, t1: Trial, q: Path)
    requires Moves(t, t1, q)
    ensures Progress(t1) == Progress(t) + StageAt(t1, q) - StageAt(t, q)
  {
    var tree := LevelOrder(t.depth, t.fan);
    LevelOrderIsExact(t.depth, t.fan);
    SortedPathsAreDistinct(tree);
    SumChange(tree, p => StageAt(t, p), p => StageAt(t1, p), q);
  }

  lemma ProgressUnmoved(t: Trial, t1: Trial)
    requires Unmoved(t, t1)
    ensures Progress(t1) == Progress(t)
  {
    SumSame(LevelOrder(t.depth, t.fan), p => StageAt(t, p), p => StageAt(t1, p));
  }

  ghost predicate SameStages(t: Trial, t1: Trial) {
    forall p :: StageAt(t1, p) == StageAt(t, p)
  }

  /** How many operations of the run changed some node's stage. */
  ghost function Effective(t: Trial, ops: seq<Op>): nat {
    if ops == [] then 0
    else
      var before := Run(t, ops[..|ops| - 1]);
      Effective(t, ops[..|ops| - 1]) + if SameStages(before, Do(before, ops[|ops| - 1])) then 0 else 1
  }

  lemma DoProgress(t: Trial, op: Op)
    requires Inv(t)
    ensures Progress(Do(t, op)) >= Progress(t) + if SameStages(t, Do(t, op)) then 0 else 1
  {
    DoMoves(t, op);
    if Unmoved(t, Do(t, op)) {
      ProgressUnmoved(t, Do(t, op));
    } else {
      var t0, q :| Unmoved(t, t0) && Inv(t0) && Moves(t0, Do(t, op), q);
      ProgressUnmoved(t, t0);
      ProgressOfMove(t0, Do(t, op), q);
    }
  }

  lemma {:induction false} EffectiveIsProgress(depth: nat, fan: nat, ops: seq<Op>)
    ensures Effective(Begin(depth, fan), ops) <= Progress(Run(Begin(depth, fan), ops))
  {
    if ops != [] {
      var before := ops[..|ops| - 1];
      EffectiveIsProgress(depth, fan, before);
      RunKeepsInv(depth, fan, before);
      DoProgress(Run(Begin(depth, fan), before), ops[|ops| - 1]);
    }
  }

  /** Under any faults, at most seven operations a node ever change a stage. */
  lemma AtMostSevenPerNode(depth: nat, fan: nat, ops: seq<Op>)
    ensures Effective(Begin(depth, fan), ops) <= 7 * TreeSize(depth, fan)
  {
    EffectiveIsProgress(depth, fan, ops);
    RunKeepsInv(depth, fan, ops);
    var t := Run(Begin(depth, fan), ops);
    SumBound(LevelOrder(depth, fan), p => StageAt(t, p), 7);
  }

  // ----- The fault-free run -----

  function Steps(t: Trial, n: nat): Trial {
    if n == 0 then t else Step(Steps(t, n - 1)).0
  }

  /** Stages of a launch that never stops at SUBMITTING. */
  function CleanStage(t: Trial, p: Path): (k: nat)
    ensures k <= 6
  {
    var s := StageAt(t, p);
    if s <= 1 then s else s - 1
  }

  function CleanProgress(t: Trial): nat {
    Sum(LevelOrder(t.depth, t.fan), p => CleanStage(t, p))
  }

  /** A node as a fault-free run leaves it: identified, and with the receipt its
      stage calls for. */
  predicate Healthy(t: Trial, n: Node) {
    && Fenced(t, n) && n.phase != Submitting
    && (Stage(n) >= 3 ==> n.owner != NoHandle && n.instanceId != NoHandle)
    && (Stage(n) >= 5 ==> ReceiptOk(t, n.path, n))
  }

  ghost predicate AllHealthy(t: Trial) {
    forall p | p in t.nodes :: Healthy(t, t.nodes[p])
  }

  ghost predicate Clean(t: Trial) {
    Inv(t) && Controlled(t) && t.faults == map[] && t.simulateEvidence && AllHealthy(t)
  }

  /** Everything the producer observed is in order. */
  ghost predicate Proven(t: Trial) {
    && Named(t) && Controlled(t) && t.faults == map[] && AllHealthy(t)
    && forall p | p in t.nodes && Stage(t.nodes[p]) in {3, 4, 5} :: EvidenceOk(t, t.nodes[p])
  }

  lemma ObservedIsProven(t: Trial)
    requires Clean(t)
    ensures Proven(Observe(t)) && Inv(Observe(t)) && Unmoved(t, Observe(t))
  {
    ObserveUnmoved(t);
    UnmovedKeepsInv(t, Observe(t));
    forall p | p in t.nodes
      ensures Healthy(Observe(t), Observe(t).nodes[p])
      ensures StageAt(t, p) in {3, 4, 5} ==> EvidenceOk(Observe(t), Observe(t).nodes[p])
    {
      ObservationProves(t, p);
    }
  }

  lemma ObservationProves(t: Trial, p: Path)
    requires Clean(t) && p in t.nodes
    ensures var n := Observation(t, t.nodes[p]);
      && Healthy(Observe(t), n)
      && (StageAt(t, p) in {3, 4, 5} ==> EvidenceOk(Observe(t), n))
  {
    assert Healthy(t, t.nodes[p]) && Sound(t.nodes[p], p);
  }

  ghost predicate Unhindered(r: (Trial, Outcome)) {
    r.1 != Blocked && AllHealthy(r.0)
  }

  lemma LaunchClean(t: Trial, p: Path)
    requires Proven(t) && StageAt(t, p) == 1
    ensures Unhindered(LaunchNode(t, p))
  {
    assert Healthy(t, t.nodes[p]) && Sound(t.nodes[p], p);
  }

  lemma PutHealthy(t: Trial, p: Path, n: Node, act: Act)
    requires AllHealthy(t) && Healthy(t, n)
    ensures AllHealthy(Emit(Put(t, p, n), act, p))
  {
  }

  lemma HereCleanNew(t: Trial, p: Path)
    requires Proven(t) && p !in t.nodes
    ensures Unhindered(AdvanceHere(t, p))
  {
    PutHealthy(t, p, NewNode(t, p), Reserve);
  }

  lemma HereCleanReady(t: Trial, p: Path)
    requires Proven(t) && StageAt(t, p) == 3
    ensures Unhindered(AdvanceHere(t, p))
  {
    var n := t.nodes[p];
    assert Healthy(t, n) && Sound(n, p) && EvidenceOk(t, n);
    PutHealthy(t, p, n.(ready := true), ReadinessValidated);
  }

  lemma HereCleanLaunch(t: Trial, p: Path)
    requires Proven(t) && StageAt(t, p) == 1
    ensures Unhindered(AdvanceHere(t, p))
  {
    assert Healthy(t, t.nodes[p]) && Sound(t.nodes[p], p);
    LaunchClean(t, p);
    assert AdvanceHere(t, p) == LaunchNode(t, p);
  }

  lemma HereCleanLate(t: Trial, p: Path)
    requires Proven(t) && StageAt(t, p) >= 5
    ensures Unhindered(AdvanceHere(t, p))
  {
    var n := t.nodes[p];
    assert Healthy(t, n) && Sound(n, p);
    if StageAt(t, p) == 5 {
      assert EvidenceOk(t, n);
      PutHealthy(t, p, n.(phase := Retiring), TerminationAccepted);
    } else if StageAt(t, p) == 6 {
      PutHealthy(t, p, n.(phase := Terminated), TerminationConfirmed);
    }
  }

  lemma HereClean(t: Trial, p: Path)
    requires Proven(t)
    ensures Unhindered(AdvanceHere(t, p))
  {
    if p !in t.nodes {
      HereCleanNew(t, p);
      return;
    }
    assert Healthy(t, t.nodes[p]) && Sound(t.nodes[p], p);
    match StageAt(t, p)
    case 1 => HereCleanLaunch(t, p);
    case 3 => HereCleanReady(t, p);
    case 4 => assert EvidenceOk(t, t.nodes[p]); CompleteClean(t, p);
    case _ => HereCleanLate(t, p);
  }

  lemma {:induction false} AdvanceClean(t: Trial, p: Path)
    requires Proven(t) && |p| <= t.depth
    ensures Unhindered(Advance(t, p))
    decreases t.depth - |p|, 1, 0
  {
    HereClean(t, p);
    if Descends(t, p) && |p| < t.depth { ChildrenClean(t, p, 0); }
  }

  lemma CompleteClean(t: Trial, p: Path)
    requires Proven(t) && StageAt(t, p) == 4
    ensures Unhindered(CompleteNode(t, p))
  {
    assert EvidenceOk(t, t.nodes[p]) && Sound(t.nodes[p], p);
    assert ReceiptOk(t, p, Completed(t, t.nodes[p]));
  }

  lemma {:induction false} ChildrenClean(t: Trial, p: Path, i: nat)
    requires Proven(t) && |p| < t.depth && i <= t.fan
    ensures Unhindered(AdvanceChildren(t, p, i))
    decreases t.depth - |p|, 0, t.fan - i
  {
    if i < t.fan {
      AdvanceClean(t, p + [i]);
      ChildrenClean(t, p, i + 1);
    }
  }

  lemma {:induction false} AncestorsReady(t: Trial, p: Path, k: nat)
    requires Inv(t) && 0 < StageAt(t, p) <= 4 && k < |p|
    ensures StageAt(t, p[..k]) == 4
    decreases |p| - k
  {
    var a := p[..k];
    if k + 1 < |p| {
      AncestorsReady(t, p, k + 1);
      assert a == Parent(p[..k + 1]) && ParentReady(t, p[..k + 1]);
    } else {
      assert a == Parent(p) && ParentReady(t, p);
    }
    if StageAt(t, a) >= 5 {
      assert MayRetire(t, a) && PostBefore(p, a) && InTree(p, t.depth, t.fan);
    }
  }

  lemma VisitClean(t: Trial, p: Path)
    requires Proven(t) && Inv(t)
    ensures VisitPath(t, p) != Stop
  {
    if 0 < StageAt(t, p) <= 4 {
      forall k | 0 <= k < |p| ensures p[..k] in t.nodes && AncestorOk(t, t.nodes[p[..k]]) {
        AncestorsReady(t, p, k);
      }
    }
  }

  lemma {:induction false} ScanClean(t: Trial, ps: seq<Path>)
    requires Proven(t) && Inv(t) && forall p | p in ps :: |p| <= t.depth
    ensures Unhindered(Scan(t, ps))
  {
    if ps == [] {
      AdvanceClean(t, Root);
    } else {
      assert ps[0] in ps && ps == [ps[0]] + ps[1..];
      VisitClean(t, ps[0]);
      match VisitPath(t, ps[0])
      case Pass => ScanClean(t, ps[1..]);
      case Go(p) => AdvanceClean(t, p);
    }
  }

  lemma CleanIsFenced(t: Trial)
    requires Clean(t)
    ensures AllFenced(t)
  {
    forall p | p in t.nodes ensures Fenced(t, t.nodes[p]) { assert Healthy(t, t.nodes[p]); }
  }

  lemma StepIsClean(t: Trial)
    requires Clean(t)
    ensures Step(t).1 != Blocked && Clean(Step(t).0)
    ensures Step(t).0.depth == t.depth && Step(t).0.fan == t.fan
  {
    CleanIsFenced(t);
    var seen := Observe(t);
    ObservedIsProven(t);
    LevelOrderBounded(seen);
    ScanClean(seen, LevelOrder(t.depth, t.fan));
    StepKeepsInv(t);
    assert Step(t) == Scan(seen, LevelOrder(t.depth, t.fan));
    var q := StepMoves(t);
  }

  /** A fault-free step never blocks: it makes exactly one unit of progress, or
      finds the root terminated. */
  lemma CleanStep(t: Trial)
    requires Clean(t)
    ensures var r := Step(t);
      && (r.1 == Advanced ==> CleanProgress(r.0) == CleanProgress(t) + 1)
      && (r.1 == Settled ==> StageAt(t, Root) == 7 && CleanProgress(r.0) == CleanProgress(t))
  {
    StepIsClean(t);
    ObservedIsProven(t);
    var seen, r := Observe(t), Step(t);
    CleanProgressUnmoved(t, seen);
    var q := StepMoves(t);
    if r.1 == Advanced {
      CleanProgressOfMove(seen, r.0, q);
    } else {
      CleanIsFenced(t);
      LevelOrderBounded(seen);
      assert r == Scan(seen, LevelOrder(t.depth, t.fan));
    }
  }

  lemma CleanProgressUnmoved(t: Trial, t1: Trial)
    requires Unmoved(t, t1)
    ensures CleanProgress(t1) == CleanProgress(t)
  {
    SumSame(LevelOrder(t.depth, t.fan), p => CleanStage(t, p), p => CleanStage(t1, p));
  }

  lemma CleanProgressOfMove(t: Trial, t1: Trial, q: Path)
    requires Moves(t, t1, q) && AllHealthy(t) && AllHealthy(t1)
    ensures CleanProgress(t1) == CleanProgress(t) + 1
  {
    var tree := LevelOrder(t.depth, t.fan);
    LevelOrderIsExact(t.depth, t.fan);
    SortedPathsAreDistinct(tree);
    SumChange(tree, p => CleanStage(t, p), p => CleanStage(t1, p), q);
    assert Healthy(t1, t1.nodes[q]) && (q in t.nodes ==> Healthy(t, t.nodes[q]));
  }

  /** The settled checkpoint is the one with all the progress there is. */
  lemma SettledIsFinished(t: Trial)
    requires Clean(t)
    ensures StageAt(t, Root) == 7 <==> CleanProgress(t) == 6 * TreeSize(t.depth, t.fan)
    ensures StageAt(t, Root) == 7 ==> forall p | InTree(p, t.depth, t.fan) :: StageAt(t, p) == 7
    ensures CleanProgress(t) <= 6 * TreeSize(t.depth, t.fan)
  {
    var tree := LevelOrder(t.depth, t.fan);
    LevelOrderIsExact(t.depth, t.fan);
    SumBound(tree, p => CleanStage(t, p), 6);
    if StageAt(t, Root) == 7 {
      assert MayRetire(t, Root);
      forall p | InTree(p, t.depth, t.fan) ensures StageAt(t, p) == 7 {
        if p != Root { assert PostBefore(p, Root); }
      }
      assert forall p | p in tree :: CleanStage(t, p) == 6;
    }
    assert Root in tree;
  }

  lemma BeginProgress(depth: nat, fan: nat)
    ensures CleanProgress(Steps(Begin(depth, fan), 0)) == 0
  {
    SumBound(LevelOrder(depth, fan), p => CleanStage(Begin(depth, fan), p), 0);
  }

  /** Whether a fault-free step advances is decided by the progress so far. */
  lemma StepDecided(t: Trial)
    requires Clean(t)
    ensures var total := 6 * TreeSize(t.depth, t.fan);
      && CleanProgress(t) <= total
      && Step(t).1 == (if CleanProgress(t) < total then Advanced else Settled)
      && CleanProgress(Step(t).0) == CleanProgress(t) + (if CleanProgress(t) < total then 1 else 0)
  {
    CleanStep(t);
    StepIsClean(t);
    SettledIsFinished(t);
    SettledIsFinished(Step(t).0);
  }

  /** How far a fault-free run of n steps has come: n moves, or all of them. */
  ghost predicate CleanAfter(t: Trial, depth: nat, fan: nat, n: nat) {
    var total := 6 * TreeSize(depth, fan);
    Clean(t) && t.depth == depth && t.fan == fan && CleanProgress(t) == if n <= total then n else total
  }

  lemma StepCleanAfter(t: Trial, depth: nat, fan: nat, n: nat)
    requires n > 0 && CleanAfter(t, depth, fan, n - 1)
    ensures CleanAfter(Step(t).0, depth, fan, n)
  {
    StepIsClean(t);
    StepDecided(t);
  }

  lemma BeginCleanAfter(depth: nat, fan: nat)
    ensures CleanAfter(Begin(depth, fan), depth, fan, 0)
  {
    BeginProgress(depth, fan);
  }

  lemma {:induction false} FaultFreeProgress(depth: nat, fan: nat, n: nat)
    ensures CleanAfter(Steps(Begin(depth, fan), n), depth, fan, n)
  {
    if n == 0 {
      BeginCleanAfter(depth, fan);
    } else {
      FaultFreeProgress(depth, fan, n - 1);
      OneMoreCleanStep(Begin(depth, fan), depth, fan, n);
    }
  }

  lemma OneMoreCleanStep(t: Trial, depth: nat, fan: nat, n: nat)
    requires n > 0 && CleanAfter(Steps(t, n - 1), depth, fan, n - 1)
    ensures CleanAfter(Steps(t, n), depth, fan, n)
  {
    StepCleanAfter(Steps(t, n - 1), depth, fan, n);
  }

  /** A fault-free run advances exactly 6N times; from then on every step reports
      that nothing is left. */
  lemma FaultFreeRun(depth: nat, fan: nat, n: nat)
    ensures Step(Steps(Begin(depth, fan), n)).1 == if n < 6 * TreeSize(depth, fan) then Advanced else Settled
  {
    FaultFreeProgress(depth, fan, n);
    StepDecided(Steps(Begin(depth, fan), n));
  }

  lemma NoneOccupied(t: Trial)
    requires forall p | p in t.nodes :: t.nodes[p].phase == Terminated
    ensures Occupied(t) == 0
  {
    assert (set q | q in t.nodes && t.nodes[q].phase != Terminated) == {};
  }

  /** A finished trial holds exactly the tree, every node of it terminated. */
  lemma FinishedNode(t: Trial, p: Path)
    requires Clean(t) && forall q | InTree(q, t.depth, t.fan) :: StageAt(t, q) == 7
    ensures p in t.nodes <==> InTree(p, t.depth, t.fan)
    ensures p in t.nodes ==> t.nodes[p].phase == Terminated && t.nodes[p].completion
  {
    assert InTree(p, t.depth, t.fan) ==> StageAt(t, p) == 7;
    assert p in t.nodes ==> StageAt(t, p) > 0 && Healthy(t, t.nodes[p]);
  }

  lemma TreeCount(t: Trial)
    requires forall p: Path :: p in t.nodes <==> InTree(p, t.depth, t.fan)
    ensures |t.nodes| == TreeSize(t.depth, t.fan)
  {
    LevelOrderIsExact(t.depth, t.fan);
    SortedPathsAreDistinct(LevelOrder(t.depth, t.fan));
    SequenceAsSet(LevelOrder(t.depth, t.fan), t.nodes.Keys);
    assert |t.nodes.Keys| == |t.nodes|;
  }

  lemma FinishedTree(t: Trial)
    requires Clean(t) && forall p | InTree(p, t.depth, t.fan) :: StageAt(t, p) == 7
    ensures forall p: Path :: p in t.nodes <==> InTree(p, t.depth, t.fan)
    ensures forall p | p in t.nodes :: t.nodes[p].phase == Terminated && t.nodes[p].completion
    ensures |t.nodes| == TreeSize(t.depth, t.fan)
  {
    forall p: Path
      ensures p in t.nodes <==> InTree(p, t.depth, t.fan)
      ensures p in t.nodes ==> t.nodes[p].phase == Terminated && t.nodes[p].completion
    {
      FinishedNode(t, p);
    }
    TreeCount(t);
  }

  /** It ends with every node of the tree reserved, completed and terminated,
      after all of them were occupied at once. */
  lemma FaultFreeEnd(depth: nat, fan: nat)
    ensures var t := Steps(Begin(depth, fan), 6 * TreeSize(depth, fan));
      && Inv(t) && Occupied(t) == 0 && t.peakOccupied == |t.nodes| == TreeSize(depth, fan)
      && (forall p: Path :: p in t.nodes <==> InTree(p, depth, fan))
      && (forall p | p in t.nodes :: t.nodes[p].phase == Terminated && t.nodes[p].completion)
  {
    var t := Steps(Begin(depth, fan), 6 * TreeSize(depth, fan));
    FaultFreeProgress(depth, fan, 6 * TreeSize(depth, fan));
    SettledIsFinished(t);
    FinishedTree(t);
    NoneOccupied(t);
  }

  lemma SameOccupied(t: Trial, t1: Trial)
    requires t1.nodes.Keys == t.nodes.Keys && forall p | p in t.nodes :: t1.nodes[p].phase == t.nodes[p].phase
    ensures Occupied(t1) == Occupied(t) && |t1.nodes| == |t.nodes|
  {
    assert (set p | p in t1.nodes && t1.nodes[p].phase != Terminated)
        == (set p | p in t.nodes && t.nodes[p].phase != Terminated);
    assert |t1.nodes.Keys| == |t1.nodes| && |t.nodes.Keys| == |t.nodes|;
  }

  /** A step that settles changes no stage and no count. */
  lemma SettledStepKeeps(t: Trial)
    requires Named(t) && Step(t).1 == Settled
    ensures Step(t).0.nodes.Keys == t.nodes.Keys && Step(t).0.peakOccupied == t.peakOccupied
    ensures forall p | p in t.nodes ::
      Step(t).0.nodes[p].phase == t.nodes[p].phase && Step(t).0.nodes[p].completion == t.nodes[p].completion
    ensures Occupied(Step(t).0) == Occupied(t) && |Step(t).0.nodes| == |t.nodes|
  {
    var seen := Seen(t);
    LevelOrderBounded(seen);
    assert Step(t).0 == seen;
    SeenKeepsStages(t);
    SameOccupied(t, seen);
  }

  lemma SeenKeepsStages(t: Trial)
    ensures Seen(t).nodes.Keys == t.nodes.Keys && Seen(t).peakOccupied == t.peakOccupied
    ensures forall p | p in t.nodes ::
      Seen(t).nodes[p].phase == t.nodes[p].phase && Seen(t).nodes[p].completion == t.nodes[p].completion
  {
  }

  lemma {:induction false} SequenceAsSet<T>(s: seq<T>, a: set<T>)
    requires forall x :: x in a <==> x in s
    requires forall i, j | 0 <= i < j < |s| :: s[i] != s[j]
    ensures |a| == |s|
  {
    if s == [] {
      assert a == {};
    } else {
      var rest := s[1..];
      assert s == [s[0]] + rest;
      SequenceAsSet(rest, a - {s[0]});
      assert a == (a - {s[0]}) + {s[0]};
    }
  }
}
