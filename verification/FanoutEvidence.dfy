/** What stands behind every move of the trial: the controls, the fresh proofs of the
    moving node and of all its ancestors, and the faults that hold it back, written out
    on the checkpoint itself. */
module FanoutEvidence {
  import opened Paths
  import opened Wrappers
  import opened Fanout
  import opened FanoutSafety
  import opened FanoutRuns

  /** A proof of this very node, cycle, owner and revision, observed at most 15 seconds
      ago, that its workload and its continuation passed. */
  predicate Proved(t: Trial, p: Path) {
    && p in t.nodes && t.nodes[p].evidence.Some?
    && var n, proof := t.nodes[p], t.nodes[p].evidence.value;
    && n.cycle == t.cycle && n.token == Token(t.cycle, n.path)
    && proof.cycle == t.cycle && proof.path == n.path && proof.token == n.token
    && proof.instanceId == n.instanceId && n.instanceId != NoHandle
    && proof.owner == n.owner && n.owner != NoHandle && proof.revision == n.revision
    && proof.templateDigest == t.templateDigest && proof.agentDigest == t.agentDigest
    && 0 <= t.now - proof.observedAt <= 15
    && proof.workloadPassed && proof.continuationPassed
  }

  predicate LiveAndProved(t: Trial, p: Path) {
    Proved(t, p) && t.nodes[p].phase == Live && t.nodes[p].ready
  }

  predicate AncestorsProved(t: Trial, p: Path) {
    forall k | 0 <= k < |p| :: LiveAndProved(t, p[..k])
  }

  predicate Faulty(t: Trial, p: Path, fs: set<Fault>) {
    p in t.faults && t.faults[p] in fs
  }

  /** Why node q may leave stage a for stage b: enabled without a hold (the root's
      confirmed termination needs no control), every ancestor live and freshly proved,
      itself proved where it is live or complete, and no fault in the way. */
  predicate Warranted(t: Trial, q: Path, a: nat, b: nat) {
    && (q != Root || a < 6 ==> t.enabled && !t.hold)
    && AncestorsProved(t, q)
    && (a in {3, 4, 5} ==> Proved(t, q))
    && (a == 1 ==> b == if Faulty(t, q, {LaunchResponse}) then 2 else 3)
    && a != 2
    && (a == 4 ==> !Faulty(t, q, {Handoff}))
    && (a == 5 ==> !Faulty(t, q, {Identity, Missing, Retirement}))
    && (a == 6 ==> !Faulty(t, q, {Termination, Missing}))
  }

  /** At most node q changes its stage, and then with every warrant. */
  ghost predicate WarrantedMove(t: Trial, t1: Trial, q: Path) {
    && (forall p | p != q :: StageAt(t1, p) == StageAt(t, p))
    && (StageAt(t1, q) != StageAt(t, q) ==> Warranted(t, q, StageAt(t, q), StageAt(t1, q)))
  }

  lemma OkIsProved(t: Trial, p: Path)
    requires p in t.nodes
    ensures EvidenceOk(t, t.nodes[p]) <==> Proved(t, p)
  {
  }

  lemma StagePut(t: Trial, p: Path, n: Node, action: Act)
    ensures forall q :: StageAt(Emit(Put(t, p, n), action, p), q) == if q == p then Stage(n) else StageAt(t, q)
  {
  }

  lemma LaunchStages(t: Trial, p: Path)
    requires p in t.nodes && t.nodes[p].phase == Reserved && !t.nodes[p].ready
    ensures forall q :: StageAt(LaunchNode(t, p).0, q) ==
              if q != p then StageAt(t, q) else if Faulty(t, p, {LaunchResponse}) then 2 else 3
  {
    var n := t.nodes[p].(phase := Submitting);
    var submitted := Emit(Put(t, p, n), Submit, p);
    StagePut(t, p, n, Submit);
    StagePut(submitted, p, Launched(t.nodes[p]), LaunchConfirmed);
  }

  /** Advancing one node by itself. */
  lemma HereIsWarranted(t: Trial, p: Path)
    requires Named(t) && AncestorsProved(t, p) && (p != Root ==> t.enabled && !t.hold)
    ensures WarrantedMove(t, AdvanceHere(t, p).0, p)
  {
    if p !in t.nodes {
      StagePut(t, p, NewNode(t, p), Reserve);
    } else {
      assert Sound(t.nodes[p], p);
      if t.nodes[p].phase == Reserved {
        LaunchStages(t, p);
      } else if t.nodes[p].phase == Live {
        LiveIsWarranted(t, p);
      } else {
        StagePut(t, p, t.nodes[p].(phase := Terminated), TerminationConfirmed);
        StagePut(t, p, t.nodes[p].(phase := Retiring), TerminationAccepted);
        OkIsProved(t, p);
      }
    }
  }

  lemma LiveIsWarranted(t: Trial, p: Path)
    requires AncestorsProved(t, p) && (p != Root ==> t.enabled && !t.hold)
    requires p in t.nodes && Sound(t.nodes[p], p) && t.nodes[p].phase == Live
    ensures WarrantedMove(t, AdvanceHere(t, p).0, p)
  {
    var n := t.nodes[p];
    OkIsProved(t, p);
    StagePut(t, p, n.(ready := true), ReadinessValidated);
    StagePut(t, p, Completed(t, n), ConditionalCompletion);
  }

  lemma {:induction false} AdvanceIsWarranted(t: Trial, p: Path) returns (q: Path)
    requires Named(t) && |p| <= t.depth && AncestorsProved(t, p) && (p != Root ==> t.enabled && !t.hold)
    ensures WarrantedMove(t, Advance(t, p).0, q)
    decreases t.depth - |p|, 1, 0
  {
    q := p;
    if Descends(t, p) && |p| < t.depth {
      OkIsProved(t, p);
      q := ChildrenAreWarranted(t, p, 0);
      if AdvanceChildren(t, p, 0).1 == Settled {
        q := p;
        HereIsWarranted(t, p);
      }
    } else {
      HereIsWarranted(t, p);
    }
  }

  lemma {:induction false} ChildrenAreWarranted(t: Trial, p: Path, i: nat) returns (q: Path)
    requires Named(t) && |p| < t.depth && i <= t.fan && AncestorsProved(t, p) && LiveAndProved(t, p)
    requires t.enabled && !t.hold
    ensures WarrantedMove(t, AdvanceChildren(t, p, i).0, q)
    decreases t.depth - |p|, 0, t.fan - i
  {
    q := p;
    if i < t.fan {
      ChildAncestors(t, p, i);
      q := AdvanceIsWarranted(t, p + [i]);
      if Advance(t, p + [i]).1 == Settled { q := ChildrenAreWarranted(t, p, i + 1); }
    }
  }

  lemma ChildAncestors(t: Trial, p: Path, i: nat)
    requires AncestorsProved(t, p) && LiveAndProved(t, p)
    ensures AncestorsProved(t, p + [i])
  {
    forall k | 0 <= k < |p + [i]| ensures LiveAndProved(t, (p + [i])[..k]) {
      if k < |p| {
        assert (p + [i])[..k] == p[..k];
      } else {
        assert (p + [i])[..k] == p;
      }
    }
  }

  lemma AncestorsOkProved(t: Trial, p: Path)
    requires AncestorsOk(t, p)
    ensures AncestorsProved(t, p)
  {
    forall k | 0 <= k < |p| ensures LiveAndProved(t, p[..k]) {
      assert AncestorOk(t, t.nodes[p[..k]]);
      OkIsProved(t, p[..k]);
    }
  }

  /** What the expansion loop sets out to advance has proved ancestors, and is reached
      only while enabled if anything is to change. */
  lemma VisitIsProved(t: Trial, at: Path)
    requires VisitPath(t, at).Go?
    ensures AncestorsProved(t, VisitPath(t, at).path)
  {
    AncestorsOkProved(t, at);
    if VisitPath(t, at).path != at {
      OkIsProved(t, at);
      ChildAncestors(t, at, FirstMissing(t, at, 0));
    }
  }

  /** Growth needs the controls. */
  lemma GrowthIsControlled(t: Trial, p: Path)
    requires |p| <= t.depth && (p in t.nodes ==> NeedsLaunch(t.nodes[p])) && !(t.enabled && !t.hold)
    ensures Advance(t, p).0 == t
  {
  }

  lemma {:induction false} ScanIsWarranted(t: Trial, ps: seq<Path>) returns (q: Path)
    requires Named(t) && forall p | p in ps :: |p| <= t.depth
    ensures WarrantedMove(t, Scan(t, ps).0, q)
  {
    q := Root;
    if ps == [] {
      q := AdvanceIsWarranted(t, Root);
    } else {
      assert ps[0] in ps;
      match VisitPath(t, ps[0])
      case Pass => q := ScanIsWarranted(t, ps[1..]);
      case Stop =>
      case Go(p) => q := GoIsWarranted(t, ps[0]);
    }
  }

  lemma GoIsWarranted(t: Trial, at: Path) returns (q: Path)
    requires Named(t) && |at| <= t.depth && VisitPath(t, at).Go?
    ensures WarrantedMove(t, Advance(t, VisitPath(t, at).path).0, q)
  {
    var p := VisitPath(t, at).path;
    VisitIsProved(t, at);
    if t.enabled && !t.hold {
      q := AdvanceIsWarranted(t, p);
    } else {
      GrowthIsControlled(t, p);
      q := p;
    }
  }

  /** The checkpoint as a step sees it. */
  function Observed(t: Trial): Trial {
    if t.simulateEvidence then Observe(t) else t
  }

  /** In every run, whatever the faults, controls, clocks and evidence were: a step
      changes the stage of at most one node, and then under all its warrants. */
  lemma StepIsWarranted(depth: nat, fan: nat, ops: seq<Op>) returns (q: Path)
    ensures var t := Run(Begin(depth, fan), ops);
      && (forall p :: StageAt(Observed(t), p) == StageAt(t, p))
      && WarrantedMove(Observed(t), Step(t).0, q)
  {
    var t := Run(Begin(depth, fan), ops);
    RunKeepsInv(depth, fan, ops);
    ObserveUnmoved(t);
    q := Root;
    if AllFenced(t) {
      LevelOrderBounded(Observed(t));
      q := ScanIsWarranted(Observed(t), LevelOrder(Observed(t).depth, Observed(t).fan));
    }
  }
}
