/** What every run of the trial keeps, whatever the faults, controls, clock and
    evidence do: the tree grows completely before anything retires, teardown is
    in post-order, and no path is ever submitted twice. */
module FanoutSafety {
  import opened Paths
  import opened Wrappers
  import opened Fanout

  /** A node's progress, 0 for a path without a node. */
  function Stage(n: Node): (k: nat)
    ensures 1 <= k <= 7
  {
    match n.phase
    case Reserved => 1
    case Submitting => 2
    case Live => if n.ready then 4 else 3
    case Complete => 5
    case Retiring => 6
    case Terminated => 7
  }

  function StageAt(t: Trial, p: Path): (k: nat)
    ensures k <= 7
  {
    if p in t.nodes then Stage(t.nodes[p]) else 0
  }

  /** The progress a node may make at once; the launch may skip Submitting. */
  predicate StageMove(a: nat, b: nat) {
    (b == a + 1 && b <= 7) || (a == 1 && b == 3)
  }

  /** What a stage move writes to the event log. */
  function MoveLog(a: nat, b: nat, q: Path): seq<(Act, Path)> {
    if a == 0 then [(Reserve, q)]
    else if a == 1 then if b == 2 then [(Submit, q)] else [(Submit, q), (LaunchConfirmed, q)]
    else if a == 2 then [(LaunchReconciled, q)]
    else if a == 3 then [(ReadinessValidated, q)]
    else if a == 4 then [(ConditionalCompletion, q)]
    else if a == 5 then [(TerminationAccepted, q)]
    else [(TerminationConfirmed, q)]
  }

  function Log(es: seq<Event>): seq<(Act, Path)> {
    seq(|es|, i requires 0 <= i < |es| => (es[i].action, es[i].node))
  }

  function Submits(log: seq<(Act, Path)>, p: Path): nat {
    multiset(log)[(Submit, p)]
  }

  /** Nodes carry their own path; readiness is recorded exactly from Live on. */
  predicate Sound(n: Node, p: Path) {
    n.path == p && (Stage(n) <= 2 ==> !n.ready) && (Stage(n) >= 4 ==> n.ready)
  }

  predicate Named(t: Trial) {
    forall p | p in t.nodes :: Sound(t.nodes[p], p)
  }

  ghost predicate FullyReady(t: Trial) {
    forall q | InTree(q, t.depth, t.fan) :: StageAt(t, q) >= 4
  }

  ghost predicate PredecessorsGone(t: Trial, p: Path) {
    forall q | InTree(q, t.depth, t.fan) && PostBefore(q, p) :: StageAt(t, q) == 7
  }

  /** The tree is complete and ready, and p's post-order predecessors are terminated. */
  ghost predicate MayRetire(t: Trial, p: Path) {
    FullyReady(t) && PredecessorsGone(t, p)
  }

  /** Growth: nodes are in the tree and have ready parents. Teardown: nothing is
      past Live before the whole tree is ready, nor before all its post-order
      predecessors are terminated. */
  ghost predicate Ordered(t: Trial) {
    && (forall p | StageAt(t, p) > 0 :: InTree(p, t.depth, t.fan))
    && (forall p {:trigger ParentReady(t, p)} | StageAt(t, p) > 0 :: ParentReady(t, p))
    && (forall p {:trigger MayRetire(t, p)} | StageAt(t, p) >= 5 :: MayRetire(t, p))
  }

  predicate ParentReady(t: Trial, p: Path) {
    p != Root ==> StageAt(t, Parent(p)) >= 4
  }

  /** One submission on record for each node past Reserved, none for the rest. */
  ghost predicate SubmittedOnce(t: Trial) {
    forall p: Path :: Submits(Log(t.events), p) == if StageAt(t, p) >= 2 then 1 else 0
  }

  ghost predicate Inv(t: Trial) {
    Named(t) && Ordered(t) && SubmittedOnce(t) && t.peakOccupied == |t.nodes|
  }

  /** Node q alone makes one stage move, with the context that move demands. */
  ghost predicate Moves(t: Trial, t1: Trial, q: Path) {
    && t1 == t.(nodes := t1.nodes, events := t1.events, peakOccupied := t1.peakOccupied)
    && q in t1.nodes && t1.nodes == t.nodes[q := t1.nodes[q]]
    && Sound(t1.nodes[q], q) && InTree(q, t.depth, t.fan)
    && StageMove(StageAt(t, q), StageAt(t1, q))
    && (StageAt(t, q) == 0 ==> ParentReady(t, q))
    && (StageAt(t, q) >= 4 ==> MayRetire(t, q))
    && Log(t1.events) == Log(t.events) + MoveLog(StageAt(t, q), StageAt(t1, q), q)
    && t1.peakOccupied == |t1.nodes|
  }

  ghost predicate Unmoved(t: Trial, t1: Trial) {
    && t1.depth == t.depth && t1.fan == t.fan && t1.events == t.events
    && t1.peakOccupied == t.peakOccupied && t1.nodes.Keys == t.nodes.Keys && Named(t1)
    && forall p :: StageAt(t1, p) == StageAt(t, p)
  }

  // ----- A move keeps the invariant -----

  /** Stages that only rise keep the order, given it at the nodes that rise. */
  lemma RisingKeepsOrder(t: Trial, t1: Trial)
    requires Ordered(t) && t1.depth == t.depth && t1.fan == t.fan
    requires forall p {:trigger StageAt(t1, p)} :: StageAt(t, p) <= StageAt(t1, p)
    requires forall p | StageAt(t, p) < StageAt(t1, p) ::
      InTree(p, t.depth, t.fan) && ParentReady(t, p) && (StageAt(t1, p) >= 5 ==> MayRetire(t, p))
    ensures Ordered(t1)
  {
    forall p | StageAt(t1, p) > 0
      ensures InTree(p, t.depth, t.fan) && ParentReady(t1, p)
    {
      if StageAt(t, p) == StageAt(t1, p) { assert ParentReady(t, p); }
    }
    forall p | StageAt(t1, p) >= 5 ensures MayRetire(t1, p) {
      assert MayRetire(t, p);
      forall q | InTree(q, t.depth, t.fan)
        ensures StageAt(t1, q) >= 4 && (PostBefore(q, p) ==> StageAt(t1, q) == 7)
      {
        assert StageAt(t, q) <= StageAt(t1, q);
      }
    }
  }

  lemma MoveKeepsOrder(t: Trial, t1: Trial, q: Path)
    requires Inv(t) && Moves(t, t1, q)
    ensures Named(t1) && Ordered(t1)
  {
    forall p ensures p != q ==> StageAt(t1, p) == StageAt(t, p) {}
    assert ParentReady(t, q) by { if StageAt(t, q) > 0 { assert Ordered(t); } }
    RisingKeepsOrder(t, t1);
  }

  lemma MoveKeepsSubmissions(t: Trial, t1: Trial, q: Path)
    requires SubmittedOnce(t) && Moves(t, t1, q)
    ensures SubmittedOnce(t1)
  {
    var logged, added := Log(t.events), MoveLog(StageAt(t, q), StageAt(t1, q), q);
    forall p ensures Submits(Log(t1.events), p) == if StageAt(t1, p) >= 2 then 1 else 0 {
      assert multiset(logged + added) == multiset(logged) + multiset(added);
      assert Submits(added, p) == if p == q && StageAt(t, q) == 1 then 1 else 0;
      assert Submits(logged, p) == if StageAt(t, p) >= 2 then 1 else 0;
    }
  }

  lemma MoveKeepsInv(t: Trial, t1: Trial, q: Path)
    requires Inv(t) && Moves(t, t1, q)
    ensures Inv(t1)
  {
    MoveKeepsOrder(t, t1, q);
    MoveKeepsSubmissions(t, t1, q);
  }

  lemma UnmovedKeepsInv(t: Trial, t1: Trial)
    requires Inv(t) && Unmoved(t, t1)
    ensures Inv(t1)
  {
    assert |t1.nodes| == |t1.nodes.Keys| == |t.nodes.Keys| == |t.nodes|;
    RisingKeepsOrder(t, t1);
  }

  /** Occupancy counts nodes, so the peak is the number of nodes ever reserved. */
  lemma EmitPeak(t: Trial, t0: Trial, act: Act, p: Path)
    requires t0.peakOccupied <= |t.nodes.Keys| && t.peakOccupied == t0.peakOccupied
    requires t0.peakOccupied == |t.nodes.Keys| || forall q | q in t.nodes :: t.nodes[q].phase != Terminated
    ensures Emit(t, act, p).peakOccupied == |t.nodes|
    ensures Log(Emit(t, act, p).events) == Log(t.events) + [(act, p)]
  {
    var busy := set q | q in t.nodes && t.nodes[q].phase != Terminated;
    Subset(busy, t.nodes.Keys);
    if t0.peakOccupied != |t.nodes.Keys| {
      assert busy == t.nodes.Keys;
    }
  }

  lemma {:induction false} Subset<T>(a: set<T>, b: set<T>)
    requires a <= b
    ensures |a| <= |b|
  {
    assert b == a + (b - a);
  }

  lemma PutKeys(t: Trial, q: Path, n: Node)
    ensures q in t.nodes ==> |Put(t, q, n).nodes.Keys| == |t.nodes.Keys|
    ensures q !in t.nodes ==> |Put(t, q, n).nodes.Keys| == |t.nodes.Keys| + 1
  {
    assert Put(t, q, n).nodes.Keys == t.nodes.Keys + {q};
    if q in t.nodes { assert t.nodes.Keys + {q} == t.nodes.Keys; }
  }

  /** Writing one node and logging one event is a move, given its context. */
  lemma PutEmitMoves(t: Trial, q: Path, n: Node, act: Act)
    requires Inv(t) && Sound(n, q) && InTree(q, t.depth, t.fan)
    requires StageMove(StageAt(t, q), Stage(n)) && MoveLog(StageAt(t, q), Stage(n), q) == [(act, q)]
    requires StageAt(t, q) == 0 ==> ParentReady(t, q)
    requires StageAt(t, q) >= 4 ==> MayRetire(t, q)
    ensures Moves(t, Emit(Put(t, q, n), act, q), q)
  {
    PutKeys(t, q, n);
    if q !in t.nodes {
      forall p | p in t.nodes ensures t.nodes[p].phase != Terminated {
        assert StageAt(t, p) >= 5 ==> MayRetire(t, p) && StageAt(t, q) >= 4;
      }
    }
    EmitPeak(Put(t, q, n), t, act, q);
  }

  // ----- One operation on one node -----

  lemma LaunchMoves(t: Trial, submitted: Trial, p: Path)
    requires Named(t) && Moves(t, submitted, p) && StageAt(t, p) == 1 && StageAt(submitted, p) == 2
    ensures Moves(t, Emit(Put(submitted, p, Launched(t.nodes[p])), LaunchConfirmed, p), p)
  {
    var n := Launched(t.nodes[p]);
    var launched := Put(submitted, p, n);
    PutKeys(submitted, p, n);
    EmitPeak(launched, submitted, LaunchConfirmed, p);
    assert launched.nodes == t.nodes[p := n];
    assert MoveLog(1, 3, p) == [(Submit, p)] + [(LaunchConfirmed, p)];
    assert Log(t.events) + [(Submit, p)] + [(LaunchConfirmed, p)] == Log(t.events) + MoveLog(1, 3, p);
  }

  lemma LaunchNodeMoves(t: Trial, p: Path)
    requires Inv(t) && InTree(p, t.depth, t.fan) && StageAt(t, p) == 1
    ensures Moves(t, LaunchNode(t, p).0, p)
  {
    var n := t.nodes[p].(phase := Submitting);
    PutEmitMoves(t, p, n, Submit);
    if !HasFault(t, p, {LaunchResponse}) {
      LaunchMoves(t, Emit(Put(t, p, n), Submit, p), p);
    }
  }

  /** Advancing a path that still needs its reservation, launch or readiness. */
  lemma AdvanceGrowth(t: Trial, p: Path)
    requires Inv(t) && InTree(p, t.depth, t.fan)
    requires p in t.nodes ==> NeedsLaunch(t.nodes[p])
    requires p !in t.nodes ==> ParentReady(t, p)
    ensures var r := Advance(t, p);
      if r.0 == t then r.1 == Blocked else Moves(t, r.0, p) && Controlled(t)
  {
    if p !in t.nodes {
      if Controlled(t) { PutEmitMoves(t, p, NewNode(t, p), Reserve); }
    } else {
      var n := t.nodes[p];
      if Fenced(t, n) && Controlled(t) {
        if n.phase == Reserved {
          LaunchNodeMoves(t, p);
        } else if n.phase == Live && EvidenceOk(t, n) {
          PutEmitMoves(t, p, n.(ready := true), ReadinessValidated);
        }
      }
    }
  }

  ghost predicate LeftGone(t: Trial, p: Path) {
    forall q | InTree(q, t.depth, t.fan) && LeftOf(q, p) :: StageAt(t, q) == 7
  }

  /** Advance at p changed nothing, or moved q, which lies at or below p. */
  ghost predicate Descended(t: Trial, p: Path, r: (Trial, Outcome), q: Path) {
    if r.0 == t then r.1 != Advanced
    else r.1 == Advanced && Moves(t, r.0, q) && p <= q
  }

  lemma AdvanceRetirement(t: Trial, p: Path)
    requires Inv(t) && StageAt(t, p) >= 5
    ensures Descended(t, p, AdvanceHere(t, p), p)
    ensures AdvanceHere(t, p).1 == Settled ==> StageAt(t, p) == 7
    ensures !Controlled(t) && AdvanceHere(t, p).0 != t ==> StageAt(t, p) == 6
  {
    var n := t.nodes[p];
    assert MayRetire(t, p);
    if n.phase == Retiring {
      PutEmitMoves(t, p, n.(phase := Terminated), TerminationConfirmed);
    } else if n.phase == Complete {
      PutEmitMoves(t, p, n.(phase := Retiring), TerminationAccepted);
    }
  }

  lemma CompleteMoves(t: Trial, p: Path)
    requires Inv(t) && MayRetire(t, p) && StageAt(t, p) == 4
    ensures Descended(t, p, CompleteNode(t, p), p) && CompleteNode(t, p).1 != Settled
  {
    PutEmitMoves(t, p, Completed(t, t.nodes[p]), ConditionalCompletion);
  }

  /** The post-order descent: with the whole tree ready and everything left of p
      terminated, advancing p moves one node in its subtree whose post-order
      predecessors are all gone, or settles because p itself is terminated. */
  lemma {:induction false} AdvanceTeardown(t: Trial, p: Path) returns (q: Path)
    requires Inv(t) && FullyReady(t) && InTree(p, t.depth, t.fan) && LeftGone(t, p)
    ensures Descended(t, p, Advance(t, p), q)
    ensures Advance(t, p).1 == Settled ==> StageAt(t, p) == 7
    ensures !Controlled(t) && Advance(t, p).0 != t ==> q == p && StageAt(t, q) == 6
    decreases t.depth - |p|, 1, 0
  {
    q := p;
    if StageAt(t, p) >= 5 {
      AdvanceRetirement(t, p);
    } else {
      var n := t.nodes[p];
      assert n.phase == Live && n.ready;
      if Descends(t, p) {
        if |p| < t.depth {
          q := ChildrenTeardown(t, p, 0);
        }
        if |p| == t.depth || AdvanceChildren(t, p, 0).1 == Settled {
          q := p;
          ChildrenGone(t, p);
          CompleteMoves(t, p);
        }
      }
    }
  }

  lemma {:induction false} ChildrenTeardown(t: Trial, p: Path, i: nat) returns (q: Path)
    requires Inv(t) && FullyReady(t) && InTree(p, t.depth, t.fan) && LeftGone(t, p)
    requires |p| < t.depth && i <= t.fan && Controlled(t)
    requires forall j | 0 <= j < i :: StageAt(t, p + [j]) == 7
    ensures Descended(t, p, AdvanceChildren(t, p, i), q)
    ensures AdvanceChildren(t, p, i).1 == Settled ==> forall j | 0 <= j < t.fan :: StageAt(t, p + [j]) == 7
    decreases t.depth - |p|, 0, t.fan - i
  {
    q := p;
    if i < t.fan {
      ChildLeftGone(t, p, i);
      q := AdvanceTeardown(t, p + [i]);
      var r := Advance(t, p + [i]);
      if r.1 == Settled {
        assert r.0 == t && StageAt(t, p + [i]) == 7;
        q := ChildrenTeardown(t, p, i + 1);
        assert AdvanceChildren(t, p, i) == AdvanceChildren(t, p, i + 1);
      } else {
        assert AdvanceChildren(t, p, i) == r;
      }
    }
  }

  /** A terminated child has a terminated subtree, so its later siblings may go. */
  lemma ChildLeftGone(t: Trial, p: Path, i: nat)
    requires Inv(t) && LeftGone(t, p) && InTree(p, t.depth, t.fan)
    requires forall j | 0 <= j < i :: StageAt(t, p + [j]) == 7
    ensures LeftGone(t, p + [i])
  {
    forall q | InTree(q, t.depth, t.fan) && LeftOf(q, p + [i]) ensures StageAt(t, q) == 7 {
      LeftOfChild(q, p, i);
      if !LeftOf(q, p) {
        var c := p + [q[|p|]];
        assert c <= q && StageAt(t, c) == 7;
        if c != q { assert MayRetire(t, c) && PostBefore(q, c); }
      }
    }
  }

  lemma ChildrenGone(t: Trial, p: Path)
    requires Inv(t) && LeftGone(t, p) && InTree(p, t.depth, t.fan)
    requires |p| == t.depth || forall j | 0 <= j < t.fan :: StageAt(t, p + [j]) == 7
    ensures PredecessorsGone(t, p)
  {
    forall q | InTree(q, t.depth, t.fan) && PostBefore(q, p) ensures StageAt(t, q) == 7 {
      if p < q {
        var c := p + [q[|p|]];
        assert c <= q && StageAt(t, c) == 7;
        if c != q { assert MayRetire(t, c) && PostBefore(q, c); }
      }
    }
  }

  // ----- One step -----

  lemma ObserveUnmoved(t: Trial)
    requires Named(t)
    ensures Unmoved(t, Observe(t))
  {
    assert Observe(t).nodes.Keys == t.nodes.Keys;
  }

  ghost predicate Scanned(t: Trial, r: (Trial, Outcome), q: Path) {
    if r.0 == t then r.1 != Advanced && (r.1 == Settled ==> StageAt(t, Root) == 7)
    else Moves(t, r.0, q) && (!Controlled(t) ==> q == Root && StageAt(t, q) == 6)
  }

  /** No path outside ps has growth left. */
  predicate Passed(t: Trial, ps: seq<Path>) {
    forall p | p in t.nodes && p !in ps ::
      !NeedsLaunch(t.nodes[p]) && (t.nodes[p].phase == Live && |p| < t.depth ==> FirstMissing(t, p, 0) == t.fan)
  }

  /** When no scanned path has growth left, either there is no node at all or
      the whole tree is ready. */
  lemma {:induction false} NoGrowthLeft(t: Trial, q: Path)
    requires Inv(t) && Root in t.nodes && InTree(q, t.depth, t.fan)
    requires Passed(t, [])
    ensures StageAt(t, q) >= 4
  {
    if p :| StageAt(t, p) >= 5 {
      assert MayRetire(t, p);
    } else if q != Root {
      var p := Parent(q);
      NoGrowthLeft(t, p);
      assert p in t.nodes && t.nodes[p].phase == Live;
      assert q == p + [q[|p|]] && q[|p|] < t.fan;
      assert q in t.nodes;
    }
  }

  lemma RootScanned(t: Trial) returns (q: Path)
    requires Inv(t) && Passed(t, [])
    ensures Scanned(t, Advance(t, Root), q)
  {
    q := Root;
    if Root in t.nodes {
      forall p | InTree(p, t.depth, t.fan) ensures StageAt(t, p) >= 4 { NoGrowthLeft(t, p); }
      q := AdvanceTeardown(t, Root);
    } else {
      AdvanceGrowth(t, Root);
    }
  }

  lemma VisitGrows(t: Trial, at: Path)
    requires InTree(at, t.depth, t.fan) && VisitPath(t, at).Go?
    ensures var p := VisitPath(t, at).path;
      && InTree(p, t.depth, t.fan)
      && (p in t.nodes ==> NeedsLaunch(t.nodes[p]))
      && (p !in t.nodes ==> ParentReady(t, p))
  {
    var p := VisitPath(t, at).path;
    if p != at { assert Parent(p) == at; }
  }

  /** The scan, having passed every path outside ps, moves at most one node. */
  lemma {:induction false} ScanMoves(t: Trial, ps: seq<Path>) returns (q: Path)
    requires Inv(t) && Passed(t, ps)
    requires forall p | p in ps :: |p| <= t.depth && InTree(p, t.depth, t.fan)
    ensures Scanned(t, Scan(t, ps), q)
  {
    if ps == [] {
      q := RootScanned(t);
      return;
    }
    assert ps[0] in ps && ps == [ps[0]] + ps[1..];
    match VisitPath(t, ps[0])
    case Pass =>
      q := ScanMoves(t, ps[1..]);
    case Stop =>
      q := Root;
    case Go(p) =>
      q := p;
      VisitGrows(t, ps[0]);
      AdvanceGrowth(t, p);
  }

  function Seen(t: Trial): Trial {
    if t.simulateEvidence then Observe(t) else t
  }

  lemma StepMoves(t: Trial) returns (q: Path)
    requires Inv(t)
    ensures var r := Step(t); Unmoved(t, r.0) || (Unmoved(t, Seen(t)) && Moves(Seen(t), r.0, q))
    ensures var r := Step(t); Unmoved(t, r.0) ==> r.1 != Advanced && (r.1 == Settled ==> StageAt(t, Root) == 7)
    ensures !Unmoved(t, Step(t).0) && !Controlled(t) ==> q == Root && StageAt(t, q) == 6
  {
    q := Root;
    if AllFenced(t) {
      var seen := Seen(t);
      ObserveUnmoved(t);
      UnmovedKeepsInv(t, seen);
      LevelOrderIsExact(seen.depth, seen.fan);
      LevelOrderBounded(seen);
      q := ScanMoves(seen, LevelOrder(seen.depth, seen.fan));
      if Step(t).0 != seen { assert StageAt(Step(t).0, q) != StageAt(t, q); }
    }
  }
}
