/** Retirement safety: what holds of every retiring node, of every instance that has
    been terminated, and of every lineage, in every run. */
module FamilySafety {
  import opened Wrappers
  import opened Paths
  import opened Lineage
  import opened Records
  import opened Lifecycle
  import opened Family
  import opened FamilyGrowth
  import opened FamilyLaunch

  // ----- The invariant of the node rows, until cleanup deletes any -----

  /** Settled evidence that y was launched at edge e, with its resource record. */
  predicate LaunchOnRecord(w: World, e: Edge, y: Inst) {
    && RowsAt(w, EdgePath(e)).submission == Some(Submission(e, true, false, Some(y)))
    && y in RowsAt(w, EdgePath(e)).resources
  }

  predicate GrandchildrenOnRecord(c: Config, w: World, q: Path, x: Inst) {
    && RowsAt(w, q).propagation.Some? && RowsAt(w, q).propagation.value.instance == x
    && |RowsAt(w, q).propagation.value.children| == ChildCount(c, q)
    && forall j | 0 <= j < ChildCount(c, q) ::
         LaunchOnRecord(w, Edge(x, j), RowsAt(w, q).propagation.value.children[j])
  }

  /** Child k of i owns its own path, and unless it is at maximum depth has launched
      every one of its children. */
  predicate ChildHeld(c: Config, w: World, i: Inst, k: nat) {
    var q := PathOf(i) + [k];
    && RowsAt(w, q).node.Some?
    && var x := RowsAt(w, q).node.value.instance;
    && x in w.ec2 && x.Child? && x.parent == i && PathOf(x) == q
    && RowsAt(w, q).node.value.owner == Some(x)
    && (ChildCount(c, q) > 0 ==> GrandchildrenOnRecord(c, w, q, x))
  }

  predicate RetiringInv(c: Config, w: World, i: Inst) {
    && ChildCount(c, PathOf(i)) > 0
    && (forall k | 0 <= k < ChildCount(c, PathOf(i)) :: ChildHeld(c, w, i, k))
    && (i.Child? ==> AncestorEnded(c, w, i.parent))
  }

  predicate NodeInv(c: Config, w: World, p: Path) {
    RowsAt(w, p).node.Some? ==>
      var n := RowsAt(w, p).node.value;
      && n.instance in w.ec2 && PathOf(n.instance) == p
      && (n.owner.Some? ==> n.owner == Some(n.instance))
      && (n.status == Candidate <==> n.owner.None?)
      && (n.status == Retiring ==>
            n.retirementChildren == ChildCount(c, p) && RetiringInv(c, w, n.instance))
  }

  predicate Stopped(s: Ec2) {
    s.ShuttingDown? || s.Gone?
  }

  /** An instance that stopped running died outside the protocol, was removed by
      cleanup, or retired on its own authorization. */
  predicate StopAccounted(w: World, x: Inst) {
    && (x in w.ec2 && Stopped(w.ec2[x]) ==> x in w.failed || x in w.removed || Owns(w, x, Retiring))
    && (x in w.cleared ==> Owns(w, x, Retiring))
  }

  ghost predicate Nodes(c: Config, w: World) {
    && Seed in w.ec2
    && (!w.deleting ==> (forall p :: NodeInv(c, w, p)) && (forall x :: StopAccounted(w, x)))
  }

  // ----- What growth keeps -----

  lemma ChildHeldGrows(c: Config, w: World, w1: World, i: Inst, k: nat)
    requires ChildHeld(c, w, i, k) && Grows(w, w1) && !w1.deleting
    ensures ChildHeld(c, w1, i, k)
  {
    var q := PathOf(i) + [k];
    assert RowsGrow(RowsAt(w, q), RowsAt(w1, q));
    var x := RowsAt(w, q).node.value.instance;
    if ChildCount(c, q) > 0 {
      forall j | 0 <= j < ChildCount(c, q)
        ensures LaunchOnRecord(w1, Edge(x, j), RowsAt(w1, q).propagation.value.children[j])
      {
        assert LaunchOnRecord(w, Edge(x, j), RowsAt(w, q).propagation.value.children[j]);
        assert RowsGrow(RowsAt(w, EdgePath(Edge(x, j))), RowsAt(w1, EdgePath(Edge(x, j))));
      }
    }
  }

  lemma AncestorEndedGrows(c: Config, w: World, w1: World, x: Inst)
    requires AncestorEnded(c, w, x) && Grows(w, w1) && !w1.deleting
    ensures AncestorEnded(c, w1, x)
  {
    assert RowsGrow(RowsAt(w, PathOf(x)), RowsAt(w1, PathOf(x)));
  }

  lemma RetiringInvGrows(c: Config, w: World, w1: World, i: Inst)
    requires RetiringInv(c, w, i) && Grows(w, w1) && !w1.deleting
    ensures RetiringInv(c, w1, i)
  {
    forall k | 0 <= k < ChildCount(c, PathOf(i)) ensures ChildHeld(c, w1, i, k) {
      ChildHeldGrows(c, w, w1, i, k);
    }
    if i.Child? { AncestorEndedGrows(c, w, w1, i.parent); }
  }

  lemma SameNode(c: Config, w: World, w1: World, p: Path)
    requires NodeInv(c, w, p) && Grows(w, w1) && !w1.deleting && RowsAt(w1, p).node == RowsAt(w, p).node
    ensures NodeInv(c, w1, p)
  {
    if RowsAt(w, p).node.Some? && RowsAt(w, p).node.value.status == Retiring {
      RetiringInvGrows(c, w, w1, RowsAt(w, p).node.value.instance);
    }
  }

  lemma RetiringStays(w: World, w1: World, x: Inst)
    requires Grows(w, w1) && !w1.deleting && Owns(w, x, Retiring)
    ensures Owns(w1, x, Retiring)
  {
    assert RowsGrow(RowsAt(w, PathOf(x)), RowsAt(w1, PathOf(x)));
  }

  // ----- The steps that write a node row -----

  lemma InitializeKeepsNode(c: Config, w: World, i: Inst, w1: World)
    requires DoInitialize(c, w, i) == Some(w1)
    ensures NodeInv(c, w1, PathOf(i))
  {
  }

  lemma AcceptKeepsNode(c: Config, w: World, e: Edge, w1: World)
    requires NodeInv(c, w, EdgePath(e)) && DoAccept(c, w, e) == Some(w1)
    ensures NodeInv(c, w1, EdgePath(e))
  {
  }

  lemma MarkLeafKeepsNode(c: Config, w: World, i: Inst, w1: World)
    requires NodeInv(c, w, PathOf(i)) && DoMarkLeaf(c, w, i) == Some(w1)
    ensures NodeInv(c, w1, PathOf(i))
  {
  }

  /** What the retirement transaction checks is what a retiring node needs. */
  lemma ContinuationHolds(c: Config, w: World, i: Inst, k: nat)
    requires ChildContinues(c, w, i, k)
    ensures ChildHeld(c, w, i, k)
  {
    var q := PathOf(i) + [k];
    var x := RowsAt(w, q).node.value.instance;
    if ChildCount(c, q) > 0 {
      forall j | 0 <= j < ChildCount(c, q)
        ensures LaunchOnRecord(w, Edge(x, j), RowsAt(w, q).propagation.value.children[j])
      {
        assert LaunchEvidence(w, Edge(x, j), RowsAt(w, q).propagation.value.children[j]);
      }
    }
  }

  lemma AuthorizeKeepsNode(c: Config, w: World, i: Inst, w1: World)
    requires NodeInv(c, w, PathOf(i)) && DoAuthorize(c, w, i) == Some(w1) && Grows(w, w1) && !w1.deleting
    ensures NodeInv(c, w1, PathOf(i))
  {
    assert RowsAt(w, PathOf(i)).node.value.instance == i;
    forall k | 0 <= k < ChildCount(c, PathOf(i)) ensures ChildHeld(c, w, i, k) {
      ContinuationHolds(c, w, i, k);
    }
    RetiringInvGrows(c, w, w1, i);
  }

  lemma AgentKeepsWrittenNode(c: Config, w: World, a: AgentStep, w1: World)
    requires NextAgent(c, w, a) == Some(w1) && Grows(w, w1) && !w1.deleting
    requires NodeInv(c, w, WrittenPath(a))
    ensures NodeInv(c, w1, WrittenPath(a))
  {
    match a
    case Initialize(i) => InitializeKeepsNode(c, w, i, w1);
    case Accept(e) => AcceptKeepsNode(c, w, e, w1);
    case MarkLeaf(i) => MarkLeafKeepsNode(c, w, i, w1);
    case Authorize(i) => AuthorizeKeepsNode(c, w, i, w1);
    case _ => SameNode(c, w, w1, WrittenPath(a));
  }

  // ----- Stopped instances -----

  /** A step that stops no instance keeps every stop accounted for. */
  lemma AccountsKept(w: World, w1: World, x: Inst)
    requires StopAccounted(w, x) && Grows(w, w1) && !w1.deleting
    requires x in w1.ec2 && Stopped(w1.ec2[x]) ==>
      (x in w.ec2 && Stopped(w.ec2[x])) || x in w1.failed || x in w1.removed || Owns(w, x, Retiring)
    requires x in w1.cleared ==> x in w.cleared || Owns(w, x, Retiring)
    ensures StopAccounted(w1, x)
  {
    if Owns(w, x, Retiring) { RetiringStays(w, w1, x); }
  }

  /** What a step may stop: nothing, or with the reason on record. */
  predicate StopsFor(w: World, w1: World, x: Inst) {
    && (x in w1.ec2 && Stopped(w1.ec2[x]) ==>
          (x in w.ec2 && Stopped(w.ec2[x])) || x in w1.failed || x in w1.removed || x in w.cleared)
    && (x in w1.cleared ==> x in w.cleared || Owns(w, x, Retiring))
  }

  lemma LaunchStops(c: Config, w: World, a: LaunchStep, w1: World, x: Inst)
    requires NextLaunch(c, w, a) == Some(w1)
    ensures StopsFor(w, w1, x)
  {
    if !a.Intend? && !ReceiptStep(a) {
      ThreadStepFrame(c, w, a, w1);
    } else if ReceiptStep(a) {
      ReceiptStepGrows(c, w, a, w1);
    }
  }

  lemma AgentStops(c: Config, w: World, a: AgentStep, w1: World, x: Inst)
    requires NextAgent(c, w, a) == Some(w1)
    ensures StopsFor(w, w1, x)
  {
    AgentStepGrows(c, w, a, w1);
  }

  lemma CleanupStops(c: Config, w: World, a: CleanupStep, w1: World, x: Inst)
    requires NextCleanup(c, w, a) == Some(w1)
    ensures StopsFor(w, w1, x)
  {
  }

  lemma OutsideStops(c: Config, w: World, a: OutsideStep, w1: World, x: Inst)
    requires NextOutside(c, w, a) == Some(w1)
    ensures StopsFor(w, w1, x)
  {
  }

  lemma StepStops(c: Config, w: World, a: Action, w1: World, x: Inst)
    requires Next(c, w, a) == Some(w1)
    ensures StopsFor(w, w1, x)
  {
    match a
    case Launching(step) => LaunchStops(c, w, step, w1, x);
    case Acts(step) => AgentStops(c, w, step, w1, x);
    case Cleaning(step) => CleanupStops(c, w, step, w1, x);
    case Outside(step) => OutsideStops(c, w, step, w1, x);
  }

  // ----- Every step -----

  lemma IntendKeepsNodes(c: Config, w: World, e: Edge, w1: World, p: Path)
    requires DoIntend(c, w, e) == Some(w1)
    ensures RowsAt(w1, p).node == RowsAt(w, p).node
  {
  }

  lemma LaunchKeepsNodes(c: Config, w: World, a: LaunchStep, w1: World, p: Path)
    requires NextLaunch(c, w, a) == Some(w1)
    ensures RowsAt(w1, p).node == RowsAt(w, p).node
  {
    if a.Intend? {
      IntendKeepsNodes(c, w, a.e, w1, p);
    } else if ReceiptStep(a) {
      ReceiptStepGrows(c, w, a, w1);
    } else {
      ThreadStepFrame(c, w, a, w1);
    }
  }

  lemma AgentKeepsNode(c: Config, w: World, a: AgentStep, w1: World, p: Path)
    requires NextAgent(c, w, a) == Some(w1) && Grows(w, w1) && !w1.deleting && NodeInv(c, w, p)
    ensures NodeInv(c, w1, p)
  {
    if p == WrittenPath(a) {
      AgentKeepsWrittenNode(c, w, a, w1);
    } else {
      AgentStepGrows(c, w, a, w1);
      SameNode(c, w, w1, p);
    }
  }

  lemma CleanupKeepsRows(c: Config, w: World, a: CleanupStep, w1: World)
    requires NextCleanup(c, w, a) == Some(w1) && !w1.deleting
    ensures w1.rows == w.rows
  {
  }

  lemma StepKeepsNode(c: Config, w: World, a: Action, w1: World, p: Path)
    requires Next(c, w, a) == Some(w1) && Grows(w, w1) && !w1.deleting && NodeInv(c, w, p) && RequestInv(w.request)
    ensures NodeInv(c, w1, p)
  {
    match a
    case Launching(step) =>
      LaunchKeepsNodes(c, w, step, w1, p);
      SameNode(c, w, w1, p);
    case Acts(step) => AgentKeepsNode(c, w, step, w1, p);
    case Cleaning(step) =>
      CleanupKeepsRows(c, w, step, w1);
      SameNode(c, w, w1, p);
    case Outside(step) =>
      OutsideStepGrows(c, w, step, w1);
      SameNode(c, w, w1, p);
  }

  lemma StepKeepsNodes(c: Config, w: World, a: Action, w1: World)
    requires Next(c, w, a) == Some(w1) && Nodes(c, w) && Grows(w, w1) && RequestInv(w.request)
    ensures Nodes(c, w1)
  {
    if !w1.deleting {
      forall p ensures NodeInv(c, w1, p) {
        StepKeepsNode(c, w, a, w1, p);
      }
      forall x ensures StopAccounted(w1, x) {
        assert StopAccounted(w, x);
        StepStops(c, w, a, w1, x);
        AccountsKept(w, w1, x);
      }
    }
  }

  ghost predicate Safe(c: Config, w: World) {
    LaunchesSafe(c, w) && Nodes(c, w)
  }

  lemma StepKeepsSafe(c: Config, w: World, a: Action, w1: World)
    requires Safe(c, w) && Next(c, w, a) == Some(w1)
    ensures Safe(c, w1) && Grows(w, w1)
  {
    StepKeepsLaunchesSafe(c, w, a, w1);
    StepKeepsNodes(c, w, a, w1);
  }

  lemma {:induction false} EveryRunIsSafe(c: Config, w: World, actions: seq<Action>)
    requires Initial(c, w) && Run(c, w, actions).Some?
    ensures Safe(c, Run(c, w, actions).value)
  {
    if actions == [] {
      InitialIsSafe(c, w);
      assert forall p :: RowsAt(w, p) == NoRows;
    } else {
      var before := Run(c, w, actions[..|actions| - 1]).value;
      EveryRunIsSafe(c, w, actions[..|actions| - 1]);
      StepKeepsSafe(c, before, actions[|actions| - 1], Run(c, w, actions).value);
    }
  }

  // ----- Retirement safety -----

  predicate SettledLaunch(w: World, e: Edge) {
    var s := RowsAt(w, EdgePath(e)).submission;
    && s.Some? && s.value.token == e && s.value.settled && !s.value.rejected
    && s.value.instance.Some? && s.value.instance.value in RowsAt(w, EdgePath(e)).resources
  }

  /** Child k of i is owned by the instance i launched there, and unless it is at
      maximum depth each of its own children has a settled submission and the
      matching resource record. */
  predicate Continues(c: Config, w: World, i: Inst, k: nat) {
    var node := RowsAt(w, PathOf(i) + [k]).node;
    && node.Some? && node.value.owner == Some(node.value.instance)
    && var x := node.value.instance;
    && x in w.ec2 && x.Child? && x.parent == i && x.index == k
    && forall j | 0 <= j < ChildCount(c, PathOf(x)) :: SettledLaunch(w, Edge(x, j))
  }

  lemma HeldContinues(c: Config, w: World, i: Inst, k: nat)
    requires ChildHeld(c, w, i, k)
    ensures Continues(c, w, i, k)
  {
    var q := PathOf(i) + [k];
    var x := RowsAt(w, q).node.value.instance;
    assert q[|q| - 1] == x.index == k;
    forall j | 0 <= j < ChildCount(c, q) ensures SettledLaunch(w, Edge(x, j)) {
      assert LaunchOnRecord(w, Edge(x, j), RowsAt(w, q).propagation.value.children[j]);
    }
  }

  /** Whenever a node is RETIRING, whatever the interleaving, its family continues. */
  lemma RetirementSafety(c: Config, w: World, actions: seq<Action>, p: Path)
    requires Initial(c, w) && Run(c, w, actions).Some?
    requires !Run(c, w, actions).value.deleting && RetiringAt(Run(c, w, actions).value, p)
    ensures var w1 := Run(c, w, actions).value; var n := RowsAt(w1, p).node.value;
      && n.owner == Some(n.instance) && PathOf(n.instance) == p && ChildCount(c, p) > 0
      && forall k | 0 <= k < ChildCount(c, p) :: Continues(c, w1, n.instance, k)
  {
    EveryRunIsSafe(c, w, actions);
    var w1 := Run(c, w, actions).value;
    assert NodeInv(c, w1, p);
    var i := RowsAt(w1, p).node.value.instance;
    forall k | 0 <= k < ChildCount(c, p) ensures Continues(c, w1, i, k) {
      assert ChildHeld(c, w1, i, k);
      HeldContinues(c, w1, i, k);
    }
  }

  // ----- Top-down retirement -----

  /** The whole lineage above i has ended. */
  predicate AncestorsGone(w: World, i: Inst) {
    i.Child? ==> Ended(w, i.parent) && AncestorsGone(w, i.parent)
  }

  lemma {:induction false} RetiringHasNoAncestors(c: Config, w: World, i: Inst)
    requires Safe(c, w) && !w.deleting && Owns(w, i, Retiring)
    ensures AncestorsGone(w, i)
    decreases i
  {
    assert NodeInv(c, w, PathOf(i));
    if i.Child? { RetiringHasNoAncestors(c, w, i.parent); }
  }

  /** Retirement is top-down: every ancestor of a retiring node has terminated. So
      has every ancestor of an instance the protocol terminated, and of two retiring
      nodes on one lineage the upper is gone. */
  lemma TopDownRetirement(c: Config, w: World, actions: seq<Action>, x: Inst)
    requires Initial(c, w) && Run(c, w, actions).Some? && !Run(c, w, actions).value.deleting
    ensures var w1 := Run(c, w, actions).value;
      && (Owns(w1, x, Retiring) ==> AncestorsGone(w1, x))
      && (x in w1.ec2 && Stopped(w1.ec2[x]) && x !in w1.failed && x !in w1.removed ==>
            Owns(w1, x, Retiring) && AncestorsGone(w1, x))
  {
    EveryRunIsSafe(c, w, actions);
    var w1 := Run(c, w, actions).value;
    assert StopAccounted(w1, x);
    if Owns(w1, x, Retiring) { RetiringHasNoAncestors(c, w1, x); }
  }

  /** No lineage ever loses its last live node: every path to maximum depth still has
      a node serving, or one that was lost to a failure or to cleanup. */
  lemma {:induction false} LiveBelow(c: Config, w: World, x: Inst, leaf: Path) returns (y: Inst)
    requires Safe(c, w) && !w.deleting && x in w.ec2 && PathOf(x) <= leaf
    requires |leaf| == c.maxGeneration && InTree(leaf, c.maxGeneration, Fan(c))
    ensures y in w.ec2 && PathOf(x) <= PathOf(y) <= leaf
    ensures !Stopped(w.ec2[y]) || y in w.failed || y in w.removed
    decreases |leaf| - |PathOf(x)|
  {
    assert StopAccounted(w, x);
    if !Stopped(w.ec2[x]) || x in w.failed || x in w.removed {
      y := x;
    } else {
      var p := PathOf(x);
      assert NodeInv(c, w, p) && RowsAt(w, p).node.value.instance == x;
      var k := leaf[|p|];
      assert k < ChildCount(c, p);
      assert ChildHeld(c, w, x, k);
      assert p + [k] <= leaf;
      y := LiveBelow(c, w, RowsAt(w, p + [k]).node.value.instance, leaf);
    }
  }

  lemma EveryLineageKeepsANode(c: Config, w: World, actions: seq<Action>, leaf: Path) returns (y: Inst)
    requires Initial(c, w) && Run(c, w, actions).Some? && !Run(c, w, actions).value.deleting
    requires |leaf| == c.maxGeneration && InTree(leaf, c.maxGeneration, Fan(c))
    ensures var w1 := Run(c, w, actions).value;
      && y in w1.ec2 && PathOf(y) <= leaf
      && (!Stopped(w1.ec2[y]) || y in w1.failed || y in w1.removed)
  {
    EveryRunIsSafe(c, w, actions);
    y := LiveBelow(c, Run(c, w, actions).value, Seed, leaf);
  }
}
