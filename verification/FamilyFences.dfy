/** What stops a family. The conditions are written out field by field, apart from the
    transactions that check them: whatever the interleaving, while the hold, a switch, a
    closed gate or a stop row stands nothing is handed over and nothing retires. */
module FamilyFences {
  import opened Wrappers
  import opened Paths
  import opened Lineage
  import opened Records
  import opened Lifecycle
  import opened Family
  import opened FamilyGrowth

  /** The emergency hold, a console switch, propagation disabled, a cleanup, another
      cycle or another configuration. */
  predicate Shut(c: Config, w: World) {
    || w.hold || w.controlStop || w.controlCleanup
    || !w.request.propagation || w.request.cleanupRequested
    || w.request.cleanupStatus in {Quiescing, Deleting, Verifying, NeedsAttention}
    || w.request.id != c.cycle || w.request.pin != Some(c.pin)
  }

  /** Or the durable stop of the node at p itself. */
  predicate ShutAt(c: Config, w: World, p: Path) {
    Shut(c, w) || (p in w.rows && w.rows[p].stop)
  }

  predicate StaysUnretired(r: Rows, r1: Rows) {
    r1.node.Some? && r1.node.value.status == Retiring ==> r.node.Some? && r.node.value.status == Retiring
  }

  predicate StaysUnowned(r: Rows, r1: Rows) {
    r1.node.Some? && r1.node.value.owner.Some? ==> r.node.Some? && r.node.value.owner == r1.node.value.owner
  }

  predicate StaysUnproven(r: Rows, r1: Rows) {
    r1.propagation.Some? ==> r1.propagation == r.propagation
  }

  /** No instance at p newly passed the last check before it terminates itself. */
  ghost predicate StaysUncleared(w: World, w1: World, p: Path) {
    forall x | x in w1.cleared && PathOf(x) == p :: x in w.cleared
  }

  predicate ChildOf(c: Config, q: Path, p: Path) {
    q != Root && Parent(q) == p && q[|q| - 1] < ChildCount(c, p)
  }

  /** Between w and w1 the node at p neither retired, nor proved its launches, nor
      became an owner (the root initializes itself as one), nor was any of its children
      made one; and its parent did not retire past it. */
  ghost predicate NothingNew(c: Config, w: World, w1: World, p: Path) {
    && StaysUnretired(RowsAt(w, p), RowsAt(w1, p)) && StaysUnproven(RowsAt(w, p), RowsAt(w1, p))
    && StaysUncleared(w, w1, p)
    && (p != Root ==> StaysUnowned(RowsAt(w, p), RowsAt(w1, p)))
    && (forall q | q != Root && Parent(q) == p :: StaysUnowned(RowsAt(w, q), RowsAt(w1, q)))
    && (p != Root && ChildOf(c, p, Parent(p)) ==>
          StaysUnretired(RowsAt(w, Parent(p)), RowsAt(w1, Parent(p))) && StaysUncleared(w, w1, Parent(p)))
  }

  lemma NothingTransitive(c: Config, w: World, w1: World, w2: World, p: Path)
    requires NothingNew(c, w, w1, p) && NothingNew(c, w1, w2, p)
    ensures NothingNew(c, w, w2, p)
  {
  }

  // ----- Steps that write no node and no receipt of launches -----

  ghost predicate Calm(w: World, w1: World) {
    && w1.cleared == w.cleared
    && forall q :: RowsAt(w1, q).node == RowsAt(w, q).node && RowsAt(w1, q).propagation == RowsAt(w, q).propagation
  }

  lemma CalmIsNothing(c: Config, w: World, w1: World, p: Path)
    requires Calm(w, w1)
    ensures NothingNew(c, w, w1, p)
  {
  }

  lemma OneRowCalm(w: World, w1: World, q: Path)
    requires w1.rows == w.rows[q := RowsAt(w1, q)] && w1.cleared == w.cleared
    requires RowsAt(w1, q).node == RowsAt(w, q).node && RowsAt(w1, q).propagation == RowsAt(w, q).propagation
    ensures Calm(w, w1)
  {
    forall p
      ensures RowsAt(w1, p).node == RowsAt(w, p).node && RowsAt(w1, p).propagation == RowsAt(w, p).propagation
    {
      assert p != q ==> RowsAt(w1, p) == RowsAt(w, p);
    }
  }

  lemma IntendIsCalm(c: Config, w: World, e: Edge, w1: World)
    requires DoIntend(c, w, e) == Some(w1)
    ensures Calm(w, w1)
  {
    OneRowCalm(w, w1, EdgePath(e));
  }

  lemma RetryIsCalm(c: Config, w: World, e: Edge, w1: World)
    requires DoRetry(c, w, e) == Some(w1)
    ensures Calm(w, w1)
  {
    OneRowCalm(w, w1, EdgePath(e));
  }

  lemma RecordThrottleIsCalm(c: Config, w: World, e: Edge, answered: bool, w1: World)
    requires DoRecordThrottle(c, w, e, answered) == Some(w1)
    ensures Calm(w, w1)
  {
    OneRowCalm(w, w1, EdgePath(e));
  }

  lemma RecordIsCalm(c: Config, w: World, e: Edge, w1: World)
    requires DoRecord(c, w, e) == Some(w1)
    ensures Calm(w, w1)
  {
    OneRowCalm(w, w1, EdgePath(e));
  }

  lemma SettleIsCalm(c: Config, w: World, e: Edge, w1: World)
    requires DoSettle(c, w, e) == Some(w1)
    ensures Calm(w, w1)
  {
    OneRowCalm(w, w1, EdgePath(e));
  }

  lemma LaunchIsCalm(c: Config, w: World, a: LaunchStep, w1: World)
    requires NextLaunch(c, w, a) == Some(w1)
    ensures Calm(w, w1)
  {
    match a
    case Intend(e) => IntendIsCalm(c, w, e, w1);
    case Retry(e) => RetryIsCalm(c, w, e, w1);
    case RecordThrottle(e, answered) => RecordThrottleIsCalm(c, w, e, answered, w1);
    case RecordResource(e) => RecordIsCalm(c, w, e, w1);
    case Settle(e) => SettleIsCalm(c, w, e, w1);
    case _ => ThreadStepFrame(c, w, a, w1);
  }

  // ----- An agent's own transactions -----

  lemma ReadinessIsCalm(c: Config, w: World, i: Inst, w1: World)
    requires DoReadiness(c, w, i) == Some(w1)
    ensures Calm(w, w1)
  {
    OneRowCalm(w, w1, PathOf(i));
  }

  lemma ConfirmParentIsCalm(c: Config, w: World, i: Inst, w1: World)
    requires DoConfirmParent(c, w, i) == Some(w1)
    ensures Calm(w, w1)
  {
    OneRowCalm(w, w1, PathOf(i.parent));
  }

  lemma StopIsCalm(c: Config, w: World, i: Inst, p: Path, w1: World)
    requires DoStop(c, w, i, p) == Some(w1)
    ensures Calm(w, w1)
  {
    OneRowCalm(w, w1, p);
  }

  lemma MarkErrorIsCalm(w: World, p: Path, w1: World)
    requires DoMarkError(w, p) == Some(w1)
    ensures Calm(w, w1)
  {
    OneRowCalm(w, w1, p);
  }

  /** A step that writes the rows at q alone, and leaves owner, receipt and RETIRING. */
  lemma OneRowNothing(c: Config, w: World, w1: World, q: Path, p: Path)
    requires w1 == w.(rows := w.rows[q := RowsAt(w1, q)])
    requires StaysUnretired(RowsAt(w, q), RowsAt(w1, q)) && StaysUnproven(RowsAt(w, q), RowsAt(w1, q))
    requires q == Root || StaysUnowned(RowsAt(w, q), RowsAt(w1, q))
    ensures NothingNew(c, w, w1, p)
  {
    forall x
      ensures StaysUnretired(RowsAt(w, x), RowsAt(w1, x)) && StaysUnproven(RowsAt(w, x), RowsAt(w1, x))
      ensures x == Root || StaysUnowned(RowsAt(w, x), RowsAt(w1, x))
    {
      assert x != q ==> RowsAt(w1, x) == RowsAt(w, x);
    }
  }

  lemma InitializeIsNothing(c: Config, w: World, i: Inst, w1: World, p: Path)
    requires DoInitialize(c, w, i) == Some(w1)
    ensures NothingNew(c, w, w1, p)
  {
    OneRowNothing(c, w, w1, PathOf(i), p);
  }

  lemma MarkLeafIsNothing(c: Config, w: World, i: Inst, w1: World, p: Path)
    requires DoMarkLeaf(c, w, i) == Some(w1)
    ensures NothingNew(c, w, w1, p)
  {
    OneRowNothing(c, w, w1, PathOf(i), p);
  }

  lemma PropagationIsFenced(c: Config, w: World, i: Inst, children: seq<Inst>, w1: World, p: Path)
    requires DoPropagation(c, w, i, children) == Some(w1) && ShutAt(c, w, p)
    ensures NothingNew(c, w, w1, p)
  {
    var q := PathOf(i);
    assert q != p;
    forall x
      ensures RowsAt(w1, x).node == RowsAt(w, x).node && (x != q ==> RowsAt(w1, x) == RowsAt(w, x))
    {
    }
  }

  lemma AcceptIsFenced(c: Config, w: World, e: Edge, w1: World, p: Path)
    requires DoAccept(c, w, e) == Some(w1) && ShutAt(c, w, p)
    ensures NothingNew(c, w, w1, p)
  {
    var q := EdgePath(e);
    assert q != Root && Parent(q) == PathOf(e.parent);
    NewOwnerElsewhere(c, w, w1, q, p);
  }

  /** A step that makes another node's child an owner. */
  lemma NewOwnerElsewhere(c: Config, w: World, w1: World, q: Path, p: Path)
    requires w1 == w.(rows := w.rows[q := RowsAt(w1, q)]) && q != Root && q != p && Parent(q) != p
    requires StaysUnretired(RowsAt(w, q), RowsAt(w1, q)) && StaysUnproven(RowsAt(w, q), RowsAt(w1, q))
    ensures NothingNew(c, w, w1, p)
  {
    forall x ensures x != q ==> RowsAt(w1, x) == RowsAt(w, x) {}
  }

  /** Retirement checks its own stop and those of its children. */
  lemma AuthorizingIsFenced(c: Config, w: World, i: Inst, from: NodeStatus, p: Path)
    requires MayAuthorize(c, w, i, from) && ShutAt(c, w, p)
    ensures PathOf(i) != p && (p != Root && ChildOf(c, p, Parent(p)) ==> PathOf(i) != Parent(p))
  {
    assert forall k | 0 <= k < ChildCount(c, PathOf(i)) :: !RowsAt(w, PathOf(i) + [k]).stop by {
      forall k | 0 <= k < ChildCount(c, PathOf(i)) ensures !RowsAt(w, PathOf(i) + [k]).stop {
        assert ChildContinues(c, w, i, k);
      }
    }
    assert p != Root ==> p == Parent(p) + [p[|p| - 1]];
  }

  lemma AuthorizeIsFenced(c: Config, w: World, i: Inst, w1: World, p: Path)
    requires DoAuthorize(c, w, i) == Some(w1) && ShutAt(c, w, p)
    ensures NothingNew(c, w, w1, p)
  {
    AuthorizingIsFenced(c, w, i, Owner, p);
    var q := PathOf(i);
    assert StaysUnowned(RowsAt(w, q), RowsAt(w1, q)) && RowsAt(w1, q).propagation == RowsAt(w, q).propagation;
    forall x ensures x != q ==> RowsAt(w1, x) == RowsAt(w, x) {}
  }

  lemma ReconfirmIsFenced(c: Config, w: World, i: Inst, w1: World, p: Path)
    requires DoReconfirm(c, w, i) == Some(w1) && ShutAt(c, w, p)
    ensures NothingNew(c, w, w1, p)
  {
    AuthorizingIsFenced(c, w, i, Retiring, p);
  }

  lemma AgentIsFenced(c: Config, w: World, a: AgentStep, w1: World, p: Path)
    requires NextAgent(c, w, a) == Some(w1) && ShutAt(c, w, p)
    ensures NothingNew(c, w, w1, p)
  {
    match a
    case Initialize(i) => InitializeIsNothing(c, w, i, w1, p);
    case PublishReadiness(i) =>
      ReadinessIsCalm(c, w, i, w1);
      CalmIsNothing(c, w, w1, p);
    case PublishPropagation(i, children) => PropagationIsFenced(c, w, i, children, w1, p);
    case Accept(e) => AcceptIsFenced(c, w, e, w1, p);
    case MarkLeaf(i) => MarkLeafIsNothing(c, w, i, w1, p);
    case Authorize(i) => AuthorizeIsFenced(c, w, i, w1, p);
    case ConfirmParent(i) =>
      ConfirmParentIsCalm(c, w, i, w1);
      CalmIsNothing(c, w, w1, p);
    case StopNode(i, q) =>
      StopIsCalm(c, w, i, q, w1);
      CalmIsNothing(c, w, w1, p);
    case MarkError(q) =>
      MarkErrorIsCalm(w, q, w1);
      CalmIsNothing(c, w, w1, p);
  }

  // ----- Cleanup and the outside -----

  lemma DeleteIsNothing(c: Config, w: World, n: nat, q: Path, keep: Rows, w1: World, p: Path)
    requires DoDelete(c, w, n, q, keep) == Some(w1)
    ensures NothingNew(c, w, w1, p)
  {
    forall x
      ensures StaysUnretired(RowsAt(w, x), RowsAt(w1, x)) && StaysUnproven(RowsAt(w, x), RowsAt(w1, x))
      ensures StaysUnowned(RowsAt(w, x), RowsAt(w1, x))
    {
      assert x != q ==> RowsAt(w1, x) == RowsAt(w, x);
    }
  }

  lemma PlainCleanupIsCalm(c: Config, w: World, a: CleanupStep, w1: World)
    requires NextCleanup(c, w, a) == Some(w1) && !a.DeleteRows?
    ensures w1.rows == w.rows && w1.cleared == w.cleared
  {
    match a
    case Guard(_) =>
    case ScanTable(_) =>
    case SeeGone(n, i) => assert DoSee(w, n, i, false) == Some(w1);
    case SeeMissing(n, i) => assert DoSee(w, n, i, true) == Some(w1);
    case Remove(_, _) =>
    case _ =>
  }

  lemma CleanupIsFenced(c: Config, w: World, a: CleanupStep, w1: World, p: Path)
    requires NextCleanup(c, w, a) == Some(w1)
    ensures NothingNew(c, w, w1, p)
  {
    if a.DeleteRows? {
      DeleteIsNothing(c, w, a.n, a.p, a.keep, w1, p);
    } else {
      PlainCleanupIsCalm(c, w, a, w1);
      assert Calm(w, w1);
      CalmIsNothing(c, w, w1, p);
    }
  }

  lemma PlainOutsideIsCalm(c: Config, w: World, a: OutsideStep, w1: World)
    requires NextOutside(c, w, a) == Some(w1) && !a.Reconfirm?
    ensures w1.rows == w.rows && w1.cleared == w.cleared
  {
  }

  lemma OutsideIsFenced(c: Config, w: World, a: OutsideStep, w1: World, p: Path)
    requires NextOutside(c, w, a) == Some(w1) && ShutAt(c, w, p)
    ensures NothingNew(c, w, w1, p)
  {
    if a.Reconfirm? {
      ReconfirmIsFenced(c, w, a.i, w1, p);
    } else {
      PlainOutsideIsCalm(c, w, a, w1);
      assert Calm(w, w1);
      CalmIsNothing(c, w, w1, p);
    }
  }

  // ----- Runs -----

  lemma StepIsFenced(c: Config, w: World, a: Action, w1: World, p: Path)
    requires Next(c, w, a) == Some(w1) && ShutAt(c, w, p)
    ensures NothingNew(c, w, w1, p)
  {
    match a
    case Launching(step) =>
      LaunchIsCalm(c, w, step, w1);
      CalmIsNothing(c, w, w1, p);
    case Acts(step) => AgentIsFenced(c, w, step, w1, p);
    case Cleaning(step) => CleanupIsFenced(c, w, step, w1, p);
    case Outside(step) => OutsideIsFenced(c, w, step, w1, p);
  }

  /** The state before action k, if the run gets that far. */
  function At(c: Config, w: World, actions: seq<Action>, k: nat): Option<World>
    requires k <= |actions|
  {
    Run(c, w, actions[..k])
  }

  /** p is shut before each of the first n actions, whichever reason holds at each. */
  ghost predicate ShutThroughout(c: Config, w: World, actions: seq<Action>, n: nat, p: Path)
    requires n <= |actions|
  {
    forall k | 0 <= k < n :: At(c, w, actions, k).Some? ==> ShutAt(c, At(c, w, actions, k).value, p)
  }

  lemma {:induction false} FencedUpTo(c: Config, w: World, actions: seq<Action>, n: nat, p: Path)
    requires n <= |actions| && ShutThroughout(c, w, actions, n, p) && At(c, w, actions, n).Some?
    ensures NothingNew(c, w, At(c, w, actions, n).value, p)
  {
    if n > 0 {
      var k := n - 1;
      assert actions[..n][..k] == actions[..k];
      var before := At(c, w, actions, k).value;
      FencedUpTo(c, w, actions, k, p);
      StepIsFenced(c, before, actions[k], At(c, w, actions, n).value, p);
      NothingTransitive(c, w, before, At(c, w, actions, n).value, p);
    }
  }

  /** From any state and under any interleaving: as long as the hold, a switch, a
      closed gate or the node's own stop stands, the node does not retire and clears no
      instance to terminate itself, proves no launch, is not made an owner and makes
      none of its children one; and its parent does not retire either. */
  lemma NothingPassesTheFence(c: Config, w: World, actions: seq<Action>, p: Path)
    requires ShutThroughout(c, w, actions, |actions|, p) && Run(c, w, actions).Some?
    ensures NothingNew(c, w, Run(c, w, actions).value, p)
  {
    assert actions[..|actions|] == actions;
    FencedUpTo(c, w, actions, |actions|, p);
  }
}
