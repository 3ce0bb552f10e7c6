/** When exactly the family's transactions commit, and what they then leave. The
    conditions are written out on the rows, the record and the switches themselves. */
module FamilyTransactions {
  import opened Wrappers
  import opened Paths
  import opened Lineage
  import opened Records
  import opened Lifecycle
  import opened Family
  import opened FamilyGrowth
  import opened FamilyFences

  predicate CycleUnderWay(c: Config, w: World) {
    && w.request.id == c.cycle && w.request.pin == Some(c.pin)
    && !w.request.cleanupRequested && w.request.cleanupStatus in {Idle, Done}
  }

  /** No hold, no switch, propagation enabled in a cycle under way. */
  predicate AllClear(c: Config, w: World) {
    && CycleUnderWay(c, w) && w.request.propagation
    && !w.hold && !w.controlStop && !w.controlCleanup
  }

  predicate Unstopped(w: World, p: Path) {
    p in w.rows ==> !w.rows[p].stop
  }

  predicate Alive(w: World, i: Inst) {
    i in w.ec2 && w.ec2[i] in {Running, ShuttingDown}
  }

  predicate NodeIs(w: World, i: Inst, status: NodeStatus) {
    && PathOf(i) in w.rows && w.rows[PathOf(i)].node.Some?
    && w.rows[PathOf(i)].node.value.owner == Some(i) && w.rows[PathOf(i)].node.value.status == status
  }

  /** x published its readiness at q at most 15 seconds ago, and no error. */
  predicate ReadyNow(w: World, q: Path, x: Inst) {
    && q in w.rows && w.rows[q].state.Some? && w.rows[q].state.value.instance == x
    && !w.rows[q].state.value.error && 0 <= w.now - w.rows[q].state.value.readyAt <= 15
  }

  /** The submission at e is settled with x, which is on record. */
  predicate LaunchSettled(w: World, e: Edge, x: Inst) {
    && EdgePath(e) in w.rows && w.rows[EdgePath(e)].submission == Some(Submission(e, true, false, Some(x)))
    && x in w.rows[EdgePath(e)].resources && x in w.ec2
  }

  /** i has no children to launch, or a receipt naming the n settled launches. */
  predicate LaunchesProved(w: World, i: Inst, n: nat) {
    n > 0 ==>
      && PathOf(i) in w.rows && w.rows[PathOf(i)].propagation.Some?
      && var receipt := w.rows[PathOf(i)].propagation.value;
      && receipt.instance == i && |receipt.children| == n
      && forall k | 0 <= k < n :: LaunchSettled(w, Edge(i, k), receipt.children[k])
  }

  /** x terminated, retired under its own accepted receipt. */
  predicate RetiredAndGone(c: Config, w: World, x: Inst) {
    && x in w.ec2 && w.ec2[x] == Gone && PathOf(x) in w.rows
    && w.rows[PathOf(x)].node == Some(NodeRow(x, Some(x), Retiring, ChildCount(c, PathOf(x))))
  }

  /** Child k of i carries on by itself: owner, ready, not stopped, its own launches proved. */
  predicate ChildCarriesOn(c: Config, w: World, i: Inst, k: nat) {
    var q := PathOf(i) + [k];
    && q in w.rows && w.rows[q].node.Some?
    && var x := w.rows[q].node.value.instance;
    && x.Child? && x.parent == i && x.index == k && x in w.ec2
    && w.rows[q].node.value.owner == Some(x) && w.rows[q].node.value.status in {Owner, Leaf}
    && ReadyNow(w, q, x) && !w.rows[q].stop && LaunchesProved(w, x, ChildCount(c, q))
  }

  predicate RetirementDue(c: Config, w: World, i: Inst, from: NodeStatus) {
    && AllClear(c, w) && Unstopped(w, PathOf(i)) && Alive(w, i) && NodeIs(w, i, from)
    && (i.Child? ==> RetiredAndGone(c, w, i.parent))
    && ChildCount(c, PathOf(i)) > 0
    && forall k | 0 <= k < ChildCount(c, PathOf(i)) :: ChildCarriesOn(c, w, i, k)
  }

  // ----- Retirement -----

  lemma ProvedIsProved(c: Config, w: World, q: Path, x: Inst)
    requires PathOf(x) == q
    ensures PropagationProved(c, w, q, x) <==> LaunchesProved(w, x, ChildCount(c, q))
  {
    if PropagationProved(c, w, q, x) && ChildCount(c, q) > 0 {
      var receipt := w.rows[q].propagation.value;
      forall k | 0 <= k < ChildCount(c, q) ensures LaunchSettled(w, Edge(x, k), receipt.children[k]) {
        assert LaunchEvidence(w, Edge(x, k), receipt.children[k]);
      }
    }
    if LaunchesProved(w, x, ChildCount(c, q)) && ChildCount(c, q) > 0 {
      var receipt := w.rows[q].propagation.value;
      forall k | 0 <= k < ChildCount(c, q) ensures LaunchEvidence(w, Edge(x, k), receipt.children[k]) {
        assert LaunchSettled(w, Edge(x, k), receipt.children[k]);
      }
    }
  }

  lemma ContinuesIsCarriesOn(c: Config, w: World, i: Inst, k: nat)
    ensures ChildContinues(c, w, i, k) <==> ChildCarriesOn(c, w, i, k)
  {
    var q := PathOf(i) + [k];
    if q in w.rows && w.rows[q].node.Some? {
      var x := w.rows[q].node.value.instance;
      if x.Child? && x.parent == i {
        assert PathOf(x) == PathOf(i) + [x.index];
        assert PathOf(x) == q <==> x.index == k by {
          assert PathOf(x)[|q| - 1] == x.index && q[|q| - 1] == k;
        }
        if x.index == k { ProvedIsProved(c, w, q, x); }
      }
    }
  }

  lemma MayIsDue(c: Config, w: World, i: Inst, from: NodeStatus)
    ensures MayAuthorize(c, w, i, from) <==> RetirementDue(c, w, i, from)
  {
    forall k
      ensures 0 <= k < ChildCount(c, PathOf(i)) ==> (ChildContinues(c, w, i, k) <==> ChildCarriesOn(c, w, i, k))
    {
      if 0 <= k { ContinuesIsCarriesOn(c, w, i, k); }
    }
    if i.Child? && AncestorEnded(c, w, i.parent) {
      var node := w.rows[PathOf(i.parent)].node.value;
      assert node == NodeRow(i.parent, Some(i.parent), Retiring, ChildCount(c, PathOf(i.parent)));
    }
  }

  /** The retirement transaction commits if and only if everything above holds, and
      turns this node's row RETIRING and nothing else. */
  lemma RetiresExactly(c: Config, w: World, i: Inst)
    ensures Next(c, w, Acts(Authorize(i))).Some? <==> RetirementDue(c, w, i, Owner)
    ensures RetirementDue(c, w, i, Owner) ==>
      var r := w.rows[PathOf(i)];
      Next(c, w, Acts(Authorize(i))) == Some(w.(rows := w.rows[PathOf(i) := r.(node := Some(
        NodeRow(r.node.value.instance, Some(i), Retiring, ChildCount(c, PathOf(i)))))]))
  {
    MayIsDue(c, w, i, Owner);
    if RetirementDue(c, w, i, Owner) {
      var node := w.rows[PathOf(i)].node.value;
      assert node.(status := Retiring, retirementChildren := ChildCount(c, PathOf(i)))
        == NodeRow(node.instance, Some(i), Retiring, ChildCount(c, PathOf(i)));
    }
  }

  /** The same is checked once more before the instance may terminate itself. */
  lemma ClearsExactly(c: Config, w: World, i: Inst)
    ensures Next(c, w, Outside(Reconfirm(i))) ==
      if RetirementDue(c, w, i, Retiring) then Some(w.(cleared := w.cleared + {i})) else None
  {
    MayIsDue(c, w, i, Retiring);
  }

  // ----- Acceptance, proof of the launches, intents and retries -----

  predicate AcceptanceDue(c: Config, w: World, e: Edge) {
    var q := EdgePath(e);
    && AllClear(c, w) && Unstopped(w, PathOf(e.parent)) && Unstopped(w, q)
    && Alive(w, e.parent) && NodeIs(w, e.parent, Owner) && e.index < ChildCount(c, PathOf(e.parent))
    && w.rows[PathOf(e.parent)].propagation.Some?
    && q in w.rows && w.rows[q].submission.Some? && w.rows[q].node.Some?
    && var s, node := w.rows[q].submission.value, w.rows[q].node.value;
    && s.token == e && s.settled && s.instance == Some(node.instance)
    && OfEdge(node.instance, e) && node.instance in w.ec2 && node.owner.None?
    && ReadyNow(w, q, node.instance)
  }

  /** A child becomes an owner only by its parent's acceptance, and exactly then. */
  lemma AcceptsExactly(c: Config, w: World, e: Edge)
    ensures Next(c, w, Acts(Accept(e))).Some? <==> AcceptanceDue(c, w, e)
    ensures AcceptanceDue(c, w, e) ==>
      var q := EdgePath(e); var r := w.rows[q]; var x := r.node.value.instance;
      Next(c, w, Acts(Accept(e))) == Some(w.(rows :=
        w.rows[q := r.(node := Some(NodeRow(x, Some(x), Owner, r.node.value.retirementChildren)))]))
  {
    var q := EdgePath(e);
    if q in w.rows && w.rows[q].node.Some? {
      var x := w.rows[q].node.value.instance;
      if x.Child? && x.parent == e.parent {
        assert PathOf(x)[|q| - 1] == x.index && q[|q| - 1] == e.index;
        assert PathOf(x) == q <==> x.index == e.index;
      }
    }
  }

  predicate ProofDue(c: Config, w: World, i: Inst, children: seq<Inst>) {
    && AllClear(c, w) && Unstopped(w, PathOf(i)) && Alive(w, i) && NodeIs(w, i, Owner)
    && w.rows[PathOf(i)].propagation.None? && |children| == ChildCount(c, PathOf(i)) > 0
    && forall k | 0 <= k < |children| :: LaunchSettled(w, Edge(i, k), children[k])
  }

  lemma ProvesExactly(c: Config, w: World, i: Inst, children: seq<Inst>)
    ensures Next(c, w, Acts(PublishPropagation(i, children))) ==
      if ProofDue(c, w, i, children)
      then Some(w.(rows := w.rows[PathOf(i) :=
             w.rows[PathOf(i)].(propagation := Some(Receipt(i, children, w.now)))]))
      else None
  {
    assert (forall k | 0 <= k < |children| :: LaunchSettled(w, Edge(i, k), children[k]))
      <==> (forall k | 0 <= k < |children| :: LaunchEvidence(w, Edge(i, k), children[k])) by {
      forall k | 0 <= k < |children|
        ensures LaunchSettled(w, Edge(i, k), children[k]) <==> LaunchEvidence(w, Edge(i, k), children[k])
      {
      }
    }
  }

  /** In single mode a generation is added only once the grandparent has terminated. */
  predicate MayLaunch(c: Config, w: World, i: Inst) {
    c.binary || |PathOf(i)| <= 1 ||
      (i.Child? && i.parent.Child?
       && PathOf(i.parent) in w.rows && w.rows[PathOf(i.parent)].state.Some?
       && w.rows[PathOf(i.parent)].state.value.instance == i.parent
       && RetiredAndGone(c, w, i.parent.parent))
  }

  predicate LauncherReady(c: Config, w: World, e: Edge) {
    && CycleUnderWay(c, w) && Alive(w, e.parent) && NodeIs(w, e.parent, Owner) && MayLaunch(c, w, e.parent)
    && (e in w.launches ==> w.launches[e].thread == Resting)
  }

  predicate IntentDue(c: Config, w: World, e: Edge) {
    && LauncherReady(c, w, e) && e.index < ChildCount(c, PathOf(e.parent))
    && (EdgePath(e) in w.rows ==> w.rows[EdgePath(e)].submission.None?)
  }

  predicate RetryDue(c: Config, w: World, e: Edge) {
    && LauncherReady(c, w, e)
    && EdgePath(e) in w.rows && w.rows[EdgePath(e)].submission.Some?
    && var s := w.rows[EdgePath(e)].submission.value; s.token == e && s.rejected && s.instance.None?
  }

  lemma GrandparentGone(c: Config, w: World, x: Inst)
    ensures AncestorEnded(c, w, x) <==> RetiredAndGone(c, w, x)
  {
    if AncestorEnded(c, w, x) {
      assert w.rows[PathOf(x)].node.value == NodeRow(x, Some(x), Retiring, ChildCount(c, PathOf(x)));
    }
  }

  lemma ReadyIsMay(c: Config, w: World, i: Inst)
    ensures LaunchReady(c, w, i) <==> MayLaunch(c, w, i)
  {
    if i.Child? && i.parent.Child? { GrandparentGone(c, w, i.parent.parent); }
  }

  lemma IntendsExactly(c: Config, w: World, e: Edge)
    ensures Next(c, w, Launching(Intend(e))).Some? <==> IntentDue(c, w, e)
    ensures IntentDue(c, w, e) ==>
      var w1 := Next(c, w, Launching(Intend(e))).value;
      && RowsAt(w1, EdgePath(e)).submission == Some(Submission(e, false, false, None))
      && LaunchAt(w1, e).thread == Permit && LaunchAt(w1, e).calls == LaunchAt(w, e).calls
  {
    ReadyIsMay(c, w, e.parent);
  }

  lemma RetriesExactly(c: Config, w: World, e: Edge)
    ensures Next(c, w, Launching(Retry(e))).Some? <==> RetryDue(c, w, e)
    ensures RetryDue(c, w, e) ==>
      var w1 := Next(c, w, Launching(Retry(e))).value;
      && !RowsAt(w1, EdgePath(e)).submission.value.rejected
      && LaunchAt(w1, e).thread == Permit && LaunchAt(w1, e).calls == LaunchAt(w, e).calls
  {
    ReadyIsMay(c, w, e.parent);
  }

  /** Receipts and stops are also written while a cleanup waits for launches to settle. */
  predicate BooksOpen(c: Config, w: World) {
    && w.request.id == c.cycle && w.request.pin == Some(c.pin)
    && w.request.cleanupStatus in {Idle, Done, Quiescing}
  }

  /** An unsettled submission's instance, looked up by its token or already named. */
  predicate FindDue(w: World, e: Edge, x: Inst) {
    && Alive(w, e.parent) && (e in w.launches ==> w.launches[e].thread == Resting)
    && EdgePath(e) in w.rows && w.rows[EdgePath(e)].submission.Some?
    && w.rows[EdgePath(e)].submission.value.token == e && !w.rows[EdgePath(e)].submission.value.settled
    && x.Child? && x.parent == e.parent && x.index == e.index && x in w.ec2
  }

  lemma FindsExactly(c: Config, w: World, e: Edge, x: Inst)
    ensures Next(c, w, Launching(FindByToken(e, x))).Some? <==> FindDue(w, e, x)
    ensures FindDue(w, e, x) ==>
      var w1 := Next(c, w, Launching(FindByToken(e, x))).value;
      LaunchAt(w1, e) == LaunchAt(w, e).(thread := Found(x)) && w1.rows == w.rows && w1.request == w.request
  {
  }

  lemma RecordsExactly(c: Config, w: World, e: Edge)
    ensures Next(c, w, Launching(RecordResource(e))).Some? <==> LaunchAt(w, e).thread.Found? && BooksOpen(c, w)
    ensures LaunchAt(w, e).thread.Found? && BooksOpen(c, w) ==>
      var w1, x := Next(c, w, Launching(RecordResource(e))).value, LaunchAt(w, e).thread.inst;
      && RowsAt(w1, EdgePath(e)) ==
           RowsAt(w, EdgePath(e)).(resources := RowsAt(w, EdgePath(e)).resources[x := false])
      && LaunchAt(w1, e) == LaunchAt(w, e).(thread := Inventoried(x)) && w1.request == w.request
  {
  }

  /** The submission is e's own, and names no other instance. */
  predicate SettlementDue(c: Config, w: World, e: Edge) {
    && LaunchAt(w, e).thread.Inventoried? && BooksOpen(c, w)
    && EdgePath(e) in w.rows && w.rows[EdgePath(e)].submission.Some?
    && var s := w.rows[EdgePath(e)].submission.value;
    && s.token == e && (s.instance.None? || s.instance == Some(LaunchAt(w, e).thread.inst))
  }

  lemma SettlesExactly(c: Config, w: World, e: Edge)
    ensures Next(c, w, Launching(Settle(e))).Some? <==> SettlementDue(c, w, e)
    ensures SettlementDue(c, w, e) ==>
      var w1, s := Next(c, w, Launching(Settle(e))).value, RowsAt(w, EdgePath(e)).submission.value;
      && RowsAt(w1, EdgePath(e)).submission
           == Some(Submission(e, true, s.rejected, Some(LaunchAt(w, e).thread.inst)))
      && LaunchAt(w1, e) == LaunchAt(w, e).(thread := Resting)
  {
  }

  predicate RejectionDue(c: Config, w: World, e: Edge) {
    && LaunchAt(w, e).thread == Rejecting && BooksOpen(c, w)
    && EdgePath(e) in w.rows && w.rows[EdgePath(e)].submission.Some?
    && w.rows[EdgePath(e)].submission.value.token == e && w.rows[EdgePath(e)].submission.value.instance.None?
  }

  lemma RejectsExactly(c: Config, w: World, e: Edge, answered: bool)
    ensures Next(c, w, Launching(RecordThrottle(e, answered))).Some? <==> RejectionDue(c, w, e)
    ensures RejectionDue(c, w, e) ==>
      var w1, s := Next(c, w, Launching(RecordThrottle(e, answered))).value, RowsAt(w, EdgePath(e)).submission.value;
      && RowsAt(w1, EdgePath(e)).submission == Some(s.(rejected := true))
      && LaunchAt(w1, e).thread == if answered then Resting else Rejecting
  {
  }

  /** A stop is for the node itself or one of its children, and can be written even
      while a cleanup quiesces. */
  lemma StopsExactly(c: Config, w: World, i: Inst, p: Path)
    ensures Next(c, w, Acts(StopNode(i, p))).Some? <==>
      Alive(w, i) && BooksOpen(c, w) && (p == PathOf(i) || ChildOf(c, p, PathOf(i)))
    ensures Next(c, w, Acts(StopNode(i, p))).Some? ==>
      RowsAt(Next(c, w, Acts(StopNode(i, p))).value, p) == RowsAt(w, p).(stop := true)
  {
  }

  /** Readiness is stamped with the time it is written; another instance's row or one
      with an error is left alone. */
  lemma PublishesExactly(c: Config, w: World, i: Inst)
    ensures Next(c, w, Acts(PublishReadiness(i))).Some? <==>
      Alive(w, i) && CycleUnderWay(c, w)
      && (PathOf(i) in w.rows && w.rows[PathOf(i)].state.Some? ==>
            w.rows[PathOf(i)].state.value.instance == i && !w.rows[PathOf(i)].state.value.error)
    ensures Next(c, w, Acts(PublishReadiness(i))).Some? ==>
      RowsAt(Next(c, w, Acts(PublishReadiness(i))).value, PathOf(i)).state == Some(StateRow(i, w.now, false))
  {
  }

  /** A node claims its own row once, and is on record from then on; the root is its
      own owner, everybody else a candidate. */
  lemma InitializesExactly(c: Config, w: World, i: Inst)
    ensures var p := PathOf(i); var r := RowsAt(w, p);
      Next(c, w, Acts(Initialize(i))) ==
        if Alive(w, i) && CycleUnderWay(c, w) && (p in w.rows ==> w.rows[p].node.None?)
        then Some(w.(rows := w.rows[p := r.(
               node := Some(if p == Root then NodeRow(i, Some(i), Owner, 0) else NodeRow(i, None, Candidate, 0)),
               resources := r.resources[i := false])]))
        else None
  {
  }

  /** An error is marked on a row that was published, and stays with its readiness. */
  lemma MarksErrorExactly(c: Config, w: World, p: Path)
    ensures Next(c, w, Acts(MarkError(p))) ==
      if p in w.rows && w.rows[p].state.Some?
      then Some(w.(rows := w.rows[p := w.rows[p].(state := Some(
             StateRow(w.rows[p].state.value.instance, w.rows[p].state.value.readyAt, true)))]))
      else None
  {
  }

  lemma LeavesExactly(c: Config, w: World, i: Inst)
    ensures var p := PathOf(i);
      Next(c, w, Acts(MarkLeaf(i))) ==
        if Alive(w, i) && CycleUnderWay(c, w) && ChildCount(c, p) == 0 && (NodeIs(w, i, Owner) || NodeIs(w, i, Leaf))
        then Some(w.(rows := w.rows[p := w.rows[p].(node := Some(w.rows[p].node.value.(status := Leaf)))]))
        else None
  {
  }

  /** An instance ends itself only after its retirement was checked the second time. */
  lemma EndsItselfExactly(c: Config, w: World, i: Inst)
    ensures Next(c, w, Outside(TerminateSelf(i))) ==
      if i in w.cleared && Alive(w, i) then Some(w.(ec2 := w.ec2[i := ShuttingDown])) else None
  {
  }

  /** A parent seen terminated gets its receipt at its own record. */
  lemma NotesParentExactly(c: Config, w: World, i: Inst)
    ensures Next(c, w, Acts(ConfirmParent(i))).Some? <==>
      && i.Child? && Alive(w, i) && BooksOpen(c, w) && RetiredAndGone(c, w, i.parent)
      && i.parent in RowsAt(w, PathOf(i.parent)).resources
    ensures i.Child? && Next(c, w, Acts(ConfirmParent(i))).Some? ==>
      var p := PathOf(i.parent);
      Next(c, w, Acts(ConfirmParent(i))).value ==
        w.(rows := w.rows[p := RowsAt(w, p).(resources := RowsAt(w, p).resources[i.parent := true])])
  {
    if i.Child? { GrandparentGone(c, w, i.parent); }
  }

  /** Every other lifecycle write that holds reaches the record, and only the record. */
  lemma LifecycleWritesApply(c: Config, w: World, wr: Write)
    requires !wr.Reset? && !wr.MarkInventory? && LawfulWrite(w.request, wr) && Apply(w.request, wr).Some?
    ensures Next(c, w, Outside(WriteRequest(wr))) == Some(w.(request := Apply(w.request, wr).value))
  {
  }

  // ----- Nothing else does these things -----

  /** A step that turns a node RETIRING is its own retirement transaction, due when it
      commits. */
  lemma RetirementIsDue(c: Config, w: World, a: Action, w1: World, p: Path)
    requires Next(c, w, a) == Some(w1) && !StaysUnretired(RowsAt(w, p), RowsAt(w1, p))
    ensures a.Acts? && a.agent.Authorize? && PathOf(a.agent.i) == p && RetirementDue(c, w, a.agent.i, Owner)
  {
    match a
    case Launching(step) => LaunchIsCalm(c, w, step, w1);
    case Cleaning(step) => CleanupIsFenced(c, w, step, w1, p);
    case Outside(step) => OutsideKeepsRows(c, w, step, w1);
    case Acts(step) =>
      OnlyAuthorizeRetires(c, w, step, w1, p);
      RetiresExactly(c, w, step.i);
  }

  lemma OutsideKeepsRows(c: Config, w: World, a: OutsideStep, w1: World)
    requires NextOutside(c, w, a) == Some(w1)
    ensures w1.rows == w.rows
  {
  }

  lemma OnlyAuthorizeRetires(c: Config, w: World, a: AgentStep, w1: World, p: Path)
    requires NextAgent(c, w, a) == Some(w1) && !StaysUnretired(RowsAt(w, p), RowsAt(w1, p))
    ensures a.Authorize? && PathOf(a.i) == p
  {
    AgentStepGrows(c, w, a, w1);
    assert p != WrittenPath(a) ==> RowsAt(w1, p) == RowsAt(w, p);
    if !a.Authorize? { OthersStayUnretired(c, w, a, w1); }
  }

  lemma OthersStayUnretired(c: Config, w: World, a: AgentStep, w1: World)
    requires NextAgent(c, w, a) == Some(w1) && !a.Authorize?
    ensures StaysUnretired(RowsAt(w, WrittenPath(a)), RowsAt(w1, WrittenPath(a)))
  {
  }
}
