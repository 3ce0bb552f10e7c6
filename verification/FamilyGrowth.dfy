/** What no step of a family's run takes back, whatever the environment does. */
module FamilyGrowth {
  import opened Wrappers
  import opened Paths
  import opened Lineage
  import opened Records
  import opened Lifecycle
  import opened Family

  /** The rows under one path, until cleanup starts deleting: instances and owners
      stay, retiring and leaf rows are final, a receipt is never replaced, settled
      launch evidence stays exact, and no resource record disappears. */
  predicate RowsGrow(r: Rows, r1: Rows) {
    && (r.node.Some? ==>
          && r1.node.Some? && r1.node.value.instance == r.node.value.instance
          && (r.node.value.owner.Some? ==>
                && r1.node.value.owner == r.node.value.owner
                && (r.node.value.status in {Retiring, Leaf} ==> r1.node == r.node))
          && (r1.node.value.status == Candidate ==> r.node.value.status == Candidate))
    && (r.propagation.Some? ==> r1.propagation == r.propagation)
    && (r.submission.Some? ==>
          && r1.submission.Some? && r1.submission.value.token == r.submission.value.token
          && (r.submission.value.settled && r.submission.value.instance.Some? ==> r1.submission == r.submission))
    && r.resources.Keys <= r1.resources.Keys
  }

  ghost predicate Grows(w: World, w1: World) {
    && (w1.request == w.request || Succeeds(w.request, w1.request))
    && w.ec2.Keys <= w1.ec2.Keys
    && (forall x | Ended(w, x) :: Ended(w1, x))
    && (forall q | q in w.claims :: q in w1.claims && w1.claims[q] == w.claims[q])
    && w.failed <= w1.failed && w.removed <= w1.removed && (w.deleting ==> w1.deleting)
    && (!w1.deleting ==> forall p :: RowsGrow(RowsAt(w, p), RowsAt(w1, p)))
  }

  /** Steps that write one path's rows and otherwise touch at most launch threads. */
  lemma RowsStepGrows(w: World, w1: World, p: Path)
    requires w1 == w.(rows := w.rows[p := RowsAt(w1, p)], launches := w1.launches)
    requires RowsGrow(RowsAt(w, p), RowsAt(w1, p))
    ensures Grows(w, w1)
  {
    forall q ensures RowsGrow(RowsAt(w, q), RowsAt(w1, q)) {
      assert q != p ==> RowsAt(w1, q) == RowsAt(w, q);
    }
  }

  /** Steps that leave the rows alone, or delete some of them. */
  lemma PlainStepGrows(w: World, w1: World)
    requires w1.rows == w.rows || w1.deleting
    requires w1.request == w.request || Succeeds(w.request, w1.request)
    requires w.ec2.Keys <= w1.ec2.Keys && forall x | Ended(w, x) :: Ended(w1, x)
    requires w1.claims == w.claims && w.failed <= w1.failed && w.removed <= w1.removed
    requires w.deleting ==> w1.deleting
    ensures Grows(w, w1)
  {
    if w1.rows == w.rows {
      forall q ensures RowsGrow(RowsAt(w, q), RowsAt(w1, q)) {
        assert RowsAt(w1, q) == RowsAt(w, q);
      }
    }
  }

  lemma IntendGrows(c: Config, w: World, e: Edge, w1: World)
    requires DoIntend(c, w, e) == Some(w1) && EdgePath(e) !in w.claims
    ensures Grows(w, w1)
  {
    var q := EdgePath(e);
    var w0 := w.(claims := w1.claims);
    RowsStepGrows(w0, w1, q);
    forall p ensures RowsGrow(RowsAt(w, p), RowsAt(w1, p)) {
      assert RowsAt(w0, p) == RowsAt(w, p);
      assert p != q ==> RowsAt(w1, p) == RowsAt(w, p);
    }
  }

  predicate ReceiptStep(a: LaunchStep) {
    a.Retry? || a.RecordThrottle? || a.RecordResource? || a.Settle?
  }

  /** A receipt step writes its edge's thread and the rows of its path; an intent
      it finds there keeps its token. */
  predicate ReceiptFrame(w: World, w1: World, e: Edge) {
    && w1 == w.(rows := w.rows[EdgePath(e) := RowsAt(w1, EdgePath(e))],
                launches := w.launches[e := LaunchAt(w1, e)])
    && var s, s1 := RowsAt(w, EdgePath(e)).submission, RowsAt(w1, EdgePath(e)).submission;
      && (s1 == s || (s.Some? && s1.Some? && s.value.token == s1.value.token == e))
      && RowsAt(w1, EdgePath(e)).node == RowsAt(w, EdgePath(e)).node
      && NoNewReceipt(RowsAt(w, EdgePath(e)), RowsAt(w1, EdgePath(e)))
  }

  predicate NoNewReceipt(r: Rows, r1: Rows) {
    forall x | x in r1.resources && r1.resources[x] :: x in r.resources && r.resources[x]
  }

  lemma RetryGrows(c: Config, w: World, e: Edge, w1: World)
    requires DoRetry(c, w, e) == Some(w1)
    ensures Grows(w, w1) && ReceiptFrame(w, w1, e)
  {
    RowsStepGrows(w, w1, EdgePath(e));
  }

  lemma RecordThrottleGrows(c: Config, w: World, e: Edge, answered: bool, w1: World)
    requires DoRecordThrottle(c, w, e, answered) == Some(w1)
    ensures Grows(w, w1) && ReceiptFrame(w, w1, e)
  {
    assert !answered ==> w.launches[e := LaunchAt(w1, e)] == w.launches by {
      assert LaunchAt(w, e).thread == Rejecting;
    }
    RowsStepGrows(w, w1, EdgePath(e));
  }

  lemma RecordGrows(c: Config, w: World, e: Edge, w1: World)
    requires DoRecord(c, w, e) == Some(w1)
    ensures Grows(w, w1) && ReceiptFrame(w, w1, e)
  {
    RowsStepGrows(w, w1, EdgePath(e));
  }

  lemma SettleGrows(c: Config, w: World, e: Edge, w1: World)
    requires DoSettle(c, w, e) == Some(w1)
    ensures Grows(w, w1) && ReceiptFrame(w, w1, e)
  {
    RowsStepGrows(w, w1, EdgePath(e));
  }

  lemma ReceiptStepGrows(c: Config, w: World, a: LaunchStep, w1: World)
    requires ReceiptStep(a) && NextLaunch(c, w, a) == Some(w1)
    ensures Grows(w, w1) && ReceiptFrame(w, w1, a.e)
  {
    match a
    case Retry(e) => RetryGrows(c, w, e, w1);
    case RecordThrottle(e, answered) => RecordThrottleGrows(c, w, e, answered, w1);
    case RecordResource(e) => RecordGrows(c, w, e, w1);
    case Settle(e) => SettleGrows(c, w, e, w1);
  }

  ghost predicate ThreadFrame(w: World, w1: World, e: Edge) {
    && w1 == w.(launches := w.launches[e := LaunchAt(w1, e)], ec2 := w1.ec2)
    && (w1.ec2 == w.ec2 || exists n: nat :: MadeBy(e, n) !in w.ec2 && w1.ec2 == w.ec2[MadeBy(e, n) := Pending])
  }

  lemma ThreadStepFrame(c: Config, w: World, a: LaunchStep, w1: World)
    requires !a.Intend? && !ReceiptStep(a) && NextLaunch(c, w, a) == Some(w1)
    ensures ThreadFrame(w, w1, a.e)
  {
    if a.Make? {
      assert MadeBy(a.e, a.call) !in w.ec2 && w1.ec2 == w.ec2[MadeBy(a.e, a.call) := Pending];
    }
  }

  lemma ThreadStepGrows(w: World, w1: World, e: Edge)
    requires ThreadFrame(w, w1, e)
    ensures Grows(w, w1)
  {
    PlainStepGrows(w, w1);
  }

  lemma LaunchStepGrows(c: Config, w: World, a: LaunchStep, w1: World)
    requires NextLaunch(c, w, a) == Some(w1) && (a.Intend? ==> EdgePath(a.e) !in w.claims)
    ensures Grows(w, w1)
    ensures w1 == w.(rows := w1.rows, launches := w1.launches, claims := w1.claims, ec2 := w1.ec2)
  {
    if a.Intend? {
      IntendGrows(c, w, a.e, w1);
    } else if ReceiptStep(a) {
      ReceiptStepGrows(c, w, a, w1);
    } else {
      ThreadStepFrame(c, w, a, w1);
      ThreadStepGrows(w, w1, a.e);
    }
  }

  /** The path whose rows an agent step writes. */
  function WrittenPath(a: AgentStep): Path
    requires (a.ConfirmParent? ==> a.i.Child?)
  {
    if a.Accept? then EdgePath(a.e)
    else if a.ConfirmParent? then PathOf(a.i.parent)
    else if a.StopNode? || a.MarkError? then a.p
    else PathOf(a.i)
  }

  /** An agent step writes the rows of one path, and confirms only what has terminated. */
  predicate RowsWritten(w: World, w1: World, p: Path) {
    && w1 == w.(rows := w.rows[p := RowsAt(w1, p)])
    && forall x | x in RowsAt(w1, p).resources && RowsAt(w1, p).resources[x] ::
         (x in RowsAt(w, p).resources && RowsAt(w, p).resources[x]) || Ended(w, x)
  }

  lemma InitializeGrows(c: Config, w: World, i: Inst, w1: World)
    requires DoInitialize(c, w, i) == Some(w1)
    ensures Grows(w, w1) && RowsWritten(w, w1, PathOf(i))
  {
    RowsStepGrows(w, w1, PathOf(i));
  }

  lemma ReadinessGrows(c: Config, w: World, i: Inst, w1: World)
    requires DoReadiness(c, w, i) == Some(w1)
    ensures Grows(w, w1) && RowsWritten(w, w1, PathOf(i))
  {
    RowsStepGrows(w, w1, PathOf(i));
  }

  lemma PropagationGrows(c: Config, w: World, i: Inst, children: seq<Inst>, w1: World)
    requires DoPropagation(c, w, i, children) == Some(w1)
    ensures Grows(w, w1) && RowsWritten(w, w1, PathOf(i))
  {
    RowsStepGrows(w, w1, PathOf(i));
  }

  lemma AcceptGrows(c: Config, w: World, e: Edge, w1: World)
    requires DoAccept(c, w, e) == Some(w1)
    ensures Grows(w, w1) && RowsWritten(w, w1, EdgePath(e))
  {
    RowsStepGrows(w, w1, EdgePath(e));
  }

  lemma MarkLeafGrows(c: Config, w: World, i: Inst, w1: World)
    requires DoMarkLeaf(c, w, i) == Some(w1)
    ensures Grows(w, w1) && RowsWritten(w, w1, PathOf(i))
  {
    RowsStepGrows(w, w1, PathOf(i));
  }

  lemma AuthorizeGrows(c: Config, w: World, i: Inst, w1: World)
    requires DoAuthorize(c, w, i) == Some(w1)
    ensures Grows(w, w1) && RowsWritten(w, w1, PathOf(i))
  {
    RowsStepGrows(w, w1, PathOf(i));
  }

  lemma ConfirmParentGrows(c: Config, w: World, i: Inst, w1: World)
    requires DoConfirmParent(c, w, i) == Some(w1)
    ensures Grows(w, w1) && RowsWritten(w, w1, PathOf(i.parent))
  {
    RowsStepGrows(w, w1, PathOf(i.parent));
  }

  lemma StopGrows(c: Config, w: World, i: Inst, p: Path, w1: World)
    requires DoStop(c, w, i, p) == Some(w1)
    ensures Grows(w, w1) && RowsWritten(w, w1, p)
  {
    RowsStepGrows(w, w1, p);
  }

  lemma MarkErrorGrows(w: World, p: Path, w1: World)
    requires DoMarkError(w, p) == Some(w1)
    ensures Grows(w, w1) && RowsWritten(w, w1, p)
  {
    RowsStepGrows(w, w1, p);
  }

  lemma AgentStepGrows(c: Config, w: World, a: AgentStep, w1: World)
    requires NextAgent(c, w, a) == Some(w1)
    ensures Grows(w, w1) && RowsWritten(w, w1, WrittenPath(a))
  {
    match a
    case Initialize(i) => InitializeGrows(c, w, i, w1);
    case PublishReadiness(i) => ReadinessGrows(c, w, i, w1);
    case PublishPropagation(i, children) => PropagationGrows(c, w, i, children, w1);
    case Accept(e) => AcceptGrows(c, w, e, w1);
    case MarkLeaf(i) => MarkLeafGrows(c, w, i, w1);
    case Authorize(i) => AuthorizeGrows(c, w, i, w1);
    case ConfirmParent(i) => ConfirmParentGrows(c, w, i, w1);
    case StopNode(i, p) => StopGrows(c, w, i, p, w1);
    case MarkError(p) => MarkErrorGrows(w, p, w1);
  }

  lemma CleanupStepKeepsRequest(c: Config, w: World, a: CleanupStep, w1: World)
    requires NextCleanup(c, w, a) == Some(w1) && RequestInv(w.request)
    ensures RequestInv(w1.request) && (w1.request == w.request || Succeeds(w.request, w1.request))
  {
    if a.Mark? {
      var k := WorkerAt(w, a.n);
      WriteKeepsRequest(w.request, MarkInventory(c.cycle, k.expected, k.ids, a.deleting));
    } else if a.Commit? {
      WriteKeepsRequest(w.request, Reset(WorkerAt(w, a.n).read, a.digest));
    }
  }

  /** What a cleanup delivery may touch. */
  predicate CleanupFrame(w: World, w1: World) {
    w1 == w.(request := w1.request, rows := w1.rows, ec2 := w1.ec2, workers := w1.workers,
             removed := w1.removed, deleting := w1.deleting)
  }

  predicate CleanupEffect(w: World, w1: World) {
    && CleanupFrame(w, w1)
    && (w1.rows == w.rows || w1.deleting) && (w.deleting ==> w1.deleting) && w.removed <= w1.removed
    && (w1.ec2 == w.ec2 || exists i | i in w.ec2 && w.ec2[i] != Gone :: w1.ec2 == w.ec2[i := ShuttingDown])
  }

  lemma RemoveEffect(w: World, n: nat, i: Inst, w1: World)
    requires DoRemove(w, n, i) == Some(w1)
    ensures CleanupEffect(w, w1)
  {
    assert i in w.ec2 && w.ec2[i] != Gone && w1.ec2 == w.ec2[i := ShuttingDown];
  }

  lemma CleanupStepEffect(c: Config, w: World, a: CleanupStep, w1: World)
    requires NextCleanup(c, w, a) == Some(w1)
    ensures CleanupEffect(w, w1)
  {
    if a.Remove? { RemoveEffect(w, a.n, a.i, w1); }
  }

  lemma CleanupStepGrows(c: Config, w: World, a: CleanupStep, w1: World)
    requires NextCleanup(c, w, a) == Some(w1) && RequestInv(w.request)
    ensures Grows(w, w1) && RequestInv(w1.request)
    ensures CleanupFrame(w, w1)
  {
    CleanupStepKeepsRequest(c, w, a, w1);
    CleanupStepEffect(c, w, a, w1);
    PlainStepGrows(w, w1);
  }

  lemma OutsideStepGrows(c: Config, w: World, a: OutsideStep, w1: World)
    requires NextOutside(c, w, a) == Some(w1) && RequestInv(w.request)
    ensures Grows(w, w1) && RequestInv(w1.request)
    ensures w1 == w.(request := w1.request, hold := w1.hold, controlStop := w1.controlStop, now := w1.now,
                     controlCleanup := w1.controlCleanup, ec2 := w1.ec2, cleared := w1.cleared, failed := w1.failed)
  {
    if a.WriteRequest? { WriteKeepsRequest(w.request, a.wr); }
    PlainStepGrows(w, w1);
  }

  /** A launch intent goes to a path no intent was ever written for. */
  predicate NewIntent(w: World, a: Action) {
    a.Launching? && a.launch.Intend? ==> EdgePath(a.launch.e) !in w.claims
  }

  lemma StepGrows(c: Config, w: World, a: Action, w1: World)
    requires Next(c, w, a) == Some(w1) && RequestInv(w.request) && NewIntent(w, a)
    ensures Grows(w, w1) && RequestInv(w1.request)
    ensures !a.Cleaning? ==> w1.deleting == w.deleting && w1.removed == w.removed && w1.workers == w.workers
  {
    match a
    case Launching(step) => LaunchStepGrows(c, w, step, w1);
    case Acts(step) => AgentStepGrows(c, w, step, w1);
    case Cleaning(step) => CleanupStepGrows(c, w, step, w1);
    case Outside(step) => OutsideStepGrows(c, w, step, w1);
  }
}
