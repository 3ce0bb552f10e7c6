/** No orphan across a reset: when cleanup opens the next cycle, every instance any
    agent of this one ever launched has terminated, and none can appear later. */
module FamilyCleanup {
  import opened Wrappers
  import opened Paths
  import opened Lineage
  import opened Records
  import opened Lifecycle
  import opened Family
  import opened FamilyGrowth
  import opened FamilyLaunch

  /** No agent may call RunInstances, and no call is undecided. */
  predicate EdgeQuiet(l: Launch) {
    l.thread != Permit && forall n: nat | n < l.calls :: n in l.outcomes
  }

  ghost predicate Quiet(c: Config, w: World) {
    Closed(c, w) && forall e :: EdgeQuiet(LaunchAt(w, e))
  }

  /** Every instance launched by an agent has terminated. */
  predicate AllGone(w: World) {
    forall x | x in w.ec2 && x.Child? :: Ended(w, x)
  }

  ghost predicate Finished(c: Config, w: World) {
    Quiet(c, w) && AllGone(w)
  }

  predicate AllEnded(w: World, xs: set<Inst>) {
    forall x | x in xs :: Ended(w, x)
  }

  predicate Covers(w: World, ids: set<Inst>) {
    AllGone(w) || forall x | x in w.ec2 && x.Child? :: x in ids
  }

  /** What each delivery knows: after its scan, launching is over and the inventory
      misses no instance; once it has verified, all of them are gone. */
  ghost predicate WorkerInv(c: Config, w: World, n: nat) {
    match WorkerAt(w, n)
    case Off => true
    case Guarded(_, _) => true
    case Scanned(ids, confirmed, _) => Quiet(c, w) && AllEnded(w, confirmed) && Covers(w, ids)
    case Marked(ids, confirmed, gone) =>
      Quiet(c, w) && AllEnded(w, confirmed) && AllEnded(w, gone) && Covers(w, ids)
    case Verified => Finished(c, w)
    case Completing(_) => Finished(c, w)
  }

  /** A termination receipt is only ever written for a terminated instance. */
  predicate ConfirmInv(w: World, p: Path) {
    forall x | x in RowsAt(w, p).resources && RowsAt(w, p).resources[x] :: Ended(w, x)
  }

  ghost predicate CleanupInv(c: Config, w: World) {
    && (w.deleting || w.request.id > c.cycle ==> Finished(c, w))
    && (forall n :: WorkerInv(c, w, n))
    && (forall p :: ConfirmInv(w, p))
  }

  // ----- Quiet is final -----

  ghost predicate QuietStays(c: Config, w: World, w1: World) {
    Quiet(c, w) ==> Quiet(c, w1) && w1.ec2.Keys == w.ec2.Keys
  }

  lemma QuietRefuses(c: Config, w: World, e: Edge, n: nat, throttled: bool)
    requires EdgeQuiet(LaunchAt(w, e))
    ensures DoMake(w, e, n).None? && DoRefuse(w, e, n, throttled).None? && DoCall(w, e).None?
  {
  }

  lemma ClosedRefuses(c: Config, w: World, e: Edge)
    requires Closed(c, w)
    ensures DoIntend(c, w, e).None? && DoRetry(c, w, e).None?
  {
  }

  lemma QuietReceipt(c: Config, w: World, a: LaunchStep, w1: World)
    requires NextLaunch(c, w, a) == Some(w1) && ReceiptStep(a) && !a.Retry?
    ensures LaunchAt(w1, a.e).calls == LaunchAt(w, a.e).calls && LaunchAt(w1, a.e).thread != Permit
    ensures LaunchAt(w1, a.e).outcomes == LaunchAt(w, a.e).outcomes
  {
  }

  lemma QuietThread(c: Config, w: World, a: LaunchStep, w1: World)
    requires NextLaunch(c, w, a) == Some(w1) && (a.HearInstance? || a.HearThrottle? || a.Lose? || a.FindByToken?)
    ensures LaunchAt(w1, a.e).calls == LaunchAt(w, a.e).calls && LaunchAt(w1, a.e).thread != Permit
    ensures LaunchAt(w1, a.e).outcomes == LaunchAt(w, a.e).outcomes && w1.ec2 == w.ec2
  {
  }

  lemma QuietEdge(c: Config, w: World, a: LaunchStep, w1: World)
    requires NextLaunch(c, w, a) == Some(w1) && Quiet(c, w)
    ensures EdgeQuiet(LaunchAt(w1, a.e)) && w1.ec2 == w.ec2
  {
    assert EdgeQuiet(LaunchAt(w, a.e));
    ClosedRefuses(c, w, a.e);
    QuietRefuses(c, w, a.e, if a.Make? || a.Refuse? then a.call else 0, a.Refuse? && a.throttled);
    if ReceiptStep(a) {
      QuietReceipt(c, w, a, w1);
      ReceiptStepGrows(c, w, a, w1);
    } else {
      QuietThread(c, w, a, w1);
    }
  }

  lemma LaunchKeepsQuiet(c: Config, w: World, a: LaunchStep, w1: World)
    requires NextLaunch(c, w, a) == Some(w1) && (a.Intend? ==> EdgePath(a.e) !in w.claims)
    ensures QuietStays(c, w, w1)
  {
    if Quiet(c, w) {
      LaunchStepGrows(c, w, a, w1);
      QuietEdge(c, w, a, w1);
      assert !a.Intend?;
      OtherThreadsStay(c, w, a, w1);
      forall e ensures EdgeQuiet(LaunchAt(w1, e)) {
        assert EdgeQuiet(LaunchAt(w, e));
      }
    }
  }

  lemma OtherThreadsStay(c: Config, w: World, a: LaunchStep, w1: World)
    requires NextLaunch(c, w, a) == Some(w1) && !a.Intend?
    ensures forall e | e != a.e :: LaunchAt(w1, e) == LaunchAt(w, e)
  {
    if ReceiptStep(a) {
      ReceiptStepGrows(c, w, a, w1);
    } else {
      ThreadStepFrame(c, w, a, w1);
    }
  }

  lemma StepKeepsQuiet(c: Config, w: World, a: Action, w1: World)
    requires LaunchesSafe(c, w) && Next(c, w, a) == Some(w1)
    ensures QuietStays(c, w, w1)
  {
    StepKeepsLaunchesSafe(c, w, a, w1);
    match a
    case Launching(step) => LaunchKeepsQuiet(c, w, step, w1);
    case Acts(step) =>
      AgentStepKeepsLaunches(c, w, step, w1);
      KeptLaunchesStayQuiet(c, w, w1);
    case Cleaning(step) =>
      CleanupStepKeepsLaunches(c, w, step, w1);
      KeptLaunchesStayQuiet(c, w, w1);
    case Outside(step) =>
      OutsideStepKeepsLaunches(c, w, step, w1);
      KeptLaunchesStayQuiet(c, w, w1);
  }

  lemma KeptLaunchesStayQuiet(c: Config, w: World, w1: World)
    requires LaunchesKept(w, w1) && Grows(w, w1)
    ensures QuietStays(c, w, w1)
  {
    if Quiet(c, w) {
      StaysClosed(c, w, w1);
      forall e ensures EdgeQuiet(LaunchAt(w1, e)) {
        assert EdgeQuiet(LaunchAt(w, e));
      }
    }
  }

  // ----- What a step keeps of the other facts -----

  lemma FinishedStays(c: Config, w: World, w1: World)
    requires Grows(w, w1) && QuietStays(c, w, w1) && Finished(c, w)
    ensures Finished(c, w1)
  {
    forall x | x in w1.ec2 && x.Child? ensures Ended(w1, x) {
      assert Ended(w, x);
    }
  }

  lemma WorkerStays(c: Config, w: World, w1: World, n: nat)
    requires WorkerInv(c, w, n) && Grows(w, w1) && QuietStays(c, w, w1) && WorkerAt(w1, n) == WorkerAt(w, n)
    ensures WorkerInv(c, w1, n)
  {
    if Finished(c, w) { FinishedStays(c, w, w1); }
  }

  // ----- The scan -----

  /** A claimed path whose submission is settled made its instance with its last
      call: nothing is in flight there and the instance is on record. */
  lemma SettledEdge(c: Config, w: World, e: Edge)
    requires LaunchesSafe(c, w) && !w.deleting && AllSettled(w) && EdgeClaimed(w, e)
    ensures EdgeQuiet(LaunchAt(w, e))
    ensures forall n: nat | MadeBy(e, n) in w.ec2 :: MadeBy(e, n) in Recorded(w)
  {
    var q := EdgePath(e);
    assert ClaimInv(c, w, q) && LaunchInv(w, e);
    assert q in w.rows && w.rows[q] == RowsAt(w, q);
    var x := w.rows[q].submission.value.instance.value;
    assert x == MadeBy(e, x.call);
    assert !AllThrottled(LaunchAt(w, e));
    assert forall n: nat | MadeBy(e, n) in w.ec2 :: n == x.call;
  }

  lemma ScanCovers(c: Config, w: World)
    requires LaunchesSafe(c, w) && CleanupInv(c, w) && AllSettled(w) && Closed(c, w)
    ensures Quiet(c, w) && Covers(w, Recorded(w)) && AllEnded(w, Confirmed(w))
  {
    if !w.deleting {
      forall e ensures EdgeQuiet(LaunchAt(w, e)) {
        assert LaunchInv(w, e);
        if EdgeClaimed(w, e) { SettledEdge(c, w, e); }
      }
      forall x | x in w.ec2 && x.Child? ensures x in Recorded(w) {
        var e := Edge(x.parent, x.index);
        assert LaunchInv(w, e) && x == MadeBy(e, x.call);
        SettledEdge(c, w, e);
      }
    }
    forall x | x in Confirmed(w) ensures Ended(w, x) {
      var p :| p in w.rows && x in w.rows[p].resources && w.rows[p].resources[x];
      assert ConfirmInv(w, p);
    }
  }

  // ----- Each cleanup step, for its own delivery -----

  lemma ScanKeepsWorker(c: Config, w: World, n: nat, w1: World)
    requires LaunchesSafe(c, w) && CleanupInv(c, w) && DoScan(w, n) == Some(w1)
    ensures WorkerInv(c, w1, n)
  {
    assert WorkerAt(w, n) != Off;
    ScanCovers(c, w);
    assert forall e :: LaunchAt(w1, e) == LaunchAt(w, e);
    assert AllGone(w) ==> AllGone(w1);
  }

  lemma MarkKeepsWorker(c: Config, w: World, n: nat, deleting: bool, w1: World)
    requires WorkerInv(c, w, n) && DoMark(c, w, n, deleting) == Some(w1) && Grows(w, w1) && QuietStays(c, w, w1)
    ensures WorkerInv(c, w1, n)
  {
  }

  lemma SeeKeepsWorker(c: Config, w: World, n: nat, i: Inst, missing: bool, w1: World)
    requires WorkerInv(c, w, n) && DoSee(w, n, i, missing) == Some(w1) && QuietStays(c, w, w1)
    ensures WorkerInv(c, w1, n)
  {
  }

  lemma VerifyKeepsWorker(c: Config, w: World, n: nat, w1: World)
    requires WorkerInv(c, w, n) && DoVerify(w, n) == Some(w1) && QuietStays(c, w, w1)
    ensures WorkerInv(c, w1, n)
  {
  }

  lemma CleanupKeepsWorker(c: Config, w: World, a: CleanupStep, w1: World)
    requires LaunchesSafe(c, w) && CleanupInv(c, w) && NextCleanup(c, w, a) == Some(w1)
    requires Grows(w, w1) && QuietStays(c, w, w1)
    ensures WorkerInv(c, w1, a.n)
  {
    assert WorkerInv(c, w, a.n);
    match a
    case Guard(n) =>
    case ScanTable(n) => ScanKeepsWorker(c, w, n, w1);
    case Mark(n, deleting) => MarkKeepsWorker(c, w, n, deleting, w1);
    case SeeGone(n, i) => SeeKeepsWorker(c, w, n, i, false, w1);
    case SeeMissing(n, i) => SeeKeepsWorker(c, w, n, i, true, w1);
    case Remove(n, i) => WorkerStays(c, w, w1, n);
    case Verify(n) => VerifyKeepsWorker(c, w, n, w1);
    case TakeSnapshot(n) => FinishedStays(c, w, w1);
    case DeleteRows(n, p, keep) => WorkerStays(c, w, w1, n);
    case Commit(n, digest) =>
    case Abandon(n) =>
  }

  lemma OtherWorkersStay(c: Config, w: World, a: CleanupStep, w1: World, n: nat)
    requires NextCleanup(c, w, a) == Some(w1) && n != a.n
    ensures WorkerAt(w1, n) == WorkerAt(w, n)
  {
  }

  /** Rows may be deleted and the cycle left only by a delivery that has verified. */
  lemma CleanupStaysFinished(c: Config, w: World, a: CleanupStep, w1: World)
    requires CleanupInv(c, w) && ClosedInv(c, w) && NextCleanup(c, w, a) == Some(w1)
    requires Grows(w, w1) && QuietStays(c, w, w1) && (w1.deleting || w1.request.id > c.cycle)
    ensures Finished(c, w1)
  {
    if a.DeleteRows? || a.Commit? {
      assert WorkerInv(c, w, a.n);
    } else {
      CleanupKeepsCycle(c, w, a, w1);
    }
    FinishedStays(c, w, w1);
  }

  lemma CleanupKeepsCycle(c: Config, w: World, a: CleanupStep, w1: World)
    requires NextCleanup(c, w, a) == Some(w1) && !a.DeleteRows? && !a.Commit?
    ensures w1.deleting == w.deleting && w1.request.id == w.request.id
  {
  }

  /** Only a reset moves to another cycle. */
  lemma WritersKeepCycle(w: World, wr: Write, w1: World)
    requires DoWrite(w, wr) == Some(w1)
    ensures w1.request.id == w.request.id
  {
  }

  lemma OutsideKeepsCycle(c: Config, w: World, a: OutsideStep, w1: World)
    requires NextOutside(c, w, a) == Some(w1)
    ensures w1.request.id == w.request.id
  {
    if a.WriteRequest? { WritersKeepCycle(w, a.wr, w1); }
  }

  // ----- Termination receipts -----

  lemma ReceiptsGrow(w: World, w1: World, p: Path)
    requires ConfirmInv(w, p) && Grows(w, w1)
    requires forall x | x in RowsAt(w1, p).resources && RowsAt(w1, p).resources[x] ::
               (x in RowsAt(w, p).resources && RowsAt(w, p).resources[x]) || Ended(w, x)
    ensures ConfirmInv(w1, p)
  {
  }

  lemma IntendKeepsReceipts(c: Config, w: World, e: Edge, w1: World, p: Path)
    requires DoIntend(c, w, e) == Some(w1) && ConfirmInv(w, p) && Grows(w, w1)
    ensures ConfirmInv(w1, p)
  {
    ReceiptsGrow(w, w1, p);
  }

  lemma ReceiptStepKeepsReceipts(w: World, w1: World, e: Edge, p: Path)
    requires ReceiptFrame(w, w1, e) && ConfirmInv(w, p) && Grows(w, w1)
    ensures ConfirmInv(w1, p)
  {
    ReceiptsGrow(w, w1, p);
  }

  lemma SameRowsKeepReceipts(w: World, w1: World, p: Path)
    requires w1.rows == w.rows && ConfirmInv(w, p) && Grows(w, w1)
    ensures ConfirmInv(w1, p)
  {
    ReceiptsGrow(w, w1, p);
  }

  lemma LaunchKeepsReceipts(c: Config, w: World, a: LaunchStep, w1: World, p: Path)
    requires NextLaunch(c, w, a) == Some(w1) && ConfirmInv(w, p) && Grows(w, w1)
    ensures ConfirmInv(w1, p)
  {
    if a.Intend? {
      IntendKeepsReceipts(c, w, a.e, w1, p);
    } else if ReceiptStep(a) {
      ReceiptStepGrows(c, w, a, w1);
      ReceiptStepKeepsReceipts(w, w1, a.e, p);
    } else {
      ThreadStepFrame(c, w, a, w1);
      SameRowsKeepReceipts(w, w1, p);
    }
  }

  lemma AgentKeepsReceipts(c: Config, w: World, a: AgentStep, w1: World, p: Path)
    requires NextAgent(c, w, a) == Some(w1) && ConfirmInv(w, p) && Grows(w, w1)
    ensures ConfirmInv(w1, p)
  {
    AgentStepGrows(c, w, a, w1);
    WrittenKeepsReceipts(w, w1, WrittenPath(a), p);
  }

  lemma WrittenKeepsReceipts(w: World, w1: World, q: Path, p: Path)
    requires RowsWritten(w, w1, q) && ConfirmInv(w, p) && Grows(w, w1)
    ensures ConfirmInv(w1, p)
  {
    assert p != q ==> RowsAt(w1, p) == RowsAt(w, p);
    ReceiptsGrow(w, w1, p);
  }

  lemma CleanupKeepsReceipts(c: Config, w: World, a: CleanupStep, w1: World, p: Path)
    requires NextCleanup(c, w, a) == Some(w1) && ConfirmInv(w, p) && Grows(w, w1)
    ensures ConfirmInv(w1, p)
  {
    if !a.DeleteRows? {
      CleanupKeepsTable(c, w, a, w1);
    }
    ReceiptsGrow(w, w1, p);
  }

  lemma CleanupKeepsTable(c: Config, w: World, a: CleanupStep, w1: World)
    requires NextCleanup(c, w, a) == Some(w1) && !a.DeleteRows?
    ensures w1 == w.(request := w1.request, ec2 := w1.ec2, workers := w1.workers, removed := w1.removed)
  {
  }

  lemma StepKeepsReceipts(c: Config, w: World, a: Action, w1: World, p: Path)
    requires Next(c, w, a) == Some(w1) && ConfirmInv(w, p) && Grows(w, w1) && RequestInv(w.request)
    ensures ConfirmInv(w1, p)
  {
    match a
    case Launching(step) => LaunchKeepsReceipts(c, w, step, w1, p);
    case Acts(step) => AgentKeepsReceipts(c, w, step, w1, p);
    case Cleaning(step) => CleanupKeepsReceipts(c, w, step, w1, p);
    case Outside(step) =>
      OutsideStepGrows(c, w, step, w1);
      ReceiptsGrow(w, w1, p);
  }

  // ----- Every run -----

  lemma StepKeepsWorker(c: Config, w: World, a: Action, w1: World, n: nat)
    requires LaunchesSafe(c, w) && CleanupInv(c, w) && Next(c, w, a) == Some(w1)
    requires Grows(w, w1) && QuietStays(c, w, w1)
    ensures WorkerInv(c, w1, n)
  {
    assert WorkerInv(c, w, n);
    if a.Cleaning? && n == a.cleanup.n {
      CleanupKeepsWorker(c, w, a.cleanup, w1);
    } else {
      if a.Cleaning? {
        OtherWorkersStay(c, w, a.cleanup, w1, n);
      } else {
        StepIsNewIntent(c, w, a);
        StepGrows(c, w, a, w1);
      }
      WorkerStays(c, w, w1, n);
    }
  }

  lemma StepStaysFinished(c: Config, w: World, a: Action, w1: World)
    requires LaunchesSafe(c, w) && CleanupInv(c, w) && Next(c, w, a) == Some(w1)
    requires Grows(w, w1) && QuietStays(c, w, w1) && (w1.deleting || w1.request.id > c.cycle)
    ensures Finished(c, w1)
  {
    match a
    case Cleaning(step) => CleanupStaysFinished(c, w, step, w1);
    case Launching(step) =>
      StepIsNewIntent(c, w, a);
      LaunchStepGrows(c, w, step, w1);
      FinishedStays(c, w, w1);
    case Acts(step) =>
      AgentStepGrows(c, w, step, w1);
      FinishedStays(c, w, w1);
    case Outside(step) =>
      OutsideStepGrows(c, w, step, w1);
      OutsideKeepsCycle(c, w, step, w1);
      FinishedStays(c, w, w1);
  }

  lemma StepKeepsCleanup(c: Config, w: World, a: Action, w1: World)
    requires LaunchesSafe(c, w) && CleanupInv(c, w) && Next(c, w, a) == Some(w1)
    ensures LaunchesSafe(c, w1) && CleanupInv(c, w1) && QuietStays(c, w, w1) && Grows(w, w1)
  {
    StepKeepsLaunchesSafe(c, w, a, w1);
    StepKeepsQuiet(c, w, a, w1);
    if w1.deleting || w1.request.id > c.cycle { StepStaysFinished(c, w, a, w1); }
    forall n ensures WorkerInv(c, w1, n) {
      StepKeepsWorker(c, w, a, w1, n);
    }
    forall p ensures ConfirmInv(w1, p) {
      StepKeepsReceipts(c, w, a, w1, p);
    }
  }

  lemma {:induction false} EveryRunCleansUp(c: Config, w: World, actions: seq<Action>)
    requires Initial(c, w) && Run(c, w, actions).Some?
    ensures LaunchesSafe(c, Run(c, w, actions).value) && CleanupInv(c, Run(c, w, actions).value)
  {
    if actions == [] {
      InitialIsSafe(c, w);
      assert forall p :: RowsAt(w, p) == NoRows;
    } else {
      var before := Run(c, w, actions[..|actions| - 1]).value;
      EveryRunCleansUp(c, w, actions[..|actions| - 1]);
      StepKeepsCleanup(c, before, actions[|actions| - 1], Run(c, w, actions).value);
    }
  }

  // ----- No orphan across a reset -----

  /** Once cleanup has reset the cycle, or so much as deleted one row of it: every
      instance an agent launched in it has terminated, no agent holds permission to
      call RunInstances, and no call is undecided. */
  lemma NoOrphanAcrossReset(c: Config, w: World, actions: seq<Action>)
    requires Initial(c, w) && Run(c, w, actions).Some?
    requires var w1 := Run(c, w, actions).value; w1.request.id > c.cycle || w1.deleting
    ensures var w1 := Run(c, w, actions).value;
      && (forall x | x in w1.ec2 && x.Child? :: w1.ec2[x] == Gone)
      && (forall e :: EdgeQuiet(LaunchAt(w1, e)))
      && (w1.request.id == c.cycle ==> w1.request.cleanupRequested)
  {
    EveryRunCleansUp(c, w, actions);
  }

  /** From the moment cleanup is requested no launch intent is added, and after the
      reset no instance appears. */
  lemma {:induction false} NothingAfterCleanup(c: Config, w: World, actions: seq<Action>, k: nat)
    requires Initial(c, w) && k <= |actions| && Run(c, w, actions).Some?
    requires Run(c, w, actions[..k]).Some? && Closed(c, Run(c, w, actions[..k]).value)
    ensures var mid, end := Run(c, w, actions[..k]).value, Run(c, w, actions).value;
      && Closed(c, end) && end.claims == mid.claims
      && (mid.request.id > c.cycle ==> end.request.id > c.cycle && end.ec2.Keys == mid.ec2.Keys)
    decreases |actions|
  {
    if k == |actions| {
      assert actions[..k] == actions;
    } else {
      var before := actions[..|actions| - 1];
      assert before[..k] == actions[..k];
      NothingAfterCleanup(c, w, before, k);
      EveryRunCleansUp(c, w, before);
      ClosedStep(c, Run(c, w, before).value, actions[|actions| - 1], Run(c, w, actions).value);
    }
  }

  lemma ClosedStep(c: Config, w: World, a: Action, w1: World)
    requires LaunchesSafe(c, w) && CleanupInv(c, w) && Closed(c, w) && Next(c, w, a) == Some(w1)
    ensures Closed(c, w1) && w1.claims == w.claims
    ensures w.request.id > c.cycle ==> w1.request.id > c.cycle && w1.ec2.Keys == w.ec2.Keys
  {
    StepKeepsCleanup(c, w, a, w1);
    StaysClosed(c, w, w1);
    match a
    case Launching(step) => ClosedLaunch(c, w, step, w1);
    case Acts(step) => AgentStepGrows(c, w, step, w1);
    case Cleaning(step) => CleanupStepGrows(c, w, step, w1);
    case Outside(step) => OutsideStepGrows(c, w, step, w1);
  }

  lemma ClosedLaunch(c: Config, w: World, a: LaunchStep, w1: World)
    requires Closed(c, w) && NextLaunch(c, w, a) == Some(w1)
    ensures w1.claims == w.claims
  {
    ClosedRefuses(c, w, a.e);
    if ReceiptStep(a) {
      ReceiptStepGrows(c, w, a, w1);
    } else {
      ThreadStepFrame(c, w, a, w1);
    }
  }
}
