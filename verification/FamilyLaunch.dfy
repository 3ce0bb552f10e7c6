/** Launch at most once: crashes, lost responses, retries and restarts included, the
    RunInstances calls for a path number at most one beyond the explicit throttle
    rejections, so at most one of them ever creates an instance. */
module FamilyLaunch {
  import opened Wrappers
  import opened Paths
  import opened Lineage
  import opened Records
  import opened Lifecycle
  import opened Family
  import opened FamilyGrowth

  // ----- Once cleanup has been asked for, the cycle is never open again -----

  predicate Closed(c: Config, w: World) {
    w.request.id > c.cycle || (w.request.id == c.cycle && w.request.cleanupRequested)
  }

  ghost predicate ClosedInv(c: Config, w: World) {
    && c.cycle <= w.request.id && RequestInv(w.request)
    && (w.deleting || w.removed != {} ==> Closed(c, w))
    && forall n :: WorkerAt(w, n) != Off ==> Closed(c, w)
  }

  lemma StaysClosed(c: Config, w: World, w1: World)
    requires Closed(c, w) && (w1.request == w.request || Succeeds(w.request, w1.request))
    ensures Closed(c, w1) && !CycleOpen(c, w1)
  {
  }

  lemma CleanupKeepsClosedInv(c: Config, w: World, a: CleanupStep, w1: World)
    requires ClosedInv(c, w) && NextCleanup(c, w, a) == Some(w1)
    ensures ClosedInv(c, w1)
  {
    CleanupStepGrows(c, w, a, w1);
    if Closed(c, w) {
      StaysClosed(c, w, w1);
    } else {
      assert WorkerAt(w, a.n) == Off;
      assert a.Abandon?;
      forall n ensures WorkerAt(w1, n) == Off {
        assert WorkerAt(w, n) == Off;
      }
    }
  }

  lemma OtherKeepsClosedInv(c: Config, w: World, w1: World)
    requires ClosedInv(c, w) && Grows(w, w1) && RequestInv(w1.request)
    requires w1.deleting == w.deleting && w1.removed == w.removed && w1.workers == w.workers
    ensures ClosedInv(c, w1)
  {
    assert forall n :: WorkerAt(w1, n) == WorkerAt(w, n);
    if Closed(c, w) { StaysClosed(c, w, w1); }
  }

  lemma StepKeepsClosedInv(c: Config, w: World, a: Action, w1: World)
    requires ClosedInv(c, w) && Next(c, w, a) == Some(w1) && NewIntent(w, a)
    ensures ClosedInv(c, w1)
  {
    StepGrows(c, w, a, w1);
    if a.Cleaning? {
      CleanupKeepsClosedInv(c, w, a.cleanup, w1);
    } else {
      OtherKeepsClosedInv(c, w, w1);
    }
  }

  // ----- One launch edge -----

  predicate AllThrottled(l: Launch) {
    forall n: nat | n < l.calls :: n in l.outcomes && l.outcomes[n] == Throttled
  }

  /** The requests: every call before the last was throttled, and while a further one
      may be issued or the rejection is being recorded, so was the last. */
  predicate CallsInOrder(l: Launch) {
    && (forall n | n in l.outcomes :: n < l.calls)
    && (forall n: nat | n + 1 < l.calls :: n in l.outcomes && l.outcomes[n] == Throttled)
    && (l.thread in {Permit, Rejecting} ==> AllThrottled(l))
    && (l.thread.Waiting? ==> l.thread.call + 1 == l.calls)
  }

  /** An instance of the edge exists exactly for a call that made one. */
  ghost predicate MadeByCalls(w: World, e: Edge) {
    var l := LaunchAt(w, e);
    forall n: nat :: MadeBy(e, n) in w.ec2 <==> n in l.outcomes && l.outcomes[n] == Made
  }

  predicate InstanceOf(w: World, e: Edge, x: Inst) {
    OfEdge(x, e) && x in w.ec2
  }

  predicate RecordedAt(w: World, q: Path, x: Inst) {
    w.deleting || x in RowsAt(w, q).resources
  }

  predicate ThreadInv(w: World, e: Edge) {
    var t := LaunchAt(w, e).thread;
    && (t.Found? ==> InstanceOf(w, e, t.inst))
    && (t.Inventoried? ==> InstanceOf(w, e, t.inst) && RecordedAt(w, EdgePath(e), t.inst))
  }

  /** The durable intent: a recorded rejection covers every call made; it is settled
      exactly when it names an instance, and that instance is on record. */
  predicate SubmissionInv(w: World, e: Edge) {
    var l := LaunchAt(w, e);
    var s := RowsAt(w, EdgePath(e)).submission;
    s.Some? && s.value.token == e ==>
      && (s.value.rejected ==> AllThrottled(l) && l.thread in {Resting, Rejecting})
      && (s.value.settled <==> s.value.instance.Some?)
      && (s.value.instance.Some? ==>
            && InstanceOf(w, e, s.value.instance.value) && RecordedAt(w, EdgePath(e), s.value.instance.value))
  }

  predicate EdgeClaimed(w: World, e: Edge) {
    EdgePath(e) in w.claims && w.claims[EdgePath(e)] == e
  }

  ghost predicate LaunchInv(w: World, e: Edge) {
    && (LaunchAt(w, e).calls > 0 || LaunchAt(w, e).thread != Resting ==> EdgeClaimed(w, e))
    && CallsInOrder(LaunchAt(w, e)) && MadeByCalls(w, e) && ThreadInv(w, e) && SubmissionInv(w, e)
  }

  /** A claimed path belongs to one edge for good, and carries its intent until
      cleanup deletes it. */
  predicate ClaimInv(c: Config, w: World, q: Path) {
    && (q in w.claims ==>
          var e := w.claims[q];
          && EdgePath(e) == q && e.parent in w.ec2 && e.index < ChildCount(c, PathOf(e.parent))
          && (!w.deleting ==> RowsAt(w, q).submission.Some?))
    && (RowsAt(w, q).submission.Some? ==> q in w.claims && w.claims[q] == RowsAt(w, q).submission.value.token)
  }

  ghost predicate Claims(c: Config, w: World) {
    && (forall q :: ClaimInv(c, w, q))
    && (forall e :: LaunchInv(w, e))
  }

  /** A step that leaves edge e's thread, instances and claim alone keeps its invariant. */
  lemma OtherEdge(w: World, w1: World, e: Edge)
    requires LaunchInv(w, e) && Grows(w, w1) && LaunchAt(w1, e) == LaunchAt(w, e)
    requires forall n: nat :: MadeBy(e, n) in w1.ec2 ==> MadeBy(e, n) in w.ec2
    requires var s, s1 := RowsAt(w, EdgePath(e)).submission, RowsAt(w1, EdgePath(e)).submission;
      s1 == s || s1.None? || s1.value.token != e
    ensures LaunchInv(w1, e)
  {
    assert w1.deleting || RowsGrow(RowsAt(w, EdgePath(e)), RowsAt(w1, EdgePath(e)));
    var l := LaunchAt(w, e);
    forall n: nat ensures MadeBy(e, n) in w1.ec2 <==> n in l.outcomes && l.outcomes[n] == Made {
    }
  }

  lemma OtherPath(c: Config, w: World, w1: World, q: Path)
    requires ClaimInv(c, w, q) && Grows(w, w1)
    requires q in w1.claims ==> q in w.claims
    requires var s, s1 := RowsAt(w, q).submission, RowsAt(w1, q).submission;
      s1 == s || (s1.None? && w1.deleting) || (s.Some? && s1.Some? && s.value.token == s1.value.token)
    ensures ClaimInv(c, w1, q)
  {
  }

  // ----- Each launch step, at its own edge -----

  lemma MakeKeepsEdge(w: World, e: Edge, n: nat, w1: World)
    requires LaunchInv(w, e) && DoMake(w, e, n) == Some(w1)
    ensures LaunchInv(w1, e)
  {
    var l, l1 := LaunchAt(w, e), LaunchAt(w1, e);
    assert l1 == l.(outcomes := l.outcomes[n := Made]);
    assert RowsAt(w1, EdgePath(e)) == RowsAt(w, EdgePath(e));
    assert !AllThrottled(l);
    assert n + 1 == l.calls;
  }

  lemma RefuseKeepsEdge(w: World, e: Edge, n: nat, throttled: bool, w1: World)
    requires LaunchInv(w, e) && DoRefuse(w, e, n, throttled) == Some(w1)
    ensures LaunchInv(w1, e)
  {
    var l := LaunchAt(w, e);
    assert RowsAt(w1, EdgePath(e)) == RowsAt(w, EdgePath(e));
    assert !AllThrottled(l);
    assert n + 1 == l.calls;
  }

  lemma CallKeepsEdge(w: World, e: Edge, w1: World)
    requires LaunchInv(w, e) && DoCall(w, e) == Some(w1)
    ensures LaunchInv(w1, e)
  {
    assert RowsAt(w1, EdgePath(e)) == RowsAt(w, EdgePath(e));
    assert AllThrottled(LaunchAt(w, e));
  }

  lemma HearKeepsEdge(w: World, e: Edge, outcome: CallOutcome, w1: World)
    requires LaunchInv(w, e) && outcome in {Made, Throttled} && DoHear(w, e, outcome) == Some(w1)
    ensures LaunchInv(w1, e)
  {
    assert RowsAt(w1, EdgePath(e)) == RowsAt(w, EdgePath(e));
    assert MadeBy(e, LaunchAt(w, e).thread.call) in w.ec2 <==> outcome == Made;
  }

  lemma LoseKeepsEdge(w: World, e: Edge, w1: World)
    requires LaunchInv(w, e) && w1 == SetThread(w, e, Resting)
    ensures LaunchInv(w1, e)
  {
    assert RowsAt(w1, EdgePath(e)) == RowsAt(w, EdgePath(e));
  }

  lemma FindKeepsEdge(w: World, e: Edge, x: Inst, w1: World)
    requires LaunchInv(w, e) && EdgeClaimed(w, e) && DoFind(w, e, x) == Some(w1)
    ensures LaunchInv(w1, e)
  {
    assert RowsAt(w1, EdgePath(e)) == RowsAt(w, EdgePath(e));
    assert x == MadeBy(e, x.call);
    assert !AllThrottled(LaunchAt(w, e));
  }

  lemma RecordThrottleKeepsEdge(c: Config, w: World, e: Edge, answered: bool, w1: World)
    requires LaunchInv(w, e) && DoRecordThrottle(c, w, e, answered) == Some(w1)
    ensures LaunchInv(w1, e)
  {
  }

  lemma RecordKeepsEdge(c: Config, w: World, e: Edge, w1: World)
    requires LaunchInv(w, e) && DoRecord(c, w, e) == Some(w1)
    ensures LaunchInv(w1, e)
  {
  }

  lemma SettleKeepsEdge(c: Config, w: World, e: Edge, w1: World)
    requires LaunchInv(w, e) && DoSettle(c, w, e) == Some(w1)
    ensures LaunchInv(w1, e)
  {
    var x := LaunchAt(w, e).thread.inst;
    assert x == MadeBy(e, x.call);
    assert !AllThrottled(LaunchAt(w, e));
  }

  lemma RetryKeepsEdge(c: Config, w: World, e: Edge, w1: World)
    requires LaunchInv(w, e) && EdgeClaimed(w, e) && DoRetry(c, w, e) == Some(w1)
    ensures LaunchInv(w1, e)
  {
  }

  lemma IntendKeepsEdge(c: Config, w: World, e: Edge, w1: World)
    requires LaunchInv(w, e) && EdgePath(e) !in w.claims && DoIntend(c, w, e) == Some(w1)
    ensures LaunchInv(w1, e)
  {
    assert LaunchAt(w, e).calls == 0;
  }

  lemma SameEdge(c: Config, w: World, a: LaunchStep, w1: World)
    requires Claims(c, w) && NextLaunch(c, w, a) == Some(w1) && (a.Intend? ==> EdgePath(a.e) !in w.claims)
    ensures LaunchInv(w1, a.e)
  {
    assert LaunchInv(w, a.e);
    assert ClaimInv(c, w, EdgePath(a.e));
    match a
    case Make(e, n) => MakeKeepsEdge(w, e, n, w1);
    case Refuse(e, n, throttled) => RefuseKeepsEdge(w, e, n, throttled, w1);
    case Intend(e) => IntendKeepsEdge(c, w, e, w1);
    case Retry(e) => RetryKeepsEdge(c, w, e, w1);
    case CallEc2(e) => CallKeepsEdge(w, e, w1);
    case HearInstance(e) => HearKeepsEdge(w, e, Made, w1);
    case HearThrottle(e) => HearKeepsEdge(w, e, Throttled, w1);
    case RecordThrottle(e, answered) => RecordThrottleKeepsEdge(c, w, e, answered, w1);
    case Lose(e) => LoseKeepsEdge(w, e, w1);
    case FindByToken(e, x) => FindKeepsEdge(w, e, x, w1);
    case RecordResource(e) => RecordKeepsEdge(c, w, e, w1);
    case Settle(e) => SettleKeepsEdge(c, w, e, w1);
  }

  /** What a launch step at e does to the launch rows of every other path and edge:
      nothing, except that the path's intent may now be e's. */
  ghost predicate OnlyAt(w: World, w1: World, e: Edge) {
    && (forall d | d != e :: LaunchAt(w1, d) == LaunchAt(w, d))
    && (forall x | x in w1.ec2 && x !in w.ec2 :: OfEdge(x, e))
    && (forall q | q != EdgePath(e) :: RowsAt(w1, q) == RowsAt(w, q))
    && var s, s1 := RowsAt(w, EdgePath(e)).submission, RowsAt(w1, EdgePath(e)).submission;
      s1 == s || (s1.Some? && s1.value.token == e && (s.Some? ==> s.value.token == e))
  }

  lemma RowsStepIsLocal(w: World, w1: World, e: Edge)
    requires w1.launches == w.launches[e := LaunchAt(w1, e)] && w1.ec2 == w.ec2
    requires w1.rows == w.rows[EdgePath(e) := RowsAt(w1, EdgePath(e))]
    requires var s, s1 := RowsAt(w, EdgePath(e)).submission, RowsAt(w1, EdgePath(e)).submission;
      s1 == s || (s1.Some? && s1.value.token == e && (s.Some? ==> s.value.token == e))
    ensures OnlyAt(w, w1, e)
  {
  }

  lemma ThreadStepIsLocal(w: World, w1: World, e: Edge)
    requires ThreadFrame(w, w1, e)
    ensures OnlyAt(w, w1, e)
  {
  }

  lemma IntendIsLocal(c: Config, w: World, e: Edge, w1: World)
    requires EdgePath(e) !in w.claims && DoIntend(c, w, e) == Some(w1)
    ensures OnlyAt(w, w1, e)
    ensures ClaimInv(c, w1, EdgePath(e)) && w1.claims == w.claims[EdgePath(e) := e]
  {
    RowsStepIsLocal(w, w1, e);
  }

  lemma ReceiptIsLocal(c: Config, w: World, w1: World, e: Edge)
    requires ReceiptFrame(w, w1, e) && Grows(w, w1) && ClaimInv(c, w, EdgePath(e))
    ensures OnlyAt(w, w1, e) && ClaimInv(c, w1, EdgePath(e)) && w1.claims == w.claims
  {
    RowsStepIsLocal(w, w1, e);
    OtherPath(c, w, w1, EdgePath(e));
  }

  lemma ThreadIsLocal(c: Config, w: World, w1: World, e: Edge)
    requires ThreadFrame(w, w1, e) && Grows(w, w1) && ClaimInv(c, w, EdgePath(e))
    ensures OnlyAt(w, w1, e) && ClaimInv(c, w1, EdgePath(e)) && w1.claims == w.claims
  {
    ThreadStepIsLocal(w, w1, e);
    OtherPath(c, w, w1, EdgePath(e));
  }

  /** A launch step at e leaves every other edge and path alone, and its own path
      claimed as it should be. */
  lemma LaunchStepIsLocal(c: Config, w: World, a: LaunchStep, w1: World)
    requires NextLaunch(c, w, a) == Some(w1) && Grows(w, w1) && ClaimInv(c, w, EdgePath(a.e))
    requires a.Intend? ==> EdgePath(a.e) !in w.claims
    ensures OnlyAt(w, w1, a.e) && ClaimInv(c, w1, EdgePath(a.e))
    ensures w1.claims.Keys <= w.claims.Keys + {EdgePath(a.e)}
  {
    if a.Intend? {
      IntendIsLocal(c, w, a.e, w1);
    } else if ReceiptStep(a) {
      ReceiptStepGrows(c, w, a, w1);
      ReceiptIsLocal(c, w, w1, a.e);
    } else {
      ThreadStepFrame(c, w, a, w1);
      ThreadIsLocal(c, w, w1, a.e);
    }
  }

  lemma LocalStepKeepsClaims(c: Config, w: World, w1: World, e: Edge)
    requires Claims(c, w) && Grows(w, w1) && OnlyAt(w, w1, e) && LaunchInv(w1, e)
    requires ClaimInv(c, w1, EdgePath(e)) && w1.claims.Keys <= w.claims.Keys + {EdgePath(e)}
    ensures Claims(c, w1)
  {
    forall q ensures ClaimInv(c, w1, q) {
      assert ClaimInv(c, w, q);
      if q != EdgePath(e) { OtherPath(c, w, w1, q); }
    }
    forall d ensures LaunchInv(w1, d) {
      assert LaunchInv(w, d);
      if d != e { OtherEdge(w, w1, d); }
    }
  }

  lemma LaunchStepKeepsClaims(c: Config, w: World, a: LaunchStep, w1: World)
    requires Claims(c, w) && NextLaunch(c, w, a) == Some(w1) && (a.Intend? ==> EdgePath(a.e) !in w.claims)
    ensures Claims(c, w1)
  {
    LaunchStepGrows(c, w, a, w1);
    assert ClaimInv(c, w, EdgePath(a.e));
    LaunchStepIsLocal(c, w, a, w1);
    SameEdge(c, w, a, w1);
    LocalStepKeepsClaims(c, w, w1, a.e);
  }

  // ----- The other steps touch no launch row but by deleting it -----

  ghost predicate LaunchesKept(w: World, w1: World) {
    && w1.launches == w.launches && w1.claims == w.claims && w1.ec2.Keys == w.ec2.Keys
    && forall q :: RowsAt(w1, q).submission == RowsAt(w, q).submission
                   || (RowsAt(w1, q).submission.None? && w1.deleting)
  }

  lemma KeptLaunchesKeepClaims(c: Config, w: World, w1: World)
    requires Claims(c, w) && Grows(w, w1) && LaunchesKept(w, w1)
    ensures Claims(c, w1)
  {
    forall q ensures ClaimInv(c, w1, q) {
      assert ClaimInv(c, w, q);
      OtherPath(c, w, w1, q);
    }
    forall e ensures LaunchInv(w1, e) {
      assert LaunchInv(w, e);
      OtherEdge(w, w1, e);
    }
  }

  lemma AgentStepKeepsLaunches(c: Config, w: World, a: AgentStep, w1: World)
    requires NextAgent(c, w, a) == Some(w1)
    ensures LaunchesKept(w, w1)
  {
  }

  lemma CleanupStepKeepsLaunches(c: Config, w: World, a: CleanupStep, w1: World)
    requires NextCleanup(c, w, a) == Some(w1)
    ensures LaunchesKept(w, w1)
  {
  }

  lemma OutsideStepKeepsInstances(c: Config, w: World, a: OutsideStep, w1: World)
    requires NextOutside(c, w, a) == Some(w1)
    ensures w1.ec2.Keys == w.ec2.Keys
  {
  }

  lemma OutsideStepKeepsLaunches(c: Config, w: World, a: OutsideStep, w1: World)
    requires NextOutside(c, w, a) == Some(w1) && RequestInv(w.request)
    ensures LaunchesKept(w, w1)
  {
    OutsideStepGrows(c, w, a, w1);
    OutsideStepKeepsInstances(c, w, a, w1);
    SameRows(w, w1);
  }

  lemma SameRows(w: World, w1: World)
    requires w1.rows == w.rows
    ensures forall q :: RowsAt(w1, q) == RowsAt(w, q)
  {
  }

  // ----- Every run -----

  ghost predicate LaunchesSafe(c: Config, w: World) {
    ClosedInv(c, w) && Claims(c, w)
  }

  /** While no row has been deleted a claimed path still has its intent, and after
      that no agent may write a new one. */
  lemma IntentIsNew(c: Config, w: World, e: Edge)
    requires LaunchesSafe(c, w) && DoIntend(c, w, e).Some?
    ensures EdgePath(e) !in w.claims
  {
    assert ClaimInv(c, w, EdgePath(e));
    assert !Closed(c, w);
  }

  lemma StepIsNewIntent(c: Config, w: World, a: Action)
    requires LaunchesSafe(c, w) && Next(c, w, a).Some?
    ensures NewIntent(w, a)
  {
    if a.Launching? && a.launch.Intend? { IntentIsNew(c, w, a.launch.e); }
  }

  lemma StepKeepsLaunchesSafe(c: Config, w: World, a: Action, w1: World)
    requires LaunchesSafe(c, w) && Next(c, w, a) == Some(w1)
    ensures LaunchesSafe(c, w1) && NewIntent(w, a) && Grows(w, w1)
  {
    StepIsNewIntent(c, w, a);
    StepGrows(c, w, a, w1);
    StepKeepsClosedInv(c, w, a, w1);
    match a
    case Launching(step) => LaunchStepKeepsClaims(c, w, step, w1);
    case Acts(step) =>
      AgentStepKeepsLaunches(c, w, step, w1);
      KeptLaunchesKeepClaims(c, w, w1);
    case Cleaning(step) =>
      CleanupStepKeepsLaunches(c, w, step, w1);
      KeptLaunchesKeepClaims(c, w, w1);
    case Outside(step) =>
      OutsideStepKeepsLaunches(c, w, step, w1);
      KeptLaunchesKeepClaims(c, w, w1);
  }

  lemma InitialIsSafe(c: Config, w: World)
    requires Initial(c, w)
    ensures LaunchesSafe(c, w)
  {
    forall e ensures LaunchInv(w, e) {
      assert RowsAt(w, EdgePath(e)) == NoRows && LaunchAt(w, e) == NoLaunch;
    }
  }

  lemma {:induction false} RunIsSafe(c: Config, w: World, actions: seq<Action>)
    requires Initial(c, w) && Run(c, w, actions).Some?
    ensures LaunchesSafe(c, Run(c, w, actions).value)
  {
    if actions == [] {
      InitialIsSafe(c, w);
    } else {
      var before := Run(c, w, actions[..|actions| - 1]).value;
      RunIsSafe(c, w, actions[..|actions| - 1]);
      StepKeepsLaunchesSafe(c, before, actions[|actions| - 1], Run(c, w, actions).value);
    }
  }

  // ----- Launch at most once -----

  function ThrottledCalls(l: Launch): set<nat> {
    set n | n in l.outcomes && l.outcomes[n] == Throttled
  }

  lemma {:induction false} RangeSize(s: set<nat>, n: nat)
    requires forall k: nat | k < n :: k in s
    ensures n <= |s|
  {
    if n > 0 {
      RangeSize(s - {n - 1}, n - 1);
    }
  }

  /** RunInstances calls for a path number at most one beyond the throttle
      rejections, they all come from the one edge whose intent claimed the path,
      and at most one of them ever made an instance. */
  lemma LaunchAtMostOnce(c: Config, w: World, actions: seq<Action>, e: Edge, d: Edge)
    requires Initial(c, w) && Run(c, w, actions).Some? && EdgePath(e) == EdgePath(d)
    ensures var w1 := Run(c, w, actions).value; var l := LaunchAt(w1, e);
      && l.calls <= 1 + |ThrottledCalls(l)|
      && (e != d ==> l.calls == 0 || LaunchAt(w1, d).calls == 0)
      && (forall n, m | MadeBy(e, n) in w1.ec2 && MadeBy(d, m) in w1.ec2 :: MadeBy(e, n) == MadeBy(d, m))
  {
    RunIsSafe(c, w, actions);
    var w1 := Run(c, w, actions).value;
    assert LaunchInv(w1, e) && LaunchInv(w1, d);
    var l := LaunchAt(w1, e);
    if l.calls > 0 { RangeSize(ThrottledCalls(l), l.calls - 1); }
  }
}
