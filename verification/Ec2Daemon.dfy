/** The single-successor daemon's cycle, step by step against the shared state, with
    everybody else's steps in between: it only takes steps of the chain. */
module Ec2Daemon {
  import opened Wrappers
  import opened Lineage
  import opened Ec2Chain
  import opened Ec2ChainSafety
  import opened Ec2ChainTransactions

  /** The steps a daemon takes. */
  predicate DaemonStep(a: Step) {
    a.ReadSnapshot? || a.Lose? || a.AcquireLease? || a.RenewLease? || a.ReleaseLease? || a.TerminatePredecessor?
    || a.ConfirmRetirement? || a.ClaimSubmission? || a.CallEc2? || a.Hear? || a.FindSuccessor?
    || a.RecordSuccessor? || a.EndProvisioning? || a.HandOff?
  }

  /** A step of somebody else: not of this daemon. */
  predicate Foreign(me: Inst, a: Step) {
    DaemonStep(a) ==> a.i != me
  }

  predicate AllForeign(me: Inst, steps: seq<Step>) {
    forall a | a in steps :: Foreign(me, a)
  }

  lemma ForeignKeepsLocals(max: nat, w: World, a: Step, w1: World, me: Inst)
    requires Foreign(me, a) && Next(max, w, a) == Some(w1)
    ensures LocalAt(w1, me) == LocalAt(w, me) && CallsOf(w1, me) == CallsOf(w, me)
  {
    ForeignKeepsCalls(max, w, a, w1, me);
    if DaemonStep(a) {
      OwnLocalOnly(max, w, a, w1, me);
    } else {
      assert w1.locals == w.locals;
    }
  }

  lemma OwnLocalOnly(max: nat, w: World, a: Step, w1: World, me: Inst)
    requires DaemonStep(a) && a.i != me && Next(max, w, a) == Some(w1)
    ensures LocalAt(w1, me) == LocalAt(w, me)
  {
  }

  lemma ForeignKeepsCalls(max: nat, w: World, a: Step, w1: World, me: Inst)
    requires Foreign(me, a) && Next(max, w, a) == Some(w1)
    ensures CallsOf(w1, me) == CallsOf(w, me)
  {
  }

  lemma GenerationGrows(max: nat, w: World, a: Step, w1: World)
    requires Next(max, w, a) == Some(w1)
    ensures CurrentGeneration(w) <= CurrentGeneration(w1) && forall x | Ended(w, x) :: Ended(w1, x)
  {
  }

  lemma RunExtends(max: nat, start: World, trace: seq<Step>, a: Step)
    requires Run(max, start, trace).Some?
    ensures Run(max, start, trace + [a]) == Next(max, Run(max, start, trace).value, a)
  {
    assert (trace + [a])[..|trace|] == trace;
  }

  class Table {
    const max: nat
    ghost const start: World
    var w: World
    ghost var trace: seq<Step>

    ghost predicate Valid()
      reads this
    {
      Initial(start) && Run(max, start, trace) == Some(w)
    }

    constructor (max: nat, start: World)
      requires Initial(start)
      ensures Valid() && w == start && trace == [] && this.max == max
    {
      this.max, this.start, w, trace := max, start, start, [];
    }

    /** One atomic step, if its conditions hold. */
    method Attempt(a: Step) returns (ok: bool)
      requires Valid()
      modifies this
      ensures Valid() && (ok <==> Next(max, old(w), a).Some?)
      ensures w == if ok then Next(max, old(w), a).value else old(w)
    {
      var next := Next(max, w, a);
      ok := next.Some?;
      if ok {
        RunExtends(max, start, trace, a);
        w := next.value;
        trace := trace + [a];
      }
    }
  }

  datatype Outcome = IsCandidate | LeaseNotAcquired | MaxGenerationReached | HandoffComplete | Deferred

  /** What one step of somebody else, if it can be taken, makes of w. */
  function After(max: nat, w: World, a: Step): World {
    var w1 := Next(max, w, a);
    if w1.Some? then w1.value else w
  }

  class Ec2Daemon {
    const me: Inst
    const table: Table
    const others: nat -> seq<Step>        // what happens before this daemon's n-th step
    const visible: nat -> Option<Inst>    // what a lookup of the next generation finds
    const ready: nat -> bool              // whether a poll finds fresh functional readiness
    var clock: nat

    ghost predicate Valid()
      reads this, table
    {
      table.Valid() && forall n :: AllForeign(me, others(n))
    }

    constructor (me: Inst, table: Table, others: nat -> seq<Step>, visible: nat -> Option<Inst>, ready: nat -> bool)
      requires table.Valid() && forall n :: AllForeign(me, others(n))
      ensures Valid() && this.me == me && this.table == table
    {
      this.me, this.table, this.others, this.visible, this.ready, clock := me, table, others, visible, ready, 0;
    }

    /** What nobody takes back while this daemon is between two steps. */
    ghost predicate Later(w: World, w1: World) {
      CurrentGeneration(w) <= CurrentGeneration(w1) && forall x | Ended(w, x) :: Ended(w1, x)
    }

    /** Nobody else steps in before any of the next n steps. */
    ghost predicate Alone(from: nat, n: nat) {
      forall k | from <= k < from + n :: others(k) == []
    }

    /** One of its own steps, after whatever the others do. */
    method Do(step: Step) returns (ok: bool, ghost mid: World)
      requires Valid()
      modifies this`clock, table
      ensures Valid() && LocalAt(mid, me) == LocalAt(old(table.w), me) && clock == old(clock) + 1
      ensures CallsOf(mid, me) == CallsOf(old(table.w), me)
      ensures others(old(clock)) == [] ==> mid == old(table.w)
      ensures |others(old(clock))| == 1 ==> mid == After(table.max, old(table.w), others(old(clock))[0])
      ensures Later(old(table.w), mid) && Later(mid, table.w)
      ensures ok <==> Next(table.max, mid, step).Some?
      ensures table.w == if ok then Next(table.max, mid, step).value else mid
    {
      var steps := others(clock);
      clock := clock + 1;
      for i := 0 to |steps|
        invariant Valid() && LocalAt(table.w, me) == LocalAt(old(table.w), me) && Later(old(table.w), table.w)
        invariant clock == old(clock) + 1 && CallsOf(table.w, me) == CallsOf(old(table.w), me)
        invariant i == 0 ==> table.w == old(table.w)
        invariant i == 1 ==> table.w == After(table.max, old(table.w), steps[0])
      {
        ghost var before := table.w;
        assert Foreign(me, steps[i]);
        var done := table.Attempt(steps[i]);
        if done {
          ForeignKeepsLocals(table.max, before, steps[i], table.w, me);
          GenerationGrows(table.max, before, steps[i], table.w);
        }
      }
      mid := table.w;
      ok := table.Attempt(step);
      if ok { GenerationGrows(table.max, mid, step, table.w); }
    }

    /** retire_predecessor: true once the predecessor's termination is on record,
        otherwise it asks EC2 for it and reports false. */
    method RetirePredecessor() returns (retired: bool)
      requires Valid()
      modifies this`clock, table
      ensures Valid() && Later(old(table.w), table.w)
      ensures retired && me.Child? ==> Ended(table.w, me.parent)
      ensures retired ==> LocalAt(table.w, me).retired
      ensures !retired ==> LocalAt(table.w, me) == LocalAt(old(table.w), me)
      ensures others(old(clock)) == [] ==>
        && (retired <==> RetirementDone(old(table.w), me))
        && (retired ==> table.w == Retired(old(table.w), me) && clock == old(clock) + 1)
      ensures Alone(old(clock), 2) && !retired && TerminationDue(old(table.w), me) ==>
        me.parent in table.w.ec2 && table.w.ec2[me.parent] == ShuttingDown
    {
      ConfirmsExactly(table.max, table.w, me);
      TerminatesExactly(table.max, table.w, me);
      ghost var mid;
      retired, mid := Do(ConfirmRetirement(me));
      if retired {
        ConfirmedIsEnded();
      } else {
        var asked;
        asked, mid := Do(TerminatePredecessor(me));
        if asked { TerminateKeepsLocals(mid, me, table.w); }
      }
    }

    lemma ConfirmedIsEnded()
      requires Valid() && LocalAt(table.w, me).retired
      ensures me.Child? ==> Ended(table.w, me.parent)
    {
      EveryRunIsSafe(table.max, table.start, table.trace);
      assert LocalInv(table.w, me);
    }

    /** provision_successor: the successor already there, or a new one under a durable
        intent. With nobody else stepping in but EC2 making the instance, either ends
        with the successor on record. */
    method ProvisionSuccessor() returns (ok: bool)
      requires Valid()
      modifies this`clock, table
      ensures Valid() && Later(old(table.w), table.w)
      ensures old(clock) <= clock <= old(clock) + 5
      ensures var from, w := old(clock), old(table.w);
        visible(from).Some? && Alone(from, 3) && w.fences.lifecycle && FindsThere(w, me, visible(from).value) ==>
          ok && clock == from + 3 && table.w == Unmarked(Taken(w, me, visible(from).value), me)
      ensures var from, w := old(clock), old(table.w);
        visible(from).None? && Alone(from, 2) && SubmissionDue(table.max, w, me) ==>
          && CallsOf(table.w, me) == CallsOf(w, me) + 1
          && (Makes(from + 2, w) && w.fences.lifecycle ==>
                && ok && LocalAt(table.w, me).stage == Recorded(Child(me, 0, CallsOf(w, me)))
                && Child(me, 0, CallsOf(w, me)) in table.w.recorded && table.w.marker != Some(Generation(me) + 1))
    {
      var found := visible(clock);
      if found.Some? {
        ok := FindTheSuccessor(found.value);
      } else {
        ok := LaunchSuccessor();
      }
    }

    /** EC2 makes the instance before its answer is heard, and shows it; nobody else
        steps in. */
    ghost predicate Makes(from: nat, w: World) {
      && Child(me, 0, CallsOf(w, me)) !in w.ec2 && others(from) == [Make(me, CallsOf(w, me))] && Alone(from + 1, 2)
      && visible(from) == Some(Child(me, 0, CallsOf(w, me)))
    }

    method FindTheSuccessor(x: Inst) returns (ok: bool)
      requires Valid()
      modifies this`clock, table
      ensures Valid() && Later(old(table.w), table.w) && old(clock) <= clock <= old(clock) + 3
      ensures var from, w := old(clock), old(table.w);
        Alone(from, 3) && w.fences.lifecycle && FindsThere(w, me, x) ==>
          ok && clock == from + 3 && table.w == Unmarked(Taken(w, me, x), me)
    {
      FindsExactly(table.max, table.w, me, x);
      TakenAfterwards(table.w, me, x);
      ghost var mid;
      ok, mid := Do(FindSuccessor(me, x));
      if ok { ok := KeepSuccessor(x); }
    }

    method LaunchSuccessor() returns (ok: bool)
      requires Valid()
      modifies this`clock, table
      ensures Valid() && Later(old(table.w), table.w) && old(clock) <= clock <= old(clock) + 5
      ensures var from, w := old(clock), old(table.w);
        Alone(from, 2) && SubmissionDue(table.max, w, me) ==>
          && CallsOf(table.w, me) == CallsOf(w, me) + 1
          && (Makes(from + 2, w) && w.fences.lifecycle ==>
                && ok && LocalAt(table.w, me).stage == Recorded(Child(me, 0, CallsOf(w, me)))
                && Child(me, 0, CallsOf(w, me)) in table.w.recorded && table.w.marker != Some(Generation(me) + 1))
    {
      ghost var mid;
      SubmitsExactly(table.max, table.w, me);
      ok, mid := Do(ClaimSubmission(me));
      if ok { ok := CallForSuccessor(); }
    }

    /** RunInstances, once, and its answer kept. */
    method CallForSuccessor() returns (ok: bool)
      requires Valid()
      modifies this`clock, table
      ensures Valid() && Later(old(table.w), table.w) && old(clock) <= clock <= old(clock) + 4
      ensures var from, w := old(clock), old(table.w); var x := Child(me, 0, CallsOf(w, me));
        others(from) == [] && Alive(w, me) && LocalAt(w, me).stage == Permit ==>
          && CallsOf(table.w, me) == CallsOf(w, me) + 1
          && (Makes(from + 1, w) && w.fences.lifecycle ==>
                ok && LocalAt(table.w, me).stage == Recorded(x) && x in table.w.recorded
                && table.w.marker != Some(Generation(me) + 1))
    {
      ghost var mid;
      ok, mid := Do(CallEc2(me));
      if !ok { return; }
      ok := HearOfSuccessor(CallsOf(mid, me));
    }

    method HearOfSuccessor(ghost n: nat) returns (ok: bool)
      requires Valid()
      modifies this`clock, table
      ensures Valid() && Later(old(table.w), table.w) && old(clock) <= clock <= old(clock) + 3
      ensures CallsOf(table.w, me) == CallsOf(old(table.w), me)
      ensures var from, w, x := old(clock), old(table.w), Child(me, 0, n);
        && Called(w, me, n) && x !in w.ec2 && visible(from) == Some(x)
        && others(from) == [Make(me, n)] && Alone(from + 1, 2) && w.fences.lifecycle ==>
          && ok && LocalAt(table.w, me).stage == Recorded(x) && x in table.w.recorded
          && table.w.marker != Some(Generation(me) + 1)
    {
      MadeIsHeard(table.max, table.w, me, n);
      ghost var mid;
      var found := visible(clock);
      if found.None? { return false; }
      ok, mid := Do(Hear(me, found.value));
      if ok { ok := KeepSuccessor(found.value); }
    }

    /** The resource record, and the provisioning marker taken away. */
    method KeepSuccessor(ghost x: Inst) returns (ok: bool)
      requires Valid() && LocalAt(table.w, me).stage == Got(x)
      modifies this`clock, table
      ensures Valid() && Later(old(table.w), table.w) && old(clock) <= clock <= old(clock) + 2
      ensures CallsOf(table.w, me) == CallsOf(old(table.w), me)
      ensures Alone(old(clock), 2) && Alive(old(table.w), me) && old(table.w).fences.lifecycle ==>
        ok && clock == old(clock) + 2 && table.w == Unmarked(Taken(old(table.w), me, x), me)
    {
      KeepsExactly(table.max, table.w, me, x);
      ghost var mid;
      ok, mid := Do(RecordSuccessor(me));
      if ok {
        RecordingCallsNothing(table.max, mid, me);
        var ended;
        ended, mid := Do(EndProvisioning(me));
        EndingCallsNothing(table.max, mid, me);
      }
    }

    /** wait_for_ready_successor: the lease renewed before every poll. With nobody else
        stepping in it succeeds exactly at the first poll that finds readiness. */
    method WaitForReadySuccessor(polls: nat) returns (ok: bool)
      requires Valid()
      modifies this`clock, table
      ensures Valid() && Later(old(table.w), table.w) && old(clock) <= clock <= old(clock) + polls
      ensures Alone(old(clock), polls) && HoldsLease(old(table.w), me) ==>
        && (ok <==> ReadyWithin(old(clock), polls))
        && HoldsLease(table.w, me) && table.w == old(table.w).(lease := table.w.lease)
        && (ok ==> table.w.lease == Some(Lease(me, table.w.now + 60)))
    {
      ghost var quiet := Alone(clock, polls) && HoldsLease(table.w, me);
      for poll := 0 to polls
        invariant Valid() && Later(old(table.w), table.w) && clock == old(clock) + poll
        invariant quiet ==> HoldsLease(table.w, me) && table.w == old(table.w).(lease := table.w.lease)
        invariant forall k | old(clock) < k <= old(clock) + poll :: !ready(k)
      {
        ghost var mid;
        var renewed;
        renewed, mid := Do(RenewLease(me, table.w.now + 60));
        if !renewed { return false; }
        if ready(clock) { return true; }
      }
      ok := false;
    }

    /** One cycle. A completed handoff has moved CURRENT past this daemon, with its
        own predecessor gone; so has a last generation's. With nobody else stepping in,
        the owner of CURRENT whose predecessor is retired hands over to a ready
        successor, or rests if it is the last generation. */
    method Cycle(lease: int, polls: nat, leaseNow: int) returns (outcome: Outcome)
      requires Valid()
      modifies this`clock, table
      ensures Valid() && Later(old(table.w), table.w)
      ensures outcome == HandoffComplete ==> CurrentGeneration(table.w) > Generation(me)
      ensures outcome in {HandoffComplete, MaxGenerationReached} && me.Child? ==> Ended(table.w, me.parent)
      ensures outcome !in {IsCandidate, LeaseNotAcquired} ==> LeaseGivenUp(table.w)
      ensures var from, w := old(clock), old(table.w);
        Alone(from, 3) && OwnsFreely(w, me) && Generation(me) >= table.max ==> outcome == MaxGenerationReached
      ensures var from, w := old(clock), old(table.w);
        && Alone(from, 8 + polls) && OwnsFreely(w, me) && Generation(me) < table.max
        && SuccessorWaits(w, visible(from + 3), leaseNow) && ReadyWithin(from + 6, polls) ==>
          outcome == HandoffComplete && table.w.current == HandedTo(me, visible(from + 3).value)
    {
      ghost var mid;
      var ok;
      OwnerReads(table.max, table.w, me);
      ok, mid := Do(ReadSnapshot(me));
      if !ok || !SawItself(table.w, me) { return IsCandidate; }
      outcome := ActAsOwner(lease, polls, leaseNow);
    }

    /** The successor is found, recorded or to be recorded, and the handoff's fences are
        open. */
    predicate SuccessorWaits(w: World, found: Option<Inst>, leaseNow: int) {
      && found.Some? && SuccessorThere(w, me, found.value)
      && w.fences.provisioning && w.fences.clear && leaseNow <= w.now
    }

    /** While it runs, this daemon does not keep the lease. */
    predicate LeaseGivenUp(w: World) {
      Alive(w, me) && w.lease.Some? ==> w.lease.value.owner != me
    }

    /** CURRENT read and seen as its own: the lease, and the work under it. */
    method ActAsOwner(lease: int, polls: nat, leaseNow: int) returns (outcome: Outcome)
      requires Valid()
      modifies this`clock, table
      ensures Valid() && Later(old(table.w), table.w)
      ensures outcome == HandoffComplete ==> CurrentGeneration(table.w) > Generation(me)
      ensures outcome in {HandoffComplete, MaxGenerationReached} && me.Child? ==> Ended(table.w, me.parent)
      ensures outcome != LeaseNotAcquired ==> LeaseGivenUp(table.w)
      ensures var from, w := old(clock), old(table.w);
        Alone(from, 2) && JustRead(w, me) && Generation(me) >= table.max ==> outcome == MaxGenerationReached
      ensures var from, w := old(clock), old(table.w);
        && Alone(from, 7 + polls) && JustRead(w, me) && Generation(me) < table.max
        && SuccessorWaits(w, visible(from + 2), leaseNow) && ReadyWithin(from + 5, polls) ==>
          outcome == HandoffComplete && table.w.current == HandedTo(me, visible(from + 2).value)
    {
      ghost var mid;
      var ok;
      OwnerAcquires(table.max, table.w, me, visible(clock + 2), lease, leaseNow);
      ok, mid := Do(AcquireLease(me, lease));
      if !ok { return LeaseNotAcquired; }
      outcome := PropagateAndRelease(polls, leaseNow);
    }

    /** The work under the lease, and its release whatever the outcome. */
    method PropagateAndRelease(polls: nat, leaseNow: int) returns (outcome: Outcome)
      requires Valid()
      modifies this`clock, table
      ensures Valid() && Later(old(table.w), table.w)
      ensures outcome == HandoffComplete ==> CurrentGeneration(table.w) > Generation(me)
      ensures outcome in {HandoffComplete, MaxGenerationReached} && me.Child? ==> Ended(table.w, me.parent)
      ensures LeaseGivenUp(table.w)
      ensures var from, w := old(clock), old(table.w);
        others(from) == [] && RetirementDone(w, me) && Generation(me) >= table.max ==> outcome == MaxGenerationReached
      ensures var from, w := old(clock), old(table.w);
        Alone(from, 6 + polls) && HandsOver(from, w, polls, leaseNow) ==>
          outcome == HandoffComplete && table.w.current == HandedTo(me, visible(from + 1).value)
    {
      ghost var mid;
      outcome := Propagate(polls, leaseNow);
      var released;
      released, mid := Do(ReleaseLease(me));
      LeaseMovesExactly(table.max, mid, me, 0);
    }

    /** Under the lease: the predecessor retired, another generation allowed, a successor
        to be found at the next step but one and ready in time, and every fence open. */
    ghost predicate HandsOver(from: nat, w: World, polls: nat, leaseNow: int) {
      && RetirementDone(w, me) && Generation(me) < table.max
      && visible(from + 1).Some? && ReadyToHandOff(w, me, visible(from + 1).value, leaseNow)
      && ReadyWithin(from + 4, polls)
    }

    ghost predicate ReadyWithin(from: nat, polls: nat) {
      exists k :: from < k <= from + polls && ready(k)
    }

    method Propagate(polls: nat, leaseNow: int) returns (outcome: Outcome)
      requires Valid()
      modifies this`clock, table
      ensures Valid() && Later(old(table.w), table.w)
      ensures outcome == HandoffComplete ==> CurrentGeneration(table.w) > Generation(me)
      ensures outcome in {HandoffComplete, MaxGenerationReached} && me.Child? ==> Ended(table.w, me.parent)
      ensures var from, w := old(clock), old(table.w);
        others(from) == [] && RetirementDone(w, me) && Generation(me) >= table.max ==> outcome == MaxGenerationReached
      ensures var from, w := old(clock), old(table.w);
        Alone(from, 5 + polls) && HandsOver(from, w, polls, leaseNow) ==>
          && outcome == HandoffComplete && from <= clock <= from + 5 + polls
          && table.w.current == HandedTo(me, visible(from + 1).value)
    {
      RetiredIsReady(table.w, me, visible(clock + 1), leaseNow);
      var retired := RetirePredecessor();
      if Generation(me) >= table.max {
        return if retired then MaxGenerationReached else Deferred;
      }
      outcome := ProvideAndHandOff(retired, polls, leaseNow);
    }

    /** The successor, found or launched, its readiness and the handoff. */
    method ProvideAndHandOff(retired: bool, polls: nat, leaseNow: int) returns (outcome: Outcome)
      requires Valid() && (retired && me.Child? ==> Ended(table.w, me.parent))
      modifies this`clock, table
      ensures Valid() && Later(old(table.w), table.w)
      ensures outcome in {HandoffComplete, Deferred}
      ensures outcome == HandoffComplete ==> CurrentGeneration(table.w) > Generation(me)
      ensures outcome == HandoffComplete && me.Child? ==> Ended(table.w, me.parent)
      ensures var from, w := old(clock), old(table.w);
        && Alone(from, 4 + polls) && retired && LocalAt(w, me).retired && visible(from).Some?
        && ReadyToHandOff(w, me, visible(from).value, leaseNow) && ReadyWithin(from + 3, polls) ==>
          && outcome == HandoffComplete && from <= clock <= from + 4 + polls
          && table.w.current == HandedTo(me, visible(from).value)
    {
      FoundIsReady(table.w, me, visible(clock), leaseNow);
      var ok := ProvisionSuccessor();
      if !ok { return Deferred; }
      outcome := WaitAndHandOff(retired, polls, leaseNow);
    }

    /** With the successor on record: its readiness, the predecessor's retirement if that
        was not done yet, and the handoff. */
    method WaitAndHandOff(retired: bool, polls: nat, leaseNow: int) returns (outcome: Outcome)
      requires Valid() && (retired && me.Child? ==> Ended(table.w, me.parent))
      modifies this`clock, table
      ensures Valid() && Later(old(table.w), table.w)
      ensures outcome in {HandoffComplete, Deferred}
      ensures outcome == HandoffComplete ==> CurrentGeneration(table.w) > Generation(me)
      ensures outcome == HandoffComplete && me.Child? ==> Ended(table.w, me.parent)
      ensures var from, w := old(clock), old(table.w);
        && Alone(from, polls + 1) && retired && HoldsLease(w, me) && OnlyLeaseMissing(w, me, leaseNow)
        && ReadyWithin(from, polls) ==>
          && outcome == HandoffComplete && from <= clock <= from + polls + 1
          && table.w.current == HandedTo(me, LocalAt(w, me).stage.successor)
    {
      ghost var mid;
      var ok := WaitForReadySuccessor(polls);
      if !ok { return Deferred; }
      if !retired {
        var now := RetirePredecessor();
        if !now { return Deferred; }
      }
      HandsOffExactly(table.max, table.w, me, leaseNow);
      ok, mid := Do(HandOff(me, leaseNow));
      if !ok { return Deferred; }
      HandedOff(mid, leaseNow);
      outcome := HandoffComplete;
    }

    lemma HandedOff(before: World, leaseNow: int)
      requires DoHandOff(before, me, leaseNow) == Some(table.w)
      ensures CurrentGeneration(table.w) > Generation(me)
    {
    }
  }

  /** CURRENT after i handed it to x. */
  function HandedTo(i: Inst, x: Inst): Option<Current> {
    Some(Current(Generation(i) + 1, x, Some(i), true, false))
  }

  /** i runs and owns CURRENT in its generation, the lease is free, and its predecessor
      is retired or can be marked so. */
  predicate OwnsFreely(w: World, i: Inst) {
    && Alive(w, i) && w.fences.lifecycle && LeaseFree(w, i)
    && w.current.Some? && w.current.value.instance == i && w.current.value.generation == Generation(i)
    && (i.Child? ==>
          && w.current.value.predecessor == Some(i.parent) && w.current.value.authorized
          && (w.current.value.completed || ParentGone(w, i)))
  }

  predicate HoldsLease(w: World, i: Inst) {
    Alive(w, i) && w.fences.lifecycle && w.lease.Some? && w.lease.value.owner == i
  }

  /** i's own child can be found at w. */
  predicate FindsThere(w: World, i: Inst, x: Inst) {
    Alive(w, i) && SeesItself(w, i) && Resting(w, i) && SuccessorThere(w, i, x)
  }

  predicate FencesOpen(w: World, i: Inst, leaseNow: int) {
    && w.fences.provisioning && w.fences.clear && leaseNow <= w.now
    && w.current.Some? && w.current.value.instance == i && w.current.value.generation == Generation(i)
  }

  predicate ReadyToHandOff(w: World, i: Inst, x: Inst, leaseNow: int) {
    HoldsLease(w, i) && FindsThere(w, i, x) && FencesOpen(w, i, leaseNow)
  }

  predicate OnlyLeaseMissing(w: World, i: Inst, leaseNow: int) {
    LocalAt(w, i).retired && LocalAt(w, i).stage.Recorded? && FencesOpen(w, i, leaseNow)
  }

  /** i owns CURRENT freely and has just read it. */
  predicate JustRead(w: World, i: Inst) {
    OwnsFreely(w, i) && LocalAt(w, i) == Local(w.current, false, Idle)
  }

  lemma OwnerReads(max: nat, w: World, i: Inst)
    ensures OwnsFreely(w, i) ==>
      && Next(max, w, ReadSnapshot(i)).Some?
      && var w1 := Next(max, w, ReadSnapshot(i)).value;
      && w1 == w.(locals := w1.locals) && JustRead(w1, i) && SawItself(w1, i)
  {
  }

  /** Having taken the lease, the owner is ready to go on. */
  lemma OwnerAcquires(max: nat, w: World, i: Inst, found: Option<Inst>, expires: int, leaseNow: int)
    ensures JustRead(w, i) ==>
      && Next(max, w, AcquireLease(i, expires)).Some?
      && var w1 := Next(max, w, AcquireLease(i, expires)).value;
      && RetirementDone(w1, i)
      && (found.Some? && SuccessorThere(w, i, found.value) && FencesOpen(w, i, leaseNow) ==>
            ReadyToHandOff(w1, i, found.value, leaseNow))
  {
  }

  /** Retirement done, it still is. */
  lemma RetiredIsReady(w: World, i: Inst, found: Option<Inst>, leaseNow: int)
    ensures found.Some? && RetirementDone(w, i) && ReadyToHandOff(w, i, found.value, leaseNow) ==>
      ReadyToHandOff(Retired(w, i), i, found.value, leaseNow)
  {
  }

  lemma FoundIsReady(w: World, i: Inst, found: Option<Inst>, leaseNow: int)
    ensures found.Some? && LocalAt(w, i).retired && ReadyToHandOff(w, i, found.value, leaseNow) ==>
      && w.fences.lifecycle && FindsThere(w, i, found.value)
      && var w1 := Unmarked(Taken(w, i, found.value), i);
      && HoldsLease(w1, i) && OnlyLeaseMissing(w1, i, leaseNow) && LocalAt(w1, i).stage == Recorded(found.value)
  {
  }

  lemma KeepsExactly(max: nat, w: World, i: Inst, x: Inst)
    requires LocalAt(w, i).stage == Got(x)
    ensures Alive(w, i) && w.fences.lifecycle ==>
      && Next(max, w, RecordSuccessor(i)) == Some(Taken(w, i, x))
      && var w1 := Taken(w, i, x); var ended := Next(max, w1, EndProvisioning(i));
      && Unmarked(w1, i) == if ended.Some? then ended.value else w1
  {
    RecordsExactly(max, w, i, x);
  }

  lemma RecordingCallsNothing(max: nat, w: World, i: Inst)
    ensures Next(max, w, RecordSuccessor(i)).Some? ==> Next(max, w, RecordSuccessor(i)).value.calls == w.calls
  {
  }

  lemma EndingCallsNothing(max: nat, w: World, i: Inst)
    ensures Next(max, w, EndProvisioning(i)).Some? ==> Next(max, w, EndProvisioning(i)).value.calls == w.calls
  {
  }

  lemma TakenAfterwards(w: World, i: Inst, x: Inst)
    ensures Taken(SetLocal(w, i, LocalAt(w, i).(stage := Got(x))), i, x) == Taken(w, i, x)
  {
    var l := LocalAt(w, i);
    assert w.locals[i := l.(stage := Got(x))][i := l.(stage := Recorded(x))] == w.locals[i := l.(stage := Recorded(x))];
  }

  /** i has issued call n and waits for its answer. */
  predicate Called(w: World, i: Inst, n: nat) {
    Alive(w, i) && LocalAt(w, i).stage == Waiting && CallsOf(w, i) == n + 1
  }

  /** An instance made in answer to the call is heard of. */
  lemma MadeIsHeard(max: nat, w: World, i: Inst, n: nat)
    ensures var x := Child(i, 0, n); var w1 := After(max, w, Make(i, n));
      Called(w, i, n) && x !in w.ec2 ==>
        && DoHear(w1, i, x).Some? && LocalAt(DoHear(w1, i, x).value, i).stage == Got(x)
        && Alive(DoHear(w1, i, x).value, i) && DoHear(w1, i, x).value.fences == w.fences
  {
  }

  /** x is i's recorded successor. */
  function Taken(w: World, i: Inst, x: Inst): World {
    SetLocal(w, i, LocalAt(w, i).(stage := Recorded(x))).(recorded := w.recorded + {x})
  }

  /** The marker of i's launch, if it stands, is taken away. */
  function Unmarked(w: World, i: Inst): World {
    if w.marker == Some(Generation(i) + 1) then w.(marker := None) else w
  }

  /** The snapshot's owner knows its predecessor retired, and CURRENT says so. */
  function Retired(w: World, i: Inst): World {
    var done := SetLocal(w, i, LocalAt(w, i).(retired := true));
    if MarkDue(w, i) then done.(current := Some(w.current.value.(completed := true))) else done
  }

  lemma TerminateKeepsLocals(w: World, i: Inst, w1: World)
    requires DoTerminate(w, i) == Some(w1)
    ensures LocalAt(w1, i) == LocalAt(w, i)
  {
  }

  /** The code keeps the chain's promises because its steps are the chain's. */
  lemma DaemonKeepsThreeLive(d: Ec2Daemon, live: set<Inst>)
    requires d.Valid() && forall x | x in live :: x in d.table.w.ec2 && !Ended(d.table.w, x)
    ensures |live| <= 3
  {
    AtMostThreeLive(d.table.max, d.table.start, d.table.trace, live);
  }
}
