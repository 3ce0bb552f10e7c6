/** When exactly the chain's transactions commit, written out on CURRENT, the fences,
    the lease and the snapshot; and what a closed fence stops. */
module Ec2ChainTransactions {
  import opened Wrappers
  import opened Lineage
  import opened Ec2Chain

  predicate Alive(w: World, i: Inst) {
    i in w.ec2 && w.ec2[i] in {Running, ShuttingDown}
  }

  /** i's snapshot shows it as the owner of CURRENT in its own generation. */
  predicate SeesItself(w: World, i: Inst) {
    && i in w.locals && w.locals[i].seen.Some?
    && w.locals[i].seen.value.instance == i && w.locals[i].seen.value.generation == |PathOf(i)|
  }

  /** The snapshot shows the handoff that authorized i to retire its parent. */
  predicate MayRetireParent(w: World, i: Inst) {
    && SeesItself(w, i) && i.Child?
    && w.locals[i].seen.value.predecessor == Some(i.parent) && w.locals[i].seen.value.authorized
  }

  /** CURRENT is as i read it, whether or not retirement has been marked since. */
  predicate CurrentAsSeen(w: World, i: Inst) {
    && i in w.locals && w.locals[i].seen.Some? && w.current.Some?
    && var seen, cur := w.locals[i].seen.value, w.current.value;
    && cur.generation == seen.generation && cur.instance == seen.instance
    && cur.predecessor == seen.predecessor && cur.authorized == seen.authorized
  }

  predicate ParentGone(w: World, i: Inst) {
    i.Child? && i.parent in w.ec2 && w.ec2[i.parent] == Gone
  }

  // ----- Retirement of the predecessor -----

  /** There is none; or its retirement was marked when CURRENT was read; or it has
      terminated and can be marked now. */
  predicate RetirementDone(w: World, i: Inst) {
    && Alive(w, i) && SeesItself(w, i)
    && (|| i == Seed
        || (MayRetireParent(w, i) && w.locals[i].seen.value.completed)
        || MarkDue(w, i))
  }

  predicate MarkDue(w: World, i: Inst) {
    && Alive(w, i) && MayRetireParent(w, i) && !w.locals[i].seen.value.completed
    && ParentGone(w, i) && w.fences.lifecycle && CurrentAsSeen(w, i)
  }

  lemma ConfirmsExactly(max: nat, w: World, i: Inst)
    ensures Next(max, w, ConfirmRetirement(i)).Some? <==> RetirementDone(w, i)
    ensures RetirementDone(w, i) ==>
      var done := w.(locals := w.locals[i := w.locals[i].(retired := true)]);
      Next(max, w, ConfirmRetirement(i)) == Some(
        if MarkDue(w, i) then done.(current := Some(w.current.value.(completed := true))) else done)
  {
  }

  /** The parent still runs, and its retirement is authorized and not marked. */
  predicate TerminationDue(w: World, i: Inst) {
    && Alive(w, i) && MayRetireParent(w, i) && !w.locals[i].seen.value.completed
    && i.parent in w.ec2 && (w.ec2[i.parent] == Pending || w.ec2[i.parent] == Running)
  }

  lemma TerminatesExactly(max: nat, w: World, i: Inst)
    ensures Next(max, w, TerminatePredecessor(i)) ==
      if TerminationDue(w, i)
      then Some(w.(ec2 := w.ec2[i.parent := ShuttingDown], terminated := w.terminated + {i.parent})) else None
  {
    if MayRetireParent(w, i) && i.parent in w.ec2 {
      var state := w.ec2[i.parent];
      assert state == Pending || state == Running || state == ShuttingDown || state == Gone;
    }
  }

  // ----- The successor and the handoff -----

  predicate Resting(w: World, i: Inst) {
    i in w.locals && w.locals[i].stage == Idle
  }

  /** No marker, no submission of the next generation, and every fence open. */
  predicate SubmissionDue(max: nat, w: World, i: Inst) {
    && Alive(w, i) && SeesItself(w, i) && Resting(w, i) && |PathOf(i)| + 1 <= max
    && w.fences.provisioning && w.fences.clear && w.marker.None? && |PathOf(i)| + 1 !in w.submissions
  }

  lemma SubmitsExactly(max: nat, w: World, i: Inst)
    ensures Next(max, w, ClaimSubmission(i)).Some? <==> SubmissionDue(max, w, i)
    ensures SubmissionDue(max, w, i) ==>
      var w1, n := Next(max, w, ClaimSubmission(i)).value, |PathOf(i)| + 1;
      && w1.locals == w.locals[i := w.locals[i].(stage := Permit)] && w1.marker == Some(n)
      && w1.submissions == w.submissions[n := i]
      && w1 == w.(locals := w1.locals, submissions := w1.submissions, marker := w1.marker)
  {
  }

  /** i's own running child, with no foreign marker in the way. */
  predicate SuccessorThere(w: World, i: Inst, x: Inst) {
    && x.Child? && x.parent == i && x in w.ec2 && (w.ec2[x] == Pending || w.ec2[x] == Running)
    && (w.marker.Some? ==> w.marker == Some(|PathOf(x)|))
  }

  lemma FindsExactly(max: nat, w: World, i: Inst, x: Inst)
    ensures Next(max, w, FindSuccessor(i, x)) ==
      if Alive(w, i) && SeesItself(w, i) && Resting(w, i) && SuccessorThere(w, i, x)
      then Some(w.(locals := w.locals[i := w.locals[i].(stage := Got(x))])) else None
  {
    if x in w.ec2 {
      var state := w.ec2[x];
      assert state == Pending || state == Running || state == ShuttingDown || state == Gone;
    }
  }

  predicate Holds(w: World, i: Inst, x: Inst) {
    i in w.locals && w.locals[i].stage == Got(x)
  }

  lemma RecordsExactly(max: nat, w: World, i: Inst, x: Inst)
    requires Holds(w, i, x)
    ensures Next(max, w, RecordSuccessor(i)) ==
      if Alive(w, i) && w.fences.lifecycle
      then Some(w.(locals := w.locals[i := w.locals[i].(stage := Recorded(x))], recorded := w.recorded + {x})) else None
  {
  }

  /** The lease is free, expired or i's own. */
  predicate LeaseFree(w: World, i: Inst) {
    w.lease.Some? && w.lease.value.owner != i ==> w.lease.value.expires < w.now
  }

  lemma AcquiresExactly(max: nat, w: World, i: Inst, expires: int)
    ensures Next(max, w, AcquireLease(i, expires)) ==
      if Alive(w, i) && SeesItself(w, i) && w.fences.lifecycle && LeaseFree(w, i)
      then Some(w.(lease := Some(Lease(i, expires)))) else None
  {
  }

  /** Only the holder renews or gives up the lease; renewing needs the lifecycle fence. */
  lemma LeaseMovesExactly(max: nat, w: World, i: Inst, expires: int)
    ensures Next(max, w, RenewLease(i, expires)) ==
      if Alive(w, i) && w.fences.lifecycle && w.lease.Some? && w.lease.value.owner == i
      then Some(w.(lease := Some(Lease(i, expires)))) else None
    ensures Next(max, w, ReleaseLease(i)) ==
      if Alive(w, i) && w.lease.Some? && w.lease.value.owner == i then Some(w.(lease := None)) else None
  {
  }

  /** The seed alone starts the chain, in generation 0, under an open lifecycle. */
  lemma StartsExactly(max: nat, w: World)
    ensures Next(max, w, ClaimInitial) ==
      if Alive(w, Seed) && w.fences.lifecycle && w.current.None?
      then Some(w.(current := Some(Current(0, Seed, None, false, false)))) else None
  {
  }

  /** A permitted daemon calls EC2 once, and hears only of an instance of its own. */
  lemma CallsExactly(max: nat, w: World, i: Inst, x: Inst)
    ensures Next(max, w, CallEc2(i)) ==
      if Alive(w, i) && i in w.locals && w.locals[i].stage == Permit
      then Some(w.(locals := w.locals[i := w.locals[i].(stage := Waiting)],
                   calls := w.calls[i := (if i in w.calls then w.calls[i] else 0) + 1])) else None
    ensures Next(max, w, Hear(i, x)) ==
      if Alive(w, i) && i in w.locals && w.locals[i].stage == Waiting && x in w.ec2 && x.Child? && x.parent == i
      then Some(w.(locals := w.locals[i := w.locals[i].(stage := Got(x))])) else None
  {
  }

  /** The marker is taken away by whoever recorded its generation's successor. */
  lemma EndsExactly(max: nat, w: World, i: Inst)
    ensures Next(max, w, EndProvisioning(i)) ==
      if Alive(w, i) && i in w.locals && w.locals[i].stage.Recorded? && w.marker == Some(|PathOf(i)| + 1)
      then Some(w.(marker := None)) else None
  {
  }

  /** EC2's own steps. */
  lemma Ec2MovesExactly(max: nat, w: World, x: Inst)
    ensures Next(max, w, Boot(x)) ==
      if x in w.ec2 && w.ec2[x] == Pending then Some(w.(ec2 := w.ec2[x := Running])) else None
    ensures Next(max, w, FinishTermination(x)) ==
      if x in w.ec2 && w.ec2[x] == ShuttingDown then Some(w.(ec2 := w.ec2[x := Gone])) else None
    ensures Next(max, w, Die(x)) == if x in w.ec2 then Some(w.(ec2 := w.ec2[x := Gone])) else None
  {
  }

  /** The predecessor retired, a recorded successor in hand, the lease held until
      leaseNow at least, CURRENT still i's, and every fence open. */
  predicate HandoffDue(w: World, i: Inst, leaseNow: int) {
    && Alive(w, i) && i in w.locals && w.locals[i].retired && w.locals[i].stage.Recorded?
    && w.fences.provisioning && w.fences.clear
    && w.lease.Some? && w.lease.value.owner == i && leaseNow <= w.lease.value.expires && leaseNow <= w.now
    && w.current.Some? && w.current.value.instance == i && w.current.value.generation == |PathOf(i)|
  }

  lemma HandsOffExactly(max: nat, w: World, i: Inst, leaseNow: int)
    ensures Next(max, w, HandOff(i, leaseNow)) ==
      if HandoffDue(w, i, leaseNow)
      then Some(w.(locals := w.locals[i := Local(None, false, Idle)],
                   current := Some(Current(|PathOf(i)| + 1, w.locals[i].stage.successor, Some(i), true, false))))
      else None
  {
  }

  // ----- Fences -----

  /** The provisioning fence or one of the switches is closed. */
  predicate Shut(w: World) {
    !w.fences.provisioning || !w.fences.clear
  }

  /** CURRENT is handed to nobody and no launch is newly intended; marking retirement
      in it, and claiming an empty one for the seed, are not handoffs. */
  predicate NothingHandedOver(w: World, w1: World) {
    && w1.submissions == w.submissions && (w.current.Some? ==> w1.current.Some?)
    && (w1.current.Some? ==>
          if w.current.Some?
          then w1.current.value.(completed := false) == w.current.value.(completed := false)
          else w1.current.value.(completed := false) == Current(0, Seed, None, false, false))
  }

  lemma StepIsFenced(max: nat, w: World, a: Step, w1: World)
    requires Next(max, w, a) == Some(w1) && Shut(w)
    ensures NothingHandedOver(w, w1)
  {
  }

  /** The state before step k, if the run gets that far. */
  function At(max: nat, w: World, steps: seq<Step>, k: nat): Option<World>
    requires k <= |steps|
  {
    Run(max, w, steps[..k])
  }

  ghost predicate ShutThroughout(max: nat, w: World, steps: seq<Step>, n: nat)
    requires n <= |steps|
  {
    forall k | 0 <= k < n :: At(max, w, steps, k).Some? ==> Shut(At(max, w, steps, k).value)
  }

  lemma {:induction false} FencedUpTo(max: nat, w: World, steps: seq<Step>, n: nat)
    requires n <= |steps| && ShutThroughout(max, w, steps, n) && At(max, w, steps, n).Some?
    ensures NothingHandedOver(w, At(max, w, steps, n).value)
  {
    if n > 0 {
      var k := n - 1;
      assert steps[..n][..k] == steps[..k];
      FencedUpTo(max, w, steps, k);
      StepIsFenced(max, At(max, w, steps, k).value, steps[k], At(max, w, steps, n).value);
    }
  }

  /** While propagation is disabled, or a hold, stop or cleanup stands, whatever
      anybody does, CURRENT is not handed over and no generation is submitted. */
  lemma NothingPassesTheFence(max: nat, w: World, steps: seq<Step>)
    requires ShutThroughout(max, w, steps, |steps|) && Run(max, w, steps).Some?
    ensures NothingHandedOver(w, Run(max, w, steps).value)
  {
    assert steps[..|steps|] == steps;
    FencedUpTo(max, w, steps, |steps|);
  }
}
