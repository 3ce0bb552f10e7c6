/** Safety of the EC2 chain over every run. */
module Ec2ChainSafety {
  import opened Wrappers
  import opened Lineage
  import opened Ec2Chain

  // ----- One instance per generation -----

  lemma OneParent(w: World, i: Inst, j: Inst)
    requires Inv(w) && CallsOf(w, i) == 1 && CallsOf(w, j) == 1 && Generation(i) == Generation(j)
    ensures i == j
  {
    assert CallInv(w, i) && CallInv(w, j);
  }

  /** The generation determines the instance. */
  lemma OnePerGeneration(w: World, x: Inst, y: Inst)
    requires Inv(w) && x in w.ec2 && y in w.ec2 && Generation(x) == Generation(y)
    ensures x == y
  {
    assert InstanceInv(w, x) && InstanceInv(w, y);
    if x.Child? && y.Child? { OneParent(w, x.parent, y.parent); }
  }

  lemma {:induction false} AncestorAt(w: World, x: Inst, g: nat) returns (y: Inst)
    requires Inv(w) && x in w.ec2 && g <= Generation(x)
    ensures y in w.ec2 && Generation(y) == g
    decreases x
  {
    if Generation(x) == g {
      y := x;
    } else {
      assert InstanceInv(w, x);
      y := AncestorAt(w, x.parent, g);
    }
  }

  /** An instance still to appear is ahead of CURRENT. */
  lemma NewInstanceIsAhead(w: World, i: Inst)
    requires Inv(w) && CallsOf(w, i) == 1 && Child(i, 0, 0) !in w.ec2
    ensures Generation(i) + 1 > CurrentGeneration(w) && i in w.ec2
  {
    assert CallInv(w, i) && SubmissionInv(w, Generation(i) + 1);
    if Generation(i) + 1 <= CurrentGeneration(w) {
      var y := AncestorAt(w, w.current.value.instance, Generation(i) + 1);
      assert InstanceInv(w, y);
      OneParent(w, i, y.parent);
    }
  }

  // ----- Steps by what they change -----

  /** Only the fences, the lease, the marker and one daemon's locals. */
  ghost predicate LocalStep(w: World, w1: World, i: Inst) {
    && w1 == w.(fences := w1.fences, now := w1.now, lease := w1.lease, marker := w1.marker, locals := w1.locals)
    && forall j | j != i :: LocalAt(w1, j) == LocalAt(w, j)
  }

  lemma LocalStepKeepsInv(w: World, w1: World, i: Inst)
    requires Inv(w) && LocalStep(w, w1, i) && LocalInv(w1, i) && CallInv(w1, i)
    ensures Inv(w1)
  {
    assert forall x :: InstanceInv(w, x) ==> InstanceInv(w1, x);
    assert forall n :: SubmissionInv(w, n) ==> SubmissionInv(w1, n);
    forall j ensures CallInv(w1, j) { assert CallInv(w, j); }
    forall j ensures LocalInv(w1, j) { assert LocalInv(w, j); }
    forall x ensures BehindInv(w1, x) { assert BehindInv(w, x); }
  }

  /** Instances change state, a terminated one not; new ones are ahead of CURRENT. */
  ghost predicate InstanceStep(w: World, w1: World) {
    && w1 == w.(ec2 := w1.ec2, terminated := w1.terminated)
    && w.ec2.Keys <= w1.ec2.Keys
    && (forall x | Ended(w, x) :: Ended(w1, x))
    && (forall x | x in w1.ec2 && x !in w.ec2 :: InstanceInv(w1, x) && Generation(x) > CurrentGeneration(w))
    && (forall x | x in w1.terminated && x !in w.terminated :: Generation(x) < CurrentGeneration(w))
  }

  lemma InstanceStepKeepsInv(w: World, w1: World)
    requires Inv(w) && InstanceStep(w, w1)
    ensures Inv(w1)
  {
    forall x ensures InstanceInv(w1, x) { assert InstanceInv(w, x); }
    forall n ensures SubmissionInv(w1, n) { assert SubmissionInv(w, n); }
    forall i ensures CallInv(w1, i) { assert CallInv(w, i); }
    forall i ensures LocalInv(w1, i) { assert LocalInv(w, i); }
    forall x ensures BehindInv(w1, x) { assert BehindInv(w, x); }
  }

  /** CURRENT stays or moves forward to an existing instance. */
  ghost predicate CurrentStep(w: World, w1: World) {
    && w1 == w.(current := w1.current, locals := w1.locals, recorded := w1.recorded)
    && w.recorded <= w1.recorded && CurrentGeneration(w) <= CurrentGeneration(w1)
    && CurrentInv(w1)
    && (forall i :: LocalInv(w1, i) && CallInv(w1, i))
    && (forall x | x in w.ec2 && Generation(x) + 2 <= CurrentGeneration(w1) :: Ended(w, x))
  }

  lemma CurrentStepKeepsInv(w: World, w1: World)
    requires Inv(w) && CurrentStep(w, w1)
    ensures Inv(w1)
  {
    forall x ensures InstanceInv(w1, x) { assert InstanceInv(w, x); }
    forall n ensures SubmissionInv(w1, n) { assert SubmissionInv(w, n); }
    forall x ensures BehindInv(w1, x) { assert BehindInv(w, x); }
  }

  // ----- Each step -----

  lemma ReadKeepsInv(w: World, i: Inst, w1: World)
    requires Inv(w) && DoRead(w, i) == Some(w1)
    ensures Inv(w1)
  {
    assert CallInv(w, i);
    LocalStepKeepsInv(w, w1, i);
  }

  lemma LoseKeepsInv(w: World, i: Inst)
    requires Inv(w)
    ensures Inv(SetLocal(w, i, Fresh))
  {
    assert CallInv(w, i);
    LocalStepKeepsInv(w, SetLocal(w, i, Fresh), i);
  }

  lemma PlainKeepsInv(max: nat, w: World, a: Step, w1: World)
    requires Inv(w) && Next(max, w, a) == Some(w1)
    requires a.SetFences? || a.AcquireLease? || a.RenewLease? || a.ReleaseLease? || a.EndProvisioning?
    ensures Inv(w1)
  {
    assert LocalInv(w, Seed) && CallInv(w, Seed);
    LocalStepKeepsInv(w, w1, Seed);
  }

  lemma MakeKeepsInv(w: World, i: Inst, call: nat, w1: World)
    requires Inv(w) && DoMake(w, i, call) == Some(w1)
    ensures Inv(w1)
  {
    assert CallInv(w, i);
    NewInstanceIsAhead(w, i);
    InstanceStepKeepsInv(w, w1);
  }

  lemma Ec2KeepsInv(max: nat, w: World, a: Step, w1: World)
    requires Inv(w) && (a.Boot? || a.FinishTermination? || a.Die?) && Next(max, w, a) == Some(w1)
    ensures Inv(w1)
  {
    InstanceStepKeepsInv(w, w1);
  }

  lemma TerminateKeepsInv(w: World, i: Inst, w1: World)
    requires Inv(w) && DoTerminate(w, i) == Some(w1)
    ensures Inv(w1) && Generation(i.parent) < CurrentGeneration(w)
  {
    assert LocalInv(w, i);
    InstanceStepKeepsInv(w, w1);
  }

  lemma ClaimInitialKeepsInv(w: World, w1: World)
    requires Inv(w) && DoClaimInitial(w) == Some(w1)
    ensures Inv(w1)
  {
    forall i ensures LocalInv(w1, i) && CallInv(w1, i) { assert LocalInv(w, i) && CallInv(w, i); }
    CurrentStepKeepsInv(w, w1);
  }

  lemma ConfirmKeepsInv(w: World, i: Inst, w1: World)
    requires Inv(w) && DoConfirm(w, i) == Some(w1)
    ensures Inv(w1)
  {
    assert LocalInv(w, i) && CallInv(w, i);
    if w1.current == w.current {
      LocalStepKeepsInv(w, w1, i);
    } else {
      forall j ensures LocalInv(w1, j) && CallInv(w1, j) { assert LocalInv(w, j) && CallInv(w, j); }
      forall x | x in w.ec2 && Generation(x) + 2 <= CurrentGeneration(w1) ensures Ended(w, x) {
        assert BehindInv(w, x);
      }
      CurrentStepKeepsInv(w, w1);
    }
  }

  lemma ClaimKeepsInv(max: nat, w: World, i: Inst, w1: World)
    requires Inv(w) && DoClaim(max, w, i) == Some(w1)
    ensures Inv(w1)
  {
    assert LocalInv(w, i) && CallInv(w, i);
    var n := Generation(i) + 1;
    forall x ensures InstanceInv(w1, x) { assert InstanceInv(w, x); }
    forall m ensures SubmissionInv(w1, m) { assert SubmissionInv(w, m); }
    forall j ensures CallInv(w1, j) { assert CallInv(w, j); }
    forall j ensures LocalInv(w1, j) { assert LocalInv(w, j); }
    forall x ensures BehindInv(w1, x) { assert BehindInv(w, x); }
  }

  lemma CallKeepsInv(w: World, i: Inst, w1: World)
    requires Inv(w) && DoCall(w, i) == Some(w1)
    ensures Inv(w1)
  {
    assert LocalInv(w, i) && CallInv(w, i);
    forall x ensures InstanceInv(w1, x) { assert InstanceInv(w, x); }
    forall m ensures SubmissionInv(w1, m) { assert SubmissionInv(w, m); }
    forall j ensures CallInv(w1, j) { assert CallInv(w, j); }
    forall j ensures LocalInv(w1, j) { assert LocalInv(w, j); }
    forall x ensures BehindInv(w1, x) { assert BehindInv(w, x); }
  }

  lemma HearKeepsInv(max: nat, w: World, a: Step, w1: World)
    requires Inv(w) && (a.Hear? || a.FindSuccessor?) && Next(max, w, a) == Some(w1)
    ensures Inv(w1)
  {
    assert LocalInv(w, a.i) && CallInv(w, a.i);
    LocalStepKeepsInv(w, w1, a.i);
  }

  lemma RecordKeepsInv(w: World, i: Inst, w1: World)
    requires Inv(w) && DoRecord(w, i) == Some(w1)
    ensures Inv(w1)
  {
    forall j ensures LocalInv(w1, j) && CallInv(w1, j) { assert LocalInv(w, j) && CallInv(w, j); }
    forall x | x in w.ec2 && Generation(x) + 2 <= CurrentGeneration(w1) ensures Ended(w, x) { assert BehindInv(w, x); }
    CurrentStepKeepsInv(w, w1);
  }

  /** A handoff waits for the predecessor's termination, so with the next owner
      everything two generations behind it is gone. */
  lemma HandOffKeepsInv(w: World, i: Inst, leaseNow: int, w1: World)
    requires Inv(w) && DoHandOff(w, i, leaseNow) == Some(w1)
    ensures Inv(w1) && CurrentGeneration(w1) == CurrentGeneration(w) + 1
  {
    assert LocalInv(w, i);
    forall j ensures LocalInv(w1, j) && CallInv(w1, j) { assert LocalInv(w, j) && CallInv(w, j); }
    forall x | x in w.ec2 && Generation(x) + 2 <= CurrentGeneration(w1) ensures Ended(w, x) {
      assert BehindInv(w, x);
      if Generation(x) + 1 == Generation(i) {
        assert InstanceInv(w, i);
        OnePerGeneration(w, x, i.parent);
      }
    }
    CurrentStepKeepsInv(w, w1);
  }

  lemma StepKeepsInv(max: nat, w: World, a: Step, w1: World)
    requires Inv(w) && Next(max, w, a) == Some(w1)
    ensures Inv(w1)
  {
    match a
    case Make(i, call) => MakeKeepsInv(w, i, call, w1);
    case Boot(x) => Ec2KeepsInv(max, w, a, w1);
    case FinishTermination(x) => Ec2KeepsInv(max, w, a, w1);
    case Die(x) => Ec2KeepsInv(max, w, a, w1);
    case ClaimInitial => ClaimInitialKeepsInv(w, w1);
    case ReadSnapshot(i) => ReadKeepsInv(w, i, w1);
    case Lose(i) => LoseKeepsInv(w, i);
    case TerminatePredecessor(i) => TerminateKeepsInv(w, i, w1);
    case ConfirmRetirement(i) => ConfirmKeepsInv(w, i, w1);
    case ClaimSubmission(i) => ClaimKeepsInv(max, w, i, w1);
    case CallEc2(i) => CallKeepsInv(w, i, w1);
    case Hear(i, x) => HearKeepsInv(max, w, a, w1);
    case FindSuccessor(i, x) => HearKeepsInv(max, w, a, w1);
    case RecordSuccessor(i) => RecordKeepsInv(w, i, w1);
    case HandOff(i, leaseNow) => HandOffKeepsInv(w, i, leaseNow, w1);
    case _ => PlainKeepsInv(max, w, a, w1);
  }

  lemma {:induction false} EveryRunIsSafe(max: nat, w: World, steps: seq<Step>)
    requires Initial(w) && Run(max, w, steps).Some?
    ensures Inv(Run(max, w, steps).value)
  {
    if steps == [] {
      assert forall i :: LocalAt(w, i) == Fresh && CallsOf(w, i) == 0;
    } else {
      var before := Run(max, w, steps[..|steps| - 1]).value;
      EveryRunIsSafe(max, w, steps[..|steps| - 1]);
      StepKeepsInv(max, before, steps[|steps| - 1], Run(max, w, steps).value);
    }
  }

  // ----- What every run of the chain keeps -----

  /** CURRENT's generation moves only by one, and only to a recorded instance that
      its present owner launched; whoever owns it keeps it until then. */
  lemma CurrentMovesByOne(max: nat, w: World, steps: seq<Step>, a: Step)
    requires Initial(w) && Run(max, w, steps).Some? && Next(max, Run(max, w, steps).value, a).Some?
    ensures var w1 := Run(max, w, steps).value; var w2 := Next(max, w1, a).value;
      if w1.current.None? then w2.current.None? || w2.current.value.instance == Seed
      else
        && w2.current.Some?
        && var (cur, next) := (w1.current.value, w2.current.value);
        && (next.instance == cur.instance
            || (next.generation == cur.generation + 1 && next.instance in w2.ec2 && next.instance in w2.recorded
                && Predecessor(next.instance) == Some(cur.instance) && Generation(next.instance) == next.generation))
  {
    EveryRunIsSafe(max, w, steps);
    var w1 := Run(max, w, steps).value;
    StepKeepsInv(max, w1, a, Next(max, w1, a).value);
    if a.HandOff? { HandOffIsLawful(w1, a.i, a.leaseNow); }
  }

  lemma HandOffIsLawful(w: World, i: Inst, leaseNow: int)
    requires Inv(w) && DoHandOff(w, i, leaseNow).Some?
    ensures var w1 := DoHandOff(w, i, leaseNow).value;
      && w.current.Some? && w1.current.Some? && w1.current.value.generation == w.current.value.generation + 1
      && Predecessor(w1.current.value.instance) == Some(w.current.value.instance)
  {
    assert LocalInv(w, i);
  }

  /** At most one RunInstances is ever issued for a generation, by one instance, and
      at most one instance of the generation ever exists. */
  lemma OneLaunchPerGeneration(max: nat, w: World, steps: seq<Step>, i: Inst, j: Inst)
    requires Initial(w) && Run(max, w, steps).Some? && Generation(i) == Generation(j)
    ensures var w1 := Run(max, w, steps).value;
      && CallsOf(w1, i) <= 1
      && (i != j ==> CallsOf(w1, i) == 0 || CallsOf(w1, j) == 0)
      && (i in w1.ec2 && j in w1.ec2 ==> i == j)
  {
    EveryRunIsSafe(max, w, steps);
    var w1 := Run(max, w, steps).value;
    assert CallInv(w1, i) && CallInv(w1, j);
    if CallsOf(w1, i) == 1 && CallsOf(w1, j) == 1 { OneParent(w1, i, j); }
    if i in w1.ec2 && j in w1.ec2 { OnePerGeneration(w1, i, j); }
  }

  /** Every instance the protocol terminates is behind CURRENT; at most one daemon
      believes it owns CURRENT, and it does, lease or no lease. */
  lemma OwnershipIsSafe(max: nat, w: World, steps: seq<Step>, x: Inst, i: Inst, j: Inst)
    requires Initial(w) && Run(max, w, steps).Some?
    ensures var w1 := Run(max, w, steps).value;
      && (x in w1.terminated ==> w1.current.Some? && Generation(x) < w1.current.value.generation)
      && (SawItself(w1, i) ==> w1.current.Some? && w1.current.value.instance == i)
      && (SawItself(w1, i) && SawItself(w1, j) ==> i == j)
  {
    EveryRunIsSafe(max, w, steps);
    var w1 := Run(max, w, steps).value;
    assert BehindInv(w1, x) && LocalInv(w1, i) && LocalInv(w1, j);
  }

  lemma AheadByOne(w: World, x: Inst)
    requires Inv(w) && x in w.ec2
    ensures Generation(x) <= CurrentGeneration(w) + 1
  {
    assert InstanceInv(w, x);
    if x.Child? { assert CallInv(w, x.parent) && SubmissionInv(w, Generation(x)); }
  }

  /** At most three instances are not terminated, whatever fails or is lost. */
  lemma AtMostThreeLive(max: nat, w: World, steps: seq<Step>, live: set<Inst>)
    requires Initial(w) && Run(max, w, steps).Some?
    requires forall x | x in live :: x in Run(max, w, steps).value.ec2 && !Ended(Run(max, w, steps).value, x)
    ensures |live| <= 3
  {
    EveryRunIsSafe(max, w, steps);
    var w1 := Run(max, w, steps).value;
    var lo: nat := if CurrentGeneration(w1) >= 1 then CurrentGeneration(w1) - 1 else 0;
    forall x, y | x in live && y in live && Generation(x) == Generation(y) ensures x == y {
      OnePerGeneration(w1, x, y);
    }
    forall x | x in live ensures lo <= Generation(x) < lo + 3 {
      assert BehindInv(w1, x);
      AheadByOne(w1, x);
    }
    GenerationsBound(live, lo, 3);
  }
}
