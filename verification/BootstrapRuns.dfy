/** The operator bootstrap over whole runs: deliveries of the controller, commands,
    scripts and cleanup interleave at every conditional write. */
module BootstrapRuns {
  import opened Wrappers
  import opened Records
  import opened Lineage
  import opened Lifecycle

  /** How far the one delivery that claimed a cycle has got. */
  datatype Stage = Claimed | Locked | Checked | Created | Finished

  datatype Machine = Machine(
    request: Request,
    lock: Option<nat>,              // LOCK/PROVISIONING, by cycle
    boot: map<nat, Stage>,          // the claiming delivery of each cycle
    creates: seq<nat>,              // create_stack calls, by cycle
    stacks: set<nat>,               // bootstrap stacks CloudFormation shows
    submitted: set<nat>,            // cycles some delivery has finished
    seenActive: set<nat>,           // cycles whose cleanup some delivery read as active
    hold: bool, controlCleanup: bool)

  datatype Op =
    | WriteRequest(w: Write)
    | ClaimCycle(id: nat, digest: Item, newPin: Option<Pin>)
    | TakeLock(id: nat)
    | CheckAgain(id: nat)
    | CreateStack(id: nat)
    | StackAppears(id: nat)
    | FinishOwn(id: nat, stack: nat)
    | FinishRedelivered(id: nat, stack: nat)
    | Release(id: nat)
    | SeeActive
    | RetryAttention(id: nat)
    | CompleteCleanup(read: Request, digest: Item)
    | SetGates(hold: bool, controlCleanup: bool)

  function Update(m: Machine, w: Write): Machine {
    var r := Apply(m.request, w);
    if r.Some? then m.(request := r.value) else m
  }

  function Perform(m: Machine, op: Op): Machine {
    match op
    case WriteRequest(w) =>
      if !w.Claim? && !w.Finish? && !w.Reset? && !w.RaiseRetryAttention? && LawfulWrite(m.request, w)
      then Update(m, w) else m
    case ClaimCycle(id, digest, newPin) =>
      if Apply(m.request, Claim(id, digest, newPin)).Some?
      then Update(m, Claim(id, digest, newPin)).(boot := m.boot[id := Claimed]) else m
    case TakeLock(id) =>
      if id in m.boot && m.boot[id] == Claimed && LifecycleOpen(m.request, id)
         && !m.hold && !m.controlCleanup && m.lock.None?
      then m.(lock := Some(id), boot := m.boot[id := Locked]) else m
    case CheckAgain(id) =>
      if id in m.boot && m.boot[id] == Locked && LifecycleOpen(m.request, id) && m.request.status == Creating
         && m.request.bootstrap && !m.hold && !m.controlCleanup
      then m.(boot := m.boot[id := Checked]) else m
    case CreateStack(id) =>
      if id in m.boot && m.boot[id] == Checked
      then m.(creates := m.creates + [id], boot := m.boot[id := Created]) else m
    case StackAppears(id) =>
      if id in m.creates then m.(stacks := m.stacks + {id}) else m
    case FinishOwn(id, stack) =>
      if id in m.boot && m.boot[id] == Created && Apply(m.request, Finish(id, stack)).Some?
      then Update(m, Finish(id, stack)).(boot := m.boot[id := Finished], submitted := m.submitted + {id}) else m
    case FinishRedelivered(id, stack) =>
      if id in m.stacks && Apply(m.request, Finish(id, stack)).Some?
      then Update(m, Finish(id, stack)).(submitted := m.submitted + {id}) else m
    case Release(id) =>
      if id in m.submitted && m.lock == Some(id) then m.(lock := None) else m
    case SeeActive =>
      if Active(m.request) then m.(seenActive := m.seenActive + {m.request.id}) else m
    case RetryAttention(id) =>
      if id in m.seenActive then Update(m, RaiseRetryAttention(id)) else m
    case CompleteCleanup(read, digest) =>
      if m.lock.None? then Update(m, Reset(read, digest)) else m
    case SetGates(hold, controlCleanup) => m.(hold := hold, controlCleanup := controlCleanup)
  }

  function Run(m: Machine, ops: seq<Op>): Machine {
    if ops == [] then m else Perform(Run(m, ops[..|ops| - 1]), ops[|ops| - 1])
  }

  function Begin(digest: Item): Machine {
    Machine(Prepared(digest), None, map[], [], {}, {}, {}, false, false)
  }

  predicate Before(s: Stage) {
    s == Claimed || s == Locked || s == Checked
  }

  /** One cycle's bookkeeping. */
  predicate CycleInv(m: Machine, i: nat) {
    && (i in m.boot ==> i <= m.request.id)
    && (i == m.request.id ==> (i in m.boot <==> m.request.status != Ready))
    && (i in m.boot && m.boot[i] in {Locked, Checked} ==> m.lock == Some(i))
    && (i in m.boot && Before(m.boot[i]) && i == m.request.id ==> m.request.status == Creating)
    && (i in m.creates <==> i in m.boot && !Before(m.boot[i]))
    && (i in m.stacks || i in m.submitted ==> i in m.creates)
    && multiset(m.creates)[i] <= 1
    && (i in m.seenActive ==> i <= m.request.id && (i == m.request.id ==> m.request.cleanupRequested))
  }

  ghost predicate Inv(m: Machine) {
    && RequestInv(m.request)
    && (m.lock.Some? ==> m.lock.value == m.request.id && m.lock.value in m.boot)
    && forall i: nat :: CycleInv(m, i)
  }

  lemma WriteKeepsInv(m: Machine, w: Write)
    requires Inv(m) && LawfulWrite(m.request, w) && Apply(m.request, w).Some? && !w.Claim? && !w.Finish?
    requires w.Reset? ==> m.lock.None?
    ensures Inv(Update(m, w))
  {
    WriteKeepsRequest(m.request, w);
    var m1 := Update(m, w);
    assert w.Reset? ==> m1.request.id == m.request.id + 1 && m1.request.status == Ready;
    assert !w.Reset? ==> m1.request.id == m.request.id && m1.request.status == m.request.status;
    forall i: nat ensures CycleInv(m1, i) {
      assert CycleInv(m, i);
    }
  }

  lemma ClaimKeepsInv(m: Machine, id: nat, digest: Item, newPin: Option<Pin>)
    requires Inv(m)
    ensures Inv(Perform(m, ClaimCycle(id, digest, newPin)))
  {
    var m1 := Perform(m, ClaimCycle(id, digest, newPin));
    forall i: nat ensures CycleInv(m1, i) {
      assert CycleInv(m, i);
    }
  }

  lemma CreateKeepsInv(m: Machine, id: nat)
    requires Inv(m)
    ensures Inv(Perform(m, CreateStack(id)))
  {
    var m1 := Perform(m, CreateStack(id));
    forall i: nat ensures CycleInv(m1, i) {
      assert CycleInv(m, i);
      assert multiset(m.creates + [id]) == multiset(m.creates) + multiset([id]);
      assert i in m.creates <==> multiset(m.creates)[i] > 0;
      assert i in m.creates + [id] <==> i in m.creates || i == id;
    }
  }

  lemma FinishKeepsInv(m: Machine, op: Op)
    requires Inv(m) && (op.FinishOwn? || op.FinishRedelivered?)
    ensures Inv(Perform(m, op))
  {
    var m1 := Perform(m, op);
    forall i: nat ensures CycleInv(m1, i) {
      assert CycleInv(m, i) && CycleInv(m, op.id);
    }
  }

  lemma PlainOpKeepsInv(m: Machine, op: Op)
    requires Inv(m)
    requires op.TakeLock? || op.CheckAgain? || op.StackAppears? || op.Release? || op.SeeActive? || op.SetGates?
    ensures Inv(Perform(m, op))
  {
    var m1 := Perform(m, op);
    forall i: nat ensures CycleInv(m1, i) {
      assert CycleInv(m, i);
    }
  }

  lemma PerformKeepsInv(m: Machine, op: Op)
    requires Inv(m)
    ensures Inv(Perform(m, op))
  {
    match op
    case WriteRequest(w) =>
      if Perform(m, op) != m { WriteKeepsInv(m, w); }
    case ClaimCycle(id, digest, newPin) =>
      ClaimKeepsInv(m, id, digest, newPin);
    case CreateStack(id) =>
      CreateKeepsInv(m, id);
    case RetryAttention(id) =>
      assert CycleInv(m, id);
      if Perform(m, op) != m { WriteKeepsInv(m, RaiseRetryAttention(id)); }
    case CompleteCleanup(read, digest) =>
      if Perform(m, op) != m { WriteKeepsInv(m, Reset(read, digest)); }
    case FinishOwn(_, _) =>
      FinishKeepsInv(m, op);
    case FinishRedelivered(_, _) =>
      FinishKeepsInv(m, op);
    case _ =>
      PlainOpKeepsInv(m, op);
  }

  lemma {:induction false} RunKeepsInv(digest: Item, ops: seq<Op>)
    ensures Inv(Run(Begin(digest), ops))
  {
    if ops != [] {
      RunKeepsInv(digest, ops[..|ops| - 1]);
      PerformKeepsInv(Run(Begin(digest), ops[..|ops| - 1]), ops[|ops| - 1]);
    }
  }

  /** However deliveries are duplicated, delayed or interleaved: create_stack is
      called at most once per cycle, and a requested cleanup has both launch
      gates closed. */
  lemma OneCreatePerCycle(digest: Item, ops: seq<Op>, id: nat)
    ensures var m := Run(Begin(digest), ops);
      && multiset(m.creates)[id] <= 1
      && (m.request.cleanupRequested ==> GatesClosed(m.request))
      && (!Settled(m.request.cleanupStatus) ==> m.request.cleanupRequested)
  {
    RunKeepsInv(digest, ops);
    assert CycleInv(Run(Begin(digest), ops), id);
  }

  /** A create_stack call for a cycle happens inside that cycle: its provisioning
      lock is held and no cleanup has reset the record. */
  lemma CreateInsideItsCycle(digest: Item, ops: seq<Op>, id: nat)
    requires var m := Run(Begin(digest), ops); Perform(m, CreateStack(id)).creates != m.creates
    ensures var m := Run(Begin(digest), ops);
      m.request.id == id && m.request.status == Creating && m.lock == Some(id) && id !in m.creates
  {
    RunKeepsInv(digest, ops);
    assert CycleInv(Run(Begin(digest), ops), id);
  }

  lemma PerformSucceeds(m: Machine, op: Op)
    requires Inv(m)
    ensures Succeeds(m.request, Perform(m, op).request)
  {
    match op
    case WriteRequest(w) =>
      if Perform(m, op) != m { WriteKeepsRequest(m.request, w); }
    case RetryAttention(id) =>
      assert CycleInv(m, id);
    case _ =>
  }

  /** Every operation keeps the cycle or starts the next one READY with every gate
      closed; within a cycle the status only advances, and a cleanup request is
      never withdrawn. */
  lemma OperationSucceeds(digest: Item, ops: seq<Op>, op: Op)
    ensures var m := Run(Begin(digest), ops); Succeeds(m.request, Perform(m, op).request)
  {
    RunKeepsInv(digest, ops);
    PerformSucceeds(Run(Begin(digest), ops), op);
  }

  lemma {:induction false} CyclesOnlyAdvance(digest: Item, ops: seq<Op>, k: nat)
    requires k <= |ops|
    ensures Run(Begin(digest), ops[..k]).request.id <= Run(Begin(digest), ops).request.id
    decreases |ops|
  {
    if k < |ops| {
      var before := ops[..|ops| - 1];
      CyclesOnlyAdvance(digest, before, k);
      assert before[..k] == ops[..k];
      OperationSucceeds(digest, before, ops[|ops| - 1]);
    } else {
      assert ops[..k] == ops;
    }
  }

  /** No START survives a reset: once cycle k is over, any operation that opens a
      launch gate is a put or a script run for the cycle then current. */
  lemma GatesOpenOnlyForTheirCycle(digest: Item, ops: seq<Op>, op: Op)
    requires var m := Run(Begin(digest), ops);
      GatesClosed(m.request) && !GatesClosed(Perform(m, op).request)
    ensures var m := Run(Begin(digest), ops);
      && op.WriteRequest? && LifecycleOpen(m.request, m.request.id)
      && (op.w.PutOver? ==> op.w.read.id == m.request.id)
      && (op.w.RunScript? ==> op.w.id == m.request.id)
      && (op.w.PutOver? || op.w.RunScript?)
  {
    RunKeepsInv(digest, ops);
    var m := Run(Begin(digest), ops);
    if op.WriteRequest? && Perform(m, op) != m { WriteKeepsRequest(m.request, op.w); }
  }

  // ----- What each operation needs, and what it leaves -----

  predicate NoCleanup(m: Machine) {
    !m.request.cleanupRequested && m.request.cleanupStatus in {Idle, Done}
  }

  predicate StageIs(m: Machine, id: nat, stage: Stage) {
    id in m.boot && m.boot[id] == stage
  }

  /** The durable claim: an enabled READY cycle with its settings' digest, once. */
  lemma ClaimsExactly(m: Machine, id: nat, digest: Item, newPin: Option<Pin>)
    ensures Perform(m, ClaimCycle(id, digest, newPin)) ==
      if m.request.id == id && NoCleanup(m) && m.request.status == Ready && m.request.bootstrap
         && m.request.controlDigest == digest
      then m.(request := m.request.(status := Creating, pin := if newPin.Some? then newPin else m.request.pin),
              boot := m.boot[id := Claimed])
      else m
  {
  }

  /** The provisioning lock, and the guard made again under it. */
  lemma LocksExactly(m: Machine, id: nat)
    ensures Perform(m, TakeLock(id)) ==
      if StageIs(m, id, Claimed) && m.request.id == id && NoCleanup(m) && !m.hold && !m.controlCleanup && m.lock.None?
      then m.(lock := Some(id), boot := m.boot[id := Locked]) else m
    ensures Perform(m, CheckAgain(id)) ==
      if StageIs(m, id, Locked) && m.request.id == id && NoCleanup(m) && !m.hold && !m.controlCleanup
         && m.request.status == Creating && m.request.bootstrap
      then m.(boot := m.boot[id := Checked]) else m
    ensures Perform(m, Release(id)) == if id in m.submitted && m.lock == Some(id) then m.(lock := None) else m
  {
  }

  /** One create_stack by the delivery that passed both; a stack shows up only after it. */
  lemma CreatesExactly(m: Machine, id: nat)
    ensures Perform(m, CreateStack(id)) ==
      if StageIs(m, id, Checked) then m.(creates := m.creates + [id], boot := m.boot[id := Created]) else m
    ensures Perform(m, StackAppears(id)) == if id in m.creates then m.(stacks := m.stacks + {id}) else m
  {
  }

  /** SUBMITTED is recorded by the creating delivery, or by a later one that sees the
      stack, while the cycle is still being created. */
  lemma FinishesExactly(m: Machine, id: nat, stack: nat)
    ensures var creating := m.request.id == id && m.request.status == Creating;
      var done := m.(request := m.request.(status := Submitted, stackId := Some(stack)),
                     submitted := m.submitted + {id});
      && Perform(m, FinishOwn(id, stack)) ==
           (if StageIs(m, id, Created) && creating then done.(boot := m.boot[id := Finished]) else m)
      && Perform(m, FinishRedelivered(id, stack)) == (if id in m.stacks && creating then done else m)
  {
  }

  /** A cleanup is reset only with the provisioning lock free. */
  lemma CleanupMovesExactly(m: Machine, read: Request, digest: Item)
    ensures m.lock.Some? ==> Perform(m, CompleteCleanup(read, digest)) == m
    ensures m.lock.None? && read == m.request && read.id < MAX_CYCLE ==>
      Perform(m, CompleteCleanup(read, digest)) == m.(request := Request(
        read.id + 1, Ready, false, false, false, Done, digest, None, None, read.inventory, read.target, None))
    ensures Perform(m, SeeActive) ==
      if m.request.cleanupRequested && m.request.cleanupStatus in {Quiescing, Deleting, Verifying}
      then m.(seenActive := m.seenActive + {m.request.id}) else m
    ensures Perform(m, RetryAttention(m.request.id)) ==
      if m.request.id in m.seenActive then m.(request := m.request.(cleanupStatus := NeedsAttention)) else m
  {
  }

  // ----- Held bootstraps, and undisturbed ones -----

  /** A hold, a cleanup asked for or under way, another cycle, or a closed gate. */
  predicate Shut(m: Machine, id: nat) {
    || m.hold || m.controlCleanup || m.request.id != id || !m.request.bootstrap
    || m.request.cleanupRequested || m.request.cleanupStatus in {Quiescing, Deleting, Verifying, NeedsAttention}
  }

  predicate MayCreate(m: Machine, id: nat) {
    id in m.boot && m.boot[id] == Checked
  }

  lemma ShutStep(m: Machine, op: Op, id: nat)
    requires Shut(m, id) && !MayCreate(m, id)
    ensures var m1 := Perform(m, op); !MayCreate(m1, id) && multiset(m1.creates)[id] == multiset(m.creates)[id]
  {
    if op.CreateStack? {
      assert multiset(m.creates + [op.id]) == multiset(m.creates) + multiset{op.id};
    }
  }

  /** The machine before operation k. */
  function At(m: Machine, ops: seq<Op>, k: nat): Machine
    requires k <= |ops|
  {
    Run(m, ops[..k])
  }

  lemma {:induction false} ShutUpTo(m: Machine, ops: seq<Op>, n: nat, id: nat)
    requires n <= |ops| && !MayCreate(m, id) && forall k | 0 <= k < n :: Shut(At(m, ops, k), id)
    ensures var m1 := At(m, ops, n); !MayCreate(m1, id) && multiset(m1.creates)[id] == multiset(m.creates)[id]
  {
    if n > 0 {
      var k := n - 1;
      assert ops[..n][..k] == ops[..k];
      ShutUpTo(m, ops, k, id);
      ShutStep(At(m, ops, k), ops[k], id);
    }
  }

  /** While a hold, a cleanup or the closed gate stands, no delivery passes its last
      check, and no stack is created unless one had passed it before. */
  lemma NoCreateWhileShut(m: Machine, ops: seq<Op>, id: nat)
    requires !MayCreate(m, id) && forall k | 0 <= k < |ops| :: Shut(At(m, ops, k), id)
    ensures multiset(Run(m, ops).creates)[id] == multiset(m.creates)[id]
  {
    ShutUpTo(m, ops, |ops|, id);
    assert ops[..|ops|] == ops;
  }

  /** The operations of one delivery that meets no obstacle. */
  function Delivery(id: nat, digest: Item, newPin: Option<Pin>, stack: nat): seq<Op> {
    [ClaimCycle(id, digest, newPin), TakeLock(id), CheckAgain(id), CreateStack(id), FinishOwn(id, stack), Release(id)]
  }

  lemma OneAfter(m: Machine, ops: seq<Op>, op: Op)
    ensures Run(m, ops + [op]) == Perform(Run(m, ops), op)
  {
    assert (ops + [op])[..|ops|] == ops;
  }

  /** An enabled READY cycle with nothing in the way is claimed, created exactly once
      and submitted, and its lock given back. */
  lemma BootstrapCompletes(m: Machine, digest: Item, newPin: Option<Pin>, stack: nat)
    requires m.request.status == Ready && m.request.bootstrap && m.request.controlDigest == digest
    requires !m.request.cleanupRequested && m.request.cleanupStatus in {Idle, Done}
    requires !m.hold && !m.controlCleanup && m.lock.None?
    ensures var m1 := Run(m, Delivery(m.request.id, digest, newPin, stack));
      && m1.request == m.request.(status := Submitted, stackId := Some(stack),
                                  pin := if newPin.Some? then newPin else m.request.pin)
      && m1.creates == m.creates + [m.request.id] && m1.lock.None? && m.request.id in m1.submitted
  {
    var id := m.request.id;
    var first := [ClaimCycle(id, digest, newPin), TakeLock(id), CheckAgain(id)];
    ChecksPass(m, digest, newPin);
    var m1 := Run(m, first);
    CreationSubmits(m1, id, stack);
    OneAfter(m, first, CreateStack(id));
    OneAfter(m, first + [CreateStack(id)], FinishOwn(id, stack));
    OneAfter(m, first + [CreateStack(id)] + [FinishOwn(id, stack)], Release(id));
    assert first + [CreateStack(id)] + [FinishOwn(id, stack)] + [Release(id)] == Delivery(id, digest, newPin, stack);
  }

  lemma CreationSubmits(m: Machine, id: nat, stack: nat)
    requires id in m.boot && m.boot[id] == Checked && m.lock == Some(id)
    requires m.request.id == id && m.request.status == Creating
    ensures var m1 := Perform(Perform(Perform(m, CreateStack(id)), FinishOwn(id, stack)), Release(id));
      && m1.request == m.request.(status := Submitted, stackId := Some(stack))
      && m1.creates == m.creates + [id] && m1.lock.None? && id in m1.submitted
  {
  }

  lemma ChecksPass(m: Machine, digest: Item, newPin: Option<Pin>)
    requires m.request.status == Ready && m.request.bootstrap && m.request.controlDigest == digest
    requires !m.request.cleanupRequested && m.request.cleanupStatus in {Idle, Done}
    requires !m.hold && !m.controlCleanup && m.lock.None?
    ensures var id := m.request.id; var m1 := Run(m, [ClaimCycle(id, digest, newPin), TakeLock(id), CheckAgain(id)]);
      && m1.request == m.request.(status := Creating, pin := if newPin.Some? then newPin else m.request.pin)
      && m1.lock == Some(id) && id in m1.boot && m1.boot[id] == Checked
      && m1.creates == m.creates && m1.submitted == m.submitted
  {
    var id := m.request.id;
    var claim := ClaimCycle(id, digest, newPin);
    OneAfter(m, [], claim);
    assert [] + [claim] == [claim];
    OneAfter(m, [claim], TakeLock(id));
    assert [claim] + [TakeLock(id)] == [claim, TakeLock(id)];
    OneAfter(m, [claim, TakeLock(id)], CheckAgain(id));
    assert [claim, TakeLock(id)] + [CheckAgain(id)] == [claim, TakeLock(id), CheckAgain(id)];
    ClaimChecks(m, claim);
  }

  lemma ClaimChecks(m: Machine, claim: Op)
    requires claim.ClaimCycle? && claim.id == m.request.id && claim.digest == m.request.controlDigest
    requires m.request.status == Ready && m.request.bootstrap
    requires !m.request.cleanupRequested && m.request.cleanupStatus in {Idle, Done}
    requires !m.hold && !m.controlCleanup && m.lock.None?
    ensures var id := m.request.id; var m1 := Perform(Perform(Perform(m, claim), TakeLock(id)), CheckAgain(id));
      && m1.request == m.request.(status := Creating, pin := if claim.newPin.Some? then claim.newPin else m.request.pin)
      && m1.lock == Some(id) && id in m1.boot && m1.boot[id] == Checked
      && m1.creates == m.creates && m1.submitted == m.submitted
  {
  }
}
