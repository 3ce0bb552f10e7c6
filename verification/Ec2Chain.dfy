/** The single-successor EC2 chain of one cycle: ownership of CURRENT, the lease, one
    launch per generation, and retirement before the next handoff. Each conditional
    transaction is one step. Reads are steps of their own and may be stale when they
    are used; the daemons' further precautions (capacity, health, a second ownership
    read) only remove behaviour and are not required here. */
module Ec2Chain {
  import opened Wrappers
  import opened Lineage

  function Predecessor(i: Inst): Option<Inst> {
    if i.Child? then Some(i.parent) else None
  }

  datatype Current = Current(
    generation: nat, instance: Inst, predecessor: Option<Inst>, authorized: bool, completed: bool)

  datatype Lease = Lease(owner: Inst, expires: int)

  /** How far a daemon's cycle has come with its successor. */
  datatype Stage = Idle | Permit | Waiting | Got(successor: Inst) | Recorded(successor: Inst)

  /** A cycle's local knowledge: the CURRENT it read, whether its predecessor's
      retirement returned true, and its successor. */
  datatype Local = Local(seen: Option<Current>, retired: bool, stage: Stage)

  const Fresh := Local(None, false, Idle)

  /** lifecycle, provisioning, clear: the lifecycle fence, the same with propagation
      enabled, and no hold, stop or cleanup switch. */
  datatype Fences = Fences(lifecycle: bool, provisioning: bool, clear: bool)

  datatype World = World(
    current: Option<Current>, submissions: map<nat, Inst>, marker: Option<nat>, recorded: set<Inst>,
    lease: Option<Lease>, fences: Fences, now: int, ec2: map<Inst, Ec2>, locals: map<Inst, Local>,
    calls: map<Inst, nat>,         // RunInstances requests issued, by requesting instance
    terminated: set<Inst>)         // history: what the protocol asked EC2 to terminate

  function LocalAt(w: World, i: Inst): Local {
    if i in w.locals then w.locals[i] else Fresh
  }

  function CallsOf(w: World, i: Inst): nat {
    if i in w.calls then w.calls[i] else 0
  }

  function SetLocal(w: World, i: Inst, l: Local): World {
    w.(locals := w.locals[i := l])
  }

  predicate Ended(w: World, i: Inst) {
    i in w.ec2 && w.ec2[i] == Gone
  }

  predicate Acting(w: World, i: Inst) {
    i in w.ec2 && w.ec2[i] in {Running, ShuttingDown}
  }

  /** The snapshot shows i as the owner of CURRENT. */
  predicate SawItself(w: World, i: Inst) {
    LocalAt(w, i).seen.Some? && LocalAt(w, i).seen.value.instance == i
      && LocalAt(w, i).seen.value.generation == Generation(i)
  }

  datatype Step =
    // the environment
    | SetFences(fences: Fences, now: int)
    | Make(i: Inst, call: nat)
    | Boot(x: Inst)
    | FinishTermination(x: Inst)
    | Die(x: Inst)
    // the daemon on instance i
    | ClaimInitial
    | ReadSnapshot(i: Inst)
    | Lose(i: Inst)
    | AcquireLease(i: Inst, expires: int)
    | RenewLease(i: Inst, expires: int)
    | ReleaseLease(i: Inst)
    | TerminatePredecessor(i: Inst)
    | ConfirmRetirement(i: Inst)
    | ClaimSubmission(i: Inst)
    | CallEc2(i: Inst)
    | Hear(i: Inst, x: Inst)
    | FindSuccessor(i: Inst, x: Inst)
    | RecordSuccessor(i: Inst)
    | EndProvisioning(i: Inst)
    | HandOff(i: Inst, leaseNow: int)

  function DoEc2(w: World, x: Inst, from: Ec2, to: Ec2): Option<World> {
    if x in w.ec2 && w.ec2[x] == from then Some(w.(ec2 := w.ec2[x := to])) else None
  }

  function DoMake(w: World, i: Inst, call: nat): Option<World> {
    var x := Child(i, 0, call);
    if call < CallsOf(w, i) && x !in w.ec2 then Some(w.(ec2 := w.ec2[x := Pending])) else None
  }

  function DoDie(w: World, x: Inst): Option<World> {
    if x in w.ec2 then Some(w.(ec2 := w.ec2[x := Gone])) else None
  }

  /** Only the operator's seed may claim an uninitialized CURRENT. */
  function DoClaimInitial(w: World): Option<World> {
    if Acting(w, Seed) && w.fences.lifecycle && w.current.None?
    then Some(w.(current := Some(Current(0, Seed, None, false, false)))) else None
  }

  function DoRead(w: World, i: Inst): Option<World> {
    if Acting(w, i) then Some(SetLocal(w, i, Local(w.current, false, Idle))) else None
  }

  function DoAcquire(w: World, i: Inst, expires: int): Option<World> {
    if Acting(w, i) && SawItself(w, i) && w.fences.lifecycle
       && (w.lease.None? || w.lease.value.expires < w.now || w.lease.value.owner == i)
    then Some(w.(lease := Some(Lease(i, expires)))) else None
  }

  function DoRenew(w: World, i: Inst, expires: int): Option<World> {
    if Acting(w, i) && w.fences.lifecycle && w.lease.Some? && w.lease.value.owner == i
    then Some(w.(lease := Some(Lease(i, expires)))) else None
  }

  function DoRelease(w: World, i: Inst): Option<World> {
    if Acting(w, i) && w.lease.Some? && w.lease.value.owner == i then Some(w.(lease := None)) else None
  }

  /** retire_predecessor's authorization, as the snapshot shows it. */
  predicate Authorized(w: World, i: Inst) {
    SawItself(w, i) && i.Child? && LocalAt(w, i).seen.value.predecessor == Some(i.parent)
      && LocalAt(w, i).seen.value.authorized
  }

  function DoTerminate(w: World, i: Inst): Option<World> {
    if !Acting(w, i) || !Authorized(w, i) || LocalAt(w, i).seen.value.completed
       || i.parent !in w.ec2 || w.ec2[i.parent] in {ShuttingDown, Gone} then None
    else Some(w.(ec2 := w.ec2[i.parent := ShuttingDown], terminated := w.terminated + {i.parent}))
  }

  /** retire_predecessor returns true: no predecessor, or retirement already marked
      in the snapshot, or the predecessor seen terminated and now marked. */
  function DoConfirm(w: World, i: Inst): Option<World> {
    var done := SetLocal(w, i, LocalAt(w, i).(retired := true));
    if !Acting(w, i) || !SawItself(w, i) then None
    else if i == Seed then Some(done)
    else if !Authorized(w, i) then None
    else if LocalAt(w, i).seen.value.completed then Some(done)
    else if Ended(w, i.parent) && w.fences.lifecycle && w.current.Some?
            && w.current.value.(completed := false) == LocalAt(w, i).seen.value
    then Some(done.(current := Some(w.current.value.(completed := true)))) else None
  }

  /** The durable intent for the next generation, and permission to call EC2. */
  function DoClaim(max: nat, w: World, i: Inst): Option<World> {
    var n := Generation(i) + 1;
    if !Acting(w, i) || !SawItself(w, i) || LocalAt(w, i).stage != Idle || n > max
       || !w.fences.provisioning || !w.fences.clear || w.marker.Some? || n in w.submissions then None
    else Some(SetLocal(w, i, LocalAt(w, i).(stage := Permit)).(submissions := w.submissions[n := i], marker := Some(n)))
  }

  function DoCall(w: World, i: Inst): Option<World> {
    if !Acting(w, i) || LocalAt(w, i).stage != Permit then None
    else Some(SetLocal(w, i, LocalAt(w, i).(stage := Waiting)).(calls := w.calls[i := CallsOf(w, i) + 1]))
  }

  function DoHear(w: World, i: Inst, x: Inst): Option<World> {
    if !Acting(w, i) || LocalAt(w, i).stage != Waiting || x !in w.ec2 || Predecessor(x) != Some(i) then None
    else Some(SetLocal(w, i, LocalAt(w, i).(stage := Got(x))))
  }

  /** The one instance tagged with the next generation, verified to be i's own. */
  function DoFind(w: World, i: Inst, x: Inst): Option<World> {
    if !Acting(w, i) || !SawItself(w, i) || LocalAt(w, i).stage != Idle || x !in w.ec2
       || Predecessor(x) != Some(i) || w.ec2[x] in {ShuttingDown, Gone}
       || (w.marker.Some? && w.marker != Some(Generation(x))) then None
    else Some(SetLocal(w, i, LocalAt(w, i).(stage := Got(x))))
  }

  function DoRecord(w: World, i: Inst): Option<World> {
    var s := LocalAt(w, i).stage;
    if !Acting(w, i) || !s.Got? || !w.fences.lifecycle then None
    else Some(SetLocal(w, i, LocalAt(w, i).(stage := Recorded(s.successor))).(recorded := w.recorded + {s.successor}))
  }

  function DoEndProvisioning(w: World, i: Inst): Option<World> {
    if Acting(w, i) && LocalAt(w, i).stage.Recorded? && w.marker == Some(Generation(i) + 1)
    then Some(w.(marker := None)) else None
  }

  /** The handoff transaction. Its answer may be lost, so the cycle ends either way. */
  function DoHandOff(w: World, i: Inst, leaseNow: int): Option<World> {
    var l := LocalAt(w, i);
    if !Acting(w, i) || !l.stage.Recorded? || !l.retired || !w.fences.provisioning || !w.fences.clear
       || w.lease.None? || w.lease.value.owner != i || w.lease.value.expires < leaseNow || leaseNow > w.now
       || w.current.None? || w.current.value.instance != i || w.current.value.generation != Generation(i) then None
    else Some(SetLocal(w, i, Fresh).(
                current := Some(Current(Generation(i) + 1, l.stage.successor, Some(i), true, false))))
  }

  function Next(max: nat, w: World, a: Step): Option<World> {
    match a
    case SetFences(fences, now) => if now >= w.now then Some(w.(fences := fences, now := now)) else None
    case Make(i, call) => DoMake(w, i, call)
    case Boot(x) => DoEc2(w, x, Pending, Running)
    case FinishTermination(x) => DoEc2(w, x, ShuttingDown, Gone)
    case Die(x) => DoDie(w, x)
    case ClaimInitial => DoClaimInitial(w)
    case ReadSnapshot(i) => DoRead(w, i)
    case Lose(i) => Some(SetLocal(w, i, Fresh))
    case AcquireLease(i, expires) => DoAcquire(w, i, expires)
    case RenewLease(i, expires) => DoRenew(w, i, expires)
    case ReleaseLease(i) => DoRelease(w, i)
    case TerminatePredecessor(i) => DoTerminate(w, i)
    case ConfirmRetirement(i) => DoConfirm(w, i)
    case ClaimSubmission(i) => DoClaim(max, w, i)
    case CallEc2(i) => DoCall(w, i)
    case Hear(i, x) => DoHear(w, i, x)
    case FindSuccessor(i, x) => DoFind(w, i, x)
    case RecordSuccessor(i) => DoRecord(w, i)
    case EndProvisioning(i) => DoEndProvisioning(w, i)
    case HandOff(i, leaseNow) => DoHandOff(w, i, leaseNow)
  }

  ghost predicate Initial(w: World) {
    && w.current.None? && w.submissions == map[] && w.marker.None? && w.recorded == {} && w.lease.None?
    && w.ec2 == map[Seed := Pending] && w.locals == map[] && w.calls == map[] && w.terminated == {}
  }

  function Run(max: nat, w: World, steps: seq<Step>): Option<World> {
    if steps == [] then Some(w)
    else
      var before := Run(max, w, steps[..|steps| - 1]);
      if before.None? then None else Next(max, before.value, steps[|steps| - 1])
  }

  // ----- The invariant -----

  function CurrentGeneration(w: World): int {
    if w.current.Some? then w.current.value.generation else -1
  }

  /** An instance other than the seed was made by its parent's one call. */
  predicate InstanceInv(w: World, x: Inst) {
    x in w.ec2 && x.Child? ==> x.parent in w.ec2 && x.index == 0 && x.call == 0 && CallsOf(w, x.parent) == 1
  }

  /** One intent per generation, written while its writer owned CURRENT; one call
      under it at most. */
  predicate SubmissionInv(w: World, n: nat) {
    n in w.submissions ==>
      w.submissions[n] in w.ec2 && Generation(w.submissions[n]) + 1 == n <= CurrentGeneration(w) + 1
  }

  predicate Claimed(w: World, i: Inst) {
    Generation(i) + 1 in w.submissions && w.submissions[Generation(i) + 1] == i
  }

  predicate CallInv(w: World, i: Inst) {
    var stage := LocalAt(w, i).stage;
    && CallsOf(w, i) <= 1
    && (CallsOf(w, i) == 1 || stage.Permit? ==> Claimed(w, i))
    && (stage.Permit? ==> CallsOf(w, i) == 0)
  }

  predicate CurrentInv(w: World) {
    w.current.Some? ==>
      var cur := w.current.value;
      && cur.instance in w.ec2 && cur.generation == Generation(cur.instance)
      && cur.predecessor == Predecessor(cur.instance) && (cur.instance.Child? ==> cur.instance in w.recorded)
      && (cur.completed ==> cur.instance.Child? && Ended(w, cur.instance.parent))
  }

  /** A daemon that saw itself own CURRENT still does: only its own handoff moves it. */
  predicate LocalInv(w: World, i: Inst) {
    var l := LocalAt(w, i);
    && (SawItself(w, i) ==>
          && w.current.Some? && w.current.value.(completed := false) == l.seen.value.(completed := false)
          && (l.seen.value.completed ==> w.current.value.completed))
    && (l.retired && i.Child? ==> Ended(w, i.parent))
    && (l.stage.Got? || l.stage.Recorded? ==> l.stage.successor in w.ec2 && Predecessor(l.stage.successor) == Some(i))
    && (l.stage.Recorded? ==> l.stage.successor in w.recorded)
  }

  /** Everything two or more generations behind CURRENT has terminated, and what the
      protocol terminates is behind CURRENT. */
  predicate BehindInv(w: World, x: Inst) {
    && (x in w.ec2 && Generation(x) + 2 <= CurrentGeneration(w) ==> Ended(w, x))
    && (x in w.terminated ==> Generation(x) < CurrentGeneration(w))
  }

  ghost predicate Inv(w: World) {
    && Seed in w.ec2 && CurrentInv(w)
    && (forall x :: InstanceInv(w, x))
    && (forall n :: SubmissionInv(w, n))
    && (forall i :: CallInv(w, i))
    && (forall i :: LocalInv(w, i))
    && (forall x :: BehindInv(w, x))
  }
}
