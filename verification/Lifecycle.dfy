/** The lifecycle record BOOTSTRAP/REQUEST and every conditional write the
    controller and the operator scripts make to it. A write returns None when its
    condition fails. */
module Lifecycle {
  import opened Wrappers
  import opened Records
  import opened Lineage

  datatype BootStatus = Ready | Creating | Submitted
  datatype CleanupStatus = Idle | Done | Quiescing | Deleting | Verifying | NeedsAttention

  /** The pinned cycle configuration, standing for its digest as well. */
  datatype Pin = Pin(settings: Item, id: nat)

  datatype Request = Request(
    id: nat, status: BootStatus, bootstrap: bool, propagation: bool,
    cleanupRequested: bool, cleanupStatus: CleanupStatus, controlDigest: Item,
    pin: Option<Pin>, stackId: Option<nat>, inventory: Option<set<Inst>>,
    target: Option<nat>, retryToken: Option<nat>)

  const MAX_CYCLE: nat := 999_999_999_999_999_999

  predicate KeptOption<T(==)>(actual: Option<T>, read: Option<T>) {
    read.Some? ==> actual == read
  }

  /** Containment for the record: attributes that were absent may have appeared. */
  predicate RequestHolds(actual: Request, read: Request) {
    && actual.id == read.id && actual.status == read.status
    && actual.bootstrap == read.bootstrap && actual.propagation == read.propagation
    && actual.cleanupRequested == read.cleanupRequested && actual.cleanupStatus == read.cleanupStatus
    && actual.controlDigest == read.controlDigest
    && KeptOption(actual.pin, read.pin) && KeptOption(actual.stackId, read.stackId)
    && KeptOption(actual.inventory, read.inventory) && KeptOption(actual.target, read.target)
    && KeptOption(actual.retryToken, read.retryToken)
  }

  predicate Settled(s: CleanupStatus) {
    s == Idle || s == Done
  }

  predicate Active(r: Request) {
    r.cleanupRequested && r.cleanupStatus in {Quiescing, Deleting, Verifying}
  }

  predicate GatesClosed(r: Request) {
    !r.bootstrap && !r.propagation
  }

  /** The condition of every lifecycle-fenced write of cycle id. */
  predicate LifecycleOpen(r: Request, id: nat) {
    r.id == id && !r.cleanupRequested && Settled(r.cleanupStatus)
  }

  function Prepared(digest: Item): Request {
    Request(1, Ready, false, false, false, Idle, digest, None, None, None, None, None)
  }

  datatype Script = Bootstrap | Enable | Disable | Cleanup | ResumeCleanup

  datatype Write =
    | PutOver(read: Request, updated: Request)         // a command's or a pause's put
    | Claim(id: nat, digest: Item, newPin: Option<Pin>)
    | Finish(id: nat, stack: nat)
    | BeginCleanup(id: nat, expected: CleanupStatus)
    | MarkInventory(id: nat, expected: CleanupStatus, ids: set<Inst>, deleting: bool)
    | RaiseAttention(id: nat)
    | RaiseRetryAttention(id: nat)                     // only after the cleanup was seen active
    | Reset(read: Request, digest: Item)
    | RunScript(id: nat, script: Script)
    | SetRetryToken(read: Request, token: Option<nat>)

  function Apply(r: Request, w: Write): Option<Request> {
    match w
    case PutOver(read, updated) =>
      if RequestHolds(r, read) then Some(updated) else None
    case Claim(id, digest, newPin) =>
      if LifecycleOpen(r, id) && r.status == Ready && r.controlDigest == digest && r.bootstrap
      then Some(r.(status := Creating, pin := if newPin.Some? then newPin else r.pin)) else None
    case Finish(id, stack) =>
      if r.id == id && r.status == Creating
      then Some(r.(status := Submitted, stackId := Some(stack))) else None
    case BeginCleanup(id, expected) =>
      if r.id == id && r.cleanupStatus == expected
      then Some(r.(propagation := false, bootstrap := false, cleanupRequested := true,
                   cleanupStatus := Quiescing, target := Some(id), inventory := Some({}))) else None
    case MarkInventory(id, expected, ids, deleting) =>
      if r.id == id && r.cleanupStatus == expected
      then Some(r.(cleanupStatus := if deleting then Deleting else Verifying, inventory := Some(ids))) else None
    case RaiseAttention(id) =>
      if r.id == id
      then Some(r.(cleanupStatus := NeedsAttention, cleanupRequested := true,
                   propagation := false, bootstrap := false)) else None
    case RaiseRetryAttention(id) =>
      if r.id == id then Some(r.(cleanupStatus := NeedsAttention)) else None
    case Reset(read, digest) =>
      if RequestHolds(r, read) && read.id < MAX_CYCLE
      then Some(read.(id := read.id + 1, status := Ready, bootstrap := false, propagation := false,
                      cleanupRequested := false, cleanupStatus := Done, controlDigest := digest,
                      pin := None, stackId := None, retryToken := None)) else None
    case RunScript(id, script) =>
      if r.id != id then None
      else if script == ResumeCleanup then
        if r.cleanupStatus == NeedsAttention
        then Some(r.(cleanupRequested := true, cleanupStatus := Quiescing, retryToken := None,
                     propagation := false, bootstrap := false)) else None
      else if !LifecycleOpen(r, id) then None
      else if script == Cleanup then
        Some(r.(cleanupRequested := true, propagation := false, bootstrap := false))
      else if script == Bootstrap then
        if r.status == Ready && !r.bootstrap then Some(r.(bootstrap := true)) else None
      else Some(r.(propagation := script == Enable))
    case SetRetryToken(read, token) =>
      if RequestHolds(r, read) then Some(r.(retryToken := token)) else None
  }

  /** A put that keeps cycle and status, never withdraws a cleanup request, and
      opens a gate only while no cleanup is under way. Commands and pauses make
      no other (see Commands). */
  predicate LawfulPut(read: Request, updated: Request) {
    && updated.id == read.id && updated.status == read.status
    && (read.cleanupRequested ==> updated.cleanupRequested)
    && (updated.cleanupRequested ==> GatesClosed(updated))
    && (!GatesClosed(updated) ==> GateKept(read, updated) || LifecycleOpen(read, read.id))
    && (!Settled(updated.cleanupStatus) ==> updated.cleanupRequested)
    && (updated.cleanupStatus == read.cleanupStatus
        || (read.cleanupStatus == NeedsAttention && updated.cleanupStatus == Quiescing))
    && updated.inventory == read.inventory
  }

  predicate GateKept(read: Request, updated: Request) {
    (updated.bootstrap ==> read.bootstrap) && (updated.propagation ==> read.propagation)
  }

  predicate LawfulWrite(r: Request, w: Write) {
    && (w.PutOver? ==> LawfulPut(w.read, w.updated))
    && (w.BeginCleanup? ==> Settled(w.expected))
    && (w.MarkInventory? ==> w.expected in {Quiescing, Deleting, Verifying})
    && (w.RaiseRetryAttention? && r.id == w.id ==> r.cleanupRequested)
  }

  /** No cleanup was asked for and none is under way. */
  predicate Undisturbed(r: Request, id: nat) {
    r.id == id && !r.cleanupRequested && r.cleanupStatus in {Idle, Done}
  }

  /** What each operator script does, and exactly when its condition holds. */
  lemma ScriptsAreExact(r: Request, id: nat)
    ensures Apply(r, RunScript(id, Bootstrap)) ==
      if Undisturbed(r, id) && r.status == Ready && !r.bootstrap then Some(r.(bootstrap := true)) else None
    ensures Apply(r, RunScript(id, Enable)) == if Undisturbed(r, id) then Some(r.(propagation := true)) else None
    ensures Apply(r, RunScript(id, Disable)) == if Undisturbed(r, id) then Some(r.(propagation := false)) else None
    ensures Apply(r, RunScript(id, Cleanup)) ==
      if Undisturbed(r, id) then Some(r.(cleanupRequested := true, propagation := false, bootstrap := false)) else None
    ensures Apply(r, RunScript(id, ResumeCleanup)) ==
      if r.id == id && r.cleanupStatus == NeedsAttention
      then Some(r.(cleanupRequested := true, cleanupStatus := Quiescing, retryToken := None,
                   propagation := false, bootstrap := false)) else None
  {
  }

  /** The record still has every attribute read; an attribute not read may have appeared. */
  predicate AsRead(r: Request, read: Request) {
    && r.id == read.id && r.status == read.status && r.bootstrap == read.bootstrap
    && r.propagation == read.propagation && r.cleanupRequested == read.cleanupRequested
    && r.cleanupStatus == read.cleanupStatus && r.controlDigest == read.controlDigest
    && (read.pin.Some? ==> r.pin == read.pin) && (read.stackId.Some? ==> r.stackId == read.stackId)
    && (read.inventory.Some? ==> r.inventory == read.inventory) && (read.target.Some? ==> r.target == read.target)
    && (read.retryToken.Some? ==> r.retryToken == read.retryToken)
  }

  /** What each write by a Lambda or a daemon does, and exactly when its condition holds. */
  lemma WritesAreExact(r: Request, id: nat, expected: CleanupStatus, digest: Item, newPin: Option<Pin>, stack: nat,
                       ids: set<Inst>, deleting: bool)
    ensures Apply(r, Claim(id, digest, newPin)) ==
      if Undisturbed(r, id) && r.status == Ready && r.bootstrap && r.controlDigest == digest
      then Some(r.(status := Creating, pin := if newPin.Some? then newPin else r.pin)) else None
    ensures Apply(r, Finish(id, stack)) ==
      if r.id == id && r.status == Creating then Some(r.(status := Submitted, stackId := Some(stack))) else None
    ensures Apply(r, BeginCleanup(id, expected)) ==
      if r.id == id && r.cleanupStatus == expected
      then Some(r.(cleanupStatus := Quiescing, cleanupRequested := true, bootstrap := false, propagation := false,
                   target := Some(id), inventory := Some({}))) else None
    ensures Apply(r, MarkInventory(id, expected, ids, deleting)) ==
      if r.id == id && r.cleanupStatus == expected
      then Some(r.(cleanupStatus := if deleting then Deleting else Verifying, inventory := Some(ids))) else None
    ensures Apply(r, RaiseAttention(id)) ==
      if r.id == id
      then Some(r.(cleanupStatus := NeedsAttention, cleanupRequested := true, bootstrap := false, propagation := false))
      else None
    ensures Apply(r, RaiseRetryAttention(id)) ==
      if r.id == id then Some(r.(cleanupStatus := NeedsAttention)) else None
  {
  }

  /** And each write over a record read before: it commits only over that record. */
  lemma PutsAreExact(r: Request, read: Request, updated: Request, digest: Item, token: Option<nat>)
    ensures Apply(r, PutOver(read, updated)) == if AsRead(r, read) then Some(updated) else None
    ensures Apply(r, SetRetryToken(read, token)) == if AsRead(r, read) then Some(r.(retryToken := token)) else None
    ensures Apply(r, Reset(read, digest)) ==
      if AsRead(r, read) && read.id < MAX_CYCLE
      then Some(Request(read.id + 1, Ready, false, false, false, Done, digest, None, None,
                        read.inventory, read.target, None)) else None
  {
  }

  /** What the record always satisfies: a requested cleanup has both launch gates
      closed, and a cleanup under way has been requested. */
  predicate RequestInv(r: Request) {
    && 1 <= r.id <= MAX_CYCLE
    && (r.cleanupRequested ==> GatesClosed(r))
    && (!Settled(r.cleanupStatus) ==> r.cleanupRequested)
  }

  function Rank(s: BootStatus): nat {
    match s case Ready => 0 case Creating => 1 case Submitted => 2
  }

  /** Within a cycle the status only advances and a requested cleanup stays
      requested; the next cycle starts READY with every gate closed. */
  predicate Succeeds(r: Request, r1: Request) {
    if r1.id == r.id then
      && Rank(r.status) <= Rank(r1.status) <= Rank(r.status) + 1
      && (r.cleanupRequested ==> r1.cleanupRequested)
    else
      && r1.id == r.id + 1 && r1.status == Ready
      && GatesClosed(r1) && !r1.cleanupRequested && Settled(r1.cleanupStatus)
  }

  lemma WriteKeepsRequest(r: Request, w: Write)
    requires RequestInv(r) && LawfulWrite(r, w) && Apply(r, w).Some?
    ensures RequestInv(Apply(r, w).value) && Succeeds(r, Apply(r, w).value)
    ensures !GatesClosed(Apply(r, w).value) ==> LifecycleOpen(Apply(r, w).value, r.id)
  {
  }
}
