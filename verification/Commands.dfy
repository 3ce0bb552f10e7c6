/** Operator commands: what consume_command decides from one snapshot, and the
    conditional transaction that commits the decision against a table that may
    have moved on since. */
module Commands {
  import opened Wrappers
  import opened Records
  import opened Lifecycle

  datatype Env = Env(environment: Value, generationTable: Value, auditTable: Value)

  /** One transactional read of CONTROL, CURRENT, HOLD and the lifecycle record. */
  datatype Snapshot = Snapshot(control: Item, current: Item, hold: bool, request: Option<Request>)

  datatype Decision =
    | Ignore
    | Fault                                        // an exception before any write
    | Reject(feedback: Item)
    | Accept(feedback: Item, updated: Request, needsNoHold: bool)

  function Sequence(control: Item): Value {
    if CommandSequence in control then control[CommandSequence] else Num(0)
  }

  function Selected(control: Item): set<Field> {
    set f | f in Switches && Lookup(control, f) == Some(Bool(true))
  }

  function Malformed(control: Item): set<Field> {
    set f | f in Switches && f in control && !control[f].Bool?
  }

  /** The attributes every consumption writes. */
  function Cleared(next: int, at: Value): Item {
    map[StartRequested := Bool(false), StopRequested := Bool(false), CleanupRequested := Bool(false),
        CommandSequence := Num(next), LastResultSequence := Num(next), OperationUpdatedAt := at]
  }

  function ActiveWord(control: Item): Value {
    if ActiveCommand in control then control[ActiveCommand] else Word(NoCommand)
  }

  function Status(control: Item): Value {
    if OperationStatus in control then control[OperationStatus] else Word(IdleOp)
  }

  function Rejection(control: Item, next: int, at: Value, reason: nat): Decision {
    Reject(Cleared(next, at)
      [LastResult := Word(Message(reason))]
      [OperationStatus := if ActiveWord(control) != Word(NoCommand) then Status(control) else Word(Rejected)])
  }

  /** No owner, and none of the attributes an owner leaves. */
  predicate UninitializedCurrent(current: Item) {
    && Lookup(current, CurrentStatus) == Some(Word(Uninitialized))
    && CurrentGeneration !in current && CurrentStack !in current && CurrentInstance !in current
  }

  predicate Inherits(control: Item) {
    Lookup(control, Inheritance) == Some(Bool(true))
  }

  /** The fixed approvals, and the modes that go together. */
  predicate Approved(control: Item) {
    && Lookup(control, Region) == Some(Text("us-west-2")) && Lookup(control, Architecture) == Some(Text("arm64"))
    && Lookup(control, InstanceTypes) == Some(Texts(["t4g.micro"]))
    && (!Inherits(control) ==> Lookup(control, MaxLive) == Some(Num(3)))
    && (Lookup(control, BinaryFanout) == Some(Bool(true)) ==>
          Lookup(control, Backend) == Some(Text("ec2")) && Inherits(control))
    && MaxGeneration in control && control[MaxGeneration].Num? && control[MaxGeneration].n >= 0
  }

  /** The bootstrap guard on a request about to be READY and enabled. */
  predicate BootstrapGuard(s: Snapshot, r: Request, env: Env, status: BootStatus) {
    && r.status == status && PropagationEnabled !in s.control
    && Lookup(s.control, GenerationTable) == Some(env.generationTable)
    && Lookup(s.control, AuditTable) == Some(env.auditTable)
    && Lookup(s.control, CleanupRequested) != Some(Bool(true))
    && !r.cleanupRequested && Settled(r.cleanupStatus)
    && !s.hold && UninitializedCurrent(s.current)
    && Fingerprint(s.control) == r.controlDigest && r.bootstrap
    && Lookup(s.control, Environment) == Some(env.environment) && Approved(s.control)
  }

  /** The settings a cycle inherits without a default. */
  const EnvelopeFields: set<Field> :=
    {Environment, Region, Architecture, InstanceTypes, MaxGeneration, ReadinessPoll, ReadinessTimeout,
     HeartbeatInterval, GenerationTable, AuditTable, Setting("approved_account_id"),
     Setting("launch_template_id"), Setting("launch_template_version"), Setting("launch_template_sha256"),
     Setting("template_sha256"), Setting("template_s3_version_id"), Setting("template_s3_bucket"),
     Setting("template_s3_key"), Setting("template_build_id"), Setting("desired_template_version"),
     Setting("desired_bootstrap_version"), Setting("daemon_artifact_sha256"),
     Setting("daemon_artifact_version_id"), Setting("daemon_artifact_bucket"), Setting("daemon_artifact_key")}

  predicate Positive(v: Value) {
    v.Num? && v.n > 0
  }

  function Default(control: Item, f: Field, n: int): Value {
    if f in control then control[f] else Num(n)
  }

  /** Whether inherited_envelope succeeds on the settings. */
  predicate EnvelopeValid(control: Item) {
    && (forall f | f in EnvelopeFields :: f in control)
    && (BinaryFanout in control ==> control[BinaryFanout].Bool?)
    && control[MaxGeneration].Num? && 0 <= control[MaxGeneration].n <= 9
    && var retry, poll, age :=
         Default(control, RetryBackoffMax, 30), Default(control, ControlPoll, 2), Default(control, ControlMaxAge, 15);
      && Positive(control[ReadinessPoll]) && Positive(control[ReadinessTimeout])
      && Positive(control[HeartbeatInterval]) && Positive(retry) && Positive(poll) && Positive(age)
      && retry.n >= control[ReadinessPoll].n && age.n >= poll.n
  }

  predicate Cleaning(r: Request) {
    r.cleanupRequested || !Settled(r.cleanupStatus)
  }

  function DecideStart(s: Snapshot, r: Request, env: Env, next: int, at: Value): Decision {
    if Cleaning(r) || ActiveWord(s.control) == Word(CleanupCommand) then Rejection(s.control, next, at, 10)
    else if s.hold then Rejection(s.control, next, at, 11)
    else if r.status == Ready then
      if Inherits(s.control) && (Lookup(s.control, Backend) != Some(Text("ec2")) || !EnvelopeValid(s.control))
      then Fault
      else
        var enabled := r.(bootstrap := true, propagation := true);
        var updated := if Inherits(s.control)
          then enabled.(pin := Some(Pin(s.control - OperatorFields, r.id)), controlDigest := Fingerprint(s.control))
          else enabled;
        if !BootstrapGuard(s, updated, env, Ready) then Rejection(s.control, next, at, 12)
        else Accept(Cleared(next, at)[CycleInitialized := Bool(true)][ActiveCommand := Word(StartCommand)]
            [ActiveRequestId := Num(r.id)][ActiveCommandSequence := Num(next)]
            [OperationStatus := Word(Starting)][LastResult := Word(Message(1))], updated, true)
    else if r.status == Submitted && Lookup(s.current, CurrentStatus) == Some(Word(CurrentOwner))
         && Lookup(s.current, CurrentRequest) == Some(Num(r.id)) then
      Accept(Cleared(next, at)[CycleInitialized := Bool(true)][OperationStatus := Word(PropagationOn)]
          [LastResult := Word(Message(2))], r.(propagation := true), true)
    else Rejection(s.control, next, at, 13)
  }

  function DecideStop(s: Snapshot, r: Request, next: int, at: Value): Decision {
    Accept(Cleared(next, at)[CycleInitialized := Bool(true)][LastResult := Word(Message(3))]
      [OperationStatus := if ActiveWord(s.control) != Word(NoCommand) then Status(s.control) else Word(Stopped)],
      r.(propagation := false), false)
  }

  function DecideCleanup(r: Request, next: int, at: Value): Decision {
    var closed := r.(cleanupRequested := true, bootstrap := false, propagation := false, retryToken := None);
    Accept(Cleared(next, at)[CycleInitialized := Bool(true)][ActiveCommand := Word(CleanupCommand)]
        [ActiveRequestId := Num(r.id)][ActiveCommandSequence := Num(next)]
        [OperationStatus := Word(QuiescingOp)][LastResult := Word(Message(4))],
      if r.cleanupStatus == NeedsAttention then closed.(cleanupStatus := Quiescing) else closed, false)
  }

  /** The settings checks every command makes before looking at the cycle. */
  predicate Installed(control: Item, env: Env, switch: Field) {
    && PropagationEnabled !in control
    && Lookup(control, Environment) == Some(env.environment)
    && Lookup(control, GenerationTable) == Some(env.generationTable)
    && (switch == StartRequested ==> Lookup(control, AuditTable) == Some(env.auditTable))
  }

  /** The lifecycle record a command works on: the one read, or a prepared first one. */
  function Target(s: Snapshot): Option<Request> {
    if s.request.Some? then s.request
    else if Lookup(s.control, CycleInitialized) != Some(Bool(true)) && UninitializedCurrent(s.current)
    then Some(Prepared(Fingerprint(s.control))) else None
  }

  /** The one selected switch, carried out or turned down. */
  function DecideCommand(s: Snapshot, env: Env, switch: Field, next: int, at: Value): Decision {
    if !Installed(s.control, env, switch) then Rejection(s.control, next, at, 7)
    else if Target(s).None? then Rejection(s.control, next, at, 8)
    else if switch == StartRequested then DecideStart(s, Target(s).value, env, next, at)
    else if switch == StopRequested then DecideStop(s, Target(s).value, next, at)
    else DecideCleanup(Target(s).value, next, at)
  }

  function Chosen(selected: set<Field>): Field {
    if StartRequested in selected then StartRequested
    else if StopRequested in selected then StopRequested else CleanupRequested
  }

  function Decide(s: Snapshot, env: Env, event: Option<Item>, at: Value): Decision {
    if !Sequence(s.control).Num? then Fault
    else if event.Some? && Sequence(event.value) != Sequence(s.control) then Ignore
    else
      var selected, malformed, next := Selected(s.control), Malformed(s.control), Sequence(s.control).n + 1;
      if selected == {} && malformed == {} then Ignore
      else if malformed != {} then Rejection(s.control, next, at, 5)
      else if |selected| != 1 then Rejection(s.control, next, at, 6)
      else DecideCommand(s, env, Chosen(selected), next, at)
  }

  // ----- The conditional transaction -----

  /** CONTROL still has every attribute read, and no operator attribute besides. */
  predicate ControlHolds(actual: Item, read: Item) {
    Holds(actual, read) && forall f | f in OperatorFields && f !in read :: f !in actual
  }

  /** The tables a command touches. */
  datatype Tables = Tables(control: Item, current: Item, hold: bool, request: Option<Request>)

  function CommitControl(t: Tables, read: Item, assignments: Item): Option<Tables> {
    if ControlHolds(t.control, read) then Some(t.(control := t.control + assignments)) else None
  }

  /** Commit the decision taken from snapshot s against the tables as they are now. */
  function Commit(t: Tables, s: Snapshot, env: Env, event: Option<Item>, at: Value): Option<Tables> {
    match Decide(s, env, event, at)
    case Ignore => None
    case Fault => None
    case Reject(feedback) => CommitControl(t, s.control, feedback)
    case Accept(feedback, updated, needsNoHold) =>
      var put := match s.request
        case None => if t.request.None? then Some(updated) else None
        case Some(read) => if t.request.Some? then Apply(t.request.value, PutOver(read, updated)) else None;
      if put.None? || s.current == map[] || !Holds(t.current, s.current) || (needsNoHold && t.hold) then None
      else
        var controlled := CommitControl(t, s.control, feedback);
        if controlled.None? then None else Some(controlled.value.(request := put))
  }

  /** Progress reports assign only these, under the same guard. */
  const FeedbackFields: set<Field> := {OperationStatus, OperationUpdatedAt, LastResult, ActiveCommand, ActiveRequestId}

  // ----- What a committed consumption means -----

  lemma SameSwitches(actual: Item, read: Item)
    requires ControlHolds(actual, read)
    ensures Selected(actual) == Selected(read) && Malformed(actual) == Malformed(read)
    ensures Sequence(actual) == Sequence(read)
    ensures forall f | f in OperatorFields :: Lookup(actual, f) == Lookup(read, f)
  {
    forall f | f in OperatorFields ensures Lookup(actual, f) == Lookup(read, f) {
      if f in read { assert actual[f] == read[f]; }
    }
    assert CommandSequence in OperatorFields && Switches <= OperatorFields;
  }

  predicate Clears(feedback: Item, next: int) {
    && feedback.Keys <= OperatorFields
    && (forall f | f in Switches :: f in feedback && feedback[f] == Bool(false))
    && CommandSequence in feedback && feedback[CommandSequence] == Num(next)
  }

  /** A decision that can commit clears exactly the switches, raises the sequence
      by one, and touches nothing outside the operator interface. */
  predicate Commits(d: Decision) {
    d.Reject? || d.Accept?
  }

  /** Feedback beyond the cleared switches and the sequence takes nothing of them back. */
  lemma ClearsKept(feedback: Item, f: Field, v: Value, next: int)
    requires Clears(feedback, next) && f in OperatorFields - Switches - {CommandSequence}
    ensures Clears(feedback[f := v], next)
  {
  }

  lemma StartClears(s: Snapshot, r: Request, env: Env, next: int, at: Value)
    ensures var d := DecideStart(s, r, env, next, at); Commits(d) ==> Clears(d.feedback, next)
  {
    RejectionClears(s.control, next, at);
    var a := Cleared(next, at)[CycleInitialized := Bool(true)];
    AcceptedStartClears(a, r, next);
  }

  lemma AcceptedStartClears(a: Item, r: Request, next: int)
    requires Clears(a, next)
    ensures Clears(a[ActiveCommand := Word(StartCommand)][ActiveRequestId := Num(r.id)]
      [ActiveCommandSequence := Num(next)][OperationStatus := Word(Starting)][LastResult := Word(Message(1))], next)
    ensures Clears(a[OperationStatus := Word(PropagationOn)][LastResult := Word(Message(2))], next)
  {
    var b := a[ActiveCommand := Word(StartCommand)][ActiveRequestId := Num(r.id)];
    ClearsKept(a, ActiveCommand, Word(StartCommand), next);
    ClearsKept(a[ActiveCommand := Word(StartCommand)], ActiveRequestId, Num(r.id), next);
    ClearsKept(b, ActiveCommandSequence, Num(next), next);
    var d := b[ActiveCommandSequence := Num(next)];
    ClearsKept(d, OperationStatus, Word(Starting), next);
    ClearsKept(d[OperationStatus := Word(Starting)], LastResult, Word(Message(1)), next);
    ClearsKept(a, OperationStatus, Word(PropagationOn), next);
    ClearsKept(a[OperationStatus := Word(PropagationOn)], LastResult, Word(Message(2)), next);
  }

  lemma RejectionClears(control: Item, next: int, at: Value)
    ensures forall reason :: Clears(Rejection(control, next, at, reason).feedback, next)
  {
  }

  lemma OthersClear(s: Snapshot, r: Request, next: int, at: Value)
    ensures Clears(DecideStop(s, r, next, at).feedback, next)
    ensures Clears(DecideCleanup(r, next, at).feedback, next)
  {
  }

  lemma CommandClears(s: Snapshot, env: Env, switch: Field, next: int, at: Value)
    ensures var d := DecideCommand(s, env, switch, next, at); Commits(d) ==> Clears(d.feedback, next)
  {
    RejectionClears(s.control, next, at);
    if Target(s).Some? {
      StartClears(s, Target(s).value, env, next, at);
      OthersClear(s, Target(s).value, next, at);
    }
  }

  lemma DecisionFeedback(s: Snapshot, env: Env, event: Option<Item>, at: Value)
    requires Commits(Decide(s, env, event, at))
    ensures Sequence(s.control).Num? && Clears(Decide(s, env, event, at).feedback, Sequence(s.control).n + 1)
    ensures Selected(s.control) != {} || Malformed(s.control) != {}
    ensures event.Some? ==> Sequence(event.value) == Sequence(s.control)
  {
    var next := Sequence(s.control).n + 1;
    RejectionClears(s.control, next, at);
    CommandClears(s, env, Chosen(Selected(s.control)), next, at);
  }

  /** A commit lays the decision's feedback over a CONTROL that still holds what was
      read. */
  lemma CommitShape(t: Tables, s: Snapshot, env: Env, event: Option<Item>, at: Value)
    requires Commit(t, s, env, event, at).Some?
    ensures var d := Decide(s, env, event, at); var t1 := Commit(t, s, env, event, at).value;
      && Commits(d) && ControlHolds(t.control, s.control) && t1.control == t.control + d.feedback
      && t1.current == t.current && t1.hold == t.hold
  {
  }

  lemma FeedbackApplies(actual: Item, read: Item, feedback: Item, next: int)
    requires ControlHolds(actual, read) && Clears(feedback, next)
    ensures Selected(actual) == Selected(read) && Malformed(actual) == Malformed(read)
    ensures Sequence(actual) == Sequence(read) && Sequence(actual + feedback) == Num(next)
    ensures forall f | f in Switches :: Lookup(actual + feedback, f) == Some(Bool(false))
    ensures forall f | f !in OperatorFields :: Lookup(actual + feedback, f) == Lookup(actual, f)
  {
    SameSwitches(actual, read);
  }

  /** A committed consumption acts on the switches as they stand at the commit: none
      was flipped between its read and its write. It clears all three, raises the
      sequence by exactly one and leaves every setting alone; a delivery for any
      other sequence number commits nothing. */
  lemma CommitIsAtomic(t: Tables, s: Snapshot, env: Env, event: Option<Item>, at: Value)
    requires Commit(t, s, env, event, at).Some?
    ensures var t1 := Commit(t, s, env, event, at).value;
      && Selected(t.control) == Selected(s.control) && Malformed(t.control) == Malformed(s.control)
      && (Selected(t.control) != {} || Malformed(t.control) != {})
      && Sequence(t.control) == Sequence(s.control) && Sequence(t.control).Num?
      && (event.Some? ==> Sequence(event.value) == Sequence(t.control))
      && Sequence(t1.control) == Num(Sequence(t.control).n + 1)
      && (forall f | f in Switches :: Lookup(t1.control, f) == Some(Bool(false)))
      && (forall f | f !in OperatorFields :: Lookup(t1.control, f) == Lookup(t.control, f))
      && t1.current == t.current && t1.hold == t.hold
  {
    var feedback := CommittedFeedback(t, s, env, event, at);
    FeedbackApplies(t.control, s.control, feedback, Sequence(s.control).n + 1);
  }

  lemma CommittedFeedback(t: Tables, s: Snapshot, env: Env, event: Option<Item>, at: Value) returns (feedback: Item)
    requires Commit(t, s, env, event, at).Some?
    ensures ControlHolds(t.control, s.control) && Commit(t, s, env, event, at).value.control == t.control + feedback
    ensures Commit(t, s, env, event, at).value == t.(
      control := t.control + feedback, request := Commit(t, s, env, event, at).value.request)
    ensures Sequence(s.control).Num? && Clears(feedback, Sequence(s.control).n + 1)
    ensures Selected(s.control) != {} || Malformed(s.control) != {}
    ensures event.Some? ==> Sequence(event.value) == Sequence(s.control)
  {
    CommitShape(t, s, env, event, at);
    DecisionFeedback(s, env, event, at);
    feedback := Decide(s, env, event, at).feedback;
  }

  lemma StartPutIsLawful(s: Snapshot, r: Request, env: Env, next: int, at: Value)
    requires RequestInv(r) && DecideStart(s, r, env, next, at).Accept?
    ensures LawfulPut(r, DecideStart(s, r, env, next, at).updated)
    ensures LifecycleOpen(r, r.id) && !s.hold && DecideStart(s, r, env, next, at).needsNoHold
  {
  }

  lemma CleanupPutIsLawful(r: Request, next: int, at: Value)
    requires RequestInv(r)
    ensures LawfulPut(r, DecideCleanup(r, next, at).updated)
  {
  }

  lemma CommandPutIsLawful(s: Snapshot, env: Env, switch: Field, next: int, at: Value)
    requires DecideCommand(s, env, switch, next, at).Accept? && Target(s).Some? && RequestInv(Target(s).value)
    ensures LawfulPut(Target(s).value, DecideCommand(s, env, switch, next, at).updated)
  {
    var r := Target(s).value;
    if switch == StartRequested {
      StartPutIsLawful(s, r, env, next, at);
    } else if switch == StopRequested {
      assert DecideCommand(s, env, switch, next, at).updated == r.(propagation := false);
    } else {
      CleanupPutIsLawful(r, next, at);
    }
  }

  /** The puts that commands make are lawful writes of the lifecycle record. */
  lemma AcceptedPutIsLawful(s: Snapshot, env: Env, event: Option<Item>, at: Value)
    requires Decide(s, env, event, at).Accept? && (s.request.Some? ==> RequestInv(s.request.value))
    ensures Target(s).Some? && LawfulPut(Target(s).value, Decide(s, env, event, at).updated)
  {
    CommandPutIsLawful(s, env, Chosen(Selected(s.control)), Sequence(s.control).n + 1, at);
  }

  /** So is the put by which a failed START closes both gates again. */
  lemma PauseIsLawful(failed: Request)
    requires RequestInv(failed)
    ensures LawfulPut(failed, failed.(bootstrap := false, propagation := false))
  {
  }

  /** What the transaction of an accepted command has checked when it commits. */
  lemma CommittedPut(t: Tables, s: Snapshot, env: Env, event: Option<Item>, at: Value)
    requires Commit(t, s, env, event, at).Some? && Decide(s, env, event, at).Accept?
    ensures var d := Decide(s, env, event, at);
      && Commit(t, s, env, event, at).value.request == Some(d.updated)
      && (d.needsNoHold ==> !t.hold)
      && t.request.Some? == s.request.Some?
      && (s.request.Some? ==> RequestHolds(t.request.value, s.request.value))
  {
  }

  /** An inheriting cycle starts with its settings pinned, and they make an envelope. */
  predicate PinnedOn(s: Snapshot, r: Request, t1: Tables) {
    Inherits(s.control) ==>
      && EnvelopeValid(s.control) && t1.request.Some?
      && t1.request.value.pin == Some(Pin(s.control - OperatorFields, r.id))
  }

  /** START is accepted only with no hold read or standing, outside any cleanup, on
      an unclaimed READY cycle with an uninitialized CURRENT and approved settings, or
      to reopen propagation of a submitted cycle; the cycle is the one that was read. */
  lemma StartAccepted(t: Tables, s: Snapshot, env: Env, event: Option<Item>, at: Value)
    requires Commit(t, s, env, event, at).Some? && Decide(s, env, event, at).Accept?
    requires Selected(s.control) == {StartRequested} && Target(s).Some? && RequestInv(Target(s).value)
    ensures var r := Target(s).value; var t1 := Commit(t, s, env, event, at).value;
      && !s.hold && !t.hold && LifecycleOpen(r, r.id)
      && t1.request.Some? && t1.request.value.id == r.id && t1.request.value.propagation
      && (t.request.Some? ==> t.request.value.id == r.id && LifecycleOpen(t.request.value, r.id))
      && (r.status == Ready ==>
            UninitializedCurrent(s.current) && t1.request.value.bootstrap && Approved(s.control) && PinnedOn(s, r, t1))
      && (r.status != Ready ==> r.status == Submitted && t1.request.value.bootstrap == r.bootstrap)
  {
    var r, next := Target(s).value, Sequence(s.control).n + 1;
    CommittedPut(t, s, env, event, at);
    StartDecision(s, env, event, at);
    StartPutIsLawful(s, r, env, next, at);
    StartOpensGates(s, r, env, next, at);
  }

  /** An accepted decision is that of its one selected switch. */
  lemma AcceptedDecision(s: Snapshot, env: Env, event: Option<Item>, at: Value)
    requires Decide(s, env, event, at).Accept?
    ensures Sequence(s.control).Num?
    ensures Decide(s, env, event, at) ==
      DecideCommand(s, env, Chosen(Selected(s.control)), Sequence(s.control).n + 1, at)
  {
    AcceptedHasSwitch(s, env, event, at);
    SelectedDecides(s, env, event, at, Selected(s.control), Chosen(Selected(s.control)));
  }

  lemma AcceptedHasSwitch(s: Snapshot, env: Env, event: Option<Item>, at: Value)
    requires Decide(s, env, event, at).Accept?
    ensures Sequence(s.control).Num? && !(event.Some? && Sequence(event.value) != Sequence(s.control))
    ensures Malformed(s.control) == {} && |Selected(s.control)| == 1 && Selected(s.control) != {}
  {
  }

  lemma StartDecision(s: Snapshot, env: Env, event: Option<Item>, at: Value)
    requires Decide(s, env, event, at).Accept? && Selected(s.control) == {StartRequested} && Target(s).Some?
    ensures Sequence(s.control).Num?
    ensures Decide(s, env, event, at) == DecideStart(s, Target(s).value, env, Sequence(s.control).n + 1, at)
  {
    AcceptedDecision(s, env, event, at);
    assert Chosen(Selected(s.control)) == StartRequested;
  }

  lemma StartOpensGates(s: Snapshot, r: Request, env: Env, next: int, at: Value)
    requires DecideStart(s, r, env, next, at).Accept?
    ensures var updated := DecideStart(s, r, env, next, at).updated;
      && updated.propagation
      && (r.status == Ready ==> UninitializedCurrent(s.current) && updated.bootstrap && Approved(s.control))
      && (r.status == Ready && Inherits(s.control) ==>
            EnvelopeValid(s.control) && updated.pin == Some(Pin(s.control - OperatorFields, r.id)))
      && (r.status != Ready ==> r.status == Submitted && updated.bootstrap == r.bootstrap)
  {
  }

  /** The record a command works on: the one read, or the first one, READY and closed. */
  predicate WorksOn(s: Snapshot, r: Request) {
    if s.request.Some? then r == s.request.value
    else
      && r.id == 1 && r.status == Ready && !r.bootstrap && !r.propagation
      && !r.cleanupRequested && r.cleanupStatus == Idle && r.controlDigest == Fingerprint(s.control)
      && r.pin.None? && r.stackId.None? && r.inventory.None? && r.target.None? && r.retryToken.None?
  }

  lemma TargetIsWorkedOn(s: Snapshot)
    ensures Target(s).Some? ==> WorksOn(s, Target(s).value)
    ensures forall r, r1 | WorksOn(s, r) && WorksOn(s, r1) :: r == r1
  {
  }

  /** A committed STOP closes propagation and leaves everything else of the record. */
  lemma StopAccepted(t: Tables, s: Snapshot, env: Env, event: Option<Item>, at: Value, r: Request)
    requires Commit(t, s, env, event, at).Some? && Decide(s, env, event, at).Accept?
    requires Selected(s.control) == {StopRequested} && WorksOn(s, r)
    ensures var t1 := Commit(t, s, env, event, at).value;
      && t1.request == Some(r.(propagation := false))
      && Lookup(t1.control, ActiveCommand) == Lookup(t.control, ActiveCommand)
      && Lookup(t1.control, ActiveRequestId) == Lookup(t.control, ActiveRequestId)
  {
    CommittedPut(t, s, env, event, at);
    CommitShape(t, s, env, event, at);
    AcceptedDecision(s, env, event, at);
    assert Chosen(Selected(s.control)) == StopRequested;
    StopDecides(s, env, Sequence(s.control).n + 1, at, r);
    KeptByFeedback(t.control, Decide(s, env, event, at).feedback);
  }

  lemma StopDecides(s: Snapshot, env: Env, next: int, at: Value, r: Request)
    requires DecideCommand(s, env, StopRequested, next, at).Accept? && WorksOn(s, r)
    ensures var d := DecideCommand(s, env, StopRequested, next, at);
      d.updated == r.(propagation := false) && ActiveCommand !in d.feedback && ActiveRequestId !in d.feedback
  {
    TargetIsWorkedOn(s);
  }

  lemma KeptByFeedback(control: Item, feedback: Item)
    ensures forall f :: Lookup(control + feedback, f) == if f in feedback then Some(feedback[f]) else Lookup(control, f)
  {
  }

  /** A committed CLEANUP is requested with both gates closed, in the same cycle and
      status; one that needed attention starts over. */
  lemma CleanupAccepted(t: Tables, s: Snapshot, env: Env, event: Option<Item>, at: Value, r: Request)
    requires Commit(t, s, env, event, at).Some? && Decide(s, env, event, at).Accept?
    requires Selected(s.control) == {CleanupRequested} && WorksOn(s, r)
    ensures var t1 := Commit(t, s, env, event, at).value;
      && t1.request == Some(Request(
           r.id, r.status, false, false, true, if r.cleanupStatus == NeedsAttention then Quiescing else r.cleanupStatus,
           r.controlDigest, r.pin, r.stackId, r.inventory, r.target, None))
      && Lookup(t1.control, ActiveCommand) == Some(Word(CleanupCommand))
      && Lookup(t1.control, ActiveRequestId) == Some(Num(r.id))
  {
    CommittedPut(t, s, env, event, at);
    CommitShape(t, s, env, event, at);
    AcceptedDecision(s, env, event, at);
    assert Chosen(Selected(s.control)) == CleanupRequested;
    CleanupDecides(s, env, Sequence(s.control).n + 1, at, r);
    KeptByFeedback(t.control, Decide(s, env, event, at).feedback);
  }

  lemma CleanupDecides(s: Snapshot, env: Env, next: int, at: Value, r: Request)
    requires DecideCommand(s, env, CleanupRequested, next, at).Accept? && WorksOn(s, r)
    ensures var d := DecideCommand(s, env, CleanupRequested, next, at);
      && d.updated == Request(
           r.id, r.status, false, false, true, if r.cleanupStatus == NeedsAttention then Quiescing else r.cleanupStatus,
           r.controlDigest, r.pin, r.stackId, r.inventory, r.target, None)
      && ActiveCommand in d.feedback && d.feedback[ActiveCommand] == Word(CleanupCommand)
      && ActiveRequestId in d.feedback && d.feedback[ActiveRequestId] == Num(r.id)
  {
    TargetIsWorkedOn(s);
  }

  /** The settings a START of a READY cycle needs. */
  predicate StartableSettings(control: Item, env: Env) {
    && Lookup(control, AuditTable) == Some(env.auditTable)
    && Lookup(control, Region) == Some(Text("us-west-2")) && Lookup(control, Architecture) == Some(Text("arm64"))
    && Lookup(control, InstanceTypes) == Some(Texts(["t4g.micro"]))
    && MaxGeneration in control && control[MaxGeneration].Num? && control[MaxGeneration].n >= 0
    && (if Lookup(control, Inheritance) == Some(Bool(true)) then
          Lookup(control, Backend) == Some(Text("ec2")) && EnvelopeSettings(control)
        else
          Lookup(control, MaxLive) == Some(Num(3)) && Lookup(control, BinaryFanout) != Some(Bool(true)))
  }

  /** What a cycle's configuration is made of, with positive times that fit together. */
  predicate EnvelopeSettings(control: Item) {
    && (forall f | f in EnvelopeFields :: f in control)
    && control[MaxGeneration].Num? && 0 <= control[MaxGeneration].n <= 9
    && (BinaryFanout in control ==> control[BinaryFanout].Bool?)
    && (forall f | f in {ReadinessPoll, ReadinessTimeout, HeartbeatInterval} :: control[f].Num? && control[f].n > 0)
    && (forall f | f in {RetryBackoffMax, ControlPoll, ControlMaxAge} && f in control ::
          control[f].Num? && control[f].n > 0)
    && (if RetryBackoffMax in control then control[RetryBackoffMax].n else 30) >= control[ReadinessPoll].n
    && (if ControlMaxAge in control then control[ControlMaxAge].n else 15)
       >= (if ControlPoll in control then control[ControlPoll].n else 2)
  }

  /** No cleanup and no hold; and a READY cycle whose CURRENT has no owner and whose
      digest (pinned now if it inherits) is that of the settings, or a submitted cycle
      that owns CURRENT. */
  predicate StartDue(s: Snapshot, env: Env, r: Request) {
    && !r.cleanupRequested && r.cleanupStatus in {Idle, Done}
    && Lookup(s.control, ActiveCommand) != Some(Word(CleanupCommand)) && !s.hold
    && Lookup(s.control, AuditTable) == Some(env.auditTable)
    && (|| (r.status == Ready && StartableSettings(s.control, env)
            && Lookup(s.current, CurrentStatus) == Some(Word(Uninitialized))
            && CurrentGeneration !in s.current && CurrentStack !in s.current && CurrentInstance !in s.current
            && (Lookup(s.control, Inheritance) == Some(Bool(true)) || Fingerprint(s.control) == r.controlDigest))
        || (r.status == Submitted && Lookup(s.current, CurrentStatus) == Some(Word(CurrentOwner))
            && Lookup(s.current, CurrentRequest) == Some(Num(r.id))))
  }

  lemma EnvelopeIsValid(control: Item)
    ensures EnvelopeValid(control) <==> EnvelopeSettings(control)
  {
    if forall f | f in EnvelopeFields :: f in control {
      assert ReadinessPoll in EnvelopeFields && ReadinessTimeout in EnvelopeFields;
      assert HeartbeatInterval in EnvelopeFields && MaxGeneration in EnvelopeFields;
    }
  }

  lemma SettingsAreApproved(s: Snapshot, env: Env)
    requires Lookup(s.control, AuditTable) == Some(env.auditTable)
    ensures Approved(s.control)
            && (Inherits(s.control) ==> Lookup(s.control, Backend) == Some(Text("ec2")) && EnvelopeValid(s.control))
            <==> StartableSettings(s.control, env)
  {
    EnvelopeIsValid(s.control);
  }

  /** START is obeyed exactly when it is due. */
  lemma StartIsObeyed(s: Snapshot, env: Env, event: Option<Item>, at: Value, r: Request)
    requires Presented(s, env, event, StartRequested) && WorksOn(s, r)
    ensures Decide(s, env, event, at).Accept? <==> HasRecord(s) && StartDue(s, env, r)
  {
    PresentedIsChosen(s, env, event, at, StartRequested);
    TargetIsWorkedOn(s);
    if Target(s).Some? && Lookup(s.control, AuditTable) == Some(env.auditTable) {
      SettingsAreApproved(s, env);
      StartDecides(s, env, r, Sequence(s.control).n + 1, at);
    }
  }

  lemma StartDecides(s: Snapshot, env: Env, r: Request, next: int, at: Value)
    requires PropagationEnabled !in s.control
    requires Lookup(s.control, GenerationTable) == Some(env.generationTable)
    requires Lookup(s.control, Environment) == Some(env.environment)
    requires Lookup(s.control, AuditTable) == Some(env.auditTable)
    requires Lookup(s.control, CleanupRequested) != Some(Bool(true))
    requires Approved(s.control)
             && (Inherits(s.control) ==> Lookup(s.control, Backend) == Some(Text("ec2")) && EnvelopeValid(s.control))
             <==> StartableSettings(s.control, env)
    ensures DecideStart(s, r, env, next, at).Accept? <==> StartDue(s, env, r)
  {
  }

  /** A rejected command leaves the lifecycle record alone. */
  lemma RejectionKeepsRecord(t: Tables, s: Snapshot, env: Env, event: Option<Item>, at: Value)
    requires Commit(t, s, env, event, at).Some? && !Decide(s, env, event, at).Accept?
    ensures Commit(t, s, env, event, at).value.request == t.request
  {
  }

  /** Exactly the one switch is on, every switch is Boolean, the delivery is for the
      current sequence number, and the installation is this one. */
  predicate Presented(s: Snapshot, env: Env, event: Option<Item>, switch: Field) {
    && (CommandSequence in s.control ==> s.control[CommandSequence].Num?)
    && (event.Some? ==>
          (if CommandSequence in event.value then event.value[CommandSequence] else Num(0))
          == (if CommandSequence in s.control then s.control[CommandSequence] else Num(0)))
    && switch in s.control && s.control[switch] == Bool(true)
    && (forall f | f in {StartRequested, StopRequested, CleanupRequested} && f != switch && f in s.control ::
          s.control[f] == Bool(false))
    && PropagationEnabled !in s.control
    && Environment in s.control && s.control[Environment] == env.environment
    && GenerationTable in s.control && s.control[GenerationTable] == env.generationTable
  }

  /** There is a record, or none was ever made and CURRENT has no owner. */
  predicate HasRecord(s: Snapshot) {
    s.request.None? ==>
      && Lookup(s.control, CycleInitialized) != Some(Bool(true))
      && Lookup(s.current, CurrentStatus) == Some(Word(Uninitialized))
      && CurrentGeneration !in s.current && CurrentStack !in s.current && CurrentInstance !in s.current
  }

  lemma PresentedIsSelected(s: Snapshot, env: Env, event: Option<Item>, switch: Field)
    requires switch in {StartRequested, StopRequested, CleanupRequested} && Presented(s, env, event, switch)
    ensures Selected(s.control) == {switch} && Malformed(s.control) == {} && Chosen(Selected(s.control)) == switch
    ensures Sequence(s.control).Num? && (event.Some? ==> Sequence(event.value) == Sequence(s.control))
  {
    assert Switches == {StartRequested, StopRequested, CleanupRequested};
  }

  lemma PresentedIsChosen(s: Snapshot, env: Env, event: Option<Item>, at: Value, switch: Field)
    requires switch in {StartRequested, StopRequested, CleanupRequested} && Presented(s, env, event, switch)
    ensures Sequence(s.control).Num?
    ensures Decide(s, env, event, at) == DecideCommand(s, env, switch, Sequence(s.control).n + 1, at)
  {
    PresentedIsSelected(s, env, event, switch);
    SelectedDecides(s, env, event, at, Selected(s.control), switch);
  }

  lemma SelectedDecides(s: Snapshot, env: Env, event: Option<Item>, at: Value, selected: set<Field>, switch: Field)
    requires selected == Selected(s.control) && |selected| == 1 && Chosen(selected) == switch
    requires Malformed(s.control) == {}
    requires Sequence(s.control).Num? && (event.Some? ==> Sequence(event.value) == Sequence(s.control))
    ensures Decide(s, env, event, at) == DecideCommand(s, env, switch, Sequence(s.control).n + 1, at)
  {
    assert selected != {};
  }

  /** STOP and CLEANUP are obeyed whatever the record says, cleaning or not. */
  lemma StopAndCleanupAreObeyed(s: Snapshot, env: Env, event: Option<Item>, at: Value, switch: Field)
    requires switch == StopRequested || switch == CleanupRequested
    requires Presented(s, env, event, switch)
    ensures Decide(s, env, event, at).Accept? <==> HasRecord(s)
  {
    PresentedIsChosen(s, env, event, at, switch);
  }

  /** The record a delivery works on. */
  function Worked(s: Snapshot): Request {
    if s.request.Some? then s.request.value else Prepared(Fingerprint(s.control))
  }

  /** A command is accepted exactly when one switch alone is presented to its own
      installation, there is a record to work on, and a START is due. */
  lemma ObeysExactly(s: Snapshot, env: Env, event: Option<Item>, at: Value)
    ensures Decide(s, env, event, at).Accept? <==>
      exists switch :: Obeyed(s, env, event, switch)
  {
    if Decide(s, env, event, at).Accept? {
      var switch := Chosen(Selected(s.control));
      AcceptedIsPresented(s, env, event, at);
      ObeyedIfAccepted(s, env, event, at, switch);
    }
    if switch :| Obeyed(s, env, event, switch) { ObeyedIfAccepted(s, env, event, at, switch); }
  }

  predicate Obeyed(s: Snapshot, env: Env, event: Option<Item>, switch: Field) {
    && switch in {StartRequested, StopRequested, CleanupRequested} && Presented(s, env, event, switch)
    && HasRecord(s) && (switch == StartRequested ==> StartDue(s, env, Worked(s)))
  }

  lemma ObeyedIfAccepted(s: Snapshot, env: Env, event: Option<Item>, at: Value, switch: Field)
    requires switch in {StartRequested, StopRequested, CleanupRequested} && Presented(s, env, event, switch)
    ensures Decide(s, env, event, at).Accept? <==> Obeyed(s, env, event, switch)
  {
    if switch == StartRequested {
      StartIsObeyed(s, env, event, at, Worked(s));
    } else {
      StopAndCleanupAreObeyed(s, env, event, at, switch);
    }
  }

  lemma AcceptedIsPresented(s: Snapshot, env: Env, event: Option<Item>, at: Value)
    requires Decide(s, env, event, at).Accept?
    ensures var switch := Chosen(Selected(s.control));
      switch in {StartRequested, StopRequested, CleanupRequested} && Presented(s, env, event, switch)
  {
    var selected := Selected(s.control);
    var switch := Chosen(selected);
    AcceptedHasSwitch(s, env, event, at);
    AcceptedDecision(s, env, event, at);
    AcceptedIsInstalled(s, env, switch, Sequence(s.control).n + 1, at);
    OnlyOneSelected(s.control, selected, switch);
  }

  lemma AcceptedIsInstalled(s: Snapshot, env: Env, switch: Field, next: int, at: Value)
    requires DecideCommand(s, env, switch, next, at).Accept?
    ensures PropagationEnabled !in s.control
    ensures Environment in s.control && s.control[Environment] == env.environment
    ensures GenerationTable in s.control && s.control[GenerationTable] == env.generationTable
  {
  }

  lemma OnlyOneSelected(control: Item, selected: set<Field>, switch: Field)
    requires selected == Selected(control) && |selected| == 1 && Malformed(control) == {} && switch == Chosen(selected)
    ensures switch in Switches && switch in control && control[switch] == Bool(true)
    ensures forall f | f in {StartRequested, StopRequested, CleanupRequested} && f != switch && f in control ::
      control[f] == Bool(false)
  {
    assert switch in selected by {
      assert selected != {} && selected <= {StartRequested, StopRequested, CleanupRequested};
      var x :| x in selected;
    }
    assert selected == {switch} by {
      assert |selected - {switch}| == 0;
      assert selected - {switch} == {};
    }
    forall f | f in {StartRequested, StopRequested, CleanupRequested} && f != switch && f in control
      ensures control[f] == Bool(false)
    {
      assert f !in selected && f !in Malformed(control);
    }
  }

  /** A delivery is passed over exactly when it is for another sequence number, or no
      switch is on and none is malformed. */
  lemma IgnoresExactly(s: Snapshot, env: Env, event: Option<Item>, at: Value)
    requires CommandSequence in s.control ==> s.control[CommandSequence].Num?
    ensures Decide(s, env, event, at).Ignore? <==>
      || (event.Some? && Sequence(event.value) != Sequence(s.control))
      || (forall f | f in {StartRequested, StopRequested, CleanupRequested} && f in s.control ::
            s.control[f] == Bool(false))
  {
    assert Switches == {StartRequested, StopRequested, CleanupRequested};
    CommandsAreAnswered(s, env, Chosen(Selected(s.control)), Sequence(s.control).n + 1, at);
    NothingSelected(s.control);
  }

  lemma NothingSelected(control: Item)
    ensures Selected(control) == {} && Malformed(control) == {} <==>
      forall f | f in {StartRequested, StopRequested, CleanupRequested} && f in control :: control[f] == Bool(false)
  {
    assert Switches == {StartRequested, StopRequested, CleanupRequested};
    if Selected(control) == {} && Malformed(control) == {} {
      forall f | f in {StartRequested, StopRequested, CleanupRequested} && f in control
        ensures control[f] == Bool(false)
      {
        assert f !in Selected(control) && f !in Malformed(control);
      }
    }
  }

  lemma CommandsAreAnswered(s: Snapshot, env: Env, switch: Field, next: int, at: Value)
    ensures !DecideCommand(s, env, switch, next, at).Ignore?
  {
  }

  /** The delivery's transaction finds what its snapshot read. */
  predicate StillAsRead(t: Tables, s: Snapshot) {
    && (forall f | f in s.control :: f in t.control && t.control[f] == s.control[f])
    && (forall f | f in OperatorFields && f in t.control :: f in s.control)
    && s.current != map[] && (forall f | f in s.current :: f in t.current && t.current[f] == s.current[f])
    && (s.request.None? <==> t.request.None?) && (s.request.Some? ==> RequestHolds(t.request.value, s.request.value))
  }

  /** An accepted command commits exactly if nothing it read has changed, and for a
      START if there is still no hold. */
  lemma AcceptedCommits(t: Tables, s: Snapshot, env: Env, event: Option<Item>, at: Value)
    requires Decide(s, env, event, at).Accept?
    ensures Commit(t, s, env, event, at).Some? <==>
      StillAsRead(t, s) && (Selected(s.control) == {StartRequested} ==> !t.hold)
  {
    DecisionCommits(t, s, env, event, at, Decide(s, env, event, at));
    AcceptedDecision(s, env, event, at);
    AcceptedNeedsNoHold(s, env, Chosen(Selected(s.control)), Sequence(s.control).n + 1, at);
    AcceptedHasOneSwitch(s, env, event, at);
  }

  lemma DecisionCommits(t: Tables, s: Snapshot, env: Env, event: Option<Item>, at: Value, d: Decision)
    requires Decide(s, env, event, at) == d && d.Accept?
    ensures Commit(t, s, env, event, at).Some? <==> StillAsRead(t, s) && (d.needsNoHold ==> !t.hold)
  {
  }

  lemma AcceptedNeedsNoHold(s: Snapshot, env: Env, switch: Field, next: int, at: Value)
    requires DecideCommand(s, env, switch, next, at).Accept?
    ensures DecideCommand(s, env, switch, next, at).needsNoHold <==> switch == StartRequested
  {
  }

  lemma AcceptedHasOneSwitch(s: Snapshot, env: Env, event: Option<Item>, at: Value)
    requires Decide(s, env, event, at).Accept?
    ensures Selected(s.control) == {StartRequested} <==> Chosen(Selected(s.control)) == StartRequested
  {
    var selected := Selected(s.control);
    assert |selected| == 1;
    if StartRequested in selected {
      assert |selected - {StartRequested}| == 0;
      assert selected == {StartRequested};
    }
  }

  // ----- Runs over CONTROL -----

  datatype Consumption = Consumption(sequence: int, switches: set<Field>, malformed: set<Field>)

  datatype Op =
    | Flip(switch: Field, value: Value)              // the console, any value
    | ScriptFlip(read: Item, switch: Field, stamp: Value)
    | Edit(field: Field, value: Value)               // any setting outside the operator interface
    | SetTables(current: Item, hold: bool, request: Option<Request>)
    | Consume(s: Snapshot, env: Env, event: Option<Item>, at: Value)
    | Feedback(read: Item, assignments: Item)
    | TerminalCleanup(read: Item, stamp: Value)      // request_terminal_cleanup

  datatype Board = Board(tables: Tables, log: seq<Consumption>)

  predicate AllOff(control: Item) {
    forall f | f in Switches :: Lookup(control, f) == Some(Bool(false))
  }

  function Perform(b: Board, op: Op): Board {
    var t := b.tables;
    match op
    case Flip(f, v) => if f in Switches then b.(tables := t.(control := t.control[f := v])) else b
    case ScriptFlip(read, f, stamp) =>
      if f in Switches && AllOff(read) && AllOff(t.control) && CommandSequence in read
         && Lookup(t.control, CommandSequence) == Some(read[CommandSequence])
      then b.(tables := t.(control := t.control[f := Bool(true)][UpdatedBy := stamp][UpdatedAt := stamp])) else b
    case Edit(f, v) => if f !in OperatorFields then b.(tables := t.(control := t.control[f := v])) else b
    case SetTables(current, hold, request) => b.(tables := t.(current := current, hold := hold, request := request))
    case Consume(s, env, event, at) =>
      var r := Commit(t, s, env, event, at);
      if r.None? || !Sequence(t.control).Num? then b
      else Board(r.value, b.log + [Consumption(Sequence(t.control).n + 1, Selected(t.control), Malformed(t.control))])
    case Feedback(read, assignments) =>
      var r := CommitControl(t, read, assignments);
      if r.Some? && assignments.Keys <= FeedbackFields then b.(tables := r.value) else b
    case TerminalCleanup(read, stamp) =>
      var r := CommitControl(t, read,
        map[CleanupRequested := Bool(true), LastResult := Word(Message(9)), OperationUpdatedAt := stamp]);
      if r.Some? && AllOff(read) then b.(tables := r.value) else b
  }

  function Run(b: Board, ops: seq<Op>): Board {
    if ops == [] then b else Perform(Run(b, ops[..|ops| - 1]), ops[|ops| - 1])
  }

  /** The console writes any switch at any time; the scripts and the automatic cleanup
      only while no switch is on; progress feedback only its own fields. */
  lemma FlipsAreExact(b: Board, read: Item, f: Field, v: Value)
    ensures var t := b.tables;
      && Perform(b, Flip(f, v)).tables ==
           (if f in {StartRequested, StopRequested, CleanupRequested} then t.(control := t.control[f := v]) else t)
      && Perform(b, ScriptFlip(read, f, v)).tables ==
           (if f in {StartRequested, StopRequested, CleanupRequested} && NoneOn(read) && NoneOn(t.control)
               && CommandSequence in read && CommandSequence in t.control
               && t.control[CommandSequence] == read[CommandSequence]
            then t.(control := t.control[f := Bool(true)][UpdatedBy := v][UpdatedAt := v]) else t)
  {
    assert Switches == {StartRequested, StopRequested, CleanupRequested};
    NoneOnIsAllOff(read);
    NoneOnIsAllOff(b.tables.control);
  }

  lemma FeedbackIsExact(b: Board, read: Item, assignments: Item)
    ensures var t := b.tables;
      Perform(b, Feedback(read, assignments)).tables ==
        if ControlStillAsRead(t.control, read)
           && assignments.Keys <= {OperationStatus, OperationUpdatedAt, LastResult, ActiveCommand, ActiveRequestId}
        then t.(control := t.control + assignments) else t
  {
  }

  lemma TerminalCleanupIsExact(b: Board, read: Item, stamp: Value)
    ensures var t := b.tables;
      Perform(b, TerminalCleanup(read, stamp)).tables ==
        if ControlStillAsRead(t.control, read) && NoneOn(read)
        then t.(control := t.control + map[CleanupRequested := Bool(true), LastResult := Word(Message(9)),
                                           OperationUpdatedAt := stamp]) else t
  {
    NoneOnIsAllOff(read);
  }

  predicate NoneOn(control: Item) {
    forall f | f in {StartRequested, StopRequested, CleanupRequested} :: f in control && control[f] == Bool(false)
  }

  predicate ControlStillAsRead(actual: Item, read: Item) {
    && (forall f | f in read :: f in actual && actual[f] == read[f])
    && (forall f | f in actual && f in OperatorFields :: f in read)
  }

  lemma NoneOnIsAllOff(control: Item)
    ensures NoneOn(control) <==> AllOff(control)
  {
    assert Switches == {StartRequested, StopRequested, CleanupRequested};
    if AllOff(control) {
      forall f | f in {StartRequested, StopRequested, CleanupRequested}
        ensures f in control && control[f] == Bool(false)
      {
        assert Lookup(control, f) == Some(Bool(false));
      }
    }
  }

  /** The log numbers the committed consumptions n+1, n+2, ... without gap or repeat,
      and CONTROL carries the last number. */
  ghost predicate Numbered(b: Board, n: int) {
    && Sequence(b.tables.control) == Num(n + |b.log|)
    && forall i | 0 <= i < |b.log| :: b.log[i].sequence == n + i + 1
  }

  lemma PerformNumbers(b: Board, op: Op, n: int)
    requires Numbered(b, n)
    ensures Numbered(Perform(b, op), n)
  {
    if op.Consume? && Commit(b.tables, op.s, op.env, op.event, op.at).Some? {
      CommitIsAtomic(b.tables, op.s, op.env, op.event, op.at);
    }
  }

  lemma {:induction false} ConsumptionsAreNumbered(b: Board, ops: seq<Op>, n: int)
    requires Sequence(b.tables.control) == Num(n) && b.log == []
    ensures Numbered(Run(b, ops), n)
  {
    if ops != [] {
      ConsumptionsAreNumbered(b, ops[..|ops| - 1], n);
      PerformNumbers(Run(b, ops[..|ops| - 1]), ops[|ops| - 1], n);
    }
  }

  /** No request is lost: a switch that stands keeps standing until the console
      itself rewrites it or a logged consumption lists it, and every consumption
      lists exactly the switches standing when it commits. */
  lemma SwitchStandsUntilConsumed(b: Board, op: Op, f: Field)
    requires f in Switches && Lookup(b.tables.control, f) == Some(Bool(true))
    ensures var b1 := Perform(b, op);
      || Lookup(b1.tables.control, f) == Some(Bool(true))
      || (op.Flip? && op.switch == f)
      || (|b1.log| == |b.log| + 1 && b1.log[|b.log|].switches == Selected(b.tables.control)
          && f in Selected(b.tables.control))
  {
    if op.Consume? {
      ConsumptionLists(b, op, f);
    } else {
      OthersKeepSwitch(b, op, f);
    }
  }

  lemma ConsumptionLists(b: Board, op: Op, f: Field)
    requires op.Consume? && f in Switches && Lookup(b.tables.control, f) == Some(Bool(true))
    ensures var b1 := Perform(b, op);
      || b1 == b
      || (|b1.log| == |b.log| + 1 && b1.log[|b.log|].switches == Selected(b.tables.control)
          && f in Selected(b.tables.control))
  {
  }

  lemma OthersKeepSwitch(b: Board, op: Op, f: Field)
    requires !op.Consume? && f in Switches && Lookup(b.tables.control, f) == Some(Bool(true))
    ensures Lookup(Perform(b, op).tables.control, f) == Some(Bool(true)) || (op.Flip? && op.switch == f)
  {
  }

  /** A delivery carrying an already consumed sequence number never commits. */
  lemma StaleDeliveryIgnored(b: Board, ops: seq<Op>, n: int, s: Snapshot, env: Env, event: Item, at: Value)
    requires Sequence(b.tables.control) == Num(n) && b.log == []
    requires Sequence(event).Num? && Sequence(event).n < n + |Run(b, ops).log|
    ensures Commit(Run(b, ops).tables, s, env, Some(event), at).None?
  {
    ConsumptionsAreNumbered(b, ops, n);
    var t := Run(b, ops).tables;
    if Commit(t, s, env, Some(event), at).Some? {
      CommitIsAtomic(t, s, env, Some(event), at);
    }
  }
}
