/** Independent EC2 families for one cycle: every agent, every launch thread, EC2,
    the lifecycle record and the cleanup controller, one atomic step at a time.
    Each conditional transaction is one step; whatever the source reads before it
    and the transaction does not check again is left to the environment. */
module Family {
  import opened Wrappers
  import opened Paths
  import opened Lineage
  import opened Records
  import opened Lifecycle

  datatype Config = Config(cycle: nat, pin: Pin, maxGeneration: nat, binary: bool)

  function Fan(c: Config): nat {
    if c.binary then 2 else 1
  }

  /** How many children a node at p launches; they are p + [0], p + [1]. */
  function ChildCount(c: Config, p: Path): nat {
    if |p| >= c.maxGeneration then 0 else Fan(c)
  }

  /** A launch identity: the requesting instance and the child position. It stands
      for the deterministic client token. */
  datatype Edge = Edge(parent: Inst, index: nat)

  function EdgePath(e: Edge): Path {
    PathOf(e.parent) + [e.index]
  }

  function MadeBy(e: Edge, call: nat): Inst {
    Child(e.parent, e.index, call)
  }

  predicate OfEdge(x: Inst, e: Edge) {
    x.Child? && x.parent == e.parent && x.index == e.index
  }

  // ----- Durable rows under GEN#path -----

  datatype NodeStatus = Candidate | Owner | Retiring | Leaf

  datatype NodeRow = NodeRow(instance: Inst, owner: Option<Inst>, status: NodeStatus, retirementChildren: nat)
  datatype StateRow = StateRow(instance: Inst, readyAt: int, error: bool)
  datatype Submission = Submission(token: Edge, settled: bool, rejected: bool, instance: Option<Inst>)
  datatype Receipt = Receipt(instance: Inst, children: seq<Inst>, demonstratedAt: int)

  /** resources maps each recorded instance to whether its termination is confirmed. */
  datatype Rows = Rows(
    node: Option<NodeRow>, state: Option<StateRow>, submission: Option<Submission>,
    resources: map<Inst, bool>, propagation: Option<Receipt>, stop: bool)

  const NoRows := Rows(None, None, None, map[], None, false)

  // ----- Launch threads and EC2 -----

  /** What became of a RunInstances call; a call without an outcome is in flight. */
  datatype CallOutcome = Made | Throttled | Failed

  datatype Thread = Resting | Permit | Waiting(call: nat) | Rejecting | Found(inst: Inst) | Inventoried(inst: Inst)

  datatype Launch = Launch(calls: nat, outcomes: map<nat, CallOutcome>, thread: Thread)

  const NoLaunch := Launch(0, map[], Resting)

  /** One delivery of the cleanup controller. */
  datatype Worker =
    | Off
    | Guarded(ids: set<Inst>, expected: CleanupStatus)
    | Scanned(ids: set<Inst>, confirmed: set<Inst>, expected: CleanupStatus)
    | Marked(ids: set<Inst>, confirmed: set<Inst>, gone: set<Inst>)
    | Verified
    | Completing(read: Request)

  datatype World = World(
    request: Request, hold: bool, controlStop: bool, controlCleanup: bool, now: int,
    rows: map<Path, Rows>, launches: map<Edge, Launch>, ec2: map<Inst, Ec2>,
    cleared: set<Inst>,            // agents whose retirement passed its last check
    workers: map<nat, Worker>,
    claims: map<Path, Edge>,       // history: every launch intent ever committed
    failed: set<Inst>,             // history: instances that died outside the protocol
    removed: set<Inst>,            // history: instances cleanup asked EC2 to terminate
    deleting: bool)                // history: cleanup has deleted a row

  function RowsAt(w: World, p: Path): Rows {
    if p in w.rows then w.rows[p] else NoRows
  }

  function LaunchAt(w: World, e: Edge): Launch {
    if e in w.launches then w.launches[e] else NoLaunch
  }

  function WorkerAt(w: World, n: nat): Worker {
    if n in w.workers then w.workers[n] else Off
  }

  function SetRows(w: World, p: Path, r: Rows): World {
    w.(rows := w.rows[p := r])
  }

  function SetLaunch(w: World, e: Edge, l: Launch): World {
    w.(launches := w.launches[e := l])
  }

  function SetThread(w: World, e: Edge, t: Thread): World {
    SetLaunch(w, e, LaunchAt(w, e).(thread := t))
  }

  // ----- Fences -----

  predicate Pinned(c: Config, w: World) {
    w.request.pin == Some(c.pin)
  }

  predicate CycleOpen(c: Config, w: World) {
    LifecycleOpen(w.request, c.cycle) && Pinned(c, w)
  }

  predicate FinalGate(c: Config, w: World, p: Path) {
    && CycleOpen(c, w) && w.request.propagation && !RowsAt(w, p).stop
    && !w.hold && !w.controlStop && !w.controlCleanup
  }

  predicate Bookkeeping(c: Config, w: World) {
    w.request.id == c.cycle && w.request.cleanupStatus in {Idle, Done, Quiescing} && Pinned(c, w)
  }

  predicate Acting(w: World, i: Inst) {
    i in w.ec2 && (w.ec2[i] == Running || w.ec2[i] == ShuttingDown)
  }

  predicate Ended(w: World, i: Inst) {
    i in w.ec2 && w.ec2[i] == Gone
  }

  predicate Owns(w: World, i: Inst, status: NodeStatus) {
    var node := RowsAt(w, PathOf(i)).node;
    node.Some? && node.value.owner == Some(i) && node.value.status == status
  }

  predicate RetiringAt(w: World, p: Path) {
    RowsAt(w, p).node.Some? && RowsAt(w, p).node.value.status == Retiring
  }

  /** x is confirmed terminated, against its own accepted retirement receipt. */
  predicate AncestorEnded(c: Config, w: World, x: Inst) {
    var node := RowsAt(w, PathOf(x)).node;
    && Ended(w, x) && Owns(w, x, Retiring) && node.value.instance == x
    && node.value.retirementChildren == ChildCount(c, PathOf(x))
  }

  predicate ParentEnded(c: Config, w: World, i: Inst) {
    i == Seed || AncestorEnded(c, w, i.parent)
  }

  /** Single mode launches a fourth generation only once the first is terminated. */
  predicate SingleLaunchReady(c: Config, w: World, i: Inst) {
    |PathOf(i)| <= 1 ||
      (i.Child? && i.parent.Child?
       && RowsAt(w, PathOf(i.parent)).state.Some? && RowsAt(w, PathOf(i.parent)).state.value.instance == i.parent
       && AncestorEnded(c, w, i.parent.parent))
  }

  predicate LaunchReady(c: Config, w: World, i: Inst) {
    c.binary || SingleLaunchReady(c, w, i)
  }

  predicate Fresh(w: World, s: StateRow) {
    0 <= w.now - s.readyAt <= 15 && !s.error
  }

  /** The eligible functional readiness of instance x, a child of i, at q. EC2 is asked
      before the transaction, so at the commit x may be in any state. */
  predicate Eligible(w: World, q: Path, x: Inst, i: Inst) {
    && RowsAt(w, q).state.Some? && RowsAt(w, q).state.value.instance == x
    && Fresh(w, RowsAt(w, q).state.value)
    && x.Child? && x.parent == i && PathOf(x) == q && x in w.ec2
  }

  /** Exact settled evidence that x was launched at edge e, whatever its state by now. */
  predicate LaunchEvidence(w: World, e: Edge, x: Inst) {
    var q := EdgePath(e);
    && RowsAt(w, q).submission == Some(Submission(e, true, false, Some(x)))
    && x in RowsAt(w, q).resources
    && x in w.ec2
  }

  predicate PropagationProved(c: Config, w: World, p: Path, i: Inst) {
    ChildCount(c, p) == 0 ||
      (RowsAt(w, p).propagation.Some? && RowsAt(w, p).propagation.value.instance == i
       && |RowsAt(w, p).propagation.value.children| == ChildCount(c, p)
       && forall k | 0 <= k < ChildCount(c, p) ::
            LaunchEvidence(w, Edge(i, k), RowsAt(w, p).propagation.value.children[k]))
  }

  /** Everything the retirement transaction checks about child k of i. */
  predicate ChildContinues(c: Config, w: World, i: Inst, k: nat) {
    var q := PathOf(i) + [k];
    && RowsAt(w, q).node.Some?
    && var x := RowsAt(w, q).node.value.instance;
    && Eligible(w, q, x, i)
    && RowsAt(w, q).node.value.owner == Some(x)
    && RowsAt(w, q).node.value.status in {Owner, Leaf}
    && !RowsAt(w, q).stop && PropagationProved(c, w, q, x)
  }

  // ----- Environment -----

  /** One launch edge: its requests, what EC2 made of them, its durable receipts. */
  datatype LaunchStep =
    | Make(e: Edge, call: nat)
    | Refuse(e: Edge, call: nat, throttled: bool)
    | Intend(e: Edge)
    | Retry(e: Edge)
    | CallEc2(e: Edge)
    | HearInstance(e: Edge)
    | HearThrottle(e: Edge)
    | RecordThrottle(e: Edge, answered: bool)
    | Lose(e: Edge)
    | FindByToken(e: Edge, x: Inst)
    | RecordResource(e: Edge)
    | Settle(e: Edge)

  /** What else is written under an agent's own path, its parent's or a child's. */
  datatype AgentStep =
    | Initialize(i: Inst)
    | PublishReadiness(i: Inst)
    | PublishPropagation(i: Inst, children: seq<Inst>)
    | Accept(e: Edge)
    | MarkLeaf(i: Inst)
    | Authorize(i: Inst)
    | ConfirmParent(i: Inst)
    | StopNode(i: Inst, p: Path)
    | MarkError(p: Path)

  /** Delivery n of the cleanup controller. */
  datatype CleanupStep =
    | Guard(n: nat)
    | ScanTable(n: nat)
    | Mark(n: nat, deleting: bool)
    | SeeGone(n: nat, i: Inst)
    | SeeMissing(n: nat, i: Inst)
    | Remove(n: nat, i: Inst)
    | Verify(n: nat)
    | TakeSnapshot(n: nat)
    | DeleteRows(n: nat, p: Path, keep: Rows)
    | Commit(n: nat, digest: Item)
    | Abandon(n: nat)

  /** The lifecycle record, the controls, instance states, self-termination. */
  datatype OutsideStep =
    | WriteRequest(wr: Write)
    | SetControls(hold: bool, controlStop: bool, controlCleanup: bool, now: int)
    | Boot(i: Inst)
    | FinishTermination(i: Inst)
    | Die(i: Inst)
    | Reconfirm(i: Inst)
    | TerminateSelf(i: Inst)

  datatype Action =
    | Launching(launch: LaunchStep)
    | Acts(agent: AgentStep)
    | Cleaning(cleanup: CleanupStep)
    | Outside(outside: OutsideStep)

  function DoWrite(w: World, wr: Write): Option<World> {
    if wr.Reset? || wr.MarkInventory? || !LawfulWrite(w.request, wr) then None
    else
      var r := Apply(w.request, wr);
      if r.None? then None else Some(w.(request := r.value))
  }

  function DoMarkError(w: World, p: Path): Option<World> {
    var r := RowsAt(w, p);
    if r.state.None? then None
    else Some(SetRows(w, p, r.(state := Some(r.state.value.(error := true)))))
  }

  function DoMake(w: World, e: Edge, n: nat): Option<World> {
    var l := LaunchAt(w, e);
    if n >= l.calls || n in l.outcomes || MadeBy(e, n) in w.ec2 then None
    else Some(SetLaunch(w, e, l.(outcomes := l.outcomes[n := Made])).(ec2 := w.ec2[MadeBy(e, n) := Pending]))
  }

  function DoRefuse(w: World, e: Edge, n: nat, throttled: bool): Option<World> {
    var l := LaunchAt(w, e);
    if n >= l.calls || n in l.outcomes then None
    else Some(SetLaunch(w, e, l.(outcomes := l.outcomes[n := if throttled then Throttled else Failed])))
  }

  function DoEc2(w: World, i: Inst, from: Ec2, to: Ec2): Option<World> {
    if i in w.ec2 && w.ec2[i] == from then Some(w.(ec2 := w.ec2[i := to])) else None
  }

  function DoDie(w: World, i: Inst): Option<World> {
    if i in w.ec2 && w.ec2[i] != Gone
    then Some(w.(ec2 := w.ec2[i := Gone], failed := w.failed + {i})) else None
  }

  // ----- Agents -----

  function DoInitialize(c: Config, w: World, i: Inst): Option<World> {
    var p := PathOf(i);
    var r := RowsAt(w, p);
    if !Acting(w, i) || !CycleOpen(c, w) || r.node.Some? then None
    else
      var node := if p == Root then NodeRow(i, Some(i), Owner, 0) else NodeRow(i, None, Candidate, 0);
      Some(SetRows(w, p, r.(node := Some(node), resources := r.resources[i := false])))
  }

  function DoReadiness(c: Config, w: World, i: Inst): Option<World> {
    var p := PathOf(i);
    var r := RowsAt(w, p);
    if !Acting(w, i) || !CycleOpen(c, w) then None
    else if r.state.Some? && (r.state.value.instance != i || r.state.value.error) then None
    else Some(SetRows(w, p, r.(state := Some(StateRow(i, w.now, false)))))
  }

  function DoIntend(c: Config, w: World, e: Edge): Option<World> {
    var q := EdgePath(e);
    var r := RowsAt(w, q);
    if !Acting(w, e.parent) || LaunchAt(w, e).thread != Resting || e.index >= ChildCount(c, PathOf(e.parent))
       || !LaunchReady(c, w, e.parent) || !CycleOpen(c, w) || !Owns(w, e.parent, Owner) || r.submission.Some?
    then None
    else
      var w1 := SetRows(w, q, r.(submission := Some(Submission(e, false, false, None))));
      Some(SetThread(w1, e, Permit).(claims := w.claims[q := e]))
  }

  function DoRetry(c: Config, w: World, e: Edge): Option<World> {
    var q := EdgePath(e);
    var r := RowsAt(w, q);
    if !Acting(w, e.parent) || LaunchAt(w, e).thread != Resting || !LaunchReady(c, w, e.parent)
       || !CycleOpen(c, w) || !Owns(w, e.parent, Owner) || r.submission.None?
       || r.submission.value.token != e || !r.submission.value.rejected || r.submission.value.instance.Some?
    then None
    else Some(SetThread(SetRows(w, q, r.(submission := Some(r.submission.value.(rejected := false)))), e, Permit))
  }

  function DoCall(w: World, e: Edge): Option<World> {
    var l := LaunchAt(w, e);
    if l.thread != Permit then None
    else Some(SetLaunch(w, e, l.(calls := l.calls + 1, thread := Waiting(l.calls))))
  }

  function DoHear(w: World, e: Edge, outcome: CallOutcome): Option<World> {
    var l := LaunchAt(w, e);
    if !l.thread.Waiting? || l.thread.call !in l.outcomes || l.outcomes[l.thread.call] != outcome then None
    else Some(SetThread(w, e, if outcome == Made then Found(MadeBy(e, l.thread.call)) else Rejecting))
  }

  /** The fenced rejection receipt; unanswered, the thread tries it again. */
  function DoRecordThrottle(c: Config, w: World, e: Edge, answered: bool): Option<World> {
    var q := EdgePath(e);
    var r := RowsAt(w, q);
    if LaunchAt(w, e).thread != Rejecting || !Bookkeeping(c, w) || r.submission.None?
       || r.submission.value.token != e || r.submission.value.instance.Some? then None
    else
      var w1 := SetRows(w, q, r.(submission := Some(r.submission.value.(rejected := true))));
      Some(if answered then SetThread(w1, e, Resting) else w1)
  }

  function DoFind(w: World, e: Edge, x: Inst): Option<World> {
    var s := RowsAt(w, EdgePath(e)).submission;
    if !Acting(w, e.parent) || LaunchAt(w, e).thread != Resting || s.None? || s.value.token != e
       || s.value.settled || !OfEdge(x, e) || x !in w.ec2 then None
    else Some(SetThread(w, e, Found(x)))
  }

  function DoRecord(c: Config, w: World, e: Edge): Option<World> {
    var q := EdgePath(e);
    var r := RowsAt(w, q);
    var t := LaunchAt(w, e).thread;
    if !t.Found? || !Bookkeeping(c, w) then None
    else Some(SetThread(SetRows(w, q, r.(resources := r.resources[t.inst := false])), e, Inventoried(t.inst)))
  }

  function DoSettle(c: Config, w: World, e: Edge): Option<World> {
    var q := EdgePath(e);
    var r := RowsAt(w, q);
    var t := LaunchAt(w, e).thread;
    if !t.Inventoried? || !Bookkeeping(c, w) || r.submission.None? || r.submission.value.token != e
       || (r.submission.value.instance.Some? && r.submission.value.instance != Some(t.inst)) then None
    else
      var settled := r.submission.value.(instance := Some(t.inst), settled := true);
      Some(SetThread(SetRows(w, q, r.(submission := Some(settled))), e, Resting))
  }

  function DoPropagation(c: Config, w: World, i: Inst, children: seq<Inst>): Option<World> {
    var p := PathOf(i);
    var r := RowsAt(w, p);
    if !Acting(w, i) || !FinalGate(c, w, p) || !Owns(w, i, Owner) || r.propagation.Some?
       || ChildCount(c, p) == 0 || |children| != ChildCount(c, p)
       || !(forall k | 0 <= k < |children| :: LaunchEvidence(w, Edge(i, k), children[k])) then None
    else Some(SetRows(w, p, r.(propagation := Some(Receipt(i, children, w.now)))))
  }

  function DoAccept(c: Config, w: World, e: Edge): Option<World> {
    var q := EdgePath(e);
    var r := RowsAt(w, q);
    if !Acting(w, e.parent) || !FinalGate(c, w, PathOf(e.parent)) || !Owns(w, e.parent, Owner)
       || e.index >= ChildCount(c, PathOf(e.parent)) || RowsAt(w, PathOf(e.parent)).propagation.None?
       || r.submission.None? || r.submission.value.token != e || !r.submission.value.settled
       || r.submission.value.instance.None? || r.node.None? || r.stop then None
    else
      var x := r.submission.value.instance.value;
      if !Eligible(w, q, x, e.parent) || r.node.value.instance != x || r.node.value.owner.Some? then None
      else Some(SetRows(w, q, r.(node := Some(r.node.value.(owner := Some(x), status := Owner)))))
  }

  function DoMarkLeaf(c: Config, w: World, i: Inst): Option<World> {
    var p := PathOf(i);
    var r := RowsAt(w, p);
    if !Acting(w, i) || !CycleOpen(c, w) || ChildCount(c, p) != 0 || !(Owns(w, i, Owner) || Owns(w, i, Leaf)) then None
    else Some(SetRows(w, p, r.(node := Some(r.node.value.(status := Leaf)))))
  }

  predicate MayAuthorize(c: Config, w: World, i: Inst, from: NodeStatus) {
    && Acting(w, i) && FinalGate(c, w, PathOf(i)) && ChildCount(c, PathOf(i)) > 0
    && ParentEnded(c, w, i) && Owns(w, i, from)
    && forall k | 0 <= k < ChildCount(c, PathOf(i)) :: ChildContinues(c, w, i, k)
  }

  function DoAuthorize(c: Config, w: World, i: Inst): Option<World> {
    var p := PathOf(i);
    var r := RowsAt(w, p);
    if !MayAuthorize(c, w, i, Owner) then None
    else
      var retiring := r.node.value.(status := Retiring, retirementChildren := ChildCount(c, p));
      Some(SetRows(w, p, r.(node := Some(retiring))))
  }

  /** retire_self: the same transaction once more, then permission to terminate. */
  function DoReconfirm(c: Config, w: World, i: Inst): Option<World> {
    if MayAuthorize(c, w, i, Retiring) then Some(w.(cleared := w.cleared + {i})) else None
  }

  function DoTerminateSelf(w: World, i: Inst): Option<World> {
    if i in w.cleared && Acting(w, i) then Some(w.(ec2 := w.ec2[i := ShuttingDown])) else None
  }

  function DoConfirmParent(c: Config, w: World, i: Inst): Option<World> {
    if i == Seed then None
    else
      var p := PathOf(i.parent);
      var r := RowsAt(w, p);
      if !Acting(w, i) || !AncestorEnded(c, w, i.parent) || !Bookkeeping(c, w) || i.parent !in r.resources then None
      else Some(SetRows(w, p, r.(resources := r.resources[i.parent := true])))
  }

  function DoStop(c: Config, w: World, i: Inst, p: Path): Option<World> {
    if !Acting(w, i) || !Bookkeeping(c, w)
       || !(p == PathOf(i) || (p != Root && Parent(p) == PathOf(i) && p[|p| - 1] < ChildCount(c, PathOf(i)))) then None
    else Some(SetRows(w, p, RowsAt(w, p).(stop := true)))
  }

  // ----- Cleanup deliveries -----

  function SetWorker(w: World, n: nat, k: Worker): World {
    w.(workers := w.workers[n := k])
  }

  function Recorded(w: World): set<Inst> {
    set p, x | p in w.rows && x in w.rows[p].resources :: x
  }

  function Confirmed(w: World): set<Inst> {
    set p, x | p in w.rows && x in w.rows[p].resources && w.rows[p].resources[x] :: x
  }

  predicate AllSettled(w: World) {
    forall p | p in w.rows && w.rows[p].submission.Some? :: w.rows[p].submission.value.settled
  }

  function DoGuard(c: Config, w: World, n: nat): Option<World> {
    if w.request.id != c.cycle || !Active(w.request) || !GatesClosed(w.request) then None
    else Some(SetWorker(w, n, Guarded(if w.request.inventory.Some? then w.request.inventory.value else {},
                                      w.request.cleanupStatus)))
  }

  /** One consistent table scan; every inventoried instance must still be recorded. */
  function DoScan(w: World, n: nat): Option<World> {
    var k := WorkerAt(w, n);
    if !k.Guarded? || !AllSettled(w) || !(k.ids <= Recorded(w)) then None
    else Some(SetWorker(w, n, Scanned(Recorded(w), Confirmed(w), k.expected)))
  }

  function DoMark(c: Config, w: World, n: nat, deleting: bool): Option<World> {
    var k := WorkerAt(w, n);
    if !k.Scanned? || k.expected !in {Quiescing, Deleting, Verifying} then None
    else
      var r := Apply(w.request, MarkInventory(c.cycle, k.expected, k.ids, deleting));
      if r.None? then None
      else Some(SetWorker(w.(request := r.value), n, Marked(k.ids, k.confirmed, {})))
  }

  /** An exact lookup found the instance terminated, or found nothing and the
      scanned record carries a termination receipt. */
  function DoSee(w: World, n: nat, i: Inst, missing: bool): Option<World> {
    var k := WorkerAt(w, n);
    if !k.Marked? || i !in k.ids || !(if missing then i in k.confirmed else Ended(w, i)) then None
    else Some(SetWorker(w, n, k.(gone := k.gone + {i})))
  }

  function DoRemove(w: World, n: nat, i: Inst): Option<World> {
    var k := WorkerAt(w, n);
    if !k.Marked? || i !in k.ids || i !in w.ec2 || w.ec2[i] == Gone then None
    else Some(w.(ec2 := w.ec2[i := ShuttingDown], removed := w.removed + {i}))
  }

  function DoVerify(w: World, n: nat): Option<World> {
    var k := WorkerAt(w, n);
    if k.Marked? && k.ids <= k.gone then Some(SetWorker(w, n, Verified)) else None
  }

  function DoSnapshot(w: World, n: nat): Option<World> {
    if WorkerAt(w, n) == Verified then Some(SetWorker(w, n, Completing(w.request))) else None
  }

  predicate Within(keep: Rows, all: Rows) {
    && (keep.node.Some? ==> keep.node == all.node) && (keep.state.Some? ==> keep.state == all.state)
    && (keep.submission.Some? ==> keep.submission == all.submission)
    && (keep.propagation.Some? ==> keep.propagation == all.propagation)
    && (forall x | x in keep.resources :: x in all.resources && keep.resources[x] == all.resources[x])
    && (keep.stop ==> all.stop)
  }

  function DoDelete(c: Config, w: World, n: nat, p: Path, keep: Rows): Option<World> {
    var k := WorkerAt(w, n);
    if !k.Completing? || k.read.id != c.cycle || !RequestHolds(w.request, k.read)
       || !Within(keep, RowsAt(w, p)) then None
    else Some(SetRows(w, p, keep).(deleting := true))
  }

  function DoCommit(c: Config, w: World, n: nat, digest: Item): Option<World> {
    var k := WorkerAt(w, n);
    if !k.Completing? || k.read.id != c.cycle then None
    else
      var r := Apply(w.request, Reset(k.read, digest));
      if r.None? then None else Some(SetWorker(w.(request := r.value), n, Off))
  }

  // ----- The step and the runs -----

  function NextLaunch(c: Config, w: World, a: LaunchStep): Option<World> {
    match a
    case Make(e, n) => DoMake(w, e, n)
    case Refuse(e, n, throttled) => DoRefuse(w, e, n, throttled)
    case Intend(e) => DoIntend(c, w, e)
    case Retry(e) => DoRetry(c, w, e)
    case CallEc2(e) => DoCall(w, e)
    case HearInstance(e) => DoHear(w, e, Made)
    case HearThrottle(e) => DoHear(w, e, Throttled)
    case RecordThrottle(e, answered) => DoRecordThrottle(c, w, e, answered)
    case Lose(e) => Some(SetThread(w, e, Resting))
    case FindByToken(e, x) => DoFind(w, e, x)
    case RecordResource(e) => DoRecord(c, w, e)
    case Settle(e) => DoSettle(c, w, e)
  }

  function NextAgent(c: Config, w: World, a: AgentStep): Option<World> {
    match a
    case Initialize(i) => DoInitialize(c, w, i)
    case PublishReadiness(i) => DoReadiness(c, w, i)
    case PublishPropagation(i, children) => DoPropagation(c, w, i, children)
    case Accept(e) => DoAccept(c, w, e)
    case MarkLeaf(i) => DoMarkLeaf(c, w, i)
    case Authorize(i) => DoAuthorize(c, w, i)
    case ConfirmParent(i) => DoConfirmParent(c, w, i)
    case StopNode(i, p) => DoStop(c, w, i, p)
    case MarkError(p) => DoMarkError(w, p)
  }

  function NextCleanup(c: Config, w: World, a: CleanupStep): Option<World> {
    match a
    case Guard(n) => DoGuard(c, w, n)
    case ScanTable(n) => DoScan(w, n)
    case Mark(n, deleting) => DoMark(c, w, n, deleting)
    case SeeGone(n, i) => DoSee(w, n, i, false)
    case SeeMissing(n, i) => DoSee(w, n, i, true)
    case Remove(n, i) => DoRemove(w, n, i)
    case Verify(n) => DoVerify(w, n)
    case TakeSnapshot(n) => DoSnapshot(w, n)
    case DeleteRows(n, p, keep) => DoDelete(c, w, n, p, keep)
    case Commit(n, digest) => DoCommit(c, w, n, digest)
    case Abandon(n) => Some(SetWorker(w, n, Off))
  }

  function NextOutside(c: Config, w: World, a: OutsideStep): Option<World> {
    match a
    case WriteRequest(wr) => DoWrite(w, wr)
    case SetControls(hold, stop, cleanup, now) =>
      Some(w.(hold := hold, controlStop := stop, controlCleanup := cleanup, now := now))
    case Boot(i) => DoEc2(w, i, Pending, Running)
    case FinishTermination(i) => DoEc2(w, i, ShuttingDown, Gone)
    case Die(i) => DoDie(w, i)
    case Reconfirm(i) => DoReconfirm(c, w, i)
    case TerminateSelf(i) => DoTerminateSelf(w, i)
  }

  function Next(c: Config, w: World, a: Action): Option<World> {
    match a
    case Launching(step) => NextLaunch(c, w, step)
    case Acts(step) => NextAgent(c, w, step)
    case Cleaning(step) => NextCleanup(c, w, step)
    case Outside(step) => NextOutside(c, w, step)
  }

  /** A cycle begins with its lifecycle record, an empty table and the seed instance. */
  ghost predicate Initial(c: Config, w: World) {
    && RequestInv(w.request) && w.request.id == c.cycle
    && w.rows == map[] && w.launches == map[] && w.ec2 == map[Seed := Pending]
    && w.cleared == {} && w.workers == map[] && w.claims == map[]
    && w.failed == {} && w.removed == {} && !w.deleting
  }

  function Run(c: Config, w: World, actions: seq<Action>): Option<World> {
    if actions == [] then Some(w)
    else
      var before := Run(c, w, actions[..|actions| - 1]);
      if before.None? then None else Next(c, before.value, actions[|actions| - 1])
  }
}
