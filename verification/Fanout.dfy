/** The offline fan-out trial as values and functions: what one observation or
    conditional operation does to a checkpoint. Depth and fan-out are parameters;
    the program fixes them to 2 and 2. */
module Fanout {
  import opened Paths
  import opened Wrappers

  const MAX_EVIDENCE_AGE := 15

  datatype Phase = Reserved | Submitting | Live | Complete | Retiring | Terminated

  datatype Fault =
    | Missing | Identity | Stale | Health | Continuation
    | Handoff | Termination | LaunchResponse | Retirement

  /** The hash of cycle and path, taken to be injective. */
  datatype Token = Token(cycle: string, path: Path)

  /** An instance or owner name; NoHandle is the empty string. */
  datatype Handle = NoHandle | Sim(token: Token) | Other(name: string)

  datatype Readiness = Readiness(
    cycle: string, path: Path, token: Token, instanceId: Handle,
    templateDigest: string, agentDigest: string, owner: Handle,
    revision: int, observedAt: int, workloadPassed: bool, continuationPassed: bool)

  datatype Node = Node(
    path: Path, phase: Phase, ready: bool, completion: bool, token: Token,
    cycle: string, instanceId: Handle, owner: Handle, revision: int,
    evidence: Option<Readiness>, receipt: Option<Readiness>, completedAt: Option<int>)

  datatype Act =
    | Reserve | Submit | LaunchConfirmed | LaunchReconciled | ReadinessValidated
    | ConditionalCompletion | TerminationAccepted | TerminationConfirmed

  datatype Event = Event(action: Act, node: Path, generation: nat, occupied: nat)

  datatype Trial = Trial(
    depth: nat, fan: nat, cycle: string, enabled: bool, hold: bool,
    nodes: map<Path, Node>, events: seq<Event>, peakOccupied: nat,
    faults: map<Path, Fault>, now: int, simulateEvidence: bool,
    templateDigest: string, agentDigest: string)

  /** True, False and the Blocked exception. */
  datatype Outcome = Advanced | Settled | Blocked

  function Begin(depth: nat, fan: nat): Trial {
    Trial(depth, fan, "offline-trial-1", true, false, map[], [], 0, map[], 0, true, "a", "b")
  }

  predicate Controlled(t: Trial) {
    t.enabled && !t.hold
  }

  predicate HasFault(t: Trial, p: Path, fs: set<Fault>) {
    p in t.faults && t.faults[p] in fs
  }

  predicate Fenced(t: Trial, n: Node) {
    n.cycle == t.cycle && n.token == Token(t.cycle, n.path)
  }

  function Occupied(t: Trial): nat {
    |set p | p in t.nodes && t.nodes[p].phase != Terminated|
  }

  function Emit(t: Trial, action: Act, p: Path): Trial {
    var occupied := Occupied(t);
    t.(peakOccupied := if occupied > t.peakOccupied then occupied else t.peakOccupied,
       events := t.events + [Event(action, p, |p|, occupied)])
  }

  function Put(t: Trial, p: Path, n: Node): Trial {
    t.(nodes := t.nodes[p := n])
  }

  // ----- Evidence -----

  function Observation(t: Trial, n: Node): Node {
    if n.phase != Live && n.phase != Complete then n
    else if HasFault(t, n.path, {Missing}) then n.(evidence := None)
    else n.(evidence := Some(Readiness(
        n.cycle, n.path, n.token,
        if HasFault(t, n.path, {Identity}) then Other("wrong-instance") else n.instanceId,
        t.templateDigest, t.agentDigest, n.owner, n.revision,
        if HasFault(t, n.path, {Stale}) then t.now - 16 else t.now,
        !HasFault(t, n.path, {Health}), !HasFault(t, n.path, {Continuation}))))
  }

  function Observe(t: Trial): Trial {
    t.(nodes := map p | p in t.nodes :: Observation(t, t.nodes[p]))
  }

  predicate EvidenceOk(t: Trial, n: Node) {
    && Fenced(t, n)
    && n.evidence.Some?
    && var proof := n.evidence.value;
    && proof.cycle == t.cycle && proof.path == n.path && proof.token == n.token
    && proof.instanceId == n.instanceId
    && proof.templateDigest == t.templateDigest && proof.agentDigest == t.agentDigest
    && proof.owner == n.owner && proof.revision == n.revision
    && n.owner != NoHandle && n.instanceId != NoHandle
    && 0 <= t.now - proof.observedAt <= MAX_EVIDENCE_AGE
    && proof.workloadPassed && proof.continuationPassed
  }

  /** The historical receipt a terminated node must still carry. */
  predicate ReceiptOk(t: Trial, p: Path, n: Node) {
    && n.completion && n.receipt.Some? && n.completedAt.Some?
    && var proof := n.receipt.value;
    && proof.cycle == t.cycle && proof.path == p && proof.token == n.token
    && proof.instanceId == n.instanceId
    && proof.templateDigest == t.templateDigest && proof.agentDigest == t.agentDigest
    && proof.workloadPassed && proof.continuationPassed
    && proof.owner == n.owner && proof.revision == n.revision - 1
    && 0 <= n.completedAt.value - proof.observedAt <= MAX_EVIDENCE_AGE
  }

  predicate AncestorsOk(t: Trial, p: Path) {
    forall k | 0 <= k < |p| :: p[..k] in t.nodes && AncestorOk(t, t.nodes[p[..k]])
  }

  predicate AncestorOk(t: Trial, n: Node) {
    && EvidenceOk(t, n) && n.phase == Live && n.ready
    && !HasFault(t, n.path, {Identity, Health, Stale, Missing})
  }

  // ----- One conditional operation -----

  function NewNode(t: Trial, p: Path): Node {
    Node(p, Reserved, false, false, Token(t.cycle, p), t.cycle, NoHandle, NoHandle, 0, None, None, None)
  }

  function Launched(n: Node): Node {
    n.(phase := Live, instanceId := Sim(n.token), owner := Sim(n.token))
  }

  function Completed(t: Trial, n: Node): Node {
    n.(receipt := n.evidence, completedAt := Some(t.now), completion := true,
       phase := Complete, revision := n.revision + 1)
  }

  /** Submit a reserved node; a lost response leaves it submitted. */
  function LaunchNode(t: Trial, p: Path): (Trial, Outcome)
    requires p in t.nodes
  {
    var submitted := Emit(Put(t, p, t.nodes[p].(phase := Submitting)), Submit, p);
    if HasFault(t, p, {LaunchResponse}) then (submitted, Blocked)
    else (Emit(Put(submitted, p, Launched(t.nodes[p])), LaunchConfirmed, p), Advanced)
  }

  /** Complete a ready node whose children have all settled. */
  function CompleteNode(t: Trial, p: Path): (Trial, Outcome)
    requires p in t.nodes
  {
    var n := t.nodes[p];
    if Controlled(t) && EvidenceOk(t, n) && n.phase == Live && !HasFault(t, n.path, {Handoff})
    then (Emit(Put(t, p, Completed(t, n)), ConditionalCompletion, p), Advanced)
    else (t, Blocked)
  }

  /** Advancing one node by itself: everything but the descent of a ready LIVE node. */
  function AdvanceHere(t: Trial, p: Path): (r: (Trial, Outcome))
    ensures r.1 == Settled ==> r.0 == t
  {
    if p !in t.nodes then
      if Controlled(t) then (Emit(Put(t, p, NewNode(t, p)), Reserve, p), Advanced) else (t, Blocked)
    else
      var n := t.nodes[p];
      if !Fenced(t, n) then (t, Blocked)
      else if n.phase == Terminated then (t, if ReceiptOk(t, p, n) then Settled else Blocked)
      else if n.phase == Submitting then (t, Blocked)
      else if n.phase == Retiring then
        if HasFault(t, p, {Termination, Missing}) then (t, Blocked)
        else (Emit(Put(t, p, n.(phase := Terminated)), TerminationConfirmed, p), Advanced)
      else if !Controlled(t) then (t, Blocked)
      else if n.phase == Reserved then LaunchNode(t, p)
      else if !EvidenceOk(t, n) then (t, Blocked)
      else if n.phase == Complete then
        if HasFault(t, p, {Identity, Missing, Retirement}) then (t, Blocked)
        else (Emit(Put(t, p, n.(phase := Retiring)), TerminationAccepted, p), Advanced)
      else if !n.ready then (Emit(Put(t, p, n.(ready := true)), ReadinessValidated, p), Advanced)
      else CompleteNode(t, p)
  }

  /** A LIVE, ready node that passes its checks works on its children first. */
  predicate Descends(t: Trial, p: Path) {
    && p in t.nodes && Fenced(t, t.nodes[p]) && t.nodes[p].phase == Live && t.nodes[p].ready
    && Controlled(t) && EvidenceOk(t, t.nodes[p])
  }

  function Advance(t: Trial, p: Path): (r: (Trial, Outcome))
    requires |p| <= t.depth
    ensures r.1 == Settled ==> r.0 == t
    decreases t.depth - |p|, 1, 0
  {
    if Descends(t, p) && |p| < t.depth then
      var below := AdvanceChildren(t, p, 0);
      if below.1 != Settled then below else AdvanceHere(t, p)
    else AdvanceHere(t, p)
  }

  /** The child loop: stop at the first child that does not settle. */
  function AdvanceChildren(t: Trial, p: Path, i: nat): (r: (Trial, Outcome))
    requires |p| < t.depth && i <= t.fan
    ensures r.1 == Settled ==> r.0 == t
    decreases t.depth - |p|, 0, t.fan - i
  {
    if i == t.fan then (t, Settled)
    else
      var r := Advance(t, p + [i]);
      if r.1 != Settled then r else AdvanceChildren(t, p, i + 1)
  }

  // ----- One step over the whole checkpoint -----

  predicate AllFenced(t: Trial) {
    forall p | p in t.nodes :: Fenced(t, t.nodes[p])
  }

  /** The first child of p, from index i on, that has no node; fan when none. */
  function FirstMissing(t: Trial, p: Path, i: nat): (k: nat)
    requires i <= t.fan
    ensures i <= k <= t.fan
    ensures k < t.fan ==> p + [k] !in t.nodes
    ensures forall j | i <= j < k :: p + [j] in t.nodes
    decreases t.fan - i
  {
    if i == t.fan || p + [i] !in t.nodes then i else FirstMissing(t, p, i + 1)
  }

  predicate NeedsLaunch(n: Node) {
    n.phase == Reserved || n.phase == Submitting || (n.phase == Live && !n.ready)
  }

  /** What the expansion loop does at one path: pass on, block, or advance a path. */
  datatype Visit = Pass | Stop | Go(path: Path)

  function VisitPath(t: Trial, p: Path): (v: Visit)
    ensures v.Go? ==> |v.path| <= |p| || (|v.path| == |p| + 1 && |p| < t.depth)
  {
    if p !in t.nodes then Pass
    else
      var n := t.nodes[p];
      if NeedsLaunch(n) then
        if AncestorsOk(t, p) then Go(p) else Stop
      else if n.phase == Live && |p| < t.depth then
        if !AncestorsOk(t, p) || !EvidenceOk(t, n) then Stop
        else if FirstMissing(t, p, 0) < t.fan then Go(p + [FirstMissing(t, p, 0)])
        else Pass
      else Pass
  }

  /** The expansion loop over the remaining paths, then the root's own advance. */
  function Scan(t: Trial, ps: seq<Path>): (r: (Trial, Outcome))
    requires forall p | p in ps :: |p| <= t.depth
    ensures r.1 == Settled ==> r.0 == t
  {
    if ps == [] then Advance(t, Root)
    else
      assert ps[0] in ps;
      match VisitPath(t, ps[0])
      case Pass => Scan(t, ps[1..])
      case Stop => (t, Blocked)
      case Go(p) => Advance(t, p)
  }

  lemma LevelOrderBounded(t: Trial)
    ensures forall p | p in LevelOrder(t.depth, t.fan) :: |p| <= t.depth
  {
    LevelOrderIsExact(t.depth, t.fan);
  }

  function Step(t: Trial): (Trial, Outcome) {
    if !AllFenced(t) then (t, Blocked)
    else
      var seen := if t.simulateEvidence then Observe(t) else t;
      LevelOrderBounded(seen);
      Scan(seen, LevelOrder(seen.depth, seen.fan))
  }

  /** An exact external observation of a submitted launch. False is Blocked or a missing path. */
  function Reconcile(t: Trial, p: Path, cycle: string, token: Token, found: bool): (Trial, bool) {
    if p !in t.nodes then (t, false)
    else
      var n := t.nodes[p];
      if Fenced(t, n) && cycle == t.cycle && token == n.token && n.phase == Submitting && found
      then (Emit(Put(t, p, Launched(n)), LaunchReconciled, p), true)
      else (t, false)
  }

  // ----- Runs: steps and reconciliations mixed with anything the outside can change -----

  datatype Op =
    | DoStep
    | DoReconcile(path: Path, cycle: string, token: Token, found: bool)
    | SetControls(enabled: bool, hold: bool)
    | SetFaults(faults: map<Path, Fault>)
    | SetClock(now: int)
    | SetSimulation(simulate: bool)
    | SetEvidence(at: Path, evidence: Option<Readiness>)
    | SetIdentity(newCycle: string, templateDigest: string, agentDigest: string)

  function Do(t: Trial, op: Op): Trial {
    match op
    case DoStep => Step(t).0
    case DoReconcile(p, cycle, token, found) => Reconcile(t, p, cycle, token, found).0
    case SetControls(enabled, hold) => t.(enabled := enabled, hold := hold)
    case SetFaults(faults) => t.(faults := faults)
    case SetClock(now) => t.(now := now)
    case SetSimulation(simulate) => t.(simulateEvidence := simulate)
    case SetEvidence(p, evidence) =>
      if p in t.nodes then Put(t, p, t.nodes[p].(evidence := evidence)) else t
    case SetIdentity(cycle, template, agent) =>
      t.(cycle := cycle, templateDigest := template, agentDigest := agent)
  }

  function Run(t: Trial, ops: seq<Op>): Trial {
    if ops == [] then t else Do(Run(t, ops[..|ops| - 1]), ops[|ops| - 1])
  }
}
