/** The agent's cycle in a fault-free family, and progress: some agent can always raise
    a bounded measure until every interior node has retired and every leaf stays. */
module FamilyProgress {
  import opened Wrappers
  import opened Paths

  /** Every second count of the inherited settings is validated to be at least one. */
  type Seconds = n: int | n >= 1 witness 1

  /** max_generation, binary_fanout_enabled, readiness_timeout_seconds. */
  datatype Settings = Settings(depth: nat, binary: bool, timeout: Seconds)

  function Fan(s: Settings): nat {
    if s.binary then 2 else 1
  }

  function ChildCount(s: Settings, p: Path): nat {
    if |p| >= s.depth then 0 else Fan(s)
  }

  datatype Status = Candidate | Owner | Leaf | Retiring

  /** The durable rows of one launched node, and whether its instance has terminated. */
  datatype Member = Member(ready: Option<int>, owned: bool, status: Status, propagated: bool, retired: bool)

  const Launched := Member(None, false, Candidate, false, false)

  /** What an agent process remembers between cycles. */
  datatype Agent = Agent(lastReady: int, waitStarted: Option<int>, recorded: bool)

  const NewAgent := Agent(0, None, false)

  type Members = map<Path, Member>

  predicate FreshAt(m: Member, now: int) {
    m.ready.Some? && 0 <= now - m.ready.value <= 15
  }

  /** launch_child for children 0 to k - 1: those already launched are found again. */
  function LaunchChildren(g: Members, p: Path, k: nat): Members {
    if k == 0 then g else LaunchOne(LaunchChildren(g, p, k - 1), p + [k - 1])
  }

  function LaunchOne(g: Members, q: Path): Members {
    if q in g then g else g[q := Launched]
  }

  predicate Accepts(g: Members, q: Path, now: int) {
    q in g && FreshAt(g[q], now)
  }

  /** accept_child: an owner already there is left as it is. */
  function Accepted(m: Member): Member {
    if m.owned then m else m.(owned := true, status := Owner)
  }

  /** accept_child for children 0 to k - 1, up to the first that is not eligible. */
  function AcceptChildren(g: Members, p: Path, now: int, k: nat): (bool, Members) {
    if k == 0 then (true, g)
    else
      var (ok, h) := AcceptChildren(g, p, now, k - 1);
      var q := p + [k - 1];
      if ok && Accepts(h, q, now) then (true, h[q := Accepted(h[q])]) else (false, h)
  }

  predicate ChildContinues(s: Settings, g: Members, q: Path, now: int) {
    q in g && g[q].owned && FreshAt(g[q], now) && (ChildCount(s, q) == 0 || g[q].propagated)
  }

  predicate ParentGone(g: Members, p: Path) {
    p == Root || (Parent(p) in g && g[Parent(p)].retired)
  }

  predicate SingleLaunchReady(g: Members, p: Path) {
    |p| <= 1 || (p[..|p| - 2] in g && g[p[..|p| - 2]].retired)
  }

  predicate LaunchReady(s: Settings, g: Members, p: Path) {
    s.binary || SingleLaunchReady(g, p)
  }

  datatype Result =
    | IsRetiring | IsCandidate | IsLeaf | WaitingForParent | WaitingForChild | WaitingForParentRetirement
    | WaitingForContinuation | TimedOut | IsStopped

  datatype State = State(members: Members, agent: Agent, result: Result)

  function Published(g: Members, a: Agent, p: Path, now: int): (Members, Agent)
    requires p in g
  {
    if now - a.lastReady >= 5 then (g[p := g[p].(ready := Some(now))], a.(lastReady := now)) else (g, a)
  }

  function Started(a: Agent, now: int): Agent {
    if a.waitStarted.None? then a.(waitStarted := Some(now)) else a
  }

  /** From the launches on; a.waitStarted is set. */
  function Extended(s: Settings, g: Members, p: Path, now: int, a: Agent): State
    requires p in g && a.waitStarted.Some?
  {
    if !a.recorded && now - a.waitStarted.value >= s.timeout then State(g, a, TimedOut)
    else Settled(s, Receipted(LaunchChildren(g, p, ChildCount(s, p)), p, a), p, now, a.(recorded := true))
  }

  /** publish_propagation, once. */
  function Receipted(g: Members, p: Path, a: Agent): Members {
    if a.recorded || p !in g then g else g[p := g[p].(propagated := true)]
  }

  /** From the acceptances on. */
  function Settled(s: Settings, g: Members, p: Path, now: int, a: Agent): State
    requires a.waitStarted.Some?
  {
    var (ok, accepted) := AcceptChildren(g, p, now, ChildCount(s, p));
    if ok then Finished(s, accepted, p, now, a)
    else State(accepted, a, if now - a.waitStarted.value > s.timeout then TimedOut else WaitingForChild)
  }

  /** The end of a cycle: the parent's termination, then authorization and retirement. */
  function Finished(s: Settings, g: Members, p: Path, now: int, a: Agent): State
    requires a.waitStarted.Some?
  {
    if !ParentGone(g, p) then State(g, a, WaitingForParentRetirement)
    else if !(forall k | 0 <= k < ChildCount(s, p) :: ChildContinues(s, g, p + [k], now)) then
      State(g, a, if now - a.waitStarted.value >= s.timeout then TimedOut else WaitingForContinuation)
    else if p !in g then State(g, a, IsRetiring)
    else State(g[p := g[p].(status := Retiring, retired := true)], a, IsRetiring)
  }

  /** FamilyDaemon.cycle of the agent at p, while its monitor reports no stop. */
  function Cycled(s: Settings, g: Members, p: Path, now: int, a: Agent): State
    requires p in g
  {
    if g[p].status == Retiring then State(g[p := g[p].(retired := true)], a, IsRetiring)
    else
      var (h, b) := Published(g, a, p, now);
      Proceeded(s, h, p, now, b)
  }

  /** Past readiness: the role of the node. */
  function Proceeded(s: Settings, g: Members, p: Path, now: int, a: Agent): State
    requires p in g
  {
    if !g[p].owned then State(g, a, IsCandidate)
    else if ChildCount(s, p) == 0 then State(g[p := g[p].(status := Leaf)], a, IsLeaf)
    else if !LaunchReady(s, g, p) then State(g, a, WaitingForParent)
    else Extended(s, g, p, now, Started(a, now))
  }

  // ----- Runs -----

  /** halted holds the agents that ended with a SafetyViolation. seen is history: when
      each agent had its last turn, or was launched. */
  datatype Family = Family(
    members: Members, agents: map<Path, Agent>, halted: set<Path>, seen: map<Path, int>, now: int)

  function AgentAt(f: Family, p: Path): Agent {
    if p in f.agents then f.agents[p] else NewAgent
  }

  function SeenAt(f: Family, p: Path): int {
    if p in f.seen then f.seen[p] else f.now
  }

  /** A live node: launched, and its instance not terminated. */
  predicate Live(g: Members, p: Path) {
    p in g && !g[p].retired
  }

  /** One agent's cycle at time now; agents of terminated instances no longer run, and
      neither do those that timed out. */
  datatype Turn = Turn(p: Path, now: int)

  predicate Runs(f: Family, t: Turn) {
    Live(f.members, t.p) && t.p !in f.halted && t.now >= f.now
  }

  function Step(s: Settings, f: Family, t: Turn): Family {
    if !Runs(f, t) then f
    else
      var r := Cycled(s, f.members, t.p, t.now, AgentAt(f, t.p));
      Family(r.members, f.agents[t.p := r.agent],
             if r.result == TimedOut then f.halted + {t.p} else f.halted,
             map q | q in r.members :: if q == t.p || q !in f.members then t.now else SeenAt(f, q),
             t.now)
  }

  /** The seed has taken ownership of the root; clocks are past the epoch. */
  function Begin(now: int): Family {
    Family(map[Root := Launched.(owned := true, status := Owner)], map[], {}, map[Root := now], now)
  }

  function Run(s: Settings, start: int, turns: seq<Turn>): Family {
    if turns == [] then Begin(start) else Step(s, Run(s, start, turns[..|turns| - 1]), turns[|turns| - 1])
  }
}
