/** The trial as the program runs it: one object whose fields the operations
    update in place, proved against the functions of Fanout. */
module FanoutTrial {
  import opened Paths
  import opened Wrappers
  import opened Fanout
  import FanoutRuns

  datatype RunResult = Reported | RunBlocked | DidNotFinish

  /** The nodes still to do are as before, the others as they shall be. */
  predicate Rewritten(before: map<Path, Node>, after: map<Path, Node>, nodes: map<Path, Node>, todo: set<Path>) {
    && nodes.Keys == before.Keys == after.Keys
    && forall p | p in nodes :: nodes[p] == if p in todo then before[p] else after[p]
  }

  class BinaryTrial {
    const depth: nat
    const fan: nat
    var cycle: string
    var enabled: bool
    var hold: bool
    var nodes: map<Path, Node>
    var events: seq<Event>
    var peakOccupied: nat
    var faults: map<Path, Fault>
    var now: int
    var simulateEvidence: bool
    var templateDigest: string
    var agentDigest: string

    ghost function View(): Trial
      reads this
    {
      Trial(depth, fan, cycle, enabled, hold, nodes, events, peakOccupied, faults, now,
            simulateEvidence, templateDigest, agentDigest)
    }

    constructor (depth: nat, fan: nat, faults: map<Path, Fault>)
      ensures View() == Begin(depth, fan).(faults := faults)
    {
      this.depth, this.fan, this.faults := depth, fan, faults;
      cycle, enabled, hold, now, simulateEvidence := "offline-trial-1", true, false, 0, true;
      nodes, events, peakOccupied := map[], [], 0;
      templateDigest, agentDigest := "a", "b";
    }

    function Current(): (t: Trial)
      reads this
      ensures t == View()
    {
      Trial(depth, fan, cycle, enabled, hold, nodes, events, peakOccupied, faults, now,
            simulateEvidence, templateDigest, agentDigest)
    }

    method RecordEvent(action: Act, p: Path)
      modifies this`events, this`peakOccupied
      ensures View() == Emit(old(View()), action, p)
    {
      var occupied := |set q | q in nodes && nodes[q].phase != Terminated|;
      if occupied > peakOccupied { peakOccupied := occupied; }
      events := events + [Event(action, p, |p|, occupied)];
    }

    /** What the simulated producer sees of one node; other nodes do not matter. */
    method ObserveNode(ghost before: Trial, p: Path) returns (n: Node)
      requires View() == before.(nodes := nodes)
      requires p in nodes && p in before.nodes && nodes[p] == before.nodes[p]
      ensures n == Observe(before).nodes[p]
    {
      n := Observation(Current(), nodes[p]);
    }

    method SimulateObservations()
      modifies this`nodes
      ensures View() == Observe(old(View()))
    {
      ghost var before := View();
      ghost var target: map<Path, Node> := Observe(before).nodes;
      var todo := nodes.Keys;
      while todo != {}
        invariant todo <= nodes.Keys && Rewritten(before.nodes, target, nodes, todo)
      {
        var p :| p in todo;
        var n := ObserveNode(before, p);
        todo := todo - {p};
        nodes := nodes[p := n];
      }
      assert nodes == target;
    }

    method FinishNode(p: Path) returns (outcome: Outcome)
      requires p in nodes
      modifies this`nodes, this`events, this`peakOccupied
      ensures (View(), outcome) == CompleteNode(old(View()), p)
    {
      var n := nodes[p];
      if !enabled || hold || !EvidenceOk(Current(), n) || n.phase != Live || HasFault(Current(), n.path, {Handoff}) {
        return Blocked;
      }
      nodes := nodes[p := n.(receipt := n.evidence, completedAt := Some(now), completion := true,
                             phase := Complete, revision := n.revision + 1)];
      RecordEvent(ConditionalCompletion, p);
      return Advanced;
    }

    method SubmitNode(p: Path) returns (outcome: Outcome)
      requires p in nodes
      modifies this`nodes, this`events, this`peakOccupied
      ensures (View(), outcome) == LaunchNode(old(View()), p)
    {
      var n := nodes[p];
      nodes := nodes[p := n.(phase := Submitting)];
      RecordEvent(Submit, p);
      if HasFault(Current(), p, {LaunchResponse}) { return Blocked; }
      nodes := nodes[p := n.(phase := Live, instanceId := Sim(n.token), owner := Sim(n.token))];
      RecordEvent(LaunchConfirmed, p);
      return Advanced;
    }

    method AdvanceNode(p: Path) returns (outcome: Outcome)
      requires |p| <= depth
      modifies this`nodes, this`events, this`peakOccupied
      ensures (View(), outcome) == Advance(old(View()), p)
      decreases depth - |p|
    {
      if p !in nodes {
        if !enabled || hold { return Blocked; }
        nodes := nodes[p := NewNode(Current(), p)];
        RecordEvent(Reserve, p);
        return Advanced;
      }
      var n := nodes[p];
      if !Fenced(Current(), n) { return Blocked; }
      match n.phase {
        case Terminated =>
          return if ReceiptOk(Current(), p, n) then Settled else Blocked;
        case Submitting =>
          return Blocked;
        case Retiring =>
          if HasFault(Current(), p, {Termination, Missing}) { return Blocked; }
          nodes := nodes[p := n.(phase := Terminated)];
          RecordEvent(TerminationConfirmed, p);
          return Advanced;
        case _ =>
      }
      if !enabled || hold { return Blocked; }
      if n.phase == Reserved {
        outcome := SubmitNode(p);
        return;
      }
      if !EvidenceOk(Current(), n) { return Blocked; }
      if n.phase == Complete {
        if HasFault(Current(), p, {Identity, Missing, Retirement}) { return Blocked; }
        nodes := nodes[p := n.(phase := Retiring)];
        RecordEvent(TerminationAccepted, p);
        return Advanced;
      }
      if !n.ready {
        nodes := nodes[p := n.(ready := true)];
        RecordEvent(ReadinessValidated, p);
        return Advanced;
      }
      if |p| < depth {
        outcome := AdvanceBelow(p);
        if outcome != Settled { return; }
      }
      outcome := FinishNode(p);
    }

    method AdvanceBelow(p: Path) returns (outcome: Outcome)
      requires |p| < depth
      modifies this`nodes, this`events, this`peakOccupied
      ensures (View(), outcome) == AdvanceChildren(old(View()), p, 0)
      decreases depth - |p|, 0
    {
      ghost var before := View();
      for index := 0 to fan
        invariant View() == before
        invariant AdvanceChildren(before, p, 0) == AdvanceChildren(before, p, index)
      {
        outcome := AdvanceNode(p + [index]);
        if outcome != Settled { return; }
      }
      outcome := Settled;
    }

    method CheckAncestors(p: Path) returns (ok: bool)
      ensures ok == AncestorsOk(View(), p)
    {
      for length := 0 to |p|
        invariant forall k | 0 <= k < length :: p[..k] in nodes && AncestorOk(View(), nodes[p[..k]])
      {
        if p[..length] !in nodes || !AncestorOk(Current(), nodes[p[..length]]) { return false; }
      }
      return true;
    }

    method ReconcileLaunch(p: Path, eventCycle: string, token: Token, instanceFound: bool) returns (ok: bool)
      modifies this`nodes, this`events, this`peakOccupied
      ensures (View(), ok) == Reconcile(old(View()), p, eventCycle, token, instanceFound)
    {
      if p !in nodes || !Fenced(Current(), nodes[p]) { return false; }
      var n := nodes[p];
      if eventCycle != cycle || token != n.token || n.phase != Submitting || !instanceFound { return false; }
      nodes := nodes[p := n.(phase := Live, instanceId := Sim(n.token), owner := Sim(n.token))];
      RecordEvent(LaunchReconciled, p);
      return true;
    }

    /** The first missing child of a ready interior node, if any. */
    method MissingChild(p: Path) returns (k: nat)
      ensures k == FirstMissing(View(), p, 0)
    {
      k := 0;
      while k < fan && p + [k] in nodes
        invariant k <= fan && FirstMissing(View(), p, 0) == FirstMissing(View(), p, k)
      {
        k := k + 1;
      }
    }

    /** What the expansion loop does at one path. */
    method Visit(p: Path) returns (v: Fanout.Visit)
      ensures v == VisitPath(View(), p)
    {
      if p !in nodes { return Pass; }
      var n := nodes[p];
      if NeedsLaunch(n) {
        var ok := CheckAncestors(p);
        return if ok then Go(p) else Stop;
      }
      if n.phase != Live || |p| >= depth { return Pass; }
      var ok := CheckAncestors(p);
      if !ok || !EvidenceOk(Current(), n) { return Stop; }
      var k := MissingChild(p);
      v := if k < fan then Go(p + [k]) else Pass;
    }

    method TakeStep() returns (outcome: Outcome)
      modifies this
      ensures (View(), outcome) == Step(old(View()))
    {
      if !AllFenced(Current()) { return Blocked; }
      if simulateEvidence { SimulateObservations(); }
      ghost var seen := View();
      LevelOrderBounded(seen);
      outcome := ScanTree(LevelOrder(depth, fan));
    }

    method ScanTree(order: seq<Path>) returns (outcome: Outcome)
      requires forall q | q in order :: |q| <= depth
      modifies this`nodes, this`events, this`peakOccupied
      ensures (View(), outcome) == Scan(old(View()), order)
    {
      ghost var seen := View();
      for i := 0 to |order|
        invariant View() == seen
        invariant Scan(seen, order) == Scan(seen, order[i..])
      {
        var p: Path := order[i];
        assert order[i..][0] == p && order[i..][1..] == order[i + 1..];
        var v := Visit(p);
        match v {
          case Pass =>
          case Stop =>
            return Blocked;
          case Go(path) =>
            outcome := AdvanceNode(path);
            return;
        }
      }
      assert order[|order|..] == [];
      outcome := AdvanceNode(Root);
    }

    /** The bounded driver. On a fresh fault-free trial it reports exactly when the
        bound exceeds 6N, and then every node of the tree is completed, terminated
        and released; with N = 7 the program's bound of 100 is never reached. */
    method RunToEnd(bound: nat) returns (result: RunResult)
      modifies this
      ensures exists k: nat :: k <= bound && View() == FanoutRuns.Steps(old(View()), k)
      ensures old(View()) == Begin(depth, fan) ==>
        result == (if 6 * TreeSize(depth, fan) < bound then Reported else DidNotFinish)
      ensures old(View()) == Begin(depth, fan) && result == Reported ==>
        && |nodes| == TreeSize(depth, fan) == peakOccupied && Occupied(View()) == 0
        && forall p | p in nodes :: nodes[p].phase == Terminated && nodes[p].completion
    {
      ghost var start := View();
      for k := 0 to bound
        invariant View() == FanoutRuns.Steps(start, k)
        invariant start == Begin(depth, fan) ==> k <= 6 * TreeSize(depth, fan)
      {
        if start == Begin(depth, fan) { FanoutRuns.FaultFreeRun(depth, fan, k); }
        ghost var before := View();
        var outcome := TakeStep();
        assert View() == FanoutRuns.Steps(start, k + 1);
        if outcome == Settled {
          if start == Begin(depth, fan) {
            assert k == 6 * TreeSize(depth, fan);
            FanoutRuns.FaultFreeEnd(depth, fan);
            FanoutRuns.SettledStepKeeps(before);
          }
          return Reported;
        }
        if outcome == Blocked { return RunBlocked; }
      }
      return DidNotFinish;
    }
  }
}
