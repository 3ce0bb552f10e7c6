/** The agent process, step by step: its cycle against the shared rows, with the
    control monitor consulted at every point where it can still stop. */
module FamilyDaemon {
  import opened Wrappers
  import opened Paths
  import opened FamilyProgress

  /** The durable rows every agent sees: the nodes, and the stops by path. */
  class Store {
    var members: Members
    var stops: set<Path>

    constructor (members: Members)
      ensures this.members == members && stops == {}
    {
      this.members, stops := members, {};
    }
  }

  function ChildPaths(s: Settings, p: Path): seq<Path> {
    Children(p, ChildCount(s, p))
  }

  /** No tick from lo up to hi saw a stop. */
  ghost predicate Quiet(ticks: nat -> bool, lo: nat, hi: nat) {
    forall i | lo <= i < hi :: !ticks(i)
  }

  /** Whoever became an owner is a child of p that published its readiness at most 15
      seconds ago, and already had when the cycle began. */
  predicate OwnersWereReady(g: Members, h: Members, p: Path, now: int) {
    forall q | q in h && h[q].owned ::
      && q in g
      && (g[q].owned || (q != Root && Parent(q) == p && g[q].ready.Some? && 0 <= now - g[q].ready.value <= 15))
  }

  class FamilyDaemon {
    const settings: Settings
    const path: Path
    const store: Store
    var lastReady: int
    var waitStarted: Option<int>
    var propagationRecorded: bool
    var cancelledPaths: set<Path>

    constructor (settings: Settings, path: Path, store: Store)
      ensures this.settings == settings && this.path == path && this.store == store
      ensures View() == NewAgent && Valid()
    {
      this.settings, this.path, this.store := settings, path, store;
      lastReady, waitStarted, propagationRecorded, cancelledPaths := 0, None, false, {};
    }

    function View(): Agent
      reads this
    {
      Agent(lastReady, waitStarted, propagationRecorded)
    }

    /** A path once cancelled has its durable stop. */
    predicate Valid()
      reads this, store
    {
      cancelledPaths <= store.stops
    }

    predicate StopsPublished()
      reads store
    {
      path in store.stops && forall q | q in ChildPaths(settings, path) :: q in store.stops
    }

    method StopChildren()
      requires Valid()
      modifies store`stops, this`cancelledPaths
      ensures Valid() && StopsPublished() && old(store.stops) <= store.stops
    {
      var paths := [path] + ChildPaths(settings, path);
      for i := 0 to |paths|
        invariant Valid() && old(store.stops) <= store.stops
        invariant forall j | 0 <= j < i :: paths[j] in store.stops
      {
        if paths[i] !in cancelledPaths {
          store.stops := store.stops + {paths[i]};
          cancelledPaths := cancelledPaths + {paths[i]};
        }
      }
      assert paths[0] == path;
      forall q | q in ChildPaths(settings, path) ensures q in store.stops {
        var j :| 0 <= j < |ChildPaths(settings, path)| && ChildPaths(settings, path)[j] == q;
        assert paths[j + 1] == q;
      }
    }

    method LaunchAll(ticks: nat -> bool, tick: nat) returns (stopped: bool, tick1: nat)
      modifies store`members
      ensures stopped == !Quiet(ticks, tick, tick + ChildCount(settings, path))
      ensures !stopped ==>
        && tick1 == tick + ChildCount(settings, path)
        && store.members == LaunchChildren(old(store.members), path, ChildCount(settings, path))
      ensures KeptByLaunch(old(store.members), store.members, path)
    {
      tick1 := tick;
      assert store.members == LaunchChildren(old(store.members), path, 0);
      for k := 0 to ChildCount(settings, path)
        invariant tick1 == tick + k && Quiet(ticks, tick, tick1)
        invariant store.members == LaunchChildren(old(store.members), path, k)
      {
        LaunchKeeps(old(store.members), path, k);
        if ticks(tick1) { return true, tick1; }
        tick1 := tick1 + 1;
        var child := path + [k];
        if child !in store.members {
          store.members := store.members[child := Launched];
        }
      }
      LaunchKeeps(old(store.members), path, ChildCount(settings, path));
      stopped := false;
    }

    method AcceptAll(now: int, ticks: nat -> bool, tick: nat) returns (stopped: bool, ok: bool, tick1: nat)
      modifies store`members
      ensures stopped == !Quiet(ticks, tick, tick + Tries(old(store.members), path, now, ChildCount(settings, path)))
      ensures !stopped ==>
        && tick1 == tick + Tries(old(store.members), path, now, ChildCount(settings, path))
        && (ok, store.members) == AcceptChildren(old(store.members), path, now, ChildCount(settings, path))
      ensures KeptByAccepting(old(store.members), store.members, path, now)
    {
      tick1 := tick;
      assert store.members == AcceptChildren(old(store.members), path, now, 0).1;
      var n := ChildCount(settings, path);
      for k := 0 to n
        invariant tick1 == tick + k && Quiet(ticks, tick, tick1)
        invariant (true, store.members) == AcceptChildren(old(store.members), path, now, k)
        invariant Tries(old(store.members), path, now, k) == k
      {
        TriesRise(old(store.members), path, now, k + 1, n);
        AcceptKeeps(old(store.members), path, now, k);
        if ticks(tick1) {
          assert tick <= tick1 < tick + Tries(old(store.members), path, now, n);
          return true, false, tick1;
        }
        tick1 := tick1 + 1;
        var child := path + [k];
        if !Accepts(store.members, child, now) {
          AcceptStops(old(store.members), path, now, k + 1, n);
          return false, false, tick1;
        }
        store.members := store.members[child := Accepted(store.members[child])];
      }
      AcceptKeeps(old(store.members), path, now, n);
      stopped, ok := false, true;
    }

    /** One cycle. It consults the monitor at the points counted by Consults. If none of
        them sees a stop it is Cycled; if one does it ends stopped, whatever the others
        would have seen: durable stops for this node and its children are out, and no
        instance and no status of an earlier node has changed, this node's included. */
    method Cycle(now: int, ticks: nat -> bool) returns (result: Result)
      requires Valid() && path in store.members
      modifies this, store
      ensures Valid()
      ensures Quiet(ticks, 0, Consults(settings, old(store.members), path, now, old(View()))) ==>
        State(store.members, View(), result) == Cycled(settings, old(store.members), path, now, old(View()))
      ensures result == IsStopped <==>
        !Quiet(ticks, 0, Consults(settings, old(store.members), path, now, old(View())))
      ensures result == IsStopped ==> StopsPublished() && NoneRetired(old(store.members), store.members, path)
      ensures OwnersWereReady(old(store.members), store.members, path, now)
      ensures ticks(0) ==> store.members == old(store.members) && View() == old(View())
    {
      if ticks(0) {
        StopChildren();
        result := IsStopped;
      } else {
        var node := store.members[path];
        if node.status == Retiring {
          store.members := store.members[path := node.(retired := true)];
          result := IsRetiring;
        } else {
          result := Refresh(now, ticks);
        }
      }
    }

    /** Readiness when due, and then the role of the node. */
    method Refresh(now: int, ticks: nat -> bool) returns (result: Result)
      requires Valid() && path in store.members && store.members[path].status != Retiring && !ticks(0)
      modifies this, store
      ensures Valid()
      ensures result != IsStopped ==>
        State(store.members, View(), result) == Cycled(settings, old(store.members), path, now, old(View()))
      ensures result == IsStopped <==>
        !Quiet(ticks, 0, Consults(settings, old(store.members), path, now, old(View())))
      ensures result == IsStopped ==> StopsPublished() && NoneRetired(old(store.members), store.members, path)
      ensures OwnersWereReady(old(store.members), store.members, path, now)
    {
      if now - lastReady < 5 {
        result := Proceed(now, ticks, 1);
      } else if ticks(1) {
        StopChildren();
        result := IsStopped;
      } else {
        result := Publish(now, ticks);
      }
    }

    method Publish(now: int, ticks: nat -> bool) returns (result: Result)
      requires Valid() && path in store.members && store.members[path].status != Retiring
      modifies this, store
      ensures Valid()
      ensures var h := old(store.members)[path := old(store.members[path]).(ready := Some(now))];
        var b := old(View()).(lastReady := now);
        && (result == IsStopped <==> !Quiet(ticks, 2, 2 + ProceedConsults(settings, h, path, now, b)))
        && (result != IsStopped ==> State(store.members, View(), result) == Proceeded(settings, h, path, now, b))
      ensures result == IsStopped ==> StopsPublished() && NoneRetired(old(store.members), store.members, path)
      ensures OwnersWereReady(old(store.members), store.members, path, now)
    {
      store.members := store.members[path := store.members[path].(ready := Some(now))];
      lastReady := now;
      result := Proceed(now, ticks, 2);
      PublishedOwners(old(store.members), Some(now), store.members, path, now);
    }

    /** Past readiness: the role of the node. */
    method Proceed(now: int, ticks: nat -> bool, tick0: nat) returns (result: Result)
      requires Valid() && path in store.members && store.members[path].status != Retiring
      modifies this`waitStarted, this`propagationRecorded, this`cancelledPaths, store
      ensures Valid()
      ensures result != IsStopped ==>
        State(store.members, View(), result) == Proceeded(settings, old(store.members), path, now, old(View()))
      ensures result == IsStopped <==>
        !Quiet(ticks, tick0, tick0 + ProceedConsults(settings, old(store.members), path, now, old(View())))
      ensures result == IsStopped ==> StopsPublished() && NoneRetired(old(store.members), store.members, path)
      ensures OwnersWereReady(old(store.members), store.members, path, now)
    {
      if !store.members[path].owned {
        result := IsCandidate;
      } else if ChildCount(settings, path) == 0 {
        store.members := store.members[path := store.members[path].(status := Leaf)];
        result := IsLeaf;
      } else if !LaunchReady(settings, store.members, path) {
        result := WaitingForParent;
      } else {
        if waitStarted.None? { waitStarted := Some(now); }
        result := Extend(now, ticks, tick0);
      }
    }

    method Extend(now: int, ticks: nat -> bool, tick0: nat) returns (result: Result)
      requires Valid() && path in store.members && waitStarted.Some?
      modifies this`propagationRecorded, this`cancelledPaths, store
      ensures Valid()
      ensures result != IsStopped ==>
        State(store.members, View(), result) == Extended(settings, old(store.members), path, now, old(View()))
      ensures result == IsStopped <==>
        !Quiet(ticks, tick0, tick0 + ExtendConsults(settings, old(store.members), path, now, old(View())))
      ensures result == IsStopped ==> StopsPublished() && NoneRetired(old(store.members), store.members, path)
      ensures OwnersWereReady(old(store.members), store.members, path, now)
    {
      if !propagationRecorded && now - waitStarted.value >= settings.timeout { return TimedOut; }
      ExtendQuiet(settings, store.members, path, now, View(), ticks, tick0);
      var stopped, tick := LaunchAll(ticks, tick0);
      if stopped {
        StopChildren();
        return IsStopped;
      }
      if !propagationRecorded {
        if ticks(tick) {
          StopChildren();
          return IsStopped;
        }
        tick := tick + 1;
        store.members := store.members[path := store.members[path].(propagated := true)];
        propagationRecorded := true;
      }
      ghost var launched := store.members;
      assert SameOwners(old(store.members), launched);
      result := Settle(now, ticks, tick);
      OwnersBefore(old(store.members), launched, store.members, path, now);
      if result == IsStopped { NoneRetiredTransitive(old(store.members), launched, store.members, path); }
    }

    /** From the acceptances on. */
    method Settle(now: int, ticks: nat -> bool, tick0: nat) returns (result: Result)
      requires Valid() && path in store.members && waitStarted.Some?
      modifies this`cancelledPaths, store
      ensures Valid()
      ensures result != IsStopped ==>
        State(store.members, View(), result) == Settled(settings, old(store.members), path, now, old(View()))
      ensures result == IsStopped <==>
        !Quiet(ticks, tick0, tick0 + SettleConsults(settings, old(store.members), path, now))
      ensures result == IsStopped ==> StopsPublished() && NoneRetired(old(store.members), store.members, path)
      ensures OwnersWereReady(old(store.members), store.members, path, now)
    {
      SettleQuiet(settings, store.members, path, now, ticks, tick0);
      var stopped, ok, tick := AcceptAll(now, ticks, tick0);
      if stopped {
        StopChildren();
        result := IsStopped;
      } else if !ok {
        result := if now - waitStarted.value > settings.timeout then TimedOut else WaitingForChild;
      } else {
        ghost var accepted := store.members;
        result := Conclude(now, ticks(tick));
        OwnersStay(old(store.members), accepted, store.members, path, now);
      }
    }

    /** With every child accepted: the parent's termination, a last tick, and retirement. */
    method Conclude(now: int, stop: bool) returns (result: Result)
      requires Valid() && path in store.members && waitStarted.Some?
      modifies this`cancelledPaths, store
      ensures Valid() && SameOwners(old(store.members), store.members)
      ensures result == IsStopped <==> stop && ParentGone(old(store.members), path)
      ensures result == IsStopped ==> StopsPublished() && store.members == old(store.members)
      ensures result != IsStopped ==>
        State(store.members, View(), result) == Finished(settings, old(store.members), path, now, View())
    {
      if !ParentGone(store.members, path) {
        result := WaitingForParentRetirement;
      } else if stop {
        StopChildren();
        result := IsStopped;
      } else {
        result := Authorize(now);
      }
    }

    /** authorize_retirement and retire_self, the parent being gone. */
    method Authorize(now: int) returns (result: Result)
      requires path in store.members && waitStarted.Some? && ParentGone(store.members, path)
      modifies store`members
      ensures result != IsStopped && SameOwners(old(store.members), store.members)
      ensures State(store.members, View(), result) == Finished(settings, old(store.members), path, now, View())
    {
      if !(forall k | 0 <= k < ChildCount(settings, path) :: ChildContinues(settings, store.members, path + [k], now)) {
        return if now - waitStarted.value >= settings.timeout then TimedOut else WaitingForContinuation;
      }
      store.members := store.members[path := store.members[path].(status := Retiring, retired := true)];
      result := IsRetiring;
    }
  }

  // ----- The points at which a cycle consults the monitor -----

  /** The children accept_child is called for: all, or up to the first not eligible. */
  function Tries(g: Members, p: Path, now: int, k: nat): (n: nat)
    ensures n <= k
  {
    if k == 0 then 0
    else Tries(g, p, now, k - 1) + if AcceptChildren(g, p, now, k - 1).0 then 1 else 0
  }

  /** From the acceptances on: before each, and before authorizing retirement. */
  function SettleConsults(s: Settings, g: Members, p: Path, now: int): nat {
    var (ok, accepted) := AcceptChildren(g, p, now, ChildCount(s, p));
    Tries(g, p, now, ChildCount(s, p)) + if ok && ParentGone(accepted, p) then 1 else 0
  }

  lemma SettleQuiet(s: Settings, g: Members, p: Path, now: int, ticks: nat -> bool, tick: nat)
    ensures var (ok, accepted) := AcceptChildren(g, p, now, ChildCount(s, p));
      var last := tick + Tries(g, p, now, ChildCount(s, p));
      Quiet(ticks, tick, tick + SettleConsults(s, g, p, now)) <==>
        Quiet(ticks, tick, last) && (ok && ParentGone(accepted, p) ==> !ticks(last))
  {
  }

  /** From the launches on: before each launch, before the receipt, and then. */
  function ExtendConsults(s: Settings, g: Members, p: Path, now: int, a: Agent): nat
    requires p in g && a.waitStarted.Some?
  {
    if !a.recorded && now - a.waitStarted.value >= s.timeout then 0
    else
      ChildCount(s, p) + (if a.recorded then 0 else 1)
        + SettleConsults(s, Receipted(LaunchChildren(g, p, ChildCount(s, p)), p, a), p, now)
  }

  lemma ExtendQuiet(s: Settings, g: Members, p: Path, now: int, a: Agent, ticks: nat -> bool, tick: nat)
    requires p in g && a.waitStarted.Some? && (a.recorded || now - a.waitStarted.value < s.timeout)
    ensures var h := Receipted(LaunchChildren(g, p, ChildCount(s, p)), p, a);
      var launched := tick + ChildCount(s, p);
      var last := if a.recorded then launched else launched + 1;
      Quiet(ticks, tick, tick + ExtendConsults(s, g, p, now, a)) <==>
        && Quiet(ticks, tick, launched) && (a.recorded || !ticks(launched))
        && Quiet(ticks, last, last + SettleConsults(s, h, p, now))
  {
  }

  /** In a whole cycle: first of all, before publishing readiness, and while extending. */
  function Consults(s: Settings, g: Members, p: Path, now: int, a: Agent): nat
    requires p in g
  {
    if g[p].status == Retiring then 1
    else
      var (h, b) := Published(g, a, p, now);
      1 + (if now - a.lastReady >= 5 then 1 else 0)
        + ProceedConsults(s, h, p, now, b)
  }

  function ProceedConsults(s: Settings, g: Members, p: Path, now: int, a: Agent): nat
    requires p in g
  {
    if g[p].owned && ChildCount(s, p) > 0 && LaunchReady(s, g, p)
    then ExtendConsults(s, g, p, now, Started(a, now)) else 0
  }

  /** Nobody retired, and the node at p keeps its owner and status. */
  predicate NoneRetired(g: Members, h: Members, p: Path) {
    && (forall q | q in g :: q in h && h[q].retired == g[q].retired)
    && (p in g ==> h[p].owned == g[p].owned && h[p].status == g[p].status)
  }

  lemma NoneRetiredTransitive(g: Members, h: Members, j: Members, p: Path)
    requires NoneRetired(g, h, p) && NoneRetired(h, j, p)
    ensures NoneRetired(g, j, p)
  {
  }

  /** Launching makes nobody an owner and nobody ready. */
  predicate SameOwners(g: Members, h: Members) {
    forall q | q in h :: if q in g then h[q].owned == g[q].owned && h[q].ready == g[q].ready
                         else !h[q].owned && h[q].ready.None?
  }

  lemma OwnersStay(g: Members, h: Members, j: Members, p: Path, now: int)
    requires OwnersWereReady(g, h, p, now) && SameOwners(h, j)
    ensures OwnersWereReady(g, j, p, now)
  {
  }

  lemma OwnersBefore(g: Members, h: Members, j: Members, p: Path, now: int)
    requires SameOwners(g, h) && OwnersWereReady(h, j, p, now)
    ensures OwnersWereReady(g, j, p, now)
  {
  }

  /** Publishing its own readiness does not make p its own child. */
  lemma PublishedOwners(g: Members, r: Option<int>, j: Members, p: Path, now: int)
    requires p in g && OwnersWereReady(g[p := g[p].(ready := r)], j, p, now)
    ensures OwnersWereReady(g, j, p, now)
  {
  }

  lemma {:induction false} TriesRise(g: Members, p: Path, now: int, k: nat, n: nat)
    requires k <= n
    ensures Tries(g, p, now, k) <= Tries(g, p, now, n)
    ensures !AcceptChildren(g, p, now, k).0 ==> Tries(g, p, now, k) == Tries(g, p, now, n)
  {
    if k < n {
      TriesRise(g, p, now, k, n - 1);
      if !AcceptChildren(g, p, now, k).0 { AcceptStops(g, p, now, k, n - 1); }
    }
  }

  /** Past the first child that is not eligible nothing more is accepted. */
  lemma {:induction false} AcceptStops(g: Members, p: Path, now: int, k: nat, n: nat)
    requires k <= n && !AcceptChildren(g, p, now, k).0
    ensures AcceptChildren(g, p, now, n) == AcceptChildren(g, p, now, k)
  {
    if k < n { AcceptStops(g, p, now, k, n - 1); }
  }

  predicate KeptByLaunch(g: Members, h: Members, p: Path) {
    NoneRetired(g, h, p) && SameOwners(g, h) && (p in g ==> p in h && h[p] == g[p])
  }

  lemma {:induction false} LaunchKeeps(g: Members, p: Path, k: nat)
    ensures KeptByLaunch(g, LaunchChildren(g, p, k), p)
  {
    if k > 0 { LaunchKeeps(g, p, k - 1); }
  }

  predicate KeptByAccepting(g: Members, h: Members, p: Path, now: int) {
    NoneRetired(g, h, p) && (p in g ==> p in h && h[p] == g[p]) && OwnersWereReady(g, h, p, now)
  }

  lemma {:induction false} AcceptKeeps(g: Members, p: Path, now: int, k: nat)
    ensures KeptByAccepting(g, AcceptChildren(g, p, now, k).1, p, now)
  {
    if k > 0 {
      AcceptKeeps(g, p, now, k - 1);
      AcceptLater(g, p, now, k - 1, k - 1);
      AcceptOne(g, AcceptChildren(g, p, now, k - 1).1, p, now, k - 1);
    }
  }

  /** The children after the first k are as they were. */
  lemma {:induction false} AcceptLater(g: Members, p: Path, now: int, k: nat, j: nat)
    requires k <= j
    ensures var h := AcceptChildren(g, p, now, k).1;
      p + [j] in h <==> p + [j] in g
    ensures p + [j] in g ==> AcceptChildren(g, p, now, k).1[p + [j]] == g[p + [j]]
  {
    if k > 0 {
      AcceptLater(g, p, now, k - 1, j);
      assert (p + [j])[|p|] == j && (p + [k - 1])[|p|] == k - 1;
    }
  }

  lemma AcceptOne(g: Members, h: Members, p: Path, now: int, k: nat)
    requires KeptByAccepting(g, h, p, now)
    requires p + [k] in h ==> p + [k] in g && h[p + [k]] == g[p + [k]]
    ensures Accepts(h, p + [k], now) ==> KeptByAccepting(g, h[p + [k] := Accepted(h[p + [k]])], p, now)
  {
    assert Parent(p + [k]) == p && p + [k] != p;
  }
}
