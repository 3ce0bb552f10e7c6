/** What one cycle of an agent does, for every store, agent and time, written out on the
    rows it found: which children it launches and accepts, when it retires, and when it
    gives up. */
module FamilyCycle {
  import opened Wrappers
  import opened Paths
  import opened FamilyProgress
  import opened FamilyProgressProof

  /** Two children in binary mode, one in single mode, none at the last generation. */
  function Width(s: Settings, p: Path): nat {
    if |p| >= s.depth then 0 else if s.binary then 2 else 1
  }

  /** It published its readiness at most 15 seconds ago. */
  predicate ReadyNow(g: Members, q: Path, now: int) {
    q in g && g[q].ready.Some? && 0 <= now - g[q].ready.value <= 15
  }

  /** The cycle gets as far as launching: a live owner with children to launch, its
      grandparent gone in single mode, and not too late for a first launch. */
  predicate Extends(s: Settings, g: Members, p: Path, now: int, a: Agent) {
    && p in g && g[p].status != Retiring && g[p].owned && |p| < s.depth
    && (s.binary || |p| <= 1 || (p[..|p| - 2] in g && g[p[..|p| - 2]].retired))
    && (a.recorded || a.waitStarted.None? || now - a.waitStarted.value < s.timeout)
  }

  predicate ReadyUpTo(g: Members, p: Path, now: int, k: nat) {
    forall j | 0 <= j < k :: ReadyNow(g, p + [j], now)
  }

  /** A child that has children of its own has proved their launches. */
  predicate ContinuesAlone(s: Settings, g: Members, q: Path) {
    q in g && (|q| < s.depth ==> g[q].propagated)
  }

  predicate ParentRetired(g: Members, p: Path) {
    p == Root || (p[..|p| - 1] in g && g[p[..|p| - 1]].retired)
  }

  predicate Retires(s: Settings, g: Members, p: Path, now: int, a: Agent) {
    && Extends(s, g, p, now, a) && ReadyUpTo(g, p, now, Width(s, p)) && ParentRetired(g, p)
    && forall k | 0 <= k < Width(s, p) :: ContinuesAlone(s, g, p + [k])
  }

  // ----- The acceptances -----

  /** Child k is an owner afterwards if it was one, or all children up to it are ready. */
  lemma {:induction false} AcceptedPrefix(g: Members, p: Path, now: int, n: nat, k: nat)
    requires k < n && p + [k] in g
    ensures var h := AcceptChildren(g, p, now, n).1;
      p + [k] in h && (h[p + [k]].owned <==> g[p + [k]].owned || ReadyUpTo(g, p, now, k + 1))
  {
    AcceptShape(g, p, now, n - 1);
    var (ok, h) := AcceptChildren(g, p, now, n - 1);
    var q := p + [n - 1];
    assert AllAccept(g, p, now, n - 1) <==> ReadyUpTo(g, p, now, n - 1) by { AcceptIsReady(g, p, now, n - 1); }
    if k < n - 1 {
      AcceptedPrefix(g, p, now, n - 1, k);
      assert (p + [k])[|p|] == k && q[|p|] == n - 1;
    } else {
      assert AcceptedAmong(g, h, p, now, n - 1, q);
      assert q[|q| - 1] == n - 1 && h[q] == g[q];
      OneMoreReady(g, p, now, n);
    }
  }

  lemma OneMoreReady(g: Members, p: Path, now: int, n: nat)
    requires n > 0
    ensures ReadyUpTo(g, p, now, n) <==> ReadyUpTo(g, p, now, n - 1) && ReadyNow(g, p + [n - 1], now)
  {
    if ReadyUpTo(g, p, now, n) {
      assert ReadyNow(g, p + [n - 1], now);
      forall j | 0 <= j < n - 1 ensures ReadyNow(g, p + [j], now) {}
    }
  }

  lemma AcceptIsReady(g: Members, p: Path, now: int, n: nat)
    ensures AllAccept(g, p, now, n) <==> ReadyUpTo(g, p, now, n)
  {
    forall i | 0 <= i < n ensures Accepts(g, p + [i], now) <==> ReadyNow(g, p + [i], now) {}
    if AllAccept(g, p, now, n) {
      forall i | 0 <= i < n ensures ReadyNow(g, p + [i], now) { assert Accepts(g, p + [i], now); }
    }
    if ReadyUpTo(g, p, now, n) {
      forall i | 0 <= i < n ensures Accepts(g, p + [i], now) { assert ReadyNow(g, p + [i], now); }
    }
  }

  // ----- The rows when the acceptances begin -----

  /** Readiness published when due, children launched, and the receipt written. */
  function Prepared(s: Settings, g: Members, p: Path, now: int, a: Agent): Members
    requires p in g
  {
    var (h, b) := Published(g, a, p, now);
    Receipted(LaunchChildren(h, p, Width(s, p)), p, a)
  }

  ghost predicate PreparedFrom(s: Settings, g: Members, h: Members, p: Path, now: int, a: Agent) {
    && (forall q :: q in h <==> q in g || (ChildOf(q, p) && q[|q| - 1] < Width(s, p)))
    && (forall q | q in h && q != p :: if q in g then h[q] == g[q] else h[q] == Launched)
    && p in g && p in h
    && h[p] == g[p].(ready := if now - a.lastReady >= 5 then Some(now) else g[p].ready,
                     propagated := g[p].propagated || !a.recorded)
  }

  lemma PreparedShape(s: Settings, g: Members, p: Path, now: int, a: Agent)
    requires p in g
    ensures PreparedFrom(s, g, Prepared(s, g, p, now, a), p, now, a)
  {
    var (h, b) := Published(g, a, p, now);
    LaunchShape(h, p, Width(s, p));
    var l := LaunchChildren(h, p, Width(s, p));
    forall q ensures q in l <==> q in g || (ChildOf(q, p) && q[|q| - 1] < Width(s, p)) {
      if q != Root && Parent(q) == p { assert q == p + [q[|q| - 1]]; }
    }
  }

  lemma ChildrenPrepared(s: Settings, g: Members, p: Path, now: int, a: Agent, k: nat)
    requires p in g && k <= Width(s, p)
    ensures ReadyUpTo(Prepared(s, g, p, now, a), p, now, k) <==> ReadyUpTo(g, p, now, k)
  {
    PreparedShape(s, g, p, now, a);
    var h := Prepared(s, g, p, now, a);
    forall j | 0 <= j < k ensures ReadyNow(h, p + [j], now) <==> ReadyNow(g, p + [j], now) {
      assert Parent(p + [j]) == p;
    }
    if ReadyUpTo(h, p, now, k) {
      forall j | 0 <= j < k ensures ReadyNow(g, p + [j], now) { assert ReadyNow(h, p + [j], now); }
    }
    if ReadyUpTo(g, p, now, k) {
      forall j | 0 <= j < k ensures ReadyNow(h, p + [j], now) { assert ReadyNow(g, p + [j], now); }
    }
  }

  /** A cycle that extends is the settling of the prepared rows; any other cycle
      touches this node's own row alone. */
  lemma CycleShape(s: Settings, g: Members, p: Path, now: int, a: Agent)
    requires p in g
    ensures var r := Cycled(s, g, p, now, a);
      if Extends(s, g, p, now, a) then
        r == Settled(s, Prepared(s, g, p, now, a), p, now, Agent(
               if now - a.lastReady >= 5 then now else a.lastReady,
               if a.waitStarted.None? then Some(now) else a.waitStarted, true))
      else
        && r.members.Keys == g.Keys && (forall q | q in g && q != p :: r.members[q] == g[q])
        && r.members[p].owned == g[p].owned && r.members[p].propagated == g[p].propagated
        && (r.members[p].status == Retiring <==> g[p].status == Retiring)
        && r.members[p].retired == (g[p].retired || g[p].status == Retiring)
  {
    var (h, b) := Published(g, a, p, now);
    assert LaunchReady(s, h, p) <==> LaunchReady(s, g, p);
    assert ChildCount(s, p) == Width(s, p);
  }

  // ----- What the settling leaves -----

  lemma SettledShape(s: Settings, h: Members, p: Path, now: int, b: Agent)
    requires p in h && b.waitStarted.Some? && Width(s, p) > 0
    ensures var r := Settled(s, h, p, now, b); var accepted := AcceptChildren(h, p, now, Width(s, p)).1;
      && r.members.Keys == h.Keys && accepted.Keys == h.Keys && accepted[p] == h[p]
      && (forall q | q in h && q != p :: r.members[q] == accepted[q])
      && r.members[p].owned == h[p].owned && r.members[p].propagated == h[p].propagated
      && (r.members[p] == h[p] || r.members[p] == h[p].(status := Retiring, retired := true))
  {
    AcceptShape(h, p, now, ChildCount(s, p));
    AcceptKeepsOthers(h, p, now, ChildCount(s, p));
  }

  /** An agent makes a child an owner exactly when that child and all before it were
      ready, published at most 15 seconds ago, and it got as far as accepting; nobody
      else's ownership changes. */
  lemma AcceptsExactly(s: Settings, g: Members, p: Path, now: int, a: Agent, q: Path)
    requires p in g
    ensures var r := Cycled(s, g, p, now, a);
      q in r.members && r.members[q].owned <==>
        || (q in g && g[q].owned)
        || (Extends(s, g, p, now, a) && q != Root && q[..|q| - 1] == p && q[|q| - 1] < Width(s, p)
            && ReadyUpTo(g, p, now, q[|q| - 1] + 1))
  {
    CycleShape(s, g, p, now, a);
    if Extends(s, g, p, now, a) { ExtendingAccepts(s, g, p, now, a, q); }
  }

  lemma ExtendingAccepts(s: Settings, g: Members, p: Path, now: int, a: Agent, q: Path)
    requires Extends(s, g, p, now, a)
    ensures var r := Cycled(s, g, p, now, a);
      q in r.members && r.members[q].owned <==>
        || (q in g && g[q].owned)
        || (ChildOf(q, p) && q[|q| - 1] < Width(s, p) && ReadyUpTo(g, p, now, q[|q| - 1] + 1))
  {
    CycleShape(s, g, p, now, a);
    PreparedRow(s, g, p, now, a, q);
    SettledOwners(s, Prepared(s, g, p, now, a), p, now, Started(Published(g, a, p, now).1, now).(recorded := true), q);
    if ChildOf(q, p) && q[|q| - 1] < Width(s, p) {
      ChildrenPrepared(s, g, p, now, a, q[|q| - 1] + 1);
      ReadyIsThere(g, p, now, q);
    }
  }

  lemma PreparedRow(s: Settings, g: Members, p: Path, now: int, a: Agent, q: Path)
    requires p in g
    ensures var h := Prepared(s, g, p, now, a);
      && p in h
      && (q in h <==> q in g || (ChildOf(q, p) && q[|q| - 1] < Width(s, p)))
      && (q in h && h[q].owned <==> q in g && g[q].owned)
  {
    PreparedShape(s, g, p, now, a);
  }

  lemma ReadyIsThere(g: Members, p: Path, now: int, q: Path)
    requires ChildOf(q, p)
    ensures ReadyUpTo(g, p, now, q[|q| - 1] + 1) ==> q in g
  {
    assert q == p + [q[|q| - 1]];
    OneMoreReady(g, p, now, q[|q| - 1] + 1);
  }

  lemma SettledOwners(s: Settings, h: Members, p: Path, now: int, b: Agent, q: Path)
    requires p in h && b.waitStarted.Some? && Width(s, p) > 0
    ensures var r := Settled(s, h, p, now, b);
      q in r.members && r.members[q].owned <==>
        && q in h
        && (h[q].owned || (ChildOf(q, p) && q[|q| - 1] < Width(s, p) && ReadyUpTo(h, p, now, q[|q| - 1] + 1)))
  {
    SettledShape(s, h, p, now, b);
    if q in h && ChildOf(q, p) && q[|q| - 1] < Width(s, p) {
      var k := q[|q| - 1];
      assert q == p + [k];
      AcceptedPrefix(h, p, now, Width(s, p), k);
    } else if q in h {
      AcceptShape(h, p, now, Width(s, p));
      assert AcceptedAmong(h, AcceptChildren(h, p, now, Width(s, p)).1, p, now, Width(s, p), q);
    }
  }

  /** Children are launched exactly by a cycle that extends, and nothing else is. */
  lemma LaunchesExactly(s: Settings, g: Members, p: Path, now: int, a: Agent, q: Path)
    requires p in g
    ensures var r := Cycled(s, g, p, now, a);
      q in r.members <==>
        q in g || (Extends(s, g, p, now, a) && q != Root && q[..|q| - 1] == p && q[|q| - 1] < Width(s, p))
    ensures p in Cycled(s, g, p, now, a).members
    ensures Cycled(s, g, p, now, a).members[p].propagated <==>
      g[p].propagated || (Extends(s, g, p, now, a) && !a.recorded)
  {
    CycleShape(s, g, p, now, a);
    PreparedShape(s, g, p, now, a);
    if Extends(s, g, p, now, a) {
      SettledShape(s, Prepared(s, g, p, now, a), p, now, Started(Published(g, a, p, now).1, now).(recorded := true));
    }
  }

  /** What the cycle leaves of any other row: a newly accepted child is an OWNER, a new
      row is a fresh candidate, and everything else is as it was. */
  lemma OthersExactly(s: Settings, g: Members, p: Path, now: int, a: Agent, q: Path)
    requires p in g && q != p && q in Cycled(s, g, p, now, a).members
    ensures var m := Cycled(s, g, p, now, a).members[q];
      if q !in g then m == Member(None, false, Candidate, false, false)
      else if m.owned && !g[q].owned then
        m == Member(g[q].ready, true, Owner, g[q].propagated, g[q].retired)
      else m == g[q]
  {
    CycleShape(s, g, p, now, a);
    if Extends(s, g, p, now, a) {
      PreparedShape(s, g, p, now, a);
      var h := Prepared(s, g, p, now, a);
      SettledShape(s, h, p, now, Started(Published(g, a, p, now).1, now).(recorded := true));
      AcceptedRow(h, p, now, Width(s, p), q);
    }
  }

  lemma {:induction false} AcceptedRow(g: Members, p: Path, now: int, k: nat, q: Path)
    requires q in g
    ensures var h := AcceptChildren(g, p, now, k).1;
      q in h && (h[q] == g[q] || (!g[q].owned && g[q].ready.Some? && h[q] == g[q].(owned := true, status := Owner)))
  {
    if k > 0 { AcceptedRow(g, p, now, k - 1, q); }
  }

  /** The node's own row: its readiness published every five seconds, its status LEAF at
      the last generation, and its termination asked for with RETIRING. */
  lemma OwnRowExactly(s: Settings, g: Members, p: Path, now: int, a: Agent)
    requires p in g && g[p].status != Retiring
    ensures var r := Cycled(s, g, p, now, a);
      && p in r.members
      && r.members[p].ready == (if now - a.lastReady >= 5 then Some(now) else g[p].ready)
      && r.agent.lastReady == (if now - a.lastReady >= 5 then now else a.lastReady)
      && r.members[p].owned == g[p].owned
      && (r.members[p].retired <==> g[p].retired || r.members[p].status == Retiring)
      && (r.members[p].status != Retiring ==>
            r.members[p].status == if g[p].owned && |p| >= s.depth then Leaf else g[p].status)
  {
    if Extends(s, g, p, now, a) {
      CycleShape(s, g, p, now, a);
      PreparedOwn(s, g, p, now, a);
      SettledShape(s, Prepared(s, g, p, now, a), p, now, Started(Published(g, a, p, now).1, now).(recorded := true));
    } else {
      EarlyOwnRow(s, g, p, now, a);
    }
  }

  lemma PreparedOwn(s: Settings, g: Members, p: Path, now: int, a: Agent)
    requires p in g
    ensures var h := Prepared(s, g, p, now, a);
      && p in h
      && h[p] == g[p].(ready := if now - a.lastReady >= 5 then Some(now) else g[p].ready,
                       propagated := g[p].propagated || !a.recorded)
  {
    PreparedShape(s, g, p, now, a);
  }

  lemma EarlyOwnRow(s: Settings, g: Members, p: Path, now: int, a: Agent)
    requires p in g && g[p].status != Retiring && !Extends(s, g, p, now, a)
    ensures var r := Cycled(s, g, p, now, a);
      && p in r.members
      && r.members[p] == g[p].(
           ready := if now - a.lastReady >= 5 then Some(now) else g[p].ready,
           status := if g[p].owned && |p| >= s.depth then Leaf else g[p].status)
      && r.agent.lastReady == (if now - a.lastReady >= 5 then now else a.lastReady)
  {
    var (h, b) := Published(g, a, p, now);
    assert LaunchReady(s, h, p) <==> LaunchReady(s, g, p);
  }

  /** The answers before any launch. */
  lemma AnswersExactly(s: Settings, g: Members, p: Path, now: int, a: Agent)
    requires p in g && g[p].status != Retiring
    ensures var result := Cycled(s, g, p, now, a).result;
      && (result == IsCandidate <==> !g[p].owned)
      && (result == IsLeaf <==> g[p].owned && |p| >= s.depth)
      && (result == WaitingForParent <==>
            && g[p].owned && |p| < s.depth && !s.binary && |p| >= 2
            && !(p[..|p| - 2] in g && g[p[..|p| - 2]].retired))
  {
    var (h, b) := Published(g, a, p, now);
    assert LaunchReady(s, h, p) <==> LaunchReady(s, g, p);
  }

  /** A node turns RETIRING exactly when its own parent is gone, every child is ready and
      carries on by itself, and the cycle got that far. */
  lemma RetiresExactly(s: Settings, g: Members, p: Path, now: int, a: Agent)
    requires p in g && g[p].status != Retiring
    ensures var r := Cycled(s, g, p, now, a);
      p in r.members && (r.members[p].status == Retiring <==> Retires(s, g, p, now, a))
  {
    CycleShape(s, g, p, now, a);
    PreparedShape(s, g, p, now, a);
    if Extends(s, g, p, now, a) {
      var h := Prepared(s, g, p, now, a);
      ChildrenPrepared(s, g, p, now, a, Width(s, p));
      AcceptIsReady(h, p, now, Width(s, p));
      SettledRetires(s, g, h, p, now, a, Started(Published(g, a, p, now).1, now).(recorded := true));
    }
  }

  lemma SettledRetires(s: Settings, g: Members, h: Members, p: Path, now: int, a: Agent, b: Agent)
    requires PreparedFrom(s, g, h, p, now, a) && g[p].status != Retiring && b.waitStarted.Some? && Width(s, p) > 0
    requires AllAccept(h, p, now, Width(s, p)) <==> ReadyUpTo(g, p, now, Width(s, p))
    ensures var r := Settled(s, h, p, now, b);
      p in r.members
      && (r.members[p].status == Retiring <==>
            ReadyUpTo(g, p, now, Width(s, p)) && ParentRetired(g, p)
            && forall k | 0 <= k < Width(s, p) :: ContinuesAlone(s, g, p + [k]))
  {
    var n := Width(s, p);
    assert n == ChildCount(s, p);
    AcceptShape(h, p, now, n);
    AcceptKeepsOthers(h, p, now, n);
    var (ok, accepted) := AcceptChildren(h, p, now, n);
    if ok {
      ParentStays(s, g, h, accepted, p, now, a);
      forall k | 0 <= k < n
        ensures ChildContinues(s, accepted, p + [k], now) <==> ContinuesAlone(s, g, p + [k])
      {
        assert Accepts(h, p + [k], now) && Parent(p + [k]) == p && ReadyNow(g, p + [k], now);
        assert accepted[p + [k]] == Accepted(h[p + [k]]);
      }
      ContinuesAll(s, g, accepted, p, now, n);
    }
  }

  lemma ContinuesAll(s: Settings, g: Members, h: Members, p: Path, now: int, n: nat)
    requires forall k | 0 <= k < n :: ChildContinues(s, h, p + [k], now) <==> ContinuesAlone(s, g, p + [k])
    ensures (forall k | 0 <= k < n :: ChildContinues(s, h, p + [k], now))
            <==> (forall k | 0 <= k < n :: ContinuesAlone(s, g, p + [k]))
  {
  }

  lemma ParentStays(s: Settings, g: Members, h: Members, accepted: Members, p: Path, now: int, a: Agent)
    requires PreparedFrom(s, g, h, p, now, a) && OthersKept(h, accepted, p) && accepted.Keys == h.Keys
    ensures ParentGone(accepted, p) <==> ParentRetired(g, p)
  {
    if p != Root {
      var q := Parent(p);
      assert q != p && !ChildOf(q, p);
    }
  }

  // ----- Refusal -----

  /** A child whose readiness is absent, in the future or older than 15 seconds is not
      made an owner, and its parent does not turn RETIRING. */
  lemma SilentChildIsRefused(s: Settings, g: Members, p: Path, now: int, a: Agent, k: nat)
    requires p in g && g[p].status != Retiring && k < Width(s, p)
    requires p + [k] in g ==>
      g[p + [k]].ready.None? || now < g[p + [k]].ready.value || now - g[p + [k]].ready.value > 15
    ensures var r := Cycled(s, g, p, now, a);
      && (p + [k] in r.members && r.members[p + [k]].owned ==> p + [k] in g && g[p + [k]].owned)
      && p in r.members && r.members[p].status != Retiring && r.members[p].retired == g[p].retired
  {
    var q := p + [k];
    AcceptsExactly(s, g, p, now, a, q);
    RetiresExactly(s, g, p, now, a);
    RetiredWithStatus(s, g, p, now, a);
    assert !ReadyNow(g, q, now);
    assert q[|q| - 1] == k;
  }

  lemma RetiredWithStatus(s: Settings, g: Members, p: Path, now: int, a: Agent)
    requires p in g && g[p].status != Retiring
    ensures var r := Cycled(s, g, p, now, a);
      p in r.members && (r.members[p].status != Retiring ==> r.members[p].retired == g[p].retired)
  {
    CycleShape(s, g, p, now, a);
    PreparedShape(s, g, p, now, a);
    if Extends(s, g, p, now, a) {
      SettledShape(s, Prepared(s, g, p, now, a), p, now, Started(Published(g, a, p, now).1, now).(recorded := true));
    }
  }

  /** Found RETIRING, a node only asks again for its own termination. */
  lemma RetiringIsFinished(s: Settings, g: Members, p: Path, now: int, a: Agent)
    requires p in g && g[p].status == Retiring
    ensures Cycled(s, g, p, now, a) == State(g[p := g[p].(retired := true)], a, IsRetiring)
  {
  }

  // ----- Giving up -----

  /** When the wait of a cycle at now began. */
  function WaitFrom(a: Agent, now: int): int {
    if a.waitStarted.Some? then a.waitStarted.value else now
  }

  /** A cycle gives up exactly on a first launch that comes a whole timeout after its
      wait began, on a child not ready for longer than the timeout, or, its parent gone,
      on a ready child that has not carried on within it. */
  lemma GivesUpExactly(s: Settings, g: Members, p: Path, now: int, a: Agent)
    requires p in g
    ensures Cycled(s, g, p, now, a).result == TimedOut <==>
      && Extends(s, g, p, now, a.(recorded := true))
      && (if !Extends(s, g, p, now, a) then true
          else if !ReadyUpTo(g, p, now, Width(s, p)) then now - WaitFrom(a, now) > s.timeout
          else
            && ParentRetired(g, p) && now - WaitFrom(a, now) >= s.timeout
            && exists k :: 0 <= k < Width(s, p) && !ContinuesAlone(s, g, p + [k]))
  {
    CycleShape(s, g, p, now, a);
    PreparedShape(s, g, p, now, a);
    if Extends(s, g, p, now, a) {
      var h := Prepared(s, g, p, now, a);
      ChildrenPrepared(s, g, p, now, a, Width(s, p));
      AcceptIsReady(h, p, now, Width(s, p));
      SettledGivesUp(s, g, h, p, now, a, Started(Published(g, a, p, now).1, now).(recorded := true));
    } else {
      EarlyAnswer(s, g, p, now, a);
    }
  }

  lemma EarlyAnswer(s: Settings, g: Members, p: Path, now: int, a: Agent)
    requires p in g && !Extends(s, g, p, now, a)
    ensures Cycled(s, g, p, now, a).result == TimedOut <==> Extends(s, g, p, now, a.(recorded := true))
  {
    var (h, b) := Published(g, a, p, now);
    assert LaunchReady(s, h, p) <==> LaunchReady(s, g, p);
  }

  lemma SettledGivesUp(s: Settings, g: Members, h: Members, p: Path, now: int, a: Agent, b: Agent)
    requires PreparedFrom(s, g, h, p, now, a) && g[p].status != Retiring && b.waitStarted.Some? && Width(s, p) > 0
    requires AllAccept(h, p, now, Width(s, p)) <==> ReadyUpTo(g, p, now, Width(s, p))
    ensures Settled(s, h, p, now, b).result == TimedOut <==>
      if !ReadyUpTo(g, p, now, Width(s, p)) then now - b.waitStarted.value > s.timeout
      else
        && ParentRetired(g, p) && now - b.waitStarted.value >= s.timeout
        && exists k :: 0 <= k < Width(s, p) && !ContinuesAlone(s, g, p + [k])
  {
    var n := Width(s, p);
    assert n == ChildCount(s, p);
    AcceptShape(h, p, now, n);
    AcceptKeepsOthers(h, p, now, n);
    var (ok, accepted) := AcceptChildren(h, p, now, n);
    if ok {
      ParentStays(s, g, h, accepted, p, now, a);
      forall k | 0 <= k < n
        ensures ChildContinues(s, accepted, p + [k], now) <==> ContinuesAlone(s, g, p + [k])
      {
        assert Accepts(h, p + [k], now) && Parent(p + [k]) == p && ReadyNow(g, p + [k], now);
        assert accepted[p + [k]] == Accepted(h[p + [k]]);
      }
      ContinuesAll(s, g, accepted, p, now, n);
    }
  }
}
