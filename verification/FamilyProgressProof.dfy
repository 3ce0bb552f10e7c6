/** Progress of a fault-free family, for every depth and both fan-outs. */
module FamilyProgressProof {
  import opened Wrappers
  import opened Paths
  import opened FamilyProgress

  // ----- The invariant of the launched nodes -----

  predicate ChildDone(s: Settings, g: Members, q: Path) {
    q in g && g[q].owned && (ChildCount(s, q) > 0 ==> g[q].propagated)
  }

  predicate MemberInv(s: Settings, g: Members, p: Path) {
    p in g ==>
      && InTree(p, s.depth, Fan(s))
      && (if p == Root then g[p].owned else Parent(p) in g && g[Parent(p)].owned && g[Parent(p)].propagated)
      && (g[p].propagated ==>
            && g[p].owned && g[p].ready.Some? && ChildCount(s, p) > 0 && LaunchReady(s, g, p)
            && forall k | 0 <= k < ChildCount(s, p) :: p + [k] in g)
      && (g[p].retired <==> g[p].status == Retiring)
      && (g[p].retired ==>
            && g[p].propagated && ParentGone(g, p)
            && forall k | 0 <= k < ChildCount(s, p) :: ChildDone(s, g, p + [k]))
      && (g[p].status == Leaf ==> ChildCount(s, p) == 0 && g[p].owned)
  }

  ghost predicate MembersInv(s: Settings, g: Members) {
    Root in g && forall p :: MemberInv(s, g, p)
  }

  predicate AgentInv(g: Members, p: Path, a: Agent, now: int) {
    if p !in g then a == NewAgent
    else
      && a.waitStarted.Some? == a.recorded == g[p].propagated
      && (if g[p].ready.Some? then g[p].ready.value == a.lastReady <= now else a.lastReady == 0)
  }

  ghost predicate Inv(s: Settings, f: Family) {
    && f.now >= 5 && MembersInv(s, f.members)
    && forall p :: AgentInv(f.members, p, AgentAt(f, p), f.now)
  }

  /** What a cycle never takes back. */
  predicate MemberRises(m: Member, m1: Member) {
    && (m.ready.Some? ==> m1.ready.Some?) && (m.owned ==> m1.owned) && (m.propagated ==> m1.propagated)
    && (m.retired ==> m1 == m) && (m.status == Leaf ==> m1.status == Leaf)
  }

  predicate Rises(g: Members, h: Members) {
    forall q | q in g :: q in h && MemberRises(g[q], h[q])
  }

  lemma RisesTransitive(g: Members, h: Members, j: Members)
    requires Rises(g, h) && Rises(h, j)
    ensures Rises(g, j)
  {
    forall q | q in g ensures q in j && MemberRises(g[q], j[q]) {
      assert MemberRises(g[q], h[q]) && MemberRises(h[q], j[q]);
    }
  }

  lemma ParentGoneStays(g: Members, h: Members, p: Path)
    requires ParentGone(g, p) && Rises(g, h)
    ensures ParentGone(h, p)
  {
  }

  lemma LaunchReadyStays(s: Settings, g: Members, h: Members, p: Path)
    requires LaunchReady(s, g, p) && Rises(g, h)
    ensures LaunchReady(s, h, p)
  {
  }

  /** A node whose own progress marks are the same keeps its invariant. */
  lemma KeptMember(s: Settings, g: Members, h: Members, p: Path)
    requires MemberInv(s, g, p) && Rises(g, h) && p in g
    requires h[p].propagated == g[p].propagated && h[p].retired == g[p].retired
    requires h[p].status == g[p].status || h[p].status == Owner
             || (h[p].status == Leaf && ChildCount(s, p) == 0 && h[p].owned)
    requires h[p].status == Owner ==> !h[p].retired
    ensures MemberInv(s, h, p)
  {
    if g[p].propagated { LaunchReadyStays(s, g, h, p); }
    if g[p].retired {
      ParentGoneStays(g, h, p);
      forall k | 0 <= k < ChildCount(s, p) ensures ChildDone(s, h, p + [k]) {
        assert ChildDone(s, g, p + [k]);
      }
    }
  }

  // ----- Launching -----

  predicate LaunchedUpTo(g: Members, h: Members, p: Path, k: nat) {
    && (forall q | q in g :: q in h && h[q] == g[q])
    && (forall q | q in h && q !in g :: h[q] == Launched && q != Root && Parent(q) == p && q[|q| - 1] < k)
    && (forall i | 0 <= i < k :: p + [i] in h)
  }

  lemma OneMoreLaunched(g: Members, h: Members, p: Path, k: nat)
    requires k > 0 && LaunchedUpTo(g, h, p, k - 1)
    ensures LaunchedUpTo(g, LaunchOne(h, p + [k - 1]), p, k)
  {
    var q := p + [k - 1];
    assert Parent(q) == p && q[|q| - 1] == k - 1;
  }

  lemma {:induction false} LaunchShape(g: Members, p: Path, k: nat)
    ensures LaunchedUpTo(g, LaunchChildren(g, p, k), p, k)
  {
    if k == 0 {
      assert LaunchedUpTo(g, g, p, 0);
    } else {
      var h := LaunchChildren(g, p, k - 1);
      LaunchShape(g, p, k - 1);
      OneMoreLaunched(g, h, p, k);
      assert LaunchChildren(g, p, k) == LaunchOne(h, p + [k - 1]);
    }
  }

  /** The nodes after the launches and the propagation receipt. */
  function Proven(s: Settings, g: Members, p: Path): Members
    requires p in g
  {
    var launched := LaunchChildren(g, p, ChildCount(s, p));
    if p in launched then launched[p := launched[p].(propagated := true)] else launched
  }

  lemma ProvenRises(s: Settings, g: Members, p: Path)
    requires p in g && !g[p].retired
    ensures Rises(g, Proven(s, g, p)) && p in Proven(s, g, p) && Proven(s, g, p)[p] == g[p].(propagated := true)
  {
    LaunchShape(g, p, ChildCount(s, p));
  }

  lemma LaunchedMember(s: Settings, h: Members, p: Path, q: Path)
    requires q in h && h[q] == Launched && q != Root && Parent(q) == p && q[|q| - 1] < ChildCount(s, p)
    requires p in h && h[p].owned && h[p].propagated && InTree(p, s.depth, Fan(s))
    ensures MemberInv(s, h, q)
  {
    assert q == Parent(q) + [q[|q| - 1]];
  }

  lemma ProvenKeepsInv(s: Settings, g: Members, p: Path)
    requires MembersInv(s, g) && p in g && g[p].owned && g[p].ready.Some? && !g[p].retired
    requires ChildCount(s, p) > 0 && LaunchReady(s, g, p)
    ensures MembersInv(s, Proven(s, g, p))
  {
    var h := Proven(s, g, p);
    LaunchShape(g, p, ChildCount(s, p));
    ProvenRises(s, g, p);
    LaunchReadyStays(s, g, h, p);
    assert MemberInv(s, g, p);
    forall q ensures MemberInv(s, h, q) {
      assert MemberInv(s, g, q);
      if q in g && q != p {
        KeptMember(s, g, h, q);
      } else if q in h && q != p {
        LaunchedMember(s, h, p, q);
      }
    }
  }

  // ----- Accepting -----

  predicate AllAccept(g: Members, p: Path, now: int, k: nat) {
    forall i | 0 <= i < k :: Accepts(g, p + [i], now)
  }

  predicate ChildOf(q: Path, p: Path) {
    q != Root && Parent(q) == p
  }

  /** A node is untouched, or one of the first k children, fresh and accepted. */
  predicate AcceptedAmong(g: Members, h: Members, p: Path, now: int, k: nat, q: Path) {
    q in g ==>
      && q in h
      && (h[q] == g[q]
          || (h[q] == Accepted(g[q]) && FreshAt(g[q], now) && ChildOf(q, p) && q[|q| - 1] < k))
  }

  ghost predicate AllAmong(g: Members, h: Members, p: Path, now: int, k: nat) {
    forall q :: AcceptedAmong(g, h, p, now, k, q)
  }

  lemma {:induction false} AcceptShape(g: Members, p: Path, now: int, k: nat)
    ensures var (ok, h) := AcceptChildren(g, p, now, k);
      && h.Keys == g.Keys && (ok <==> AllAccept(g, p, now, k))
      && AllAmong(g, h, p, now, k)
      && (ok ==> forall i | 0 <= i < k :: h[p + [i]] == Accepted(g[p + [i]]))
  {
    if k > 0 {
      var (ok, h) := AcceptChildren(g, p, now, k - 1);
      AcceptShape(g, p, now, k - 1);
      var q := p + [k - 1];
      OneMoreAccepts(g, h, p, now, k, ok);
      if ok && Accepts(h, q, now) {
        OneMoreAccepted(g, h, p, now, k);
      } else {
        forall r ensures AcceptedAmong(g, h, p, now, k, r) {
          assert AcceptedAmong(g, h, p, now, k - 1, r);
        }
      }
    }
  }

  /** The next child is as it was: the earlier children are others. */
  lemma OneMoreAccepts(g: Members, h: Members, p: Path, now: int, k: nat, ok: bool)
    requires k > 0 && h.Keys == g.Keys && AllAmong(g, h, p, now, k - 1)
    requires ok <==> AllAccept(g, p, now, k - 1)
    ensures p + [k - 1] in g ==> h[p + [k - 1]] == g[p + [k - 1]]
    ensures ok && Accepts(h, p + [k - 1], now) <==> AllAccept(g, p, now, k)
  {
    var q := p + [k - 1];
    assert q[|q| - 1] == k - 1 && AcceptedAmong(g, h, p, now, k - 1, q);
    assert q in g ==> h[q] == g[q];
    assert AllAccept(g, p, now, k) ==> AllAccept(g, p, now, k - 1) && Accepts(g, q, now);
    assert AllAccept(g, p, now, k - 1) && Accepts(g, q, now) ==> AllAccept(g, p, now, k);
  }

  lemma OneMoreAccepted(g: Members, h: Members, p: Path, now: int, k: nat)
    requires k > 0 && h.Keys == g.Keys && AllAmong(g, h, p, now, k - 1)
    requires forall i | 0 <= i < k - 1 :: p + [i] in g && h[p + [i]] == Accepted(g[p + [i]])
    requires p + [k - 1] in g && h[p + [k - 1]] == g[p + [k - 1]] && FreshAt(g[p + [k - 1]], now)
    ensures var q := p + [k - 1]; var h1 := h[q := Accepted(h[q])];
      && AllAmong(g, h1, p, now, k)
      && forall i | 0 <= i < k :: h1[p + [i]] == Accepted(g[p + [i]])
  {
    var q := p + [k - 1];
    var h1 := h[q := Accepted(h[q])];
    assert Parent(q) == p && q[|q| - 1] == k - 1;
    forall r ensures AcceptedAmong(g, h1, p, now, k, r) {
      assert AcceptedAmong(g, h, p, now, k - 1, r);
    }
    forall i | 0 <= i < k ensures h1[p + [i]] == Accepted(g[p + [i]]) {
      assert i < k - 1 ==> (p + [i])[|p|] != q[|p|];
    }
  }

  lemma AcceptKeepsInv(s: Settings, g: Members, p: Path, now: int, k: nat)
    requires MembersInv(s, g)
    ensures var h := AcceptChildren(g, p, now, k).1; MembersInv(s, h) && Rises(g, h)
  {
    var h := AcceptChildren(g, p, now, k).1;
    AcceptShape(g, p, now, k);
    assert Rises(g, h) by {
      forall q | q in g ensures MemberRises(g[q], h[q]) {
        assert MemberInv(s, g, q) && AcceptedAmong(g, h, p, now, k, q);
      }
    }
    forall q ensures MemberInv(s, h, q) {
      assert MemberInv(s, g, q) && AcceptedAmong(g, h, p, now, k, q);
      if q in g { KeptMember(s, g, h, q); }
    }
  }

  // ----- Retiring -----

  lemma RetireKeepsInv(s: Settings, g: Members, p: Path, now: int)
    requires MembersInv(s, g) && p in g && g[p].propagated && !g[p].retired && ParentGone(g, p)
    requires forall k | 0 <= k < ChildCount(s, p) :: ChildContinues(s, g, p + [k], now)
    ensures var h := g[p := g[p].(status := Retiring, retired := true)]; MembersInv(s, h) && Rises(g, h)
  {
    var h := g[p := g[p].(status := Retiring, retired := true)];
    assert MemberInv(s, g, p);
    forall q ensures MemberInv(s, h, q) {
      assert MemberInv(s, g, q);
      if q in g && q != p { KeptMember(s, g, h, q); }
    }
    ParentGoneStays(g, h, p);
    LaunchReadyStays(s, g, h, p);
    forall k | 0 <= k < ChildCount(s, p) ensures ChildDone(s, h, p + [k]) {
      assert ChildContinues(s, g, p + [k], now);
    }
  }

  lemma PublishKeepsInv(s: Settings, g: Members, p: Path, now: int)
    requires MembersInv(s, g) && p in g && !g[p].retired
    ensures var h := g[p := g[p].(ready := Some(now))]; MembersInv(s, h) && Rises(g, h)
  {
    var h := g[p := g[p].(ready := Some(now))];
    forall q ensures MemberInv(s, h, q) {
      assert MemberInv(s, g, q);
      if q in g { KeptMember(s, g, h, q); }
    }
  }

  lemma LeafKeepsInv(s: Settings, g: Members, p: Path)
    requires MembersInv(s, g) && p in g && !g[p].retired && g[p].owned && ChildCount(s, p) == 0
    ensures var h := g[p := g[p].(status := Leaf)]; MembersInv(s, h) && Rises(g, h)
  {
    var h := g[p := g[p].(status := Leaf)];
    assert MemberInv(s, g, p);
    forall q ensures MemberInv(s, h, q) {
      assert MemberInv(s, g, q);
      if q in g { KeptMember(s, g, h, q); }
    }
  }

  // ----- A whole cycle -----

  /** The other nodes keep their readiness, receipts and instances, and unless they are
      its children their owners; new ones are its children, just launched. */
  predicate OthersKept(g: Members, h: Members, p: Path) {
    forall q | q in h && q != p ::
      if q in g then
        && h[q].ready == g[q].ready && h[q].propagated == g[q].propagated && h[q].retired == g[q].retired
        && (h[q].owned == g[q].owned || (ChildOf(q, p) && g[q].ready.Some?))
      else
        h[q].ready.None? && !h[q].propagated && !h[q].retired && !h[q].owned && ChildOf(q, p)
  }

  /** What a cycle ensures: the nodes' invariant, nothing taken back, the others kept. */
  ghost predicate Good(s: Settings, g: Members, p: Path, now: int, r: State) {
    && MembersInv(s, r.members) && Rises(g, r.members) && OthersKept(g, r.members, p) && p in r.members
    && AgentInv(r.members, p, r.agent, now)
  }

  lemma ProvenKeepsOthers(s: Settings, g: Members, p: Path)
    requires p in g
    ensures OthersKept(g, Proven(s, g, p), p)
  {
    LaunchShape(g, p, ChildCount(s, p));
  }

  lemma NothingToLaunch(s: Settings, g: Members, p: Path)
    requires MemberInv(s, g, p) && p in g && g[p].propagated
    ensures LaunchChildren(g, p, ChildCount(s, p)) == g && Proven(s, g, p) == g
  {
    LaunchNothing(g, p, ChildCount(s, p));
  }

  lemma {:induction false} LaunchNothing(g: Members, p: Path, k: nat)
    requires forall i | 0 <= i < k :: p + [i] in g
    ensures LaunchChildren(g, p, k) == g
  {
    if k > 0 { LaunchNothing(g, p, k - 1); }
  }

  lemma AcceptKeepsOthers(g: Members, p: Path, now: int, k: nat)
    ensures var h := AcceptChildren(g, p, now, k).1;
      OthersKept(g, h, p) && (p in g ==> p in h && h[p] == g[p])
  {
    AcceptShape(g, p, now, k);
    var h := AcceptChildren(g, p, now, k).1;
    forall q
      ensures q in g ==>
        (h[q] == g[q] || (q != p && h[q] == Accepted(g[q]) && FreshAt(g[q], now) && ChildOf(q, p)))
    {
      assert AcceptedAmong(g, h, p, now, k, q);
    }
  }

  lemma FinishedIsGood(s: Settings, g: Members, p: Path, now: int, a: Agent)
    requires MembersInv(s, g) && p in g && g[p].propagated && !g[p].retired && a.waitStarted.Some?
    requires AgentInv(g, p, a, now)
    ensures Good(s, g, p, now, Finished(s, g, p, now, a))
  {
    if ParentGone(g, p) && forall k | 0 <= k < ChildCount(s, p) :: ChildContinues(s, g, p + [k], now) {
      RetireKeepsInv(s, g, p, now);
    }
  }

  lemma GoodTransitive(s: Settings, g: Members, h: Members, p: Path, now: int, r: State)
    requires Rises(g, h) && OthersKept(g, h, p) && Good(s, h, p, now, r)
    ensures Good(s, g, p, now, r)
  {
    RisesTransitive(g, h, r.members);
  }

  /** Extended without its launch timeout, and with the launches done or found done. */
  function Extension(s: Settings, g: Members, p: Path, now: int, b: Agent): State
    requires p in g
  {
    Settled(s, Proven(s, g, p), p, now, Started(b, now).(recorded := true))
  }

  /** A wait begins in the cycle that records the propagation, so the launch timeout
      does not strike. */
  lemma ExtendedIsExtension(s: Settings, g: Members, p: Path, now: int, b: Agent, before: int)
    requires MemberInv(s, g, p) && p in g && AgentInv(g, p, b, before)
    ensures Extended(s, g, p, now, Started(b, now)) == Extension(s, g, p, now, b)
  {
    LaunchShape(g, p, ChildCount(s, p));
    if b.recorded { NothingToLaunch(s, g, p); }
  }

  lemma ExtensionIsGood(s: Settings, g: Members, p: Path, now: int, b: Agent)
    requires MembersInv(s, g) && p in g && g[p].owned && g[p].ready.Some? && !g[p].retired
    requires ChildCount(s, p) > 0 && LaunchReady(s, g, p)
    requires AgentInv(g, p, b, now)
    ensures Good(s, g, p, now, Extension(s, g, p, now, b)) && Extension(s, g, p, now, b).members[p].propagated
  {
    var proven := Proven(s, g, p);
    ProvenRises(s, g, p);
    ProvenKeepsInv(s, g, p);
    ProvenKeepsOthers(s, g, p);
    var c := Started(b, now).(recorded := true);
    var (ok, accepted) := AcceptChildren(proven, p, now, ChildCount(s, p));
    AcceptKeepsInv(s, proven, p, now, ChildCount(s, p));
    AcceptKeepsOthers(proven, p, now, ChildCount(s, p));
    RisesTransitive(g, proven, accepted);
    if ok {
      FinishedIsGood(s, accepted, p, now, c);
      GoodTransitive(s, g, accepted, p, now, Finished(s, accepted, p, now, c));
    }
  }

  lemma PublishedIsGood(s: Settings, g: Members, p: Path, now: int, a: Agent, before: int)
    requires MembersInv(s, g) && p in g && !g[p].retired && AgentInv(g, p, a, before) && before <= now && now >= 5
    ensures var (h, b) := Published(g, a, p, now);
      && MembersInv(s, h) && Rises(g, h) && OthersKept(g, h, p) && p in h && AgentInv(h, p, b, now)
      && h[p].ready.Some? && h[p] == g[p].(ready := h[p].ready) && h.Keys == g.Keys
      && b.waitStarted == a.waitStarted && b.recorded == a.recorded
  {
    if now - a.lastReady >= 5 { PublishKeepsInv(s, g, p, now); }
  }

  lemma CycledIsGood(s: Settings, g: Members, p: Path, now: int, a: Agent, before: int)
    requires MembersInv(s, g) && p in g && !g[p].retired && AgentInv(g, p, a, before) && before <= now && now >= 5
    ensures Good(s, g, p, now, Cycled(s, g, p, now, a)) && Cycled(s, g, p, now, a).members[p].ready.Some?
  {
    assert MemberInv(s, g, p);
    var (h, b) := Published(g, a, p, now);
    PublishedIsGood(s, g, p, now, a, before);
    if g[p].owned {
      if ChildCount(s, p) == 0 {
        LeafKeepsInv(s, h, p);
        RisesTransitive(g, h, h[p := h[p].(status := Leaf)]);
      } else if LaunchReady(s, h, p) {
        assert MemberInv(s, h, p);
        ExtendedIsExtension(s, h, p, now, b, now);
        ExtensionIsGood(s, h, p, now, b);
        GoodTransitive(s, g, h, p, now, Extension(s, h, p, now, b));
      }
    }
  }

  lemma StepKeepsInv(s: Settings, f: Family, t: Turn)
    requires Inv(s, f)
    ensures Inv(s, Step(s, f, t)) && Rises(f.members, Step(s, f, t).members)
  {
    if Runs(f, t) {
      var a := AgentAt(f, t.p);
      assert AgentInv(f.members, t.p, a, f.now);
      CycledIsGood(s, f.members, t.p, t.now, a, f.now);
      var f1 := Step(s, f, t);
      forall q ensures AgentInv(f1.members, q, AgentAt(f1, q), f1.now) {
        assert AgentInv(f.members, q, AgentAt(f, q), f.now);
        assert q != t.p ==> AgentAt(f1, q) == AgentAt(f, q);
      }
    }
  }

  lemma {:induction false} RunKeepsInv(s: Settings, start: int, turns: seq<Turn>)
    requires start >= 5
    ensures Inv(s, Run(s, start, turns))
  {
    if turns != [] {
      RunKeepsInv(s, start, turns[..|turns| - 1]);
      StepKeepsInv(s, Run(s, start, turns[..|turns| - 1]), turns[|turns| - 1]);
    }
  }
}
