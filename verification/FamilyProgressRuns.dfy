/** Fault-free families do not deadlock: under every timely schedule they end with every
    interior node retired and every leaf kept. */
module FamilyProgressRuns {
  import opened Wrappers
  import opened Paths
  import opened FamilyProgress
  import opened FamilyProgressProof

  /** Published readiness has not aged out. */
  ghost predicate Timely(f: Family, now: int) {
    && now >= f.now
    && (forall p | Live(f.members, p) && f.members[p].ready.Some? :: now - f.members[p].ready.value <= 15)
  }

  predicate Done(s: Settings, g: Members, p: Path) {
    p in g && g[p].owned && (if ChildCount(s, p) > 0 then g[p].retired else g[p].status == Leaf)
  }

  /** Every interior node has retired, every leaf is kept as an owner marked LEAF. */
  ghost predicate Final(s: Settings, f: Family) {
    forall p | InTree(p, s.depth, Fan(s)) :: Done(s, f.members, p)
  }

  function Score(m: Member): nat {
    1 + (if m.ready.Some? then 1 else 0) + (if m.owned then 1 else 0)
      + (if m.propagated || m.status == Leaf then 1 else 0) + (if m.retired then 1 else 0)
  }

  function ScoreAt(g: Members, p: Path): nat {
    if p in g then Score(g[p]) else 0
  }

  ghost predicate Advances(g: Members, h: Members) {
    Rises(g, h) && exists q :: q in h && ScoreAt(g, q) < ScoreAt(h, q)
  }

  lemma ScoreRises(g: Members, h: Members)
    requires Rises(g, h)
    ensures forall q :: ScoreAt(g, q) <= ScoreAt(h, q)
  {
    forall q ensures ScoreAt(g, q) <= ScoreAt(h, q) {
      if q in g { assert MemberRises(g[q], h[q]); }
    }
  }

  // ----- What an agent's next cycle can achieve, whenever it comes -----

  predicate AllReady(g: Members) {
    forall p | p in g && !g[p].retired :: g[p].ready.Some?
  }

  predicate CanPublish(g: Members, p: Path) {
    Live(g, p) && g[p].ready.None?
  }

  predicate CanLaunch(s: Settings, g: Members, p: Path) {
    Live(g, p) && g[p].owned && ChildCount(s, p) > 0 && LaunchReady(s, g, p) && !g[p].propagated
  }

  predicate CanAccept(s: Settings, g: Members, p: Path, k: nat) {
    Live(g, p) && g[p].propagated && k < ChildCount(s, p) && p + [k] in g && !g[p + [k]].owned
  }

  predicate CanRetire(s: Settings, g: Members, p: Path) {
    && Live(g, p) && g[p].propagated && ParentGone(g, p)
    && forall k | 0 <= k < ChildCount(s, p) :: ChildDone(s, g, p + [k])
  }

  predicate CanMark(s: Settings, g: Members, p: Path) {
    Live(g, p) && g[p].owned && ChildCount(s, p) == 0 && g[p].status != Leaf
  }

  ghost predicate CanAdvance(s: Settings, g: Members, p: Path) {
    || CanPublish(g, p) || CanLaunch(s, g, p) || CanMark(s, g, p)
    || (AllReady(g) && (CanRetire(s, g, p) || exists k :: CanAccept(s, g, p, k)))
  }

  /** A live node's turn is its cycle. */
  lemma TurnIsCycle(s: Settings, f: Family, p: Path, now: int)
    requires Inv(s, f) && Runs(f, Turn(p, now))
    ensures var r := Cycled(s, f.members, p, now, AgentAt(f, p));
      && Step(s, f, Turn(p, now)).members == r.members && Rises(f.members, r.members)
      && p in r.members && r.members[p].ready.Some? && f.members[p].status != Retiring
  {
    assert MemberInv(s, f.members, p) && AgentInv(f.members, p, AgentAt(f, p), f.now);
    CycledIsGood(s, f.members, p, now, AgentAt(f, p), f.now);
  }

  /** The turn of a live owner with children, ready to launch: it publishes when due,
      and then its extension is all of its cycle. */
  lemma OwnersTurn(s: Settings, f: Family, p: Path, now: int) returns (h: Members, b: Agent)
    requires Inv(s, f) && Runs(f, Turn(p, now)) && f.members[p].owned
    requires ChildCount(s, p) > 0 && LaunchReady(s, f.members, p)
    ensures (h, b) == Published(f.members, AgentAt(f, p), p, now)
    ensures MembersInv(s, h) && Rises(f.members, h) && OthersKept(f.members, h, p) && h.Keys == f.members.Keys
    ensures p in h && h[p] == f.members[p].(ready := h[p].ready) && h[p].ready.Some? && LaunchReady(s, h, p)
    ensures AgentInv(h, p, b, now) && b.waitStarted == AgentAt(f, p).waitStarted
    ensures Cycled(s, f.members, p, now, AgentAt(f, p)) == Extension(s, h, p, now, b)
    ensures Good(s, h, p, now, Extension(s, h, p, now, b)) && Extension(s, h, p, now, b).members[p].propagated
  {
    var a := AgentAt(f, p);
    assert MemberInv(s, f.members, p) && AgentInv(f.members, p, a, f.now);
    PublishedIsGood(s, f.members, p, now, a, f.now);
    var (h0, b0) := Published(f.members, a, p, now);
    h, b := h0, b0;
    LaunchReadyStays(s, f.members, h, p);
    assert MemberInv(s, h, p);
    ExtendedIsExtension(s, h, p, now, b, now);
    ExtensionIsGood(s, h, p, now, b);
  }

  /** With nothing left to launch and every child fresh, all are accepted. */
  lemma ExtensionAccepts(s: Settings, h: Members, p: Path, now: int, b: Agent)
    requires MemberInv(s, h, p) && p in h && h[p].propagated && AllAccept(h, p, now, ChildCount(s, p))
    ensures var accepted := AcceptChildren(h, p, now, ChildCount(s, p)).1;
      && Extension(s, h, p, now, b) == Finished(s, accepted, p, now, Started(b, now).(recorded := true))
      && accepted.Keys == h.Keys && accepted[p] == h[p] && OthersKept(h, accepted, p)
      && forall k | 0 <= k < ChildCount(s, p) :: p + [k] in h && accepted[p + [k]] == Accepted(h[p + [k]])
  {
    NothingToLaunch(s, h, p);
    AcceptShape(h, p, now, ChildCount(s, p));
    AcceptKeepsOthers(h, p, now, ChildCount(s, p));
  }

  /** The turn of a live owner that has launched, with every child fresh. */
  lemma AcceptingTurn(s: Settings, f: Family, p: Path, now: int) returns (accepted: Members, c: Agent)
    requires Inv(s, f) && Runs(f, Turn(p, now)) && f.members[p].propagated
    requires AllAccept(f.members, p, now, ChildCount(s, p))
    ensures c.waitStarted.Some?
    ensures Cycled(s, f.members, p, now, AgentAt(f, p)) == Finished(s, accepted, p, now, c)
    ensures p in accepted && accepted[p].propagated && OthersKept(f.members, accepted, p)
    ensures forall k | 0 <= k < ChildCount(s, p) ::
              p + [k] in f.members && p + [k] in accepted && AcceptedFresh(f.members[p + [k]], accepted[p + [k]], now)
  {
    assert MemberInv(s, f.members, p);
    var h, b := OwnersTurn(s, f, p, now);
    PublishedAccept(f.members, h, p, now, ChildCount(s, p));
    assert MemberInv(s, h, p);
    ExtensionAccepts(s, h, p, now, b);
    accepted := AcceptChildren(h, p, now, ChildCount(s, p)).1;
    c := Started(b, now).(recorded := true);
    OthersKeptTransitive(f.members, h, accepted, p);
    forall k | 0 <= k < ChildCount(s, p)
      ensures p + [k] in f.members && p + [k] in accepted
      ensures AcceptedFresh(f.members[p + [k]], accepted[p + [k]], now)
    {
      assert Accepts(f.members, p + [k], now) && Accepts(h, p + [k], now);
    }
  }

  predicate AcceptedFresh(m: Member, m1: Member, now: int) {
    m1.owned && FreshAt(m1, now) && m1.propagated == m.propagated
  }

  lemma PublishedAccept(g: Members, h: Members, p: Path, now: int, n: nat)
    requires OthersKept(g, h, p) && g.Keys == h.Keys && AllAccept(g, p, now, n)
    ensures AllAccept(h, p, now, n)
  {
    forall k | 0 <= k < n ensures Accepts(h, p + [k], now) { assert Accepts(g, p + [k], now); }
  }

  lemma OthersKeptTransitive(g: Members, h: Members, j: Members, p: Path)
    requires OthersKept(g, h, p) && OthersKept(h, j, p) && h.Keys == j.Keys
    ensures OthersKept(g, j, p)
  {
  }

  /** While nothing is unpublished, a live parent's children are all fresh. */
  lemma ChildrenFresh(s: Settings, f: Family, p: Path, now: int)
    requires Inv(s, f) && Timely(f, now) && Live(f.members, p) && f.members[p].propagated
    requires forall k | 0 <= k < ChildCount(s, p) :: p + [k] in f.members ==> f.members[p + [k]].ready.Some?
    ensures AllAccept(f.members, p, now, ChildCount(s, p))
  {
    assert MemberInv(s, f.members, p);
    forall k | 0 <= k < ChildCount(s, p) ensures Accepts(f.members, p + [k], now) {
      var q := p + [k];
      assert MemberInv(s, f.members, q) && Parent(q) == p;
      assert AgentInv(f.members, q, AgentAt(f, q), f.now);
      assert Live(f.members, q);
    }
  }

  lemma LiveChildren(s: Settings, g: Members, p: Path, k: nat)
    requires MembersInv(s, g) && Live(g, p) && p + [k] in g
    ensures Live(g, p + [k])
  {
    assert MemberInv(s, g, p + [k]) && Parent(p + [k]) == p;
  }

  /** A live owner whose own parent is gone and whose children all continue retires. */
  lemma RetiringTurn(s: Settings, f: Family, p: Path, now: int)
    requires Inv(s, f) && Runs(f, Turn(p, now)) && f.members[p].propagated && ParentGone(f.members, p)
    requires AllAccept(f.members, p, now, ChildCount(s, p))
    requires forall k | 0 <= k < ChildCount(s, p) :: ChildDone(s, f.members, p + [k])
    ensures var r := Cycled(s, f.members, p, now, AgentAt(f, p)); p in r.members && r.members[p].retired
  {
    var accepted, c := AcceptingTurn(s, f, p, now);
    assert MemberInv(s, f.members, p);
    assert ParentGone(accepted, p) by {
      if p != Root {
        assert Parent(p) in f.members && Parent(p) != p;
        TurnIsCycle(s, f, p, now);
        assert Parent(p) in Finished(s, accepted, p, now, c).members;
      }
    }
    forall k | 0 <= k < ChildCount(s, p) ensures ChildContinues(s, accepted, p + [k], now) {
      assert ChildDone(s, f.members, p + [k]);
    }
  }

  lemma MarkingTurn(s: Settings, f: Family, p: Path, now: int)
    requires Inv(s, f) && Runs(f, Turn(p, now)) && f.members[p].owned && ChildCount(s, p) == 0
    ensures var r := Cycled(s, f.members, p, now, AgentAt(f, p)); p in r.members && r.members[p].status == Leaf
  {
    TurnIsCycle(s, f, p, now);
  }

  lemma HigherScore(g: Members, h: Members, q: Path)
    requires Rises(g, h) && q in h && (q in g ==> MemberRises(g[q], h[q]) && Score(g[q]) < Score(h[q]))
    ensures Advances(g, h)
  {
    assert ScoreAt(g, q) < ScoreAt(h, q);
  }

  lemma AcceptingAdvances(s: Settings, f: Family, p: Path, now: int, k: nat)
    requires Inv(s, f) && Timely(f, now) && Runs(f, Turn(p, now))
    requires AllReady(f.members) && CanAccept(s, f.members, p, k)
    ensures Advances(f.members, Step(s, f, Turn(p, now)).members)
  {
    forall i | 0 <= i < ChildCount(s, p) && p + [i] in f.members ensures f.members[p + [i]].ready.Some? {
      LiveChildren(s, f.members, p, i);
    }
    ChildrenFresh(s, f, p, now);
    var accepted, c := AcceptingTurn(s, f, p, now);
    TurnIsCycle(s, f, p, now);
    var q := p + [k];
    var r := Step(s, f, Turn(p, now)).members;
    assert q in accepted && r[q] == accepted[q];
    assert MemberInv(s, f.members, q) && MemberRises(f.members[q], r[q]);
    HigherScore(f.members, r, q);
  }

  lemma RetiringAdvances(s: Settings, f: Family, p: Path, now: int)
    requires Inv(s, f) && Timely(f, now) && Runs(f, Turn(p, now)) && AllReady(f.members) && CanRetire(s, f.members, p)
    ensures Advances(f.members, Step(s, f, Turn(p, now)).members)
  {
    forall i | 0 <= i < ChildCount(s, p) && p + [i] in f.members ensures f.members[p + [i]].ready.Some? {
      LiveChildren(s, f.members, p, i);
    }
    ChildrenFresh(s, f, p, now);
    RetiringTurn(s, f, p, now);
    TurnIsCycle(s, f, p, now);
    var r := Step(s, f, Turn(p, now)).members;
    assert MemberRises(f.members[p], r[p]);
    HigherScore(f.members, r, p);
  }

  /** What an agent can achieve it does achieve, whenever its turn comes in time. */
  lemma AbleAdvances(s: Settings, f: Family, p: Path, now: int)
    requires Inv(s, f) && Timely(f, now) && CanAdvance(s, f.members, p) && p !in f.halted
    ensures Advances(f.members, Step(s, f, Turn(p, now)).members)
  {
    var r := Step(s, f, Turn(p, now)).members;
    TurnIsCycle(s, f, p, now);
    assert MemberRises(f.members[p], r[p]) && MemberInv(s, f.members, p);
    if CanPublish(f.members, p) {
      HigherScore(f.members, r, p);
    } else if CanLaunch(s, f.members, p) {
      var h, b := OwnersTurn(s, f, p, now);
      HigherScore(f.members, r, p);
    } else if CanMark(s, f.members, p) {
      MarkingTurn(s, f, p, now);
      HigherScore(f.members, r, p);
    } else if CanRetire(s, f.members, p) {
      RetiringAdvances(s, f, p, now);
    } else {
      var k :| CanAccept(s, f.members, p, k);
      AcceptingAdvances(s, f, p, now, k);
    }
  }

  // ----- Somebody can always advance -----

  /** The topmost live node on the way down to p. */
  lemma {:induction false} Topmost(s: Settings, g: Members, p: Path) returns (r: Path)
    requires MembersInv(s, g) && p in g && !g[p].retired
    ensures r <= p && r in g && !g[r].retired && ParentGone(g, r)
    decreases |p|
  {
    assert MemberInv(s, g, p);
    if ParentGone(g, p) { r := p; } else { r := Topmost(s, g, Parent(p)); }
  }

  lemma {:induction false} AncestorPropagated(s: Settings, g: Members, p: Path, k: nat)
    requires MembersInv(s, g) && p in g && k < |p|
    ensures p[..k] in g && g[p[..k]].propagated
    decreases |p|
  {
    assert MemberInv(s, g, p);
    if k < |p| - 1 {
      AncestorPropagated(s, g, Parent(p), k);
      assert Parent(p)[..k] == p[..k];
    }
  }

  /** In single mode a waiting node's topmost live ancestor can retire: everything
      between them has launched. */
  lemma WaitingCan(s: Settings, g: Members, p: Path) returns (r: Path)
    requires MembersInv(s, g) && forall q | q in g :: g[q].owned
    requires p in g && !LaunchReady(s, g, p)
    ensures CanRetire(s, g, r)
  {
    AncestorPropagated(s, g, p, |p| - 2);
    r := Topmost(s, g, p[..|p| - 2]);
    AncestorPropagated(s, g, p, |r|);
    assert p[..|r|] == r;
    forall k | 0 <= k < ChildCount(s, r) ensures ChildDone(s, g, r + [k]) {
      assert MemberInv(s, g, p) && k == 0 && p[|r|] == 0;
      AncestorPropagated(s, g, p, |r| + 1);
      assert p[..|r| + 1] == r + [k];
    }
  }

  lemma {:induction false} AllLaunched(s: Settings, g: Members, p: Path)
    requires MembersInv(s, g) && InTree(p, s.depth, Fan(s))
    requires forall q | q in g && ChildCount(s, q) > 0 :: g[q].propagated
    ensures p in g
    decreases |p|
  {
    if p != Root {
      AllLaunched(s, g, Parent(p));
      assert MemberInv(s, g, Parent(p)) && p == Parent(p) + [p[|p| - 1]];
    }
  }

  /** With everything launched and owned, a leaf can be marked or the topmost live node
      above an unfinished one can retire. */
  lemma LastCan(s: Settings, g: Members, p: Path) returns (r: Path)
    requires MembersInv(s, g)
    requires forall q | q in g :: g[q].owned && (ChildCount(s, q) > 0 ==> g[q].propagated)
    requires InTree(p, s.depth, Fan(s)) && !Done(s, g, p)
    ensures CanMark(s, g, r) || CanRetire(s, g, r)
  {
    AllLaunched(s, g, p);
    if ChildCount(s, p) == 0 {
      assert MemberInv(s, g, p);
      r := p;
    } else {
      r := Topmost(s, g, p);
      assert MemberInv(s, g, r);
      forall k | 0 <= k < ChildCount(s, r) ensures ChildDone(s, g, r + [k]) {
        assert r + [k] in g;
      }
    }
  }

  /** An unowned node's parent is live and can accept it. */
  lemma ParentCan(s: Settings, g: Members, q: Path)
    requires MembersInv(s, g) && q in g && !g[q].owned
    ensures q != Root && CanAccept(s, g, Parent(q), q[|q| - 1])
  {
    assert MemberInv(s, g, q);
    var p := Parent(q);
    assert q == p + [q[|q| - 1]];
    assert MemberInv(s, g, p);
    assert g[p].retired ==> ChildDone(s, g, q);
  }

  lemma LaunchersCan(s: Settings, g: Members, p: Path) returns (r: Path)
    requires MembersInv(s, g) && AllReady(g) && forall q | q in g :: g[q].owned
    requires p in g && ChildCount(s, p) > 0 && !g[p].propagated
    ensures CanAdvance(s, g, r)
  {
    assert MemberInv(s, g, p);
    if LaunchReady(s, g, p) { r := p; } else { r := WaitingCan(s, g, p); }
  }

  lemma PublishedCan(s: Settings, f: Family) returns (r: Path)
    requires MembersInv(s, f.members) && AllReady(f.members) && !Final(s, f)
    ensures CanAdvance(s, f.members, r)
  {
    var g := f.members;
    if q :| q in g && !g[q].owned {
      ParentCan(s, g, q);
      r := Parent(q);
    } else if p :| p in g && ChildCount(s, p) > 0 && !g[p].propagated {
      r := LaunchersCan(s, g, p);
    } else {
      var p :| InTree(p, s.depth, Fan(s)) && !Done(s, g, p);
      r := LastCan(s, g, p);
    }
  }

  lemma SomeoneCan(s: Settings, f: Family) returns (r: Path)
    requires MembersInv(s, f.members) && !Final(s, f)
    ensures CanAdvance(s, f.members, r)
  {
    if p :| p in f.members && !f.members[p].retired && f.members[p].ready.None? {
      r := p;
    } else {
      r := PublishedCan(s, f);
    }
  }

  /** Progress: in every reachable state that is not final and where no agent has given
      up, some agent's next cycle raises the measure, and no cycle ever lowers it. The
      agent does not depend on when its cycle comes. */
  lemma SomeAgentAdvances(s: Settings, start: int, turns: seq<Turn>) returns (r: Path)
    requires start >= 5 && Run(s, start, turns).halted == {} && !Final(s, Run(s, start, turns))
    ensures forall now | Timely(Run(s, start, turns), now) ::
              Advances(Run(s, start, turns).members, Step(s, Run(s, start, turns), Turn(r, now)).members)
  {
    RunKeepsInv(s, start, turns);
    var f := Run(s, start, turns);
    r := SomeoneCan(s, f);
    forall now | Timely(f, now) ensures Advances(f.members, Step(s, f, Turn(r, now)).members) {
      AbleAdvances(s, f, r, now);
    }
  }

  // ----- The measure -----

  function Total(s: Settings, g: Members): nat {
    Sum(LevelOrder(s.depth, Fan(s)), p => ScoreAt(g, p))
  }

  lemma TotalRises(s: Settings, g: Members, h: Members)
    requires Rises(g, h) && MembersInv(s, h)
    ensures Total(s, g) <= Total(s, h) <= 5 * TreeSize(s.depth, Fan(s))
    ensures Advances(g, h) ==> Total(s, g) < Total(s, h)
  {
    var ps := LevelOrder(s.depth, Fan(s));
    LevelOrderIsExact(s.depth, Fan(s));
    ScoreRises(g, h);
    SumRises(ps, p => ScoreAt(g, p), p => ScoreAt(h, p));
    SumBound(ps, p => ScoreAt(h, p), 5);
    if Advances(g, h) {
      var q :| q in h && ScoreAt(g, q) < ScoreAt(h, q);
      assert MemberInv(s, h, q);
      assert q in ps;
    }
  }

  /** The turns of a run that advanced. */
  function Advanced(s: Settings, start: int, turns: seq<Turn>): nat {
    if turns == [] then 0
    else
      var before := turns[..|turns| - 1];
      Advanced(s, start, before)
        + if Total(s, Run(s, start, before).members) < Total(s, Run(s, start, turns).members) then 1 else 0
  }

  /** At most five turns per node ever advance. */
  lemma {:induction false} AdvancesAreBounded(s: Settings, start: int, turns: seq<Turn>)
    requires start >= 5
    ensures Advanced(s, start, turns) <= Total(s, Run(s, start, turns).members) <= 5 * TreeSize(s.depth, Fan(s))
  {
    RunKeepsInv(s, start, turns);
    var g := Run(s, start, turns).members;
    assert Rises(g, g);
    TotalRises(s, g, g);
    if turns != [] {
      var before := turns[..|turns| - 1];
      AdvancesAreBounded(s, start, before);
      RunKeepsInv(s, start, before);
      StepKeepsInv(s, Run(s, start, before), turns[|turns| - 1]);
      TotalRises(s, Run(s, start, before).members, g);
    }
  }

  /** A final family stays as it is, leaves kept. */
  lemma FinalStays(s: Settings, start: int, turns: seq<Turn>, t: Turn)
    requires start >= 5 && Final(s, Run(s, start, turns))
    ensures Final(s, Step(s, Run(s, start, turns), t))
  {
    RunKeepsInv(s, start, turns);
    var f := Run(s, start, turns);
    StepKeepsInv(s, f, t);
    forall p | InTree(p, s.depth, Fan(s)) ensures Done(s, Step(s, f, t).members, p) {
      assert Done(s, f.members, p);
      assert MemberRises(f.members[p], Step(s, f, t).members[p]);
    }
  }

  // ----- Every timely schedule finishes -----

  /** The marks by which a node is scored. */
  predicate SameMarks(g: Members, h: Members) {
    && g.Keys == h.Keys
    && forall q | q in g ::
         && g[q].ready.Some? == h[q].ready.Some? && g[q].owned == h[q].owned && g[q].propagated == h[q].propagated
         && g[q].retired == h[q].retired && (g[q].status == Leaf <==> h[q].status == Leaf)
  }

  /** A turn that does not advance leaves every mark as it was. */
  lemma MarksStay(s: Settings, g: Members, h: Members)
    requires Rises(g, h) && !Advances(g, h) && MembersInv(s, g) && MembersInv(s, h)
    ensures SameMarks(g, h)
  {
    assert forall q | q in h :: ScoreAt(g, q) >= ScoreAt(h, q);
    assert forall q | q in h :: q in g by {
      forall q | q in h ensures q in g { assert ScoreAt(h, q) > 0; }
    }
    forall q | q in g
      ensures g[q].ready.Some? == h[q].ready.Some? && g[q].owned == h[q].owned
      ensures g[q].propagated == h[q].propagated && g[q].retired == h[q].retired
      ensures g[q].status == Leaf <==> h[q].status == Leaf
    {
      assert MemberRises(g[q], h[q]) && ScoreAt(g, q) >= ScoreAt(h, q) && MemberInv(s, g, q) && MemberInv(s, h, q);
    }
  }

  /** What an agent can achieve stays so while nobody advances. */
  lemma StillCan(s: Settings, g: Members, h: Members, p: Path)
    requires SameMarks(g, h) && CanAdvance(s, g, p)
    ensures CanAdvance(s, h, p)
  {
    if AllReady(g) && CanRetire(s, g, p) {
      forall k | 0 <= k < ChildCount(s, p) ensures ChildDone(s, h, p + [k]) { assert ChildDone(s, g, p + [k]); }
    } else if AllReady(g) && exists k :: CanAccept(s, g, p, k) {
      var k :| CanAccept(s, g, p, k);
      assert CanAccept(s, h, p, k);
    }
  }

  /** The family when turn k is about to be taken. */
  function At(s: Settings, start: int, turns: seq<Turn>, k: nat): Family
    requires k <= |turns|
  {
    Run(s, start, turns[..k])
  }

  lemma NextTurn(s: Settings, start: int, turns: seq<Turn>, k: nat)
    requires start >= 5 && k < |turns|
    ensures Inv(s, At(s, start, turns, k)) && Inv(s, At(s, start, turns, k + 1))
    ensures At(s, start, turns, k + 1) == Step(s, At(s, start, turns, k), turns[k])
    ensures Rises(At(s, start, turns, k).members, At(s, start, turns, k + 1).members)
    ensures At(s, start, turns, k).halted <= At(s, start, turns, k + 1).halted
  {
    assert turns[..k + 1][..k] == turns[..k];
    RunKeepsInv(s, start, turns[..k]);
    StepKeepsInv(s, At(s, start, turns, k), turns[k]);
  }

  /** Nothing is lost and nobody recovers between two turns. */
  lemma {:induction false} Meanwhile(s: Settings, start: int, turns: seq<Turn>, i: nat, j: nat)
    requires start >= 5 && i <= j <= |turns|
    ensures Inv(s, At(s, start, turns, i)) && Inv(s, At(s, start, turns, j))
    ensures Rises(At(s, start, turns, i).members, At(s, start, turns, j).members)
    ensures At(s, start, turns, i).halted <= At(s, start, turns, j).halted
    ensures Final(s, At(s, start, turns, i)) ==> Final(s, At(s, start, turns, j))
    ensures Total(s, At(s, start, turns, i).members) <= Total(s, At(s, start, turns, j).members)
    ensures Total(s, At(s, start, turns, j).members) <= 5 * TreeSize(s.depth, Fan(s))
    decreases j - i
  {
    var f := At(s, start, turns, i);
    if i == j {
      RunKeepsInv(s, start, turns[..i]);
      assert Rises(f.members, f.members);
      TotalRises(s, f.members, f.members);
    } else {
      NextTurn(s, start, turns, i);
      Meanwhile(s, start, turns, i + 1, j);
      var f1 := At(s, start, turns, i + 1);
      RisesTransitive(f.members, f1.members, At(s, start, turns, j).members);
      TotalRises(s, f.members, f1.members);
      if Final(s, f) { FinalStays(s, start, turns[..i], turns[i]); }
    }
  }

  ghost predicate TimelyTurns(s: Settings, start: int, turns: seq<Turn>) {
    forall k {:trigger At(s, start, turns, k)} | 0 <= k < |turns| :: Timely(At(s, start, turns, k), turns[k].now)
  }

  /** One turn of an able agent: it advances, or it is another's and changes no mark. */
  lemma AbleTurn(s: Settings, start: int, turns: seq<Turn>, k: nat, r: Path)
    requires start >= 5 && k < |turns| && Timely(At(s, start, turns, k), turns[k].now)
    requires CanAdvance(s, At(s, start, turns, k).members, r) && At(s, start, turns, k).halted == {}
    ensures || Total(s, At(s, start, turns, k).members) < Total(s, At(s, start, turns, k + 1).members)
            || (turns[k].p != r && CanAdvance(s, At(s, start, turns, k + 1).members, r))
  {
    NextTurn(s, start, turns, k);
    var f, f1 := At(s, start, turns, k), At(s, start, turns, k + 1);
    TotalRises(s, f.members, f1.members);
    if turns[k].p == r {
      assert turns[k] == Turn(r, turns[k].now);
      AbleAdvances(s, f, r, turns[k].now);
    } else if !Advances(f.members, f1.members) {
      MarksStay(s, f.members, f1.members);
      StillCan(s, f.members, f1.members, r);
    }
  }

  /** An able agent that takes a turn among the turns i to j - 1: somebody advances. */
  lemma {:induction false} AbleTurns(s: Settings, start: int, turns: seq<Turn>, i: nat, j: nat, r: Path)
    requires start >= 5 && i <= j <= |turns| && TimelyTurns(s, start, turns)
    requires CanAdvance(s, At(s, start, turns, i).members, r) && At(s, start, turns, j).halted == {}
    requires exists k :: i <= k < j && turns[k].p == r
    ensures Total(s, At(s, start, turns, i).members) < Total(s, At(s, start, turns, j).members)
    decreases j - i
  {
    Meanwhile(s, start, turns, i, j);
    AbleTurn(s, start, turns, i, r);
    Meanwhile(s, start, turns, i + 1, j);
    var f, f1 := At(s, start, turns, i), At(s, start, turns, i + 1);
    if turns[i].p != r && CanAdvance(s, f1.members, r) {
      var k :| i <= k < j && turns[k].p == r;
      assert i + 1 <= k;
      NextTurn(s, start, turns, i);
      TotalRises(s, f.members, f1.members);
      AbleTurns(s, start, turns, i + 1, j, r);
    }
  }

  /** Every node live when turn i comes takes one of the turns i to j - 1, unless it
      gave up before. */
  ghost predicate IsRound(s: Settings, start: int, turns: seq<Turn>, i: nat, j: nat)
    requires i <= j <= |turns|
  {
    forall p | Live(At(s, start, turns, i).members, p) && p !in At(s, start, turns, i).halted ::
      exists k :: i <= k < j && turns[k].p == p
  }

  lemma RoundAdvances(s: Settings, start: int, turns: seq<Turn>, i: nat, j: nat)
    requires start >= 5 && i <= j <= |turns| && TimelyTurns(s, start, turns) && IsRound(s, start, turns, i, j)
    requires At(s, start, turns, j).halted == {} && !Final(s, At(s, start, turns, i))
    ensures Total(s, At(s, start, turns, i).members) < Total(s, At(s, start, turns, j).members)
  {
    Meanwhile(s, start, turns, i, j);
    var r := SomeoneCan(s, At(s, start, turns, i));
    AbleTurns(s, start, turns, i, j, r);
  }

  /** Cuts of a schedule into rounds. */
  ghost predicate Rounds(s: Settings, start: int, turns: seq<Turn>, cuts: seq<nat>) {
    && (forall i | 0 <= i < |cuts| :: cuts[i] <= |turns|)
    && (forall i | 0 < i < |cuts| :: cuts[i - 1] <= cuts[i] && IsRound(s, start, turns, cuts[i - 1], cuts[i]))
  }

  /** One more round: final, or one higher. */
  lemma OneMoreRound(s: Settings, start: int, turns: seq<Turn>, i: nat, j: nat, n: nat)
    requires start >= 5 && i <= j <= |turns| && TimelyTurns(s, start, turns) && IsRound(s, start, turns, i, j)
    requires Run(s, start, turns).halted == {}
    requires Final(s, At(s, start, turns, i)) || n < Total(s, At(s, start, turns, i).members)
    ensures Final(s, At(s, start, turns, j)) || n + 1 < Total(s, At(s, start, turns, j).members)
  {
    Meanwhile(s, start, turns, i, j);
    Meanwhile(s, start, turns, j, |turns|);
    assert turns[..|turns|] == turns;
    if !Final(s, At(s, start, turns, i)) { RoundAdvances(s, start, turns, i, j); }
  }

  lemma {:induction false} EachRoundAdvances(s: Settings, start: int, turns: seq<Turn>, cuts: seq<nat>, n: nat)
    requires start >= 5 && TimelyTurns(s, start, turns) && Rounds(s, start, turns, cuts) && n < |cuts|
    requires Run(s, start, turns).halted == {}
    ensures Final(s, At(s, start, turns, cuts[n])) || n < Total(s, At(s, start, turns, cuts[n]).members)
  {
    if n == 0 {
      Meanwhile(s, start, turns, 0, cuts[0]);
      assert At(s, start, turns, 0) == Begin(start);
      BeginScores(s, start);
    } else {
      EachRoundAdvances(s, start, turns, cuts, n - 1);
      OneMoreRound(s, start, turns, cuts[n - 1], cuts[n], n - 1);
    }
  }

  lemma BeginScores(s: Settings, start: int)
    requires start >= 5
    ensures Total(s, Begin(start).members) > 0
  {
    var none: Members := map[];
    var g := Begin(start).members;
    assert Run(s, start, []) == Begin(start);
    RunKeepsInv(s, start, []);
    assert ScoreAt(none, Root) < ScoreAt(g, Root);
    TotalRises(s, none, g);
  }

  /** Under any schedule, in any order and at any times, that gives every live agent a
      turn in each of 5N rounds while no readiness ages out, the family ends final or
      some agent has given up. */
  lemma RoundsFinish(s: Settings, start: int, turns: seq<Turn>, cuts: seq<nat>)
    requires start >= 5 && TimelyTurns(s, start, turns)
    requires Rounds(s, start, turns, cuts) && |cuts| == 5 * TreeSize(s.depth, Fan(s)) + 1
    ensures Run(s, start, turns).halted == {} ==> Final(s, Run(s, start, turns))
  {
    if Run(s, start, turns).halted == {} {
      var n := |cuts| - 1;
      EachRoundAdvances(s, start, turns, cuts, n);
      Meanwhile(s, start, turns, cuts[n], |turns|);
      assert turns[..|turns|] == turns;
    }
  }

  // ----- A prompt family finishes -----

  /** Everything happened at one moment. */
  ghost predicate Prompt(f: Family, now: int) {
    && f.now == now && f.halted == {}
    && (forall p | p in f.members && f.members[p].ready.Some? :: f.members[p].ready.value == now)
    && (forall p :: AgentAt(f, p).waitStarted.Some? ==> AgentAt(f, p).waitStarted.value == now)
  }

  lemma WaitStartsNow(s: Settings, g: Members, p: Path, now: int, a: Agent)
    requires p in g
    ensures var r := Cycled(s, g, p, now, a);
      && (r.agent.waitStarted == a.waitStarted || (a.waitStarted.None? && r.agent.waitStarted == Some(now)))
      && (r.result == TimedOut ==> r.agent.waitStarted.Some? && now - r.agent.waitStarted.value >= s.timeout)
  {
    var (h, b) := Published(g, a, p, now);
    if g[p].status != Retiring && g[p].owned && ChildCount(s, p) > 0 && LaunchReady(s, h, p) {
      ExtendedKeepsWait(s, h, p, now, Started(b, now));
    }
  }

  lemma ExtendedKeepsWait(s: Settings, g: Members, p: Path, now: int, a: Agent)
    requires p in g && a.waitStarted.Some?
    ensures var r := Extended(s, g, p, now, a);
      && r.agent.waitStarted == a.waitStarted && r.agent.lastReady == a.lastReady
      && (r.result == TimedOut ==> now - a.waitStarted.value >= s.timeout)
  {
    SettledKeepsAgent(s, Receipted(LaunchChildren(g, p, ChildCount(s, p)), p, a), p, now, a.(recorded := true));
  }

  lemma SettledKeepsAgent(s: Settings, g: Members, p: Path, now: int, a: Agent)
    requires a.waitStarted.Some?
    ensures var r := Settled(s, g, p, now, a);
      r.agent == a && (r.result == TimedOut ==> now - a.waitStarted.value >= s.timeout)
  {
  }

  /** The readiness a cycle leaves is the one it publishes. */
  lemma ReadyIsPublished(s: Settings, f: Family, p: Path, now: int)
    requires Inv(s, f) && Prompt(f, now) && Runs(f, Turn(p, now))
    ensures p in Step(s, f, Turn(p, now)).members && Step(s, f, Turn(p, now)).members[p].ready == Some(now)
  {
    var a := AgentAt(f, p);
    assert AgentInv(f.members, p, a, f.now) && MemberInv(s, f.members, p);
    CycledIsGood(s, f.members, p, now, a, f.now);
    PublishesEveryFive(s, f.members, p, now, a);
  }

  lemma PublishesEveryFive(s: Settings, g: Members, p: Path, now: int, a: Agent)
    requires p in g && g[p].status != Retiring
    ensures Cycled(s, g, p, now, a).agent.lastReady == if now - a.lastReady >= 5 then now else a.lastReady
  {
    var (h, b) := Published(g, a, p, now);
    if g[p].owned && ChildCount(s, p) > 0 && LaunchReady(s, h, p) {
      ExtendedKeepsWait(s, h, p, now, Started(b, now));
    }
  }

  lemma StepStaysPrompt(s: Settings, f: Family, p: Path, now: int)
    requires Inv(s, f) && Prompt(f, now)
    ensures Prompt(Step(s, f, Turn(p, now)), now)
  {
    if Runs(f, Turn(p, now)) {
      var a := AgentAt(f, p);
      assert AgentInv(f.members, p, a, f.now);
      CycledIsGood(s, f.members, p, now, a, f.now);
      ReadyIsPublished(s, f, p, now);
      WaitStartsNow(s, f.members, p, now, a);
      var f1 := Step(s, f, Turn(p, now));
      forall q ensures AgentAt(f1, q).waitStarted.Some? ==> AgentAt(f1, q).waitStarted.value == now {
        assert q != p ==> AgentAt(f1, q) == AgentAt(f, q);
      }
    }
  }

  /** For every depth and both fan-outs no more than five turns a node are needed. */
  lemma FamilyFinishes(s: Settings, start: int) returns (turns: seq<Turn>)
    requires start >= 5
    ensures Final(s, Run(s, start, turns)) && Run(s, start, turns).halted == {}
    ensures |turns| <= 5 * TreeSize(s.depth, Fan(s))
  {
    turns := [];
    RunKeepsInv(s, start, turns);
    TotalRises(s, Run(s, start, turns).members, Run(s, start, turns).members);
    while !Final(s, Run(s, start, turns))
      invariant Prompt(Run(s, start, turns), start) && Inv(s, Run(s, start, turns))
      invariant |turns| <= Total(s, Run(s, start, turns).members) <= 5 * TreeSize(s.depth, Fan(s))
      decreases 5 * TreeSize(s.depth, Fan(s)) - Total(s, Run(s, start, turns).members)
    {
      turns := OneMoreTurn(s, start, turns);
    }
  }

  lemma OneMoreTurn(s: Settings, start: int, turns: seq<Turn>) returns (turns1: seq<Turn>)
    requires start >= 5 && !Final(s, Run(s, start, turns)) && Prompt(Run(s, start, turns), start)
    ensures |turns1| == |turns| + 1 && Prompt(Run(s, start, turns1), start) && Inv(s, Run(s, start, turns1))
    ensures Total(s, Run(s, start, turns).members) < Total(s, Run(s, start, turns1).members)
    ensures Total(s, Run(s, start, turns1).members) <= 5 * TreeSize(s.depth, Fan(s))
  {
    var f := Run(s, start, turns);
    RunKeepsInv(s, start, turns);
    var p := SomeAgentAdvances(s, start, turns);
    turns1 := turns + [Turn(p, start)];
    assert turns1[..|turns1| - 1] == turns;
    assert Timely(f, start);
    StepStaysPrompt(s, f, p, start);
    StepKeepsInv(s, f, Turn(p, start));
    TotalRises(s, f.members, Step(s, f, Turn(p, start)).members);
  }
}
