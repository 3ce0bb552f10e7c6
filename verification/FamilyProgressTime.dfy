/** A fault-free family whose agents keep their turns a bounded gap apart: no readiness
    ages out, no agent times out, and the family is final after a bounded time. */
module FamilyProgressTime {
  import opened Wrappers
  import opened Paths
  import opened FamilyProgress
  import opened FamilyProgressProof
  import opened FamilyProgressRuns

  /** Every live agent had its last turn, or was launched, at most gap seconds ago. */
  ghost predicate Punctual(f: Family, now: int, gap: nat) {
    now >= f.now && forall p | Live(f.members, p) :: now - SeenAt(f, p) <= gap
  }

  ghost predicate PunctualTurns(s: Settings, start: int, turns: seq<Turn>, gap: nat) {
    forall k {:trigger At(s, start, turns, k)} | 0 <= k < |turns| :: Punctual(At(s, start, turns, k), turns[k].now, gap)
  }

  /** Readiness is refreshed before it expires, and a wait outlasts the three turns that
      prove a continuation: the child's first, its parent's, and the child's next. */
  predicate Ample(s: Settings, gap: nat) {
    gap <= 11 && s.timeout > 3 * gap
  }

  // ----- What elapsed time says about the stages -----

  function WaitAt(f: Family, p: Path): int {
    if AgentAt(f, p).waitStarted.Some? then AgentAt(f, p).waitStarted.value else 0
  }

  predicate AgeInv(f: Family, p: Path) {
    p in f.members ==>
      && SeenAt(f, p) <= f.now
      && (f.members[p].ready.Some? ==> f.members[p].retired || SeenAt(f, p) - f.members[p].ready.value <= 4)
  }

  /** How far into its parent's wait, begun at w, a child can be behind. */
  predicate ChildWait(s: Settings, f: Family, p: Path, k: nat, w: int, gap: nat) {
    var g, c := f.members, p + [k];
    c in g ==>
      && (g[c].ready.None? ==> SeenAt(f, c) <= w)
      && (!g[c].owned ==> SeenAt(f, p) <= w + gap)
      && (g[c].owned && ChildCount(s, c) > 0 && LaunchReady(s, g, c) && !g[c].propagated ==>
            SeenAt(f, c) <= w + 2 * gap)
  }

  predicate WaitInv(s: Settings, f: Family, p: Path, gap: nat) {
    Live(f.members, p) && f.members[p].propagated ==>
      && (!s.binary && !ParentGone(f.members, p) ==> SeenAt(f, Parent(p)) <= WaitAt(f, p))
      && forall k | 0 <= k < ChildCount(s, p) :: ChildWait(s, f, p, k, WaitAt(f, p), gap)
  }

  ghost predicate TimeInv(s: Settings, f: Family, gap: nat) {
    f.halted == {} && (forall p :: AgeInv(f, p)) && (forall p :: WaitInv(s, f, p, gap))
  }

  lemma PunctualIsTimely(s: Settings, f: Family, now: int, gap: nat)
    requires TimeInv(s, f, gap) && Punctual(f, now, gap) && Ample(s, gap)
    ensures Timely(f, now)
  {
    forall p | Live(f.members, p) && f.members[p].ready.Some? ensures now - f.members[p].ready.value <= 15 {
      assert AgeInv(f, p);
    }
  }

  /** A parent that finds a child not ready is at most one gap into its wait. */
  lemma UnreadyIsEarly(s: Settings, f: Family, p: Path, now: int, gap: nat)
    requires Inv(s, f) && TimeInv(s, f, gap) && Punctual(f, now, gap) && Ample(s, gap)
    requires Live(f.members, p) && f.members[p].propagated && !AllAccept(f.members, p, now, ChildCount(s, p))
    ensures now <= WaitAt(f, p) + gap
  {
    PunctualIsTimely(s, f, now, gap);
    if forall k | 0 <= k < ChildCount(s, p) :: p + [k] in f.members ==> f.members[p + [k]].ready.Some? {
      ChildrenFresh(s, f, p, now);
    } else {
      var k :| 0 <= k < ChildCount(s, p) && p + [k] in f.members && f.members[p + [k]].ready.None?;
      LiveChildren(s, f.members, p, k);
      assert WaitInv(s, f, p, gap) && ChildWait(s, f, p, k, WaitAt(f, p), gap);
    }
  }

  /** A parent whose own parent is gone finds a child without its continuation less than
      three gaps into its wait. */
  lemma UnprovenIsEarly(s: Settings, f: Family, p: Path, now: int, gap: nat, k: nat)
    requires Inv(s, f) && TimeInv(s, f, gap) && Punctual(f, now, gap)
    requires Live(f.members, p) && f.members[p].propagated && ParentGone(f.members, p)
    requires k < ChildCount(s, p) && p + [k] in f.members
    requires ChildCount(s, p + [k]) > 0 && !f.members[p + [k]].propagated
    ensures now <= WaitAt(f, p) + 3 * gap
  {
    var c := p + [k];
    LiveChildren(s, f.members, p, k);
    assert LaunchReady(s, f.members, c) by {
      assert |p| > 0 ==> c[..|c| - 2] == Parent(p);
    }
    assert WaitInv(s, f, p, gap) && ChildWait(s, f, p, k, WaitAt(f, p), gap);
  }

  // ----- Nobody times out -----

  lemma FreshWait(s: Settings, h: Members, p: Path, now: int, b: Agent)
    requires p in h && b.waitStarted.None?
    ensures Extension(s, h, p, now, b).result != TimedOut
  {
  }

  lemma UnreadyTurn(s: Settings, h: Members, p: Path, now: int, b: Agent, gap: nat)
    requires MemberInv(s, h, p) && p in h && h[p].propagated && b.waitStarted.Some? && Ample(s, gap)
    requires !AllAccept(h, p, now, ChildCount(s, p)) && now <= b.waitStarted.value + gap
    ensures Extension(s, h, p, now, b).result != TimedOut
  {
    NothingToLaunch(s, h, p);
    AcceptShape(h, p, now, ChildCount(s, p));
  }

  lemma AcceptedTurn(s: Settings, f: Family, p: Path, now: int, gap: nat)
    requires Inv(s, f) && TimeInv(s, f, gap) && Punctual(f, now, gap) && Ample(s, gap)
    requires Runs(f, Turn(p, now)) && f.members[p].propagated && AllAccept(f.members, p, now, ChildCount(s, p))
    ensures Cycled(s, f.members, p, now, AgentAt(f, p)).result != TimedOut
  {
    var accepted, c := AcceptingTurn(s, f, p, now);
    WaitStartsNow(s, f.members, p, now, AgentAt(f, p));
    assert AgentInv(f.members, p, AgentAt(f, p), f.now);
    assert c.waitStarted == Some(WaitAt(f, p));
    if ParentGone(accepted, p) && !forall k | 0 <= k < ChildCount(s, p) :: ChildContinues(s, accepted, p + [k], now) {
      var k :| 0 <= k < ChildCount(s, p) && !ChildContinues(s, accepted, p + [k], now);
      assert AcceptedFresh(f.members[p + [k]], accepted[p + [k]], now);
      assert MemberInv(s, f.members, p);
      GoneBefore(f.members, accepted, p);
      UnprovenIsEarly(s, f, p, now, gap, k);
    }
  }

  lemma GoneBefore(g: Members, h: Members, p: Path)
    requires OthersKept(g, h, p) && ParentGone(h, p) && (p != Root ==> Parent(p) in g)
    ensures ParentGone(g, p)
  {
    assert p != Root ==> Parent(p) != p;
  }

  lemma NobodyTimesOut(s: Settings, f: Family, p: Path, now: int, gap: nat)
    requires Inv(s, f) && TimeInv(s, f, gap) && Punctual(f, now, gap) && Ample(s, gap) && Runs(f, Turn(p, now))
    ensures Cycled(s, f.members, p, now, AgentAt(f, p)).result != TimedOut
  {
    var g, a := f.members, AgentAt(f, p);
    assert MemberInv(s, g, p) && AgentInv(g, p, a, f.now);
    if g[p].propagated {
      if AllAccept(g, p, now, ChildCount(s, p)) {
        AcceptedTurn(s, f, p, now, gap);
      } else {
        var h, b := OwnersTurn(s, f, p, now);
        UnreadyIsEarly(s, f, p, now, gap);
        assert !AllAccept(h, p, now, ChildCount(s, p)) by {
          if AllAccept(h, p, now, ChildCount(s, p)) { PublishedAccept(h, g, p, now, ChildCount(s, p)); }
        }
        assert MemberInv(s, h, p);
        UnreadyTurn(s, h, p, now, b, gap);
      }
    } else if g[p].owned && ChildCount(s, p) > 0 && LaunchReady(s, g, p) {
      var h, b := OwnersTurn(s, f, p, now);
      FreshWait(s, h, p, now, b);
    } else {
      ShortCycle(s, g, p, now, a);
    }
  }

  lemma ShortCycle(s: Settings, g: Members, p: Path, now: int, a: Agent)
    requires p in g && (!g[p].owned || ChildCount(s, p) == 0 || !LaunchReady(s, g, p))
    ensures Cycled(s, g, p, now, a).result != TimedOut
  {
    var (h, b) := Published(g, a, p, now);
    assert LaunchReady(s, h, p) ==> LaunchReady(s, g, p);
  }

  // ----- One turn keeps the times -----

  /** A turn's effect on everybody else, and on the clocks. */
  lemma TurnEffect(s: Settings, f: Family, p: Path, now: int) returns (f1: Family)
    requires Inv(s, f) && Runs(f, Turn(p, now))
    ensures f1 == Step(s, f, Turn(p, now)) && Inv(s, f1) && f1.now == now
    ensures OthersKept(f.members, f1.members, p) && Rises(f.members, f1.members) && p in f1.members
    ensures f1.members[p].owned == f.members[p].owned
    ensures f1.members[p].ready.Some? && now - f1.members[p].ready.value <= 4
    ensures AgentAt(f1, p) == Cycled(s, f.members, p, now, AgentAt(f, p)).agent
    ensures forall q | q != p :: AgentAt(f1, q) == AgentAt(f, q)
    ensures forall q | q in f1.members :: SeenAt(f1, q) == if q == p || q !in f.members then now else SeenAt(f, q)
  {
    var a := AgentAt(f, p);
    f1 := Step(s, f, Turn(p, now));
    StepKeepsInv(s, f, Turn(p, now));
    assert MemberInv(s, f.members, p) && AgentInv(f.members, p, a, f.now);
    CycledIsGood(s, f.members, p, now, a, f.now);
    PublishesEveryFive(s, f.members, p, now, a);
    assert AgentInv(f1.members, p, AgentAt(f1, p), f1.now);
    if !f.members[p].owned { CandidateStays(s, f.members, p, now, a); }
    assert MemberRises(f.members[p], f1.members[p]);
  }

  lemma CandidateStays(s: Settings, g: Members, p: Path, now: int, a: Agent)
    requires p in g && g[p].status != Retiring && !g[p].owned
    ensures p in Cycled(s, g, p, now, a).members && !Cycled(s, g, p, now, a).members[p].owned
  {
  }

  lemma AgeKept(s: Settings, f: Family, p: Path, now: int, q: Path)
    requires Inv(s, f) && Runs(f, Turn(p, now)) && AgeInv(f, q)
    ensures AgeInv(Step(s, f, Turn(p, now)), q)
  {
    var f1 := TurnEffect(s, f, p, now);
  }

  /** The node that just launched its children. */
  lemma NewWait(s: Settings, f: Family, p: Path, now: int, gap: nat)
    requires Inv(s, f) && TimeInv(s, f, gap) && Runs(f, Turn(p, now)) && !f.members[p].propagated
    ensures WaitInv(s, Step(s, f, Turn(p, now)), p, gap)
  {
    var f1 := TurnEffect(s, f, p, now);
    if Live(f1.members, p) && f1.members[p].propagated {
      assert AgentInv(f.members, p, AgentAt(f, p), f.now) && AgentInv(f1.members, p, AgentAt(f1, p), f1.now);
      WaitStartsNow(s, f.members, p, now, AgentAt(f, p));
      assert WaitAt(f1, p) == now;
      assert MemberInv(s, f.members, p);
      if p != Root { assert AgeInv(f, Parent(p)) && Parent(p) != p; }
      forall k | 0 <= k < ChildCount(s, p) ensures ChildWait(s, f1, p, k, now, gap) {
        var c := p + [k];
        assert MemberInv(s, f.members, c) && Parent(c) == p;
        assert c !in f.members && c != p;
      }
    }
  }

  /** The node whose turn it is, its wait already begun. */
  lemma OldWait(s: Settings, f: Family, p: Path, now: int, gap: nat)
    requires Inv(s, f) && TimeInv(s, f, gap) && Punctual(f, now, gap) && Ample(s, gap)
    requires Runs(f, Turn(p, now)) && f.members[p].propagated
    ensures WaitInv(s, Step(s, f, Turn(p, now)), p, gap)
  {
    var f1 := TurnEffect(s, f, p, now);
    assert AgentInv(f.members, p, AgentAt(f, p), f.now);
    WaitStartsNow(s, f.members, p, now, AgentAt(f, p));
    assert WaitAt(f1, p) == WaitAt(f, p);
    assert MemberInv(s, f.members, p) && WaitInv(s, f, p, gap);
    if p != Root { assert Parent(p) != p; }
    forall k | 0 <= k < ChildCount(s, p) ensures ChildWait(s, f1, p, k, WaitAt(f, p), gap) {
      ChildOfTurn(s, f, p, now, gap, k, f1);
    }
  }

  /** A child whose parent takes the turn. */
  lemma ChildOfTurn(s: Settings, f: Family, p: Path, now: int, gap: nat, k: nat, f1: Family)
    requires Inv(s, f) && TimeInv(s, f, gap) && Punctual(f, now, gap) && Ample(s, gap)
    requires Runs(f, Turn(p, now)) && f.members[p].propagated && k < ChildCount(s, p)
    requires f1 == Step(s, f, Turn(p, now))
    ensures ChildWait(s, f1, p, k, WaitAt(f, p), gap)
  {
    var c := p + [k];
    var f2 := TurnEffect(s, f, p, now);
    assert MemberInv(s, f.members, p) && c in f.members && c != p;
    assert WaitInv(s, f, p, gap) && ChildWait(s, f, p, k, WaitAt(f, p), gap) && AgeInv(f, c);
    ChildLaunchReady(s, f.members, f1.members, p, k);
    if !f1.members[c].owned { UnownedIsEarly(s, f, p, now, gap, k); }
  }

  lemma ChildLaunchReady(s: Settings, g: Members, h: Members, p: Path, k: nat)
    requires OthersKept(g, h, p) && MemberInv(s, g, p) && p in g && Rises(g, h)
    ensures LaunchReady(s, h, p + [k]) == LaunchReady(s, g, p + [k])
  {
    assert |p| > 0 ==> (p + [k])[..|p + [k]| - 2] == Parent(p) && Parent(p) != p;
  }

  lemma FreshChildIsOwned(s: Settings, f: Family, p: Path, now: int, k: nat)
    requires Inv(s, f) && Runs(f, Turn(p, now)) && f.members[p].propagated && k < ChildCount(s, p)
    ensures var h := Step(s, f, Turn(p, now)).members;
      p + [k] in h && (AllAccept(f.members, p, now, ChildCount(s, p)) ==> h[p + [k]].owned)
  {
    var f1 := TurnEffect(s, f, p, now);
    assert MemberInv(s, f.members, p) && p + [k] in f.members;
    if AllAccept(f.members, p, now, ChildCount(s, p)) {
      var accepted, a := AcceptingTurn(s, f, p, now);
      assert AcceptedFresh(f.members[p + [k]], accepted[p + [k]], now);
    }
  }

  /** A child still unowned after its parent's turn: another was not ready. */
  lemma UnownedIsEarly(s: Settings, f: Family, p: Path, now: int, gap: nat, k: nat)
    requires Inv(s, f) && TimeInv(s, f, gap) && Punctual(f, now, gap) && Ample(s, gap)
    requires Runs(f, Turn(p, now)) && f.members[p].propagated && k < ChildCount(s, p)
    requires var h := Step(s, f, Turn(p, now)).members; p + [k] in h && !h[p + [k]].owned
    ensures now <= WaitAt(f, p) + gap
  {
    FreshChildIsOwned(s, f, p, now, k);
    UnreadyIsEarly(s, f, p, now, gap);
  }

  /** Everybody else's wait. */
  lemma OthersWait(s: Settings, f: Family, p: Path, now: int, gap: nat, x: Path)
    requires Inv(s, f) && TimeInv(s, f, gap) && Punctual(f, now, gap) && Ample(s, gap)
    requires Runs(f, Turn(p, now)) && x != p
    ensures WaitInv(s, Step(s, f, Turn(p, now)), x, gap)
  {
    var f1 := TurnEffect(s, f, p, now);
    if Live(f1.members, x) && f1.members[x].propagated {
      assert x in f.members && f.members[x].propagated && Live(f.members, x);
      assert WaitInv(s, f, x, gap) && WaitAt(f1, x) == WaitAt(f, x);
      if !s.binary && !ParentGone(f1.members, x) { GrandparentWaits(s, f, p, now, gap, x); }
      forall k | 0 <= k < ChildCount(s, x) ensures ChildWait(s, f1, x, k, WaitAt(f, x), gap) {
        if x + [k] == p {
          TurnOfChild(s, f, p, now, gap, x, k);
        } else {
          ChildOfOther(s, f, p, now, gap, x, k);
        }
      }
    }
  }

  /** In single mode the parent of a node that has launched retires in its next turn. */
  lemma GrandparentWaits(s: Settings, f: Family, p: Path, now: int, gap: nat, x: Path)
    requires Inv(s, f) && TimeInv(s, f, gap) && Punctual(f, now, gap) && Ample(s, gap)
    requires Runs(f, Turn(p, now)) && x != p && !s.binary && Live(f.members, x) && f.members[x].propagated
    requires !ParentGone(Step(s, f, Turn(p, now)).members, x)
    ensures SeenAt(Step(s, f, Turn(p, now)), Parent(x)) <= WaitAt(f, x)
  {
    var f1 := TurnEffect(s, f, p, now);
    var q := Parent(x);
    assert MemberInv(s, f.members, x) && WaitInv(s, f, x, gap);
    assert q in f.members && MemberRises(f.members[q], f1.members[q]);
    if q == p {
      OnlyChildContinues(s, f, p, now, gap, x);
      RetiringTurn(s, f, p, now);
    }
  }

  lemma OnlyChildContinues(s: Settings, f: Family, p: Path, now: int, gap: nat, x: Path)
    requires Inv(s, f) && TimeInv(s, f, gap) && Punctual(f, now, gap) && Ample(s, gap)
    requires Live(f.members, p) && !s.binary && ChildOf(x, p) && Live(f.members, x) && f.members[x].propagated
    ensures f.members[p].propagated && ParentGone(f.members, p) && AllAccept(f.members, p, now, ChildCount(s, p))
    ensures forall k | 0 <= k < ChildCount(s, p) :: ChildDone(s, f.members, p + [k])
  {
    assert MemberInv(s, f.members, x);
    assert |x| > 1 ==> x[..|x| - 2] == Parent(p);
    assert x[|x| - 1] == 0 && x == p + [0];
    PunctualIsTimely(s, f, now, gap);
    assert forall k | 0 <= k < ChildCount(s, p) :: p + [k] == x;
    ChildrenFresh(s, f, p, now);
  }

  /** The turn of a child of x: ready afterwards, and if it could launch it has. */
  lemma TurnOfChild(s: Settings, f: Family, p: Path, now: int, gap: nat, x: Path, k: nat)
    requires Inv(s, f) && TimeInv(s, f, gap) && Runs(f, Turn(p, now))
    requires Live(f.members, x) && f.members[x].propagated && k < ChildCount(s, x) && p == x + [k]
    ensures ChildWait(s, Step(s, f, Turn(p, now)), x, k, WaitAt(f, x), gap)
  {
    var f1 := TurnEffect(s, f, p, now);
    assert WaitInv(s, f, x, gap) && ChildWait(s, f, x, k, WaitAt(f, x), gap) && x != p;
    assert |x| > 0 ==> p[..|p| - 2] == Parent(x) && Parent(x) != p;
    if f1.members[p].owned && ChildCount(s, p) > 0 && LaunchReady(s, f1.members, p) {
      assert MemberInv(s, f.members, x);
      assert LaunchReady(s, f.members, p);
      var h, b := OwnersTurn(s, f, p, now);
    }
  }

  /** A child of x when neither takes the turn: at most the grandparent has retired. */
  lemma ChildOfOther(s: Settings, f: Family, p: Path, now: int, gap: nat, x: Path, k: nat)
    requires Inv(s, f) && TimeInv(s, f, gap) && Punctual(f, now, gap) && Runs(f, Turn(p, now)) && x != p
    requires Live(f.members, x) && f.members[x].propagated && k < ChildCount(s, x) && p != x + [k]
    ensures ChildWait(s, Step(s, f, Turn(p, now)), x, k, WaitAt(f, x), gap)
  {
    var c := x + [k];
    var f1 := TurnEffect(s, f, p, now);
    assert WaitInv(s, f, x, gap) && ChildWait(s, f, x, k, WaitAt(f, x), gap) && AgeInv(f, c);
    assert Parent(c) == x && (|x| > 0 ==> c[..|c| - 2] == Parent(x));
    assert MemberInv(s, f.members, x);
    assert c in f.members;
    if LaunchReady(s, f1.members, c) && !LaunchReady(s, f.members, c) {
      assert Parent(x) == p;
      assert SeenAt(f, p) <= WaitAt(f, x);
    }
  }

  lemma StepKeepsTime(s: Settings, f: Family, t: Turn, gap: nat)
    requires Inv(s, f) && TimeInv(s, f, gap) && Punctual(f, t.now, gap) && Ample(s, gap)
    ensures TimeInv(s, Step(s, f, t), gap)
  {
    if Runs(f, t) {
      var p, now := t.p, t.now;
      assert t == Turn(p, now);
      var f1 := Step(s, f, t);
      NobodyTimesOut(s, f, p, now, gap);
      forall q ensures AgeInv(f1, q) {
        assert AgeInv(f, q);
        AgeKept(s, f, p, now, q);
      }
      forall q ensures WaitInv(s, f1, q, gap) {
        if q != p {
          OthersWait(s, f, p, now, gap, q);
        } else if f.members[p].propagated {
          OldWait(s, f, p, now, gap);
        } else {
          NewWait(s, f, p, now, gap);
        }
      }
    }
  }

  // ----- Whole schedules -----

  lemma {:induction false} PunctualPrefix(s: Settings, start: int, turns: seq<Turn>, gap: nat, k: nat)
    requires start >= 5 && Ample(s, gap) && PunctualTurns(s, start, turns, gap) && k <= |turns|
    ensures Inv(s, At(s, start, turns, k)) && TimeInv(s, At(s, start, turns, k), gap)
  {
    RunKeepsInv(s, start, turns[..k]);
    if k == 0 {
      var f := Begin(start);
      assert At(s, start, turns, 0) == f;
      forall p ensures AgeInv(f, p) && WaitInv(s, f, p, gap) { assert p in f.members ==> p == Root; }
    } else {
      PunctualPrefix(s, start, turns, gap, k - 1);
      NextTurn(s, start, turns, k - 1);
      StepKeepsTime(s, At(s, start, turns, k - 1), turns[k - 1], gap);
    }
  }

  /** No timeout and no aged readiness, whatever the order of the turns, if every live
      agent's turns are at most 11 seconds and less than a third of the readiness
      timeout apart. */
  lemma NobodyGivesUp(s: Settings, start: int, turns: seq<Turn>, gap: nat)
    requires start >= 5 && Ample(s, gap) && PunctualTurns(s, start, turns, gap)
    ensures Run(s, start, turns).halted == {} && TimelyTurns(s, start, turns)
  {
    PunctualPrefix(s, start, turns, gap, |turns|);
    assert turns[..|turns|] == turns;
    forall k | 0 <= k < |turns| ensures Timely(At(s, start, turns, k), turns[k].now) {
      PunctualPrefix(s, start, turns, gap, k);
      PunctualIsTimely(s, At(s, start, turns, k), turns[k].now, gap);
    }
  }

  /** An agent that takes none of the turns i to j - 1 stays as it was seen. */
  lemma {:induction false} NoTurnNoSeen(s: Settings, start: int, turns: seq<Turn>, i: nat, j: nat, p: Path)
    requires start >= 5 && i <= j <= |turns| && Live(At(s, start, turns, i).members, p)
    ensures || (exists k :: i <= k < j && turns[k].p == p)
            || (Live(At(s, start, turns, j).members, p)
                && (i == j || SeenAt(At(s, start, turns, j), p) == SeenAt(At(s, start, turns, i), p)))
    decreases j - i
  {
    if i < j && turns[i].p != p {
      NextTurn(s, start, turns, i);
      var f := At(s, start, turns, i);
      if Runs(f, turns[i]) {
        assert turns[i] == Turn(turns[i].p, turns[i].now);
        var f1 := TurnEffect(s, f, turns[i].p, turns[i].now);
      }
      NoTurnNoSeen(s, start, turns, i + 1, j, p);
    }
  }

  lemma {:induction false} ClockIsLastTurn(s: Settings, start: int, turns: seq<Turn>, k: nat, limit: int)
    requires start >= 5 && start <= limit && k <= |turns| && forall i | 0 <= i < k :: turns[i].now <= limit
    ensures At(s, start, turns, k).now <= limit
  {
    if k > 0 {
      ClockIsLastTurn(s, start, turns, k - 1, limit);
      NextTurn(s, start, turns, k - 1);
    } else {
      assert turns[..0] == [];
    }
  }

  /** The first turn later than limit. */
  lemma {:induction false} FirstLater(turns: seq<Turn>, limit: int, m: nat) returns (i: nat)
    requires m < |turns| && turns[m].now > limit
    ensures i <= m && turns[i].now > limit && forall k | 0 <= k < i :: turns[k].now <= limit
  {
    i := 0;
    while turns[i].now <= limit
      invariant i <= m && forall k | 0 <= k < i :: turns[k].now <= limit
      decreases m - i
    {
      i := i + 1;
    }
  }

  /** Turns that span more than a gap are a round. */
  lemma GapIsRound(s: Settings, start: int, turns: seq<Turn>, gap: nat, i: nat, m: nat, limit: int)
    requires start >= 5 && Ample(s, gap) && PunctualTurns(s, start, turns, gap) && i <= m < |turns|
    requires At(s, start, turns, i).now <= limit && turns[m].now > limit + gap
    ensures IsRound(s, start, turns, i, m)
  {
    var f, f1 := At(s, start, turns, i), At(s, start, turns, m);
    PunctualPrefix(s, start, turns, gap, i);
    forall p | Live(f.members, p) ensures exists k :: i <= k < m && turns[k].p == p {
      assert AgeInv(f, p) && Punctual(f1, turns[m].now, gap);
      NoTurnNoSeen(s, start, turns, i, m, p);
    }
  }

  lemma {:induction false} EachGapAdvances(s: Settings, start: int, turns: seq<Turn>, gap: nat, n: nat, m: nat)
    requires start >= 5 && Ample(s, gap) && PunctualTurns(s, start, turns, gap)
    requires m < |turns| && turns[m].now > start + n * gap
    ensures Final(s, At(s, start, turns, m)) || n < Total(s, At(s, start, turns, m).members)
    decreases n
  {
    if n == 0 {
      Meanwhile(s, start, turns, 0, m);
      assert At(s, start, turns, 0) == Begin(start);
      BeginScores(s, start);
    } else {
      var limit := start + (n - 1) * gap;
      assert n * gap == (n - 1) * gap + gap;
      var i := FirstLater(turns, limit, m);
      EachGapAdvances(s, start, turns, gap, n - 1, i);
      ClockIsLastTurn(s, start, turns, i, limit);
      GapIsRound(s, start, turns, gap, i, m, limit);
      NobodyGivesUp(s, start, turns, gap);
      OneMoreRound(s, start, turns, i, m, n - 1);
    }
  }

  /** Any family of N nodes whose agents keep their turns at most gap apart, in whatever
      order, is final once 5 N gap seconds have passed, and nobody gave up on the way. */
  lemma PunctualFamilyFinishes(s: Settings, start: int, turns: seq<Turn>, gap: nat)
    requires start >= 5 && Ample(s, gap) && PunctualTurns(s, start, turns, gap)
    requires turns != [] && turns[|turns| - 1].now > start + 5 * TreeSize(s.depth, Fan(s)) * gap
    ensures Final(s, Run(s, start, turns)) && Run(s, start, turns).halted == {}
  {
    NobodyGivesUp(s, start, turns, gap);
    var m := |turns| - 1;
    EachGapAdvances(s, start, turns, gap, 5 * TreeSize(s.depth, Fan(s)), m);
    Meanwhile(s, start, turns, m, |turns|);
    assert turns[..|turns|] == turns;
  }

  // ----- Round robin, a second a round -----

  function Sweep(ps: seq<Path>, now: int): seq<Turn> {
    seq(|ps|, i requires 0 <= i < |ps| => Turn(ps[i], now))
  }

  /** n rounds over the paths ps, the clock advancing by one each time. */
  function RoundRobin(ps: seq<Path>, start: int, n: nat): seq<Turn> {
    if n == 0 then [] else RoundRobin(ps, start, n - 1) + Sweep(ps, start + n)
  }

  /** In the sweep at now the first i paths have had their turns. */
  ghost predicate Swept(f: Family, ps: seq<Path>, i: nat, now: int)
    requires i <= |ps|
  {
    && f.now <= now
    && (forall p | Live(f.members, p) :: SeenAt(f, p) >= now - 1)
    && forall k | 0 <= k < i :: Live(f.members, ps[k]) ==> SeenAt(f, ps[k]) >= now
  }

  lemma SweepTurn(s: Settings, f: Family, ps: seq<Path>, i: nat, now: int)
    requires Inv(s, f) && f.halted == {} && i < |ps| && Swept(f, ps, i, now)
    ensures Swept(Step(s, f, Turn(ps[i], now)), ps, i + 1, now)
  {
    if Runs(f, Turn(ps[i], now)) {
      var f1 := TurnEffect(s, f, ps[i], now);
    }
  }

  lemma OneMorePunctual(s: Settings, start: int, turns: seq<Turn>, gap: nat, t: Turn)
    requires PunctualTurns(s, start, turns, gap) && Punctual(Run(s, start, turns), t.now, gap)
    ensures PunctualTurns(s, start, turns + [t], gap)
    ensures Run(s, start, turns + [t]) == Step(s, Run(s, start, turns), t)
  {
    var turns1 := turns + [t];
    assert turns1[..|turns|] == turns;
    forall k | 0 <= k < |turns1| ensures Punctual(At(s, start, turns1, k), turns1[k].now, gap) {
      if k < |turns| {
        assert turns1[..k] == turns[..k];
        assert Punctual(At(s, start, turns, k), turns[k].now, gap);
      }
    }
  }

  lemma {:induction false} SweepIsPunctual(s: Settings, start: int, turns: seq<Turn>, ps: seq<Path>, i: nat, now: int)
    requires start >= 5 && Ample(s, 1) && PunctualTurns(s, start, turns, 1) && i <= |ps|
    requires Swept(Run(s, start, turns), ps, 0, now)
    ensures PunctualTurns(s, start, turns + Sweep(ps[..i], now), 1)
    ensures Swept(Run(s, start, turns + Sweep(ps[..i], now)), ps, i, now)
  {
    if i == 0 {
      assert turns + Sweep(ps[..0], now) == turns;
    } else {
      SweepIsPunctual(s, start, turns, ps, i - 1, now);
      var before := turns + Sweep(ps[..i - 1], now);
      assert turns + Sweep(ps[..i], now) == before + [Turn(ps[i - 1], now)];
      SweepOn(s, start, before, ps, i - 1, now);
    }
  }

  lemma SweepOn(s: Settings, start: int, turns: seq<Turn>, ps: seq<Path>, i: nat, now: int)
    requires start >= 5 && Ample(s, 1) && PunctualTurns(s, start, turns, 1) && i < |ps|
    requires Swept(Run(s, start, turns), ps, i, now)
    ensures PunctualTurns(s, start, turns + [Turn(ps[i], now)], 1)
    ensures Swept(Run(s, start, turns + [Turn(ps[i], now)]), ps, i + 1, now)
  {
    OneMorePunctual(s, start, turns, 1, Turn(ps[i], now));
    NobodyGivesUp(s, start, turns, 1);
    RunKeepsInv(s, start, turns);
    SweepTurn(s, Run(s, start, turns), ps, i, now);
  }

  /** A whole number of rounds over the paths of the tree, the last one at now. */
  ghost predicate Rounded(s: Settings, ps: seq<Path>, start: int, turns: seq<Turn>, now: int) {
    PunctualTurns(s, start, turns, 1) && Swept(Run(s, start, turns), ps, 0, now + 1)
  }

  lemma NoRounds(s: Settings, ps: seq<Path>, start: int)
    ensures Rounded(s, ps, start, [], start)
  {
    var f := Begin(start);
    assert Run(s, start, []) == f;
    forall p | Live(f.members, p) ensures SeenAt(f, p) >= start { assert p == Root; }
  }

  lemma WholeSweep(s: Settings, ps: seq<Path>, start: int, turns: seq<Turn>, now: int)
    requires start >= 5 && Ample(s, 1) && Rounded(s, ps, start, turns, now)
    requires forall p: Path | InTree(p, s.depth, Fan(s)) :: p in ps
    ensures Rounded(s, ps, start, turns + Sweep(ps, now + 1), now + 1)
  {
    SweepIsPunctual(s, start, turns, ps, |ps|, now + 1);
    assert ps[..|ps|] == ps;
    AllSwept(s, ps, start, turns + Sweep(ps, now + 1), now + 1);
  }

  lemma AllSwept(s: Settings, ps: seq<Path>, start: int, turns: seq<Turn>, now: int)
    requires start >= 5 && Swept(Run(s, start, turns), ps, |ps|, now)
    requires forall p: Path | InTree(p, s.depth, Fan(s)) :: p in ps
    ensures Swept(Run(s, start, turns), ps, 0, now + 1)
  {
    var f := Run(s, start, turns);
    RunKeepsInv(s, start, turns);
    forall p | Live(f.members, p) ensures SeenAt(f, p) >= now {
      assert MemberInv(s, f.members, p) && p in ps;
      var k :| 0 <= k < |ps| && ps[k] == p;
    }
  }

  lemma {:induction false} RoundRobinIsPunctual(s: Settings, ps: seq<Path>, start: int, n: nat, turns: seq<Turn>)
    requires start >= 5 && Ample(s, 1) && turns == RoundRobin(ps, start, n)
    requires forall p: Path | InTree(p, s.depth, Fan(s)) :: p in ps
    ensures Rounded(s, ps, start, turns, start + n)
  {
    if n == 0 {
      NoRounds(s, ps, start);
    } else {
      var before := RoundRobin(ps, start, n - 1);
      RoundRobinIsPunctual(s, ps, start, n - 1, before);
      WholeSweep(s, ps, start, before, start + n - 1);
      assert turns == before + Sweep(ps, start + n - 1 + 1);
    }
  }

  /** Giving every agent a turn each second, a family of N nodes with a readiness
      timeout above three seconds is final after 5N + 1 seconds. */
  lemma RoundRobinFinishes(s: Settings, start: int)
    requires start >= 5 && s.timeout > 3
    ensures var ps := LevelOrder(s.depth, Fan(s));
      var f := Run(s, start, RoundRobin(ps, start, 5 * |ps| + 1));
      Final(s, f) && f.halted == {}
  {
    var ps := LevelOrder(s.depth, Fan(s));
    var n := 5 * |ps| + 1;
    var turns := RoundRobin(ps, start, n);
    LevelOrderIsExact(s.depth, Fan(s));
    RoundRobinIsPunctual(s, ps, start, n, turns);
    assert Root in ps;
    assert turns[|turns| - 1] == Sweep(ps, start + n)[|ps| - 1];
    PunctualFamilyFinishes(s, start, turns, 1);
  }
}
