/** Single-successor families never have more than three generations that are not
    terminated, at any depth. */
module FamilySingle {
  import opened Wrappers
  import opened Paths
  import opened Lineage
  import opened Records
  import opened Lifecycle
  import opened Family
  import opened FamilyGrowth
  import opened FamilyLaunch
  import opened FamilySafety

  /** A launch intent three or more generations deep was written only after the node
      three generations up, and everything above it, had terminated. */
  ghost predicate GateInv(w: World, q: Path) {
    q in w.claims && |q| >= 3 ==>
      var i := w.claims[q].parent;
      i.Child? && i.parent.Child? && Ended(w, i.parent.parent) && AncestorsGone(w, i.parent.parent)
  }

  ghost predicate Gated(c: Config, w: World) {
    !c.binary ==> forall q :: GateInv(w, q)
  }

  lemma {:induction false} AncestorsStayGone(w: World, w1: World, i: Inst)
    requires AncestorsGone(w, i) && Grows(w, w1)
    ensures AncestorsGone(w1, i)
    decreases i
  {
    if i.Child? {
      assert Ended(w, i.parent);
      AncestorsStayGone(w, w1, i.parent);
    }
  }

  lemma GateStays(w: World, w1: World, q: Path)
    requires GateInv(w, q) && Grows(w, w1) && (q in w1.claims ==> q in w.claims)
    ensures GateInv(w1, q)
  {
    if q in w.claims && |q| >= 3 {
      var top := w.claims[q].parent.parent.parent;
      assert Ended(w, top);
      AncestorsStayGone(w, w1, top);
    }
  }

  lemma IntendIsGated(c: Config, w: World, e: Edge, w1: World)
    requires Safe(c, w) && DoIntend(c, w, e) == Some(w1) && Grows(w, w1) && !c.binary
    ensures GateInv(w1, EdgePath(e)) && w1.claims == w.claims[EdgePath(e) := e]
  {
    if |EdgePath(e)| >= 3 {
      var top := e.parent.parent.parent;
      assert AncestorEnded(c, w, top);
      assert !Closed(c, w);
      RetiringHasNoAncestors(c, w, top);
      assert Ended(w, top);
      AncestorsStayGone(w, w1, top);
    }
  }

  lemma StepKeepsGated(c: Config, w: World, a: Action, w1: World)
    requires Safe(c, w) && Gated(c, w) && Next(c, w, a) == Some(w1)
    ensures Gated(c, w1)
  {
    StepKeepsSafe(c, w, a, w1);
    if !c.binary {
      StepClaims(c, w, a, w1);
      if a.Launching? && a.launch.Intend? { IntendIsGated(c, w, a.launch.e, w1); }
      forall q ensures GateInv(w1, q) {
        assert GateInv(w, q);
        if q in w1.claims ==> q in w.claims { GateStays(w, w1, q); }
      }
    }
  }

  lemma StepClaims(c: Config, w: World, a: Action, w1: World)
    requires Safe(c, w) && Next(c, w, a) == Some(w1)
    ensures !(a.Launching? && a.launch.Intend?) ==> w1.claims == w.claims
    ensures a.Launching? && a.launch.Intend? ==> w1.claims == w.claims[EdgePath(a.launch.e) := a.launch.e]
  {
    match a
    case Launching(step) =>
      if step.Intend? {
        IntentIsNew(c, w, step.e);
        IntendIsLocal(c, w, step.e, w1);
      } else if ReceiptStep(step) {
        ReceiptStepGrows(c, w, step, w1);
      } else {
        ThreadStepFrame(c, w, step, w1);
      }
    case Acts(step) => AgentStepGrows(c, w, step, w1);
    case Cleaning(step) => CleanupStepGrows(c, w, step, w1);
    case Outside(step) => OutsideStepGrows(c, w, step, w1);
  }

  lemma {:induction false} EveryRunIsGated(c: Config, w: World, actions: seq<Action>)
    requires Initial(c, w) && Run(c, w, actions).Some?
    ensures Safe(c, Run(c, w, actions).value) && Gated(c, Run(c, w, actions).value)
  {
    EveryRunIsSafe(c, w, actions);
    if actions != [] {
      var before := Run(c, w, actions[..|actions| - 1]).value;
      EveryRunIsGated(c, w, actions[..|actions| - 1]);
      StepKeepsGated(c, before, actions[|actions| - 1], Run(c, w, actions).value);
    }
  }

  // ----- One instance per generation -----

  /** An instance that exists was launched at a claimed path by an existing parent. */
  lemma LaunchedByParent(c: Config, w: World, x: Inst)
    requires Safe(c, w) && x in w.ec2 && x.Child?
    ensures PathOf(x) in w.claims && w.claims[PathOf(x)] == Edge(x.parent, x.index)
    ensures x.parent in w.ec2 && x.index < ChildCount(c, PathOf(x.parent))
  {
    var e := Edge(x.parent, x.index);
    assert LaunchInv(w, e) && x == MadeBy(e, x.call);
    assert ClaimInv(c, w, EdgePath(e));
  }

  lemma {:induction false} OnePerPath(c: Config, w: World, x: Inst, y: Inst)
    requires Safe(c, w) && x in w.ec2 && y in w.ec2 && PathOf(x) == PathOf(y)
    ensures x == y
  {
    if x.Child? && y.Child? {
      LaunchedByParent(c, w, x);
      LaunchedByParent(c, w, y);
      var e := Edge(x.parent, x.index);
      assert LaunchInv(w, e) && x == MadeBy(e, x.call) && y == MadeBy(e, y.call);
    }
  }

  /** In single mode the generation determines the instance. */
  lemma {:induction false} OnePerGeneration(c: Config, w: World, x: Inst, y: Inst)
    requires Safe(c, w) && !c.binary && x in w.ec2 && y in w.ec2 && Generation(x) == Generation(y)
    ensures x == y
    decreases x
  {
    if x.Child? && y.Child? {
      LaunchedByParent(c, w, x);
      LaunchedByParent(c, w, y);
      OnePerGeneration(c, w, x.parent, y.parent);
      OnePerPath(c, w, x, y);
    }
  }

  /** Everything no deeper than a node whose lineage is gone is gone. */
  lemma {:induction false} ShallowIsGone(c: Config, w: World, x: Inst, top: Inst)
    requires Safe(c, w) && !c.binary && x in w.ec2 && top in w.ec2
    requires Ended(w, top) && AncestorsGone(w, top) && Generation(x) <= Generation(top)
    ensures Ended(w, x)
    decreases top
  {
    if Generation(x) == Generation(top) {
      OnePerGeneration(c, w, x, top);
    } else {
      LaunchedByParent(c, w, top);
      ShallowIsGone(c, w, x, top.parent);
    }
  }

  lemma LiveAreClose(c: Config, w: World, x: Inst, y: Inst)
    requires Safe(c, w) && Gated(c, w) && !c.binary
    requires x in w.ec2 && y in w.ec2 && !Ended(w, x)
    ensures Generation(y) <= Generation(x) + 2
  {
    if Generation(y) > Generation(x) + 2 {
      LaunchedByParent(c, w, y);
      assert GateInv(w, PathOf(y));
      var top := y.parent.parent.parent;
      assert Generation(top) == Generation(y) - 3;
      ShallowIsGone(c, w, x, top);
    }
  }

  /** However deep the chain, whatever fails or is lost: at most three instances are
      not terminated. */
  lemma AtMostThreeLive(c: Config, w: World, actions: seq<Action>, live: set<Inst>)
    requires Initial(c, w) && Run(c, w, actions).Some? && !c.binary
    requires var w1 := Run(c, w, actions).value; forall x | x in live :: x in w1.ec2 && !Ended(w1, x)
    ensures |live| <= 3
  {
    EveryRunIsGated(c, w, actions);
    var w1 := Run(c, w, actions).value;
    if live != {} {
      var first := Earliest(live);
      forall x, y | x in live && y in live && Generation(x) == Generation(y) ensures x == y {
        OnePerGeneration(c, w1, x, y);
      }
      forall x | x in live ensures Generation(first) <= Generation(x) < Generation(first) + 3 {
        LiveAreClose(c, w1, first, x);
      }
      GenerationsBound(live, Generation(first), 3);
    }
  }
}
