/** Instances named by the launch request that made them: the operator's seed, or
    the call-th request its parent issued for one of its child positions. The
    request carries lineage tags, so parent and path are read off the name. */
module Lineage {
  import opened Paths

  datatype Inst = Seed | Child(parent: Inst, index: nat, call: nat)

  datatype Ec2 = Pending | Running | ShuttingDown | Gone

  function PathOf(i: Inst): Path {
    match i
    case Seed => Root
    case Child(parent, index, _) => PathOf(parent) + [index]
  }

  function Generation(i: Inst): nat {
    |PathOf(i)|
  }

  lemma {:induction false} GenerationsBound(live: set<Inst>, lo: nat, n: nat)
    requires forall x, y | x in live && y in live && Generation(x) == Generation(y) :: x == y
    requires forall x | x in live :: lo <= Generation(x) < lo + n
    ensures |live| <= n
  {
    if n == 0 {
      assert live == {};
    } else if exists x :: x in live && Generation(x) == lo + n - 1 {
      var x :| x in live && Generation(x) == lo + n - 1;
      GenerationsBound(live - {x}, lo, n - 1);
    } else {
      GenerationsBound(live, lo, n - 1);
    }
  }

  lemma Earliest(live: set<Inst>) returns (x: Inst)
    requires live != {}
    ensures x in live && forall y | y in live :: Generation(x) <= Generation(y)
  {
    var first :| first in live;
    var rest := live - {first};
    assert live == rest + {first};
    x := first;
    if rest != {} {
      var best := Earliest(rest);
      if Generation(best) < Generation(first) { x := best; }
    }
  }
}
