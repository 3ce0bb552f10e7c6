/** Lineage paths: the root is [], and child i of p is p + [i]. A path's length is
    its generation. Paths stand for the source's "r", "r0", "r01", ... */
module Paths {
  type Path = seq<nat>

  const Root: Path := []

  predicate InTree(p: Path, depth: nat, fan: nat) {
    |p| <= depth && forall i | 0 <= i < |p| :: p[i] < fan
  }

  function Parent(p: Path): Path
    requires p != Root
  {
    p[..|p| - 1]
  }

  /** q branches off to the left of p: they differ, and q has the smaller index
      where they first differ. */
  predicate LeftOf(q: Path, p: Path) {
    q != [] && p != [] && (q[0] < p[0] || (q[0] == p[0] && LeftOf(q[1..], p[1..])))
  }

  /** q comes before p in post-order: q is below p, or branches off to its left. */
  predicate PostBefore(q: Path, p: Path) {
    p < q || LeftOf(q, p)
  }

  lemma PostOrderTotal(p: Path, q: Path)
    requires p != q
    ensures PostBefore(p, q) != PostBefore(q, p)
  {
    if p != [] && q != [] {
      if p[0] == q[0] {
        assert p == [p[0]] + p[1..] && q == [q[0]] + q[1..];
        PostOrderTotal(p[1..], q[1..]);
        assert p < q <==> p[1..] < q[1..];
        assert q < p <==> q[1..] < p[1..];
      }
    } else {
      assert p == [] ==> p < q;
      assert q == [] ==> q < p;
    }
  }

  /** What lies to the left of child i: what lies left of its parent, and the
      subtrees of the earlier children. */
  lemma {:induction false} LeftOfChild(q: Path, p: Path, i: nat)
    ensures LeftOf(q, p + [i]) <==> LeftOf(q, p) || (p < q && q[|p|] < i)
  {
    if p != [] {
      assert (p + [i])[1..] == p[1..] + [i];
      if q != [] && q[0] == p[0] {
        LeftOfChild(q[1..], p[1..], i);
        assert p < q <==> p[1..] < q[1..];
      }
    }
  }

  lemma {:induction false} LeftOfIrreflexive(p: Path)
    ensures !LeftOf(p, p)
  {
    if p != [] { LeftOfIrreflexive(p[1..]); }
  }

  /** Nothing below a path is to its left. */
  lemma {:induction false} BelowIsNotLeft(q: Path, p: Path)
    requires p <= q
    ensures !LeftOf(q, p) && !LeftOf(p, q)
  {
    if p != [] {
      assert q[0] == p[0] && p[1..] <= q[1..];
      BelowIsNotLeft(q[1..], p[1..]);
    }
  }

  // ----- Level order: the order of sorted(nodes, key=(len, path)) -----

  function Children(p: Path, fan: nat): seq<Path> {
    seq(fan, i requires 0 <= i => p + [i])
  }

  function Expand(ps: seq<Path>, fan: nat): seq<Path> {
    if ps == [] then [] else Children(ps[0], fan) + Expand(ps[1..], fan)
  }

  function Level(d: nat, fan: nat): seq<Path> {
    if d == 0 then [Root] else Expand(Level(d - 1, fan), fan)
  }

  function LevelOrder(depth: nat, fan: nat): seq<Path> {
    if depth == 0 then Level(0, fan) else LevelOrder(depth - 1, fan) + Level(depth, fan)
  }

  /** Shorter first; equal lengths lexicographically. */
  predicate Earlier(p: Path, q: Path) {
    |p| < |q| || (|p| == |q| && LeftOf(p, q))
  }

  predicate SortedPaths(ps: seq<Path>) {
    forall i, j | 0 <= i < j < |ps| :: Earlier(ps[i], ps[j])
  }

  lemma {:induction false} LeftOfExtends(p: Path, q: Path, i: nat, j: nat)
    requires |p| == |q|
    ensures LeftOf(p + [i], q + [j]) <==> LeftOf(p, q) || (p == q && i < j)
  {
    if p != [] {
      assert (p + [i])[1..] == p[1..] + [i] && (q + [j])[1..] == q[1..] + [j];
      LeftOfExtends(p[1..], q[1..], i, j);
      assert p[0] == q[0] && p[1..] == q[1..] ==> p == q;
    }
  }

  lemma {:induction false} ExpandContains(ps: seq<Path>, fan: nat, q: Path)
    ensures q in Expand(ps, fan) <==> q != [] && q[|q| - 1] < fan && Parent(q) in ps
  {
    if ps != [] {
      ExpandContains(ps[1..], fan, q);
      var cs := Children(ps[0], fan);
      assert q in cs <==> q != [] && q[|q| - 1] < fan && Parent(q) == ps[0] by {
        if q != [] && q[|q| - 1] < fan && Parent(q) == ps[0] {
          assert q == ps[0] + [q[|q| - 1]] == cs[q[|q| - 1]];
        }
      }
      assert ps == [ps[0]] + ps[1..];
    }
  }

  /** The children of an earlier path come before those of any later one. */
  lemma ChildrenFirst(head: Path, ps: seq<Path>, fan: nat, d: nat, i: nat, q: Path)
    requires |head| == d && (forall p | p in ps :: |p| == d && Earlier(head, p)) && q in Expand(ps, fan)
    ensures Earlier(head + [i], q)
  {
    ExpandContains(ps, fan, q);
    assert q == Parent(q) + [q[|q| - 1]];
    LeftOfExtends(head, Parent(q), i, q[|q| - 1]);
  }

  lemma ChildrenSorted(p: Path, fan: nat)
    ensures SortedPaths(Children(p, fan))
  {
    forall i, j | 0 <= i < j < fan ensures Earlier(p + [i], p + [j]) {
      LeftOfIrreflexive(p);
      LeftOfExtends(p, p, i, j);
    }
  }

  lemma SortedConcat(ps: seq<Path>, qs: seq<Path>)
    requires SortedPaths(ps) && SortedPaths(qs) && forall p, q | p in ps && q in qs :: Earlier(p, q)
    ensures SortedPaths(ps + qs)
  {
    forall i, j | 0 <= i < j < |ps + qs| ensures Earlier((ps + qs)[i], (ps + qs)[j]) {
      if i < |ps| <= j {
        assert ps[i] in ps && qs[j - |ps|] in qs;
      }
    }
  }

  lemma {:induction false} ExpandSorted(ps: seq<Path>, fan: nat, d: nat)
    requires SortedPaths(ps) && forall p | p in ps :: |p| == d
    ensures SortedPaths(Expand(ps, fan)) && forall q | q in Expand(ps, fan) :: |q| == d + 1
  {
    if ps != [] {
      var head, cs, rest := ps[0], Children(ps[0], fan), Expand(ps[1..], fan);
      ExpandSorted(ps[1..], fan, d);
      ChildrenSorted(head, fan);
      forall c, q | c in cs && q in rest ensures Earlier(c, q) {
        var i :| 0 <= i < fan && cs[i] == c;
        ChildrenFirst(head, ps[1..], fan, d, i, q);
      }
      SortedConcat(cs, rest);
    }
  }

  lemma ExpandIsNextLevel(ps: seq<Path>, d: nat, fan: nat, p: Path)
    requires forall q: Path :: q in ps <==> |q| == d && InTree(q, d, fan)
    ensures p in Expand(ps, fan) <==> |p| == d + 1 && InTree(p, d + 1, fan)
  {
    ExpandContains(ps, fan, p);
    if p != [] {
      assert p == Parent(p) + [p[|p| - 1]];
    }
  }

  /** The list is sorted and holds exactly the paths of length d. */
  ghost predicate ExactLevel(ps: seq<Path>, d: nat, fan: nat) {
    SortedPaths(ps) && forall p: Path :: p in ps <==> |p| == d && InTree(p, d, fan)
  }

  ghost predicate ExactTree(ps: seq<Path>, depth: nat, fan: nat) {
    SortedPaths(ps) && forall p: Path :: p in ps <==> InTree(p, depth, fan)
  }

  lemma NextLevel(ps: seq<Path>, d: nat, fan: nat)
    requires d > 0 && ExactLevel(ps, d - 1, fan)
    ensures ExactLevel(Expand(ps, fan), d, fan)
  {
    ExpandSorted(ps, fan, d - 1);
    forall p: Path ensures p in Expand(ps, fan) <==> |p| == d && InTree(p, d, fan) {
      ExpandIsNextLevel(ps, d - 1, fan, p);
    }
  }

  lemma {:induction false} LevelIsExact(d: nat, fan: nat)
    ensures ExactLevel(Level(d, fan), d, fan)
  {
    if d != 0 {
      LevelIsExact(d - 1, fan);
      NextLevel(Level(d - 1, fan), d, fan);
    }
  }

  lemma OneLevelDeeper(upper: seq<Path>, level: seq<Path>, depth: nat, fan: nat)
    requires depth > 0 && ExactTree(upper, depth - 1, fan) && ExactLevel(level, depth, fan)
    ensures ExactTree(upper + level, depth, fan)
  {
    SortedConcat(upper, level);
  }

  lemma TopLevel(ps: seq<Path>, fan: nat)
    requires ExactLevel(ps, 0, fan)
    ensures ExactTree(ps, 0, fan)
  {
    forall p: Path ensures p in ps <==> InTree(p, 0, fan) {}
  }

  lemma {:induction false} TreeIsExact(depth: nat, fan: nat)
    ensures ExactTree(LevelOrder(depth, fan), depth, fan)
  {
    LevelIsExact(depth, fan);
    if depth == 0 {
      TopLevel(Level(0, fan), fan);
    } else {
      TreeIsExact(depth - 1, fan);
      OneLevelDeeper(LevelOrder(depth - 1, fan), Level(depth, fan), depth, fan);
    }
  }

  /** The scan order lists exactly the tree's paths, in strictly sorted order. */
  lemma LevelOrderIsExact(depth: nat, fan: nat)
    ensures SortedPaths(LevelOrder(depth, fan))
    ensures forall p: Path :: p in LevelOrder(depth, fan) <==> InTree(p, depth, fan)
  {
    TreeIsExact(depth, fan);
  }

  lemma SortedPathsAreDistinct(ps: seq<Path>)
    requires SortedPaths(ps)
    ensures forall i, j | 0 <= i < j < |ps| :: ps[i] != ps[j]
  {
    forall i, j | 0 <= i < j < |ps| ensures ps[i] != ps[j] {
      assert Earlier(ps[i], ps[j]);
      LeftOfIrreflexive(ps[i]);
    }
  }

  function TreeSize(depth: nat, fan: nat): nat {
    |LevelOrder(depth, fan)|
  }

  function Pow(b: nat, e: nat): nat {
    if e == 0 then 1 else b * Pow(b, e - 1)
  }

  lemma {:induction false} ExpandLength(ps: seq<Path>, fan: nat)
    ensures |Expand(ps, fan)| == |ps| * fan
  {
    if ps != [] { ExpandLength(ps[1..], fan); }
  }

  lemma {:induction false} LevelLength(d: nat, fan: nat)
    ensures |Level(d, fan)| == Pow(fan, d)
  {
    if d != 0 {
      LevelLength(d - 1, fan);
      ExpandLength(Level(d - 1, fan), fan);
    }
  }

  /** The closed form of the tree size: (fan - 1) * N = fan^(depth + 1) - 1. */
  lemma {:induction false} TreeSizeClosedForm(depth: nat, fan: nat)
    ensures (fan - 1) * TreeSize(depth, fan) == Pow(fan, depth + 1) - 1
    ensures TreeSize(depth, 1) == depth + 1
  {
    LevelLength(depth, fan);
    LevelLength(depth, 1);
    PowOne(depth);
    if depth == 0 {
      assert Pow(fan, 1) == fan * Pow(fan, 0);
    } else {
      TreeSizeClosedForm(depth - 1, fan);
      OneMoreLevel(fan, TreeSize(depth - 1, fan), Pow(fan, depth));
    }
  }

  lemma OneMoreLevel(fan: nat, upper: nat, level: nat)
    ensures (fan - 1) * (upper + level) == (fan - 1) * upper + fan * level - level
  {
  }

  lemma {:induction false} PowOne(e: nat)
    ensures Pow(1, e) == 1
  {
    if e != 0 { PowOne(e - 1); }
  }

  // ----- Sums over distinct paths -----

  function Sum(ps: seq<Path>, f: Path -> nat): nat {
    if ps == [] then 0 else f(ps[0]) + Sum(ps[1..], f)
  }

  lemma {:induction false} SumSame(ps: seq<Path>, f: Path -> nat, g: Path -> nat)
    requires forall p | p in ps :: f(p) == g(p)
    ensures Sum(ps, f) == Sum(ps, g)
  {
    if ps != [] { SumSame(ps[1..], f, g); }
  }

  /** Two functions that differ only at q have sums that differ by that much. */
  lemma {:induction false} SumChange(ps: seq<Path>, f: Path -> nat, g: Path -> nat, q: Path)
    requires q in ps && forall i, j | 0 <= i < j < |ps| :: ps[i] != ps[j]
    requires forall p | p in ps && p != q :: f(p) == g(p)
    ensures Sum(ps, g) - Sum(ps, f) == g(q) - f(q)
  {
    if ps[0] == q {
      assert q !in ps[1..];
      SumSame(ps[1..], f, g);
    } else {
      SumChange(ps[1..], f, g, q);
    }
  }

  lemma {:induction false} SumBound(ps: seq<Path>, f: Path -> nat, k: nat)
    requires forall p | p in ps :: f(p) <= k
    ensures Sum(ps, f) <= k * |ps|
    ensures Sum(ps, f) == k * |ps| <==> forall p | p in ps :: f(p) == k
  {
    if ps != [] {
      SumBound(ps[1..], f, k);
      var rest := |ps[1..]|;
      assert k * |ps| == k * rest + k by { assert |ps| == rest + 1; }
      assert forall p :: p in ps <==> p == ps[0] || p in ps[1..];
    }
  }

  /** A sum of values none of which falls, one of which rises, rises. */
  lemma {:induction false} SumRises(ps: seq<Path>, f: Path -> nat, g: Path -> nat)
    requires forall p | p in ps :: f(p) <= g(p)
    ensures Sum(ps, f) <= Sum(ps, g)
    ensures (exists q :: q in ps && f(q) < g(q)) ==> Sum(ps, f) < Sum(ps, g)
  {
    if ps != [] {
      SumRises(ps[1..], f, g);
      assert forall q :: q in ps <==> q == ps[0] || q in ps[1..];
    }
  }
}
