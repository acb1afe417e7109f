/**
 * The node hierarchy of the Bridge example (TreeNode.cs, with the fields of its one
 * concrete subclass EnterpriseNode.cs).
 *
 * Nodes live in an arena: a node is named by its index, `parent` is the index of the
 * owning node (or `None` for a top node) and `children` lists child indices in order.
 * The C# objects link each other by reference and nothing checks that the links form a
 * tree; here that is the predicate `Valid`, which every traversal requires.
 */
module Tree {
  import opened Wrappers

  /** The closed set of node categories, in declaration order. */
  datatype NodeType = Department | Team | Project | Role | Employee

  /** One node: the TreeNode fields followed by the EnterpriseNode ones. */
  datatype Node = Node(
    id: int,
    name: string,
    nodeType: NodeType,
    parent: Option<nat>,
    children: seq<nat>,
    code: Option<string>,
    isActive: bool,
    isHidden: bool,
    description: Option<string>,
    metadata: map<string, string>)

  /** All nodes of a program run, indexed by position. */
  type Hierarchy = seq<Node>

  /** Following parent links from `i` reaches a parentless node within `fuel - 1` steps. */
  ghost predicate ReachesTop(h: Hierarchy, i: nat, fuel: nat)
    decreases fuel
  {
    i < |h| && fuel > 0 &&
    (h[i].parent.None? || ReachesTop(h, h[i].parent.value, fuel - 1))
  }

  /** Parent and child links agree, point into the arena, and no child is listed twice. */
  ghost predicate LinksConsistent(h: Hierarchy)
  {
    && (forall i | 0 <= i < |h| && h[i].parent.Some? ::
          h[i].parent.value < |h| && i in h[h[i].parent.value].children)
    && (forall i, k | 0 <= i < |h| && 0 <= k < |h[i].children| ::
          h[i].children[k] < |h| && h[h[i].children[k]].parent == Some(i))
    && (forall i, k1, k2 | 0 <= i < |h| && 0 <= k1 < k2 < |h[i].children| ::
          h[i].children[k1] != h[i].children[k2])
  }

  /** No parent chain runs in a circle: each reaches a top node. */
  ghost predicate Acyclic(h: Hierarchy)
  {
    forall i | 0 <= i < |h| :: ReachesTop(h, i, |h|)
  }

  /** The hierarchy is a forest whose links are consistent in both directions. */
  ghost predicate Valid(h: Hierarchy)
  {
    LinksConsistent(h) && Acyclic(h)
  }

  /** The number of parent steps from `i` to its top node, given enough fuel. */
  function LevelWithin(h: Hierarchy, i: nat, fuel: nat): (r: nat)
    requires ReachesTop(h, i, fuel)
    ensures r < fuel
    decreases fuel
  {
    if h[i].parent.None? then 0 else 1 + LevelWithin(h, h[i].parent.value, fuel - 1)
  }

  /** `TreeNode.Level`: the depth of node `i`, counted from the top of its hierarchy. */
  function Level(h: Hierarchy, i: nat): (r: nat)
    requires Valid(h) && i < |h|
    ensures r < |h|
  {
    LevelWithin(h, i, |h|)
  }

  /** More fuel changes neither reachability of the top nor the depth found. */
  lemma {:induction false} LevelWithinFuel(h: Hierarchy, i: nat, n: nat, m: nat)
    requires ReachesTop(h, i, n) && n <= m
    ensures ReachesTop(h, i, m)
    ensures LevelWithin(h, i, m) == LevelWithin(h, i, n)
    decreases n
  {
    if h[i].parent.Some? {
      LevelWithinFuel(h, h[i].parent.value, n - 1, m - 1);
    }
  }

  /** A node without a parent has Level 0; any other node is one deeper than its parent. */
  lemma LevelOfParent(h: Hierarchy, i: nat)
    requires Valid(h) && i < |h|
    ensures h[i].parent.None? <==> Level(h, i) == 0
    ensures h[i].parent.Some? ==>
      h[i].parent.value < |h| && Level(h, i) == Level(h, h[i].parent.value) + 1
  {
    if h[i].parent.Some? {
      var p := h[i].parent.value;
      assert ReachesTop(h, i, |h|);
      LevelWithinFuel(h, p, |h| - 1, |h|);
    }
  }

  /** A listed child is one level below the node that lists it. */
  lemma LevelOfChild(h: Hierarchy, p: nat, k: nat)
    requires Valid(h) && p < |h| && k < |h[p].children|
    ensures h[p].children[k] < |h| && h[h[p].children[k]].parent == Some(p)
    ensures Level(h, h[p].children[k]) == Level(h, p) + 1
  {
    LevelOfParent(h, h[p].children[k]);
  }

  /**
   * The sequence `TraverseUp` yields from `i`: the node itself, then each parent in turn,
   * up to and including the parentless top node.
   */
  function UpChain(h: Hierarchy, i: nat): (r: seq<nat>)
    requires Valid(h) && i < |h|
    ensures |r| == Level(h, i) + 1
    ensures r[0] == i
    ensures forall k :: 0 <= k < |r| ==> r[k] < |h|
    decreases Level(h, i)
  {
    LevelOfParent(h, i);
    if h[i].parent.None? then [i] else [i] + UpChain(h, h[i].parent.value)
  }

  /**
   * The upward walk, step by step: entry `k` is `k` levels above the start, each entry's
   * parent is the next entry, and the last entry has no parent.
   */
  lemma {:induction false} UpChainShape(h: Hierarchy, i: nat)
    requires Valid(h) && i < |h|
    ensures var r := UpChain(h, i);
      && (forall k :: 0 <= k < |r| ==> Level(h, r[k]) == Level(h, i) - k)
      && (forall k :: 0 <= k < |r| - 1 ==> h[r[k]].parent == Some(r[k + 1]))
      && h[r[|r| - 1]].parent.None?
    decreases Level(h, i)
  {
    LevelOfParent(h, i);
    if h[i].parent.Some? {
      var p := h[i].parent.value;
      UpChainShape(h, p);
      var r, q := UpChain(h, i), UpChain(h, p);
      assert r == [i] + q;
      forall k | 1 <= k < |r| ensures Level(h, r[k]) == Level(h, i) - k {
        assert r[k] == q[k - 1];
      }
      forall k | 1 <= k < |r| - 1 ensures h[r[k]].parent == Some(r[k + 1]) {
        assert r[k] == q[k - 1] && r[k + 1] == q[k];
      }
    }
  }

  /** `TreeNode.TraverseUp`: walks `current` along parent links until there is none. */
  method TraverseUp(h: Hierarchy, start: nat) returns (r: seq<nat>)
    requires Valid(h) && start < |h|
    ensures r == UpChain(h, start)
  {
    r := [];
    var current: Option<nat> := Some(start);
    while current.Some?
      invariant current.Some? ==> current.value < |h| && r + UpChain(h, current.value) == UpChain(h, start)
      invariant current.None? ==> r == UpChain(h, start)
      decreases if current.Some? then Level(h, current.value) + 1 else 0
    {
      var node := current.value;
      LevelOfParent(h, node);
      ghost var rest := UpChain(h, node);
      if h[node].parent.Some? {
        assert rest == [node] + UpChain(h, h[node].parent.value);
      }
      r := r + [node];
      current := h[node].parent;
    }
  }

  /**
   * `TreeNode.TraverseDown`: pre-order, depth first: the node itself, then the downward
   * traversal of each child in `children` order.
   */
  function TraverseDown(h: Hierarchy, i: nat): (r: seq<nat>)
    requires Valid(h) && i < |h|
    ensures |r| >= 1 && r[0] == i
    ensures forall x :: x in r ==> x < |h|
    decreases |h| - Level(h, i), 1
  {
    [i] + DownFrom(h, i, 0)
  }

  /** The downward traversals of children `k`, `k + 1`, ... of node `p`, concatenated. */
  function DownFrom(h: Hierarchy, p: nat, k: nat): (r: seq<nat>)
    requires Valid(h) && p < |h| && k <= |h[p].children|
    ensures forall x :: x in r ==> x < |h|
    decreases |h| - Level(h, p), 0, |h[p].children| - k
  {
    if k == |h[p].children| then []
    else
      LevelOfChild(h, p, k);
      TraverseDown(h, h[p].children[k]) + DownFrom(h, p, k + 1)
  }

  /** `TreeNode.Traverse`, which hands back `TraverseDown` unchanged. */
  function Traverse(h: Hierarchy, root: nat): (r: seq<nat>)
    requires Valid(h) && root < |h|
    ensures r == TraverseDown(h, root)
  {
    TraverseDown(h, root)
  }

  /** `x` lies in the subtree of `root`: `root` is `x` itself or one of `x`'s ancestors. */
  ghost predicate InSubtree(h: Hierarchy, root: nat, x: nat)
    requires Valid(h)
  {
    x < |h| && root in UpChain(h, x)
  }

  /** No element of `s` occurs twice. */
  ghost predicate NoDuplicates<T>(s: seq<T>)
  {
    forall a, b | 0 <= a < b < |s| :: s[a] != s[b]
  }

  /** Two nodes on one upward walk that have the same Level are the same node. */
  lemma OneNodePerLevel(h: Hierarchy, x: nat, a: nat, b: nat)
    requires Valid(h) && x < |h|
    requires a in UpChain(h, x) && b in UpChain(h, x)
    requires a < |h| && b < |h| && Level(h, a) == Level(h, b)
    ensures a == b
  {
    UpChainShape(h, x);
    var r := UpChain(h, x);
    var ma :| 0 <= ma < |r| && r[ma] == a;
    var mb :| 0 <= mb < |r| && r[mb] == b;
  }

  /** A node's ancestors are no deeper than it. */
  lemma LevelAlongUpChain(h: Hierarchy, x: nat, a: nat)
    requires Valid(h) && x < |h| && a in UpChain(h, x)
    ensures a < |h| && Level(h, a) <= Level(h, x)
  {
    UpChainShape(h, x);
    var r := UpChain(h, x);
    var m :| 0 <= m < |r| && r[m] == a;
  }

  /** Every subtree of child `j >= k` of `p` is part of `DownFrom(h, p, k)`. */
  lemma {:induction false} DownFromCovers(h: Hierarchy, p: nat, k: nat, j: nat, x: nat)
    requires Valid(h) && p < |h| && k <= j < |h[p].children|
    requires h[p].children[j] < |h| && x in TraverseDown(h, h[p].children[j])
    ensures x in DownFrom(h, p, k)
    decreases j - k
  {
    if k < j {
      DownFromCovers(h, p, k + 1, j, x);
    }
  }

  /** Every node of `DownFrom(h, p, k)` comes from the subtree of some child `j >= k` of `p`. */
  lemma {:induction false} DownFromOrigin(h: Hierarchy, p: nat, k: nat, x: nat) returns (j: nat)
    requires Valid(h) && p < |h| && k <= |h[p].children|
    requires x in DownFrom(h, p, k)
    ensures k <= j < |h[p].children| && h[p].children[j] < |h|
    ensures x in TraverseDown(h, h[p].children[j])
    decreases |h[p].children| - k
  {
    LevelOfChild(h, p, k);
    if x in TraverseDown(h, h[p].children[k]) {
      j := k;
    } else {
      j := DownFromOrigin(h, p, k + 1, x);
    }
  }

  /** Everything `TraverseDown` lists from `i` lies in the subtree of `i`. */
  lemma {:induction false} DownSound(h: Hierarchy, i: nat, x: nat)
    requires Valid(h) && i < |h| && x in TraverseDown(h, i)
    ensures InSubtree(h, i, x)
    decreases |h| - Level(h, i)
  {
    if x != i {
      var j := DownFromOrigin(h, i, 0, x);
      var c := h[i].children[j];
      LevelOfChild(h, i, j);
      DownSound(h, c, x);
      UpChainShape(h, x);
      var r := UpChain(h, x);
      var m :| 0 <= m < |r| && r[m] == c;
      assert m < |r| - 1;
      assert r[m + 1] == i;
    }
  }

  /** Every node whose upward walk passes `i` at step `m` is listed by `TraverseDown` from `i`. */
  lemma {:induction false} DownComplete(h: Hierarchy, i: nat, x: nat, m: nat)
    requires Valid(h) && x < |h|
    requires m < |UpChain(h, x)| && UpChain(h, x)[m] == i
    ensures i < |h| && x in TraverseDown(h, i)
    decreases m
  {
    UpChainShape(h, x);
    var r := UpChain(h, x);
    if m > 0 {
      var c := r[m - 1];
      assert h[c].parent == Some(i);
      DownComplete(h, c, x, m - 1);
      assert c in h[i].children;
      var j :| 0 <= j < |h[i].children| && h[i].children[j] == c;
      DownFromCovers(h, i, 0, j, x);
    }
  }

  /** `TraverseDown` from `i` lists exactly the nodes of the subtree of `i`. */
  lemma DownMembers(h: Hierarchy, i: nat)
    requires Valid(h) && i < |h|
    ensures forall x :: x in TraverseDown(h, i) <==> InSubtree(h, i, x)
  {
    forall x ensures x in TraverseDown(h, i) <==> InSubtree(h, i, x) {
      if x in TraverseDown(h, i) {
        DownSound(h, i, x);
      }
      if InSubtree(h, i, x) {
        var r := UpChain(h, x);
        var m :| 0 <= m < |r| && r[m] == i;
        DownComplete(h, i, x, m);
      }
    }
  }

  /** Concatenating two duplicate-free sequences with no common element is duplicate-free. */
  lemma NoDuplicatesConcat<T>(a: seq<T>, b: seq<T>)
    requires NoDuplicates(a) && NoDuplicates(b)
    requires forall x :: x in a ==> x !in b
    ensures NoDuplicates(a + b)
  {
    var s := a + b;
    forall u, v | 0 <= u < v < |s| ensures s[u] != s[v] {
      if u < |a| && v >= |a| {
        assert s[u] in a && s[v] == b[v - |a|];
      }
    }
  }

  /** `TraverseDown` lists no node twice. */
  lemma {:induction false} DownDistinct(h: Hierarchy, i: nat)
    requires Valid(h) && i < |h|
    ensures NoDuplicates(TraverseDown(h, i))
    decreases |h| - Level(h, i), 1
  {
    DownFromDistinct(h, i, 0);
    forall x | x in DownFrom(h, i, 0) ensures x != i {
      var j := DownFromOrigin(h, i, 0, x);
      var c := h[i].children[j];
      LevelOfChild(h, i, j);
      DownSound(h, c, x);
      LevelAlongUpChain(h, x, c);
      LevelAlongUpChain(h, x, x);
    }
    NoDuplicatesConcat([i], DownFrom(h, i, 0));
  }

  /** The subtrees of distinct children are disjoint, so `DownFrom` lists no node twice. */
  lemma {:induction false} DownFromDistinct(h: Hierarchy, p: nat, k: nat)
    requires Valid(h) && p < |h| && k <= |h[p].children|
    ensures NoDuplicates(DownFrom(h, p, k))
    decreases |h| - Level(h, p), 0, |h[p].children| - k
  {
    if k < |h[p].children| {
      var c := h[p].children[k];
      LevelOfChild(h, p, k);
      DownDistinct(h, c);
      DownFromDistinct(h, p, k + 1);
      forall x | x in TraverseDown(h, c) ensures x !in DownFrom(h, p, k + 1) {
        if x in DownFrom(h, p, k + 1) {
          var j := DownFromOrigin(h, p, k + 1, x);
          var d := h[p].children[j];
          LevelOfChild(h, p, j);
          DownSound(h, c, x);
          DownSound(h, d, x);
          OneNodePerLevel(h, x, c, d);
          assert false;
        }
      }
      NoDuplicatesConcat(TraverseDown(h, c), DownFrom(h, p, k + 1));
    }
  }

  /** A duplicate-free sequence has as many elements as its set of elements. */
  lemma {:induction false} DistinctCardinality<T>(s: seq<T>)
    requires NoDuplicates(s)
    ensures |set x | x in s| == |s|
  {
    if s != [] {
      var t := s[1..];
      assert NoDuplicates(t) by {
        forall u, v | 0 <= u < v < |t| ensures t[u] != t[v] {
          assert t[u] == s[u + 1] && t[v] == s[v + 1];
        }
      }
      DistinctCardinality(t);
      var all, rest := set x | x in s, set x | x in t;
      assert all == {s[0]} + rest;
      assert s[0] !in rest;
      assert |all| == |rest| + 1;
    } else {
      assert (set x | x in s) == {};
    }
  }

  /**
   * On a valid hierarchy `TraverseDown` lists every node of the subtree exactly once:
   * its elements are the subtree's nodes, none repeated, so its length is the subtree's size.
   */
  lemma SubtreeListedOnce(h: Hierarchy, i: nat)
    requires Valid(h) && i < |h|
    ensures forall x :: x in TraverseDown(h, i) <==> InSubtree(h, i, x)
    ensures NoDuplicates(TraverseDown(h, i))
    ensures |TraverseDown(h, i)| == |set x: nat | x < |h| && InSubtree(h, i, x)|
  {
    var r := TraverseDown(h, i);
    DownMembers(h, i);
    DownDistinct(h, i);
    DistinctCardinality(r);
    var listed, subtree := set x: nat | x in r, set x: nat | x < |h| && InSubtree(h, i, x);
    assert |listed| == |r|;
    assert listed == subtree;
  }
}
