/**
 * The four views of the Bridge example (the Views directory). Each picks a candidate sequence of
 * nodes and keeps, in order, those that pass its filter, as LINQ's `Where` does; the lazy
 * C# sequences are materialised here as `seq`s of node indices.
 */
module TreeViews {
  import opened Wrappers
  import opened Tree
  import opened Strings
  import opened ViewOptions

  /** LINQ `Where` over node indices: the elements of `s` that satisfy `keep`, in their original order. */
  function Where(s: seq<nat>, keep: nat -> bool): (r: seq<nat>)
    ensures |r| <= |s|
    ensures forall x :: x in r <==> x in s && keep(x)
    ensures forall k :: 0 <= k < |r| ==> r[k] in s && keep(r[k])
  {
    if s == [] then [] else (if keep(s[0]) then [s[0]] else []) + Where(s[1..], keep)
  }

  /** Filtering a concatenation filters each part. */
  lemma {:induction false} WhereConcat(a: seq<nat>, b: seq<nat>, keep: nat -> bool)
    ensures Where(a + b, keep) == Where(a, keep) + Where(b, keep)
  {
    if a == [] {
      assert a + b == b;
    } else {
      assert (a + b)[1..] == a[1..] + b;
      WhereConcat(a[1..], b, keep);
      var head := if keep(a[0]) then [a[0]] else [];
      calc {
        Where(a + b, keep);
        head + Where(a[1..] + b, keep);
        head + (Where(a[1..], keep) + Where(b, keep));
        (head + Where(a[1..], keep)) + Where(b, keep);
        Where(a, keep) + Where(b, keep);
      }
    }
  }

  /** Two filters that agree on every element of `s` select the same subsequence. */
  lemma {:induction false} WhereAgree(s: seq<nat>, f: nat -> bool, g: nat -> bool)
    requires forall x :: x in s ==> f(x) == g(x)
    ensures Where(s, f) == Where(s, g)
  {
    if s != [] {
      WhereAgree(s[1..], f, g);
    }
  }

  /** A filter that keeps every element of `s` returns `s` unchanged. */
  lemma {:induction false} WhereAll(s: seq<nat>, keep: nat -> bool)
    requires forall x :: x in s ==> keep(x)
    ensures Where(s, keep) == s
  {
    if s != [] {
      WhereAll(s[1..], keep);
      assert [s[0]] + s[1..] == s;
    }
  }

  /** A filter that keeps no element of `s` returns the empty sequence. */
  lemma {:induction false} WhereNone(s: seq<nat>, keep: nat -> bool)
    requires forall x :: x in s ==> !keep(x)
    ensures Where(s, keep) == []
  {
    if s != [] {
      WhereNone(s[1..], keep);
    }
  }

  /** Every position in `pos`, one further on. */
  function Shifted(pos: seq<nat>): (r: seq<nat>)
    ensures |r| == |pos| && forall k :: 0 <= k < |r| ==> r[k] == pos[k] + 1
  {
    if pos == [] then [] else [pos[0] + 1] + Shifted(pos[1..])
  }

  /** The positions `pos` of `s` hold `r`, in strictly increasing order. */
  ghost predicate IsSubsequenceAt(r: seq<nat>, s: seq<nat>, pos: seq<nat>)
  {
    && |pos| == |r|
    && (forall k :: 0 <= k < |pos| ==> pos[k] < |s| && s[pos[k]] == r[k])
    && (forall a, b :: 0 <= a < b < |pos| ==> pos[a] < pos[b])
  }

  /** Filtering the tail of `s` picks positions of `s` one further on. */
  lemma SubsequenceOfTail(r: seq<nat>, s: seq<nat>, pos: seq<nat>)
    requires s != [] && IsSubsequenceAt(r, s[1..], pos)
    ensures IsSubsequenceAt(r, s, Shifted(pos))
    ensures forall k :: 0 <= k < |pos| ==> Shifted(pos)[k] > 0
  {
    var sh := Shifted(pos);
    forall k | 0 <= k < |sh| ensures sh[k] < |s| && s[sh[k]] == r[k] {
      assert sh[k] == pos[k] + 1 && s[1..][pos[k]] == r[k];
    }
    forall a, b | 0 <= a < b < |sh| ensures sh[a] < sh[b] {
      assert pos[a] < pos[b];
    }
  }

  /** Putting the head of `s` in front adds position 0. */
  lemma SubsequenceWithHead(r: seq<nat>, s: seq<nat>, pos: seq<nat>)
    requires s != [] && IsSubsequenceAt(r, s, pos)
    requires forall k :: 0 <= k < |pos| ==> pos[k] > 0
    ensures IsSubsequenceAt([s[0]] + r, s, [0] + pos)
  {
    var r', pos' := [s[0]] + r, [0] + pos;
    forall k | 1 <= k < |pos'| ensures pos'[k] < |s| && s[pos'[k]] == r'[k] {
      assert pos'[k] == pos[k - 1] && r'[k] == r[k - 1];
    }
    forall a, b | 0 <= a < b < |pos'| ensures pos'[a] < pos'[b] {
      if a > 0 {
        assert pos'[a] == pos[a - 1] && pos'[b] == pos[b - 1];
      }
    }
  }

  /**
   * `Where` picks a subsequence: the `k`-th kept element sits at position `pos[k]` of the
   * input, and those positions strictly increase.
   */
  lemma {:induction false} WherePositions(s: seq<nat>, keep: nat -> bool) returns (pos: seq<nat>)
    ensures IsSubsequenceAt(Where(s, keep), s, pos)
  {
    if s == [] {
      pos := [];
    } else {
      var rest := WherePositions(s[1..], keep);
      SubsequenceOfTail(Where(s[1..], keep), s, rest);
      if keep(s[0]) {
        assert Where(s, keep) == [s[0]] + Where(s[1..], keep);
        SubsequenceWithHead(Where(s[1..], keep), s, Shifted(rest));
        pos := [0] + Shifted(rest);
      } else {
        assert Where(s, keep) == Where(s[1..], keep);
        pos := Shifted(rest);
      }
    }
  }

  /** Filtering a duplicate-free sequence gives a duplicate-free sequence. */
  lemma {:induction false} WhereNoDuplicates(s: seq<nat>, keep: nat -> bool)
    requires NoDuplicates(s)
    ensures NoDuplicates(Where(s, keep))
  {
    if s != [] {
      var t := s[1..];
      assert NoDuplicates(t) by {
        forall a, b | 0 <= a < b < |t| ensures t[a] != t[b] {
          assert t[a] == s[a + 1] && t[b] == s[b + 1];
        }
      }
      WhereNoDuplicates(t, keep);
      assert s[0] !in t;
      if keep(s[0]) {
        NoDuplicatesConcat([s[0]], Where(t, keep));
      }
    }
  }

  /** `string.IsNullOrEmpty(SearchTerm)`. */
  predicate NoSearchTerm(term: Option<string>)
  {
    term.None? || term.value == ""
  }

  /** The search clause shared by all views: no term, or the name contains it ignoring case. */
  predicate SearchMatches(name: string, term: Option<string>)
  {
    NoSearchTerm(term) || ContainsIgnoreCase(name, term.value)
  }

  /** AncestorTreeView's filter: not a top node, a permitted category, and a name match. */
  predicate AncestorKeeps(h: Hierarchy, o: TreeViewOptions, x: nat)
    requires Valid(h)
  {
    x < |h| && Level(h, x) > 0 && h[x].nodeType in o.includedTypes
      && SearchMatches(h[x].name, o.searchTerm)
  }

  /** The filter of DescendantsTreeView and FilteredTreeView: category, absolute depth, name. */
  predicate DepthKeeps(h: Hierarchy, o: TreeViewOptions, x: nat)
    requires Valid(h)
  {
    x < |h| && h[x].nodeType in o.includedTypes && Level(h, x) <= o.maxDepth
      && SearchMatches(h[x].name, o.searchTerm)
  }

  /** SiblingTreeView's filter: category and name only. */
  predicate SiblingKeeps(h: Hierarchy, o: TreeViewOptions, x: nat)
  {
    x < |h| && h[x].nodeType in o.includedTypes && SearchMatches(h[x].name, o.searchTerm)
  }

  /** The three filters as the functions `Where` applies. */
  function AncestorFilter(h: Hierarchy, o: TreeViewOptions): nat -> bool
    requires Valid(h)
  {
    (x: nat) => AncestorKeeps(h, o, x)
  }

  function DepthFilter(h: Hierarchy, o: TreeViewOptions): nat -> bool
    requires Valid(h)
  {
    (x: nat) => DepthKeeps(h, o, x)
  }

  function SiblingFilter(h: Hierarchy, o: TreeViewOptions): nat -> bool
  {
    (x: nat) => SiblingKeeps(h, o, x)
  }

  /** `AncestorTreeView.GetNodes`: the upward walk from `root`, filtered. */
  function AncestorView(h: Hierarchy, root: nat, o: TreeViewOptions): (r: seq<nat>)
    requires Valid(h) && root < |h|
    ensures forall k :: 0 <= k < |r| ==> r[k] < |h|
    ensures forall x :: x in r <==> x in UpChain(h, root) && AncestorKeeps(h, o, x)
    ensures forall x :: x in r ==> h[x].nodeType in o.includedTypes && Level(h, x) > 0
  {
    Where(UpChain(h, root), AncestorFilter(h, o))
  }

  /** `DescendantsTreeView.GetNodes`: the pre-order walk from `root`, filtered. */
  function DescendantsView(h: Hierarchy, root: nat, o: TreeViewOptions): (r: seq<nat>)
    requires Valid(h) && root < |h|
    ensures forall k :: 0 <= k < |r| ==> r[k] < |h|
    ensures forall x :: x in r <==> x in TraverseDown(h, root) && DepthKeeps(h, o, x)
    ensures forall x :: x in r ==> h[x].nodeType in o.includedTypes && Level(h, x) <= o.maxDepth
  {
    Where(TraverseDown(h, root), DepthFilter(h, o))
  }

  /** `FilteredTreeView.GetNodes`: `Traverse()` from `root` under the same filter. */
  function FilteredView(h: Hierarchy, root: nat, o: TreeViewOptions): (r: seq<nat>)
    requires Valid(h) && root < |h|
    ensures forall k :: 0 <= k < |r| ==> r[k] < |h|
    ensures forall x :: x in r <==> x in Traverse(h, root) && DepthKeeps(h, o, x)
  {
    Where(Traverse(h, root), DepthFilter(h, o))
  }

  /**
   * `SiblingTreeView.GetNodes`: a parentless `root` alone, unfiltered; otherwise the
   * children of `root`'s parent that pass the category and name filters.
   */
  function SiblingView(h: Hierarchy, root: nat, o: TreeViewOptions): (r: seq<nat>)
    requires Valid(h) && root < |h|
    ensures forall k :: 0 <= k < |r| ==> r[k] < |h|
    ensures h[root].parent.None? ==> r == [root]
    ensures h[root].parent.Some? ==> forall x ::
      x in r <==> x in h[h[root].parent.value].children && SiblingKeeps(h, o, x)
  {
    if h[root].parent.None? then [root]
    else Where(h[h[root].parent.value].children, SiblingFilter(h, o))
  }

  /** The `ITreeView` implementations. */
  datatype TreeView = AncestorTreeView | DescendantsTreeView | FilteredTreeView | SiblingTreeView

  /**
   * `ITreeView.GetNodes`, dispatched on the implementation. Every view returns nodes of the
   * hierarchy that pass its category and name filters, except the Sibling view on a
   * parentless node, which returns that node alone.
   */
  function GetNodes(view: TreeView, h: Hierarchy, root: nat, o: TreeViewOptions): (r: seq<nat>)
    requires Valid(h) && root < |h|
    ensures forall k :: 0 <= k < |r| ==> r[k] < |h|
    ensures view == SiblingTreeView && h[root].parent.None? ==> r == [root]
    ensures !(view == SiblingTreeView && h[root].parent.None?) ==> forall x :: x in r ==>
      x < |h| && h[x].nodeType in o.includedTypes && SearchMatches(h[x].name, o.searchTerm)
    ensures view == AncestorTreeView ==> forall x :: x in r ==> x in UpChain(h, root)
    ensures view != AncestorTreeView && view != SiblingTreeView ==> forall x :: x in r ==>
      x in TraverseDown(h, root) && Level(h, x) <= o.maxDepth
  {
    match view
    case AncestorTreeView => AncestorView(h, root, o)
    case DescendantsTreeView => DescendantsView(h, root, o)
    case FilteredTreeView => FilteredView(h, root, o)
    case SiblingTreeView => SiblingView(h, root, o)
  }

  // ----- Ancestor view -----

  /** The Ancestor result keeps the walk's order: nearer nodes (deeper Level) come first. */
  lemma AncestorOrder(h: Hierarchy, root: nat, o: TreeViewOptions)
    requires Valid(h) && root < |h|
    ensures var r := AncestorView(h, root, o);
      forall a, b :: 0 <= a < b < |r| ==> Level(h, r[a]) > Level(h, r[b])
  {
    var up := UpChain(h, root);
    UpChainShape(h, root);
    var pos := WherePositions(up, AncestorFilter(h, o));
  }

  /** Starting at a parentless node the Ancestor view is empty: the top node never appears. */
  lemma AncestorOfTopIsEmpty(h: Hierarchy, root: nat, o: TreeViewOptions)
    requires Valid(h) && root < |h| && h[root].parent.None?
    ensures AncestorView(h, root, o) == []
  {
    LevelOfParent(h, root);
    assert UpChain(h, root) == [root];
  }

  /**
   * The start node itself heads the Ancestor result exactly when it is below the top and
   * passes the category and name filters.
   */
  lemma AncestorStartsWithRoot(h: Hierarchy, root: nat, o: TreeViewOptions)
    requires Valid(h) && root < |h|
    ensures var r := AncestorView(h, root, o);
      (root in r <==> Level(h, root) > 0 && h[root].nodeType in o.includedTypes
                        && SearchMatches(h[root].name, o.searchTerm))
      && (root in r ==> r[0] == root)
  {
    var up := UpChain(h, root);
    var keep := AncestorFilter(h, o);
    if keep(root) {
      assert up == [root] + up[1..];
      WhereConcat([root], up[1..], keep);
    }
  }

  /** MaxDepth and the two visibility flags have no effect on the Ancestor view. */
  lemma AncestorIgnoresDepthAndFlags(h: Hierarchy, root: nat, o: TreeViewOptions,
                                     depth: int, hidden: bool, inactive: bool)
    requires Valid(h) && root < |h|
    ensures AncestorView(h, root, o)
         == AncestorView(h, root, o.(maxDepth := depth, includeHidden := hidden, includeInactive := inactive))
  {
    var o' := o.(maxDepth := depth, includeHidden := hidden, includeInactive := inactive);
    WhereAgree(UpChain(h, root), AncestorFilter(h, o), AncestorFilter(h, o'));
  }

  // ----- Descendants and Filtered views -----

  /**
   * The Descendants result lists each qualifying node of the subtree exactly once, so it is
   * no longer than the traversal, and it starts with `root` whenever `root` qualifies.
   */
  lemma DescendantsShape(h: Hierarchy, root: nat, o: TreeViewOptions)
    requires Valid(h) && root < |h|
    ensures var r := DescendantsView(h, root, o);
      && (forall x :: x in r <==> InSubtree(h, root, x) && DepthKeeps(h, o, x))
      && NoDuplicates(r)
      && |r| <= |TraverseDown(h, root)|
      && (DepthKeeps(h, o, root) ==> r[0] == root)
  {
    var down := TraverseDown(h, root);
    var keep := DepthFilter(h, o);
    SubtreeListedOnce(h, root);
    WhereNoDuplicates(down, keep);
    if keep(root) {
      assert down == [root] + down[1..];
      WhereConcat([root], down[1..], keep);
    }
  }

  /**
   * The Descendants result keeps pre-order: it is a subsequence of the downward walk,
   * its `k`-th node taken from position `pos[k]`, positions strictly increasing.
   */
  lemma DescendantsKeepPreOrder(h: Hierarchy, root: nat, o: TreeViewOptions) returns (pos: seq<nat>)
    requires Valid(h) && root < |h|
    ensures IsSubsequenceAt(DescendantsView(h, root, o), TraverseDown(h, root), pos)
  {
    pos := WherePositions(TraverseDown(h, root), DepthFilter(h, o));
  }

  /** Below the top, the Sibling view keeps the parent's Children order. */
  lemma SiblingKeepsChildOrder(h: Hierarchy, root: nat, o: TreeViewOptions) returns (pos: seq<nat>)
    requires Valid(h) && root < |h| && h[root].parent.Some?
    ensures IsSubsequenceAt(SiblingView(h, root, o), h[h[root].parent.value].children, pos)
  {
    pos := WherePositions(h[h[root].parent.value].children, SiblingFilter(h, o));
  }

  /** The Filtered view returns exactly what the Descendants view returns. */
  lemma FilteredIsDescendants(h: Hierarchy, root: nat, o: TreeViewOptions)
    requires Valid(h) && root < |h|
    ensures FilteredView(h, root, o) == DescendantsView(h, root, o)
  {
  }

  /** The two visibility flags have no effect on the Descendants (and so the Filtered) view. */
  lemma DescendantsIgnoreFlags(h: Hierarchy, root: nat, o: TreeViewOptions, hidden: bool, inactive: bool)
    requires Valid(h) && root < |h|
    ensures DescendantsView(h, root, o)
         == DescendantsView(h, root, o.(includeHidden := hidden, includeInactive := inactive))
  {
    var o' := o.(includeHidden := hidden, includeInactive := inactive);
    WhereAgree(TraverseDown(h, root), DepthFilter(h, o), DepthFilter(h, o'));
  }

  // ----- Sibling view -----

  /**
   * With a parent, the start node is in the Sibling result exactly when it passes the
   * category and name filters; the result lists no node twice.
   */
  lemma SiblingContainsRoot(h: Hierarchy, root: nat, o: TreeViewOptions)
    requires Valid(h) && root < |h| && h[root].parent.Some?
    ensures var r := SiblingView(h, root, o);
      (root in r <==> SiblingKeeps(h, o, root)) && NoDuplicates(r)
  {
    var siblings := h[h[root].parent.value].children;
    assert NoDuplicates(siblings);
    WhereNoDuplicates(siblings, SiblingFilter(h, o));
  }

  /** MaxDepth and the two visibility flags have no effect on the Sibling view. */
  lemma SiblingIgnoresDepthAndFlags(h: Hierarchy, root: nat, o: TreeViewOptions,
                                    depth: int, hidden: bool, inactive: bool)
    requires Valid(h) && root < |h|
    ensures SiblingView(h, root, o)
         == SiblingView(h, root, o.(maxDepth := depth, includeHidden := hidden, includeInactive := inactive))
  {
    var o' := o.(maxDepth := depth, includeHidden := hidden, includeInactive := inactive);
    if h[root].parent.Some? {
      var siblings := h[h[root].parent.value].children;
      WhereAgree(siblings, SiblingFilter(h, o), SiblingFilter(h, o'));
    }
  }

  // ----- Properties every view shares -----

  /**
   * With a non-empty search term, every node a view returns has a name containing the term,
   * ignoring case, except in one case: the Sibling view on a parentless node, which returns
   * that node unfiltered.
   */
  lemma SearchTermRespected(view: TreeView, h: Hierarchy, root: nat, o: TreeViewOptions)
    requires Valid(h) && root < |h|
    requires o.searchTerm.Some? && o.searchTerm.value != ""
    requires view == SiblingTreeView ==> h[root].parent.Some?
    ensures forall x :: x in GetNodes(view, h, root, o) ==>
      x < |h| && ContainsIgnoreCase(h[x].name, o.searchTerm.value)
  {
  }

  /** The Descendants and Filtered views never return a node deeper than MaxDepth. */
  lemma DepthLimitRespected(view: TreeView, h: Hierarchy, root: nat, o: TreeViewOptions)
    requires Valid(h) && root < |h|
    requires view == DescendantsTreeView || view == FilteredTreeView
    ensures forall x :: x in GetNodes(view, h, root, o) ==> x < |h| && Level(h, x) <= o.maxDepth
  {
  }
}
