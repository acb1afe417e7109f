/**
 * The hierarchy the Bridge tree tests build, and what each view returns on it:
 *
 *   0 Enterprise Corp (Department)
 *   1   Engineering (Department)
 *   2     Backend Team (Team)
 *   4       API Project (Project)
 *   3     Frontend Team (Team)
 *   5       Web Project (Project)
 */
module TreeExamples {
  import opened Wrappers
  import opened Tree
  import opened Strings
  import opened ViewOptions
  import opened TreeViews
  import EnterpriseNodes

  /** A node as the tests create it: constructor defaults, then an id and its links. */
  function TestNode(id: int, name: string, t: NodeType, parent: Option<nat>, children: seq<nat>): Node
  {
    Node(id, name, t, parent, children, None, true, false, None, map[])
  }

  function Sample(): Hierarchy
  {
    [ TestNode(1, "Enterprise Corp", Department, None, [1]),
      TestNode(2, "Engineering", Department, Some(0), [2, 3]),
      TestNode(3, "Backend Team", Team, Some(1), [4]),
      TestNode(4, "Frontend Team", Team, Some(1), [5]),
      TestNode(5, "API Project", Project, Some(2), []),
      TestNode(6, "Web Project", Project, Some(3), []) ]
  }

  /** Parent and child links of the sample agree. */
  lemma SampleLinks()
    ensures LinksConsistent(Sample())
  {
    var h := Sample();
    assert h[0].parent == None && h[0].children == [1];
    assert h[1].parent == Some(0) && h[1].children == [2, 3];
    assert h[2].parent == Some(1) && h[2].children == [4];
    assert h[3].parent == Some(1) && h[3].children == [5];
    assert h[4].parent == Some(2) && h[4].children == [];
    assert h[5].parent == Some(3) && h[5].children == [];
    forall i | 0 <= i < |h| && h[i].parent.Some?
      ensures h[i].parent.value < |h| && i in h[h[i].parent.value].children
    {
      assert i == 1 || i == 2 || i == 3 || i == 4 || i == 5;
      if i == 3 {
        assert h[1].children[1] == 3;
      }
    }
    forall i, k | 0 <= i < |h| && 0 <= k < |h[i].children|
      ensures h[i].children[k] < |h| && h[h[i].children[k]].parent == Some(i)
    {
      assert i == 0 || i == 1 || i == 2 || i == 3;
    }
    forall i, k1, k2 | 0 <= i < |h| && 0 <= k1 < k2 < |h[i].children|
      ensures h[i].children[k1] != h[i].children[k2]
    {
      assert i == 1 && k1 == 0 && k2 == 1;
    }
  }

  /** Every parent chain of the sample reaches the top node. */
  lemma SampleAcyclic()
    ensures Acyclic(Sample())
  {
    var h := Sample();
    assert h[0].parent == None && h[1].parent == Some(0);
    assert h[2].parent == Some(1) && h[3].parent == Some(1);
    assert h[4].parent == Some(2) && h[5].parent == Some(3);
    assert ReachesTop(h, 0, 3);
    assert ReachesTop(h, 1, 4);
    assert ReachesTop(h, 2, 5) && ReachesTop(h, 3, 5);
    assert ReachesTop(h, 4, 6) && ReachesTop(h, 5, 6);
  }

  /** The sample is a valid hierarchy, with the levels its shape suggests. */
  lemma SampleValid()
    ensures Valid(Sample())
    ensures Level(Sample(), 0) == 0 && Level(Sample(), 1) == 1
    ensures Level(Sample(), 2) == 2 && Level(Sample(), 3) == 2
    ensures Level(Sample(), 4) == 3 && Level(Sample(), 5) == 3
  {
    var h := Sample();
    SampleLinks();
    SampleAcyclic();
    assert h[0].parent == None && h[1].parent == Some(0);
    assert h[2].parent == Some(1) && h[3].parent == Some(1);
    assert h[4].parent == Some(2) && h[5].parent == Some(3);
    LevelOfParent(h, 0);
    LevelOfParent(h, 1);
    LevelOfParent(h, 2);
    LevelOfParent(h, 3);
    LevelOfParent(h, 4);
    LevelOfParent(h, 5);
  }

  /** The downward walks from the two projects. */
  lemma WalksFromProjects()
    ensures Valid(Sample())
    ensures TraverseDown(Sample(), 4) == [4] && TraverseDown(Sample(), 5) == [5]
  {
    var h := Sample();
    SampleValid();
    assert h[4].children == [] && h[5].children == [];
    assert DownFrom(h, 4, 0) == [] && DownFrom(h, 5, 0) == [];
  }

  /** The downward walks from the two teams. */
  lemma WalksFromTeams()
    ensures Valid(Sample())
    ensures TraverseDown(Sample(), 2) == [2, 4] && TraverseDown(Sample(), 3) == [3, 5]
  {
    var h := Sample();
    WalksFromProjects();
    assert h[2].children == [4] && h[3].children == [5];
    assert DownFrom(h, 2, 1) == [] && DownFrom(h, 3, 1) == [];
    assert DownFrom(h, 2, 0) == TraverseDown(h, 4) + DownFrom(h, 2, 1);
    assert DownFrom(h, 3, 0) == TraverseDown(h, 5) + DownFrom(h, 3, 1);
  }

  /** The downward walk from Engineering. */
  lemma WalkFromEngineering()
    ensures Valid(Sample())
    ensures TraverseDown(Sample(), 1) == [1, 2, 4, 3, 5]
  {
    var h := Sample();
    WalksFromTeams();
    assert h[1].children == [2, 3];
    assert DownFrom(h, 1, 2) == [];
    assert DownFrom(h, 1, 1) == TraverseDown(h, 3) + DownFrom(h, 1, 2);
    assert DownFrom(h, 1, 0) == TraverseDown(h, 2) + DownFrom(h, 1, 1);
  }

  /** The downward walk from the top node. */
  lemma WalkFromTop()
    ensures Valid(Sample())
    ensures TraverseDown(Sample(), 0) == [0, 1, 2, 4, 3, 5]
  {
    var h := Sample();
    WalkFromEngineering();
    assert h[0].children == [1];
    assert DownFrom(h, 0, 1) == [];
    assert DownFrom(h, 0, 0) == TraverseDown(h, 1) + DownFrom(h, 0, 1);
  }

  /** The upward walk from API Project. */
  lemma WalkUpFromApiProject()
    ensures Valid(Sample())
    ensures UpChain(Sample(), 4) == [4, 2, 1, 0]
  {
    var h := Sample();
    SampleValid();
    assert h[0].parent == None && h[1].parent == Some(0);
    assert h[2].parent == Some(1) && h[4].parent == Some(2);
    assert UpChain(h, 0) == [0];
    assert UpChain(h, 1) == [1] + UpChain(h, 0);
    assert UpChain(h, 2) == [2] + UpChain(h, 1);
  }

  /** The options the tests call default: Department, Team and Project, no depth limit. */
  function TestOptions(): TreeViewOptions
  {
    NewOptions().(includedTypes := {Department, Team, Project}, maxDepth := IntMaxValue)
  }

  /** Under the default options every node of the sample passes the Descendants filter. */
  lemma DefaultKeepsAll()
    ensures Valid(Sample())
    ensures forall x :: x in [0, 1, 2, 3, 4, 5] ==> DepthFilter(Sample(), TestOptions())(x)
  {
    SampleValid();
  }

  /**
   * From Engineering, the Descendants view returns five nodes: Engineering, Backend Team,
   * API Project, Frontend Team and Web Project, in pre-order.
   */
  lemma DescendantsFromEngineering()
    ensures Valid(Sample())
    ensures DescendantsView(Sample(), 1, TestOptions()) == [1, 2, 4, 3, 5]
  {
    DefaultKeepsAll();
    WalkFromEngineering();
    WhereAll([1, 2, 4, 3, 5], DepthFilter(Sample(), TestOptions()));
  }

  /**
   * From API Project, the Ancestor view returns API Project itself, Backend Team and
   * Engineering; the top node, at Level 0, is left out.
   */
  lemma AncestorsOfApiProject()
    ensures Valid(Sample())
    ensures AncestorView(Sample(), 4, TestOptions()) == [4, 2, 1]
  {
    var h, o := Sample(), TestOptions();
    SampleValid();
    WalkUpFromApiProject();
    var keep := AncestorFilter(h, o);
    assert keep(4) && keep(2) && keep(1) && !keep(0);
    WhereAll([4, 2, 1], keep);
    WhereNone([0], keep);
    WhereConcat([4, 2, 1], [0], keep);
  }

  /** From Backend Team, the Sibling view returns Backend Team and Frontend Team. */
  lemma SiblingsOfBackendTeam()
    ensures Valid(Sample())
    ensures SiblingView(Sample(), 2, TestOptions()) == [2, 3]
  {
    var h, o := Sample(), TestOptions();
    SampleValid();
    assert h[2].parent == Some(1) && h[1].children == [2, 3];
    WhereAll([2, 3], SiblingFilter(h, o));
  }

  /** The options of the category test: Team only. */
  function TeamOnly(): TreeViewOptions
  {
    NewOptions().(includedTypes := {Team})
  }

  /** The options of the depth test: the default ones with MaxDepth 1. */
  function DepthOne(): TreeViewOptions
  {
    TestOptions().(maxDepth := 1)
  }

  /** Permitting only Team, the Descendants filter keeps the two teams and nothing else. */
  lemma TeamsKept()
    ensures Valid(Sample())
    ensures forall x :: x in [0, 1] ==> !DepthFilter(Sample(), TeamOnly())(x)
    ensures forall x :: x in [2, 4, 3, 5] ==> (DepthFilter(Sample(), TeamOnly())(x) <==> x == 2 || x == 3)
  {
    SampleValid();
  }

  /** The Team filter over the walk below Engineering, one step at a time. */
  lemma TeamsAfterBackend()
    ensures Where([4, 3, 5], DepthFilter(Sample(), TeamOnly())) == [3]
  {
    TeamsKept();
    assert Where([5], DepthFilter(Sample(), TeamOnly())) == [];
  }

  lemma TeamsFromBackend()
    ensures Where([2, 4, 3, 5], DepthFilter(Sample(), TeamOnly())) == [2, 3]
  {
    TeamsKept();
    TeamsAfterBackend();
  }

  /** The teams under the top node, in the order the walk meets them. */
  lemma TeamsUnderTop()
    ensures Valid(Sample())
    ensures DescendantsView(Sample(), 0, TeamOnly()) == [2, 3]
  {
    TeamsKept();
    TeamsFromBackend();
    WalkFromTop();
  }

  /** From the top node, the Filtered view permitting only Team returns the two teams. */
  lemma TeamsFromTop()
    ensures Valid(Sample())
    ensures FilteredView(Sample(), 0, TeamOnly()) == [2, 3]
  {
    TeamsUnderTop();
    FilteredIsDescendants(Sample(), 0, TeamOnly());
  }

  /** With MaxDepth 1, the Descendants filter keeps the top node and Engineering only. */
  lemma DepthOneKept()
    ensures Valid(Sample())
    ensures forall x :: x in [0, 1] ==> DepthFilter(Sample(), DepthOne())(x)
    ensures forall x :: x in [2, 4, 3, 5] ==> !DepthFilter(Sample(), DepthOne())(x)
  {
    SampleValid();
  }

  /** With MaxDepth 1 from the top node, the Descendants view stops at Level 1. */
  lemma DepthOneFromTop()
    ensures Valid(Sample())
    ensures DescendantsView(Sample(), 0, DepthOne()) == [0, 1]
  {
    DepthOneKept();
    WalkFromTop();
    WhereAll([0, 1], DepthFilter(Sample(), DepthOne()));
    WhereNone([2, 4, 3, 5], DepthFilter(Sample(), DepthOne()));
    WhereConcat([0, 1], [2, 4, 3, 5], DepthFilter(Sample(), DepthOne()));
  }
}
