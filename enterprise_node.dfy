/** EnterpriseNode.cs: creating a node and rendering it as text. */
module EnterpriseNodes {
  import opened Wrappers
  import opened Tree
  import opened Strings

  /**
   * `new EnterpriseNode(name, type)`: sets Name and Type; Id keeps its default 0, Code and
   * Description stay null, the node is active, not hidden, with no parent, no children
   * and empty metadata.
   */
  function NewEnterpriseNode(name: string, nodeType: NodeType): (n: Node)
    ensures n.name == name && n.nodeType == nodeType && n.id == 0
    ensures n.parent == None && n.children == []
    ensures n.code == None && n.description == None
    ensures n.isActive && !n.isHidden && n.metadata == map[]
  {
    Node(0, name, nodeType, None, [], None, true, false, None, map[])
  }

  /** Following parent links in an extended arena gives the same walk as before. */
  lemma {:induction false} ReachesTopExtended(h: Hierarchy, extra: Node, i: nat, fuel: nat)
    requires ReachesTop(h, i, fuel)
    ensures ReachesTop(h + [extra], i, fuel)
    decreases fuel
  {
    var h' := h + [extra];
    assert h'[i] == h[i];
    if h[i].parent.Some? {
      ReachesTopExtended(h, extra, h[i].parent.value, fuel - 1);
    }
  }

  /**
   * A freshly constructed node has the constructor's defaults, and adding it to a valid
   * hierarchy keeps the hierarchy valid and makes it a top node: Level 0, walking up or
   * down from it yields only itself.
   */
  lemma FreshNode(h: Hierarchy, name: string, nodeType: NodeType)
    requires Valid(h)
    ensures var n := NewEnterpriseNode(name, nodeType);
      && n.name == name && n.nodeType == nodeType && n.id == 0
      && n.parent == None && n.children == []
      && n.code == None && n.description == None
      && n.isActive && !n.isHidden && n.metadata == map[]
    ensures var h' := h + [NewEnterpriseNode(name, nodeType)];
      && Valid(h')
      && Level(h', |h|) == 0
      && UpChain(h', |h|) == [|h|]
      && TraverseDown(h', |h|) == [|h|]
  {
    var n := NewEnterpriseNode(name, nodeType);
    var h' := h + [n];
    forall i | 0 <= i < |h'| ensures ReachesTop(h', i, |h'|) {
      if i < |h| {
        ReachesTopExtended(h, n, i, |h|);
        LevelWithinFuel(h', i, |h|, |h'|);
      } else {
        assert h'[i] == n;
      }
    }
    assert LinksConsistent(h') by {
      forall i | 0 <= i < |h'| && h'[i].parent.Some?
        ensures h'[i].parent.value < |h'| && i in h'[h'[i].parent.value].children
      {
        assert i < |h| && h'[i] == h[i];
        assert h'[h[i].parent.value] == h[h[i].parent.value];
      }
      forall i, k | 0 <= i < |h'| && 0 <= k < |h'[i].children|
        ensures h'[i].children[k] < |h'| && h'[h'[i].children[k]].parent == Some(i)
      {
        assert i < |h| && h'[i] == h[i];
        assert h'[h[i].children[k]] == h[h[i].children[k]];
      }
      forall i, k1, k2 | 0 <= i < |h'| && 0 <= k1 < k2 < |h'[i].children|
        ensures h'[i].children[k1] != h'[i].children[k2]
      {
        assert i < |h| && h'[i] == h[i];
      }
    }
    LevelOfParent(h', |h|);
    assert DownFrom(h', |h|, 0) == [];
  }

  /** The name C# prints for a node category: its identifier, which holds no colon. */
  function NodeTypeName(t: NodeType): (s: string)
    ensures |s| > 0 && ':' !in s
  {
    match t
    case Department => "Department"
    case Team => "Team"
    case Project => "Project"
    case Role => "Role"
    case Employee => "Employee"
  }

  /** A null string interpolates as nothing. */
  function OrEmpty(s: Option<string>): string
  {
    if s.Some? then s.value else ""
  }

  /**
   * No category name is a prefix of another's, so the start of a rendering tells which
   * category printed it.
   */
  lemma NodeTypeNamesPrefixFree(t: NodeType, u: NodeType)
    ensures |NodeTypeName(t)| <= |NodeTypeName(u)| && NodeTypeName(u)[..|NodeTypeName(t)|] == NodeTypeName(t)
      ==> t == u
  {
    var a, b := NodeTypeName(t), NodeTypeName(u);
    if |a| <= |b| && b[..|a|] == a {
      assert a[0] == b[0] && a[1] == b[1];
    }
  }

  /** Where each part of "{t}: {n} (Code: {c}, Level: {d})" lies. */
  lemma RenderingParts(t: string, n: string, c: string, d: string)
    ensures var r := t + ": " + n + " (Code: " + c + ", Level: " + d + ")";
      && |r| == |t| + 2 + |n| + 8 + |c| + 9 + |d| + 1
      && r[..|t|] == t
      && r[|t|..|t| + 2] == ": "
      && r[|t| + 2..|t| + 2 + |n|] == n
      && r[|t| + 2 + |n|..|r| - 1 - |d|] == " (Code: " + c + ", Level: "
      && r[|r| - 1 - |d|..|r| - 1] == d
      && r[|r| - 1] == ')'
  {
    var head, middle := t + ": " + n, " (Code: " + c + ", Level: ";
    var r := head + middle + d + ")";
    assert t + ": " + n + " (Code: " + c + ", Level: " + d + ")" == r;
    assert r[..|t|] == head[..|t|];
    assert r[|t|..|t| + 2] == head[|t|..|t| + 2];
    assert r[|t| + 2..|t| + 2 + |n|] == head[|t| + 2..];
    assert r[|head|..|head| + |middle|] == middle;
    assert r[|head| + |middle|..|r| - 1] == d;
  }

  /** `EnterpriseNode.ToString()`: "{Type}: {Name} (Code: {Code}, Level: {Level})". */
  function NodeToString(h: Hierarchy, i: nat): (r: string)
    requires Valid(h) && i < |h|
    ensures var t, n, c, d := NodeTypeName(h[i].nodeType), h[i].name, OrEmpty(h[i].code), NatToString(Level(h, i));
      && |r| == |t| + 2 + |n| + 8 + |c| + 9 + |d| + 1
      && r[..|t|] == t
      && r[|t|..|t| + 2] == ": "
      && r[|t| + 2..|t| + 2 + |n|] == n
      && r[|t| + 2 + |n|..|r| - 1 - |d|] == " (Code: " + c + ", Level: "
      && r[|r| - 1 - |d|..|r| - 1] == d
      && r[|r| - 1] == ')'
  {
    var t, n, c, d := NodeTypeName(h[i].nodeType), h[i].name, OrEmpty(h[i].code), NatToString(Level(h, i));
    RenderingParts(t, n, c, d);
    t + ": " + n + " (Code: " + c + ", Level: " + d + ")"
  }

  /**
   * The rendering can be read back: the category name opens it, the node's name follows
   * the ": " after it, the code sits between " (Code: " and ", Level: ", and the digits
   * before the closing parenthesis spell the node's Level.
   */
  lemma NodeToStringReadBack(h: Hierarchy, i: nat)
    requires Valid(h) && i < |h|
    ensures var r, t, d := NodeToString(h, i), NodeTypeName(h[i].nodeType), NatToString(Level(h, i));
      && |r| > |t| + 2 + |h[i].name| + |d|
      && r[..|t|] == t
      && r[|t| + 2..|t| + 2 + |h[i].name|] == h[i].name
      && r[|t| + 2 + |h[i].name| + 8..|r| - 10 - |d|] == OrEmpty(h[i].code)
      && ParseDigits(r[|r| - 1 - |d|..|r| - 1]) == Level(h, i)
  {
    var r, t, n, d := NodeToString(h, i), NodeTypeName(h[i].nodeType), h[i].name, NatToString(Level(h, i));
    var middle := r[|t| + 2 + |n|..|r| - 1 - |d|];
    assert r[|t| + 2 + |n| + 8..|r| - 10 - |d|] == middle[8..|middle| - 9];
    ParseNatToString(Level(h, i));
  }

  /**
   * Two renderings that are the same text come from nodes of the same category. (They need
   * not share name and code: a code can hold text that another node's name ends with.)
   */
  lemma NodeToStringIdentifies(h: Hierarchy, i: nat, g: Hierarchy, j: nat)
    requires Valid(h) && i < |h| && Valid(g) && j < |g|
    requires NodeToString(h, i) == NodeToString(g, j)
    ensures h[i].nodeType == g[j].nodeType
  {
    var r := NodeToString(h, i);
    var a, b := NodeTypeName(h[i].nodeType), NodeTypeName(g[j].nodeType);
    if |a| <= |b| {
      assert b[..|a|] == r[..|b|][..|a|];
      NodeTypeNamesPrefixFree(h[i].nodeType, g[j].nodeType);
    } else {
      assert a[..|b|] == r[..|a|][..|b|];
      NodeTypeNamesPrefixFree(g[j].nodeType, h[i].nodeType);
    }
  }
}
