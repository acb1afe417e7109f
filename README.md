# Design-pattern demos: a verified model of their logic

This project models the parts of the design-pattern demo repository that carry real logic,
and proves what that logic promises:

- **Bridge tree and views.** Enterprise nodes form a hierarchy with parent links, ordered
  child lists and a derived `Level`. Two walks run over it: `TraverseUp` from a node to the
  top, and a pre-order `TraverseDown`. Four views (Ancestor, Descendants, Filtered, Sibling)
  each filter one walk by node type, an optional case-insensitive name search and, for two
  of them, a depth limit. Nodes live in an arena (`seq<Node>` indexed by position). Parents
  are optional indices and children are index lists. The well-formedness the C# code never
  checks (consistent links, no child listed twice by one parent, no cycles) is the precondition
  `Tree.Valid`.
- **Visitor statistics.** A `StatisticsVisitor` class holds four counters. A `Document`
  holds a fixed array of four elements and visits them in order. Each visit is proved
  against the fold `AfterVisit` / `AfterAccept`, and the sample document is proved to give
  21 words, 1 image, 1 table and 12 cells.
- **Pattern catalogue.** The 23-member enumeration with its numbering, `GetCategory` and
  `GetDescription`. Both work on the underlying `int`, because a C# enum may hold any
  number.
- **Prototype.** Sales and financial report templates whose `Add*` methods change their
  lists in place and whose `Clone` copies everything. A registry keeps templates by key and
  hands out clones. The document example has report and e-mail templates with a clone that
  takes a new creation time.
- **Builder.** The subscription-plan and e-mail-campaign builders write every step into one
  product object and return that same object from `Build`. Their directors run fixed step
  chains, so successive director calls on one builder accumulate into one object.
- **Factory Method products.** The credit-card and PayPal processors validate an amount
  against their own limit. Each remembers only its most recent payment and reports a status
  text built from it.

Value types become datatypes and mutable objects become classes. Each class has a `State()`
function, and its methods state their whole new state against `old(State())`. A nullable
reference that the code leaves or checks as null (an unset field, a lazily created
collection, a registry key) becomes `Option`; the other references are plain values that are
never null (see "Left out"). A thrown exception becomes a `Result` or `Outcome` error value. `decimal` becomes `real`, and `DateTime` becomes a count of 100-nanosecond ticks.
`Guid.NewGuid()`, `DateTime.Now` and `DateTime.UtcNow` become parameters.

## Model

| member | source | states |
|---|---|---|
| Tree.Level | DesignPattern/Structural/Bridge/Tree/TreeNode.cs:13 | on a valid hierarchy every node's Level is below the number of nodes |
| Tree.LevelOfParent | DesignPattern/Structural/Bridge/Tree/TreeNode.cs:13 | Level is 0 exactly for a parentless node; otherwise it is the parent's Level plus one |
| Tree.LevelOfChild | DesignPattern/Structural/Bridge/Tree/TreeNode.cs:12-13 | every child listed by a node points back to it and is one level deeper |
| Tree.UpChain | DesignPattern/Structural/Bridge/Tree/TreeNode.cs:16-24 | the upward walk starts at the node and has Level + 1 entries, all of them nodes of the hierarchy |
| Tree.UpChainShape | DesignPattern/Structural/Bridge/Tree/TreeNode.cs:16-24 | entry k of the upward walk has Level(start) - k, each entry's parent is the next entry, and the last entry has no parent |
| Tree.TraverseUp | DesignPattern/Structural/Bridge/Tree/TreeNode.cs:16-24 | the `while` loop that follows parent links yields exactly the upward walk |
| Tree.TraverseDown | DesignPattern/Structural/Bridge/Tree/TreeNode.cs:26-36 | the pre-order walk starts with the node itself and lists only nodes of the hierarchy |
| Tree.DownFrom | DesignPattern/Structural/Bridge/Tree/TreeNode.cs:29-35 | the children's walks, concatenated from child k onwards in Children order, list only nodes of the hierarchy |
| Tree.Traverse | DesignPattern/Structural/Bridge/Tree/TreeNode.cs:38-41 | `Traverse` returns exactly the sequence `TraverseDown` returns |
| Tree.OneNodePerLevel | DesignPattern/Structural/Bridge/Tree/TreeNode.cs:13-24 | two nodes on one upward walk with the same Level are the same node |
| Tree.LevelAlongUpChain | DesignPattern/Structural/Bridge/Tree/TreeNode.cs:13-24 | every node on the upward walk is no deeper than the start |
| Tree.DownFromCovers | DesignPattern/Structural/Bridge/Tree/TreeNode.cs:29-35 | every node in the walk of child j (j at least k) appears in the concatenation from child k |
| Tree.DownFromOrigin | DesignPattern/Structural/Bridge/Tree/TreeNode.cs:29-35 | every node in the concatenation from child k comes from the walk of some child j at least k |
| Tree.DownSound | DesignPattern/Structural/Bridge/Tree/TreeNode.cs:26-36 | every node the downward walk lists lies in the subtree, i.e. the start is on its upward walk |
| Tree.DownComplete | DesignPattern/Structural/Bridge/Tree/TreeNode.cs:26-36 | every node whose upward walk passes the start is listed by the start's downward walk |
| Tree.DownMembers | DesignPattern/Structural/Bridge/Tree/TreeNode.cs:26-36 | a node is listed by the downward walk if and only if it lies in the subtree |
| Tree.NoDuplicatesConcat | DesignPattern/Structural/Bridge/Tree/TreeNode.cs:29-35 | two duplicate-free sequences with no common element concatenate to a duplicate-free sequence |
| Tree.DownDistinct | DesignPattern/Structural/Bridge/Tree/TreeNode.cs:26-36 | the downward walk lists no node twice |
| Tree.DownFromDistinct | DesignPattern/Structural/Bridge/Tree/TreeNode.cs:29-35 | the concatenated children's walks list no node twice |
| Tree.DistinctCardinality | DesignPattern/Structural/Bridge/Tree/TreeNode.cs:26-36 | a duplicate-free sequence has as many elements as its set |
| Tree.SubtreeListedOnce | DesignPattern/Structural/Bridge/Tree/TreeNode.cs:26-36 | the downward walk lists every subtree node exactly once, so its length is the subtree's size |
| EnterpriseNodes.FreshNode | DesignPattern/Structural/Bridge/Tree/EnterpriseNode.cs:5-15 | a new node has the given name and type, no parent, no children, no code or description, is active, not hidden, with empty metadata; added to a valid hierarchy it keeps it valid, has Level 0, and both walks from it yield only itself |
| EnterpriseNodes.ReachesTopExtended | DesignPattern/Structural/Bridge/Tree/TreeNode.cs:13 | appending a node to the arena does not lengthen any existing node's way to the top |
| EnterpriseNodes.NewEnterpriseNode | DesignPattern/Structural/Bridge/Tree/EnterpriseNode.cs:5-15 | a new node has the given name and type, Id 0, no parent, no children, null Code and Description, is active, not hidden, and has empty metadata |
| EnterpriseNodes.NodeTypeName | DesignPattern/Structural/Bridge/Tree/TreeNode.cs:44-51 | every node type prints as a non-empty name with no colon in it |
| EnterpriseNodes.NodeTypeNamesPrefixFree | DesignPattern/Structural/Bridge/Tree/TreeNode.cs:44-51 | no node type's printed name is a prefix of another type's, so the five names are pairwise distinct |
| EnterpriseNodes.NodeToString | DesignPattern/Structural/Bridge/Tree/EnterpriseNode.cs:17-20 | the text is the type name, ": ", the name, " (Code: ", the code (empty when null), ", Level: ", the Level's decimal digits and ")", each at its stated position |
| EnterpriseNodes.NodeToStringReadBack | DesignPattern/Structural/Bridge/Tree/EnterpriseNode.cs:17-20 | the type name, the node's name and the code can be cut back out of the rendering, and the digits before ")" read back to Level |
| EnterpriseNodes.NodeToStringIdentifies | DesignPattern/Structural/Bridge/Tree/EnterpriseNode.cs:19 | two nodes whose renderings are the same text have the same type |
| ViewOptions.NewOptions | DesignPattern/Structural/Bridge/Tree/TreeViewOptions.cs:7-11 | a new options object admits no type, has MaxDepth int.MaxValue, both flags false and no search term |
| ViewOptions.Default | DesignPattern/Structural/Bridge/Tree/TreeViewOptions.cs:13-19 | `Default` admits exactly Department, Team and Project, with MaxDepth int.MaxValue, both flags false and no search term |
| ViewOptions.DefaultIsNewWithThreeTypes | DesignPattern/Structural/Bridge/Tree/TreeViewOptions.cs:7-19 | `Default` is a new options object with only the type set changed, and it admits neither Role nor Employee |
| Strings.FoldAscii | DesignPattern/Structural/Bridge/Tree/Views/AncestorTreeView.cs:16 | a helper of the `Contains(..., OrdinalIgnoreCase)` test: upper-case ASCII letters fold to lower case and every other character is unchanged |
| Strings.StartsWithIgnoreCase | DesignPattern/Structural/Bridge/Tree/Views/AncestorTreeView.cs:16 | a helper of the `Contains(..., OrdinalIgnoreCase)` test: a case-insensitive prefix test, equal to a case-insensitive match at offset 0 |
| Strings.ContainsIgnoreCase | DesignPattern/Structural/Bridge/Tree/Views/AncestorTreeView.cs:15-16 | `Contains(term, OrdinalIgnoreCase)` holds if and only if the term matches case-insensitively at some offset of the name |
| Strings.CountChar | DesignPattern/Behavioral/Visitor/Visitors/StatisticsVisitor.cs:18 | a character occurs at most as often as the text is long |
| Strings.CountCharConcat | DesignPattern/Behavioral/Visitor/Visitors/StatisticsVisitor.cs:18 | occurrences in a concatenation add up |
| Strings.Split | DesignPattern/Behavioral/Visitor/Visitors/StatisticsVisitor.cs:18 | `Split` gives at least one piece, and no piece contains the separator |
| Strings.SplitLength | DesignPattern/Behavioral/Visitor/Visitors/StatisticsVisitor.cs:18 | `Split` gives one more piece than the text has separators |
| Strings.JoinSplit | DesignPattern/Behavioral/Visitor/Visitors/StatisticsVisitor.cs:18 | joining the pieces with the separator gives back the text, so `Split` loses nothing |
| Strings.NatToString | DesignPattern/Structural/Bridge/Tree/EnterpriseNode.cs:19 | a number renders as at least one decimal digit and nothing else, in canonical form: no leading zero, and "0" exactly for zero |
| Strings.ParseNatToString | DesignPattern/Structural/Bridge/Tree/EnterpriseNode.cs:19 | reading the rendered digits back gives the number |
| TreeViews.Where | DesignPattern/Structural/Bridge/Tree/Views/DescendantsTreeView.cs:11-16 | LINQ `Where` keeps exactly the elements that pass the predicate and is never longer than its input |
| TreeViews.WhereConcat | DesignPattern/Structural/Bridge/Tree/Views/DescendantsTreeView.cs:11-16 | filtering a concatenation is concatenating the filtered parts |
| TreeViews.WhereAgree | DesignPattern/Structural/Bridge/Tree/Views/DescendantsTreeView.cs:12-16 | two predicates that agree on the input filter it alike |
| TreeViews.WhereAll | DesignPattern/Structural/Bridge/Tree/Views/DescendantsTreeView.cs:11-16 | when every element passes, `Where` returns its input |
| TreeViews.WhereNone | DesignPattern/Structural/Bridge/Tree/Views/DescendantsTreeView.cs:11-16 | when no element passes, `Where` returns nothing |
| TreeViews.Shifted | DesignPattern/Structural/Bridge/Tree/Views/DescendantsTreeView.cs:11-16 | moving a position list one step right adds one to every position |
| TreeViews.SubsequenceOfTail | DesignPattern/Structural/Bridge/Tree/Views/DescendantsTreeView.cs:11-16 | a subsequence of the tail is a subsequence of the whole at shifted, non-zero positions |
| TreeViews.SubsequenceWithHead | DesignPattern/Structural/Bridge/Tree/Views/DescendantsTreeView.cs:11-16 | the head followed by a subsequence of the tail is a subsequence of the whole |
| TreeViews.WherePositions | DesignPattern/Structural/Bridge/Tree/Views/DescendantsTreeView.cs:11-16 | `Where` keeps the input's order: its result sits at increasing positions of the input |
| TreeViews.WhereNoDuplicates | DesignPattern/Structural/Bridge/Tree/Views/DescendantsTreeView.cs:11-16 | filtering a duplicate-free sequence leaves it duplicate-free |
| TreeViews.AncestorView | DesignPattern/Structural/Bridge/Tree/Views/AncestorTreeView.cs:9-17 | a node is in the Ancestor view if and only if it is on the upward walk and passes the level > 0, type and search filters; every result has an admitted type and Level above 0 |
| TreeViews.DescendantsView | DesignPattern/Structural/Bridge/Tree/Views/DescendantsTreeView.cs:9-17 | a node is in the Descendants view if and only if the downward walk lists it and it passes the type, depth and search filters; every result has an admitted type and Level at most MaxDepth |
| TreeViews.FilteredView | DesignPattern/Structural/Bridge/Tree/Views/FilteredTreeView.cs:8-16 | a node is in the Filtered view if and only if `Traverse` lists it and it passes the type, depth and search filters |
| TreeViews.SiblingView | DesignPattern/Structural/Bridge/Tree/Views/SiblingTreeView.cs:9-23 | a parentless start gives exactly itself, unfiltered; otherwise a node is in the view if and only if it is a child of the start's parent with an admitted type that passes the search |
| TreeViews.AncestorOrder | DesignPattern/Structural/Bridge/Tree/Views/AncestorTreeView.cs:11-16 | the Ancestor view lists nodes with strictly decreasing Level, nearer ancestors first |
| TreeViews.AncestorOfTopIsEmpty | DesignPattern/Structural/Bridge/Tree/Views/AncestorTreeView.cs:13 | starting at a parentless node the Ancestor view is empty |
| TreeViews.AncestorStartsWithRoot | DesignPattern/Structural/Bridge/Tree/Views/AncestorTreeView.cs:11-16 | the start node is in the Ancestor view exactly when its Level is above 0 and it passes the type and search filters |
| TreeViews.AncestorIgnoresDepthAndFlags | DesignPattern/Structural/Bridge/Tree/Views/AncestorTreeView.cs:12-16 | MaxDepth and both Include flags have no effect on the Ancestor view |
| TreeViews.DescendantsShape | DesignPattern/Structural/Bridge/Tree/Views/DescendantsTreeView.cs:11-16 | the Descendants view holds exactly the qualifying nodes of the subtree, lists none twice, is no longer than the walk, and starts with the start node whenever it qualifies |
| TreeViews.DescendantsKeepPreOrder | DesignPattern/Structural/Bridge/Tree/Views/DescendantsTreeView.cs:11-16 | the Descendants view is a subsequence of the pre-order walk |
| TreeViews.FilteredIsDescendants | DesignPattern/Structural/Bridge/Tree/Views/FilteredTreeView.cs:10-15 | the Filtered view equals the Descendants view for every start and options |
| TreeViews.DescendantsIgnoreFlags | DesignPattern/Structural/Bridge/Tree/Views/DescendantsTreeView.cs:12-16 | the Include flags have no effect on the Descendants view |
| TreeViews.SiblingKeepsChildOrder | DesignPattern/Structural/Bridge/Tree/Views/SiblingTreeView.cs:18-22 | below the top, the Sibling view is the parent's Children at strictly increasing positions, so it keeps the Children order |
| TreeViews.SiblingContainsRoot | DesignPattern/Structural/Bridge/Tree/Views/SiblingTreeView.cs:18-22 | below the top, the start is in its Sibling view if and only if it passes the type and search filters, and the view lists no node twice |
| TreeViews.SiblingIgnoresDepthAndFlags | DesignPattern/Structural/Bridge/Tree/Views/SiblingTreeView.cs:12-22 | MaxDepth and both Include flags have no effect on the Sibling view |
| TreeViews.GetNodes | DesignPattern/Structural/Bridge/Tree/ITreeView.cs:7 | every view returns nodes of the hierarchy of an admitted type whose name matches the search, except the Sibling view on a parentless node, which returns that node alone; Ancestor results lie on the upward walk, and Descendants and Filtered results lie in the pre-order walk within MaxDepth |
| TreeViews.SearchTermRespected | DesignPattern/Structural/Bridge/Tree/Views/FilteredTreeView.cs:14-15 | with a non-empty search term, every node any view returns (the Sibling view below the top) contains the term case-insensitively |
| TreeViews.DepthLimitRespected | DesignPattern/Structural/Bridge/Tree/Views/DescendantsTreeView.cs:14 | every node the Descendants or Filtered view returns has absolute Level at most MaxDepth |
| TreeExamples.SampleValid | DesignPattern/DesignPatternTests/Structural/Bridge/Tree/TreeViewTests.cs:21-34 | the test hierarchy is well formed, with Levels 0, 1, 2, 2, 3, 3 |
| TreeExamples.WalkFromEngineering | DesignPattern/DesignPatternTests/Structural/Bridge/Tree/TreeViewTests.cs:50-53 | the walk down from Engineering lists its five nodes in pre-order |
| TreeExamples.WalkUpFromApiProject | DesignPattern/Structural/Bridge/Tree/TreeNode.cs:16-24 | the walk up from API Project is API Project, Backend Team, Engineering, Enterprise Corp |
| TreeExamples.DescendantsFromEngineering | DesignPattern/DesignPatternTests/Structural/Bridge/Tree/TreeViewTests.cs:44-59 | the Descendants view from Engineering is Engineering, Backend Team, API Project, Frontend Team, Web Project |
| TreeExamples.AncestorsOfApiProject | DesignPattern/DesignPatternTests/Structural/Bridge/Tree/TreeViewTests.cs:62-75 | the Ancestor view from API Project is API Project, Backend Team, Engineering |
| TreeExamples.SiblingsOfBackendTeam | DesignPattern/DesignPatternTests/Structural/Bridge/Tree/TreeViewTests.cs:78-90 | the Sibling view from Backend Team is Backend Team, Frontend Team |
| TreeExamples.TeamsFromTop | DesignPattern/DesignPatternTests/Structural/Bridge/Tree/TreeViewTests.cs:93-111 | the Filtered view admitting only teams, from the top, is Backend Team, Frontend Team |
| TreeExamples.DepthOneFromTop | DesignPattern/DesignPatternTests/Structural/Bridge/Tree/TreeViewTests.cs:142-165 | with MaxDepth 1 the Descendants view from the top is Enterprise Corp, Engineering |
| DocumentVisitor.WordsAreSplitPieces | DesignPattern/Behavioral/Visitor/Visitors/StatisticsVisitor.cs:18 | the word count of a text (spaces plus one) is the number of pieces `Split(' ')` gives |
| DocumentVisitor.StatisticsVisitor.constructor | DesignPattern/Behavioral/Visitor/Visitors/StatisticsVisitor.cs:11-14 | all four counters start at 0 |
| DocumentVisitor.StatisticsVisitor.VisitParagraph | DesignPattern/Behavioral/Visitor/Visitors/StatisticsVisitor.cs:16-19 | visiting a paragraph moves the counters as the visit fold says |
| DocumentVisitor.StatisticsVisitor.VisitImage | DesignPattern/Behavioral/Visitor/Visitors/StatisticsVisitor.cs:21-24 | visiting an image moves the counters as the visit fold says |
| DocumentVisitor.StatisticsVisitor.VisitTable | DesignPattern/Behavioral/Visitor/Visitors/StatisticsVisitor.cs:26-38 | the nested loops over rows and cells move the counters as the visit fold says: one table, headers plus data cells, and the words of the data cells |
| DocumentVisitor.AcceptElement | DesignPattern/Behavioral/Visitor/Visitors/StatisticsVisitor.cs:16-38 | double dispatch picks the visit that matches the element's kind |
| DocumentVisitor.Document.constructor | DesignPattern/Behavioral/Visitor/Document.cs:14-32 | the element array holds the two paragraphs, the image and the 3-by-3 table, in that order |
| DocumentVisitor.Document.Accept | DesignPattern/Behavioral/Visitor/Document.cs:34-40 | the loop visits every element once, in array order, and leaves the array unchanged |
| DocumentVisitor.CountSampleDocument | DesignPattern/Behavioral/Visitor/Document.cs:14-40 | a new document accepted by a new visitor gives 21 words, 1 image, 1 table and 12 cells |
| DocumentVisitor.SampleTableCounts | DesignPattern/Behavioral/Visitor/Document.cs:17-23 | the sample table's data cells hold 14 words, and headers plus data make 12 cells |
| DocumentVisitor.SampleTotals | DesignPattern/Behavioral/Visitor/Document.cs:17-31 | visiting the fixed elements from zero gives 21, 1, 1 and 12 |
| DocumentVisitor.ThreeCellRow | DesignPattern/Behavioral/Visitor/Visitors/StatisticsVisitor.cs:33-36 | the words of a three-cell row are the sum of the cells' words |
| DocumentVisitor.ThreeRowData | DesignPattern/Behavioral/Visitor/Visitors/StatisticsVisitor.cs:30-37 | three rows add their words and their lengths |
| DocumentVisitor.FourElements | DesignPattern/Behavioral/Visitor/Document.cs:36-39 | accepting four elements visits them one after the other |
| DocumentVisitor.FirstRowWords | DesignPattern/Behavioral/Visitor/Document.cs:20 | the first data row holds 5 words |
| DocumentVisitor.SecondRowWords | DesignPattern/Behavioral/Visitor/Document.cs:21 | the second data row holds 5 words |
| DocumentVisitor.ThirdRowWords | DesignPattern/Behavioral/Visitor/Document.cs:22 | the third data row holds 4 words |
| DocumentVisitor.FirstParagraphWords | DesignPattern/Behavioral/Visitor/Document.cs:27 | "Hello, World!" counts 2 words |
| DocumentVisitor.LastParagraphWords | DesignPattern/Behavioral/Visitor/Document.cs:30 | "This is a test document." counts 5 words |
| DocumentVisitor.VisitNeverDecreases | DesignPattern/Behavioral/Visitor/Visitors/StatisticsVisitor.cs:16-38 | no visit lowers any counter |
| DocumentVisitor.AcceptNeverDecreases | DesignPattern/Behavioral/Visitor/Visitors/StatisticsVisitor.cs:11-38 | no sequence of visits lowers any counter |
| DocumentVisitor.ParagraphWords | DesignPattern/Behavioral/Visitor/Visitors/StatisticsVisitor.cs:18 | a paragraph adds its spaces plus one to the words and nothing else, so an empty text adds 1 |
| DocumentVisitor.ImageCountsOne | DesignPattern/Behavioral/Visitor/Visitors/StatisticsVisitor.cs:21-24 | an image adds exactly 1 to the image count and changes nothing else |
| DocumentVisitor.HeadersAddNoWords | DesignPattern/Behavioral/Visitor/Visitors/StatisticsVisitor.cs:29-36 | header cells change the cell count by their number but add no words |
| DocumentVisitor.AcceptCountsKinds | DesignPattern/Behavioral/Visitor/Visitors/StatisticsVisitor.cs:21-28 | accepting elements adds exactly the number of images and the number of tables among them |
| DocumentVisitor.AcceptConcat | DesignPattern/Behavioral/Visitor/Document.cs:36-39 | accepting two element lists one after the other is accepting their concatenation |
| PatternCatalogue.Number | DesignPattern/Core/DesignPatternType.cs:8-35 | every member is numbered within 1 to 23 |
| PatternCatalogue.FromNumber | DesignPattern/Core/DesignPatternType.cs:8-35 | a number names a member if and only if it lies in 1 to 23, and that member carries the number |
| PatternCatalogue.NumberRoundTrip | DesignPattern/Core/DesignPatternType.cs:8-35 | every member is found again from its number |
| PatternCatalogue.NumberInjective | DesignPattern/Core/DesignPatternType.cs:8-35 | no two members share a number |
| PatternCatalogue.GetCategory | DesignPattern/Core/DesignPatternType.cs:46-53 | "Creational" exactly for 1 to 5, "Structural" exactly for 6 to 12, "Behavioral" for every other value |
| PatternCatalogue.CategoryOfMember | DesignPattern/Core/DesignPatternType.cs:46-53 | on the named members the ranges agree with the creational and structural groups |
| PatternCatalogue.CategoryOutsideRange | DesignPattern/Core/DesignPatternType.cs:52 | a value outside 1 to 23 names no member and is still "Behavioral" |
| PatternCatalogue.GetDescription | DesignPattern/Core/DesignPatternType.cs:58-87 | "Unknown pattern" exactly for values outside 1 to 23; inside, the named member's own description |
| PatternCatalogue.DescribeIsKnown | DesignPattern/Core/DesignPatternType.cs:62-84 | no member's description is "Unknown pattern" |
| PatternCatalogue.DescriptionOfMember | DesignPattern/Core/DesignPatternType.cs:58-87 | each member's number gets that member's description |
| ReportPrototypes.SalesReportTemplate.constructor | DesignPattern/Creational/Prototype/ReportExample/Reports/SalesReportTemplate.cs:19-26 | a new sales template has no title or period and all five collections empty |
| ReportPrototypes.SalesReportTemplate.Clone | DesignPattern/Creational/Prototype/ReportExample/Reports/SalesReportTemplate.cs:28-41 | the clone is a new object with the same title, period and collection contents |
| ReportPrototypes.SalesReportTemplate.AddDataSource | DesignPattern/Creational/Prototype/ReportExample/Reports/SalesReportTemplate.cs:50-54 | appends to the data sources and changes nothing else |
| ReportPrototypes.SalesReportTemplate.AddChart | DesignPattern/Creational/Prototype/ReportExample/Reports/SalesReportTemplate.cs:56-60 | appends to the charts and changes nothing else |
| ReportPrototypes.SalesReportTemplate.AddParameter | DesignPattern/Creational/Prototype/ReportExample/Reports/SalesReportTemplate.cs:62-66 | inserts or overwrites one parameter and changes nothing else |
| ReportPrototypes.SalesReportTemplate.AddProductCategory | DesignPattern/Creational/Prototype/ReportExample/Reports/SalesReportTemplate.cs:68-72 | appends to the product categories and changes nothing else |
| ReportPrototypes.SalesReportTemplate.AddRegion | DesignPattern/Creational/Prototype/ReportExample/Reports/SalesReportTemplate.cs:74-78 | appends to the regions and changes nothing else |
| ReportPrototypes.FinancialReportTemplate.constructor | DesignPattern/Creational/Prototype/ReportExample/Reports/FinancialReportTemplate.cs:19-25 | a new financial template has no texts and all four collections empty |
| ReportPrototypes.FinancialReportTemplate.Clone | DesignPattern/Creational/Prototype/ReportExample/Reports/FinancialReportTemplate.cs:27-40 | the clone is a new object with the same three texts and collection contents |
| ReportPrototypes.FinancialReportTemplate.AddDataSource | DesignPattern/Creational/Prototype/ReportExample/Reports/FinancialReportTemplate.cs:49-53 | appends to the data sources and changes nothing else, the currency conversions included |
| ReportPrototypes.FinancialReportTemplate.AddChart | DesignPattern/Creational/Prototype/ReportExample/Reports/FinancialReportTemplate.cs:55-59 | appends to the charts and changes nothing else |
| ReportPrototypes.FinancialReportTemplate.AddParameter | DesignPattern/Creational/Prototype/ReportExample/Reports/FinancialReportTemplate.cs:61-65 | inserts or overwrites one parameter and changes nothing else |
| ReportPrototypes.ReportType | DesignPattern/Creational/Prototype/ReportExample/Reports/SalesReportTemplate.cs:8 | a sales template reports "Sales" and a financial one "Financial" |
| ReportPrototypes.CloneTemplate | DesignPattern/Creational/Prototype/ReportExample/ReportTemplateRegistry.cs:33 | cloning through the interface gives a new object of the same kind with equal contents |
| ReportPrototypes.NotFoundMessage | DesignPattern/Creational/Prototype/ReportExample/ReportTemplateRegistry.cs:30 | the message is "Template with key '", then the key, then "' not found." |
| ReportPrototypes.ReportTemplateRegistry.constructor | DesignPattern/Creational/Prototype/ReportExample/ReportTemplateRegistry.cs:10-13 | a new registry is empty |
| ReportPrototypes.ReportTemplateRegistry.RegisterTemplate | DesignPattern/Creational/Prototype/ReportExample/ReportTemplateRegistry.cs:15-25 | a null or empty key fails first, then a null template; a failed call changes nothing; otherwise exactly that key is set |
| ReportPrototypes.ReportTemplateRegistry.GetTemplate | DesignPattern/Creational/Prototype/ReportExample/ReportTemplateRegistry.cs:27-34 | a null key fails, an absent key fails with the not-found message, and a present key gives a new clone of the stored template |
| ReportPrototypes.CustomiseClone | DesignPattern/Creational/Prototype/ReportExample/ReportTemplateRegistry.cs:27-34 | changing a clone handed out by the registry leaves the registry and its stored template as they were |
| DocumentPrototypes.ReportTemplate.Empty | DesignPattern/Creational/Prototype/DocumentExample/ReportTemplate.cs:14-18 | no texts, empty metadata, created now |
| DocumentPrototypes.ReportTemplate.constructor | DesignPattern/Creational/Prototype/DocumentExample/ReportTemplate.cs:20-27 | the given texts, empty metadata, created now |
| DocumentPrototypes.ReportTemplate.Clone | DesignPattern/Creational/Prototype/DocumentExample/ReportTemplate.cs:29-40 | a new object with the same texts and metadata and its own creation time |
| DocumentPrototypes.EmailTemplate.Empty | DesignPattern/Creational/Prototype/DocumentExample/EmailTemplate.cs:16-21 | no texts, empty metadata and recipients, created now |
| DocumentPrototypes.EmailTemplate.constructor | DesignPattern/Creational/Prototype/DocumentExample/EmailTemplate.cs:23-32 | the given four texts, empty metadata and recipients, created now |
| DocumentPrototypes.EmailTemplate.Clone | DesignPattern/Creational/Prototype/DocumentExample/EmailTemplate.cs:34-47 | a new object with the same texts, metadata and recipients in order, and its own creation time |
| DocumentPrototypes.CustomiseEmail | DesignPattern/Creational/Prototype/DocumentExample/EmailTemplate.cs:43-44 | a recipient and a metadata entry added to a clone leave the original's collections unchanged |
| DocumentPrototypes.CustomiseReport | DesignPattern/Creational/Prototype/DocumentExample/ReportTemplate.cs:37 | a metadata entry written in a clone leaves the original's metadata unchanged |
| LazyCollections.Appended | DesignPattern/Creational/Builder/Subscription/SubscriptionPlanBuilder.cs:44-49 | a null list is created, the old entries stay in front and the new ones follow at the end |
| LazyCollections.AppendedTwice | DesignPattern/Creational/Builder/Subscription/SubscriptionPlanBuilder.cs:44-49 | appending in two steps is appending once |
| LazyCollections.WithEntry | DesignPattern/Creational/Builder/Subscription/SubscriptionPlanBuilder.cs:51-56 | a null table is created; the key maps to the value, the keys are the old ones plus this one, and other entries are kept |
| SubscriptionBuilder.SubscriptionPlan.constructor | DesignPattern/Creational/Builder/Subscription/SubscriptionPlan.cs:8-17 | a new plan has null texts and collections, zero numbers and no API access |
| SubscriptionBuilder.SubscriptionPlanBuilder.constructor | DesignPattern/Creational/Builder/Subscription/SubscriptionPlanBuilder.cs:11 | the builder owns one new blank plan |
| SubscriptionBuilder.SubscriptionPlanBuilder.SetName | DesignPattern/Creational/Builder/Subscription/SubscriptionPlanBuilder.cs:13-17 | overwrites the name only and returns the same builder |
| SubscriptionBuilder.SubscriptionPlanBuilder.SetPrice | DesignPattern/Creational/Builder/Subscription/SubscriptionPlanBuilder.cs:19-23 | overwrites the price only and returns the same builder |
| SubscriptionBuilder.SubscriptionPlanBuilder.SetUserLimit | DesignPattern/Creational/Builder/Subscription/SubscriptionPlanBuilder.cs:25-29 | overwrites the user limit only and returns the same builder |
| SubscriptionBuilder.SubscriptionPlanBuilder.SetStorageLimit | DesignPattern/Creational/Builder/Subscription/SubscriptionPlanBuilder.cs:31-35 | overwrites the storage limit only and returns the same builder |
| SubscriptionBuilder.SubscriptionPlanBuilder.EnableApiAccess | DesignPattern/Creational/Builder/Subscription/SubscriptionPlanBuilder.cs:37-42 | sets API access on with the given limit and returns the same builder |
| SubscriptionBuilder.SubscriptionPlanBuilder.AddFeature | DesignPattern/Creational/Builder/Subscription/SubscriptionPlanBuilder.cs:44-49 | creates the feature list if null and appends the feature |
| SubscriptionBuilder.SubscriptionPlanBuilder.AddCustomSetting | DesignPattern/Creational/Builder/Subscription/SubscriptionPlanBuilder.cs:51-56 | creates the settings table if null and sets one key |
| SubscriptionBuilder.SubscriptionPlanBuilder.Build | DesignPattern/Creational/Builder/Subscription/SubscriptionPlanBuilder.cs:58 | returns the builder's own plan object, neither copied nor reset |
| SubscriptionBuilder.Stepped | DesignPattern/Creational/Builder/Subscription/SubscriptionPlanDirector.cs:16-57 | the four set steps and the feature appends of a director chain; API access and settings are kept |
| SubscriptionBuilder.SubscriptionPlanDirector.CreateFreePlan | DesignPattern/Creational/Builder/Subscription/SubscriptionPlanDirector.cs:16-26 | Free, price 0, 5 users, 10 GB, the two free features appended, on the builder's one plan |
| SubscriptionBuilder.SubscriptionPlanDirector.CreateTeamPlan | DesignPattern/Creational/Builder/Subscription/SubscriptionPlanDirector.cs:28-41 | Team, 49.99, 25 users, 100 GB, API limit 10000, four features appended in order |
| SubscriptionBuilder.SubscriptionPlanDirector.CreateEnterprisePlan | DesignPattern/Creational/Builder/Subscription/SubscriptionPlanDirector.cs:43-57 | Enterprise, 199.99, 100 users, 1000 GB, API limit 1000000, five features appended in order |
| SubscriptionBuilder.FreePlan | DesignPattern/Creational/Builder/Subscription/SubscriptionPlanDirector.cs:16-26 | a fresh director's free plan is exactly Free, 0, 5, 10, no API access, the two features and no settings |
| SubscriptionBuilder.FreeThenTeam | DesignPattern/Creational/Builder/Subscription/SubscriptionPlanDirector.cs:16-41 | the free and then the team plan are one object named Team, with API access and six features in call order |
| EmailCampaignBuilder.EmailCampaign.constructor | DesignPattern/Creational/Builder/EmailCampaign/EmailCampaign.cs:9-21 | a new campaign has null texts and collections, time 0 and tracking off |
| EmailCampaignBuilder.Builder.constructor | DesignPattern/Creational/Builder/EmailCampaign/EmailCampaignBuilder.cs:12 | the builder owns one new blank campaign |
| EmailCampaignBuilder.Builder.SetName | DesignPattern/Creational/Builder/EmailCampaign/EmailCampaignBuilder.cs:14-18 | overwrites the name only and returns the same builder |
| EmailCampaignBuilder.Builder.SetSubject | DesignPattern/Creational/Builder/EmailCampaign/EmailCampaignBuilder.cs:20-24 | overwrites the subject only and returns the same builder |
| EmailCampaignBuilder.Builder.SetSender | DesignPattern/Creational/Builder/EmailCampaign/EmailCampaignBuilder.cs:26-31 | overwrites both sender address and sender name and returns the same builder |
| EmailCampaignBuilder.Builder.SetTemplate | DesignPattern/Creational/Builder/EmailCampaign/EmailCampaignBuilder.cs:33-37 | overwrites the template only and returns the same builder |
| EmailCampaignBuilder.Builder.AddRecipient | DesignPattern/Creational/Builder/EmailCampaign/EmailCampaignBuilder.cs:39-44 | creates the recipient list if null and appends the address |
| EmailCampaignBuilder.Builder.AddPersonalization | DesignPattern/Creational/Builder/EmailCampaign/EmailCampaignBuilder.cs:46-51 | creates the personalization table if null and sets one key |
| EmailCampaignBuilder.Builder.Schedule | DesignPattern/Creational/Builder/EmailCampaign/EmailCampaignBuilder.cs:53-57 | overwrites the scheduled time only |
| EmailCampaignBuilder.Builder.EnableTracking | DesignPattern/Creational/Builder/EmailCampaign/EmailCampaignBuilder.cs:59-64 | sets both tracking flags, on by default |
| EmailCampaignBuilder.Builder.AddHeader | DesignPattern/Creational/Builder/EmailCampaign/EmailCampaignBuilder.cs:66-71 | creates the header table if null and sets one key |
| EmailCampaignBuilder.Builder.Build | DesignPattern/Creational/Builder/EmailCampaign/EmailCampaignBuilder.cs:73 | returns the builder's own campaign object |
| EmailCampaignBuilder.Headed | DesignPattern/Creational/Builder/EmailCampaign/EmailCampaignDirector.cs:20-24 | the four text steps every director chain starts with leave recipients, personalization, headers and schedule alone |
| EmailCampaignBuilder.PromoHtml | DesignPattern/Creational/Builder/EmailCampaign/EmailCampaignDirector.cs:48 | the promotional template holds the code at offset 34, between the fixed opening and " for 20% off!</p>" |
| EmailCampaignBuilder.Director.CreateWelcomeEmail | DesignPattern/Creational/Builder/EmailCampaign/EmailCampaignDirector.cs:18-28 | the welcome texts, the firstName placeholder and both tracking flags, on the builder's one campaign |
| EmailCampaignBuilder.Director.CreateNewsletterCampaign | DesignPattern/Creational/Builder/EmailCampaign/EmailCampaignDirector.cs:30-40 | the newsletter texts, tracking on, scheduled one day after now, and no personalization added |
| EmailCampaignBuilder.Director.CreatePromotionalCampaign | DesignPattern/Creational/Builder/EmailCampaign/EmailCampaignDirector.cs:42-54 | the promotional texts with the code, the promoCode placeholder, the campaign-type header, tracking on, scheduled two hours after now |
| EmailCampaignBuilder.WelcomeThenPromotional | DesignPattern/Creational/Builder/EmailCampaign/EmailCampaignDirector.cs:18-54 | welcome then promotional return one object that keeps both placeholders and has no recipient list |
| EmailCampaignBuilder.DirectorsAddNoRecipients | DesignPattern/Creational/Builder/EmailCampaign/EmailCampaignDirector.cs:18-54 | after all three director chains on a fresh builder the recipient list is still null |
| PaymentProcessors.StatusText | DesignPattern/Creational/FactoryMethod/PaymentExample/Processors/CreditCardProcessor.cs:23-25 | a successful status starts with the success text and continues with the id; a failed one is the failure text |
| PaymentProcessors.FailureIsNotSuccess | DesignPattern/Creational/FactoryMethod/PaymentExample/Processors/PayPalProcessor.cs:23-25 | neither failure text (PayPalProcessor.cs:25, and CreditCardProcessor.cs:25 alike) starts like its processor's success text, so the status words tell the outcome apart |
| PaymentProcessors.CreditCardProcessor.constructor | DesignPattern/Creational/FactoryMethod/PaymentExample/Processors/CreditCardProcessor.cs:8-9 | a new processor has no transaction id and a false status |
| PaymentProcessors.CreditCardProcessor.ProcessPayment | DesignPattern/Creational/FactoryMethod/PaymentExample/Processors/CreditCardProcessor.cs:11-19 | accepts exactly the amounts strictly between 0 and 15000, and overwrites both fields |
| PaymentProcessors.CreditCardProcessor.GetPaymentStatus | DesignPattern/Creational/FactoryMethod/PaymentExample/Processors/CreditCardProcessor.cs:21-26 | starts with "Credit card payment successful" exactly when the last payment was accepted, then ends with its id; otherwise "Credit card payment failed" |
| PaymentProcessors.PayPalTransactionId | DesignPattern/Creational/FactoryMethod/PaymentExample/Processors/PayPalProcessor.cs:14 | the id is "PP-" followed by decimal digits that read back to the clock's ticks, with no leading zero ("PP-0" exactly for zero ticks) |
| PaymentProcessors.PayPalProcessor.constructor | DesignPattern/Creational/FactoryMethod/PaymentExample/Processors/PayPalProcessor.cs:8-9 | a new processor has no transaction id and a false status |
| PaymentProcessors.PayPalProcessor.ProcessPayment | DesignPattern/Creational/FactoryMethod/PaymentExample/Processors/PayPalProcessor.cs:11-19 | accepts exactly the amounts strictly between 0 and 10000, and overwrites both fields |
| PaymentProcessors.PayPalProcessor.GetPaymentStatus | DesignPattern/Creational/FactoryMethod/PaymentExample/Processors/PayPalProcessor.cs:21-26 | starts with "PayPal payment successful" exactly when the last payment was accepted, then ends with its id; otherwise "PayPal payment failed" |
| PaymentProcessors.FreshProcessorsFail | DesignPattern/Creational/FactoryMethod/PaymentExample/Processors/CreditCardProcessor.cs:9 | before any payment both processors report failure, from the `false` status field default of CreditCardProcessor.cs:9 and PayPalProcessor.cs:9 |
| PaymentProcessors.CreditCardLastPaymentDecides | DesignPattern/Creational/FactoryMethod/PaymentExample/Processors/CreditCardProcessor.cs:14-25 | after two payments the status reflects the second alone and carries its transaction id |
| PaymentProcessors.PayPalLastPaymentDecides | DesignPattern/Creational/FactoryMethod/PaymentExample/Processors/PayPalProcessor.cs:14-25 | after two payments the status reflects the second alone and carries "PP-" and its clock reading |

## Left out

- The Ancestor view includes the start node whenever its Level is above 0 and it passes the filters, as the code does. A prose description of the view that leaves the start node out does not match the code, and the model follows the code.
- Case-insensitive matching covers ASCII letters only. The full Unicode case folding of `StringComparison.OrdinalIgnoreCase` is not modelled.
- Node names, view options and template keys are never null in the model, except where a null argument is an error the source handles (the registry keys).
- These references are plain values that are never null, so the exception a null one would raise is not modelled. None of the modelled callers passes null.
  - The document templates' `Metadata` (report and e-mail) and `Recipients` (e-mail) are `map` and `seq`. A null one makes `Clone` throw `ArgumentNullException`.
  - The `key` parameters of the builders' `AddPersonalization`, `AddHeader` and `AddCustomSetting` are `string`. A null key makes the dictionary indexer throw `ArgumentNullException`.
  - A paragraph's text and a table's cells are `string`. A null one makes `Split` in the statistics visitor throw `NullReferenceException`.
- 32-bit and 64-bit overflow of the visitor counters, `Level`, the plan limits and the scheduled time is not modelled. Integers are unbounded.
- `Tree.Valid` excludes a parent that lists the same child twice. `Children.Add` does not check for duplicates, and on such a tree `TraverseDown` would list the repeated subtree twice; the model does not cover that input, and `Tree.SubtreeListedOnce` relies on its absence.
- Tree nodes are values in an arena, not shared references. Aliasing between node objects is not modelled; the source never mutates links during a walk.
- The collections a template, plan or campaign owns are `seq` and `map` values held by that object. List and dictionary identity is not modelled, so a caller that keeps a reference to a collection and changes it behind the object's back is not covered.
- `DateTime.Now`, `Guid.NewGuid()` and `DateTime.UtcNow.Ticks` are parameters of the constructors, `Clone`, `ProcessPayment` and the scheduling director methods. Date arithmetic overflow (`AddDays` or `AddHours` past the largest `DateTime`) is not modelled.
- That the 23 descriptions are pairwise different is not stated, because comparing 23 literals pairwise is too costly for the verifier.
- `HtmlExportVisitor`: it only writes HTML to the console.
- `Display`, `ConfigureLayout`, `ListTemplates` and every `Console.WriteLine`: printing only; the state changes around them are modelled.
- `ToString` of `SubscriptionPlan`, `EmailCampaign` and the statistics visitor: culture-dependent number and date formatting.
- The Abstract Factory example, the processor factories and all interfaces: UI rendering to the console, or one-line constructors and declarations with no behaviour to state.
- The pattern runners and `Program.cs`: demo wiring and console output.
- `ICloneable.Clone` returns `object` and callers cast it. The model returns the concrete type, and the cast that cannot fail is not modelled.
- Callers that add to a template's metadata with `Dictionary.Add` would throw on a duplicate key. The model only covers the indexer assignments the modelled methods use.
