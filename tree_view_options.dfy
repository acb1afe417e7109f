/** TreeViewOptions.cs: the query descriptor every view is called with. */
module ViewOptions {
  import opened Wrappers
  import opened Tree

  /** C#'s `int.MaxValue`, the "no depth limit" setting. */
  const IntMaxValue: int := 0x7FFF_FFFF

  /** The options of one query; `searchTerm == None` is a null SearchTerm. */
  datatype TreeViewOptions = TreeViewOptions(
    includedTypes: set<NodeType>,
    maxDepth: int,
    includeHidden: bool,
    includeInactive: bool,
    searchTerm: Option<string>)

  /** `new TreeViewOptions()`: the property initialisers alone. */
  function NewOptions(): (o: TreeViewOptions)
    ensures forall t :: t !in o.includedTypes
    ensures o.maxDepth == IntMaxValue
    ensures !o.includeHidden && !o.includeInactive && o.searchTerm.None?
  {
    TreeViewOptions({}, IntMaxValue, false, false, None)
  }

  /** `TreeViewOptions.Default`, a new options value on every access. */
  function Default(): (o: TreeViewOptions)
    ensures forall t :: t in o.includedTypes <==> t == Department || t == Team || t == Project
    ensures o.maxDepth == IntMaxValue
    ensures !o.includeHidden && !o.includeInactive && o.searchTerm.None?
  {
    TreeViewOptions({Department, Team, Project}, IntMaxValue, false, false, None)
  }

  /** Default differs from a freshly constructed options value only in its permitted categories. */
  lemma DefaultIsNewWithThreeTypes()
    ensures Default() == NewOptions().(includedTypes := {Department, Team, Project})
    ensures Role !in Default().includedTypes && Employee !in Default().includedTypes
  {
  }
}
