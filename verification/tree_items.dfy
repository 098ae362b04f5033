/**
 * The value objects a tree view shows: an item with a label, a collapsible
 * state and an optional command run when the item is activated.
 */
module TreeItems {
  import opened Wrappers

  /** VS Code's TreeItemCollapsibleState; `NoChildren` is its `None` (a leaf). */
  datatype CollapsibleState = NoChildren | Collapsed | Expanded

  /** A positional argument of an activation command. */
  datatype Argument = Text(text: string) | FileUri(path: string)

  /** A command bound to a tree item: its identifier, its title and its arguments. */
  datatype Command = Command(command: string, title: string, arguments: seq<Argument>)

  /** `GitItem`: a tree item built from a label (`caption`), a collapsible state and an optional command. */
  datatype GitItem = GitItem(caption: string, collapsible: CollapsibleState, command: Option<Command>)

  /** `path.join(root, rel)` as plain concatenation with a `/` separator;
      an empty relative part leaves the root as it is. */
  function JoinPath(root: string, rel: string): (p: string)
    ensures rel == [] ==> p == root
    ensures rel != [] ==> |p| == |root| + 1 + |rel| && p[..|root|] == root && p[|root|] == '/' && p[|root| + 1..] == rel
  {
    if rel == [] then root else root + "/" + rel
  }
}
