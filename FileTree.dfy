/**
 * The file explorer (apps/web/src/components/editor/file-tree.tsx): the set
 * of expanded folders, the click rule, and the rows `FileTreeNode` renders
 * for a tree, each with its indentation and its active/expanded marks.
 */
module FileTree {
  import opened Wrappers

  datatype Kind = File | Folder

  /**
   * A node of the tree.  An absent `children` and an empty one render the
   * same rows, so both are the empty sequence here.
   */
  datatype FileNode = FileNode(id: string, name: string, kind: Kind, children: seq<FileNode>)

  /** One rendered button: the node, its depth, its left padding in pixels, and its marks. */
  datatype Row = Row(id: string, name: string, kind: Kind, level: nat, indent: int, expanded: bool, active: bool)

  /** `level * 12 + 8` pixels. */
  function Indent(level: nat): (px: int)
    ensures px >= 8 && (px - 8) % 12 == 0
  {
    level * 12 + 8
  }

  /** Whether a node's children are rendered: a folder that is expanded. */
  predicate ShowsChildren(n: FileNode, expanded: set<string>)
  {
    n.kind == Folder && n.id in expanded
  }

  /** The rows `FileTreeNode` renders for `nodes` at depth `level`, in document order. */
  function Rows(nodes: seq<FileNode>, level: nat, expanded: set<string>, active: Option<string>): seq<Row>
    decreases nodes
  {
    if |nodes| == 0 then []
    else NodeRows(nodes[0], level, expanded, active) + Rows(nodes[1..], level, expanded, active)
  }

  /** A node's own row, followed by its children's rows one level deeper when it shows them. */
  function NodeRows(n: FileNode, level: nat, expanded: set<string>, active: Option<string>): seq<Row>
    decreases n
  {
    [Row(n.id, n.name, n.kind, level, Indent(level), n.id in expanded, active == Some(n.id))]
    + (if ShowsChildren(n, expanded) then Rows(n.children, level + 1, expanded, active) else [])
  }

  /**
   * Every row rendered at depth `level` or below is indented by its own
   * depth, sits no higher than `level`, and is active exactly when its id is
   * the active file's.
   */
  lemma {:induction false} RowsWellFormed(nodes: seq<FileNode>, level: nat, expanded: set<string>, active: Option<string>)
    ensures forall r :: r in Rows(nodes, level, expanded, active) ==>
      r.level >= level && r.indent == Indent(r.level) && (r.active <==> active == Some(r.id))
    decreases nodes
  {
    if |nodes| > 0 {
      NodeRowsWellFormed(nodes[0], level, expanded, active);
      RowsWellFormed(nodes[1..], level, expanded, active);
    }
  }

  lemma {:induction false} NodeRowsWellFormed(n: FileNode, level: nat, expanded: set<string>, active: Option<string>)
    ensures forall r :: r in NodeRows(n, level, expanded, active) ==>
      r.level >= level && r.indent == Indent(r.level) && (r.active <==> active == Some(r.id))
    decreases n
  {
    if ShowsChildren(n, expanded) {
      RowsWellFormed(n.children, level + 1, expanded, active);
    }
  }

  /**
   * Under an expanded folder, every row after the folder's own is indented at
   * least one step (12 px) further than the folder.
   */
  lemma {:induction false} ChildrenIndentedFurther(n: FileNode, level: nat, expanded: set<string>, active: Option<string>)
    requires ShowsChildren(n, expanded)
    ensures |NodeRows(n, level, expanded, active)| >= 1
    ensures NodeRows(n, level, expanded, active)[0].indent == Indent(level)
    ensures forall r :: r in NodeRows(n, level, expanded, active)[1..] ==> r.indent >= Indent(level) + 12
  {
    var rows := NodeRows(n, level, expanded, active);
    assert rows[1..] == Rows(n.children, level + 1, expanded, active);
    RowsWellFormed(n.children, level + 1, expanded, active);
  }

  /** With no folder expanded, exactly the top-level nodes are rendered, one row each, in order, at depth 0. */
  lemma {:induction false} CollapsedTreeShowsTopLevel(nodes: seq<FileNode>, active: Option<string>)
    ensures |Rows(nodes, 0, {}, active)| == |nodes|
    ensures forall i :: 0 <= i < |nodes| ==>
      Rows(nodes, 0, {}, active)[i].id == nodes[i].id && Rows(nodes, 0, {}, active)[i].indent == 8
    decreases nodes
  {
    if |nodes| > 0 {
      CollapsedTreeShowsTopLevel(nodes[1..], active);
      var rest := Rows(nodes[1..], 0, {}, active);
      assert Rows(nodes, 0, {}, active) == NodeRows(nodes[0], 0, {}, active) + rest;
      assert forall i :: 1 <= i < |nodes| ==> nodes[i] == nodes[1..][i - 1];
    }
  }

  /** A collapsed folder, or a file, renders as its own row alone, whatever lies below it. */
  lemma HiddenChildren(n: FileNode, level: nat, expanded: set<string>, active: Option<string>)
    requires n.kind == File || n.id !in expanded
    ensures NodeRows(n, level, expanded, active) == [Row(n.id, n.name, n.kind, level, Indent(level), n.id in expanded, active == Some(n.id))]
  {
  }

  /** `toggleFolder` on a set of ids. */
  function Toggled(s: set<string>, id: string): (r: set<string>)
    ensures id in r <==> id !in s
    ensures forall x :: x != id ==> (x in r <==> x in s)
  {
    if id in s then s - {id} else s + {id}
  }

  /** Toggling the same folder twice restores the set. */
  lemma ToggleTwice(s: set<string>, id: string)
    ensures Toggled(Toggled(s, id), id) == s
  {
  }

  /** What a click on a node's button does: a folder is toggled, a file is selected, never both. */
  datatype Click = ToggleFolder(folderId: string) | SelectFile(fileId: string)

  function ClickAction(n: FileNode): (c: Click)
    ensures c.ToggleFolder? <==> n.kind == Folder
    ensures c.ToggleFolder? ==> c.folderId == n.id
    ensures c.SelectFile? ==> c.fileId == n.id
  {
    if n.kind == Folder then ToggleFolder(n.id) else SelectFile(n.id)
  }

  class FileTree {
    var expandedFolders: set<string>

    constructor ()
      ensures expandedFolders == {}
    {
      expandedFolders := {};
    }

    /** `toggleFolder`: the id is removed when present and added when absent; no other id changes. */
    method ToggleFolder(id: string)
      modifies this
      ensures expandedFolders == Toggled(old(expandedFolders), id)
    {
      var next := expandedFolders;
      if id in next {
        next := next - {id};
      } else {
        next := next + {id};
      }
      expandedFolders := next;
    }

    /** The button's click handler: a folder toggles, a file is reported to `onFileSelect`. */
    method OnClick(n: FileNode) returns (selected: Option<string>)
      modifies this
      ensures n.kind == Folder ==> expandedFolders == Toggled(old(expandedFolders), n.id) && selected.None?
      ensures n.kind == File ==> expandedFolders == old(expandedFolders) && selected == Some(n.id)
    {
      match ClickAction(n) {
        case ToggleFolder(id) =>
          ToggleFolder(id);
          selected := None;
        case SelectFile(id) =>
          selected := Some(id);
      }
    }
  }
}
