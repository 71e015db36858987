/** The parse tree of `parse_tree.py`: nodes with a parent pointer and an
    ordered list of children, and a tree object with a root and a movable
    current node under which new nodes are attached. */
module ParseTrees {
  import opened Py

  /** The list comprehension of `get_siblings`: the nodes of `cs`, in
      order, other than `n` (compared by identity, as Python does for
      objects without `__eq__`). */
  function Others(cs: seq<ParseTreeNode>, n: ParseTreeNode): (r: seq<ParseTreeNode>)
    ensures forall i :: 0 <= i < |r| ==> r[i] in cs && r[i] != n
    ensures forall i :: 0 <= i < |cs| && cs[i] != n ==> cs[i] in r
    ensures |r| == |cs| - multiset(cs)[n]
    ensures n !in cs ==> r == cs
  {
    if cs == [] then []
    else
      var init, last := cs[..|cs| - 1], cs[|cs| - 1];
      assert cs == init + [last];
      Others(init, n) + (if last == n then [] else [last])
  }

  /** The comprehension keeps order: filtering a concatenation filters
      each part. */
  lemma {:induction false} OthersAppend(a: seq<ParseTreeNode>, b: seq<ParseTreeNode>, n: ParseTreeNode)
    ensures Others(a + b, n) == Others(a, n) + Others(b, n)
    decreases |b|
  {
    if b == [] {
      assert a + b == a;
    } else {
      var init, last := b[..|b| - 1], b[|b| - 1];
      var keep := if last == n then [] else [last];
      assert (a + b)[..|a + b| - 1] == a + init;
      assert (a + b)[|a + b| - 1] == last;
      assert Others(b, n) == Others(init, n) + keep;
      OthersAppend(a, init, n);
      assert (Others(a, n) + Others(init, n)) + keep == Others(a, n) + (Others(init, n) + keep);
    }
  }

  /** A single node is kept exactly when it is not `n`. */
  lemma OthersSingleton(c: ParseTreeNode, n: ParseTreeNode)
    ensures Others([c], n) == (if c == n then [] else [c])
  {
    assert [c][..0] == [];
  }

  /** The siblings of a node that occurs once among its parent's children
      are the children before it followed by those after it. */
  lemma SiblingsAround(node: ParseTreeNode, before: seq<ParseTreeNode>, after: seq<ParseTreeNode>)
    requires node.parent != null && node.parent.children == before + [node] + after
    requires node !in before && node !in after
    ensures node.Siblings() == before + after
  {
    OthersAppend(before + [node], after, node);
    OthersAppend(before, [node], node);
    OthersSingleton(node, node);
  }

  class ParseTreeNode {
    var value: string
    var children: seq<ParseTreeNode>
    var parent: ParseTreeNode?
    /** `non-terminal`, `terminal` or `epsilon`. */
    var nodeType: string

    constructor (value: string, nodeType: string)
      ensures this.value == value && this.nodeType == nodeType && children == [] && parent == null
    {
      this.value := value;
      this.nodeType := nodeType;
      children := [];
      parent := null;
    }

    /** `add_child`: the child's parent becomes this node and the child is
        appended as the last child, whatever it was attached to before. */
    method AddChild(child: ParseTreeNode)
      modifies this, child
      ensures child.parent == this
      ensures children == old(children) + [child]
      ensures value == old(value) && nodeType == old(nodeType)
      ensures child != this ==> parent == old(parent) && child.children == old(child.children)
      ensures child.value == old(child.value) && child.nodeType == old(child.nodeType)
    {
      child.parent := this;
      children := children + [child];
    }

    /** `get_siblings`: none for a node without a parent, otherwise the
        parent's children other than this node, in order. */
    function Siblings(): (r: seq<ParseTreeNode>)
      reads this, parent
      ensures parent == null ==> r == []
      ensures parent != null ==> forall i :: 0 <= i < |r| ==> r[i] in parent.children && r[i] != this
      ensures parent != null ==> forall i :: 0 <= i < |parent.children| && parent.children[i] != this ==> parent.children[i] in r
      ensures parent != null && this in parent.children ==> |r| == |parent.children| - multiset(parent.children)[this]
    {
      if parent == null then [] else Others(parent.children, this)
    }
  }

  /** `"  " * level`. */
  function Indent(level: nat): (s: string)
    ensures |s| == 2 * level && forall j :: 0 <= j < |s| ==> s[j] == ' '
  {
    if level == 0 then "" else Indent(level - 1) + "  "
  }

  /** The line `print_tree` prints for a node at depth `level`. */
  function NodeLine(value: string, nodeType: string, level: nat): string {
    Indent(level) + "|_" + value + " (" + nodeType + ")"
  }

  /** `line` starts with (at least) `level` indentation steps. */
  predicate Indented(line: string, level: nat) {
    2 * level <= |line| && forall j :: 0 <= j < 2 * level ==> line[j] == ' '
  }

  class ParseTree {
    var root: ParseTreeNode?
    var currentNode: ParseTreeNode?
    /** The nodes the tree has created, each ranked after the node it was
        attached under: the children of a node always rank higher, so no
        node is its own descendant. */
    ghost var rank: map<ParseTreeNode, nat>
    ghost var size: nat

    ghost predicate Valid()
      reads this, rank.Keys
    {
      && (root != null ==> root in rank)
      && (forall n :: n in rank ==> rank[n] < size)
      && (forall n, c :: n in rank && c in n.children ==> c in rank && rank[n] < rank[c])
    }

    constructor ()
      ensures Valid() && root == null && currentNode == null && rank == map[]
    {
      root, currentNode := null, null;
      rank, size := map[], 0;
    }

    /** `set_root`: a fresh non-terminal root, which becomes current. */
    method SetRoot(value: string)
      requires Valid()
      modifies this
      ensures Valid() && fresh(root) && currentNode == root
      ensures root.value == value && root.nodeType == "non-terminal" && root.children == [] && root.parent == null
      ensures rank.Keys == old(rank.Keys) + {root}
    {
      var node := new ParseTreeNode(value, "non-terminal");
      root := node;
      currentNode := node;
      rank := rank[node := size];
      size := size + 1;
    }

    /** `add_node`: on an empty tree it creates the root (ignoring
        `nodeType`) and makes it current; otherwise it attaches a fresh node
        as the last child of the current node, which stays current. With no
        current node it raises AttributeError. */
    method AddNode(value: string, nodeType: string) returns (n: ParseTreeNode?, exc: Option<Exc>)
      requires Valid()
      modifies this, currentNode
      ensures Valid()
      ensures old(root) == null ==>
                (exc.None? && n == root && fresh(n) && currentNode == n &&
                 n.value == value && n.nodeType == "non-terminal" && n.children == [] && n.parent == null)
      ensures old(root) != null && old(currentNode) == null ==>
                (exc == Some(AttributeError) && n == null && root == old(root) && currentNode == null)
      ensures old(root) != null && old(currentNode) != null ==>
                (exc.None? && n != null && fresh(n) && root == old(root) && currentNode == old(currentNode) &&
                 n.value == value && n.nodeType == nodeType && n.children == [] && n.parent == currentNode &&
                 currentNode.children == old(currentNode.children) + [n] &&
                 n.Siblings() == old(currentNode.children))
    {
      if root == null {
        SetRoot(value);
        return root, None;
      }
      if currentNode == null {
        return null, Some(AttributeError);
      }
      var node := new ParseTreeNode(value, nodeType);
      currentNode.AddChild(node);
      rank := rank[node := size];
      size := size + 1;
      assert (old(currentNode.children) + [node])[..|old(currentNode.children)|] == old(currentNode.children);
      return node, None;
    }

    /** `move_to`. */
    method MoveTo(node: ParseTreeNode?)
      modifies this`currentNode
      ensures currentNode == node
    {
      currentNode := node;
    }

    /** `move_up`: to the parent of the current node if it has one; at the
        root nothing changes. With no current node it raises
        AttributeError. */
    method MoveUp() returns (exc: Option<Exc>)
      modifies this`currentNode
      ensures exc.Some? <==> old(currentNode) == null
      ensures exc.Some? ==> exc.value == AttributeError
      ensures old(currentNode) != null ==>
        currentNode == if old(currentNode.parent) != null then old(currentNode.parent) else old(currentNode)
    {
      if currentNode == null {
        return Some(AttributeError);
      }
      if currentNode.parent != null {
        currentNode := currentNode.parent;
      }
      return None;
    }

    /** The lines `print_tree(n, level)` prints: the node's own line, then
        the lines of each child one level deeper, in order (pre-order). */
    function Lines(n: ParseTreeNode, level: nat): (r: seq<string>)
      requires Valid() && n in rank
      reads this, rank.Keys
      ensures |r| >= 1 && r[0] == NodeLine(n.value, n.nodeType, level)
      ensures forall i :: 0 <= i < |r| ==> Indented(r[i], level)
      ensures forall i :: 1 <= i < |r| ==> Indented(r[i], level + 1)
      decreases size - rank[n], |n.children| + 1
    {
      [NodeLine(n.value, n.nodeType, level)] + ChildLines(n, 0, level + 1)
    }

    /** The lines of the children of `n` from the `i`-th on, at `level`. */
    function ChildLines(n: ParseTreeNode, i: nat, level: nat): (r: seq<string>)
      requires Valid() && n in rank && i <= |n.children|
      reads this, rank.Keys
      ensures forall j :: 0 <= j < |r| ==> Indented(r[j], level)
      ensures |r| >= |n.children| - i
      decreases size - rank[n], |n.children| - i
    {
      if i == |n.children| then []
      else Lines(n.children[i], level) + ChildLines(n, i + 1, level)
    }

    /** `print_tree(node, level)`: with no node it prints from the root;
        with neither it raises AttributeError. */
    function PrintTree(node: ParseTreeNode?, level: nat): (r: Option<seq<string>>)
      requires Valid() && (node == null || node in rank)
      reads this, rank.Keys
      ensures r.None? <==> node == null && root == null
      ensures r.Some? ==> |r.value| >= 1
      ensures r.Some? && node != null ==> r.value[0] == NodeLine(node.value, node.nodeType, level)
      ensures r.Some? && node == null ==> r.value[0] == NodeLine(root.value, root.nodeType, level)
    {
      if node != null then Some(Lines(node, level))
      else if root != null then Some(Lines(root, level))
      else None
    }
  }

  /** The first line of a node's printout is unindented at depth 0, and
      every later line, a descendant's, is indented by at least one step. */
  lemma RootLineFirst(tree: ParseTree)
    requires tree.Valid() && tree.root != null
    ensures var r := tree.PrintTree(null, 0);
      r.Some? && r.value[0] == "|_" + tree.root.value + " (" + tree.root.nodeType + ")" &&
      forall i :: 1 <= i < |r.value| ==> |r.value[i]| >= 2 && r.value[i][..2] == "  "
  {
    var r := tree.PrintTree(null, 0).value;
    assert Indent(0) == "";
    forall i | 1 <= i < |r| ensures |r[i]| >= 2 && r[i][..2] == "  " {
      assert Indented(r[i], 1);
    }
  }
}
