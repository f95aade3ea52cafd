/**
 * The tree of tasks the engine walks. Each element has a tag, string
 * attributes, its first text child (absent when the element has none),
 * its element children in document order, and a path that stands in for
 * the element's XPath: it identifies the element and is the resume key.
 */
module Tree {
  import opened Base

  type Path = string

  datatype Node = Node(
    tag: string,
    attrs: map<string, string>,
    text: Option<string>,
    children: seq<Node>,
    path: Path)

  /** The paths of `n` and of every element below it. */
  ghost function Paths(n: Node): set<Path>
    decreases n, 1
  {
    {n.path} + PathsFrom(n, 0)
  }

  /** The paths in the subtrees of the children of `n` from index `i` on. */
  ghost function PathsFrom(n: Node, i: nat): set<Path>
    decreases n, 0
  {
    set k, p | i <= k < |n.children| && p in Paths(n.children[k]) :: p
  }

  /** The paths strictly below `n`. */
  ghost function Desc(n: Node): set<Path>
  {
    PathsFrom(n, 0)
  }

  /**
   * No two elements of the tree share a path: the root's path is not
   * used below it, the subtrees of two siblings share no path, and the
   * same holds in every subtree.
   */
  ghost predicate Unique(n: Node)
    decreases n
  {
    && n.path !in Desc(n)
    && (forall i, j :: 0 <= i < j < |n.children| ==> Paths(n.children[i]) !! Paths(n.children[j]))
    && (forall i :: 0 <= i < |n.children| ==> Unique(n.children[i]))
  }

  lemma ChildPaths(n: Node, i: nat, k: nat)
    requires i <= k < |n.children|
    ensures Paths(n.children[k]) <= PathsFrom(n, i) <= Desc(n) <= Paths(n)
    ensures n.children[k].path in Paths(n.children[k])
  {
  }

  lemma DescPaths(n: Node, i: nat)
    ensures PathsFrom(n, i) <= Desc(n) <= Paths(n)
    ensures n.path in Paths(n)
  {
  }

  lemma PathsFromStep(n: Node, i: nat)
    requires i < |n.children|
    ensures PathsFrom(n, i) == Paths(n.children[i]) + PathsFrom(n, i + 1)
  {
  }

  lemma PathsFromEnd(n: Node, i: nat)
    requires i == |n.children|
    ensures PathsFrom(n, i) == {}
  {
  }

  /** In a tree with unique paths, distinct siblings have disjoint subtrees. */
  lemma SiblingsDisjoint(n: Node, i: nat, k: nat)
    requires Unique(n)
    requires i < |n.children| && k < |n.children| && i != k
    ensures Paths(n.children[i]) !! Paths(n.children[k])
  {
    if i > k {
      assert Paths(n.children[k]) !! Paths(n.children[i]);
    }
  }
}
