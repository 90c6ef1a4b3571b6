/**
 * The vocabulary trie the scorers walk: a read-only tree whose nodes have 27
 * child slots (one per letter label) and a frequency. The root stands for the
 * empty prefix and its frequency is the corpus total. Nodes are named by ids;
 * a cursor is an optional id (absent where the source holds a null pointer).
 */
module Tries {
  import opened Options

  const ChildCount: int := 27

  type NodeId = nat

  datatype TrieNode = TrieNode(frequency: nat, children: seq<Option<NodeId>>)

  datatype Trie = Trie(nodes: map<NodeId, TrieNode>, root: NodeId)

  /** A cursor is absent or names a node of the trie. */
  predicate IsCursor(t: Trie, c: Option<NodeId>) {
    c.None? || c.value in t.nodes
  }

  /**
   * A deserialized trie: the root exists and has a positive frequency, every
   * node has one slot per letter label, and every child is a node of the trie.
   */
  ghost predicate ValidTrie(t: Trie) {
    && t.root in t.nodes
    && t.nodes[t.root].frequency > 0
    && forall id | id in t.nodes ::
         && |t.nodes[id].children| == ChildCount
         && forall k | 0 <= k < ChildCount :: IsCursor(t, t.nodes[id].children[k])
  }

  function GetChildAt(t: Trie, id: NodeId, lbl: int): (child: Option<NodeId>)
    requires ValidTrie(t) && id in t.nodes && 0 <= lbl < ChildCount
    ensures IsCursor(t, child)
  {
    t.nodes[id].children[lbl]
  }

  function GetFrequency(t: Trie, id: NodeId): nat
    requires id in t.nodes
  {
    t.nodes[id].frequency
  }

  /** One label's move of a cursor: an absent cursor stays absent. */
  function Step(t: Trie, c: Option<NodeId>, lbl: int): (r: Option<NodeId>)
    requires ValidTrie(t) && IsCursor(t, c) && 0 <= lbl < ChildCount
    ensures IsCursor(t, r)
    ensures c.None? ==> r.None?
    ensures c.Some? ==> r == GetChildAt(t, c.value, lbl)
  {
    if c.None? then None else GetChildAt(t, c.value, lbl)
  }

  predicate ChildLabels(labels: seq<int>) {
    forall i :: 0 <= i < |labels| ==> 0 <= labels[i] < ChildCount
  }

  /** The node of a label sequence, walking from the root; absent if it is not a prefix of the trie. */
  function Descend(t: Trie, labels: seq<int>): (r: Option<NodeId>)
    requires ValidTrie(t) && ChildLabels(labels)
    ensures IsCursor(t, r)
    decreases |labels|
  {
    if labels == [] then Some(t.root)
    else Step(t, Descend(t, labels[..|labels| - 1]), labels[|labels| - 1])
  }

  /** Once a prefix is missing from the trie, so is every extension of it. */
  lemma {:induction false} DescendAbsentStaysAbsent(t: Trie, p: seq<int>, q: seq<int>)
    requires ValidTrie(t) && ChildLabels(p) && ChildLabels(q)
    requires Descend(t, p).None?
    ensures ChildLabels(p + q) && Descend(t, p + q).None?
    decreases |q|
  {
    if q != [] {
      var q' := q[..|q| - 1];
      assert (p + q)[..|p + q| - 1] == p + q';
      DescendAbsentStaysAbsent(t, p, q');
    } else {
      assert p + q == p;
    }
  }
}
