/** utils/los_list.h: the circular doubly linked list that every kernel list is threaded through. */
module DoubleList {
  import opened Sequences

  /** LOS_DL_LIST. `entry` stands for LOS_DL_LIST_ENTRY: which record encloses the node; a list head has none. */
  class ListNode {
    const entry: Option<nat>
    var prev: ListNode?
    var next: ListNode?

    constructor (entry: Option<nat>)
      ensures this.entry == entry && prev == null && next == null
    {
      this.entry := entry;
      prev, next := null, null;
    }
  }

  /** The node at position `i` of the ring: the head stands at both ends. */
  function Nth(h: ListNode, s: seq<ListNode>, i: nat): ListNode
    requires i <= |s| + 1
  {
    if i == 0 || i == |s| + 1 then h else s[i - 1]
  }

  /** From `h`, the `next` pointers lead through `s` and back to `h`, and the `prev` pointers lead back the same way. */
  ghost predicate Ring(h: ListNode, s: seq<ListNode>)
    reads h, s
  {
    && h !in s && NoDup(s)
    && forall i :: 0 <= i <= |s| ==>
         && Nth(h, s, i).next == Nth(h, s, i + 1)
         && Nth(h, s, i + 1).prev == Nth(h, s, i)
  }

  lemma Apart(h: ListNode, s: seq<ListNode>, i: nat, j: nat)
    requires h !in s && NoDup(s) && i < j <= |s| + 1 && (i, j) != (0, |s| + 1)
    ensures Nth(h, s, i) != Nth(h, s, j)
  {
    if i > 0 {
      assert s[i - 1] in s;
    } else {
      assert s[j - 1] in s;
    }
  }

  /** What the pointers of the node at position `i`, and of its successor, say. */
  lemma Links(h: ListNode, s: seq<ListNode>, i: nat)
    requires Ring(h, s) && i <= |s|
    ensures Nth(h, s, i).next == Nth(h, s, i + 1) && Nth(h, s, i + 1).prev == Nth(h, s, i)
  {
  }

  /** LOS_ListInit */
  method ListInit(h: ListNode)
    modifies h
    ensures Ring(h, [])
  {
    h.next := h;
    h.prev := h;
  }

  /** LOS_ListAdd: `node` goes behind `list`, which may be any node of the ring. */
  method ListAdd(list: ListNode, node: ListNode, ghost h: ListNode, ghost s: seq<ListNode>, ghost p: nat)
    requires Ring(h, s) && p <= |s| && list == Nth(h, s, p)
    requires node != h && node !in s
    modifies list, node, list.next
    ensures Ring(h, s[..p] + [node] + s[p..])
  {
    assert list.next == Nth(h, s, p + 1);
    node.next := list.next;
    node.prev := list;
    list.next.prev := node;
    list.next := node;
    ghost var r := s[..p] + [node] + s[p..];
    forall i | 0 <= i <= |r|
      ensures Nth(h, r, i).next == Nth(h, r, i + 1) && Nth(h, r, i + 1).prev == Nth(h, r, i)
    {
      if i < p {
        Apart(h, s, i, p);
        Apart(h, s, i + 1, p + 1);
        assert Nth(h, r, i) == Nth(h, s, i) && Nth(h, r, i + 1) == Nth(h, s, i + 1);
      } else if i > p + 1 {
        Apart(h, s, p, i - 1);
        Apart(h, s, p + 1, i);
        assert Nth(h, r, i) == Nth(h, s, i - 1) && Nth(h, r, i + 1) == Nth(h, s, i);
      }
    }
  }

  /** LOS_ListTailInsert */
  method ListTailInsert(h: ListNode, node: ListNode, ghost s: seq<ListNode>)
    requires Ring(h, s) && node != h && node !in s
    modifies h, node, h.prev
    ensures Ring(h, s + [node])
  {
    assert Nth(h, s, |s| + 1).prev == Nth(h, s, |s|);
    ListAdd(h.prev, node, h, s, |s|);
    assert s[..|s|] + [node] + s[|s|..] == s + [node];
  }

  /** LOS_ListDelete: the node is unlinked without knowing which list it is on. */
  method ListDelete(node: ListNode, ghost h: ListNode, ghost s: seq<ListNode>, ghost p: nat)
    requires Ring(h, s) && p < |s| && s[p] == node
    modifies node, node.prev, node.next
    ensures Ring(h, s[..p] + s[p + 1..])
    ensures node.next == null && node.prev == null
  {
    assert node == Nth(h, s, p + 1);
    assert node.next == Nth(h, s, p + 2) && node.prev == Nth(h, s, p);
    node.next.prev := node.prev;
    node.prev.next := node.next;
    node.next := null;
    node.prev := null;
    ghost var r := s[..p] + s[p + 1..];
    forall i | 0 <= i <= |r|
      ensures Nth(h, r, i).next == Nth(h, r, i + 1) && Nth(h, r, i + 1).prev == Nth(h, r, i)
    {
      if i < p {
        Apart(h, s, i, p);
        Apart(h, s, i, p + 1);
        assert Nth(h, r, i) == Nth(h, s, i) && Nth(h, r, i + 1) == Nth(h, s, i + 1);
      } else if i > p {
        Apart(h, s, p + 1, i + 1);
        Apart(h, s, p + 2, i + 2);
        assert Nth(h, r, i) == Nth(h, s, i + 1) && Nth(h, r, i + 1) == Nth(h, s, i + 2);
      }
    }
  }

  /** LOS_ListEmpty */
  method ListEmpty(h: ListNode, ghost s: seq<ListNode>) returns (empty: bool)
    requires Ring(h, s)
    ensures empty <==> s == []
  {
    assert Nth(h, s, 0).next == Nth(h, s, 1);
    empty := h.next == h;
  }
}
