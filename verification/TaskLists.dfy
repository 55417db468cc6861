/**
 * The one `pendList` node of each task, threaded through the free list, the recycle list, the 32 ready lists and the
 * wait lists of the semaphores, mutexes, queues and events (utils/los_list.h).
 */
module TaskLists {
  import opened Sequences
  import opened KernelState
  import opened DoubleList
  import opened Sched

  /** The nodes of the tasks of a list, in order. */
  function NodesOf(nodes: seq<ListNode>, s: seq<Tid>): (r: seq<ListNode>)
    requires forall t :: t in s ==> t < |nodes|
    ensures |r| == |s| && forall k :: 0 <= k < |s| ==> s[k] in s && r[k] == nodes[s[k]]
  {
    seq(|s|, k requires 0 <= k < |s| => assert s[k] in s; nodes[s[k]])
  }

  class ListPool {
    const nodes: seq<ListNode>
    const heads: map<ListId, ListNode>
    /** All list heads, as a set. */
    ghost const headSet: set<ListNode>
    ghost var lists: Lists

    /** Every list starts as a lone head, and no task is linked. */
    constructor (nodes: seq<ListNode>, heads: map<ListId, ListNode>)
      requires forall t :: 0 <= t < |nodes| ==> nodes[t].entry == Some(t)
      requires forall l :: l in heads ==> heads[l].entry == None && Ring(heads[l], [])
      requires forall l, m :: l in heads && m in heads && l != m ==> heads[l] != heads[m]
      ensures Valid() && lists == (map l | l in heads :: [])
      ensures this.nodes == nodes && this.heads == heads && headSet == heads.Values
    {
      this.nodes, this.heads := nodes, heads;
      headSet := heads.Values;
      lists := map l | l in heads :: [];
      new;
      assert forall l :: l in heads ==> NodesOf(nodes, []) == [] && ListIs(l, []);
    }

    /** Every node leads back to its task, and every list has a head of its own that belongs to no task. */
    ghost predicate Wired() {
      && (forall t :: 0 <= t < |nodes| ==> nodes[t].entry == Some(t))
      && (forall l :: l in heads ==> heads[l].entry == None && heads[l] in headSet)
      && (forall l, m :: l in heads && m in heads && l != m ==> heads[l] != heads[m])
    }

    /** Each task is on at most one list, once. */
    ghost predicate Apart(m: Lists) {
      && m.Keys == heads.Keys
      && (forall l :: l in m ==> NoDup(m[l]))
      && (forall l, t: Tid :: l in m && t in m[l] ==> t < |nodes|)
      && (forall l, l', t: Tid :: l in m && l' in m && t in m[l] && t in m[l'] ==> l == l')
    }

    ghost predicate ListIs(l: ListId, s: seq<Tid>)
      reads nodes, headSet
    {
      && l in heads && heads[l] in headSet && (forall t :: t in s ==> t < |nodes|)
      && Ring(heads[l], NodesOf(nodes, s))
    }

    ghost predicate Valid()
      reads this, nodes, headSet
    {
      Wired() && Apart(lists) && forall l :: l in lists ==> ListIs(l, lists[l])
    }

    ghost predicate Unlinked(t: Tid)
      reads this
    {
      forall l :: l in lists ==> t !in lists[l]
    }

    lemma NodeOf(l: ListId, k: nat)
      requires Valid() && l in lists && k < |lists[l]|
      ensures lists[l][k] < |nodes| && (forall t :: t in lists[l] ==> t < |nodes|)
      ensures Nth(heads[l], NodesOf(nodes, lists[l]), k + 1) == nodes[lists[l][k]]
      ensures nodes[lists[l][k]].entry == Some(lists[l][k])
    {
      assert lists[l][k] in lists[l];
      assert ListIs(l, lists[l]);
    }

    /** LOS_ListEmpty on a list of tasks. */
    method Empty(l: ListId) returns (empty: bool)
      requires Valid() && l in lists
      ensures empty <==> lists[l] == []
    {
      assert ListIs(l, lists[l]);
      empty := ListEmpty(heads[l], NodesOf(nodes, lists[l]));
    }

    /** OS_TCB_FROM_PENDLIST(LOS_DL_LIST_FIRST(...)): the first task of a list that is not empty. */
    method First(l: ListId) returns (t: Tid)
      requires Valid() && l in lists && lists[l] != []
      ensures t == lists[l][0]
    {
      assert ListIs(l, lists[l]);
      NodeOf(l, 0);
      Links(heads[l], NodesOf(nodes, lists[l]), 0);
      t := heads[l].next.entry.value;
    }

    /** The task behind `t` on list `l`; none when the walk is back at the head. */
    method Next(l: ListId, t: Tid, ghost k: nat) returns (next: Option<Tid>)
      requires Valid() && l in lists && k < |lists[l]| && lists[l][k] == t
      ensures next == if k + 1 < |lists[l]| then Some(lists[l][k + 1]) else None
    {
      assert ListIs(l, lists[l]);
      NodeOf(l, k);
      Links(heads[l], NodesOf(nodes, lists[l]), k + 1);
      if k + 1 < |lists[l]| {
        NodeOf(l, k + 1);
      }
      next := nodes[t].next.entry;
    }

    /** Linking `t` behind position `p` of list `l`. */
    method AddBehind(l: ListId, list: ListNode, t: Tid, ghost p: nat)
      requires Valid() && l in lists && t < |nodes| && Unlinked(t)
      requires p <= |lists[l]| && (forall x :: x in lists[l] ==> x < |nodes|)
      requires list == Nth(heads[l], NodesOf(nodes, lists[l]), p)
      modifies this, nodes, headSet
      ensures Valid() && lists == old(lists[l := lists[l][..p] + [t] + lists[l][p..]])
    {
      ghost var s := lists[l];
      AddReady(l, t, p);
      hide Valid, NodesOf, Nth, Ring, Apart, Wired, NoDup;
      ListAdd(list, nodes[t], heads[l], NodesOf(nodes, s), p);
      Relist(l, s[..p] + [t] + s[p..]);
    }

    /** What makes linking `t` behind position `p` sound. */
    lemma AddReady(l: ListId, t: Tid, p: nat)
      requires Valid() && l in lists && t < |nodes| && Unlinked(t)
      requires p <= |lists[l]| && (forall x :: x in lists[l] ==> x < |nodes|)
      ensures var s, r := lists[l], lists[l][..p] + [t] + lists[l][p..];
              var list := Nth(heads[l], NodesOf(nodes, s), p);
              && ListIs(l, s) && Apart(lists[l := r]) && Wired()
              && nodes[t] != heads[l] && nodes[t] !in NodesOf(nodes, s)
              && (forall x :: x in r ==> x < |nodes|)
              && NodesOf(nodes, r) == NodesOf(nodes, s)[..p] + [nodes[t]] + NodesOf(nodes, s)[p..]
              && list.next != null
              && (list == heads[l] || list in nodes) && (list.next == heads[l] || list.next in nodes)
              && Untouched(l, {list, nodes[t], list.next})
    {
      var s := lists[l];
      var list := Nth(heads[l], NodesOf(nodes, s), p);
      assert ListIs(l, s);
      Neighbours(l, p);
      Grown(s, p, t);
      ApartGrown(l, t, p);
      Others(l, t, {list, nodes[t], list.next});
      hide Valid, Ring, NodesOf, Apart, Untouched, NoDup, Nth;
    }

    /** The node at position `p` of a ring and its successor are the head or nodes of the tasks on the list. */
    lemma Neighbours(l: ListId, p: nat)
      requires Valid() && l in lists && p <= |lists[l]|
      ensures forall x :: x in lists[l] ==> x < |nodes|
      ensures var list := Nth(heads[l], NodesOf(nodes, lists[l]), p);
              && list.next != null
              && (list == heads[l] || exists u :: u in lists[l] && list == nodes[u])
              && (list.next == heads[l] || exists u :: u in lists[l] && list.next == nodes[u])
    {
      var s := lists[l];
      assert ListIs(l, s);
      Links(heads[l], NodesOf(nodes, s), p);
      if p > 0 {
        NodeOf(l, p - 1);
        assert s[p - 1] in s;
      }
      if p < |s| {
        NodeOf(l, p);
        assert s[p] in s;
      }
    }

    lemma ApartGrown(l: ListId, t: Tid, p: nat)
      requires Apart(lists) && l in lists && t < |nodes| && Unlinked(t) && p <= |lists[l]|
      ensures Apart(lists[l := lists[l][..p] + [t] + lists[l][p..]])
    {
      var r := lists[l][..p] + [t] + lists[l][p..];
      assert forall x :: x in r <==> x in lists[l] || x == t;
    }

    /** The rings of the other lists are sound, and none of their nodes is in `touched`. */
    ghost predicate Untouched(l: ListId, touched: set<ListNode?>)
      reads this, nodes, headSet
    {
      forall m :: m in lists && m != l ==>
        && ListIs(m, lists[m]) && heads[m] !in touched
        && forall x :: x in NodesOf(nodes, lists[m]) ==> x !in touched
    }

    ghost method Relist(l: ListId, r: seq<Tid>)
      requires Wired() && l in lists && Apart(lists[l := r]) && ListIs(l, r)
      requires forall m :: m in lists && m != l ==> ListIs(m, lists[m])
      modifies `lists
      ensures Valid() && lists == old(lists[l := r])
    {
      hide ListIs, Apart, Wired;
      lists := lists[l := r];
    }

    lemma Grown(s: seq<Tid>, p: nat, t: Tid)
      requires Wired() && t < |nodes| && p <= |s| && t !in s && NoDup(s) && forall x :: x in s ==> x < |nodes|
      ensures var r := s[..p] + [t] + s[p..];
              && NoDup(r) && (forall x :: x in r <==> x in s || x == t)
              && (forall x :: x in r ==> x < |nodes|)
              && NodesOf(nodes, r) == NodesOf(nodes, s)[..p] + [nodes[t]] + NodesOf(nodes, s)[p..]
              && nodes[t] !in NodesOf(nodes, s)
    {
      GrownNoDup(s, p, t);
      hide NoDup;
    }

    lemma GrownNoDup(s: seq<Tid>, p: nat, t: Tid)
      requires p <= |s| && t !in s && NoDup(s)
      ensures NoDup(s[..p] + [t] + s[p..])
    {
    }

    /** The nodes of the other lists are not among those that an operation on list `l` touches. */
    lemma Others(l: ListId, t: Tid, touched: set<ListNode?>)
      requires Valid() && l in lists && t < |nodes| && Unlinked(t)
      requires forall x :: x in touched ==>
                 || x == heads[l] || x == nodes[t]
                 || exists u: Tid :: u in lists[l] && u < |nodes| && x == nodes[u]
      ensures Untouched(l, touched)
    {
    }

    /** LOS_ListAdd behind the list head: `t` becomes the first task. */
    method Add(l: ListId, t: Tid)
      requires Valid() && l in lists && t < |nodes| && Unlinked(t)
      modifies this, nodes, headSet
      ensures Valid() && lists == PushFront(old(lists), l, t)
    {
      Neighbours(l, 0);
      assert lists[l][..0] + [t] + lists[l][0..] == [t] + lists[l];
      hide Valid, NodesOf, Ring;
      AddBehind(l, heads[l], t, 0);
    }

    /** LOS_ListTailInsert: `t` becomes the last task. */
    method TailInsert(l: ListId, t: Tid)
      requires Valid() && l in lists && t < |nodes| && Unlinked(t)
      modifies this, nodes, headSet
      ensures Valid() && lists == PushBack(old(lists), l, t)
    {
      ghost var n := |lists[l]|;
      Neighbours(l, n);
      Tail(l);
      assert lists[l][..n] + [t] + lists[l][n..] == lists[l] + [t];
      hide Valid, NodesOf, Ring, Nth;
      AddBehind(l, heads[l].prev, t, n);
    }

    lemma Tail(l: ListId)
      requires Valid() && l in lists
      ensures (forall x :: x in lists[l] ==> x < |nodes|) && l in heads
      ensures heads[l].prev == Nth(heads[l], NodesOf(nodes, lists[l]), |lists[l]|)
    {
      assert ListIs(l, lists[l]);
      Links(heads[l], NodesOf(nodes, lists[l]), |lists[l]|);
    }

    /** LOS_ListDelete: unlinking a task from whatever list it is on. */
    method Delete(t: Tid)
      requires Valid() && t < |nodes| && !Unlinked(t)
      modifies this, nodes, headSet
      ensures Valid() && lists == Unlink(old(lists), t)
    {
      ghost var l, p := Where(t);
      ghost var s := lists[l];
      ghost var r := DeleteReady(l, p);
      hide Valid, NodesOf, Nth, Ring, Apart, Wired, Untouched, NoDup, Sched.Unlink, Drop;
      ListDelete(nodes[t], heads[l], NodesOf(nodes, s), p);
      Relist(l, r);
    }

    lemma Where(t: Tid) returns (l: ListId, p: nat)
      requires !Unlinked(t)
      ensures l in lists && p < |lists[l]| && lists[l][p] == t
    {
      l :| l in lists && t in lists[l];
      p :| 0 <= p < |lists[l]| && lists[l][p] == t;
    }

    lemma Shrunk(s: seq<Tid>, p: nat)
      requires p < |s| && forall x :: x in s ==> x < |nodes|
      ensures var r := s[..p] + s[p + 1..];
              && (forall x :: x in r ==> x < |nodes|)
              && NodesOf(nodes, s)[p] == nodes[s[p]]
              && NodesOf(nodes, r) == NodesOf(nodes, s)[..p] + NodesOf(nodes, s)[p + 1..]
    {
      var r := s[..p] + s[p + 1..];
      assert forall x :: x in r ==> x in s;
    }

    lemma DeleteReady(l: ListId, p: nat) returns (r: seq<Tid>)
      requires Valid() && l in lists && p < |lists[l]|
      ensures r == lists[l][..p] + lists[l][p + 1..]
      ensures var s, t := lists[l], lists[l][p];
              && ListIs(l, s) && Apart(lists[l := r]) && Wired() && t < |nodes|
              && NodesOf(nodes, s)[p] == nodes[t]
              && (forall x :: x in r ==> x < |nodes|)
              && NodesOf(nodes, r) == NodesOf(nodes, s)[..p] + NodesOf(nodes, s)[p + 1..]
              && nodes[t].prev != null && nodes[t].next != null
              && (nodes[t].prev == heads[l] || nodes[t].prev in nodes)
                 && (nodes[t].next == heads[l] || nodes[t].next in nodes)
              && Untouched(l, {nodes[t].prev, nodes[t], nodes[t].next})
              && lists[l := r] == Unlink(lists, t)
    {
      var s, t := lists[l], lists[l][p];
      r := s[..p] + s[p + 1..];
      assert ListIs(l, s);
      NodeOf(l, p);
      Neighbours(l, p);
      Neighbours(l, p + 1);
      Links(heads[l], NodesOf(nodes, s), p);
      assert s[p] in s;
      ApartCut(l, p);
      Shrunk(s, p);
      OthersOf(l, {nodes[t].prev, nodes[t], nodes[t].next});
      Cut(l, p);
      hide Valid, Ring, Apart, Untouched, NoDup, Drop;
    }

    lemma ApartCut(l: ListId, p: nat)
      requires Apart(lists) && l in lists && p < |lists[l]|
      ensures Apart(lists[l := lists[l][..p] + lists[l][p + 1..]])
    {
      var r := lists[l][..p] + lists[l][p + 1..];
      assert forall x :: x in r ==> x in lists[l];
    }

    lemma Cut(l: ListId, p: nat)
      requires Apart(lists) && l in lists && p < |lists[l]|
      ensures lists[l := lists[l][..p] + lists[l][p + 1..]] == Unlink(lists, lists[l][p])
    {
      var t := lists[l][p];
      DropAt(lists[l], p);
      forall m | m in lists && m != l ensures Drop(lists[m], t) == lists[m] {
        assert t in lists[l];
      }
    }

    lemma OthersOf(l: ListId, touched: set<ListNode?>)
      requires Valid() && l in lists
      requires forall x :: x in touched ==>
                 x == heads[l] || exists u: Tid :: u in lists[l] && u < |nodes| && x == nodes[u]
      ensures Untouched(l, touched)
    {
    }
  }
}
