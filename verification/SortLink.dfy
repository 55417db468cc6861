/** kernel/src/los_sortlink.c on the real ring of nodes: a deadline queue sorted by response time. */
module SortLink {
  import opened Sequences
  import opened Deadlines
  import opened DoubleList

  /** OS_SORT_LINK_INVALID_TIME: the response time of a record that is not linked. */
  const INVALID_TIME := 0xFFFF_FFFF_FFFF_FFFF

  /** One record that can wait: its list node, and the absolute time it waits for. */
  class SortLinkList {
    const id: nat
    const node: ListNode
    var responseTime: nat

    constructor (id: nat)
      ensures this.id == id && node.entry == Some(id) && responseTime == INVALID_TIME && fresh(node)
    {
      this.id := id;
      node := new ListNode(Some(id));
      responseTime := INVALID_TIME;
    }
  }

  function Nodes(s: seq<SortLinkList>): (r: seq<ListNode>)
    ensures |r| == |s| && forall k :: 0 <= k < |s| ==> r[k] == s[k].node
  {
    seq(|s|, k requires 0 <= k < |s| => s[k].node)
  }

  function Times(s: seq<SortLinkList>): (r: seq<Entry>)
    reads s
    ensures |r| == |s| && forall k :: 0 <= k < |s| ==> r[k] == Entry(s[k].id, s[k].responseTime)
  {
    seq(|s|, k requires 0 <= k < |s| reads s => Entry(s[k].id, s[k].responseTime))
  }

  lemma NodesSplice(s: seq<SortLinkList>, p: nat, x: SortLinkList)
    requires p <= |s|
    ensures Nodes(s[..p] + [x] + s[p..]) == Nodes(s)[..p] + [x.node] + Nodes(s)[p..]
  {
    hide Nodes;
  }

  lemma TimesSplice(s: seq<SortLinkList>, p: nat, x: SortLinkList)
    requires p <= |s|
    ensures Times(s[..p] + [x] + s[p..]) == Times(s)[..p] + [Entry(x.id, x.responseTime)] + Times(s)[p..]
  {
    hide Times;
  }

  lemma NodesCut(s: seq<SortLinkList>, p: nat)
    requires p < |s|
    ensures Nodes(s[..p] + s[p + 1..]) == Nodes(s)[..p] + Nodes(s)[p + 1..]
  {
    hide Nodes;
  }

  lemma TimesCut(s: seq<SortLinkList>, p: nat)
    requires p < |s|
    ensures Times(s[..p] + s[p + 1..]) == Times(s)[..p] + Times(s)[p + 1..]
  {
    hide Times;
  }

  lemma SpliceNoDup<T>(s: seq<T>, p: nat, x: T)
    requires NoDup(s) && p <= |s| && x !in s
    ensures NoDup(s[..p] + [x] + s[p..])
    ensures forall y {:trigger y in s[..p] + [x] + s[p..]} :: y in s[..p] + [x] + s[p..] <==> y in s || y == x
  {
    var r := s[..p] + [x] + s[p..];
    forall i | 0 <= i < |r| ensures r[i] == if i < p then s[i] else if i == p then x else s[i - 1] {
    }
  }

  lemma CutNoDup<T>(s: seq<T>, p: nat)
    requires NoDup(s) && p < |s|
    ensures NoDup(s[..p] + s[p + 1..])
    ensures forall y {:trigger y in s[..p] + s[p + 1..]} :: y in s[..p] + s[p + 1..] <==> y in s && y != s[p]
  {
    var r := s[..p] + s[p + 1..];
    forall i | 0 <= i < |r| ensures r[i] == if i < p then s[i] else s[i + 1] {
    }
  }

  /** The linked records, by deadline; record `i` of `items` belongs to task or timer `i`. */
  class SortLinkAttribute {
    const sortLink: ListNode
    const items: seq<SortLinkList>
    ghost const nodes: seq<ListNode>
    ghost var order: seq<SortLinkList>

    constructor (items: seq<SortLinkList>)
      requires Wired(items)
      requires forall i :: 0 <= i < |items| ==> items[i].responseTime == INVALID_TIME
      ensures Valid() && order == [] && this.items == items && fresh(sortLink)
    {
      this.items := items;
      nodes := Nodes(items);
      var head := new ListNode(None);
      sortLink := head;
      order := [];
      new;
      ListInit(sortLink);
    }

    /** The ring is sound; the record about to be inserted may already carry its time. */
    ghost predicate Chained()
      reads this, sortLink, nodes
    {
      && Wired(items) && nodes == Nodes(items)
      && sortLink.entry == None
      && (forall x :: x in order ==> x in items && x.node in nodes)
      && NoDup(order)
      && Ring(sortLink, Nodes(order))
    }

    ghost predicate Valid()
      reads this, sortLink, nodes, items
    {
      && Chained()
      && Sorted(Entries())
      && forall x :: x in items ==> (x in order <==> x.responseTime != INVALID_TIME)
    }

    ghost function Entries(): seq<Entry>
      reads this, order
    {
      Times(order)
    }

    lemma EntriesUnique()
      requires Chained()
      ensures UniqueIds(Entries())
      ensures forall x :: x in items ==> (Linked(Entries(), x.id) <==> x in order)
    {
      forall i, j | 0 <= i < j < |order| ensures order[i].id != order[j].id {
        assert order[i] in items && order[j] in items;
      }
      forall x | x in items ensures Linked(Entries(), x.id) <==> x in order {
        if x in order {
          var k :| 0 <= k < |order| && order[k] == x;
          assert Entries()[k] in Entries();
        }
        if Linked(Entries(), x.id) {
          var k :| 0 <= k < |order| && Entries()[k].id == x.id;
          assert order[k] in items;
        }
      }
    }

    lemma NodeAt(k: nat)
      requires Chained() && k < |order|
      ensures Nth(sortLink, Nodes(order), k + 1) == order[k].node && order[k].node.entry == Some(order[k].id)
      ensures order[k].id < |items| && items[order[k].id] == order[k] && order[k].node in nodes
    {
      assert order[k] in items;
    }

    lemma Outside(x: SortLinkList)
      requires Chained() && x in items && x !in order
      ensures x.node !in Nodes(order) && x.node != sortLink && x.node in nodes
    {
      forall k | 0 <= k < |order| ensures order[k].node != x.node {
        assert order[k] in items;
      }
    }

    /** Linking a record behind position `p` of the ring. */
    method AddBehind(list: ListNode, x: SortLinkList, ghost p: nat)
      requires Chained() && x in items && x !in order && p <= |order|
      requires list == Nth(sortLink, Nodes(order), p)
      modifies this, sortLink, nodes
      ensures Chained() && order == old(order[..p] + [x] + order[p..])
      ensures Entries() == old(Entries()[..p] + [Entry(x.id, x.responseTime)] + Entries()[p..])
    {
      hide Nodes, Times, Sorted, NoDup, Ring;
      Outside(x);
      NodesSplice(order, p, x);
      TimesSplice(order, p, x);
      SpliceNoDup(order, p, x);
      Links(sortLink, Nodes(order), p);
      if p > 0 {
        NodeAt(p - 1);
      }
      if p < |order| {
        NodeAt(p);
      }
      ListAdd(list, x.node, sortLink, Nodes(order), p);
      order := order[..p] + [x] + order[p..];
    }

    /** LOS_DL_LIST_ENTRY of the node behind the list head. */
    method First() returns (x: SortLinkList)
      requires Chained() && order != []
      ensures x == order[0]
    {
      NodeAt(0);
      Links(sortLink, Nodes(order), 0);
      x := items[sortLink.next.entry.value];
    }

    /** The first record, unless the list head is alone. */
    method FirstOrNone() returns (x: SortLinkList?)
      requires Chained()
      ensures if order == [] then x == null else x == order[0]
    {
      var empty := ListEmpty(sortLink, Nodes(order));
      if empty {
        return null;
      }
      x := First();
    }

    /** The record behind the one at position `k`; `null` when the walk has come back to the list head. */
    method Next(x: SortLinkList, ghost k: nat) returns (y: SortLinkList?)
      requires Chained() && k < |order| && order[k] == x
      ensures if k + 1 < |order| then y == order[k + 1] else y == null
    {
      hide NoDup;
      NodeAt(k);
      Links(sortLink, Nodes(order), k + 1);
      if k + 1 < |order| {
        NodeAt(k + 1);
        assert x.node.next != sortLink;
      }
      y := if x.node.next == sortLink then null else items[x.node.next.entry.value];
    }

    /** The walk from the tail to the last record that is not later than `x`. */
    method WalkBack(x: SortLinkList) returns (prevNode: ListNode, ghost p: nat)
      requires Chained() && order != [] && order[0].responseTime < x.responseTime
      ensures 1 <= p <= |order| && prevNode == Nth(sortLink, Nodes(order), p)
      ensures order[p - 1].responseTime <= x.responseTime
      ensures forall k :: p <= k < |order| ==> order[k].responseTime > x.responseTime
    {
      hide Nodes, NoDup, Ring;
      p := |order|;
      Links(sortLink, Nodes(order), p);
      NodeAt(p - 1);
      prevNode := sortLink.prev;
      // The head is earlier than the new record, so the walk stops before it would dereference the list head.
      while items[prevNode.entry.value].responseTime > x.responseTime
        invariant 1 <= p <= |order| && prevNode == Nth(sortLink, Nodes(order), p)
        invariant order[p - 1].id < |items| && items[order[p - 1].id] == order[p - 1]
        invariant prevNode.entry == Some(order[p - 1].id)
        invariant forall k :: p <= k < |order| ==> order[k].responseTime > x.responseTime
        decreases p
      {
        Links(sortLink, Nodes(order), p - 1);
        NodeAt(p - 2);
        prevNode := prevNode.prev;
        p := p - 1;
      }
    }

    /** OsAddNode2SortLink */
    method AddNode(x: SortLinkList)
      requires Chained() && Sorted(Entries()) && x in items && x !in order
      modifies this, sortLink, nodes
      ensures Chained() && (forall y :: y in order <==> y in old(order) || y == x)
      ensures Entries() == Insert(old(Entries()), Entry(x.id, x.responseTime))
    {
      hide Nodes, Times, NoDup, Insert, Ring, Sorted;
      ghost var s, e := Entries(), Entry(x.id, x.responseTime);
      ghost var q := InsertSplits(s, e);
      var empty := ListEmpty(sortLink, Nodes(order));
      if empty {
        AtHead(s, e);
        AddBehind(sortLink, x, 0);
        return;
      }
      var listSorted := First();
      if listSorted.responseTime >= x.responseTime {
        AtHead(s, e);
        AddBehind(sortLink, x, 0);
        return;
      }
      var prevNode, p := WalkBack(x);
      InsertedAt(s, e, p, q);
      AddBehind(prevNode, x, p);
    }

    /** OsAdd2SortLink */
    method Add(x: SortLinkList, startTime: nat, waitTicks: nat, cyclesPerTick: nat)
      requires Valid() && x in items && !Linked(Entries(), x.id)
      requires Deadline(startTime, waitTicks, cyclesPerTick) < INVALID_TIME
      modifies this, sortLink, nodes, items
      ensures Valid()
      ensures Entries() == Insert(old(Entries()), Entry(x.id, Deadline(startTime, waitTicks, cyclesPerTick)))
    {
      hide Deadline, Insert, Sorted, UniqueIds, Ring, NoDup;
      EntriesUnique();
      ghost var s := Entries();
      x.responseTime := Deadline(startTime, waitTicks, cyclesPerTick);
      assert Entries() == s;
      InsertKeeps(s, Entry(x.id, x.responseTime));
      AddNode(x);
    }

    method Unlink(x: SortLinkList, ghost p: nat)
      requires Chained() && p < |order| && order[p] == x
      modifies this, sortLink, nodes
      ensures Chained() && order == old(order[..p] + order[p + 1..])
      ensures forall y :: y in order <==> y in old(order) && y != x
      ensures Entries() == old(Entries()[..p] + Entries()[p + 1..])
    {
      hide Nodes, Times, NoDup, Ring;
      NodesCut(order, p);
      TimesCut(order, p);
      CutNoDup(order, p);
      NodeAt(p);
      if p > 0 {
        NodeAt(p - 1);
      }
      if p + 1 < |order| {
        NodeAt(p + 1);
      }
      Links(sortLink, Nodes(order), p);
      Links(sortLink, Nodes(order), p + 1);
      ListDelete(x.node, sortLink, Nodes(order), p);
      order := order[..p] + order[p + 1..];
    }

    /** OsDeleteNodeSortLink */
    method DeleteNode(x: SortLinkList)
      requires Valid() && x in order
      modifies this, sortLink, nodes, items
      ensures Valid() && Entries() == Remove(old(Entries()), x.id)
    {
      hide Nodes, Times, NoDup, Remove, Ring;
      EntriesUnique();
      ghost var s := Entries();
      RemoveKeeps(s, x.id);
      ghost var p :| 0 <= p < |order| && order[p] == x;
      RemoveAt(s, p);
      Unlink(x, p);
      x.responseTime := INVALID_TIME;
      assert Entries() == Remove(s, x.id);
    }

    /** OsDeleteSortLink: a record that is not linked is left alone. */
    method Delete(x: SortLinkList)
      requires Valid() && x in items
      modifies this, sortLink, nodes, items
      ensures Valid() && Entries() == Remove(old(Entries()), x.id)
    {
      EntriesUnique();
      if x.responseTime != INVALID_TIME {
        DeleteNode(x);
      }
    }

    /** The forward walk of OsGetSortLinkNextExpireTime over the deadlines already reached. */
    method SkipReached(startTime: nat) returns (expireTime: nat, nextExpireTime: nat)
      requires Chained() && order != []
      ensures expireTime == if Entries()[0].time <= startTime then startTime else 0
      ensures nextExpireTime == FirstLater(Entries(), startTime)
    {
      hide Nodes, Times, NoDup, Ring, FirstLater;
      ghost var s := Entries();
      expireTime, nextExpireTime := 0, 0;
      Links(sortLink, Nodes(order), 0);
      var list := sortLink.next;
      ghost var k := 0;
      while list != sortLink
        invariant 0 <= k <= |order| && list == Nth(sortLink, Nodes(order), k + 1)
        invariant expireTime == if k > 0 then startTime else 0
        invariant forall i :: 0 <= i < k ==> s[i].time <= startTime
        decreases |order| - k
      {
        NodeAt(k);
        Links(sortLink, Nodes(order), k + 1);
        assert s[k].time == order[k].responseTime;
        if items[list.entry.value].responseTime <= startTime {
          expireTime := startTime;
          list := list.next;
          k := k + 1;
        } else {
          FirstLaterAt(s, startTime, k);
          return expireTime, items[list.entry.value].responseTime;
        }
      }
      NothingLater(s, startTime);
    }

    /** OsGetSortLinkNextExpireTime */
    method GetNextExpireTime(startTime: nat, usPerTick: nat) returns (time: nat)
      requires Chained()
      ensures time == NextExpireTime(Entries(), startTime, usPerTick)
    {
      hide Nodes, Times, NoDup, Ring, FirstLater;
      var empty := ListEmpty(sortLink, Nodes(order));
      if empty {
        return INVALID_TIME;
      }
      var expireTime, nextExpireTime := SkipReached(startTime);
      if expireTime == 0 {
        return nextExpireTime;
      }
      if nextExpireTime == 0 {
        return expireTime;
      }
      FirstLaterIsLater(Entries(), startTime);
      if nextExpireTime - expireTime <= usPerTick {
        return nextExpireTime;
      }
      return expireTime;
    }
  }

  /** The first deadline later than `start`, or 0. */
  function FirstLater(s: seq<Entry>, start: nat): nat {
    if s == [] then 0
    else if s[0].time > start then s[0].time
    else FirstLater(s[1..], start)
  }

  /** A deadline already reached counts as `start`, unless another follows it within `window`. */
  function NextExpireTime(s: seq<Entry>, start: nat, window: nat): nat {
    if s == [] then INVALID_TIME
    else
      var reached := if s[0].time <= start then start else 0;
      var later := FirstLater(s, start);
      if reached == 0 then later
      else if later == 0 || later - reached > window then reached
      else later
  }

  lemma {:induction false} FirstLaterAt(s: seq<Entry>, start: nat, k: nat)
    requires k < |s| && start < s[k].time && forall i :: 0 <= i < k ==> s[i].time <= start
    ensures FirstLater(s, start) == s[k].time
  {
    if k > 0 {
      FirstLaterAt(s[1..], start, k - 1);
    }
  }

  lemma {:induction false} NothingLater(s: seq<Entry>, start: nat)
    requires forall i :: 0 <= i < |s| ==> s[i].time <= start
    ensures FirstLater(s, start) == 0
  {
    if s != [] {
      NothingLater(s[1..], start);
    }
  }

  /** The earliest deadline, seen from `start`: one already reached is as good as reached now. */
  function Earliest(s: seq<Entry>, start: nat): nat
    requires s != []
  {
    if s[0].time <= start then start else s[0].time
  }

  lemma {:induction false} FirstLaterIsLater(s: seq<Entry>, start: nat)
    ensures FirstLater(s, start) == 0 || FirstLater(s, start) > start
  {
    if s != [] {
      FirstLaterIsLater(s[1..], start);
    }
  }

  /**
   * The search never reports a time before the earliest deadline, and at most `window` after it exactly when the
   * start time is not 0 or no deadline is reached at time 0 or nothing else follows later than the window.
   */
  lemma WithinWindow(s: seq<Entry>, start: nat, window: nat)
    requires s != []
    ensures var r := NextExpireTime(s, start, window);
            && Earliest(s, start) <= r
            && (r <= Earliest(s, start) + window <==> start > 0 || s[0].time > 0 || FirstLater(s, 0) <= window)
  {
    FirstLaterIsLater(s, start);
  }

  lemma AtHead(s: seq<Entry>, e: Entry)
    requires s == [] || s[0].time >= e.time
    ensures Insert(s, e) == s[..0] + [e] + s[0..]
  {
  }

  /** Where the backward walk ends is where the specification inserts. */
  lemma InsertedAt(s: seq<Entry>, e: Entry, p: nat, q: nat)
    requires 0 < p <= |s| && q <= |s| && s[0].time < e.time && s[p - 1].time <= e.time
    requires Sorted(s) && (forall k :: p <= k < |s| ==> e.time < s[k].time)
    requires forall k :: 0 <= k < q ==> s[k].time <= e.time
    requires forall k :: q <= k < |s| ==> e.time < s[k].time
    ensures p == q
  {
    assert s[p - 1].time <= e.time;
    assert p < |s| ==> e.time < s[p].time;
  }

  /** Each record has a node of its own that leads back to it. */
  ghost predicate Wired(items: seq<SortLinkList>) {
    forall i :: 0 <= i < |items| ==> items[i].id == i && items[i].node.entry == Some(i)
  }
}
