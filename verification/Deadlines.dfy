/** The deadline queue of kernel/src/los_sortlink.c as a sorted sequence. */
module Deadlines {

  /** One linked node: who is waiting, and the absolute time it waits for. */
  datatype Entry = Entry(id: nat, time: nat)

  /** The absolute time of a wait of `ticks` that starts at `start`. */
  function Deadline(start: nat, ticks: nat, cyclesPerTick: nat): nat {
    start + ticks * cyclesPerTick
  }

  ghost predicate Sorted(s: seq<Entry>) {
    forall i, j :: 0 <= i < j < |s| ==> s[i].time <= s[j].time
  }

  ghost predicate UniqueIds(s: seq<Entry>) {
    forall i, j :: 0 <= i < j < |s| ==> s[i].id != s[j].id
  }

  predicate Linked(s: seq<Entry>, id: nat) {
    exists e :: e in s && e.id == id
  }

  /** The backward walk: behind the last entry that is not later than `e`. */
  function InsertFromTail(s: seq<Entry>, e: Entry): (r: seq<Entry>)
    ensures |r| == |s| + 1
    ensures forall x {:trigger x in r} :: x in r <==> x in s || x == e
  {
    if s == [] then [e]
    else if s[|s| - 1].time <= e.time then s + [e]
    else InsertFromTail(s[..|s| - 1], e) + [s[|s| - 1]]
  }

  /** A new entry not later than the head becomes the head; otherwise it is placed from the tail. */
  function Insert(s: seq<Entry>, e: Entry): (r: seq<Entry>)
    ensures |r| == |s| + 1
    ensures forall x {:trigger x in r} :: x in r <==> x in s || x == e
  {
    if s == [] || s[0].time >= e.time then [e] + s else InsertFromTail(s, e)
  }

  function Remove(s: seq<Entry>, id: nat): (r: seq<Entry>)
    ensures |r| <= |s|
    ensures forall x {:trigger x in r} :: x in r <==> x in s && x.id != id
    ensures !Linked(s, id) ==> r == s
  {
    if s == [] then []
    else if s[0].id == id then Remove(s[1..], id)
    else [s[0]] + Remove(s[1..], id)
  }

  /** Where `Insert` puts the entry: the others keep their order around one position. */
  lemma {:induction false} InsertFromTailSplits(s: seq<Entry>, e: Entry) returns (p: nat)
    requires Sorted(s)
    ensures p <= |s| && InsertFromTail(s, e) == s[..p] + [e] + s[p..]
    ensures forall i :: 0 <= i < p ==> s[i].time <= e.time
    ensures forall i :: p <= i < |s| ==> e.time < s[i].time
  {
    if s == [] || s[|s| - 1].time <= e.time {
      p := |s|;
      assert s[..p] == s;
    } else {
      var t := s[..|s| - 1];
      p := InsertFromTailSplits(t, e);
      assert t[..p] == s[..p] && t[p..] + [s[|s| - 1]] == s[p..];
    }
  }

  lemma InsertSplits(s: seq<Entry>, e: Entry) returns (p: nat)
    requires Sorted(s)
    ensures p <= |s| && Insert(s, e) == s[..p] + [e] + s[p..]
    ensures forall i :: 0 <= i < p ==> s[i].time <= e.time
    ensures forall i :: p <= i < |s| ==> e.time <= s[i].time
    // Equal deadlines are first come first served, except that a tie with the head goes in front of it.
    ensures s != [] && s[0].time == e.time ==> p == 0
    ensures s != [] && s[0].time < e.time ==> forall i :: p <= i < |s| ==> e.time < s[i].time
  {
    if s == [] || s[0].time >= e.time {
      p := 0;
      assert s[..0] == [] && s[0..] == s;
    } else {
      p := InsertFromTailSplits(s, e);
    }
  }

  lemma InsertKeeps(s: seq<Entry>, e: Entry)
    requires Sorted(s) && UniqueIds(s) && !Linked(s, e.id)
    ensures Sorted(Insert(s, e)) && UniqueIds(Insert(s, e))
  {
    var p := InsertSplits(s, e);
    PlacedKeeps(s, e, p);
  }

  lemma PlacedKeeps(s: seq<Entry>, e: Entry, p: nat)
    requires Sorted(s) && UniqueIds(s) && !Linked(s, e.id) && p <= |s|
    requires forall i :: 0 <= i < p ==> s[i].time <= e.time
    requires forall i :: p <= i < |s| ==> e.time <= s[i].time
    ensures Sorted(s[..p] + [e] + s[p..]) && UniqueIds(s[..p] + [e] + s[p..])
  {
    forall i | 0 <= i < |s| ensures s[i].id != e.id {
      assert s[i] in s;
    }
  }

  lemma InsertLinks(s: seq<Entry>, e: Entry, id: nat)
    ensures Linked(Insert(s, e), id) <==> Linked(s, id) || id == e.id
  {
    var r := Insert(s, e);
    assert e in r;
    if Linked(s, id) {
      var x :| x in s && x.id == id;
      assert x in r;
    }
  }

  lemma RemoveLinks(s: seq<Entry>, id: nat, x: nat)
    ensures Linked(Remove(s, id), x) <==> Linked(s, x) && x != id
  {
    var r := Remove(s, id);
    if Linked(s, x) && x != id {
      var e :| e in s && e.id == x;
      assert e in r;
    }
  }

  lemma {:induction false} RemoveAt(s: seq<Entry>, p: nat)
    requires UniqueIds(s) && p < |s|
    ensures Remove(s, s[p].id) == s[..p] + s[p + 1..]
  {
    var t := s[1..];
    if p == 0 {
      assert !Linked(t, s[0].id);
      assert Remove(s, s[0].id) == t;
    } else {
      assert t[p - 1] == s[p] && s[0].id != s[p].id;
      RemoveAt(t, p - 1);
      assert Remove(s, s[p].id) == [s[0]] + Remove(t, s[p].id);
      TakeFirst(s, p);
    }
  }

  lemma TakeFirst(s: seq<Entry>, p: nat)
    requires 0 < p < |s|
    ensures s[..p] + s[p + 1..] == [s[0]] + (s[1..][..p - 1] + s[1..][p..])
  {
  }

  lemma {:induction false} RemoveKeeps(s: seq<Entry>, id: nat)
    requires Sorted(s) && UniqueIds(s)
    ensures Sorted(Remove(s, id)) && UniqueIds(Remove(s, id))
  {
    if s != [] {
      var t := s[1..];
      RemoveKeeps(t, id);
      var r := Remove(t, id);
      if s[0].id != id {
        forall i | 0 <= i < |r| ensures s[0].time <= r[i].time && s[0].id != r[i].id {
          assert r[i] in r;
          var j :| 0 <= j < |t| && t[j] == r[i];
          assert s[j + 1] == t[j];
        }
      }
    }
  }

  /** Removing the entry just inserted gives back the old queue. */
  lemma RemoveUndoesInsert(s: seq<Entry>, e: Entry)
    requires Sorted(s) && UniqueIds(s) && !Linked(s, e.id)
    ensures Remove(Insert(s, e), e.id) == s
  {
    var p := InsertSplits(s, e);
    InsertKeeps(s, e);
    var r := Insert(s, e);
    assert r[p] == e;
    RemoveAt(r, p);
    assert r[..p] + r[p + 1..] == s;
  }
}
