/** Plain sequences that the kernel's intrusive lists are proved to behave like. */
module Sequences {

  datatype Option<+T> = None | Some(value: T)

  ghost predicate NoDup<T>(s: seq<T>) {
    forall i, j :: 0 <= i < j < |s| ==> s[i] != s[j]
  }

  /** `s` without any occurrence of `x`: what unlinking a node leaves of its list. */
  function Drop<T(==, !new)>(s: seq<T>, x: T): (r: seq<T>)
    ensures forall y {:trigger y in r} :: y in r <==> y in s && y != x
    ensures |r| <= |s|
    ensures x !in s ==> r == s
  {
    if s == [] then []
    else if s[0] == x then Drop(s[1..], x)
    else [s[0]] + Drop(s[1..], x)
  }

  lemma {:induction false} DropAppend<T(!new)>(a: seq<T>, b: seq<T>, x: T)
    ensures Drop(a + b, x) == Drop(a, x) + Drop(b, x)
  {
    hide Drop;
    if a == [] {
      assert a + b == b;
      DropNil<T>(x);
    } else {
      DropAppend(a[1..], b, x);
      DropFirst(a, x);
      DropFirst(a + b, x);
      assert (a + b)[1..] == a[1..] + b;
      Associates(if a[0] == x then [] else [a[0]], Drop(a[1..], x), Drop(b, x));
    }
  }

  lemma DropNil<T(!new)>(x: T)
    ensures Drop([], x) == []
  {
  }

  lemma Associates<T>(a: seq<T>, b: seq<T>, c: seq<T>)
    ensures (a + b) + c == a + (b + c)
  {
  }

  lemma DropFirst<T(!new)>(s: seq<T>, x: T)
    requires s != []
    ensures Drop(s, x) == (if s[0] == x then [] else [s[0]]) + Drop(s[1..], x)
  {
  }

  lemma {:induction false} DropNoDup<T(!new)>(s: seq<T>, x: T)
    requires NoDup(s)
    ensures NoDup(Drop(s, x))
  {
    if s != [] {
      DropNoDup(s[1..], x);
      if s[0] != x {
        assert s[0] !in s[1..];
        assert s[0] !in Drop(s[1..], x);
      }
    }
  }

  /** Unlinking the node at position `i` closes the gap and moves nothing else. */
  lemma {:induction false} DropAt<T(!new)>(s: seq<T>, i: nat)
    requires NoDup(s) && i < |s|
    ensures Drop(s, s[i]) == s[..i] + s[i + 1..]
  {
    var a, b := s[..i], s[i + 1..];
    assert s == a + ([s[i]] + b);
    DropAppend(a, [s[i]] + b, s[i]);
    assert ([s[i]] + b)[1..] == b;
    assert s[i] !in a && s[i] !in b;
  }

  // ---- Places around a ring: quotient and remainder are unique ----

  lemma ModUnique(x: nat, q: int, m: nat, r: nat)
    requires r < m && x == q * m + r
    ensures x % m == r
  {
    var q', r' := x / m, x % m;
    assert x == q' * m + r';
    assert (q' - q) * m == q' * m - q * m;
    SmallMultiple(q' - q, m);
  }

  lemma SmallMultiple(d: int, m: int)
    requires -m < d * m < m
    ensures d == 0
  {
    assert d >= 1 ==> (d - 1) * m >= 0;
    assert d <= -1 ==> (-d - 1) * m >= 0;
  }
}
