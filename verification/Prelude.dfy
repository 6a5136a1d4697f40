/** Vocabulary shared by every module: optional results, bytes, and the stable sort. */
module Prelude {
  datatype Option<+T> = None | Some(value: T)

  newtype u8 = x: int | 0 <= x < 256

  function Max(a: nat, b: nat): nat { if a < b then b else a }

  /** Saturating subtraction. */
  function Minus(a: nat, b: nat): nat { if a < b then 0 else a - b }

  lemma Assoc<T>(a: seq<T>, b: seq<T>, c: seq<T>)
    ensures a + (b + c) == a + b + c
  {
  }

  /** `x` placed in front of the first element it is strictly below. */
  function Insert<T>(x: T, s: seq<T>, below: (T, T) -> bool): (r: seq<T>)
    ensures |r| == |s| + 1
  {
    if s == [] || below(x, s[0]) then [x] + s else [s[0]] + Insert(x, s[1..], below)
  }

  /** The stable sort of the standard library: ties keep their old order. */
  function Sort<T>(s: seq<T>, below: (T, T) -> bool): (r: seq<T>)
    ensures |r| == |s|
  {
    if s == [] then [] else Insert(s[|s| - 1], Sort(s[..|s| - 1], below), below)
  }

  /** `below` is a strict order whose incomparability is transitive. */
  ghost predicate WeakOrder<T(!new)>(below: (T, T) -> bool) {
    && (forall a, b :: below(a, b) ==> !below(b, a))
    && (forall a, b, c :: !below(b, a) && !below(c, b) ==> !below(c, a))
  }

  ghost predicate Ascending<T>(s: seq<T>, below: (T, T) -> bool) {
    forall i, j :: 0 <= i < j < |s| ==> !below(s[j], s[i])
  }

  lemma {:induction false} InsertPermutes<T>(x: T, s: seq<T>, below: (T, T) -> bool)
    ensures multiset(Insert(x, s, below)) == multiset(s) + multiset{x}
  {
    if s == [] || below(x, s[0]) {
    } else {
      InsertPermutes(x, s[1..], below);
      assert s == [s[0]] + s[1..];
    }
  }

  lemma ConsAscends<T>(x: T, s: seq<T>, below: (T, T) -> bool)
    requires Ascending(s, below) && forall j :: 0 <= j < |s| ==> !below(s[j], x)
    ensures Ascending([x] + s, below)
  {
    var r := [x] + s;
    forall i, j | 0 <= i < j < |r| ensures !below(r[j], r[i]) {
      assert r[j] == s[j - 1];
      if i > 0 { assert r[i] == s[i - 1]; }
    }
  }

  /** What is below no element of `s` stays so when `x` is inserted. */
  lemma BehindHead<T>(x: T, s: seq<T>, head: T, below: (T, T) -> bool)
    requires !below(x, head) && forall j :: 0 <= j < |s| ==> !below(s[j], head)
    ensures forall j :: 0 <= j < |Insert(x, s, below)| ==> !below(Insert(x, s, below)[j], head)
  {
    var q := Insert(x, s, below);
    InsertPermutes(x, s, below);
    forall j | 0 <= j < |q| ensures !below(q[j], head) {
      assert q[j] in multiset(q);
      if q[j] != x { assert q[j] in s; }
    }
  }

  lemma {:induction false} InsertAscends<T(!new)>(x: T, s: seq<T>, below: (T, T) -> bool)
    requires WeakOrder(below) && Ascending(s, below)
    ensures Ascending(Insert(x, s, below), below)
  {
    if s == [] {
    } else if below(x, s[0]) {
      forall j | 0 <= j < |s| ensures !below(s[j], x) { assert j > 0 ==> !below(s[j], s[0]); }
      ConsAscends(x, s, below);
    } else {
      var t := s[1..];
      forall j | 0 <= j < |t| ensures !below(t[j], s[0]) { assert t[j] == s[j + 1]; }
      assert Ascending(t, below);
      InsertAscends(x, t, below);
      BehindHead(x, t, s[0], below);
      ConsAscends(s[0], Insert(x, t, below), below);
    }
  }

  lemma {:induction false} SortPermutes<T>(s: seq<T>, below: (T, T) -> bool)
    ensures multiset(Sort(s, below)) == multiset(s)
  {
    if s == [] {
    } else {
      var init := s[..|s| - 1];
      SortPermutes(init, below);
      InsertPermutes(s[|s| - 1], Sort(init, below), below);
      assert s == init + [s[|s| - 1]];
    }
  }

  lemma {:induction false} SortAscends<T(!new)>(s: seq<T>, below: (T, T) -> bool)
    requires WeakOrder(below)
    ensures Ascending(Sort(s, below), below)
  {
    if s == [] {
    } else {
      SortAscends(s[..|s| - 1], below);
      InsertAscends(s[|s| - 1], Sort(s[..|s| - 1], below), below);
    }
  }

  /** Elements the order cannot tell apart are equal. */
  ghost predicate Separates<T>(s: seq<T>, below: (T, T) -> bool) {
    forall x, y :: x in s && y in s && !below(x, y) && !below(y, x) ==> x == y
  }

  lemma SameHead<T>(a: seq<T>, b: seq<T>, below: (T, T) -> bool)
    requires Ascending(a, below) && Ascending(b, below) && Separates(a, below)
    requires (forall x, y :: below(x, y) ==> !below(y, x))
    requires a != [] && b != [] && a[0] in b && b[0] in a
    ensures a[0] == b[0]
  {
    var i :| 0 <= i < |a| && a[i] == b[0];
    var j :| 0 <= j < |b| && b[j] == a[0];
    assert i > 0 ==> !below(a[i], a[0]);
    assert j > 0 ==> !below(b[j], b[0]);
  }

  lemma BagTail<T>(a: seq<T>)
    requires a != []
    ensures multiset(a) == multiset{a[0]} + multiset(a[1..])
  {
    assert a == [a[0]] + a[1..];
  }

  lemma SameBag<T>(a: seq<T>, b: seq<T>)
    requires a != [] && multiset(a) == multiset(b)
    ensures |a| == |b| && a[0] in b && b[0] in a
    ensures a[0] == b[0] ==> multiset(a[1..]) == multiset(b[1..])
  {
    assert |a| == |multiset(a)| == |multiset(b)| == |b|;
    assert a[0] in multiset(b) && b[0] in multiset(a);
    BagTail(a);
    BagTail(b);
    if a[0] == b[0] {
      Cancel(multiset{a[0]}, multiset(a[1..]), multiset(b[1..]));
    }
  }

  lemma Cancel<T>(x: multiset<T>, a: multiset<T>, b: multiset<T>)
    requires x + a == x + b
    ensures a == b
  {
    assert (x + a) - x == a && (x + b) - x == b;
  }

  lemma BagWithout<T>(b: seq<T>, k: nat)
    requires k < |b|
    ensures b == b[..k] + [b[k]] + b[k + 1..]
    ensures multiset(b) == multiset{b[k]} + multiset(b[..k] + b[k + 1..])
  {
    assert b == b[..k] + [b[k]] + b[k + 1..];
  }

  /** A bag has one ascending arrangement when the order separates its elements. */
  lemma {:induction false} AscendingUnique<T(!new)>(a: seq<T>, b: seq<T>, below: (T, T) -> bool)
    requires WeakOrder(below) && Separates(a, below)
    requires Ascending(a, below) && Ascending(b, below) && multiset(a) == multiset(b)
    ensures a == b
  {
    if a == [] {
      assert |b| == |multiset(b)|;
    } else {
      SameBag(a, b);
      SameHead(a, b, below);
      AscendingTail(a, below);
      AscendingTail(b, below);
      assert forall x :: x in a[1..] ==> x in a;
      AscendingUnique(a[1..], b[1..], below);
      assert a == [a[0]] + a[1..] && b == [b[0]] + b[1..];
    }
  }

  lemma AscendingTail<T>(a: seq<T>, below: (T, T) -> bool)
    requires a != [] && Ascending(a, below)
    ensures Ascending(a[1..], below)
  {
    forall i, j | 0 <= i < j < |a| - 1 ensures !below(a[1..][j], a[1..][i]) {
      assert a[1..][i] == a[i + 1] && a[1..][j] == a[j + 1];
    }
  }

  /** Sorting something already strictly ordered changes nothing. */
  lemma {:induction false} SortFixes<T>(s: seq<T>, below: (T, T) -> bool)
    requires Ascending(s, below)
    ensures Sort(s, below) == s
  {
    if s == [] {
    } else {
      var init := s[..|s| - 1];
      SortFixes(init, below);
      InsertLast(s[|s| - 1], init, below);
      assert s == init + [s[|s| - 1]];
    }
  }

  lemma {:induction false} InsertLast<T>(x: T, s: seq<T>, below: (T, T) -> bool)
    requires forall i :: 0 <= i < |s| ==> !below(x, s[i])
    ensures Insert(x, s, below) == s + [x]
  {
    if s == [] {
    } else {
      InsertLast(x, s[1..], below);
      assert s == [s[0]] + s[1..];
    }
  }
}
