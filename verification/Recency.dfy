/** Bounded lists kept in order of last use, against the unbounded history of uses. */
module Recency {
  import opened Prelude

  datatype Item<K, V> = Item(key: K, value: V)

  function Without<K(==), V>(s: seq<Item<K, V>>, key: K): (r: seq<Item<K, V>>)
    ensures |r| <= |s| && forall i :: 0 <= i < |r| ==> r[i].key != key
  {
    if s == [] then [] else if s[0].key == key then Without(s[1..], key) else [s[0]] + Without(s[1..], key)
  }

  /** The last `n` elements. */
  function Tail<T>(s: seq<T>, n: nat): (r: seq<T>)
    ensures |r| <= n && |r| <= |s|
  {
    if |s| <= n then s else s[|s| - n..]
  }

  predicate Unique<K(==), V>(s: seq<Item<K, V>>) { forall i, j :: 0 <= i < j < |s| ==> s[i].key != s[j].key }

  /** Position of a key in a list. */
  function Position<K(==), V>(s: seq<Item<K, V>>, key: K): (r: Option<nat>)
    ensures r.Some? ==> r.value < |s| && s[r.value].key == key
    ensures r.None? ==> forall i :: 0 <= i < |s| ==> s[i].key != key
  {
    if s == [] then None
    else if s[0].key == key then Some(0)
    else
      var r := Position(s[1..], key);
      if r.None? then
        assert forall i :: 1 <= i < |s| ==> s[i] == s[1..][i - 1];
        None
      else Some(r.value + 1)
  }

  /** Move to the back with a new value; drop from the front what is over capacity. */
  function Touched<K(==), V>(s: seq<Item<K, V>>, key: K, value: V, cap: nat): seq<Item<K, V>> {
    Tail(Without(s, key) + [Item(key, value)], cap)
  }

  /** The unbounded list: every key ever used, in order of last use, with its last value. */
  function LastUses<K(==), V>(log: seq<Item<K, V>>): seq<Item<K, V>> {
    if log == [] then []
    else
      var n := |log| - 1;
      Without(LastUses(log[..n]), log[n].key) + [log[n]]
  }

  lemma {:induction false} WithoutConcat<K, V>(a: seq<Item<K, V>>, b: seq<Item<K, V>>, key: K)
    ensures Without(a + b, key) == Without(a, key) + Without(b, key)
  {
    if a == [] {
      assert a + b == b;
    } else {
      assert (a + b)[1..] == a[1..] + b && (a + b)[0] == a[0];
      WithoutConcat(a[1..], b, key);
      if a[0].key != key { Assoc([a[0]], Without(a[1..], key), Without(b, key)); }
    }
  }

  lemma {:induction false} WithoutAbsent<K, V>(s: seq<Item<K, V>>, key: K)
    requires forall i :: 0 <= i < |s| ==> s[i].key != key
    ensures Without(s, key) == s
  {
    if s != [] {
      WithoutAbsent(s[1..], key);
      assert s == [s[0]] + s[1..];
    }
  }

  lemma {:induction false} WithoutMembers<K, V>(s: seq<Item<K, V>>, key: K)
    ensures forall x :: x in Without(s, key) <==> x in s && x.key != key
  {
    if s != [] {
      WithoutMembers(s[1..], key);
      assert s == [s[0]] + s[1..];
    }
  }

  lemma {:induction false} WithoutFrom<K, V>(s: seq<Item<K, V>>, key: K, i: nat) returns (k: nat)
    requires i < |Without(s, key)|
    ensures k < |s| && s[k] == Without(s, key)[i]
  {
    if s[0].key == key {
      k := WithoutFrom(s[1..], key, i);
      k := k + 1;
    } else if i == 0 {
      k := 0;
    } else {
      k := WithoutFrom(s[1..], key, i - 1);
      k := k + 1;
    }
  }

  lemma {:induction false} WithoutUnique<K, V>(s: seq<Item<K, V>>, key: K)
    requires Unique(s)
    ensures Unique(Without(s, key)) && |Without(s, key)| >= |s| - 1
    ensures Position(s, key).Some? ==> |Without(s, key)| == |s| - 1
  {
    if s != [] {
      var t := s[1..];
      assert Unique(t) by { assert forall i :: 0 <= i < |t| ==> t[i] == s[i + 1]; }
      if s[0].key == key {
        forall i | 0 <= i < |t| ensures t[i].key != key { assert t[i] == s[i + 1]; }
        WithoutAbsent(t, key);
      } else {
        WithoutUnique(t, key);
        WithoutMembers(t, key);
        var r := Without(s, key);
        forall i, j | 0 <= i < j < |r| ensures r[i].key != r[j].key {
          var k := WithoutFrom(t, key, j - 1);
          assert t[k] == s[k + 1];
          if i > 0 { assert r[i] == Without(t, key)[i - 1]; }
        }
      }
    }
  }

  lemma UniqueSnoc<K, V>(s: seq<Item<K, V>>, item: Item<K, V>)
    requires Unique(s)
    ensures Unique(Without(s, item.key) + [item])
  {
    WithoutUnique(s, item.key);
  }

  lemma {:induction false} LastUsesUnique<K, V>(log: seq<Item<K, V>>)
    ensures Unique(LastUses(log))
  {
    if log != [] {
      var n := |log| - 1;
      LastUsesUnique(log[..n]);
      UniqueSnoc(LastUses(log[..n]), log[n]);
    }
  }

  lemma TailSuffix<T>(a: seq<T>, b: seq<T>, n: nat)
    requires n <= |b|
    ensures Tail(a + b, n) == Tail(b, n)
  {
  }

  /** Bounding before or after a use makes no difference. */
  lemma TouchTail<K, V>(all: seq<Item<K, V>>, key: K, value: V, cap: nat, n: nat)
    requires Unique(all) && cap > 0 && n >= cap
    ensures Touched(Tail(all, n), key, value, cap) == Touched(all, key, value, cap)
  {
    if |all| > n {
      var head, tail := all[..|all| - n], all[|all| - n..];
      assert all == head + tail;
      WithoutConcat(head, tail, key);
      WithoutLonger(all, head, tail, key);
      assert Without(head, key) + Without(tail, key) + [Item(key, value)]
          == Without(head, key) + (Without(tail, key) + [Item(key, value)]);
      TailSuffix(Without(head, key), Without(tail, key) + [Item(key, value)], cap);
    }
  }

  /** Removing a key of the tail leaves the head as it is, and shortens the tail by one at most. */
  lemma WithoutLonger<K, V>(all: seq<Item<K, V>>, head: seq<Item<K, V>>, tail: seq<Item<K, V>>, key: K)
    requires Unique(all) && all == head + tail
    ensures |Without(tail, key)| >= |tail| - 1
  {
    assert Unique(tail) by {
      forall i, j | 0 <= i < j < |tail| ensures tail[i].key != tail[j].key {
        assert all[|head| + i] == tail[i] && all[|head| + j] == tail[j];
      }
    }
    WithoutUnique(tail, key);
  }

  /** A bounded list after a history. */
  function Bounded<K(==), V>(log: seq<Item<K, V>>, cap: nat): seq<Item<K, V>> {
    if log == [] then [] else Touched(Bounded(log[..|log| - 1], cap), log[|log| - 1].key, log[|log| - 1].value, cap)
  }

  /** The bounded list is the end of the unbounded one. */
  lemma {:induction false} BoundedIsTail<K, V>(log: seq<Item<K, V>>, cap: nat)
    requires cap > 0
    ensures Bounded(log, cap) == Tail(LastUses(log), cap)
    ensures Unique(Bounded(log, cap)) && |Bounded(log, cap)| <= cap
  {
    if log != [] {
      var n := |log| - 1;
      BoundedIsTail(log[..n], cap);
      LastUsesUnique(log[..n]);
      TouchTail(LastUses(log[..n]), log[n].key, log[n].value, cap, cap);
      LastUsesUnique(log);
      TailUnique(LastUses(log), cap);
      assert Item(log[n].key, log[n].value) == log[n];
    }
  }

  lemma TailUnique<K, V>(s: seq<Item<K, V>>, n: nat)
    requires Unique(s)
    ensures Unique(Tail(s, n))
  {
  }

  // ----- which keys are still in the list -----

  /** Keys used in a history. */
  function KeysOf<K(==), V>(log: seq<Item<K, V>>): set<K> {
    set i | 0 <= i < |log| :: log[i].key
  }

  /** Index of the last use of a key. */
  function LastUse<K(==), V>(log: seq<Item<K, V>>, key: K): (r: Option<nat>)
    ensures r.Some? ==> r.value < |log| && log[r.value].key == key
    ensures r.Some? ==> forall i :: r.value < i < |log| ==> log[i].key != key
    ensures r.None? ==> forall i :: 0 <= i < |log| ==> log[i].key != key
  {
    if log == [] then None
    else if log[|log| - 1].key == key then Some(|log| - 1)
    else LastUse(log[..|log| - 1], key)
  }

  lemma {:induction false} LastUsesKeys<K, V>(log: seq<Item<K, V>>)
    ensures KeysOf(LastUses(log)) == KeysOf(log)
  {
    if log != [] {
      var n := |log| - 1;
      var before := LastUses(log[..n]);
      LastUsesKeys(log[..n]);
      WithoutMembers(before, log[n].key);
      var after := LastUses(log);
      forall k | k in KeysOf(log) ensures k in KeysOf(after) {
        if k == log[n].key {
          assert after[|after| - 1].key == k;
        } else {
          assert k in KeysOf(log[..n]) by { var i :| 0 <= i < |log| && log[i].key == k; assert log[..n][i].key == k; }
          var i :| 0 <= i < |before| && before[i].key == k;
          assert before[i] in Without(before, log[n].key);
          assert before[i] in after;
        }
      }
      forall k | k in KeysOf(after) ensures k in KeysOf(log) {
        var i :| 0 <= i < |after| && after[i].key == k;
        if i < |after| - 1 {
          assert after[i] in Without(before, log[n].key);
          assert after[i] in before;
          assert k in KeysOf(before);
          var j :| 0 <= j < n && log[..n][j].key == k;
          assert log[j].key == k;
        }
      }
    }
  }

  lemma {:induction false} UniqueCount<K, V>(s: seq<Item<K, V>>)
    requires Unique(s)
    ensures |KeysOf(s)| == |s|
  {
    if s != [] {
      var n := |s| - 1;
      UniqueCount(s[..n]);
      assert KeysOf(s) == KeysOf(s[..n]) + {s[n].key};
    } else {
      assert KeysOf(s) == {};
    }
  }

  /** What stands behind a key in the unbounded list was used after its last use. */
  lemma {:induction false} BehindLastUse<K, V>(log: seq<Item<K, V>>, key: K)
    requires LastUse(log, key).Some?
    ensures var later := log[LastUse(log, key).value + 1..];
            var behind := LastUses(later);
            exists front :: LastUses(log) == front + [log[LastUse(log, key).value]] + behind
  {
    var n := |log| - 1;
    var i := LastUse(log, key).value;
    var later := log[i + 1..];
    if i == n {
      assert later == [] && LastUses(later) == [];
      var front := Without(LastUses(log[..n]), key);
      assert LastUses(log) == front + [log[i]] + [];
    } else {
      BehindLastUse(log[..n], key);
      assert log[..n][i + 1..] == later[..|later| - 1] && later[|later| - 1] == log[n];
      var behind := LastUses(later[..|later| - 1]);
      var front :| LastUses(log[..n]) == front + [log[i]] + behind;
      var k := log[n].key;
      WithoutMiddle(front, log[i], behind, k);
      Assoc(Without(front, k) + [log[i]], Without(behind, k), [log[n]]);
      assert LastUses(later) == Without(behind, k) + [log[n]];
      assert LastUses(log) == Without(front, k) + [log[i]] + LastUses(later);
    }
  }

  lemma WithoutMiddle<K, V>(front: seq<Item<K, V>>, item: Item<K, V>, behind: seq<Item<K, V>>, key: K)
    requires item.key != key
    ensures Without(front + [item] + behind, key) == Without(front, key) + [item] + Without(behind, key)
  {
    WithoutConcat(front + [item], behind, key);
    WithoutConcat(front, [item], key);
    assert [item][1..] == [] && Without([item], key) == [item];
  }

  /** The key was used, and at most `cap - 1` distinct other keys have been used since. */
  predicate Recent<K(==), V>(log: seq<Item<K, V>>, key: K, cap: nat) {
    var use := LastUse(log, key);
    use.Some? && |KeysOf(log[use.value + 1..])| < cap
  }

  /** A key is still listed exactly when it is recent; its value is then that of its last use. */
  lemma ListedExactly<K, V>(log: seq<Item<K, V>>, key: K, cap: nat)
    requires cap > 0
    ensures var found := Position(Bounded(log, cap), key);
            && (found.Some? <==> Recent(log, key, cap))
            && (found.Some? ==> Bounded(log, cap)[found.value] == log[LastUse(log, key).value])
  {
    hide KeysOf, LastUses, Position, Touched;
    BoundedIsTail(log, cap);
    LastUsesUnique(log);
    var all, use := LastUses(log), LastUse(log, key);
    var kept := Bounded(log, cap);
    if use.None? {
      LastUsesKeys(log);
      AbsentTail(log, all, key, cap);
    } else {
      var later := log[use.value + 1..];
      BehindLastUse(log, key);
      var behind := LastUses(later);
      var front :| all == front + [log[use.value]] + behind;
      LastUsesUnique(later);
      LastUsesKeys(later);
      UniqueCount(behind);
      assert all[|front|] == log[use.value];
      ListedAt(all, |front|, key, cap);
    }
  }

  lemma AbsentTail<K, V>(log: seq<Item<K, V>>, all: seq<Item<K, V>>, key: K, cap: nat)
    requires KeysOf(all) == KeysOf(log) && forall i :: 0 <= i < |log| ==> log[i].key != key
    ensures Position(Tail(all, cap), key).None?
  {
    var t := Tail(all, cap);
    forall i | 0 <= i < |t| ensures t[i].key != key {
      assert t[i] == all[|all| - |t| + i];
      assert t[i].key in KeysOf(all);
    }
  }

  lemma ListedAt<K, V>(all: seq<Item<K, V>>, p: nat, key: K, cap: nat)
    requires Unique(all) && p < |all| && all[p].key == key
    ensures var found := Position(Tail(all, cap), key);
            && (found.Some? <==> |all| - 1 - p < cap)
            && (found.Some? ==> Tail(all, cap)[found.value] == all[p])
  {
    var t := Tail(all, cap);
    forall i | 0 <= i < |t| && t[i].key == key ensures t[i] == all[p] && |all| - 1 - p < cap {
      var j := |all| - |t| + i;
      assert t[i] == all[j];
      assert all[j].key == all[p].key;
    }
    if |all| - 1 - p < cap {
      assert t[p - (|all| - |t|)] == all[p];
    }
  }
}
