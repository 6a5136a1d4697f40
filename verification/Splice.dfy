/** Byte-range surgery: cutting replaced ranges out of a text and copying the rest verbatim. */
module Splice {
  import opened Prelude

  /** Positions `lo..hi` give way to `bytes`; a pure insertion when `lo == hi`. */
  datatype Replacement<T> = Replacement(lo: nat, hi: nat, bytes: seq<T>)

  predicate StartsBefore<T>(a: Replacement<T>, b: Replacement<T>) { a.lo < b.lo }

  /** Ranges that lie one after the other between `cursor` and `n`. */
  predicate InOrder<T>(rs: seq<Replacement<T>>, cursor: nat, n: nat)
    decreases |rs|
  {
    if rs == [] then cursor <= n
    else cursor <= rs[0].lo <= rs[0].hi && InOrder(rs[1..], rs[0].hi, n)
  }

  /** Replacements in the order the surgery visits them. */
  function Visited<T>(rs: seq<Replacement<T>>): (r: seq<Replacement<T>>)
    ensures |r| == |rs|
  {
    Sort(rs, StartsBefore)
  }

  /** `s` from `cursor` on, with every range replaced. */
  function Spliced<T>(s: seq<T>, rs: seq<Replacement<T>>, cursor: nat): seq<T>
    requires InOrder(rs, cursor, |s|)
    decreases |rs|
  {
    if rs == [] then s[cursor..]
    else
      InOrderFits(rs, cursor, |s|);
      s[cursor..rs[0].lo] + rs[0].bytes + Spliced(s, rs[1..], rs[0].hi)
  }

  lemma {:induction false} InOrderFits<T>(rs: seq<Replacement<T>>, cursor: nat, n: nat)
    requires InOrder(rs, cursor, n)
    ensures cursor <= n
    ensures forall i :: 0 <= i < |rs| ==> cursor <= rs[i].lo <= rs[i].hi <= n
    decreases |rs|
  {
    if rs != [] {
      InOrderFits(rs[1..], rs[0].hi, n);
      forall i | 1 <= i < |rs| ensures cursor <= rs[i].lo <= rs[i].hi <= n {
        assert rs[i] == rs[1..][i - 1];
      }
    }
  }

  /**
   * The in-place sort followed by the moving cursor. The ranges must not overlap: the
   * source asserts it, and slicing backwards would abort.
   */
  method ApplyReplacements<T>(original: seq<T>, replacements: array<Replacement<T>>) returns (out: seq<T>)
    requires InOrder(Visited(replacements[..]), 0, |original|)
    modifies replacements
    ensures replacements[..] == Visited(old(replacements[..]))
    ensures out == Spliced(original, Visited(old(replacements[..])), 0)
  {
    var sorted := Visited(replacements[..]);
    forall i | 0 <= i < replacements.Length { replacements[i] := sorted[i]; }
    assert replacements[..] == sorted;
    out := [];
    var cursor, k := 0, 0;
    while k < replacements.Length
      invariant 0 <= k <= replacements.Length && 0 <= cursor <= |original|
      invariant replacements[..] == sorted
      invariant InOrder(sorted[k..], cursor, |original|)
      invariant out + Spliced(original, sorted[k..], cursor) == Spliced(original, sorted, 0)
    {
      var r := replacements[k];
      assert sorted[k..][0] == r && sorted[k..][1..] == sorted[k + 1..];
      InOrderFits(sorted[k..], cursor, |original|);
      ghost var rest := Spliced(original, sorted[k + 1..], r.hi);
      Regroup(out, original[cursor..r.lo], r.bytes, rest);
      out := out + original[cursor..r.lo] + r.bytes;
      cursor, k := r.hi, k + 1;
    }
    out := out + original[cursor..];
  }

  lemma Regroup<T>(a: seq<T>, b: seq<T>, c: seq<T>, d: seq<T>)
    ensures a + (b + c + d) == a + b + c + d
  {
  }

  // ----- lengths -----

  function Removed<T>(rs: seq<Replacement<T>>): int {
    if rs == [] then 0 else rs[0].hi - rs[0].lo + Removed(rs[1..])
  }

  function Added<T>(rs: seq<Replacement<T>>): nat {
    if rs == [] then 0 else |rs[0].bytes| + Added(rs[1..])
  }

  /** The output is the input minus what was cut plus what was pasted. */
  lemma {:induction false} SplicedLength<T>(s: seq<T>, rs: seq<Replacement<T>>, cursor: nat)
    requires InOrder(rs, cursor, |s|)
    ensures |Spliced(s, rs, cursor)| == |s| - cursor - Removed(rs) + Added(rs)
    decreases |rs|
  {
    InOrderFits(rs, cursor, |s|);
    if rs != [] { SplicedLength(s, rs[1..], rs[0].hi); }
  }

  // ----- doing the last replacement first -----

  function Cut<T>(s: seq<T>, r: Replacement<T>): seq<T>
    requires r.lo <= r.hi <= |s|
  {
    s[..r.lo] + r.bytes + s[r.hi..]
  }

  lemma {:induction false} InOrderInit<T>(rs: seq<Replacement<T>>, r: Replacement<T>, cursor: nat, n: nat)
    requires InOrder(rs + [r], cursor, n)
    ensures InOrder(rs, cursor, r.lo) && cursor <= r.lo <= r.hi <= n
    decreases |rs|
  {
    if rs == [] {
      assert rs + [r] == [r];
      assert InOrder([r][1..], r.hi, n);
    } else {
      assert (rs + [r])[1..] == rs[1..] + [r];
      InOrderInit(rs[1..], r, rs[0].hi, n);
    }
  }

  lemma {:induction false} InOrderWiden<T>(rs: seq<Replacement<T>>, cursor: nat, m: nat, n: nat)
    requires InOrder(rs, cursor, m) && m <= n
    ensures InOrder(rs, cursor, n)
    decreases |rs|
  {
    if rs != [] { InOrderWiden(rs[1..], rs[0].hi, m, n); }
  }

  lemma SplicedOne<T>(s: seq<T>, r: Replacement<T>, cursor: nat)
    requires cursor <= r.lo <= r.hi <= |s|
    ensures Spliced(s, [r], cursor) == Spliced(Cut(s, r), [], cursor)
  {
    assert [r][1..] == [];
    assert Spliced(s, [r], cursor) == s[cursor..r.lo] + r.bytes + s[r.hi..];
    assert Cut(s, r)[cursor..] == s[cursor..r.lo] + r.bytes + s[r.hi..];
  }

  lemma SplicedFirst<T>(s: seq<T>, r: Replacement<T>, more: seq<Replacement<T>>, cursor: nat)
    requires InOrder([r] + more, cursor, |s|)
    ensures cursor <= r.lo <= r.hi <= |s| && InOrder(more, r.hi, |s|)
    ensures Spliced(s, [r] + more, cursor) == s[cursor..r.lo] + r.bytes + Spliced(s, more, r.hi)
  {
    assert ([r] + more)[1..] == more;
    InOrderFits(more, r.hi, |s|);
  }

  lemma SameStart<T>(s: seq<T>, r: Replacement<T>, cursor: nat, lo: nat)
    requires cursor <= lo <= r.lo <= r.hi <= |s|
    ensures Cut(s, r)[cursor..lo] == s[cursor..lo]
  {
  }

  /** The last replacement may be made first. */
  lemma {:induction false} SplicedLast<T>(s: seq<T>, rs: seq<Replacement<T>>, r: Replacement<T>, cursor: nat)
    requires InOrder(rs + [r], cursor, |s|)
    ensures cursor <= r.lo <= r.hi <= |s| && InOrder(rs, cursor, |Cut(s, r)|)
    ensures Spliced(s, rs + [r], cursor) == Spliced(Cut(s, r), rs, cursor)
    decreases |rs|
  {
    hide Spliced;
    InOrderInit(rs, r, cursor, |s|);
    InOrderWiden(rs, cursor, r.lo, |Cut(s, r)|);
    if rs == [] {
      assert rs + [r] == [r];
      SplicedOne(s, r, cursor);
    } else {
      var x, tail := rs[0], rs[1..];
      assert rs == [x] + tail && rs + [r] == [x] + (tail + [r]);
      SplicedFirst(s, x, tail + [r], cursor);
      SplicedLast(s, tail, r, x.hi);
      SplicedFirst(Cut(s, r), x, tail, cursor);
      InOrderFits(rs, cursor, r.lo);
      SameStart(s, r, cursor, x.lo);
    }
  }

  function Shift<T>(rs: seq<Replacement<T>>, n: nat): (r: seq<Replacement<T>>)
    ensures |r| == |rs|
    ensures forall i :: 0 <= i < |rs| ==> r[i] == Replacement(rs[i].lo + n, rs[i].hi + n, rs[i].bytes)
  {
    seq(|rs|, i requires 0 <= i < |rs| => Replacement(rs[i].lo + n, rs[i].hi + n, rs[i].bytes))
  }

  lemma {:induction false} InOrderShift<T>(rs: seq<Replacement<T>>, cursor: nat, n: nat, k: nat, m: nat)
    requires InOrder(rs, cursor, n) && n + k <= m
    ensures InOrder(Shift(rs, k), cursor + k, m)
    decreases |rs|
  {
    if rs != [] {
      InOrderShift(rs[1..], rs[0].hi, n, k, m);
      assert Shift(rs, k)[1..] == Shift(rs[1..], k);
    }
  }

  lemma ShiftFirst<T>(rs: seq<Replacement<T>>, n: nat)
    requires rs != []
    ensures rs == [rs[0]] + rs[1..]
    ensures Shift(rs, n) == [Replacement(rs[0].lo + n, rs[0].hi + n, rs[0].bytes)] + Shift(rs[1..], n)
  {
  }

  lemma {:induction false} SplicedWithin<T>(a: seq<T>, s: seq<T>, z: seq<T>, t: seq<T>, rs: seq<Replacement<T>>,
                                            cursor: nat)
    requires t == a + s + z
    requires InOrder(rs, cursor, |s|) && InOrder(Shift(rs, |a|), cursor + |a|, |t|)
    ensures Spliced(t, Shift(rs, |a|), cursor + |a|) == Spliced(s, rs, cursor) + z
    decreases |rs|
  {
    hide InOrder, Spliced, Shift;
    InOrderFits(rs, cursor, |s|);
    if rs == [] {
      WithinNone(a, s, z, t, cursor);
    } else {
      var q, rest := Replacement(rs[0].lo + |a|, rs[0].hi + |a|, rs[0].bytes), Shift(rs[1..], |a|);
      ShiftFirst(rs, |a|);
      SplicedFirst(s, rs[0], rs[1..], cursor);
      SplicedFirst(t, q, rest, cursor + |a|);
      SplicedWithin(a, s, z, t, rs[1..], rs[0].hi);
      PartWithin(a, s, z, cursor, rs[0].lo);
      Assoc(s[cursor..rs[0].lo] + rs[0].bytes, Spliced(s, rs[1..], rs[0].hi), z);
    }
  }

  lemma WithinNone<T>(a: seq<T>, s: seq<T>, z: seq<T>, t: seq<T>, cursor: nat)
    requires t == a + s + z && cursor <= |s|
    ensures Spliced(t, Shift([], |a|), cursor + |a|) == Spliced(s, [], cursor) + z
  {
    RestWithin(a, s, z, cursor);
    SplicedNone(t, cursor + |a|);
    SplicedNone(s, cursor);
  }

  lemma RestWithin<T>(a: seq<T>, s: seq<T>, z: seq<T>, i: nat)
    requires i <= |s|
    ensures (a + s + z)[i + |a|..] == s[i..] + z
  {
  }

  lemma PartWithin<T>(a: seq<T>, s: seq<T>, z: seq<T>, i: nat, j: nat)
    requires i <= j <= |s|
    ensures (a + s + z)[i + |a|..j + |a|] == s[i..j]
  {
  }

  lemma SplicedNone<T>(s: seq<T>, cursor: nat)
    requires cursor <= |s|
    ensures Spliced(s, [], cursor) == s[cursor..]
  {
  }

  lemma InOrderFromZero<T>(rs: seq<Replacement<T>>, cursor: nat, n: nat)
    requires InOrder(rs, cursor, n)
    ensures InOrder(rs, 0, n)
  {
  }

  lemma SplicedFrom<T>(t: seq<T>, rs: seq<Replacement<T>>, cursor: nat)
    requires InOrder(rs, cursor, |t|) && InOrder(rs, 0, |t|) && cursor <= |t|
    ensures Spliced(t, rs, 0) == t[..cursor] + Spliced(t, rs, cursor)
  {
    if rs == [] {
      assert t[0..] == t[..cursor] + t[cursor..];
    } else {
      var r := rs[0];
      InOrderFits(rs, cursor, |t|);
      SplitSlice(t, cursor, r.lo);
      Regroup(t[..cursor], t[cursor..r.lo], r.bytes, Spliced(t, rs[1..], r.hi));
    }
  }

  lemma SplitSlice<T>(t: seq<T>, i: nat, j: nat)
    requires i <= j <= |t|
    ensures t[0..j] == t[..i] + t[i..j]
  {
  }

  /** Replacing ranges of a part replaces the part. */
  lemma SplicedInside<T>(a: seq<T>, s: seq<T>, z: seq<T>, rs: seq<Replacement<T>>)
    requires InOrder(rs, 0, |s|)
    ensures InOrder(Shift(rs, |a|), 0, |a + s + z|)
    ensures Spliced(a + s + z, Shift(rs, |a|), 0) == a + Spliced(s, rs, 0) + z
  {
    var t, q := a + s + z, Shift(rs, |a|);
    InOrderShift(rs, 0, |s|, |a|, |t|);
    SplicedWithin(a, s, z, t, rs, 0);
    InOrderFromZero(q, |a|, |t|);
    SplicedFrom(t, q, |a|);
    TakeFirst(a, s, z);
    Assoc(a, Spliced(s, rs, 0), z);
  }

  lemma TakeFirst<T>(a: seq<T>, s: seq<T>, z: seq<T>)
    ensures (a + s + z)[..|a|] == a
  {
  }

  // ----- characters and bytes -----

  function Flatten<T, U>(s: seq<T>, enc: T -> seq<U>): seq<U> {
    if s == [] then [] else enc(s[0]) + Flatten(s[1..], enc)
  }

  lemma FlattenCons<T, U>(x: T, s: seq<T>, enc: T -> seq<U>)
    ensures Flatten([x] + s, enc) == enc(x) + Flatten(s, enc)
  {
    assert ([x] + s)[1..] == s;
  }

  lemma {:induction false} FlattenConcat<T, U>(a: seq<T>, b: seq<T>, enc: T -> seq<U>)
    ensures Flatten(a + b, enc) == Flatten(a, enc) + Flatten(b, enc)
    decreases |a|, 1
  {
    if a == [] {
      assert a + b == b;
    } else {
      FlattenMore(a, b, a[0], a[1..], enc);
    }
  }

  lemma {:induction false} FlattenMore<T, U>(a: seq<T>, b: seq<T>, x: T, rest: seq<T>, enc: T -> seq<U>)
    requires a == [x] + rest
    ensures Flatten(a + b, enc) == Flatten(a, enc) + Flatten(b, enc)
    decreases |a|, 0
  {
    hide Flatten;
    FlattenConcat(rest, b, enc);
    Assoc([x], rest, b);
    FlattenCons(x, rest + b, enc);
    FlattenCons(x, rest, enc);
    Assoc(enc(x), Flatten(rest, enc), Flatten(b, enc));
  }

  /** The same replacements in the coordinates of the encoded text. */
  function Encoded<T, U>(s: seq<T>, rs: seq<Replacement<T>>, enc: T -> seq<U>): (r: seq<Replacement<U>>)
    requires forall i :: 0 <= i < |rs| ==> rs[i].lo <= rs[i].hi <= |s|
    ensures |r| == |rs|
  {
    seq(|rs|, i requires 0 <= i < |rs| =>
      Replacement(|Flatten(s[..rs[i].lo], enc)|, |Flatten(s[..rs[i].hi], enc)|, Flatten(rs[i].bytes, enc)))
  }

  lemma FlattenSlice<T, U>(s: seq<T>, i: nat, j: nat, enc: T -> seq<U>)
    requires i <= j <= |s|
    ensures var p, q := |Flatten(s[..i], enc)|, |Flatten(s[..j], enc)|;
            p <= q <= |Flatten(s, enc)| && Flatten(s, enc)[p..q] == Flatten(s[i..j], enc)
  {
    FlattenConcat(s[..i], s[i..j], enc);
    FlattenConcat(s[..j], s[j..], enc);
    assert s[..i] + s[i..j] == s[..j] && s[..j] + s[j..] == s;
  }

  /**
   * Splicing commutes with encoding each character: what is proved about texts holds of
   * their UTF-8 bytes at the corresponding byte offsets.
   */
  lemma {:induction false} SplicedEncoded<T, U>(s: seq<T>, rs: seq<Replacement<T>>, cursor: nat, enc: T -> seq<U>)
    requires InOrder(rs, cursor, |s|)
    ensures (InOrderFits(rs, cursor, |s|);
             InOrder(Encoded(s, rs, enc), |Flatten(s[..cursor], enc)|, |Flatten(s, enc)|))
    ensures Spliced(Flatten(s, enc), Encoded(s, rs, enc), |Flatten(s[..cursor], enc)|)
            == Flatten(Spliced(s, rs, cursor), enc)
    decreases |rs|
  {
    hide Flatten;
    InOrderFits(rs, cursor, |s|);
    if rs == [] {
      FlattenSlice(s, cursor, |s|, enc);
      assert s[..|s|] == s && s[cursor..|s|] == s[cursor..];
    } else {
      var r := rs[0];
      SplicedEncoded(s, rs[1..], r.hi, enc);
      assert Encoded(s, rs, enc)[1..] == Encoded(s, rs[1..], enc);
      FlattenSlice(s, cursor, r.lo, enc);
      FlattenSlice(s, r.lo, r.hi, enc);
      FlattenConcat(s[cursor..r.lo] + r.bytes, Spliced(s, rs[1..], r.hi), enc);
      FlattenConcat(s[cursor..r.lo], r.bytes, enc);
    }
  }
}
