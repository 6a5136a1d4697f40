/** Markers, numbers and blanks in texts: the searching functions against what they look for. */
module TextReadings {
  import opened Prelude
  import opened Json
  import opened Values
  import opened Ccr
  import opened LiveZone
  import opened LiveTokens
  import opened Rewriting
  import opened BetaHeaders
  import opened Spellings

  // ----- markers -----

  ghost predicate Holds(s: string, p: string) { exists a, b :: s == a + p + b }

  lemma HeldBehind(s: string, p: string)
    requires s != "" && Holds(s[1..], p)
    ensures Holds(s, p)
  {
    var a, b :| s[1..] == a + p + b;
    var c := [s[0]] + a;
    assert s == [s[0]] + s[1..];
    assert s == c + p + b;
  }

  lemma {:induction false} HeldFound(s: string, p: string)
    requires Contains(s, p)
    ensures Holds(s, p)
    decreases |s|
  {
    hide Holds;
    if StartsWith(s, p) {
      HeldFirst(s, p);
    } else {
      HeldFound(s[1..], p);
      HeldBehind(s, p);
    }
  }

  lemma HeldFirst(s: string, p: string)
    requires StartsWith(s, p)
    ensures Holds(s, p)
  {
    assert s == "" + p + s[|p|..];
  }

  lemma {:induction false} FoundHeld(a: string, p: string, b: string)
    ensures Contains(a + p + b, p)
  {
    var s := a + p + b;
    if a == "" {
      assert s[..|p|] == p;
    } else {
      assert s[1..] == a[1..] + p + b;
      FoundHeld(a[1..], p, b);
    }
  }

  lemma ContainsExactly(s: string, p: string)
    ensures Contains(s, p) <==> Holds(s, p)
  {
    hide Contains;
    if Contains(s, p) { HeldFound(s, p); }
    if a, b :| s == a + p + b { FoundHeld(a, p, b); }
  }

  predicate HexDigits(h: string) {
    forall i :: 0 <= i < |h| ==> '0' <= h[i] <= '9' || 'a' <= h[i] <= 'f' || 'A' <= h[i] <= 'F'
  }

  /** A marker: 24 to 64 hexadecimal digits of either case between `<<ccr:` and `>>`. */
  predicate MarkerText(m: string, h: string) { m == "<<ccr:" + h + ">>" && 24 <= |h| <= 64 && HexDigits(h) }

  ghost predicate IsMarker(m: string) { exists h :: MarkerText(m, h) }

  lemma {:induction false} RunOf(h: string, rest: string)
    requires HexDigits(h) && (rest == "" || !IsHex(rest[0]))
    ensures HexRun(h + rest) == |h|
  {
    if h == "" {
      assert h + rest == rest;
    } else {
      assert (h + rest)[1..] == h[1..] + rest;
      RunOf(h[1..], rest);
    }
  }

  lemma {:induction false} RunHex(s: string)
    ensures HexDigits(s[..HexRun(s)])
  {
    if s != "" && IsHex(s[0]) {
      RunHex(s[1..]);
      assert s[..HexRun(s)] == [s[0]] + s[1..][..HexRun(s[1..])];
    }
  }

  lemma MatchedMarker(s: string)
    requires MatchLen(s).Some?
    ensures IsMarker(s[..MatchLen(s).value])
  {
    var k := HexRun(s[6..]);
    var n, h := k + 8, s[6..][..k];
    RunHex(s[6..]);
    assert s[..n] == s[..6] + h + s[6 + k..][..2];
    assert MarkerText(s[..n], h);
  }

  lemma MarkerMatched(h: string, behind: string)
    requires 24 <= |h| <= 64 && HexDigits(h)
    ensures MatchLen("<<ccr:" + h + ">>" + behind) == Some(|h| + 8)
  {
    var s, rest := "<<ccr:" + h + ">>" + behind, ">>" + behind;
    assert s[6..] == h + rest && s[..6] == OPENER;
    RunOf(h, rest);
    assert s[6 + |h|..] == rest && rest[..2] == CLOSER;
  }

  /** A text begins with a marker of this length exactly when its beginning is one. */
  lemma MatchExactly(s: string, n: nat)
    ensures MatchLen(s) == Some(n) <==> n <= |s| && IsMarker(s[..n])
  {
    hide MatchLen, HexDigits;
    if MatchLen(s) == Some(n) { MatchedMarker(s); }
    if n <= |s| {
      if h :| MarkerText(s[..n], h) {
        MarkerMatched(h, s[n..]);
        assert s == s[..n] + s[n..];
      }
    }
  }

  /** No marker begins at any of the first `n` positions. */
  predicate NoneBefore(s: string, n: nat)
    requires n <= |s| + 1
  {
    forall i :: 0 <= i < n ==> MatchLen(s[i..]).None?
  }

  lemma NoneShift(s: string, n: nat)
    requires s != "" && MatchLen(s).None? && n <= |s| && NoneBefore(s[1..], n)
    ensures NoneBefore(s, n + 1)
  {
    hide MatchLen;
    assert s[0..] == s;
    forall i | 0 < i <= n ensures MatchLen(s[i..]).None? { assert s[1..][i - 1..] == s[i..]; }
  }

  /** The next marker of a text: behind a gap in which none begins. */
  lemma {:induction false} SearchExactly(s: string)
    ensures Search(s).None? ==> NoneBefore(s, |s| + 1)
    ensures Search(s).Some? ==>
              var f := Search(s).value;
              s == f.gap + (f.text + f.rest) && IsMarker(f.text) && NoneBefore(s, |f.gap|)
    decreases |s|
  {
    hide MatchLen, IsMarker, NoneBefore;
    if Search(s).Some? { SearchSplits(s); }
    if MatchLen(s).Some? {
      MatchExactly(s, MatchLen(s).value);
      NoneYet(s);
    } else if s == "" {
      NoneEmpty();
    } else {
      SearchExactly(s[1..]);
      if Search(s).Some? {
        NoneShift(s, |Search(s[1..]).value.gap|);
      } else {
        NoneShift(s, |s|);
      }
    }
  }

  lemma NoneYet(s: string)
    ensures NoneBefore(s, 0)
  {
  }

  lemma NoneEmpty()
    ensures MatchLen("").None? && NoneBefore("", 1)
  {
    var s := "";
    assert s[0..] == s;
  }

  /** `t` is a string value somewhere in `v`; keys of objects do not count. */
  predicate TextIn(v: Val, t: string)
    decreases v
  {
    match v
    case Lit(_) => false
    case Txt(u) => u == t
    case Arr(items) => exists i :: 0 <= i < |items| && TextIn(items[i], t)
    case Obj(entries) => exists i :: 0 <= i < |entries| && TextIn(entries[i].val, t)
  }

  /** A request is marked exactly when some string value in it holds the opener of a marker. */
  lemma {:induction false} MarkerExactly(v: Val)
    ensures HasMarker(v) <==> exists t :: TextIn(v, t) && Holds(t, "<<ccr:")
    decreases v
  {
    hide Contains, Holds;
    match v
    case Lit(_) =>
    case Txt(t) => ContainsExactly(t, OPENER);
    case Arr(items) =>
      forall i | 0 <= i < |items|
        ensures HasMarker(items[i]) <==> exists t :: TextIn(items[i], t) && Holds(t, "<<ccr:")
      {
        MarkerExactly(items[i]);
      }
    case Obj(entries) =>
      forall i | 0 <= i < |entries|
        ensures HasMarker(entries[i].val) <==> exists t :: TextIn(entries[i].val, t) && Holds(t, "<<ccr:")
      {
        assert entries[i].val < entries[i];
        MarkerExactly(entries[i].val);
      }
  }

  // ----- numbers -----

  /** The number a run of digits spells, read from the front. */
  function Decimal(s: string, before: nat): nat {
    if s == "" then before
    else Decimal(s[1..], 10 * before + if '0' <= s[0] <= '9' then s[0] as int - '0' as int else 0)
  }

  lemma {:induction false} DecimalSnoc(s: string, c: char, before: nat)
    ensures Decimal(s + [c], before) == 10 * Decimal(s, before) + if '0' <= c <= '9' then c as int - '0' as int else 0
  {
    if s == "" {
      assert s + [c] == [c] && [c][1..] == "";
    } else {
      assert (s + [c])[1..] == s[1..] + [c];
      DecimalSnoc(s[1..], c, 10 * before + if '0' <= s[0] <= '9' then s[0] as int - '0' as int else 0);
    }
  }

  lemma {:induction false} NaturalRead(s: string)
    ensures Natural(s) == Decimal(s, 0)
  {
    if s != "" {
      var n := |s| - 1;
      NaturalRead(s[..n]);
      DecimalSnoc(s[..n], s[n], 0);
      assert s == s[..n] + [s[n]];
    }
  }

  /** An unsigned number: digits alone, below two to the sixty-fourth. */
  lemma UnsignedExactly(token: string, n: nat)
    ensures Unsigned(token) == Some(n) <==> AllDigits(token) && n == Decimal(token, 0) && n < 18446744073709551616
  {
    hide Natural, Decimal;
    NaturalRead(token);
    RunSplit(token);
    if AllDigits(token) {
      DigitRun(token, "");
      assert token + "" == token;
    }
    if Digits(token) == |token| { assert token[..|token|] == token; }
  }

  /** A member counts when it is an unsigned number; a text that spells one does not. */
  lemma CountExactly(v: Val, key: string, n: nat)
    ensures GetU64(v, key) == Some(n) <==> exists token ::
              && Get(v, key) == Some(Lit(token))
              && AllDigits(token) && n == Decimal(token, 0) && n < 18446744073709551616
  {
    hide Unsigned, Decimal, AllDigits, Get;
    var x := Get(v, key);
    if x.Some? && x.value.Lit? { UnsignedExactly(x.value.token, n); }
  }

  /** A chat request asks for several choices: its `n` is an unsigned number above one. */
  lemma ChoicesExactly(shape: Shape, v: Json)
    ensures MultiChoice(shape, v) <==>
            && shape == OpenAiChat
            && exists k: nat, n: nat ::
                 Last(v, "n", k) && v.kids[k].value.Scalar? && n > 1 && Unsigned(v.kids[k].value.token) == Some(n)
  {
    hide Lookup, Unsigned;
    LastIs(v, "n");
  }

  // ----- estimated tokens -----

  /** `n` words: a character that is no blank begins one when it is the first or stands behind a blank. */
  predicate Words(s: string, n: nat) {
    if s == "" then n == 0
    else
      var k := |s| - 1;
      if IsWhite(s[k]) || (k > 0 && !IsWhite(s[k - 1])) then Words(s[..k], n) else n > 0 && Words(s[..k], n - 1)
  }

  lemma {:induction false} UnitsSnoc(s: string, c: char, inside: bool)
    ensures var within := if s == "" then inside else !IsWhite(s[|s| - 1]);
            Units(s + [c], inside) == Units(s, inside) + if IsWhite(c) || within then 0 else 1
  {
    hide IsWhite;
    if s == "" {
      assert s + [c] == [c] && [c][1..] == "";
    } else {
      assert (s + [c])[1..] == s[1..] + [c];
      UnitsSnoc(s[1..], c, !IsWhite(s[0]));
    }
  }

  lemma {:induction false} WordsRead(s: string, n: nat)
    ensures Words(s, n) <==> n == Units(s, false)
  {
    hide IsWhite;
    if s != "" {
      var k := |s| - 1;
      assert s == s[..k] + [s[k]];
      UnitsSnoc(s[..k], s[k], false);
      WordsRead(s[..k], n);
      if n > 0 { WordsRead(s[..k], n - 1); }
    }
  }

  /** The estimate: the least number that is at least one, the number of words, and a quarter of the characters. */
  lemma EstimateExactly(s: string, words: nat)
    requires Words(s, words)
    ensures var n := EstimateTokens(s);
            && n >= 1 && n >= words && 4 * n >= |s|
            && (n == 1 || n == words || 4 * (n - 1) < |s|)
  {
    WordsRead(s, words);
  }

  // ----- the text compressor -----

  /** A text becomes a marker when it holds more than blanks, is long enough, and could be stored. */
  lemma CompressExactly(input: string, minBytes: nat, hash: string -> string, st: StoreState)
    ensures var (r, next) := CompressResult(input, minBytes, hash, st);
            var wanted := !Blank(input) && Bytes(input) >= minBytes;
            var written := PutResult(st, hash(input), input).0.Some?;
            && (r.stored <==> wanted && written)
            && r.output == (if r.stored then "<<ccr:" + hash(input) + ">>" else input)
            && r.hash == (if wanted then Some(hash(input)) else None)
            && next == if wanted then PutResult(st, hash(input), input).1 else st
  {
    assert Blank(input) <==> forall c :: c in input ==> IsWhite(c);
  }
}
