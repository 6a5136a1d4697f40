/** How a JSON string may spell a text, and what a JSON number is: the readers against the grammar. */
module Spellings {
  import opened Prelude
  import opened Json

  // ----- characters -----

  const LOWER := "0123456789abcdef"
  const UPPER := "0123456789ABCDEF"

  predicate Digit(c: char, n: nat) { n < 16 && (c == LOWER[n] || c == UPPER[n]) }

  /** Four hexadecimal digits, of either case each, that spell `n`. */
  predicate Spells(s: string, n: nat) {
    && |s| == 4 && n < 0x1_0000
    && Digit(s[0], n / 0x10 / 0x10 / 0x10) && Digit(s[1], n / 0x10 / 0x10 % 0x10)
    && Digit(s[2], n / 0x10 % 0x10) && Digit(s[3], n % 0x10)
  }

  /** The two-character escapes: the character behind the backslash, and what it stands for. */
  const SHORT := map['\"' := 34, '\\' := 92, '/' := 47, 'b' := 8, 'f' := 12, 'n' := 10, 'r' := 13, 't' := 9]

  /** The spellings section 7 of RFC 8259 gives a character, one of two UTF-16 units included. */
  predicate Spelling(c: char, s: string) {
    var n := c as int;
    || (s == [c] && n >= 0x20 && n != 34 && n != 92)
    || (|s| == 2 && s[0] == '\\' && s[1] in SHORT && SHORT[s[1]] == n)
    || (|s| == 6 && s[..2] == "\\u" && n < 0x1_0000 && Spells(s[2..], n))
    || (|s| == 12 && s[..2] == "\\u" && s[6..8] == "\\u" && n >= 0x1_0000
        && Spells(s[2..6], 0xD800 + (n - 0x1_0000) / 0x400) && Spells(s[8..], 0xDC00 + (n - 0x1_0000) % 0x400))
  }

  lemma DigitRead(c: char, n: nat)
    ensures HexValue(c) == Some(n) <==> Digit(c, n)
  {
    if n < 16 {
      assert LOWER[n] == if n < 10 then ('0' as int + n) as char else ('a' as int + n - 10) as char;
      assert UPPER[n] == if n < 10 then ('0' as int + n) as char else ('A' as int + n - 10) as char;
    }
  }

  lemma FourDigits(a: nat, b: nat, c: nat, d: nat)
    requires a < 16 && b < 16 && c < 16 && d < 16
    ensures var n := a * 0x1000 + b * 0x100 + c * 0x10 + d;
            n / 0x10 / 0x10 / 0x10 == a && n / 0x10 / 0x10 % 0x10 == b && n / 0x10 % 0x10 == c && n % 0x10 == d
  {
    var n := a * 0x1000 + b * 0x100 + c * 0x10 + d;
    assert n / 0x10 == a * 0x100 + b * 0x10 + c;
    assert n / 0x10 / 0x10 == a * 0x10 + b;
  }

  lemma FourParts(n: nat)
    ensures n == n / 0x10 / 0x10 / 0x10 * 0x1000 + n / 0x10 / 0x10 % 0x10 * 0x100 + n / 0x10 % 0x10 * 0x10 + n % 0x10
  {
  }

  /** The four digits behind `\u` are read as the number they spell. */
  lemma FourRead(s: string, n: nat)
    requires |s| == 4
    ensures Hex4(s) == Some(n) <==> Spells(s, n)
  {
    hide HexValue, Digit;
    if Spells(s, n) {
      DigitRead(s[0], n / 0x10 / 0x10 / 0x10);
      DigitRead(s[1], n / 0x10 / 0x10 % 0x10);
      DigitRead(s[2], n / 0x10 % 0x10);
      DigitRead(s[3], n % 0x10);
      FourParts(n);
    } else if Hex4(s) == Some(n) {
      var a, b, c, d := HexValue(s[0]).value, HexValue(s[1]).value, HexValue(s[2]).value, HexValue(s[3]).value;
      DigitBound(s[0]);
      DigitBound(s[1]);
      DigitBound(s[2]);
      DigitBound(s[3]);
      DigitRead(s[0], a);
      DigitRead(s[1], b);
      DigitRead(s[2], c);
      DigitRead(s[3], d);
      FourDigits(a, b, c, d);
    }
  }

  lemma DigitBound(c: char)
    ensures HexValue(c).Some? ==> HexValue(c).value < 16
  {
  }

  lemma PlainRead(b: string, c: char, k: nat)
    requires b != "" && b[0] != '\\'
    ensures DecodeHead(b) == Some((c, k)) <==> k <= |b| && Spelling(c, b[..k])
  {
    hide Hex4, Spells;
    if k <= |b| && k > 0 { assert b[..k][0] == b[0]; }
    if k == 1 { assert b[..1] == [b[0]]; }
  }

  lemma ShortRead(b: string, c: char, k: nat)
    requires |b| >= 2 && b[0] == '\\' && b[1] != 'u'
    ensures DecodeHead(b) == Some((c, k)) <==> k <= |b| && Spelling(c, b[..k])
  {
    hide Hex4, Spells;
    if 0 < k <= |b| {
      assert b[..k][0] == '\\';
      if k >= 2 { assert b[..k][1] == b[1] && b[..k][..2] == b[..2]; }
    }
  }

  lemma ShortAlone(b: string, c: char, k: nat)
    requires 2 <= |b| < 6 && b[0] == '\\' && b[1] == 'u'
    ensures DecodeHead(b) == None && !(k <= |b| && Spelling(c, b[..k]))
  {
    hide Hex4, Spells;
    if 0 < k <= |b| {
      assert b[..k][0] == '\\';
      if k >= 2 { assert b[..k][1] == 'u'; }
    }
  }

  /** One unit, and what a unit asks of the text behind it. */
  lemma UnitRead(b: string, c: char, k: nat)
    requires |b| >= 6 && b[0] == '\\' && b[1] == 'u' && k <= |b|
    ensures Spelling(c, b[..k]) <==>
            || (k == 6 && c as int < 0x1_0000 && Hex4(b[2..6]) == Some(c as int))
            || (k == 12 && b[6] == '\\' && b[7] == 'u' && c as int >= 0x1_0000
                && Hex4(b[2..6]) == Some(0xD800 + (c as int - 0x1_0000) / 0x400)
                && Hex4(b[8..12]) == Some(0xDC00 + (c as int - 0x1_0000) % 0x400))
  {
    hide Hex4, Spells;
    var s, n := b[..k], c as int;
    if k > 0 { assert s[0] == '\\'; }
    if k >= 2 { assert s[1] == 'u'; }
    if k == 6 {
      assert s[..2] == "\\u" && s[2..] == b[2..6];
      FourRead(b[2..6], n);
    }
    if k == 12 {
      assert s[..2] == "\\u" && s[2..6] == b[2..6] && s[8..] == b[8..12] && s[6..8] == [b[6], b[7]];
      if n >= 0x1_0000 {
        FourRead(b[2..6], 0xD800 + (n - 0x1_0000) / 0x400);
        FourRead(b[8..12], 0xDC00 + (n - 0x1_0000) % 0x400);
      }
    }
  }

  lemma PairRead(high: nat, low: nat, n: nat)
    requires 0xD800 <= high < 0xDC00 && 0xDC00 <= low < 0xE000
    ensures n == 0x1_0000 + (high - 0xD800) * 0x400 + (low - 0xDC00) <==>
            n >= 0x1_0000 && high == 0xD800 + (n - 0x1_0000) / 0x400 && low == 0xDC00 + (n - 0x1_0000) % 0x400
  {
    if n >= 0x1_0000 {
      var m := n - 0x1_0000;
      assert m == m / 0x400 * 0x400 + m % 0x400;
      if m == (high - 0xD800) * 0x400 + (low - 0xDC00) { assert m / 0x400 == high - 0xD800; }
    }
  }

  lemma EscapeRead(b: string, c: char, k: nat)
    requires |b| >= 6 && b[0] == '\\' && b[1] == 'u' && k <= |b|
    ensures DecodeHead(b) == Some((c, k)) <==> Spelling(c, b[..k])
  {
    hide Spelling;
    UnitRead(b, c, k);
    var n, u := c as int, Hex4(b[2..6]);
    if u.Some? && 0xD800 <= u.value < 0xDC00 && |b| >= 12 {
      var low := Hex4(b[8..12]);
      if low.Some? && 0xDC00 <= low.value < 0xE000 { PairRead(u.value, low.value, n); }
      if n >= 0x1_0000 { PairBounds(n); }
    }
    if n >= 0x1_0000 { PairBounds(n); }
  }

  lemma PairBounds(n: nat)
    requires 0x1_0000 <= n < 0x11_0000
    ensures 0xD800 <= 0xD800 + (n - 0x1_0000) / 0x400 < 0xDC00
    ensures 0xDC00 <= 0xDC00 + (n - 0x1_0000) % 0x400 < 0xE000
  {
  }

  /** A body is read as beginning with a character of some length exactly when it is spelled there. */
  lemma HeadRead(b: string, c: char, k: nat)
    requires b != ""
    ensures DecodeHead(b) == Some((c, k)) <==> k <= |b| && Spelling(c, b[..k])
  {
    hide DecodeHead, Spelling;
    if b[0] != '\\' {
      PlainRead(b, c, k);
    } else if |b| == 1 {
      LoneBackslash(b, c, k);
    } else if b[1] != 'u' {
      ShortRead(b, c, k);
    } else if |b| < 6 {
      ShortAlone(b, c, k);
    } else if k <= |b| {
      EscapeRead(b, c, k);
    }
  }

  lemma LoneBackslash(b: string, c: char, k: nat)
    requires b == "\\"
    ensures DecodeHead(b) == None && !(k <= |b| && Spelling(c, b[..k]))
  {
    if k == 1 { assert b[..1] == "\\"; }
  }

  // ----- texts -----

  function Concat(pieces: seq<string>): string { if pieces == [] then "" else pieces[0] + Concat(pieces[1..]) }

  /** The pieces spell the text, character by character, each in whatever way. */
  predicate Spelled(t: string, pieces: seq<string>) {
    |pieces| == |t| && forall i :: 0 <= i < |t| ==> Spelling(t[i], pieces[i])
  }

  lemma SpellingLength(c: char, s: string)
    requires Spelling(c, s)
    ensures s != ""
  {
  }

  /** Any mixture of spellings of a text is read as that text. */
  lemma {:induction false} Mixture(t: string, pieces: seq<string>)
    requires Spelled(t, pieces)
    ensures Decode(Concat(pieces)) == Some(t)
    decreases |t|
  {
    hide Spelling, DecodeHead;
    if t != "" {
      var b, rest := Concat(pieces), Concat(pieces[1..]);
      assert Spelling(t[0], pieces[0]);
      SpellingLength(t[0], pieces[0]);
      assert b[..|pieces[0]|] == pieces[0] && b[|pieces[0]|..] == rest;
      HeadRead(b, t[0], |pieces[0]|);
      forall i | 0 <= i < |t[1..]| ensures Spelling(t[1..][i], pieces[1..][i]) {
        assert t[1..][i] == t[i + 1] && pieces[1..][i] == pieces[i + 1];
      }
      Mixture(t[1..], pieces[1..]);
      assert [t[0]] + t[1..] == t;
    }
  }

  /** And nothing else is: what is read as a text is a concatenation of spellings of its characters. */
  lemma {:induction false} OnlyMixtures(b: string) returns (pieces: seq<string>)
    requires Decode(b).Some?
    ensures Concat(pieces) == b && Spelled(Decode(b).value, pieces)
    decreases |b|
  {
    hide Spelling, DecodeHead;
    if b == "" {
      pieces := [];
    } else {
      var (c, k) := DecodeHead(b).value;
      HeadRead(b, c, k);
      var rest := OnlyMixtures(b[k..]);
      pieces := [b[..k]] + rest;
      assert pieces[1..] == rest && b[..k] + b[k..] == b;
      forall i | 0 <= i < |pieces| ensures Spelling(Decode(b).value[i], pieces[i]) {
        if i > 0 { assert pieces[i] == rest[i - 1] && Decode(b).value[i] == Decode(b[k..]).value[i - 1]; }
      }
    }
  }

  /** A string token denotes a text exactly when it is made of spellings of the characters of the text. */
  lemma DecodeExactly(b: string, t: string)
    ensures Decode(b) == Some(t) <==> exists pieces :: Spelled(t, pieces) && Concat(pieces) == b
  {
    if Decode(b) == Some(t) { var pieces := OnlyMixtures(b); }
    if pieces :| Spelled(t, pieces) && Concat(pieces) == b { Mixture(t, pieces); }
  }

  /** The writer picks the shortest spelling, with small hexadecimal digits. */
  lemma ShortestWritten(c: char, s: string)
    requires Spelling(c, s)
    ensures Spelling(c, EncodeChar(c)) && |EncodeChar(c)| <= |s|
    ensures |EncodeChar(c)| > 2 ==> forall d :: d in EncodeChar(c) ==> !('A' <= d <= 'F')
  {
    var n, e := c as int, EncodeChar(c);
    if |e| == 6 {
      assert e == "\\u00" + [HexDigit(n / 16), HexDigit(n % 16)];
      assert e[2..] == ['0', '0', HexDigit(n / 16), HexDigit(n % 16)] && e[..2] == "\\u";
      assert LOWER[0] == '0' && HexDigit(n / 16) == LOWER[n / 16] && HexDigit(n % 16) == LOWER[n % 16];
      assert Spells(e[2..], n);
    }
  }

  // ----- numbers -----

  predicate AllDigits(s: string) { s != "" && forall i :: 0 <= i < |s| ==> '0' <= s[i] <= '9' }

  predicate IntPart(s: string) { s == "0" || (AllDigits(s) && s[0] != '0') }

  predicate FracPart(s: string) { s == "" || (s[0] == '.' && AllDigits(s[1..])) }

  predicate ExpPart(s: string) {
    || s == ""
    || (s[0] in "eE" && (AllDigits(s[1..]) || (|s| > 1 && s[1] in "+-" && AllDigits(s[2..]))))
  }

  /** The parts of a number in section 6 of RFC 8259. */
  predicate NumberParts(s: string, sign: string, i: string, f: string, e: string) {
    s == sign + (i + (f + e)) && (sign == "" || sign == "-") && IntPart(i) && FracPart(f) && ExpPart(e)
  }

  lemma {:induction false} DigitRun(a: string, b: string)
    requires (a == "" || AllDigits(a)) && (b == "" || !('0' <= b[0] <= '9'))
    ensures Digits(a + b) == |a|
  {
    if a == "" {
      assert a + b == b;
    } else {
      assert (a + b)[1..] == a[1..] + b;
      DigitRun(a[1..], b);
    }
  }

  lemma {:induction false} RunSplit(s: string)
    ensures var n := Digits(s);
            && (n == 0 || AllDigits(s[..n])) && (n < |s| ==> !('0' <= s[n] <= '9'))
  {
    if s != "" && IsDigit(s[0]) {
      RunSplit(s[1..]);
      var n := Digits(s[1..]);
      assert s[..n + 1] == [s[0]] + s[1..][..n];
    }
  }

  lemma ExponentExactly(s: string)
    ensures ExponentOk(s) <==> ExpPart(s)
  {
    if s != "" && s[0] in "eE" {
      var r := if |s| > 1 && s[1] in "+-" then s[2..] else s[1..];
      RunSplit(r);
      if Digits(r) == |r| { assert r[..|r|] == r; }
      if AllDigits(r) {
        DigitRun(r, "");
        assert r + "" == r;
      }
      if |s| > 1 && s[1] in "+-" { assert s[1..][0] == s[1]; }
    }
  }

  /** What follows the digits of a fraction or of the integer part begins with none. */
  lemma TailApart(f: string, e: string)
    requires FracPart(f) && ExpPart(e)
    ensures (f + e) == "" || !('0' <= (f + e)[0] <= '9')
  {
  }

  lemma FractionParts(s: string) returns (f: string, e: string)
    requires FractionOk(s)
    ensures FracPart(f) && ExpPart(e) && s == f + e
  {
    hide ExponentOk, ExpPart;
    if s != "" && s[0] == '.' {
      var n := Digits(s[1..]);
      RunSplit(s[1..]);
      ExponentExactly(s[1 + n..]);
      f, e := s[..1 + n], s[1 + n..];
      assert f[1..] == s[1..][..n];
    } else {
      ExponentExactly(s);
      f, e := "", s;
    }
  }

  lemma FractionFrom(f: string, e: string)
    requires FracPart(f) && ExpPart(e)
    ensures FractionOk(f + e)
  {
    hide ExponentOk;
    var s := f + e;
    ExponentExactly(e);
    if f == "" {
      assert s == e;
    } else {
      assert s[1..] == f[1..] + e;
      DigitRun(f[1..], e);
      assert s[1 + |f[1..]|..] == e;
    }
  }

  /** The integer part and what follows it, as the reader takes them apart. */
  predicate UnsignedOk(t: string) {
    var d := Digits(t);
    d >= 1 && (d == 1 || t[0] != '0') && FractionOk(t[d..])
  }

  lemma UnsignedParts(t: string) returns (i: string, f: string, e: string)
    requires UnsignedOk(t)
    ensures IntPart(i) && FracPart(f) && ExpPart(e) && t == i + (f + e)
  {
    hide FractionOk, FracPart, ExpPart;
    var d := Digits(t);
    RunSplit(t);
    f, e := FractionParts(t[d..]);
    i := t[..d];
    if d == 1 && t[0] == '0' { assert i == "0"; }
  }

  lemma UnsignedFrom(i: string, f: string, e: string)
    requires IntPart(i) && FracPart(f) && ExpPart(e)
    ensures UnsignedOk(i + (f + e))
  {
    hide FractionOk, FracPart, ExpPart;
    var t := i + (f + e);
    TailApart(f, e);
    DigitRun(i, f + e);
    FractionFrom(f, e);
    assert t[|i|..] == f + e && t[0] == i[0];
  }

  /** A token is accepted as a number exactly when the grammar has it. */
  lemma NumberExactly(s: string)
    ensures IsNumber(s) <==> exists sign, i, f, e :: NumberParts(s, sign, i, f, e)
  {
    hide UnsignedOk, IntPart, FracPart, ExpPart;
    var t := if s != "" && s[0] == '-' then s[1..] else s;
    assert IsNumber(s) == UnsignedOk(t) by { UnsignedMeant(s); }
    if IsNumber(s) {
      var i, f, e := UnsignedParts(t);
      var sign := if s != "" && s[0] == '-' then "-" else "";
      assert s == sign + t;
      assert NumberParts(s, sign, i, f, e);
    }
    if sign, i, f, e :| NumberParts(s, sign, i, f, e) {
      SignRead(s, sign, i, f, e);
      UnsignedFrom(i, f, e);
    }
  }

  lemma UnsignedMeant(s: string)
    ensures IsNumber(s) == UnsignedOk(if s != "" && s[0] == '-' then s[1..] else s)
  {
    hide FractionOk;
  }

  lemma SignRead(s: string, sign: string, i: string, f: string, e: string)
    requires NumberParts(s, sign, i, f, e)
    ensures (if s != "" && s[0] == '-' then s[1..] else s) == i + (f + e)
  {
    assert i != "" && i[0] != '-';
    if sign == "-" { assert s[1..] == i + (f + e); } else { assert s == i + (f + e); }
  }

  /** The characters of a number are ones the reader collects into a token. */
  lemma NumberChars(s: string, sign: string, i: string, f: string, e: string)
    requires NumberParts(s, sign, i, f, e)
    ensures s != "" && forall k :: 0 <= k < |s| ==> ScalarChar(s[k])
  {
    assert forall k :: 0 <= k < |f| ==> ScalarChar(f[k]) by { TailChars(f, 1); }
    assert forall k :: 0 <= k < |e| ==> ScalarChar(e[k]) by {
      if |e| > 1 && e[1] in "+-" && AllDigits(e[2..]) { TailChars(e, 2); } else { TailChars(e, 1); }
    }
  }

  lemma TailChars(s: string, n: nat)
    ensures n <= |s| && AllDigits(s[n..]) ==> forall k :: n <= k < |s| ==> ScalarChar(s[k])
  {
    if n <= |s| { assert forall k :: n <= k < |s| ==> s[k] == s[n..][k - n]; }
  }

  /** What is neither text, list nor object: the three literals of section 3 of RFC 8259, and the numbers. */
  lemma ScalarExactly(s: string)
    ensures ScalarOk(s) <==>
            s == "true" || s == "false" || s == "null" || exists sign, i, f, e :: NumberParts(s, sign, i, f, e)
  {
    hide NumberParts, IsNumber;
    NumberExactly(s);
    if sign, i, f, e :| NumberParts(s, sign, i, f, e) { NumberChars(s, sign, i, f, e); }
  }

  /** The blanks of section 2 of RFC 8259. */
  lemma WsExactly(s: string)
    ensures AllWs(s) <==> forall i :: 0 <= i < |s| ==> s[i] as int in {0x20, 0x09, 0x0A, 0x0D}
  {
    forall c ensures IsWs(c) <==> c as int in {0x20, 0x09, 0x0A, 0x0D} {}
  }
}
