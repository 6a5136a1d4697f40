/** UTF-8 as the standard library reads it: well-formed sequences only, and back. */
module Utf8 {
  import opened Prelude
  import opened Splice
  import Json

  // ----- reading -----

  predicate Trailing(b: u8) { 0x80 <= b < 0xC0 }

  /** Length of the well-formed sequence `s` starts with, 0 when it starts with none. */
  function Utf8Head(s: seq<u8>): (n: nat)
    requires s != []
    ensures n <= |s|
  {
    var a := s[0];
    if a < 0x80 then 1
    else if 0xC2 <= a < 0xE0 then (if |s| >= 2 && Trailing(s[1]) then 2 else 0)
    else if 0xE0 <= a < 0xF0 then
      if |s| >= 3 && Trailing(s[1]) && Trailing(s[2]) && (a == 0xE0 ==> s[1] >= 0xA0) && (a == 0xED ==> s[1] < 0xA0)
      then 3 else 0
    else if 0xF0 <= a < 0xF5 then
      if |s| >= 4 && Trailing(s[1]) && Trailing(s[2]) &&
        Trailing(s[3]) && (a == 0xF0 ==> s[1] >= 0x90) && (a == 0xF4 ==> s[1] < 0x90)
      then 4 else 0
    else 0
  }

  predicate IsUtf8(s: seq<u8>)
    decreases |s|
  {
    s == [] || (Utf8Head(s) > 0 && IsUtf8(s[Utf8Head(s)..]))
  }

  /** The number spelled by the sequence `s` starts with. */
  function HeadPoint(s: seq<u8>): (n: nat)
    requires s != [] && Utf8Head(s) > 0
    ensures n < 0xD800 || 0xE000 <= n < 0x11_0000
  {
    var a := s[0] as int;
    if a < 0x80 then a
    else if a < 0xE0 then (a - 0xC0) * 0x40 + (s[1] as int - 0x80)
    else if a < 0xF0 then ((a - 0xE0) * 0x40 + (s[1] as int - 0x80)) * 0x40 + (s[2] as int - 0x80)
    else (((a - 0xF0) * 0x40 + (s[1] as int - 0x80)) * 0x40 + (s[2] as int - 0x80)) * 0x40 + (s[3] as int - 0x80)
  }

  /** The text a byte sequence spells, if it is well-formed. */
  function Decode(s: seq<u8>): (r: Option<string>)
    ensures r.Some? <==> IsUtf8(s)
    decreases |s|
  {
    if s == [] then Some("")
    else if Utf8Head(s) == 0 then None
    else
      var tail := Decode(s[Utf8Head(s)..]);
      if tail.None? then None else Some([HeadPoint(s) as char] + tail.value)
  }

  // ----- writing -----

  function Lead(tag: nat, n: nat): u8
    requires tag + n < 0x100
  {
    (tag + n) as u8
  }

  function Tail(n: nat): u8 { (0x80 + n % 0x40) as u8 }

  function CharBytes(c: char): (r: seq<u8>)
    ensures |r| == Json.Utf8Width(c)
  {
    var n := c as int;
    if n < 0x80 then [Lead(0, n)]
    else if n < 0x800 then [Lead(0xC0, n / 0x40), Tail(n)]
    else if n < 0x1_0000 then [Lead(0xE0, n / 0x40 / 0x40), Tail(n / 0x40), Tail(n)]
    else [Lead(0xF0, n / 0x40 / 0x40 / 0x40), Tail(n / 0x40 / 0x40), Tail(n / 0x40), Tail(n)]
  }

  function Encode(s: string): seq<u8> { Flatten(s, CharBytes) }

  /** The byte counts of the rewriter are lengths of encoded texts. */
  lemma {:induction false} EncodedLength(s: string)
    ensures |Encode(s)| == Json.Bytes(s)
  {
    if s != "" { EncodedLength(s[1..]); }
  }

  // ----- round trips -----

  lemma TailRead(n: nat)
    ensures Trailing(Tail(n)) && n / 0x40 * 0x40 + (Tail(n) as int - 0x80) == n
  {
  }

  lemma TailWritten(q: nat, b: u8)
    requires Trailing(b)
    ensures var n := q * 0x40 + (b as int - 0x80); n / 0x40 == q && Tail(n) == b
  {
  }

  lemma CharRead(c: char, rest: seq<u8>)
    ensures Utf8Head(CharBytes(c) + rest) == |CharBytes(c)| && HeadPoint(CharBytes(c) + rest) as char == c
  {
    hide Tail;
    var n := c as int;
    TailRead(n);
    TailRead(n / 0x40);
    TailRead(n / 0x40 / 0x40);
    var s := CharBytes(c) + rest;
    if n < 0x80 {
      assert s[0] == Lead(0, n);
    } else if n < 0x800 {
      assert s[0] == Lead(0xC0, n / 0x40) && s[1] == Tail(n);
    } else if n < 0x1_0000 {
      assert s[0] == Lead(0xE0, n / 0x40 / 0x40) && s[1] == Tail(n / 0x40) && s[2] == Tail(n);
    } else {
      assert s[0] == Lead(0xF0, n / 0x40 / 0x40 / 0x40);
      assert s[1] == Tail(n / 0x40 / 0x40) && s[2] == Tail(n / 0x40) && s[3] == Tail(n);
    }
  }

  lemma CharWritten(s: seq<u8>)
    requires s != [] && Utf8Head(s) > 0
    ensures CharBytes(HeadPoint(s) as char) == s[..Utf8Head(s)]
  {
    hide Tail;
    var k, a := Utf8Head(s), s[0] as int;
    if k == 1 {
      assert s[..1] == [s[0]];
    } else if k == 2 {
      TailWritten(a - 0xC0, s[1]);
      assert s[..2] == [s[0], s[1]];
    } else if k == 3 {
      var m := (a - 0xE0) * 0x40 + (s[1] as int - 0x80);
      TailWritten(a - 0xE0, s[1]);
      TailWritten(m, s[2]);
      assert s[..3] == [s[0], s[1], s[2]];
    } else {
      var m := (a - 0xF0) * 0x40 + (s[1] as int - 0x80);
      var l := m * 0x40 + (s[2] as int - 0x80);
      TailWritten(a - 0xF0, s[1]);
      TailWritten(m, s[2]);
      TailWritten(l, s[3]);
      assert s[..4] == [s[0], s[1], s[2], s[3]];
    }
  }

  /** Every text is read back from its bytes. */
  lemma {:induction false} Written(s: string)
    ensures Decode(Encode(s)) == Some(s)
  {
    if s != "" {
      CharRead(s[0], Encode(s[1..]));
      Written(s[1..]);
      assert Encode(s)[|CharBytes(s[0])|..] == Encode(s[1..]);
      assert [s[0]] + s[1..] == s;
    }
  }

  lemma EncodeNone()
    ensures Encode("") == []
  {
  }

  /** A text is read from no bytes but its own. */
  lemma {:induction false} Read(b: seq<u8>)
    ensures Decode(b).Some? ==> Encode(Decode(b).value) == b
    decreases |b|
  {
    hide CharBytes, HeadPoint, Utf8Head, Flatten, IsUtf8;
    if b == [] {
      EncodeNone();
    } else if Decode(b).Some? {
      var n := Utf8Head(b);
      CharWritten(b);
      Read(b[n..]);
      FlattenCons(HeadPoint(b) as char, Decode(b[n..]).value, CharBytes);
      assert b[..n] + b[n..] == b;
    }
  }

  /** Reading and writing are inverse to each other, on exactly the well-formed sequences. */
  lemma DecodeExactly(b: seq<u8>, s: string)
    ensures Decode(b) == Some(s) <==> b == Encode(s)
    ensures IsUtf8(b) <==> Decode(b).Some?
  {
    Written(s);
    Read(b);
  }
}
