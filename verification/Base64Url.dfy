/** The base64url decoder of account tokens, against the encoder of section 5 of RFC 4648. */
module Base64Url {
  import opened Prelude

  const U32_SIZE := 0x1_0000_0000

  /** Value of a symbol; both alphabets are accepted. */
  function SymbolValue(c: u8): (r: Option<nat>)
    ensures r.Some? ==> r.value < 64
  {
    if 65 <= c <= 90 then Some((c - 65) as nat)
    else if 97 <= c <= 122 then Some((c - 97) as nat + 26)
    else if 48 <= c <= 57 then Some((c - 48) as nat + 52)
    else if c == 45 || c == 43 then Some(62)
    else if c == 95 || c == 47 then Some(63)
    else None
  }

  function SymbolNumber(c: u8): (n: nat)
    ensures n < 64
  {
    var v := SymbolValue(c);
    if v.Some? then v.value else 0
  }

  const PAD: u8 := 61

  function PadAt(s: seq<u8>): (n: nat)
    ensures n <= |s| && PAD !in s[..n] && (n < |s| ==> s[n] == PAD)
  {
    if s == [] || s[0] == PAD then 0
    else
      var n := 1 + PadAt(s[1..]);
      assert s[..n] == [s[0]] + s[1..][..n - 1];
      n
  }

  /** Symbols before the padding. */
  function Payload(s: seq<u8>): seq<u8> { s[..PadAt(s)] }

  predicate AllSymbols(s: seq<u8>) { forall i :: 0 <= i < |s| ==> SymbolValue(s[i]).Some? }

  // ----- bits -----

  /** `width` bits of a number, most significant first. */
  function BitsOf(n: nat, width: nat): (r: seq<bool>)
    ensures |r| == width
    decreases width
  {
    if width == 0 then [] else BitsOf(n / 2, width - 1) + [n % 2 == 1]
  }

  function NumberOf(bits: seq<bool>): nat {
    if bits == [] then 0 else 2 * NumberOf(bits[..|bits| - 1]) + if bits[|bits| - 1] then 1 else 0
  }

  function Pow2(n: nat): (r: nat)
    ensures r > 0
  {
    if n == 0 then 1 else 2 * Pow2(n - 1)
  }

  /** `n` moved `k` bits to the left. */
  function Shifted(n: nat, k: nat): nat { if k == 0 then n else 2 * Shifted(n, k - 1) }

  /** `n >> k`. */
  function Shr(n: nat, k: nat): nat { if k == 0 then n else Shr(n / 2, k - 1) }

  /** The low `k` bits of `n`. */
  function Low(n: nat, k: nat): (r: nat)
    ensures r < Pow2(k)
  {
    if k == 0 then 0 else 2 * Low(n / 2, k - 1) + n % 2
  }

  lemma {:induction false} ShrLow(n: nat, k: nat)
    ensures n == Shifted(Shr(n, k), k) + Low(n, k)
  {
    if k > 0 { ShrLow(n / 2, k - 1); }
  }

  lemma {:induction false} ShrBound(n: nat, k: nat, width: nat)
    requires n < Pow2(width + k)
    ensures Shr(n, k) < Pow2(width)
  {
    if k > 0 { ShrBound(n / 2, k - 1, width); }
  }

  lemma {:induction false} ShiftedBound(n: nat, low: nat, width: nat, k: nat)
    requires n < Pow2(width) && low < Pow2(k)
    ensures Shifted(n, k) + low < Pow2(width + k)
    decreases k
  {
    if k > 0 { ShiftedBound(n, low / 2, width, k - 1); }
  }

  lemma Powers()
    ensures Pow2(0) == 1 && Pow2(2) == 4 && Pow2(4) == 16 && Pow2(6) == 64 && Pow2(8) == 256
  {
    assert Pow2(1) == 2;
    assert Pow2(2) == 4;
    assert Pow2(3) == 8;
    assert Pow2(4) == 16;
    assert Pow2(5) == 32;
    assert Pow2(6) == 64;
    assert Pow2(7) == 128;
  }

  lemma Shifts(n: nat)
    ensures Shifted(n, 0) == n && Shifted(n, 2) == 4 * n && Shifted(n, 4) == 16 * n && Shifted(n, 6) == 64 * n
  {
    assert Shifted(n, 1) == 2 * n;
    assert Shifted(n, 2) == 4 * n;
    assert Shifted(n, 3) == 8 * n;
    assert Shifted(n, 4) == 16 * n;
    assert Shifted(n, 5) == 32 * n;
  }

  lemma {:induction false} NumberBits(n: nat, width: nat)
    requires n < Pow2(width)
    ensures NumberOf(BitsOf(n, width)) == n
    decreases width
  {
    if width > 0 {
      NumberBits(n / 2, width - 1);
      var b := BitsOf(n, width);
      assert b[..width - 1] == BitsOf(n / 2, width - 1);
    }
  }

  lemma {:induction false} BitsNumber(bits: seq<bool>)
    ensures NumberOf(bits) < Pow2(|bits|) && BitsOf(NumberOf(bits), |bits|) == bits
  {
    if bits != [] {
      var n := |bits| - 1;
      BitsNumber(bits[..n]);
      assert NumberOf(bits) / 2 == NumberOf(bits[..n]);
      assert bits == bits[..n] + [bits[n]];
    }
  }

  /** Low bits filled into a shifted number stand behind its own. */
  lemma {:induction false} BitsJoin(n: nat, low: nat, width: nat, k: nat)
    requires low < Pow2(k)
    ensures BitsOf(Shifted(n, k) + low, width + k) == BitsOf(n, width) + BitsOf(low, k)
    decreases k
  {
    if k == 0 {
      assert BitsOf(n, width) + [] == BitsOf(n, width);
    } else {
      var a := Shifted(n, k - 1);
      BitsJoin(n, low / 2, width, k - 1);
      HalfOf(a, low);
      var b := (2 * a + low) % 2 == 1;
      assert BitsOf(2 * a + low, width + k) == BitsOf(a + low / 2, width + k - 1) + [b];
      assert (BitsOf(n, width) + BitsOf(low / 2, k - 1)) + [b] == BitsOf(n, width) + (BitsOf(low / 2, k - 1) + [b]);
    }
  }

  lemma HalfOf(a: nat, low: nat)
    ensures (2 * a + low) / 2 == a + low / 2 && (2 * a + low) % 2 == low % 2
  {
  }

  /** The bits of the symbols, six each. */
  function SymbolBits(s: seq<u8>): (r: seq<bool>)
    ensures |r| == 6 * |s|
  {
    if s == [] then [] else SymbolBits(s[..|s| - 1]) + BitsOf(SymbolNumber(s[|s| - 1]), 6)
  }

  function ByteBits(bytes: seq<u8>): (r: seq<bool>)
    ensures |r| == 8 * |bytes|
  {
    if bytes == [] then [] else ByteBits(bytes[..|bytes| - 1]) + BitsOf(bytes[|bytes| - 1] as nat, 8)
  }

  lemma SymbolSnoc(s: seq<u8>, c: u8)
    ensures SymbolBits(s + [c]) == SymbolBits(s) + BitsOf(SymbolNumber(c), 6)
  {
    assert (s + [c])[..|s|] == s;
  }

  lemma ByteSnoc(bytes: seq<u8>, b: u8)
    ensures ByteBits(bytes + [b]) == ByteBits(bytes) + BitsOf(b as nat, 8)
  {
    assert (bytes + [b])[..|bytes|] == bytes;
  }

  // ----- the decoder -----

  /** Bits of the bytes written and of the buffer: everything read so far. */
  predicate Decoded(read: seq<u8>, output: seq<u8>, buffer: nat, bits: nat) {
    && AllSymbols(read) && bits in {0, 2, 4, 6} && buffer < Pow2(bits)
    && SymbolBits(read) == ByteBits(output) + BitsOf(buffer, bits)
  }

  /** The buffer after a shift, and what stays when its top byte is taken. */
  lemma WideBits(buffer: nat, bits: nat, value: nat, wide: nat)
    requires bits in {0, 2, 4, 6} && buffer < Pow2(bits) && value < 64 && wide == buffer * 64 + value
    ensures wide < Pow2(bits + 6) && wide < U32_SIZE
    ensures BitsOf(buffer, bits) + BitsOf(value, 6) == BitsOf(wide, bits + 6)
  {
    hide BitsOf;
    Powers();
    Shifts(buffer);
    BitsJoin(buffer, value, bits, 6);
    ShiftedBound(buffer, value, bits, 6);
  }

  lemma TopByte(wide: nat, rest: nat)
    requires wide < Pow2(rest + 8)
    ensures Shr(wide, rest) < 256
    ensures BitsOf(wide, rest + 8) == BitsOf(Shr(wide, rest), 8) + BitsOf(Low(wide, rest), rest)
  {
    Powers();
    ShrLow(wide, rest);
    ShrBound(wide, rest, 8);
    BitsJoin(Shr(wide, rest), Low(wide, rest), 8, rest);
  }

  /** One symbol shifted in. */
  lemma ShiftIn(read: seq<u8>, c: u8, output: seq<u8>, buffer: nat, bits: nat, wide: nat)
    requires Decoded(read, output, buffer, bits) && SymbolValue(c).Some? && wide == buffer * 64 + SymbolNumber(c)
    ensures wide < Pow2(bits + 6) && wide < U32_SIZE && AllSymbols(read + [c])
    ensures SymbolBits(read + [c]) == ByteBits(output) + BitsOf(wide, bits + 6)
  {
    WideBits(buffer, bits, SymbolNumber(c), wide);
    SymbolSnoc(read, c);
    Assoc(ByteBits(output), BitsOf(buffer, bits), BitsOf(SymbolNumber(c), 6));
  }

  /** A byte taken from the top of the buffer. */
  lemma TakeByte(read: seq<u8>, output: seq<u8>, wide: nat, width: nat, rest: nat)
    requires rest in {0, 2, 4} && width == rest + 8 && wide < Pow2(width) && AllSymbols(read)
    requires SymbolBits(read) == ByteBits(output) + BitsOf(wide, width)
    ensures Shr(wide, rest) < 256 && Decoded(read, output + [Shr(wide, rest) as u8], Low(wide, rest), rest)
  {
    TopByte(wide, rest);
    ByteSnoc(output, Shr(wide, rest) as u8);
    Assoc(ByteBits(output), BitsOf(Shr(wide, rest), 8), BitsOf(Low(wide, rest), rest));
  }

  /**
   * The decoder: symbols are shifted into a 32-bit buffer and bytes taken from its top. At
   * every loop head the buffer holds 0, 2, 4 or 6 bits, so the shift never loses any.
   */
  method DecodeBase64Url(input: seq<u8>) returns (r: Option<seq<u8>>)
    ensures r == Decode(input)
  {
    hide SymbolBits, ByteBits, BitsOf, SymbolValue;
    var output: seq<u8>, buffer: nat, bits: nat := [], 0, 0;
    var i := 0;
    Nothing();
    assert input[..0] == [];
    while i < |input|
      invariant 0 <= i <= |input| && PAD !in input[..i]
      invariant Decoded(input[..i], output, buffer, bits)
    {
      var c := input[i];
      if c == PAD { break; }
      var value := SymbolValue(c);
      if value.None? {
        BadSymbol(input, i);
        return None;
      }
      assert input[..i + 1] == input[..i] + [c];
      output, buffer, bits := DecodeSymbol(value.value, output, buffer, bits, input[..i], c);
      i := i + 1;
    }
    PayloadIs(input, i);
    DecodedIs(input[..i], output, buffer, bits);
    r := Some(output);
  }

  /** The loop body: six bits in, and eight out when they are there. */
  method DecodeSymbol(value: nat, output: seq<u8>, buffer: nat, bits: nat, ghost read: seq<u8>, ghost c: u8)
    returns (newOutput: seq<u8>, newBuffer: nat, newBits: nat)
    requires Decoded(read, output, buffer, bits) && SymbolValue(c) == Some(value)
    ensures Decoded(read + [c], newOutput, newBuffer, newBits)
  {
    hide SymbolValue, SymbolBits, ByteBits, BitsOf, Shr, Low, AllSymbols;
    ghost var wide := buffer * 64 + value;
    ShiftIn(read, c, output, buffer, bits, wide);
    SmallMod(buffer * 64, U32_SIZE);
    newOutput := output;
    newBuffer := (buffer * 64) % U32_SIZE + value;
    newBits := bits + 6;
    if newBits >= 8 {
      newBits := newBits - 8;
      assert newBuffer == wide;
      TakeByte(read + [c], output, wide, bits + 6, newBits);
      SmallMod(Shr(newBuffer, newBits), 256);
      newOutput := output + [(Shr(newBuffer, newBits) % 256) as u8];
      newBuffer := Low(newBuffer, newBits);
    }
  }

  lemma SmallMod(n: nat, m: nat)
    requires n < m
    ensures n % m == n
  {
  }

  lemma Nothing()
    ensures Decoded([], [], 0, 0)
  {
    assert ByteBits([]) + BitsOf(0, 0) == [];
  }

  lemma {:induction false} PadFrom(s: seq<u8>, i: nat)
    requires i <= |s| && PAD !in s[..i]
    ensures PadAt(s) == i + PadAt(s[i..])
  {
    if i == 0 {
      assert s[0..] == s;
    } else {
      assert s[..i] == [s[0]] + s[1..][..i - 1] && s[0] in s[..i];
      assert s[1..][i - 1..] == s[i..];
      PadFrom(s[1..], i - 1);
    }
  }

  lemma PayloadIs(s: seq<u8>, i: nat)
    requires i <= |s| && PAD !in s[..i] && (i < |s| ==> s[i] == PAD)
    ensures Payload(s) == s[..i]
  {
    PadFrom(s, i);
  }

  lemma BadSymbol(input: seq<u8>, i: nat)
    requires i < |input| && PAD !in input[..i] && input[i] != PAD && SymbolValue(input[i]).None?
    ensures !AllSymbols(Payload(input))
  {
    PadFrom(input, i);
    assert Payload(input)[i] == input[i];
  }

  /** Bytes of the first bits, as many as are whole. */
  function BytesOf(bits: seq<bool>): (r: seq<u8>)
    ensures |r| == |bits| / 8
  {
    if |bits| < 8 then []
    else
      BitsNumber(bits[..8]);
      Powers();
      [NumberOf(bits[..8]) as u8] + BytesOf(bits[8..])
  }

  /** What the decoder returns: nothing on a foreign symbol, else the whole bytes of the bits. */
  function Decode(input: seq<u8>): (r: Option<seq<u8>>)
    ensures r.Some? <==> AllSymbols(Payload(input))
    ensures r.Some? ==> |r.value| == 6 * |Payload(input)| / 8
  {
    if AllSymbols(Payload(input)) then Some(BytesOf(SymbolBits(Payload(input)))) else None
  }

  lemma {:induction false} ByteBitsConcat(a: seq<u8>, b: seq<u8>)
    ensures ByteBits(a + b) == ByteBits(a) + ByteBits(b)
    decreases |b|, 1
  {
    if b == [] {
      WithNothing(a);
      WithNothing(ByteBits(a));
    } else {
      ByteConcatStep(a, b, b[..|b| - 1], b[|b| - 1]);
    }
  }

  lemma {:induction false} ByteConcatStep(a: seq<u8>, b: seq<u8>, init: seq<u8>, c: u8)
    requires b == init + [c]
    ensures ByteBits(a + b) == ByteBits(a) + ByteBits(b)
    decreases |b|, 0
  {
    hide ByteBits, BitsOf;
    ByteBitsConcat(a, init);
    Assoc(a, init, [c]);
    ByteSnoc(a + init, c);
    ByteSnoc(init, c);
    Assoc(ByteBits(a), ByteBits(init), BitsOf(c as nat, 8));
  }

  lemma FirstByte(n: nat, more: seq<bool>)
    requires n < 256
    ensures BytesOf(BitsOf(n, 8) + more) == [n as u8] + BytesOf(more)
  {
    Powers();
    NumberBits(n, 8);
    var all := BitsOf(n, 8) + more;
    assert all[..8] == BitsOf(n, 8) && all[8..] == more;
  }

  /** Bytes followed by less than a byte of bits read back as the bytes. */
  lemma {:induction false} BytesBack(bytes: seq<u8>, rest: seq<bool>)
    requires |rest| < 8
    ensures BytesOf(ByteBits(bytes) + rest) == bytes
  {
    if bytes == [] {
      assert [] + rest == rest;
    } else {
      var b, more := bytes[0], bytes[1..];
      BytesBack(more, rest);
      assert bytes == [b] + more;
      ByteBitsConcat([b], more);
      ByteSnoc([], b);
      assert [] + [b] == [b] && [] + BitsOf(b as nat, 8) == BitsOf(b as nat, 8);
      Assoc(BitsOf(b as nat, 8), ByteBits(more), rest);
      FirstByte(b as nat, ByteBits(more) + rest);
    }
  }

  lemma DecodedIs(payload: seq<u8>, output: seq<u8>, buffer: nat, bits: nat)
    requires Decoded(payload, output, buffer, bits)
    ensures BytesOf(SymbolBits(payload)) == output
  {
    BytesBack(output, BitsOf(buffer, bits));
  }

  // ----- the encoder of RFC 4648 -----

  function Symbol(value: nat, urlSafe: bool): (c: u8)
    requires value < 64
    ensures c != PAD && SymbolValue(c) == Some(value)
  {
    if value < 26 then (65 + value) as u8
    else if value < 52 then (97 + value - 26) as u8
    else if value < 62 then (48 + value - 52) as u8
    else if value == 62 then (if urlSafe then 45 else 43)
    else (if urlSafe then 95 else 47)
  }

  /** Zero bits up to a multiple of six. */
  function Padded(bits: seq<bool>): (r: seq<bool>)
    ensures |r| % 6 == 0 && |bits| <= |r| < |bits| + 6 && r[..|bits|] == bits
  {
    bits + seq((6 - |bits| % 6) % 6, i => false)
  }

  function SymbolsOf(bits: seq<bool>, urlSafe: bool): (r: seq<u8>)
    requires |bits| % 6 == 0
    ensures |r| == |bits| / 6 && PAD !in r && AllSymbols(r)
  {
    if bits == [] then []
    else
      BitsNumber(bits[..6]);
      Powers();
      [Symbol(NumberOf(bits[..6]), urlSafe)] + SymbolsOf(bits[6..], urlSafe)
  }

  /** Three bytes become four symbols; the last group is filled with zero bits. */
  function Encode(bytes: seq<u8>, urlSafe: bool): seq<u8> { SymbolsOf(Padded(ByteBits(bytes)), urlSafe) }

  lemma {:induction false} SymbolBitsConcat(a: seq<u8>, b: seq<u8>)
    ensures SymbolBits(a + b) == SymbolBits(a) + SymbolBits(b)
    decreases |b|, 1
  {
    if b == [] {
      WithNothing(a);
      WithNothing(SymbolBits(a));
    } else {
      ConcatStep(a, b, b[..|b| - 1], b[|b| - 1]);
    }
  }

  lemma WithNothing<T>(s: seq<T>)
    ensures s + [] == s
  {
  }

  lemma {:induction false} ConcatStep(a: seq<u8>, b: seq<u8>, init: seq<u8>, c: u8)
    requires b == init + [c]
    ensures SymbolBits(a + b) == SymbolBits(a) + SymbolBits(b)
    decreases |b|, 0
  {
    hide SymbolBits, BitsOf;
    SymbolBitsConcat(a, init);
    Assoc(a, init, [c]);
    SymbolSnoc(a + init, c);
    SymbolSnoc(init, c);
    Assoc(SymbolBits(a), SymbolBits(init), BitsOf(SymbolNumber(c), 6));
  }

  lemma FirstSymbol(c: u8, rest: seq<u8>)
    ensures SymbolBits([c] + rest) == BitsOf(SymbolNumber(c), 6) + SymbolBits(rest)
  {
    SymbolBitsConcat([c], rest);
    SymbolSnoc([], c);
    assert [] + [c] == [c] && [] + BitsOf(SymbolNumber(c), 6) == BitsOf(SymbolNumber(c), 6);
  }

  lemma {:induction false} SymbolsBack(bits: seq<bool>, urlSafe: bool)
    requires |bits| % 6 == 0
    ensures SymbolBits(SymbolsOf(bits, urlSafe)) == bits
  {
    hide BitsOf, Pow2, SymbolBits;
    if bits != [] {
      var head, tail := bits[..6], bits[6..];
      BitsNumber(head);
      Powers();
      var c := Symbol(NumberOf(head), urlSafe);
      SymbolsBack(tail, urlSafe);
      FirstSymbol(c, SymbolsOf(tail, urlSafe));
      assert bits == head + tail;
    }
  }

  lemma PayloadOf(s: seq<u8>, tail: seq<u8>)
    requires PAD !in s && (tail == [] || tail[0] == PAD)
    ensures Payload(s + tail) == s
  {
    assert (s + tail)[..|s|] == s;
    PayloadIs(s + tail, |s|);
  }

  /**
   * The decoder inverts the encoder on every byte sequence, in either alphabet, with any
   * padding or none; whatever follows the first padding symbol is ignored.
   */
  lemma DecodeEncode(bytes: seq<u8>, urlSafe: bool, tail: seq<u8>)
    requires tail == [] || tail[0] == 61
    ensures Decode(Encode(bytes, urlSafe) + tail) == Some(bytes)
  {
    var bits := ByteBits(bytes);
    PayloadOf(Encode(bytes, urlSafe), tail);
    SymbolsBack(Padded(bits), urlSafe);
    var rest := Padded(bits)[|bits|..];
    assert Padded(bits) == bits + rest;
    BytesBack(bytes, rest);
  }

  const BIG := "ABCDEFGHIJKLMNOPQRSTUVWXYZ"
  const SMALL := "abcdefghijklmnopqrstuvwxyz"
  const DIGITS := "0123456789"

  function Letter(n: nat): char
    requires n < 62
  {
    if n < 26 then BIG[n] else if n < 52 then SMALL[n - 26] else DIGITS[n - 52]
  }

  /** The symbols of a value in the alphabets of sections 4 and 5 of RFC 4648. */
  predicate Stands(c: char, n: nat) {
    if n < 62 then c == Letter(n) else (n == 62 && c in "+-") || (n == 63 && c in "/_")
  }

  lemma BigLetter(n: nat)
    requires n < 26
    ensures Letter(n) as int == 65 + n
  {
  }

  lemma SmallLetter(n: nat)
    requires 26 <= n < 52
    ensures Letter(n) as int == 71 + n
  {
  }

  lemma DigitLetter(n: nat)
    requires 52 <= n < 62
    ensures Letter(n) as int == n - 4
  {
  }

  lemma AlphabetExactly(c: u8, n: nat)
    ensures SymbolValue(c) == Some(n) <==> Stands(c as char, n)
  {
    hide Letter;
    if n < 26 {
      BigLetter(n);
    } else if n < 52 {
      SmallLetter(n);
    } else if n < 62 {
      DigitLetter(n);
    }
  }
}
