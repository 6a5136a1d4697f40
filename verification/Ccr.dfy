/** The content store, its markers, and the expander that undoes compression. */
module Ccr {
  import opened Prelude
  import opened Json

  const HASH_HEX_LEN := 24
  const OPENER := "<<ccr:"
  const CLOSER := ">>"

  predicate IsHex(c: char) { '0' <= c <= '9' || 'a' <= c <= 'f' || 'A' <= c <= 'F' }

  /** What the content hash produces: 24 lower-case hex digits. */
  predicate IsHash(h: string) {
    |h| == HASH_HEX_LEN && forall i :: 0 <= i < |h| ==> '0' <= h[i] <= '9' || 'a' <= h[i] <= 'f'
  }

  function Marker(hash: string): string { OPENER + hash + CLOSER }

  predicate StartsWith(s: string, p: string) { |p| <= |s| && s[..|p|] == p }

  predicate Contains(s: string, p: string)
    decreases |s|
  {
    StartsWith(s, p) || (s != "" && Contains(s[1..], p))
  }

  // ----- token estimate -----

  /** The Unicode White_Space characters, which is what Rust trims and splits at. */
  predicate IsWhite(c: char) {
    var n := c as nat;
    9 <= n <= 13 || n == 0x20 || n == 0x85 || n == 0xA0 || n == 0x1680 || 0x2000 <= n <= 0x200A ||
    n == 0x2028 || n == 0x2029 || n == 0x202F || n == 0x205F || n == 0x3000
  }

  function TrimStart(s: string): string {
    if s != "" && IsWhite(s[0]) then TrimStart(s[1..]) else s
  }

  function TrimEnd(s: string): string {
    if s != "" && IsWhite(s[|s| - 1]) then TrimEnd(s[..|s| - 1]) else s
  }

  /** Number of maximal runs of non-blank characters; `inside` tells whether one is open. */
  function Units(s: string, inside: bool): nat {
    if s == "" then 0
    else if IsWhite(s[0]) then Units(s[1..], false)
    else (if inside then 0 else 1) + Units(s[1..], true)
  }

  function EstimateTokens(s: string): nat { Max(Max((|s| + 3) / 4, Units(s, false)), 1) }

  lemma {:induction false} UnitsOfWord(s: string, inside: bool)
    requires forall i :: 0 <= i < |s| ==> !IsWhite(s[i])
    ensures Units(s, inside) <= if inside then 0 else 1
  {
    if s != "" { UnitsOfWord(s[1..], true); }
  }

  lemma MarkerShape(h: string)
    requires IsHash(h)
    ensures |Marker(h)| == 32 && StartsWith(Marker(h), OPENER) && Contains(Marker(h), OPENER)
    ensures forall i :: 0 <= i < 32 ==> ' ' < Marker(h)[i] <= 'z' && Marker(h)[i] != '\\'
    ensures EstimateTokens(Marker(h)) == 8
  {
    var m := Marker(h);
    forall i | 0 <= i < 32 ensures ' ' < m[i] <= 'z' && m[i] != '\\' {
      if 6 <= i < 30 { assert m[i] == h[i - 6]; }
    }
    UnitsOfWord(m, false);
  }

  // ----- store -----

  /** `outcomes` scripts which coming writes succeed; once used up, all do. */
  datatype StoreState = StoreState(table: map<string, string>, outcomes: seq<bool>)

  /** Insert-once write: no value when the write fails, else whether the entry is new. */
  function PutResult(st: StoreState, hash: string, original: string): (Option<bool>, StoreState) {
    var rest := if st.outcomes == [] then [] else st.outcomes[1..];
    if st.outcomes != [] && !st.outcomes[0] then (None, st.(outcomes := rest))
    else if hash in st.table then (Some(false), st.(outcomes := rest))
    else (Some(true), StoreState(st.table[hash := original], rest))
  }

  class CcrStore {
    var table: map<string, string>
    var outcomes: seq<bool>

    constructor (outcomes: seq<bool>)
      ensures State() == StoreState(map[], outcomes)
    {
      table, this.outcomes := map[], outcomes;
    }

    function State(): StoreState
      reads this
    {
      StoreState(table, outcomes)
    }

    method Put(hash: string, original: string) returns (r: Option<bool>)
      modifies this
      ensures (r, State()) == PutResult(old(State()), hash, original)
    {
      var ok := true;
      if outcomes != [] {
        ok := outcomes[0];
        outcomes := outcomes[1..];
      }
      if !ok { return None; }
      var inserted := hash !in table;
      if inserted { table := table[hash := original]; }
      r := Some(inserted);
    }

    function Get(hash: string): (r: Option<string>)
      reads this
      ensures r == Stored(table, hash)
    {
      if hash in table then Some(table[hash]) else None
    }
  }

  function Stored(table: map<string, string>, hash: string): Option<string> {
    if hash in table then Some(table[hash]) else None
  }

  /** Every entry still resolves to the text it resolved to before. */
  ghost predicate Extends(later: map<string, string>, earlier: map<string, string>) {
    forall h :: h in earlier ==> h in later && later[h] == earlier[h]
  }

  // ----- expander -----

  function HexRun(s: string): (n: nat)
    ensures n <= |s|
  {
    if s != "" && IsHex(s[0]) then 1 + HexRun(s[1..]) else 0
  }

  /** Length of the marker `s` starts with, per `<<ccr:([A-Fa-f0-9]{24,64})>>`. */
  function MatchLen(s: string): (r: Option<nat>)
    ensures r.Some? ==> 32 <= r.value <= |s|
  {
    if !StartsWith(s, OPENER) then None
    else
      var n := HexRun(s[6..]);
      if 24 <= n <= 64 && StartsWith(s[6 + n..], CLOSER) then Some(n + 8) else None
  }

  /** The text before the leftmost match, the match, and the text after it. */
  datatype Found = Found(gap: string, text: string, rest: string)

  /** Leftmost search for a marker. */
  function Search(s: string): (r: Option<Found>)
    decreases |s|
  {
    var n := MatchLen(s);
    if n.Some? then Some(Found("", s[..n.value], s[n.value..]))
    else if s == "" then None
    else
      var r := Search(s[1..]);
      if r.None? then None else Some(r.value.(gap := [s[0]] + r.value.gap))
  }

  /** Any leftmost search: the three parts are the text, and the match is as long as a marker. */
  type Finder = string -> Option<Found>

  ghost predicate Sound(find: Finder) {
    forall s :: find(s).Some? ==> Splits(s, find(s).value)
  }

  predicate Splits(s: string, f: Found) { |f.text| >= 32 && s == f.gap + (f.text + f.rest) }

  lemma {:induction false} SearchSplits(s: string)
    requires Search(s).Some?
    ensures Splits(s, Search(s).value)
    decreases |s|
  {
    if MatchLen(s).None? {
      SearchSplits(s[1..]);
      var f := Search(s[1..]).value;
      assert s == [s[0]] + s[1..];
      assert [s[0]] + (f.gap + (f.text + f.rest)) == [s[0]] + f.gap + (f.text + f.rest);
    }
  }

  lemma SearchSound()
    ensures Sound(Search)
  {
    forall s | Search(s).Some? ensures Splits(s, Search(s).value) { SearchSplits(s); }
  }

  datatype Expansion = Expansion(output: string, hits: nat, misses: nat, missing: seq<string>)

  function Literal(a: string, e: Expansion): Expansion { e.(output := a + e.output) }

  /** A marker in front: its payload when known, itself otherwise. */
  function Resolved(marker: string, hash: string, found: Option<string>, e: Expansion): Expansion {
    if found.Some? then Expansion(found.value + e.output, e.hits + 1, e.misses, e.missing)
    else Expansion(marker + e.output, e.hits, e.misses + 1, [hash] + e.missing)
  }

  /** The hash inside a marker. */
  function Inner(marker: string): string
    requires |marker| >= 32
  {
    marker[6..|marker| - 2]
  }

  /** Leftmost matches one after the other, each search starting where the last match ended. */
  function Matches(s: string, find: Finder, lookup: string -> Option<string>): Expansion
    requires Sound(find)
    decreases |s|
  {
    var f := find(s);
    if f.None? then Expansion(s, 0, 0, [])
    else
      assert Splits(s, f.value);
      var hash := Inner(f.value.text);
      Literal(f.value.gap, Resolved(f.value.text, hash, lookup(hash), Matches(f.value.rest, find, lookup)))
  }

  /** A text with its markers replaced by what the store has for them. */
  function Expand(s: string, lookup: string -> Option<string>): Expansion {
    SearchSound();
    Matches(s, Search, lookup)
  }

  /** `e` preceded by what has been written so far. */
  function After(a: Expansion, e: Expansion): Expansion {
    Expansion(a.output + e.output, a.hits + e.hits, a.misses + e.misses, a.missing + e.missing)
  }

  /** The expander: copy up to each match, then the payload, and go on after the match. */
  method ReplaceMatches(text: string, find: Finder, lookup: string -> Option<string>) returns (r: Expansion)
    requires Sound(find)
    ensures r == Matches(text, find, lookup)
  {
    var output: string, hits: nat, misses: nat, missing: seq<string> := "", 0, 0, [];
    var last: nat := 0;
    var found := find(text);
    assert text[0..] == text;
    while found.Some?
      invariant last <= |text| && found == find(text[last..])
      invariant Resume(Expansion(output, hits, misses, missing), text[last..], find, lookup)
             == Resume(Expansion("", 0, 0, []), text, find, lookup)
      decreases |text| - last
    {
      var Found(gap, marker, rest) := found.value;
      assert Splits(text[last..], found.value);
      Positions(text, last, gap, marker, rest);
      var start := last + |gap|;
      var hash := Inner(marker);
      var original := lookup(hash);
      output := output + text[last..start];
      if original.Some? {
        output := output + original.value;
        hits := hits + 1;
      } else {
        output := output + marker;
        misses := misses + 1;
        missing := missing + [hash];
      }
      last := start + |marker|;
      found := find(text[last..]);
    }
    output := output + text[last..];
    r := Expansion(output, hits, misses, missing);
    ResumeMatches(Expansion("", 0, 0, []), text, find, lookup);
    AfterNothing(Matches(text, find, lookup));
  }

  method DecompressText(text: string, lookup: string -> Option<string>) returns (r: Expansion)
    ensures r == Expand(text, lookup)
  {
    SearchSound();
    r := ReplaceMatches(text, Search, lookup);
  }

  /** What has been written once a gap and the marker after it have been handled. */
  function Advance(b: Expansion, gap: string, marker: string, found: Option<string>): Expansion
    requires |marker| >= 32
  {
    if found.Some? then Expansion(b.output + gap + found.value, b.hits + 1, b.misses, b.missing)
    else Expansion(b.output + gap + marker, b.hits, b.misses + 1, b.missing + [Inner(marker)])
  }

  /** The expansion of `s` carried on from what has been written so far. */
  function Resume(b: Expansion, s: string, find: Finder, lookup: string -> Option<string>): Expansion
    requires Sound(find)
    decreases |s|
  {
    var f := find(s);
    if f.None? then b.(output := b.output + s)
    else
      assert Splits(s, f.value);
      Resume(Advance(b, f.value.gap, f.value.text, lookup(Inner(f.value.text))), f.value.rest, find, lookup)
  }

  lemma {:induction false} ResumeMatches(b: Expansion, s: string, find: Finder, lookup: string -> Option<string>)
    requires Sound(find)
    ensures Resume(b, s, find, lookup) == After(b, Matches(s, find, lookup))
    decreases |s|
  {
    if find(s).Some? {
      var f := find(s).value;
      assert Splits(s, f);
      ResumeMatches(Advance(b, f.gap, f.text, lookup(Inner(f.text))), f.rest, find, lookup);
      AfterMatch(b, f, lookup, Matches(f.rest, find, lookup));
    }
  }

  lemma AfterMatch(b: Expansion, f: Found, lookup: string -> Option<string>, e: Expansion)
    requires |f.text| >= 32
    ensures var found := lookup(Inner(f.text));
            After(Advance(b, f.gap, f.text, found), e)
            == After(b, Literal(f.gap, Resolved(f.text, Inner(f.text), found, e)))
  {
    var found := lookup(Inner(f.text));
    var x := if found.Some? then found.value else f.text;
    assert b.output + (f.gap + (x + e.output)) == b.output + f.gap + x + e.output;
    if found.None? {
      assert b.missing + ([Inner(f.text)] + e.missing) == b.missing + [Inner(f.text)] + e.missing;
    }
  }

  lemma Positions(text: string, last: nat, gap: string, marker: string, rest: string)
    requires last <= |text| && text[last..] == gap + (marker + rest)
    ensures var start := last + |gap|;
            && start + |marker| <= |text|
            && text[last..start] == gap && text[start + |marker|..] == rest
  {
    var t := text[last..];
    assert t[..|gap|] == gap && t[|gap| + |marker|..] == rest;
  }

  lemma AfterNothing(e: Expansion)
    ensures After(Expansion("", 0, 0, []), e) == e
  {
    assert "" + e.output == e.output && [] + e.missing == e.missing;
  }

  // ----- expansion undoes insertion -----

  /** `gaps[0] part(hashes[0]) gaps[1] part(hashes[1]) ... gaps[n]`. */
  function Interleave(gaps: seq<string>, parts: seq<string>): string
    requires |gaps| == |parts| + 1
  {
    if parts == [] then gaps[0] else gaps[0] + (parts[0] + Interleave(gaps[1..], parts[1..]))
  }

  function Markers(hashes: seq<string>): (r: seq<string>)
    ensures |r| == |hashes|
  {
    seq(|hashes|, i requires 0 <= i < |hashes| => Marker(hashes[i]))
  }

  lemma {:induction false} HexRunHash(h: string, k: string)
    requires (forall i :: 0 <= i < |h| ==> IsHex(h[i])) && (k == "" || !IsHex(k[0]))
    ensures HexRun(h + k) == |h|
  {
    if h == "" {
      assert h + k == k;
    } else {
      forall i | 0 <= i < |h| - 1 ensures IsHex(h[1..][i]) { assert IsHex(h[i + 1]); }
      HexRunHash(h[1..], k);
      assert (h + k)[1..] == h[1..] + k;
    }
  }

  /** A marker is recognised whatever follows it. */
  lemma MatchMarker(h: string, k: string)
    requires IsHash(h)
    ensures MatchLen(Marker(h) + k) == Some(32)
    ensures (Marker(h) + k)[..32] == Marker(h) && (Marker(h) + k)[6..30] == h && (Marker(h) + k)[32..] == k
  {
    var s := Marker(h) + k;
    assert s[..6] == OPENER;
    assert s[6..] == h + (CLOSER + k);
    HexRunHash(h, CLOSER + k);
    assert s[30..][..2] == CLOSER;
  }

  /** No marker can begin inside a gap and run into what follows it. */
  lemma NoStraddle(g: string, k: string)
    requires g != "" && !Contains(g, OPENER) && (k == "" || StartsWith(k, OPENER))
    ensures MatchLen(g + k).None?
  {
    var s := g + k;
    assert |g| >= 6 ==> s[..6] == g[..6];
    if |g| < 6 && k != "" {
      assert s[|g|] == k[0] == k[..6][0] && s[|g| + 1] == k[1] == k[..6][1];
      assert |s| >= 6 ==> forall i :: 0 <= i < 6 ==> s[..6][i] == s[i];
    }
  }

  lemma {:induction false} SearchGap(g: string, k: string)
    requires !Contains(g, OPENER) && (k == "" || StartsWith(k, OPENER))
    ensures Search(g + k) ==
            (var r := Search(k); if r.None? then None else Some(r.value.(gap := g + r.value.gap)))
  {
    if g == "" {
      assert g + k == k;
      assert Search(k).Some? ==> "" + Search(k).value.gap == Search(k).value.gap;
    } else {
      NoStraddle(g, k);
      assert (g + k)[1..] == g[1..] + k;
      SearchGap(g[1..], k);
      var r := Search(k);
      if r.Some? { Prepend(g, r.value.gap); }
    }
  }

  lemma Prepend(g: string, x: string)
    requires g != ""
    ensures [g[0]] + (g[1..] + x) == g + x
  {
  }

  lemma ExpandGapMarker(g: string, h: string, k: string, lookup: string -> Option<string>)
    requires !Contains(g, OPENER) && IsHash(h)
    ensures Expand(g + (Marker(h) + k), lookup)
            == Literal(g, Resolved(Marker(h), h, lookup(h), Expand(k, lookup)))
  {
    var m := Marker(h) + k;
    MatchMarker(h, k);
    assert m[..6] == OPENER;
    SearchGap(g, m);
    assert Search(m) == Some(Found("", Marker(h), k));
    assert g + "" == g;
    assert Inner(Marker(h)) == h;
  }

  /**
   * Expansion undoes insertion in one pass: gaps come back untouched and payloads come
   * back verbatim, markers inside them included.
   */
  lemma {:induction false} ExpandUndoes(gaps: seq<string>, hashes: seq<string>, payloads: seq<string>,
                                        lookup: string -> Option<string>)
    requires |gaps| == |hashes| + 1 && |payloads| == |hashes|
    requires forall i :: 0 <= i < |gaps| ==> !Contains(gaps[i], OPENER)
    requires forall i :: 0 <= i < |hashes| ==> IsHash(hashes[i]) && lookup(hashes[i]) == Some(payloads[i])
    ensures Expand(Interleave(gaps, Markers(hashes)), lookup)
            == Expansion(Interleave(gaps, payloads), |hashes|, 0, [])
  {
    if hashes == [] {
      SearchGap(gaps[0], "");
      assert gaps[0] + "" == gaps[0];
    } else {
      ExpandUndoes(gaps[1..], hashes[1..], payloads[1..], lookup);
      assert Markers(hashes)[1..] == Markers(hashes[1..]);
      ExpandGapMarker(gaps[0], hashes[0], Interleave(gaps[1..], Markers(hashes[1..])), lookup);
    }
  }

  // ----- the text compressor -----

  datatype TextResult = TextResult(output: string, hash: Option<string>, stored: bool)

  /** `compress`: blank and short texts pass, others become a marker once stored. */
  function CompressResult(input: string, minBytes: nat, hash: string -> string, st: StoreState)
    : (TextResult, StoreState)
  {
    if (forall c :: c in input ==> IsWhite(c)) || Bytes(input) < minBytes then (TextResult(input, None, false), st)
    else
      var h := hash(input);
      var (r, next) := PutResult(st, h, input);
      if r.Some? then (TextResult(Marker(h), Some(h), true), next)
      else (TextResult(input, Some(h), false), next)
  }

  method Compress(input: string, minBytes: nat, hash: string -> string, store: CcrStore) returns (r: TextResult)
    modifies store
    ensures (r, store.State()) == CompressResult(input, minBytes, hash, old(store.State()))
  {
    if forall c :: c in input ==> IsWhite(c) { return TextResult(input, None, false); }
    if Bytes(input) < minBytes { return TextResult(input, None, false); }
    var h := hash(input);
    var put := store.Put(h, input);
    r := if put.Some? then TextResult(Marker(h), Some(h), true) else TextResult(input, Some(h), false);
  }
}
