/** What the lines of an event block say, against the fields of section 9.2.6 of the WHATWG HTML Living Standard. */
module LineReadings {
  import opened Prelude
  import opened SseFraming
  import Utf8

  // ----- lines -----

  /** The pieces with a line feed, byte 10, between each two of them. */
  function LfJoin(pieces: seq<Bytes>): Bytes {
    if pieces == [] then []
    else if |pieces| == 1 then pieces[0]
    else LfJoin(pieces[..|pieces| - 1]) + [10] + pieces[|pieces| - 1]
  }

  lemma {:induction false} LfCons(p: Bytes, pieces: seq<Bytes>)
    requires pieces != []
    ensures LfJoin([p] + pieces) == p + [LF] + LfJoin(pieces)
    decreases |pieces|
  {
    var n := |pieces| - 1;
    var all := [p] + pieces;
    assert all[..|all| - 1] == [p] + pieces[..n];
    if n > 0 {
      LfCons(p, pieces[..n]);
    } else {
      assert all[..|all| - 1] == [p];
    }
  }

  /** A block is cut at its line feeds: no piece holds one, and joined by them they are the block again. */
  lemma {:induction false} SplitExactly(s: Bytes)
    ensures LfJoin(Split(s)) == s && forall i :: 0 <= i < |Split(s)| ==> 10 !in Split(s)[i]
    decreases |s|
  {
    var n := LineEnd(s);
    if n == |s| {
      assert s[..n] == s;
    } else {
      SplitExactly(s[n + 1..]);
      LfCons(s[..n], Split(s[n + 1..]));
      assert s == s[..n] + [LF] + s[n + 1..];
      var r, t := Split(s), Split(s[n + 1..]);
      forall i | 0 <= i < |r| ensures LF !in r[i] { if i > 0 { assert r[i] == t[i - 1]; } }
    }
  }

  /** A line without the one CR, byte 13, it may end in. */
  predicate Bare(raw: Bytes, line: Bytes) { raw == line + [13] || (raw == line && (raw == [] || raw[|raw| - 1] != 13)) }

  lemma BareExactly(raw: Bytes, line: Bytes)
    ensures Bare(raw, line) <==> line == StripCr(raw)
  {
    if raw != [] && raw[|raw| - 1] == CR { assert raw == raw[..|raw| - 1] + [CR]; }
    if raw == line + [CR] { assert raw[..|raw| - 1] == line; }
  }

  predicate IsComment(line: Bytes) { line == [] || line[0] == 58 }

  /** A field: its name, and what follows the first colon, byte 58, without one space, byte 32, in front. */
  predicate IsField(line: Bytes, field: Bytes, value: Bytes) {
    && field != [] && 58 !in field
    && (|| (line == field && value == [])
        || line == field + [58, 32] + value
        || (line == field + [58] + value && (value == [] || value[0] != 32)))
  }

  lemma {:induction false} ColonFirst(field: Bytes, rest: Bytes)
    requires COLON !in field && (rest == [] || rest[0] == COLON)
    ensures ColonAt(field + rest) == |field|
  {
    if field == [] {
      assert field + rest == rest;
    } else {
      assert (field + rest)[1..] == field[1..] + rest;
      ColonFirst(field[1..], rest);
    }
  }

  /** What a field line adds: a name when it is UTF-8, a part of the data, or nothing. */
  function WithField(st: Fields, field: Bytes, value: Bytes): Fields {
    if field == Utf8.Encode("event") then (if Utf8.Decode(value).Some? then st.(name := Some(value)) else st)
    else if field == Utf8.Encode("data") then st.(parts := st.parts + [value])
    else st
  }

  lemma FieldNames()
    ensures EVENT == Utf8.Encode("event") && DATA == Utf8.Encode("data")
  {
    var e, d := "event", "data";
    assert e[1..] == "vent" && e[2..] == "ent" && e[3..] == "nt" && e[4..] == "t";
    assert Utf8.Encode("t") == [116];
    assert Utf8.Encode("nt") == [110, 116];
    assert Utf8.Encode("ent") == [101, 110, 116];
    assert Utf8.Encode("vent") == [118, 101, 110, 116];
    assert d[1..] == "ata" && d[2..] == "ta" && d[3..] == "a";
    assert Utf8.Encode("a") == [97];
    assert Utf8.Encode("ta") == [116, 97];
    assert Utf8.Encode("ata") == [97, 116, 97];
  }

  /** What follows the first colon of a line. */
  function Following(line: Bytes): Bytes {
    var n := ColonAt(line);
    if n < |line| then line[n + 1..] else []
  }

  /** A line cut behind its field. */
  lemma FieldCut(field: Bytes, rest: Bytes)
    requires field != [] && COLON !in field && (rest == [] || rest[0] == COLON)
    ensures var line := field + rest;
            && ColonAt(line) == |field| && line[..|field|] == field && line != [] && line[0] != COLON
            && Following(line) == if rest == [] then [] else rest[1..]
  {
    ColonFirst(field, rest);
    var line := field + rest;
    assert line[0] == field[0];
    if rest != [] { assert line[|field| + 1..] == rest[1..]; }
  }

  lemma SpaceTaken(value: Bytes)
    ensures StripSpace([SPACE] + value) == value
    ensures value == [] || value[0] != SPACE ==> StripSpace(value) == value
  {
    assert ([SPACE] + value)[1..] == value;
  }

  /** What stands between the field and the value, if anything. */
  lemma FieldRest(line: Bytes, field: Bytes, value: Bytes) returns (rest: Bytes)
    requires IsField(line, field, value)
    ensures line == field + rest && (rest == [] || rest[0] == COLON)
    ensures StripSpace(if rest == [] then [] else rest[1..]) == value
  {
    SpaceTaken(value);
    if line == field && value == [] {
      rest := [];
    } else if line == field + [COLON, SPACE] + value {
      rest := [COLON] + ([SPACE] + value);
      assert rest[1..] == [SPACE] + value;
    } else {
      rest := [COLON] + value;
      assert rest[1..] == value;
    }
  }

  lemma FieldParts(line: Bytes, field: Bytes, value: Bytes)
    requires IsField(line, field, value)
    ensures var n := ColonAt(line);
            && n == |field| && line[..n] == field && line != [] && line[0] != COLON
            && StripSpace(Following(line)) == value
  {
    hide StripSpace, ColonAt, Following;
    var rest := FieldRest(line, field, value);
    FieldCut(field, rest);
  }

  lemma FieldTaken(st: Fields, line: Bytes, field: Bytes, value: Bytes)
    requires IsField(line, field, value)
    ensures Take(st, line) == WithField(st, field, value)
  {
    hide Utf8.Encode, Utf8.IsUtf8;
    FieldNames();
    FieldParts(line, field, value);
  }

  lemma CutAt(line: Bytes, n: nat)
    requires n <= |line|
    ensures line == if n < |line| then line[..n] + ([line[n]] + line[n + 1..]) else line[..n]
  {
    assert line == line[..n] + line[n..];
    if n < |line| { assert line[n..] == [line[n]] + line[n + 1..]; }
  }

  lemma ColonOf(line: Bytes)
    requires !IsComment(line)
    ensures var n := ColonAt(line); 0 < n <= |line| && COLON !in line[..n] && (n < |line| ==> line[n] == COLON)
  {
  }

  lemma FieldFound(line: Bytes) returns (field: Bytes, value: Bytes)
    requires !IsComment(line)
    ensures IsField(line, field, value)
  {
    ColonOf(line);
    hide ColonAt;
    var n, rest := ColonAt(line), Following(line);
    CutAt(line, n);
    field, value := line[..n], StripSpace(rest);
    assert line == if n < |line| then field + ([COLON] + rest) else field;
    FieldWith(line, field, rest);
  }

  lemma FieldWith(line: Bytes, field: Bytes, rest: Bytes)
    requires field != [] && COLON !in field
    requires (line == field && rest == []) || line == field + ([COLON] + rest)
    ensures IsField(line, field, StripSpace(rest))
  {
    var value := StripSpace(rest);
    if line == field + ([COLON] + rest) {
      if rest != [] && rest[0] == SPACE {
        assert rest == [SPACE] + value;
        assert line == field + [COLON, SPACE] + value;
      } else {
        assert line == field + [COLON] + value;
      }
    }
  }

  /** One line read after others. */
  ghost predicate LineAdds(before: Fields, line: Bytes, after: Fields) {
    if IsComment(line) then after == before
    else exists field, value :: IsField(line, field, value) && after == WithField(before, field, value)
  }

  lemma TakeExactly(before: Fields, line: Bytes, after: Fields)
    ensures LineAdds(before, line, after) <==> after == Take(before, line)
  {
    hide IsField, WithField;
    if IsComment(line) {
    } else {
      var f, v := FieldFound(line);
      FieldTaken(before, line, f, v);
      forall field, value | IsField(line, field, value)
        ensures WithField(before, field, value) == Take(before, line) { FieldTaken(before, line, field, value); }
    }
  }

  // ----- blocks -----

  /** The fields that lines say, one after the other. */
  ghost predicate LinesSay(raw: seq<Bytes>, st: Fields)
    decreases |raw|
  {
    if raw == [] then st == Fields(None, [])
    else
      var last := raw[|raw| - 1];
      exists before, line :: Bare(last, line) && LineAdds(before, line, st) && LinesSay(raw[..|raw| - 1], before)
  }

  lemma {:induction false} TakeLast(st: Fields, raw: seq<Bytes>, last: Bytes)
    ensures TakeAll(st, raw + [last]) == Take(TakeAll(st, raw), StripCr(last))
    decreases |raw|
  {
    hide Take, StripCr;
    if raw == [] {
      assert raw + [last] == [last] && [last][1..] == [];
    } else {
      assert (raw + [last])[1..] == raw[1..] + [last];
      TakeLast(Take(st, StripCr(raw[0])), raw[1..], last);
    }
  }

  lemma {:induction false} LinesExactly(raw: seq<Bytes>, st: Fields)
    ensures LinesSay(raw, st) <==> st == TakeAll(Fields(None, []), raw)
    decreases |raw|
  {
    hide Take, StripCr, LineAdds, Bare;
    if raw != [] {
      var init, last := raw[..|raw| - 1], raw[|raw| - 1];
      var all := TakeAll(Fields(None, []), init);
      assert raw == init + [last];
      TakeLast(Fields(None, []), init, last);
      BareExactly(last, StripCr(last));
      TakeExactly(all, StripCr(last), st);
      LinesExactly(init, all);
      forall before, line | Bare(last, line) && LineAdds(before, line, st) && LinesSay(init, before)
        ensures before == all && line == StripCr(last)
      {
        BareExactly(last, line);
        LinesExactly(init, before);
      }
    }
  }

  lemma {:induction false} JoinIs(parts: seq<Bytes>)
    ensures Join(parts) == LfJoin(parts)
  {
    if |parts| > 1 {
      JoinIs(parts[1..]);
      LfCons(parts[0], parts[1..]);
      assert [parts[0]] + parts[1..] == parts;
    }
  }

  /**
   * A block is an event exactly when some line of it is a `data` field: its data are the values of
   * those lines, joined by line feeds, its name the value of the last `event` field that is UTF-8.
   */
  lemma BlockExactly(block: Bytes, e: Event)
    ensures ParseBlock(block) == Some(e) <==>
            exists st :: LinesSay(Split(block), st) && st.parts != [] && e == Event(st.name, LfJoin(st.parts))
  {
    hide LinesSay, Split, TakeAll;
    var st := TakeAll(Fields(None, []), Split(block));
    LinesExactly(Split(block), st);
    JoinIs(st.parts);
    forall other | LinesSay(Split(block), other) ensures other == st { LinesExactly(Split(block), other); }
  }

  // ----- the ends of blocks -----

  /** Two line feeds, or two pairs of carriage return and line feed. */
  predicate BlankLine(s: Bytes, i: nat, n: nat) {
    i + n <= |s| && (s[i..i + n] == [10, 10] || s[i..i + n] == [13, 10, 13, 10])
  }

  lemma BlankRead(s: Bytes, i: nat, n: nat)
    ensures BlankLine(s, i, n) <==> n > 0 && n == TermAt(s, i)
  {
    if i + n <= |s| {
      var t := s[i..i + n];
      assert forall k :: 0 <= k < n ==> t[k] == s[i + k];
      if n == 2 { assert t == [s[i], s[i + 1]]; }
      if n == 4 { assert t == [s[i], s[i + 1], s[i + 2], s[i + 3]]; }
    }
  }

  lemma {:induction false} FirstBlank(s: Bytes, from: nat, i: nat, n: nat)
    ensures Terminator(s, from) == Some((i, n)) <==>
            from <= i && BlankLine(s, i, n) && forall j: nat, m: nat :: from <= j < i ==> !BlankLine(s, j, m)
    decreases |s| - from
  {
    hide BlankLine, TermAt;
    forall j: nat, m: nat ensures BlankLine(s, j, m) <==> m > 0 && m == TermAt(s, j) { BlankRead(s, j, m); }
    if from + 1 >= |s| {
      ShortEnd(s, from, i, n);
    } else if TermAt(s, from) > 0 {
      assert BlankLine(s, from, TermAt(s, from));
    } else {
      FirstBlank(s, from + 1, i, n);
    }
  }

  lemma ShortEnd(s: Bytes, from: nat, i: nat, n: nat)
    requires from + 1 >= |s|
    ensures from <= i ==> !BlankLine(s, i, n)
  {
  }

  /** A block ends at the first blank line of either form. */
  lemma EndExactly(s: Bytes, i: nat, n: nat)
    ensures Terminator(s, 0) == Some((i, n)) <==>
            BlankLine(s, i, n) && forall j: nat, m: nat :: j < i ==> !BlankLine(s, j, m)
  {
    FirstBlank(s, 0, i, n);
  }
}
