/** The beta header as text: how it is read into tokens, and what a session's answer says. */
module BetaHeaders {
  import opened Prelude
  import opened Ccr
  import opened Recency
  import opened StickyBetas

  // ----- pieces between commas -----

  /** The pieces with a comma between each two of them. */
  function CommaJoin(pieces: seq<string>): string {
    if pieces == [] then ""
    else if |pieces| == 1 then pieces[0]
    else CommaJoin(pieces[..|pieces| - 1]) + "," + pieces[|pieces| - 1]
  }

  predicate CommaFree(s: string) { ',' !in s }

  predicate AllCommaFree(pieces: seq<string>) { forall i :: 0 <= i < |pieces| ==> CommaFree(pieces[i]) }

  lemma {:induction false} JoinCons(p: string, pieces: seq<string>)
    requires pieces != []
    ensures CommaJoin([p] + pieces) == p + "," + CommaJoin(pieces)
    decreases |pieces|
  {
    var n := |pieces| - 1;
    var all := [p] + pieces;
    assert all[..|all| - 1] == [p] + pieces[..n];
    if n > 0 {
      JoinCons(p, pieces[..n]);
    } else {
      assert all[..|all| - 1] == [p];
    }
  }

  lemma {:induction false} CommaFound(s: string)
    ensures var n := CommaAt(s); CommaFree(s[..n]) && (n < |s| ==> s[n] == ',')
  {
    if s != "" && s[0] != ',' {
      CommaFound(s[1..]);
      var n := CommaAt(s[1..]);
      assert s[..n + 1] == [s[0]] + s[1..][..n];
    }
  }

  lemma {:induction false} CommaFirst(p: string, rest: string)
    requires CommaFree(p) && (rest == "" || rest[0] == ',')
    ensures CommaAt(p + rest) == |p|
  {
    if p == "" {
      assert p + rest == rest;
    } else {
      assert (p + rest)[1..] == p[1..] + rest;
      CommaFirst(p[1..], rest);
    }
  }

  /** Cutting at commas: no piece holds one, and joined by commas they are the text again. */
  lemma {:induction false} PiecesJoin(s: string)
    ensures Pieces(s) != [] && AllCommaFree(Pieces(s)) && CommaJoin(Pieces(s)) == s
    decreases |s|
  {
    var n := CommaAt(s);
    CommaFound(s);
    if n == |s| {
      assert s[..n] == s;
    } else {
      PiecesJoin(s[n + 1..]);
      JoinCons(s[..n], Pieces(s[n + 1..]));
      assert s == s[..n] + "," + s[n + 1..];
    }
  }

  /** There is only one way to cut a text at its commas. */
  lemma {:induction false} PiecesOf(pieces: seq<string>)
    requires pieces != [] && AllCommaFree(pieces)
    ensures Pieces(CommaJoin(pieces)) == pieces
    decreases |pieces|
  {
    var p, rest := pieces[0], pieces[1..];
    assert pieces == [p] + rest;
    if rest == [] {
      CommaFirst(p, "");
      assert p + "" == p;
    } else {
      JoinCons(p, rest);
      var s := CommaJoin(pieces);
      assert s == p + ("," + CommaJoin(rest));
      CommaFirst(p, "," + CommaJoin(rest));
      assert s[..|p|] == p && s[|p| + 1..] == CommaJoin(rest);
      PiecesOf(rest);
    }
  }

  // ----- casing and blanks -----

  /** Two characters that are one letter of the ASCII alphabet in two casings, or the same. */
  predicate SameLetter(a: char, b: char) {
    || a == b
    || ('A' <= a <= 'Z' && b as int == a as int + 32)
    || ('A' <= b <= 'Z' && a as int == b as int + 32)
  }

  lemma CasingExactly(a: string, b: string)
    ensures SameToken(a, b) <==> |a| == |b| && forall i :: 0 <= i < |a| ==> SameLetter(a[i], b[i])
  {
    if |a| == |b| {
      forall i | 0 <= i < |a| ensures (Lower(a[i]) == Lower(b[i])) == SameLetter(a[i], b[i]) {}
    }
  }

  /** The 25 code points with the property White_Space. */
  const BLANKS := {9, 10, 11, 12, 13, 0x20, 0x85, 0xA0, 0x1680, 0x2000, 0x2001, 0x2002, 0x2003, 0x2004, 0x2005, 0x2006,
    0x2007, 0x2008, 0x2009, 0x200A, 0x2028, 0x2029, 0x202F, 0x205F, 0x3000}

  lemma BlanksExactly(c: char)
    ensures IsWhite(c) <==> c as int in BLANKS
  {
  }

  // ----- trimming -----

  predicate Blank(s: string) { forall i :: 0 <= i < |s| ==> IsWhite(s[i]) }

  /** No blank at either end. */
  predicate Tight(s: string) { s != "" ==> !IsWhite(s[0]) && !IsWhite(s[|s| - 1]) }

  /** `t` is what is left of `s` without the blanks around it. */
  predicate TrimmedTo(s: string, t: string) {
    Tight(t) && exists a, b :: 0 <= a <= b <= |s| && t == s[a..b] && Blank(s[..a]) && Blank(s[b..])
  }

  lemma {:induction false} StartTrimmed(s: string) returns (a: nat)
    ensures a <= |s| && TrimStart(s) == s[a..] && Blank(s[..a]) && (a < |s| ==> !IsWhite(s[a]))
  {
    if s != "" && IsWhite(s[0]) {
      a := StartTrimmed(s[1..]);
      a := a + 1;
      assert s[..a] == [s[0]] + s[1..][..a - 1];
    } else {
      a := 0;
    }
  }

  lemma {:induction false} EndTrimmed(s: string) returns (b: nat)
    ensures b <= |s| && TrimEnd(s) == s[..b] && Blank(s[b..]) && (b > 0 ==> !IsWhite(s[b - 1]))
  {
    if s != "" && IsWhite(s[|s| - 1]) {
      b := EndTrimmed(s[..|s| - 1]);
      assert s[b..] == s[..|s| - 1][b..] + [s[|s| - 1]];
    } else {
      b := |s|;
    }
  }

  lemma Trims(s: string)
    ensures TrimmedTo(s, TrimEnd(TrimStart(s)))
  {
    var a := StartTrimmed(s);
    var b := EndTrimmed(s[a..]);
    assert s[a..][..b] == s[a..a + b] && s[a..][b..] == s[a + b..];
    assert TrimEnd(TrimStart(s)) == s[a..a + b] && Blank(s[..a]) && Blank(s[a + b..]);
    if b > 0 { assert s[a..a + b][0] == s[a]; }
  }

  lemma TrimmedOnce(s: string, t: string, u: string)
    requires TrimmedTo(s, t) && TrimmedTo(s, u)
    ensures t == u
  {
    var a, b :| 0 <= a <= b <= |s| && t == s[a..b] && Blank(s[..a]) && Blank(s[b..]);
    var c, d :| 0 <= c <= d <= |s| && u == s[c..d] && Blank(s[..c]) && Blank(s[d..]);
    SideBlank(s, a, b, c, d);
    SideBlank(s, c, d, a, b);
  }

  lemma BlankEnds(s: string, c: nat, d: nat)
    requires c <= |s| && d <= |s| && Blank(s[..c]) && Blank(s[d..])
    ensures forall i :: 0 <= i < c || d <= i < |s| ==> IsWhite(s[i])
  {
    forall i | 0 <= i < c ensures IsWhite(s[i]) { assert s[..c][i] == s[i]; }
    forall i | d <= i < |s| ensures IsWhite(s[i]) { assert s[d..][i - d] == s[i]; }
  }

  /** The part between two blank ends lies within any other such part, unless it is empty. */
  lemma SideBlank(s: string, a: nat, b: nat, c: nat, d: nat)
    requires a <= b <= |s| && c <= d <= |s| && Tight(s[a..b]) && Blank(s[..c]) && Blank(s[d..])
    ensures a == b || (c <= a && b <= d)
  {
    BlankEnds(s, c, d);
    if a < b { assert s[a..b][0] == s[a] && s[a..b][b - a - 1] == s[b - 1]; }
  }

  // ----- tokens of a header value -----

  /** `tokens` are the pieces without the blanks around them, those left empty dropped, in order. */
  predicate TrimmedPieces(pieces: seq<string>, tokens: Tokens)
    decreases |pieces|
  {
    if pieces == [] then tokens == []
    else if Blank(pieces[0]) then TrimmedPieces(pieces[1..], tokens)
    else tokens != [] && TrimmedTo(pieces[0], tokens[0]) && TrimmedPieces(pieces[1..], tokens[1..])
  }

  lemma BlankTrims(s: string)
    ensures Blank(s) <==> TrimEnd(TrimStart(s)) == ""
  {
    Trims(s);
    var t := TrimEnd(TrimStart(s));
    var a, b :| 0 <= a <= b <= |s| && t == s[a..b] && Blank(s[..a]) && Blank(s[b..]);
    if a < b { assert t[0] == s[a]; }
    if t == "" { assert s == s[..a] + s[b..]; }
  }

  lemma {:induction false} TrimmedRead(pieces: seq<string>)
    ensures TrimmedPieces(pieces, Trimmed(pieces))
  {
    if pieces != [] {
      TrimmedRead(pieces[1..]);
      BlankTrims(pieces[0]);
      Trims(pieces[0]);
      var t := TrimEnd(TrimStart(pieces[0]));
      assert ([t] + Trimmed(pieces[1..]))[1..] == Trimmed(pieces[1..]);
      assert [] + Trimmed(pieces[1..]) == Trimmed(pieces[1..]);
    }
  }

  lemma {:induction false} TrimmedUnique(pieces: seq<string>, a: Tokens, b: Tokens)
    requires TrimmedPieces(pieces, a) && TrimmedPieces(pieces, b)
    ensures a == b
    decreases |pieces|
  {
    hide TrimmedTo;
    if pieces != [] {
      if Blank(pieces[0]) {
        TrimmedUnique(pieces[1..], a, b);
      } else {
        TrimmedOnce(pieces[0], a[0], b[0]);
        TrimmedUnique(pieces[1..], a[1..], b[1..]);
        assert a == [a[0]] + a[1..] && b == [b[0]] + b[1..];
      }
    }
  }

  /**
   * The tokens of a header value are exactly the pieces between its commas, blanks around them cut
   * and blank pieces dropped, in order; a missing header has none.
   */
  lemma TokensExactly(pieces: seq<string>, tokens: Tokens)
    requires pieces != [] && AllCommaFree(pieces)
    ensures ClientTokens(Some(CommaJoin(pieces))) == tokens <==> TrimmedPieces(pieces, tokens)
    ensures ClientTokens(None) == []
  {
    PiecesOf(pieces);
    TrimmedRead(pieces);
    if TrimmedPieces(pieces, tokens) { TrimmedUnique(pieces, tokens, Trimmed(pieces)); }
    NoTokens();
  }

  lemma NoTokens()
    ensures ClientTokens(None) == []
  {
    assert Pieces("") == [""];
    assert Trimmed([""]) == Trimmed([""][1..]);
  }

  // ----- writing a header value -----

  /** Tokens a header can carry: not empty, without commas, no blanks at their ends. */
  predicate Carried(tokens: Tokens) {
    forall i :: 0 <= i < |tokens| ==> tokens[i] != "" && CommaFree(tokens[i]) && Tight(tokens[i])
  }

  lemma {:induction false} JoinedIs(tokens: Tokens)
    ensures Joined(tokens) == CommaJoin(tokens)
  {
    if |tokens| > 1 {
      JoinedIs(tokens[1..]);
      JoinCons(tokens[0], tokens[1..]);
      assert [tokens[0]] + tokens[1..] == tokens;
    }
  }

  lemma WholeTrimmed(s: string)
    requires Tight(s) && s != ""
    ensures TrimmedTo(s, s) && !Blank(s)
  {
    assert s[0..|s|] == s && s[..0] == "" && s[|s|..] == "";
    assert Blank(s[..0]) && Blank(s[|s|..]);
  }

  lemma {:induction false} CarriedPieces(tokens: Tokens)
    requires Carried(tokens)
    ensures TrimmedPieces(tokens, tokens)
  {
    hide TrimmedTo, Tight;
    if tokens != [] {
      WholeTrimmed(tokens[0]);
      assert forall i :: 0 <= i < |tokens| - 1 ==> tokens[1..][i] == tokens[i + 1];
      CarriedPieces(tokens[1..]);
    }
  }

  /** A written header value is read back as the tokens it was written from. */
  lemma JoinedRead(tokens: Tokens)
    requires Carried(tokens)
    ensures ClientTokens(Some(Joined(tokens))) == tokens
  {
    JoinedIs(tokens);
    if tokens == [] {
      NoTokens();
    } else {
      CarriedPieces(tokens);
      TokensExactly(tokens, tokens);
    }
  }

  // ----- what is read can be written -----

  lemma PartFree(s: string, a: nat, b: nat)
    requires CommaFree(s) && a <= b <= |s|
    ensures CommaFree(s[a..b])
  {
    assert forall i :: 0 <= i < b - a ==> s[a..b][i] == s[a + i];
  }

  lemma {:induction false} PiecesCarried(pieces: seq<string>, tokens: Tokens)
    requires AllCommaFree(pieces) && TrimmedPieces(pieces, tokens)
    ensures Carried(tokens)
    decreases |pieces|
  {
    if pieces != [] {
      assert forall i :: 0 <= i < |pieces| - 1 ==> pieces[1..][i] == pieces[i + 1];
      if Blank(pieces[0]) {
        PiecesCarried(pieces[1..], tokens);
      } else {
        PiecesCarried(pieces[1..], tokens[1..]);
        TokenCarried(pieces[0], tokens[0]);
        forall i | 0 <= i < |tokens| ensures tokens[i] != "" && CommaFree(tokens[i]) && Tight(tokens[i]) {
          if i > 0 { assert tokens[i] == tokens[1..][i - 1]; }
        }
      }
    }
  }

  lemma BlankAround(s: string, a: nat)
    requires a <= |s| && Blank(s[..a]) && Blank(s[a..])
    ensures Blank(s)
  {
    forall i | 0 <= i < |s| ensures IsWhite(s[i]) {
      if i < a { assert s[i] == s[..a][i]; } else { assert s[i] == s[a..][i - a]; }
    }
  }

  lemma TokenCarried(s: string, t: string)
    requires CommaFree(s) && TrimmedTo(s, t) && !Blank(s)
    ensures t != "" && CommaFree(t) && Tight(t)
  {
    hide Blank, Tight, CommaFree;
    var a, b :| 0 <= a <= b <= |s| && t == s[a..b] && Blank(s[..a]) && Blank(s[b..]);
    PartFree(s, a, b);
    if a == b { BlankAround(s, a); }
  }

  lemma ClientCarried(value: Option<string>)
    ensures Carried(ClientTokens(value))
  {
    var s := if value.Some? then value.value else "";
    PiecesJoin(s);
    TrimmedRead(Pieces(s));
    PiecesCarried(Pieces(s), Trimmed(Pieces(s)));
  }

  lemma {:induction false} MergeCarried(stored: Tokens, client: Tokens)
    requires Carried(stored) && Carried(client)
    ensures Carried(Merge(stored, client))
  {
    if client != [] { MergeCarried(stored, client[..|client| - 1]); }
  }

  // ----- the answer to a session -----

  /** A request of a session: its key and the header value it came with. */
  datatype Visit = Visit(key: string, header: Option<string>)

  /** The uses the tracker has seen. */
  function LogOf(visits: seq<Visit>): (log: Log)
    ensures |log| == |visits|
    ensures forall i :: 0 <= i < |log| ==> log[i] == Item(visits[i].key, ClientTokens(visits[i].header))
  {
    seq(|visits|, i requires 0 <= i < |visits| => Item(visits[i].key, ClientTokens(visits[i].header)))
  }

  lemma {:induction false} SentCarried(log: Log, key: string)
    requires forall i :: 0 <= i < |log| ==> Carried(log[i].value)
    ensures Carried(Sent(log, key))
  {
    if log != [] { SentCarried(log[..|log| - 1], key); }
  }

  /**
   * Read back, the header a session gets after any history of requests has exactly the tokens of the
   * headers it sent since it entered the list and of the one it sends now: each once, in the casing
   * and order of its first sending, none left out and none added.
   */
  lemma ReplyRead(visits: seq<Visit>, key: string, header: Option<string>)
    ensures var log := LogOf(visits);
            var sent := Sent(log[EnteredAt(log, key)..], key) + ClientTokens(header);
            var tokens := ClientTokens(Some(Joined(Merge(TokensOf(Track(log), key), ClientTokens(header)))));
            && tokens == Merge([], sent) && NoRepeats(tokens)
            && (forall t :: t in sent ==> Seen(tokens, t)) && (forall t :: t in tokens ==> t in sent)
  {
    hide Joined, Seen, NoRepeats, Sent, EnteredAt, Track;
    var log := LogOf(visits);
    var since := log[EnteredAt(log, key)..];
    forall i | 0 <= i < |since| ensures Carried(since[i].value) {
      ClientCarried(visits[EnteredAt(log, key) + i].header);
    }
    SentCarried(since, key);
    ClientCarried(header);
    var sent := Sent(since, key) + ClientTokens(header);
    MergeCarried([], sent);
    JoinedRead(Merge([], sent));
    UnionHeld(log, key, ClientTokens(header));
    NoneRepeated();
    MergeMeaning([], sent);
  }

  lemma UnionHeld(log: Log, key: string, client: Tokens)
    ensures Merge(TokensOf(Track(log), key), client) == Merge([], Sent(log[EnteredAt(log, key)..], key) + client)
  {
    var i := EnteredAt(log, key);
    TrackHolds(log, key);
    HeldIsUnion(log, key, i);
    MergeConcat([], Sent(log[i..], key), client);
  }

  lemma NoneRepeated()
    ensures NoRepeats([])
  {
  }
}
