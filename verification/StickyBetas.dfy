/** Session-sticky beta tokens: a least-recently-used list checked against the unbounded history. */
module StickyBetas {
  import opened Prelude
  import opened Ccr
  import opened Recency

  const MAX_BETA_SESSIONS := 1000

  type Tokens = seq<string>

  // ----- tokens -----

  function Lower(c: char): char { if 'A' <= c <= 'Z' then (c as int + 32) as char else c }

  /** Equality up to ASCII case. */
  predicate SameToken(a: string, b: string) {
    |a| == |b| && forall i :: 0 <= i < |a| ==> Lower(a[i]) == Lower(b[i])
  }

  predicate Seen(tokens: Tokens, token: string) { exists i :: 0 <= i < |tokens| && SameToken(tokens[i], token) }

  function AddToken(tokens: Tokens, token: string): Tokens {
    if Seen(tokens, token) then tokens else tokens + [token]
  }

  /** Stored tokens first, then the new ones the session has not sent in any casing. */
  function Merge(stored: Tokens, client: Tokens): Tokens {
    if client == [] then stored else AddToken(Merge(stored, client[..|client| - 1]), client[|client| - 1])
  }

  function CommaAt(s: string): (n: nat)
    ensures n <= |s|
  {
    if s == "" || s[0] == ',' then 0 else 1 + CommaAt(s[1..])
  }

  function Pieces(s: string): seq<string>
    decreases |s|
  {
    var n := CommaAt(s);
    if n == |s| then [s] else [s[..n]] + Pieces(s[n + 1..])
  }

  function Trimmed(pieces: seq<string>): Tokens {
    if pieces == [] then []
    else
      var t := TrimEnd(TrimStart(pieces[0]));
      (if t == "" then [] else [t]) + Trimmed(pieces[1..])
  }

  function ClientTokens(value: Option<string>): Tokens { Trimmed(Pieces(if value.Some? then value.value else "")) }

  function Joined(tokens: Tokens): string {
    if tokens == [] then "" else if |tokens| == 1 then tokens[0] else tokens[0] + "," + Joined(tokens[1..])
  }

  // ----- the tracker -----

  function TokensOf(betas: seq<Item<string, Tokens>>, key: string): Tokens {
    var p := Position(betas, key);
    if p.None? then [] else betas[p.value].value
  }

  function AfterUse(betas: seq<Item<string, Tokens>>, key: string, client: Tokens): seq<Item<string, Tokens>> {
    Touched(betas, key, Merge(TokensOf(betas, key), client), MAX_BETA_SESSIONS)
  }

  class BetaTracker {
    var betas: seq<Item<string, Tokens>>

    ghost predicate Valid()
      reads this
    {
      Unique(betas) && |betas| <= MAX_BETA_SESSIONS
    }

    constructor ()
      ensures Valid() && betas == []
    {
      betas := [];
    }

    method StickyBetas(key: string, clientValue: Option<string>) returns (value: string)
      requires Valid()
      modifies this
      ensures Valid() && betas == AfterUse(old(betas), key, ClientTokens(clientValue))
      ensures value == Joined(Merge(TokensOf(old(betas), key), ClientTokens(clientValue)))
    {
      var client := ClientTokens(clientValue);
      var stored := Take(key);
      var merged := MergeTokens(stored, client);
      value := Joined(merged);
      UniqueSnoc(old(betas), Item(key, merged));
      TailUnique(betas + [Item(key, merged)], MAX_BETA_SESSIONS);
      Push(Item(key, merged));
    }

    /** Removes the entry of a session and returns its tokens. */
    method Take(key: string) returns (stored: Tokens)
      requires Unique(betas)
      modifies this
      ensures stored == TokensOf(old(betas), key) && betas == Without(old(betas), key)
    {
      var position := Position(betas, key);
      if position.None? {
        WithoutAbsent(betas, key);
        return [];
      }
      stored := betas[position.value].value;
      RemoveAt(betas, key, position.value);
      betas := betas[..position.value] + betas[position.value + 1..];
    }

    /** Appends an entry and evicts from the front what is over capacity. */
    method Push(item: Item<string, Tokens>)
      modifies this
      ensures betas == Tail(old(betas) + [item], MAX_BETA_SESSIONS)
    {
      betas := betas + [item];
      ghost var all := betas;
      while |betas| > MAX_BETA_SESSIONS
        invariant |betas| <= |all| && betas == all[|all| - |betas|..]
        invariant |betas| >= MAX_BETA_SESSIONS || betas == all
      {
        betas := betas[1..];
      }
    }
  }

  method MergeTokens(stored: Tokens, client: Tokens) returns (merged: Tokens)
    ensures merged == Merge(stored, client)
  {
    merged := stored;
    assert client[..0] == [];
    for i := 0 to |client|
      invariant merged == Merge(stored, client[..i])
    {
      assert client[..i + 1][..i] == client[..i];
      if !Seen(merged, client[i]) { merged := merged + [client[i]]; }
    }
    assert client[..|client|] == client;
  }

  /** Removing the one entry of a key. */
  lemma RemoveAt<V>(s: seq<Item<string, V>>, key: string, p: nat)
    requires Unique(s) && p < |s| && s[p].key == key
    ensures s[..p] + s[p + 1..] == Without(s, key)
  {
    assert s == s[..p] + ([s[p]] + s[p + 1..]);
    WithoutConcat(s[..p], [s[p]] + s[p + 1..], key);
    WithoutConcat([s[p]], s[p + 1..], key);
    WithoutAbsent(s[..p], key);
    WithoutAbsent(s[p + 1..], key);
    assert Without([s[p]], key) == [];
  }

  // ----- the list against the history -----

  type Log = seq<Item<string, Tokens>>

  /** The list after a history of uses, each with the tokens the client sent. */
  function Track(log: Log): seq<Item<string, Tokens>> {
    if log == [] then [] else AfterUse(Track(log[..|log| - 1]), log[|log| - 1].key, log[|log| - 1].value)
  }

  predicate Listed(log: Log, key: string) { Position(Bounded(log, MAX_BETA_SESSIONS), key).Some? }

  /** What the tracker holds for a session: its tokens since it last entered the list. */
  function Held(log: Log, key: string): Tokens {
    if log == [] || !Listed(log, key) then []
    else
      var n := |log| - 1;
      if log[n].key == key then Merge(Held(log[..n], key), log[n].value) else Held(log[..n], key)
  }

  /** Same keys in the same order, whatever the values. */
  predicate SameKeys<V, W>(a: seq<Item<string, V>>, b: seq<Item<string, W>>) {
    |a| == |b| && forall i :: 0 <= i < |a| ==> a[i].key == b[i].key
  }

  lemma {:induction false} SameKeysWithout<V, W>(a: seq<Item<string, V>>, b: seq<Item<string, W>>, key: string)
    requires SameKeys(a, b)
    ensures SameKeys(Without(a, key), Without(b, key))
  {
    if a != [] { SameKeysWithout(a[1..], b[1..], key); }
  }

  lemma {:induction false} SameKeysPosition<V, W>(a: seq<Item<string, V>>, b: seq<Item<string, W>>, key: string)
    requires SameKeys(a, b)
    ensures Position(a, key) == Position(b, key)
  {
    if a != [] { SameKeysPosition(a[1..], b[1..], key); }
  }

  lemma {:induction false} TrackKeys(log: Log)
    ensures SameKeys(Track(log), Bounded(log, MAX_BETA_SESSIONS))
  {
    hide TokensOf, Without;
    if log != [] {
      var n := |log| - 1;
      TrackKeys(log[..n]);
      SameKeysWithout(Track(log[..n]), Bounded(log[..n], MAX_BETA_SESSIONS), log[n].key);
    }
  }

  lemma {:induction false} WithoutKeeps<V>(s: seq<Item<string, V>>, key: string, other: string)
    requires other != key
    ensures Position(Without(s, key), other).Some? == Position(s, other).Some?
    ensures Position(s, other).Some? ==>
            Without(s, key)[Position(Without(s, key), other).value] == s[Position(s, other).value]
  {
    if s != [] { WithoutKeeps(s[1..], key, other); }
  }

  /** In a bounded list a key that is still there has the value it had. */
  lemma TailKeeps<V>(s: seq<Item<string, V>>, n: nat, key: string)
    requires Unique(s) && Position(Tail(s, n), key).Some?
    ensures Position(s, key).Some? && s[Position(s, key).value] == Tail(s, n)[Position(Tail(s, n), key).value]
  {
    var t := Tail(s, n);
    var i := Position(t, key).value;
    assert s[|s| - |t| + i] == t[i];
  }

  lemma UseKeeps(betas: seq<Item<string, Tokens>>, used: string, client: Tokens, key: string)
    requires Unique(betas) && Position(AfterUse(betas, used, client), key).Some?
    ensures TokensOf(AfterUse(betas, used, client), key)
            == if key == used then Merge(TokensOf(betas, used), client) else TokensOf(betas, key)
  {
    var item := Item(used, Merge(TokensOf(betas, used), client));
    var s := Without(betas, used) + [item];
    UniqueSnoc(betas, item);
    TailKeeps(s, MAX_BETA_SESSIONS, key);
    var p := Position(s, key).value;
    if key == used {
      assert p == |s| - 1;
    } else {
      assert p < |s| - 1 && s[p] == Without(betas, used)[p];
      WithoutKeeps(betas, used, key);
      WithoutUnique(betas, used);
      OnePosition(Without(betas, used), key, p);
    }
  }

  lemma OnePosition<V>(s: seq<Item<string, V>>, key: string, p: nat)
    requires Unique(s) && p < |s| && s[p].key == key
    ensures Position(s, key) == Some(p)
  {
    var q := Position(s, key).value;
    assert s[q].key == s[p].key;
  }

  /** The list holds, for each session still in it, exactly its tokens since it entered. */
  lemma {:induction false} TrackHolds(log: Log, key: string)
    ensures Unique(Track(log)) && |Track(log)| <= 1000
    ensures Position(Track(log), key).Some? == Listed(log, key)
    ensures TokensOf(Track(log), key) == Held(log, key)
  {
    TrackKeys(log);
    BoundedIsTail(log, MAX_BETA_SESSIONS);
    SameKeysPosition(Track(log), Bounded(log, MAX_BETA_SESSIONS), key);
    if log != [] && Listed(log, key) {
      var n := |log| - 1;
      TrackHolds(log[..n], key);
      UseKeeps(Track(log[..n]), log[n].key, log[n].value, key);
    }
  }

  /** A session keeps its place exactly while fewer than a thousand others come in between. */
  lemma KeepsPlace(log: Log, key: string)
    ensures Listed(log, key) <==>
            LastUse(log, key).Some? && |KeysOf(log[LastUse(log, key).value + 1..])| <= 999
  {
    ListedExactly(log, key, MAX_BETA_SESSIONS);
  }

  // ----- the union of everything sent -----

  /** All tokens a session ever sent, in order. */
  function Sent(log: Log, key: string): Tokens {
    if log == [] then []
    else Sent(log[..|log| - 1], key) + if log[|log| - 1].key == key then log[|log| - 1].value else []
  }

  lemma {:induction false} MergeConcat(stored: Tokens, a: Tokens, b: Tokens)
    ensures Merge(Merge(stored, a), b) == Merge(stored, a + b)
  {
    if b == [] {
      assert a + b == a;
    } else {
      assert (a + b)[..|a + b| - 1] == a + b[..|b| - 1];
      MergeConcat(stored, a, b[..|b| - 1]);
    }
  }

  /** The session has been in the list ever since the first `i` uses of the history. */
  predicate InListSince(log: Log, key: string, i: nat) {
    forall j :: i < j <= |log| ==> Listed(log[..j], key)
  }

  /**
   * A session that has stayed in the list since it entered it is answered with the union,
   * in first-seen order and casing, of every token it has sent since then.
   */
  lemma {:induction false} HeldIsUnion(log: Log, key: string, i: nat)
    requires i <= |log| && !Listed(log[..i], key) && InListSince(log, key, i)
    ensures Held(log, key) == Merge([], Sent(log[i..], key))
    decreases |log|
  {
    assert log[..|log|] == log;
    if i == |log| {
      assert log[i..] == [];
    } else {
      var init := log[..|log| - 1];
      assert init[..i] == log[..i];
      forall j | i < j <= |init| ensures Listed(init[..j], key) { assert init[..j] == log[..j]; }
      HeldIsUnion(init, key, i);
      SentLast(log, key, i);
      MergeConcat([], Sent(init[i..], key), if log[|log| - 1].key == key then log[|log| - 1].value else []);
    }
  }

  lemma SentLast(log: Log, key: string, i: nat)
    requires i < |log|
    ensures var n := |log| - 1;
            Sent(log[i..], key) == Sent(log[..n][i..], key) + if log[n].key == key then log[n].value else []
  {
    var part, n := log[i..], |log| - 1;
    assert part[..|part| - 1] == log[..n][i..] && part[|part| - 1] == log[n];
  }

  /** The use since which the session has been in the list; the end of the history if it is not. */
  function EnteredAt(log: Log, key: string): (i: nat)
    ensures i <= |log| && !Listed(log[..i], key) && InListSince(log, key, i)
  {
    if !Listed(log, key) then
      assert log[..|log|] == log;
      |log|
    else
      var n := |log| - 1;
      var i := EnteredAt(log[..n], key);
      StillListed(log, key, i);
      i
  }

  lemma StillListed(log: Log, key: string, i: nat)
    requires log != [] && Listed(log, key) && i <= |log| - 1
    requires var init := log[..|log| - 1]; !Listed(init[..i], key) && InListSince(init, key, i)
    ensures !Listed(log[..i], key) && InListSince(log, key, i)
  {
    hide Listed;
    var init := log[..|log| - 1];
    assert init[..i] == log[..i];
    forall j | i < j <= |log| ensures Listed(log[..j], key) {
      if j < |log| { assert init[..j] == log[..j]; } else { assert log[..j] == log; }
    }
  }

  /**
   * The header a session gets back after any history: the union, in first-seen order and casing,
   * of every token it has sent since it entered the list and of those it sends now.
   */
  lemma ReplyIsUnion(log: Log, key: string, client: Tokens)
    ensures Joined(Merge(TokensOf(Track(log), key), client))
            == Joined(Merge([], Sent(log[EnteredAt(log, key)..], key) + client))
  {
    var i := EnteredAt(log, key);
    TrackHolds(log, key);
    HeldIsUnion(log, key, i);
    MergeConcat([], Sent(log[i..], key), client);
  }

  // ----- what a merge is -----

  predicate NoRepeats(tokens: Tokens) { forall i, j :: 0 <= i < j < |tokens| ==> !SameToken(tokens[i], tokens[j]) }

  lemma SameTokenOrder(a: string, b: string, c: string)
    ensures SameToken(a, a) && (SameToken(a, b) ==> SameToken(b, a))
    ensures SameToken(a, b) && SameToken(b, c) ==> SameToken(a, c)
  {
  }

  /**
   * A merge keeps what was stored as its beginning, repeats no token in any casing, covers
   * every token of both sides, and invents none.
   */
  lemma {:induction false} MergeMeaning(stored: Tokens, client: Tokens)
    requires NoRepeats(stored)
    ensures var m := Merge(stored, client);
            && NoRepeats(m) && stored <= m
            && (forall t :: t in client ==> Seen(m, t))
            && (forall t :: t in m ==> t in stored || t in client)
  {
    if client != [] {
      var n := |client| - 1;
      MergeMeaning(stored, client[..n]);
      var before, m := Merge(stored, client[..n]), Merge(stored, client);
      assert client == client[..n] + [client[n]];
      assert before <= m;
      forall t | t in client ensures Seen(m, t) {
        if t in client[..n] {
          var i :| 0 <= i < |before| && SameToken(before[i], t);
          assert m[i] == before[i];
        } else if !Seen(before, t) {
          SameTokenOrder(t, t, t);
          assert m[|m| - 1] == t;
        }
      }
    }
  }
}
