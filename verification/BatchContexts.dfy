/** Contexts of batch requests: first in first out, with a time to live and a capacity. */
module BatchContexts {
  import opened Prelude
  import opened Values
  import opened Recency

  const BATCH_CONTEXT_TTL := 24 * 60 * 60
  const MAX_BATCH_CONTEXTS := 10000

  /** Params of each request of a batch, and when they expire. */
  datatype Context = Context(params: map<string, Val>, expires: nat)

  type Entries = seq<Item<string, Context>>

  /** What a batch body says about its requests; a repeated id keeps its last params. */
  function ParamsOf(requests: seq<Val>): map<string, Val> {
    if requests == [] then map[]
    else
      var n := |requests| - 1;
      var before := ParamsOf(requests[..n]);
      var id, params := GetText(requests[n], "custom_id"), Get(requests[n], "params");
      if id.Some? && params.Some? then before[id.value := params.value] else before
  }

  function BodyParams(body: Val): map<string, Val> {
    var requests := GetList(body, "requests");
    if requests.Some? then ParamsOf(requests.value) else map[]
  }

  /** Entries that have not expired. */
  function Fresh(s: Entries, now: nat): (r: Entries)
    ensures |r| <= |s|
  {
    if s == [] then [] else if s[0].value.expires > now then [s[0]] + Fresh(s[1..], now) else Fresh(s[1..], now)
  }

  function Recorded(entries: Entries, id: string, params: map<string, Val>, now: nat): Entries {
    if params == map[] then entries
    else Touched(Fresh(entries, now), id, Context(params, now + BATCH_CONTEXT_TTL), MAX_BATCH_CONTEXTS)
  }

  function Found(entries: Entries, id: string): Option<map<string, Val>> {
    var p := Position(entries, id);
    if p.None? then None else Some(entries[p.value].value.params)
  }

  class BatchContextStore {
    var entries: Entries

    ghost predicate Valid()
      reads this
    {
      Unique(entries) && |entries| <= MAX_BATCH_CONTEXTS
    }

    constructor ()
      ensures Valid() && entries == []
    {
      entries := [];
    }

    method RecordBatchContext(id: string, body: Val, now: nat)
      requires Valid()
      modifies this
      ensures Valid() && entries == Recorded(old(entries), id, BodyParams(body), now)
    {
      var requests := GetList(body, "requests");
      if requests.None? { return; }
      var params := CollectParams(requests.value);
      if params == map[] { return; }
      FreshUnique(entries, now);
      UniqueSnoc(Fresh(entries, now), Item(id, Context(params, now + BATCH_CONTEXT_TTL)));
      Retain(now, Some(id));
      TailUnique(entries + [Item(id, Context(params, now + BATCH_CONTEXT_TTL))], MAX_BATCH_CONTEXTS);
      PushBack(Item(id, Context(params, now + BATCH_CONTEXT_TTL)));
    }

    method BatchContext(id: string, now: nat) returns (r: Option<map<string, Val>>)
      requires Valid()
      modifies this
      ensures Valid() && entries == Fresh(old(entries), now) && r == Found(entries, id)
    {
      FreshUnique(entries, now);
      Retain(now, None);
      r := None;
      var i := |entries|;
      while i > 0
        invariant 0 <= i <= |entries| && forall j :: i <= j < |entries| ==> entries[j].key != id
      {
        i := i - 1;
        if entries[i].key == id {
          SamePlace(entries, id, i);
          return Some(entries[i].value.params);
        }
      }
    }

    /** Drops expired entries, and the entry of `id` if one is given. */
    method Retain(now: nat, id: Option<string>)
      modifies this
      ensures entries == if id.Some? then Without(Fresh(old(entries), now), id.value) else Fresh(old(entries), now)
    {
      var kept: Entries := [];
      ghost var all := entries;
      assert all[..0] == [];
      for i := 0 to |entries|
        invariant entries == all
        invariant kept == if id.Some? then Without(Fresh(all[..i], now), id.value) else Fresh(all[..i], now)
      {
        RetainStep(all, i, now, id);
        if entries[i].value.expires > now && id != Some(entries[i].key) { kept := kept + [entries[i]]; }
      }
      assert all[..|all|] == all;
      entries := kept;
    }

    method PushBack(item: Item<string, Context>)
      modifies this
      ensures entries == Tail(old(entries) + [item], MAX_BATCH_CONTEXTS)
    {
      entries := entries + [item];
      ghost var all := entries;
      while |entries| > MAX_BATCH_CONTEXTS
        invariant |entries| <= |all| && entries == all[|all| - |entries|..]
        invariant |entries| >= MAX_BATCH_CONTEXTS || entries == all
      {
        entries := entries[1..];
      }
    }
  }

  method CollectParams(requests: seq<Val>) returns (params: map<string, Val>)
    ensures params == ParamsOf(requests)
  {
    params := map[];
    assert requests[..0] == [];
    for i := 0 to |requests|
      invariant params == ParamsOf(requests[..i])
    {
      assert requests[..i + 1][..i] == requests[..i];
      var id := GetText(requests[i], "custom_id");
      if id.None? { continue; }
      var value := Get(requests[i], "params");
      if value.None? { continue; }
      params := params[id.value := value.value];
    }
    assert requests[..|requests|] == requests;
  }

  /** The request names itself `id` and has params. */
  predicate Names(request: Val, id: string) {
    Get(request, "custom_id") == Some(Txt(id)) && Get(request, "params").Some?
  }

  /** The last request that names itself `id` and has params carries `x`. */
  predicate LastCarries(requests: seq<Val>, id: string, x: Val) {
    exists i :: 0 <= i < |requests| && Names(requests[i], id) && Get(requests[i], "params") == Some(x)
                && forall j :: i < j < |requests| ==> !Names(requests[j], id)
  }

  lemma LastOf(init: seq<Val>, last: Val, id: string, x: Val)
    ensures LastCarries(init + [last], id, x) <==>
            if Names(last, id) then Get(last, "params") == Some(x) else LastCarries(init, id, x)
  {
    hide Get;
    var all, n := init + [last], |init|;
    assert all[n] == last;
    assert forall i :: 0 <= i < n ==> all[i] == init[i];
    if LastCarries(init, id, x) && !Names(last, id) {
      var i :| 0 <= i < n && Names(init[i], id) && Get(init[i], "params") == Some(x)
               && forall j :: i < j < n ==> !Names(init[j], id);
      assert Names(all[i], id);
    }
    if LastCarries(all, id, x) {
      var i :| 0 <= i <= n && Names(all[i], id) && Get(all[i], "params") == Some(x)
               && forall j :: i < j <= n ==> !Names(all[j], id);
      if i < n { assert Names(init[i], id); }
    }
  }

  lemma {:induction false} ListExactly(requests: seq<Val>, id: string, x: Val)
    ensures id in ParamsOf(requests) && ParamsOf(requests)[id] == x <==> LastCarries(requests, id, x)
  {
    hide Get, LastCarries;
    if requests == [] {
      NoneCarries(id, x);
    } else {
      var init, last := requests[..|requests| - 1], requests[|requests| - 1];
      assert requests == init + [last];
      ListExactly(init, id, x);
      LastOf(init, last, id, x);
    }
  }

  lemma NoneCarries(id: string, x: Val)
    ensures !LastCarries([], id, x)
  {
  }

  /** A batch body is remembered as the last params of each id in its list of requests. */
  lemma ParamsExactly(body: Val, id: string, x: Val)
    ensures id in BodyParams(body) && BodyParams(body)[id] == x <==>
            exists requests :: Get(body, "requests") == Some(Arr(requests)) && LastCarries(requests, id, x)
  {
    hide Get, LastCarries, ParamsOf;
    var list := Get(body, "requests");
    if list.Some? && list.value.Arr? { ListExactly(list.value.items, id, x); }
  }

  // ----- facts about filtering -----

  lemma {:induction false} FreshConcat(a: Entries, b: Entries, now: nat)
    ensures Fresh(a + b, now) == Fresh(a, now) + Fresh(b, now)
  {
    if a == [] {
      assert a + b == b;
    } else {
      assert (a + b)[1..] == a[1..] + b && (a + b)[0] == a[0];
      FreshConcat(a[1..], b, now);
      assert [a[0]] + (Fresh(a[1..], now) + Fresh(b, now)) == ([a[0]] + Fresh(a[1..], now)) + Fresh(b, now);
    }
  }

  lemma FreshOne(x: Item<string, Context>, now: nat)
    ensures Fresh([x], now) == if x.value.expires > now then [x] else []
  {
    assert [x][1..] == [];
  }

  lemma WithoutOne(x: Item<string, Context>, id: string)
    ensures Without([x], id) == if x.key == id then [] else [x]
  {
    assert [x][1..] == [];
  }

  lemma RetainStep(all: Entries, i: nat, now: nat, id: Option<string>)
    requires i < |all|
    ensures var before, after := Fresh(all[..i], now), Fresh(all[..i + 1], now);
            var kept := all[i].value.expires > now;
            && after == before + (if kept then [all[i]] else [])
            && (id.Some? ==> Without(after, id.value) == Without(before, id.value)
                             + (if kept && id.value != all[i].key then [all[i]] else []))
  {
    assert all[..i + 1] == all[..i] + [all[i]];
    FreshConcat(all[..i], [all[i]], now);
    FreshOne(all[i], now);
    if id.Some? {
      WithoutConcat(Fresh(all[..i], now), Fresh([all[i]], now), id.value);
      WithoutOne(all[i], id.value);
    }
  }

  lemma SamePlace(s: Entries, id: string, i: nat)
    requires Unique(s) && i < |s| && s[i].key == id
    ensures Position(s, id) == Some(i)
  {
    var p := Position(s, id).value;
    assert s[p].key == s[i].key;
  }

  lemma {:induction false} FreshMembers(s: Entries, now: nat)
    ensures forall i :: 0 <= i < |Fresh(s, now)| ==> Fresh(s, now)[i].value.expires > now
    ensures forall i :: 0 <= i < |Fresh(s, now)| ==> exists j :: 0 <= j < |s| && s[j] == Fresh(s, now)[i]
  {
    if s != [] {
      FreshMembers(s[1..], now);
      var r, t := Fresh(s, now), Fresh(s[1..], now);
      forall i | 0 <= i < |r| ensures exists j :: 0 <= j < |s| && s[j] == r[i] {
        if s[0].value.expires > now && i == 0 {
          assert s[0] == r[0];
        } else {
          var k := if s[0].value.expires > now then i - 1 else i;
          assert r[i] == t[k];
          var j :| 0 <= j < |s[1..]| && s[1..][j] == t[k];
          assert s[j + 1] == r[i];
        }
      }
    }
  }

  lemma {:induction false} FreshUnique(s: Entries, now: nat)
    requires Unique(s)
    ensures Unique(Fresh(s, now))
  {
    if s != [] {
      var t := s[1..];
      assert forall i :: 0 <= i < |t| ==> t[i] == s[i + 1];
      FreshUnique(t, now);
      FreshMembers(t, now);
      var r, u := Fresh(s, now), Fresh(t, now);
      if s[0].value.expires > now {
        forall i, j | 0 <= i < j < |r| ensures r[i].key != r[j].key {
          assert r[j] == u[j - 1];
          var k :| 0 <= k < |t| && t[k] == u[j - 1];
          assert s[k + 1] == r[j];
          if i > 0 { assert r[i] == u[i - 1]; }
        }
      }
    }
  }

  lemma {:induction false} FreshTwice(s: Entries, a: nat, b: nat)
    requires a <= b
    ensures Fresh(Fresh(s, a), b) == Fresh(s, b)
  {
    if s != [] {
      FreshTwice(s[1..], a, b);
      if s[0].value.expires > a { assert ([s[0]] + Fresh(s[1..], a))[1..] == Fresh(s[1..], a); }
    }
  }

  lemma {:induction false} FreshWithout(s: Entries, id: string, now: nat)
    ensures Fresh(Without(s, id), now) == Without(Fresh(s, now), id)
  {
    if s != [] {
      FreshWithout(s[1..], id, now);
      if s[0].key != id { assert ([s[0]] + Without(s[1..], id))[1..] == Without(s[1..], id); }
      if s[0].value.expires > now { assert ([s[0]] + Fresh(s[1..], now))[1..] == Fresh(s[1..], now); }
    }
  }

  /** Expiries never decrease along the list. */
  predicate Ascend(s: Entries) { forall i, j :: 0 <= i <= j < |s| ==> s[i].value.expires <= s[j].value.expires }

  lemma {:induction false} FreshAll(s: Entries, now: nat)
    requires forall i :: 0 <= i < |s| ==> s[i].value.expires > now
    ensures Fresh(s, now) == s
  {
    if s != [] {
      assert forall i :: 0 <= i < |s| - 1 ==> s[1..][i] == s[i + 1];
      FreshAll(s[1..], now);
    }
  }

  /** Of an ascending list the fresh entries are the end. */
  lemma {:induction false} FreshEnd(s: Entries, now: nat)
    requires Ascend(s)
    ensures Fresh(s, now) == s[|s| - |Fresh(s, now)|..]
  {
    if s != [] {
      if s[0].value.expires > now {
        FreshAll(s, now);
      } else {
        assert Ascend(s[1..]) by { assert forall i :: 0 <= i < |s| - 1 ==> s[1..][i] == s[i + 1]; }
        FreshEnd(s[1..], now);
        assert s[1..][|s| - 1 - |Fresh(s, now)|..] == s[|s| - |Fresh(s, now)|..];
      }
    }
  }

  /** Dropping what expired and dropping what is over capacity commute. */
  lemma FreshTail(s: Entries, now: nat, cap: nat)
    requires Ascend(s)
    ensures Fresh(Tail(s, cap), now) == Tail(Fresh(s, now), cap)
  {
    FreshEnd(s, now);
    if |s| > cap { FreshCut(s, s[..|s| - cap], s[|s| - cap..], now); }
  }

  lemma FreshCut(s: Entries, head: Entries, tail: Entries, now: nat)
    requires Ascend(s) && s == head + tail && Fresh(s, now) == s[|s| - |Fresh(s, now)|..]
    ensures Fresh(tail, now) == Tail(Fresh(s, now), |tail|)
  {
    FreshConcat(head, tail, now);
    if |Fresh(s, now)| <= |tail| {
      HeadStale(s, head, tail, now);
      assert [] + Fresh(tail, now) == Fresh(tail, now);
    } else {
      HeadFresh(s, head, tail, now);
    }
  }

  lemma HeadStale(s: Entries, head: Entries, tail: Entries, now: nat)
    requires Ascend(s) && s == head + tail && Fresh(s, now) == Fresh(head, now) + Fresh(tail, now)
    requires |Fresh(s, now)| <= |tail| && Fresh(s, now) == s[|s| - |Fresh(s, now)|..]
    ensures Fresh(head, now) == []
  {
    FreshMembers(head, now);
    if Fresh(head, now) != [] {
      var x := Fresh(head, now)[0];
      var j :| 0 <= j < |head| && head[j] == x;
      assert s[j] == x;
      forall i | 0 <= i < |tail| ensures tail[i].value.expires > now { assert s[|head| + i] == tail[i]; }
      FreshAll(tail, now);
    }
  }

  lemma HeadFresh(s: Entries, head: Entries, tail: Entries, now: nat)
    requires Ascend(s) && s == head + tail
    requires |Fresh(s, now)| > |tail| && Fresh(s, now) == s[|s| - |Fresh(s, now)|..]
    ensures Fresh(tail, now) == tail && Tail(Fresh(s, now), |tail|) == tail
  {
    FreshMembers(s, now);
    var r := Fresh(s, now);
    forall i | 0 <= i < |tail| ensures tail[i].value.expires > now {
      var k := |r| - |tail| + i;
      assert r[k] == s[|s| - |r| + k] && s[|head| + i] == tail[i];
    }
    FreshAll(tail, now);
  }

  // ----- the store against the history -----

  datatype Op = Record(id: string, params: map<string, Val>, time: nat) | Lookup(id: string, time: nat)

  function Perform(entries: Entries, op: Op): Entries {
    match op
    case Record(id, params, time) => Recorded(entries, id, params, time)
    case Lookup(_, time) => Fresh(entries, time)
  }

  function Run(ops: seq<Op>): Entries {
    if ops == [] then [] else Perform(Run(ops[..|ops| - 1]), ops[|ops| - 1])
  }

  /** The records that said something. */
  function LogOf(ops: seq<Op>): Entries {
    if ops == [] then []
    else
      var op := ops[|ops| - 1];
      LogOf(ops[..|ops| - 1])
      + if op.Record? && op.params != map[] then [Item(op.id, Context(op.params, op.time + BATCH_CONTEXT_TTL))] else []
  }

  /** A clock that never runs back. */
  predicate Steady(ops: seq<Op>) { forall i, j :: 0 <= i <= j < |ops| ==> ops[i].time <= ops[j].time }

  function Kept(log: Entries, at: nat): Entries { Tail(Fresh(LastUses(log), at), MAX_BATCH_CONTEXTS) }

  lemma {:induction false} WithoutAscend(s: Entries, id: string)
    requires Ascend(s)
    ensures Ascend(Without(s, id))
  {
    if s != [] {
      var t := s[1..];
      assert forall i :: 0 <= i < |t| ==> t[i] == s[i + 1];
      WithoutAscend(t, id);
      if s[0].key != id {
        var r := Without(s, id);
        forall i, j | 0 <= i <= j < |r| ensures r[i].value.expires <= r[j].value.expires {
          if j > 0 {
            assert r[j] == Without(t, id)[j - 1];
            if i > 0 {
              assert r[i] == Without(t, id)[i - 1];
            } else {
              var k := WithoutFrom(t, id, j - 1);
              assert s[k + 1] == r[j];
            }
          }
        }
      }
    }
  }

  lemma {:induction false} LastUsesAscend(log: Entries, bound: nat)
    requires Ascend(log) && forall i :: 0 <= i < |log| ==> log[i].value.expires <= bound
    ensures Ascend(LastUses(log)) && forall i :: 0 <= i < |LastUses(log)| ==> LastUses(log)[i].value.expires <= bound
  {
    if log != [] {
      var n := |log| - 1;
      LastUsesAscend(log[..n], log[n].value.expires);
      var before := LastUses(log[..n]);
      WithoutAscend(before, log[n].key);
      var w := Without(before, log[n].key);
      forall i | 0 <= i < |w| ensures w[i].value.expires <= log[n].value.expires {
        var k := WithoutFrom(before, log[n].key, i);
      }
    }
  }

  lemma {:induction false} LogAscends(ops: seq<Op>, bound: nat)
    requires Steady(ops) && forall i :: 0 <= i < |ops| ==> ops[i].time <= bound
    ensures Ascend(LogOf(ops)) && forall i :: 0 <= i < |LogOf(ops)| ==>
            LogOf(ops)[i].value.expires <= bound + BATCH_CONTEXT_TTL
  {
    if ops != [] { LogAscends(ops[..|ops| - 1], ops[|ops| - 1].time); }
  }

  lemma RecordKept(log: Entries, at: nat, item: Item<string, Context>, now: nat)
    requires Ascend(LastUses(log)) && at <= now && item.value.expires > now
    ensures Touched(Fresh(Kept(log, at), now), item.key, item.value, MAX_BATCH_CONTEXTS) == Kept(log + [item], now)
  {
    var all := LastUses(log);
    LastUsesUnique(log);
    FreshEnd(all, at);
    AscendFresh(all, at);
    FreshTail(Fresh(all, at), now, MAX_BATCH_CONTEXTS);
    FreshTwice(all, at, now);
    FreshUnique(all, now);
    TouchTail(Fresh(all, now), item.key, item.value, MAX_BATCH_CONTEXTS, MAX_BATCH_CONTEXTS);
    FreshWithout(all, item.key, now);
    FreshConcat(Without(all, item.key), [item], now);
    FreshOne(item, now);
    assert (log + [item])[..|log|] == log;
    assert Item(item.key, item.value) == item;
  }

  lemma AscendFresh(s: Entries, now: nat)
    requires Ascend(s)
    ensures Ascend(Fresh(s, now))
  {
    hide Fresh;
    FreshEnd(s, now);
    var r := Fresh(s, now);
    forall i, j | 0 <= i <= j < |r| ensures r[i].value.expires <= r[j].value.expires {
      assert r[i] == s[|s| - |r| + i] && r[j] == s[|s| - |r| + j];
    }
  }

  lemma FreshKept(log: Entries, at: nat, now: nat)
    requires Ascend(LastUses(log)) && at <= now
    ensures Fresh(Kept(log, at), now) == Kept(log, now)
  {
    var all := LastUses(log);
    AscendFresh(all, at);
    FreshTail(Fresh(all, at), now, MAX_BATCH_CONTEXTS);
    FreshTwice(all, at, now);
  }

  /** When the list was last cleaned: the time of the last operation that did anything. */
  function CleanedAt(ops: seq<Op>): nat {
    if ops == [] then 0
    else
      var op := ops[|ops| - 1];
      if op.Record? && op.params == map[] then CleanedAt(ops[..|ops| - 1]) else op.time
  }

  lemma {:induction false} CleanedBefore(ops: seq<Op>, bound: nat)
    requires forall i :: 0 <= i < |ops| ==> ops[i].time <= bound
    ensures CleanedAt(ops) <= bound
  {
    if ops != [] { CleanedBefore(ops[..|ops| - 1], bound); }
  }

  /** In every reachable state the store is the fresh end of the history of records. */
  lemma {:induction false} StoreIsKept(ops: seq<Op>)
    requires Steady(ops)
    ensures Run(ops) == Kept(LogOf(ops), CleanedAt(ops))
    ensures Unique(Run(ops)) && |Run(ops)| <= 10000
  {
    if ops != [] {
      var n := |ops| - 1;
      assert ops == ops[..n] + [ops[n]];
      StoreIsKept(ops[..n]);
      StepKept(ops[..n], ops[n], Run(ops[..n]));
    }
    KeptUnique(LogOf(ops), CleanedAt(ops));
  }

  lemma KeptUnique(log: Entries, at: nat)
    ensures Unique(Kept(log, at)) && |Kept(log, at)| <= MAX_BATCH_CONTEXTS
  {
    LastUsesUnique(log);
    FreshUnique(LastUses(log), at);
    TailUnique(Fresh(LastUses(log), at), MAX_BATCH_CONTEXTS);
  }

  lemma LogSettled(init: seq<Op>, op: Op)
    requires Steady(init + [op])
    ensures Ascend(LastUses(LogOf(init))) && CleanedAt(init) <= op.time
  {
    var all := init + [op];
    forall i, j | 0 <= i <= j < |init| ensures init[i].time <= init[j].time <= op.time {
      assert all[i] == init[i] && all[j] == init[j] && all[|init|] == op;
    }
    CleanedBefore(init, op.time);
    LogAscends(init, op.time);
    LastUsesAscend(LogOf(init), op.time + BATCH_CONTEXT_TTL);
  }

  lemma LogGrows(init: seq<Op>, op: Op)
    ensures LogOf(init + [op]) == LogOf(init)
              + if op.Record? && op.params != map[] then [Item(op.id, Context(op.params, op.time + BATCH_CONTEXT_TTL))]
                else []
    ensures CleanedAt(init + [op]) == if op.Record? && op.params == map[] then CleanedAt(init) else op.time
  {
    assert (init + [op])[..|init + [op]| - 1] == init;
  }

  /** One operation carries the claim on. */
  lemma StepKept(init: seq<Op>, op: Op, entries: Entries)
    requires Steady(init + [op]) && entries == Kept(LogOf(init), CleanedAt(init))
    ensures Perform(entries, op) == Kept(LogOf(init + [op]), CleanedAt(init + [op]))
  {
    LogSettled(init, op);
    LogGrows(init, op);
    var log := LogOf(init);
    assert log + [] == log;
    PerformKept(log, CleanedAt(init), op);
  }

  lemma PerformKept(log: Entries, at: nat, op: Op)
    requires Ascend(LastUses(log)) && at <= op.time
    ensures Perform(Kept(log, at), op)
            == if op.Lookup? then Kept(log, op.time)
               else if op.params == map[] then Kept(log, at)
               else Kept(log + [Item(op.id, Context(op.params, op.time + BATCH_CONTEXT_TTL))], op.time)
  {
    hide Kept;
    match op
    case Lookup(_, time) => FreshKept(log, at, time);
    case Record(id, params, time) =>
      if params != map[] { RecordKept(log, at, Item(id, Context(params, time + BATCH_CONTEXT_TTL)), time); }
  }

  lemma UniqueTail(s: Entries)
    requires s != [] && Unique(s)
    ensures Unique(s[1..]) && Position(s[1..], s[0].key).None?
  {
    assert forall i :: 0 <= i < |s| - 1 ==> s[1..][i] == s[i + 1];
  }

  /** One entry in front, fresh or not. */
  lemma FrontPlace(s: Entries, rest: Entries, id: string)
    requires s != []
    ensures var p, q := Position([s[0]] + rest, id), Position(rest, id);
            p == if s[0].key == id then Some(0) else if q.Some? then Some(q.value + 1) else None
  {
    assert ([s[0]] + rest)[1..] == rest;
  }

  lemma {:induction false} FreshPlace(s: Entries, id: string, now: nat)
    requires Unique(s)
    ensures var p, q := Position(s, id), Position(Fresh(s, now), id);
            && (q.Some? <==> p.Some? && s[p.value].value.expires > now)
            && (q.Some? ==> Fresh(s, now)[q.value] == s[p.value])
  {
    if s != [] {
      hide Unique, Position;
      UniqueTail(s);
      FreshPlace(s[1..], id, now);
      assert s == [s[0]] + s[1..];
      FrontPlace(s, s[1..], id);
      FrontPlace(s, Fresh(s[1..], now), id);
    }
  }

  lemma LookupLogged(ops: seq<Op>, id: string, now: nat)
    requires Steady(ops) && forall i :: 0 <= i < |ops| ==> ops[i].time <= now
    ensures var log := LogOf(ops);
            Found(Fresh(Run(ops), now), id)
            == if Recent(log, id, MAX_BATCH_CONTEXTS) && log[LastUse(log, id).value].value.expires > now
               then Some(log[LastUse(log, id).value].value.params) else None
  {
    var log := LogOf(ops);
    StoreFresh(ops, now);
    BoundedIsTail(log, MAX_BATCH_CONTEXTS);
    FoundFresh(Bounded(log, MAX_BATCH_CONTEXTS), id, now);
    ListedExactly(log, id, MAX_BATCH_CONTEXTS);
  }

  lemma FoundFresh(s: Entries, id: string, now: nat)
    requires Unique(s)
    ensures var p := Position(s, id);
            Found(Fresh(s, now), id) ==
              if p.Some? && s[p.value].value.expires > now then Some(s[p.value].value.params) else None
  {
    FreshPlace(s, id, now);
  }

  lemma StoreFresh(ops: seq<Op>, now: nat)
    requires Steady(ops) && forall i :: 0 <= i < |ops| ==> ops[i].time <= now
    ensures Fresh(Run(ops), now) == Fresh(Bounded(LogOf(ops), MAX_BATCH_CONTEXTS), now)
  {
    var log := LogOf(ops);
    StoreIsKept(ops);
    LogAscends(ops, now);
    LastUsesAscend(log, now + BATCH_CONTEXT_TTL);
    CleanedBefore(ops, now);
    FreshKept(log, CleanedAt(ops), now);
    FreshTail(LastUses(log), now, MAX_BATCH_CONTEXTS);
    BoundedIsTail(log, MAX_BATCH_CONTEXTS);
  }

  // ----- lookups against the history -----

  predicate Records(op: Op) { op.Record? && op.params != map[] }

  /** The last time contexts were recorded for the batch. */
  predicate LastRecord(ops: seq<Op>, id: string, i: nat) {
    && i < |ops| && Records(ops[i]) && ops[i].id == id
    && forall j :: i < j < |ops| && Records(ops[j]) ==> ops[j].id != id
  }

  /** The batches recorded from operation `i` on. */
  function RecordedFrom(ops: seq<Op>, i: nat): set<string> { set j | i <= j < |ops| && Records(ops[j]) :: ops[j].id }

  lemma RecordedSnoc(ops: seq<Op>, op: Op, i: nat)
    requires i <= |ops|
    ensures RecordedFrom(ops + [op], i) == RecordedFrom(ops, i) + if Records(op) then {op.id} else {}
  {
    var all := ops + [op];
    assert all[|ops|] == op && forall j :: 0 <= j < |ops| ==> all[j] == ops[j];
    forall id | id in RecordedFrom(ops, i) ensures id in RecordedFrom(all, i) {
      var j :| i <= j < |ops| && Records(ops[j]) && ops[j].id == id;
      assert all[j] == ops[j];
    }
    if Records(op) { assert Records(all[|ops|]); }
  }

  lemma KeysSnoc(log: Entries, item: Item<string, Context>)
    ensures KeysOf(log + [item]) == KeysOf(log) + {item.key}
  {
    var all := log + [item];
    assert all[|log|] == item && forall k :: 0 <= k < |log| ==> all[k] == log[k];
    forall id | id in KeysOf(log) ensures id in KeysOf(all) {
      var k :| 0 <= k < |log| && log[k].key == id;
      assert all[k].key == id;
    }
  }

  /** The log shows this record at the last use of the batch, and these batches behind it. */
  predicate Shows(log: Entries, id: string, op: Op, behind: set<string>)
    requires op.Record?
  {
    var k := LastUse(log, id);
    && k.Some? && log[k.value].value == Context(op.params, op.time + BATCH_CONTEXT_TTL)
    && KeysOf(log[k.value + 1..]) == behind
  }

  lemma ShowsNew(log: Entries, op: Op)
    requires op.Record?
    ensures Shows(log + [Item(op.id, Context(op.params, op.time + BATCH_CONTEXT_TTL))], op.id, op, {})
  {
    var all := log + [Item(op.id, Context(op.params, op.time + BATCH_CONTEXT_TTL))];
    assert all[|log| + 1..] == [];
  }

  lemma ShowsStill(log: Entries, id: string, op: Op, behind: set<string>, item: Item<string, Context>)
    requires op.Record? && Shows(log, id, op, behind) && item.key != id
    ensures Shows(log + [item], id, op, behind + {item.key})
  {
    var all, k := log + [item], LastUse(log, id).value;
    assert all[..|all| - 1] == log && all[k] == log[k] && all[k + 1..] == log[k + 1..] + [item];
    KeysSnoc(log[k + 1..], item);
  }

  /** The log has the last record of a batch at its last use, and the same batches behind it. */
  lemma {:induction false} LogShows(ops: seq<Op>, id: string, i: nat)
    requires LastRecord(ops, id, i)
    ensures Shows(LogOf(ops), id, ops[i], RecordedFrom(ops, i + 1))
    decreases |ops|
  {
    hide Shows;
    var n := |ops| - 1;
    var init, op := ops[..n], ops[n];
    assert ops == init + [op];
    if i == n {
      ShowsNew(LogOf(init), op);
      assert RecordedFrom(ops, i + 1) == {};
    } else {
      assert init[i] == ops[i] && forall j :: 0 <= j < n ==> init[j] == ops[j];
      LogShows(init, id, i);
      RecordedSnoc(init, op, i + 1);
      if Records(op) {
        ShowsStill(LogOf(init), id, ops[i], RecordedFrom(init, i + 1),
                   Item(op.id, Context(op.params, op.time + BATCH_CONTEXT_TTL)));
      } else {
        assert RecordedFrom(ops, i + 1) == RecordedFrom(init, i + 1) && LogOf(init) + [] == LogOf(init);
      }
    }
  }

  lemma {:induction false} LogLacks(ops: seq<Op>, id: string)
    requires forall i: nat :: !LastRecord(ops, id, i)
    ensures LastUse(LogOf(ops), id).None?
    decreases |ops|
  {
    if ops != [] {
      var n := |ops| - 1;
      var init, op := ops[..n], ops[n];
      if Records(op) && op.id == id { assert LastRecord(ops, id, n); }
      forall i: nat ensures !LastRecord(init, id, i) {
        if LastRecord(init, id, i) {
          assert forall j :: 0 <= j < n ==> init[j] == ops[j];
          assert LastRecord(ops, id, i);
        }
      }
      LogLacks(init, id);
      if Records(op) {
        var item := Item(op.id, Context(op.params, op.time + BATCH_CONTEXT_TTL));
        assert (LogOf(init) + [item])[..|LogOf(init)|] == LogOf(init);
      }
    }
  }

  /**
   * Under a clock that never runs back a lookup returns the contexts last recorded for the
   * batch exactly when that was less than a day ago and at most 9999 other batches have been
   * recorded since; otherwise it returns nothing.
   */
  lemma LookupExactly(ops: seq<Op>, id: string, now: nat, x: map<string, Val>)
    requires Steady(ops) && forall i :: 0 <= i < |ops| ==> ops[i].time <= now
    ensures Found(Fresh(Run(ops), now), id) == Some(x) <==> exists i: nat ::
              && LastRecord(ops, id, i) && ops[i].params == x
              && now < ops[i].time + 24 * 60 * 60 && |RecordedFrom(ops, i + 1)| <= 9999
  {
    hide Found, Fresh, Run, LogOf, LastUse, RecordedFrom;
    LookupLogged(ops, id, now);
    if i: nat :| LastRecord(ops, id, i) {
      LogShows(ops, id, i);
      forall j: nat | LastRecord(ops, id, j) ensures j == i {}
    } else {
      LogLacks(ops, id);
    }
  }
}
