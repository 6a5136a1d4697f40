/** The frozen floor of a session: how many messages the provider has confirmed as cached. */
module PrefixTracker {
  import opened Prelude
  import opened Json
  import opened Values
  import opened LiveZone

  const MIN_CACHED_TOKENS := 1024
  const SESSION_TTL := 600
  const CLEANUP_INTERVAL := 60

  // ----- the floor -----

  /** Saturating sum of the first `k` estimates. */
  function PrefixSum(estimates: seq<nat>, k: nat): nat
    requires k <= |estimates|
  {
    if k == 0 then 0 else SaturatingAdd(PrefixSum(estimates, k - 1), estimates[k - 1])
  }

  /** The walk of the source, from message `i` on: stop at the first that does not fit. */
  function Walk(estimates: seq<nat>, total: nat, i: nat): nat
    requires i <= |estimates|
    decreases |estimates| - i
  {
    if i == |estimates| || PrefixSum(estimates, i + 1) > total then i else Walk(estimates, total, i + 1)
  }

  /** Messages covered by `total` cached tokens. */
  function Floor(estimates: seq<nat>, total: nat): nat { if total == 0 then 0 else Walk(estimates, total, 0) }

  method CountFrozen(estimates: seq<nat>, total: nat) returns (frozen: nat)
    requires total > 0
    ensures frozen == Floor(estimates, total)
  {
    var accumulated := 0;
    frozen := 0;
    for i := 0 to |estimates|
      invariant frozen == i && accumulated == PrefixSum(estimates, i)
      invariant Walk(estimates, total, i) == Floor(estimates, total)
    {
      accumulated := SaturatingAdd(accumulated, estimates[i]);
      if accumulated > total { break; }
      frozen := i + 1;
    }
  }

  lemma {:induction false} SumsGrow(estimates: seq<nat>, i: nat, j: nat)
    requires i <= j <= |estimates|
    ensures PrefixSum(estimates, i) <= PrefixSum(estimates, j) < U64_SIZE
    decreases j
  {
    if i < j { SumsGrow(estimates, i, j - 1); } else if j > 0 { SumsGrow(estimates, j - 1, j - 1); }
  }

  lemma {:induction false} WalkExact(estimates: seq<nat>, total: nat, i: nat)
    requires i <= |estimates| && PrefixSum(estimates, i) <= total
    ensures var k := Walk(estimates, total, i);
            && i <= k <= |estimates| && PrefixSum(estimates, k) <= total
            && forall j :: k < j <= |estimates| ==> PrefixSum(estimates, j) > total
    decreases |estimates| - i
  {
    if i < |estimates| {
      if PrefixSum(estimates, i + 1) > total {
        forall j | i < j <= |estimates| ensures PrefixSum(estimates, j) > total { SumsGrow(estimates, i + 1, j); }
      } else {
        WalkExact(estimates, total, i + 1);
      }
    }
  }

  /** The floor is the greatest number of leading messages whose estimates fit the cached tokens. */
  lemma FloorExact(estimates: seq<nat>, total: nat)
    requires total > 0
    ensures var k := Floor(estimates, total);
            && k <= |estimates| && PrefixSum(estimates, k) <= total
            && forall j :: k < j <= |estimates| ==> PrefixSum(estimates, j) > total
  {
    WalkExact(estimates, total, 0);
  }

  /** More cached tokens never freeze fewer messages. */
  lemma FloorMonotone(estimates: seq<nat>, a: nat, b: nat)
    requires a <= b
    ensures Floor(estimates, a) <= Floor(estimates, b)
  {
    if a > 0 {
      FloorExact(estimates, a);
      FloorExact(estimates, b);
    }
  }

  // ----- the tracker -----

  datatype PrefixState = PrefixState(cachedTokens: nat, cachedMessages: nat, turns: nat, lastActivity: nat)

  datatype Trackers = Trackers(prefixes: map<string, PrefixState>, lastCleanup: Option<nat>)

  function Cleaned(t: Trackers, now: nat): Trackers {
    if t.lastCleanup.Some? && Minus(now, t.lastCleanup.value) < CLEANUP_INTERVAL then t
    else Trackers(map k | k in t.prefixes &&
      Minus(now, t.prefixes[k].lastActivity) <= SESSION_TTL :: t.prefixes[k], Some(now))
  }

  function FloorOf(s: PrefixState): nat {
    if s.turns == 0 || s.cachedTokens < MIN_CACHED_TOKENS then 0 else s.cachedMessages
  }

  /** The floor for the next request of a session; asking keeps the session alive. */
  function Queried(t: Trackers, key: string, now: nat): (nat, Trackers) {
    var c := Cleaned(t, now);
    if key !in c.prefixes then (0, c)
    else (FloorOf(c.prefixes[key]), c.(prefixes := c.prefixes[key := c.prefixes[key].(lastActivity := now)]))
  }

  function Updated(t: Trackers, key: string, read: nat, written: nat, estimates: seq<nat>, now: nat): Trackers {
    var c := Cleaned(t, now);
    var turns := (if key in c.prefixes then c.prefixes[key].turns else 0) + 1;
    var total := SaturatingAdd(read, written);
    c.(prefixes := c.prefixes[key := PrefixState(total, Floor(estimates, total), turns, now)])
  }

  class SessionTrackers {
    var prefixes: map<string, PrefixState>
    var lastCleanup: Option<nat>

    constructor ()
      ensures State() == Trackers(map[], None)
    {
      prefixes, lastCleanup := map[], None;
    }

    function State(): Trackers
      reads this
    {
      Trackers(prefixes, lastCleanup)
    }

    method MaybeCleanup(now: nat)
      modifies this
      ensures State() == Cleaned(old(State()), now)
    {
      if lastCleanup.Some? && Minus(now, lastCleanup.value) < CLEANUP_INTERVAL { return; }
      prefixes := map k | k in prefixes && Minus(now, prefixes[k].lastActivity) <= SESSION_TTL :: prefixes[k];
      lastCleanup := Some(now);
    }

    method FrozenMessageCount(key: string, now: nat) returns (floor: nat)
      modifies this
      ensures (floor, State()) == Queried(old(State()), key, now)
    {
      MaybeCleanup(now);
      if key !in prefixes { return 0; }
      prefixes := prefixes[key := prefixes[key].(lastActivity := now)];
      if prefixes[key].turns == 0 || prefixes[key].cachedTokens < MIN_CACHED_TOKENS { return 0; }
      floor := prefixes[key].cachedMessages;
    }

    method UpdateFromResponse(key: string, read: nat, written: nat, estimates: seq<nat>, now: nat)
      modifies this
      ensures State() == Updated(old(State()), key, read, written, estimates, now)
    {
      MaybeCleanup(now);
      var turns := 0;
      if key in prefixes { turns := prefixes[key].turns; }
      turns := turns + 1;
      var total := SaturatingAdd(read, written);
      if total == 0 {
        prefixes := prefixes[key := PrefixState(0, 0, turns, now)];
        return;
      }
      var frozen := CountFrozen(estimates, total);
      prefixes := prefixes[key := PrefixState(total, frozen, turns, now)];
    }
  }

  // ----- sessions over time -----

  datatype Op = Query(key: string, time: nat)
              | Update(key: string, read: nat, written: nat, estimates: seq<nat>, time: nat)

  function Perform(t: Trackers, op: Op): Trackers {
    match op
    case Query(key, time) => Queried(t, key, time).1
    case Update(key, read, written, estimates, time) => Updated(t, key, read, written, estimates, time)
  }

  function Run(t: Trackers, ops: seq<Op>): Trackers
    decreases ops
  {
    if ops == [] then t else Run(Perform(t, ops[0]), ops[1..])
  }

  /** Other sessions' operations, on a clock that does not run back, between two times. */
  predicate Others(ops: seq<Op>, key: string, from: nat, to: nat) {
    && (forall i :: 0 <= i < |ops| ==> ops[i].key != key && from <= ops[i].time <= to)
    && forall i, j :: 0 <= i <= j < |ops| ==> ops[i].time <= ops[j].time
  }

  lemma OthersTail(ops: seq<Op>, key: string, from: nat, to: nat)
    requires Others(ops, key, from, to) && ops != []
    ensures Others(ops[1..], key, ops[0].time, to)
  {
    assert forall i :: 0 <= i < |ops| - 1 ==> ops[1..][i] == ops[i + 1];
  }

  lemma {:induction false} StillThere(t: Trackers, ops: seq<Op>, key: string, from: nat, to: nat)
    requires key in t.prefixes && from <= to && to - t.prefixes[key].lastActivity <= SESSION_TTL
    requires Others(ops, key, from, to)
    ensures key in Run(t, ops).prefixes && Run(t, ops).prefixes[key] == t.prefixes[key]
    decreases ops
  {
    if ops != [] {
      OthersTail(ops, key, from, to);
      StillThere(Perform(t, ops[0]), ops[1..], key, ops[0].time, to);
    }
  }

  /** The session is gone, or last seen at `at` and not swept past its time to live. */
  predicate Idle(t: Trackers, key: string, at: nat) {
    key in t.prefixes ==>
      t.prefixes[key].lastActivity == at && (t.lastCleanup.Some? ==> t.lastCleanup.value <= at + SESSION_TTL)
  }

  lemma {:induction false} StaysIdle(t: Trackers, ops: seq<Op>, key: string, at: nat, from: nat, to: nat)
    requires Idle(t, key, at) && at <= from && Others(ops, key, from, to)
    ensures Idle(Run(t, ops), key, at)
    decreases ops
  {
    if ops != [] {
      OthersTail(ops, key, from, to);
      StaysIdle(Perform(t, ops[0]), ops[1..], key, at, ops[0].time, to);
    }
  }

  /**
   * Whatever other sessions do in between, a session asked again within its time to live
   * gets the floor of its last response: the greatest number of messages that fit, or zero
   * below the minimum of confirmed tokens.
   */
  lemma FloorRemembered(t: Trackers, key: string, read: nat, written: nat, estimates: seq<nat>, at: nat, ops: seq<Op>,
                        now: nat)
    requires at <= now <= at + 600 && Others(ops, key, at, now)
    ensures var total := SaturatingAdd(read, written);
            Queried(Run(Updated(t, key, read, written, estimates, at), ops), key, now).0
            == if total < 1024 then 0 else Floor(estimates, total)
  {
    var u := Updated(t, key, read, written, estimates, at);
    StillThere(u, ops, key, at, now);
  }

  /** A session idle for the time to live plus one sweep interval has no floor any more. */
  lemma FloorForgotten(t: Trackers, key: string, read: nat, written: nat, estimates: seq<nat>, at: nat, ops: seq<Op>,
                       now: nat)
    requires at + 660 <= now && Others(ops, key, at, now)
    requires t.lastCleanup.Some? ==> t.lastCleanup.value <= at
    ensures Queried(Run(Updated(t, key, read, written, estimates, at), ops), key, now).0 == 0
  {
    var u := Updated(t, key, read, written, estimates, at);
    StaysIdle(u, ops, key, at, at, now);
  }

  // ----- token estimates -----

  /** Three and a half characters to a token, rounded down, at least one. */
  function TextEstimate(chars: nat): nat { Max(2 * (chars + 20) / 7, 1) }

  function TextLen(v: Option<Val>): nat { if v.Some? && v.value.Txt? then |v.value.text| else 0 }

  function PartChars(parts: seq<Val>): nat {
    if parts == [] then 0 else TextLen(Get(parts[0], "text")) + PartChars(parts[1..])
  }

  function BlockChars(block: Val): nat {
    if !block.Obj? then 0
    else
      var kind := GetText(block, "type");
      if kind == Some("tool_result") then
        var content := Get(block, "content");
        if content.Some? && content.value.Arr? then PartChars(content.value.items) else TextLen(content)
      else if kind == Some("tool_use") then
        var input := Get(block, "input");
        if input.Some? && input.value.Obj? then |Serialize(input.value)| else TextLen(input)
      else TextLen(Get(block, "text"))
  }

  function BlocksChars(blocks: seq<Val>): nat {
    if blocks == [] then 0 else BlockChars(blocks[0]) + BlocksChars(blocks[1..])
  }

  function Estimates(items: seq<Val>, one: Val -> nat): (r: seq<nat>)
    ensures |r| == |items| && forall i :: 0 <= i < |r| ==> r[i] == one(items[i])
  {
    seq(|items|, i requires 0 <= i < |items| => one(items[i]))
  }

  /** The synthesized leading entry of a Responses request, when its instructions are not empty. */
  function InstructionEstimates(body: Val): (r: seq<nat>)
    ensures |r| <= 1
  {
    var x := Get(body, "instructions");
    if x.Some? && x.value.Txt? && x.value.text != "" then [TextEstimate(|x.value.text|)]
    else if x.Some? && x.value.Arr? && x.value.items != [] then [TextEstimate(BlocksChars(x.value.items))]
    else []
  }

  /** One Responses item: its text fields and its content, as text or as parts. */
  function ItemEstimate(item: Val): nat {
    var content := Get(item, "content");
    TextEstimate(
      TextLen(Get(item, "output")) + TextLen(Get(item, "text")) + TextLen(Get(item, "arguments"))
      + if content.Some? && content.value.Arr? then PartChars(content.value.items) else TextLen(content))
  }

  /** The items of a Responses request: `input`, or `messages` when `input` is neither text nor a list. */
  function ResponsesItems(body: Val): Option<seq<Val>> {
    var input := Get(body, "input");
    if input.Some? && input.value.Txt? then None
    else if input.Some? && input.value.Arr? then Some(input.value.items)
    else GetList(body, "messages")
  }

  /** Estimates of a Responses request. */
  function ResponsesEstimates(body: Val): seq<nat> {
    var input, items := Get(body, "input"), ResponsesItems(body);
    InstructionEstimates(body) +
    if items.Some? then Estimates(items.value, ItemEstimate)
    else if input.Some? && input.value.Txt? then [TextEstimate(|input.value.text|)]
    else []
  }

  /** The planner shifts the floor by exactly the synthesized entries of the estimator. */
  lemma PrefixAligned(v: Json, number: string -> string)
    ensures PrefixLen(v) == |InstructionEstimates(Sem(v, number))|
  {
    LookupSem(v, "instructions", number);
  }

  /** One chat or Anthropic message: its content, as text or block by block. */
  function MessageEstimate(m: Val): nat {
    var content := Get(m, "content");
    TextEstimate(if content.Some? && content.value.Arr? then BlocksChars(content.value.items) else TextLen(content))
  }

  /** The messages or items a surface walks. */
  function Walked(shape: Shape, body: Val): Option<seq<Val>> {
    if shape == OpenAiResponses then ResponsesItems(body) else GetList(body, "messages")
  }

  /** Estimates that stand in front of those of the messages or items. */
  function Leading(shape: Shape, body: Val): seq<nat> {
    if shape == OpenAiResponses then InstructionEstimates(body) else []
  }

  /** Estimates of a forwarded request, by the surface it was sent to. */
  function RequestEstimates(shape: Shape, body: Val): seq<nat> {
    if shape == OpenAiResponses then ResponsesEstimates(body)
    else
      var messages := GetList(body, "messages");
      if messages.Some? then Estimates(messages.value, MessageEstimate) else []
  }

  /** The tokens of a request up to and including message or item `i` fit the cached total. */
  predicate Covers(shape: Shape, body: Val, total: nat, i: nat)
    requires Walked(shape, body).Some? && i < |Walked(shape, body).value|
  {
    PrefixSum(RequestEstimates(shape, body), |Leading(shape, body)| + i + 1) <= total
  }

  lemma {:induction false} SumOfPrefix(a: seq<nat>, b: seq<nat>, k: nat)
    requires k <= |a|
    ensures PrefixSum(a + b, k) == PrefixSum(a, k)
  {
    if k > 0 { SumOfPrefix(a, b, k - 1); }
  }

  /** `k` items of a list whose first entries are not items, and the sum of both. */
  lemma ShiftedFloor(prefix: seq<nat>, items: seq<nat>, extra: seq<nat>, total: nat, i: nat)
    requires i < |items| && total > 0
    ensures i < Minus(Floor(prefix + items + extra, total), |prefix|)
            <==> PrefixSum(prefix + items, |prefix| + i + 1) <= total
  {
    var all := prefix + items + extra;
    FloorExact(all, total);
    SumOfPrefix(prefix + items, extra, |prefix| + i + 1);
    var k := Floor(all, total);
    if k >= |prefix| + i + 1 { SumsGrow(all, |prefix| + i + 1, k); }
  }

  /** The planner shifts a floor by the entries in front. */
  lemma LiveShifted(shape: Shape, last: Val, next: Json, number: string -> string, floor: nat, i: nat)
    requires shape != AnthropicBatches && Live(shape, next, floor).Some?
    requires shape == OpenAiResponses ==> Get(last, "instructions") == Get(Sem(next, number), "instructions")
    ensures i < Live(shape, next, floor).value.1
            <==> i < Minus(floor, |Leading(shape, last)|) || (shape == AnthropicMessages && PinnedFrom(next, i))
  {
    hide PrefixLen, PinnedFrom, FrozenCount, Sem, Get, ListField, ItemsField;
    if shape == OpenAiResponses {
      PrefixAligned(next, number);
      SameInstructions(last, Sem(next, number));
    }
    if shape == AnthropicMessages { PinnedFloor(next, floor, i); }
  }

  lemma SameInstructions(a: Val, b: Val)
    requires Get(a, "instructions") == Get(b, "instructions")
    ensures |InstructionEstimates(a)| == |InstructionEstimates(b)|
  {
    hide Get;
  }

  lemma EstimatesParts(shape: Shape, body: Val)
    requires shape != AnthropicBatches && Walked(shape, body).Some?
    ensures exists items: seq<nat> ::
              |items| == |Walked(shape, body).value| && RequestEstimates(shape, body) == Leading(shape, body) + items
  {
    hide MessageEstimate, ItemEstimate, Get;
    var one := if shape == OpenAiResponses then ItemEstimate else MessageEstimate;
    var items := Estimates(Walked(shape, body).value, one);
    assert [] + items == items;
    assert RequestEstimates(shape, body) == Leading(shape, body) + items;
  }

  /**
   * Between two turns (of equal `instructions`, for the Responses surface), message or item `i` is
   * below the planner's floor exactly when the request sent before, up to that message, fits the
   * cached tokens, or, in an Anthropic request, when it or a later message carries a breakpoint.
   * `extra` are the estimates of the answer, which the walk may reach behind the request.
   */
  lemma MessagesAligned(shape: Shape, last: Val, extra: seq<nat>, next: Json, number: string -> string, total: nat,
                        i: nat)
    requires shape != AnthropicBatches && total > 0 && Walked(shape, last).Some? && i < |Walked(shape, last).value|
    requires shape == OpenAiResponses ==> Get(last, "instructions") == Get(Sem(next, number), "instructions")
    requires Live(shape, next, Floor(RequestEstimates(shape, last) + extra, total)).Some?
    ensures i < Live(shape, next, Floor(RequestEstimates(shape, last) + extra, total)).value.1
            <==> Covers(shape, last, total, i) || (shape == AnthropicMessages && PinnedFrom(next, i))
  {
    hide RequestEstimates, Leading, Walked, PrefixSum, Floor, Live, PinnedFrom, Get, Sem;
    EstimatesParts(shape, last);
    var items: seq<nat> :| |items| == |Walked(shape, last).value|
                           && RequestEstimates(shape, last) == Leading(shape, last) + items;
    ShiftedFloor(Leading(shape, last), items, extra, total, i);
    LiveShifted(shape, last, next, number, Floor(RequestEstimates(shape, last) + extra, total), i);
  }
}
