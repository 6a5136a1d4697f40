/** The usage telemetry of a streamed response: counters, and one report per stream. */
module SseTelemetry {
  import opened Prelude
  import opened Values
  import JsonParser
  import LiveZone
  import Utf8
  import Framing = SseFraming

  datatype Kind = ChatStream | ResponsesStream | AnthropicStream

  /** A framed event after decoding: no value for the end sentinel, bad UTF-8 or bad JSON. */
  datatype Arrival = Arrival(name: Option<string>, value: Option<Val>)

  /** The JSON value a text is, numbers as written. */
  function ValueOf(text: string): Option<Val> {
    var d := JsonParser.Parse(text);
    if d.Some? then Some(Sem(d.value.root, token => token)) else None
  }

  function Arrive(e: Framing.Event): Arrival {
    if Framing.IsDone(e) then Arrival(None, None)
    else
      var text := Utf8.Decode(e.data);
      Arrival(if e.name.Some? then Utf8.Decode(e.name.value) else None,
              if text.Some? then ValueOf(text.value) else None)
  }

  // ----- usage -----

  datatype Usage = Usage(input: nat, output: nat, read: nat, creation: nat)

  const NoUsage := Usage(0, 0, 0, 0)

  function Or<T>(a: Option<T>, b: Option<T>): Option<T> { if a.Some? then a else b }

  function Default(a: Option<nat>): nat { if a.Some? then a.value else 0 }

  function Peak(a: Usage, b: Usage): Usage {
    Usage(Max(a.input, b.input), Max(a.output, b.output), Max(a.read, b.read), Max(a.creation, b.creation))
  }

  /** Counters of a usage object; a cached count in the details wins over the flat one. */
  function UsageOf(usage: Val): Usage {
    var details := Or(Get(usage, "prompt_tokens_details"), Get(usage, "input_tokens_details"));
    var cached := if details.Some? then GetU64(details.value, "cached_tokens") else None;
    Usage(Default(Or(GetU64(usage, "prompt_tokens"), GetU64(usage, "input_tokens"))),
          Default(Or(GetU64(usage, "completion_tokens"), GetU64(usage, "output_tokens"))),
          Default(Or(cached, GetU64(usage, "cache_read_input_tokens"))),
          Default(GetU64(usage, "cache_creation_input_tokens")))
  }

  function ObjectOnly(v: Option<Val>): Option<Val> { if v.Some? && v.value.Obj? then v else None }

  function Nested(v: Val, outer: string, inner: string): Option<Val> {
    var o := Get(v, outer);
    if o.Some? then Get(o.value, inner) else None
  }

  // ----- what an event signals -----

  datatype Act =
    | Quiet
    | Counted(usage: Usage)
    | Streamed(chars: nat)
    | Terminal(final: Option<Usage>, status: Option<string>, tier: Option<string>)

  /** What an event does to the counters, and whether it shows a retrieval call. */
  datatype Signal = Signal(retrieval: bool, act: Act)

  function Absorbing(usage: Option<Val>): Option<Usage> {
    if usage.Some? then Some(UsageOf(usage.value)) else None
  }

  function TypeOf(a: Arrival, v: Val): Option<string> { Or(GetText(v, "type"), a.name) }

  function Chars(v: Val, key: string): nat {
    var t := GetText(v, key);
    if t.Some? then |t.value| else 0
  }

  function StatusOf(kind: Option<string>): Option<string> {
    if kind == Some("response.completed") then Some("completed")
    else if kind == Some("response.failed") then Some("failed")
    else if kind == Some("response.incomplete") then Some("incomplete")
    else None
  }

  /** Service tiers outside the known ones are recorded as `other`. */
  function TierLabel(raw: string): string {
    if raw in {"auto", "default", "flex", "on_demand", "priority", "scale"} then raw else "other"
  }

  function TierOf(v: Val): Option<string> {
    var tier := Or(Nested(v, "response", "service_tier"), Get(v, "service_tier"));
    if tier.Some? && tier.value.Txt? then Some(TierLabel(tier.value.text)) else None
  }

  function ActOf(kind: Kind, a: Arrival): Act {
    if a.value.None? then Quiet
    else
      var v := a.value.value;
      match kind
      case ChatStream =>
        var usage := ObjectOnly(Get(v, "usage"));
        if usage.Some? then Terminal(Some(UsageOf(usage.value)), None, None) else Quiet
      case ResponsesStream =>
        var status := StatusOf(TypeOf(a, v));
        if status.Some?
          then Terminal(Absorbing(ObjectOnly(Or(Get(v, "usage"), Nested(v, "response", "usage")))), status, TierOf(v))
        else Quiet
      case AnthropicStream =>
        var t := TypeOf(a, v);
        if t == Some("message_start") then
          var usage := ObjectOnly(Or(Nested(v, "message", "usage"), Get(v, "usage")));
          if usage.Some? then Counted(UsageOf(usage.value)) else Quiet
        else if t == Some("message_delta") then
          var usage := ObjectOnly(Get(v, "usage"));
          if usage.Some? then Counted(UsageOf(usage.value)) else Quiet
        else if t == Some("content_block_delta") then
          var delta := Get(v, "delta");
          if delta.Some?
            then Streamed(Chars(delta.value, "text") + Chars(delta.value, "partial_json")
              + Chars(delta.value, "thinking"))
          else Quiet
        else if t == Some("message_stop") then Terminal(None, None, None)
        else Quiet
  }

  /** A call of the given type with the name of the retrieve tool. */
  predicate Retrieves(call: Option<Val>, kind: string) {
    call.Some? && GetText(call.value, "type") == Some(kind) && LiveZone.RetrieveNamed(GetText(call.value, "name"))
  }

  predicate ChatCall(call: Val) {
    var fn := Get(call, "function");
    fn.Some? && LiveZone.RetrieveNamed(GetText(fn.value, "name"))
  }

  predicate ChoiceRetrieves(choice: Val) {
    var calls := Nested(choice, "delta", "tool_calls");
    calls.Some? && calls.value.Arr? && exists i :: 0 <= i < |calls.value.items| && ChatCall(calls.value.items[i])
  }

  /** The event shows a call of the retrieve tool. */
  predicate Detected(kind: Kind, v: Val) {
    match kind
    case AnthropicStream =>
      GetText(v, "type") == Some("content_block_start") && Retrieves(Get(v, "content_block"), "tool_use")
    case ChatStream =>
      var choices := GetList(v, "choices");
      choices.Some? && exists i :: 0 <= i < |choices.value| && ChoiceRetrieves(choices.value[i])
    case ResponsesStream =>
      GetText(v, "type") == Some("response.output_item.added") && Retrieves(Get(v, "item"), "function_call")
  }

  function SignalOf(kind: Kind, a: Arrival): Signal {
    Signal(a.value.Some? && Detected(kind, a.value.value), ActOf(kind, a))
  }

  // ----- the report -----

  /** What a stream reports: counters, write volume, hit-rate sample, estimates for the tracker. */
  datatype Report = Report(usage: Usage, written: nat, rate: Option<(nat, nat)>, estimates: Option<seq<nat>>)

  /** An explicit creation counter wins; OpenAI otherwise infers the uncached input. */
  function WrittenTokens(kind: Kind, u: Usage): nat {
    if kind == AnthropicStream || u.creation > 0 then u.creation else Minus(u.input, u.read)
  }

  function RateOf(kind: Kind, u: Usage): Option<(nat, nat)> {
    var d := if kind == AnthropicStream then SaturatingAdd(SaturatingAdd(u.input, u.read), u.creation) else u.input;
    if d > 0 && u.read <= d then Some((u.read, d)) else None
  }

  /** The streamed assistant message, in tokens: three and a half characters each. */
  function AssistantEstimate(chars: nat): nat { Max(2 * (chars + 20) / 7, 1) }

  function WalkedEstimates(kind: Kind, estimates: Option<seq<nat>>, chars: nat): Option<seq<nat>> {
    if estimates.None? then None
    else if kind == AnthropicStream && chars > 0 then Some(estimates.value + [AssistantEstimate(chars)])
    else estimates
  }

  function ReportOf(kind: Kind, estimates: Option<seq<nat>>, u: Usage, chars: nat): seq<Report> {
    if u == NoUsage then []
    else [Report(u, WrittenTokens(kind, u), RateOf(kind, u), WalkedEstimates(kind, estimates, chars))]
  }

  // ----- the state machine -----

  datatype Telemetry = Telemetry(usage: Usage, emitted: bool, status: Option<string>, chars: nat, reports: seq<Report>,
                                 tiers: seq<string>, retrievals: nat)

  const Fresh := Telemetry(NoUsage, false, None, 0, [], [], 0)

  function Absorb(t: Telemetry, u: Usage): Telemetry { t.(usage := Peak(t.usage, u)) }

  function Emit(kind: Kind, estimates: Option<seq<nat>>, t: Telemetry): Telemetry {
    if t.emitted then t
    else t.(emitted := true, reports := t.reports + ReportOf(kind, estimates, t.usage, t.chars))
  }

  function Ticked(t: Telemetry, retrieval: bool): Telemetry {
    t.(retrievals := t.retrievals + if retrieval then 1 else 0)
  }

  function Acted(kind: Kind, estimates: Option<seq<nat>>, t: Telemetry, act: Act): Telemetry {
    match act
    case Quiet => t
    case Counted(u) => Absorb(t, u)
    case Streamed(n) => t.(chars := t.chars + n)
    case Terminal(final, status, tier) =>
      var marked := if status.Some? then t.(status := status) else t;
      var counted := if final.Some? then Absorb(marked, final.value) else marked;
      Emit(kind, estimates, if tier.Some? then counted.(tiers := counted.tiers + [tier.value]) else counted)
  }

  function After(kind: Kind, estimates: Option<seq<nat>>, t: Telemetry, s: Signal): Telemetry {
    Acted(kind, estimates, Ticked(t, s.retrieval), s.act)
  }

  function AfterAll(kind: Kind, estimates: Option<seq<nat>>, t: Telemetry, signals: seq<Signal>): Telemetry {
    if signals == [] then t
    else After(kind, estimates, AfterAll(kind, estimates, t, signals[..|signals| - 1]), signals[|signals| - 1])
  }

  lemma SilentArrival(kind: Kind, estimates: Option<seq<nat>>, t: Telemetry, a: Arrival)
    requires a.value.None?
    ensures After(kind, estimates, t, SignalOf(kind, a)) == t
  {
  }

  class SseStreamState {
    const kind: Kind
    const estimates: Option<seq<nat>>
    var inputTokens: nat
    var outputTokens: nat
    var cacheRead: nat
    var cacheCreation: nat
    var emitted: bool
    var status: Option<string>
    var assistantChars: nat
    var reports: seq<Report>
    var tiers: seq<string>
    var retrievals: nat

    constructor (kind: Kind, estimates: Option<seq<nat>>)
      ensures State() == Fresh && this.kind == kind && this.estimates == estimates
    {
      this.kind, this.estimates := kind, estimates;
      inputTokens, outputTokens, cacheRead, cacheCreation := 0, 0, 0, 0;
      emitted, status, assistantChars, reports, tiers, retrievals := false, None, 0, [], [], 0;
    }

    function State(): Telemetry
      reads this
    {
      Telemetry(Usage(inputTokens, outputTokens, cacheRead, cacheCreation), emitted, status, assistantChars, reports,
                tiers, retrievals)
    }

    method AbsorbUsage(usage: Val)
      modifies this
      ensures State() == Absorb(old(State()), UsageOf(usage))
    {
      var input := Default(Or(GetU64(usage, "prompt_tokens"), GetU64(usage, "input_tokens")));
      var output := Default(Or(GetU64(usage, "completion_tokens"), GetU64(usage, "output_tokens")));
      var details := Or(Get(usage, "prompt_tokens_details"), Get(usage, "input_tokens_details"));
      var cached := if details.Some? then GetU64(details.value, "cached_tokens") else None;
      var read := Default(Or(cached, GetU64(usage, "cache_read_input_tokens")));
      var creation := Default(GetU64(usage, "cache_creation_input_tokens"));
      inputTokens, outputTokens := Max(inputTokens, input), Max(outputTokens, output);
      cacheRead, cacheCreation := Max(cacheRead, read), Max(cacheCreation, creation);
    }

    method EmitFinal()
      modifies this
      ensures State() == Emit(kind, estimates, old(State()))
    {
      if emitted { return; }
      emitted := true;
      if inputTokens == 0 && outputTokens == 0 && cacheRead == 0 && cacheCreation == 0 {
        assert reports + [] == reports;
        return;
      }
      var written := cacheCreation;
      if kind != AnthropicStream && cacheCreation == 0 { written := Minus(inputTokens, cacheRead); }
      var denominator := inputTokens;
      if kind == AnthropicStream { denominator := SaturatingAdd(SaturatingAdd(inputTokens, cacheRead), cacheCreation); }
      var rate: Option<(nat, nat)> := None;
      if denominator > 0 && cacheRead <= denominator { rate := Some((cacheRead, denominator)); }
      var walked := estimates;
      if estimates.Some? && kind == AnthropicStream && assistantChars > 0 {
        walked := Some(estimates.value + [AssistantEstimate(assistantChars)]);
      }
      reports := reports + [Report(Usage(inputTokens, outputTokens, cacheRead, cacheCreation), written, rate, walked)];
    }

    method Apply(a: Arrival)
      modifies this
      ensures State() == After(kind, estimates, old(State()), SignalOf(kind, a))
    {
      hide Detected, Acted;
      if a.value.None? {
        SilentArrival(kind, estimates, State(), a);
        return;
      }
      if Detected(kind, a.value.value) { retrievals := retrievals + 1; }
      match kind
      case ChatStream => ApplyChat(a, a.value.value);
      case ResponsesStream => ApplyResponses(a, a.value.value);
      case AnthropicStream => ApplyAnthropic(a, a.value.value);
    }

    method ApplyChat(a: Arrival, v: Val)
      requires kind == ChatStream && a.value == Some(v)
      modifies this
      ensures State() == Acted(kind, estimates, old(State()), ActOf(kind, a))
    {
      hide UsageOf, Emit;
      var usage := ObjectOnly(Get(v, "usage"));
      if usage.Some? {
        AbsorbUsage(usage.value);
        EmitFinal();
      }
    }

    method ApplyResponses(a: Arrival, v: Val)
      requires kind == ResponsesStream && a.value == Some(v)
      modifies this
      ensures State() == Acted(kind, estimates, old(State()), ActOf(kind, a))
    {
      hide UsageOf, Emit, TierOf;
      var last := StatusOf(TypeOf(a, v));
      if last.Some? {
        status := last;
        var usage := ObjectOnly(Or(Get(v, "usage"), Nested(v, "response", "usage")));
        if usage.Some? { AbsorbUsage(usage.value); }
        var tier := TierOf(v);
        if tier.Some? { tiers := tiers + [tier.value]; }
        EmitFinal();
      }
    }

    method ApplyAnthropic(a: Arrival, v: Val)
      requires kind == AnthropicStream && a.value == Some(v)
      modifies this
      ensures State() == Acted(kind, estimates, old(State()), ActOf(kind, a))
    {
      var t := TypeOf(a, v);
      if t == Some("message_start") {
        var usage := ObjectOnly(Or(Nested(v, "message", "usage"), Get(v, "usage")));
        if usage.Some? { AbsorbUsage(usage.value); }
      } else if t == Some("message_delta") {
        var usage := ObjectOnly(Get(v, "usage"));
        if usage.Some? { AbsorbUsage(usage.value); }
      } else if t == Some("content_block_delta") {
        var delta := Get(v, "delta");
        if delta.Some? {
          var before := assistantChars;
          var fields := ["text", "partial_json", "thinking"];
          assistantChars := assistantChars + Chars(delta.value, fields[0]);
          assistantChars := assistantChars + Chars(delta.value, fields[1]);
          assistantChars := assistantChars + Chars(delta.value, fields[2]);
        }
      } else if t == Some("message_stop") {
        EmitFinal();
      }
    }

    /** The status recorded when the stream ends. */
    method Finish() returns (r: Option<string>)
      ensures r == if kind == ResponsesStream then State().status else None
    {
      r := if kind == ResponsesStream then status else None;
    }
  }

  function Signals(kind: Kind, events: seq<Framing.Event>): (s: seq<Signal>)
    ensures |s| == |events|
  {
    seq(|events|, i requires 0 <= i < |events| => SignalOf(kind, Arrive(events[i])))
  }

  lemma NoSignals(kind: Kind, estimates: Option<seq<nat>>)
    ensures AfterAll(kind, estimates, Fresh, Signals(kind, [])) == Fresh
  {
  }

  lemma AfterOne(kind: Kind, estimates: Option<seq<nat>>, t: Telemetry, seen: seq<Framing.Event>, e: Framing.Event)
    ensures AfterAll(kind, estimates, t, Signals(kind, seen + [e]))
            == After(kind, estimates, AfterAll(kind, estimates, t, Signals(kind, seen)),
              SignalOf(kind, Arrive(e)))
  {
    var all := Signals(kind, seen + [e]);
    assert all[..|all| - 1] == Signals(kind, seen);
  }

  /** The telemetry task: push each chunk, apply each event it completes. */
  method RunSseStateMachine(kind: Kind, chunks: seq<Framing.Bytes>, estimates: Option<seq<nat>>)
    returns (reports: seq<Report>, status: Option<string>, tiers: seq<string>, retrievals: nat)
    ensures var signals := Signals(kind, Framing.Drain(Framing.Concat(chunks)).0);
            var t := AfterAll(kind, estimates, Fresh, signals);
            && reports == Reported(kind, estimates, signals)
            && status == (if kind == ResponsesStream then t.status else None)
            && tiers == t.tiers && retrievals == t.retrievals
  {
    hide UsageOf, Reported, SignalOf, After, AfterAll, Framing.Drain, Framing.AllEvents, Framing.Terminator;
    var framer := new Framing.SseFramer();
    var state := new SseStreamState(kind, estimates);
    ghost var seen: seq<Framing.Event> := [];
    ghost var all := Framing.Drain(Framing.Concat(chunks));
    Framing.NoneSeen(chunks);
    NoSignals(kind, estimates);
    for i := 0 to |chunks|
      invariant framer != state as object && state.kind == kind && state.estimates == estimates
      invariant fresh(framer) && fresh(state)
      invariant Framing.Terminator(framer.buf, 0).None?
      invariant Framing.AllEvents(seen, framer.buf + Framing.Concat(chunks[i..])) == all
      invariant state.State() == AfterAll(kind, estimates, Fresh, Signals(kind, seen))
    {
      Framing.FeedStep(seen, framer.buf, chunks, i);
      framer.Push(chunks[i]);
      seen := ApplyEvents(framer, state, seen);
    }
    Framing.AllSeen(seen, framer.buf, chunks);
    ReportedOnce(kind, estimates, Signals(kind, all.0));
    reports, tiers, retrievals := state.reports, state.tiers, state.retrievals;
    status := state.Finish();
  }

  method ApplyEvents(framer: Framing.SseFramer, state: SseStreamState, ghost seen: seq<Framing.Event>)
    returns (ghost now: seq<Framing.Event>)
    requires framer != state as object
    requires state.State() == AfterAll(state.kind, state.estimates, Fresh, Signals(state.kind, seen))
    modifies framer, state
    ensures var (more, rest) := Framing.Drain(old(framer.buf)); now == seen + more && framer.buf == rest
    ensures Framing.Terminator(framer.buf, 0).None?
    ensures state.State() == AfterAll(state.kind, state.estimates, Fresh, Signals(state.kind, now))
  {
    ghost var all := Framing.AllEvents(seen, framer.buf);
    Framing.DrainSettles(framer.buf);
    now := seen;
    var more := true;
    while more
      invariant if more then Framing.AllEvents(now, framer.buf) == all else (now, framer.buf) == all
      invariant state.State() == AfterAll(state.kind, state.estimates, Fresh, Signals(state.kind, now))
      decreases more, |framer.buf|
    {
      ghost var before := framer.buf;
      var next := framer.NextEvent();
      Framing.NextStep(now, before, next, framer.buf);
      if next.Some? {
        AfterOne(state.kind, state.estimates, Fresh, now, next.value);
        state.Apply(Arrive(next.value));
        now := now + [next.value];
      } else {
        more := false;
      }
    }
  }

  // ----- one report per stream, fixed by the events up to the first terminal one -----

  predicate NoTerminal(signals: seq<Signal>) { forall i :: 0 <= i < |signals| ==> !signals[i].act.Terminal? }

  /** Index of the first terminal event. */
  function FirstTerminal(signals: seq<Signal>): (r: Option<nat>)
    ensures r.None? ==> NoTerminal(signals)
    ensures r.Some? ==> r.value < |signals| && signals[r.value].act.Terminal? && NoTerminal(signals[..r.value])
    ensures r.Some? ==> forall i :: 0 <= i < r.value ==> !signals[i].act.Terminal?
  {
    if signals == [] then None
    else
      var init := FirstTerminal(signals[..|signals| - 1]);
      if init.Some? then
        assert signals[..|signals| - 1][..init.value] == signals[..init.value];
        init
      else if signals[|signals| - 1].act.Terminal? then Some(|signals| - 1)
      else None
  }

  function PeakOf(signals: seq<Signal>): Usage {
    if signals == [] then NoUsage
    else
      var s := signals[|signals| - 1].act;
      var before := PeakOf(signals[..|signals| - 1]);
      if s.Counted? then Peak(before, s.usage) else before
  }

  function CharsOf(signals: seq<Signal>): nat {
    if signals == [] then 0
    else CharsOf(signals[..|signals| - 1]) + (var s := signals[|signals| - 1].act; if s.Streamed? then s.chars else 0)
  }

  lemma {:induction false} BeforeTerminal(kind: Kind, estimates: Option<seq<nat>>, signals: seq<Signal>)
    requires NoTerminal(signals)
    ensures var t := AfterAll(kind, estimates, Fresh, signals);
            t.usage == PeakOf(signals) && !t.emitted && t.chars == CharsOf(signals) && t.reports == []
  {
    if signals != [] { BeforeTerminal(kind, estimates, signals[..|signals| - 1]); }
  }

  lemma {:induction false} EmittedStays(kind: Kind, estimates: Option<seq<nat>>, t: Telemetry, signals: seq<Signal>)
    requires t.emitted
    ensures var u := AfterAll(kind, estimates, t, signals); u.emitted && u.reports == t.reports
  {
    if signals != [] { EmittedStays(kind, estimates, t, signals[..|signals| - 1]); }
  }

  lemma {:induction false} AfterConcat(kind: Kind, estimates: Option<seq<nat>>, t: Telemetry, a: seq<Signal>,
                                       b: seq<Signal>)
    ensures AfterAll(kind, estimates, t, a + b) == AfterAll(kind, estimates, AfterAll(kind, estimates, t, a), b)
  {
    if b == [] {
      assert a + b == a;
    } else {
      assert (a + b)[..|a + b| - 1] == a + b[..|b| - 1];
      AfterConcat(kind, estimates, t, a, b[..|b| - 1]);
    }
  }

  function FinalUsage(before: seq<Signal>, last: Act): Usage {
    if last.Terminal? && last.final.Some? then Peak(PeakOf(before), last.final.value) else PeakOf(before)
  }

  /** What a stream with these events reports. */
  function Reported(kind: Kind, estimates: Option<seq<nat>>, signals: seq<Signal>): seq<Report> {
    var k := FirstTerminal(signals);
    if k.None? then []
    else
      var before := signals[..k.value];
      ReportOf(kind, estimates, FinalUsage(before, signals[k.value].act), CharsOf(before))
  }

  lemma AtTerminal(kind: Kind, estimates: Option<seq<nat>>, before: seq<Signal>, last: Signal)
    requires NoTerminal(before) && last.act.Terminal?
    ensures var t := AfterAll(kind, estimates, Fresh, before + [last]);
            t.emitted && t.reports == ReportOf(kind, estimates, FinalUsage(before, last.act), CharsOf(before))
  {
    BeforeTerminal(kind, estimates, before);
    assert (before + [last])[..|before + [last]| - 1] == before;
    var r := ReportOf(kind, estimates, FinalUsage(before, last.act), CharsOf(before));
    assert [] + r == r;
  }

  /**
   * A stream without a terminal event reports nothing. Otherwise, whatever follows the first one,
   * it reports exactly the peak of the usages up to and including that event (nothing if all are
   * zero), and never again.
   */
  lemma ReportedOnce(kind: Kind, estimates: Option<seq<nat>>, signals: seq<Signal>)
    ensures AfterAll(kind, estimates, Fresh, signals).reports == Reported(kind, estimates, signals)
    ensures |AfterAll(kind, estimates, Fresh, signals).reports| <= 1
  {
    var k := FirstTerminal(signals);
    if k.None? {
      BeforeTerminal(kind, estimates, signals);
    } else {
      var before, last, after := signals[..k.value], signals[k.value], signals[k.value + 1..];
      assert signals == before + [last] + after;
      AfterConcat(kind, estimates, Fresh, before + [last], after);
      AtTerminal(kind, estimates, before, last);
      EmittedStays(kind, estimates, AfterAll(kind, estimates, Fresh, before + [last]), after);
    }
  }

  lemma FirstOf(before: seq<Signal>, last: Signal, after: seq<Signal>)
    requires NoTerminal(before) && last.act.Terminal?
    ensures var all := before + [last] + after;
            FirstTerminal(all) == Some(|before|) && all[..|before|] == before && all[|before|] == last
  {
    var all := before + [last] + after;
    assert all[|before|] == last;
    assert forall i :: 0 <= i < |before| ==> all[i] == before[i];
  }

  predicate AtLeast(a: Usage, b: Usage) {
    a.input >= b.input && a.output >= b.output && a.read >= b.read && a.creation >= b.creation
  }

  lemma {:induction false} PeakBounds(signals: seq<Signal>, i: nat)
    requires i < |signals| && signals[i].act.Counted?
    ensures AtLeast(PeakOf(signals), signals[i].act.usage)
  {
    if i < |signals| - 1 { PeakBounds(signals[..|signals| - 1], i); }
  }

  /** The peak is the least bound of the counted usages. */
  lemma {:induction false} PeakLeast(signals: seq<Signal>, bound: Usage)
    requires forall i :: 0 <= i < |signals| && signals[i].act.Counted? ==> AtLeast(bound, signals[i].act.usage)
    ensures AtLeast(bound, PeakOf(signals))
  {
    if signals != [] { PeakLeast(signals[..|signals| - 1], bound); }
  }

  lemma PeakOrder(a: seq<Signal>, b: seq<Signal>)
    requires multiset(a) == multiset(b)
    ensures AtLeast(PeakOf(b), PeakOf(a))
  {
    forall i | 0 <= i < |a| && a[i].act.Counted? ensures AtLeast(PeakOf(b), a[i].act.usage) {
      assert a[i] in multiset(b);
      var j :| 0 <= j < |b| && b[j] == a[i];
      PeakBounds(b, j);
    }
    PeakLeast(a, PeakOf(b));
  }

  lemma {:induction false} CharsConcat(a: seq<Signal>, b: seq<Signal>)
    ensures CharsOf(a + b) == CharsOf(a) + CharsOf(b)
  {
    if b == [] {
      assert a + b == a;
    } else {
      assert (a + b)[..|a + b| - 1] == a + b[..|b| - 1];
      CharsConcat(a, b[..|b| - 1]);
    }
  }

  lemma {:induction false} CharsOrder(a: seq<Signal>, b: seq<Signal>)
    requires multiset(a) == multiset(b)
    ensures CharsOf(a) == CharsOf(b)
    decreases |a|
  {
    if a == [] {
      assert |multiset(b)| == |b|;
    } else {
      var n := |a| - 1;
      var x := a[n];
      assert x in multiset(b);
      var k :| 0 <= k < |b| && b[k] == x;
      var rest := b[..k] + b[k + 1..];
      assert a == a[..n] + [x];
      BagWithout(b, k);
      Cancel(multiset{x}, multiset(a[..n]), multiset(rest));
      CharsOrder(a[..n], rest);
      CharsConcat(b[..k], b[k + 1..]);
      CharsConcat(b[..k] + [x], b[k + 1..]);
      CharsConcat(b[..k], [x]);
      CharsConcat(a[..n], [x]);
    }
  }

  /** The order of the events before the first terminal one does not matter. */
  lemma OrderIrrelevant(kind: Kind, estimates: Option<seq<nat>>, a: seq<Signal>, b: seq<Signal>, last: Signal,
                        after: seq<Signal>, later: seq<Signal>)
    requires NoTerminal(a) && multiset(a) == multiset(b) && last.act.Terminal?
    ensures AfterAll(kind, estimates, Fresh, a + [last] + after).reports
            == AfterAll(kind, estimates, Fresh, b + [last] + later).reports
  {
    forall i | 0 <= i < |b| ensures !b[i].act.Terminal? {
      assert b[i] in multiset(a);
      var j :| 0 <= j < |a| && a[j] == b[i];
    }
    PeakOrder(a, b);
    PeakOrder(b, a);
    CharsOrder(a, b);
    FirstOf(a, last, after);
    FirstOf(b, last, later);
    ReportedOnce(kind, estimates, a + [last] + after);
    ReportedOnce(kind, estimates, b + [last] + later);
  }

  // ----- the status of a Responses stream -----

  /** The status an event of a Responses stream announces. */
  function StatusIn(e: Framing.Event): Option<string> {
    var a := Arrive(e);
    if a.value.None? then None else StatusOf(TypeOf(a, a.value.value))
  }

  lemma StatusAfter(estimates: Option<seq<nat>>, t: Telemetry, e: Framing.Event)
    ensures After(ResponsesStream, estimates, t, SignalOf(ResponsesStream, Arrive(e))).status
            == if StatusIn(e).Some? then StatusIn(e) else t.status
  {
    hide UsageOf, Get, GetText;
  }

  /** No event behind the `i`-th announces a status. */
  predicate LastAt(events: seq<Framing.Event>, i: nat) {
    forall j :: i < j < |events| ==> StatusIn(events[j]).None?
  }

  /** The recorded status is the one announced last; without any there is none. */
  lemma {:induction false} LastStatus(estimates: Option<seq<nat>>, events: seq<Framing.Event>)
    ensures var status := AfterAll(ResponsesStream, estimates, Fresh, Signals(ResponsesStream, events)).status;
            && (status.None? <==> forall i :: 0 <= i < |events| ==> StatusIn(events[i]).None?)
            && (forall i :: 0 <= i < |events| && StatusIn(events[i]).Some? && LastAt(events, i)
                            ==> status == StatusIn(events[i]))
    decreases |events|
  {
    hide StatusIn, After, SignalOf;
    if events != [] {
      var n := |events| - 1;
      var init, e := events[..n], events[n];
      assert events == init + [e];
      LastStatus(estimates, init);
      AfterOne(ResponsesStream, estimates, Fresh, init, e);
      StatusAfter(estimates, AfterAll(ResponsesStream, estimates, Fresh, Signals(ResponsesStream, init)), e);
      forall i | 0 <= i < n && LastAt(events, i) ensures LastAt(init, i) && StatusIn(e).None? {
        assert forall j :: i < j < n ==> init[j] == events[j];
      }
    } else {
      assert Signals(ResponsesStream, events) == [];
    }
  }
}
