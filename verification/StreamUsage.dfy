/** Which members of which events the report of a stream comes from. */
module StreamUsage {
  import opened Prelude
  import opened Values
  import opened SseTelemetry
  import Answers
  import Json
  import JsonParser
  import LiveZone
  import Utf8
  import Framing = SseFraming

  // ----- from bytes to values -----

  /** An event has a value exactly when its data is no end sentinel and is the UTF-8 form of a JSON text. */
  lemma ArrivalExactly(e: Framing.Event, v: Val)
    ensures Arrive(e).value == Some(v) <==>
            e.data != Utf8.Encode("[DONE]") && exists d: Json.Doc ::
              Json.WfDoc(d) && e.data == Utf8.Encode(Json.RenderDoc(d)) && v == Sem(d.root, token => token)
    ensures e.data != Utf8.Encode("[DONE]") ==>
              Arrive(e).name == (if e.name.Some? then Utf8.Decode(e.name.value) else None)
  {
    hide JsonParser.Parse, Utf8.Decode, Sem;
    DoneBytes();
    var text := Utf8.Decode(e.data);
    if e.data != Utf8.Encode("[DONE]") {
      if text.Some? && JsonParser.Parse(text.value).Some? {
        Utf8.DecodeExactly(e.data, text.value);
        JsonParser.ParseSound(text.value);
      }
      forall d: Json.Doc | Json.WfDoc(d) && e.data == Utf8.Encode(Json.RenderDoc(d))
        ensures text == Some(Json.RenderDoc(d)) && JsonParser.Parse(Json.RenderDoc(d)) == Some(d)
      {
        Utf8.DecodeExactly(e.data, Json.RenderDoc(d));
        JsonParser.ParseComplete(d);
      }
    }
  }

  lemma DoneBytes()
    ensures Framing.DONE == Utf8.Encode("[DONE]")
  {
    var s := "[DONE]";
    assert s[1..] == "DONE]" && s[2..] == "ONE]" && s[3..] == "NE]" && s[4..] == "E]" && s[5..] == "]";
    assert Utf8.Encode("]") == [93];
    assert Utf8.Encode("E]") == [69, 93];
    assert Utf8.Encode("NE]") == [78, 69, 93];
    assert Utf8.Encode("ONE]") == [79, 78, 69, 93];
    assert Utf8.Encode("DONE]") == [68, 79, 78, 69, 93];
  }

  // ----- what an event is -----

  predicate IsText(v: Option<Val>) { v.Some? && v.value.Txt? }

  /** The type of an event: the member `type`, or the event's name when that is no text. */
  predicate TypeIs(a: Arrival, name: string) {
    a.value.Some? &&
    if IsText(Get(a.value.value, "type")) then Get(a.value.value, "type") == Some(Txt(name)) else a.name == Some(name)
  }

  function Inner(v: Val, outer: string, inner: string): Option<Val> {
    var o := Get(v, outer);
    if o.Some? then Get(o.value, inner) else None
  }

  /** The terminal events of the three kinds of stream. */
  predicate Ends(kind: Kind, a: Arrival) {
    match kind
    case ChatStream => a.value.Some? && Get(a.value.value, "usage").Some? && Get(a.value.value, "usage").value.Obj?
    case ResponsesStream =>
      TypeIs(a, "response.completed") || TypeIs(a, "response.failed") || TypeIs(a, "response.incomplete")
    case AnthropicStream => TypeIs(a, "message_stop")
  }

  /** `first`, or `second` when there is none. */
  predicate Either(first: Option<Val>, second: Option<Val>, u: Val) {
    first == Some(u) || (first == None && second == Some(u))
  }

  /** The usage object of an event, by its place in the three kinds of stream. */
  predicate HasUsage(kind: Kind, a: Arrival, u: Val) {
    && a.value.Some? && u.Obj?
    && var v := a.value.value;
       match kind
       case ChatStream => Get(v, "usage") == Some(u)
       case ResponsesStream => Ends(kind, a) && Either(Get(v, "usage"), Inner(v, "response", "usage"), u)
       case AnthropicStream =>
         || (TypeIs(a, "message_start") && Either(Inner(v, "message", "usage"), Get(v, "usage"), u))
         || (TypeIs(a, "message_delta") && Get(v, "usage") == Some(u))
  }

  // ----- the four counters of a usage object -----

  /** The first of the named members that holds an unsigned number, zero when none does. */
  predicate FirstOf(u: Val, names: seq<string>, n: nat) {
    if names == [] then n == 0
    else if GetU64(u, names[0]).Some? then n == GetU64(u, names[0]).value
    else FirstOf(u, names[1..], n)
  }

  predicate InputIs(u: Val, n: nat) { FirstOf(u, ["prompt_tokens", "input_tokens"], n) }

  predicate OutputIs(u: Val, n: nat) { FirstOf(u, ["completion_tokens", "output_tokens"], n) }

  /** The cached count of the details, the flat one when the details have none. */
  predicate ReadIs(u: Val, n: nat) {
    var chat, details := Get(u, "prompt_tokens_details"), Get(u, "input_tokens_details");
    var d := if chat.Some? then chat else details;
    if d.Some? && GetU64(d.value, "cached_tokens").Some? then n == GetU64(d.value, "cached_tokens").value
    else FirstOf(u, ["cache_read_input_tokens"], n)
  }

  predicate CreationIs(u: Val, n: nat) { FirstOf(u, ["cache_creation_input_tokens"], n) }

  lemma FirstTwo(u: Val, a: string, b: string, n: nat)
    ensures FirstOf(u, [a, b], n) <==> n == Default(Or(GetU64(u, a), GetU64(u, b)))
    ensures FirstOf(u, [a], n) <==> n == Default(GetU64(u, a))
  {
    hide GetU64;
    assert [a, b][1..] == [b] && [b][1..] == [] && [a][1..] == [];
    assert FirstOf(u, [b], n) <==> n == Default(GetU64(u, b));
  }

  // ----- signals against events -----

  lemma TypeRead(a: Arrival, name: string)
    requires a.value.Some?
    ensures TypeIs(a, name) <==> TypeOf(a, a.value.value) == Some(name)
  {
  }

  lemma EndRead(kind: Kind, a: Arrival)
    ensures Ends(kind, a) <==> ActOf(kind, a).Terminal?
  {
    hide UsageOf, Get, TierOf, TypeOf, TypeIs;
    if a.value.Some? {
      TypeRead(a, "response.completed");
      TypeRead(a, "response.failed");
      TypeRead(a, "response.incomplete");
      TypeRead(a, "message_start");
      TypeRead(a, "message_delta");
      TypeRead(a, "content_block_delta");
      TypeRead(a, "message_stop");
      TypeNames();
    } else {
      NoType(a);
    }
  }

  lemma NoType(a: Arrival)
    requires a.value.None?
    ensures forall name :: !TypeIs(a, name)
  {
  }

  lemma TypeNames()
    ensures "message_stop" != "message_start" && "message_stop" != "message_delta"
    ensures "message_stop" != "content_block_delta" && "message_start" != "message_delta"
    ensures "content_block_delta" != "message_start" && "content_block_delta" != "message_delta"
  {
    assert "message_stop"[10] != "message_start"[10];
  }

  /** The usage a signal carries into the counters. */
  function Carried(act: Act): Option<Usage> {
    match act
    case Counted(u) => Some(u)
    case Terminal(final, _, _) => final
    case _ => None
  }

  lemma CarriedRead(kind: Kind, a: Arrival, u: Val)
    ensures HasUsage(kind, a, u) ==> Carried(ActOf(kind, a)) == Some(UsageOf(u))
  {
    hide UsageOf, Get, TierOf, TypeOf, TypeIs, GetText;
    EndRead(kind, a);
    if a.value.Some? {
      TypeRead(a, "response.completed");
      TypeRead(a, "response.failed");
      TypeRead(a, "response.incomplete");
      TypeRead(a, "message_start");
      TypeRead(a, "message_delta");
      TypeNames();
    }
  }

  lemma CarriedFrom(kind: Kind, a: Arrival) returns (u: Val)
    requires Carried(ActOf(kind, a)).Some?
    ensures HasUsage(kind, a, u) && Carried(ActOf(kind, a)) == Some(UsageOf(u))
  {
    hide UsageOf, Get, TierOf, TypeOf, TypeIs, GetText;
    EndRead(kind, a);
    TypeRead(a, "message_start");
    TypeRead(a, "message_delta");
    TypeRead(a, "content_block_delta");
    TypeRead(a, "message_stop");
    var v := a.value.value;
    match kind {
      case ChatStream => u := Get(v, "usage").value;
      case ResponsesStream => u := Or(Get(v, "usage"), SseTelemetry.Nested(v, "response", "usage")).value;
      case AnthropicStream =>
        if TypeOf(a, v) == Some("message_start") {
          u := Or(SseTelemetry.Nested(v, "message", "usage"), Get(v, "usage")).value;
        } else {
          u := Get(v, "usage").value;
        }
    }
  }

  // ----- the counters of the report -----

  function SignalsOf(kind: Kind, arrivals: seq<Arrival>): (s: seq<Signal>)
    ensures |s| == |arrivals| && forall i :: 0 <= i < |s| ==> s[i] == SignalOf(kind, arrivals[i])
  {
    seq(|arrivals|, i requires 0 <= i < |arrivals| => SignalOf(kind, arrivals[i]))
  }

  /** The `k`-th event is the first terminal one. */
  predicate FirstEnd(kind: Kind, arrivals: seq<Arrival>, k: nat) {
    k < |arrivals| && Ends(kind, arrivals[k]) && forall j :: 0 <= j < k ==> !Ends(kind, arrivals[j])
  }

  /** `n` is the greatest value of the counter in the usage objects of the events up to the `k`-th, zero without any. */
  ghost predicate Greatest(kind: Kind, arrivals: seq<Arrival>, k: nat, counter: (Val, nat) -> bool, n: nat)
    requires k < |arrivals|
  {
    && (forall i, u, m: nat :: 0 <= i <= k && HasUsage(kind, arrivals[i], u) && counter(u, m) ==> m <= n)
    && (n == 0 || exists i, u :: 0 <= i <= k && HasUsage(kind, arrivals[i], u) && counter(u, n))
  }

  /** A counter picked from four. */
  ghost predicate Selector(pick: Usage -> nat) {
    pick(NoUsage) == 0 && forall a, b :: pick(Peak(a, b)) == Max(pick(a), pick(b))
  }

  /** The counter is what is picked of the four. */
  ghost predicate Picks(pick: Usage -> nat, counter: (Val, nat) -> bool) {
    forall u, n: nat :: counter(u, n) <==> n == pick(UsageOf(u))
  }

  /** What a signal adds to the counter. */
  function Part(s: Signal, pick: Usage -> nat): nat {
    var u := Carried(s.act);
    if u.Some? then pick(u.value) else 0
  }

  /** `m` is the greatest part of the signals, zero without any. */
  ghost predicate PeakPart(signals: seq<Signal>, pick: Usage -> nat, m: nat) {
    && (forall i :: 0 <= i < |signals| ==> Part(signals[i], pick) <= m)
    && (m == 0 || exists i :: 0 <= i < |signals| && Part(signals[i], pick) == m)
  }

  lemma PeakMore(signals: seq<Signal>, s: Signal, pick: Usage -> nat, m: nat)
    requires PeakPart(signals, pick, m)
    ensures PeakPart(signals + [s], pick, Max(m, Part(s, pick)))
  {
    hide Part;
    var all := signals + [s];
    assert all[|signals|] == s;
    forall i | 0 <= i < |all| ensures Part(all[i], pick) <= Max(m, Part(s, pick)) {
      if i < |signals| { assert all[i] == signals[i]; }
    }
    if m != 0 {
      var i :| 0 <= i < |signals| && Part(signals[i], pick) == m;
      assert all[i] == signals[i];
    }
  }

  lemma {:induction false} PeakPicked(signals: seq<Signal>, pick: Usage -> nat)
    requires Selector(pick) && NoTerminal(signals)
    ensures PeakPart(signals, pick, pick(PeakOf(signals)))
  {
    hide PeakPart, Peak;
    if signals == [] {
      NonePicked(pick);
    } else {
      var init, last := signals[..|signals| - 1], signals[|signals| - 1];
      assert signals == init + [last];
      assert forall i :: 0 <= i < |init| ==> init[i] == signals[i];
      PeakPicked(init, pick);
      PeakMore(init, last, pick, pick(PeakOf(init)));
      assert pick(PeakOf(signals)) == Max(pick(PeakOf(init)), Part(last, pick));
    }
  }

  lemma NonePicked(pick: Usage -> nat)
    requires Selector(pick)
    ensures PeakPart([], pick, pick(PeakOf([])))
  {
  }

  /** The counters at the first terminal event. */
  function UsageAt(signals: seq<Signal>, k: nat): Usage
    requires k < |signals|
  {
    FinalUsage(signals[..k], signals[k].act)
  }

  lemma FinalPicked(signals: seq<Signal>, k: nat, pick: Usage -> nat)
    requires Selector(pick) && k < |signals| && NoTerminal(signals[..k]) && signals[k].act.Terminal?
    ensures PeakPart(signals[..k + 1], pick, pick(UsageAt(signals, k)))
  {
    hide PeakPart, PeakOf, Peak;
    var before := signals[..k];
    PeakPicked(before, pick);
    PeakMore(before, signals[k], pick, pick(PeakOf(before)));
    assert signals[..k + 1] == before + [signals[k]];
    assert pick(UsageAt(signals, k)) == Max(pick(PeakOf(before)), Part(signals[k], pick));
  }

  lemma EndSignal(kind: Kind, arrivals: seq<Arrival>, k: nat)
    requires FirstEnd(kind, arrivals, k)
    ensures var s := SignalsOf(kind, arrivals);
            FirstTerminal(s) == Some(k) && s[k].act.Terminal? && NoTerminal(s[..k])
  {
    hide Ends, ActOf;
    var s := SignalsOf(kind, arrivals);
    forall i | 0 <= i < |arrivals| ensures s[i].act.Terminal? <==> Ends(kind, arrivals[i]) {
      EndRead(kind, arrivals[i]);
    }
  }

  /** A counter of the report is the greatest value its members take. */
  lemma PickedGreatest(kind: Kind, arrivals: seq<Arrival>, k: nat, pick: Usage -> nat, counter: (Val, nat) -> bool)
    requires FirstEnd(kind, arrivals, k) && Selector(pick) && Picks(pick, counter)
    ensures Greatest(kind, arrivals, k, counter, pick(UsageAt(SignalsOf(kind, arrivals), k)))
  {
    hide Ends, ActOf, HasUsage, UsageOf, Carried, UsageAt, Selector;
    var s := SignalsOf(kind, arrivals);
    var n := pick(UsageAt(s, k));
    EndSignal(kind, arrivals, k);
    FinalPicked(s, k, pick);
    forall i, u, m: nat | 0 <= i <= k && HasUsage(kind, arrivals[i], u) && counter(u, m) ensures m <= n {
      CarriedRead(kind, arrivals[i], u);
      assert s[..k + 1][i] == s[i] && Part(s[i], pick) == m;
    }
    if n != 0 {
      var i :| 0 <= i < |s[..k + 1]| && Part(s[..k + 1][i], pick) == n;
      assert s[..k + 1][i] == s[i];
      var u := CarriedFrom(kind, arrivals[i]);
      assert counter(u, n);
    }
  }

  lemma CountersRead(u: Val, n: nat)
    ensures InputIs(u, n) <==> n == UsageOf(u).input
    ensures OutputIs(u, n) <==> n == UsageOf(u).output
    ensures ReadIs(u, n) <==> n == UsageOf(u).read
    ensures CreationIs(u, n) <==> n == UsageOf(u).creation
  {
    hide GetU64, Get, FirstOf;
    FirstTwo(u, "prompt_tokens", "input_tokens", n);
    FirstTwo(u, "completion_tokens", "output_tokens", n);
    FirstTwo(u, "cache_read_input_tokens", "", n);
    FirstTwo(u, "cache_creation_input_tokens", "", n);
  }

  /** All four counters of `r` are the greatest values of theirs. */
  ghost predicate Peaks(kind: Kind, arrivals: seq<Arrival>, k: nat, r: Usage)
    requires k < |arrivals|
  {
    && Greatest(kind, arrivals, k, InputIs, r.input) && Greatest(kind, arrivals, k, OutputIs, r.output)
    && Greatest(kind, arrivals, k, ReadIs, r.read) && Greatest(kind, arrivals, k, CreationIs, r.creation)
  }

  lemma PeaksAt(kind: Kind, arrivals: seq<Arrival>, k: nat)
    requires FirstEnd(kind, arrivals, k)
    ensures Peaks(kind, arrivals, k, UsageAt(SignalsOf(kind, arrivals), k))
  {
    hide Greatest, FirstEnd, UsageAt, InputIs, OutputIs, ReadIs, CreationIs, UsageOf;
    forall u, n: nat
      ensures InputIs(u, n) <==> n == UsageOf(u).input
      ensures OutputIs(u, n) <==> n == UsageOf(u).output
      ensures ReadIs(u, n) <==> n == UsageOf(u).read
      ensures CreationIs(u, n) <==> n == UsageOf(u).creation
    {
      CountersRead(u, n);
    }
    PickedGreatest(kind, arrivals, k, (u: Usage) => u.input, InputIs);
    PickedGreatest(kind, arrivals, k, (u: Usage) => u.output, OutputIs);
    PickedGreatest(kind, arrivals, k, (u: Usage) => u.read, ReadIs);
    PickedGreatest(kind, arrivals, k, (u: Usage) => u.creation, CreationIs);
  }

  // ----- the rest of the report -----

  /** What was written to the cache: the creation counter; OpenAI without one, the input that was not read. */
  predicate WrittenIs(kind: Kind, u: Usage, written: nat) {
    if kind == AnthropicStream || u.creation > 0 then written == u.creation
    else if u.read <= u.input then written + u.read == u.input
    else written == 0
  }

  /** The part of the prompt that was read from the cache; Anthropic counts the parts of a prompt apart. */
  predicate RateIs(kind: Kind, u: Usage, rate: Option<(nat, nat)>) {
    var all := u.input + if kind == AnthropicStream then u.read + u.creation else 0;
    var whole := if kind == AnthropicStream && all >= U64_SIZE then U64_SIZE - 1 else all;
    if whole > 0 && u.read <= whole then rate == Some((u.read, whole)) else rate == None
  }

  /** The number of characters a text member has, zero when it is no text. */
  function Length(v: Option<Val>): nat { if IsText(v) then |v.value.text| else 0 }

  /** The characters of the assistant message the events stream. */
  function Characters(kind: Kind, arrivals: seq<Arrival>): nat {
    if arrivals == [] then 0
    else
      var n := |arrivals| - 1;
      var a := arrivals[n];
      Characters(kind, arrivals[..n]) +
      if kind == AnthropicStream && TypeIs(a, "content_block_delta") then
        var v := a.value.value;
        Length(Inner(v, "delta", "text")) + Length(Inner(v, "delta", "partial_json")) +
        Length(Inner(v, "delta", "thinking"))
      else 0
  }

  /** Three and a half characters to a token with an overhead of twenty, rounded down. */
  predicate TokensFor(chars: nat, tokens: nat) { 7 * tokens <= 2 * (chars + 20) < 7 * (tokens + 1) }

  predicate EstimatesAre(kind: Kind, before: Option<seq<nat>>, chars: nat, after: Option<seq<nat>>) {
    if kind != AnthropicStream || chars == 0 || before == None then after == before
    else
      && after.Some? && |after.value| == |before.value| + 1 && after.value[..|before.value|] == before.value
      && TokensFor(chars, after.value[|before.value|])
  }

  lemma {:induction false} CharactersRead(kind: Kind, arrivals: seq<Arrival>)
    ensures Characters(kind, arrivals) == CharsOf(SignalsOf(kind, arrivals))
  {
    hide ActOf, TypeIs;
    if arrivals != [] {
      var n := |arrivals| - 1;
      CharactersRead(kind, arrivals[..n]);
      assert SignalsOf(kind, arrivals)[..n] == SignalsOf(kind, arrivals[..n]);
      DeltaRead(kind, arrivals[n]);
    }
  }

  lemma DeltaRead(kind: Kind, a: Arrival)
    ensures (if ActOf(kind, a).Streamed? then ActOf(kind, a).chars else 0)
            == if kind == AnthropicStream && TypeIs(a, "content_block_delta") then
                 var v := a.value.value;
                 Length(Inner(v, "delta", "text")) + Length(Inner(v, "delta", "partial_json")) +
                 Length(Inner(v, "delta", "thinking"))
               else 0
  {
    hide UsageOf, Get, TierOf, TypeOf, TypeIs;
    if a.value.Some? {
      TypeRead(a, "content_block_delta");
      TypeNames();
    } else {
      NoType(a);
    }
  }

  lemma PartsRead(kind: Kind, estimates: Option<seq<nat>>, u: Usage, chars: nat)
    ensures WrittenIs(kind, u, WrittenTokens(kind, u)) && RateIs(kind, u, RateOf(kind, u))
    ensures EstimatesAre(kind, estimates, chars, WalkedEstimates(kind, estimates, chars))
  {
  }

  /** The report of a stream with these events, member by member. */
  ghost predicate ReportIs(kind: Kind, estimates: Option<seq<nat>>, arrivals: seq<Arrival>, k: nat,
                           reports: seq<Report>)
    requires k < |arrivals|
  {
    if reports == [] then Peaks(kind, arrivals, k, NoUsage)
    else
      && |reports| == 1 && reports[0].usage != NoUsage && Peaks(kind, arrivals, k, reports[0].usage)
      && WrittenIs(kind, reports[0].usage, reports[0].written) && RateIs(kind, reports[0].usage, reports[0].rate)
      && EstimatesAre(kind, estimates, Characters(kind, arrivals[..k]), reports[0].estimates)
  }

  /**
   * A stream is reported once: each counter is the greatest value its members take in the usage
   * objects of the events up to the first terminal one, wherever the provider puts them; a stream
   * whose counters are all zero, or without a terminal event, is not.
   */
  lemma UsageReported(kind: Kind, estimates: Option<seq<nat>>, arrivals: seq<Arrival>)
    ensures var reports := AfterAll(kind, estimates, Fresh, SignalsOf(kind, arrivals)).reports;
            && (forall k :: FirstEnd(kind, arrivals, k) ==> ReportIs(kind, estimates, arrivals, k, reports))
            && ((forall k :: 0 <= k < |arrivals| ==> !Ends(kind, arrivals[k])) ==> reports == [])
  {
    hide Ends, ActOf, AfterAll, Peaks, UsageAt, WrittenIs, RateIs, EstimatesAre, Characters, Fresh;
    var s := SignalsOf(kind, arrivals);
    ReportedOnce(kind, estimates, s);
    forall k | FirstEnd(kind, arrivals, k)
      ensures ReportIs(kind, estimates, arrivals, k, Reported(kind, estimates, s))
    {
      OneReport(kind, estimates, arrivals, k);
    }
    forall i | 0 <= i < |arrivals| ensures s[i].act.Terminal? <==> Ends(kind, arrivals[i]) {
      EndRead(kind, arrivals[i]);
    }
  }

  lemma OneReport(kind: Kind, estimates: Option<seq<nat>>, arrivals: seq<Arrival>, k: nat)
    requires FirstEnd(kind, arrivals, k)
    ensures ReportIs(kind, estimates, arrivals, k, Reported(kind, estimates, SignalsOf(kind, arrivals)))
  {
    hide Ends, ActOf, Peaks, WrittenIs, RateIs, EstimatesAre, WrittenTokens, RateOf, WalkedEstimates, CharsOf, PeakOf;
    var s := SignalsOf(kind, arrivals);
    EndSignal(kind, arrivals, k);
    PeaksAt(kind, arrivals, k);
    CharactersRead(kind, arrivals[..k]);
    assert s[..k] == SignalsOf(kind, arrivals[..k]);
    PartsRead(kind, estimates, UsageAt(s, k), CharsOf(s[..k]));
  }

  /** The events of a stream, decoded. */
  function Arrivals(events: seq<Framing.Event>): (r: seq<Arrival>)
    ensures |r| == |events| && forall i :: 0 <= i < |r| ==> r[i] == Arrive(events[i])
  {
    seq(|events|, i requires 0 <= i < |events| => Arrive(events[i]))
  }

  /** The same of the bytes of a stream, however they arrive in chunks. */
  lemma StreamReported(kind: Kind, estimates: Option<seq<nat>>, bytes: seq<u8>)
    ensures var events := Framing.Drain(bytes).0;
            var reports, arrivals := AfterAll(kind, estimates, Fresh, Signals(kind, events)).reports, Arrivals(events);
            && (forall k :: FirstEnd(kind, arrivals, k) ==> ReportIs(kind, estimates, arrivals, k, reports))
            && ((forall k :: 0 <= k < |arrivals| ==> !Ends(kind, arrivals[k])) ==> reports == [])
  {
    hide Ends, ActOf, AfterAll, Fresh, ReportIs, FirstEnd, Arrive;
    var events := Framing.Drain(bytes).0;
    assert SignalsOf(kind, Arrivals(events)) == Signals(kind, events);
    UsageReported(kind, estimates, Arrivals(events));
  }

  // ----- the other records -----

  /** A Responses event records the status its type names, and the service tier of its response. */
  lemma StatusExactly(e: Framing.Event, status: string)
    ensures StatusIn(e) == Some(status) <==>
            status in {"completed", "failed", "incomplete"} && TypeIs(Arrive(e), "response." + status)
  {
    hide Arrive, TypeIs, TypeOf;
    var a := Arrive(e);
    if a.value.Some? {
      TypeRead(a, "response." + status);
      assert "response." + "completed" == "response.completed";
      assert "response." + "failed" == "response.failed";
      assert "response." + "incomplete" == "response.incomplete";
      TypeRead(a, "response.completed");
      TypeRead(a, "response.failed");
      TypeRead(a, "response.incomplete");
    } else {
      NoType(a);
    }
  }

  const TIERS := {"auto", "default", "flex", "on_demand", "priority", "scale"}

  /** The tier of the response, or of the event when the response has none; an unknown one counts as `other`. */
  lemma TierExactly(v: Val, tier: string)
    ensures TierOf(v) == Some(tier) <==>
            exists raw :: Either(Inner(v, "response", "service_tier"), Get(v, "service_tier"), Txt(raw)) &&
                          tier == if raw in TIERS then raw else "other"
  {
    hide Get;
  }

  /** A call by the retrieve tool's name. */
  ghost predicate CallsRetrieve(name: Option<Val>) { IsText(name) && Answers.RetrievalName(name.value.text) }

  /** An event shows a retrieval call, by the place of calls in the three kinds of stream. */
  ghost predicate ShowsRetrieval(kind: Kind, v: Val) {
    match kind
    case AnthropicStream =>
      && Get(v, "type") == Some(Txt("content_block_start"))
      && Inner(v, "content_block", "type") == Some(Txt("tool_use"))
      && CallsRetrieve(Inner(v, "content_block", "name"))
    case ResponsesStream =>
      && Get(v, "type") == Some(Txt("response.output_item.added"))
      && Inner(v, "item", "type") == Some(Txt("function_call")) && CallsRetrieve(Inner(v, "item", "name"))
    case ChatStream =>
      exists choice, call ::
        && choice in Items(Get(v, "choices")) && call in Items(Inner(choice, "delta", "tool_calls"))
        && CallsRetrieve(Inner(call, "function", "name"))
  }

  function Items(v: Option<Val>): seq<Val> { if v.Some? && v.value.Arr? then v.value.items else [] }

  lemma DetectedExactly(kind: Kind, v: Val)
    ensures Detected(kind, v) <==> ShowsRetrieval(kind, v)
  {
    hide Get, LiveZone.RetrieveNamed, Answers.RetrievalName;
    match kind {
      case AnthropicStream => NameRead(Inner(v, "content_block", "name"));
      case ResponsesStream => NameRead(Inner(v, "item", "name"));
      case ChatStream =>
        forall call ensures ChatCall(call) <==> CallsRetrieve(Inner(call, "function", "name")) {
          NameRead(Inner(call, "function", "name"));
        }
        forall choice ensures ChoiceRetrieves(choice) <==>
                              exists call :: call in Items(Inner(choice, "delta", "tool_calls")) && ChatCall(call)
        {
          ChoiceRead(choice);
        }
        ChatRead(v);
    }
  }

  lemma NameRead(name: Option<Val>)
    ensures CallsRetrieve(name) <==> LiveZone.RetrieveNamed(if IsText(name) then Some(name.value.text) else None)
  {
    Answers.NameExactly(if IsText(name) then Some(name.value.text) else None);
  }

  lemma ChoiceRead(choice: Val)
    ensures ChoiceRetrieves(choice) <==>
            exists call :: call in Items(Inner(choice, "delta", "tool_calls")) && ChatCall(call)
  {
    hide ChatCall, Get;
    var calls := Items(Inner(choice, "delta", "tool_calls"));
    if ChoiceRetrieves(choice) {
      var i :| 0 <= i < |calls| && ChatCall(calls[i]);
      assert calls[i] in calls;
    }
  }

  lemma ChatRead(v: Val)
    ensures Detected(ChatStream, v) <==> exists choice :: choice in Items(Get(v, "choices")) && ChoiceRetrieves(choice)
  {
    hide ChoiceRetrieves, Get;
    var choices := Items(Get(v, "choices"));
    if Detected(ChatStream, v) {
      var i :| 0 <= i < |choices| && ChoiceRetrieves(choices[i]);
      assert choices[i] in choices;
    }
  }

  // ----- what a whole stream records beside its report -----

  /** A terminal event of a Responses stream names this service tier. */
  ghost predicate TierSays(kind: Kind, a: Arrival, tier: string) {
    && kind == ResponsesStream && Ends(kind, a) && a.value.Some?
    && exists raw ::
         && Either(Inner(a.value.value, "response", "service_tier"), Get(a.value.value, "service_tier"), Txt(raw))
         && tier == if raw in TIERS then raw else "other"
  }

  /** The tiers named, one after the other. */
  ghost predicate TiersAre(kind: Kind, arrivals: seq<Arrival>, tiers: seq<string>)
    decreases |arrivals|
  {
    if arrivals == [] then tiers == []
    else
      var n := |arrivals| - 1;
      var a := arrivals[n];
      if exists tier :: TierSays(kind, a, tier) then
        && tiers != [] && TierSays(kind, a, tiers[|tiers| - 1])
        && TiersAre(kind, arrivals[..n], tiers[..|tiers| - 1])
      else TiersAre(kind, arrivals[..n], tiers)
  }

  ghost predicate Shows(kind: Kind, a: Arrival) { a.value.Some? && ShowsRetrieval(kind, a.value.value) }

  /** So many events show a retrieval call. */
  ghost predicate CallsAre(kind: Kind, arrivals: seq<Arrival>, calls: nat)
    decreases |arrivals|
  {
    if arrivals == [] then calls == 0
    else
      var n := |arrivals| - 1;
      if Shows(kind, arrivals[n]) then calls > 0 && CallsAre(kind, arrivals[..n], calls - 1)
      else CallsAre(kind, arrivals[..n], calls)
  }

  /** The status of the last terminal event of a Responses stream; other streams have none. */
  ghost predicate StatusIs(kind: Kind, arrivals: seq<Arrival>, status: Option<string>)
    decreases |arrivals|
  {
    if arrivals == [] then status == None
    else
      var n := |arrivals| - 1;
      if kind == ResponsesStream && Ends(kind, arrivals[n]) then
        status.Some? && TypeIs(arrivals[n], "response." + status.value)
      else StatusIs(kind, arrivals[..n], status)
  }

  lemma TierRead(kind: Kind, a: Arrival)
    ensures var act := ActOf(kind, a);
            forall tier :: act.Terminal? && act.tier == Some(tier) <==> TierSays(kind, a, tier)
  {
    hide UsageOf, Get, TierOf, TypeOf, TypeIs, GetText, Ends, Either, Inner;
    EndRead(kind, a);
    if kind == ResponsesStream && a.value.Some? {
      forall tier ensures TierOf(a.value.value) == Some(tier) <==> exists raw ::
        && Either(Inner(a.value.value, "response", "service_tier"), Get(a.value.value, "service_tier"), Txt(raw))
        && tier == if raw in TIERS then raw else "other"
      {
        TierExactly(a.value.value, tier);
      }
    }
  }

  lemma StatusRead(kind: Kind, a: Arrival)
    ensures var act := ActOf(kind, a);
            && (act.Terminal? && act.status.Some? <==> kind == ResponsesStream && Ends(kind, a))
            && (act.Terminal? && act.status.Some? ==> TypeIs(a, "response." + act.status.value))
  {
    hide UsageOf, Get, TierOf, TypeOf, TypeIs, GetText, Ends;
    EndRead(kind, a);
    if a.value.Some? {
      assert "response." + "completed" == "response.completed";
      assert "response." + "failed" == "response.failed";
      assert "response." + "incomplete" == "response.incomplete";
      TypeRead(a, "response.completed");
      TypeRead(a, "response.failed");
      TypeRead(a, "response.incomplete");
    }
  }

  lemma OneRecorded(kind: Kind, estimates: Option<seq<nat>>, t: Telemetry, s: Signal)
    ensures var r, end := After(kind, estimates, t, s), s.act.Terminal?;
            && r.retrievals == t.retrievals + (if s.retrieval then 1 else 0)
            && r.tiers == t.tiers + (if end && s.act.tier.Some? then [s.act.tier.value] else [])
            && r.status == if end && s.act.status.Some? then s.act.status else t.status
  {
    hide ReportOf;
    assert t.tiers + [] == t.tiers;
  }

  lemma TiersNext(kind: Kind, init: seq<Arrival>, a: Arrival, before: seq<string>, tier: Option<string>)
    requires TiersAre(kind, init, before) && forall x :: TierSays(kind, a, x) <==> tier == Some(x)
    ensures TiersAre(kind, init + [a], before + if tier.Some? then [tier.value] else [])
  {
    hide TierSays;
    var all := init + [a];
    assert all[..|all| - 1] == init && all[|all| - 1] == a;
    if tier.Some? {
      var tiers := before + [tier.value];
      assert TierSays(kind, a, tier.value);
      assert tiers[..|tiers| - 1] == before;
    } else {
      assert before + [] == before;
    }
  }

  /** The service tiers, the retrieval calls seen and the status of a stream, from its events. */
  lemma {:induction false} RecordsExactly(kind: Kind, estimates: Option<seq<nat>>, arrivals: seq<Arrival>)
    ensures var t := AfterAll(kind, estimates, Fresh, SignalsOf(kind, arrivals));
            TiersAre(kind, arrivals, t.tiers) && CallsAre(kind, arrivals, t.retrievals)
            && StatusIs(kind, arrivals, t.status)
    decreases |arrivals|
  {
    hide TierSays, Shows, Ends, TypeIs, ActOf, After, Detected, TiersAre;
    var s := SignalsOf(kind, arrivals);
    if arrivals != [] {
      var n := |arrivals| - 1;
      var before := AfterAll(kind, estimates, Fresh, SignalsOf(kind, arrivals[..n]));
      assert s[..n] == SignalsOf(kind, arrivals[..n]);
      RecordsExactly(kind, estimates, arrivals[..n]);
      OneRecorded(kind, estimates, before, s[n]);
      TierRead(kind, arrivals[n]);
      StatusRead(kind, arrivals[n]);
      ShowsRead(kind, arrivals[n]);
      var act := ActOf(kind, arrivals[n]);
      assert arrivals == arrivals[..n] + [arrivals[n]];
      TiersNext(kind, arrivals[..n], arrivals[n], before.tiers, if act.Terminal? then act.tier else None);
    } else {
      NothingRecorded(kind, arrivals);
    }
  }

  lemma NothingRecorded(kind: Kind, arrivals: seq<Arrival>)
    requires arrivals == []
    ensures SignalsOf(kind, arrivals) == [] && TiersAre(kind, arrivals, [])
  {
  }

  lemma ShowsRead(kind: Kind, a: Arrival)
    ensures SignalOf(kind, a).retrieval <==> Shows(kind, a)
  {
    hide Detected, ShowsRetrieval, ActOf;
    if a.value.Some? { DetectedExactly(kind, a.value.value); }
  }
}
