/** The continuation loop that answers private retrieval calls, and the stripping of private calls. */
module Continuation {
  import opened Prelude
  import opened Json
  import JsonParser
  import opened Values
  import opened LiveZone

  datatype Provider = Anthropic | OpenAi

  const MAX_ROUNDS := 3

  /** A retrieval request of the model. */
  datatype Parsed = Parsed(hash: string, query: Option<string>)

  /** How numbers are written, and what the store answers to a hash and a query. */
  datatype Backend = Backend(number: string -> string, retrieve: (string, Option<string>) -> Val)

  // ----- tool calls of a response -----

  function ParseArguments(arguments: Val): Option<Parsed> {
    var hash := GetText(arguments, "hash");
    if hash.None? then None else Some(Parsed(hash.value, GetText(arguments, "query")))
  }

  /** The arguments of an OpenAI call are JSON inside a string. */
  function ReadArguments(text: string, number: string -> string): Option<Val> {
    var d := JsonParser.Parse(text);
    if d.None? then None else Some(Sem(d.value.root, number))
  }

  function ParseRetrieve(call: Val, p: Provider, b: Backend): Option<Parsed> {
    match p
    case OpenAi =>
      var fn := Get(call, "function");
      if fn.None? || !RetrieveNamed(GetText(fn.value, "name")) then None
      else
        var text := GetText(fn.value, "arguments");
        var arguments := ReadArguments(if text.Some? then text.value else "{}", b.number);
        if arguments.None? then None else ParseArguments(arguments.value)
    case Anthropic =>
      var input := Get(call, "input");
      if !RetrieveNamed(GetText(call, "name")) || input.None? then None else ParseArguments(input.value)
  }

  /** The proxy's own tool call. */
  predicate Private(call: Val, p: Provider, b: Backend) { ParseRetrieve(call, p, b).Some? }

  predicate ToolUse(block: Val) { GetText(block, "type") == Some("tool_use") }

  function Filter(s: seq<Val>, keep: Val -> bool): (r: seq<Val>)
    ensures |r| <= |s| && forall i :: 0 <= i < |r| ==> keep(r[i])
  {
    if s == [] then []
    else
      var n := |s| - 1;
      Filter(s[..n], keep) + if keep(s[n]) then [s[n]] else []
  }

  function ListOf(v: Val, key: string): seq<Val> {
    var r := GetList(v, key);
    if r.Some? then r.value else []
  }

  function ChoiceCalls(choice: Val): seq<Val> {
    var m := Get(choice, "message");
    if m.None? then [] else ListOf(m.value, "tool_calls")
  }

  function CallsOf(choices: seq<Val>): seq<Val> {
    if choices == [] then [] else CallsOf(choices[..|choices| - 1]) + ChoiceCalls(choices[|choices| - 1])
  }

  /** Every tool call of a response, in order. */
  function Calls(response: Val, p: Provider): seq<Val> {
    match p
    case Anthropic => Filter(ListOf(response, "content"), ToolUse)
    case OpenAi => CallsOf(ListOf(response, "choices"))
  }

  function PrivateOnly(p: Provider, b: Backend): Val -> bool { call => Private(call, p, b) }

  function ClientOnly(p: Provider, b: Backend): Val -> bool { call => !Private(call, p, b) }

  function PrivateCalls(response: Val, p: Provider, b: Backend): seq<Val> {
    Filter(Calls(response, p), PrivateOnly(p, b))
  }

  function ClientCalls(response: Val, p: Provider, b: Backend): seq<Val> {
    Filter(Calls(response, p), ClientOnly(p, b))
  }

  // ----- stripping -----

  /** A block the client may see. */
  predicate Visible(block: Val, b: Backend) { !(ToolUse(block) && Private(block, Anthropic, b)) }

  function VisibleOnly(b: Backend): Val -> bool { block => Visible(block, b) }

  /** A choice without its private calls; emptied of calls it becomes a plain turn. */
  function StripChoice(choice: Val, b: Backend): Val {
    var m := Get(choice, "message");
    if m.None? || GetList(m.value, "tool_calls").None? then choice
    else
      var calls := ListOf(m.value, "tool_calls");
      var kept := Filter(calls, ClientOnly(OpenAi, b));
      if calls != [] && kept == [] then
        var plain := Put(choice, "message", Remove(m.value, "tool_calls"));
        if GetText(plain, "finish_reason") == Some("tool_calls") then Put(plain, "finish_reason", Txt("stop"))
        else plain
      else Put(choice, "message", Put(m.value, "tool_calls", Arr(kept)))
  }

  function StripChoices(choices: seq<Val>, b: Backend): (r: seq<Val>)
    ensures |r| == |choices| && forall i :: 0 <= i < |r| ==> r[i] == StripChoice(choices[i], b)
  {
    seq(|choices|, i requires 0 <= i < |choices| => StripChoice(choices[i], b))
  }

  /** The response without private calls, unless there are none or nothing else. */
  function Strip(response: Val, p: Provider, b: Backend): (r: Option<Val>)
    ensures r.Some? ==> response.Obj?
  {
    if PrivateCalls(response, p, b) == [] || ClientCalls(response, p, b) == [] then None
    else
      match p
      case Anthropic => Some(Put(response, "content", Arr(Filter(ListOf(response, "content"), VisibleOnly(b)))))
      case OpenAi => Some(Put(response, "choices", Arr(StripChoices(ListOf(response, "choices"), b))))
  }

  // ----- facts about filtering -----

  lemma FilterSnoc(s: seq<Val>, x: Val, keep: Val -> bool)
    ensures Filter(s + [x], keep) == Filter(s, keep) + if keep(x) then [x] else []
  {
    assert (s + [x])[..|s + [x]| - 1] == s;
  }

  lemma {:induction false} FilterConcat(x: seq<Val>, y: seq<Val>, keep: Val -> bool)
    ensures Filter(x + y, keep) == Filter(x, keep) + Filter(y, keep)
  {
    hide Filter;
    if y == [] {
      assert x + y == x;
      FilterEmpty(keep);
      assert Filter(x, keep) + [] == Filter(x, keep);
    } else {
      var init, last := y[..|y| - 1], y[|y| - 1];
      assert y == init + [last];
      FilterConcat(x, init, keep);
      Assoc(x, init, [last]);
      FilterSnoc(x + init, last, keep);
      FilterSnoc(init, last, keep);
      Assoc(Filter(x, keep), Filter(init, keep), if keep(last) then [last] else []);
    }
  }

  lemma FilterEmpty(keep: Val -> bool)
    ensures Filter([], keep) == []
  {
  }

  lemma {:induction false} FilterNone(s: seq<Val>, keep: Val -> bool)
    ensures Filter(s, keep) == [] <==> forall i :: 0 <= i < |s| ==> !keep(s[i])
  {
    hide Filter;
    FilterEmpty(keep);
    if s != [] {
      var init, last := s[..|s| - 1], s[|s| - 1];
      assert s == init + [last];
      FilterNone(init, keep);
      FilterSnoc(init, last, keep);
      NoneSnoc(init, last, keep);
    }
  }

  lemma NoneSnoc(init: seq<Val>, last: Val, keep: Val -> bool)
    ensures var s := init + [last];
            (forall i :: 0 <= i < |s| ==> !keep(s[i]))
            <==> (forall i :: 0 <= i < |init| ==> !keep(init[i])) && !keep(last)
  {
    var s := init + [last];
    assert s[|init|] == last;
    forall i | 0 <= i < |init| ensures s[i] == init[i] {}
  }

  lemma {:induction false} FilterFull(s: seq<Val>, keep: Val -> bool)
    requires |Filter(s, keep)| == |s|
    ensures Filter(s, keep) == s && forall i :: 0 <= i < |s| ==> keep(s[i])
  {
    hide Filter;
    FilterEmpty(keep);
    if s != [] {
      var init, last := s[..|s| - 1], s[|s| - 1];
      assert s == init + [last];
      FilterSnoc(init, last, keep);
      FilterFull(init, keep);
    }
  }

  /** Private and client calls partition the calls. */
  lemma {:induction false} FilterCount(s: seq<Val>, p: Provider, b: Backend)
    ensures |Filter(s, PrivateOnly(p, b))| + |Filter(s, ClientOnly(p, b))| == |s|
  {
    hide Filter, Private;
    FilterEmpty(PrivateOnly(p, b));
    FilterEmpty(ClientOnly(p, b));
    if s != [] {
      var init, last := s[..|s| - 1], s[|s| - 1];
      assert s == init + [last];
      FilterCount(init, p, b);
      FilterSnoc(init, last, PrivateOnly(p, b));
      FilterSnoc(init, last, ClientOnly(p, b));
    }
  }

  lemma {:induction false} FilterTwice(s: seq<Val>, f: Val -> bool, g: Val -> bool, h: Val -> bool)
    requires forall x :: h(x) <==> f(x) && g(x)
    ensures Filter(Filter(s, f), g) == Filter(s, h)
  {
    hide Filter;
    FilterEmpty(f);
    FilterEmpty(g);
    FilterEmpty(h);
    if s != [] {
      var init, last := s[..|s| - 1], s[|s| - 1];
      assert s == init + [last];
      FilterTwice(init, f, g, h);
      FilterSnoc(init, last, f);
      FilterSnoc(init, last, h);
      FilterConcat(Filter(init, f), if f(last) then [last] else [], g);
      FilterOne(last, g);
    }
  }

  lemma FilterOne(x: Val, keep: Val -> bool)
    ensures Filter([x], keep) == if keep(x) then [x] else []
  {
    assert [x][..0] == [];
  }

  // ----- the strippers as they work -----

  /** The tallies of the loop over content blocks. */
  predicate BlocksSeen(done: seq<Val>, b: Backend, stripped: seq<Val>, removed: bool, remaining: nat) {
    var use := Filter(done, ToolUse);
    && stripped == Filter(done, VisibleOnly(b))
    && removed == (Filter(use, PrivateOnly(Anthropic, b)) != [])
    && remaining == |Filter(use, ClientOnly(Anthropic, b))|
  }

  /** The loop over content blocks. */
  method StripBlocks(content: seq<Val>, b: Backend) returns (stripped: seq<Val>, removed: bool, remaining: nat)
    ensures BlocksSeen(content, b, stripped, removed, remaining)
  {
    hide Filter, ReadArguments, VisibleOnly;
    stripped, removed, remaining := [], false, 0;
    assert content[..0] == [];
    for i := 0 to |content|
      invariant BlocksSeen(content[..i], b, stripped, removed, remaining)
    {
      var block := content[i];
      assert content[..i + 1] == content[..i] + [block];
      if ToolUse(block) && Private(block, Anthropic, b) {
        BlockDropped(content[..i], block, b, stripped, removed, remaining);
        removed := true;
        continue;
      }
      BlockShown(content[..i], block, b, stripped, removed, remaining);
      if ToolUse(block) { remaining := remaining + 1; }
      stripped := stripped + [block];
    }
    assert content[..|content|] == content;
  }

  method StripAnthropic(response: Val, b: Backend) returns (r: Option<Val>)
    ensures r == Strip(response, Anthropic, b)
  {
    var content := GetList(response, "content");
    if content.None? { return None; }
    var stripped, removed, remaining := StripBlocks(content.value, b);
    if !removed || remaining == 0 { return None; }
    r := Some(Put(response, "content", Arr(stripped)));
  }

  lemma BlockDropped(done: seq<Val>, x: Val, b: Backend, stripped: seq<Val>, removed: bool, remaining: nat)
    requires BlocksSeen(done, b, stripped, removed, remaining) && ToolUse(x) && Private(x, Anthropic, b)
    ensures BlocksSeen(done + [x], b, stripped, true, remaining)
  {
    FilterSnoc(done, x, ToolUse);
    FilterSnoc(done, x, VisibleOnly(b));
    FilterSnoc(Filter(done, ToolUse), x, PrivateOnly(Anthropic, b));
    FilterSnoc(Filter(done, ToolUse), x, ClientOnly(Anthropic, b));
  }

  lemma BlockShown(done: seq<Val>, x: Val, b: Backend, stripped: seq<Val>, removed: bool, remaining: nat)
    requires BlocksSeen(done, b, stripped, removed, remaining) && !(ToolUse(x) && Private(x, Anthropic, b))
    ensures BlocksSeen(done + [x], b, stripped + [x], removed, remaining + if ToolUse(x) then 1 else 0)
  {
    FilterSnoc(done, x, ToolUse);
    FilterSnoc(done, x, VisibleOnly(b));
    var uses := Filter(done, ToolUse);
    if ToolUse(x) {
      FilterSnoc(uses, x, PrivateOnly(Anthropic, b));
      FilterSnoc(uses, x, ClientOnly(Anthropic, b));
    } else {
      assert uses + [] == uses;
    }
  }

  /** The tallies of the loop over choices. */
  predicate ChoicesSeen(done: seq<Val>, b: Backend, removed: bool, remaining: nat) {
    var calls := CallsOf(done);
    removed == (Filter(calls, PrivateOnly(OpenAi, b)) != []) && remaining == |Filter(calls, ClientOnly(OpenAi, b))|
  }

  /** The choices edited in place, one after the other. */
  method EditChoices(choices: array<Val>, b: Backend) returns (removed: bool, remaining: nat)
    modifies choices
    ensures choices[..] == StripChoices(old(choices[..]), b)
    ensures ChoicesSeen(old(choices[..]), b, removed, remaining)
  {
    hide StripChoice, ChoiceCalls, Filter;
    ghost var original := choices[..];
    removed, remaining := false, 0;
    assert original[..0] == [];
    for i := 0 to choices.Length
      invariant forall j :: 0 <= j < choices.Length ==>
                  choices[j] == if j < i then StripChoice(original[j], b) else original[j]
      invariant ChoicesSeen(original[..i], b, removed, remaining)
    {
      ChoiceStep(original, i, b, removed, remaining);
      var edited, before, after := EditChoice(choices[i], b);
      choices[i] := edited;
      if after != before { removed := true; }
      remaining := remaining + after;
    }
    assert original[..|original|] == original;
  }

  method StripOpenAi(response: Val, b: Backend) returns (r: Option<Val>)
    ensures r == Strip(response, OpenAi, b)
  {
    var list := GetList(response, "choices");
    if list.None? { return None; }
    if list.value == [] { return None; }
    var choices := new Val[|list.value|](i requires 0 <= i < |list.value| => list.value[i]);
    assert choices[..] == list.value;
    var removed, remaining := EditChoices(choices, b);
    if !removed || remaining == 0 { return None; }
    r := Some(Put(response, "choices", Arr(choices[..])));
  }

  lemma ChoiceStep(choices: seq<Val>, i: nat, b: Backend, removed: bool, remaining: nat)
    requires i < |choices| && ChoicesSeen(choices[..i], b, removed, remaining)
    ensures var here := ChoiceCalls(choices[i]);
            var after := |Filter(here, ClientOnly(OpenAi, b))|;
            ChoicesSeen(choices[..i + 1], b, removed || after != |here|, remaining + after)
  {
    assert choices[..i + 1][..i] == choices[..i];
    FilterConcat(CallsOf(choices[..i]), ChoiceCalls(choices[i]), PrivateOnly(OpenAi, b));
    FilterConcat(CallsOf(choices[..i]), ChoiceCalls(choices[i]), ClientOnly(OpenAi, b));
    FilterCount(ChoiceCalls(choices[i]), OpenAi, b);
  }

  /** One choice: its new form and the number of calls before and after. */
  method EditChoice(choice: Val, b: Backend) returns (edited: Val, before: nat, after: nat)
    ensures edited == StripChoice(choice, b)
    ensures before == |ChoiceCalls(choice)| && after == |Filter(ChoiceCalls(choice), ClientOnly(OpenAi, b))|
  {
    edited, before, after := choice, 0, 0;
    var message := Get(choice, "message");
    if message.None? { return; }
    var calls := GetList(message.value, "tool_calls");
    if calls.None? { return; }
    var kept := Filter(calls.value, ClientOnly(OpenAi, b));
    before, after := |calls.value|, |kept|;
    if before > 0 && after == 0 {
      edited := Put(choice, "message", Remove(message.value, "tool_calls"));
      if GetText(edited, "finish_reason") == Some("tool_calls") {
        edited := Put(edited, "finish_reason", Txt("stop"));
      }
    } else {
      edited := Put(choice, "message", Put(message.value, "tool_calls", Arr(kept)));
    }
  }

  method StripCalls(response: Val, p: Provider, b: Backend) returns (r: Option<Val>)
    ensures r == Strip(response, p, b)
  {
    match p
    case Anthropic => r := StripAnthropic(response, b);
    case OpenAi => r := StripOpenAi(response, b);
  }

  // ----- what stripping guarantees -----

  lemma GetPut(v: Val, key: string, val: Val, other: string)
    requires v.Obj?
    ensures Get(Put(v, key, val), other) == if other == key then Some(val) else Get(v, other)
  {
    FindPut(v.entries, key, val, other);
  }

  lemma GetRemove(v: Val, key: string, other: string)
    requires v.Obj?
    ensures Get(Remove(v, key), other) == if other == key then None else Get(v, other)
  {
    FindDrop(v.entries, key, other);
  }

  /** A stripped choice shows the client calls it had, in order. */
  lemma ChoiceStripped(choice: Val, b: Backend)
    ensures ChoiceCalls(StripChoice(choice, b)) == Filter(ChoiceCalls(choice), ClientOnly(OpenAi, b))
  {
    var m := Get(choice, "message");
    if m.Some? && GetList(m.value, "tool_calls").Some? {
      var calls := ListOf(m.value, "tool_calls");
      var kept := Filter(calls, ClientOnly(OpenAi, b));
      if calls != [] && kept == [] {
        var bare := Remove(m.value, "tool_calls");
        var plain := Put(choice, "message", bare);
        GetPut(choice, "message", bare, "message");
        GetRemove(m.value, "tool_calls", "tool_calls");
        GetPut(plain, "finish_reason", Txt("stop"), "message");
      } else {
        GetPut(choice, "message", Put(m.value, "tool_calls", Arr(kept)), "message");
        GetPut(m.value, "tool_calls", Arr(kept), "tool_calls");
      }
    }
  }

  lemma {:induction false} CallsStripped(choices: seq<Val>, b: Backend)
    ensures CallsOf(StripChoices(choices, b)) == Filter(CallsOf(choices), ClientOnly(OpenAi, b))
  {
    if choices != [] {
      var n := |choices| - 1;
      CallsStripped(choices[..n], b);
      assert StripChoices(choices, b)[..n] == StripChoices(choices[..n], b);
      ChoiceStripped(choices[n], b);
      FilterConcat(CallsOf(choices[..n]), ChoiceCalls(choices[n]), ClientOnly(OpenAi, b));
    }
  }

  /** Stripping keeps every client call, in order, and no private one. */
  lemma StripKeepsClient(response: Val, p: Provider, b: Backend)
    requires Strip(response, p, b).Some?
    ensures var s := Strip(response, p, b).value;
            Calls(s, p) == ClientCalls(response, p, b) && Calls(s, p) != [] && PrivateCalls(s, p, b) == []
  {
    var s := Strip(response, p, b).value;
    match p {
      case Anthropic =>
        var content := ListOf(response, "content");
        GetPut(response, "content", Arr(Filter(content, VisibleOnly(b))), "content");
        assert ListOf(s, "content") == Filter(content, VisibleOnly(b));
        var both := (x: Val) => ToolUse(x) && !Private(x, Anthropic, b);
        FilterTwice(content, VisibleOnly(b), ToolUse, both);
        FilterTwice(content, ToolUse, ClientOnly(Anthropic, b), both);
      case OpenAi =>
        var choices := ListOf(response, "choices");
        GetPut(response, "choices", Arr(StripChoices(choices, b)), "choices");
        assert ListOf(s, "choices") == StripChoices(choices, b);
        CallsStripped(choices, b);
    }
    FilterNone(Calls(s, p), PrivateOnly(p, b));
  }

  /** Stripping twice is stripping once. */
  lemma StripOnce(response: Val, p: Provider, b: Backend)
    requires Strip(response, p, b).Some?
    ensures Strip(Strip(response, p, b).value, p, b) == None
  {
    StripKeepsClient(response, p, b);
  }

  /**
   * Only the list of blocks or choices changes; blocks that are no private call stay in
   * order, and every choice keeps its position and, if it had no private call, its content.
   */
  lemma StripElsewhere(response: Val, p: Provider, b: Backend, key: string, i: nat)
    requires Strip(response, p, b).Some?
    ensures key != (if p == Anthropic then "content" else "choices") ==>
            Get(Strip(response, p, b).value, key) == Get(response, key)
    ensures p == Anthropic ==>
              ListOf(Strip(response, p, b).value, "content") == Filter(ListOf(response, "content"), VisibleOnly(b))
    ensures p == OpenAi ==>
              var old_, new_ := ListOf(response, "choices"), ListOf(Strip(response, p, b).value, "choices");
              |new_| == |old_| && (i < |old_| ==> ChoiceMatches(old_[i], new_[i], b))
  {
    match p
    case Anthropic => 
      var list := Arr(Filter(ListOf(response, "content"), VisibleOnly(b)));
      GetPut(response, "content", list, key);
      GetPut(response, "content", list, "content");
    case OpenAi =>
      var choices := ListOf(response, "choices");
      var list := Arr(StripChoices(choices, b));
      GetPut(response, "choices", list, key);
      GetPut(response, "choices", list, "choices");
      if i < |choices| { ChoiceRewritten(choices[i], b); }
  }

  /** All members but these two read the same. */
  ghost predicate SameMembers(before: Val, after: Val) {
    forall key :: key != "message" && key != "finish_reason" ==> Get(after, key) == Get(before, key)
  }

  /** All members of the message but its calls read the same. */
  ghost predicate SameMessage(before: Val, after: Val) {
    forall key :: key != "tool_calls" ==> Nested(after, "message", key) == Nested(before, "message", key)
  }

  /** What a stripped choice reads like, member by member. */
  ghost predicate ChoiceMatches(before: Val, after: Val, b: Backend) {
    var calls, kept := ChoiceCalls(before), ChoiceCalls(after);
    && kept == Filter(calls, ClientOnly(OpenAi, b))
    && SameMembers(before, after) && SameMessage(before, after)
    && (!(calls != [] && kept == []) ==> Get(after, "finish_reason") == Get(before, "finish_reason"))
    && (calls != [] && kept == [] ==>
          Nested(after, "message", "tool_calls") == None && Get(after, "finish_reason") == TurnedReason(before))
  }

  /** A finish reason that names calls turns into that of a text turn. */
  function TurnedReason(choice: Val): Option<Val> {
    if GetText(choice, "finish_reason") == Some("tool_calls") then Some(Txt("stop")) else Get(choice, "finish_reason")
  }

  function Nested(v: Val, outer: string, inner: string): Option<Val> {
    var o := Get(v, outer);
    if o.Some? then Get(o.value, inner) else None
  }

  lemma ChoiceRewritten(choice: Val, b: Backend)
    ensures ChoiceMatches(choice, StripChoice(choice, b), b)
  {
    var m := Get(choice, "message");
    if m.None? || GetList(m.value, "tool_calls").None? {
      PlainMatches(choice, b);
    } else if ListOf(m.value, "tool_calls") != [] &&
      Filter(ListOf(m.value, "tool_calls"), ClientOnly(OpenAi, b)) == [] {
      EmptiedMatches(choice, m.value, b);
    } else {
      KeptMatches(choice, m.value, b);
    }
  }

  lemma PlainMatches(choice: Val, b: Backend)
    requires StripChoice(choice, b) == choice && ChoiceCalls(choice) == []
    ensures ChoiceMatches(choice, choice, b)
  {
    FilterNone(ChoiceCalls(choice), ClientOnly(OpenAi, b));
  }

  lemma KeptMatches(choice: Val, m: Val, b: Backend)
    requires Get(choice, "message") == Some(m) && GetList(m, "tool_calls").Some?
    requires ListOf(m, "tool_calls") == [] || Filter(ListOf(m, "tool_calls"), ClientOnly(OpenAi, b)) != []
    ensures ChoiceMatches(choice, StripChoice(choice, b), b)
  {
    ChoiceStripped(choice, b);
    KeptChoice(choice, m, Put(m, "tool_calls", Arr(Filter(ListOf(m, "tool_calls"), ClientOnly(OpenAi, b)))),
               Filter(ListOf(m, "tool_calls"), ClientOnly(OpenAi, b)));
  }

  lemma EmptiedMatches(choice: Val, m: Val, b: Backend)
    requires Get(choice, "message") == Some(m) && GetList(m, "tool_calls").Some?
    requires ListOf(m, "tool_calls") != [] && Filter(ListOf(m, "tool_calls"), ClientOnly(OpenAi, b)) == []
    ensures ChoiceMatches(choice, StripChoice(choice, b), b)
  {
    hide SameMembers, SameMessage, Find, PutEntry, Drop, TurnedReason, ParseRetrieve;
    ChoiceStripped(choice, b);
    EmptiedChoice(choice, m, Remove(m, "tool_calls"), StripChoice(choice, b));
    ReasonTurned(choice, Remove(m, "tool_calls"), StripChoice(choice, b));
  }

  lemma ReasonTurned(choice: Val, bare: Val, after: Val)
    requires choice.Obj?
    requires var plain := Put(choice, "message", bare);
             after == if GetText(plain, "finish_reason") == Some("tool_calls")
               then Put(plain, "finish_reason", Txt("stop")) else plain
    ensures Get(after, "finish_reason") == TurnedReason(choice)
  {
    hide Find, PutEntry;
    var plain := Put(choice, "message", bare);
    GetPut(choice, "message", bare, "finish_reason");
    GetPut(plain, "finish_reason", Txt("stop"), "finish_reason");
  }

  lemma KeptChoice(choice: Val, m: Val, message: Val, kept: seq<Val>)
    requires Get(choice, "message") == Some(m) && m.Obj? && message == Put(m, "tool_calls", Arr(kept))
    ensures var after := Put(choice, "message", message);
            SameMembers(choice, after) && SameMessage(choice, after) &&
              Get(after, "finish_reason") == Get(choice, "finish_reason")
  {
    hide Find, PutEntry;
    var after := Put(choice, "message", message);
    forall key | key != "message"
      ensures Get(after, key) == Get(choice, key) { GetPut(choice, "message", message, key); }
    GetPut(choice, "message", message, "message");
    forall key | key != "tool_calls" ensures Nested(after, "message", key) == Nested(choice, "message", key) {
      GetPut(m, "tool_calls", Arr(kept), key);
    }
  }

  /** A choice emptied of calls, with its finish reason turned if it named them. */
  lemma EmptiedChoice(choice: Val, m: Val, bare: Val, after: Val)
    requires Get(choice, "message") == Some(m) && m.Obj? && bare == Remove(m, "tool_calls")
    requires var plain := Put(choice, "message", bare);
             after == if GetText(plain, "finish_reason") == Some("tool_calls")
               then Put(plain, "finish_reason", Txt("stop")) else plain
    ensures SameMembers(choice, after) && SameMessage(choice, after)
    ensures Nested(after, "message", "tool_calls") == None
  {
    hide Find, PutEntry;
    var plain := Put(choice, "message", bare);
    forall key | key != "message" && key != "finish_reason" ensures Get(after, key) == Get(choice, key) {
      GetPut(choice, "message", bare, key);
      GetPut(plain, "finish_reason", Txt("stop"), key);
    }
    GetPut(plain, "finish_reason", Txt("stop"), "message");
    GetPut(choice, "message", bare, "message");
    forall key
      ensures Nested(after, "message", key) == if key == "tool_calls" then None else Nested(choice, "message", key)
    {
      GetRemove(m, "tool_calls", key);
    }
  }

  // ----- one round -----

  function Id(call: Val): string {
    var id := GetText(call, "id");
    if id.Some? then id.value else ""
  }

  function ToolResult(call: Val, data: Val, p: Provider): Val {
    match p
    case OpenAi =>
      Obj([Entry("content", Txt(Serialize(data))), Entry("role", Txt("tool")), Entry("tool_call_id", Txt(Id(call)))])
    case Anthropic =>
      Obj([Entry("content", Txt(Serialize(data))), Entry("tool_use_id", Txt(Id(call))),
        Entry("type", Txt("tool_result"))])
  }

  function Result(call: Val, p: Provider, b: Backend): Val
    requires Private(call, p, b)
  {
    var parsed := ParseRetrieve(call, p, b).value;
    ToolResult(call, b.retrieve(parsed.hash, parsed.query), p)
  }

  function Results(calls: seq<Val>, p: Provider, b: Backend): (r: seq<Val>)
    requires forall i :: 0 <= i < |calls| ==> Private(calls[i], p, b)
    ensures |r| == |calls| && forall i :: 0 <= i < |r| ==> r[i] == Result(calls[i], p, b)
  {
    seq(|calls|, i requires 0 <= i < |calls| => Result(calls[i], p, b))
  }

  /** The assistant turn rebuilt from a response; the OpenAI arm reads the first choice. */
  function Assistant(response: Val, p: Provider): Val {
    match p
    case Anthropic =>
      var content := Get(response, "content");
      Obj([Entry("content", if content.Some? then content.value else Arr([])), Entry("role", Txt("assistant"))])
    case OpenAi =>
      var choices := ListOf(response, "choices");
      var first := if choices == [] then None else Get(choices[0], "message");
      var message := if first.Some? then first.value else Obj([]);
      var content, calls := Get(message, "content"), Get(message, "tool_calls");
      var turn := Obj([Entry("content", if content.Some? then content.value else NULL),
        Entry("role", Txt("assistant"))]);
      if calls.Some? then Put(turn, "tool_calls", calls.value) else turn
  }

  /** Assistant turn and results, as appended to the conversation. */
  function Turn(response: Val, p: Provider, b: Backend): seq<Val> {
    var results := Results(PrivateCalls(response, p, b), p, b);
    [Assistant(response, p)] +
    match p
    case Anthropic => [Obj([Entry("content", Arr(results)), Entry("role", Txt("user"))])]
    case OpenAi => results
  }

  /** A response the proxy answers by itself: private calls only, in one choice. */
  predicate Resumable(response: Val, p: Provider, b: Backend) {
    && PrivateCalls(response, p, b) != []
    && (p == OpenAi ==> |ListOf(response, "choices")| == 1)
    && |Calls(response, p)| == |PrivateCalls(response, p, b)|
  }

  /** A body the source can set a member of: an object, or `null`. */
  type Request = v: Val | v.Obj? || v == NULL witness NULL

  function WithMessages(request: Request, messages: seq<Val>): Val
  {
    if request.Obj? then Put(request, "messages", Arr(messages)) else Obj([Entry("messages", Arr(messages))])
  }

  // ----- the loop -----

  /** Where the loop stands: conversation, last response, requests sent, and the upstream's coming answers. */
  datatype Progress = Progress(messages: seq<Val>, current: Val, changed: bool, rounds: nat, sent: seq<Val>,
                               coming: seq<Option<Val>>)

  function Stripped(g: Progress, p: Provider, b: Backend): Progress {
    var s := Strip(g.current, p, b);
    if s.Some? then g.(current := s.value, changed := true) else g
  }

  /** The request of this round has been sent. */
  function Asked(request: Request, g: Progress, p: Provider, b: Backend): Progress
  {
    var messages := g.messages + Turn(g.current, p, b);
    g.(messages := messages, rounds := g.rounds + 1, sent := g.sent + [WithMessages(request, messages)])
  }

  /** The upstream's next answer has arrived. */
  function Heeded(g: Progress): Progress
    requires g.coming != [] && g.coming[0].Some?
  {
    g.(current := g.coming[0].value, changed := true, coming := g.coming[1..])
  }

  function Loop(request: Request, g: Progress, p: Provider, b: Backend): Progress
    decreases MAX_ROUNDS - g.rounds
  {
    if g.rounds >= MAX_ROUNDS || PrivateCalls(g.current, p, b) == [] then g
    else if !Resumable(g.current, p, b) then Stripped(g, p, b)
    else
      var asked := Asked(request, g, p, b);
      if g.coming == [] || g.coming[0].None? then asked
      else Loop(request, Heeded(asked), p, b)
  }

  function Start(request: Request, initial: Val, answers: seq<Option<Val>>): Progress {
    Progress(ListOf(request, "messages"), initial, false, 0, [], answers)
  }

  /** The whole continuation: the loop, and a last stripping. */
  function Continued(request: Request, initial: Val, answers: seq<Option<Val>>, p: Provider, b: Backend): Progress
  {
    Stripped(Loop(request, Start(request, initial, answers), p, b), p, b)
  }

  /**
   * `answers` is what the upstream does to each request it may get: a response, or a failure;
   * it fails once they are used up.
   */
  method RunCcrContinuation(request: Request, initial: Val, answers: seq<Option<Val>>, p: Provider, b: Backend)
    returns (current: Val, changed: bool, sent: seq<Val>)
    ensures var g := Continued(request, initial, answers, p, b);
            current == g.current && changed == g.changed && sent == g.sent
  {
    var messages, rounds: nat, coming := ListOf(request, "messages"), 0, answers;
    current, changed, sent := initial, false, [];
    ghost var all := Loop(request, Start(request, initial, answers), p, b);
    var running := true;
    while running && rounds < MAX_ROUNDS
      invariant Reaches(request, Progress(messages, current, changed, rounds, sent, coming), running, p, b, all)
      decreases running, MAX_ROUNDS - rounds
    {
      ghost var next;
      messages, current, changed, rounds, sent, coming, running, next :=
        Round(request, messages, current, changed, rounds, sent, coming, p, b);
    }
    var stripped := StripCalls(current, p, b);
    if stripped.Some? { current, changed := stripped.value, true; }
  }

  /** The body of the loop; `running` tells whether it goes on. */
  method Round(request: Request, messages: seq<Val>, current: Val, changed: bool, rounds: nat, sent: seq<Val>,
               coming: seq<Option<Val>>, p: Provider, b: Backend)
    returns (messages1: seq<Val>, current1: Val, changed1: bool, rounds1: nat, sent1: seq<Val>,
             coming1: seq<Option<Val>>, running: bool, ghost g1: Progress)
    requires rounds < MAX_ROUNDS
    ensures g1 == Progress(messages1, current1, changed1, rounds1, sent1, coming1)
    ensures Reaches(request, g1, running, p, b,
            Loop(request, Progress(messages, current, changed, rounds, sent, coming), p, b))
    ensures running ==> rounds1 == rounds + 1
  {
    hide Filter, ListOf, PrivateCalls, Strip, Turn;
    messages1, current1, changed1, rounds1, sent1, coming1, running :=
      messages, current, changed, rounds, sent, coming, false;
    ghost var g := Progress(messages, current, changed, rounds, sent, coming);
    g1 := g;
    var total := |Calls(current, p)|;
    var calls := PrivateCalls(current, p, b);
    if calls == [] { return; }
    if (p == OpenAi && |ListOf(current, "choices")| != 1) || total != |calls| {
      StepMixed(request, g, p, b);
      var stripped := StripCalls(current, p, b);
      if stripped.Some? { current1, changed1 := stripped.value, true; }
      g1 := Stripped(g, p, b);
      return;
    }
    StepAsked(request, g, p, b);
    rounds1 := rounds + 1;
    messages1, sent1 := Ask(request, messages, current, calls, sent, p, b);
    g1 := Asked(request, g, p, b);
    assert g1 == Progress(messages1, current1, changed1, rounds1, sent1, coming1);
    if coming != [] && coming[0].Some? {
      current1, changed1, coming1, running := coming[0].value, true, coming[1..], true;
      g1 := Heeded(g1);
    }
  }

  lemma StepMixed(request: Request, g: Progress, p: Provider, b: Backend)
    requires g.rounds < MAX_ROUNDS && PrivateCalls(g.current, p, b) != [] && !Resumable(g.current, p, b)
    ensures Loop(request, g, p, b) == Stripped(g, p, b)
  {
  }

  lemma StepAsked(request: Request, g: Progress, p: Provider, b: Backend)
    requires g.rounds < MAX_ROUNDS && Resumable(g.current, p, b)
    ensures Loop(request, g, p, b) == if g.coming == [] || g.coming[0].None? then Asked(request, g, p, b)
                                      else Loop(request, Answered(request, g, p, b), p, b)
  {
  }

  /** One request: the assistant turn, the results, and the body that carries them. */
  method Ask(request: Request, messages: seq<Val>, current: Val, calls: seq<Val>, sent: seq<Val>, p: Provider,
             b: Backend)
    returns (longer: seq<Val>, more: seq<Val>)
    requires calls == PrivateCalls(current, p, b)
    ensures longer == messages + Turn(current, p, b) && more == sent + [WithMessages(request, longer)]
  {
    var results := ResolveCalls(calls, p, b);
    longer := AppendTurn(messages, current, results, p, b);
    more := sent + [WithMessages(request, longer)];
  }

  /** While running the loop will get to `all`; afterwards it is there. */
  predicate Reaches(request: Request, g: Progress, running: bool, p: Provider, b: Backend, all: Progress)
  {
    if running then Loop(request, g, p, b) == all
    else g.current == all.current && g.changed == all.changed && g.sent == all.sent
  }

  /** The progress after an answered request. */
  function Answered(request: Request, g: Progress, p: Provider, b: Backend): Progress
    requires g.coming != [] && g.coming[0].Some?
  {
    Heeded(Asked(request, g, p, b))
  }

  method ResolveCalls(calls: seq<Val>, p: Provider, b: Backend) returns (results: seq<Val>)
    requires forall i :: 0 <= i < |calls| ==> Private(calls[i], p, b)
    ensures results == Results(calls, p, b)
  {
    hide Result, Private;
    results := [];
    for i := 0 to |calls|
      invariant |results| == i && forall j :: 0 <= j < i ==> results[j] == Result(calls[j], p, b)
    {
      results := results + [Result(calls[i], p, b)];
    }
  }

  method AppendTurn(messages: seq<Val>, current: Val, results: seq<Val>, p: Provider, b: Backend)
    returns (out: seq<Val>)
    requires results == Results(PrivateCalls(current, p, b), p, b)
    ensures out == messages + Turn(current, p, b)
  {
    out := messages + [Assistant(current, p)];
    match p {
      case Anthropic => out := out + [Obj([Entry("content", Arr(results)), Entry("role", Txt("user"))])];
      case OpenAi => out := out + results;
    }
  }

  // ----- what is sent -----

  /** The response the loop answers in round `k`. */
  function Heard(initial: Val, answers: seq<Option<Val>>, k: nat): Val {
    if k == 0 then initial else if k <= |answers| && answers[k - 1].Some? then answers[k - 1].value else NULL
  }

  /** The turns of the first `k` rounds. */
  function Turns(initial: Val, answers: seq<Option<Val>>, k: nat, p: Provider, b: Backend): seq<Val> {
    if k == 0 then [] else Turns(initial, answers, k - 1, p, b) + Turn(Heard(initial, answers, k - 1), p, b)
  }

  /** What holds of the loop after `g.rounds` answered rounds. */
  predicate OnTrack(request: Request, initial: Val, answers: seq<Option<Val>>, p: Provider, b: Backend, g: Progress)
  {
    var n := g.rounds;
    && n <= |answers| && n <= MAX_ROUNDS && |g.sent| == n && g.coming == answers[n..]
    && (n > 0 ==> answers[n - 1].Some?)
    && g.current == Heard(initial, answers, n) && g.changed == (n > 0)
    && g.messages == ListOf(request, "messages") + Turns(initial, answers, n, p, b)
    && AllSent(request, initial, answers, p, b, g.sent, n)
  }

  /** The first `n` requests are as they should be, each but the last known to be answered. */
  predicate AllSent(request: Request, initial: Val, answers: seq<Option<Val>>, p: Provider, b: Backend, sent: seq<Val>,
                    n: nat)
  {
    && |sent| <= MAX_ROUNDS && n <= |sent|
    && forall k :: 0 <= k < n ==> SentOk(request, initial, answers, p, b, sent, k)
  }

  /** The `k`-th request carries the original messages followed by `k + 1` answered turns. */
  predicate SentOk(request: Request, initial: Val, answers: seq<Option<Val>>, p: Provider, b: Backend, sent: seq<Val>,
                   k: nat)
  {
    && k < |sent| && Resumable(Heard(initial, answers, k), p, b)
    && (k > 0 ==> k <= |answers| && answers[k - 1].Some?)
    && sent[k] == WithMessages(request, ListOf(request, "messages") + Turns(initial, answers, k + 1, p, b))
  }

  lemma SentStays(request: Request, initial: Val, answers: seq<Option<Val>>, p: Provider, b: Backend, sent: seq<Val>,
                  more: seq<Val>, k: nat)
    requires SentOk(request, initial, answers, p, b, sent, k)
    ensures SentOk(request, initial, answers, p, b, sent + more, k)
  {
    assert (sent + more)[k] == sent[k];
  }

  lemma LongerConversation(original: seq<Val>, before: seq<Val>, turn: seq<Val>, all: seq<Val>)
    requires all == before + turn
    ensures (original + before) + turn == original + all
  {
  }

  lemma AskedMessages(request: Request, initial: Val, answers: seq<Option<Val>>, p: Provider, b: Backend, g: Progress)
    requires g.messages == ListOf(request, "messages") + Turns(initial, answers, g.rounds, p, b)
    requires g.current == Heard(initial, answers, g.rounds)
    ensures Asked(request, g, p, b).messages
            == ListOf(request, "messages") + Turns(initial, answers, g.rounds + 1, p, b)
  {
    LongerConversation(ListOf(request, "messages"), Turns(initial, answers, g.rounds, p, b), Turn(g.current, p, b),
                       Turns(initial, answers, g.rounds + 1, p, b));
  }

  lemma SentMore(request: Request, initial: Val, answers: seq<Option<Val>>, p: Provider, b: Backend, sent: seq<Val>,
                 body: Val)
    requires AllSent(request, initial, answers, p, b, sent, |sent|) && |sent| < MAX_ROUNDS
    requires SentOk(request, initial, answers, p, b, sent + [body], |sent|)
    ensures AllSent(request, initial, answers, p, b, sent + [body], |sent| + 1)
  {
    hide SentOk;
    forall k | 0 <= k <= |sent| ensures SentOk(request, initial, answers, p, b, sent + [body], k) {
      if k < |sent| { SentStays(request, initial, answers, p, b, sent, [body], k); }
    }
  }

  lemma AskedOk(request: Request, initial: Val, answers: seq<Option<Val>>, p: Provider, b: Backend, g: Progress)
    requires OnTrack(request, initial, answers, p, b, g) && Resumable(g.current, p, b) && g.rounds < MAX_ROUNDS
    ensures AllSent(request, initial, answers, p, b, Asked(request, g, p, b).sent, g.rounds + 1)
    ensures |Asked(request, g, p, b).sent| == g.rounds + 1
  {
    hide Turn, Turns, Heard, Resumable, WithMessages, ListOf;
    AskedMessages(request, initial, answers, p, b, g);
    SentMore(request, initial, answers, p, b, g.sent, WithMessages(request, Asked(request, g, p, b).messages));
  }

  lemma AnsweredOk(request: Request, initial: Val, answers: seq<Option<Val>>, p: Provider, b: Backend, g: Progress)
    requires OnTrack(request, initial, answers, p, b, g) && Resumable(g.current, p, b) && g.rounds < MAX_ROUNDS
    requires g.coming != [] && g.coming[0].Some?
    ensures OnTrack(request, initial, answers, p, b, Answered(request, g, p, b))
  {
    hide Turn, Turns, Resumable, WithMessages, ListOf, AllSent;
    AskedMessages(request, initial, answers, p, b, g);
    AskedOk(request, initial, answers, p, b, g);
    assert g.coming[0] == answers[g.rounds] && g.coming[1..] == answers[g.rounds + 1..];
  }

  lemma {:induction false} LoopSound(request: Request, initial: Val, answers: seq<Option<Val>>, p: Provider,
                                     b: Backend, g: Progress)
    requires OnTrack(request, initial, answers, p, b, g)
    ensures var out := Loop(request, g, p, b);
            AllSent(request, initial, answers, p, b, out.sent, |out.sent|) && (!out.changed ==> out.current == initial)
    decreases MAX_ROUNDS - g.rounds
  {
    LoopCases(request, g, p, b);
    if g.rounds < MAX_ROUNDS && Resumable(g.current, p, b) {
      if g.coming != [] && g.coming[0].Some? {
        AnsweredOk(request, initial, answers, p, b, g);
        LoopSound(request, initial, answers, p, b, Answered(request, g, p, b));
      } else {
        AskedOk(request, initial, answers, p, b, g);
      }
    }
  }

  lemma LoopCases(request: Request, g: Progress, p: Provider, b: Backend)
    ensures var out := Loop(request, g, p, b);
            if g.rounds >= MAX_ROUNDS || !Resumable(g.current, p, b) then
              out.sent == g.sent && (out == g || (out.changed && !g.changed) || g.changed)
            else if g.coming == [] || g.coming[0].None? then out == Asked(request, g, p, b)
            else out == Loop(request, Answered(request, g, p, b), p, b)
  {
  }

  /**
   * For every behaviour of the upstream at most three continuation requests are sent, and the
   * k-th is the original request whose messages are the original ones followed by the k
   * turns answered so far, each of them a response of private calls only. An unchanged
   * result is the initial response.
   */
  lemma ContinuationBodies(request: Request, initial: Val, answers: seq<Option<Val>>, p: Provider, b: Backend)
    ensures var out := Continued(request, initial, answers, p, b);
            && |out.sent| <= 3
            && (forall k :: 0 <= k < |out.sent| ==> SentOk(request, initial, answers, p, b, out.sent, k))
            && (!out.changed ==> out.current == initial)
  {
    var g := Start(request, initial, answers);
    assert answers[0..] == answers;
    assert ListOf(request, "messages") + [] == ListOf(request, "messages");
    LoopSound(request, initial, answers, p, b, g);
  }

  /** Everything but the messages is sent as the client wrote it. */
  lemma OnlyMessagesChange(request: Request, messages: seq<Val>, key: string)
    ensures Get(WithMessages(request, messages), key) == if key == "messages" then Some(Arr(messages))
            else Get(request, key)
  {
    if request.Obj? {
      GetPut(request, "messages", Arr(messages), key);
    } else {
      var es := [Entry("messages", Arr(messages))];
      assert es[1..] == [] && Values.Find(es[1..], key) == None;
    }
  }

  // ----- every call is answered once, in order -----

  /** The calls an assistant turn shows, and the results that follow it. */
  function TurnCalls(turn: Val, p: Provider): seq<Val> {
    match p
    case Anthropic => Filter(ListOf(turn, "content"), ToolUse)
    case OpenAi => ListOf(turn, "tool_calls")
  }

  function TurnResults(turn: seq<Val>, p: Provider): seq<Val>
    requires turn != []
  {
    match p
    case Anthropic => if |turn| == 2 then ListOf(turn[1], "content") else []
    case OpenAi => turn[1..]
  }

  function ResultId(result: Val, p: Provider): Option<string> {
    GetText(result, if p == OpenAi then "tool_call_id" else "tool_use_id")
  }

  lemma AllPrivate(response: Val, p: Provider, b: Backend)
    requires Resumable(response, p, b)
    ensures PrivateCalls(response, p, b) == Calls(response, p)
  {
    FilterFull(Calls(response, p), PrivateOnly(p, b));
  }

  lemma ResultRead(call: Val, p: Provider, b: Backend)
    requires Private(call, p, b)
    ensures ResultId(Result(call, p, b), p) == Some(Id(call))
  {
    var r := Result(call, p, b);
    match p
    case OpenAi => ThirdFound(r.entries, "tool_call_id");
    case Anthropic => SecondFound(r.entries, "tool_use_id");
  }

  lemma SecondFound(es: seq<Entry>, key: string)
    requires |es| >= 2 && es[0].key != key && es[1].key == key
    ensures Values.Find(es, key) == Some(es[1].val)
  {
    assert es[1..][0] == es[1];
  }

  lemma ThirdFound(es: seq<Entry>, key: string)
    requires |es| >= 3 && es[0].key != key && es[1].key != key && es[2].key == key
    ensures Values.Find(es, key) == Some(es[2].val)
  {
    assert es[1..][0] == es[1] && es[1..][1] == es[2];
    SecondFound(es[1..], key);
  }

  /** The rebuilt assistant turn shows the calls of the response. */
  lemma AssistantCalls(response: Val, p: Provider, b: Backend)
    requires Resumable(response, p, b)
    ensures TurnCalls(Assistant(response, p), p) == Calls(response, p)
  {
    match p
    case Anthropic =>
    case OpenAi =>
      var choices := ListOf(response, "choices");
      assert choices[..0] == [] && CallsOf(choices[..0]) == [];
      assert CallsOf(choices) == [] + ChoiceCalls(choices[0]) == ChoiceCalls(choices[0]);
      FilterNone(Calls(response, p), PrivateOnly(p, b));
      var message := Get(choices[0], "message").value;
      var content := Get(message, "content");
      var turn := Obj([Entry("content", if content.Some? then content.value else NULL),
        Entry("role", Txt("assistant"))]);
      GetPut(turn, "tool_calls", Get(message, "tool_calls").value, "tool_calls");
  }

  lemma ResultsSent(response: Val, p: Provider, b: Backend)
    ensures var turn, results := Turn(response, p, b), Results(PrivateCalls(response, p, b), p, b);
            && turn[0] == Assistant(response, p) && TurnResults(turn, p) == results
            && |turn| == (if p == Anthropic then 2 else 1 + |results|)
  {
    hide Assistant, Calls;
    var turn, results := Turn(response, p, b), Results(PrivateCalls(response, p, b), p, b);
    if p == Anthropic {
      assert turn[1] == Obj([Entry("content", Arr(results)), Entry("role", Txt("user"))]);
      assert ListOf(turn[1], "content") == results;
    } else {
      assert turn[1..] == results;
    }
  }

  /**
   * In every turn the proxy sends, each tool call of the assistant has exactly one result,
   * under the same id and in the same place.
   */
  lemma TurnAnswered(response: Val, p: Provider, b: Backend)
    requires Resumable(response, p, b)
    ensures var turn := Turn(response, p, b);
            var calls, results := TurnCalls(turn[0], p), TurnResults(turn, p);
            && |turn| == (if p == Anthropic then 2 else 1 + |calls|)
            && |results| == |calls| && calls == Calls(response, p) && calls != []
            && forall i :: 0 <= i < |calls| ==> ResultId(results[i], p) == Some(Id(calls[i]))
  {
    hide Turn, Calls, TurnResults, TurnCalls, Assistant, ResultId;
    var calls := Calls(response, p);
    AllPrivate(response, p, b);
    AssistantCalls(response, p, b);
    ResultsSent(response, p, b);
    var results := Results(calls, p, b);
    forall i | 0 <= i < |calls| ensures ResultId(results[i], p) == Some(Id(calls[i])) { ResultRead(calls[i], p, b); }
  }

  // ----- what the client sees -----

  /** The response returned never shows private calls beside client calls. */
  lemma NeverMixed(request: Request, initial: Val, answers: seq<Option<Val>>, p: Provider, b: Backend)
    ensures var out := Continued(request, initial, answers, p, b);
            PrivateCalls(out.current, p, b) == [] || ClientCalls(out.current, p, b) == []
  {
    var g := Loop(request, Start(request, initial, answers), p, b);
    if Strip(g.current, p, b).Some? { StripKeepsClient(g.current, p, b); }
  }

  /**
   * The round whose response the loop does not get past: it is not one the proxy answers by
   * itself, the limit is reached, or the request that answers it fails.
   */
  function LastRound(initial: Val, answers: seq<Option<Val>>, p: Provider, b: Backend, k: nat): (r: nat)
    requires k <= MAX_ROUNDS
    ensures k <= r <= MAX_ROUNDS
    decreases MAX_ROUNDS - k
  {
    if k == MAX_ROUNDS || !Resumable(Heard(initial, answers, k), p, b) || Unanswered(answers, k) then k
    else LastRound(initial, answers, p, b, k + 1)
  }

  /** The request of round `k` fails. */
  predicate Unanswered(answers: seq<Option<Val>>, k: nat) { k >= |answers| || answers[k].None? }

  /** The response of the last round, before a last stripping. */
  function LastHeard(initial: Val, answers: seq<Option<Val>>, p: Provider, b: Backend): Val {
    Heard(initial, answers, LastRound(initial, answers, p, b, 0))
  }

  /** What stripping makes of a response. */
  function Shown(response: Val, p: Provider, b: Backend): Val {
    var s := Strip(response, p, b);
    if s.Some? then s.value else response
  }

  lemma ShownOnce(response: Val, p: Provider, b: Backend)
    ensures Shown(Shown(response, p, b), p, b) == Shown(response, p, b)
  {
    if Strip(response, p, b).Some? { StripOnce(response, p, b); }
  }

  lemma {:induction false} LoopReturns(request: Request, initial: Val, answers: seq<Option<Val>>, p: Provider,
                                       b: Backend, g: Progress)
    requires g.rounds <= MAX_ROUNDS && g.rounds <= |answers| && g.coming == answers[g.rounds..]
    requires g.current == Heard(initial, answers, g.rounds)
    ensures Shown(Loop(request, g, p, b).current, p, b)
            == Shown(Heard(initial, answers, LastRound(initial, answers, p, b, g.rounds)), p, b)
    decreases MAX_ROUNDS - g.rounds
  {
    LoopStops(request, g, p, b);
    ShownOnce(g.current, p, b);
    if g.rounds < MAX_ROUNDS && Resumable(g.current, p, b) && g.coming != [] && g.coming[0].Some? {
      assert g.coming[0] == answers[g.rounds] && g.coming[1..] == answers[g.rounds + 1..];
      LoopReturns(request, initial, answers, p, b, Answered(request, g, p, b));
    }
  }

  lemma LoopStops(request: Request, g: Progress, p: Provider, b: Backend)
    ensures var out := Loop(request, g, p, b);
            if g.rounds >= MAX_ROUNDS || !Resumable(g.current, p, b) then
              out.current == g.current || out.current == Shown(g.current, p, b)
            else if g.coming == [] || g.coming[0].None? then out.current == g.current
            else out == Loop(request, Answered(request, g, p, b), p, b)
  {
  }

  /** The client gets the response of the last round, stripped. */
  lemma ReturnsLast(request: Request, initial: Val, answers: seq<Option<Val>>, p: Provider, b: Backend)
    ensures Continued(request, initial, answers, p, b).current == Shown(LastHeard(initial, answers, p, b), p, b)
  {
    assert answers[0..] == answers;
    LoopReturns(request, initial, answers, p, b, Start(request, initial, answers));
  }

  /**
   * Private calls reach the client exactly when the response of the last round holds private
   * calls and no other: it stands at the limit, its request failed, or it has several choices.
   */
  lemma PrivateLeft(request: Request, initial: Val, answers: seq<Option<Val>>, p: Provider, b: Backend)
    ensures var k, last := LastRound(initial, answers, p, b, 0), LastHeard(initial, answers, p, b);
            && (PrivateCalls(Continued(request, initial, answers, p, b).current, p, b) != []
                <==> PrivateCalls(last, p, b) != [] && ClientCalls(last, p, b) == [])
            && (PrivateCalls(last, p, b) != [] && ClientCalls(last, p, b) == [] ==>
                  || k == MAX_ROUNDS || Unanswered(answers, k)
                  || (p == OpenAi && |ListOf(last, "choices")| != 1))
  {
    var last := LastHeard(initial, answers, p, b);
    ReturnsLast(request, initial, answers, p, b);
    if Strip(last, p, b).Some? { StripKeepsClient(last, p, b); }
    FilterCount(Calls(last, p), p, b);
    StopReason(initial, answers, p, b, 0);
  }

  lemma {:induction false} StopReason(initial: Val, answers: seq<Option<Val>>, p: Provider, b: Backend, k: nat)
    requires k <= MAX_ROUNDS
    ensures var r := LastRound(initial, answers, p, b, k);
            r == MAX_ROUNDS || !Resumable(Heard(initial, answers, r), p, b) || Unanswered(answers, r)
    decreases MAX_ROUNDS - k
  {
    if k < MAX_ROUNDS && Resumable(Heard(initial, answers, k), p, b) && !Unanswered(answers, k) {
      StopReason(initial, answers, p, b, k + 1);
    }
  }

  // ----- the endings that show private calls -----

  function RetrievalCall(): Val {
    Obj([Entry("input", Obj([Entry("hash", Txt("h"))])), Entry("name", Txt(RETRIEVE)), Entry("type", Txt("tool_use"))])
  }

  /** A response with one retrieval call, for the hash `h`. */
  function Retrieval(): Val { Obj([Entry("content", Arr([RetrievalCall()]))]) }

  lemma FirstFound(es: seq<Entry>, key: string)
    requires es != [] && es[0].key == key
    ensures Values.Find(es, key) == Some(es[0].val)
  {
  }

  lemma RetrievalNamed()
    ensures RetrieveNamed(Some(RETRIEVE))
  {
  }

  lemma RetrievalIsPrivate(b: Backend)
    ensures Private(RetrievalCall(), Anthropic, b) && ToolUse(RetrievalCall())
  {
    var es := RetrievalCall().entries;
    RetrievalNamed();
    FirstFound(es, "input");
    SecondFound(es, "name");
    assert es[1].key[0] == 'n';
    ThirdFound(es, "type");
    FirstFound([Entry("hash", Txt("h"))], "hash");
  }

  lemma RetrievalCalls(b: Backend)
    ensures Calls(Retrieval(), Anthropic) == [RetrievalCall()]
    ensures PrivateCalls(Retrieval(), Anthropic, b) == [RetrievalCall()] && ClientCalls(Retrieval(), Anthropic, b) == []
  {
    hide Find, RetrieveNamed, ParseRetrieve, Private, ToolUse;
    FirstFound(Retrieval().entries, "content");
    RetrievalIsPrivate(b);
    FilterOne(RetrievalCall(), ToolUse);
    FilterOne(RetrievalCall(), PrivateOnly(Anthropic, b));
    FilterOne(RetrievalCall(), ClientOnly(Anthropic, b));
  }

  lemma NothingStripped(response: Val, p: Provider, b: Backend)
    requires ClientCalls(response, p, b) == []
    ensures Shown(response, p, b) == response
  {
  }

  lemma HeardAgain(response: Val, answers: seq<Option<Val>>, p: Provider, b: Backend)
    requires forall i :: 0 <= i < |answers| ==> answers[i] == Some(response)
    requires |answers| >= MAX_ROUNDS
    ensures LastHeard(response, answers, p, b) == response
  {
  }

  lemma HeardFirst(response: Val, p: Provider, b: Backend)
    ensures LastHeard(response, [None], p, b) == response
  {
  }

  /** A failed continuation: the retrieval call is what the client gets. */
  lemma FailureShows(request: Request, b: Backend)
    ensures Continued(request, Retrieval(), [None], Anthropic, b).current == Retrieval()
    ensures PrivateCalls(Retrieval(), Anthropic, b) != []
  {
    RetrievalCalls(b);
    HeardFirst(Retrieval(), Anthropic, b);
    ReturnsLast(request, Retrieval(), [None], Anthropic, b);
    NothingStripped(Retrieval(), Anthropic, b);
  }

  /** An upstream that keeps asking: after three rounds its fourth call is shown. */
  lemma LimitShows(request: Request, answers: seq<Option<Val>>, b: Backend)
    requires |answers| == 3 && forall i :: 0 <= i < |answers| ==> answers[i] == Some(Retrieval())
    ensures LastRound(Retrieval(), answers, Anthropic, b, 0) == 3
    ensures Continued(request, Retrieval(), answers, Anthropic, b).current == Retrieval()
    ensures PrivateCalls(Retrieval(), Anthropic, b) != []
  {
    RetrievalCalls(b);
    RoundsOn(Retrieval(), answers, Anthropic, b, 0);
    HeardAgain(Retrieval(), answers, Anthropic, b);
    ReturnsLast(request, Retrieval(), answers, Anthropic, b);
    NothingStripped(Retrieval(), Anthropic, b);
  }

  lemma {:induction false} RoundsOn(response: Val, answers: seq<Option<Val>>, p: Provider, b: Backend, k: nat)
    requires |answers| >= MAX_ROUNDS && forall i :: 0 <= i < |answers| ==> answers[i] == Some(response)
    requires Resumable(response, p, b) && k <= MAX_ROUNDS
    ensures LastRound(response, answers, p, b, k) == MAX_ROUNDS
    decreases MAX_ROUNDS - k
  {
    hide Resumable, PrivateCalls;
    if k < MAX_ROUNDS { RoundsOn(response, answers, p, b, k + 1); }
  }

  function SpelledCall(): Val {
    Obj([Entry("function", Obj([Entry("arguments", Txt("{\"hash\":\"h\"}")), Entry("name", Txt(RETRIEVE))]))])
  }

  function ChoiceOf(calls: seq<Val>): Val { Obj([Entry("message", Obj([Entry("tool_calls", Arr(calls))]))]) }

  /** A response with two choices, the first of which makes a retrieval call. */
  function TwoChoices(): Val { Obj([Entry("choices", Arr([ChoiceOf([SpelledCall()]), ChoiceOf([])]))]) }

  function HashKid(): Kid { Kid("", "hash", "", "", Str("h"), "") }

  lemma HashKidText()
    ensures RenderKid(true, HashKid()) == "\"hash\":\"h\""
  {
  }

  lemma HashWf()
    ensures WfDoc(Doc("", Box(true, [HashKid()], ""), ""))
  {
    hide Decode, Encode;
    var a, b := "hash", "h";
    PlainText(a);
    PlainText(b);
  }

  lemma HashBody()
    ensures RenderDoc(Doc("", Box(true, [HashKid()], ""), "")) == "{\"hash\":\"h\"}"
  {
    hide RenderKid, Render;
    HashKidText();
    OneMember(HashKid());
  }

  lemma OneMember(kid: Kid)
    ensures Render(Box(true, [kid], "")) == "{" + RenderKid(true, kid) + "}"
  {
    assert [kid][1..] == [];
  }

  lemma HashMeans(number: string -> string)
    ensures Sem(Box(true, [HashKid()], ""), number) == Obj([Entry("hash", Txt("h"))])
  {
    hide Text;
    var a, b := "hash", "h";
    TextOf(a);
    TextOf(b);
    assert [HashKid()][..0] == [];
  }

  lemma ReadHash(number: string -> string)
    ensures ReadArguments("{\"hash\":\"h\"}", number) == Some(Obj([Entry("hash", Txt("h"))]))
  {
    HashWf();
    HashBody();
    HashMeans(number);
    JsonParser.ParseComplete(Doc("", Box(true, [HashKid()], ""), ""));
  }

  lemma SpelledIsPrivate(b: Backend)
    ensures Private(SpelledCall(), OpenAi, b)
  {
    ReadHash(b.number);
    RetrievalNamed();
    FirstFound(SpelledCall().entries, "function");
    var es := SpelledCall().entries[0].val.entries;
    FirstFound(es, "arguments");
    SecondFound(es, "name");
    FirstFound([Entry("hash", Txt("h"))], "hash");
  }

  lemma ChoiceCallsOf(calls: seq<Val>)
    ensures ChoiceCalls(ChoiceOf(calls)) == calls
  {
    FirstFound(ChoiceOf(calls).entries, "message");
    FirstFound(ChoiceOf(calls).entries[0].val.entries, "tool_calls");
  }

  lemma CallsOfTwo(x: Val, y: Val)
    ensures CallsOf([x, y]) == ChoiceCalls(x) + ChoiceCalls(y)
  {
    assert [x, y][..1] == [x] && [x][..0] == [];
    assert CallsOf([x]) == [] + ChoiceCalls(x) == ChoiceCalls(x);
  }

  lemma TwoChoicesCalls(b: Backend)
    ensures Calls(TwoChoices(), OpenAi) == [SpelledCall()] && |ListOf(TwoChoices(), "choices")| == 2
    ensures PrivateCalls(TwoChoices(), OpenAi, b) == [SpelledCall()] && ClientCalls(TwoChoices(), OpenAi, b) == []
  {
    FirstFound(TwoChoices().entries, "choices");
    ChoiceCallsOf([SpelledCall()]);
    ChoiceCallsOf([]);
    CallsOfTwo(ChoiceOf([SpelledCall()]), ChoiceOf([]));
    assert [SpelledCall()] + [] == [SpelledCall()];
    SpelledIsPrivate(b);
    FilterOne(SpelledCall(), PrivateOnly(OpenAi, b));
    FilterOne(SpelledCall(), ClientOnly(OpenAi, b));
  }

  /** Two choices: the call is neither answered nor stripped. */
  lemma ChoicesShow(request: Request, answers: seq<Option<Val>>, b: Backend)
    ensures Continued(request, TwoChoices(), answers, OpenAi, b).current == TwoChoices()
    ensures PrivateCalls(TwoChoices(), OpenAi, b) != []
  {
    hide Calls, Strip, PrivateCalls, ClientCalls;
    TwoChoicesCalls(b);
    NeverResumed(TwoChoices(), answers, OpenAi, b);
    ReturnsLast(request, TwoChoices(), answers, OpenAi, b);
    NothingStripped(TwoChoices(), OpenAi, b);
  }

  lemma NeverResumed(response: Val, answers: seq<Option<Val>>, p: Provider, b: Backend)
    requires !Resumable(response, p, b)
    ensures LastHeard(response, answers, p, b) == response
  {
  }
}
