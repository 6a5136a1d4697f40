/** What the continuation requests say: each turn against the response it answers, member by member. */
module Answers {
  import opened Prelude
  import opened Json
  import opened JsonParser
  import opened Values
  import opened LiveZone
  import opened Continuation

  // ----- what a call asks for -----

  /** `name` is the retrieve tool's, bare or behind a server prefix. */
  ghost predicate RetrievalName(name: string) {
    name == "headroom_retrieve" || exists server: string :: name == server + "__headroom_retrieve"
  }

  lemma NameExactly(name: Option<string>)
    ensures RetrieveNamed(name) <==> name.Some? && RetrievalName(name.value)
  {
    if name.Some? {
      var tail := "__" + RETRIEVE;
      assert tail == "__headroom_retrieve";
      var s := name.value;
      if EndsWith(s, tail) { assert s == s[..|s| - |tail|] + tail; }
      if server: string :| s == server + "__headroom_retrieve" { assert s[|s| - |tail|..] == tail; }
    }
  }

  /** The arguments of a call: `input`, or the JSON text in `function.arguments`, `{}` when that is no text. */
  predicate Argues(call: Val, p: Provider, number: string -> string, arguments: Val) {
    match p
    case Anthropic => Get(call, "input") == Some(arguments)
    case OpenAi =>
      var fn := Get(call, "function");
      fn.Some? &&
      var text := Get(fn.value, "arguments");
      if text.Some? && text.value.Txt? then
        Parse(text.value.text).Some? && arguments == Sem(Parse(text.value.text).value.root, number)
      else arguments == Obj([])
  }

  predicate IsText(v: Option<Val>) { v.Some? && v.value.Txt? }

  /** The call asks for the text with this hash, searched for this query if one is given. */
  predicate Asks(arguments: Val, hash: string, query: Option<string>) {
    && Get(arguments, "hash") == Some(Txt(hash))
    && (query.Some? ==> Get(arguments, "query") == Some(Txt(query.value)))
    && (query.None? ==> !IsText(Get(arguments, "query")))
  }

  function NameOf(call: Val, p: Provider): Option<Val> {
    match p
    case Anthropic => Get(call, "name")
    case OpenAi => var fn := Get(call, "function"); if fn.None? then None else Get(fn.value, "name")
  }

  ghost predicate Named(call: Val, p: Provider) {
    var name := NameOf(call, p);
    name.Some? && name.value.Txt? && RetrievalName(name.value.text)
  }

  lemma EmptyArguments(number: string -> string)
    ensures Parse("{}").Some? && Sem(Parse("{}").value.root, number) == Obj([])
  {
    var d := Doc("", Box(true, [], ""), "");
    assert RenderDoc(d) == "{}";
    ParseComplete(d);
  }

  lemma ArgumentsRead(call: Val, p: Provider, b: Backend, arguments: Val, hash: string, query: Option<string>)
    requires Named(call, p) && Argues(call, p, b.number, arguments) && Asks(arguments, hash, query)
    ensures ParseRetrieve(call, p, b) == Some(Parsed(hash, query))
  {
    hide RetrievalName, RetrieveNamed, Parse, Sem, Get;
    NameExactly(Some(NameOf(call, p).value.text));
    EmptyArguments(b.number);
  }

  lemma ArgumentsFound(call: Val, p: Provider, b: Backend) returns (arguments: Val)
    requires ParseRetrieve(call, p, b).Some?
    ensures Named(call, p) && Argues(call, p, b.number, arguments)
    ensures var r := ParseRetrieve(call, p, b).value; Asks(arguments, r.hash, r.query)
  {
    hide RetrievalName, RetrieveNamed, Parse, Sem, Get;
    EmptyArguments(b.number);
    match p {
      case Anthropic =>
        NameExactly(GetText(call, "name"));
        arguments := Get(call, "input").value;
      case OpenAi =>
        var fn := Get(call, "function").value;
        NameExactly(GetText(fn, "name"));
        var text := GetText(fn, "arguments");
        arguments := ReadArguments(if text.Some? then text.value else "{}", b.number).value;
    }
  }

  /** A call is the proxy's own exactly when it names the retrieve tool and its arguments hold a hash. */
  lemma PrivateExactly(call: Val, p: Provider, b: Backend)
    ensures Private(call, p, b) <==>
            Named(call, p) && exists arguments, hash, query ::
              Argues(call, p, b.number, arguments) && Asks(arguments, hash, query)
  {
    hide ParseRetrieve, Named, Argues, Asks;
    if Private(call, p, b) { var arguments := ArgumentsFound(call, p, b); }
    if Named(call, p) {
      if arguments, hash, query :| Argues(call, p, b.number, arguments) && Asks(arguments, hash, query) {
        ArgumentsRead(call, p, b, arguments, hash, query);
      }
    }
  }

  // ----- which calls a response makes -----

  /** `calls` are the blocks of type `tool_use`, in order. */
  predicate BlocksCall(blocks: seq<Val>, calls: seq<Val>)
    decreases |blocks|
  {
    if blocks == [] then calls == []
    else
      var n := |blocks| - 1;
      if Get(blocks[n], "type") == Some(Txt("tool_use"))
      then calls != [] && calls[|calls| - 1] == blocks[n] && BlocksCall(blocks[..n], calls[..|calls| - 1])
      else BlocksCall(blocks[..n], calls)
  }

  /** `calls` are those of the message of each choice, in order. */
  predicate ChoicesCall(choices: seq<Val>, calls: seq<Val>)
    decreases |choices|
  {
    if choices == [] then calls == []
    else
      var n := |choices| - 1;
      var message := Get(choices[n], "message");
      var list := if message.Some? then Get(message.value, "tool_calls") else None;
      if list.Some? && list.value.Arr? then
        var k := |calls| - |list.value.items|;
        k >= 0 && calls[k..] == list.value.items && ChoicesCall(choices[..n], calls[..k])
      else ChoicesCall(choices[..n], calls)
  }

  lemma {:induction false} BlocksRead(blocks: seq<Val>)
    ensures BlocksCall(blocks, Filter(blocks, ToolUse))
  {
    hide Get;
    if blocks != [] {
      var n := |blocks| - 1;
      var calls, before := Filter(blocks, ToolUse), Filter(blocks[..n], ToolUse);
      BlocksRead(blocks[..n]);
      if ToolUse(blocks[n]) { assert calls[..|calls| - 1] == before; } else { assert calls == before; }
    }
  }

  lemma {:induction false} ChoicesRead(choices: seq<Val>)
    ensures ChoicesCall(choices, CallsOf(choices))
  {
    hide Get;
    if choices != [] {
      var n := |choices| - 1;
      var calls, before, here := CallsOf(choices), CallsOf(choices[..n]), ChoiceCalls(choices[n]);
      ChoicesRead(choices[..n]);
      assert calls[|calls| - |here|..] == here && calls[..|calls| - |here|] == before;
      assert here == [] ==> calls == before;
    }
  }

  /** The calls of a response are read from these members and no others; a member that is no list has none. */
  lemma CallsExactly(response: Val, p: Provider)
    ensures var list := Get(response, if p == Anthropic then "content" else "choices");
            var items := if list.Some? && list.value.Arr? then list.value.items else [];
            if p == Anthropic then BlocksCall(items, Calls(response, p)) else ChoicesCall(items, Calls(response, p))
  {
    match p
    case Anthropic => BlocksRead(ListOf(response, "content"));
    case OpenAi => ChoicesRead(ListOf(response, "choices"));
  }

  // ----- what a turn says -----

  /** The text of the result is JSON whose value is what the store answers to the call. */
  ghost predicate Tells(content: Option<Val>, call: Val, p: Provider, b: Backend) {
    && content.Some? && content.value.Txt?
    && var d := Parse(content.value.text);
       d.Some? && exists arguments, hash, query ::
         && Argues(call, p, b.number, arguments) && Asks(arguments, hash, query)
         && Sem(d.value.root, b.number) == b.retrieve(hash, query)
  }

  /** The id under which a call is answered; a call without one is answered under the empty text. */
  predicate SameId(id: Option<Val>, call: Val) {
    id.Some? && id.value.Txt? &&
    (Get(call, "id") == id || (id.value.text == "" && !IsText(Get(call, "id"))))
  }

  ghost predicate ResultRight(result: Val, call: Val, p: Provider, b: Backend) {
    && Tells(Get(result, "content"), call, p, b)
    && match p
       case Anthropic =>
         Get(result, "type") == Some(Txt("tool_result")) && SameId(Get(result, "tool_use_id"), call)
       case OpenAi =>
         Get(result, "role") == Some(Txt("tool")) && SameId(Get(result, "tool_call_id"), call)
  }

  /** The assistant's part of a turn repeats what the response says and calls. */
  predicate AssistantRight(turn: Val, response: Val, p: Provider) {
    && Get(turn, "role") == Some(Txt("assistant"))
    && match p
       case Anthropic =>
         Get(turn, "content") == (if Get(response, "content").Some? then Get(response, "content") else Some(Arr([])))
       case OpenAi =>
         var message := FirstMessage(response);
         && Get(turn, "content") == (if Get(message, "content").Some? then Get(message, "content") else Some(NULL))
         && Get(turn, "tool_calls") == Get(message, "tool_calls")
  }

  /** The message of the first choice; an empty object when there is none. */
  function FirstMessage(response: Val): Val {
    var choices := Get(response, "choices");
    if choices.Some? && choices.value.Arr? && choices.value.items != [] && Get(choices.value.items[0], "message").Some?
    then Get(choices.value.items[0], "message").value else Obj([])
  }

  ghost predicate ResultsRight(results: seq<Val>, calls: seq<Val>, p: Provider, b: Backend) {
    |results| == |calls| && forall i :: 0 <= i < |calls| ==> ResultRight(results[i], calls[i], p, b)
  }

  /** A turn of the assistant and the results that answer its calls, one each, in order. */
  ghost predicate TurnRight(turn: seq<Val>, response: Val, p: Provider, b: Backend) {
    && turn != [] && AssistantRight(turn[0], response, p)
    && match p
       case Anthropic =>
         && |turn| == 2 && Get(turn[1], "role") == Some(Txt("user"))
         && var list := Get(turn[1], "content");
            list.Some? && list.value.Arr? && ResultsRight(list.value.items, Calls(response, p), p, b)
       case OpenAi => ResultsRight(turn[1..], Calls(response, p), p, b)
  }

  /** Every answer of the store is a written value. */
  ghost predicate AnswersNormal(b: Backend) {
    GoodNumbers(b.number) && forall hash, query :: Normal(b.retrieve(hash, query), b.number)
  }

  lemma SerializedRead(v: Val, number: string -> string)
    requires GoodNumbers(number) && Normal(v, number)
    ensures Parse(Serialize(v)).Some? && Sem(Parse(Serialize(v)).value.root, number) == v
  {
    var d := Doc("", Tree(v), "");
    SemTree(v, number);
    assert RenderDoc(d) == Serialize(v);
    ParseComplete(d);
  }

  lemma TwoMembers(a: Entry, b: Entry, key: string)
    ensures Get(Obj([a, b]), key) == if key == a.key then Some(a.val) else if key == b.key then Some(b.val) else None
  {
    assert [a, b][1..] == [b] && [b][1..] == [];
    assert Values.Find([b], key) == if key == b.key then Some(b.val) else None;
  }

  lemma ThreeMembers(a: Entry, b: Entry, c: Entry, key: string)
    ensures Get(Obj([a, b, c]), key)
            == if key == a.key then Some(a.val) else Get(Obj([b, c]), key)
  {
    assert [a, b, c][1..] == [b, c];
  }

  lemma ResultMembers(call: Val, data: Val, p: Provider)
    ensures var r := ToolResult(call, data, p);
            && Get(r, "content") == Some(Txt(Serialize(data)))
            && match p
               case Anthropic =>
                 Get(r, "type") == Some(Txt("tool_result")) && Get(r, "tool_use_id") == Some(Txt(Id(call)))
               case OpenAi => Get(r, "role") == Some(Txt("tool")) && Get(r, "tool_call_id") == Some(Txt(Id(call)))
  {
    hide Serialize, Id, Get;
    var es := ToolResult(call, data, p).entries;
    match p {
      case Anthropic =>
        ThreeMembers(es[0], es[1], es[2], "content");
        ThreeMembers(es[0], es[1], es[2], "type");
        ThreeMembers(es[0], es[1], es[2], "tool_use_id");
        TwoMembers(es[1], es[2], "type");
        TwoMembers(es[1], es[2], "tool_use_id");
      case OpenAi =>
        ThreeMembers(es[0], es[1], es[2], "content");
        ThreeMembers(es[0], es[1], es[2], "role");
        ThreeMembers(es[0], es[1], es[2], "tool_call_id");
        TwoMembers(es[1], es[2], "role");
        TwoMembers(es[1], es[2], "tool_call_id");
    }
  }

  lemma ResultTold(call: Val, p: Provider, b: Backend)
    requires Private(call, p, b) && AnswersNormal(b)
    ensures ResultRight(Result(call, p, b), call, p, b)
  {
    hide ParseRetrieve, Named, Argues, Asks, Serialize, ToolResult, Parse, Sem, Normal;
    var arguments := ArgumentsFound(call, p, b);
    var r := ParseRetrieve(call, p, b).value;
    SerializedRead(b.retrieve(r.hash, r.query), b.number);
    ResultMembers(call, b.retrieve(r.hash, r.query), p);
    assert Tells(Some(Txt(Serialize(b.retrieve(r.hash, r.query)))), call, p, b);
  }

  lemma AssistantTold(response: Val, p: Provider)
    ensures AssistantRight(Assistant(response, p), response, p)
  {
    hide Get;
    match p
    case Anthropic =>
      var es := Assistant(response, p).entries;
      TwoMembers(es[0], es[1], "content");
      TwoMembers(es[0], es[1], "role");
    case OpenAi =>
      var message := FirstMessage(response);
      var content, calls := Get(message, "content"), Get(message, "tool_calls");
      var es := [Entry("content", if content.Some? then content.value else NULL), Entry("role", Txt("assistant"))];
      TwoMembers(es[0], es[1], "content");
      TwoMembers(es[0], es[1], "role");
      TwoMembers(es[0], es[1], "tool_calls");
      if calls.Some? { PutMembers(Obj(es), "tool_calls", calls.value); }
  }

  lemma PutMembers(v: Val, key: string, val: Val)
    requires v.Obj?
    ensures forall other :: Get(Put(v, key, val), other) == if other == key then Some(val) else Get(v, other)
  {
    forall other ensures Get(Put(v, key, val), other) == if other == key then Some(val) else Get(v, other) {
      GetPut(v, key, val, other);
    }
  }

  /** Every turn the proxy appends is right. */
  lemma TurnTold(response: Val, p: Provider, b: Backend)
    requires Resumable(response, p, b) && AnswersNormal(b)
    ensures TurnRight(Turn(response, p, b), response, p, b)
  {
    hide Result, ResultRight, AssistantRight, Assistant, Private, Calls, Resumable;
    AllPrivate(response, p, b);
    AssistantTold(response, p);
    var calls, turn := Calls(response, p), Turn(response, p, b);
    var results := Results(calls, p, b);
    forall i | 0 <= i < |calls| ensures ResultRight(results[i], calls[i], p, b) { ResultTold(calls[i], p, b); }
    match p {
      case Anthropic =>
        var es := turn[1].entries;
        TwoMembers(es[0], es[1], "content");
        TwoMembers(es[0], es[1], "role");
      case OpenAi => assert turn[1..] == results;
    }
  }

  // ----- what a request says -----

  /** The messages are the original ones followed by a right turn for each response. */
  ghost predicate Continues(original: seq<Val>, responses: seq<Val>, messages: seq<Val>, p: Provider, b: Backend)
    decreases |responses|
  {
    if responses == [] then messages == original
    else
      exists i :: 0 <= i <= |messages|
                  && Continues(original, responses[..|responses| - 1], messages[..i], p, b)
                  && TurnRight(messages[i..], responses[|responses| - 1], p, b)
  }

  /** The responses answered before and in round `k`. */
  function HeardUntil(initial: Val, answers: seq<Option<Val>>, k: nat): (r: seq<Val>)
    ensures |r| == k
  {
    seq(k, j requires 0 <= j < k => Heard(initial, answers, j))
  }

  lemma {:induction false} TurnsContinue(request: Request, initial: Val, answers: seq<Option<Val>>, p: Provider,
                                         b: Backend, k: nat)
    requires AnswersNormal(b) && forall j :: 0 <= j < k ==> Resumable(Heard(initial, answers, j), p, b)
    ensures Continues(ListOf(request, "messages"), HeardUntil(initial, answers, k),
                      ListOf(request, "messages") + Turns(initial, answers, k, p, b), p, b)
  {
    hide Resumable, Turn, TurnRight, ListOf, AnswersNormal;
    var original, all := ListOf(request, "messages"), HeardUntil(initial, answers, k);
    var messages := original + Turns(initial, answers, k, p, b);
    if k == 0 {
      assert messages == original;
    } else {
      TurnsContinue(request, initial, answers, p, b, k - 1);
      assert all[..k - 1] == HeardUntil(initial, answers, k - 1);
      var i := |original + Turns(initial, answers, k - 1, p, b)|;
      assert messages[..i] == original + Turns(initial, answers, k - 1, p, b);
      assert messages[i..] == Turn(Heard(initial, answers, k - 1), p, b);
      TurnTold(Heard(initial, answers, k - 1), p, b);
    }
  }

  /**
   * For every behaviour of the upstream, the messages of the k-th request are those of the client
   * followed by one turn for each response so far: what the model said and called, and for each call
   * one result, under its id, whose text is the store's answer to exactly the hash and query of that
   * call.
   */
  lemma SentTruly(request: Request, initial: Val, answers: seq<Option<Val>>, p: Provider, b: Backend, k: nat)
    requires AnswersNormal(b) && k < |Continued(request, initial, answers, p, b).sent|
    ensures var messages := Get(Continued(request, initial, answers, p, b).sent[k], "messages");
            && messages.Some? && messages.value.Arr?
            && Continues(ListOf(request, "messages"), HeardUntil(initial, answers, k + 1), messages.value.items, p, b)
  {
    hide Continued, Resumable, Turns, Continues, AnswersNormal;
    ContinuationBodies(request, initial, answers, p, b);
    var sent := Continued(request, initial, answers, p, b).sent;
    forall j | 0 <= j <= k ensures Resumable(Heard(initial, answers, j), p, b) {
      assert SentOk(request, initial, answers, p, b, sent, j);
    }
    TurnsContinue(request, initial, answers, p, b, k + 1);
    assert SentOk(request, initial, answers, p, b, sent, k);
    OnlyMessagesChange(request, ListOf(request, "messages") + Turns(initial, answers, k + 1, p, b), "messages");
  }

  // ----- what stripping leaves -----

  /** `kept` are the blocks but for the private calls, in order. */
  predicate BlocksKept(blocks: seq<Val>, kept: seq<Val>, b: Backend)
    decreases |blocks|
  {
    if blocks == [] then kept == []
    else
      var n := |blocks| - 1;
      if Get(blocks[n], "type") == Some(Txt("tool_use")) && Private(blocks[n], Anthropic, b)
      then BlocksKept(blocks[..n], kept, b)
      else kept != [] && kept[|kept| - 1] == blocks[n] && BlocksKept(blocks[..n], kept[..|kept| - 1], b)
  }

  lemma {:induction false} VisibleKept(blocks: seq<Val>, b: Backend)
    ensures BlocksKept(blocks, Filter(blocks, VisibleOnly(b)), b)
  {
    hide Private, Get;
    if blocks != [] {
      var n := |blocks| - 1;
      var kept, before := Filter(blocks, VisibleOnly(b)), Filter(blocks[..n], VisibleOnly(b));
      VisibleKept(blocks[..n], b);
      if VisibleOnly(b)(blocks[n]) { assert kept[..|kept| - 1] == before; } else { assert kept == before; }
    }
  }

  /** A stripped message shows every block but the private calls, texts and foreign calls alike, in order. */
  lemma StrippedExactly(response: Val, b: Backend)
    requires Strip(response, Anthropic, b).Some?
    ensures var before, after := Get(response, "content"), Get(Strip(response, Anthropic, b).value, "content");
            && before.Some? && before.value.Arr? && after.Some? && after.value.Arr?
            && BlocksKept(before.value.items, after.value.items, b)
  {
    hide Private, Filter, Get, BlocksKept;
    VisibleKept(ListOf(response, "content"), b);
    PutMembers(response, "content", Arr(Filter(ListOf(response, "content"), VisibleOnly(b))));
    if GetList(response, "content").None? { NothingListed(b); }
  }

  lemma NothingListed(b: Backend)
    ensures Filter([], ToolUse) == [] && Filter([], PrivateOnly(Anthropic, b)) == []
  {
  }
}
