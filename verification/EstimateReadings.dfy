/** Which characters of a request its token estimates count. */
module EstimateReadings {
  import opened Prelude
  import opened Values
  import opened LiveZone
  import opened PrefixTracker
  import opened StreamUsage

  /** The texts of the parts of a list have `n` characters together. */
  predicate PartsHave(parts: seq<Val>, n: nat)
    decreases |parts|
  {
    if parts == [] then n == 0
    else
      var last := Length(Get(parts[|parts| - 1], "text"));
      last <= n && PartsHave(parts[..|parts| - 1], n - last)
  }

  /** A text counts in full, a list by the texts of its parts, anything else not at all. */
  predicate ContentHas(content: Option<Val>, n: nat) {
    if content.Some? && content.value.Arr? then PartsHave(content.value.items, n) else n == Length(content)
  }

  /**
   * A block counts by its type: a tool result by its content, a tool call by its input, as text or
   * serialised, any other by its text; what is no object does not count.
   */
  predicate BlockHas(block: Val, n: nat) {
    if !block.Obj? then n == 0
    else if Get(block, "type") == Some(Txt("tool_result")) then ContentHas(Get(block, "content"), n)
    else if Get(block, "type") == Some(Txt("tool_use")) then
      var input := Get(block, "input");
      n == if input.Some? && input.value.Obj? then |Serialize(input.value)| else Length(input)
    else n == Length(Get(block, "text"))
  }

  ghost predicate BlocksHave(blocks: seq<Val>, n: nat)
    decreases |blocks|
  {
    if blocks == [] then n == 0
    else
      var block := blocks[|blocks| - 1];
      exists last: nat :: last <= n && BlockHas(block, last) && BlocksHave(blocks[..|blocks| - 1], n - last)
  }

  /** The characters of a chat or Anthropic message: its content, as text or block by block. */
  ghost predicate MessageHas(message: Val, n: nat) {
    var content := Get(message, "content");
    if content.Some? && content.value.Arr? then BlocksHave(content.value.items, n) else n == Length(content)
  }

  /** The characters of a Responses item: three text members, and its content. */
  predicate ItemHas(item: Val, n: nat) {
    var others := Length(Get(item, "output")) + Length(Get(item, "text")) + Length(Get(item, "arguments"));
    others <= n && ContentHas(Get(item, "content"), n - others)
  }

  lemma {:induction false} PartsConcat(a: seq<Val>, b: seq<Val>)
    ensures PartChars(a + b) == PartChars(a) + PartChars(b)
  {
    if a == [] {
      assert a + b == b;
    } else {
      assert (a + b)[1..] == a[1..] + b;
      PartsConcat(a[1..], b);
    }
  }

  lemma {:induction false} BlocksConcat(a: seq<Val>, b: seq<Val>)
    ensures BlocksChars(a + b) == BlocksChars(a) + BlocksChars(b)
  {
    if a == [] {
      assert a + b == b;
    } else {
      assert (a + b)[1..] == a[1..] + b;
      BlocksConcat(a[1..], b);
    }
  }

  lemma {:induction false} PartsRead(parts: seq<Val>, n: nat)
    ensures PartsHave(parts, n) <==> n == PartChars(parts)
    decreases |parts|
  {
    hide Get;
    if parts != [] {
      var init, last := parts[..|parts| - 1], parts[|parts| - 1];
      assert parts == init + [last];
      PartsConcat(init, [last]);
      assert [last][1..] == [] && PartChars([last]) == Length(Get(last, "text"));
      if Length(Get(last, "text")) <= n { PartsRead(init, n - Length(Get(last, "text"))); }
    }
  }

  lemma BlockRead(block: Val, n: nat)
    ensures BlockHas(block, n) <==> n == BlockChars(block)
  {
    hide Get, Serialize, PartsHave, PartChars;
    var content := Get(block, "content");
    if content.Some? && content.value.Arr? { PartsRead(content.value.items, n); }
    assert "tool_result" != "tool_use";
  }

  /** The last block apart, whose characters are known. */
  lemma LastBlock(blocks: seq<Val>, block: Val, n: nat, last: nat)
    requires blocks != [] && block == blocks[|blocks| - 1]
    requires forall m: nat :: BlockHas(block, m) <==> m == last
    ensures BlocksHave(blocks, n) <==> last <= n && BlocksHave(blocks[..|blocks| - 1], n - last)
  {
    hide BlockHas;
    if last <= n { assert BlockHas(block, last); }
  }

  lemma {:induction false} BlocksRead(blocks: seq<Val>, n: nat)
    ensures BlocksHave(blocks, n) <==> n == BlocksChars(blocks)
    decreases |blocks|
  {
    hide BlockHas, BlockChars;
    if blocks != [] {
      var init, block := blocks[..|blocks| - 1], blocks[|blocks| - 1];
      assert blocks == init + [block];
      BlocksConcat(init, [block]);
      assert [block][1..] == [] && BlocksChars([block]) == BlockChars(block);
      forall m: nat ensures BlockHas(block, m) <==> m == BlockChars(block) { BlockRead(block, m); }
      LastBlock(blocks, block, n, BlockChars(block));
      if BlockChars(block) <= n { BlocksRead(init, n - BlockChars(block)); }
    }
  }

  lemma TokensOf(chars: nat)
    ensures TokensFor(chars, TextEstimate(chars))
  {
  }

  /** A message is estimated at three and a half of its characters to a token, with an overhead of twenty. */
  lemma MessageExactly(message: Val)
    ensures exists chars :: MessageHas(message, chars) && TokensFor(chars, MessageEstimate(message))
  {
    hide Get, TextEstimate, BlocksChars, BlocksHave;
    var content := Get(message, "content");
    var chars := if content.Some? && content.value.Arr? then BlocksChars(content.value.items) else Length(content);
    if content.Some? && content.value.Arr? { BlocksRead(content.value.items, chars); }
    TokensOf(chars);
    assert MessageHas(message, chars);
  }

  /** So is an item of a Responses request. */
  lemma ItemExactly(item: Val)
    ensures exists chars :: ItemHas(item, chars) && TokensFor(chars, ItemEstimate(item))
  {
    hide Get, TextEstimate, PartChars, PartsHave;
    var content := Get(item, "content");
    var others := Length(Get(item, "output")) + Length(Get(item, "text")) + Length(Get(item, "arguments"));
    var own := if content.Some? && content.value.Arr? then PartChars(content.value.items) else Length(content);
    if content.Some? && content.value.Arr? { PartsRead(content.value.items, own); }
    TokensOf(others + own);
    assert ItemHas(item, others + own);
  }

  /** Instructions count as one leading entry unless they are missing, empty, or neither text nor list. */
  ghost predicate InstructionsAre(body: Val, estimates: seq<nat>) {
    var x := Get(body, "instructions");
    if x.Some? && x.value.Txt? && x.value.text != "" then
      |estimates| == 1 && TokensFor(|x.value.text|, estimates[0])
    else if x.Some? && x.value.Arr? && x.value.items != [] then
      |estimates| == 1 && exists chars :: BlocksHave(x.value.items, chars) && TokensFor(chars, estimates[0])
    else estimates == []
  }

  lemma InstructionsExactly(body: Val)
    ensures InstructionsAre(body, InstructionEstimates(body))
  {
    hide Get, TextEstimate, BlocksChars, BlocksHave;
    var x := Get(body, "instructions");
    if x.Some? && x.value.Txt? { TokensOf(|x.value.text|); }
    if x.Some? && x.value.Arr? {
      BlocksRead(x.value.items, BlocksChars(x.value.items));
      TokensOf(BlocksChars(x.value.items));
    }
  }

  /** The list under a member, if it is one. */
  function ListAt(body: Val, name: string): Option<seq<Val>> {
    var x := Get(body, name);
    if x.Some? && x.value.Arr? then Some(x.value.items) else None
  }

  ghost predicate Counts(shape: Shape, item: Val, chars: nat) {
    if shape == OpenAiResponses then ItemHas(item, chars) else MessageHas(item, chars)
  }

  ghost predicate Estimated(shape: Shape, item: Val, estimate: nat) {
    exists chars :: Counts(shape, item, chars) && TokensFor(chars, estimate)
  }

  ghost predicate EachEstimated(items: seq<Val>, estimates: seq<nat>, shape: Shape) {
    |estimates| == |items| && forall i :: 0 <= i < |items| ==> Estimated(shape, items[i], estimates[i])
  }

  /**
   * A chat or Anthropic request is estimated message by message; a Responses request by its
   * instructions and then by `input`, as one text or item by item, or by `messages` without either.
   */
  lemma RequestExactly(shape: Shape, body: Val)
    ensures var estimates, input := RequestEstimates(shape, body), Get(body, "input");
            if shape != OpenAiResponses then
              var messages := ListAt(body, "messages");
              EachEstimated(if messages.Some? then messages.value else [], estimates, shape)
            else
              exists leading, rest :: estimates == leading + rest && InstructionsAre(body, leading) &&
                if input.Some? && input.value.Txt? then |rest| == 1 && TokensFor(|input.value.text|, rest[0])
                else
                  var items := if ListAt(body, "input").Some? then ListAt(body, "input") else ListAt(body, "messages");
                  EachEstimated(if items.Some? then items.value else [], rest, shape)
  {
    hide Get, TextEstimate, MessageEstimate, ItemEstimate, InstructionEstimates, MessageHas, ItemHas, InstructionsAre;
    forall message ensures shape != OpenAiResponses ==> Estimated(shape, message, MessageEstimate(message)) {
      MessageExactly(message);
    }
    forall item ensures shape == OpenAiResponses ==> Estimated(shape, item, ItemEstimate(item)) { ItemExactly(item); }
    InstructionsExactly(body);
    var input, items := Get(body, "input"), ResponsesItems(body);
    if input.Some? && input.value.Txt? { TokensOf(|input.value.text|); }
    if shape == OpenAiResponses {
      var rest := if items.Some? then Estimates(items.value, ItemEstimate)
        else if input.Some? && input.value.Txt? then [TextEstimate(|input.value.text|)] else [];
      assert RequestEstimates(shape, body) == InstructionEstimates(body) + rest;
    }
  }
}
