/** The live-zone planners: loops that push the byte ranges of candidate string tokens. */
module SlotPlanner {
  import opened Prelude
  import opened Json
  import opened JsonEdits
  import opened Values
  import opened LiveZone
  import opened Tools

  /** A planned token: its range with the quotes, the text it denotes, the batch entry it is in. */
  datatype Slot = Slot(lo: nat, hi: nat, text: string, request: Option<nat>)

  // ----- slots of positions -----

  function SlotAt(v: Json, p: Path, base: nat, request: Option<nat>): Slot {
    if HasPath(v, p) && At(v, p).Str? then
      var lo := base + |Head(v, p)|;
      Slot(lo, lo + |Render(At(v, p))|, Text(At(v, p).body), request)
    else Slot(0, 0, "", request)
  }

  function SlotsOf(v: Json, ps: seq<Path>, base: nat, request: Option<nat>): (r: seq<Slot>)
    ensures |r| == |ps| && forall i :: 0 <= i < |ps| ==> r[i] == SlotAt(v, ps[i], base, request)
  {
    seq(|ps|, i requires 0 <= i < |ps| => SlotAt(v, ps[i], base, request))
  }

  function RequestOf(shape: Shape, p: Path): Option<nat> {
    if shape == AnthropicBatches && |p| >= 2 then Some(p[1]) else None
  }

  /** The slots of a whole body, whose root starts at position `base`. */
  function SlotsFor(shape: Shape, v: Json, ps: seq<Path>, base: nat): (r: seq<Slot>)
    ensures |r| == |ps| && forall i :: 0 <= i < |ps| ==> r[i] == SlotAt(v, ps[i], base, RequestOf(shape, ps[i]))
  {
    seq(|ps|, i requires 0 <= i < |ps| => SlotAt(v, ps[i], base, RequestOf(shape, ps[i])))
  }

  lemma SlotsConcat(v: Json, a: seq<Path>, b: seq<Path>, base: nat, request: Option<nat>)
    ensures SlotsOf(v, a + b, base, request) == SlotsOf(v, a, base, request) + SlotsOf(v, b, base, request)
  {
  }

  lemma {:induction false} HasPathConcat(v: Json, p: Path, q: Path)
    requires HasPath(v, p)
    ensures HasPath(v, p + q) == HasPath(At(v, p), q)
    decreases p
  {
    if p == [] {
      assert p + q == q;
    } else {
      HasPathConcat(v.kids[p[0]].value, p[1..], q);
      assert (p + q)[1..] == p[1..] + q;
    }
  }

  lemma SlotDeep(v: Json, pp: Path, q: Path, base: nat, request: Option<nat>)
    requires HasPath(v, pp)
    ensures SlotAt(v, pp + q, base, request) == SlotAt(At(v, pp), q, base + |Head(v, pp)|, request)
  {
    HasPathConcat(v, pp, q);
    if HasPath(At(v, pp), q) { PathConcat(v, pp, q); }
  }

  /** Slots of a part, planned at the offset of the part. */
  lemma SlotsInside(v: Json, pp: Path, ps: seq<Path>, base: nat, request: Option<nat>)
    requires HasPath(v, pp)
    ensures SlotsOf(v, Prefixed(pp, ps), base, request) == SlotsOf(At(v, pp), ps, base + |Head(v, pp)|, request)
  {
    forall i | 0 <= i < |ps|
      ensures SlotAt(v, pp + ps[i], base, request) == SlotAt(At(v, pp), ps[i], base + |Head(v, pp)|, request)
    {
      SlotDeep(v, pp, ps[i], base, request);
    }
  }

  lemma PrefixedConcat(pp: Path, a: seq<Path>, b: seq<Path>)
    ensures Prefixed(pp, a + b) == Prefixed(pp, a) + Prefixed(pp, b)
  {
  }

  lemma PrefixedTwice(pp: Path, qq: Path, ps: seq<Path>)
    ensures Prefixed(pp, Prefixed(qq, ps)) == Prefixed(pp + qq, ps)
  {
    forall i | 0 <= i < |ps| ensures pp + (qq + ps[i]) == (pp + qq) + ps[i] {}
  }

  /** What a loop over the kids of the container at `pp` still has to push. */
  function Pending(v: Json, pp: Path, kids: seq<Kid>, i: nat, f: Json -> seq<Path>, base: nat,
                   request: Option<nat>): seq<Slot>
  {
    SlotsOf(v, Prefixed(pp, Each(kids, i, f)), base, request)
  }

  lemma PendingStep(v: Json, pp: Path, kids: seq<Kid>, i: nat, f: Json -> seq<Path>, base: nat, request: Option<nat>)
    requires i < |kids|
    ensures Pending(v, pp, kids, i, f, base, request)
            == SlotsOf(v, Prefixed(pp + [i], f(kids[i].value)), base, request)
               + Pending(v, pp, kids, i + 1, f, base, request)
  {
    EachStep(pp, kids, i, f);
    SlotsConcat(v, Prefixed(pp + [i], f(kids[i].value)), Prefixed(pp, Each(kids, i + 1, f)), base, request);
  }

  lemma PendingNone(v: Json, pp: Path, kids: seq<Kid>, i: nat, f: Json -> seq<Path>, base: nat, request: Option<nat>)
    requires i >= |kids|
    ensures Pending(v, pp, kids, i, f, base, request) == []
  {
  }

  /** One turn of a loop that pushes the slots of kid `i`. */
  lemma Turn(v: Json, pp: Path, kids: seq<Kid>, i: nat, f: Json -> seq<Path>, base: nat, request: Option<nat>,
             before: seq<Slot>, after: seq<Slot>, all: seq<Slot>)
    requires i < |kids| && before + Pending(v, pp, kids, i, f, base, request) == all
    requires after == before + SlotsOf(v, Prefixed(pp + [i], f(kids[i].value)), base, request)
    ensures after + Pending(v, pp, kids, i + 1, f, base, request) == all
  {
    hide SlotsOf, Prefixed, Each;
    PendingStep(v, pp, kids, i, f, base, request);
  }

  lemma DeeperPath(v: Json, pp: Path, k: nat)
    requires HasPath(v, pp) && At(v, pp).Box? && k < |At(v, pp).kids|
    ensures HasPath(v, pp + [k]) && At(v, pp + [k]) == At(v, pp).kids[k].value
  {
    AtOne(At(v, pp), k);
    AtConcat(v, pp, [k]);
  }

  // ----- one string -----

  /** Pushes the member `k` of the object at `pp` when it is a string. */
  method PushString(v: Json, pp: Path, k: nat, base: nat, request: Option<nat>, slots: seq<Slot>)
    returns (out: seq<Slot>)
    requires HasPath(v, pp) && At(v, pp).Box? && k < |At(v, pp).kids|
    ensures out == slots + SlotsOf(v, Prefixed(pp, Inside(At(v, pp), Some(k), Leaf)), base, request)
  {
    hide At, HasPath, Text;
    DeeperPath(v, pp, k);
    var token := At(v, pp + [k]);
    StringPaths(v, pp, k);
    if !token.Str? { return slots; }
    var offset := |Head(v, pp + [k])|;
    out := slots + [Slot(base + offset, base + offset + |Render(token)|, Text(token.body), request)];
  }

  lemma StringPaths(v: Json, pp: Path, k: nat)
    requires HasPath(v, pp) && At(v, pp).Box? && k < |At(v, pp).kids|
    ensures Prefixed(pp, Inside(At(v, pp), Some(k), Leaf)) == if At(v, pp).kids[k].value.Str? then [pp + [k]] else []
  {
    assert [k] + [] == [k];
  }

  lemma NothingPaths(pp: Path)
    ensures Prefixed(pp, []) == []
  {
  }

  // ----- Anthropic -----

  method PlanBlock(v: Json, pp: Path, base: nat, userText: bool, request: Option<nat>, slots: seq<Slot>)
    returns (out: seq<Slot>)
    requires HasPath(v, pp)
    ensures out == slots + SlotsOf(v, Prefixed(pp, BlockPaths(At(v, pp), userText)), base, request)
  {
    var block := At(v, pp);
    NothingPaths(pp);
    if !BlockOk(block) { return slots; }
    if Field(block, "cache_control").Some? { return slots; }
    var kind := TextField(block, "type");
    if kind.Some? && kind.value in HOT_ZONE_BLOCK_TYPES { return slots; }
    var field: Option<nat> := None;
    if kind == Some("tool_result") {
      field := Field(block, "content");
    } else if kind == Some("text") {
      if !userText { return slots; }
      field := Field(block, "text");
    } else {
      return slots;
    }
    if field.None? { return slots; }
    out := PushString(v, pp, field.value, base, request, slots);
  }

  method PlanMessage(v: Json, pp: Path, base: nat, userText: bool, request: Option<nat>, slots: seq<Slot>)
    returns (out: seq<Slot>)
    requires HasPath(v, pp)
    ensures out == slots + SlotsOf(v, Prefixed(pp, MessagePaths(At(v, pp), userText)), base, request)
  {
    var message := At(v, pp);
    NothingPaths(pp);
    if !HeaderOk(message) { return slots; }
    var k := Field(message, "content");
    if k.None? { return slots; }
    var user := userText && TextField(message, "role") == Some("user");
    var content := message.kids[k.value].value;
    MessageContent(message, pp, k.value, userText);
    if content.Str? {
      if !user { return slots; }
      out := PushString(v, pp, k.value, base, request, slots);
      return;
    }
    if !IsList(content) { return slots; }
    DeeperPath(v, pp, k.value);
    out := PlanBlocks(v, pp + [k.value], base, user, request, slots);
  }

  lemma MessageContent(m: Json, pp: Path, k: nat, userText: bool)
    requires HeaderOk(m) && Field(m, "content") == Some(k)
    ensures var user := userText && TextField(m, "role") == Some("user");
            var content := m.kids[k].value;
            Prefixed(pp, MessagePaths(m, userText)) ==
              if content.Str? then (if user then Prefixed(pp, Inside(m, Some(k), Leaf)) else [])
              else if IsList(content) then Prefixed(pp + [k], Each(content.kids, 0, BlockFinder(user)))
              else []
  {
    var user := userText && TextField(m, "role") == Some("user");
    PrefixedTwice(pp, [k], ContentPaths(m.kids[k].value, user));
  }

  method PlanBlocks(v: Json, pp: Path, base: nat, user: bool, request: Option<nat>, slots: seq<Slot>)
    returns (out: seq<Slot>)
    requires HasPath(v, pp) && IsList(At(v, pp))
    ensures out == slots + SlotsOf(v, Prefixed(pp, Each(At(v, pp).kids, 0, BlockFinder(user))), base, request)
  {
    var kids := At(v, pp).kids;
    ghost var f := BlockFinder(user);
    ghost var all := slots + Pending(v, pp, kids, 0, f, base, request);
    out := slots;
    for i := 0 to |kids|
      invariant out + Pending(v, pp, kids, i, f, base, request) == all
    {
      DeeperPath(v, pp, i);
      ghost var before := out;
      out := PlanBlock(v, pp + [i], base, user, request, out);
      Turn(v, pp, kids, i, f, base, request, before, out, all);
    }
    PendingNone(v, pp, kids, |kids|, f, base, request);
  }

  /** Every message at or above the floor of one `messages` object. */
  method PlanAnthropicSegment(v: Json, base: nat, extraFloor: nat, userText: bool, request: Option<nat>,
                              slots: seq<Slot>)
    returns (out: seq<Slot>)
    ensures out == slots + SlotsOf(v, AnthropicPaths(v, extraFloor, userText), base, request)
  {
    var k := ListField(v, "messages");
    if k.None? { return slots; }
    var kids := v.kids[k.value].value.kids;
    var floor := Max(extraFloor, FrozenCount(kids));
    out := PlanMessages(v, k.value, floor, base, userText, request, slots);
  }

  method PlanMessages(v: Json, k: nat, floor: nat, base: nat, userText: bool, request: Option<nat>, slots: seq<Slot>)
    returns (out: seq<Slot>)
    requires v.Box? && k < |v.kids| && IsList(v.kids[k].value)
    ensures out == slots
            + SlotsOf(v, Prefixed([k], Each(v.kids[k].value.kids, floor, MessageFinder(userText))), base, request)
  {
    hide SlotsOf, Prefixed, Each, MessageFinder;
    var kids := v.kids[k].value.kids;
    PendingNone(v, [k], kids, Max(floor, |kids|), MessageFinder(userText), base, request);
    if floor >= |kids| {
      assert slots + [] == slots;
      return slots;
    }
    ghost var all := slots + Pending(v, [k], kids, floor, MessageFinder(userText), base, request);
    out := slots;
    for i := 0 to |kids|
      invariant out + Pending(v, [k], kids, Max(i, floor), MessageFinder(userText), base, request) == all
    {
      if i < floor { continue; }
      out := PlanOne(v, k, i, base, userText, request, out, all);
    }
    PendingNone(v, [k], kids, |kids|, MessageFinder(userText), base, request);
  }

  /** One turn of the loop over messages. */
  method PlanOne(v: Json, k: nat, i: nat, base: nat, userText: bool, request: Option<nat>, slots: seq<Slot>,
                 ghost all: seq<Slot>)
    returns (out: seq<Slot>)
    requires v.Box? && k < |v.kids| && IsList(v.kids[k].value) && i < |v.kids[k].value.kids|
    requires slots + Pending(v, [k], v.kids[k].value.kids, i, MessageFinder(userText), base, request) == all
    ensures out + Pending(v, [k], v.kids[k].value.kids, i + 1, MessageFinder(userText), base, request) == all
  {
    AtOne(v, k);
    DeeperPath(v, [k], i);
    assert [k] + [i] == [k, i];
    out := PlanMessage(v, [k, i], base, userText, request, slots);
    Turn(v, [k], v.kids[k].value.kids, i, MessageFinder(userText), base, request, slots, out, all);
  }

  // ----- Anthropic batches -----

  /** What the loop over batch entries still has to push. */
  function PendingEntries(v: Json, k: nat, kids: seq<Kid>, i: nat, userText: bool, base: nat): seq<Slot> {
    SlotsFor(AnthropicBatches, v, Prefixed([k], Each(kids, i, EntryFinder(userText))), base)
  }

  lemma EntrySlots(v: Json, k: nat, i: nat, ps: seq<Path>, base: nat)
    ensures SlotsFor(AnthropicBatches, v, Prefixed([k, i], ps), base) == SlotsOf(v, Prefixed([k, i], ps), base, Some(i))
  {
    forall x | 0 <= x < |ps| ensures RequestOf(AnthropicBatches, [k, i] + ps[x]) == Some(i) {}
  }

  lemma SlotsForConcat(shape: Shape, v: Json, a: seq<Path>, b: seq<Path>, base: nat)
    ensures SlotsFor(shape, v, a + b, base) == SlotsFor(shape, v, a, base) + SlotsFor(shape, v, b, base)
  {
  }

  lemma EachStep(pp: Path, kids: seq<Kid>, i: nat, f: Json -> seq<Path>)
    requires i < |kids|
    ensures Prefixed(pp, Each(kids, i, f)) == Prefixed(pp + [i], f(kids[i].value)) + Prefixed(pp, Each(kids, i + 1, f))
  {
    PrefixedConcat(pp, Prefixed([i], f(kids[i].value)), Each(kids, i + 1, f));
    PrefixedTwice(pp, [i], f(kids[i].value));
  }

  lemma PendingEntriesStep(v: Json, k: nat, kids: seq<Kid>, i: nat, userText: bool, base: nat)
    requires i < |kids|
    ensures PendingEntries(v, k, kids, i, userText, base)
            == SlotsOf(v, Prefixed([k, i], RequestPaths(kids[i].value, userText)), base, Some(i))
               + PendingEntries(v, k, kids, i + 1, userText, base)
  {
    var f := EntryFinder(userText);
    EachStep([k], kids, i, f);
    assert [k] + [i] == [k, i];
    EntrySlots(v, k, i, f(kids[i].value), base);
    SlotsForConcat(AnthropicBatches, v, Prefixed([k, i], f(kids[i].value)), Prefixed([k], Each(kids, i + 1, f)), base);
  }

  method PlanEntry(v: Json, k: nat, i: nat, base: nat, userText: bool, slots: seq<Slot>) returns (out: seq<Slot>)
    requires HasPath(v, [k, i])
    ensures out == slots + SlotsOf(v, Prefixed([k, i], RequestPaths(At(v, [k, i]), userText)), base, Some(i))
  {
    var entry := At(v, [k, i]);
    NothingPaths([k, i]);
    if !ViewOk(entry, {"params"}) { return slots; }
    var q := Field(entry, "params");
    if q.None? { return slots; }
    out := PlanParams(v, [k, i], q.value, base, userText, i, slots);
  }

  method PlanParams(v: Json, pp: Path, q: nat, base: nat, userText: bool, i: nat, slots: seq<Slot>)
    returns (out: seq<Slot>)
    requires HasPath(v, pp) && At(v, pp).Box? && q < |At(v, pp).kids|
    ensures out == slots + SlotsOf(v, Prefixed(pp, Inside(At(v, pp), Some(q), ParamsFinder(userText))), base, Some(i))
  {
    DeeperPath(v, pp, q);
    var params, offset, request := At(v, pp + [q]), base + |Head(v, pp + [q])|, Some(i);
    out := PlanAnthropicSegment(params, offset, 0, userText, request, slots);
    ghost var ps := AnthropicPaths(params, 0, userText);
    assert ParamsFinder(userText)(params) == ps;
    InsideSlotsOf(v, pp, q, ParamsFinder(userText), ps, base, request, params, offset);
  }

  lemma InsideSlotsOf(v: Json, pp: Path, q: nat, f: Json -> seq<Path>, ps: seq<Path>, base: nat, request: Option<nat>,
                      part: Json, offset: nat)
    requires HasPath(v, pp) && At(v, pp).Box? && q < |At(v, pp).kids| && HasPath(v, pp + [q])
    requires part == At(v, pp).kids[q].value && ps == f(part) && offset == base + |Head(v, pp + [q])|
    ensures SlotsOf(part, ps, offset, request) == SlotsOf(v, Prefixed(pp, Inside(At(v, pp), Some(q), f)), base, request)
  {
    hide SlotsOf, Prefixed, Head;
    DeeperPath(v, pp, q);
    PrefixedTwice(pp, [q], ps);
    SlotsInside(v, pp + [q], ps, base, request);
  }

  method PlanAnthropicBatches(v: Json, base: nat, userText: bool) returns (out: seq<Slot>)
    ensures out == SlotsFor(AnthropicBatches, v, BatchPaths(v, userText), base)
  {
    var k := ListField(v, "requests");
    if k.None? { return []; }
    var kids := v.kids[k.value].value.kids;
    AtOne(v, k.value);
    out := [];
    assert [] + PendingEntries(v, k.value, kids, 0, userText, base)
           == PendingEntries(v, k.value, kids, 0, userText, base);
    for i := 0 to |kids|
      invariant out + PendingEntries(v, k.value, kids, i, userText, base)
                == PendingEntries(v, k.value, kids, 0, userText, base)
    {
      DeeperPath(v, [k.value], i);
      assert [k.value] + [i] == [k.value, i];
      ghost var before := out;
      out := PlanEntry(v, k.value, i, base, userText, out);
      PendingEntriesStep(v, k.value, kids, i, userText, base);
      Assoc(before, SlotsOf(v, Prefixed([k.value, i], RequestPaths(kids[i].value, userText)), base, Some(i)),
            PendingEntries(v, k.value, kids, i + 1, userText, base));
    }
  }

  // ----- OpenAI chat -----

  /** What a backward scan that has reached index `i` will find. */
  function Scan(found: Option<nat>, kids: seq<Kid>, i: nat, floor: nat, p: Json -> bool): Option<nat>
    requires i <= |kids|
  {
    if found.Some? then found else LastWhere(kids[..i], floor, p)
  }

  lemma ScanStart(kids: seq<Kid>, floor: nat, p: Json -> bool)
    ensures Scan(None, kids, |kids|, floor, p) == LastWhere(kids, floor, p)
  {
    assert kids[..|kids|] == kids;
  }

  lemma ScanStep(found: Option<nat>, kids: seq<Kid>, i: nat, floor: nat, p: Json -> bool)
    requires i < |kids|
    ensures i < floor ==> Scan(found, kids, i + 1, floor, p) == found
    ensures i >= floor && found.None? && p(kids[i].value) ==> Scan(found, kids, i + 1, floor, p) == Some(i)
    ensures i >= floor && !(found.None? && p(kids[i].value)) ==>
            Scan(found, kids, i + 1, floor, p) == Scan(found, kids, i, floor, p)
  {
    assert kids[..i + 1][..i] == kids[..i];
  }

  /** The backward scan: latest tool result and latest user message at or above the floor. */
  method LatestMessages(kids: seq<Kid>, floor: nat) returns (tool: Option<nat>, user: Option<nat>)
    ensures tool == LastWhere(kids, floor, ToolFinder(kids))
    ensures user == LastWhere(kids, floor, LiveUser)
  {
    tool, user := None, None;
    ghost var p := ToolFinder(kids);
    ScanStart(kids, floor, p);
    ScanStart(kids, floor, LiveUser);
    var i := |kids|;
    while i > 0
      invariant 0 <= i <= |kids|
      invariant Scan(tool, kids, i, floor, p) == LastWhere(kids, floor, p)
      invariant Scan(user, kids, i, floor, LiveUser) == LastWhere(kids, floor, LiveUser)
    {
      i := i - 1;
      ScanStep(tool, kids, i, floor, p);
      ScanStep(user, kids, i, floor, LiveUser);
      if i < floor { return; }
      var message := kids[i].value;
      RoleOnce(kids, message);
      if tool.None? && LiveTool(kids, message) {
        tool := Some(i);
      } else if user.None? && LiveUser(message) {
        user := Some(i);
      }
      if tool.Some? && user.Some? { return; }
    }
  }

  lemma RoleOnce(messages: seq<Kid>, m: Json)
    ensures LiveTool(messages, m) == ToolFinder(messages)(m)
    ensures LiveTool(messages, m) ==> !LiveUser(m)
  {
  }

  method PlanPart(v: Json, pp: Path, base: nat, slots: seq<Slot>) returns (out: seq<Slot>)
    requires HasPath(v, pp)
    ensures out == slots + SlotsOf(v, Prefixed(pp, PartPaths(At(v, pp))), base, None)
  {
    var part := At(v, pp);
    NothingPaths(pp);
    if !BlockOk(part) || TextField(part, "type") != Some("text") { return slots; }
    var k := Field(part, "text");
    if k.None? { return slots; }
    out := PushString(v, pp, k.value, base, None, slots);
  }

  /** String content as one slot, or every text part. */
  method PlanUserContent(v: Json, pp: Path, k: nat, base: nat, slots: seq<Slot>) returns (out: seq<Slot>)
    requires HasPath(v, pp) && At(v, pp).Box? && k < |At(v, pp).kids|
    ensures out == slots + SlotsOf(v, Prefixed(pp, Inside(At(v, pp), Some(k), UserContentPaths)), base, None)
  {
    hide Each, HasPath, PartPaths, Prefixed, SlotAt, SlotsOf;
    var content := At(v, pp).kids[k].value;
    PrefixedTwice(pp, [k], UserContentPaths(content));
    if content.Str? {
      assert Inside(At(v, pp), Some(k), Leaf) == Inside(At(v, pp), Some(k), UserContentPaths);
      out := PushString(v, pp, k, base, None, slots);
      return;
    }
    NothingPaths(pp + [k]);
    if !IsList(content) { return slots; }
    var kids := content.kids;
    DeeperPath(v, pp, k);
    ghost var all := slots + Pending(v, pp + [k], kids, 0, PartPaths, base, None);
    out := slots;
    for i := 0 to |kids|
      invariant out + Pending(v, pp + [k], kids, i, PartPaths, base, None) == all
    {
      DeeperPath(v, pp + [k], i);
      ghost var before := out;
      out := PlanPart(v, pp + [k] + [i], base, out);
      Turn(v, pp + [k], kids, i, PartPaths, base, None, before, out, all);
    }
    PendingNone(v, pp + [k], kids, |kids|, PartPaths, base, None);
  }

  method PlanToolMessage(v: Json, k: nat, i: nat, base: nat) returns (out: seq<Slot>)
    requires v.Box? && k < |v.kids| && IsList(v.kids[k].value) && i < |v.kids[k].value.kids|
    ensures out == SlotsOf(v, Prefixed([k], OneMessage(v.kids[k].value, Some(i), Leaf)), base, None)
  {
    MessageAt(v, k, i, Leaf);
    var c := Field(At(v, [k, i]), "content");
    if c.None? { return []; }
    out := PushString(v, [k, i], c.value, base, None, []);
  }

  method PlanUserMessage(v: Json, k: nat, i: nat, base: nat, slots: seq<Slot>) returns (out: seq<Slot>)
    requires v.Box? && k < |v.kids| && IsList(v.kids[k].value) && i < |v.kids[k].value.kids|
    ensures out == slots + SlotsOf(v, Prefixed([k], OneMessage(v.kids[k].value, Some(i), UserContentPaths)), base, None)
  {
    MessageAt(v, k, i, UserContentPaths);
    var c := Field(At(v, [k, i]), "content");
    if c.None? { return slots; }
    out := PlanUserContent(v, [k, i], c.value, base, slots);
  }

  lemma MessageAt(v: Json, k: nat, i: nat, f: Json -> seq<Path>)
    requires v.Box? && k < |v.kids| && IsList(v.kids[k].value) && i < |v.kids[k].value.kids|
    ensures HasPath(v, [k, i]) && At(v, [k, i]) == v.kids[k].value.kids[i].value
    ensures var m := At(v, [k, i]);
            Prefixed([k], OneMessage(v.kids[k].value, Some(i), f))
              == Prefixed([k, i], Inside(m, Field(m, "content"), f))
  {
    AtOne(v, k);
    DeeperPath(v, [k], i);
    assert [k] + [i] == [k, i];
    var m := At(v, [k, i]);
    PrefixedTwice([k], [i], Inside(m, Field(m, "content"), f));
  }

  method PlanOpenAiChat(v: Json, base: nat, floor: nat, userText: bool) returns (out: seq<Slot>)
    ensures out == SlotsOf(v, ChatPaths(v, floor, userText), base, None)
  {
    var k := ListField(v, "messages");
    if k.None? { return []; }
    var list := v.kids[k.value].value;
    var tool, user := LatestMessages(list.kids, floor);
    ChatParts(v, k.value, floor, userText, base);
    out := [];
    if tool.Some? { out := PlanToolMessage(v, k.value, tool.value, base); }
    if userText && user.Some? { out := PlanUserMessage(v, k.value, user.value, base, out); }
  }

  lemma ChatParts(v: Json, k: nat, floor: nat, userText: bool, base: nat)
    requires ListField(v, "messages") == Some(k)
    ensures var list := v.kids[k].value;
            var a := OneMessage(list, LastWhere(list.kids, floor, ToolFinder(list.kids)), Leaf);
            var b := if userText then OneMessage(list, LastWhere(list.kids, floor, LiveUser), UserContentPaths) else [];
            SlotsOf(v, ChatPaths(v, floor, userText), base, None)
            == SlotsOf(v, Prefixed([k], a), base, None) + SlotsOf(v, Prefixed([k], b), base, None)
  {
    var list := v.kids[k].value;
    var a := OneMessage(list, LastWhere(list.kids, floor, ToolFinder(list.kids)), Leaf);
    var b := if userText then OneMessage(list, LastWhere(list.kids, floor, LiveUser), UserContentPaths) else [];
    PrefixedConcat([k], a, b);
    SlotsConcat(v, Prefixed([k], a), Prefixed([k], b), base, None);
  }

  // ----- OpenAI Responses -----

  method PlanItem(v: Json, pp: Path, base: nat, slots: seq<Slot>) returns (out: seq<Slot>)
    requires HasPath(v, pp)
    ensures out == slots + SlotsOf(v, Prefixed(pp, ItemPaths(v, At(v, pp))), base, None)
  {
    var item := At(v, pp);
    NothingPaths(pp);
    if !ItemOk(item) { return slots; }
    var kind := TextField(item, "type");
    if kind.None? || kind.value !in OUTPUT_ITEM_TYPES { return slots; }
    var id := TextField(item, "call_id");
    if id.Some? && ResponsesRetrieveCall(v, id.value) { return slots; }
    var k := Field(item, "output");
    if k.None? { return slots; }
    out := PushString(v, pp, k.value, base, None, slots);
  }

  method PlanOpenAiResponses(v: Json, base: nat, floor: nat) returns (out: seq<Slot>)
    ensures out == SlotsOf(v, ResponsesPaths(v, floor), base, None)
  {
    hide SlotPaths, ItemFinder, ItemPaths;
    var k := ItemsField(v);
    if k.None? { return []; }
    if !IsList(v.kids[k.value].value) { return []; }
    out := PlanItems(v, k.value, base, Minus(floor, PrefixLen(v)));
  }

  method PlanItems(v: Json, k: nat, base: nat, from: nat) returns (out: seq<Slot>)
    requires v.Box? && k < |v.kids| && IsList(v.kids[k].value)
    ensures out == SlotsOf(v, Prefixed([k], Each(v.kids[k].value.kids, from, ItemFinder(v))), base, None)
  {
    hide SlotsOf, Prefixed, Each, ItemFinder;
    var kids := v.kids[k].value.kids;
    ghost var all := Pending(v, [k], kids, from, ItemFinder(v), base, None);
    out := [];
    assert [] + all == all;
    for i := 0 to |kids|
      invariant out + Pending(v, [k], kids, Max(i, from), ItemFinder(v), base, None) == all
    {
      if i < from { continue; }
      out := PlanOneItem(v, k, i, base, out, all);
    }
    PendingNone(v, [k], kids, Max(|kids|, from), ItemFinder(v), base, None);
    assert out + [] == out;
  }

  /** One turn of the loop over items. */
  method PlanOneItem(v: Json, k: nat, i: nat, base: nat, slots: seq<Slot>, ghost all: seq<Slot>)
    returns (out: seq<Slot>)
    requires v.Box? && k < |v.kids| && IsList(v.kids[k].value) && i < |v.kids[k].value.kids|
    requires slots + Pending(v, [k], v.kids[k].value.kids, i, ItemFinder(v), base, None) == all
    ensures out + Pending(v, [k], v.kids[k].value.kids, i + 1, ItemFinder(v), base, None) == all
  {
    hide SlotsOf, Prefixed, Each, Pending;
    AtOne(v, k);
    DeeperPath(v, [k], i);
    assert [k] + [i] == [k, i];
    out := PlanItem(v, [k, i], base, slots);
    Turn(v, [k], v.kids[k].value.kids, i, ItemFinder(v), base, None, slots, out, all);
  }

  /** The planner of each shape pushes exactly the candidates, in planning order. */
  method PlanSlots(shape: Shape, v: Json, base: nat, floor: nat, userText: bool) returns (out: seq<Slot>)
    ensures out == SlotsFor(shape, v, SlotPaths(shape, v, floor, userText), base)
  {
    match shape
    case OpenAiChat => out := PlanOpenAiChat(v, base, floor, userText);
    case OpenAiResponses => out := PlanOpenAiResponses(v, base, floor);
    case AnthropicMessages => out := PlanAnthropicSegment(v, base, floor, userText, None, []);
    case AnthropicBatches => out := PlanAnthropicBatches(v, base, userText);
  }
}
