/** Which string tokens of a request may be replaced, for the four request shapes. */
module LiveZone {
  import opened Prelude
  import opened Json
  import opened JsonEdits
  import opened Values

  const LIVE_ZONE_MIN_BYTES := 512
  const HOT_ZONE_BLOCK_TYPES := {"tool_use", "thinking", "redacted_thinking", "compaction"}
  const OUTPUT_ITEM_TYPES := {"function_call_output", "local_shell_call_output", "apply_patch_call_output"}
  const HEADER_FIELDS := {"role", "content", "name", "tool_call_id"}
  const BLOCK_FIELDS := {"type", "content", "text", "cache_control"}
  const ITEM_FIELDS := {"type", "call_id", "output"}
  const RETRIEVE := "headroom_retrieve"

  datatype Shape = OpenAiChat | OpenAiResponses | AnthropicMessages | AnthropicBatches

  // ----- typed views of an object -----

  /** A view fails on anything but an object, and when one of its fields is repeated. */
  predicate ViewOk(v: Json, fields: set<string>) {
    v.Box? && v.isObj && forall f :: f in fields ==> multiset(Keys(v.kids))[f] <= 1
  }

  /** Index of an optional field; `null` counts as absent. */
  function Field(v: Json, name: string): (r: Option<nat>)
    ensures r.Some? ==> v.Box? && r.value < |v.kids|
  {
    var k := KeyIndex(v, name);
    if k.Some? && IsNull(v.kids[k.value].value) then None else k
  }

  predicate TextFieldOk(v: Json, name: string) {
    var k := Field(v, name);
    k.Some? ==> v.kids[k.value].value.Str?
  }

  function TextField(v: Json, name: string): Option<string> {
    var k := Field(v, name);
    if k.None? then None else AsText(v.kids[k.value].value)
  }

  predicate HeaderOk(m: Json) {
    && ViewOk(m, HEADER_FIELDS)
    && TextFieldOk(m, "role") && TextFieldOk(m, "name") && TextFieldOk(m, "tool_call_id")
  }

  predicate BlockOk(b: Json) {
    ViewOk(b, BLOCK_FIELDS) && TextFieldOk(b, "type")
  }

  predicate ItemOk(item: Json) {
    ViewOk(item, ITEM_FIELDS) && TextFieldOk(item, "type") && TextFieldOk(item, "call_id")
  }

  /** Index of the list a view reads as `Vec<&RawValue>`. */
  function ListField(v: Json, name: string): (r: Option<nat>)
    ensures r.Some? ==> v.Box? && r.value < |v.kids| && IsList(v.kids[r.value].value)
  {
    if !ViewOk(v, {name}) then None
    else
      var k := Field(v, name);
      if k.Some? && IsList(v.kids[k.value].value) then k else None
  }

  // ----- collecting positions -----

  function Prefixed(pp: Path, ps: seq<Path>): (r: seq<Path>)
    ensures |r| == |ps| && forall i :: 0 <= i < |ps| ==> r[i] == pp + ps[i]
  {
    seq(|ps|, i requires 0 <= i < |ps| => pp + ps[i])
  }

  /** Positions `f` finds in the kids from index `from` on. */
  function Each(kids: seq<Kid>, from: nat, f: Json -> seq<Path>): seq<Path>
    decreases |kids| - from
  {
    if from >= |kids| then [] else Prefixed([from], f(kids[from].value)) + Each(kids, from + 1, f)
  }

  /** Positions `f` finds in one kid. */
  function Inside(v: Json, k: Option<nat>, f: Json -> seq<Path>): seq<Path>
    requires k.Some? ==> v.Box? && k.value < |v.kids|
  {
    if k.None? then [] else Prefixed([k.value], f(v.kids[k.value].value))
  }

  /** The position itself when it holds a string. */
  function Leaf(v: Json): seq<Path> { if v.Str? then [[]] else [] }

  /** Last index at or above `floor` whose value satisfies `p`. */
  function LastWhere(kids: seq<Kid>, floor: nat, p: Json -> bool): (r: Option<nat>)
    ensures r.Some? ==> floor <= r.value < |kids| && p(kids[r.value].value)
    ensures r.Some? ==> forall i :: r.value < i < |kids| ==> !p(kids[i].value)
    ensures r.None? ==> forall i :: floor <= i < |kids| ==> !p(kids[i].value)
  {
    if |kids| <= floor then None
    else if p(kids[|kids| - 1].value) then Some(|kids| - 1)
    else LastWhere(kids[..|kids| - 1], floor, p)
  }

  // ----- Anthropic -----

  function BlockPaths(b: Json, userText: bool): seq<Path> {
    if !BlockOk(b) || Field(b, "cache_control").Some? then []
    else
      var kind := TextField(b, "type");
      if kind.Some? && kind.value in HOT_ZONE_BLOCK_TYPES then []
      else if kind == Some("tool_result") then Inside(b, Field(b, "content"), Leaf)
      else if kind == Some("text") && userText then Inside(b, Field(b, "text"), Leaf)
      else []
  }

  function BlockFinder(userText: bool): Json -> seq<Path> { b => BlockPaths(b, userText) }

  function ContentPaths(content: Json, userText: bool): seq<Path> {
    if content.Str? then (if userText then [[]] else [])
    else if IsList(content) then Each(content.kids, 0, BlockFinder(userText))
    else []
  }

  function ContentFinder(userText: bool): Json -> seq<Path> { c => ContentPaths(c, userText) }

  function MessagePaths(m: Json, userText: bool): seq<Path> {
    if !HeaderOk(m) then []
    else Inside(m, Field(m, "content"), ContentFinder(userText && TextField(m, "role") == Some("user")))
  }

  function MessageFinder(userText: bool): Json -> seq<Path> { m => MessagePaths(m, userText) }

  predicate HasCacheControl(content: Option<Json>) {
    content.Some? && content.value.Box? &&
    if content.value.isObj then Lookup(content.value, "cache_control").Some?
    else exists i :: 0 <= i < |content.value.kids| && Lookup(content.value.kids[i].value, "cache_control").Some?
  }

  predicate Pinned(m: Json) { HasCacheControl(Lookup(m, "content")) }

  /** One past the last message that carries a cache breakpoint. */
  function FrozenCount(messages: seq<Kid>): (n: nat)
    ensures n <= |messages|
  {
    var last := LastWhere(messages, 0, Pinned);
    if last.None? then 0 else last.value + 1
  }

  function AnthropicPaths(v: Json, extraFloor: nat, userText: bool): seq<Path> {
    var k := ListField(v, "messages");
    if k.None? then []
    else
      var kids := v.kids[k.value].value.kids;
      Prefixed([k.value], Each(kids, Max(extraFloor, FrozenCount(kids)), MessageFinder(userText)))
  }

  function ParamsFinder(userText: bool): Json -> seq<Path> { params => AnthropicPaths(params, 0, userText) }

  function RequestPaths(request: Json, userText: bool): seq<Path> {
    if !ViewOk(request, {"params"}) then []
    else Inside(request, Field(request, "params"), ParamsFinder(userText))
  }

  function EntryFinder(userText: bool): Json -> seq<Path> { entry => RequestPaths(entry, userText) }

  function BatchPaths(v: Json, userText: bool): seq<Path> {
    var k := ListField(v, "requests");
    if k.None? then [] else Prefixed([k.value], Each(v.kids[k.value].value.kids, 0, EntryFinder(userText)))
  }

  // ----- OpenAI chat -----

  predicate EndsWith(s: string, p: string) { |p| <= |s| && s[|s| - |p|..] == p }

  predicate IsRetrieveName(name: string) { name == RETRIEVE || EndsWith(name, "__" + RETRIEVE) }

  predicate RetrieveNamed(name: Option<string>) { name.Some? && IsRetrieveName(name.value) }

  /** Ids of retrieval calls announced by earlier assistant turns. */
  predicate RetrieveCallIn(call: Json, id: string) {
    var fn := Lookup(call, "function");
    fn.Some? && RetrieveNamed(LookupText(fn.value, "name")) && LookupText(call, "id") == Some(id)
  }

  predicate RetrieveCallOf(m: Json, id: string) {
    var calls := Lookup(m, "tool_calls");
    calls.Some? && IsList(calls.value) &&
    exists i :: 0 <= i < |calls.value.kids| && RetrieveCallIn(calls.value.kids[i].value, id)
  }

  predicate RetrieveCall(messages: seq<Kid>, id: string) {
    exists i :: 0 <= i < |messages| && RetrieveCallOf(messages[i].value, id)
  }

  predicate LiveTool(messages: seq<Kid>, m: Json) {
    && HeaderOk(m) && TextField(m, "role") == Some("tool")
    && !RetrieveNamed(TextField(m, "name"))
    && var id := TextField(m, "tool_call_id");
       id.None? || !RetrieveCall(messages, id.value)
  }

  function ToolFinder(messages: seq<Kid>): Json -> bool { m => LiveTool(messages, m) }

  predicate LiveUser(m: Json) { HeaderOk(m) && TextField(m, "role") == Some("user") }

  function PartPaths(part: Json): seq<Path> {
    if BlockOk(part) && TextField(part, "type") == Some("text") then Inside(part, Field(part, "text"), Leaf) else []
  }

  function UserContentPaths(content: Json): seq<Path> {
    if IsList(content) then Each(content.kids, 0, PartPaths) else Leaf(content)
  }

  function OneMessage(list: Json, i: Option<nat>, f: Json -> seq<Path>): seq<Path>
    requires IsList(list) && (i.Some? ==> i.value < |list.kids|)
  {
    if i.None? then []
    else
      var m := list.kids[i.value].value;
      Prefixed([i.value], Inside(m, Field(m, "content"), f))
  }

  function ChatListPaths(list: Json, floor: nat, userText: bool): seq<Path> {
    if !IsList(list) then []
    else
      OneMessage(list, LastWhere(list.kids, floor, ToolFinder(list.kids)), Leaf)
      + (if userText then OneMessage(list, LastWhere(list.kids, floor, LiveUser), UserContentPaths) else [])
  }

  /** The latest live tool result first, then the latest user message when opted in. */
  function ChatPaths(v: Json, floor: nat, userText: bool): seq<Path> {
    var k := ListField(v, "messages");
    if k.None? then [] else Prefixed([k.value], ChatListPaths(v.kids[k.value].value, floor, userText))
  }

  // ----- OpenAI Responses -----

  /** Number of leading estimates that are not input items. */
  function PrefixLen(v: Json): nat {
    var x := Lookup(v, "instructions");
    if x.None? then 0
    else match x.value
      case Str(b) => if Text(b) != "" then 1 else 0
      case Box(isObj, kids, _) => if !isObj && kids != [] then 1 else 0
      case Scalar(_) => 0
  }

  predicate ResponsesRetrieveItem(item: Json, id: string) {
    && LookupText(item, "type") == Some("function_call")
    && RetrieveNamed(LookupText(item, "name")) && LookupText(item, "call_id") == Some(id)
  }

  predicate ListRetrieves(items: Option<Json>, id: string) {
    items.Some? && IsList(items.value) &&
    exists i :: 0 <= i < |items.value.kids| && ResponsesRetrieveItem(items.value.kids[i].value, id)
  }

  predicate ResponsesRetrieveCall(v: Json, id: string) {
    var first := Lookup(v, "input");
    ListRetrieves(if first.Some? then first else Lookup(v, "messages"), id)
  }

  function ItemPaths(v: Json, item: Json): seq<Path> {
    if !ItemOk(item) then []
    else
      var kind, id := TextField(item, "type"), TextField(item, "call_id");
      if kind.None? || kind.value !in OUTPUT_ITEM_TYPES then []
      else if id.Some? && ResponsesRetrieveCall(v, id.value) then []
      else Inside(item, Field(item, "output"), Leaf)
  }

  function ItemFinder(v: Json): Json -> seq<Path> { item => ItemPaths(v, item) }

  function ItemsField(v: Json): (r: Option<nat>)
    ensures r.Some? ==> v.Box? && r.value < |v.kids|
  {
    if !ViewOk(v, {"input", "messages"}) then None
    else if Field(v, "input").Some? then Field(v, "input") else Field(v, "messages")
  }

  function ResponsesPaths(v: Json, floor: nat): seq<Path> {
    var k := ItemsField(v);
    if k.None? || !IsList(v.kids[k.value].value) then []
    else Prefixed([k.value], Each(v.kids[k.value].value.kids, Minus(floor, PrefixLen(v)), ItemFinder(v)))
  }

  /** Positions of the candidate string tokens, in the order the planners push them. */
  function SlotPaths(shape: Shape, v: Json, floor: nat, userText: bool): seq<Path> {
    match shape
    case OpenAiChat => ChatPaths(v, floor, userText)
    case OpenAiResponses => ResponsesPaths(v, floor)
    case AnthropicMessages => AnthropicPaths(v, floor, userText)
    case AnthropicBatches => BatchPaths(v, userText)
  }

  // ----- every candidate is a string token of live tool output or opted-in user text -----

  predicate Sorted(ps: seq<Path>) { forall i, j :: 0 <= i < j < |ps| ==> Before(ps[i], ps[j]) }

  /** Members whose string may be compressed, judged from the object that holds them. */
  predicate Compressible(holder: Json, key: string, userText: bool) {
    var kind, role := TextField(holder, "type"), TextField(holder, "role");
    || (key == "content" && kind == Some("tool_result") && Field(holder, "cache_control").None?)
    || (key == "content" && role == Some("tool"))
    || (key == "output" && kind.Some? && kind.value in OUTPUT_ITEM_TYPES)
    || (userText && key == "content" && role == Some("user"))
    || (userText && key == "text" && kind == Some("text"))
  }

  predicate SlotOk(v: Json, p: Path, userText: bool) {
    && HasPath(v, p) && At(v, p).Str? && p != []
    && var n := |p| - 1;
       HasPath(v, p[..n]) && var holder := At(v, p[..n]);
       holder.Box? && holder.isObj && p[n] < |holder.kids| &&
         Compressible(holder, Text(holder.kids[p[n]].key), userText)
  }

  predicate Slots(v: Json, ps: seq<Path>, userText: bool) {
    Sorted(ps) && forall i :: 0 <= i < |ps| ==> SlotOk(v, ps[i], userText)
  }

  ghost predicate FindsSlots(f: Json -> seq<Path>, userText: bool) { forall v :: Slots(v, f(v), userText) }

  lemma SlotDeeper(v: Json, k: nat, p: Path, userText: bool)
    requires v.Box? && k < |v.kids| && SlotOk(v.kids[k].value, p, userText)
    ensures SlotOk(v, [k] + p, userText)
  {
    var q, n := [k] + p, |p|;
    Deeper(v, k, p);
    Deeper(v, k, p[..n - 1]);
    assert q[..n] == [k] + p[..n - 1];
    assert q[n] == p[n - 1];
  }

  lemma Deeper(v: Json, k: nat, p: Path)
    requires v.Box? && k < |v.kids| && HasPath(v.kids[k].value, p)
    ensures HasPath(v, [k] + p) && At(v, [k] + p) == At(v.kids[k].value, p)
  {
    assert ([k] + p)[1..] == p;
  }

  lemma InsideSlots(v: Json, k: Option<nat>, f: Json -> seq<Path>, userText: bool)
    requires k.Some? ==> v.Box? && k.value < |v.kids|
    requires FindsSlots(f, userText)
    ensures Slots(v, Inside(v, k, f), userText)
  {
    if k.Some? {
      var ps := f(v.kids[k.value].value);
      assert Slots(v.kids[k.value].value, ps, userText);
      forall i | 0 <= i < |ps| ensures SlotOk(v, [k.value] + ps[i], userText) {
        SlotDeeper(v, k.value, ps[i], userText);
      }
      forall i, j | 0 <= i < j < |ps| ensures Before([k.value] + ps[i], [k.value] + ps[j]) {
        BeforePrefix([k.value], ps[i], ps[j]);
      }
    }
  }

  /** All positions start at kid `i`. */
  predicate Through(ps: seq<Path>, i: nat) { forall x :: 0 <= x < |ps| ==> ps[x] != [] && ps[x][0] == i }

  predicate StartsAt(ps: seq<Path>, from: nat) { forall i :: 0 <= i < |ps| ==> ps[i] != [] && ps[i][0] >= from }

  lemma {:induction false} EachSlots(v: Json, from: nat, f: Json -> seq<Path>, userText: bool)
    requires v.Box? && FindsSlots(f, userText)
    ensures Slots(v, Each(v.kids, from, f), userText) && StartsAt(Each(v.kids, from, f), from)
    decreases |v.kids| - from
  {
    if from < |v.kids| {
      EachSlots(v, from + 1, f, userText);
      FirstSlots(v, from, f, userText);
      JoinSlots(v, Prefixed([from], f(v.kids[from].value)), Each(v.kids, from + 1, f), from, userText);
    }
  }

  lemma FirstSlots(v: Json, k: nat, f: Json -> seq<Path>, userText: bool)
    requires v.Box? && k < |v.kids| && FindsSlots(f, userText)
    ensures Slots(v, Prefixed([k], f(v.kids[k].value)), userText) && Through(Prefixed([k], f(v.kids[k].value)), k)
  {
    InsideSlots(v, Some(k), f, userText);
  }

  lemma JoinSlots(v: Json, a: seq<Path>, b: seq<Path>, from: nat, userText: bool)
    requires Slots(v, a, userText) && Slots(v, b, userText) && Through(a, from) && StartsAt(b, from + 1)
    ensures Slots(v, a + b, userText) && StartsAt(a + b, from)
  {
    forall i, j | 0 <= i < |a| && 0 <= j < |b| ensures Before(a[i], b[j]) {
      assert a[i][0] == from && b[j][0] >= from + 1;
    }
  }

  lemma SlotHere(v: Json, k: nat, userText: bool)
    requires v.Box? && v.isObj && k < |v.kids| && v.kids[k].value.Str?
    requires Compressible(v, Text(v.kids[k].key), userText)
    ensures SlotOk(v, [k], userText)
  {
    assert [k][..0] == [] && [k][1..] == [];
    assert At(v, [k]) == v.kids[k].value;
  }

  /** A string found directly in a member. */
  lemma LeafSlot(v: Json, k: Option<nat>, userText: bool)
    requires k.Some? ==> v.Box? && v.isObj && k.value < |v.kids| && Compressible(v, Text(v.kids[k.value].key), userText)
    ensures Slots(v, Inside(v, k, Leaf), userText)
  {
    if k.Some? && v.kids[k.value].value.Str? {
      SlotHere(v, k.value, userText);
      assert [k.value] + [] == [k.value];
      assert Inside(v, k, Leaf) == [[k.value]];
    }
  }

  lemma FieldKey(v: Json, name: string)
    ensures Field(v, name).Some? ==> v.isObj && Text(v.kids[Field(v, name).value].key) == name
  {
  }

  lemma BlockSlots(b: Json, userText: bool)
    ensures Slots(b, BlockPaths(b, userText), userText)
  {
    FieldKey(b, "content");
    FieldKey(b, "text");
    var kind := TextField(b, "type");
    if Field(b, "cache_control").None? {
      if kind == Some("tool_result") { LeafSlot(b, Field(b, "content"), userText); }
      if kind == Some("text") && userText { LeafSlot(b, Field(b, "text"), userText); }
    }
  }

  /** Opting in to user text only widens what may change. */
  lemma SlotsWiden(v: Json, ps: seq<Path>, a: bool, b: bool)
    requires Slots(v, ps, a) && (a ==> b)
    ensures Slots(v, ps, b)
  {
    forall i | 0 <= i < |ps| ensures SlotOk(v, ps[i], b) { assert SlotOk(v, ps[i], a); }
  }

  lemma MessageSlots(m: Json, userText: bool)
    ensures Slots(m, MessagePaths(m, userText), userText)
  {
    var k, u := Field(m, "content"), userText && TextField(m, "role") == Some("user");
    FieldKey(m, "content");
    if HeaderOk(m) && k.Some? {
      var c := m.kids[k.value].value;
      if c.Str? {
        if u { LeafSlot(m, k, userText); }
      } else if IsList(c) {
        forall b ensures Slots(b, BlockPaths(b, u), u) { BlockSlots(b, u); }
        EachSlots(c, 0, BlockFinder(u), u);
        SlotsWiden(c, ContentPaths(c, u), u, userText);
        InsideOne(m, k.value, ContentPaths(c, u), userText);
      }
    }
  }

  lemma InsideOne(v: Json, k: nat, ps: seq<Path>, userText: bool)
    requires v.Box? && k < |v.kids| && Slots(v.kids[k].value, ps, userText)
    ensures Slots(v, Prefixed([k], ps), userText)
  {
    forall i | 0 <= i < |ps| ensures SlotOk(v, [k] + ps[i], userText) { SlotDeeper(v, k, ps[i], userText); }
    forall i, j | 0 <= i < j < |ps| ensures Before([k] + ps[i], [k] + ps[j]) { BeforePrefix([k], ps[i], ps[j]); }
  }

  lemma AnthropicSlots(v: Json, extraFloor: nat, userText: bool)
    ensures Slots(v, AnthropicPaths(v, extraFloor, userText), userText)
  {
    var k := ListField(v, "messages");
    if k.Some? {
      var list := v.kids[k.value].value;
      forall m ensures Slots(m, MessagePaths(m, userText), userText) { MessageSlots(m, userText); }
      EachSlots(list, Max(extraFloor, FrozenCount(list.kids)), MessageFinder(userText), userText);
      InsideOne(v, k.value, Each(list.kids, Max(extraFloor, FrozenCount(list.kids)), MessageFinder(userText)),
        userText);
    }
  }

  lemma BatchSlots(v: Json, userText: bool)
    ensures Slots(v, BatchPaths(v, userText), userText)
  {
    var k := ListField(v, "requests");
    if k.Some? {
      var list := v.kids[k.value].value;
      forall r ensures Slots(r, RequestPaths(r, userText), userText) {
        forall p ensures Slots(p, AnthropicPaths(p, 0, userText), userText) { AnthropicSlots(p, 0, userText); }
        if ViewOk(r, {"params"}) { InsideSlots(r, Field(r, "params"), ParamsFinder(userText), userText); }
      }
      EachSlots(list, 0, EntryFinder(userText), userText);
      InsideOne(v, k.value, Each(list.kids, 0, EntryFinder(userText)), userText);
    }
  }

  lemma ItemSlots(v: Json, item: Json, userText: bool)
    ensures Slots(item, ItemPaths(v, item), userText)
  {
    FieldKey(item, "output");
    var kind := TextField(item, "type");
    if kind.Some? && kind.value in OUTPUT_ITEM_TYPES { LeafSlot(item, Field(item, "output"), userText); }
  }

  lemma ResponsesSlots(v: Json, floor: nat, userText: bool)
    ensures Slots(v, ResponsesPaths(v, floor), userText)
  {
    var k := ItemsField(v);
    if k.Some? && IsList(v.kids[k.value].value) {
      var list := v.kids[k.value].value;
      forall item ensures Slots(item, ItemPaths(v, item), userText) { ItemSlots(v, item, userText); }
      EachSlots(list, Minus(floor, PrefixLen(v)), ItemFinder(v), userText);
      InsideOne(v, k.value, Each(list.kids, Minus(floor, PrefixLen(v)), ItemFinder(v)), userText);
    }
  }

  lemma OneMessageSlots(list: Json, i: Option<nat>, f: Json -> seq<Path>, userText: bool)
    requires IsList(list) && (i.Some? ==> i.value < |list.kids|)
    requires i.Some? ==> var m := list.kids[i.value].value; Slots(m, Inside(m, Field(m, "content"), f), userText)
    ensures Slots(list, OneMessage(list, i, f), userText)
    ensures i.None? ==> OneMessage(list, i, f) == []
    ensures i.Some? ==> Through(OneMessage(list, i, f), i.value)
  {
    if i.Some? {
      var m := list.kids[i.value].value;
      InsideOne(list, i.value, Inside(m, Field(m, "content"), f), userText);
    }
  }

  lemma UserSlots(m: Json, userText: bool)
    requires LiveUser(m)
    ensures Slots(m, Inside(m, Field(m, "content"), UserContentPaths), true)
  {
    var k := Field(m, "content");
    FieldKey(m, "content");
    if k.Some? {
      var c := m.kids[k.value].value;
      if IsList(c) {
        forall part ensures Slots(part, PartPaths(part), true) {
          FieldKey(part, "text");
          if TextField(part, "type") == Some("text") { LeafSlot(part, Field(part, "text"), true); }
        }
        EachSlots(c, 0, PartPaths, true);
        InsideOne(m, k.value, Each(c.kids, 0, PartPaths), true);
      } else {
        assert Inside(m, k, UserContentPaths) == Inside(m, k, Leaf);
        LeafSlot(m, k, true);
      }
    }
  }

  lemma ToolSlots(messages: seq<Kid>, m: Json, userText: bool)
    requires LiveTool(messages, m)
    ensures Slots(m, Inside(m, Field(m, "content"), Leaf), userText)
  {
    FieldKey(m, "content");
    LeafSlot(m, Field(m, "content"), userText);
  }

  // The chat planner pushes its two messages in a fixed order, not in document order.

  predicate Different(ps: seq<Path>) { forall i, j :: 0 <= i < j < |ps| ==> ps[i] != ps[j] && ps[i] != [] }

  predicate AllSlots(v: Json, ps: seq<Path>, userText: bool) {
    Different(ps) && forall i :: 0 <= i < |ps| ==> SlotOk(v, ps[i], userText)
  }

  lemma ChatListSlots(list: Json, floor: nat, userText: bool)
    ensures AllSlots(list, ChatListPaths(list, floor, userText), userText)
  {
    if IsList(list) {
      var t := LastWhere(list.kids, floor, ToolFinder(list.kids));
      var u := LastWhere(list.kids, floor, LiveUser);
      if t.Some? { ToolSlots(list.kids, list.kids[t.value].value, userText); }
      OneMessageSlots(list, t, Leaf, userText);
      if u.Some? { UserSlots(list.kids[u.value].value, userText); }
      OneMessageSlots(list, u, UserContentPaths, true);
      assert t.Some? && u.Some? ==> t.value != u.value by {
        assert t.Some? ==> TextField(list.kids[t.value].value, "role") == Some("tool");
      }
      var tools, users := OneMessage(list, t, Leaf), OneMessage(list, u, UserContentPaths);
      Alongside(list, tools, if userText then users else [], if t.Some? then t.value else 0,
                if u.Some? then u.value else 0, userText);
    }
  }

  lemma Alongside(list: Json, a: seq<Path>, b: seq<Path>, i: nat, j: nat, userText: bool)
    requires Slots(list, a, userText) && Slots(list, b, userText)
    requires Through(a, i) && Through(b, j)
    requires a != [] && b != [] ==> i != j
    ensures AllSlots(list, a + b, userText)
  {
    SortedDifferent(a);
    SortedDifferent(b);
    forall x, y | 0 <= x < |a| && 0 <= y < |b| ensures a[x] != b[y] && a[x] != [] {
      assert a[x][0] == i && b[y][0] == j;
    }
  }

  lemma {:induction false} BeforeIrreflexive(p: Path)
    ensures !Before(p, p)
  {
    if p != [] { BeforeIrreflexive(p[1..]); }
  }

  lemma SortedDifferent(ps: seq<Path>)
    requires Sorted(ps)
    ensures Different(ps)
  {
    forall i, j | 0 <= i < j < |ps| ensures ps[i] != ps[j] && ps[i] != [] { BeforeIrreflexive(ps[i]); }
  }

  lemma ChatSlots(v: Json, floor: nat, userText: bool)
    ensures AllSlots(v, ChatPaths(v, floor, userText), userText)
  {
    var k := ListField(v, "messages");
    if k.Some? {
      var list := v.kids[k.value].value;
      var ps := ChatListPaths(list, floor, userText);
      ChatListSlots(list, floor, userText);
      forall i | 0 <= i < |ps|
        ensures SlotOk(v, [k.value] + ps[i], userText) { SlotDeeper(v, k.value, ps[i], userText); }
      forall i, j | 0 <= i < j < |ps| ensures [k.value] + ps[i] != [k.value] + ps[j] {
        assert ([k.value] + ps[i])[1..] == ps[i] && ([k.value] + ps[j])[1..] == ps[j];
      }
    }
  }

  /**
   * For every shape each candidate is the whole string token of live tool output or of
   * opted-in user text, and no token is planned twice.
   */
  lemma PlannedSlots(shape: Shape, v: Json, floor: nat, userText: bool)
    ensures AllSlots(v, SlotPaths(shape, v, floor, userText), userText)
  {
    match shape
    case OpenAiChat => ChatSlots(v, floor, userText);
    case OpenAiResponses =>
      ResponsesSlots(v, floor, userText);
      SortedDifferent(ResponsesPaths(v, floor));
    case AnthropicMessages =>
      AnthropicSlots(v, floor, userText);
      SortedDifferent(AnthropicPaths(v, floor, userText));
    case AnthropicBatches =>
      BatchSlots(v, userText);
      SortedDifferent(BatchPaths(v, userText));
  }

  // ----- the frozen prefix -----

  /** Container index of the messages or items a shape rewrites, and the first index it may touch. */
  function Live(shape: Shape, v: Json, floor: nat): Option<(nat, nat)> {
    match shape
    case OpenAiChat =>
      var k := ListField(v, "messages");
      if k.None? then None else Some((k.value, floor))
    case OpenAiResponses =>
      var k := ItemsField(v);
      if k.None? then None else Some((k.value, Minus(floor, PrefixLen(v))))
    case AnthropicMessages =>
      var k := ListField(v, "messages");
      if k.None? then None else Some((k.value, Max(floor, FrozenCount(v.kids[k.value].value.kids))))
    case AnthropicBatches =>
      var k := ListField(v, "requests");
      if k.None? then None else Some((k.value, 0))
  }

  predicate InLiveZone(live: Option<(nat, nat)>, p: Path) {
    live.Some? && |p| >= 2 && p[0] == live.value.0 && p[1] >= live.value.1
  }

  lemma {:induction false} EachFrom(kids: seq<Kid>, from: nat, f: Json -> seq<Path>)
    ensures StartsAt(Each(kids, from, f), from)
    decreases |kids| - from
  {
    if from < |kids| { EachFrom(kids, from + 1, f); }
  }

  lemma PrefixedLive(k: nat, ps: seq<Path>, from: nat)
    requires StartsAt(ps, from)
    ensures forall i :: 0 <= i < |ps| ==> InLiveZone(Some((k, from)), Prefixed([k], ps)[i])
  {
  }

  lemma SlotsInZone(shape: Shape, v: Json, floor: nat, userText: bool)
    ensures forall i :: 0 <= i < |SlotPaths(shape, v, floor, userText)| ==>
              InLiveZone(Live(shape, v, floor), SlotPaths(shape, v, floor, userText)[i])
  {
    match shape
    case OpenAiChat =>
      var k := ListField(v, "messages");
      if k.Some? {
        var list := v.kids[k.value].value;
        ChatFrom(list, floor, userText);
        PrefixedLive(k.value, ChatListPaths(list, floor, userText), floor);
      }
    case OpenAiResponses =>
      var k := ItemsField(v);
      if k.Some? && IsList(v.kids[k.value].value) {
        var list, from := v.kids[k.value].value, Minus(floor, PrefixLen(v));
        EachFrom(list.kids, from, ItemFinder(v));
        PrefixedLive(k.value, Each(list.kids, from, ItemFinder(v)), from);
      }
    case AnthropicMessages =>
      var k := ListField(v, "messages");
      if k.Some? {
        var list := v.kids[k.value].value;
        var from := Max(floor, FrozenCount(list.kids));
        EachFrom(list.kids, from, MessageFinder(userText));
        PrefixedLive(k.value, Each(list.kids, from, MessageFinder(userText)), from);
      }
    case AnthropicBatches =>
      var k := ListField(v, "requests");
      if k.Some? {
        var list := v.kids[k.value].value;
        EachFrom(list.kids, 0, EntryFinder(userText));
        PrefixedLive(k.value, Each(list.kids, 0, EntryFinder(userText)), 0);
      }
  }

  lemma ChatFrom(list: Json, floor: nat, userText: bool)
    ensures StartsAt(ChatListPaths(list, floor, userText), floor)
  {
    hide Inside, UserContentPaths;
  }

  /** Message `j` of an Anthropic request carries a breakpoint. */
  predicate PinnedAt(v: Json, j: nat) {
    var k := ListField(v, "messages");
    k.Some? && j < |v.kids[k.value].value.kids| && Pinned(v.kids[k.value].value.kids[j].value)
  }

  /** Some message at or behind `i` carries a breakpoint. */
  predicate PinnedFrom(v: Json, i: nat) {
    var k := ListField(v, "messages");
    k.Some? && exists j :: i <= j < |v.kids[k.value].value.kids| && PinnedAt(v, j)
  }

  /** The Anthropic floor is the session's, or one past the last message that carries a breakpoint. */
  lemma PinnedFloor(v: Json, floor: nat, i: nat)
    requires Live(AnthropicMessages, v, floor).Some?
    ensures i < Live(AnthropicMessages, v, floor).value.1 <==> i < floor || PinnedFrom(v, i)
  {
    hide Pinned, ViewOk;
    var kids := v.kids[ListField(v, "messages").value].value.kids;
    var n := FrozenCount(kids);
    if i < n {
      assert PinnedAt(v, n - 1);
    } else if PinnedFrom(v, i) {
      var j :| i <= j < |kids| && PinnedAt(v, j);
      assert Pinned(kids[j].value);
    }
  }

  /**
   * Every candidate lies in the live zone of its shape; in an Anthropic request it lies at or above
   * the session's floor and behind every message that carries a breakpoint.
   */
  lemma SlotsAboveFloor(shape: Shape, v: Json, floor: nat, userText: bool, p: Path)
    requires p in SlotPaths(shape, v, floor, userText)
    ensures InLiveZone(Live(shape, v, floor), p)
    ensures shape == AnthropicMessages ==> floor <= p[1] && forall j :: PinnedAt(v, j) ==> j < p[1]
  {
    hide SlotPaths, ListField, PinnedAt, FrozenCount;
    SlotsInZone(shape, v, floor, userText);
    if shape == AnthropicMessages {
      PinnedFloor(v, floor, p[1]);
      forall j | PinnedAt(v, j) ensures j < p[1] { if j >= p[1] { PinnedBehind(v, p[1], j); } }
    }
  }

  lemma PinnedBehind(v: Json, i: nat, j: nat)
    requires PinnedAt(v, j) && i <= j
    ensures PinnedFrom(v, i)
  {
  }
}
