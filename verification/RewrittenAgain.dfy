/** Requests that a second pass changes: an added tool is cached, one is moved, one is cached in a batch. */
module RewrittenAgain {
  import opened Prelude
  import opened Json
  import opened JsonEdits
  import opened Values
  import opened Ccr
  import opened LiveZone
  import opened Tools
  import opened Injections
  import opened Rewriting
  import opened Rewriter
  import opened AddedTool
  import opened AdornedTwice
  import opened Fixpoints
  import opened Reversal

  /** A request with nothing to normalise yet that receives a tool which does not stay. */
  lemma Restless(shape: Shape, d: Doc, ctx: Context, prim: Primitives, st: StoreState, later: StoreState, i: nat)
    requires WfDoc(d) && !MultiChoice(shape, d.root) && Adorned(ctx) && st.outcomes == []
    requires GoodNumbers(prim.number) && GoodKeys(prim) && QuietKeys(prim) && !Misled(shape, d, ctx)
    requires MetadataEdits(shape, d.root, prim) == []
    requires if shape == AnthropicBatches then Compresses(shape, d.root, ctx, prim.hash, i)
             else i == 0 && HasMarker(Sem(d.root, prim.number))
    requires RequestAt(shape, d.root, i).Some? && !Settles(RequestAt(shape, d.root, i).value, shape, prim)
    ensures var out := Rewritten(RenderDoc(d), shape, ctx, prim, st).0.body;
            Rewritten(out, shape, ctx, prim, later) != (Outcome(out, false, []), later)
  {
    hide Rewritten, MultiChoice, MetadataEdits, RenderDoc, Settles, RequestAt, Compresses, HasMarker, Sem, Misled;
    UnchangedNormal(shape, d.root, ctx, prim);
    ReceiversExactly(shape, d, ctx, prim, st, i);
    FixedPoints(shape, d, ctx, prim, st, later);
  }

  /** A member that holds a marker. */
  function MarkedKid(): Kid { Kid("", "user", "", "", Str(OPENER), "") }

  lemma MarkedKidOk()
    ensures KidOk(true, MarkedKid()) && Text("user") == "user" && HasMarkerText(MarkedKid().value)
  {
    hide Decode, Encode, Unescape;
    var key, text := "user", OPENER;
    assert Plain(key) && Plain(text);
    PlainText(key);
    PlainText(text);
    assert StartsWith(text, OPENER);
  }

  predicate HasMarkerText(v: Json) { v.Str? && Contains(Text(v.body), OPENER) }

  lemma LastHas(before: seq<Kid>, kid: Kid, key: string)
    requires Text(kid.key) == key
    ensures Lookup(Box(true, before + [kid], ""), key) == Some(kid.value)
    ensures KeyIndex(Box(true, before + [kid], ""), key) == Some(|before|)
  {
    var kids := before + [kid];
    assert Keys(kids)[|kids| - 1] == key;
  }

  lemma HasNone(kids: seq<Kid>, key: string)
    requires forall i :: 0 <= i < |kids| ==> Text(kids[i].key) != key
    ensures Lookup(Box(true, kids, ""), key).None? && KeyIndex(Box(true, kids, ""), key).None?
  {
    assert key !in Keys(kids);
  }

  lemma MarkedBody(before: seq<Kid>, number: string -> string)
    ensures HasMarker(Sem(Box(true, before + [MarkedKid()], ""), number))
  {
    hide Lookup, Contains;
    MarkedKidOk();
    LastHas(before, MarkedKid(), "user");
    MarkerRead(Box(true, before + [MarkedKid()], ""), number, "user");
  }

  /** `{"user":"<<ccr:"}` */
  function Untooled(): Doc { Doc("", Box(true, [MarkedKid()], ""), "") }

  lemma UntooledReads()
    ensures WfDoc(Untooled()) && Lookup(Untooled().root, "tools").None? && ToolList(Untooled().root).None?
    ensures !CacheControlSet(Untooled().root)
  {
    hide Text, Keys;
    MarkedKidOk();
    var kids := [MarkedKid()];
    HasNone(kids, "tools");
    HasNone(kids, "system");
    HasNone(kids, "messages");
  }

  /** Anthropic without tools: the second pass places a breakpoint on the added tool. */
  lemma CachedAgain(ctx: Context, prim: Primitives, st: StoreState, later: StoreState)
    requires ctx.metadata && ctx.auth == Payg && st.outcomes == []
    requires GoodNumbers(prim.number) && GoodKeys(prim) && QuietKeys(prim)
    ensures var out := Rewritten(RenderDoc(Untooled()), AnthropicMessages, ctx, prim, st).0.body;
            Rewritten(out, AnthropicMessages, ctx, prim, later) != (Outcome(out, false, []), later)
  {
    hide CacheControlSet, HasMarker, Rewritten, NewDoc, ToolEdits;
    var d := Untooled();
    UntooledReads();
    MarkedBody([], prim.number);
    assert [] + [MarkedKid()] == [MarkedKid()];
    NoToolEdits(d.root, true, prim);
    Restless(AnthropicMessages, d, ctx, prim, st, later, 0);
  }

  function NameKid(): Kid { Kid("", "name", "", "", Str("z"), "") }

  /** `{"name":"z"}` */
  function Zed(): Json { Box(true, [NameKid()], "") }

  function ZedKid(): Kid { Kid("", "tools", "", "", Box(false, [Kid("", "", "", "", Zed(), "")], ""), "") }

  /** `{"tools":[{"name":"z"}],"user":"<<ccr:"}` */
  function Late(): Doc { Doc("", Box(true, [ZedKid(), MarkedKid()], ""), "") }

  lemma PlainKeys()
    ensures Text("tools") == "tools" && Text("name") == "name" && Text("z") == "z"
    ensures Decode("tools").Some? && Decode("name").Some? && Decode("z").Some?
  {
    hide Text, Decode;
    var a, b, c := "tools", "name", "z";
    PlainText(a);
    PlainText(b);
    PlainText(c);
    TextOf(a);
    TextOf(b);
    TextOf(c);
  }

  lemma LateWf()
    ensures WfDoc(Late())
  {
    hide Text, Decode;
    PlainKeys();
    MarkedKidOk();
    assert Wf(Zed()) by { assert KidOk(true, NameKid()); }
    assert KidOk(true, ZedKid());
  }

  lemma ZedReads(prim: Primitives)
    ensures SortKey(Zed(), prim) == "z" && Lookup(Zed(), "cache_control").None?
    ensures SchemaPath(Zed(), false).None? && !Announces(OpenAiChat, Zed())
  {
    hide Text, Keys;
    PlainKeys();
    var kids := [NameKid()];
    assert [] + [NameKid()] == kids;
    LastHas([], NameKid(), "name");
    HasNone(kids, "cache_control");
    HasNone(kids, "function");
    HasNone(kids, "parameters");
  }

  lemma LateTools()
    ensures Lookup(Late().root, "tools") == Some(ZedKid().value) && KeyIndex(Late().root, "tools") == Some(0)
    ensures ViewOk(Late().root, {"tools"})
  {
    hide Text, NameKid, Zed;
    PlainKeys();
    MarkedKidOk();
    var kids := [ZedKid(), MarkedKid()];
    assert Keys(kids) == ["tools", "user"];
    assert Keys(kids)[..1] == ["tools"];
  }

  lemma OneSorted(tool: Json, prim: Primitives)
    ensures Arranged([tool], prim) == [tool]
  {
    SortedExactly([tool], prim);
  }

  /** The list is normalised already, and its only tool sorts behind the retrieve tool. */
  lemma LateReads(prim: Primitives)
    ensures ToolEdits(Late().root, false, prim) == [] && ToolAppend(Late().root, OpenAiChat, prim.wording).Some?
    ensures !Stays(Late().root, OpenAiChat, prim)
  {
    hide Text, SortKey, Lookup, SchemaPath, Announces, KeyIndex, ViewOk, CacheControlSet;
    var v := Late().root;
    LateTools();
    ZedReads(prim);
    OneSorted(Zed(), prim);
    assert ListField(v, "tools") == Some(0);
    assert Vals(ZedKid().value.kids) == [Zed()];
    NothingExactly(v, false, prim);
    assert RETRIEVE[0] == 'h';
    assert Below(RETRIEVE, "z");
    assert ShownTools(v)[0] == Zed();
  }

  /** OpenAI with a tool that sorts behind: the second pass moves the added tool in front of it. */
  lemma MovedAgain(ctx: Context, prim: Primitives, st: StoreState, later: StoreState)
    requires ctx.metadata && ctx.auth == Payg && st.outcomes == []
    requires GoodNumbers(prim.number) && GoodKeys(prim) && QuietKeys(prim)
    ensures var out := Rewritten(RenderDoc(Late()), OpenAiChat, ctx, prim, st).0.body;
            Rewritten(out, OpenAiChat, ctx, prim, later) != (Outcome(out, false, []), later)
  {
    hide CacheControlSet, HasMarker, Rewritten, NewDoc, ToolEdits, Stays, ToolAppend, Lookup;
    var d := Late();
    LateWf();
    LateReads(prim);
    OneChoice();
    MarkedBody([ZedKid()], prim.number);
    assert [ZedKid()] + [MarkedKid()] == [ZedKid(), MarkedKid()];
    Restless(OpenAiChat, d, ctx, prim, st, later, 0);
  }

  lemma OneChoice()
    ensures !MultiChoice(OpenAiChat, Late().root)
  {
    hide Text, Keys;
    PlainKeys();
    MarkedKidOk();
    HasNone([ZedKid(), MarkedKid()], "n");
  }

  // ----- a batch with one entry and one tool result -----

  function Member(key: string, value: Json): Kid { Kid("", key, "", "", value, "") }

  function Single(key: string, value: Json): Json { Box(true, [Member(key, value)], "") }

  function Pair(a: string, x: Json, b: string, y: Json): Json { Box(true, [Member(a, x), Member(b, y)], "") }

  function Listed(value: Json): Json { Box(false, [Kid("", "", "", "", value, "")], "") }

  /** Just long enough to be compressed. */
  function Filler(): string { seq(LIVE_ZONE_MIN_BYTES, i => 'a') }

  function Answer(): Json { Pair("type", Str("tool_result"), "content", Str(Filler())) }

  function Turn(): Json { Pair("role", Str("user"), "content", Listed(Answer())) }

  function Asked(): Json { Single("messages", Listed(Turn())) }

  /** `{"requests":[{"params":{"messages":[...]}}]}` */
  function OneEntry(): Doc { Doc("", Single("requests", Listed(Single("params", Asked()))), "") }

  lemma SingleReads(key: string, value: Json)
    requires Plain(key)
    ensures KeyIndex(Single(key, value), key) == Some(0) && forall fields :: ViewOk(Single(key, value), fields)
    ensures forall other :: other != key ==> KeyIndex(Single(key, value), other).None?
    ensures Wf(value) ==> Wf(Single(key, value))
  {
    hide Text;
    PlainText(key);
    TextOf(key);
    assert Keys(Single(key, value).kids) == [key];
    if Wf(value) { assert KidOk(true, Member(key, value)); }
  }

  lemma PairReads(a: string, x: Json, b: string, y: Json)
    requires Plain(a) && Plain(b) && a != b
    ensures KeyIndex(Pair(a, x, b, y), a) == Some(0) && KeyIndex(Pair(a, x, b, y), b) == Some(1)
    ensures forall fields :: ViewOk(Pair(a, x, b, y), fields)
    ensures forall other :: other != a && other != b ==> KeyIndex(Pair(a, x, b, y), other).None?
  {
    hide Text;
    TextOf(a);
    TextOf(b);
    var keys := Keys(Pair(a, x, b, y).kids);
    assert keys == [a, b];
    assert keys[..1] == [a];
  }

  lemma PairWf(a: string, x: Json, b: string, y: Json)
    requires Plain(a) && Plain(b) && Wf(x) && Wf(y)
    ensures Wf(Pair(a, x, b, y))
  {
    PlainText(a);
    PlainText(b);
    assert KidOk(true, Member(a, x)) && KidOk(true, Member(b, y));
  }

  lemma ListedWf(value: Json)
    requires Wf(value)
    ensures Wf(Listed(value))
  {
    assert KidOk(false, Kid("", "", "", "", value, ""));
  }

  /** `p` is among the positions found, and the filler stands there. */
  predicate Finds(v: Json, ps: seq<Path>, p: Path) { p in ps && HasPath(v, p) && TextAt(v, p) == Filler() }

  lemma FindsInside(v: Json, k: nat, ps: seq<Path>, p: Path)
    requires v.Box? && k < |v.kids| && Finds(v.kids[k].value, ps, p)
    ensures Finds(v, Prefixed([k], ps), [k] + p)
  {
    hide Filler;
    var i :| 0 <= i < |ps| && ps[i] == p;
    assert Prefixed([k], ps)[i] == [k] + p;
    Deeper(v, k, p);
  }

  lemma FindsListed(value: Json, f: Json -> seq<Path>, p: Path)
    requires Finds(value, f(value), p)
    ensures Finds(Listed(value), Each(Listed(value).kids, 0, f), [0] + p)
  {
    FindsInside(Listed(value), 0, f(value), p);
    assert Each(Listed(value).kids, 0, f) == Prefixed([0], f(value)) + Each(Listed(value).kids, 1, f);
  }

  lemma FillerReads()
    ensures Text(Filler()) == Filler() && Wf(Str(Filler())) && Bytes(Filler()) >= LIVE_ZONE_MIN_BYTES
    ensures !Contains(Filler(), OPENER)
  {
    hide Decode, Encode, Text, Contains, Bytes;
    var text := Filler();
    PlainText(text);
    TextOf(text);
    NoOpener(text);
  }

  lemma WordReads(word: string)
    requires Plain(word)
    ensures Text(word) == word && Wf(Str(word))
  {
    PlainText(word);
    TextOf(word);
  }

  lemma FillerFound()
    ensures Finds(Str(Filler()), [[]], [])
  {
    hide Filler, Text, Wf, Bytes, Contains;
    FillerReads();
    var here: Path := [];
    assert [here][0] == here;
    assert At(Str(Filler()), []) == Str(Filler());
  }

  lemma AnswerKind(b: Json)
    requires ViewOk(b, BLOCK_FIELDS) && KeyIndex(b, "cache_control").None?
    requires KeyIndex(b, "type") == Some(0) && b.kids[0].value == Str("tool_result")
    ensures BlockOk(b) && TextField(b, "type") == Some("tool_result") && Field(b, "cache_control").None?
  {
    hide Text, KeyIndex, ViewOk;
    var word := "tool_result";
    assert Plain(word);
    WordReads(word);
  }

  lemma AnswerBlock(b: Json, userText: bool)
    requires BlockOk(b) && TextField(b, "type") == Some("tool_result") && Field(b, "cache_control").None?
    requires Field(b, "content") == Some(1) && b.kids[1].value.Str?
    ensures BlockPaths(b, userText) == Prefixed([1], [[]])
  {
    hide BlockOk, TextField, Field;
    var kind := TextField(b, "type").value;
    assert |kind| == 11 && kind[0] == 't' && kind[1] == 'o' && kind[5] == 'r';
    assert kind !in HOT_ZONE_BLOCK_TYPES;
  }

  lemma AnswerReads(userText: bool)
    ensures Finds(Answer(), BlockPaths(Answer(), userText), [1]) && Wf(Answer())
    ensures Lookup(Answer(), "cache_control").None?
  {
    hide Text, Filler, KeyIndex, ViewOk, BlockPaths, Finds, Wf, Bytes, Contains, BlockOk, TextField, Prefixed;
    var word := "tool_result";
    PairReads("type", Str(word), "content", Str(Filler()));
    WordReads(word);
    FillerReads();
    PairWf("type", Str(word), "content", Str(Filler()));
    AnswerKind(Answer());
    AnswerBlock(Answer(), userText);
    FillerFound();
    FindsInside(Answer(), 1, [[]], []);
    assert [1] + [] == [1];
  }

  lemma TurnMessage(m: Json, userText: bool)
    requires ViewOk(m, HEADER_FIELDS) && KeyIndex(m, "name").None? && KeyIndex(m, "tool_call_id").None?
    requires KeyIndex(m, "role") == Some(0) && m.kids[0].value == Str("user")
    requires KeyIndex(m, "content") == Some(1) && IsList(m.kids[1].value)
    ensures MessagePaths(m, userText) == Prefixed([1], Each(m.kids[1].value.kids, 0, BlockFinder(userText)))
  {
    hide Text, KeyIndex, ViewOk, BlockPaths;
    var word := "user";
    assert Plain(word);
    WordReads(word);
  }

  lemma Unpinned(m: Json, block: Json)
    requires Lookup(m, "content") == Some(Listed(block)) && Lookup(block, "cache_control").None?
    ensures !Pinned(m)
  {
    hide Lookup;
  }

  lemma TurnReads(userText: bool)
    ensures Finds(Turn(), MessagePaths(Turn(), userText), [1] + ([0] + [1])) && Wf(Turn()) && !Pinned(Turn())
  {
    hide Text, Answer, BlockPaths, KeyIndex, ViewOk, MessagePaths, Finds, Wf, Pinned;
    var word := "user";
    AnswerReads(userText);
    PairReads("role", Str(word), "content", Listed(Answer()));
    WordReads(word);
    ListedWf(Answer());
    PairWf("role", Str(word), "content", Listed(Answer()));
    TurnMessage(Turn(), userText);
    Unpinned(Turn(), Answer());
    FindsListed(Answer(), BlockFinder(userText), [1]);
    FindsInside(Turn(), 1, Each(Listed(Answer()).kids, 0, BlockFinder(userText)), [0] + [1]);
  }

  lemma AskedReads(userText: bool)
    ensures Finds(Asked(), AnthropicPaths(Asked(), 0, userText), [0] + ([0] + ([1] + ([0] + [1])))) && Wf(Asked())
    ensures Lookup(Asked(), "tools").None? && ToolList(Asked()).None? && !CacheControlSet(Asked()) && Object(Asked())
  {
    hide Text, Turn, MessagePaths;
    TurnReads(userText);
    SingleReads("messages", Listed(Turn()));
    ListedWf(Turn());
    FindsListed(Turn(), MessageFinder(userText), [1] + ([0] + [1]));
    FindsInside(Asked(), 0, Each(Listed(Turn()).kids, 0, MessageFinder(userText)), [0] + ([1] + ([0] + [1])));
  }

  lemma EntryFinds(userText: bool)
    ensures Finds(Single("params", Asked()), RequestPaths(Single("params", Asked()), userText),
                  [0] + ([0] + ([0] + ([1] + ([0] + [1])))))
    ensures ParamsIn(Single("params", Asked())) == Some(Asked()) && Wf(Single("params", Asked()))
  {
    hide Text, AnthropicPaths, KeyIndex, ViewOk, Finds, Wf, Turn;
    AskedReads(userText);
    SingleReads("params", Asked());
    FindsInside(Single("params", Asked()), 0, AnthropicPaths(Asked(), 0, userText),
                [0] + ([0] + ([1] + ([0] + [1]))));
  }

  lemma EntryReads(userText: bool)
    ensures exists p :: Finds(OneEntry().root, BatchPaths(OneEntry().root, userText), p) && |p| >= 2 && p[1] == 0
    ensures WfDoc(OneEntry()) && RequestAt(AnthropicBatches, OneEntry().root, 0) == Some(Asked())
    ensures forall i: nat :: i > 0 ==> RequestAt(AnthropicBatches, OneEntry().root, i).None?
  {
    hide Text, RequestPaths, KeyIndex, ViewOk, Finds, Wf, Asked, ParamsIn;
    var entry, p := Single("params", Asked()), [0] + ([0] + ([0] + ([1] + ([0] + [1]))));
    EntryFinds(userText);
    SingleReads("requests", Listed(entry));
    ListedWf(entry);
    FindsListed(entry, EntryFinder(userText), p);
    FindsInside(OneEntry().root, 0, Each(Listed(entry).kids, 0, EntryFinder(userText)), [0] + p);
    assert ([0] + ([0] + p))[1] == 0;
  }

  lemma EntryCompressed(ctx: Context, hash: string -> string)
    requires GoodHash(hash)
    ensures Compresses(AnthropicBatches, OneEntry().root, ctx, hash, 0)
  {
    hide Filler, OneEntry, BatchPaths, Gate, Text, Asked, Bytes, Contains, Wf, WfDoc, RequestAt, HasPath, TextAt;
    EntryReads(ctx.userText);
    FillerReads();
    GateExact(Filler(), hash);
    var p :| Finds(OneEntry().root, BatchPaths(OneEntry().root, ctx.userText), p) && |p| >= 2 && p[1] == 0;
    assert p in Candidates(AnthropicBatches, OneEntry().root, ctx);
  }

  lemma NeverCached(x: Json, prim: Primitives)
    requires Object(x) && Lookup(x, "tools").None? && !CacheControlSet(x)
    ensures !Settles(x, AnthropicBatches, prim)
  {
    hide Lookup, CacheControlSet, AllUpTo, Marked;
  }

  lemma EntrySettled(prim: Primitives)
    ensures MetadataEdits(AnthropicBatches, OneEntry().root, prim) == []
  {
    hide OneEntry, ToolList, RequestAt, PerRequest, CacheControlSet, Asked, Finds, ToolEdits, Wf, WfDoc, Lookup,
      BatchPaths, AnthropicPaths;
    EntryReads(false);
    AskedReads(false);
    NoToolEdits(Asked(), true, prim);
    var g := NormalizePlan(true, prim);
    assert g(0, Asked()) == [];
    NothingAnywhere(AnthropicBatches, OneEntry().root, g);
  }

  /** A batch whose one entry has no tools: the second pass places a breakpoint on the added tool. */
  lemma BatchCachedAgain(ctx: Context, prim: Primitives, st: StoreState, later: StoreState)
    requires ctx.metadata && ctx.auth == Payg && st.outcomes == []
    requires GoodNumbers(prim.number) && GoodKeys(prim) && QuietKeys(prim)
    requires GoodHash(prim.hash)
    ensures var out := Rewritten(RenderDoc(OneEntry()), AnthropicBatches, ctx, prim, st).0.body;
            Rewritten(out, AnthropicBatches, ctx, prim, later) != (Outcome(out, false, []), later)
  {
    hide OneEntry, Rewritten, MetadataEdits, RequestAt, Settles, Compresses, Asked, Finds, Wf, WfDoc, Lookup, ToolList;
    EntryReads(false);
    EntrySettled(prim);
    AskedReads(false);
    NeverCached(Asked(), prim);
    EntryCompressed(ctx, prim.hash);
    Restless(AnthropicBatches, OneEntry(), ctx, prim, st, later, 0);
  }
}
