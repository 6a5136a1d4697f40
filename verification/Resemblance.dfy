/** What the planners read is not what the rewriter changes: planning is stable under rewriting. */
module Resemblance {
  import opened Prelude
  import opened Json
  import opened JsonEdits
  import opened Values
  import opened LiveZone
  import opened Tools

  const TEXT_KEYS := {"content", "text", "output"}

  // ----- the relation -----

  /** Members the rewriter may add or change as a whole. */
  predicate Free(key: string) { key == "tools" || key == "prompt_cache_key" }

  /** `w` may differ from `v` in compressible strings, under free members, and by added free members. */
  predicate Alike(v: Json, w: Json)
    decreases v
  {
    match v
    case Scalar(_) => w == v
    case Str(_) => w.Str?
    case Box(isObj, kids, _) =>
      && w.Box? && w.isObj == isObj
      && |kids| <= |w.kids| && (!isObj ==> |kids| == |w.kids|)
      && (forall i :: 0 <= i < |kids| ==> KidAlike(isObj, kids[i], w.kids[i]))
      && (forall i :: |kids| <= i < |w.kids| ==> Free(Text(w.kids[i].key)))
  }

  predicate KidAlike(isObj: bool, a: Kid, b: Kid)
    decreases a
  {
    && a.key == b.key
    && (|| (isObj && Free(Text(a.key)))
        || (Alike(a.value, b.value) && (a.value.Str? && !(isObj && Text(a.key) in TEXT_KEYS) ==> a.value == b.value)))
  }

  lemma {:induction false} AlikeSelf(v: Json)
    ensures Alike(v, v)
    decreases v
  {
    if v.Box? {
      forall i | 0 <= i < |v.kids| ensures KidAlike(v.isObj, v.kids[i], v.kids[i]) { AlikeSelf(v.kids[i].value); }
    }
  }

  // ----- lookups -----

  lemma {:induction false} LastIndexExtra(a: seq<string>, b: seq<string>, x: string)
    requires x !in b
    ensures LastIndex(a + b, x) == LastIndex(a, x)
  {
    if b == [] {
      assert a + b == a;
    } else {
      var n := |b| - 1;
      assert (a + b)[..|a + b| - 1] == a + b[..n];
      LastIndexExtra(a, b[..n], x);
    }
  }

  /** Keys are the same up to added free members. */
  lemma AlikeKeys(v: Json, w: Json, x: string)
    requires Alike(v, w) && v.Box? && !Free(x)
    ensures KeyIndex(v, x) == KeyIndex(w, x)
    ensures multiset(Keys(v.kids))[x] == multiset(Keys(w.kids))[x]
  {
    var n := |v.kids|;
    var extra := Keys(w.kids)[n..];
    forall i | 0 <= i < n ensures Keys(w.kids)[i] == Keys(v.kids)[i] { assert KidAlike(v.isObj, v.kids[i], w.kids[i]); }
    assert Keys(w.kids) == Keys(v.kids) + extra;
    assert x !in extra;
    LastIndexExtra(Keys(v.kids), extra, x);
  }

  lemma AlikeView(v: Json, w: Json, fields: set<string>)
    requires Alike(v, w) && forall f :: f in fields ==> !Free(f)
    ensures ViewOk(v, fields) == ViewOk(w, fields)
  {
    if v.Box? && v.isObj {
      forall f | f in fields ensures multiset(Keys(v.kids))[f] == multiset(Keys(w.kids))[f] { AlikeKeys(v, w, f); }
    }
  }

  lemma NoFree()
    ensures forall f :: f in HEADER_FIELDS + BLOCK_FIELDS + ITEM_FIELDS ==> !Free(f)
  {
  }

  lemma AlikeNull(v: Json, w: Json)
    requires Alike(v, w)
    ensures IsNull(v) == IsNull(w)
  {
  }

  lemma AlikeField(v: Json, w: Json, name: string)
    requires Alike(v, w) && !Free(name)
    ensures KeyIndex(v, name) == KeyIndex(w, name) && Field(v, name) == Field(w, name)
    ensures KeyIndex(v, name).Some? ==>
              var k := KeyIndex(v, name).value;
              w.Box? && k < |w.kids| && Alike(v.kids[k].value, w.kids[k].value)
              && (name !in TEXT_KEYS && v.kids[k].value.Str? ==> v.kids[k].value == w.kids[k].value)
  {
    if v.Box? && v.isObj {
      AlikeKeys(v, w, name);
      var k := KeyIndex(v, name);
      if k.Some? {
        assert KidAlike(true, v.kids[k.value], w.kids[k.value]);
        AlikeNull(v.kids[k.value].value, w.kids[k.value].value);
      }
    }
  }

  lemma AlikeText(v: Json, w: Json, name: string)
    requires Alike(v, w) && !Free(name) && name !in TEXT_KEYS
    ensures TextField(v, name) == TextField(w, name) && TextFieldOk(v, name) == TextFieldOk(w, name)
    ensures LookupText(v, name) == LookupText(w, name)
  {
    AlikeField(v, w, name);
  }

  lemma AlikeLookup(v: Json, w: Json, name: string)
    requires Alike(v, w) && !Free(name)
    ensures Lookup(v, name).Some? == Lookup(w, name).Some?
    ensures Lookup(v, name).Some? ==> Alike(Lookup(v, name).value, Lookup(w, name).value)
  {
    AlikeField(v, w, name);
  }

  lemma AlikeList(v: Json, w: Json, name: string)
    requires Alike(v, w) && !Free(name)
    ensures ListField(v, name) == ListField(w, name)
    ensures ListField(v, name).Some? ==>
              var k := ListField(v, name).value;
              w.Box? && k < |w.kids| && Alike(v.kids[k].value, w.kids[k].value)
  {
    AlikeView(v, w, {name});
    AlikeField(v, w, name);
  }

  // ----- collecting -----

  ghost predicate Stable(f: Json -> seq<Path>) { forall v, w :: Alike(v, w) ==> f(v) == f(w) }

  lemma {:induction false} EachSame(a: seq<Kid>, b: seq<Kid>, from: nat, f: Json -> seq<Path>, g: Json -> seq<Path>)
    requires |a| == |b| && forall i :: 0 <= i < |a| ==> f(a[i].value) == g(b[i].value)
    ensures Each(a, from, f) == Each(b, from, g)
    decreases |a| - from
  {
    if from < |a| { EachSame(a, b, from + 1, f, g); }
  }

  lemma ListKids(v: Json, w: Json)
    requires Alike(v, w) && IsList(v)
    ensures IsList(w) && |v.kids| == |w.kids|
    ensures forall i :: 0 <= i < |v.kids| ==> Alike(v.kids[i].value, w.kids[i].value)
  {
    forall i | 0 <= i < |v.kids| ensures Alike(v.kids[i].value, w.kids[i].value) {
      assert KidAlike(false, v.kids[i], w.kids[i]);
      AlikeSelf(v.kids[i].value);
    }
  }

  lemma EachAlike(v: Json, w: Json, from: nat, f: Json -> seq<Path>)
    requires Alike(v, w) && IsList(v) && Stable(f)
    ensures IsList(w) && Each(v.kids, from, f) == Each(w.kids, from, f)
  {
    ListKids(v, w);
    EachSame(v.kids, w.kids, from, f, f);
  }

  lemma InsideAlike(v: Json, w: Json, name: string, f: Json -> seq<Path>)
    requires Alike(v, w) && !Free(name) && Stable(f)
    ensures Inside(v, Field(v, name), f) == Inside(w, Field(w, name), f)
  {
    AlikeField(v, w, name);
  }

  // ----- planners -----

  lemma BlockViewAlike(v: Json, w: Json)
    requires Alike(v, w)
    ensures BlockOk(v) == BlockOk(w) && TextField(v, "type") == TextField(w, "type")
    ensures Field(v, "cache_control") == Field(w, "cache_control")
  {
    NoFree();
    AlikeView(v, w, BLOCK_FIELDS);
    AlikeText(v, w, "type");
    AlikeField(v, w, "cache_control");
  }

  lemma LeafStable()
    ensures Stable(Leaf)
  {
  }

  lemma BlockAlike(v: Json, w: Json, userText: bool)
    requires Alike(v, w)
    ensures BlockPaths(v, userText) == BlockPaths(w, userText)
  {
    hide Alike, Inside, BlockOk, TextField;
    LeafStable();
    BlockViewAlike(v, w);
    InsideAlike(v, w, "content", Leaf);
    InsideAlike(v, w, "text", Leaf);
  }

  lemma ContentAlike(v: Json, w: Json, userText: bool)
    requires Alike(v, w)
    ensures ContentPaths(v, userText) == ContentPaths(w, userText)
  {
    if IsList(v) {
      forall a, b | Alike(a, b)
        ensures BlockPaths(a, userText) == BlockPaths(b, userText) { BlockAlike(a, b, userText); }
      EachAlike(v, w, 0, BlockFinder(userText));
    }
  }

  lemma HeaderAlike(v: Json, w: Json)
    requires Alike(v, w)
    ensures HeaderOk(v) == HeaderOk(w)
  {
    NoFree();
    AlikeView(v, w, HEADER_FIELDS);
    AlikeText(v, w, "role");
    AlikeText(v, w, "name");
    AlikeText(v, w, "tool_call_id");
  }

  lemma MessageAlike(v: Json, w: Json, userText: bool)
    requires Alike(v, w)
    ensures MessagePaths(v, userText) == MessagePaths(w, userText)
  {
    HeaderAlike(v, w);
    AlikeText(v, w, "role");
    var u := userText && TextField(v, "role") == Some("user");
    forall a, b | Alike(a, b) ensures ContentPaths(a, u) == ContentPaths(b, u) { ContentAlike(a, b, u); }
    InsideAlike(v, w, "content", ContentFinder(u));
  }

  lemma CacheControlAlike(v: Option<Json>, w: Option<Json>)
    requires v.Some? == w.Some? && (v.Some? ==> Alike(v.value, w.value))
    ensures HasCacheControl(v) == HasCacheControl(w)
  {
    if v.Some? && v.value.Box? {
      if v.value.isObj {
        AlikeLookup(v.value, w.value, "cache_control");
      } else {
        ListKids(v.value, w.value);
        forall i | 0 <= i < |v.value.kids|
          ensures Lookup(v.value.kids[i].value, "cache_control").Some?
                  == Lookup(w.value.kids[i].value, "cache_control").Some?
        {
          AlikeLookup(v.value.kids[i].value, w.value.kids[i].value, "cache_control");
        }
      }
    }
  }

  lemma PinnedAlike(v: Json, w: Json)
    requires Alike(v, w)
    ensures Pinned(v) == Pinned(w)
  {
    AlikeLookup(v, w, "content");
    CacheControlAlike(Lookup(v, "content"), Lookup(w, "content"));
  }

  lemma {:induction false} LastWhereSame(a: seq<Kid>, b: seq<Kid>, floor: nat, p: Json -> bool, q: Json -> bool)
    requires |a| == |b| && forall i :: 0 <= i < |a| ==> p(a[i].value) == q(b[i].value)
    ensures LastWhere(a, floor, p) == LastWhere(b, floor, q)
  {
    if |a| > floor { LastWhereSame(a[..|a| - 1], b[..|b| - 1], floor, p, q); }
  }

  lemma FrozenAlike(v: Json, w: Json)
    requires Alike(v, w) && IsList(v)
    ensures IsList(w) && FrozenCount(v.kids) == FrozenCount(w.kids)
  {
    ListKids(v, w);
    forall i | 0 <= i < |v.kids| ensures Pinned(v.kids[i].value) == Pinned(w.kids[i].value) {
      PinnedAlike(v.kids[i].value, w.kids[i].value);
    }
    LastWhereSame(v.kids, w.kids, 0, Pinned, Pinned);
  }

  lemma AnthropicAlike(v: Json, w: Json, floor: nat, userText: bool)
    requires Alike(v, w)
    ensures AnthropicPaths(v, floor, userText) == AnthropicPaths(w, floor, userText)
  {
    AlikeList(v, w, "messages");
    var k := ListField(v, "messages");
    if k.Some? {
      var a, b := v.kids[k.value].value, w.kids[k.value].value;
      FrozenAlike(a, b);
      forall m, n | Alike(m, n) ensures MessagePaths(m, userText) == MessagePaths(n, userText) {
        MessageAlike(m, n, userText);
      }
      EachAlike(a, b, Max(floor, FrozenCount(a.kids)), MessageFinder(userText));
    }
  }

  lemma RequestAlike(v: Json, w: Json, userText: bool)
    requires Alike(v, w)
    ensures RequestPaths(v, userText) == RequestPaths(w, userText)
  {
    AlikeView(v, w, {"params"});
    forall a, b | Alike(a, b) ensures AnthropicPaths(a, 0, userText) == AnthropicPaths(b, 0, userText) {
      AnthropicAlike(a, b, 0, userText);
    }
    InsideAlike(v, w, "params", ParamsFinder(userText));
  }

  lemma BatchAlike(v: Json, w: Json, userText: bool)
    requires Alike(v, w)
    ensures BatchPaths(v, userText) == BatchPaths(w, userText)
  {
    AlikeList(v, w, "requests");
    var k := ListField(v, "requests");
    if k.Some? {
      forall a, b | Alike(a, b)
        ensures RequestPaths(a, userText) == RequestPaths(b, userText) { RequestAlike(a, b, userText); }
      EachAlike(v.kids[k.value].value, w.kids[k.value].value, 0, EntryFinder(userText));
    }
  }

  lemma RetrieveInAlike(v: Json, w: Json, id: string)
    requires Alike(v, w)
    ensures RetrieveCallIn(v, id) == RetrieveCallIn(w, id)
  {
    AlikeLookup(v, w, "function");
    AlikeText(v, w, "id");
    if Lookup(v, "function").Some? { AlikeText(Lookup(v, "function").value, Lookup(w, "function").value, "name"); }
  }

  lemma RetrieveOfAlike(v: Json, w: Json, id: string)
    requires Alike(v, w)
    ensures RetrieveCallOf(v, id) == RetrieveCallOf(w, id)
  {
    AlikeLookup(v, w, "tool_calls");
    var calls := Lookup(v, "tool_calls");
    if calls.Some? && IsList(calls.value) {
      var b := Lookup(w, "tool_calls").value;
      ListKids(calls.value, b);
      forall i | 0 <= i < |calls.value.kids|
        ensures RetrieveCallIn(calls.value.kids[i].value, id) == RetrieveCallIn(b.kids[i].value, id)
      {
        RetrieveInAlike(calls.value.kids[i].value, b.kids[i].value, id);
      }
    }
  }

  lemma RetrieveCallAlike(v: Json, w: Json, id: string)
    requires Alike(v, w) && IsList(v)
    ensures IsList(w) && RetrieveCall(v.kids, id) == RetrieveCall(w.kids, id)
  {
    ListKids(v, w);
    forall i | 0 <= i < |v.kids| ensures RetrieveCallOf(v.kids[i].value, id) == RetrieveCallOf(w.kids[i].value, id) {
      RetrieveOfAlike(v.kids[i].value, w.kids[i].value, id);
    }
  }

  lemma LiveToolAlike(v: Json, w: Json, a: Json, b: Json)
    requires Alike(v, w) && IsList(v) && IsList(w) && Alike(a, b)
    ensures LiveTool(v.kids, a) == LiveTool(w.kids, b)
  {
    HeaderAlike(a, b);
    AlikeText(a, b, "role");
    AlikeText(a, b, "name");
    AlikeText(a, b, "tool_call_id");
    var id := TextField(a, "tool_call_id");
    if id.Some? { RetrieveCallAlike(v, w, id.value); }
  }

  lemma LiveUserAlike(a: Json, b: Json)
    requires Alike(a, b)
    ensures LiveUser(a) == LiveUser(b)
  {
    HeaderAlike(a, b);
    AlikeText(a, b, "role");
  }

  lemma PartAlike(a: Json, b: Json)
    requires Alike(a, b)
    ensures PartPaths(a) == PartPaths(b)
  {
    BlockViewAlike(a, b);
    InsideAlike(a, b, "text", Leaf);
  }

  lemma UserContentAlike(a: Json, b: Json)
    requires Alike(a, b)
    ensures UserContentPaths(a) == UserContentPaths(b)
  {
    if IsList(a) {
      forall x, y | Alike(x, y) ensures PartPaths(x) == PartPaths(y) { PartAlike(x, y); }
      EachAlike(a, b, 0, PartPaths);
    }
  }

  lemma OneMessageAlike(v: Json, w: Json, i: Option<nat>, f: Json -> seq<Path>)
    requires Alike(v, w) && IsList(v) && IsList(w) && (i.Some? ==> i.value < |v.kids| && i.value < |w.kids|) &&
             Stable(f)
    ensures OneMessage(v, i, f) == OneMessage(w, i, f)
  {
    ListKids(v, w);
    if i.Some? { InsideAlike(v.kids[i.value].value, w.kids[i.value].value, "content", f); }
  }

  lemma ChatListAlike(v: Json, w: Json, floor: nat, userText: bool)
    requires Alike(v, w)
    ensures ChatListPaths(v, floor, userText) == ChatListPaths(w, floor, userText)
  {
    if IsList(v) {
      ListKids(v, w);
      forall i | 0 <= i < |v.kids|
        ensures LiveTool(v.kids, v.kids[i].value) == LiveTool(w.kids, w.kids[i].value)
        ensures LiveUser(v.kids[i].value) == LiveUser(w.kids[i].value)
      {
        LiveToolAlike(v, w, v.kids[i].value, w.kids[i].value);
        LiveUserAlike(v.kids[i].value, w.kids[i].value);
      }
      LastWhereSame(v.kids, w.kids, floor, ToolFinder(v.kids), ToolFinder(w.kids));
      LastWhereSame(v.kids, w.kids, floor, LiveUser, LiveUser);
      forall a, b | Alike(a, b) ensures UserContentPaths(a) == UserContentPaths(b) { UserContentAlike(a, b); }
      OneMessageAlike(v, w, LastWhere(v.kids, floor, ToolFinder(v.kids)), Leaf);
      OneMessageAlike(v, w, LastWhere(v.kids, floor, LiveUser), UserContentPaths);
    }
  }

  lemma ChatAlike(v: Json, w: Json, floor: nat, userText: bool)
    requires Alike(v, w)
    ensures ChatPaths(v, floor, userText) == ChatPaths(w, floor, userText)
  {
    AlikeList(v, w, "messages");
    var k := ListField(v, "messages");
    if k.Some? { ChatListAlike(v.kids[k.value].value, w.kids[k.value].value, floor, userText); }
  }

  lemma PrefixAlike(v: Json, w: Json)
    requires Alike(v, w)
    ensures PrefixLen(v) == PrefixLen(w)
  {
    AlikeLookup(v, w, "instructions");
    AlikeText(v, w, "instructions");
  }

  lemma RetrieveItemAlike(a: Json, b: Json, id: string)
    requires Alike(a, b)
    ensures ResponsesRetrieveItem(a, id) == ResponsesRetrieveItem(b, id)
  {
    AlikeText(a, b, "type");
    AlikeText(a, b, "name");
    AlikeText(a, b, "call_id");
  }

  lemma ListRetrievesAlike(v: Option<Json>, w: Option<Json>, id: string)
    requires v.Some? == w.Some? && (v.Some? ==> Alike(v.value, w.value))
    ensures ListRetrieves(v, id) == ListRetrieves(w, id)
  {
    if v.Some? && IsList(v.value) {
      var a, b := v.value, w.value;
      ListKids(a, b);
      forall i | 0 <= i < |a.kids|
        ensures ResponsesRetrieveItem(a.kids[i].value, id) == ResponsesRetrieveItem(b.kids[i].value, id)
      {
        RetrieveItemAlike(a.kids[i].value, b.kids[i].value, id);
      }
    }
  }

  lemma ResponsesRetrieveAlike(v: Json, w: Json, id: string)
    requires Alike(v, w)
    ensures ResponsesRetrieveCall(v, id) == ResponsesRetrieveCall(w, id)
  {
    AlikeLookup(v, w, "input");
    AlikeLookup(v, w, "messages");
    ListRetrievesAlike(Lookup(v, "input"), Lookup(w, "input"), id);
    ListRetrievesAlike(Lookup(v, "messages"), Lookup(w, "messages"), id);
  }

  lemma ItemViewAlike(a: Json, b: Json)
    requires Alike(a, b)
    ensures ItemOk(a) == ItemOk(b) && TextField(a, "type") == TextField(b, "type")
    ensures TextField(a, "call_id") == TextField(b, "call_id")
  {
    NoFree();
    AlikeView(a, b, ITEM_FIELDS);
    AlikeText(a, b, "type");
    AlikeText(a, b, "call_id");
  }

  lemma ItemAlike(v: Json, w: Json, a: Json, b: Json)
    requires Alike(v, w) && Alike(a, b)
    ensures ItemPaths(v, a) == ItemPaths(w, b)
  {
    ItemViewAlike(a, b);
    InsideAlike(a, b, "output", Leaf);
    var id := TextField(a, "call_id");
    if id.Some? { ResponsesRetrieveAlike(v, w, id.value); }
  }

  lemma ItemsAlike(v: Json, w: Json)
    requires Alike(v, w)
    ensures ItemsField(v) == ItemsField(w)
    ensures ItemsField(v).Some? ==>
              var k := ItemsField(v).value;
              w.Box? && k < |w.kids| && Alike(v.kids[k].value, w.kids[k].value)
  {
    hide Alike, ViewOk, KeyIndex;
    AlikeView(v, w, {"input", "messages"});
    AlikeField(v, w, "input");
    AlikeField(v, w, "messages");
  }

  lemma ItemListAlike(v: Json, w: Json, a: Json, b: Json, from: nat)
    requires Alike(v, w) && Alike(a, b) && IsList(a)
    ensures IsList(b) && Each(a.kids, from, ItemFinder(v)) == Each(b.kids, from, ItemFinder(w))
  {
    ListKids(a, b);
    forall i | 0 <= i < |a.kids| ensures ItemPaths(v, a.kids[i].value) == ItemPaths(w, b.kids[i].value) {
      ItemAlike(v, w, a.kids[i].value, b.kids[i].value);
    }
    EachSame(a.kids, b.kids, from, ItemFinder(v), ItemFinder(w));
  }

  lemma ResponsesAlike(v: Json, w: Json, floor: nat)
    requires Alike(v, w)
    ensures ResponsesPaths(v, floor) == ResponsesPaths(w, floor)
  {
    ItemsAlike(v, w);
    PrefixAlike(v, w);
    var k := ItemsField(v);
    if k.Some? && IsList(v.kids[k.value].value) {
      ItemListAlike(v, w, v.kids[k.value].value, w.kids[k.value].value, Minus(floor, PrefixLen(v)));
    }
  }

  /** Rewriting a request does not change which tokens are candidates. */
  lemma SameSlots(shape: Shape, v: Json, w: Json, floor: nat, userText: bool)
    requires Alike(v, w)
    ensures SlotPaths(shape, v, floor, userText) == SlotPaths(shape, w, floor, userText)
  {
    match shape
    case OpenAiChat => ChatAlike(v, w, floor, userText);
    case OpenAiResponses => ResponsesAlike(v, w, floor);
    case AnthropicMessages => AnthropicAlike(v, w, floor, userText);
    case AnthropicBatches => BatchAlike(v, w, userText);
  }

  // ----- rewriting keeps resemblance -----

  /** Replacing a candidate string by another string. */
  lemma {:induction false} AlikeSlot(v: Json, w: Json, p: Path, userText: bool, body: string)
    requires Alike(v, w) && SlotOk(v, p, userText) && HasPath(w, p)
    ensures Alike(v, With(w, p, Str(body)))
    decreases p
  {
    var k, u := p[0], With(w, p, Str(body));
    assert KidAlike(v.isObj, v.kids[k], w.kids[k]);
    if |p| == 1 {
      assert p[..0] == [] && p[1..] == [];
      assert p == [k];
      SlotKey(v, k, userText);
      assert u.kids[k] == w.kids[k].(value := Str(body));
    } else {
      SlotTail(v, p, userText);
      if !(v.isObj && Free(Text(v.kids[k].key))) {
        AlikeSlot(v.kids[k].value, w.kids[k].value, p[1..], userText, body);
      }
      assert u.kids[k] == w.kids[k].(value := With(w.kids[k].value, p[1..], Str(body)));
    }
    forall i | 0 <= i < |v.kids| ensures KidAlike(v.isObj, v.kids[i], u.kids[i]) {
      assert KidAlike(v.isObj, v.kids[i], w.kids[i]);
      if i != k { assert u.kids[i] == w.kids[i]; }
    }
  }

  lemma SlotKey(v: Json, k: nat, userText: bool)
    requires SlotOk(v, [k], userText)
    ensures v.Box? && v.isObj && k < |v.kids| && v.kids[k].value.Str? && Text(v.kids[k].key) in TEXT_KEYS
  {
    assert [k][..0] == [];
    AtOne(v, k);
  }

  lemma SlotTail(v: Json, p: Path, userText: bool)
    requires SlotOk(v, p, userText) && |p| > 1
    ensures v.Box? && p[0] < |v.kids| && SlotOk(v.kids[p[0]].value, p[1..], userText) && v.kids[p[0]].value.Box?
  {
    hide Compressible, Text;
    var n := |p| - 1;
    assert p[..n][1..] == p[1..][..n - 1];
    assert p[1..][n - 1] == p[n];
  }

  /** Changing a subtree into one alike it. */
  lemma {:induction false} AlikeWith(v: Json, w: Json, p: Path, x: Json)
    requires Alike(v, w) && HasPath(v, p) && HasPath(w, p) && At(v, p).Box? && Alike(At(v, p), x)
    ensures Alike(v, With(w, p, x))
    decreases p
  {
    if p != [] {
      var k, u := p[0], With(w, p, x);
      assert KidAlike(v.isObj, v.kids[k], w.kids[k]);
      if !(v.isObj && Free(Text(v.kids[k].key))) { AlikeWith(v.kids[k].value, w.kids[k].value, p[1..], x); }
      forall i | 0 <= i < |v.kids| ensures KidAlike(v.isObj, v.kids[i], u.kids[i]) {
        assert KidAlike(v.isObj, v.kids[i], w.kids[i]);
      }
    }
  }

  /** Adding a free member. */
  lemma AlikeAdded(v: Json, w: Json, kid: Kid)
    requires Alike(v, w) && Object(v) && Free(Text(kid.key))
    ensures Alike(v, Extended(w, kid))
  {
    var x := Extended(w, kid);
    forall i | 0 <= i < |v.kids| ensures KidAlike(true, v.kids[i], x.kids[i]) {
      assert KidAlike(true, v.kids[i], w.kids[i]);
    }
  }

  /** Changing anything under a free member. */
  lemma AlikeReplaced(v: Json, w: Json, k: nat, y: Json)
    requires Alike(v, w) && Object(v) && k < |w.kids| && Free(Text(w.kids[k].key))
    ensures Alike(v, WithKid(w, k, y))
  {
    var x := WithKid(w, k, y);
    forall i | 0 <= i < |v.kids| ensures KidAlike(true, v.kids[i], x.kids[i]) {
      assert KidAlike(true, v.kids[i], w.kids[i]);
    }
  }
}
