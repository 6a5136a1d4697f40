/** With provider metadata, rewriting a rewritten request: exactly when nothing changes any more. */
module AdornedTwice {
  import opened Prelude
  import opened Json
  import opened JsonParser
  import opened JsonEdits
  import opened EditLists
  import opened Values
  import opened Ccr
  import opened LiveZone
  import opened Tools
  import opened Injections
  import opened Resemblance
  import opened Rewriting
  import opened EditFacts
  import opened StageFacts
  import opened Preservation
  import opened FrozenPrefix
  import opened Rewriter
  import opened Idempotence
  import opened AddedTool

  /** The first pass plans a cache key for an empty object behind blanks. */
  predicate Misled(shape: Shape, d: Doc, ctx: Context) {
    && ctx.metadata && ctx.auth == Payg && (shape == OpenAiChat || shape == OpenAiResponses)
    && d.pre != "" && d.root.Box? && d.root.isObj && d.root.kids == []
  }

  /** Cache keys hold no marker of their own. */
  ghost predicate QuietKeys(prim: Primitives) { forall a, b, c :: !Contains(prim.cacheKey(a, b, c), OPENER) }

  // ----- what normalisation and injection read of the root -----

  /** Equal as far as the normaliser and the tool injection can see. */
  predicate SameTools(v: Json, w: Json) {
    && Object(v) == Object(w)
    && Lookup(v, "tools") == Lookup(w, "tools") && KeyIndex(v, "tools") == KeyIndex(w, "tools")
    && ListField(v, "tools") == ListField(w, "tools") && ViewOk(v, {"tools"}) == ViewOk(w, {"tools"})
    && CacheControlSet(v) == CacheControlSet(w)
  }

  lemma SameToolEdits(v: Json, w: Json, anthropic: bool, prim: Primitives)
    requires SameTools(v, w)
    ensures ToolEdits(v, anthropic, prim) == ToolEdits(w, anthropic, prim)
  {
    hide CacheControlSet, Arranged, FinalTools, ViewOk, UpTo;
    if ToolList(v).Some? {
      FieldKey(v, "tools");
      FieldKey(w, "tools");
    }
  }

  lemma SameAppend(v: Json, w: Json, shape: Shape, wording: Wording)
    requires SameTools(v, w)
    ensures ToolAppend(v, shape, wording).None? == ToolAppend(w, shape, wording).None?
  {
    hide CacheControlSet, ViewOk, Lookup;
  }

  lemma AddedSameTools(v: Json, kid: Kid)
    requires Object(v) && Text(kid.key) == PCK
    ensures SameTools(v, Extended(v, kid))
  {
    hide Text, HasCacheControl, Marked, Pinned;
    KeyNames();
    ExtendedKeys(v, kid, "tools");
    ExtendedKeys(v, kid, "system");
    ExtendedKeys(v, kid, "messages");
  }

  lemma KeyNames()
    ensures "tools" != PCK && "system" != PCK && "messages" != PCK
  {
  }

  lemma ReplacedSameTools(v: Json, k: nat, x: Json)
    requires Object(v) && k < |v.kids| && Text(v.kids[k].key) == PCK
    ensures SameTools(v, WithKid(v, k, x))
  {
    hide Text, HasCacheControl, Marked, Pinned;
    KeyNames();
    WithKidKeys(v, k, x, "tools");
    LookupOther(v, k, x, "tools");
    LookupOther(v, k, x, "system");
    LookupOther(v, k, x, "messages");
  }

  /** The cache key is no concern of the tools. */
  lemma KeyedSameTools(d: Doc, shape: Shape, prim: Primitives)
    requires GoodKeys(prim)
    ensures SameTools(d.root, KeyedDoc(d, shape, prim).root)
  {
    var e := KeyEdit(d.root, shape, prim);
    StringKeyOk(prim, d.root, shape);
    if e.Some? && e.value.Append? {
      AddedSameTools(d.root, e.value.kid);
    } else if e.Some? {
      var k := e.value.path[0];
      FieldKey(d.root, PCK);
      AtOne(d.root, k);
      WithOne(d.root, k, e.value.node);
      ReplacedSameTools(d.root, k, e.value.node);
    }
  }

  // ----- a second pass with nothing to normalise -----

  lemma KeyedAlike(d: Doc, shape: Shape, prim: Primitives)
    requires GoodKeys(prim)
    ensures Alike(d.root, KeyedDoc(d, shape, prim).root)
  {
    hide Alike, Text;
    var e := KeyEdit(d.root, shape, prim);
    StringKeyOk(prim, d.root, shape);
    AlikeSelf(d.root);
    PckFree();
    if e.Some? && e.value.Append? {
      AlikeAdded(d.root, d.root, e.value.kid);
    } else if e.Some? {
      var k := e.value.path[0];
      FieldKey(d.root, PCK);
      AtOne(d.root, k);
      WithOne(d.root, k, e.value.node);
      AlikeReplaced(d.root, d.root, k, e.value.node);
    }
  }

  lemma PckFree()
    ensures Free(PCK)
  {
  }

  lemma {:induction false} SamePicks(v: Json, w: Json, ps: seq<Path>, hash: string -> string, st: StoreState)
    requires forall i :: 0 <= i < |ps| ==> TextAt(v, ps[i]) == TextAt(w, ps[i])
    ensures Picks(v, ps, hash, st) == Picks(w, ps, hash, st)
  {
    hide Gate, TextAt, PutResult;
    if ps != [] {
      var text := TextAt(v, ps[0]);
      var next := if Gate(text, hash) then PutResult(st, hash(text), text).1 else st;
      SamePicks(v, w, ps[1..], hash, next);
    }
  }

  /** The final tree: the third stage's, with the cache key if one is due. */
  function Final(shape: Shape, d: Doc, ctx: Context, prim: Primitives, st: StoreState): Json {
    NewDoc(shape, d, ctx, prim, st).root
  }

  lemma FinalLike(shape: Shape, d: Doc, ctx: Context, prim: Primitives, st: StoreState, s: Stages, n: Json)
    requires s == Rewrite(shape, d.root, ctx, prim, st) && n == Final(shape, d, ctx, prim, st) && GoodKeys(prim)
    ensures Alike(s.tooled, n) && SameTools(s.tooled, n)
  {
    var tooled := d.(root := s.tooled);
    if Keyed(shape, ctx) {
      KeyedAlike(tooled, shape, prim);
      KeyedSameTools(tooled, shape, prim);
    } else {
      AlikeSelf(n);
    }
  }

  lemma CandidateStays(shape: Shape, d: Doc, ctx: Context, prim: Primitives, st: StoreState, s: Stages, n: Json,
                       p: Path)
    requires s == Rewrite(shape, d.root, ctx, prim, st) && n == Final(shape, d, ctx, prim, st)
    requires p in Candidates(shape, s.tooled, ctx)
    ensures TextAt(n, p) == TextAt(s.tooled, p)
  {
    SlotOutside(shape, s.tooled, ctx.frozen, ctx.userText, p);
    if Keyed(shape, ctx) {
      SlotsInZone(shape, s.tooled, ctx.frozen, ctx.userText);
      LiveKey(shape, s.tooled, ctx.frozen);
      TrailHead(s.tooled, p);
      NotTools(Text(s.tooled.kids[p[0]].key));
      KeyedKeeps(d.(root := s.tooled), shape, prim, p);
    }
  }

  /** The final tree offers the candidates of the normalised one, all of them settled. */
  lemma NothingPicked(shape: Shape, d: Doc, ctx: Context, prim: Primitives, st: StoreState, later: StoreState,
                      s: Stages, n: Json)
    requires s == Rewrite(shape, d.root, ctx, prim, st) && n == Final(shape, d, ctx, prim, st)
    requires GoodKeys(prim) && st.outcomes == []
    ensures Picks(n, Candidates(shape, n, ctx), prim.hash, later) == ([], later)
  {
    var chosen := Receivers(shape, s.picks, HasMarker(Sem(d.root, prim.number)));
    SecondPicks(shape, s.normal, ctx, prim, st, chosen, later);
    FinalLike(shape, d, ctx, prim, st, s, n);
    SameSlots(shape, s.tooled, n, ctx.frozen, ctx.userText);
    var ps := Candidates(shape, s.tooled, ctx);
    forall i | 0 <= i < |ps| ensures TextAt(n, ps[i]) == TextAt(s.tooled, ps[i]) {
      CandidateStays(shape, d, ctx, prim, st, s, n, ps[i]);
    }
    SamePicks(n, s.tooled, ps, prim.hash, later);
  }

  lemma OneReceiver(shape: Shape, picks: seq<Pick>, marked: bool)
    ensures shape != AnthropicBatches && (picks != [] || marked) ==> Receivers(shape, picks, marked) == {0}
    ensures picks == [] && (shape == AnthropicBatches || !marked) ==> Receivers(shape, picks, marked) == {}
  {
  }

  lemma AnnouncedBefore(shape: Shape, d: Doc, ctx: Context, prim: Primitives, st: StoreState, s: Stages, n: Json)
    requires s == Rewrite(shape, d.root, ctx, prim, st) && n == Final(shape, d, ctx, prim, st) && GoodKeys(prim)
    requires shape != AnthropicBatches && (s.picks != [] || HasMarker(Sem(d.root, prim.number)))
    ensures ToolAppend(n, shape, prim.wording).None?
  {
    OneReceiver(shape, s.picks, HasMarker(Sem(d.root, prim.number)));
    InjectedOnce(shape, s.slotted, prim.wording);
    FinalLike(shape, d, ctx, prim, st, s, n);
    SameAppend(s.tooled, n, shape, prim.wording);
  }

  /** The final tree receives no tool a second time. */
  lemma NothingTooled(shape: Shape, d: Doc, ctx: Context, prim: Primitives, st: StoreState, s: Stages, n: Json,
                      again: bool)
    requires s == Rewrite(shape, d.root, ctx, prim, st) && n == Final(shape, d, ctx, prim, st) && GoodKeys(prim)
    requires shape != AnthropicBatches && s.picks == [] && !HasMarker(Sem(d.root, prim.number)) ==> !again
    ensures Tooled(shape, n, Receivers(shape, [], again), prim.wording) == n
  {
    hide Rewrite, NewDoc, Receivers, Tooled;
    OneReceiver(shape, [], again);
    NothingChosen(shape, n, prim.wording);
    if shape != AnthropicBatches && again {
      AnnouncedBefore(shape, d, ctx, prim, st, s, n);
      AlreadyThere(shape, n, Receivers(shape, [], again), prim.wording);
    }
  }

  lemma UnchangedNormal(shape: Shape, v: Json, ctx: Context, prim: Primitives)
    requires MetadataEdits(shape, v, prim) == []
    ensures Normalized(shape, v, ctx, prim) == v
  {
  }

  /** With nothing to normalise the second pass keeps the tree. */
  lemma SettledPass(shape: Shape, d: Doc, ctx: Context, prim: Primitives, st: StoreState, later: StoreState, n: Json)
    requires n == Final(shape, d, ctx, prim, st) && GoodKeys(prim) && st.outcomes == []
    requires MetadataEdits(shape, n, prim) == []
    requires var s := Rewrite(shape, d.root, ctx, prim, st);
             shape != AnthropicBatches && s.picks == [] && !HasMarker(Sem(d.root, prim.number)) ==>
               !HasMarker(Sem(n, prim.number))
    ensures Rewrite(shape, n, ctx, prim, later) == Stages(n, [], n, n, later)
  {
    var s := Rewrite(shape, d.root, ctx, prim, st);
    var again := HasMarker(Sem(n, prim.number));
    UnchangedNormal(shape, n, ctx, prim);
    NothingPicked(shape, d, ctx, prim, st, later, s, n);
    NothingSlotted(shape, n, ctx, prim.hash, later);
    NothingTooled(shape, d, ctx, prim, st, s, n, again);
    RewriteParts(shape, n, ctx, prim, later, n, again);
  }

  // ----- markers come from the client, not from normalisation -----

  lemma {:induction false} SemEntriesAscend(kids: seq<Kid>, number: string -> string)
    ensures KeysAscend(SemEntries(kids, number))
    decreases kids
  {
    hide Text;
    if kids != [] {
      var n := |kids| - 1;
      SemEntriesAscend(kids[..n], number);
      PutAscends(SemEntries(kids[..n], number), Text(kids[n].key), Sem(kids[n].value, number));
    }
  }

  lemma {:induction false} FoundEntry(es: seq<Entry>, i: nat)
    requires KeysAscend(es) && i < |es|
    ensures Values.Find(es, es[i].key) == Some(es[i].val)
  {
    if i > 0 {
      BelowIrreflexive(es[0].key);
      AscendTail(es);
      assert es[1..][i - 1] == es[i];
      FoundEntry(es[1..], i - 1);
    }
  }

  lemma {:induction false} BelowIrreflexive(x: string)
    ensures !Below(x, x)
  {
    if x != "" { BelowIrreflexive(x[1..]); }
  }

  lemma {:induction false} EntryFound(es: seq<Entry>, key: string) returns (i: nat)
    requires Values.Find(es, key).Some?
    ensures i < |es| && es[i].key == key && Some(es[i].val) == Values.Find(es, key)
  {
    if es[0].key == key {
      i := 0;
    } else {
      i := EntryFound(es[1..], key);
      i := i + 1;
    }
  }

  /** An object holds a marker exactly when one of the members it reads does. */
  lemma MarkerRead(v: Json, number: string -> string, key: string)
    requires Object(v)
    ensures Lookup(v, key).Some? && HasMarker(Sem(Lookup(v, key).value, number)) ==> HasMarker(Sem(v, number))
  {
    hide Lookup, Contains;
    LookupSem(v, key, number);
    if Lookup(v, key).Some? { var i := EntryFound(Sem(v, number).entries, key); }
  }

  lemma NoMarkerRead(v: Json, number: string -> string)
    requires Object(v)
    requires forall key :: Lookup(v, key).Some? ==> !HasMarker(Sem(Lookup(v, key).value, number))
    ensures !HasMarker(Sem(v, number))
  {
    hide Lookup, Contains;
    var es := Sem(v, number).entries;
    SemEntriesAscend(v.kids, number);
    forall i | 0 <= i < |es| ensures !HasMarker(es[i].val) {
      FoundEntry(es, i);
      LookupSem(v, es[i].key, number);
      assert Get(Sem(v, number), es[i].key) == Some(es[i].val);
    }
  }

  /** Replacing or adding a member without a marker adds no marker. */
  lemma MemberQuiet(v: Json, w: Json, key: string, number: string -> string)
    requires Object(v) && Object(w) && !HasMarker(Sem(v, number))
    requires forall x :: x != key ==> Lookup(w, x) == Lookup(v, x)
    requires Lookup(w, key).Some? ==> !HasMarker(Sem(Lookup(w, key).value, number))
    ensures !HasMarker(Sem(w, number))
  {
    hide Lookup, HasMarker, Sem;
    forall x | Lookup(w, x).Some? ensures !HasMarker(Sem(Lookup(w, x).value, number)) {
      if x != key { MarkerRead(v, number, x); }
    }
    NoMarkerRead(w, number);
  }

  lemma PieceMeans(tool: Json, anthropic: bool, prim: Primitives)
    requires Wf(tool) && GoodNumbers(prim.number)
    ensures Sem(Piece(tool, anthropic, prim), prim.number) == Sem(tool, prim.number)
  {
    var p := SchemaPath(tool, anthropic);
    var es := SchemaEdits(tool, anthropic, prim);
    if p.Some? && es != [] {
      WfAt(tool, p.value);
      CanonKeeps(At(tool, p.value), prim.number);
      var e := Put(p.value, Canon(At(tool, p.value), prim.number));
      PutAlone(tool, e);
      SemWith(tool, p.value, e.node, prim.number);
    } else {
      assert es == [];
    }
  }

  lemma {:induction false} NoOpener(s: string)
    requires '<' !in s
    ensures !Contains(s, OPENER)
  {
    assert OPENER[0] == '<' && |OPENER| > 0;
    if s != "" {
      assert s[0] in s;
      NoOpener(s[1..]);
    }
  }

  lemma OneMemberQuiet(kid: Kid, number: string -> string)
    requires !HasMarker(Sem(kid.value, number))
    ensures !HasMarker(Sem(Box(true, [kid], ""), number))
  {
    hide Text;
    var val := Sem(kid.value, number);
    assert [kid][..0] == [];
    assert SemEntries([kid], number) == PutEntry([], Text(kid.key), val) == [Entry(Text(kid.key), val)];
    assert Sem(Box(true, [kid], ""), number) == Obj([Entry(Text(kid.key), val)]);
  }

  lemma WordQuiet(word: string, number: string -> string)
    requires Plain(word) && '<' !in word
    ensures !HasMarker(Sem(Str(word), number))
  {
    TextOf(word);
    NoOpener(word);
  }

  lemma CacheQuiet(number: string -> string)
    ensures !HasMarker(Sem(CacheKid.value, number))
  {
    hide Sem, HasMarker;
    var word := "ephemeral";
    WordQuiet(word, number);
    OneMemberQuiet(Kid("", "type", "", "", Str(word), ""), number);
  }

  lemma CachedQuiet(tool: Json, number: string -> string)
    requires !HasMarker(Sem(tool, number))
    ensures !HasMarker(Sem(Cached(tool), number))
  {
    hide Text, Sem, HasMarker;
    if Object(tool) {
      CacheKidKey();
      var w := Extended(tool, CacheKid);
      forall x | x != "cache_control" ensures Lookup(w, x) == Lookup(tool, x) { ExtendedKeys(tool, CacheKid, x); }
      NewMember(tool, CacheKid, "cache_control");
      CacheQuiet(number);
      MemberQuiet(tool, w, "cache_control", number);
    }
  }

  lemma ToolsQuiet(list: Json, place: bool, anthropic: bool, prim: Primitives, i: nat)
    requires IsList(list) && Wf(list) && GoodNumbers(prim.number) && !HasMarker(Sem(list, prim.number)) &&
             i < |list.kids|
    ensures !HasMarker(Sem(FinalTools(Vals(list.kids), place, anthropic, prim)[i], prim.number))
  {
    hide Arranged, Cached, Piece;
    var tools := Vals(list.kids);
    var tool := Arranged(tools, prim)[i];
    ArrangedFrom(tools, prim, i);
    var j :| 0 <= j < |tools| && tools[j] == tool;
    assert SemItems(list.kids, prim.number)[j] == Sem(tool, prim.number);
    KidsWf(list);
    PieceMeans(tool, anthropic, prim);
    CachedQuiet(Piece(tool, anthropic, prim), prim.number);
  }

  lemma ListQuiet(list: Json, number: string -> string)
    requires IsList(list) && forall i :: 0 <= i < |list.kids| ==> !HasMarker(Sem(list.kids[i].value, number))
    ensures !HasMarker(Sem(list, number))
  {
  }

  lemma NormalQuiet(v: Json, anthropic: bool, prim: Primitives)
    requires Wf(v) && GoodNumbers(prim.number) && !HasMarker(Sem(v, prim.number))
    ensures Planned(v, ToolEdits(v, anthropic, prim))
    ensures !HasMarker(Sem(Edited(v, ToolEdits(v, anthropic, prim)), prim.number))
  {
    hide Sem, HasMarker, FinalTools, Arranged, ToolEdits, Wf;
    if ToolList(v).Some? {
      NormalizedTools(v, anthropic, prim);
      var k := ToolList(v).value;
      var w, list := Edited(v, ToolEdits(v, anthropic, prim)), v.kids[k].value;
      QuietList(v, k, prim.number);
      var final := FinalTools(Vals(list.kids), Placing(v, anthropic), anthropic, prim);
      forall i | 0 <= i < |w.kids[k].value.kids| ensures !HasMarker(Sem(w.kids[k].value.kids[i].value, prim.number)) {
        assert Vals(w.kids[k].value.kids)[i] == final[i];
        ToolsQuiet(list, Placing(v, anthropic), anthropic, prim, i);
      }
      ListQuiet(w.kids[k].value, prim.number);
      QuietRoot(v, k, w.kids[k].value, prim.number);
    } else {
      NoToolEdits(v, anthropic, prim);
    }
  }

  lemma NoToolEdits(v: Json, anthropic: bool, prim: Primitives)
    requires ToolList(v).None?
    ensures ToolEdits(v, anthropic, prim) == []
  {
  }

  lemma QuietList(v: Json, k: nat, number: string -> string)
    requires ToolList(v) == Some(k) && Wf(v) && !HasMarker(Sem(v, number))
    ensures Wf(v.kids[k].value) && !HasMarker(Sem(v.kids[k].value, number))
  {
    FieldKey(v, "tools");
    MarkerRead(v, number, "tools");
    assert KidOk(v.isObj, v.kids[k]);
  }

  lemma QuietRoot(v: Json, k: nat, x: Json, number: string -> string)
    requires ToolList(v) == Some(k) && !HasMarker(Sem(v, number)) && !HasMarker(Sem(x, number)) && IsList(x)
    ensures !HasMarker(Sem(WithKid(v, k, x), number))
  {
    hide Sem, HasMarker, Text;
    FieldKey(v, "tools");
    var w := WithKid(v, k, x);
    forall y | y != "tools" ensures Lookup(w, y) == Lookup(v, y) { LookupOther(v, k, x, y); }
    WithKidKeys(v, k, x, "tools");
    MemberQuiet(v, w, "tools", number);
  }

  lemma KeyedQuiet(d: Doc, shape: Shape, prim: Primitives)
    requires WfDoc(d) && GoodKeys(prim) && QuietKeys(prim) && !HasMarker(Sem(d.root, prim.number))
    ensures !HasMarker(Sem(KeyedDoc(d, shape, prim).root, prim.number))
  {
    hide Sem, HasMarker, Text, Wf, Contains;
    var v, n, e := d.root, KeyedDoc(d, shape, prim).root, KeyEdit(d.root, shape, prim);
    if e.Some? {
      var key := DerivedKey(v, shape, prim);
      StringKeyOk(prim, v, shape);
      QuietString(key, prim.number);
      if e.value.Append? {
        forall x | x != PCK ensures Lookup(n, x) == Lookup(v, x) { ExtendedKeys(v, e.value.kid, x); }
        NewMember(v, e.value.kid, PCK);
      } else {
        var k := e.value.path[0];
        FieldKey(v, PCK);
        AtOne(v, k);
        WithOne(v, k, e.value.node);
        forall x | x != PCK ensures Lookup(n, x) == Lookup(v, x) { LookupOther(v, k, e.value.node, x); }
        WithKidKeys(v, k, e.value.node, PCK);
      }
      MemberQuiet(v, n, PCK, prim.number);
    }
  }

  lemma QuietString(text: string, number: string -> string)
    requires Decode(text) == Some(text) && !Contains(text, OPENER)
    ensures !HasMarker(Sem(Str(text), number))
  {
  }

  /** A single request that neither held a marker nor was compressed holds none afterwards. */
  lemma FinalQuiet(shape: Shape, d: Doc, ctx: Context, prim: Primitives, st: StoreState, s: Stages, n: Json)
    requires s == Rewrite(shape, d.root, ctx, prim, st) && n == Final(shape, d, ctx, prim, st)
    requires WfDoc(d) && GoodNumbers(prim.number) && GoodKeys(prim) && QuietKeys(prim) && shape != AnthropicBatches
    requires s.picks == [] && !HasMarker(Sem(d.root, prim.number))
    ensures !HasMarker(Sem(n, prim.number))
  {
    hide HasMarker, Sem;
    OneReceiver(shape, s.picks, HasMarker(Sem(d.root, prim.number)));
    NothingSlotted(shape, s.normal, ctx, prim.hash, st);
    NothingChosen(shape, s.normal, prim.wording);
    NormalQuiet(d.root, Anthropic(shape), prim);
    StagesWf(shape, d.root, ctx, prim, st);
    if Keyed(shape, ctx) { KeyedQuiet(d.(root := s.tooled), shape, prim); }
  }

  // ----- normalising twice, batches included -----

  lemma EntrySettles(i: nat, entry: Json, prim: Primitives)
    requires Wf(entry) && GoodNumbers(prim.number)
    ensures var g := NormalizePlan(true, prim);
            Planned(entry, EntryEdits(i, entry, g)) && EntryEdits(i, Edited(entry, EntryEdits(i, entry, g)), g) == []
  {
    var g := NormalizePlan(true, prim);
    NormalizePlansAll(prim);
    EntryResult(i, entry, g);
    var q := Field(entry, "params");
    if ViewOk(entry, {"params"}) && q.Some? {
      var x := entry.kids[q.value].value;
      assert KidOk(entry.isObj, entry.kids[q.value]);
      NormalizeTwice(x, true, prim);
      NormalizedNotNull(x, prim);
      FieldNotNull(entry, "params");
      WithKidKeys(entry, q.value, Edited(x, g(i, x)), "params");
    }
  }

  lemma BatchSettles(v: Json, prim: Primitives)
    requires Wf(v) && GoodNumbers(prim.number)
    ensures Planned(v, MetadataEdits(AnthropicBatches, v, prim))
    ensures MetadataEdits(AnthropicBatches, Edited(v, MetadataEdits(AnthropicBatches, v, prim)), prim) == []
  {
    var g := NormalizePlan(true, prim);
    MetadataPlanned(AnthropicBatches, v, prim);
    var k := ListField(v, "requests");
    if k.Some? {
      NormalizePlansAll(prim);
      BatchResult(v, k.value, g);
      assert KidOk(v.isObj, v.kids[k.value]);
      EntriesSettle(v.kids[k.value].value, prim);
      ListStays(v, k.value, Mapped(v.kids[k.value].value, |v.kids[k.value].value.kids|, EntryPlan(g)));
    } else {
      assert MetadataEdits(AnthropicBatches, v, prim) == [];
    }
  }

  lemma ListStays(v: Json, k: nat, x: Json)
    requires ListField(v, "requests") == Some(k) && IsList(x)
    ensures ListField(WithKid(v, k, x), "requests") == Some(k)
  {
    FieldNotNull(v, "requests");
    WithKidKeys(v, k, x, "requests");
  }

  lemma EntriesSettle(list: Json, prim: Primitives)
    requires IsList(list) && Wf(list) && GoodNumbers(prim.number)
    ensures var f := EntryPlan(NormalizePlan(true, prim));
            && PlansKids(list, |list.kids|, f)
            && UpTo(Mapped(list, |list.kids|, f).kids, |list.kids|, f) == []
  {
    var f := EntryPlan(NormalizePlan(true, prim));
    NormalizePlansAll(prim);
    EntriesPlanned(list, NormalizePlan(true, prim));
    var m := Mapped(list, |list.kids|, f);
    forall i | 0 <= i < |list.kids| ensures f(i, m.kids[i].value) == [] {
      assert KidOk(false, list.kids[i]);
      EntrySettles(i, list.kids[i].value, prim);
    }
    NoEdits(m.kids, |list.kids|, f);
  }

  lemma MetadataSettles(shape: Shape, v: Json, prim: Primitives)
    requires Wf(v) && GoodNumbers(prim.number)
    ensures Planned(v, MetadataEdits(shape, v, prim))
    ensures MetadataEdits(shape, Edited(v, MetadataEdits(shape, v, prim)), prim) == []
  {
    if shape == AnthropicBatches {
      BatchSettles(v, prim);
    } else {
      NormalizeTwice(v, Anthropic(shape), prim);
    }
  }

  // ----- a second pass with something to normalise -----

  /** How many tools a request shows, when it shows a list. */
  function ToolCount(v: Json): nat {
    var tools := Lookup(v, "tools");
    if tools.Some? && IsList(tools.value) then |tools.value.kids| else 0
  }

  lemma NormalizedCount(v: Json, anthropic: bool, prim: Primitives)
    requires ToolEdits(v, anthropic, prim) != []
    ensures Planned(v, ToolEdits(v, anthropic, prim))
    ensures ToolCount(Edited(v, ToolEdits(v, anthropic, prim))) == ToolCount(v) > 0
  {
    hide FinalTools, Arranged, CacheControlSet;
    NormalizedTools(v, anthropic, prim);
    var k := ToolList(v).value;
    var w := Edited(v, ToolEdits(v, anthropic, prim));
    ToolListKept(v, w);
    assert |Vals(w.kids[k].value.kids)| == |Vals(v.kids[k].value.kids)|;
  }

  lemma AppendCounts(v: Json, shape: Shape, w: Wording)
    requires ToolAppend(v, shape, w).Some? && ToolCount(v) > 0
    ensures ToolCount(Step(v, ToolAppend(v, shape, w).value)) == ToolCount(v) + 1
  {
    hide Announced, ToolKid, ToolsMember, Text;
    var k := KeyIndex(v, "tools").value;
    AtOne(v, k);
    var x := Extended(v.kids[k].value, ToolKid(shape, w));
    WithOne(v, k, x);
    WithKidKeys(v, k, x, "tools");
  }

  /** Normalising what needs it cannot lead back, whatever the later stages do. */
  lemma SingleMoves(shape: Shape, v: Json, chosen: set<nat>, prim: Primitives, n: Json)
    requires shape != AnthropicBatches && chosen <= {0} && Wf(v) && GoodNumbers(prim.number)
    requires MetadataEdits(shape, v, prim) != []
    requires Planned(v, MetadataEdits(shape, v, prim))
    requires SameTools(Tooled(shape, Edited(v, MetadataEdits(shape, v, prim)), chosen, prim.wording), n)
    ensures n != v
  {
    hide CacheControlSet, Arranged, FinalTools;
    var normal := Edited(v, MetadataEdits(shape, v, prim));
    var tooled := Tooled(shape, normal, chosen, prim.wording);
    MetadataSettles(shape, v, prim);
    NormalizedCount(v, Anthropic(shape), prim);
    SameToolEdits(tooled, n, Anthropic(shape), prim);
    var e := ToolAppend(normal, shape, prim.wording);
    if 0 in chosen && e.Some? {
      EditedOne(normal, e.value);
      assert RetrieveEdits(shape, normal, chosen, prim.wording) == [e.value];
      AppendCounts(normal, shape, prim.wording);
    } else {
      assert RetrieveEdits(shape, normal, chosen, prim.wording) == [];
    }
  }

  lemma BatchMoves(v: Json, prim: Primitives)
    requires Wf(v) && GoodNumbers(prim.number) && MetadataEdits(AnthropicBatches, v, prim) != []
    requires Planned(v, MetadataEdits(AnthropicBatches, v, prim))
    ensures Edited(v, MetadataEdits(AnthropicBatches, v, prim)) != v
  {
    MetadataSettles(AnthropicBatches, v, prim);
  }

  /** With something to normalise the second pass compresses, or changes the tree. */
  lemma UnsettledPass(shape: Shape, d: Doc, ctx: Context, prim: Primitives, later: StoreState, s: Stages)
    requires Adorned(ctx) && WfDoc(d) && GoodNumbers(prim.number) && GoodKeys(prim)
    requires MetadataEdits(shape, d.root, prim) != [] && s == Rewrite(shape, d.root, ctx, prim, later)
    ensures s.picks != [] || Final(shape, d, ctx, prim, later) != d.root
  {
    if s.picks == [] {
      var marked := HasMarker(Sem(d.root, prim.number));
      var chosen := Receivers(shape, [], marked);
      MetadataPlanned(shape, d.root, prim);
      NothingSlotted(shape, s.normal, ctx, prim.hash, later);
      FinalLike(shape, d, ctx, prim, later, s, Final(shape, d, ctx, prim, later));
      OneReceiver(shape, [], marked);
      if shape == AnthropicBatches {
        NothingChosen(shape, s.normal, prim.wording);
        BatchMoves(d.root, prim);
      } else {
        SingleMoves(shape, d.root, chosen, prim, Final(shape, d, ctx, prim, later));
      }
    }
  }

  // ----- the fixed points -----

  lemma StillOneChoice(shape: Shape, d: Doc, ctx: Context, prim: Primitives, st: StoreState, s: Stages, n: Json)
    requires s == Rewrite(shape, d.root, ctx, prim, st) && n == Final(shape, d, ctx, prim, st)
    requires GoodKeys(prim) && st.outcomes == []
    ensures MultiChoice(shape, n) == MultiChoice(shape, d.root)
  {
    hide MultiChoice;
    NormalizedAlike(shape, d.root, ctx, prim);
    SameChoice(shape, d.root, s.normal);
    SecondPicks(shape, s.normal, ctx, prim, st, Receivers(shape, s.picks, HasMarker(Sem(d.root, prim.number))), st);
    SameChoice(shape, s.normal, s.tooled);
    FinalLike(shape, d, ctx, prim, st, s, n);
    SameChoice(shape, s.tooled, n);
  }

  /** The key of the first pass is not touched by the second. */
  lemma KeyedOnce(shape: Shape, d: Doc, ctx: Context, prim: Primitives, st: StoreState, n: Json)
    requires WfDoc(d) && GoodNumbers(prim.number) && GoodKeys(prim) && n == Final(shape, d, ctx, prim, st)
    ensures Keyed(shape, ctx) ==> KeyEdit(n, shape, prim).None?
  {
    StagesWf(shape, d.root, ctx, prim, st);
    if Keyed(shape, ctx) { KeyInTree(d.(root := Rewrite(shape, d.root, ctx, prim, st).tooled), shape, prim); }
  }

  /**
   * With provider metadata and a store whose writes succeed, rewriting a rewritten request
   * changes nothing exactly when its tools need no normalising any more, or when the first pass
   * was misled and left no JSON to rewrite.
   */
  lemma FixedExactly(shape: Shape, d: Doc, ctx: Context, prim: Primitives, st: StoreState, later: StoreState)
    requires WfDoc(d) && !MultiChoice(shape, d.root) && Adorned(ctx) && st.outcomes == []
    requires GoodNumbers(prim.number) && GoodKeys(prim) && QuietKeys(prim)
    ensures var out := Rewritten(RenderDoc(d), shape, ctx, prim, st).0.body;
            Rewritten(out, shape, ctx, prim, later) == (Outcome(out, false, []), later)
            <==> Misled(shape, d, ctx) || MetadataEdits(shape, Final(shape, d, ctx, prim, st), prim) == []
  {
    hide NewBody, NewDoc, MetadataEdits, MultiChoice, Rewrite, Parse, RenderDoc;
    var out, nd := NewBody(shape, d, ctx, prim, st), NewDoc(shape, d, ctx, prim, st);
    ParseComplete(d);
    OutputParses(shape, d, ctx, prim, st);
    if !Misled(shape, d, ctx) {
      ParseSound(out);
      StillOneChoice(shape, d, ctx, prim, st, Rewrite(shape, d.root, ctx, prim, st), nd.root);
      if MetadataEdits(shape, nd.root, prim) == [] {
        Settled(shape, d, ctx, prim, st, later, nd);
      } else {
        Unsettled(shape, nd, ctx, prim, later);
      }
    }
  }

  lemma Settled(shape: Shape, d: Doc, ctx: Context, prim: Primitives, st: StoreState, later: StoreState, nd: Doc)
    requires WfDoc(d) && WfDoc(nd) && nd == NewDoc(shape, d, ctx, prim, st) && st.outcomes == []
    requires GoodNumbers(prim.number) && GoodKeys(prim) && QuietKeys(prim)
    requires MetadataEdits(shape, nd.root, prim) == []
    ensures NewBody(shape, nd, ctx, prim, later) == RenderDoc(nd)
    ensures Rewrite(shape, nd.root, ctx, prim, later) == Stages(nd.root, [], nd.root, nd.root, later)
  {
    var s := Rewrite(shape, d.root, ctx, prim, st);
    if shape != AnthropicBatches && s.picks == [] && !HasMarker(Sem(d.root, prim.number)) {
      FinalQuiet(shape, d, ctx, prim, st, s, nd.root);
    }
    SettledPass(shape, d, ctx, prim, st, later, nd.root);
    KeyedOnce(shape, d, ctx, prim, st, nd.root);
  }

  lemma Unsettled(shape: Shape, nd: Doc, ctx: Context, prim: Primitives, later: StoreState)
    requires WfDoc(nd) && GoodNumbers(prim.number) && GoodKeys(prim) && Adorned(ctx)
    requires MetadataEdits(shape, nd.root, prim) != []
    ensures Rewrite(shape, nd.root, ctx, prim, later).picks != [] ||
            NewBody(shape, nd, ctx, prim, later) != RenderDoc(nd)
  {
    UnsettledPass(shape, nd, ctx, prim, later, Rewrite(shape, nd.root, ctx, prim, later));
    OutputParses(shape, nd, ctx, prim, later);
    ParseComplete(nd);
  }

  // ----- when an added tool needs normalising -----

  /** Compression touches nothing the normaliser reads. */
  lemma SlottedSameTools(shape: Shape, v: Json, ctx: Context, prim: Primitives, st: StoreState)
    requires shape != AnthropicBatches
    ensures SameTools(v, Slotted(shape, v, ctx, prim.hash, st))
  {
    hide Text, CacheControlSet;
    var picks, w := Picks(v, Candidates(shape, v, ctx), prim.hash, st).0, Slotted(shape, v, ctx, prim.hash, st);
    SlottedAlike(shape, v, ctx, prim.hash, st);
    AlikeObject(v, w);
    SlotsPlanned(shape, v, ctx, prim.hash, st);
    PickPath(shape, v, ctx, prim.hash, st);
    if Object(v) {
      var es := SlotEdits(picks);
      forall i | 0 <= i < |es| ensures es[i].path != [] { SlotEditFrom(picks, i); }
      EditedRoot(v, es);
      SameRootKeys(v, w);
      var k := KeyIndex(v, "tools");
      if k.Some? { ToolsKept(shape, v, ctx, prim, st, k.value); }
      SameMembers(v, w);
    } else {
      NoList(v, w);
    }
  }

  lemma SameRootKeys(v: Json, w: Json)
    requires Object(v) && Object(w) && |w.kids| == |v.kids| && forall i :: 0 <= i < |v.kids| ==>
             w.kids[i].key == v.kids[i].key
    ensures Keys(w.kids) == Keys(v.kids)
  {
    hide Text;
  }

  lemma ToolsKept(shape: Shape, v: Json, ctx: Context, prim: Primitives, st: StoreState, k: nat)
    requires shape != AnthropicBatches && KeyIndex(v, "tools") == Some(k)
    ensures var w := Slotted(shape, v, ctx, prim.hash, st); w.Box? && k < |w.kids| && w.kids[k].value == v.kids[k].value
  {
    hide Text, Slotted;
    var picks := Picks(v, Candidates(shape, v, ctx), prim.hash, st).0;
    KeyThere(v, k, "tools");
    LiveKey(shape, v, ctx.frozen);
    forall i | 0 <= i < |picks| ensures Apart([k], picks[i].path) {
      PickSlot(shape, v, ctx, prim.hash, st, i);
      NotTools(Text(v.kids[picks[i].path[0]].key));
    }
    AtOne(v, k);
    SlottedKeepsPath(shape, v, ctx, prim.hash, st, [k]);
    AtOne(Slotted(shape, v, ctx, prim.hash, st), k);
  }

  lemma SameMembers(v: Json, w: Json)
    requires Object(v) && Object(w) && Alike(v, w) && Keys(w.kids) == Keys(v.kids)
    requires KeyIndex(v, "tools").Some? ==>
               var k := KeyIndex(v, "tools").value; k < |w.kids| && w.kids[k].value == v.kids[k].value
    ensures SameTools(v, w)
  {
    hide Text, Alike, Keys, Marked;
    NoFreeMembers();
    AlikeLookup(v, w, "system");
    CacheControlAlike(Lookup(v, "system"), Lookup(w, "system"));
    AlikeLookup(v, w, "messages");
    PinnedSame(Lookup(v, "messages"), Lookup(w, "messages"));
  }

  lemma NoFreeMembers()
    ensures !Free("system") && !Free("messages")
  {
  }

  /** Whether some message of a list carries a breakpoint. */
  predicate SomePinned(messages: Option<Json>) {
    messages.Some? && IsList(messages.value)
    && exists i :: 0 <= i < |messages.value.kids| && Pinned(messages.value.kids[i].value)
  }

  lemma PinnedSame(v: Option<Json>, w: Option<Json>)
    requires v.Some? == w.Some? && (v.Some? ==> Alike(v.value, w.value))
    ensures SomePinned(v) == SomePinned(w)
  {
    hide Pinned;
    if v.Some? && IsList(v.value) {
      ListKids(v.value, w.value);
      forall i | 0 <= i < |v.value.kids| ensures Pinned(v.value.kids[i].value) == Pinned(w.value.kids[i].value) {
        PinnedAlike(v.value.kids[i].value, w.value.kids[i].value);
      }
      if SomePinned(v) {
        var i :| 0 <= i < |v.value.kids| && Pinned(v.value.kids[i].value);
        assert Pinned(w.value.kids[i].value);
      }
    }
  }

  lemma NoList(v: Json, w: Json)
    requires !Object(v) && !Object(w)
    ensures SameTools(v, w)
  {
  }

  /** The first pass adds the retrieve tool to a single request. */
  predicate Adds(shape: Shape, d: Doc, ctx: Context, prim: Primitives, st: StoreState) {
    var s := Rewrite(shape, d.root, ctx, prim, st);
    (s.picks != [] || HasMarker(Sem(d.root, prim.number))) && ToolAppend(s.normal, shape, prim.wording).Some?
  }

  /**
   * A single request needs normalising a second time exactly when the first pass added the retrieve
   * tool and the tool does not stay: another tool sorts behind it and no breakpoint pins the
   * order, or a breakpoint is still to be placed on it.
   */
  lemma SingleExactly(shape: Shape, d: Doc, ctx: Context, prim: Primitives, st: StoreState, s: Stages, n: Json)
    requires shape != AnthropicBatches && Adorned(ctx) && WfDoc(d) && GoodNumbers(prim.number) && GoodKeys(prim)
    requires s == Rewrite(shape, d.root, ctx, prim, st) && n == Final(shape, d, ctx, prim, st)
    ensures MetadataEdits(shape, n, prim) == [] <==> !Adds(shape, d, ctx, prim, st) || Stays(s.normal, shape, prim)
  {
    hide CacheControlSet, ToolEdits, ToolAppend;
    NormalizeTwice(d.root, Anthropic(shape), prim);
    SlottedSameTools(shape, s.normal, ctx, prim, st);
    SameToolEdits(s.normal, s.slotted, Anthropic(shape), prim);
    SameAppend(s.normal, s.slotted, shape, prim.wording);
    FinalLike(shape, d, ctx, prim, st, s, n);
    SameToolEdits(s.tooled, n, Anthropic(shape), prim);
    var marked := HasMarker(Sem(d.root, prim.number));
    OneReceiver(shape, s.picks, marked);
    if Adds(shape, d, ctx, prim, st) {
      AddedOnce(shape, s.slotted, prim);
      AddedSettles(s.slotted, shape, prim);
      SameStays(s.normal, s.slotted, shape, prim);
    } else if s.picks != [] || marked {
      AlreadyThere(shape, s.slotted, Receivers(shape, s.picks, marked), prim.wording);
    } else {
      NothingChosen(shape, s.slotted, prim.wording);
    }
  }

  lemma AddedOnce(shape: Shape, x: Json, prim: Primitives)
    requires shape != AnthropicBatches && ToolAppend(x, shape, prim.wording).Some?
    ensures Tooled(shape, x, {0}, prim.wording) == Step(x, ToolAppend(x, shape, prim.wording).value)
  {
    var e := ToolAppend(x, shape, prim.wording).value;
    EditedOne(x, e);
    assert RetrieveEdits(shape, x, {0}, prim.wording) == [e];
  }

  lemma SameStays(v: Json, w: Json, shape: Shape, prim: Primitives)
    requires SameTools(v, w)
    ensures Stays(v, shape, prim) == Stays(w, shape, prim)
  {
    hide CacheControlSet, Marked, AllUpTo, Lookup;
  }
}
