/** What the text that leaves the rewriter holds: a usable key, and tokens that expand. */
module Outputs {
  import opened Prelude
  import opened Json
  import opened JsonParser
  import opened JsonEdits
  import opened EditLists
  import opened Values
  import opened Ccr
  import opened LiveZone
  import opened Tools
  import opened Injections
  import opened Rewriting
  import opened EditFacts
  import opened StageFacts
  import opened Preservation
  import opened Resemblance
  import opened Rewriter
  import opened Reversal
  import opened FrozenPrefix
  import opened Idempotence

  // ----- the root keeps its members -----

  /** Same members in the same places, and nothing new but `tools`. */
  predicate RootLike(v: Json, w: Json) {
    && v.Box? && w.Box? && w.isObj == v.isObj && |v.kids| <= |w.kids|
    && (forall i :: 0 <= i < |v.kids| ==> w.kids[i].key == v.kids[i].key)
    && (forall i :: |v.kids| <= i < |w.kids| ==> Text(w.kids[i].key) == "tools")
  }

  lemma RootLikeTwice(a: Json, b: Json, c: Json)
    requires RootLike(a, b) && RootLike(b, c)
    ensures RootLike(a, c)
  {
    hide Text;
  }

  lemma RootKeys(v: Json, w: Json, x: string)
    requires RootLike(v, w) && x != "tools"
    ensures KeyIndex(v, x) == KeyIndex(w, x) && multiset(Keys(v.kids))[x] == multiset(Keys(w.kids))[x]
  {
    hide Text;
    var n := |v.kids|;
    var extra := Keys(w.kids)[n..];
    assert Keys(w.kids) == Keys(v.kids) + extra;
    assert x !in extra;
    LastIndexExtra(Keys(v.kids), extra, x);
  }

  lemma EditedRootLike(v: Json, es: seq<Edit>)
    requires Planned(v, es) && v.Box? && forall i :: 0 <= i < |es| ==> es[i].path != []
    ensures RootLike(v, Edited(v, es))
  {
    EditedRoot(v, es);
  }

  lemma TooledRootLike(shape: Shape, v: Json, chosen: set<nat>, w: Wording)
    requires shape != AnthropicBatches && v.Box?
    ensures RootLike(v, Tooled(shape, v, chosen, w))
  {
    RetrievePlanned(shape, v, chosen, w);
    var es := RetrieveEdits(shape, v, chosen, w);
    if es != [] {
      var e := ToolAppend(v, shape, w).value;
      assert es == [e];
      EditedOne(v, e);
      if e.path == [] { ToolsKey(shape, w); }
    }
  }

  lemma SlottedRootLike(shape: Shape, v: Json, ctx: Context, hash: string -> string, st: StoreState)
    requires v.Box?
    ensures RootLike(v, Slotted(shape, v, ctx, hash, st))
  {
    var picks := Picks(v, Candidates(shape, v, ctx), hash, st).0;
    SlotsPlanned(shape, v, ctx, hash, st);
    PickPath(shape, v, ctx, hash, st);
    var es := SlotEdits(picks);
    forall i | 0 <= i < |es| ensures es[i].path != [] { SlotEditFrom(picks, i); }
    EditedRootLike(v, es);
  }

  lemma StagesRootLike(shape: Shape, v: Json, ctx: Context, prim: Primitives, st: StoreState)
    requires shape != AnthropicBatches && v.Box?
    ensures RootLike(v, Rewrite(shape, v, ctx, prim, st).tooled)
  {
    var s := Rewrite(shape, v, ctx, prim, st);
    MetadataPlanned(shape, v, prim);
    MetadataBelow(shape, v, prim);
    EditedRootLike(v, MetadataEdits(shape, v, prim));
    SlottedRootLike(shape, s.normal, ctx, prim.hash, st);
    TooledRootLike(shape, s.slotted, Receivers(shape, s.picks, HasMarker(Sem(v, prim.number))), prim.wording);
    RootLikeTwice(v, s.normal, s.slotted);
    RootLikeTwice(v, s.slotted, s.tooled);
  }

  // ----- the cache key -----

  /** The first three stages keep the cache key of a request. */
  lemma StagesKeepKey(shape: Shape, v: Json, ctx: Context, prim: Primitives, st: StoreState)
    requires shape != AnthropicBatches
    ensures Keyable(Rewrite(shape, v, ctx, prim, st).tooled) == Keyable(v)
  {
    var s := Rewrite(shape, v, ctx, prim, st);
    if v.Box? {
      StagesRootLike(shape, v, ctx, prim, st);
      RootKeys(v, s.tooled, PCK);
      var k := KeyIndex(v, PCK);
      if k.Some? { KeyValueKept(shape, v, ctx, prim, st, k.value); }
      SameKeyable(v, s.tooled);
    } else {
      NoRoot(shape, v, ctx, prim, st);
    }
  }

  lemma SameKeyable(v: Json, w: Json)
    requires v.Box? && w.Box? && v.isObj == w.isObj && KeyIndex(v, PCK) == KeyIndex(w, PCK)
    requires KeyIndex(v, PCK).Some? ==>
             var k := KeyIndex(v, PCK).value; k < |w.kids| && w.kids[k].value == v.kids[k].value
    requires multiset(Keys(v.kids))[PCK] == multiset(Keys(w.kids))[PCK]
    ensures Keyable(w) == Keyable(v)
  {
  }

  lemma NoRoot(shape: Shape, v: Json, ctx: Context, prim: Primitives, st: StoreState)
    requires shape != AnthropicBatches && !v.Box?
    ensures Rewrite(shape, v, ctx, prim, st).tooled == v
  {
  }

  lemma KeyValueKept(shape: Shape, v: Json, ctx: Context, prim: Primitives, st: StoreState, k: nat)
    requires shape != AnthropicBatches && KeyIndex(v, PCK) == Some(k)
    ensures var t := Rewrite(shape, v, ctx, prim, st).tooled;
            t.Box? && k < |t.kids| &&
            t.kids[k].value == v.kids[k].value
  {
    hide Tooled, Slotted, Picks, Normalized, Text;
    var s := Rewrite(shape, v, ctx, prim, st);
    TrailHead(v, [k]);
    NormalizedKeeps(shape, v, ctx, prim, [k]);
    LiveKey(shape, s.normal, ctx.frozen);
    TrailHead(s.normal, [k]);
    forall i | 0 <= i < |s.picks| ensures Apart([k], s.picks[i].path) {
      PickSlot(shape, s.normal, ctx, prim.hash, st, i);
      NotTools(Text(s.normal.kids[s.picks[i].path[0]].key));
    }
    SlottedKeepsPath(shape, s.normal, ctx, prim.hash, st, [k]);
    TooledKeepsPath(shape, s.slotted, Receivers(shape, s.picks, HasMarker(Sem(v, prim.number))), prim.wording, [k]);
    AtOne(v, k);
    AtOne(s.tooled, k);
  }

  /**
   * Where a cache key is due, the text that leaves the rewriter is JSON with a usable key exactly
   * when the request can be given one and is no empty object behind blanks.
   */
  lemma OutputKeyed(shape: Shape, d: Doc, ctx: Context, prim: Primitives, st: StoreState)
    requires WfDoc(d) && GoodNumbers(prim.number) && GoodKeys(prim)
    requires ctx.metadata && ctx.auth == Payg && (shape == OpenAiChat || shape == OpenAiResponses)
    ensures var out := Parse(NewBody(shape, d, ctx, prim, st));
            (out.Some? && HasKey(out.value.root)) <==> !(d.pre != "" && EmptyRoot(d.root)) && Keyable(d.root)
  {
    var tooled := d.(root := Rewrite(shape, d.root, ctx, prim, st).tooled);
    StagesWf(shape, d.root, ctx, prim, st);
    StagesKeepKey(shape, d.root, ctx, prim, st);
    KeyPresent(tooled, shape, prim);
    RootStays(shape, d.root, ctx, prim, st);
    if EmptyRoot(tooled.root) { NoMembers(tooled.root, shape, prim); }
  }

  lemma StagesKeepText(shape: Shape, v: Json, ctx: Context, prim: Primitives, st: StoreState)
    requires shape != AnthropicBatches
    ensures LookupText(Rewrite(shape, v, ctx, prim, st).tooled, PCK) == LookupText(v, PCK)
  {
    hide Rewrite, Text;
    var t := Rewrite(shape, v, ctx, prim, st).tooled;
    if v.Box? {
      StagesRootLike(shape, v, ctx, prim, st);
      RootKeys(v, t, PCK);
      var k := KeyIndex(v, PCK);
      if k.Some? { KeyValueKept(shape, v, ctx, prim, st, k.value); }
    } else {
      NoRoot(shape, v, ctx, prim, st);
    }
  }

  /** The key that is sent: the client's own, or the one derived from the request with its tools in place. */
  lemma KeySent(shape: Shape, d: Doc, ctx: Context, prim: Primitives, st: StoreState)
    requires WfDoc(d) && GoodNumbers(prim.number) && GoodKeys(prim)
    requires ctx.metadata && ctx.auth == Payg && (shape == OpenAiChat || shape == OpenAiResponses)
    requires Keyable(d.root) && !(d.pre != "" && EmptyRoot(d.root))
    ensures var out, own := Parse(NewBody(shape, d, ctx, prim, st)), LookupText(d.root, "prompt_cache_key");
            out.Some? && LookupText(out.value.root, "prompt_cache_key")
            == if own.Some? && own.value != "" then own
               else Some(DerivedKey(Rewrite(shape, d.root, ctx, prim, st).tooled, shape, prim))
  {
    hide Rewrite, DerivedKey, LookupText, Parse, Keyable, HasKey;
    var tooled := d.(root := Rewrite(shape, d.root, ctx, prim, st).tooled);
    StagesWf(shape, d.root, ctx, prim, st);
    StagesKeepKey(shape, d.root, ctx, prim, st);
    StagesKeepText(shape, d.root, ctx, prim, st);
    OutputParses(shape, d, ctx, prim, st);
    KeyValue(tooled, shape, prim);
  }

  /** One blank, an empty object and a cache key due: what is sent is no JSON. */
  lemma BlankBreaks(shape: Shape, ctx: Context, prim: Primitives, st: StoreState)
    requires GoodNumbers(prim.number) && GoodKeys(prim)
    requires ctx.metadata && ctx.auth == Payg && (shape == OpenAiChat || shape == OpenAiResponses)
    ensures Parse(Rewritten(" {}", shape, ctx, prim, st).0.body).None?
  {
    var d := Doc(" ", Box(true, [], ""), "");
    BlankThenEmpty(shape, prim);
    ParseComplete(d);
    OutputParses(shape, d, ctx, prim, st);
    assert Keys(d.root.kids) == [];
  }

  // ----- every token of the final body expands to what the client wrote -----

  /** An edit beside a position, or inside what it holds. */
  predicate Beside(p: Path, e: Edit) { Apart(p, e.path) || (|p| <= |e.path| && e.path[..|p|] == p) }

  lemma {:induction false} LeafBeside(v: Json, p: Path, e: Edit)
    requires HasPath(v, p) && HasPath(v, e.path) && At(v, e.path).Str?
    ensures Beside(p, e)
    decreases p
  {
    var q := e.path;
    if p != [] && q != [] && p[0] == q[0] {
      var inner := e.(path := q[1..]);
      LeafBeside(v.kids[p[0]].value, p[1..], inner);
      if !Apart(p[1..], q[1..]) { assert q[..|p|] == [q[0]] + q[1..][..|p| - 1] && p == [p[0]] + p[1..]; }
    }
  }

  /** What such an edit makes of the subtree at the position. */
  function Inward(x: Json, p: Path, e: Edit): Json
    requires e.Put? && Beside(p, e)
  {
    if Apart(p, e.path) || !HasPath(x, e.path[|p|..]) then x else With(x, e.path[|p|..], e.node)
  }

  lemma StepInward(v: Json, p: Path, e: Edit)
    requires e.Put? && HasPath(v, p) && Fits(v, e) && Beside(p, e)
    ensures HasPath(Step(v, e), p) && At(Step(v, e), p) == Inward(At(v, p), p, e)
    ensures !Apart(p, e.path) ==> HasPath(At(v, p), e.path[|p|..]) && At(At(v, p), e.path[|p|..]) == At(v, e.path)
  {
    if Apart(p, e.path) {
      StepElsewhere(v, e, p);
    } else {
      var q := e.path[|p|..];
      assert e.path == p + q;
      UnderPath(v, p, q);
      WithConcat(v, p, q, e.node);
      RenderWith(v, p, With(At(v, p), q, e.node));
    }
  }

  lemma {:induction false} UnderPath(v: Json, p: Path, q: Path)
    requires HasPath(v, p + q)
    ensures HasPath(v, p) && HasPath(At(v, p), q) && At(At(v, p), q) == At(v, p + q)
    decreases p
  {
    if p == [] {
      assert p + q == q;
    } else {
      assert (p + q)[1..] == p[1..] + q;
      UnderPath(v.kids[p[0]].value, p[1..], q);
    }
  }

  ghost predicate AllBeside(p: Path, es: seq<Edit>) { forall i :: 0 <= i < |es| ==> es[i].Put? && Beside(p, es[i]) }

  /** Replacements do the same to equal subtrees. */
  lemma {:induction false} EditedInward(v: Json, w: Json, es: seq<Edit>, p: Path)
    requires Planned(v, es) && Planned(w, es) && AllBeside(p, es)
    requires HasPath(v, p) && HasPath(w, p) && At(v, p) == At(w, p)
    ensures HasPath(Edited(v, es), p) && HasPath(Edited(w, es), p) && At(Edited(v, es), p) == At(Edited(w, es), p)
    decreases |es|
  {
    if es != [] {
      var n := |es| - 1;
      Peeled(v, es);
      Peeled(w, es);
      StepInward(v, p, es[n]);
      StepInward(w, p, es[n]);
      EditedInward(Step(v, es[n]), Step(w, es[n]), es[..n], p);
    }
  }

  /** Replacements that keep the meaning of the whole keep the meaning of each part. */
  lemma {:induction false} EditedSemAt(v: Json, es: seq<Edit>, p: Path, number: string -> string)
    requires Planned(v, es) && AllBeside(p, es) && HasPath(v, p) && AllJudged(v, es, SemCheck(number))
    ensures HasPath(Edited(v, es), p) && Sem(At(Edited(v, es), p), number) == Sem(At(v, p), number)
    decreases |es|
  {
    if es != [] {
      var n := |es| - 1;
      var e := es[n];
      Peeled(v, es);
      JudgedInit(v, es, SemCheck(number));
      assert Judged(v, e, SemCheck(number));
      StepInward(v, p, e);
      if !Apart(p, e.path) { SemWith(At(v, p), e.path[|p|..], e.node, number); }
      EditedSemAt(Step(v, e), es[..n], p, number);
    }
  }

  lemma {:induction false} WithTrail(v: Json, p: Path, y: Json)
    requires HasPath(v, p)
    ensures HasPath(With(v, p, y), p) && Trail(With(v, p, y), p) == Trail(v, p)
    decreases p
  {
    if p != [] { WithTrail(v.kids[p[0]].value, p[1..], y); }
  }

  lemma {:induction false} EditedTrail(v: Json, es: seq<Edit>, p: Path)
    requires Planned(v, es) && AllBeside(p, es) && HasPath(v, p)
    ensures HasPath(Edited(v, es), p) && Trail(Edited(v, es), p) == Trail(v, p)
    decreases |es|
  {
    if es != [] {
      var n := |es| - 1;
      Peeled(v, es);
      StepInward(v, p, es[n]);
      StepTrail(v, p, es[n]);
      EditedTrail(Step(v, es[n]), es[..n], p);
    }
  }

  lemma StepTrail(v: Json, p: Path, e: Edit)
    requires e.Put? && HasPath(v, p) && Fits(v, e) && Beside(p, e) && HasPath(Step(v, e), p)
    ensures Trail(Step(v, e), p) == Trail(v, p)
  {
    if Apart(p, e.path) {
      StepKeeps(v, e, p);
    } else {
      var q := e.path[|p|..];
      assert e.path == p + q;
      UnderPath(v, p, q);
      WithConcat(v, p, q, e.node);
      WithTrail(v, p, With(At(v, p), q, e.node));
    }
  }

  /** Every position is beside the compressed tokens or above them. */
  lemma TokensBeside(shape: Shape, v: Json, ctx: Context, hash: string -> string, st: StoreState, p: Path)
    requires HasPath(v, p)
    ensures AllBeside(p, SlotEdits(Picks(v, Candidates(shape, v, ctx), hash, st).0))
  {
    var picks := Picks(v, Candidates(shape, v, ctx), hash, st).0;
    SlotsPlanned(shape, v, ctx, hash, st);
    var es := SlotEdits(picks);
    forall i | 0 <= i < |es| ensures es[i].Put? && Beside(p, es[i]) {
      SlotEditFrom(picks, i);
      var j :| 0 <= j < |picks| && es[i] == SlotEdit(picks[j]);
      PickSlot(shape, v, ctx, hash, st, j);
      SlotOutside(shape, v, ctx.frozen, ctx.userText, picks[j].path);
      LeafBeside(v, p, es[i]);
    }
  }

  lemma SlottedOutside(shape: Shape, v: Json, ctx: Context, hash: string -> string, st: StoreState, p: Path)
    requires OutsideTools(shape, v, p)
    ensures var w := Slotted(shape, v, ctx, hash, st); OutsideTools(shape, w, p) && Trail(w, p) == Trail(v, p)
  {
    TokensBeside(shape, v, ctx, hash, st, p);
    SlotsPlanned(shape, v, ctx, hash, st);
    EditedTrail(v, SlotEdits(Picks(v, Candidates(shape, v, ctx), hash, st).0), p);
  }

  /** A candidate of the normalised request is one of the original, with the same text. */
  lemma CandidateBefore(shape: Shape, v: Json, ctx: Context, prim: Primitives, q: Path)
    requires q in Candidates(shape, Normalized(shape, v, ctx, prim), ctx)
    ensures OutsideTools(shape, v, q) && At(v, q).Str?
    ensures var w := Normalized(shape, v, ctx, prim); OutsideTools(shape, w, q) && At(w, q) == At(v, q)
    ensures Trail(Normalized(shape, v, ctx, prim), q) == Trail(v, q)
  {
    NormalizedAlike(shape, v, ctx, prim);
    SameSlots(shape, v, Normalized(shape, v, ctx, prim), ctx.frozen, ctx.userText);
    SlotOutside(shape, v, ctx.frozen, ctx.userText, q);
    NormalizedKeeps(shape, v, ctx, prim, q);
  }

  /** The parts of a request the client wrote and reads back: all but `tools` and an injected key. */
  predicate ClientPart(shape: Shape, v: Json, ctx: Context, p: Path) {
    OutsideTools(shape, v, p) &&
    (ctx.metadata && ctx.auth == Payg && (shape == OpenAiChat || shape == OpenAiResponses) ==>
       Text(Trail(v, p)[0]) != "prompt_cache_key")
  }

  /** Later stages leave such a part of the compressed tree in place. */
  lemma StagesKeep(shape: Shape, d: Doc, ctx: Context, prim: Primitives, st: StoreState, p: Path, s: Stages, n: Json)
    requires s == Rewrite(shape, d.root, ctx, prim, st) && n == NewDoc(shape, d, ctx, prim, st).root
    requires ClientPart(shape, d.root, ctx, p)
    ensures HasPath(s.normal, p) && At(s.normal, p) == At(d.root, p)
    ensures HasPath(s.slotted, p) && HasPath(n, p) && At(n, p) == At(s.slotted, p)
  {
    NormalizedKeeps(shape, d.root, ctx, prim, p);
    SlottedOutside(shape, s.normal, ctx, prim.hash, st, p);
    TooledKeepsPath(shape, s.slotted, Receivers(shape, s.picks, HasMarker(Sem(d.root, prim.number))), prim.wording, p);
    if Keyed(shape, ctx) { KeyedKeeps(d.(root := s.tooled), shape, prim, p); }
  }

  lemma TokenIsClients(shape: Shape, d: Doc, ctx: Context, prim: Primitives, st: StoreState, s: Stages, i: nat)
    requires s == Rewrite(shape, d.root, ctx, prim, st) && i < |s.picks|
    ensures ClientPart(shape, d.root, ctx, s.picks[i].path) && At(d.root, s.picks[i].path).Str?
  {
    var q := s.picks[i].path;
    PickSlot(shape, s.normal, ctx, prim.hash, st, i);
    CandidateBefore(shape, d.root, ctx, prim, q);
    if Keyed(shape, ctx) {
      LiveKey(shape, s.normal, ctx.frozen);
      TrailHead(s.normal, q);
      NotTools(Text(s.normal.kids[q[0]].key));
    }
  }

  /** In the body that is sent, expanding a compressed token gives the text the client sent there. */
  lemma TokenDelivered(shape: Shape, d: Doc, ctx: Context, prim: Primitives, st: StoreState, texts: set<string>,
                       lookup: string -> Option<string>, i: nat)
    requires WfDoc(d) && GoodNumbers(prim.number) && GoodKeys(prim)
    requires Readable(shape, Normalized(shape, d.root, ctx, prim), ctx, prim.hash, st, texts, lookup)
    requires i < |Rewrite(shape, d.root, ctx, prim, st).picks|
    ensures var out := Parse(NewBody(shape, d, ctx, prim, st));
            var q := Rewrite(shape, d.root, ctx, prim, st).picks[i].path;
            out.Some? && Expand(TextAt(out.value.root, q), lookup) == Expansion(TextAt(d.root, q), 1, 0, [])
  {
    hide NewBody, NewDoc, Parse, Expand, Readable;
    var s, n := Rewrite(shape, d.root, ctx, prim, st), NewDoc(shape, d, ctx, prim, st).root;
    var q := s.picks[i].path;
    TokenIsClients(shape, d, ctx, prim, st, s, i);
    StagesKeep(shape, d, ctx, prim, st, q, s, n);
    TokenExpands(shape, s.normal, ctx, prim.hash, st, texts, lookup, i);
    assert !EmptyRoot(d.root);
    OutputParses(shape, d, ctx, prim, st);
  }

  /** Expanding every compressed token of a body. */
  function Expanding(v: Json, picks: seq<Pick>, lookup: string -> Option<string>): seq<Edit> {
    RestoreEdits(v, lookup, SlotEdits(picks))
  }

  lemma SameExpanding(v: Json, w: Json, picks: seq<Pick>, lookup: string -> Option<string>)
    requires forall i :: 0 <= i < |picks| ==> TextAt(v, picks[i].path) == TextAt(w, picks[i].path)
    requires multiset(SlotEdits(picks)) == multiset(SlotEditsOf(picks))
    ensures Expanding(v, picks, lookup) == Expanding(w, picks, lookup)
  {
    var es := SlotEdits(picks);
    forall i | 0 <= i < |es| ensures RestoreEdit(v, lookup, es[i]) == RestoreEdit(w, lookup, es[i]) {
      SlotEditFrom(picks, i);
    }
  }

  lemma TokenStays(shape: Shape, d: Doc, ctx: Context, prim: Primitives, st: StoreState, s: Stages, n: Json, i: nat)
    requires s == Rewrite(shape, d.root, ctx, prim, st) && n == NewDoc(shape, d, ctx, prim, st).root && i < |s.picks|
    ensures HasPath(n, s.picks[i].path) && TextAt(n, s.picks[i].path) == TextAt(s.slotted, s.picks[i].path)
  {
    hide Rewrite, NewDoc, ClientPart, Text;
    TokenIsClients(shape, d, ctx, prim, st, s, i);
    StagesKeep(shape, d, ctx, prim, st, s.picks[i].path, s, n);
  }

  lemma PicksBag(shape: Shape, v: Json, ctx: Context, prim: Primitives, st: StoreState, s: Stages)
    requires s == Rewrite(shape, v, ctx, prim, st)
    ensures multiset(SlotEdits(s.picks)) == multiset(SlotEditsOf(s.picks))
  {
    SlotsPlanned(shape, s.normal, ctx, prim.hash, st);
  }

  lemma TokensStay(shape: Shape, d: Doc, ctx: Context, prim: Primitives, st: StoreState, s: Stages, n: Json,
                   lookup: string -> Option<string>)
    requires s == Rewrite(shape, d.root, ctx, prim, st) && n == NewDoc(shape, d, ctx, prim, st).root
    ensures multiset(SlotEdits(s.picks)) == multiset(SlotEditsOf(s.picks))
    ensures Expanding(n, s.picks, lookup) == Expanding(s.slotted, s.picks, lookup)
    ensures forall i :: 0 <= i < |s.picks| ==> HasPath(n, s.picks[i].path)
  {
    hide Rewrite, NewDoc, TextAt, HasPath, Expanding;
    forall i | 0 <= i < |s.picks|
      ensures HasPath(n, s.picks[i].path) && TextAt(n, s.picks[i].path) == TextAt(s.slotted, s.picks[i].path)
    {
      TokenStays(shape, d, ctx, prim, st, s, n, i);
    }
    PicksBag(shape, d.root, ctx, prim, st, s);
    SameExpanding(n, s.slotted, s.picks, lookup);
  }

  lemma FitsThere(slotted: Json, n: Json, picks: seq<Pick>, lookup: string -> Option<string>)
    requires Planned(slotted, Expanding(slotted, picks, lookup)) &&
             Expanding(n, picks, lookup) == Expanding(slotted, picks, lookup)
    requires multiset(SlotEdits(picks)) == multiset(SlotEditsOf(picks))
    requires forall i :: 0 <= i < |picks| ==> HasPath(n, picks[i].path)
    ensures Planned(n, Expanding(n, picks, lookup))
  {
    var es := Expanding(n, picks, lookup);
    forall i | 0 <= i < |es| ensures Fits(n, es[i]) { SlotEditFrom(picks, i); }
  }

  lemma ExpandingBeside(v: Json, picks: seq<Pick>, lookup: string -> Option<string>, p: Path)
    requires AllBeside(p, SlotEdits(picks))
    ensures AllBeside(p, Expanding(v, picks, lookup))
  {
    var es := Expanding(v, picks, lookup);
    forall i | 0 <= i < |es| ensures es[i].Put? && Beside(p, es[i]) { assert Beside(p, SlotEdits(picks)[i]); }
  }

  /**
   * With every token of the body that is sent expanded, each part the client wrote means what
   * it meant in the body the client sent.
   */
  lemma BodyRestores(shape: Shape, d: Doc, ctx: Context, prim: Primitives, st: StoreState, texts: set<string>,
                     lookup: string -> Option<string>, number: string -> string, p: Path)
    requires WfDoc(d) && GoodNumbers(prim.number) && GoodKeys(prim) && ClientPart(shape, d.root, ctx, p)
    requires Readable(shape, Normalized(shape, d.root, ctx, prim), ctx, prim.hash, st, texts, lookup)
    ensures var out := Parse(NewBody(shape, d, ctx, prim, st));
            var picks := Rewrite(shape, d.root, ctx, prim, st).picks;
            out.Some? ==>
              var back := Expanding(out.value.root, picks, lookup);
              && Planned(out.value.root, back) && HasPath(Edited(out.value.root, back), p)
              && Sem(At(Edited(out.value.root, back), p), number) == Sem(At(d.root, p), number)
  {
    OutputParses(shape, d, ctx, prim, st);
    TreeRestores(shape, d, ctx, prim, st, texts, lookup, number, p, Rewrite(shape, d.root, ctx, prim, st),
                 NewDoc(shape, d, ctx, prim, st).root);
  }

  lemma TreeRestores(shape: Shape, d: Doc, ctx: Context, prim: Primitives, st: StoreState, texts: set<string>,
                     lookup: string -> Option<string>, number: string -> string, p: Path, s: Stages, n: Json)
    requires ClientPart(shape, d.root, ctx, p)
    requires Readable(shape, Normalized(shape, d.root, ctx, prim), ctx, prim.hash, st, texts, lookup)
    requires s == Rewrite(shape, d.root, ctx, prim, st) && n == NewDoc(shape, d, ctx, prim, st).root
    ensures var back := Expanding(n, s.picks, lookup);
            && Planned(n, back) && HasPath(Edited(n, back), p)
            && Sem(At(Edited(n, back), p), number) == Sem(At(d.root, p), number)
  {
    var back := Expanding(s.slotted, s.picks, lookup);
    TokensStay(shape, d, ctx, prim, st, s, n, lookup);
    RestorePlan(shape, s.normal, ctx, prim.hash, st, texts, lookup, number);
    FitsThere(s.slotted, n, s.picks, lookup);
    StagesKeep(shape, d, ctx, prim, st, p, s, n);
    TokensBeside(shape, s.normal, ctx, prim.hash, st, p);
    ExpandingBeside(s.slotted, s.picks, lookup, p);
    EditedInward(n, s.slotted, back, p);
    EditedSemAt(s.normal, back, p, number);
  }

  /** What an operation hands out: the marker of a text that was stored, or the hashes a rewritten body reports. */
  lemma HandedOut(op: Op, prim: Primitives, st: StoreState)
    ensures var es := Perform(op, prim, st).0;
            match op
            case CompressText(input, minBytes) =>
              var r := CompressResult(input, minBytes, prim.hash, st).0;
              && (r.stored ==> es == [Emission(prim.hash(input), input)] && r.output == Marker(prim.hash(input)))
              && (!r.stored ==> es == [] && r.output == input)
            case RewriteBody(body, shape, ctx) =>
              var hashes := Rewritten(body, shape, ctx, prim, st).0.hashes;
              |es| == |hashes| && forall i :: 0 <= i < |es| ==> es[i].hash == hashes[i]
  {
    hide Rewrite, Parse;
  }
}
