/** Which rewritten requests a second pass leaves alone, told from the first pass, batches included. */
module Fixpoints {
  import opened Prelude
  import opened Json
  import opened JsonEdits
  import opened EditLists
  import opened Values
  import opened Ccr
  import opened LiveZone
  import opened Tools
  import opened Injections
  import opened Resemblance
  import opened Rewriting
  import opened StageFacts
  import opened Preservation
  import opened FrozenPrefix
  import opened Reversal
  import opened Rewriter
  import opened Idempotence
  import opened Outputs
  import opened AddedTool
  import opened AdornedTwice

  // ----- the requests of a body -----

  function ParamsIn(entry: Json): Option<Json> {
    var q := Field(entry, "params");
    if !ViewOk(entry, {"params"}) || q.None? then None else Some(entry.kids[q.value].value)
  }

  /** The request with index `i`: the body itself, or the params of a batch entry. */
  function RequestAt(shape: Shape, v: Json, i: nat): Option<Json> {
    if shape != AnthropicBatches then (if i == 0 then Some(v) else None)
    else
      var k := ListField(v, "requests");
      if k.None? || i >= |v.kids[k.value].value.kids| then None
      else ParamsIn(v.kids[k.value].value.kids[i].value)
  }

  lemma EntryNothing(i: nat, entry: Json, g: Plan)
    ensures EntryEdits(i, entry, g) == [] <==>
            (ParamsIn(entry).Some? ==> g(i, ParamsIn(entry).value) == [])
  {
    var q := Field(entry, "params");
    if ViewOk(entry, {"params"}) && q.Some? {
      assert |RebaseAll([q.value], g(i, entry.kids[q.value].value))| == |g(i, entry.kids[q.value].value)|;
    }
  }

  /** Nothing is planned for a body exactly when nothing is planned for any of its requests. */
  lemma NothingAnywhere(shape: Shape, v: Json, g: Plan)
    ensures PerRequest(shape, v, g) == [] <==>
            forall i: nat :: RequestAt(shape, v, i).Some? ==> g(i, RequestAt(shape, v, i).value) == []
  {
    if shape != AnthropicBatches {
      assert RequestAt(shape, v, 0) == Some(v);
    } else {
      var k := ListField(v, "requests");
      if k.Some? {
        var kids := v.kids[k.value].value.kids;
        var es := UpTo(kids, |kids|, EntryPlan(g));
        assert |RebaseAll([k.value], es)| == |es|;
        forall i | 0 <= i < |kids| ensures RequestAt(shape, v, i) == ParamsIn(kids[i].value) {
        }
        NothingListed(kids, g);
      }
    }
  }

  lemma NothingListed(kids: seq<Kid>, g: Plan)
    ensures UpTo(kids, |kids|, EntryPlan(g)) == [] <==>
            forall i: nat :: i < |kids| && ParamsIn(kids[i].value).Some? ==> g(i, ParamsIn(kids[i].value).value) == []
  {
    hide ParamsIn, EntryEdits;
    if UpTo(kids, |kids|, EntryPlan(g)) == [] {
      forall i: nat | i < |kids| && ParamsIn(kids[i].value).Some?
        ensures g(i, ParamsIn(kids[i].value).value) == []
      {
        NothingFrom(kids, |kids|, EntryPlan(g), i);
        EntryNothing(i, kids[i].value, g);
      }
    } else if forall i: nat :: i < |kids| && ParamsIn(kids[i].value).Some? ==>
                                 g(i, ParamsIn(kids[i].value).value) == [] {
      forall i | 0 <= i < |kids| ensures EntryPlan(g)(i, kids[i].value) == [] { EntryNothing(i, kids[i].value, g); }
      NoEdits(kids, |kids|, EntryPlan(g));
    }
  }

  // ----- the third stage, request by request -----

  /** A request that receives the tool, and any other one. */
  function WithTool(x: Json, i: nat, chosen: set<nat>, w: Wording): Json {
    var e := ToolAppend(x, AnthropicBatches, w);
    if i in chosen && e.Some? then Step(x, e.value) else x
  }

  lemma AppendResult(x: Json, i: nat, chosen: set<nat>, w: Wording)
    ensures var es := AppendPlan(AnthropicBatches, chosen, w)(i, x);
            Planned(x, es) && Edited(x, es) == WithTool(x, i, chosen, w)
  {
    hide ToolAppend;
    var e := ToolAppend(x, AnthropicBatches, w);
    if i in chosen && e.Some? {
      EditedOne(x, e.value);
    } else {
      EditedNothing(x);
    }
  }

  lemma WithToolNotNull(x: Json, i: nat, chosen: set<nat>, w: Wording)
    ensures IsNull(WithTool(x, i, chosen, w)) == IsNull(x)
  {
    hide Announced, RetrieveTool;
  }

  lemma ParamsReplaced(entry: Json, q: nat, x: Json)
    requires ViewOk(entry, {"params"}) && Field(entry, "params") == Some(q) && !IsNull(x)
    ensures ParamsIn(WithKid(entry, q, x)) == Some(x)
  {
    FieldNotNull(entry, "params");
    WithKidKeys(entry, q, x, "params");
  }

  lemma EntryTooled(i: nat, entry: Json, chosen: set<nat>, w: Wording)
    ensures var g := AppendPlan(AnthropicBatches, chosen, w);
            && Planned(entry, EntryEdits(i, entry, g))
            && ParamsIn(Edited(entry, EntryEdits(i, entry, g)))
               == if ParamsIn(entry).None? then None else Some(WithTool(ParamsIn(entry).value, i, chosen, w))
  {
    hide WithTool, AppendPlan;
    var g := AppendPlan(AnthropicBatches, chosen, w);
    AppendPlans(AnthropicBatches, chosen, w);
    EntryResult(i, entry, g);
    var q := Field(entry, "params");
    if ViewOk(entry, {"params"}) && q.Some? {
      var x := entry.kids[q.value].value;
      AppendResult(x, i, chosen, w);
      FieldNotNull(entry, "params");
      WithToolNotNull(x, i, chosen, w);
      ParamsReplaced(entry, q.value, WithTool(x, i, chosen, w));
    }
  }

  lemma ReplacedList(v: Json, k: nat, list: Json, i: nat)
    requires ListField(v, "requests") == Some(k) && IsList(list)
    ensures RequestAt(AnthropicBatches, WithKid(v, k, list), i)
            == if i >= |list.kids| then None else ParamsIn(list.kids[i].value)
  {
    hide ParamsIn;
    ListStays(v, k, list);
  }

  /** Injecting the tool into a batch injects it into each receiver. */
  lemma TooledRequest(v: Json, chosen: set<nat>, w: Wording, i: nat)
    ensures RequestAt(AnthropicBatches, Tooled(AnthropicBatches, v, chosen, w), i)
            == if RequestAt(AnthropicBatches, v, i).None? then None
               else Some(WithTool(RequestAt(AnthropicBatches, v, i).value, i, chosen, w))
  {
    hide WithTool, ParamsIn, AppendPlan, EntryEdits;
    var g := AppendPlan(AnthropicBatches, chosen, w);
    var k := ListField(v, "requests");
    RetrievePlanned(AnthropicBatches, v, chosen, w);
    if k.Some? {
      var list := v.kids[k.value].value;
      AppendPlans(AnthropicBatches, chosen, w);
      BatchResult(v, k.value, g);
      var mapped := Mapped(list, |list.kids|, EntryPlan(g));
      ReplacedList(v, k.value, mapped, i);
      if i < |list.kids| {
        EntryTooled(i, list.kids[i].value, chosen, w);
      }
    } else {
      assert RetrieveEdits(AnthropicBatches, v, chosen, w) == [];
    }
  }

  // ----- the second stage, request by request -----

  lemma WithKeys(x: Json, q: Path, node: Json)
    requires HasPath(x, q) && q != []
    ensures var y := With(x, q, node); x.Box? && y.Box? && y.isObj == x.isObj && Keys(y.kids) == Keys(x.kids)
  {
    hide Text;
  }

  /** Replacements strictly inside an object keep its keys. */
  lemma {:induction false} EditedKeys(v: Json, es: seq<Edit>, p: Path)
    requires Planned(v, es) && AllBeside(p, es) && HasPath(v, p) && At(v, p).Box?
    requires forall i :: 0 <= i < |es| ==> es[i].path != p
    ensures HasPath(Edited(v, es), p)
    ensures var x, y := At(v, p), At(Edited(v, es), p); y.Box? && y.isObj == x.isObj && Keys(y.kids) == Keys(x.kids)
    decreases |es|
  {
    hide Keys;
    if es != [] {
      var n := |es| - 1;
      var e := es[n];
      Peeled(v, es);
      StepInward(v, p, e);
      if !Apart(p, e.path) {
        assert e.path[|p|..] == [] ==> e.path == p;
        WithKeys(At(v, p), e.path[|p|..], e.node);
      }
      EditedKeys(Step(v, e), es[..n], p);
    }
  }

  /** Members of a batch entry with different keys lie apart, at any depth. */
  lemma KeysApart(v: Json, p: Path, r: Path)
    requires HasPath(v, p) && |p| == 4 && HasPath(v, r) && |r| >= 4
    requires Text(Trail(v, p)[3]) != Text(Trail(v, r)[3])
    ensures Apart(p, r)
  {
    var head := r[..4];
    TrailAt(v, p, 3);
    TrailAt(v, r, 3);
    assert head[..3] == r[..3] && head[3] == r[3];
    SameLengthApart(p, head);
    assert head + r[4..] == r && p + [] == p;
    if Before(p, head) { BeforeExtend(p, head, [], r[4..]); } else { BeforeExtend(head, p, r[4..], []); }
  }

  lemma PickOutside(v: Json, ctx: Context, hash: string -> string, st: StoreState, j: nat)
    requires j < |Picks(v, Candidates(AnthropicBatches, v, ctx), hash, st).0|
    ensures var r := Picks(v, Candidates(AnthropicBatches, v, ctx), hash, st).0[j].path;
            HasPath(v, r) && |r| >= 4 && Text(Trail(v, r)[3]) != "tools" && At(v, r).Str?
  {
    hide Text, BatchPaths, Picks, SlotOk;
    PickSlot(AnthropicBatches, v, ctx, hash, st, j);
    SlotOutside(AnthropicBatches, v, ctx.frozen, ctx.userText,
                Picks(v, Candidates(AnthropicBatches, v, ctx), hash, st).0[j].path);
  }

  lemma ToolsPath(v: Json, pp: Path, t: nat)
    requires |pp| == 3 && HasPath(v, pp) && KeyIndex(At(v, pp), "tools") == Some(t)
    ensures HasPath(v, pp + [t]) && At(v, pp + [t]) == At(v, pp).kids[t].value
    ensures Text(Trail(v, pp + [t])[3]) == "tools"
  {
    hide Text;
    var x := At(v, pp);
    AtOne(x, t);
    AtConcat(v, pp, [t]);
    TrailConcat(v, pp, [t]);
    TrailHead(x, [t]);
    KeyThere(x, t, "tools");
  }

  lemma StepBack(w: Json, pp: Path, t: nat)
    requires HasPath(w, pp + [t])
    ensures HasPath(w, pp) && At(w, pp).Box? && t < |At(w, pp).kids|
    ensures At(w, pp).kids[t].value == At(w, pp + [t])
  {
    UnderPath(w, pp, [t]);
  }

  lemma BatchToolsKept(v: Json, ctx: Context, hash: string -> string, st: StoreState, pp: Path, t: nat)
    requires |pp| == 3 && HasPath(v, pp) && KeyIndex(At(v, pp), "tools") == Some(t)
    ensures var w := Slotted(AnthropicBatches, v, ctx, hash, st);
            && HasPath(w, pp) && At(w, pp).Box? && t < |At(w, pp).kids|
            && At(w, pp).kids[t].value == At(v, pp).kids[t].value
  {
    hide Text, Slotted, Picks, Candidates, HasPath, At, Trail, Apart, KeyIndex;
    var picks, p := Picks(v, Candidates(AnthropicBatches, v, ctx), hash, st).0, pp + [t];
    ToolsPath(v, pp, t);
    forall i | 0 <= i < |picks| ensures Apart(p, picks[i].path) {
      PickOutside(v, ctx, hash, st, i);
      KeysApart(v, p, picks[i].path);
    }
    SlottedKeepsPath(AnthropicBatches, v, ctx, hash, st, p);
    StepBack(Slotted(AnthropicBatches, v, ctx, hash, st), pp, t);
  }

  lemma EditsElsewhere(v: Json, ctx: Context, hash: string -> string, st: StoreState, pp: Path, i: nat)
    requires HasPath(v, pp) && At(v, pp).Box?
    requires var picks := Picks(v, Candidates(AnthropicBatches, v, ctx), hash, st).0;
             i < |picks| && multiset(SlotEdits(picks)) == multiset(SlotEditsOf(picks))
    ensures SlotEdits(Picks(v, Candidates(AnthropicBatches, v, ctx), hash, st).0)[i].path != pp
  {
    hide Picks, Candidates, SlotEdits, SlotEditsOf, HasPath, At, Trail, Text;
    var picks := Picks(v, Candidates(AnthropicBatches, v, ctx), hash, st).0;
    SlotEditFrom(picks, i);
    var j :| 0 <= j < |picks| && SlotEdits(picks)[i] == SlotEdit(picks[j]);
    PickOutside(v, ctx, hash, st, j);
  }

  lemma BatchKeysKept(v: Json, ctx: Context, hash: string -> string, st: StoreState, pp: Path)
    requires HasPath(v, pp) && At(v, pp).Box?
    ensures var w := Slotted(AnthropicBatches, v, ctx, hash, st);
            && HasPath(w, pp) && At(w, pp).Box? && At(w, pp).isObj == At(v, pp).isObj
            && Keys(At(w, pp).kids) == Keys(At(v, pp).kids)
  {
    hide Keys, Candidates, Picks, HasPath, At, AllBeside, Planned;
    var picks := Picks(v, Candidates(AnthropicBatches, v, ctx), hash, st).0;
    var es := SlotEdits(picks);
    SlotsPlanned(AnthropicBatches, v, ctx, hash, st);
    TokensBeside(AnthropicBatches, v, ctx, hash, st, pp);
    forall i | 0 <= i < |es| ensures es[i].path != pp { EditsElsewhere(v, ctx, hash, st, pp, i); }
    EditedKeys(v, es, pp);
  }

  /** Where the params of an entry stand. */
  lemma RequestPath(v: Json, i: nat) returns (pp: Path)
    requires RequestAt(AnthropicBatches, v, i).Some?
    ensures ParamsPath(v, pp) && pp[1] == i && HasPath(v, pp) && RequestAt(AnthropicBatches, v, i) == Some(At(v, pp))
  {
    var k := ListField(v, "requests").value;
    pp := [k, i, Field(v.kids[k].value.kids[i].value, "params").value];
    ParamsAt(v, pp);
  }

  lemma SamePath(v: Json, w: Json, pp: Path)
    requires Alike(v, w) && ParamsPath(v, pp)
    ensures ParamsPath(w, pp) && HasPath(v, pp) && HasPath(w, pp) && Alike(At(v, pp), At(w, pp))
    ensures RequestAt(AnthropicBatches, w, pp[1]) == Some(At(w, pp))
  {
    hide Alike, ViewOk, KeyIndex;
    AlikeList(v, w, "requests");
    ListKids(v.kids[pp[0]].value, w.kids[pp[0]].value);
    var a, b := v.kids[pp[0]].value.kids[pp[1]].value, w.kids[pp[0]].value.kids[pp[1]].value;
    AlikeView(a, b, {"params"});
    AlikeField(a, b, "params");
    ParamsAt(v, pp);
    ParamsAt(w, pp);
  }

  lemma SameRequests(v: Json, w: Json, i: nat)
    requires Alike(v, w)
    ensures RequestAt(AnthropicBatches, v, i).Some? == RequestAt(AnthropicBatches, w, i).Some?
  {
    hide Alike, ViewOk, KeyIndex;
    AlikeList(v, w, "requests");
    var k := ListField(v, "requests");
    if k.Some? {
      ListKids(v.kids[k.value].value, w.kids[k.value].value);
      if i < |v.kids[k.value].value.kids| {
        var a, b := v.kids[k.value].value.kids[i].value, w.kids[k.value].value.kids[i].value;
        AlikeView(a, b, {"params"});
        AlikeField(a, b, "params");
      }
    }
  }

  /** Compressing a batch touches nothing the normaliser reads of an entry. */
  lemma SlottedRequest(v: Json, ctx: Context, hash: string -> string, st: StoreState, i: nat)
    ensures var w := Slotted(AnthropicBatches, v, ctx, hash, st);
            var x, y := RequestAt(AnthropicBatches, v, i), RequestAt(AnthropicBatches, w, i);
            x.Some? == y.Some? && (x.Some? ==> SameTools(x.value, y.value))
  {
    hide Alike, SameTools, Slotted, RequestAt, ParamsPath, KeyIndex;
    var w := Slotted(AnthropicBatches, v, ctx, hash, st);
    SlottedAlike(AnthropicBatches, v, ctx, hash, st);
    SameRequests(v, w, i);
    if RequestAt(AnthropicBatches, v, i).Some? {
      var pp := RequestPath(v, i);
      SamePath(v, w, pp);
      var x, y := At(v, pp), At(w, pp);
      AlikeObject(x, y);
      if Object(x) {
        BatchKeysKept(v, ctx, hash, st, pp);
        var t := KeyIndex(x, "tools");
        if t.Some? { BatchToolsKept(v, ctx, hash, st, pp, t.value); }
        SameMembers(x, y);
      } else {
        NoList(x, y);
      }
    }
  }

  // ----- when a request needs normalising a second time -----

  /** The requests that receive the retrieve tool. */
  function Chosen(shape: Shape, d: Doc, prim: Primitives, s: Stages): set<nat> {
    Receivers(shape, s.picks, HasMarker(Sem(d.root, prim.number)))
  }

  /** A request gets no tool, or a tool that stays. */
  predicate Settles(x: Json, shape: Shape, prim: Primitives) {
    ToolAppend(x, shape, prim.wording).Some? ==> Stays(x, shape, prim)
  }

  /** Every request that receives the tool has it already, or keeps it where it was put. */
  predicate ToolsStay(shape: Shape, d: Doc, ctx: Context, prim: Primitives, st: StoreState) {
    var s := Rewrite(shape, d.root, ctx, prim, st);
    forall i :: i in Chosen(shape, d, prim, s) && RequestAt(shape, s.normal, i).Some?
                ==> Settles(RequestAt(shape, s.normal, i).value, shape, prim)
  }

  lemma WithToolSettles(x: Json, y: Json, i: nat, chosen: set<nat>, prim: Primitives)
    requires SameTools(x, y) && ToolEdits(x, true, prim) == []
    ensures ToolEdits(WithTool(y, i, chosen, prim.wording), true, prim) == []
            <==> (i in chosen ==> Settles(x, AnthropicBatches, prim))
  {
    hide ToolEdits, SameTools, Stays, ToolAppend;
    SameToolEdits(x, y, true, prim);
    SameAppend(x, y, AnthropicBatches, prim.wording);
    if i in chosen && ToolAppend(y, AnthropicBatches, prim.wording).Some? {
      AddedSettles(y, AnthropicBatches, prim);
      SameStays(x, y, AnthropicBatches, prim);
    }
  }

  lemma BatchRequest(d: Doc, ctx: Context, prim: Primitives, st: StoreState, s: Stages, i: nat)
    requires Adorned(ctx) && WfDoc(d) && GoodNumbers(prim.number)
    requires s == Rewrite(AnthropicBatches, d.root, ctx, prim, st)
    ensures var x, y := RequestAt(AnthropicBatches, s.normal, i), RequestAt(AnthropicBatches, s.tooled, i);
            && x.Some? == y.Some?
            && (x.Some? ==> (ToolEdits(y.value, true, prim) == []
                             <==> (i in Chosen(AnthropicBatches, d, prim, s) ==>
                                     Settles(x.value, AnthropicBatches, prim))))
  {
    hide ToolEdits, RequestAt, Settles, WithTool, Slotted, Tooled, Receivers;
    BatchSettles(d.root, prim);
    NothingAnywhere(AnthropicBatches, s.normal, NormalizePlan(true, prim));
    SlottedRequest(s.normal, ctx, prim.hash, st, i);
    TooledRequest(s.slotted, Chosen(AnthropicBatches, d, prim, s), prim.wording, i);
    var x := RequestAt(AnthropicBatches, s.normal, i);
    if x.Some? {
      WithToolSettles(x.value, RequestAt(AnthropicBatches, s.slotted, i).value, i,
                      Chosen(AnthropicBatches, d, prim, s), prim);
    }
  }

  /** A batch needs normalising a second time exactly when some entry got a tool that does not stay. */
  lemma BatchExactly(d: Doc, ctx: Context, prim: Primitives, st: StoreState)
    requires Adorned(ctx) && WfDoc(d) && GoodNumbers(prim.number)
    ensures MetadataEdits(AnthropicBatches, Final(AnthropicBatches, d, ctx, prim, st), prim) == []
            <==> ToolsStay(AnthropicBatches, d, ctx, prim, st)
  {
    hide ToolEdits, RequestAt, Settles, Receivers;
    var s := Rewrite(AnthropicBatches, d.root, ctx, prim, st);
    NothingAnywhere(AnthropicBatches, s.tooled, NormalizePlan(true, prim));
    forall i: nat
      ensures var x, y := RequestAt(AnthropicBatches, s.normal, i), RequestAt(AnthropicBatches, s.tooled, i);
              && x.Some? == y.Some?
              && (x.Some? ==> (ToolEdits(y.value, true, prim) == []
                               <==> (i in Chosen(AnthropicBatches, d, prim, s) ==>
                                       Settles(x.value, AnthropicBatches, prim))))
    {
      BatchRequest(d, ctx, prim, st, s, i);
    }
  }

  /**
   * A rewritten body needs normalising a second time exactly when the first pass added the retrieve
   * tool to a request where it does not stay: another tool sorts behind it and no breakpoint pins
   * the order, or a breakpoint is still to be placed on it.
   */
  lemma NormalExactly(shape: Shape, d: Doc, ctx: Context, prim: Primitives, st: StoreState)
    requires Adorned(ctx) && WfDoc(d) && GoodNumbers(prim.number) && GoodKeys(prim)
    ensures MetadataEdits(shape, Final(shape, d, ctx, prim, st), prim) == [] <==> ToolsStay(shape, d, ctx, prim, st)
  {
    if shape == AnthropicBatches {
      BatchExactly(d, ctx, prim, st);
    } else {
      var s := Rewrite(shape, d.root, ctx, prim, st);
      SingleExactly(shape, d, ctx, prim, st, s, Final(shape, d, ctx, prim, st));
      SingleStays(shape, d, ctx, prim, st);
    }
  }

  lemma SingleStays(shape: Shape, d: Doc, ctx: Context, prim: Primitives, st: StoreState)
    requires shape != AnthropicBatches
    ensures ToolsStay(shape, d, ctx, prim, st) <==>
            !Adds(shape, d, ctx, prim, st) || Stays(Rewrite(shape, d.root, ctx, prim, st).normal, shape, prim)
  {
    hide Rewrite, Stays, ToolAppend, HasMarker, Sem;
    var s := Rewrite(shape, d.root, ctx, prim, st);
    OneReceiver(shape, s.picks, HasMarker(Sem(d.root, prim.number)));
    assert RequestAt(shape, s.normal, 0) == Some(s.normal);
  }

  /**
   * With provider metadata and a store whose writes succeed, rewriting a rewritten body of any
   * shape changes nothing exactly when every tool the first pass added stays where it was put, or
   * when the first pass was misled and left no JSON to rewrite.
   */
  lemma FixedPoints(shape: Shape, d: Doc, ctx: Context, prim: Primitives, st: StoreState, later: StoreState)
    requires WfDoc(d) && !MultiChoice(shape, d.root) && ctx.metadata && ctx.auth == Payg && st.outcomes == []
    requires GoodNumbers(prim.number) && GoodKeys(prim) && QuietKeys(prim)
    ensures var out := Rewritten(RenderDoc(d), shape, ctx, prim, st).0.body;
            Rewritten(out, shape, ctx, prim, later) == (Outcome(out, false, []), later)
            <==> Misled(shape, d, ctx) || ToolsStay(shape, d, ctx, prim, st)
  {
    hide Rewritten, MultiChoice, MetadataEdits, ToolsStay, RenderDoc;
    FixedExactly(shape, d, ctx, prim, st, later);
    NormalExactly(shape, d, ctx, prim, st);
  }

  // ----- which requests receive the tool -----

  /** Some candidate of the client's request is compressed, in the given entry of a batch. */
  predicate Compresses(shape: Shape, v: Json, ctx: Context, hash: string -> string, i: nat) {
    exists p :: p in Candidates(shape, v, ctx) && Gate(TextAt(v, p), hash)
                && (shape == AnthropicBatches ==> |p| >= 2 && p[1] == i)
  }

  /** Normalising changes neither the candidates nor their texts. */
  lemma SameCandidates(shape: Shape, v: Json, ctx: Context, prim: Primitives)
    ensures var w := Normalized(shape, v, ctx, prim);
            && Candidates(shape, w, ctx) == Candidates(shape, v, ctx)
            && forall p :: p in Candidates(shape, v, ctx) ==> TextAt(w, p) == TextAt(v, p)
  {
    var w := Normalized(shape, v, ctx, prim);
    NormalizedAlike(shape, v, ctx, prim);
    SameSlots(shape, v, w, ctx.frozen, ctx.userText);
    forall p | p in Candidates(shape, v, ctx) ensures TextAt(w, p) == TextAt(v, p) {
      CandidateBefore(shape, v, ctx, prim, p);
    }
  }

  lemma PickedExactly(v: Json, ps: seq<Path>, hash: string -> string, st: StoreState, p: Path)
    requires st.outcomes == []
    ensures var picks := Picks(v, ps, hash, st).0;
            (exists j :: 0 <= j < |picks| && picks[j].path == p) <==> p in ps && Gate(TextAt(v, p), hash)
  {
    hide Gate, TextAt, Picks;
    PicksAll(v, ps, hash, st);
    PicksChosen(v, ps, hash, st);
  }

  predicate Picked(shape: Shape, picks: seq<Pick>, i: nat) {
    exists j :: 0 <= j < |picks| && (shape == AnthropicBatches ==> |picks[j].path| >= 2 && picks[j].path[1] == i)
  }

  lemma CompressesExactly(shape: Shape, v: Json, ctx: Context, prim: Primitives, st: StoreState, i: nat)
    requires st.outcomes == []
    ensures var w := Normalized(shape, v, ctx, prim);
            var picks := Picks(w, Candidates(shape, w, ctx), prim.hash, st).0;
            Compresses(shape, v, ctx, prim.hash, i) <==> Picked(shape, picks, i)
  {
    hide Gate, TextAt, Picks, Candidates, Normalized;
    var w := Normalized(shape, v, ctx, prim);
    var ps := Candidates(shape, w, ctx);
    var picks := Picks(w, ps, prim.hash, st).0;
    SameCandidates(shape, v, ctx, prim);
    if Compresses(shape, v, ctx, prim.hash, i) {
      var p :| p in Candidates(shape, v, ctx) && Gate(TextAt(v, p), prim.hash)
               && (shape == AnthropicBatches ==> |p| >= 2 && p[1] == i);
      PickedExactly(w, ps, prim.hash, st, p);
      var j :| 0 <= j < |picks| && picks[j].path == p;
      assert Picked(shape, picks, i);
    }
    if Picked(shape, picks, i) {
      var j :| 0 <= j < |picks| && (shape == AnthropicBatches ==> |picks[j].path| >= 2 && picks[j].path[1] == i);
      PickedExactly(w, ps, prim.hash, st, picks[j].path);
    }
  }

  /** Receivers are known before the pass: compressed entries, or a request compressed or marked. */
  lemma ReceiversExactly(shape: Shape, d: Doc, ctx: Context, prim: Primitives, st: StoreState, i: nat)
    requires st.outcomes == []
    ensures i in Chosen(shape, d, prim, Rewrite(shape, d.root, ctx, prim, st)) <==>
            if shape == AnthropicBatches then Compresses(shape, d.root, ctx, prim.hash, i)
            else i == 0 && (Compresses(shape, d.root, ctx, prim.hash, i) || HasMarker(Sem(d.root, prim.number)))
  {
    hide Candidates, HasMarker, Sem, Picks, Normalized, Slotted, Tooled, Compresses;
    CompressesExactly(shape, d.root, ctx, prim, st, i);
    var picks := Rewrite(shape, d.root, ctx, prim, st).picks;
    if picks != [] { assert |picks[0].path| >= 0; }
  }
}
