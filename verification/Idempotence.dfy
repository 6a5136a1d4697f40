/** Without provider metadata, rewriting a rewritten request changes nothing. */
module Idempotence {
  import opened Json
  import opened JsonParser
  import opened JsonEdits
  import opened EditLists
  import opened Values
  import opened Ccr
  import opened LiveZone
  import opened Tools
  import opened Injections
  import opened Resemblance
  import opened Rewriting
  import opened StageFacts
  import opened Preservation
  import opened FrozenPrefix
  import opened Reversal
  import opened Rewriter

  // ----- candidates lie outside the tools -----

  lemma SlotOutside(shape: Shape, v: Json, floor: nat, userText: bool, p: Path)
    requires p in SlotPaths(shape, v, floor, userText)
    ensures OutsideTools(shape, v, p) && At(v, p).Str?
  {
    hide ChatPaths, ResponsesPaths, RequestPaths, Live, Text, HasPath, Trail, ListField, Prefixed;
    PlannedSlots(shape, v, floor, userText);
    var i :| 0 <= i < |SlotPaths(shape, v, floor, userText)| && SlotPaths(shape, v, floor, userText)[i] == p;
    assert SlotOk(v, p, userText);
    if shape == AnthropicBatches {
      BatchSlotOutside(v, userText, p);
    } else {
      SlotsInZone(shape, v, floor, userText);
      LiveKey(shape, v, floor);
      TrailHead(v, p);
      NotTools(Text(v.kids[p[0]].key));
    }
  }

  lemma BatchSlotOutside(v: Json, userText: bool, p: Path)
    requires p in BatchPaths(v, userText) && HasPath(v, p)
    ensures OutsideTools(AnthropicBatches, v, p)
  {
    BatchSlot(v, userText, p);
    ParamsAt(v, p[..3]);
    var x := At(v, p[..3]);
    LiveKey(AnthropicMessages, x, 0);
    TrailAt(v, p, 3);
    NotTools(Text(x.kids[p[3]].key));
  }

  // ----- the rewritten request resembles the original -----

  predicate SlotPut(v: Json, e: Edit, userText: bool) { e.Put? && e.node.Str? && SlotOk(v, e.path, userText) }

  lemma {:induction false} AlikeEdited(v: Json, w: Json, es: seq<Edit>, userText: bool)
    requires Alike(v, w) && Planned(w, es) && forall i :: 0 <= i < |es| ==> SlotPut(v, es[i], userText)
    ensures Alike(v, Edited(w, es))
    decreases |es|
  {
    if es != [] {
      var e := es[|es| - 1];
      LastStable(w, es);
      assert SlotPut(v, e, userText);
      AlikeSlot(v, w, e.path, userText, e.node.body);
      AlikeEdited(v, Step(w, e), es[..|es| - 1], userText);
    }
  }

  lemma SlottedAlike(shape: Shape, v: Json, ctx: Context, hash: string -> string, st: StoreState)
    ensures Alike(v, Slotted(shape, v, ctx, hash, st))
  {
    var picks := Picks(v, Candidates(shape, v, ctx), hash, st).0;
    SlotsPlanned(shape, v, ctx, hash, st);
    var es := SlotEdits(picks);
    forall i | 0 <= i < |es| ensures SlotPut(v, es[i], ctx.userText) {
      SlotEditFrom(picks, i);
      var j :| 0 <= j < |picks| && es[i] == SlotEdit(picks[j]);
      PickSlot(shape, v, ctx, hash, st, j);
    }
    AlikeSelf(v);
    AlikeEdited(v, v, es, ctx.userText);
  }

  lemma AlikeObject(v: Json, w: Json)
    requires Alike(v, w)
    ensures Object(v) == Object(w) && v.Box? == w.Box?
  {
  }

  /** Appending the retrieve tool to a request. */
  lemma AppendAlike(v: Json, w: Json, shape: Shape, wording: Wording)
    requires Alike(v, w) && ToolAppend(w, shape, wording).Some?
    ensures Alike(v, Step(w, ToolAppend(w, shape, wording).value))
  {
    var e := ToolAppend(w, shape, wording).value;
    AlikeObject(v, w);
    if e.path == [] {
      ToolsKey(shape, wording);
      AlikeAdded(v, w, ToolsMember(shape, wording));
    } else {
      var k := e.path[0];
      AtOne(w, k);
      WithOne(w, k, Extended(w.kids[k].value, ToolKid(shape, wording)));
      AlikeReplaced(v, w, k, Extended(w.kids[k].value, ToolKid(shape, wording)));
    }
  }

  /** Plans for a request that change nothing a planner of candidates reads. */
  ghost predicate PlansAlike(g: Plan) {
    && Plans(g)
    && (forall i, x, y :: Alike(x, y) ==> Alike(x, Edited(y, g(i, y))))
    && (forall i, y: Json :: !y.Box? ==> g(i, y) == [])
  }

  lemma AppendsAlike(shape: Shape, chosen: set<nat>, wording: Wording)
    ensures PlansAlike(AppendPlan(shape, chosen, wording))
  {
    var g := AppendPlan(shape, chosen, wording);
    AppendPlans(shape, chosen, wording);
    forall i: nat, x: Json, y: Json | Alike(x, y) ensures Alike(x, Edited(y, g(i, y))) {
      var e := ToolAppend(y, shape, wording);
      if i in chosen && e.Some? {
        AppendAlike(x, y, shape, wording);
        EditedOne(y, e.value);
      }
    }
  }

  lemma NormalizesAlike(anthropic: bool, prim: Primitives)
    ensures PlansAlike(NormalizePlan(anthropic, prim))
  {
    var g := NormalizePlan(anthropic, prim);
    NormalizePlans(anthropic, prim);
    forall i: nat, x: Json, y: Json | Alike(x, y) ensures Alike(x, Edited(y, g(i, y))) {
      if ToolList(y).Some? {
        var k := ToolList(y).value;
        NormalizedTools(y, anthropic, prim);
        FieldKey(y, "tools");
        AlikeObject(x, y);
        AlikeReplaced(x, y, k, Edited(y, g(i, y)).kids[k].value);
      }
    }
  }

  lemma WithKidAlike(v: Json, w: Json, k: nat, x: Json)
    requires Alike(v, w) && v.Box? && k < |v.kids| && v.kids[k].value.Box? && Alike(v.kids[k].value, x)
    ensures w.Box? && k < |w.kids| && Alike(v, WithKid(w, k, x))
  {
    AtOne(v, k);
    AtOne(w, k);
    WithOne(w, k, x);
    AlikeWith(v, w, [k], x);
  }

  lemma EntryAlike(a: Json, b: Json, i: nat, g: Plan)
    requires Alike(a, b) && PlansAlike(g)
    ensures Planned(b, EntryEdits(i, b, g)) && Alike(a, Edited(b, EntryEdits(i, b, g)))
  {
    EntryResult(i, b, g);
    var q := Field(b, "params");
    if ViewOk(b, {"params"}) && q.Some? {
      AlikeField(a, b, "params");
      var x, y := a.kids[q.value].value, b.kids[q.value].value;
      AlikeObject(x, y);
      if x.Box? {
        WithKidAlike(a, b, q.value, Edited(y, g(i, y)));
      } else {
        assert g(i, y) == [];
        assert WithKid(b, q.value, y) == b;
      }
    }
  }

  lemma EntryString(b: Json, i: nat, g: Plan)
    requires b.Str?
    ensures EntryEdits(i, b, g) == []
  {
  }

  lemma EntriesAlike(a: Json, b: Json, g: Plan)
    requires Alike(a, b) && IsList(a) && PlansAlike(g)
    ensures IsList(b)
    ensures PlansKids(b, |b.kids|, EntryPlan(g)) && Alike(a, Mapped(b, |b.kids|, EntryPlan(g)))
  {
    EntriesPlanned(b, g);
    ListKids(a, b);
    var m := Mapped(b, |b.kids|, EntryPlan(g));
    forall i | 0 <= i < |a.kids| ensures KidAlike(false, a.kids[i], m.kids[i]) {
      assert KidAlike(false, a.kids[i], b.kids[i]);
      EntryAlike(a.kids[i].value, b.kids[i].value, i, g);
      if a.kids[i].value.Str? { EntryString(b.kids[i].value, i, g); }
    }
  }

  lemma PerRequestAlike(shape: Shape, v: Json, w: Json, g: Plan)
    requires Alike(v, w) && PlansAlike(g)
    ensures Planned(w, PerRequest(shape, w, g)) && Alike(v, Edited(w, PerRequest(shape, w, g)))
  {
    PerRequestPlanned(shape, w, g);
    if shape == AnthropicBatches {
      AlikeList(v, w, "requests");
      var k := ListField(w, "requests");
      if k.Some? {
        BatchResult(w, k.value, g);
        EntriesAlike(v.kids[k.value].value, w.kids[k.value].value, g);
        var list := w.kids[k.value].value;
        WithKidAlike(v, w, k.value, Mapped(list, |list.kids|, EntryPlan(g)));
      }
    }
  }

  lemma TooledAlike(shape: Shape, v: Json, w: Json, chosen: set<nat>, wording: Wording)
    requires Alike(v, w)
    ensures Alike(v, Tooled(shape, w, chosen, wording))
  {
    AppendsAlike(shape, chosen, wording);
    PerRequestAlike(shape, v, w, AppendPlan(shape, chosen, wording));
  }

  lemma NormalizedAlike(shape: Shape, v: Json, ctx: Context, prim: Primitives)
    ensures Alike(v, Normalized(shape, v, ctx, prim))
  {
    AlikeSelf(v);
    if Adorned(ctx) {
      NormalizesAlike(Anthropic(shape), prim);
      PerRequestAlike(shape, v, v, NormalizePlan(Anthropic(shape), prim));
    }
  }

  lemma SameChoice(shape: Shape, v: Json, w: Json)
    requires Alike(v, w)
    ensures MultiChoice(shape, v) == MultiChoice(shape, w)
  {
    AlikeLookup(v, w, "n");
  }

  // ----- the second pass picks nothing -----

  /** With a store that never fails every candidate past the gate is picked. */
  lemma {:induction false} PicksAll(v: Json, ps: seq<Path>, hash: string -> string, st: StoreState)
    requires st.outcomes == []
    ensures var (picks, end) := Picks(v, ps, hash, st);
            && end.outcomes == []
            && forall p :: p in ps && Gate(TextAt(v, p), hash) ==> exists i :: 0 <= i < |picks| && picks[i].path == p
  {
    hide Gate, TextAt;
    if ps != [] {
      var text := TextAt(v, ps[0]);
      var next := if Gate(text, hash) then PutResult(st, hash(text), text).1 else st;
      PicksAll(v, ps[1..], hash, next);
      var rest := Picks(v, ps[1..], hash, next).0;
      var picks := Picks(v, ps, hash, st).0;
      assert Gate(text, hash) ==> picks == [Pick(ps[0], text, hash(text))] + rest;
      forall p | p in ps && Gate(TextAt(v, p), hash) ensures exists i :: 0 <= i < |picks| && picks[i].path == p {
        if p in ps[1..] {
          var i :| 0 <= i < |rest| && rest[i].path == p;
          assert picks[if Gate(text, hash) then i + 1 else i].path == p;
        } else {
          assert p == ps[0] && picks[0].path == p;
        }
      }
    }
  }

  lemma {:induction false} NoPicks(w: Json, ps: seq<Path>, hash: string -> string, st: StoreState)
    requires forall i :: 0 <= i < |ps| ==> !Gate(TextAt(w, ps[i]), hash)
    ensures Picks(w, ps, hash, st) == ([], st)
  {
    if ps != [] {
      assert !Gate(TextAt(w, ps[0]), hash);
      NoPicks(w, ps[1..], hash, st);
    }
  }

  lemma MarkedText(h: string, hash: string -> string)
    ensures !Gate(Text(Encode(Marker(h))), hash)
  {
    DecodeEncode(Marker(h));
    assert StartsWith(Marker(h), OPENER);
  }

  lemma PickedSettled(shape: Shape, v: Json, ctx: Context, hash: string -> string, st: StoreState, i: nat)
    requires i < |Picks(v, Candidates(shape, v, ctx), hash, st).0|
    ensures !Gate(TextAt(Slotted(shape, v, ctx, hash, st), Picks(v, Candidates(shape, v, ctx), hash, st).0[i].path),
            hash)
  {
    hide Gate, Candidates, Picks, Marker;
    var picks := Picks(v, Candidates(shape, v, ctx), hash, st).0;
    SlotsPlanned(shape, v, ctx, hash, st);
    var j := SlotIndex(picks, i);
    EditedHere(v, SlotEdits(picks), j);
    MarkedText(picks[i].hash, hash);
  }

  lemma UnpickedSettled(shape: Shape, v: Json, ctx: Context, hash: string -> string, st: StoreState, p: Path)
    requires st.outcomes == [] && p in Candidates(shape, v, ctx)
    requires var picks := Picks(v, Candidates(shape, v, ctx), hash, st).0;
             forall i :: 0 <= i < |picks| ==> picks[i].path != p
    ensures !Gate(TextAt(Slotted(shape, v, ctx, hash, st), p), hash)
  {
    hide Gate, Picks, Slotted, SlotPaths, Live;
    var picks := Picks(v, Candidates(shape, v, ctx), hash, st).0;
    PicksAll(v, Candidates(shape, v, ctx), hash, st);
    SlotOutside(shape, v, ctx.frozen, ctx.userText, p);
    forall i | 0 <= i < |picks| ensures Apart(p, picks[i].path) {
      PickSlot(shape, v, ctx, hash, st, i);
      LeavesApart(v, p, picks[i].path);
    }
    SlottedKeepsPath(shape, v, ctx, hash, st, p);
  }

  /** What a candidate holds after compression no longer passes the gate. */
  lemma SlotSettled(shape: Shape, v: Json, ctx: Context, hash: string -> string, st: StoreState, p: Path)
    requires st.outcomes == [] && p in Candidates(shape, v, ctx)
    ensures !Gate(TextAt(Slotted(shape, v, ctx, hash, st), p), hash)
  {
    hide Gate, Candidates, Picks, Slotted;
    var picks := Picks(v, Candidates(shape, v, ctx), hash, st).0;
    if i :| 0 <= i < |picks| && picks[i].path == p {
      PickedSettled(shape, v, ctx, hash, st, i);
    } else {
      UnpickedSettled(shape, v, ctx, hash, st, p);
    }
  }

  lemma SecondPicks(shape: Shape, v: Json, ctx: Context, prim: Primitives, st: StoreState, chosen: set<nat>,
                    later: StoreState)
    requires st.outcomes == []
    ensures var w := Tooled(shape, Slotted(shape, v, ctx, prim.hash, st), chosen, prim.wording);
            && Alike(v, w) && Candidates(shape, w, ctx) == Candidates(shape, v, ctx)
            && Picks(w, Candidates(shape, w, ctx), prim.hash, later) == ([], later)
  {
    var slotted := Slotted(shape, v, ctx, prim.hash, st);
    var w := Tooled(shape, slotted, chosen, prim.wording);
    SlottedAlike(shape, v, ctx, prim.hash, st);
    TooledAlike(shape, v, slotted, chosen, prim.wording);
    SameSlots(shape, v, w, ctx.frozen, ctx.userText);
    SameSlots(shape, v, slotted, ctx.frozen, ctx.userText);
    var ps := Candidates(shape, v, ctx);
    forall i | 0 <= i < |ps| ensures !Gate(TextAt(w, ps[i]), prim.hash) {
      SlotSettled(shape, v, ctx, prim.hash, st, ps[i]);
      SlotOutside(shape, slotted, ctx.frozen, ctx.userText, ps[i]);
      TooledKeepsPath(shape, slotted, chosen, prim.wording, ps[i]);
    }
    NoPicks(w, ps, prim.hash, later);
  }

  // ----- the second pass injects nothing -----

  lemma {:induction false} NoEntries(kids: seq<Kid>, n: nat, g: Plan)
    requires n <= |kids| && forall i, x :: g(i, x) == []
    ensures UpTo(kids, n, EntryPlan(g)) == []
  {
    if n > 0 {
      NoEntries(kids, n - 1, g);
      assert EntryEdits(n - 1, kids[n - 1].value, g) == [];
    }
  }

  lemma NothingChosen(shape: Shape, v: Json, w: Wording)
    ensures Tooled(shape, v, {}, w) == v
  {
    var g := AppendPlan(shape, {}, w);
    forall i: nat, x: Json ensures g(i, x) == [] {}
    var k := ListField(v, "requests");
    if shape == AnthropicBatches && k.Some? { NoEntries(v.kids[k.value].value.kids, |v.kids[k.value].value.kids|, g); }
    assert RetrieveEdits(shape, v, {}, w) == [];
  }

  lemma AlreadyThere(shape: Shape, v: Json, chosen: set<nat>, w: Wording)
    requires shape != AnthropicBatches && ToolAppend(v, shape, w).None?
    ensures Tooled(shape, v, chosen, w) == v
  {
    assert RetrieveEdits(shape, v, chosen, w) == [];
  }

  lemma InjectedOnce(shape: Shape, v: Json, w: Wording)
    requires shape != AnthropicBatches
    ensures ToolAppend(Tooled(shape, v, {0}, w), shape, w).None?
  {
    var e := ToolAppend(v, shape, w);
    if e.Some? {
      ToolAppendOnce(v, shape, w);
      EditedOne(v, e.value);
      assert RetrieveEdits(shape, v, {0}, w) == [e.value];
    } else {
      AlreadyThere(shape, v, {0}, w);
    }
  }

  lemma NothingSlotted(shape: Shape, v: Json, ctx: Context, hash: string -> string, st: StoreState)
    requires Picks(v, Candidates(shape, v, ctx), hash, st).0 == []
    ensures Slotted(shape, v, ctx, hash, st) == v
  {
    SlotsPlanned(shape, v, ctx, hash, st);
    assert SlotEdits([]) == [];
  }

  lemma Unadorned(shape: Shape, v: Json, ctx: Context, prim: Primitives)
    requires !Adorned(ctx)
    ensures Normalized(shape, v, ctx, prim) == v
  {
  }

  lemma SecondRewrite(shape: Shape, v: Json, ctx: Context, prim: Primitives, st: StoreState, later: StoreState)
    requires !Adorned(ctx) && st.outcomes == []
    ensures var w := Rewrite(shape, v, ctx, prim, st).tooled;
            Alike(v, w) && Rewrite(shape, w, ctx, prim, later) == Stages(w, [], w, w, later)
  {
    Unadorned(shape, v, ctx, prim);
    var s := Rewrite(shape, v, ctx, prim, st);
    var marked := HasMarker(Sem(v, prim.number));
    var chosen := Receivers(shape, s.picks, marked);
    RewriteParts(shape, v, ctx, prim, st, v, marked);
    var w := s.tooled;
    SecondPicks(shape, v, ctx, prim, st, chosen, later);
    Unadorned(shape, w, ctx, prim);
    NothingSlotted(shape, w, ctx, prim.hash, later);
    var again := HasMarker(Sem(w, prim.number));
    RewriteParts(shape, w, ctx, prim, later, w, again);
    SecondTooled(shape, v, s, chosen, marked, w, again, prim, ctx, st);
  }

  lemma SecondTooled(shape: Shape, v: Json, s: Stages, chosen: set<nat>, marked: bool, w: Json, again: bool,
                     prim: Primitives, ctx: Context, st: StoreState)
    requires chosen == Receivers(shape, s.picks, marked) && marked == HasMarker(Sem(v, prim.number))
    requires s.picks == Picks(v, Candidates(shape, v, ctx), prim.hash, st).0
    requires s.slotted == Slotted(shape, v, ctx, prim.hash, st) && w == Tooled(shape, s.slotted, chosen, prim.wording)
    requires again == HasMarker(Sem(w, prim.number))
    ensures Tooled(shape, w, Receivers(shape, [], again), prim.wording) == w
  {
    NothingChosen(shape, w, prim.wording);
    if shape == AnthropicBatches {
      assert Receivers(shape, [], again) == {};
    } else if s.picks == [] && !marked {
      NothingSlotted(shape, v, ctx, prim.hash, st);
      NothingChosen(shape, v, prim.wording);
    } else {
      InjectedOnce(shape, s.slotted, prim.wording);
      AlreadyThere(shape, w, Receivers(shape, [], again), prim.wording);
    }
  }

  /**
   * Idempotence: without provider metadata and with a store whose writes succeed, the output
   * of the rewriter is a fixed point of the rewriter, for every body of every shape and
   * whatever the store looks like by then.
   */
  lemma RewriteTwice(body: string, shape: Shape, ctx: Context, prim: Primitives, st: StoreState, later: StoreState)
    requires GoodNumbers(prim.number) && !(ctx.metadata && ctx.auth == Payg) && st.outcomes == []
    ensures var out := Rewritten(body, shape, ctx, prim, st).0.body;
            Rewritten(out, shape, ctx, prim, later) == (Outcome(out, false, []), later)
  {
    hide Rewrite, Parse, RenderDoc, MultiChoice;
    var d := Parse(body);
    if d.Some? && !MultiChoice(shape, d.value.root) {
      ParseSound(body);
      var s := Rewrite(shape, d.value.root, ctx, prim, st);
      StagesWf(shape, d.value.root, ctx, prim, st);
      SecondRewrite(shape, d.value.root, ctx, prim, st, later);
      SameChoice(shape, d.value.root, s.tooled);
      Reparsed(d.value.(root := s.tooled));
      assert HashesOf([]) == [];
    }
  }
}
