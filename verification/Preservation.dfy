/** What a rewritten request keeps: everything outside tools and compressed tokens, and the frozen prefix. */
module Preservation {
  import opened Json
  import opened JsonEdits
  import opened EditLists
  import opened Values
  import opened Ccr
  import opened LiveZone
  import opened Tools
  import opened ToolPlanner
  import opened Injections
  import opened Rewriting
  import opened EditFacts
  import opened StageFacts

  // ----- keys along a path -----

  /** The raw keys on the way to a position. */
  function Trail(v: Json, p: Path): (r: seq<string>)
    requires HasPath(v, p)
    ensures |r| == |p|
    decreases p
  {
    if p == [] then [] else [v.kids[p[0]].key] + Trail(v.kids[p[0]].value, p[1..])
  }

  /** An edit that spares a position keeps what is there and the keys that lead to it. */
  lemma {:induction false} StepKeeps(v: Json, e: Edit, p: Path)
    requires Fits(v, e) && HasPath(v, p) && Spares(e, p)
    ensures HasPath(Step(v, e), p) && At(Step(v, e), p) == At(v, p) && Trail(Step(v, e), p) == Trail(v, p)
    decreases p
  {
    var q, u := e.path, Step(v, e);
    if q == [] {
      assert u == Extended(v, e.kid) && u.kids[p[0]] == v.kids[p[0]];
    } else if p[0] != q[0] {
      assert u.kids[p[0]] == v.kids[p[0]];
    } else {
      var inner := e.(path := q[1..]);
      SparesTail(e, p);
      StepKeeps(v.kids[p[0]].value, inner, p[1..]);
      assert u.kids[p[0]].value == Step(v.kids[p[0]].value, inner);
      assert u.kids[p[0]].key == v.kids[p[0]].key;
    }
  }

  lemma SparesTail(e: Edit, p: Path)
    requires Spares(e, p) && e.path != [] && p != [] && p[0] == e.path[0]
    ensures Spares(e.(path := e.path[1..]), p[1..])
  {
    if e.Append? && Under(e.path, p) {
      assert p[1..][..|e.path| - 1] == p[..|e.path|][1..];
    }
  }

  lemma {:induction false} EditedKeeps(v: Json, es: seq<Edit>, p: Path)
    requires Planned(v, es) && HasPath(v, p) && AllSpare(es, p)
    ensures var w := Edited(v, es); HasPath(w, p) && At(w, p) == At(v, p) && Trail(w, p) == Trail(v, p)
    decreases |es|
  {
    if es != [] {
      LastStable(v, es);
      StepKeeps(v, es[|es| - 1], p);
      EditedKeeps(Step(v, es[|es| - 1]), es[..|es| - 1], p);
    }
  }

  // ----- edits of tools spare everything else -----

  /** Edits under the member `tools` of a request, or members added to it. */
  predicate ToolsOnly(x: Json, es: seq<Edit>)
    requires AllFit(x, es)
  {
    forall i :: 0 <= i < |es| ==>
      if es[i].path == [] then es[i].Append? else x.isObj && Text(x.kids[es[i].path[0]].key) == "tools"
  }

  ghost predicate PlansTools(g: Plan) { forall i, x :: AllFit(x, g(i, x)) && ToolsOnly(x, g(i, x)) }

  /** Depth at which the members of a request are found. */
  function Depth(shape: Shape): nat { if shape == AnthropicBatches then 4 else 1 }

  /** A position inside a request member that is not `tools`. */
  predicate OutsideTools(shape: Shape, v: Json, p: Path) {
    HasPath(v, p) && |p| >= Depth(shape) && Text(Trail(v, p)[Depth(shape) - 1]) != "tools"
  }

  lemma RequestSpares(x: Json, e: Edit, r: Path)
    requires Fits(x, e) && ToolsOnly(x, [e]) && HasPath(x, r) && r != [] && Text(x.kids[r[0]].key) != "tools"
    ensures Spares(e, r)
  {
    assert [e][0] == e;
    if e.path == [] { assert r[..0] == []; }
  }

  lemma {:induction false} SameLengthApart(a: Path, b: Path)
    requires |a| == |b| && a != b
    ensures Apart(a, b)
  {
    if a[0] == b[0] {
      assert a == [a[0]] + a[1..] && b == [b[0]] + b[1..];
      SameLengthApart(a[1..], b[1..]);
    }
  }

  lemma SparesPrefix(pp: Path, e: Edit, r: Path)
    requires Spares(e, r)
    ensures Spares(Rebase(pp, e), pp + r)
  {
    BeforePrefix(pp, r, e.path);
    BeforePrefix(pp, e.path, r);
    UnderPrefix(pp, e.path, r);
  }

  /** Another request of the batch, or the same one elsewhere. */
  lemma ElsewhereSpares(pp: Path, e: Edit, p: Path)
    requires |p| >= |pp| && (p[..|pp|] == pp ==> Spares(e, p[|pp|..]))
    ensures Spares(Rebase(pp, e), p)
  {
    var head, rest := p[..|pp|], p[|pp|..];
    assert head + rest == p;
    if head == pp {
      SparesPrefix(pp, e, rest);
    } else {
      SameLengthApart(head, pp);
      if Before(head, pp) { BeforeExtend(head, pp, rest, e.path); } else { BeforeExtend(pp, head, e.path, rest); }
    }
  }

  lemma {:induction false} TrailAt(v: Json, p: Path, n: nat)
    requires HasPath(v, p) && n < |p|
    ensures HasPath(v, p[..n]) && At(v, p[..n]).Box? && p[n] < |At(v, p[..n]).kids|
    ensures HasPath(At(v, p[..n]), p[n..]) && Trail(v, p)[n] == At(v, p[..n]).kids[p[n]].key
    decreases p
  {
    if n == 0 {
      assert p[..0] == [] && p[0..] == p;
    } else {
      TrailAt(v.kids[p[0]].value, p[1..], n - 1);
      assert p[..n][1..] == p[1..][..n - 1] && p[1..][n - 1..] == p[n..];
    }
  }

  /** Edits of entry `i`, reached through `k`. */
  lemma EntrySpares(v: Json, k: nat, i: nat, g: Plan, p: Path)
    requires PlansTools(g) && OutsideTools(AnthropicBatches, v, p)
    requires v.Box? && k < |v.kids| && v.kids[k].value.Box? && i < |v.kids[k].value.kids|
    ensures AllSpare(RebaseAll([k], RebaseAll([i], EntryEdits(i, v.kids[k].value.kids[i].value, g))), p)
  {
    var entry := v.kids[k].value.kids[i].value;
    var q := Field(entry, "params");
    if ViewOk(entry, {"params"}) && q.Some? {
      var pp, x := [k, i, q.value], entry.kids[q.value].value;
      var es := g(i, x);
      TwoDown(v, k, i);
      AtOne(entry, q.value);
      AtConcat(v, [k, i], [q.value]);
      assert [k, i] + [q.value] == pp;
      TrailAt(v, p, 3);
      forall j | 0 <= j < |es| ensures Spares(Rebase(pp, es[j]), p) {
        assert ToolsOnly(x, es);
        if p[..3] == pp { RequestSpares(x, es[j], p[3..]); }
        ElsewhereSpares(pp, es[j], p);
      }
      RebaseTwice([i], [q.value], es);
      RebaseTwice([k], [i] + [q.value], es);
      assert [k] + ([i] + [q.value]) == pp;
    }
  }

  lemma SpareConcat(k: nat, a: seq<Edit>, b: seq<Edit>, p: Path)
    requires AllSpare(RebaseAll([k], a), p) && AllSpare(RebaseAll([k], b), p)
    ensures AllSpare(RebaseAll([k], a + b), p)
  {
    RebaseConcat([k], a, b);
  }

  lemma {:induction false} UpToSpares(kids: seq<Kid>, k: nat, n: nat, f: Plan, p: Path)
    requires n <= |kids| && forall i :: 0 <= i < n ==> AllSpare(RebaseAll([k], RebaseAll([i], f(i, kids[i].value))), p)
    ensures AllSpare(RebaseAll([k], UpTo(kids, n, f)), p)
  {
    if n > 0 {
      UpToSpares(kids, k, n - 1, f, p);
      SpareConcat(k, UpTo(kids, n - 1, f), RebaseAll([n - 1], f(n - 1, kids[n - 1].value)), p);
    }
  }

  lemma EntriesSpare(v: Json, k: nat, g: Plan, p: Path)
    requires PlansTools(g) && OutsideTools(AnthropicBatches, v, p)
    requires v.Box? && k < |v.kids| && v.kids[k].value.Box?
    ensures AllSpare(RebaseAll([k], UpTo(v.kids[k].value.kids, |v.kids[k].value.kids|, EntryPlan(g))), p)
  {
    var kids := v.kids[k].value.kids;
    forall i | 0 <= i < |kids| ensures AllSpare(RebaseAll([k], RebaseAll([i], EntryPlan(g)(i, kids[i].value))), p) {
      EntrySpares(v, k, i, g, p);
    }
    UpToSpares(kids, k, |kids|, EntryPlan(g), p);
  }

  lemma OneRequestSpares(v: Json, es: seq<Edit>, p: Path)
    requires AllFit(v, es) && ToolsOnly(v, es) && HasPath(v, p) && p != [] && Text(Trail(v, p)[0]) != "tools"
    ensures AllSpare(es, p)
  {
    forall j | 0 <= j < |es| ensures Spares(es[j], p) { RequestSpares(v, es[j], p); }
  }

  lemma PerRequestSpares(shape: Shape, v: Json, g: Plan, p: Path)
    requires PlansTools(g) && OutsideTools(shape, v, p)
    ensures AllSpare(PerRequest(shape, v, g), p)
  {
    if shape == AnthropicBatches {
      var k := ListField(v, "requests");
      if k.Some? { EntriesSpare(v, k.value, g, p); }
    } else {
      assert ToolsOnly(v, g(0, v));
      OneRequestSpares(v, g(0, v), p);
    }
  }

  lemma ToolEditsOnly(x: Json, anthropic: bool, prim: Primitives)
    ensures AllFit(x, ToolEdits(x, anthropic, prim)) && ToolsOnly(x, ToolEdits(x, anthropic, prim))
  {
    var k := ToolList(x);
    if k.Some? {
      NormalizedTools(x, anthropic, prim);
      FieldKey(x, "tools");
      var es := ToolEdits(x, anthropic, prim);
      forall i | 0 <= i < |es| ensures es[i].path != [] && es[i].path[0] == k.value {}
    }
  }

  lemma NormalizePlansTools(anthropic: bool, prim: Primitives)
    ensures PlansTools(NormalizePlan(anthropic, prim))
  {
    var g := NormalizePlan(anthropic, prim);
    forall i: nat, x: Json ensures AllFit(x, g(i, x)) && ToolsOnly(x, g(i, x)) { ToolEditsOnly(x, anthropic, prim); }
  }

  lemma AppendPlansTools(shape: Shape, chosen: set<nat>, w: Wording)
    ensures PlansTools(AppendPlan(shape, chosen, w))
  {
    hide Announced, RetrieveTool, Text;
  }

  /** Normalisation keeps every position outside the tools. */
  lemma NormalizedKeeps(shape: Shape, v: Json, ctx: Context, prim: Primitives, p: Path)
    requires OutsideTools(shape, v, p)
    ensures var w := Normalized(shape, v, ctx, prim);
            OutsideTools(shape, w, p) && At(w, p) == At(v, p) &&
            Trail(w, p) == Trail(v, p)
  {
    if Adorned(ctx) {
      var g := NormalizePlan(Anthropic(shape), prim);
      MetadataPlanned(shape, v, prim);
      NormalizePlansTools(Anthropic(shape), prim);
      PerRequestSpares(shape, v, g, p);
      EditedKeeps(v, MetadataEdits(shape, v, prim), p);
    }
  }

  lemma TooledKeepsPath(shape: Shape, v: Json, chosen: set<nat>, w: Wording, p: Path)
    requires OutsideTools(shape, v, p)
    ensures var u := Tooled(shape, v, chosen, w);
            OutsideTools(shape, u, p) && At(u, p) == At(v, p) &&
            Trail(u, p) == Trail(v, p)
  {
    RetrievePlanned(shape, v, chosen, w);
    AppendPlansTools(shape, chosen, w);
    PerRequestSpares(shape, v, AppendPlan(shape, chosen, w), p);
    EditedKeeps(v, RetrieveEdits(shape, v, chosen, w), p);
  }

  lemma SlottedKeepsPath(shape: Shape, v: Json, ctx: Context, hash: string -> string, st: StoreState, p: Path)
    requires HasPath(v, p)
    requires var picks := Picks(v, Candidates(shape, v, ctx), hash, st).0;
             forall i :: 0 <= i < |picks| ==> Apart(p, picks[i].path)
    ensures var u := Slotted(shape, v, ctx, hash, st);
            HasPath(u, p) && At(u, p) == At(v, p) &&
            Trail(u, p) == Trail(v, p)
  {
    SlotsPlanned(shape, v, ctx, hash, st);
    var picks := Picks(v, Candidates(shape, v, ctx), hash, st).0;
    var es := SlotEdits(picks);
    forall i | 0 <= i < |es| ensures Spares(es[i], p) { SlotEditFrom(picks, i); }
    EditedKeeps(v, es, p);
  }

  lemma KeyedKeeps(d: Doc, shape: Shape, prim: Primitives, p: Path)
    requires HasPath(d.root, p) && p != [] && Text(Trail(d.root, p)[0]) != PCK
    ensures var u := KeyedDoc(d, shape, prim).root; HasPath(u, p) && At(u, p) == At(d.root, p)
  {
    var e := KeyEdit(d.root, shape, prim);
    if e.Some? {
      FieldKey(d.root, PCK);
      if e.value.path == [] { assert p[..0] == []; }
      StepKeeps(d.root, e.value, p);
    }
  }

  /**
   * A position outside `tools` and the cache key, beside every compressed token, holds the
   * same subtree before and after, character for character.
   */
  lemma Untouched(shape: Shape, d: Doc, ctx: Context, prim: Primitives, st: StoreState, p: Path)
    requires OutsideTools(shape, d.root, p)
    requires ctx.metadata && ctx.auth == Payg && (shape == OpenAiChat || shape == OpenAiResponses) ==>
               Text(Trail(d.root, p)[0]) != "prompt_cache_key"
    requires var picks := Rewrite(shape, d.root, ctx, prim, st).picks;
             forall i :: 0 <= i < |picks| ==> Apart(p, picks[i].path)
    ensures var n := NewDoc(shape, d, ctx, prim, st).root;
            HasPath(n, p) && At(n, p) == At(d.root, p) && Render(At(n, p)) == Render(At(d.root, p))
  {
    var s := Rewrite(shape, d.root, ctx, prim, st);
    NormalizedKeeps(shape, d.root, ctx, prim, p);
    SlottedKeepsPath(shape, s.normal, ctx, prim.hash, st, p);
    TooledKeepsPath(shape, s.slotted, Receivers(shape, s.picks, HasMarker(Sem(d.root, prim.number))), prim.wording, p);
    if Keyed(shape, ctx) { KeyedKeeps(d.(root := s.tooled), shape, prim, p); }
  }

  lemma PickSlot(shape: Shape, v: Json, ctx: Context, hash: string -> string, st: StoreState, i: nat)
    requires i < |Picks(v, Candidates(shape, v, ctx), hash, st).0|
    ensures var pick := Picks(v, Candidates(shape, v, ctx), hash, st).0[i];
            && SlotOk(v, pick.path, ctx.userText) && pick.path in Candidates(shape, v, ctx)
            && InLiveZone(Live(shape, v, ctx.frozen), pick.path) && pick.text == TextAt(v, pick.path)
            && pick.hash == hash(pick.text) && Gate(pick.text, hash)
  {
    var ps := Candidates(shape, v, ctx);
    PlannedSlots(shape, v, ctx.frozen, ctx.userText);
    SlotsInZone(shape, v, ctx.frozen, ctx.userText);
    PicksChosen(v, ps, hash, st);
    var pick := Picks(v, ps, hash, st).0[i];
    var j :| 0 <= j < |ps| && ps[j] == pick.path;
    assert SlotOk(v, ps[j], ctx.userText);
  }

  /** Each compressed token was live tool output or opted-in user text of the normalised request. */
  lemma OnlySlots(shape: Shape, v: Json, ctx: Context, prim: Primitives, st: StoreState)
    ensures var s := Rewrite(shape, v, ctx, prim, st);
            forall i :: 0 <= i < |s.picks| ==>
              SlotOk(s.normal, s.picks[i].path, ctx.userText) &&
                InLiveZone(Live(shape, s.normal, ctx.frozen), s.picks[i].path)
  {
    var s := Rewrite(shape, v, ctx, prim, st);
    forall i | 0 <= i < |s.picks|
      ensures SlotOk(s.normal, s.picks[i].path, ctx.userText) &&
              InLiveZone(Live(shape, s.normal, ctx.frozen), s.picks[i].path)
    {
      PickSlot(shape, s.normal, ctx, prim.hash, st, i);
    }
  }
}
