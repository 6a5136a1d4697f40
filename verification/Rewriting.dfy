/** The stages of request rewriting, as edits of the request's tree. */
module Rewriting {
  import opened Prelude
  import opened Json
  import opened JsonEdits
  import opened EditLists
  import opened Values
  import opened Ccr
  import opened LiveZone
  import opened Tools
  import opened Injections

  datatype Auth = Payg | OAuth | Subscription

  /** `frozen` is the session floor, `userText` the opt-in, `metadata` the provider metadata switch. */
  datatype Context = Context(auth: Auth, frozen: nat, userText: bool, metadata: bool)

  predicate Adorned(ctx: Context) { ctx.metadata && ctx.auth == Payg }

  predicate Anthropic(shape: Shape) { shape == AnthropicMessages || shape == AnthropicBatches }

  // ----- requests of a body -----

  /** The plan of a batch entry: that of its `params`, moved there. */
  function EntryEdits(i: nat, entry: Json, g: Plan): seq<Edit> {
    var q := Field(entry, "params");
    if !ViewOk(entry, {"params"}) || q.None? then [] else RebaseAll([q.value], g(i, entry.kids[q.value].value))
  }

  function EntryPlan(g: Plan): Plan { (i: nat, entry: Json) => EntryEdits(i, entry, g) }

  /** Edits planned for each request of a body: one, or one per batch entry. */
  function PerRequest(shape: Shape, v: Json, g: Plan): seq<Edit> {
    if shape != AnthropicBatches then g(0, v)
    else
      var k := ListField(v, "requests");
      if k.None? then []
      else
        var kids := v.kids[k.value].value.kids;
        RebaseAll([k.value], UpTo(kids, |kids|, EntryPlan(g)))
  }

  ghost predicate Plans(g: Plan) { forall i, x :: Planned(x, g(i, x)) }

  lemma EntryPlanned(i: nat, entry: Json, g: Plan)
    requires Plans(g)
    ensures Planned(entry, EntryEdits(i, entry, g))
  {
    var q := Field(entry, "params");
    if ViewOk(entry, {"params"}) && q.Some? {
      AtOne(entry, q.value);
      assert Planned(entry.kids[q.value].value, g(i, entry.kids[q.value].value));
      RebasePlanned(entry, [q.value], g(i, entry.kids[q.value].value));
    }
  }

  lemma EntriesPlanned(list: Json, g: Plan)
    requires list.Box? && Plans(g)
    ensures PlansKids(list, |list.kids|, EntryPlan(g))
  {
    forall i | 0 <= i < |list.kids| ensures Planned(list.kids[i].value, EntryPlan(g)(i, list.kids[i].value)) {
      EntryPlanned(i, list.kids[i].value, g);
    }
  }

  lemma PerRequestPlanned(shape: Shape, v: Json, g: Plan)
    requires Plans(g)
    ensures Planned(v, PerRequest(shape, v, g))
  {
    if shape == AnthropicBatches {
      var k := ListField(v, "requests");
      if k.Some? {
        var list := v.kids[k.value].value;
        EntriesPlanned(list, g);
        UpToPlanned(list, |list.kids|, EntryPlan(g));
        AtOne(v, k.value);
        RebasePlanned(v, [k.value], UpTo(list.kids, |list.kids|, EntryPlan(g)));
      }
    } else {
      assert Planned(v, g(0, v));
    }
  }

  // ----- stage 1: provider metadata -----

  function NormalizePlan(anthropic: bool, prim: Primitives): Plan { (i, x) => ToolEdits(x, anthropic, prim) }

  function MetadataEdits(shape: Shape, v: Json, prim: Primitives): seq<Edit> {
    PerRequest(shape, v, NormalizePlan(Anthropic(shape), prim))
  }

  lemma MetadataPlanned(shape: Shape, v: Json, prim: Primitives)
    ensures Planned(v, MetadataEdits(shape, v, prim))
  {
    var g := NormalizePlan(Anthropic(shape), prim);
    forall i: nat, x: Json ensures Planned(x, g(i, x)) {
      if ToolList(x).Some? { NormalizedTools(x, Anthropic(shape), prim); }
    }
    PerRequestPlanned(shape, v, g);
  }

  function Normalized(shape: Shape, v: Json, ctx: Context, prim: Primitives): Json {
    MetadataPlanned(shape, v, prim);
    if Adorned(ctx) then Edited(v, MetadataEdits(shape, v, prim)) else v
  }

  // ----- stage 2: live-zone slots -----

  /** A string token chosen for compression, its text, and the hash its marker carries. */
  datatype Pick = Pick(path: Path, text: string, hash: string)

  function TextAt(v: Json, p: Path): string {
    if HasPath(v, p) && At(v, p).Str? then Text(At(v, p).body) else ""
  }

  /** No marker inside, large enough, and worth it in tokens. */
  predicate Gate(text: string, hash: string -> string) {
    && !Contains(text, OPENER)
    && Bytes(text) >= LIVE_ZONE_MIN_BYTES
    && EstimateTokens(Marker(hash(text))) < EstimateTokens(text)
  }

  /** Gate and store each candidate in turn; a failed write leaves the token alone. */
  function Picks(v: Json, ps: seq<Path>, hash: string -> string, st: StoreState): (seq<Pick>, StoreState) {
    if ps == [] then ([], st)
    else
      var text := TextAt(v, ps[0]);
      if !Gate(text, hash) then Picks(v, ps[1..], hash, st)
      else
        var (r, next) := PutResult(st, hash(text), text);
        var (rest, end) := Picks(v, ps[1..], hash, next);
        (if r.None? then rest else [Pick(ps[0], text, hash(text))] + rest, end)
  }

  function SlotEdit(pick: Pick): Edit { Edit.Put(pick.path, Str(Encode(Marker(pick.hash)))) }

  function SlotEditsOf(picks: seq<Pick>): (es: seq<Edit>)
    ensures |es| == |picks| && forall i :: 0 <= i < |es| ==> es[i] == SlotEdit(picks[i])
  {
    seq(|picks|, i requires 0 <= i < |picks| => SlotEdit(picks[i]))
  }

  /** Depth-first document order on positions. */
  predicate PathBelow(p: Path, q: Path)
    decreases p
  {
    q != [] && (p == [] || p[0] < q[0] || (p[0] == q[0] && PathBelow(p[1..], q[1..])))
  }

  predicate EditBelow(d: Edit, e: Edit) { PathBelow(d.path, e.path) }

  function SlotEdits(picks: seq<Pick>): (es: seq<Edit>)
    ensures |es| == |picks|
  {
    Sort(SlotEditsOf(picks), EditBelow)
  }

  lemma {:induction false} PathOrder(p: Path, q: Path, r: Path)
    ensures PathBelow(p, q) ==> !PathBelow(q, p)
    ensures !PathBelow(q, p) && !PathBelow(r, q) ==> !PathBelow(r, p)
    decreases |p| + |q| + |r|
  {
    if p != [] && q != [] && r != [] {
      PathOrder(p[1..], q[1..], r[1..]);
    } else if p != [] && q != [] {
      PathOrder(p[1..], q[1..], []);
    }
  }

  lemma EditOrder()
    ensures WeakOrder(EditBelow)
  {
    forall d, e | EditBelow(d, e) ensures !EditBelow(e, d) { PathOrder(d.path, e.path, []); }
    forall d, e, f | !EditBelow(e, d) && !EditBelow(f, e)
      ensures !EditBelow(f, d) { PathOrder(d.path, e.path, f.path); }
  }

  /** Two different leaves of one tree lie side by side. */
  lemma {:induction false} LeavesApart(v: Json, p: Path, q: Path)
    requires HasPath(v, p) && HasPath(v, q) && At(v, p).Str? && At(v, q).Str? && p != q
    ensures Before(p, q) == PathBelow(p, q) && (Before(p, q) || Before(q, p))
    decreases p
  {
    if p != [] && q != [] && p[0] == q[0] {
      assert p == [p[0]] + p[1..] && q == [q[0]] + q[1..];
      LeavesApart(v.kids[p[0]].value, p[1..], q[1..]);
    }
  }

  predicate Chosen(v: Json, ps: seq<Path>, picks: seq<Pick>) {
    forall i :: 0 <= i < |picks| ==> picks[i].path in ps && picks[i].text == TextAt(v, picks[i].path)
  }

  lemma {:induction false} PicksChosen(v: Json, ps: seq<Path>, hash: string -> string, st: StoreState)
    ensures var picks := Picks(v, ps, hash, st).0;
            && Chosen(v, ps, picks)
            && forall i :: 0 <= i < |picks| ==> Gate(picks[i].text, hash) && picks[i].hash == hash(picks[i].text)
  {
    hide Gate, TextAt, PutResult;
    if ps != [] {
      var next := if Gate(TextAt(v, ps[0]), hash) then PutResult(st, hash(TextAt(v, ps[0])), TextAt(v, ps[0])).1
        else st;
      PicksChosen(v, ps[1..], hash, next);
      var rest := Picks(v, ps[1..], hash, next).0;
      assert forall i :: 0 <= i < |rest| ==> rest[i].path in ps;
    }
  }

  lemma DifferentTail(ps: seq<Path>)
    requires Different(ps) && ps != []
    ensures Different(ps[1..]) && ps[0] !in ps[1..]
  {
    var t := ps[1..];
    forall i, j | 0 <= i < j < |t| ensures t[i] != t[j] && t[i] != [] {
      assert t[i] == ps[i + 1] && t[j] == ps[j + 1];
    }
  }

  lemma {:induction false} PicksDistinct(v: Json, ps: seq<Path>, hash: string -> string, st: StoreState)
    requires Different(ps)
    ensures var picks := Picks(v, ps, hash, st).0;
            forall i, j :: 0 <= i < j < |picks| ==> picks[i].path != picks[j].path
  {
    if ps != [] {
      var next := if Gate(TextAt(v, ps[0]), hash) then PutResult(st, hash(TextAt(v, ps[0])), TextAt(v, ps[0])).1
        else st;
      DifferentTail(ps);
      PicksDistinct(v, ps[1..], hash, next);
      PicksChosen(v, ps[1..], hash, next);
    }
  }

  /** Distinct string tokens, in any order of planning. */
  predicate Tokens(v: Json, es: seq<Edit>) {
    && (forall i :: 0 <= i < |es| ==> es[i].Put? && HasPath(v, es[i].path) && At(v, es[i].path).Str?)
    && (forall i, j :: 0 <= i < j < |es| ==> es[i].path != es[j].path)
  }

  lemma TokensSorted(v: Json, es: seq<Edit>)
    requires Tokens(v, es)
    ensures Tokens(v, Sort(es, EditBelow)) && Planned(v, Sort(es, EditBelow))
    ensures multiset(Sort(es, EditBelow)) == multiset(es)
  {
    var s := Sort(es, EditBelow);
    EditOrder();
    SortPermutes(es, EditBelow);
    SortAscends(es, EditBelow);
    forall i | 0 <= i < |s| ensures s[i] in es { assert s[i] in multiset(s); }
    DistinctPaths(es, s);
    forall i, j | 0 <= i < j < |s| ensures Precedes(s[i], s[j]) {
      LeavesApart(v, s[i].path, s[j].path);
      LeavesApart(v, s[j].path, s[i].path);
      assert !EditBelow(s[j], s[i]);
    }
  }

  lemma {:induction false} DistinctOnce(es: seq<Edit>, e: Edit)
    requires forall i, j :: 0 <= i < j < |es| ==> es[i].path != es[j].path
    ensures multiset(es)[e] <= 1
  {
    if es != [] {
      DistinctOnce(es[1..], e);
      assert es == [es[0]] + es[1..];
      assert forall k :: 0 <= k < |es| - 1 ==> es[1..][k] == es[k + 1];
    }
  }

  lemma DistinctPaths(es: seq<Edit>, s: seq<Edit>)
    requires forall i, j :: 0 <= i < j < |es| ==> es[i].path != es[j].path
    requires multiset(s) == multiset(es)
    ensures forall i, j :: 0 <= i < j < |s| ==> s[i].path != s[j].path
  {
    forall i, j | 0 <= i < j < |s| ensures s[i].path != s[j].path {
      assert s[i] in multiset(s) && s[j] in multiset(s);
      assert s[i] in es && s[j] in es;
      if s[i] == s[j] {
        DistinctOnce(es, s[i]);
        TwiceCounted(s, i, j);
      }
    }
  }

  lemma TwiceCounted<T>(s: seq<T>, i: nat, j: nat)
    requires i < j < |s| && s[i] == s[j]
    ensures multiset(s)[s[i]] >= 2
  {
    assert s == s[..i] + [s[i]] + s[i + 1..];
    assert s[i + 1..] == s[i + 1..j] + [s[j]] + s[j + 1..];
  }

  lemma PickTokens(v: Json, ps: seq<Path>, userText: bool, hash: string -> string, st: StoreState)
    requires AllSlots(v, ps, userText)
    ensures Tokens(v, SlotEditsOf(Picks(v, ps, hash, st).0))
  {
    PicksChosen(v, ps, hash, st);
    PicksDistinct(v, ps, hash, st);
    var picks := Picks(v, ps, hash, st).0;
    forall i | 0 <= i < |picks| ensures HasPath(v, picks[i].path) && At(v, picks[i].path).Str? {
      var k :| 0 <= k < |ps| && ps[k] == picks[i].path;
      assert SlotOk(v, ps[k], userText);
    }
  }

  function Candidates(shape: Shape, v: Json, ctx: Context): seq<Path> {
    SlotPaths(shape, v, ctx.frozen, ctx.userText)
  }

  function Slotted(shape: Shape, v: Json, ctx: Context, hash: string -> string, st: StoreState): Json {
    PlannedSlots(shape, v, ctx.frozen, ctx.userText);
    PickTokens(v, Candidates(shape, v, ctx), ctx.userText, hash, st);
    var picks := Picks(v, Candidates(shape, v, ctx), hash, st).0;
    TokensSorted(v, SlotEditsOf(picks));
    Edited(v, SlotEdits(picks))
  }

  // ----- stage 3: the retrieve tool -----

  /** Some string value of the parsed body holds a marker. */
  predicate HasMarker(v: Val)
    decreases v
  {
    match v
    case Lit(_) => false
    case Txt(t) => Contains(t, OPENER)
    case Arr(items) => exists i :: 0 <= i < |items| && HasMarker(items[i])
    case Obj(entries) => exists i :: 0 <= i < |entries| && HasMarker(entries[i].val)
  }

  /** Indices of the requests that receive the tool. */
  function Receivers(shape: Shape, picks: seq<Pick>, marked: bool): set<nat> {
    if shape == AnthropicBatches then set i | 0 <= i < |picks| && |picks[i].path| >= 2 :: picks[i].path[1]
    else if picks != [] || marked then {0} else {}
  }

  function AppendPlan(shape: Shape, chosen: set<nat>, w: Wording): Plan {
    (i, x) =>
      var e := ToolAppend(x, shape, w);
      if i in chosen && e.Some? then [e.value] else []
  }

  function RetrieveEdits(shape: Shape, v: Json, chosen: set<nat>, w: Wording): seq<Edit> {
    PerRequest(shape, v, AppendPlan(shape, chosen, w))
  }

  lemma RetrievePlanned(shape: Shape, v: Json, chosen: set<nat>, w: Wording)
    ensures Planned(v, RetrieveEdits(shape, v, chosen, w))
  {
    PerRequestPlanned(shape, v, AppendPlan(shape, chosen, w));
  }

  function Tooled(shape: Shape, v: Json, chosen: set<nat>, w: Wording): Json {
    RetrievePlanned(shape, v, chosen, w);
    Edited(v, RetrieveEdits(shape, v, chosen, w))
  }

  // ----- all stages -----

  /** The tree after each stage but the last, what was compressed, and the store afterwards. */
  datatype Stages = Stages(normal: Json, picks: seq<Pick>, slotted: Json, tooled: Json, store: StoreState)

  function Rewrite(shape: Shape, v: Json, ctx: Context, prim: Primitives, st: StoreState): Stages {
    var normal := Normalized(shape, v, ctx, prim);
    var (picks, end) := Picks(normal, Candidates(shape, normal, ctx), prim.hash, st);
    var slotted := Slotted(shape, normal, ctx, prim.hash, st);
    var chosen := Receivers(shape, picks, HasMarker(Sem(v, prim.number)));
    Stages(normal, picks, slotted, Tooled(shape, slotted, chosen, prim.wording), end)
  }

  predicate Keyed(shape: Shape, ctx: Context) { Adorned(ctx) && !Anthropic(shape) }

  /** The rewritten body. */
  function NewBody(shape: Shape, d: Doc, ctx: Context, prim: Primitives, st: StoreState): string {
    var tooled := d.(root := Rewrite(shape, d.root, ctx, prim, st).tooled);
    if Keyed(shape, ctx) then KeyedBody(tooled, shape, prim) else RenderDoc(tooled)
  }

  /** Its tree, when it has one. */
  function NewDoc(shape: Shape, d: Doc, ctx: Context, prim: Primitives, st: StoreState): Doc {
    var tooled := d.(root := Rewrite(shape, d.root, ctx, prim, st).tooled);
    if Keyed(shape, ctx) then KeyedDoc(tooled, shape, prim) else tooled
  }

  /** A chat request for several choices: `n` is an unsigned 64-bit integer above 1. */
  predicate MultiChoice(shape: Shape, v: Json) {
    shape == OpenAiChat &&
    var n := Lookup(v, "n");
    n.Some? && n.value.Scalar? && var count := Unsigned(n.value.token); count.Some? && count.value > 1
  }
}
