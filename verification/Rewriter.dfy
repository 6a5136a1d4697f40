/** The request rewriter as it works on text: plan ranges, splice, parse again, plan the next stage. */
module Rewriter {
  import opened Prelude
  import opened Json
  import opened JsonParser
  import opened Splice
  import opened JsonEdits
  import opened EditLists
  import opened Values
  import opened Ccr
  import opened LiveZone
  import opened Tools
  import opened ToolPlanner
  import opened Injections
  import opened Rewriting
  import opened SlotPlanner
  import opened EditFacts
  import opened StageFacts

  datatype Outcome = Outcome(body: string, compressed: bool, hashes: seq<string>)

  function HashesOf(picks: seq<Pick>): (r: seq<string>)
    ensures |r| == |picks|
  {
    seq(|picks|, i requires 0 <= i < |picks| => picks[i].hash)
  }

  /** What a request becomes: itself when it is no JSON or asks for several choices. */
  function Rewritten(body: string, shape: Shape, ctx: Context, prim: Primitives, st: StoreState)
    : (Outcome, StoreState)
  {
    var d := Parse(body);
    if d.None? || MultiChoice(shape, d.value.root) then (Outcome(body, false, []), st)
    else
      var s := Rewrite(shape, d.value.root, ctx, prim, st);
      (Outcome(NewBody(shape, d.value, ctx, prim, st), s.picks != [], HashesOf(s.picks)), s.store)
  }

  // ----- splicing a list of replacements -----

  method ApplyAll(original: string, replacements: seq<Replacement<char>>) returns (out: string)
    requires InOrder(Visited(replacements), 0, |original|)
    ensures out == Spliced(original, Visited(replacements), 0)
  {
    var a := new Replacement<char>[|replacements|](i requires 0 <= i < |replacements| => replacements[i]);
    assert a[..] == replacements;
    out := ApplyReplacements(original, a);
  }

  /** Splicing planned edits into a body gives the edited tree, and it parses back. */
  method SpliceStage(d: Doc, ghost es: seq<Edit>, replacements: seq<Replacement<char>>) returns (out: string)
    requires Planned(d.root, es) && Visited(replacements) == Moves(d.root, es, |d.pre|)
    ensures out == RenderDoc(d.(root := Edited(d.root, es)))
  {
    SpliceBody(d, es);
    out := ApplyAll(RenderDoc(d), replacements);
  }

  lemma NoMoves(v: Json, es: seq<Edit>, base: nat)
    requires Planned(v, es) && Moves(v, es, base) == []
    ensures Edited(v, es) == v
  {
  }

  lemma MovesVisited(d: Doc, es: seq<Edit>)
    requires Planned(d.root, es)
    ensures Visited(Moves(d.root, es, |d.pre|)) == Moves(d.root, es, |d.pre|)
  {
    SpliceBody(d, es);
  }

  // ----- request by request -----

  /** What the loop over batch entries has planned once it has passed the first `i`. */
  function EntriesDone(v: Json, k: nat, i: nat, g: Plan): seq<Edit>
    requires v.Box? && k < |v.kids| && v.kids[k].value.Box? && i <= |v.kids[k].value.kids|
  {
    RebaseAll([k], UpTo(v.kids[k].value.kids, i, EntryPlan(g)))
  }

  lemma EntriesNone(v: Json, k: nat, g: Plan)
    requires v.Box? && k < |v.kids| && v.kids[k].value.Box?
    ensures EntriesDone(v, k, 0, g) == []
  {
  }

  lemma EntriesStep(v: Json, k: nat, i: nat, g: Plan, base: nat)
    requires v.Box? && k < |v.kids| && IsList(v.kids[k].value) && i < |v.kids[k].value.kids|
    requires AllFit(v, EntriesDone(v, k, i, g)) && Plans(g)
    ensures var here := RebaseAll([k, i], EntryEdits(i, v.kids[k].value.kids[i].value, g));
            && AllFit(v, here)
            && EntriesDone(v, k, i + 1, g) == EntriesDone(v, k, i, g) + here
            && AllFit(v, EntriesDone(v, k, i + 1, g))
            && Moves(v, EntriesDone(v, k, i + 1, g), base)
              == Moves(v, EntriesDone(v, k, i, g), base) + Moves(v, here, base)
  {
    var kids := v.kids[k].value.kids;
    var es := EntryEdits(i, kids[i].value, g);
    EntryPlanned(i, kids[i].value, g);
    TwoDown(v, k, i);
    RebaseAllFit(v, [k, i], es);
    EntriesSplit(kids, k, i, g);
    MovesConcat(v, EntriesDone(v, k, i, g), RebaseAll([k, i], es), base);
  }

  /** One turn of the loop over batch entries. */
  lemma EntriesTurn(v: Json, k: nat, i: nat, g: Plan, base: nat, entry: Json,
                    before: seq<Replacement<char>>, after: seq<Replacement<char>>)
    requires v.Box? && k < |v.kids| && IsList(v.kids[k].value) && i < |v.kids[k].value.kids|
    requires AllFit(v, EntriesDone(v, k, i, g)) && Plans(g) && entry == v.kids[k].value.kids[i].value
    requires before == Moves(v, EntriesDone(v, k, i, g), base)
    requires AllFit(v, RebaseAll([k, i], EntryEdits(i, entry, g)))
    requires after == before + Moves(v, RebaseAll([k, i], EntryEdits(i, entry, g)), base)
    ensures AllFit(v, EntriesDone(v, k, i + 1, g)) && after == Moves(v, EntriesDone(v, k, i + 1, g), base)
  {
    EntriesStep(v, k, i, g, base);
  }

  lemma EntriesAll(v: Json, k: nat, g: Plan)
    requires ListField(v, "requests") == Some(k)
    ensures EntriesDone(v, k, |v.kids[k].value.kids|, g) == PerRequest(AnthropicBatches, v, g)
  {
  }

  lemma EntriesSplit(kids: seq<Kid>, k: nat, i: nat, g: Plan)
    requires i < |kids|
    ensures RebaseAll([k], UpTo(kids, i + 1, EntryPlan(g)))
            == RebaseAll([k], UpTo(kids, i, EntryPlan(g))) + RebaseAll([k, i], EntryEdits(i, kids[i].value, g))
  {
    var es := EntryEdits(i, kids[i].value, g);
    RebaseConcat([k], UpTo(kids, i, EntryPlan(g)), RebaseAll([i], es));
    RebaseTwice([k], [i], es);
    assert [k] + [i] == [k, i];
  }

  /** The params of entry `i`, planned at their own offset. */
  lemma EntryMoves(v: Json, pp: Path, i: nat, q: nat, g: Plan, base: nat, entry: Json, params: Json, offset: nat)
    requires HasPath(v, pp) && At(v, pp) == entry && Plans(g)
    requires ViewOk(entry, {"params"}) && Field(entry, "params") == Some(q) && params == entry.kids[q].value
    requires HasPath(v, pp + [q]) && offset == base + |Head(v, pp + [q])|
    ensures AllFit(v, RebaseAll(pp, EntryEdits(i, entry, g))) && AllFit(params, g(i, params))
    ensures Moves(v, RebaseAll(pp, EntryEdits(i, entry, g)), base) == Moves(params, g(i, params), offset)
  {
    hide Moves, Rep, Render, Head;
    var es := g(i, params);
    assert Planned(params, g(i, params));
    DeeperPath(v, pp, q);
    RebaseTwice(pp, [q], es);
    RebaseMoves(v, pp + [q], es, base);
  }

  lemma NoEntryMoves(v: Json, pp: Path, i: nat, g: Plan, base: nat, entry: Json)
    requires HasPath(v, pp) && At(v, pp) == entry
    requires !ViewOk(entry, {"params"}) || Field(entry, "params").None?
    ensures AllFit(v, RebaseAll(pp, EntryEdits(i, entry, g)))
    ensures Moves(v, RebaseAll(pp, EntryEdits(i, entry, g)), base) == []
  {
    assert RebaseAll(pp, EntryEdits(i, entry, g)) == [];
  }

  // ----- stage 1 -----

  lemma NormalizePlans(anthropic: bool, prim: Primitives)
    ensures Plans(NormalizePlan(anthropic, prim))
  {
    forall i: nat, x: Json ensures Planned(x, NormalizePlan(anthropic, prim)(i, x)) {
      if ToolList(x).Some? { NormalizedTools(x, anthropic, prim); }
    }
  }

  method NormalizeEntry(v: Json, k: nat, i: nat, entry: Json, base: nat, prim: Primitives,
                        replacements: seq<Replacement<char>>)
    returns (out: seq<Replacement<char>>)
    requires HasPath(v, [k, i]) && At(v, [k, i]) == entry && Wf(entry) && GoodNumbers(prim.number)
    ensures var es := RebaseAll([k, i], EntryEdits(i, entry, NormalizePlan(true, prim)));
            AllFit(v, es) && out == replacements + Moves(v, es, base)
  {
    ghost var g := NormalizePlan(true, prim);
    var q := Field(entry, "params");
    if !ViewOk(entry, {"params"}) || q.None? {
      NoEntryMoves(v, [k, i], i, g, base, entry);
      assert replacements + [] == replacements;
      return replacements;
    }
    DeeperPath(v, [k, i], q.value);
    var params, offset := entry.kids[q.value].value, base + |Head(v, [k, i] + [q.value])|;
    assert KidOk(entry.isObj, entry.kids[q.value]);
    NormalizePlans(true, prim);
    EntryMoves(v, [k, i], i, q.value, g, base, entry, params, offset);
    out := PlanToolsNormalization(params, offset, true, prim, replacements);
  }

  lemma EntryWf(v: Json, k: nat, i: nat)
    requires Wf(v) && v.Box? && k < |v.kids| && v.kids[k].value.Box? && i < |v.kids[k].value.kids|
    ensures HasPath(v, [k, i]) && At(v, [k, i]) == v.kids[k].value.kids[i].value && Wf(At(v, [k, i]))
  {
    TwoDown(v, k, i);
    WfAt(v, [k, i]);
  }

  method NormalizeEntries(v: Json, k: nat, base: nat, prim: Primitives) returns (out: seq<Replacement<char>>)
    requires Wf(v) && v.Box? && k < |v.kids| && IsList(v.kids[k].value) && GoodNumbers(prim.number)
    ensures var es := EntriesDone(v, k, |v.kids[k].value.kids|, NormalizePlan(true, prim));
            AllFit(v, es) && out == Moves(v, es, base)
  {
    ghost var g := NormalizePlan(true, prim);
    var n := |v.kids[k].value.kids|;
    EntriesNone(v, k, g);
    NormalizePlans(true, prim);
    out := [];
    for i := 0 to n
      invariant AllFit(v, EntriesDone(v, k, i, g)) && out == Moves(v, EntriesDone(v, k, i, g), base)
    {
      EntryWf(v, k, i);
      ghost var before := out;
      var entry := v.kids[k].value.kids[i].value;
      out := NormalizeEntry(v, k, i, entry, base, prim, out);
      EntriesTurn(v, k, i, g, base, entry, before, out);
    }
  }

  method PlanMetadata(shape: Shape, v: Json, base: nat, prim: Primitives) returns (out: seq<Replacement<char>>)
    requires Wf(v) && GoodNumbers(prim.number)
    ensures AllFit(v, MetadataEdits(shape, v, prim)) && out == Moves(v, MetadataEdits(shape, v, prim), base)
  {
    if shape == AnthropicBatches {
      var k := ListField(v, "requests");
      if k.None? { return []; }
      EntriesAll(v, k.value, NormalizePlan(true, prim));
      out := NormalizeEntries(v, k.value, base, prim);
    } else {
      out := PlanToolsNormalization(v, base, Anthropic(shape), prim, []);
    }
  }

  // ----- stage 2 -----

  function PickMove(v: Json, base: nat, pick: Pick): Replacement<char> {
    var slot := SlotAt(v, pick.path, base, None);
    Replacement(slot.lo, slot.hi, Render(Str(Encode(Marker(pick.hash)))))
  }

  function PickMoves(v: Json, base: nat, picks: seq<Pick>): (r: seq<Replacement<char>>)
    ensures |r| == |picks| && forall i :: 0 <= i < |picks| ==> r[i] == PickMove(v, base, picks[i])
  {
    seq(|picks|, i requires 0 <= i < |picks| => PickMove(v, base, picks[i]))
  }

  method CompressSlot(slot: Slot, hash: string -> string, store: CcrStore)
    returns (r: Option<(Replacement<char>, string)>)
    modifies store
    ensures var h := hash(slot.text);
            var (put, next) := PutResult(old(store.State()), h, slot.text);
            if !Gate(slot.text, hash) then r == None && store.State() == old(store.State())
            else store.State() == next
                 && r == if put.None? then None
                   else Some((Replacement(slot.lo, slot.hi, Render(Str(Encode(Marker(h))))), h))
  {
    if Contains(slot.text, OPENER) { return None; }
    if Bytes(slot.text) < LIVE_ZONE_MIN_BYTES { return None; }
    var h := hash(slot.text);
    if EstimateTokens(Marker(h)) >= EstimateTokens(slot.text) { return None; }
    var put := store.Put(h, slot.text);
    if put.None? { return None; }
    r := Some((Replacement(slot.lo, slot.hi, Render(Str(Encode(Marker(h))))), h));
  }

  /** One candidate in front of the others. */
  lemma PicksStep(v: Json, p: Path, rest: seq<Path>, hash: string -> string, st: StoreState)
    ensures var text := TextAt(v, p);
            var (put, next) := PutResult(st, hash(text), text);
            var here := Gate(text, hash) && put.Some?;
            var (later, end) := Picks(v, rest, hash, if Gate(text, hash) then next else st);
            Picks(v, [p] + rest, hash, st) == ((if here then [Pick(p, text, hash(text))] else []) + later, end)
  {
    assert ([p] + rest)[1..] == rest;
    var later := Picks(v, rest, hash, st).0;
    assert [] + later == later;
    var next := PutResult(st, hash(TextAt(v, p)), TextAt(v, p)).1;
    assert [] + Picks(v, rest, hash, next).0 == Picks(v, rest, hash, next).0;
  }

  lemma PickFrom(v: Json, p: Path, base: nat, shape: Shape, h: string)
    requires Bytes(SlotAt(v, p, base, RequestOf(shape, p)).text) >= LIVE_ZONE_MIN_BYTES
    ensures HasPath(v, p) && At(v, p).Str?
    ensures var slot := SlotAt(v, p, base, RequestOf(shape, p));
            PickMove(v, base, Pick(p, slot.text, h)) == Replacement(slot.lo, slot.hi, Render(Str(Encode(Marker(h)))))
  {
  }

  lemma SlotText(v: Json, p: Path, base: nat, request: Option<nat>)
    ensures SlotAt(v, p, base, request).text == TextAt(v, p) && SlotAt(v, p, base, request).request == request
  {
  }

  /** Batch entries in which something was compressed. */
  function Touched(shape: Shape, picks: seq<Pick>): set<nat> {
    set i | 0 <= i < |picks| && RequestOf(shape, picks[i].path).Some? :: RequestOf(shape, picks[i].path).value
  }

  lemma TouchedSnoc(shape: Shape, picks: seq<Pick>, pick: Pick)
    ensures Touched(shape, picks + [pick])
            == Touched(shape, picks)
               + if RequestOf(shape, pick.path).Some? then {RequestOf(shape, pick.path).value} else {}
  {
    var all := picks + [pick];
    forall x | x in Touched(shape, picks) ensures x in Touched(shape, all) {
      var i :| 0 <= i < |picks| && RequestOf(shape, picks[i].path) == Some(x);
      assert all[i] == picks[i];
    }
    assert all[|picks|] == pick;
  }

  /** Everything the loop has picked so far and will still pick. */
  function AllPicks(picks: seq<Pick>, v: Json, rest: seq<Path>, hash: string -> string, st: StoreState)
    : (seq<Pick>, StoreState)
  {
    (picks + Picks(v, rest, hash, st).0, Picks(v, rest, hash, st).1)
  }

  lemma PicksMiss(picks: seq<Pick>, v: Json, p: Path, rest: seq<Path>, hash: string -> string, st: StoreState,
                  next: StoreState)
    requires var (put, after) := PutResult(st, hash(TextAt(v, p)), TextAt(v, p));
             if Gate(TextAt(v, p), hash) then put.None? && next == after else next == st
    ensures AllPicks(picks, v, [p] + rest, hash, st) == AllPicks(picks, v, rest, hash, next)
  {
    PicksStep(v, p, rest, hash, st);
    var later := Picks(v, rest, hash, next).0;
    assert [] + later == later;
  }

  lemma PicksHit(picks: seq<Pick>, v: Json, p: Path, rest: seq<Path>, hash: string -> string, st: StoreState,
                 next: StoreState)
    requires var (put, after) := PutResult(st, hash(TextAt(v, p)), TextAt(v, p));
             Gate(TextAt(v, p), hash) && put.Some? && next == after
    ensures AllPicks(picks, v, [p] + rest, hash, st)
            == AllPicks(picks + [Pick(p, TextAt(v, p), hash(TextAt(v, p)))], v, rest, hash, next)
  {
    PicksStep(v, p, rest, hash, st);
    Assoc(picks, [Pick(p, TextAt(v, p), hash(TextAt(v, p)))], Picks(v, rest, hash, next).0);
  }

  /** The loop's tallies are those of the picks so far. */
  predicate Tallied(replacements: seq<Replacement<char>>, hashes: seq<string>, touched: set<nat>,
                    shape: Shape, v: Json, base: nat, picks: seq<Pick>)
  {
    replacements == PickMoves(v, base, picks) && hashes == HashesOf(picks) && touched == Touched(shape, picks)
  }

  lemma TalliedSnoc(replacements: seq<Replacement<char>>, hashes: seq<string>, touched: set<nat>,
                    shape: Shape, v: Json, base: nat, picks: seq<Pick>, pick: Pick)
    requires Tallied(replacements, hashes, touched, shape, v, base, picks)
    ensures Tallied(replacements + [PickMove(v, base, pick)], hashes + [pick.hash],
                    touched + (if RequestOf(shape, pick.path).Some? then {RequestOf(shape, pick.path).value} else {}),
                    shape, v, base, picks + [pick])
  {
    TouchedSnoc(shape, picks, pick);
  }

  method CompressSlots(slots: seq<Slot>, hash: string -> string, store: CcrStore,
                       shape: Shape, ghost v: Json, ghost ps: seq<Path>, ghost base: nat)
    returns (replacements: seq<Replacement<char>>, hashes: seq<string>, touched: set<nat>)
    requires slots == SlotsFor(shape, v, ps, base)
    modifies store
    ensures var (picks, end) := Picks(v, ps, hash, old(store.State()));
            store.State() == end && Tallied(replacements, hashes, touched, shape, v, base, picks)
  {
    hide Tallied, AllPicks, Picks, Gate, SlotAt, RequestOf;
    replacements, hashes, touched := [], [], {};
    ghost var picks: seq<Pick> := [];
    ghost var all := Picks(v, ps, hash, store.State());
    assert ps[0..] == ps;
    NothingPickedYet(v, ps, hash, store.State(), shape, base);
    for i := 0 to |slots|
      invariant AllPicks(picks, v, ps[i..], hash, store.State()) == all
      invariant Tallied(replacements, hashes, touched, shape, v, base, picks)
    {
      assert ps[i..] == [ps[i]] + ps[i + 1..];
      replacements, hashes, touched, picks :=
        CompressNext(slots[i], hash, store, shape, v, ps[i], ps[i + 1..], base, picks, all, replacements, hashes,
          touched);
    }
    assert ps[|slots|..] == [];
    AllPicked(picks, v, hash, store.State());
  }

  lemma NothingPickedYet(v: Json, ps: seq<Path>, hash: string -> string, st: StoreState, shape: Shape, base: nat)
    ensures AllPicks([], v, ps, hash, st) == Picks(v, ps, hash, st) && Tallied([], [], {}, shape, v, base, [])
  {
    hide Gate;
    var all := Picks(v, ps, hash, st).0;
    assert [] + all == all;
  }

  lemma AllPicked(picks: seq<Pick>, v: Json, hash: string -> string, st: StoreState)
    ensures AllPicks(picks, v, [], hash, st) == (picks, st)
  {
    assert picks + [] == picks;
  }

  lemma GatedBytes(text: string, hash: string -> string)
    requires Gate(text, hash)
    ensures Bytes(text) >= LIVE_ZONE_MIN_BYTES
  {
  }

  /** One turn of the loop over slots. */
  method CompressNext(slot: Slot, hash: string -> string, store: CcrStore, shape: Shape, ghost v: Json, ghost p: Path,
                      ghost rest: seq<Path>, ghost base: nat, ghost picks: seq<Pick>,
                      ghost all: (seq<Pick>, StoreState),
                      replacements: seq<Replacement<char>>, hashes: seq<string>, touched: set<nat>)
    returns (replacements1: seq<Replacement<char>>, hashes1: seq<string>, touched1: set<nat>, ghost picks1: seq<Pick>)
    requires slot == SlotAt(v, p, base, RequestOf(shape, p))
    requires AllPicks(picks, v, [p] + rest, hash, store.State()) == all
    requires Tallied(replacements, hashes, touched, shape, v, base, picks)
    modifies store
    ensures AllPicks(picks1, v, rest, hash, store.State()) == all
    ensures Tallied(replacements1, hashes1, touched1, shape, v, base, picks1)
  {
    hide Tallied, AllPicks, Gate, SlotAt, RequestOf, PickMove, TextAt;
    ghost var st := store.State();
    SlotText(v, p, base, RequestOf(shape, p));
    var r := CompressSlot(slot, hash, store);
    replacements1, hashes1, touched1, picks1 := replacements, hashes, touched, picks;
    if r.Some? {
      ghost var pick := Pick(p, slot.text, r.value.1);
      GatedBytes(slot.text, hash);
      PickFrom(v, p, base, shape, r.value.1);
      TalliedSnoc(replacements, hashes, touched, shape, v, base, picks, pick);
      PicksHit(picks, v, p, rest, hash, st, store.State());
      picks1 := picks + [pick];
      replacements1, hashes1 := replacements + [r.value.0], hashes + [r.value.1];
      touched1 := touched + (if slot.request.Some? then {slot.request.value} else {});
    } else {
      PicksMiss(picks, v, p, rest, hash, st, store.State());
    }
  }

  lemma PickMovesOf(v: Json, base: nat, picks: seq<Pick>)
    requires Tokens(v, SlotEditsOf(picks))
    ensures AllFit(v, SlotEditsOf(picks)) && PickMoves(v, base, picks) == Moves(v, SlotEditsOf(picks), base)
  {
    var es := SlotEditsOf(picks);
    forall i | 0 <= i < |picks| ensures PickMove(v, base, picks[i]) == Moved(Rep(v, es[i]), base) {}
  }

  /** Sorting the ranges by start is sorting the edits by position. */
  lemma SortedMoves(v: Json, base: nat, es: seq<Edit>, sorted: seq<Edit>)
    requires AllFit(v, es) && Tokens(v, sorted) && Planned(v, sorted) && multiset(sorted) == multiset(es)
    ensures Visited(Moves(v, es, base)) == Moves(v, sorted, base)
  {
    var a, b := Moves(v, es, base), Moves(v, sorted, base);
    MovesBag(v, es, sorted, base);
    MovesAscend(v, sorted, base);
    StartsBeforeOrder();
    SortAscends(a, StartsBefore);
    SortPermutes(a, StartsBefore);
    MovesSeparate(v, sorted, base);
    AscendingUnique(b, Sort(a, StartsBefore), StartsBefore);
  }

  lemma StartsBeforeOrder()
    ensures WeakOrder<Replacement<char>>(StartsBefore)
  {
  }

  lemma MovesPicked(v: Json, front: seq<Edit>, e: Edit, behind: seq<Edit>, base: nat)
    requires AllFit(v, front + [e] + behind) && AllFit(v, front + behind) && AllFit(v, [e])
    ensures multiset(Moves(v, front + [e] + behind, base))
            == multiset(Moves(v, [e], base)) + multiset(Moves(v, front + behind, base))
  {
    hide Moves, AllFit;
    MovesParts(v, front + [e], behind, base);
    MovesParts(v, front, [e], base);
    MovesParts(v, front, behind, base);
  }

  lemma MovesParts(v: Json, a: seq<Edit>, b: seq<Edit>, base: nat)
    requires AllFit(v, a + b)
    ensures AllFit(v, a) && AllFit(v, b) && Moves(v, a + b, base) == Moves(v, a, base) + Moves(v, b, base)
  {
    forall i | 0 <= i < |a| ensures Fits(v, a[i]) { assert (a + b)[i] == a[i]; }
    forall i | 0 <= i < |b| ensures Fits(v, b[i]) { assert (a + b)[|a| + i] == b[i]; }
    MovesConcat(v, a, b, base);
  }

  lemma PickBag(a: seq<Edit>, b: seq<Edit>, k: nat)
    requires multiset(a) == multiset(b) && a != [] && k < |b| && b[k] == a[0]
    ensures multiset(a[1..]) == multiset(b[..k] + b[k + 1..])
  {
    assert a == [a[0]] + a[1..];
    BagWithout(b, k);
    Cancel(multiset{a[0]}, multiset(a[1..]), multiset(b[..k] + b[k + 1..]));
  }

  lemma FitWithout(v: Json, b: seq<Edit>, k: nat)
    requires AllFit(v, b) && k < |b|
    ensures AllFit(v, [b[k]]) && AllFit(v, b[..k] + b[k + 1..]) && b == b[..k] + [b[k]] + b[k + 1..]
  {
    hide Fits;
  }

  lemma {:induction false} MovesBag(v: Json, a: seq<Edit>, b: seq<Edit>, base: nat)
    requires AllFit(v, a) && AllFit(v, b) && multiset(a) == multiset(b)
    ensures multiset(Moves(v, a, base)) == multiset(Moves(v, b, base))
    decreases |a|
  {
    hide Moves, AllFit;
    if a == [] {
      assert |b| == |multiset(b)| == 0;
    } else {
      assert a[0] in multiset(b);
      var k :| 0 <= k < |b| && b[k] == a[0];
      PickBag(a, b, k);
      FitWithout(v, a, 0);
      FitWithout(v, b, k);
      assert a[..0] + a[1..] == a[1..] && a[..0] + [a[0]] + a[1..] == [a[0]] + a[1..];
      MovesBag(v, a[1..], b[..k] + b[k + 1..], base);
      MovesParts(v, [a[0]], a[1..], base);
      MovesPicked(v, b[..k], a[0], b[k + 1..], base);
    }
  }

  lemma MovesAscend(v: Json, es: seq<Edit>, base: nat)
    requires Planned(v, es)
    ensures Ascending(Moves(v, es, base), StartsBefore)
  {
    var rs := Moves(v, es, base);
    forall i, j | 0 <= i < j < |rs| ensures !StartsBefore(rs[j], rs[i]) {
      PrecedesStable(v, es[i], es[j]);
      StepRender(v, es[i]);
    }
  }

  lemma MovesSeparate(v: Json, es: seq<Edit>, base: nat)
    requires Planned(v, es) && Tokens(v, es)
    ensures Separates(Moves(v, es, base), StartsBefore)
  {
    hide Render, Head, Moved;
    var rs := Moves(v, es, base);
    forall x, y | x in rs && y in rs && !StartsBefore(x, y) && !StartsBefore(y, x) ensures x == y {
      var i :| 0 <= i < |rs| && rs[i] == x;
      var j :| 0 <= j < |rs| && rs[j] == y;
      if i < j { TokenFirst(v, es[i], es[j]); }
      if j < i { TokenFirst(v, es[j], es[i]); }
    }
  }

  lemma TokenFirst(v: Json, d: Edit, e: Edit)
    requires Fits(v, d) && Fits(v, e) && Precedes(d, e) && d.Put? && At(v, d.path).Str?
    ensures Rep(v, d).lo < Rep(v, e).lo
  {
    PrecedesStable(v, d, e);
    assert |Render(At(v, d.path))| >= 2;
  }

  // ----- stage 3 -----

  lemma AppendPlans(shape: Shape, chosen: set<nat>, w: Wording)
    ensures Plans(AppendPlan(shape, chosen, w))
  {
  }

  method AppendEntry(v: Json, k: nat, i: nat, entry: Json, base: nat, chosen: set<nat>, w: Wording,
                     replacements: seq<Replacement<char>>)
    returns (out: seq<Replacement<char>>)
    requires HasPath(v, [k, i]) && At(v, [k, i]) == entry && Wf(entry)
    ensures var es := RebaseAll([k, i], EntryEdits(i, entry, AppendPlan(AnthropicBatches, chosen, w)));
            AllFit(v, es) && out == replacements + Moves(v, es, base)
  {
    ghost var g := AppendPlan(AnthropicBatches, chosen, w);
    var q := Field(entry, "params");
    if !ViewOk(entry, {"params"}) || q.None? {
      NoEntryMoves(v, [k, i], i, g, base, entry);
      assert replacements + [] == replacements;
      return replacements;
    }
    DeeperPath(v, [k, i], q.value);
    var params, offset := entry.kids[q.value].value, base + |Head(v, [k, i] + [q.value])|;
    assert KidOk(entry.isObj, entry.kids[q.value]);
    AppendPlans(AnthropicBatches, chosen, w);
    EntryMoves(v, [k, i], i, q.value, g, base, entry, params, offset);
    out := AppendChosen(params, offset, i, chosen, w, replacements);
  }

  method AppendChosen(params: Json, offset: nat, i: nat, chosen: set<nat>, w: Wording,
                      replacements: seq<Replacement<char>>)
    returns (out: seq<Replacement<char>>)
    requires Wf(params)
    ensures var es := AppendPlan(AnthropicBatches, chosen, w)(i, params);
            AllFit(params, es) && out == replacements + Moves(params, es, offset)
  {
    assert replacements + [] == replacements;
    if i !in chosen { return replacements; }
    var planned;
    planned, out := PlanToolAppend("", params, "", offset, AnthropicBatches, w, replacements);
  }

  method AppendEntries(v: Json, k: nat, base: nat, chosen: set<nat>, w: Wording) returns (out: seq<Replacement<char>>)
    requires Wf(v) && v.Box? && k < |v.kids| && IsList(v.kids[k].value)
    ensures var es := EntriesDone(v, k, |v.kids[k].value.kids|, AppendPlan(AnthropicBatches, chosen, w));
            AllFit(v, es) && out == Moves(v, es, base)
  {
    ghost var g := AppendPlan(AnthropicBatches, chosen, w);
    var n := |v.kids[k].value.kids|;
    EntriesNone(v, k, g);
    AppendPlans(AnthropicBatches, chosen, w);
    out := [];
    for i := 0 to n
      invariant AllFit(v, EntriesDone(v, k, i, g)) && out == Moves(v, EntriesDone(v, k, i, g), base)
    {
      EntryWf(v, k, i);
      ghost var before := out;
      var entry := v.kids[k].value.kids[i].value;
      out := AppendEntry(v, k, i, entry, base, chosen, w, out);
      EntriesTurn(v, k, i, g, base, entry, before, out);
    }
  }

  method PlanRetrieve(shape: Shape, d: Doc, chosen: set<nat>, w: Wording) returns (out: seq<Replacement<char>>)
    requires WfDoc(d) && (shape != AnthropicBatches ==> chosen <= {0})
    requires 0 in chosen && shape != AnthropicBatches ==> !Misjudged(d.pre, d.root)
    ensures AllFit(d.root, RetrieveEdits(shape, d.root, chosen, w))
    ensures out == Moves(d.root, RetrieveEdits(shape, d.root, chosen, w), |d.pre|)
  {
    hide ToolAppend, KeyIndex, Rep, Wf;
    if shape == AnthropicBatches {
      var k := ListField(d.root, "requests");
      if k.None? { return []; }
      EntriesAll(d.root, k.value, AppendPlan(AnthropicBatches, chosen, w));
      out := AppendEntries(d.root, k.value, |d.pre|, chosen, w);
    } else if 0 in chosen {
      var planned;
      planned, out := PlanToolAppend(d.pre, d.root, d.post, 0, shape, w, []);
    } else {
      out := [];
    }
  }

  /** A request that receives the tool is never an empty object behind blanks. */
  lemma ReceiverNotEmpty(shape: Shape, v: Json, ctx: Context, prim: Primitives, st: StoreState)
    requires shape != AnthropicBatches
    requires var s := Rewrite(shape, v, ctx, prim, st);
             0 in Receivers(shape, s.picks, HasMarker(Sem(v, prim.number)))
    ensures var s := Rewrite(shape, v, ctx, prim, st); Object(s.slotted) ==> s.slotted.kids != []
  {
    var s := Rewrite(shape, v, ctx, prim, st);
    SlotsPlanned(shape, s.normal, ctx, prim.hash, st);
    if s.picks != [] {
      PlannedSlots(shape, s.normal, ctx.frozen, ctx.userText);
      PickPath(shape, s.normal, ctx, prim.hash, st);
      SlottedRoot(s.normal, s.picks);
    } else {
      assert SlotEdits(s.picks) == [];
      if v.Box? {
        MetadataPlanned(shape, v, prim);
        MetadataBelow(shape, v, prim);
        EditedRoot(v, MetadataEdits(shape, v, prim));
        EmptyUnmarked(v, prim.number);
      } else {
        assert MetadataEdits(shape, v, prim) == [];
      }
    }
  }

  lemma EmptyUnmarked(v: Json, number: string -> string)
    ensures v.Box? && v.kids == [] ==> !HasMarker(Sem(v, number))
  {
  }

  lemma PickPath(shape: Shape, v: Json, ctx: Context, hash: string -> string, st: StoreState)
    ensures var picks := Picks(v, Candidates(shape, v, ctx), hash, st).0;
            forall i :: 0 <= i < |picks| ==> picks[i].path != [] && HasPath(v, picks[i].path)
  {
    hide SlotPaths, Picks, Compressible, Text;
    var picks := Picks(v, Candidates(shape, v, ctx), hash, st).0;
    PlannedSlots(shape, v, ctx.frozen, ctx.userText);
    PicksChosen(v, Candidates(shape, v, ctx), hash, st);
    forall i | 0 <= i < |picks| ensures picks[i].path != [] && HasPath(v, picks[i].path) {
      var k :| 0 <= k < |Candidates(shape, v, ctx)| && Candidates(shape, v, ctx)[k] == picks[i].path;
      assert SlotOk(v, picks[i].path, ctx.userText);
    }
  }

  lemma SlottedRoot(v: Json, picks: seq<Pick>)
    requires Planned(v, SlotEdits(picks)) && picks != []
    requires multiset(SlotEdits(picks)) == multiset(SlotEditsOf(picks))
    requires forall i :: 0 <= i < |picks| ==> picks[i].path != [] && HasPath(v, picks[i].path)
    ensures v.Box? && v.kids != [] && Edited(v, SlotEdits(picks)).Box? && Edited(v, SlotEdits(picks)).kids != []
  {
    var es := SlotEdits(picks);
    assert HasPath(v, picks[0].path);
    forall i | 0 <= i < |es| ensures es[i].path != [] { SlotEditFrom(picks, i); }
    EditedRoot(v, es);
  }

  lemma ToolEditsBelow(v: Json, anthropic: bool, prim: Primitives)
    ensures forall i :: 0 <= i < |ToolEdits(v, anthropic, prim)| ==> ToolEdits(v, anthropic, prim)[i].path != []
  {
  }

  lemma MetadataBelow(shape: Shape, v: Json, prim: Primitives)
    ensures forall i :: 0 <= i < |MetadataEdits(shape, v, prim)| ==> MetadataEdits(shape, v, prim)[i].path != []
  {
    if shape != AnthropicBatches { ToolEditsBelow(v, Anthropic(shape), prim); }
  }

  // ----- all stages -----

  lemma Reparsed(d: Doc)
    requires WfDoc(d)
    ensures Parse(RenderDoc(d)) == Some(d)
  {
    ParseComplete(d);
  }

  method NormalizeBody(d: Doc, shape: Shape, ctx: Context, prim: Primitives) returns (current: string)
    requires WfDoc(d) && GoodNumbers(prim.number)
    ensures current == RenderDoc(d.(root := Normalized(shape, d.root, ctx, prim)))
  {
    MetadataPlanned(shape, d.root, prim);
    current := RenderDoc(d);
    if Adorned(ctx) {
      var replacements := PlanMetadata(shape, d.root, |d.pre|, prim);
      if replacements != [] {
        MovesVisited(d, MetadataEdits(shape, d.root, prim));
        current := SpliceStage(d, MetadataEdits(shape, d.root, prim), replacements);
      } else {
        NoMoves(d.root, MetadataEdits(shape, d.root, prim), |d.pre|);
      }
    }
  }

  method CompressBody(d: Doc, shape: Shape, ctx: Context, prim: Primitives, store: CcrStore)
    returns (spliced: string, hashes: seq<string>, touched: set<nat>)
    modifies store
    ensures var (picks, end) := Picks(d.root, Candidates(shape, d.root, ctx), prim.hash, old(store.State()));
            && store.State() == end && hashes == HashesOf(picks) && touched == Touched(shape, picks)
            && spliced == RenderDoc(d.(root := Slotted(shape, d.root, ctx, prim.hash, old(store.State()))))
  {
    ghost var st := store.State();
    ghost var picks := Picks(d.root, Candidates(shape, d.root, ctx), prim.hash, st).0;
    var slots := PlanSlots(shape, d.root, |d.pre|, ctx.frozen, ctx.userText);
    var replacements;
    replacements, hashes, touched :=
      CompressSlots(slots, prim.hash, store, shape, d.root, Candidates(shape, d.root, ctx), |d.pre|);
    SlotsPlanned(shape, d.root, ctx, prim.hash, st);
    PlannedSlots(shape, d.root, ctx.frozen, ctx.userText);
    PickTokens(d.root, Candidates(shape, d.root, ctx), ctx.userText, prim.hash, st);
    PickMovesOf(d.root, |d.pre|, picks);
    SortedMoves(d.root, |d.pre|, SlotEditsOf(picks), SlotEdits(picks));
    spliced := RenderDoc(d);
    if replacements != [] {
      spliced := SpliceStage(d, SlotEdits(picks), replacements);
    }
  }

  method InjectTool(d: Doc, shape: Shape, chosen: set<nat>, w: Wording) returns (injected: string)
    requires WfDoc(d) && (shape != AnthropicBatches ==> chosen <= {0})
    requires 0 in chosen && shape != AnthropicBatches ==> !Misjudged(d.pre, d.root)
    ensures injected == RenderDoc(d.(root := Tooled(shape, d.root, chosen, w)))
  {
    RetrievePlanned(shape, d.root, chosen, w);
    var replacements := PlanRetrieve(shape, d, chosen, w);
    injected := RenderDoc(d);
    if replacements != [] {
      MovesVisited(d, RetrieveEdits(shape, d.root, chosen, w));
      injected := SpliceStage(d, RetrieveEdits(shape, d.root, chosen, w), replacements);
    } else {
      NoMoves(d.root, RetrieveEdits(shape, d.root, chosen, w), |d.pre|);
    }
  }

  method InjectKey(d: Doc, shape: Shape, prim: Primitives) returns (out: string)
    requires WfDoc(d)
    ensures out == KeyedBody(d, shape, prim)
  {
    var planned, replacements := PlanPromptCacheKey(d, shape, prim);
    out := RenderDoc(d);
    if planned {
      KeySplice(d, shape, prim);
      out := ApplyAll(out, replacements);
    }
  }

  lemma TouchedReceivers(shape: Shape, picks: seq<Pick>, marked: bool)
    ensures shape == AnthropicBatches ==> Receivers(shape, picks, marked) == Touched(shape, picks)
  {
    if shape == AnthropicBatches {
      forall i | 0 <= i < |picks|
        ensures RequestOf(shape, picks[i].path) == if |picks[i].path| >= 2 then Some(picks[i].path[1]) else None {}
    }
  }

  lemma ReceiversSmall(shape: Shape, picks: seq<Pick>, marked: bool)
    requires shape != AnthropicBatches
    ensures Receivers(shape, picks, marked) <= {0}
  {
  }

  /** Live-zone compression and the retrieve tool, on the text of a normalised request. */
  method CompressAndInject(d: Doc, shape: Shape, ctx: Context, prim: Primitives, marked: bool, store: CcrStore)
    returns (final: string, hashes: seq<string>)
    requires WfDoc(d)
    requires var picks := Picks(d.root, Candidates(shape, d.root, ctx), prim.hash, store.State()).0;
             var slotted := Slotted(shape, d.root, ctx, prim.hash, store.State());
             && Wf(slotted)
             && (0 in Receivers(shape, picks, marked) && shape != AnthropicBatches ==> !Misjudged(d.pre, slotted))
    modifies store
    ensures var (picks, end) := Picks(d.root, Candidates(shape, d.root, ctx), prim.hash, old(store.State()));
            var slotted := Slotted(shape, d.root, ctx, prim.hash, old(store.State()));
            && store.State() == end && hashes == HashesOf(picks)
            && final == RenderDoc(d.(root := Tooled(shape, slotted, Receivers(shape, picks, marked), prim.wording)))
  {
    ghost var slotted := Slotted(shape, d.root, ctx, prim.hash, store.State());
    ghost var picks := Picks(d.root, Candidates(shape, d.root, ctx), prim.hash, store.State()).0;
    var spliced, touched;
    spliced, hashes, touched := CompressBody(d, shape, ctx, prim, store);
    Reparsed(d.(root := slotted));
    var compressed := Parse(spliced).value;
    var chosen := if shape == AnthropicBatches then touched else if hashes != [] || marked then {0} else {};
    TouchedReceivers(shape, picks, marked);
    if shape != AnthropicBatches { ReceiversSmall(shape, picks, marked); }
    final := InjectTool(compressed, shape, chosen, prim.wording);
  }

  lemma RewriteParts(shape: Shape, v: Json, ctx: Context, prim: Primitives, st: StoreState, normal: Json, marked: bool)
    requires normal == Normalized(shape, v, ctx, prim) && marked == HasMarker(Sem(v, prim.number))
    ensures var s := Rewrite(shape, v, ctx, prim, st);
            var (picks, end) := Picks(normal, Candidates(shape, normal, ctx), prim.hash, st);
            && s.normal == normal && s.picks == picks && s.store == end
            && s.slotted == Slotted(shape, normal, ctx, prim.hash, st)
            && s.tooled == Tooled(shape, s.slotted, Receivers(shape, picks, marked), prim.wording)
  {
  }

  /** The whole rewriter: its text is that of the tree edits, stage by stage. */
  method CompressJsonRequest(body: string, shape: Shape, ctx: Context, prim: Primitives, store: CcrStore)
    returns (r: Outcome)
    requires GoodNumbers(prim.number)
    modifies store
    ensures (r, store.State()) == Rewritten(body, shape, ctx, prim, old(store.State()))
  {
    var parsed := Parse(body);
    if parsed.None? { return Outcome(body, false, []); }
    var d := parsed.value;
    ParseSound(body);
    if MultiChoice(shape, d.root) { return Outcome(body, false, []); }
    r := CompressParsed(d, shape, ctx, prim, store);
  }

  method CompressParsed(d: Doc, shape: Shape, ctx: Context, prim: Primitives, store: CcrStore) returns (r: Outcome)
    requires WfDoc(d) && GoodNumbers(prim.number)
    modifies store
    ensures var s := Rewrite(shape, d.root, ctx, prim, old(store.State()));
            && store.State() == s.store
            && r == Outcome(NewBody(shape, d, ctx, prim, old(store.State())), s.picks != [], HashesOf(s.picks))
  {
    hide Tooled, Slotted, Receivers, Candidates, HasMarker, Sem, Picks, Normalized, HashesOf;
    ghost var st := store.State();
    var marked := HasMarker(Sem(d.root, prim.number));
    ghost var s := Rewrite(shape, d.root, ctx, prim, st);
    StagesWf(shape, d.root, ctx, prim, st);
    RewriteParts(shape, d.root, ctx, prim, st, Normalized(shape, d.root, ctx, prim), marked);
    if 0 in Receivers(shape, s.picks, marked) && shape != AnthropicBatches {
      ReceiverNotEmpty(shape, d.root, ctx, prim, st);
    }
    var current := NormalizeBody(d, shape, ctx, prim);
    Reparsed(d.(root := s.normal));
    var final, hashes := CompressAndInject(Parse(current).value, shape, ctx, prim, marked, store);
    Reparsed(d.(root := s.tooled));
    if Keyed(shape, ctx) { final := InjectKey(Parse(final).value, shape, prim); }
    r := Outcome(final, hashes != [], hashes);
  }

  // ----- which bodies come out as JSON -----

  predicate EmptyRoot(v: Json) { Object(v) && v.kids == [] }

  lemma NormalizedRoot(shape: Shape, v: Json, ctx: Context, prim: Primitives)
    ensures EmptyRoot(Normalized(shape, v, ctx, prim)) <==> EmptyRoot(v)
  {
    MetadataPlanned(shape, v, prim);
    MetadataBelow(shape, v, prim);
    if v.Box? {
      EditedRoot(v, MetadataEdits(shape, v, prim));
    } else {
      assert MetadataEdits(shape, v, prim) == [];
    }
  }

  lemma SlottedEmpty(shape: Shape, v: Json, ctx: Context, hash: string -> string, st: StoreState)
    ensures EmptyRoot(Slotted(shape, v, ctx, hash, st)) <==> EmptyRoot(v)
  {
    var picks := Picks(v, Candidates(shape, v, ctx), hash, st).0;
    SlotsPlanned(shape, v, ctx, hash, st);
    if picks == [] {
      assert SlotEdits(picks) == [];
    } else {
      PlannedSlots(shape, v, ctx.frozen, ctx.userText);
      PickPath(shape, v, ctx, hash, st);
      SlottedRoot(v, picks);
    }
  }

  lemma TooledRoot(shape: Shape, v: Json, chosen: set<nat>, w: Wording)
    requires shape != AnthropicBatches && (0 in chosen ==> !EmptyRoot(v))
    ensures EmptyRoot(Tooled(shape, v, chosen, w)) <==> EmptyRoot(v)
  {
    RetrievePlanned(shape, v, chosen, w);
    var es := RetrieveEdits(shape, v, chosen, w);
    if es != [] {
      var e := ToolAppend(v, shape, w).value;
      assert es == [e];
      EditedOne(v, e);
      if e.path != [] { assert |Step(v, e).kids| == |v.kids|; }
    }
  }

  /** No stage turns an empty root object into another root, or the other way round. */
  lemma RootStays(shape: Shape, v: Json, ctx: Context, prim: Primitives, st: StoreState)
    requires shape != AnthropicBatches
    ensures EmptyRoot(Rewrite(shape, v, ctx, prim, st).tooled) <==> EmptyRoot(v)
  {
    var s := Rewrite(shape, v, ctx, prim, st);
    var chosen := Receivers(shape, s.picks, HasMarker(Sem(v, prim.number)));
    NormalizedRoot(shape, v, ctx, prim);
    SlottedEmpty(shape, s.normal, ctx, prim.hash, st);
    if 0 in chosen { ReceiverNotEmpty(shape, v, ctx, prim, st); }
    TooledRoot(shape, s.slotted, chosen, prim.wording);
  }

  /**
   * For every JSON body of every shape the output is JSON, and repeats no key unless the
   * input did, exactly when no cache key has to go into an empty root object that
   * stands behind leading blanks.
   */
  lemma OutputParses(shape: Shape, d: Doc, ctx: Context, prim: Primitives, st: StoreState)
    requires WfDoc(d) && GoodNumbers(prim.number) && GoodKeys(prim)
    ensures var misled := ctx.metadata && ctx.auth == Payg && (shape == OpenAiChat || shape == OpenAiResponses)
                          && d.pre != "" && EmptyRoot(d.root);
            var n := NewDoc(shape, d, ctx, prim, st);
            && (Parse(NewBody(shape, d, ctx, prim, st)).Some? <==> !misled)
            && (!misled ==> Parse(NewBody(shape, d, ctx, prim, st)) == Some(n) && (Tidy(d.root) ==> Tidy(n.root)))
  {
    var tooled := d.(root := Rewrite(shape, d.root, ctx, prim, st).tooled);
    StagesWf(shape, d.root, ctx, prim, st);
    if Keyed(shape, ctx) {
      RootStays(shape, d.root, ctx, prim, st);
      KeyedBodyParses(tooled, shape, prim);
      if EmptyRoot(tooled.root) { NoMembers(tooled.root, shape, prim); }
    }
    if Keyed(shape, ctx) ==> !BreaksBody(tooled, shape, prim) {
      NewBodySound(shape, d, ctx, prim, st);
      ParseComplete(NewDoc(shape, d, ctx, prim, st));
    }
  }
}
