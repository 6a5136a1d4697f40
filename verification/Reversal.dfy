/** Compression saves bytes and can be undone: over one request and over whole runs. */
module Reversal {
  import opened Prelude
  import opened Json
  import opened JsonParser
  import opened JsonEdits
  import opened EditLists
  import opened Values
  import opened Ccr
  import opened LiveZone
  import opened Tools
  import opened Rewriting
  import opened EditFacts
  import opened StageFacts
  import opened Preservation

  // ----- savings -----

  ghost predicate GoodHash(hash: string -> string) { forall t :: IsHash(hash(t)) }

  /** A text of at least 512 bytes always beats its marker in tokens. */
  lemma GateExact(text: string, hash: string -> string)
    requires IsHash(hash(text))
    ensures Gate(text, hash) <==> !Contains(text, "<<ccr:") && Bytes(text) >= 512
  {
    MarkerShape(hash(text));
  }

  lemma {:induction false} AsciiBytes(s: string)
    requires forall i :: 0 <= i < |s| ==> s[i] as nat < 0x80
    ensures Bytes(s) == |s|
  {
    if s != "" { AsciiBytes(s[1..]); }
  }

  lemma MarkerToken(h: string)
    requires IsHash(h)
    ensures Encode(Marker(h)) == Marker(h) && Text(Encode(Marker(h))) == Marker(h)
    ensures Bytes(Render(Str(Encode(Marker(h))))) == 34
  {
    MarkerShape(h);
    var m := Marker(h);
    assert Plain(m);
    PlainText(m);
    assert |Render(Str(m))| == 34;
    AsciiBytes(Render(Str(m)));
  }

  lemma TokenBytes(body: string)
    requires Decode(body).Some?
    ensures Bytes(Render(Str(body))) >= Bytes(Text(body)) + 2
  {
    DecodeBytes(body);
    BytesConcat("\"" + body, "\"");
    BytesConcat("\"", body);
  }

  predicate Shrinks(x: Json, e: Edit) { e.Put? && Bytes(Render(e.node)) + 480 <= Bytes(Render(x)) }

  lemma StepShrinks(v: Json, e: Edit)
    requires Fits(v, e) && Judged(v, e, Shrinks)
    ensures Bytes(Render(Step(v, e))) + 480 <= Bytes(Render(v))
  {
    var a, b := Head(v, e.path), Tail(v, e.path);
    RenderAt(v, e.path);
    RenderWith(v, e.path, e.node);
    BytesConcat(a + Render(At(v, e.path)), b);
    BytesConcat(a, Render(At(v, e.path)));
    BytesConcat(a + Render(e.node), b);
    BytesConcat(a, Render(e.node));
  }

  lemma {:induction false} EditedShrinks(v: Json, es: seq<Edit>)
    requires Planned(v, es) && AllJudged(v, es, Shrinks)
    ensures Bytes(Render(Edited(v, es))) + 480 * |es| <= Bytes(Render(v))
    decreases |es|
  {
    if es != [] {
      JudgedInit(v, es, Shrinks);
      assert Judged(v, es[|es| - 1], Shrinks);
      StepShrinks(v, es[|es| - 1]);
      EditedShrinks(Step(v, es[|es| - 1]), es[..|es| - 1]);
    }
  }

  lemma PickShrinks(v: Json, pick: Pick, hash: string -> string)
    requires Wf(v) && HasPath(v, pick.path) && At(v, pick.path).Str? && pick.text == TextAt(v, pick.path)
    requires IsHash(pick.hash) && Bytes(pick.text) >= LIVE_ZONE_MIN_BYTES
    ensures Judged(v, SlotEdit(pick), Shrinks)
  {
    WfAt(v, pick.path);
    MarkerToken(pick.hash);
    TokenBytes(At(v, pick.path).body);
    JudgedPut(v, pick.path, Str(Encode(Marker(pick.hash))), Shrinks);
  }

  /** Compression removes at least 480 bytes for every token it replaces. */
  lemma SlotsSave(shape: Shape, v: Json, ctx: Context, hash: string -> string, st: StoreState)
    requires Wf(v) && GoodHash(hash)
    ensures Bytes(Render(Slotted(shape, v, ctx, hash, st))) + 480 * |Picks(v, Candidates(shape, v, ctx), hash, st).0|
            <= Bytes(Render(v))
  {
    SlotsPlanned(shape, v, ctx, hash, st);
    var picks := Picks(v, Candidates(shape, v, ctx), hash, st).0;
    var es := SlotEdits(picks);
    forall i | 0 <= i < |es| ensures Judged(v, es[i], Shrinks) {
      SlotEditFrom(picks, i);
      var j :| 0 <= j < |picks| && es[i] == SlotEdit(picks[j]);
      PickSlot(shape, v, ctx, hash, st, j);
      PickShrinks(v, picks[j], hash);
    }
    EditedShrinks(v, es);
  }

  // ----- the store over a run -----

  /** Every entry is filed under its own hash, and its text is among those considered. */
  ghost predicate Honest(table: map<string, string>, hash: string -> string, texts: set<string>) {
    forall h :: h in table ==> hash(table[h]) == h && table[h] in texts
  }

  /** No two of these texts share a hash. */
  ghost predicate CollisionFree(hash: string -> string, texts: set<string>) {
    forall a, b :: a in texts && b in texts && hash(a) == hash(b) ==> a == b
  }

  lemma PutKeeps(st: StoreState, hash: string -> string, text: string, texts: set<string>)
    requires Honest(st.table, hash, texts) && CollisionFree(hash, texts) && text in texts
    ensures var (r, next) := PutResult(st, hash(text), text);
            && Honest(next.table, hash, texts) && Extends(next.table, st.table)
            && (r.Some? ==> Stored(next.table, hash(text)) == Some(text))
  {
  }

  lemma {:induction false} PicksStored(v: Json, ps: seq<Path>, hash: string -> string, st: StoreState,
                                       texts: set<string>)
    requires Honest(st.table, hash, texts) && CollisionFree(hash, texts)
    requires forall i :: 0 <= i < |ps| && Gate(TextAt(v, ps[i]), hash) ==> TextAt(v, ps[i]) in texts
    ensures var (picks, end) := Picks(v, ps, hash, st);
            && Honest(end.table, hash, texts) && Extends(end.table, st.table)
            && forall i :: 0 <= i < |picks| ==> Stored(end.table, picks[i].hash) == Some(picks[i].text)
  {
    if ps != [] {
      var text := TextAt(v, ps[0]);
      if Gate(text, hash) {
        PutKeeps(st, hash, text, texts);
        PicksStored(v, ps[1..], hash, PutResult(st, hash(text), text).1, texts);
      } else {
        PicksStored(v, ps[1..], hash, st, texts);
      }
    }
  }

  /** One use of the proxy: a text compressed on its own, or a request body rewritten. */
  datatype Op = CompressText(input: string, minBytes: nat) | RewriteBody(body: string, shape: Shape, ctx: Context)

  /** A marker handed out, and the text it stands for. */
  datatype Emission = Emission(hash: string, text: string)

  function EmissionsOf(picks: seq<Pick>): (r: seq<Emission>)
    ensures |r| == |picks| && forall i :: 0 <= i < |r| ==> r[i] == Emission(picks[i].hash, picks[i].text)
  {
    seq(|picks|, i requires 0 <= i < |picks| => Emission(picks[i].hash, picks[i].text))
  }

  /** The markers an operation hands out, and the store it leaves. */
  function Perform(op: Op, prim: Primitives, st: StoreState): (seq<Emission>, StoreState) {
    match op
    case CompressText(input, minBytes) =>
      var (r, next) := CompressResult(input, minBytes, prim.hash, st);
      (if r.stored && r.hash.Some? then [Emission(r.hash.value, input)] else [], next)
    case RewriteBody(body, shape, ctx) =>
      var d := Parse(body);
      if d.None? || MultiChoice(shape, d.value.root) then ([], st)
      else
        var s := Rewrite(shape, d.value.root, ctx, prim, st);
        (EmissionsOf(s.picks), s.store)
  }

  /** The operation writes none but these texts. */
  ghost predicate WritesAmong(op: Op, prim: Primitives, texts: set<string>) {
    match op
    case CompressText(input, minBytes) => input in texts
    case RewriteBody(body, shape, ctx) =>
      var d := Parse(body);
      d.Some? ==>
        var v := Normalized(shape, d.value.root, ctx, prim);
        var ps := Candidates(shape, v, ctx);
        forall i :: 0 <= i < |ps| && Gate(TextAt(v, ps[i]), prim.hash) ==> TextAt(v, ps[i]) in texts
  }

  function Run(ops: seq<Op>, prim: Primitives, st: StoreState): StoreState {
    if ops == [] then st else Run(ops[1..], prim, Perform(ops[0], prim, st).1)
  }

  function Emitted(ops: seq<Op>, prim: Primitives, st: StoreState): seq<Emission> {
    if ops == [] then [] else Perform(ops[0], prim, st).0 + Emitted(ops[1..], prim, Perform(ops[0], prim, st).1)
  }

  ghost predicate AllStored(es: seq<Emission>, table: map<string, string>) {
    forall i :: 0 <= i < |es| ==> Stored(table, es[i].hash) == Some(es[i].text)
  }

  lemma PerformKeeps(op: Op, prim: Primitives, st: StoreState, texts: set<string>)
    requires Honest(st.table, prim.hash, texts) && CollisionFree(prim.hash, texts) && WritesAmong(op, prim, texts)
    ensures var (es, next) := Perform(op, prim, st);
            Honest(next.table, prim.hash, texts) && Extends(next.table, st.table) && AllStored(es, next.table)
  {
    match op
    case CompressText(input, minBytes) => PutKeeps(st, prim.hash, input, texts);
    case RewriteBody(body, shape, ctx) =>
      var d := Parse(body);
      if d.Some? && !MultiChoice(shape, d.value.root) {
        var v := Normalized(shape, d.value.root, ctx, prim);
        PicksStored(v, Candidates(shape, v, ctx), prim.hash, st, texts);
      }
  }

  lemma StoredLater(es: seq<Emission>, a: map<string, string>, b: map<string, string>)
    requires AllStored(es, a) && Extends(b, a)
    ensures AllStored(es, b)
  {
  }

  /**
   * Over any run whose texts do not collide, every marker ever handed out resolves at the
   * end to exactly its original, failed writes and repeated texts included.
   */
  lemma {:induction false} MarkersResolve(ops: seq<Op>, prim: Primitives, st: StoreState, texts: set<string>)
    requires Honest(st.table, prim.hash, texts) && CollisionFree(prim.hash, texts)
    requires forall i :: 0 <= i < |ops| ==> WritesAmong(ops[i], prim, texts)
    ensures Extends(Run(ops, prim, st).table, st.table)
    ensures AllStored(Emitted(ops, prim, st), Run(ops, prim, st).table)
  {
    if ops != [] {
      var (es, next) := Perform(ops[0], prim, st);
      PerformKeeps(ops[0], prim, st, texts);
      forall i | 0 <= i < |ops| - 1 ensures WritesAmong(ops[1..][i], prim, texts) { assert ops[1..][i] == ops[i + 1]; }
      MarkersResolve(ops[1..], prim, next, texts);
      StoredLater(es, next.table, Run(ops[1..], prim, next).table);
    }
  }

  // ----- putting the texts back -----

  lemma {:induction false} WithCommute(v: Json, p: Path, q: Path, a: Json, b: Json)
    requires HasPath(v, p) && HasPath(v, q) && Before(p, q)
    ensures HasPath(With(v, q, b), p) && HasPath(With(v, p, a), q)
    ensures With(With(v, q, b), p, a) == With(With(v, p, a), q, b)
    decreases p
  {
    BeforeStable(v, p, q, b);
    AfterStable(v, q, p, a);
    if p[0] == q[0] {
      WithCommute(v.kids[p[0]].value, p[1..], q[1..], a, b);
    }
    assert With(With(v, q, b), p, a).kids == With(With(v, p, a), q, b).kids;
  }

  predicate AllPut(es: seq<Edit>) { forall i :: 0 <= i < |es| ==> es[i].Put? }

  lemma StepsCommute(v: Json, d: Edit, e: Edit)
    requires d.Put? && e.Put? && Fits(v, d) && Fits(v, e) && Before(d.path, e.path)
    ensures Fits(Step(v, d), e) && Fits(Step(v, e), d) && Step(Step(v, d), e) == Step(Step(v, e), d)
  {
    WithCommute(v, d.path, e.path, d.node, e.node);
  }

  /** A replacement to the right can be made before or after the others. */
  lemma {:induction false} PastEdits(v: Json, es: seq<Edit>, e: Edit)
    requires AllPut(es) && e.Put? && Planned(v, es) && Fits(v, e)
    requires forall i :: 0 <= i < |es| ==> Before(es[i].path, e.path)
    ensures Planned(Step(v, e), es) && Fits(Edited(v, es), e)
    ensures Step(Edited(v, es), e) == Edited(Step(v, e), es)
    decreases |es|
  {
    forall i | 0 <= i < |es| ensures Fits(Step(v, e), es[i]) { StepsCommute(v, es[i], e); }
    if es != [] {
      var n := |es| - 1;
      StepsCommute(v, es[n], e);
      PastInit(v, es, e);
      PastEdits(Step(v, es[n]), es[..n], e);
    }
  }

  lemma PastInit(v: Json, es: seq<Edit>, e: Edit)
    requires AllPut(es) && Planned(v, es) && es != []
    requires forall i :: 0 <= i < |es| ==> Before(es[i].path, e.path)
    ensures var n := |es| - 1;
            && AllPut(es[..n]) && Planned(Step(v, es[n]), es[..n])
            && forall i :: 0 <= i < n ==> Before(es[..n][i].path, e.path)
  {
    LastStable(v, es);
  }

  predicate SamePaths(a: seq<Edit>, b: seq<Edit>) {
    |a| == |b| && AllPut(a) && AllPut(b) && forall i :: 0 <= i < |a| ==> a[i].path == b[i].path
  }

  lemma PlannedSame(v: Json, a: seq<Edit>, b: seq<Edit>)
    requires Planned(v, a) && SamePaths(a, b)
    ensures Planned(v, b)
  {
    forall i, j | 0 <= i < j < |b| ensures Precedes(b[i], b[j]) { assert Precedes(a[i], a[j]); }
  }

  lemma BackFits(m: Json, p: Path, q: Path, a: Json, b: Json)
    requires HasPath(m, q) && HasPath(With(m, q, a), p) && Before(p, q)
    ensures HasPath(With(m, q, b), p)
  {
    RenderWith(m, q, a);
    BeforeStable(With(m, q, a), p, q, b);
    WithTwice(m, q, a, b);
  }

  lemma StepTwice(m: Json, x: Edit, y: Edit)
    requires x.Put? && y.Put? && x.path == y.path && Fits(m, x)
    ensures Fits(m, y) && Fits(Step(m, x), y) && Step(Step(m, x), y) == Step(m, y)
  {
    WithTwice(m, x.path, x.node, y.node);
  }

  lemma StillFits(m: Json, b: seq<Edit>, x: Edit, i: nat)
    requires b != [] && AllPut(b) && InSequence(b) && x.Put? && Fits(m, x) && i < |b| - 1
    requires var n := |b| - 1; x.path == b[n].path && Fits(m, b[n]) && Fits(Step(m, b[n]), b[i])
    ensures Fits(Step(m, x), b[i])
  {
    assert Precedes(b[i], b[|b| - 1]);
    BackFits(m, b[i].path, x.path, b[|b| - 1].node, x.node);
  }

  lemma AllStillFit(m: Json, b: seq<Edit>, x: Edit)
    requires b != [] && AllPut(b) && InSequence(b) && x.Put? && Fits(m, x)
    requires var n := |b| - 1; x.path == b[n].path && Fits(m, b[n]) && AllFit(Step(m, b[n]), b[..n])
    ensures AllFit(Step(m, x), b)
  {
    var n := |b| - 1;
    forall i | 0 <= i < |b| ensures Fits(Step(m, x), b[i]) {
      if i < n {
        assert Fits(Step(m, b[n]), b[..n][i]);
        StillFits(m, b, x, i);
      } else {
        StepTwice(m, x, b[n]);
      }
    }
  }

  lemma Peeled(w: Json, b: seq<Edit>)
    requires b != [] && Planned(w, b)
    ensures var n := |b| - 1; Planned(Step(w, b[n]), b[..n]) && Edited(w, b) == Edited(Step(w, b[n]), b[..n])
  {
    LastStable(w, b);
  }

  /** The replacements of `b`, made on a tree that still holds the node of `x` at their last position. */
  lemma PastBack(m: Json, b: seq<Edit>, x: Edit)
    requires b != [] && AllPut(b) && InSequence(b) && x.Put? && Fits(m, x)
    requires var n := |b| - 1; x.path == b[n].path && Planned(Step(m, b[n]), b[..n])
    ensures Planned(Step(m, x), b) && Edited(Step(m, x), b) == Edited(Step(m, b[|b| - 1]), b[..|b| - 1])
  {
    StepTwice(m, x, b[|b| - 1]);
    AllStillFit(m, b, x);
    Peeled(Step(m, x), b);
  }

  /** Replacing the same positions again forgets the first replacement. */
  lemma {:induction false} EditedTwice(v: Json, a: seq<Edit>, b: seq<Edit>)
    requires Planned(v, a) && SamePaths(a, b)
    ensures Planned(v, b) && Planned(Edited(v, a), b) && Edited(Edited(v, a), b) == Edited(v, b)
    decreases |a|
  {
    PlannedSame(v, a, b);
    if a != [] {
      var n := |a| - 1;
      LastStable(v, a);
      LastStable(v, b);
      TwiceInit(v, a, b, n);
      EditedTwice(Step(v, b[n]), a[..n], b[..n]);
      PastBack(Edited(v, a[..n]), b, a[n]);
    }
  }

  lemma TwiceInit(v: Json, a: seq<Edit>, b: seq<Edit>, n: nat)
    requires Planned(v, a) && Planned(v, b) && SamePaths(a, b) && n == |a| - 1
    ensures Planned(v, a[..n]) && SamePaths(a[..n], b[..n])
    ensures Planned(Step(v, a[n]), a[..n]) && Planned(Step(v, b[n]), a[..n]) && Planned(Step(v, b[n]), b[..n])
    ensures Fits(Edited(v, a[..n]), a[n]) && Fits(Edited(v, a[..n]), b[n])
    ensures Step(Edited(v, a[..n]), a[n]) == Edited(Step(v, a[n]), a[..n])
    ensures Step(Edited(v, a[..n]), b[n]) == Edited(Step(v, b[n]), a[..n])
  {
    LastStable(v, a);
    LastStable(v, b);
    PlannedPrefix(v, a, n);
    forall i | 0 <= i < n ensures Before(a[..n][i].path, a[n].path) { assert Precedes(a[i], a[n]); }
    PastEdits(v, a[..n], a[n]);
    PastEdits(v, a[..n], b[n]);
  }

  /** The edit that writes a token's expansion in its place. */
  function RestoreEdit(v: Json, lookup: string -> Option<string>, e: Edit): Edit {
    Edit.Put(e.path, Str(Encode(Expand(TextAt(v, e.path), lookup).output)))
  }

  function RestoreEdits(v: Json, lookup: string -> Option<string>, es: seq<Edit>): (r: seq<Edit>)
    ensures |r| == |es| && forall i :: 0 <= i < |r| ==> r[i] == RestoreEdit(v, lookup, es[i])
  {
    seq(|es|, i requires 0 <= i < |es| => RestoreEdit(v, lookup, es[i]))
  }

  lemma ExpandMarker(h: string, lookup: string -> Option<string>, text: string)
    requires IsHash(h) && lookup(h) == Some(text)
    ensures Expand(Marker(h), lookup) == Expansion(text, 1, 0, [])
  {
    var gaps := ["", ""];
    ExpandUndoes(gaps, [h], [text], lookup);
    assert Markers([h]) == [Marker(h)];
    assert Interleave(gaps, [Marker(h)]) == "" + (Marker(h) + Interleave(gaps[1..], []));
    assert Interleave(gaps, [text]) == "" + (text + Interleave(gaps[1..], []));
    assert Interleave(gaps[1..], []) == "";
    assert "" + (Marker(h) + "") == Marker(h) && "" + (text + "") == text;
  }

  /** Looking up in a table. */
  function Reading(table: map<string, string>): string -> Option<string> { h => Stored(table, h) }

  /**
   * A compressed text expands to the original against the store left behind, exactly unless the
   * store had another text under the same hash; a text that was not stored is returned as it is
   * and the store stays.
   */
  lemma CompressUndone(input: string, minBytes: nat, hash: string -> string, st: StoreState)
    requires IsHash(hash(input))
    ensures var (r, next) := CompressResult(input, minBytes, hash, st);
            && Extends(next.table, st.table)
            && (!r.stored ==> r.output == input && next.table == st.table)
            && (r.stored ==>
                  (Expand(r.output, Reading(next.table)) == Expansion(input, 1, 0, [])
                   <==> (hash(input) in st.table ==> st.table[hash(input)] == input)))
  {
    hide Expand, Bytes, IsWhite, IsHash;
    var (r, next) := CompressResult(input, minBytes, hash, st);
    if r.stored {
      ExpandMarker(hash(input), Reading(next.table), next.table[hash(input)]);
    }
  }

  function SemCheck(number: string -> string): Check {
    (x: Json, e: Edit) => e.Put? && Sem(e.node, number) == Sem(x, number)
  }

  /** What is written back at one token is the text that was there. */
  lemma RestoreOne(v: Json, slotted: Json, e: Edit, pick: Pick, lookup: string -> Option<string>,
                   number: string -> string)
    requires e == SlotEdit(pick) && HasPath(v, e.path) && At(v, e.path).Str? && pick.text == TextAt(v, e.path)
    requires IsHash(pick.hash) && lookup(pick.hash) == Some(pick.text)
    requires HasPath(slotted, e.path) && At(slotted, e.path) == e.node
    ensures Expand(TextAt(slotted, e.path), lookup) == Expansion(pick.text, 1, 0, [])
    ensures Judged(v, RestoreEdit(slotted, lookup, e), SemCheck(number))
  {
    MarkerToken(pick.hash);
    ExpandMarker(pick.hash, lookup, pick.text);
    DecodeEncode(pick.text);
    JudgedPut(v, e.path, Str(Encode(pick.text)), SemCheck(number));
  }

  /** The picks of a pass, with the store they leave and what `lookup` reads from it. */
  ghost predicate Readable(shape: Shape, v: Json, ctx: Context, hash: string -> string, st: StoreState,
                           texts: set<string>,
                           lookup: string -> Option<string>)
  {
    var ps := Candidates(shape, v, ctx);
    var (picks, end) := Picks(v, ps, hash, st);
    && GoodHash(hash) && Honest(st.table, hash, texts) && CollisionFree(hash, texts)
    && (forall i :: 0 <= i < |ps| && Gate(TextAt(v, ps[i]), hash) ==> TextAt(v, ps[i]) in texts)
    && (forall i :: 0 <= i < |picks| ==> lookup(picks[i].hash) == Stored(end.table, picks[i].hash))
  }

  lemma RestoreAt(shape: Shape, v: Json, ctx: Context, hash: string -> string, st: StoreState, texts: set<string>,
                  lookup: string -> Option<string>, number: string -> string, i: nat, j: nat)
    requires Readable(shape, v, ctx, hash, st, texts, lookup)
    requires var picks := Picks(v, Candidates(shape, v, ctx), hash, st).0;
             i < |picks| && j < |picks| && SlotEdits(picks)[i] == SlotEdit(picks[j])
    ensures var picks := Picks(v, Candidates(shape, v, ctx), hash, st).0;
            var slotted := Slotted(shape, v, ctx, hash, st);
            && Expand(TextAt(slotted, picks[j].path), lookup) == Expansion(picks[j].text, 1, 0, [])
            && Fits(v, RestoreEdit(slotted, lookup, SlotEdits(picks)[i]))
            && Judged(v, RestoreEdit(slotted, lookup, SlotEdits(picks)[i]), SemCheck(number))
  {
    var picks := Picks(v, Candidates(shape, v, ctx), hash, st).0;
    SlotsPlanned(shape, v, ctx, hash, st);
    PicksStored(v, Candidates(shape, v, ctx), hash, st, texts);
    PickSlot(shape, v, ctx, hash, st, j);
    EditedHere(v, SlotEdits(picks), i);
    RestoreOne(v, Slotted(shape, v, ctx, hash, st), SlotEdits(picks)[i], picks[j], lookup, number);
  }

  /** Expanding a compressed token against the store gives back its original text. */
  lemma TokenExpands(shape: Shape, v: Json, ctx: Context, hash: string -> string, st: StoreState, texts: set<string>,
                     lookup: string -> Option<string>, j: nat)
    requires Readable(shape, v, ctx, hash, st, texts, lookup)
    requires j < |Picks(v, Candidates(shape, v, ctx), hash, st).0|
    ensures var pick := Picks(v, Candidates(shape, v, ctx), hash, st).0[j];
            Expand(TextAt(Slotted(shape, v, ctx, hash, st), pick.path), lookup)
              == Expansion(TextAt(v, pick.path), 1, 0, [])
  {
    var picks := Picks(v, Candidates(shape, v, ctx), hash, st).0;
    SlotsPlanned(shape, v, ctx, hash, st);
    PickSlot(shape, v, ctx, hash, st, j);
    var i := SlotIndex(picks, j);
    RestoreAt(shape, v, ctx, hash, st, texts, lookup, t => t, i, j);
  }

  lemma SlotIndex(picks: seq<Pick>, j: nat) returns (i: nat)
    requires j < |picks| && multiset(SlotEdits(picks)) == multiset(SlotEditsOf(picks))
    ensures i < |picks| && SlotEdits(picks)[i] == SlotEdit(picks[j])
  {
    assert SlotEditsOf(picks)[j] in multiset(SlotEditsOf(picks));
    assert SlotEdit(picks[j]) in SlotEdits(picks);
    i :| 0 <= i < |SlotEdits(picks)| && SlotEdits(picks)[i] == SlotEdit(picks[j]);
  }

  /** The expansions of all tokens, as edits of the compressed tree and of the original one. */
  lemma RestorePlan(shape: Shape, v: Json, ctx: Context, hash: string -> string, st: StoreState, texts: set<string>,
                    lookup: string -> Option<string>, number: string -> string)
    requires Readable(shape, v, ctx, hash, st, texts, lookup)
    ensures var slotted := Slotted(shape, v, ctx, hash, st);
            var back := RestoreEdits(slotted, lookup, SlotEdits(Picks(v, Candidates(shape, v, ctx), hash, st).0));
            && Planned(slotted, back) && Planned(v, back) && Edited(slotted, back) == Edited(v, back)
            && AllPut(back) && AllJudged(v, back, SemCheck(number))
  {
    hide Candidates, Gate;
    var picks, slotted := Picks(v, Candidates(shape, v, ctx), hash, st).0, Slotted(shape, v, ctx, hash, st);
    var es := SlotEdits(picks);
    var back := RestoreEdits(slotted, lookup, es);
    SlotsPlanned(shape, v, ctx, hash, st);
    EditedTwice(v, es, back);
    forall i | 0 <= i < |es| ensures Judged(v, back[i], SemCheck(number)) {
      SlotEditFrom(picks, i);
      var j :| 0 <= j < |picks| && es[i] == SlotEdit(picks[j]);
      RestoreAt(shape, v, ctx, hash, st, texts, lookup, number, i, j);
    }
  }
}
