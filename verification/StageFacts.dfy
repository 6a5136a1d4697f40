/** Every stage keeps a request well-formed and free of repeated keys. */
module StageFacts {
  import opened Prelude
  import opened Json
  import opened JsonEdits
  import opened EditLists
  import opened Values
  import opened Ccr
  import opened LiveZone
  import opened Tools
  import opened Injections
  import opened Rewriting
  import opened EditFacts

  // ----- stage 1 -----

  /** What a check must accept for a request's normalisation to pass it. */
  ghost predicate AcceptsTools(v: Json, k: nat, anthropic: bool, prim: Primitives, ok: Check)
    requires v.Box? && k < |v.kids| && IsList(v.kids[k].value)
  {
    var list := v.kids[k].value;
    var place := Placing(v, anthropic);
    && ok(list, Edit.Put([], Compact(FinalTools(Vals(list.kids), place, anthropic, prim))))
    && forall i :: 0 <= i < |list.kids| ==>
      AcceptsTool(list.kids[i].value, place && i == |list.kids| - 1, anthropic, prim, ok)
  }

  ghost predicate AcceptsTool(tool: Json, last: bool, anthropic: bool, prim: Primitives, ok: Check) {
    var p := SchemaPath(tool, anthropic);
    && (p.Some? ==> ok(At(tool, p.value), Edit.Put([], Canon(At(tool, p.value), prim.number))))
    && (last && Object(tool) ==> ok(tool, Append([], CacheKid)))
  }

  lemma ToolJudged(tool: Json, last: bool, anthropic: bool, prim: Primitives, ok: Check)
    requires AcceptsTool(tool, last, anthropic, prim, ok)
    ensures AllFit(tool, KeptToolEdits(tool, last, anthropic, prim))
    ensures AllJudged(tool, KeptToolEdits(tool, last, anthropic, prim), ok)
  {
    hide SchemaPath, Canon, Render, Cached, Piece;
    KeptToolPlanned(tool, last, anthropic, prim);
  }

  lemma ToolsJudged(v: Json, anthropic: bool, prim: Primitives, ok: Check)
    requires ToolList(v).Some? ==> AcceptsTools(v, ToolList(v).value, anthropic, prim, ok)
    ensures AllFit(v, ToolEdits(v, anthropic, prim)) && AllJudged(v, ToolEdits(v, anthropic, prim), ok)
  {
    var k := ToolList(v);
    if k.Some? {
      NormalizedTools(v, anthropic, prim);
      var list := v.kids[k.value].value;
      var place := Placing(v, anthropic);
      AtOne(v, k.value);
      if Arranged(Vals(list.kids), prim) == Vals(list.kids) {
        KeptJudged(list, place, anthropic, prim, ok);
        JudgedRebase(v, [k.value], UpTo(list.kids, |list.kids|, ToolPlan(|list.kids|, place, anthropic, prim)), ok);
      }
    }
  }

  lemma KeptJudged(list: Json, place: bool, anthropic: bool, prim: Primitives, ok: Check)
    requires IsList(list)
    requires forall i :: 0 <= i < |list.kids| ==>
             AcceptsTool(list.kids[i].value, place && i == |list.kids| - 1, anthropic, prim, ok)
    ensures var es := UpTo(list.kids, |list.kids|, ToolPlan(|list.kids|, place, anthropic, prim));
            AllFit(list, es) && AllJudged(list, es, ok)
  {
    var n, f := |list.kids|, ToolPlan(|list.kids|, place, anthropic, prim);
    forall i | 0 <= i < n
      ensures AllFit(list.kids[i].value, f(i, list.kids[i].value)) &&
              AllJudged(list.kids[i].value, f(i, list.kids[i].value), ok)
    {
      ToolJudged(list.kids[i].value, place && i == n - 1, anthropic, prim, ok);
    }
    JudgedUpTo(list, n, f, ok);
  }

  lemma NestedKidOk(key: string, kind: string, value: string)
    requires Decode(key).Some? && Decode(kind).Some? && Decode(value).Some?
    ensures KidOk(true, Kid("", key, "", "", Box(true, [Kid("", kind, "", "", Str(value), "")], ""), ""))
  {
    assert KidOk(true, Kid("", kind, "", "", Str(value), ""));
  }

  lemma CacheKidOk()
    ensures KidOk(true, CacheKid)
  {
    var key, kind, value := "cache_control", "type", "ephemeral";
    assert Plain(key) && Plain(kind) && Plain(value);
    CacheKidFrom(key, kind, value);
  }

  lemma CacheKidFrom(key: string, kind: string, value: string)
    requires Plain(key) && Plain(kind) && Plain(value)
    requires CacheKid == Kid("", key, "", "", Box(true, [Kid("", kind, "", "", Str(value), "")], ""), "")
    ensures KidOk(true, CacheKid)
  {
    PlainText(key);
    PlainText(kind);
    PlainText(value);
    NestedKidOk(key, kind, value);
  }

  lemma FinalWf(tools: seq<Json>, place: bool, anthropic: bool, prim: Primitives)
    requires AllWf(tools) && GoodNumbers(prim.number)
    ensures AllWf(FinalTools(tools, place, anthropic, prim)) && Wf(Compact(FinalTools(tools, place, anthropic, prim)))
  {
    ArrangedWf(tools, prim);
    CacheKidOk();
    var arranged, final := Arranged(tools, prim), FinalTools(tools, place, anthropic, prim);
    forall i | 0 <= i < |final| ensures Wf(final[i]) {
      PieceSettled(arranged[i], anthropic, prim);
      if Object(Piece(arranged[i], anthropic, prim)) { WfExtended(Piece(arranged[i], anthropic, prim), CacheKid); }
    }
    forall i | 0 <= i < |final| ensures KidOk(false, Compact(final).kids[i]) {}
  }

  lemma NormalizeWf(v: Json, anthropic: bool, prim: Primitives)
    requires Wf(v) && GoodNumbers(prim.number)
    ensures AllFit(v, ToolEdits(v, anthropic, prim)) && AllJudged(v, ToolEdits(v, anthropic, prim), WfCheck)
  {
    var k := ToolList(v);
    if k.Some? {
      var list := v.kids[k.value].value;
      assert KidOk(v.isObj, v.kids[k.value]);
      KidsWf(list);
      FinalWf(Vals(list.kids), Placing(v, anthropic), anthropic, prim);
      forall i | 0 <= i < |list.kids|
        ensures AcceptsTool(list.kids[i].value, Placing(v, anthropic) && i == |list.kids| - 1, anthropic, prim, WfCheck)
      {
        ToolWf(Vals(list.kids)[i], anthropic, prim);
      }
    }
    ToolsJudged(v, anthropic, prim, WfCheck);
  }

  lemma ToolWf(tool: Json, anthropic: bool, prim: Primitives)
    requires Wf(tool) && GoodNumbers(prim.number)
    ensures AcceptsTool(tool, true, anthropic, prim, WfCheck)
  {
    CacheKidOk();
    var p := SchemaPath(tool, anthropic);
    if p.Some? {
      WfAt(tool, p.value);
      CanonKeeps(At(tool, p.value), prim.number);
    }
  }

  lemma NormalizedWf(shape: Shape, v: Json, ctx: Context, prim: Primitives)
    requires Wf(v) && GoodNumbers(prim.number)
    ensures Wf(Normalized(shape, v, ctx, prim))
  {
    var g := NormalizePlan(Anthropic(shape), prim);
    forall i: nat, x: Json | Wf(x) ensures AllFit(x, g(i, x)) && AllJudged(x, g(i, x), WfCheck) {
      NormalizeWf(x, Anthropic(shape), prim);
    }
    MetadataPlanned(shape, v, prim);
    WfInherited();
    JudgedPerRequest(shape, v, g, Wf, WfCheck);
    WfKept();
    EditedGood(v, MetadataEdits(shape, v, prim), WfCheck, Wf);
  }

  // ----- stage 1 and repeated keys -----

  lemma {:induction false} TidyTree(v: Val, number: string -> string)
    requires Normal(v, number)
    ensures Tidy(Tree(v))
    decreases v
  {
    match v
    case Lit(_) =>
    case Txt(_) =>
    case Arr(items) =>
      forall i | 0 <= i < |items| ensures TidyKid(ItemKids(items)[i]) { TidyTree(items[i], number); }
    case Obj(entries) =>
      forall i | 0 <= i < |entries|
        ensures TidyKid(EntryKids(entries)[i]) && Keys(EntryKids(entries))[i] == entries[i].key {
        assert entries[i].val < entries[i];
        TidyTree(entries[i].val, number);
        DecodeEncode(entries[i].key);
      }
      forall i, j | 0 <= i < j < |entries| ensures entries[i].key != entries[j].key {
        BelowTotal(entries[i].key, entries[j].key);
      }
  }

  lemma TidyCanon(v: Json, number: string -> string)
    requires Wf(v) && GoodNumbers(number)
    ensures Tidy(Canon(v, number))
  {
    SemNormal(v, number);
    TidyTree(Sem(v, number), number);
  }

  lemma KeyAbsent(v: Json, key: string)
    requires Object(v) && Lookup(v, key).None?
    ensures key !in Keys(v.kids)
  {
  }

  lemma CacheKidTidy()
    ensures Tidy(CacheKid.value)
  {
    assert TidyKid(CacheKid.value.kids[0]);
  }

  lemma ToolTidy(tool: Json, last: bool, anthropic: bool, prim: Primitives)
    requires Wf(tool) && Tidy(tool) && GoodNumbers(prim.number)
    requires last ==> Lookup(tool, "cache_control").None?
    ensures AcceptsTool(tool, last, anthropic, prim, TidyCheck)
  {
    CacheKidTidy();
    CacheKidKey();
    if last && Object(tool) { KeyAbsent(tool, "cache_control"); }
    var p := SchemaPath(tool, anthropic);
    if p.Some? {
      WfAt(tool, p.value);
      TidyCanon(At(tool, p.value), prim.number);
    }
  }

  /** A final tool repeats no key. */
  lemma FinalToolTidy(tool: Json, last: bool, anthropic: bool, prim: Primitives)
    requires Wf(tool) && Tidy(tool) && GoodNumbers(prim.number)
    requires last ==> Lookup(tool, "cache_control").None?
    ensures Tidy(if last then Cached(Piece(tool, anthropic, prim)) else Piece(tool, anthropic, prim))
  {
    ToolTidy(tool, last, anthropic, prim);
    ToolJudged(tool, last, anthropic, prim, TidyCheck);
    KeptToolPlanned(tool, last, anthropic, prim);
    TidyKept();
    EditedGood(tool, KeptToolEdits(tool, last, anthropic, prim), TidyCheck, Tidy);
  }

  lemma PlacingUnmarked(v: Json, k: nat, anthropic: bool, i: nat)
    requires ToolList(v) == Some(k) && Placing(v, anthropic) && i < |v.kids[k].value.kids|
    ensures Lookup(v.kids[k].value.kids[i].value, "cache_control").None?
  {
    FieldKey(v, "tools");
    var tools := Vals(v.kids[k].value.kids);
    assert Lookup(v, "tools") == Some(v.kids[k].value);
    assert tools[i] == v.kids[k].value.kids[i].value;
  }

  lemma ListTidy(list: Json)
    requires list.Box? && Tidy(list) && Wf(list)
    ensures forall i :: 0 <= i < |list.kids| ==> Tidy(list.kids[i].value) && Wf(list.kids[i].value)
  {
    forall i | 0 <= i < |list.kids| ensures Tidy(list.kids[i].value) && Wf(list.kids[i].value) {
      assert TidyKid(list.kids[i]) && KidOk(list.isObj, list.kids[i]);
    }
  }

  lemma ArrangedFrom(tools: seq<Json>, prim: Primitives, i: nat)
    requires i < |tools|
    ensures Arranged(tools, prim)[i] in tools
  {
    SortPermutes(tools, ToolBelow(prim));
    assert Arranged(tools, prim)[i] in multiset(Arranged(tools, prim));
  }

  lemma FinalTidy(v: Json, k: nat, anthropic: bool, prim: Primitives)
    requires ToolList(v) == Some(k) && Wf(v.kids[k].value) && Tidy(v.kids[k].value) && GoodNumbers(prim.number)
    ensures Tidy(Compact(FinalTools(Vals(v.kids[k].value.kids), Placing(v, anthropic), anthropic, prim)))
  {
    var list, place := v.kids[k].value, Placing(v, anthropic);
    var tools := Vals(list.kids);
    var arranged, final := Arranged(tools, prim), FinalTools(tools, place, anthropic, prim);
    ListTidy(list);
    forall i | 0 <= i < |final| ensures TidyKid(Compact(final).kids[i]) {
      ArrangedFrom(tools, prim, i);
      var j :| 0 <= j < |tools| && tools[j] == arranged[i];
      if place { PlacingUnmarked(v, k, anthropic, j); }
      FinalToolTidy(arranged[i], place && i == |final| - 1, anthropic, prim);
    }
  }

  lemma NormalizeTidy(v: Json, anthropic: bool, prim: Primitives)
    requires Wf(v) && Tidy(v) && GoodNumbers(prim.number)
    ensures AllFit(v, ToolEdits(v, anthropic, prim)) && AllJudged(v, ToolEdits(v, anthropic, prim), TidyCheck)
  {
    var k := ToolList(v);
    if k.Some? {
      var list, place := v.kids[k.value].value, Placing(v, anthropic);
      assert TidyKid(v.kids[k.value]) && KidOk(v.isObj, v.kids[k.value]);
      FinalTidy(v, k.value, anthropic, prim);
      ListTidy(list);
      forall i | 0 <= i < |list.kids|
        ensures AcceptsTool(list.kids[i].value, place && i == |list.kids| - 1, anthropic, prim, TidyCheck)
      {
        if place { PlacingUnmarked(v, k.value, anthropic, i); }
        ToolTidy(list.kids[i].value, place && i == |list.kids| - 1, anthropic, prim);
      }
    }
    ToolsJudged(v, anthropic, prim, TidyCheck);
  }

  predicate IsSound(v: Json) { Wf(v) && Tidy(v) }

  lemma NormalizedTidy(shape: Shape, v: Json, ctx: Context, prim: Primitives)
    requires Wf(v) && Tidy(v) && GoodNumbers(prim.number)
    ensures Tidy(Normalized(shape, v, ctx, prim))
  {
    var g := NormalizePlan(Anthropic(shape), prim);
    forall i: nat, x: Json | IsSound(x) ensures AllFit(x, g(i, x)) && AllJudged(x, g(i, x), TidyCheck) {
      NormalizeTidy(x, Anthropic(shape), prim);
    }
    assert Inherited(IsSound) by {
      WfInherited();
      TidyInherited();
      forall x, k | IsSound(x) && x.Box? && 0 <= k < |x.kids| ensures IsSound(x.kids[k].value) {
        assert Wf(x) && Tidy(x);
        assert Wf(x.kids[k].value) && Tidy(x.kids[k].value);
      }
    }
    MetadataPlanned(shape, v, prim);
    JudgedPerRequest(shape, v, g, IsSound, TidyCheck);
    TidyKept();
    EditedGood(v, MetadataEdits(shape, v, prim), TidyCheck, Tidy);
  }

  // ----- stage 2 -----

  lemma SlotsPlanned(shape: Shape, v: Json, ctx: Context, hash: string -> string, st: StoreState)
    ensures var picks := Picks(v, Candidates(shape, v, ctx), hash, st).0;
            && Tokens(v, SlotEdits(picks)) && Planned(v, SlotEdits(picks))
            && Slotted(shape, v, ctx, hash, st) == Edited(v, SlotEdits(picks))
            && multiset(SlotEdits(picks)) == multiset(SlotEditsOf(picks))
  {
    PlannedSlots(shape, v, ctx.frozen, ctx.userText);
    PickTokens(v, Candidates(shape, v, ctx), ctx.userText, hash, st);
    TokensSorted(v, SlotEditsOf(Picks(v, Candidates(shape, v, ctx), hash, st).0));
  }

  /** Every slot edit is that of some pick. */
  lemma SlotEditFrom(picks: seq<Pick>, i: nat)
    requires i < |picks| && multiset(SlotEdits(picks)) == multiset(SlotEditsOf(picks))
    ensures exists j :: 0 <= j < |picks| && SlotEdits(picks)[i] == SlotEdit(picks[j])
  {
    assert SlotEdits(picks)[i] in multiset(SlotEdits(picks));
    assert SlotEdits(picks)[i] in SlotEditsOf(picks);
  }

  lemma JudgedPut(v: Json, p: Path, node: Json, ok: Check)
    requires HasPath(v, p) && ok(At(v, p), Edit.Put([], node))
    ensures Judged(v, Edit.Put(p, node), ok)
  {
  }

  ghost predicate AcceptsStrings(ok: Check) { forall x, text :: ok(x, Edit.Put([], Str(Encode(text)))) }

  lemma SlotJudged(v: Json, picks: seq<Pick>, ok: Check)
    requires AllFit(v, SlotEdits(picks)) && multiset(SlotEdits(picks)) == multiset(SlotEditsOf(picks))
    requires AcceptsStrings(ok)
    ensures AllJudged(v, SlotEdits(picks), ok)
  {
    var es := SlotEdits(picks);
    forall i | 0 <= i < |es| ensures Judged(v, es[i], ok) {
      SlotEditFrom(picks, i);
      var j :| 0 <= j < |picks| && es[i] == SlotEdit(picks[j]);
      JudgedPut(v, picks[j].path, Str(Encode(Marker(picks[j].hash))), ok);
    }
  }

  lemma SlottedGood(shape: Shape, v: Json, ctx: Context, hash: string -> string, st: StoreState, ok: Check,
                    good: Json -> bool)
    requires AcceptsStrings(ok) && Keeps(ok, good) && good(v)
    ensures good(Slotted(shape, v, ctx, hash, st))
  {
    SlotsPlanned(shape, v, ctx, hash, st);
    var picks := Picks(v, Candidates(shape, v, ctx), hash, st).0;
    SlotJudged(v, picks, ok);
    EditedGood(v, SlotEdits(picks), ok, good);
  }

  lemma StringsWf()
    ensures AcceptsStrings(WfCheck)
  {
    forall x, text ensures WfCheck(x, Edit.Put([], Str(Encode(text)))) { DecodeEncode(text); }
  }

  lemma StringsTidy()
    ensures AcceptsStrings(TidyCheck)
  {
  }

  lemma SlottedWf(shape: Shape, v: Json, ctx: Context, hash: string -> string, st: StoreState)
    requires Wf(v)
    ensures Wf(Slotted(shape, v, ctx, hash, st))
  {
    StringsWf();
    WfKept();
    SlottedGood(shape, v, ctx, hash, st, WfCheck, Wf);
  }

  lemma SlottedTidy(shape: Shape, v: Json, ctx: Context, hash: string -> string, st: StoreState)
    requires Tidy(v)
    ensures Tidy(Slotted(shape, v, ctx, hash, st))
  {
    StringsTidy();
    TidyKept();
    SlottedGood(shape, v, ctx, hash, st, TidyCheck, Tidy);
  }

  // ----- stage 3 -----

  lemma AppendJudged(x: Json, shape: Shape, w: Wording)
    requires ToolAppend(x, shape, w).Some?
    ensures Judged(x, ToolAppend(x, shape, w).value, WfCheck) && Judged(x, ToolAppend(x, shape, w).value, TidyCheck)
  {
    ToolsKey(shape, w);
    RetrieveNormal(shape, w, Same);
    TidyTree(RetrieveTool(shape, w), Same);
    var e := ToolAppend(x, shape, w).value;
    if e.path == [] {
      KeyAbsent(x, "tools");
      assert TidyKid(ToolKid(shape, w));
      assert TidyKid(ToolsMember(shape, w).value.kids[0]);
    } else {
      AtOne(x, e.path[0]);
      assert e.path == [e.path[0]];
    }
  }

  lemma TooledKeeps(shape: Shape, v: Json, chosen: set<nat>, w: Wording)
    ensures Wf(v) ==> Wf(Tooled(shape, v, chosen, w))
    ensures Tidy(v) ==> Tidy(Tooled(shape, v, chosen, w))
  {
    var g := AppendPlan(shape, chosen, w);
    forall i: nat, x: Json
      ensures AllFit(x, g(i, x)) && AllJudged(x, g(i, x), WfCheck) && AllJudged(x, g(i, x), TidyCheck)
    {
      if ToolAppend(x, shape, w).Some? { AppendJudged(x, shape, w); }
    }
    RetrievePlanned(shape, v, chosen, w);
    if Wf(v) {
      WfInherited();
      JudgedPerRequest(shape, v, g, Wf, WfCheck);
      WfKept();
      EditedGood(v, RetrieveEdits(shape, v, chosen, w), WfCheck, Wf);
    }
    if Tidy(v) {
      TidyInherited();
      JudgedPerRequest(shape, v, g, Tidy, TidyCheck);
      TidyKept();
      EditedGood(v, RetrieveEdits(shape, v, chosen, w), TidyCheck, Tidy);
    }
  }

  // ----- all stages -----

  /** Well-formed in, well-formed after every stage. */
  lemma StagesWf(shape: Shape, v: Json, ctx: Context, prim: Primitives, st: StoreState)
    requires Wf(v) && GoodNumbers(prim.number)
    ensures var s := Rewrite(shape, v, ctx, prim, st); Wf(s.normal) && Wf(s.slotted) && Wf(s.tooled)
  {
    var s := Rewrite(shape, v, ctx, prim, st);
    NormalizedWf(shape, v, ctx, prim);
    SlottedWf(shape, s.normal, ctx, prim.hash, st);
    TooledKeeps(shape, s.slotted, Receivers(shape, s.picks, HasMarker(Sem(v, prim.number))), prim.wording);
  }

  lemma StagesTidy(shape: Shape, v: Json, ctx: Context, prim: Primitives, st: StoreState)
    requires Wf(v) && Tidy(v) && GoodNumbers(prim.number)
    ensures Tidy(Rewrite(shape, v, ctx, prim, st).tooled)
  {
    var s := Rewrite(shape, v, ctx, prim, st);
    NormalizedTidy(shape, v, ctx, prim);
    SlottedTidy(shape, s.normal, ctx, prim.hash, st);
    TooledKeeps(shape, s.slotted, Receivers(shape, s.picks, HasMarker(Sem(v, prim.number))), prim.wording);
  }

  lemma KeyedTidy(d: Doc, shape: Shape, prim: Primitives)
    requires WfDoc(d) && Tidy(d.root) && GoodKeys(prim)
    ensures Tidy(KeyedDoc(d, shape, prim).root)
  {
    StringKeyOk(prim, d.root, shape);
    var e := KeyEdit(d.root, shape, prim);
    if e.Some? {
      if e.value.Append? {
        KeyAbsent(d.root, PCK);
        TidyExtended(d.root, e.value.kid);
      } else {
        TidyWith(d.root, e.value.path, e.value.node);
      }
    }
  }

  /**
   * For every body of every shape the rewritten body is valid JSON and repeats no key that
   * the original did not repeat, unless an empty root object follows leading blanks and
   * a cache key is inserted.
   */
  lemma NewBodySound(shape: Shape, d: Doc, ctx: Context, prim: Primitives, st: StoreState)
    requires WfDoc(d) && GoodNumbers(prim.number) && GoodKeys(prim)
    requires Keyed(shape, ctx) ==> !BreaksBody(d.(root := Rewrite(shape, d.root, ctx, prim, st).tooled), shape, prim)
    ensures var n := NewDoc(shape, d, ctx, prim, st);
            && WfDoc(n) && NewBody(shape, d, ctx, prim, st) == RenderDoc(n)
            && (Tidy(d.root) ==> Tidy(n.root))
  {
    StagesWf(shape, d.root, ctx, prim, st);
    var tooled := d.(root := Rewrite(shape, d.root, ctx, prim, st).tooled);
    hide Rewrite, KeyedBody, KeyedDoc, BreaksBody, RenderDoc;
    if Keyed(shape, ctx) {
      KeyedWf(tooled, shape, prim);
      KeyedBodyParses(tooled, shape, prim);
    }
    if Tidy(d.root) {
      StagesTidy(shape, d.root, ctx, prim, st);
      if Keyed(shape, ctx) { KeyedTidy(tooled, shape, prim); }
    }
  }
}
