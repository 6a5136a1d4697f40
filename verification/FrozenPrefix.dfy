/** Messages below the floor come out byte for byte, for every shape and every authentication mode. */
module FrozenPrefix {
  import opened Prelude
  import opened Json
  import opened JsonEdits
  import opened EditLists
  import opened Values
  import opened Ccr
  import opened LiveZone
  import opened Tools
  import opened ToolPlanner
  import opened Injections
  import opened Rewriting
  import opened Preservation

  // ----- edits request by request, as one tree -----

  lemma EntryResult(i: nat, entry: Json, g: Plan)
    requires Plans(g)
    ensures Planned(entry, EntryEdits(i, entry, g))
    ensures var q := Field(entry, "params");
            Edited(entry, EntryEdits(i, entry, g)) ==
              if ViewOk(entry, {"params"}) && q.Some?
              then (assert Planned(entry.kids[q.value].value, g(i, entry.kids[q.value].value));
                    WithKid(entry, q.value, Edited(entry.kids[q.value].value, g(i, entry.kids[q.value].value))))
              else entry
  {
    EntryPlanned(i, entry, g);
    var q := Field(entry, "params");
    if ViewOk(entry, {"params"}) && q.Some? {
      var x := entry.kids[q.value].value;
      assert Planned(x, g(i, x));
      AtOne(entry, q.value);
      EditedRebase(entry, [q.value], g(i, x));
      WithOne(entry, q.value, Edited(x, g(i, x)));
    }
  }

  lemma BatchResult(v: Json, k: nat, g: Plan)
    requires ListField(v, "requests") == Some(k) && Plans(g)
    ensures var list := v.kids[k].value;
            && Planned(v, PerRequest(AnthropicBatches, v, g))
            && PlansKids(list, |list.kids|, EntryPlan(g))
            && Edited(v, PerRequest(AnthropicBatches, v, g)) == WithKid(v, k, Mapped(list, |list.kids|, EntryPlan(g)))
  {
    var list := v.kids[k].value;
    EntriesPlanned(list, g);
    EditedUpTo(list, |list.kids|, EntryPlan(g));
    AtOne(v, k);
    EditedRebase(v, [k], UpTo(list.kids, |list.kids|, EntryPlan(g)));
    WithOne(v, k, Mapped(list, |list.kids|, EntryPlan(g)));
  }

  // ----- the floor survives normalisation -----

  lemma MemberKept(v: Json, t: nat, x: Json, name: string)
    requires Object(v) && t < |v.kids| && Text(v.kids[t].key) == "tools" && name != "tools"
    ensures var u := WithKid(v, t, x);
            && KeyIndex(u, name) == KeyIndex(v, name) && Field(u, name) == Field(v, name)
            && Lookup(u, name) == Lookup(v, name)
            && (Field(v, name).Some? ==> u.kids[Field(v, name).value] == v.kids[Field(v, name).value])
  {
    WithKidKeys(v, t, x, name);
    LookupOther(v, t, x, name);
    FieldKey(v, name);
  }

  lemma ListKept(v: Json, t: nat, x: Json, name: string)
    requires Object(v) && t < |v.kids| && Text(v.kids[t].key) == "tools" && name != "tools"
    ensures ListField(WithKid(v, t, x), name) == ListField(v, name)
    ensures ListField(v, name).Some? ==>
            WithKid(v, t, x).kids[ListField(v, name).value] == v.kids[ListField(v, name).value]
  {
    MemberKept(v, t, x, name);
    WithKidKeys(v, t, x, name);
  }

  lemma ItemsKept(v: Json, t: nat, x: Json)
    requires Object(v) && t < |v.kids| && Text(v.kids[t].key) == "tools"
    ensures ItemsField(WithKid(v, t, x)) == ItemsField(v)
  {
    MemberKept(v, t, x, "input");
    MemberKept(v, t, x, "messages");
    WithKidKeys(v, t, x, "input");
  }

  lemma LiveWithTools(shape: Shape, v: Json, t: nat, x: Json, floor: nat)
    requires shape != AnthropicBatches && Object(v) && t < |v.kids| && Text(v.kids[t].key) == "tools"
    ensures Live(shape, WithKid(v, t, x), floor) == Live(shape, v, floor)
  {
    if shape == OpenAiResponses {
      ItemsKept(v, t, x);
      MemberKept(v, t, x, "instructions");
    } else {
      ListKept(v, t, x, "messages");
    }
  }

  lemma LiveNormalized(shape: Shape, v: Json, anthropic: bool, prim: Primitives, floor: nat)
    requires shape != AnthropicBatches
    ensures Planned(v, ToolEdits(v, anthropic, prim))
    ensures Live(shape, Edited(v, ToolEdits(v, anthropic, prim)), floor) == Live(shape, v, floor)
  {
    var t := ToolList(v);
    if t.Some? {
      NormalizedTools(v, anthropic, prim);
      FieldKey(v, "tools");
      var w := Edited(v, ToolEdits(v, anthropic, prim));
      LiveWithTools(shape, v, t.value, w.kids[t.value].value, floor);
    }
  }

  // ----- frozen positions -----

  predicate LiveHere(live: Option<(nat, nat)>, k: nat, i: nat) { live.Some? && live.value.0 == k && i < live.value.1 }

  /** The params of a batch entry. */
  predicate ParamsPath(v: Json, p: Path) {
    && |p| == 3 && ListField(v, "requests") == Some(p[0]) && p[1] < |v.kids[p[0]].value.kids|
    && var entry := v.kids[p[0]].value.kids[p[1]].value;
       ViewOk(entry, {"params"}) && Field(entry, "params") == Some(p[2])
  }

  lemma ParamsAt(v: Json, p: Path)
    requires ParamsPath(v, p)
    ensures HasPath(v, p) && At(v, p) == v.kids[p[0]].value.kids[p[1]].value.kids[p[2]].value
  {
    TwoDown(v, p[0], p[1]);
    AtOne(At(v, [p[0], p[1]]), p[2]);
    AtConcat(v, [p[0], p[1]], [p[2]]);
    assert [p[0], p[1]] + [p[2]] == p;
  }

  /**
   * A message below the session floor or at or before the last cache breakpoint, a
   * Responses item below the shifted floor, or such a message of a batch entry.
   */
  predicate Frozen(shape: Shape, v: Json, floor: nat, p: Path)
    decreases if shape == AnthropicBatches then 1 else 0
  {
    if shape == AnthropicBatches then
      |p| == 5 && ParamsPath(v, p[..3]) &&
      (ParamsAt(v, p[..3]); Frozen(AnthropicMessages, At(v, p[..3]), 0, p[3..]))
    else |p| == 2 && HasPath(v, p) && LiveHere(Live(shape, v, floor), p[0], p[1])
  }

  lemma LiveKey(shape: Shape, v: Json, floor: nat)
    requires shape != AnthropicBatches
    ensures Live(shape, v, floor).Some? ==>
              var k := Live(shape, v, floor).value.0;
              Object(v) && k < |v.kids| && Text(v.kids[k].key) in {"messages", "input"}
  {
    FieldKey(v, "messages");
    FieldKey(v, "input");
  }

  lemma NotTools(key: string)
    requires key in {"messages", "input"}
    ensures key != "tools" && key != PCK
  {
  }

  lemma TrailHead(v: Json, p: Path)
    requires HasPath(v, p) && p != []
    ensures Trail(v, p)[0] == v.kids[p[0]].key
  {
  }

  lemma {:induction false} TrailConcat(v: Json, p: Path, q: Path)
    requires HasPath(v, p) && HasPath(At(v, p), q)
    ensures HasPath(v, p + q) && Trail(v, p + q) == Trail(v, p) + Trail(At(v, p), q)
    decreases p
  {
    if p == [] {
      assert p + q == q;
    } else {
      TrailConcat(v.kids[p[0]].value, p[1..], q);
      assert (p + q)[1..] == p[1..] + q;
      AtConcat(v, p, q);
    }
  }

  lemma FrozenOutside(shape: Shape, v: Json, floor: nat, p: Path)
    requires Frozen(shape, v, floor, p)
    ensures OutsideTools(shape, v, p)
    ensures shape != AnthropicBatches ==> Text(Trail(v, p)[0]) != PCK
  {
    if shape != AnthropicBatches {
      LiveKey(shape, v, floor);
      TrailHead(v, p);
      NotTools(Text(v.kids[p[0]].key));
    } else {
      ParamsAt(v, p[..3]);
      var x := At(v, p[..3]);
      LiveKey(AnthropicMessages, x, 0);
      TrailHead(x, p[3..]);
      NotTools(Text(x.kids[p[3]].key));
      TrailConcat(v, p[..3], p[3..]);
      assert p[..3] + p[3..] == p;
      assert Trail(v, p)[3] == Trail(x, p[3..])[0];
    }
  }

  lemma ZoneApart(live: Option<(nat, nat)>, p: Path, r: Path)
    requires |p| == 2 && LiveHere(live, p[0], p[1]) && InLiveZone(live, r)
    ensures Before(p, r)
  {
    assert p[1..][0] == p[1] && r[1..][0] == r[1];
  }

  // ----- batch slots -----

  lemma {:induction false} EachMembers(kids: seq<Kid>, from: nat, f: Json -> seq<Path>, r: Path)
    requires r in Each(kids, from, f)
    ensures r != [] && from <= r[0] < |kids| && r[1..] in f(kids[r[0]].value)
    decreases |kids| - from
  {
    var here := Prefixed([from], f(kids[from].value));
    if r in here {
      var i :| 0 <= i < |here| && here[i] == r;
      assert r == [from] + f(kids[from].value)[i];
      assert r[1..] == f(kids[from].value)[i];
    } else {
      EachMembers(kids, from + 1, f, r);
    }
  }

  lemma PrefixedMember(k: nat, ps: seq<Path>, r: Path)
    requires r in Prefixed([k], ps)
    ensures r != [] && r[0] == k && r[1..] in ps
  {
    var i :| 0 <= i < |ps| && Prefixed([k], ps)[i] == r;
    assert r == [k] + ps[i] && r[1..] == ps[i];
  }

  /** A slot of a batch lies in the params of an entry, above the floor of its messages. */
  lemma BatchSlot(u: Json, userText: bool, r: Path)
    requires r in BatchPaths(u, userText)
    ensures |r| >= 3 && ParamsPath(u, r[..3])
    ensures (ParamsAt(u, r[..3]); InLiveZone(Live(AnthropicMessages, At(u, r[..3]), 0), r[3..]))
  {
    hide AnthropicPaths, Prefixed, Each, FrozenCount;
    var k := ListField(u, "requests").value;
    var list := u.kids[k].value;
    PrefixedMember(k, Each(list.kids, 0, EntryFinder(userText)), r);
    EachMembers(list.kids, 0, EntryFinder(userText), r[1..]);
    var entry := list.kids[r[1]].value;
    var tail := r[1..][1..];
    assert tail in RequestPaths(entry, userText);
    var q := Field(entry, "params").value;
    var x := entry.kids[q].value;
    PrefixedMember(q, AnthropicPaths(x, 0, userText), tail);
    SlotsInZone(AnthropicMessages, x, 0, userText);
    assert tail[1..] in SlotPaths(AnthropicMessages, x, 0, userText);
    assert tail[1..] == r[3..] && r[..3] == [k, r[1], q];
    ParamsAt(u, r[..3]);
  }

  /** Normalising a batch normalises each params in place. */
  lemma NormalizedParams(v: Json, prim: Primitives, p: Path)
    requires ParamsPath(v, p)
    ensures Planned(v, MetadataEdits(AnthropicBatches, v, prim))
    ensures var w := Edited(v, MetadataEdits(AnthropicBatches, v, prim));
            && ParamsPath(w, p) && HasPath(v, p) && HasPath(w, p)
            && Planned(At(v, p), ToolEdits(At(v, p), true, prim))
            && At(w, p) == Edited(At(v, p), ToolEdits(At(v, p), true, prim))
  {
    var g := NormalizePlan(true, prim);
    MetadataPlanned(AnthropicBatches, v, prim);
    NormalizePlansAll(prim);
    BatchResult(v, p[0], g);
    ParamsAt(v, p);
    var list := v.kids[p[0]].value;
    var entry := list.kids[p[1]].value;
    var x := entry.kids[p[2]].value;
    assert Planned(x, g(p[1], x));
    EntryResult(p[1], entry, g);
    var mapped := Mapped(list, |list.kids|, EntryPlan(g));
    var w := WithKid(v, p[0], mapped);
    assert mapped.kids[p[1]].value == WithKid(entry, p[2], Edited(x, g(p[1], x)));
    WithKidKeys(v, p[0], mapped, "requests");
    NormalizedNotNull(x, prim);
    FieldNotNull(entry, "params");
    WithKidKeys(entry, p[2], Edited(x, g(p[1], x)), "params");
    ParamsAt(w, p);
  }

  lemma NormalizePlansAll(prim: Primitives)
    ensures Plans(NormalizePlan(true, prim))
  {
    forall i: nat, x: Json ensures Planned(x, NormalizePlan(true, prim)(i, x)) {
      if ToolList(x).Some? { NormalizedTools(x, true, prim); }
    }
  }

  lemma NormalizedNotNull(x: Json, prim: Primitives)
    ensures Planned(x, ToolEdits(x, true, prim))
    ensures IsNull(Edited(x, ToolEdits(x, true, prim))) == IsNull(x)
  {
    if ToolList(x).Some? { NormalizedTools(x, true, prim); }
  }

  lemma FrozenBatchSlot(v: Json, ctx: Context, prim: Primitives, p: Path, r: Path)
    requires Frozen(AnthropicBatches, v, ctx.frozen, p)
    requires r in BatchPaths(Normalized(AnthropicBatches, v, ctx, prim), ctx.userText)
    ensures Apart(p, r)
  {
    hide BatchPaths, AnthropicPaths, ToolEdits, Live, Planned;
    var u := Normalized(AnthropicBatches, v, ctx, prim);
    BatchSlot(u, ctx.userText, r);
    ParamsAt(v, p[..3]);
    ParamsAt(u, r[..3]);
    if p[..3] == r[..3] {
      var x := At(v, p[..3]);
      if Adorned(ctx) {
        NormalizedParams(v, prim, p[..3]);
        LiveNormalized(AnthropicMessages, x, true, prim, 0);
      }
      ZoneApart(Live(AnthropicMessages, x, 0), p[3..], r[3..]);
      BeforePrefix(p[..3], p[3..], r[3..]);
    } else {
      SameLengthApart(p[..3], r[..3]);
      if Before(p[..3], r[..3]) { BeforeExtend(p[..3], r[..3], p[3..], r[3..]); }
      else { BeforeExtend(r[..3], p[..3], r[3..], p[3..]); }
    }
    assert p[..3] + p[3..] == p && r[..3] + r[3..] == r;
  }

  lemma FrozenSlot(shape: Shape, v: Json, ctx: Context, prim: Primitives, p: Path, r: Path)
    requires shape != AnthropicBatches && Frozen(shape, v, ctx.frozen, p)
    requires InLiveZone(Live(shape, Normalized(shape, v, ctx, prim), ctx.frozen), r)
    ensures Apart(p, r)
  {
    LiveNormalized(shape, v, Anthropic(shape), prim, ctx.frozen);
    ZoneApart(Live(shape, v, ctx.frozen), p, r);
  }

  /**
   * Frozen prefix: for every shape, authentication mode and store, a message below the
   * floor is in the output at the same index with the same characters.
   */
  lemma FrozenVerbatim(shape: Shape, d: Doc, ctx: Context, prim: Primitives, st: StoreState, p: Path)
    requires Frozen(shape, d.root, ctx.frozen, p)
    ensures HasPath(d.root, p)
    ensures var n := NewDoc(shape, d, ctx, prim, st).root;
            HasPath(n, p) && At(n, p) == At(d.root, p) && Render(At(n, p)) == Render(At(d.root, p))
  {
    var s := Rewrite(shape, d.root, ctx, prim, st);
    FrozenOutside(shape, d.root, ctx.frozen, p);
    forall i | 0 <= i < |s.picks| ensures Apart(p, s.picks[i].path) {
      PickSlot(shape, s.normal, ctx, prim.hash, st, i);
      if shape == AnthropicBatches {
        FrozenBatchSlot(d.root, ctx, prim, p, s.picks[i].path);
      } else {
        FrozenSlot(shape, d.root, ctx, prim, p, s.picks[i].path);
      }
    }
    Untouched(shape, d, ctx, prim, st, p);
  }
}
