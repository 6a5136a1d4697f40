/** Deterministic tool order, canonical schemas and cache breakpoint placement. */
module Tools {
  import opened Prelude
  import opened Json
  import opened JsonEdits
  import opened EditLists
  import opened Values
  import opened LiveZone

  /** Functions other libraries provide; nothing is assumed of them but what a lemma states. */
  datatype Primitives = Primitives(
    hash: string -> string,
    number: string -> string,
    md5: string -> string,
    cacheKey: (string, string, string) -> string,
    wording: Wording)

  /** Free-text descriptions inside the injected tool. */
  datatype Wording = Wording(tool: string, hash: string, query: string)

  const CacheKid := Kid("", "cache_control", "", "", Box(true, [Kid("", "type", "", "", Str("ephemeral"), "")], ""), "")

  predicate Object(v: Json) { v.Box? && v.isObj }

  // ----- schema of one tool -----

  predicate ToolViewOk(tool: Json) {
    ViewOk(tool, {"function", "parameters", "input_schema"}) &&
    var f := Field(tool, "function");
    f.Some? ==> ViewOk(tool.kids[f.value].value, {"parameters"})
  }

  /** Where the schema of a tool is, relative to the tool. */
  function SchemaPath(tool: Json, anthropic: bool): (r: Option<Path>)
    ensures r.Some? ==> HasPath(tool, r.value) && r.value != []
  {
    if !ToolViewOk(tool) then None
    else if anthropic then
      var k := Field(tool, "input_schema");
      if k.None? then None else Some([k.value])
    else
      var f := Field(tool, "function");
      var q := if f.Some? then Field(tool.kids[f.value].value, "parameters") else None;
      if q.Some? then
        assert [f.value, q.value][1..] == [q.value] && HasPath(tool.kids[f.value].value, [q.value]);
        Some([f.value, q.value])
      else
        var k := Field(tool, "parameters");
        if k.None? then None else Some([k.value])
  }

  /** The splice that makes the schema canonical, when it is not already. */
  function SchemaEdits(tool: Json, anthropic: bool, prim: Primitives): (es: seq<Edit>)
    ensures Planned(tool, es)
  {
    var p := SchemaPath(tool, anthropic);
    if p.None? then []
    else
      var canonical := Canon(At(tool, p.value), prim.number);
      if Render(canonical) == Render(At(tool, p.value)) then [] else [Put(p.value, canonical)]
  }

  /** The tool with only its schema rewritten. */
  function Piece(tool: Json, anthropic: bool, prim: Primitives): Json {
    Edited(tool, SchemaEdits(tool, anthropic, prim))
  }

  // ----- order -----

  function SortKey(tool: Json, prim: Primitives): string {
    var name := LookupText(tool, "name");
    if name.Some? then name.value
    else
      var fn := Lookup(tool, "function");
      var inner := if fn.Some? then LookupText(fn.value, "name") else None;
      if inner.Some? then inner.value else prim.md5(Serialize(Sem(tool, prim.number)))
  }

  function ToolBelow(prim: Primitives): (Json, Json) -> bool {
    (a, b) => Below(SortKey(a, prim), SortKey(b, prim))
  }

  function Vals(kids: seq<Kid>): (r: seq<Json>)
    ensures |r| == |kids| && forall i :: 0 <= i < |kids| ==> r[i] == kids[i].value
  {
    seq(|kids|, i requires 0 <= i < |kids| => kids[i].value)
  }

  predicate Marked(tools: seq<Json>) {
    exists i :: 0 <= i < |tools| && Lookup(tools[i], "cache_control").Some?
  }

  /** A breakpoint anywhere among the tools pins their order. */
  function Arranged(tools: seq<Json>, prim: Primitives): (r: seq<Json>)
    ensures |r| == |tools|
  {
    if Marked(tools) then tools else Sort(tools, ToolBelow(prim))
  }

  predicate CacheControlSet(v: Json) {
    || (var tools := Lookup(v, "tools");
        tools.Some? && IsList(tools.value) && Marked(Vals(tools.value.kids)))
    || HasCacheControl(Lookup(v, "system"))
    || (var messages := Lookup(v, "messages");
        messages.Some? && IsList(messages.value) &&
        exists i :: 0 <= i < |messages.value.kids| && Pinned(messages.value.kids[i].value))
  }

  predicate Placing(v: Json, anthropic: bool) { anthropic && !CacheControlSet(v) }

  // ----- the plan -----

  /** Index of a tool list that can be normalised. */
  function ToolList(v: Json): (r: Option<nat>)
    ensures r.Some? ==> v.Box? && v.isObj && r.value < |v.kids| && IsList(v.kids[r.value].value)
    ensures r.Some? ==> v.kids[r.value].value.kids != []
  {
    var k := ListField(v, "tools");
    if k.Some? && v.kids[k.value].value.kids != [] then k else None
  }

  function Cached(tool: Json): Json {
    if tool.Box? && tool.isObj then Extended(tool, CacheKid) else tool
  }

  /** The tools a request ends up with: arranged, schemas canonical, breakpoint on the last. */
  function FinalTools(tools: seq<Json>, place: bool, anthropic: bool, prim: Primitives): (r: seq<Json>)
    ensures |r| == |tools|
  {
    var arranged := Arranged(tools, prim);
    seq(|tools|, i requires 0 <= i < |tools| =>
      if place && i == |tools| - 1 then Cached(Piece(arranged[i], anthropic, prim))
      else Piece(arranged[i], anthropic, prim))
  }

  function Compact(tools: seq<Json>): Json {
    Box(false, seq(|tools|, i requires 0 <= i < |tools| => Kid("", "", "", "", tools[i], "")), "")
  }

  /** Splices of one tool left in place. */
  function KeptToolEdits(tool: Json, last: bool, anthropic: bool, prim: Primitives): seq<Edit> {
    SchemaEdits(tool, anthropic, prim) + if last && tool.Box? && tool.isObj then [Append([], CacheKid)] else []
  }

  function ToolPlan(count: nat, place: bool, anthropic: bool, prim: Primitives): Plan {
    (i, tool) => KeptToolEdits(tool, place && i == count - 1, anthropic, prim)
  }

  function ToolEdits(v: Json, anthropic: bool, prim: Primitives): seq<Edit> {
    var k := ToolList(v);
    if k.None? then []
    else
      var list := v.kids[k.value].value;
      var tools := Vals(list.kids);
      var place := Placing(v, anthropic);
      if Arranged(tools, prim) != tools then [Put([k.value], Compact(FinalTools(tools, place, anthropic, prim)))]
      else RebaseAll([k.value], UpTo(list.kids, |list.kids|, ToolPlan(|list.kids|, place, anthropic, prim)))
  }

  // ----- both paths give every tool the same bytes -----

  lemma KeptToolPlanned(tool: Json, last: bool, anthropic: bool, prim: Primitives)
    ensures var es := KeptToolEdits(tool, last, anthropic, prim);
            && Planned(tool, es)
            && Edited(tool, es) == (if last then Cached(Piece(tool, anthropic, prim)) else Piece(tool, anthropic, prim))
  {
    var a := SchemaEdits(tool, anthropic, prim);
    var es := KeptToolEdits(tool, last, anthropic, prim);
    PieceIsObj(tool, anthropic, prim);
    if last && tool.Box? && tool.isObj {
      AppendAlone(tool, CacheKid);
      if a == [] {
        assert es == [Append([], CacheKid)];
      } else {
        AppendLast(tool, a[0], CacheKid);
        assert es == [a[0], Append([], CacheKid)];
        PutAlone(tool, a[0]);
        assert a == [a[0]];
      }
    } else {
      assert es == a;
    }
  }

  lemma AppendAlone(tool: Json, kid: Kid)
    requires tool.Box?
    ensures Planned(tool, [Append([], kid)]) && Edited(tool, [Append([], kid)]) == Extended(tool, kid)
  {
    var es := [Append([], kid)];
    assert es[..0] == [];
    assert Edited(tool, es) == Edited(Step(tool, es[0]), es[..0]);
  }

  lemma PutAlone(tool: Json, e: Edit)
    requires e.Put? && HasPath(tool, e.path)
    ensures Planned(tool, [e]) && Edited(tool, [e]) == With(tool, e.path, e.node)
  {
    assert [e][..0] == [];
    assert Edited(tool, [e]) == Edited(Step(tool, e), [e][..0]);
  }

  /** Replacing inside an object and then adding a member at its end, in either order. */
  lemma AppendLast(tool: Json, e: Edit, kid: Kid)
    requires tool.Box? && e.Put? && e.path != [] && HasPath(tool, e.path)
    ensures Planned(tool, [e, Append([], kid)])
    ensures Edited(tool, [e, Append([], kid)]) == Extended(With(tool, e.path, e.node), kid)
  {
    var es := [e, Append([], kid)];
    assert e.path[..0] == [];
    assert Precedes(e, es[1]);
    var x := Extended(tool, kid);
    ExtendedKeeps(tool, kid, e.path);
    LastStable(tool, es);
    assert es[..1] == [e];
    PutAlone(x, e);
    assert With(x, e.path, e.node).kids == Extended(With(tool, e.path, e.node), kid).kids;
  }

  lemma PieceIsObj(tool: Json, anthropic: bool, prim: Primitives)
    ensures var p := Piece(tool, anthropic, prim);
            (p.Box? && p.isObj <==> tool.Box? && tool.isObj) && (tool.Box? ==> |p.kids| == |tool.kids|)
  {
    var es := SchemaEdits(tool, anthropic, prim);
    if es != [] { assert Edited(tool, es) == Edited(Step(tool, es[0]), es[..0]); }
  }

  lemma MovedTools(v: Json, k: nat, tools: seq<Json>)
    requires v.Box? && k < |v.kids| && |tools| > 0
    ensures Planned(v, [Put([k], Compact(tools))])
    ensures Edited(v, [Put([k], Compact(tools))]) == WithKid(v, k, Compact(tools))
    ensures Vals(Compact(tools).kids) == tools
  {
    assert [k][1..] == [];
    PutAlone(v, Put([k], Compact(tools)));
  }

  lemma KeptTools(v: Json, k: nat, place: bool, anthropic: bool, prim: Primitives)
    requires v.Box? && k < |v.kids| && IsList(v.kids[k].value)
    ensures var list := v.kids[k].value;
            var n := |list.kids|;
            var es := RebaseAll([k], UpTo(list.kids, n, ToolPlan(n, place, anthropic, prim)));
            && PlansKids(list, n, ToolPlan(n, place, anthropic, prim))
            && Planned(v, es)
            && Edited(v, es) == WithKid(v, k, Mapped(list, n, ToolPlan(n, place, anthropic, prim)))
            && forall i :: 0 <= i < n ==>
                 Mapped(list, n, ToolPlan(n, place, anthropic, prim)).kids[i].value
                 == (if place && i == n - 1 then Cached(Piece(list.kids[i].value, anthropic, prim))
                     else Piece(list.kids[i].value, anthropic, prim))
  {
    var list := v.kids[k].value;
    var n := |list.kids|;
    var f := ToolPlan(n, place, anthropic, prim);
    forall i | 0 <= i < n
      ensures Planned(list.kids[i].value, f(i, list.kids[i].value))
    {
      KeptToolPlanned(list.kids[i].value, place && i == n - 1, anthropic, prim);
    }
    forall i | 0 <= i < n
      ensures Mapped(list, n, f).kids[i].value
              == if place && i == n - 1 then Cached(Piece(list.kids[i].value, anthropic, prim))
                 else Piece(list.kids[i].value, anthropic, prim)
    {
      KeptToolPlanned(list.kids[i].value, place && i == n - 1, anthropic, prim);
    }
    assert At(v, [k]) == list;
    EditedUpTo(list, n, f);
    EditedRebase(v, [k], UpTo(list.kids, n, f));
  }

  /**
   * Reordered or in place, the tool list becomes the same sequence of tools; nothing
   * outside the list changes.
   */
  lemma NormalizedTools(v: Json, anthropic: bool, prim: Primitives)
    requires ToolList(v).Some?
    ensures var k := ToolList(v).value;
            var list := v.kids[k].value;
            var es := ToolEdits(v, anthropic, prim);
            && Planned(v, es)
            && var w := Edited(v, es);
               w.Box? && |w.kids| == |v.kids|
               && w == WithKid(v, k, w.kids[k].value)
               && IsList(w.kids[k].value)
               && Vals(w.kids[k].value.kids) == FinalTools(Vals(list.kids), Placing(v, anthropic), anthropic, prim)
  {
    var k := ToolList(v).value;
    var tools, place := Vals(v.kids[k].value.kids), Placing(v, anthropic);
    if Arranged(tools, prim) != tools {
      MovedTools(v, k, FinalTools(tools, place, anthropic, prim));
    } else {
      KeptTools(v, k, place, anthropic, prim);
      KeptFinal(v, k, place, anthropic, prim);
    }
  }

  lemma KeptFinal(v: Json, k: nat, place: bool, anthropic: bool, prim: Primitives)
    requires v.Box? && k < |v.kids| && IsList(v.kids[k].value)
    requires var kids := v.kids[k].value.kids;
             Arranged(Vals(kids), prim) == Vals(kids)
             && PlansKids(v.kids[k].value, |kids|, ToolPlan(|kids|, place, anthropic, prim))
    requires var list := v.kids[k].value;
             var n := |list.kids|;
             forall i :: 0 <= i < n ==>
               Mapped(list, n, ToolPlan(n, place, anthropic, prim)).kids[i].value
               == (if place && i == n - 1 then Cached(Piece(list.kids[i].value, anthropic, prim))
                   else Piece(list.kids[i].value, anthropic, prim))
    ensures var list := v.kids[k].value;
            var n := |list.kids|;
            Vals(Mapped(list, n, ToolPlan(n, place, anthropic, prim)).kids)
            == FinalTools(Vals(list.kids), place, anthropic, prim)
  {
  }

  // ----- normalising twice -----

  lemma WithKidKeys(v: Json, k: nat, w: Json, name: string)
    requires v.Box? && k < |v.kids|
    ensures Keys(WithKid(v, k, w).kids) == Keys(v.kids) && KeyIndex(WithKid(v, k, w), name) == KeyIndex(v, name)
    ensures IsNull(w) == IsNull(v.kids[k].value) ==> Field(WithKid(v, k, w), name) == Field(v, name)
    ensures forall fields :: ViewOk(WithKid(v, k, w), fields) == ViewOk(v, fields)
  {
    assert Keys(WithKid(v, k, w).kids) == Keys(v.kids);
  }

  lemma {:induction false} LastIndexSnoc(s: seq<string>, x: string, y: string)
    requires x != y
    ensures LastIndex(s + [y], x) == LastIndex(s, x)
  {
    assert (s + [y])[..|s + [y]| - 1] == s;
  }

  lemma ExtendedKeys(v: Json, kid: Kid, name: string)
    requires v.Box? && v.isObj && Text(kid.key) != name
    ensures KeyIndex(Extended(v, kid), name) == KeyIndex(v, name)
    ensures Field(Extended(v, kid), name) == Field(v, name) && Lookup(Extended(v, kid), name) == Lookup(v, name)
    ensures multiset(Keys(Extended(v, kid).kids))[name] == multiset(Keys(v.kids))[name]
  {
    assert Keys(Extended(v, kid).kids) == Keys(v.kids) + [Text(kid.key)];
    LastIndexSnoc(Keys(v.kids), name, Text(kid.key));
  }

  lemma CacheKidKey()
    ensures Text(CacheKid.key) == "cache_control"
  {
    var key := "cache_control";
    TextOf(key);
    assert CacheKid.key == key;
  }

  /** A schema is `null` after canonicalizing only if it was before. */
  lemma CanonNull(v: Json, number: string -> string)
    requires Wf(v) && GoodNumbers(number)
    ensures IsNull(Canon(v, number)) == IsNull(v)
  {
    assert !IsNumber("null");
  }

  lemma ToolViewKept(tool: Json, k: nat, w: Json)
    requires Object(tool) && k < |tool.kids| && !IsNull(tool.kids[k].value) && !IsNull(w)
    requires Field(tool, "function") != Some(k)
    ensures ToolViewOk(WithKid(tool, k, w)) == ToolViewOk(tool)
    ensures Field(WithKid(tool, k, w), "function") == Field(tool, "function")
    ensures Field(WithKid(tool, k, w), "parameters") == Field(tool, "parameters")
    ensures Field(WithKid(tool, k, w), "input_schema") == Field(tool, "input_schema")
  {
    WithKidKeys(tool, k, w, "function");
    WithKidKeys(tool, k, w, "parameters");
    WithKidKeys(tool, k, w, "input_schema");
  }

  lemma SchemaReplacedDirect(tool: Json, anthropic: bool, w: Json, k: nat)
    requires SchemaPath(tool, anthropic) == Some([k]) && !IsNull(w)
    ensures SchemaPath(WithKid(tool, k, w), anthropic) == Some([k])
  {
    hide ToolViewOk, Keys, KeyIndex, Text;
    FieldKey(tool, "input_schema");
    FieldKey(tool, "parameters");
    FieldKey(tool, "function");
    SchemaNotNull(tool, anthropic);
    AtOne(tool, k);
    ToolViewKept(tool, k, w);
    var f := Field(tool, "function");
    if f.Some? { assert WithKid(tool, k, w).kids[f.value] == tool.kids[f.value]; }
  }

  lemma SchemaReplacedNested(tool: Json, anthropic: bool, w: Json, k: nat, q: nat)
    requires SchemaPath(tool, anthropic) == Some([k, q]) && !IsNull(w)
    ensures SchemaPath(WithKid(tool, k, WithKid(tool.kids[k].value, q, w)), anthropic) == Some([k, q])
  {
    var fn := tool.kids[k].value;
    var u := WithKid(fn, q, w);
    FieldNotNull(fn, "parameters");
    WithKidKeys(fn, q, w, "parameters");
    WithKidKeys(tool, k, u, "function");
    WithKidKeys(tool, k, u, "parameters");
    WithKidKeys(tool, k, u, "input_schema");
  }

  lemma SchemaReplaced(tool: Json, anthropic: bool, canonical: Json)
    requires SchemaPath(tool, anthropic).Some?
    requires !IsNull(canonical)
    ensures var p := SchemaPath(tool, anthropic).value;
            var t := With(tool, p, canonical);
            SchemaPath(t, anthropic) == Some(p) && HasPath(t, p) && At(t, p) == canonical
  {
    var p := SchemaPath(tool, anthropic).value;
    RenderWith(tool, p, canonical);
    if |p| == 1 {
      assert p == [p[0]];
      WithOne(tool, p[0], canonical);
      SchemaReplacedDirect(tool, anthropic, canonical, p[0]);
    } else {
      assert p == [p[0], p[1]];
      WithTwo(tool, p[0], p[1], canonical);
      SchemaReplacedNested(tool, anthropic, canonical, p[0], p[1]);
    }
  }

  /** A rewritten tool has a canonical schema in the same place. */
  lemma PieceSettled(tool: Json, anthropic: bool, prim: Primitives)
    requires Wf(tool) && GoodNumbers(prim.number)
    ensures Wf(Piece(tool, anthropic, prim))
    ensures SchemaEdits(Piece(tool, anthropic, prim), anthropic, prim) == []
  {
    var p := SchemaPath(tool, anthropic);
    if p.Some? {
      var schema := At(tool, p.value);
      WfAt(tool, p.value);
      CanonKeeps(schema, prim.number);
      CanonNull(schema, prim.number);
      var canonical := Canon(schema, prim.number);
      SchemaNotNull(tool, anthropic);
      if SchemaEdits(tool, anthropic, prim) != [] {
        PutAlone(tool, Put(p.value, canonical));
        SchemaReplaced(tool, anthropic, canonical);
        WfWith(tool, p.value, canonical);
      } else {
        assert Piece(tool, anthropic, prim) == tool;
      }
    }
  }

  lemma FieldNotNull(v: Json, name: string)
    ensures Field(v, name).Some? ==> !IsNull(v.kids[Field(v, name).value].value)
  {
  }

  lemma AtOne(v: Json, k: nat)
    requires v.Box? && k < |v.kids|
    ensures HasPath(v, [k]) && At(v, [k]) == v.kids[k].value
  {
    assert [k][1..] == [];
  }

  lemma SchemaNotNull(tool: Json, anthropic: bool)
    requires SchemaPath(tool, anthropic).Some?
    ensures !IsNull(At(tool, SchemaPath(tool, anthropic).value))
  {
    var p := SchemaPath(tool, anthropic).value;
    FieldNotNull(tool, "input_schema");
    FieldNotNull(tool, "parameters");
    if |p| == 1 {
      AtOne(tool, p[0]);
      assert p == [p[0]];
    } else {
      var fn := tool.kids[p[0]].value;
      FieldNotNull(fn, "parameters");
      assert p[1..] == [p[1]];
      AtOne(fn, p[1]);
    }
  }

  lemma {:induction false} SemWith(v: Json, p: Path, w: Json, number: string -> string)
    requires HasPath(v, p) && Sem(w, number) == Sem(At(v, p), number)
    ensures Sem(With(v, p, w), number) == Sem(v, number)
    decreases p
  {
    if p != [] {
      SemWith(v.kids[p[0]].value, p[1..], w, number);
      SemKids(With(v, p, w).kids, v.kids, number);
    }
  }

  /** Members other than the rewritten one read the same. */
  lemma LookupOther(v: Json, k: nat, w: Json, name: string)
    requires v.Box? && v.isObj && k < |v.kids| && Text(v.kids[k].key) != name
    ensures Lookup(WithKid(v, k, w), name) == Lookup(v, name)
  {
    WithKidKeys(v, k, w, name);
  }

  lemma PieceKey(tool: Json, anthropic: bool, prim: Primitives)
    requires Wf(tool) && GoodNumbers(prim.number)
    ensures SortKey(Piece(tool, anthropic, prim), prim) == SortKey(tool, prim)
    ensures Lookup(Piece(tool, anthropic, prim), "cache_control").Some? == Lookup(tool, "cache_control").Some?
  {
    var es := SchemaEdits(tool, anthropic, prim);
    if es != [] {
      var p := SchemaPath(tool, anthropic).value;
      var canonical := Canon(At(tool, p), prim.number);
      WfAt(tool, p);
      CanonKeeps(At(tool, p), prim.number);
      SemWith(tool, p, canonical, prim.number);
      PutAlone(tool, es[0]);
      PieceLookups(tool, anthropic, canonical);
      SameKey(With(tool, p, canonical), tool, prim);
    }
  }

  lemma SameKey(t: Json, tool: Json, prim: Primitives)
    requires ReadsSame(t, tool) && Sem(t, prim.number) == Sem(tool, prim.number)
    ensures SortKey(t, prim) == SortKey(tool, prim)
  {
  }

  /** What the sort key and the marker test read of a tool. */
  predicate ReadsSame(t: Json, tool: Json) {
    var f, g := Lookup(t, "function"), Lookup(tool, "function");
    && LookupText(t, "name") == LookupText(tool, "name")
    && Lookup(t, "cache_control").Some? == Lookup(tool, "cache_control").Some?
    && f.Some? == g.Some?
    && (f.Some? ==> LookupText(f.value, "name") == LookupText(g.value, "name"))
  }

  lemma ReadsSameDirect(tool: Json, k: nat, w: Json)
    requires tool.Box? && tool.isObj && k < |tool.kids|
    requires Text(tool.kids[k].key) in {"input_schema", "parameters"}
    ensures ReadsSame(WithKid(tool, k, w), tool)
  {
    LookupOther(tool, k, w, "name");
    LookupOther(tool, k, w, "cache_control");
    LookupOther(tool, k, w, "function");
  }

  lemma ReadsSameNested(tool: Json, k: nat, q: nat, w: Json)
    requires tool.Box? && tool.isObj && k < |tool.kids| && KeyIndex(tool, "function") == Some(k)
    requires var fn := tool.kids[k].value; fn.Box? && fn.isObj && q < |fn.kids| && Text(fn.kids[q].key) == "parameters"
    ensures ReadsSame(WithKid(tool, k, WithKid(tool.kids[k].value, q, w)), tool)
  {
    var u := WithKid(tool.kids[k].value, q, w);
    LookupOther(tool, k, u, "name");
    LookupOther(tool, k, u, "cache_control");
    WithKidKeys(tool, k, u, "function");
    LookupOther(tool.kids[k].value, q, w, "name");
  }

  lemma PieceLookups(tool: Json, anthropic: bool, w: Json)
    requires SchemaPath(tool, anthropic).Some?
    ensures ReadsSame(With(tool, SchemaPath(tool, anthropic).value, w), tool)
  {
    var p := SchemaPath(tool, anthropic).value;
    FieldKey(tool, "input_schema");
    FieldKey(tool, "parameters");
    if |p| == 1 {
      assert p == [p[0]];
      WithOne(tool, p[0], w);
      ReadsSameDirect(tool, p[0], w);
    } else {
      FieldKey(tool.kids[p[0]].value, "parameters");
      assert p == [p[0], p[1]];
      WithTwo(tool, p[0], p[1], w);
      ReadsSameNested(tool, p[0], p[1], w);
    }
  }

  lemma WithOne(v: Json, k: nat, w: Json)
    requires v.Box? && k < |v.kids|
    ensures HasPath(v, [k]) && With(v, [k], w) == WithKid(v, k, w)
  {
    assert [k][1..] == [];
  }

  lemma WithTwo(v: Json, k: nat, q: nat, w: Json)
    requires HasPath(v, [k, q])
    ensures v.Box? && k < |v.kids| && v.kids[k].value.Box? && q < |v.kids[k].value.kids|
    ensures With(v, [k, q], w) == WithKid(v, k, WithKid(v.kids[k].value, q, w))
  {
    assert [k, q][1..] == [q];
    WithOne(v.kids[k].value, q, w);
  }

  lemma CachedSettled(tool: Json, anthropic: bool, prim: Primitives)
    requires SchemaEdits(tool, anthropic, prim) == []
    ensures SchemaEdits(Cached(tool), anthropic, prim) == []
    ensures tool.Box? && tool.isObj ==> Lookup(Cached(tool), "cache_control").Some?
  {
    hide SchemaPath, Canon, Render, Text;
    if tool.Box? && tool.isObj {
      var t := Extended(tool, CacheKid);
      CacheKidKey();
      CachedSchema(tool, anthropic);
      assert Keys(t.kids) == Keys(tool.kids) + ["cache_control"];
      if SchemaPath(t, anthropic).Some? { ExtendedKeeps(tool, CacheKid, SchemaPath(tool, anthropic).value); }
    }
  }

  lemma CachedView(v: Json, fields: set<string>)
    requires v.Box? && v.isObj && "cache_control" !in fields
    ensures ViewOk(Extended(v, CacheKid), fields) == ViewOk(v, fields)
  {
    CacheKidKey();
    forall f | f in fields ensures multiset(Keys(Extended(v, CacheKid).kids))[f] == multiset(Keys(v.kids))[f] {
      ExtendedKeys(v, CacheKid, f);
    }
  }

  lemma CachedSchema(tool: Json, anthropic: bool)
    requires tool.Box? && tool.isObj
    ensures SchemaPath(Extended(tool, CacheKid), anthropic) == SchemaPath(tool, anthropic)
  {
    hide KeyIndex, Keys, Text;
    CacheKidKey();
    var t := Extended(tool, CacheKid);
    CachedView(tool, {"function", "parameters", "input_schema"});
    ExtendedKeys(tool, CacheKid, "function");
    ExtendedKeys(tool, CacheKid, "parameters");
    ExtendedKeys(tool, CacheKid, "input_schema");
    assert forall i :: 0 <= i < |tool.kids| ==> t.kids[i] == tool.kids[i];
  }

  ghost predicate AllWf(tools: seq<Json>) { forall i :: 0 <= i < |tools| ==> Wf(tools[i]) }

  lemma ArrangedWf(tools: seq<Json>, prim: Primitives)
    requires AllWf(tools)
    ensures AllWf(Arranged(tools, prim))
  {
    SortPermutes(tools, ToolBelow(prim));
    var r := Arranged(tools, prim);
    forall i | 0 <= i < |r| ensures Wf(r[i]) { assert r[i] in multiset(r); assert r[i] in multiset(tools); }
  }

  lemma ToolBelowOrder(prim: Primitives)
    ensures WeakOrder(ToolBelow(prim))
  {
    BelowWeakOrder();
    forall a, b | ToolBelow(prim)(a, b) ensures !ToolBelow(prim)(b, a) {
      BelowTotal(SortKey(a, prim), SortKey(b, prim));
    }
    forall a, b, c | !ToolBelow(prim)(b, a) && !ToolBelow(prim)(c, b) ensures !ToolBelow(prim)(c, a) {
      assert !Below(SortKey(b, prim), SortKey(a, prim)) && !Below(SortKey(c, prim), SortKey(b, prim));
    }
  }

  lemma FinalEach(tools: seq<Json>, place: bool, anthropic: bool, prim: Primitives, i: nat)
    requires AllWf(tools) && GoodNumbers(prim.number) && i < |tools|
    ensures var arranged, final := Arranged(tools, prim), FinalTools(tools, place, anthropic, prim);
            && SchemaEdits(final[i], anthropic, prim) == []
            && (Lookup(arranged[i], "cache_control").Some? ==> Lookup(final[i], "cache_control").Some?)
            && (!(place && i == |final| - 1 && Object(final[i])) ==>
                 SortKey(final[i], prim) == SortKey(arranged[i], prim)
                 && Lookup(final[i], "cache_control").Some? == Lookup(arranged[i], "cache_control").Some?)
            && (place && i == |final| - 1 && Object(final[i]) ==> Lookup(final[i], "cache_control").Some?)
  {
    ArrangedWf(tools, prim);
    FinalTool(Arranged(tools, prim)[i], place && i == |tools| - 1, anthropic, prim);
  }

  /** Final tools need no further rewriting, and carry a marker exactly when expected. */
  lemma FinalMarked(tools: seq<Json>, place: bool, anthropic: bool, prim: Primitives)
    requires AllWf(tools) && GoodNumbers(prim.number)
    ensures var final := FinalTools(tools, place, anthropic, prim);
            Marked(final) == (Marked(tools) || (place && tools != [] && Object(final[|final| - 1])))
  {
    var arranged, final := Arranged(tools, prim), FinalTools(tools, place, anthropic, prim);
    forall i | 0 <= i < |final|
      ensures Lookup(arranged[i], "cache_control").Some? ==> Lookup(final[i], "cache_control").Some?
      ensures Lookup(final[i], "cache_control").Some? ==>
                Lookup(arranged[i], "cache_control").Some? || (place && i == |final| - 1 && Object(final[i]))
      ensures place && i == |final| - 1 && Object(final[i]) ==> Lookup(final[i], "cache_control").Some?
    {
      FinalEach(tools, place, anthropic, prim, i);
    }
    ArrangedMarked(tools, prim);
  }

  lemma ArrangedMarked(tools: seq<Json>, prim: Primitives)
    ensures Marked(Arranged(tools, prim)) == Marked(tools)
  {
    if !Marked(tools) {
      var r := Arranged(tools, prim);
      SortPermutes(tools, ToolBelow(prim));
      forall i | 0 <= i < |r| ensures Lookup(r[i], "cache_control").None? {
        assert r[i] in multiset(r);
        assert r[i] in multiset(tools);
      }
    }
  }

  /** The final tools are arranged already. */
  lemma FinalArranged(tools: seq<Json>, place: bool, anthropic: bool, prim: Primitives)
    requires AllWf(tools) && GoodNumbers(prim.number)
    ensures var final := FinalTools(tools, place, anthropic, prim); Arranged(final, prim) == final
  {
    var arranged, final := Arranged(tools, prim), FinalTools(tools, place, anthropic, prim);
    FinalMarked(tools, place, anthropic, prim);
    if !Marked(final) {
      ToolBelowOrder(prim);
      SortAscends(tools, ToolBelow(prim));
      forall i | 0 <= i < |final| ensures SortKey(final[i], prim) == SortKey(arranged[i], prim) {
        FinalEach(tools, place, anthropic, prim, i);
      }
      forall i, j | 0 <= i < j < |final| ensures !ToolBelow(prim)(final[j], final[i]) {
        assert !ToolBelow(prim)(arranged[j], arranged[i]);
      }
      SortFixes(final, ToolBelow(prim));
    }
  }

  lemma FinalTool(tool: Json, last: bool, anthropic: bool, prim: Primitives)
    requires Wf(tool) && GoodNumbers(prim.number)
    ensures var t := if last then Cached(Piece(tool, anthropic, prim)) else Piece(tool, anthropic, prim);
            && SchemaEdits(t, anthropic, prim) == []
            && (Lookup(tool, "cache_control").Some? ==> Lookup(t, "cache_control").Some?)
            && (!last || !(t.Box? && t.isObj) ==>
                 SortKey(t, prim) == SortKey(tool, prim)
                 && Lookup(t, "cache_control").Some? == Lookup(tool, "cache_control").Some?)
            && (last && t.Box? && t.isObj ==> Lookup(t, "cache_control").Some?)
  {
    PieceSettled(tool, anthropic, prim);
    PieceKey(tool, anthropic, prim);
    CachedSettled(Piece(tool, anthropic, prim), anthropic, prim);
  }

  lemma KidsWf(v: Json)
    requires Wf(v) && v.Box?
    ensures AllWf(Vals(v.kids))
  {
    forall i | 0 <= i < |v.kids| ensures Wf(Vals(v.kids)[i]) { assert KidOk(v.isObj, v.kids[i]); }
  }

  lemma {:induction false} NoEdits(kids: seq<Kid>, n: nat, f: Plan)
    requires n <= |kids| && forall i :: 0 <= i < n ==> f(i, kids[i].value) == []
    ensures UpTo(kids, n, f) == []
  {
    if n > 0 { NoEdits(kids, n - 1, f); }
  }

  /** After normalisation the tool list is found in the same place. */
  lemma ToolListKept(v: Json, w: Json)
    requires ToolList(v).Some? && w.Box?
    requires var k := ToolList(v).value;
             k < |w.kids| && w == WithKid(v, k, w.kids[k].value) && IsList(w.kids[k].value) &&
               w.kids[k].value.kids != []
    ensures ToolList(w) == ToolList(v)
    ensures Lookup(w, "tools") == Some(w.kids[ToolList(v).value].value)
    ensures Lookup(w, "system") == Lookup(v, "system") && Lookup(w, "messages") == Lookup(v, "messages")
    ensures Lookup(v, "tools") == Some(v.kids[ToolList(v).value].value)
  {
    var k := ToolList(v).value;
    FieldKey(v, "tools");
    WithKidKeys(v, k, w.kids[k].value, "tools");
    LookupOther(v, k, w.kids[k].value, "system");
    LookupOther(v, k, w.kids[k].value, "messages");
  }

  /** Nothing is planned for arranged tools without pending schema or breakpoint work. */
  lemma NothingPlanned(w: Json, anthropic: bool, prim: Primitives)
    requires ToolList(w).Some?
    requires var tools := Vals(w.kids[ToolList(w).value].value.kids);
             && Arranged(tools, prim) == tools
             && (forall i :: 0 <= i < |tools| ==> SchemaEdits(tools[i], anthropic, prim) == [])
             && (Placing(w, anthropic) ==> !Object(tools[|tools| - 1]))
    ensures ToolEdits(w, anthropic, prim) == []
  {
    var kids := w.kids[ToolList(w).value].value.kids;
    KeptNothing(kids, Placing(w, anthropic), anthropic, prim);
  }

  lemma KeptNothing(kids: seq<Kid>, place: bool, anthropic: bool, prim: Primitives)
    requires var tools := Vals(kids);
             && (forall i :: 0 <= i < |tools| ==> SchemaEdits(tools[i], anthropic, prim) == [])
             && (place && tools != [] ==> !Object(tools[|tools| - 1]))
    ensures UpTo(kids, |kids|, ToolPlan(|kids|, place, anthropic, prim)) == []
  {
    var n := |kids|;
    forall i | 0 <= i < n ensures KeptToolEdits(kids[i].value, place && i == n - 1, anthropic, prim) == [] {
      NothingAt(kids, i, place && i == n - 1, anthropic, prim);
    }
    PlanNothing(kids, n, place, anthropic, prim);
  }

  lemma NothingAt(kids: seq<Kid>, i: nat, last: bool, anthropic: bool, prim: Primitives)
    requires i < |kids| && SchemaEdits(Vals(kids)[i], anthropic, prim) == [] && (last ==> !Object(Vals(kids)[i]))
    ensures KeptToolEdits(kids[i].value, last, anthropic, prim) == []
  {
    KeptToolNothing(kids[i].value, last, anthropic, prim);
  }

  lemma PlanNothing(kids: seq<Kid>, n: nat, place: bool, anthropic: bool, prim: Primitives)
    requires n == |kids| && forall i :: 0 <= i < n ==>
             KeptToolEdits(kids[i].value, place && i == n - 1, anthropic, prim) == []
    ensures UpTo(kids, n, ToolPlan(n, place, anthropic, prim)) == []
  {
    NoEdits(kids, n, ToolPlan(n, place, anthropic, prim));
  }

  lemma KeptToolNothing(tool: Json, last: bool, anthropic: bool, prim: Primitives)
    requires SchemaEdits(tool, anthropic, prim) == [] && (last ==> !Object(tool))
    ensures KeptToolEdits(tool, last, anthropic, prim) == []
  {
  }

  /** The request after normalisation, with the facts a second pass depends on. */
  lemma AfterNormalizing(v: Json, anthropic: bool, prim: Primitives)
    requires Wf(v) && GoodNumbers(prim.number) && ToolList(v).Some?
    ensures Planned(v, ToolEdits(v, anthropic, prim))
    ensures var w := Edited(v, ToolEdits(v, anthropic, prim));
            var tools, place := Vals(v.kids[ToolList(v).value].value.kids), Placing(v, anthropic);
            && ToolList(w) == ToolList(v) && AllWf(tools)
            && Vals(w.kids[ToolList(v).value].value.kids) == FinalTools(tools, place, anthropic, prim)
            && CacheControlSet(w) == (CacheControlSet(v) || Marked(FinalTools(tools, place, anthropic, prim)))
  {
    NormalizedTools(v, anthropic, prim);
    var k := ToolList(v).value;
    var w := Edited(v, ToolEdits(v, anthropic, prim));
    var tools, place := Vals(v.kids[k].value.kids), Placing(v, anthropic);
    assert |w.kids[k].value.kids| == |Vals(w.kids[k].value.kids)|;
    ToolListKept(v, w);
    assert KidOk(v.isObj, v.kids[k]);
    KidsWf(v.kids[k].value);
    FinalMarked(tools, place, anthropic, prim);
  }

  /** Normalising a request a second time plans nothing. */
  lemma NormalizeTwice(v: Json, anthropic: bool, prim: Primitives)
    requires Wf(v) && GoodNumbers(prim.number)
    ensures Planned(v, ToolEdits(v, anthropic, prim))
    ensures ToolEdits(Edited(v, ToolEdits(v, anthropic, prim)), anthropic, prim) == []
  {
    if ToolList(v).Some? {
      AfterNormalizing(v, anthropic, prim);
      var w := Edited(v, ToolEdits(v, anthropic, prim));
      var tools, place := Vals(v.kids[ToolList(v).value].value.kids), Placing(v, anthropic);
      FinalArranged(tools, place, anthropic, prim);
      FinalMarked(tools, place, anthropic, prim);
      forall i | 0 <= i < |tools|
        ensures SchemaEdits(FinalTools(tools, place, anthropic, prim)[i], anthropic, prim) == []
      {
        FinalEach(tools, place, anthropic, prim, i);
      }
      NothingPlanned(w, anthropic, prim);
    }
  }

  /**
   * The order tools arrive in does not matter when equal sort keys mean equal tools and
   * no breakpoint pins the order.
   */
  lemma PermutedTools(a: seq<Json>, b: seq<Json>, place: bool, anthropic: bool, prim: Primitives)
    requires multiset(a) == multiset(b) && !Marked(a)
    requires forall x, y :: x in a && y in a && SortKey(x, prim) == SortKey(y, prim) ==> x == y
    ensures FinalTools(a, place, anthropic, prim) == FinalTools(b, place, anthropic, prim)
  {
    assert |a| == |multiset(a)| && |b| == |multiset(b)|;
    assert !Marked(b) by {
      forall i | 0 <= i < |b| ensures Lookup(b[i], "cache_control").None? {
        assert b[i] in multiset(b);
        assert b[i] in multiset(a);
      }
    }
    var s, t := Sort(a, ToolBelow(prim)), Sort(b, ToolBelow(prim));
    ToolBelowOrder(prim);
    SortPermutes(a, ToolBelow(prim));
    SortPermutes(b, ToolBelow(prim));
    SortAscends(a, ToolBelow(prim));
    SortAscends(b, ToolBelow(prim));
    assert Separates(s, ToolBelow(prim)) by {
      forall x, y | x in s && y in s && !ToolBelow(prim)(x, y) && !ToolBelow(prim)(y, x) ensures x == y {
        assert x in multiset(s) && y in multiset(s);
        assert x in multiset(a) && y in multiset(a);
        BelowTotal(SortKey(x, prim), SortKey(y, prim));
      }
    }
    AscendingUnique(s, t, ToolBelow(prim));
  }

  // ----- the planner -----

  /** The sort works on indices; a tool moves exactly when the arranged list differs. */
  function SortedIndices(tools: seq<Json>, prim: Primitives): seq<int> {
    Sort(seq(|tools|, i => i), IndexBelow(tools, prim))
  }

  function IndexBelow(tools: seq<Json>, prim: Primitives): (int, int) -> bool {
    (i, j) => 0 <= i < |tools| && 0 <= j < |tools| && Below(SortKey(tools[i], prim), SortKey(tools[j], prim))
  }

  ghost predicate Indices(order: seq<int>, n: nat) { forall i :: 0 <= i < |order| ==> 0 <= order[i] < n }

  function Pick(tools: seq<Json>, order: seq<int>): (r: seq<Json>)
    requires forall i :: 0 <= i < |order| ==> 0 <= order[i] < |tools|
    ensures |r| == |order|
  {
    seq(|order|, i requires 0 <= i < |order| => tools[order[i]])
  }

  lemma PickCons(tools: seq<Json>, x: int, order: seq<int>)
    requires Indices(order, |tools|) && 0 <= x < |tools|
    ensures Indices([x] + order, |tools|) && Pick(tools, [x] + order) == [tools[x]] + Pick(tools, order)
  {
  }

  lemma {:induction false} InsertPick(tools: seq<Json>, x: int, order: seq<int>, prim: Primitives)
    requires Indices(order, |tools|) && 0 <= x < |tools|
    ensures Indices(Insert(x, order, IndexBelow(tools, prim)), |tools|)
    ensures Pick(tools, Insert(x, order, IndexBelow(tools, prim)))
            == Insert(tools[x], Pick(tools, order), ToolBelow(prim))
  {
    if order == [] || IndexBelow(tools, prim)(x, order[0]) {
      PickCons(tools, x, order);
    } else {
      var rest := order[1..];
      assert Indices(rest, |tools|) && order == [order[0]] + rest;
      InsertPick(tools, x, rest, prim);
      PickCons(tools, order[0], rest);
      PickCons(tools, order[0], Insert(x, rest, IndexBelow(tools, prim)));
      assert Pick(tools, order)[1..] == Pick(tools, rest);
    }
  }

  lemma {:induction false} SortPick(tools: seq<Json>, order: seq<int>, prim: Primitives)
    requires Indices(order, |tools|)
    ensures Indices(Sort(order, IndexBelow(tools, prim)), |tools|)
    ensures Pick(tools, Sort(order, IndexBelow(tools, prim))) == Sort(Pick(tools, order), ToolBelow(prim))
  {
    hide SortKey;
    if order != [] {
      var n := |order| - 1;
      SortPick(tools, order[..n], prim);
      InsertPick(tools, order[n], Sort(order[..n], IndexBelow(tools, prim)), prim);
      assert Pick(tools, order)[..n] == Pick(tools, order[..n]);
    }
  }

  lemma SortedIndicesArrange(tools: seq<Json>, prim: Primitives)
    ensures var order := SortedIndices(tools, prim);
            && |order| == |tools| && Indices(order, |tools|)
            && Pick(tools, order) == Sort(tools, ToolBelow(prim))
            && (order == seq(|tools|, i => i) <==> Sort(tools, ToolBelow(prim)) == tools)
  {
    var start := seq(|tools|, i => i);
    SortPick(tools, start, prim);
    assert Pick(tools, start) == tools;
    if Sort(tools, ToolBelow(prim)) == tools {
      ToolBelowOrder(prim);
      SortAscends(tools, ToolBelow(prim));
      assert Ascending(start, IndexBelow(tools, prim)) by {
        forall i, j | 0 <= i < j < |start| ensures !IndexBelow(tools, prim)(start[j], start[i]) {
          assert !ToolBelow(prim)(tools[j], tools[i]);
        }
      }
      SortFixes(start, IndexBelow(tools, prim));
    }
  }
}
