/** What a second normalisation does to a retrieve tool the first pass added. */
module AddedTool {
  import opened Prelude
  import opened Json
  import opened JsonEdits
  import opened EditLists
  import opened Values
  import opened LiveZone
  import opened Tools
  import opened Injections

  // ----- the injected tool, as the normaliser reads it -----

  /** Every part of a written value is a written value. */
  lemma {:induction false} TreePart(v: Val, p: Path, number: string -> string) returns (x: Val)
    requires Normal(v, number) && HasPath(Tree(v), p)
    ensures Normal(x, number) && At(Tree(v), p) == Tree(x)
    decreases p
  {
    if p == [] {
      x := v;
    } else if v.Arr? {
      x := TreePart(v.items[p[0]], p[1..], number);
    } else {
      x := TreePart(v.entries[p[0]].val, p[1..], number);
    }
  }

  lemma WrittenSettled(v: Val, anthropic: bool, prim: Primitives)
    requires Normal(v, prim.number)
    ensures SchemaEdits(Tree(v), anthropic, prim) == []
  {
    hide Normal, Tree, SchemaPath, Render, Sem;
    var p := SchemaPath(Tree(v), anthropic);
    if p.Some? {
      var x := TreePart(v, p.value, prim.number);
      SemTree(x, prim.number);
    }
  }

  lemma Keyless(v: Val, key: string)
    requires Normal(v, Same) && v.Obj? && forall i :: 0 <= i < |v.entries| ==> v.entries[i].key != key
    ensures Lookup(Tree(v), key).None? && LookupText(Tree(v), key).None?
  {
    hide Normal, Tree, Lookup;
    LookupTree(v, key);
    NotFound(v.entries, key);
  }

  lemma {:induction false} NotFound(es: seq<Entry>, key: string)
    requires forall i :: 0 <= i < |es| ==> es[i].key != key
    ensures Values.Find(es, key).None?
  {
    if es != [] {
      assert forall i :: 0 <= i < |es| - 1 ==> es[1..][i] == es[i + 1];
      NotFound(es[1..], key);
    }
  }

  lemma RetrieveUnmarked(shape: Shape, w: Wording)
    ensures Lookup(Tree(RetrieveTool(shape, w)), "cache_control").None?
  {
    hide Normal, Tree, Parameters, Lookup;
    RetrieveNormal(shape, w, Same);
    Keyless(RetrieveTool(shape, w), "cache_control");
  }

  lemma ThirdNamed(es: seq<Entry>)
    requires |es| >= 2 && es[0].key == "description"
    requires es[1] == Entry("name", Txt(RETRIEVE))
             || (|es| >= 3 && es[1].key == "input_schema" && es[2] == Entry("name", Txt(RETRIEVE)))
    ensures GetText(Obj(es), "name") == Some(RETRIEVE)
  {
    ThirdEntry(es);
  }

  /** Its sort key is its name. */
  lemma RetrieveKey(shape: Shape, prim: Primitives)
    ensures SortKey(Tree(RetrieveTool(shape, prim.wording)), prim) == RETRIEVE
  {
    hide Normal, Tree, Parameters, Lookup, LookupText, Sem, Serialize;
    var v := RetrieveTool(shape, prim.wording);
    RetrieveNormal(shape, prim.wording, Same);
    if shape == OpenAiChat {
      Keyless(v, "name");
      var fn := v.entries[0].val;
      ThirdNamed(fn.entries);
      assert Get(v, "function") == Some(fn);
      FunctionNameRead(v, fn);
    } else {
      ThirdNamed(v.entries);
      NameRead(v);
    }
  }

  // ----- an arranged list with one more tool -----

  lemma SortedExactly(s: seq<Json>, prim: Primitives)
    ensures Sort(s, ToolBelow(prim)) == s <==> Ascending(s, ToolBelow(prim))
  {
    hide SortKey;
    ToolBelowOrder(prim);
    SortAscends(s, ToolBelow(prim));
    if Ascending(s, ToolBelow(prim)) { SortFixes(s, ToolBelow(prim)); }
  }

  /** No tool of the list has a sort key above `key`. */
  predicate AllUpTo(tools: seq<Json>, key: string, prim: Primitives) {
    forall i :: 0 <= i < |tools| ==> !Below(key, SortKey(tools[i], prim))
  }

  lemma AscendingMore(s: seq<Json>, t: Json, prim: Primitives)
    ensures Ascending(s + [t], ToolBelow(prim)) <==> Ascending(s, ToolBelow(prim)) && AllUpTo(s, SortKey(t, prim), prim)
  {
    hide SortKey, Below;
    var r := s + [t];
    if Ascending(r, ToolBelow(prim)) {
      forall i, j | 0 <= i < j < |s| ensures !ToolBelow(prim)(s[j], s[i]) { assert r[i] == s[i] && r[j] == s[j]; }
      forall i | 0 <= i < |s| ensures !Below(SortKey(t, prim), SortKey(s[i], prim)) {
        assert !ToolBelow(prim)(r[|s|], r[i]);
      }
    }
    if Ascending(s, ToolBelow(prim)) && AllUpTo(s, SortKey(t, prim), prim) {
      forall i, j | 0 <= i < j < |r| ensures !ToolBelow(prim)(r[j], r[i]) {
        if j < |s| { assert !ToolBelow(prim)(s[j], s[i]); } else { assert r[i] == s[i] && r[j] == t; }
      }
    }
  }

  lemma MarkedMore(s: seq<Json>, t: Json)
    requires Lookup(t, "cache_control").None?
    ensures Marked(s + [t]) == Marked(s)
  {
    hide Lookup;
    var r := s + [t];
    assert forall i :: 0 <= i < |s| ==> r[i] == s[i];
    if Marked(s) {
      var i :| 0 <= i < |s| && Lookup(s[i], "cache_control").Some?;
      assert Lookup(r[i], "cache_control").Some?;
    }
  }

  lemma ArrangedMore(s: seq<Json>, t: Json, prim: Primitives)
    requires Arranged(s, prim) == s && Lookup(t, "cache_control").None?
    ensures Arranged(s + [t], prim) == s + [t] <==> Marked(s) || AllUpTo(s, SortKey(t, prim), prim)
  {
    hide Ascending, AllUpTo, Marked, Lookup, ToolBelow;
    MarkedMore(s, t);
    SortedExactly(s, prim);
    SortedExactly(s + [t], prim);
    AscendingMore(s, t, prim);
  }

  // ----- when nothing is planned -----

  lemma {:induction false} NothingFrom(kids: seq<Kid>, n: nat, f: Plan, i: nat)
    requires n <= |kids| && UpTo(kids, n, f) == [] && i < n
    ensures f(i, kids[i].value) == []
  {
    var k := n - 1;
    assert |RebaseAll([k], f(k, kids[k].value))| == |f(k, kids[k].value)|;
    if i < k { NothingFrom(kids, k, f, i); }
  }

  /** Nothing is planned exactly for arranged tools without pending schema or breakpoint work. */
  lemma NothingExactly(w: Json, anthropic: bool, prim: Primitives)
    requires ToolList(w).Some?
    ensures var tools := Vals(w.kids[ToolList(w).value].value.kids);
            ToolEdits(w, anthropic, prim) == [] <==>
            && Arranged(tools, prim) == tools
            && (forall i :: 0 <= i < |tools| ==> SchemaEdits(tools[i], anthropic, prim) == [])
            && (Placing(w, anthropic) ==> !Object(tools[|tools| - 1]))
  {
    hide Arranged, Placing, SchemaEdits, Object, ToolList;
    var kids := w.kids[ToolList(w).value].value.kids;
    var tools := Vals(kids);
    if ToolEdits(w, anthropic, prim) == [] {
      PlanEmpty(w, anthropic, prim);
      forall i | 0 <= i < |tools|
        ensures SchemaEdits(tools[i], anthropic, prim) == []
        ensures Placing(w, anthropic) && i == |tools| - 1 ==> !Object(tools[i])
      {
        NothingFrom(kids, |kids|, ToolPlan(|kids|, Placing(w, anthropic), anthropic, prim), i);
        NothingKept(tools[i], Placing(w, anthropic) && i == |kids| - 1, anthropic, prim);
      }
    } else if Arranged(tools, prim) == tools && (Placing(w, anthropic) ==> !Object(tools[|tools| - 1])) {
      if forall i :: 0 <= i < |tools| ==> SchemaEdits(tools[i], anthropic, prim) == [] {
        NothingPlanned(w, anthropic, prim);
      }
    }
  }

  lemma PlanEmpty(w: Json, anthropic: bool, prim: Primitives)
    requires ToolList(w).Some? && ToolEdits(w, anthropic, prim) == []
    ensures var kids := w.kids[ToolList(w).value].value.kids;
            && Arranged(Vals(kids), prim) == Vals(kids)
            && UpTo(kids, |kids|, ToolPlan(|kids|, Placing(w, anthropic), anthropic, prim)) == []
  {
    hide Arranged, Placing, ToolList, FinalTools;
    var kids := w.kids[ToolList(w).value].value.kids;
    assert Arranged(Vals(kids), prim) == Vals(kids);
  }

  lemma NothingKept(tool: Json, last: bool, anthropic: bool, prim: Primitives)
    requires KeptToolEdits(tool, last, anthropic, prim) == []
    ensures SchemaEdits(tool, anthropic, prim) == [] && (last ==> !Object(tool))
  {
    hide SchemaEdits;
  }

  // ----- the added tool -----

  /** The tools a request shows. */
  function ShownTools(x: Json): seq<Json> {
    var tools := Lookup(x, "tools");
    if tools.Some? && IsList(tools.value) then Vals(tools.value.kids) else []
  }

  predicate ForAnthropic(shape: Shape) { shape == AnthropicMessages || shape == AnthropicBatches }

  /**
   * An added tool stays as it is: a breakpoint pins the order or no other tool sorts behind it, and
   * no breakpoint is still to be placed.
   */
  predicate Stays(x: Json, shape: Shape, prim: Primitives) {
    && (Marked(ShownTools(x)) || AllUpTo(ShownTools(x), RETRIEVE, prim))
    && (ForAnthropic(shape) ==> CacheControlSet(x))
  }

  /** A request that shows one more tool. */
  predicate OneMore(x: Json, y: Json, tool: Json) {
    && ToolList(y).Some? && Vals(y.kids[ToolList(y).value].value.kids) == ShownTools(x) + [tool]
    && Lookup(y, "tools") == Some(y.kids[ToolList(y).value].value)
    && Lookup(y, "system") == Lookup(x, "system") && Lookup(y, "messages") == Lookup(x, "messages")
  }

  lemma NewKeyOnce(x: Json, kid: Kid, key: string)
    requires Object(x) && Text(kid.key) == key && Lookup(x, key).None?
    ensures KeyIndex(Extended(x, kid), key) == Some(|x.kids|) && ViewOk(Extended(x, kid), {key})
  {
    hide Text;
    var y := Extended(x, kid);
    assert Keys(y.kids) == Keys(x.kids) + [key];
    assert key !in Keys(x.kids);
    assert multiset(Keys(y.kids)) == multiset(Keys(x.kids)) + multiset([key]);
  }

  lemma ListedAt(y: Json, k: nat)
    requires KeyIndex(y, "tools") == Some(k) && ViewOk(y, {"tools"}) && IsList(y.kids[k].value) &&
             y.kids[k].value.kids != []
    ensures ToolList(y) == Some(k) && Lookup(y, "tools") == Some(y.kids[k].value)
  {
  }

  lemma NothingShown(x: Json)
    requires Lookup(x, "tools").None?
    ensures ShownTools(x) == []
  {
  }

  lemma CreatedOne(x: Json, shape: Shape, w: Wording)
    requires Object(x) && Lookup(x, "tools").None?
    ensures OneMore(x, Extended(x, ToolsMember(shape, w)), Tree(RetrieveTool(shape, w)))
  {
    hide Text, RetrieveTool, Tree, Keys, ViewOk, KeyIndex, ToolList, Lookup;
    var kid := ToolsMember(shape, w);
    ToolsKey(shape, w);
    NewKeyOnce(x, kid, "tools");
    ListedAt(Extended(x, kid), |x.kids|);
    NothingShown(x);
    ExtendedKeys(x, kid, "system");
    ExtendedKeys(x, kid, "messages");
    assert Vals(kid.value.kids) == [] + [Tree(RetrieveTool(shape, w))];
  }

  lemma AppendedOne(x: Json, k: nat, shape: Shape, w: Wording)
    requires Object(x) && KeyIndex(x, "tools") == Some(k) && IsList(x.kids[k].value) && ViewOk(x, {"tools"})
    ensures OneMore(x, WithKid(x, k, Extended(x.kids[k].value, ToolKid(shape, w))), Tree(RetrieveTool(shape, w)))
  {
    hide Text, RetrieveTool, Tree, Keys;
    var list := x.kids[k].value;
    var more := Extended(list, ToolKid(shape, w));
    var y := WithKid(x, k, more);
    WithKidKeys(x, k, more, "tools");
    KeyThere(x, k, "tools");
    LookupOther(x, k, more, "system");
    LookupOther(x, k, more, "messages");
    assert Vals(more.kids) == Vals(list.kids) + [Tree(RetrieveTool(shape, w))];
  }

  lemma KeyThere(x: Json, k: nat, key: string)
    requires KeyIndex(x, key) == Some(k)
    ensures Text(x.kids[k].key) == key
  {
  }

  lemma OneMoreSet(x: Json, y: Json, tool: Json)
    requires OneMore(x, y, tool) && Lookup(tool, "cache_control").None?
    requires var tools := Lookup(x, "tools"); tools.None? || IsList(tools.value)
    ensures CacheControlSet(y) == CacheControlSet(x)
  {
    hide Lookup, HasCacheControl, Pinned, ToolList;
    MarkedMore(ShownTools(x), tool);
  }

  lemma Added(x: Json, shape: Shape, w: Wording)
    requires ToolAppend(x, shape, w).Some?
    ensures var tool, y := Tree(RetrieveTool(shape, w)), Step(x, ToolAppend(x, shape, w).value);
            OneMore(x, y, tool) && CacheControlSet(y) == CacheControlSet(x)
    ensures Lookup(x, "tools").None? || IsList(Lookup(x, "tools").value)
  {
    hide OneMore, CacheControlSet, Text, RetrieveTool, Tree, ToolKid, ToolsMember;
    var e := ToolAppend(x, shape, w).value;
    RetrieveUnmarked(shape, w);
    if e.path == [] {
      CreatedOne(x, shape, w);
    } else {
      var k := e.path[0];
      AtOne(x, k);
      WithOne(x, k, Extended(x.kids[k].value, ToolKid(shape, w)));
      AppendedOne(x, k, shape, w);
    }
    OneMoreSet(x, Step(x, e), Tree(RetrieveTool(shape, w)));
  }

  lemma SettledTools(x: Json, anthropic: bool, prim: Primitives)
    requires ToolEdits(x, anthropic, prim) == [] && (ShownTools(x) != [] ==> ViewOk(x, {"tools"}))
    ensures Arranged(ShownTools(x), prim) == ShownTools(x)
    ensures forall i :: 0 <= i < |ShownTools(x)| ==> SchemaEdits(ShownTools(x)[i], anthropic, prim) == []
  {
    hide SchemaEdits, Placing, Arranged, ToolEdits;
    if ShownTools(x) != [] {
      ShownListed(x);
      NothingExactly(x, anthropic, prim);
    } else {
      NoneArranged(prim);
    }
  }

  lemma NoneArranged(prim: Primitives)
    ensures Arranged([], prim) == []
  {
  }

  lemma ShownListed(x: Json)
    requires ShownTools(x) != [] && ViewOk(x, {"tools"})
    ensures ToolList(x).Some? && Vals(x.kids[ToolList(x).value].value.kids) == ShownTools(x)
  {
    hide Text;
  }

  /** A second normalisation leaves the tool the first pass added alone exactly when it stays. */
  lemma AddedSettles(x: Json, shape: Shape, prim: Primitives)
    requires ToolEdits(x, ForAnthropic(shape), prim) == [] && ToolAppend(x, shape, prim.wording).Some?
    ensures ToolEdits(Step(x, ToolAppend(x, shape, prim.wording).value), ForAnthropic(shape), prim) == []
            <==> Stays(x, shape, prim)
  {
    hide ToolEdits, Arranged, SchemaEdits, CacheControlSet, Marked, AllUpTo, RetrieveTool, Tree, ToolList, SortKey;
    var anthropic, tools, tool := ForAnthropic(shape), ShownTools(x), Tree(RetrieveTool(shape, prim.wording));
    var y := Step(x, ToolAppend(x, shape, prim.wording).value);
    Added(x, shape, prim.wording);
    SettledTools(x, anthropic, prim);
    RetrieveNormal(shape, prim.wording, prim.number);
    WrittenSettled(RetrieveTool(shape, prim.wording), anthropic, prim);
    RetrieveUnmarked(shape, prim.wording);
    RetrieveKey(shape, prim);
    ArrangedMore(tools, tool, prim);
    NothingExactly(y, anthropic, prim);
    ToolIsObject(shape, prim.wording);
    var all := tools + [tool];
    assert all[|all| - 1] == tool;
    forall i | 0 <= i < |all| ensures SchemaEdits(all[i], anthropic, prim) == [] {
      if i < |tools| { assert all[i] == tools[i]; }
    }
  }

  lemma ToolIsObject(shape: Shape, w: Wording)
    ensures Object(Tree(RetrieveTool(shape, w)))
  {
  }
}
