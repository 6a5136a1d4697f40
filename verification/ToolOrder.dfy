/** What normalisation makes of the list of tools: its order, its schemas, its one breakpoint. */
module ToolOrder {
  import opened Prelude
  import opened Json
  import opened JsonEdits
  import opened EditLists
  import opened Values
  import opened LiveZone
  import opened Tools
  import opened LiveTokens
  import opened ToolReadings

  // ----- the order -----

  /** By key; tools with the same key as they came. */
  ghost predicate KeyOrder(tools: seq<Json>, order: seq<int>, prim: Primitives) {
    && |order| == |tools| && Indices(order, |tools|)
    && forall i, j :: 0 <= i < j < |order| ==>
         var a, b := SortKey(tools[order[i]], prim), SortKey(tools[order[j]], prim);
         Earlier(a, b) || (a == b && order[i] < order[j])
  }

  predicate Before(tools: seq<Json>, prim: Primitives, i: int, j: int) {
    && 0 <= i < |tools| && 0 <= j < |tools|
    && (Below(SortKey(tools[i], prim), SortKey(tools[j], prim))
        || (SortKey(tools[i], prim) == SortKey(tools[j], prim) && i < j))
  }

  predicate InOrder(tools: seq<Json>, order: seq<int>, prim: Primitives) {
    forall i, j :: 0 <= i < j < |order| ==> Before(tools, prim, order[i], order[j])
  }

  lemma BeforeTransitive(tools: seq<Json>, prim: Primitives, i: int, j: int, k: int)
    requires Before(tools, prim, i, j) && Before(tools, prim, j, k)
    ensures Before(tools, prim, i, k)
  {
    hide SortKey, Below;
    var a, b, c := SortKey(tools[i], prim), SortKey(tools[j], prim), SortKey(tools[k], prim);
    if Below(a, b) && Below(b, c) { BelowTransitive(a, b, c); }
  }

  /** The last index comes before another exactly when its key is smaller. */
  lemma BeforeLast(tools: seq<Json>, prim: Primitives, x: int, i: int)
    requires 0 <= i < x < |tools|
    ensures IndexBelow(tools, prim)(x, i) <==> Before(tools, prim, x, i)
    ensures !IndexBelow(tools, prim)(x, i) ==> Before(tools, prim, i, x)
  {
    hide SortKey, Below;
    BelowTotal(SortKey(tools[x], prim), SortKey(tools[i], prim));
  }

  lemma ConsInOrder(tools: seq<Json>, prim: Primitives, x: int, order: seq<int>)
    requires InOrder(tools, order, prim) && forall i :: 0 <= i < |order| ==> Before(tools, prim, x, order[i])
    ensures InOrder(tools, [x] + order, prim)
  {
    hide Before;
    var all := [x] + order;
    forall i, j | 0 <= i < j < |all| ensures Before(tools, prim, all[i], all[j]) {
      assert all[j] == order[j - 1];
      if i > 0 { assert all[i] == order[i - 1]; }
    }
  }

  lemma {:induction false} InsertInOrder(tools: seq<Json>, prim: Primitives, x: int, order: seq<int>)
    requires InOrder(tools, order, prim) && 0 <= x < |tools|
    requires forall i :: 0 <= i < |order| ==> 0 <= order[i] < x
    ensures InOrder(tools, Insert(x, order, IndexBelow(tools, prim)), prim)
  {
    hide Before, IndexBelow;
    if order == [] {
    } else {
      var rest := order[1..];
      assert order == [order[0]] + rest && forall i :: 0 <= i < |rest| ==> rest[i] == order[i + 1];
      BeforeLast(tools, prim, x, order[0]);
      if IndexBelow(tools, prim)(x, order[0]) {
        forall i | 0 <= i < |order| ensures Before(tools, prim, x, order[i]) {
          if i > 0 { BeforeTransitive(tools, prim, x, order[0], order[i]); }
        }
        ConsInOrder(tools, prim, x, order);
      } else {
        InsertInOrder(tools, prim, x, rest);
        var r := Insert(x, rest, IndexBelow(tools, prim));
        InsertPermutes(x, rest, IndexBelow(tools, prim));
        forall i | 0 <= i < |r| ensures Before(tools, prim, order[0], r[i]) {
          assert r[i] in multiset(r);
          if r[i] != x {
            assert r[i] in rest;
            var j :| 0 <= j < |rest| && rest[j] == r[i];
            assert order[j + 1] == r[i];
          }
        }
        ConsInOrder(tools, prim, order[0], r);
      }
    }
  }

  lemma IndicesSorted(tools: seq<Json>, prim: Primitives, n: nat)
    ensures Indices(Sort(seq(n, i => i), IndexBelow(tools, prim)), n)
  {
    hide IndexBelow;
    var start := seq(n, i => i);
    SortPermutes(start, IndexBelow(tools, prim));
    var order := Sort(start, IndexBelow(tools, prim));
    forall i | 0 <= i < |order| ensures 0 <= order[i] < n { assert order[i] in multiset(start); }
  }

  lemma {:induction false} SortInOrder(tools: seq<Json>, prim: Primitives, n: nat)
    requires n <= |tools|
    ensures InOrder(tools, Sort(seq(n, i => i), IndexBelow(tools, prim)), prim)
  {
    hide Before, IndexBelow;
    if n > 0 {
      var start := seq(n, i => i);
      assert start[..n - 1] == seq(n - 1, i => i) && start[n - 1] == n - 1;
      SortInOrder(tools, prim, n - 1);
      IndicesSorted(tools, prim, n - 1);
      InsertInOrder(tools, prim, n - 1, Sort(start[..n - 1], IndexBelow(tools, prim)));
    }
  }

  /** The stable sort by key. */
  lemma OrderExactly(tools: seq<Json>, prim: Primitives)
    ensures KeyOrder(tools, SortedIndices(tools, prim), prim)
  {
    hide SortKey, Below, Earlier;
    var order := SortedIndices(tools, prim);
    SortInOrder(tools, prim, |tools|);
    IndicesSorted(tools, prim, |tools|);
    forall i, j | 0 <= i < j < |order|
      ensures var a, b := SortKey(tools[order[i]], prim), SortKey(tools[order[j]], prim);
              Earlier(a, b) || (a == b && order[i] < order[j])
    {
      assert Before(tools, prim, order[i], order[j]);
      BelowExactly(SortKey(tools[order[i]], prim), SortKey(tools[order[j]], prim));
    }
  }

  // ----- one tool -----

  /** The tool with its schema canonical, if it has one, and nothing else changed. */
  ghost predicate SchemaDone(before: Json, after: Json, anthropic: bool, prim: Primitives) {
    if exists p :: SchemaAt(before, anthropic, p) then
      exists p, x :: SchemaAt(before, anthropic, p) && HasPath(before, p) && after == With(before, p, x)
                     && Dense(x) && Sem(x, prim.number) == Sem(At(before, p), prim.number)
    else after == before
  }

  /** A breakpoint as last member of an object, behind a comma when another member is there. */
  ghost predicate BreakpointAdded(before: Json, after: Json) {
    before.Box? && exists head ::
      && Render(before) == head + "}"
      && Render(after) == head + (if before.kids == [] then "" else ",") + "\"cache_control\":{\"type\":\"ephemeral\"}}"
  }

  ghost predicate ToolRight(before: Json, after: Json, cached: bool, anthropic: bool, prim: Primitives) {
    exists plain :: SchemaDone(before, plain, anthropic, prim) &&
                    if cached && plain.Box? && plain.isObj then BreakpointAdded(plain, after) else after == plain
  }

  lemma PieceDone(tool: Json, anthropic: bool, prim: Primitives)
    requires Wf(tool) && GoodNumbers(prim.number)
    ensures SchemaDone(tool, Piece(tool, anthropic, prim), anthropic, prim)
  {
    hide SchemaAt, Dense, Sem, SchemaPath;
    forall p ensures SchemaPath(tool, anthropic) == Some(p) <==> SchemaAt(tool, anthropic, p) {
      SchemaExactly(tool, anthropic, p);
    }
    var p := SchemaPath(tool, anthropic);
    if p.Some? {
      SchemaCanonical(tool, anthropic, prim, p.value);
      PieceWith(tool, anthropic, prim, p.value);
    }
  }

  lemma PieceWith(tool: Json, anthropic: bool, prim: Primitives, p: Path)
    requires SchemaPath(tool, anthropic) == Some(p)
    ensures HasPath(Piece(tool, anthropic, prim), p)
    ensures Piece(tool, anthropic, prim) == With(tool, p, At(Piece(tool, anthropic, prim), p))
  {
    hide SchemaPath;
    var x := Canon(At(tool, p), prim.number);
    if Render(x) == Render(At(tool, p)) {
      WithItself(tool, p);
    } else {
      var e := Put(p, x);
      assert SchemaEdits(tool, anthropic, prim) == [e];
      PutAlone(tool, e);
      AtWith(tool, p, x);
    }
  }

  lemma {:induction false} WithItself(v: Json, p: Path)
    requires HasPath(v, p)
    ensures With(v, p, At(v, p)) == v
    decreases p
  {
    if p != [] { WithItself(v.kids[p[0]].value, p[1..]); }
  }

  lemma {:induction false} AtWith(v: Json, p: Path, x: Json)
    requires HasPath(v, p)
    ensures HasPath(With(v, p, x), p) && At(With(v, p, x), p) == x
    decreases p
  {
    if p != [] { AtWith(v.kids[p[0]].value, p[1..], x); }
  }

  lemma MemberText(key: string, value: Json)
    ensures RenderKid(true, Kid("", key, "", "", value, "")) == "\"" + key + "\":" + Render(value)
  {
    var t := Render(value);
    assert "" + "\"" + key + "\"" + "" + ":" + "" == "\"" + key + "\":";
    assert "\"" + key + "\":" + t + "" == "\"" + key + "\":" + t;
  }

  lemma OneMember(kid: Kid)
    ensures Render(Box(true, [kid], "")) == "{" + RenderKid(true, kid) + "}"
  {
    var t := RenderKid(true, kid);
    assert [kid][1..] == [] && t + "" == t;
  }

  lemma CacheText()
    ensures RenderKid(true, CacheKid) == "\"cache_control\":{\"type\":\"ephemeral\"}"
  {
    hide RenderKid, Render;
    var inner := Kid("", "type", "", "", Str("ephemeral"), "");
    MemberText("type", Str("ephemeral"));
    OneMember(inner);
    MemberText("cache_control", CacheKid.value);
    StrText("ephemeral");
    TypeLetters();
    BoxLetters();
    CacheLetters();
  }

  lemma StrText(body: string)
    ensures Render(Str(body)) == "\"" + body + "\""
  {
  }

  lemma TypeLetters()
    ensures "\"" + "type" + "\":" + ("\"" + "ephemeral" + "\"") == "\"type\":\"ephemeral\""
  {
  }

  lemma BoxLetters()
    ensures "{" + "\"type\":\"ephemeral\"" + "}" == "{\"type\":\"ephemeral\"}"
  {
  }

  lemma CacheLetters()
    ensures "\"" + "cache_control" + "\":" + "{\"type\":\"ephemeral\"}" == "\"cache_control\":{\"type\":\"ephemeral\"}"
  {
  }

  lemma CachedRight(plain: Json)
    requires plain.Box? && plain.isObj
    ensures BreakpointAdded(plain, Cached(plain))
  {
    hide RenderKid, Render;
    CacheText();
    RenderExtended(plain, CacheKid);
    var s := Render(plain);
    var head := s[..|s| - 1];
    var added := "\"cache_control\":{\"type\":\"ephemeral\"}";
    assert s == head + "}";
    if plain.kids == [] {
      assert Insertion(plain, CacheKid) == added;
      assert head + added + "}" == head + "" + (added + "}");
    } else {
      assert Insertion(plain, CacheKid) == "," + added;
      assert head + ("," + added) + "}" == head + "," + (added + "}");
    }
    assert added + "}" == "\"cache_control\":{\"type\":\"ephemeral\"}}";
  }

  lemma ToolDone(tool: Json, cached: bool, anthropic: bool, prim: Primitives)
    requires Wf(tool) && GoodNumbers(prim.number)
    ensures var plain := Piece(tool, anthropic, prim);
            ToolRight(tool, if cached then Cached(plain) else plain, cached, anthropic, prim)
  {
    hide Piece, SchemaDone, BreakpointAdded;
    var plain := Piece(tool, anthropic, prim);
    PieceDone(tool, anthropic, prim);
    if plain.Box? && plain.isObj { CachedRight(plain); }
  }

  // ----- the list -----

  /** The tools as they came when one holds a breakpoint, else by key; only the last may be given one. */
  ghost predicate ToolsRight(before: seq<Json>, after: seq<Json>, place: bool, anthropic: bool, prim: Primitives) {
    && |after| == |before|
    && exists order: seq<int> ::
         && |order| == |before| && Indices(order, |before|)
         && (if exists i :: 0 <= i < |before| && HasMember(before[i], "cache_control")
             then order == seq(|before|, i => i) else KeyOrder(before, order, prim))
         && forall i :: 0 <= i < |after| ==>
              ToolRight(before[order[i]], after[i], place && i == |after| - 1, anthropic, prim)
  }

  lemma MarkedExactly(tools: seq<Json>)
    ensures Marked(tools) <==> exists i :: 0 <= i < |tools| && HasMember(tools[i], "cache_control")
  {
    hide Lookup, HasMember;
    forall i | 0 <= i < |tools|
      ensures Lookup(tools[i], "cache_control").Some? <==> HasMember(tools[i], "cache_control")
    {
      HasRead(tools[i], "cache_control");
    }
  }

  lemma ArrangedBy(tools: seq<Json>, prim: Primitives) returns (order: seq<int>)
    ensures |order| == |tools| && Indices(order, |tools|) && Pick(tools, order) == Arranged(tools, prim)
    ensures if Marked(tools) then order == seq(|tools|, i => i) else KeyOrder(tools, order, prim)
  {
    hide KeyOrder, SortKey;
    order := if Marked(tools) then seq(|tools|, i => i) else SortedIndices(tools, prim);
    OrderExactly(tools, prim);
    SortedIndicesArrange(tools, prim);
    if Marked(tools) { assert Pick(tools, order) == tools; }
  }

  lemma FinalRight(tools: seq<Json>, place: bool, anthropic: bool, prim: Primitives)
    requires GoodNumbers(prim.number) && forall i :: 0 <= i < |tools| ==> Wf(tools[i])
    ensures ToolsRight(tools, FinalTools(tools, place, anthropic, prim), place, anthropic, prim)
  {
    hide KeyOrder, HasMember, Wf, ToolRight, Cached, Piece, GoodNumbers, Marked, Arranged;
    var after := FinalTools(tools, place, anthropic, prim);
    MarkedExactly(tools);
    var order := ArrangedBy(tools, prim);
    forall i | 0 <= i < |after|
      ensures ToolRight(tools[order[i]], after[i], place && i == |after| - 1, anthropic, prim)
    {
      ToolDone(tools[order[i]], place && i == |after| - 1, anthropic, prim);
      assert Pick(tools, order)[i] == tools[order[i]];
    }
  }

  /**
   * The list of tools of a normalised request: as it came when a tool holds a breakpoint, else in the
   * stable order of keys; every schema canonical; a breakpoint on the last tool exactly when the
   * request is Anthropic's and has none anywhere. Nothing else in the request changes.
   */
  lemma ToolsExactly(v: Json, k: nat, anthropic: bool, prim: Primitives)
    requires Wf(v) && GoodNumbers(prim.number)
    requires Sole(v, "tools", k) && AList(v.kids[k].value) && v.kids[k].value.kids != []
    ensures Planned(v, ToolEdits(v, anthropic, prim))
    ensures var w := Edited(v, ToolEdits(v, anthropic, prim));
            && w.Box? && k < |w.kids| && w == WithKid(v, k, w.kids[k].value) && AList(w.kids[k].value)
            && ToolsRight(Vals(v.kids[k].value.kids), Vals(w.kids[k].value.kids),
                          anthropic && !CachedSomewhere(v), anthropic, prim)
  {
    hide ToolsRight, ToolEdits, FinalTools, CacheControlSet, CachedSomewhere, Sole, ListField, GoodNumbers;
    ListRead(v, "tools", k);
    NormalizedTools(v, anthropic, prim);
    CacheControlExactly(v);
    ListWf(v, k);
    FinalRight(Vals(v.kids[k].value.kids), Placing(v, anthropic), anthropic, prim);
  }

  lemma ListWf(v: Json, k: nat)
    requires Wf(v) && v.Box? && k < |v.kids| && AList(v.kids[k].value)
    ensures forall i :: 0 <= i < |v.kids[k].value.kids| ==> Wf(Vals(v.kids[k].value.kids)[i])
  {
    hide Wf;
    AtOne(v, k);
    WfAt(v, [k]);
    var list := v.kids[k].value;
    forall i | 0 <= i < |list.kids| ensures Wf(list.kids[i].value) {
      AtOne(list, i);
      WfAt(list, [i]);
    }
  }

  /** Without a list of tools of its own nothing is normalised. */
  lemma ToolsAbsent(v: Json, anthropic: bool, prim: Primitives)
    requires forall k: nat :: Sole(v, "tools", k) && AList(v.kids[k].value) ==> v.kids[k].value.kids == []
    ensures ToolEdits(v, anthropic, prim) == []
  {
    hide Sole, ListField;
    var k := ListField(v, "tools");
    if k.Some? { ListRead(v, "tools", k.value); }
  }
}
