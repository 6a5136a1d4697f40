/** The tool normaliser as it works on text: pieces cut and joined, or splices in place. */
module ToolPlanner {
  import opened Prelude
  import opened Json
  import opened Splice
  import opened JsonEdits
  import opened EditLists
  import opened Values
  import opened Ccr
  import opened LiveZone
  import opened Tools

  // ----- text tests the splicing code relies on -----

  /** `strip_prefix('{')` followed by a look past the blanks. */
  predicate InteriorEmpty(s: string) {
    StartsWith(s, "{") && StartsWith(TrimStart(s[1..]), "}")
  }

  lemma WsIsWhite(c: char)
    requires IsWs(c)
    ensures IsWhite(c)
  {
  }

  lemma {:induction false} TrimStartBlank(w: string, rest: string)
    requires AllWs(w) && (rest == "" || !IsWhite(rest[0]))
    ensures TrimStart(w + rest) == rest
  {
    if w == "" {
      assert w + rest == rest;
    } else {
      WsIsWhite(w[0]);
      forall i | 0 <= i < |w| - 1 ensures IsWs(w[1..][i]) { assert IsWs(w[i + 1]); }
      TrimStartBlank(w[1..], rest);
      assert (w + rest)[1..] == w[1..] + rest;
    }
  }

  lemma {:induction false} TrimEndBlank(s: string, w: string)
    requires AllWs(w) && s != "" && !IsWhite(s[|s| - 1])
    ensures TrimEnd(s + w) == s
  {
    if w == "" {
      assert s + w == s;
    } else {
      var n := |w| - 1;
      WsIsWhite(w[n]);
      forall i | 0 <= i < n ensures IsWs(w[..n][i]) { assert IsWs(w[i]); }
      TrimEndBlank(s, w[..n]);
      assert (s + w)[..|s + w| - 1] == s + w[..n];
    }
  }

  /** Only an object's text ends with a closing brace. */
  lemma RenderEnds(v: Json)
    requires Wf(v)
    ensures Render(v) != "" && !IsWhite(Render(v)[|Render(v)| - 1])
    ensures EndsWith(Render(v), "}") == Object(v)
  {
    hide IsNumber;
    var s := Render(v);
    if v.Scalar? {
      assert ScalarChar(s[|s| - 1]);
      assert s[|s| - 1..] == [s[|s| - 1]];
    } else {
      assert s[|s| - 1..] == if v.Str? then "\"" else Close(v.isObj);
    }
  }

  /** The interior test is exact for text that starts at the opening brace. */
  lemma InteriorExact(v: Json)
    requires Wf(v) && Object(v)
    ensures InteriorEmpty(Render(v)) == (v.kids == [])
  {
    var s := Render(v);
    assert s[..1] == "{";
    if v.kids == [] {
      assert s[1..] == v.blank + "}";
      TrimStartBlank(v.blank, "}");
    } else {
      var kid := v.kids[0];
      assert KidOk(true, kid);
      var lead := Lead(true, kid)[|kid.pre|..];
      assert Lead(true, kid) == kid.pre + lead;
      var rest := lead + (Render(kid.value) + kid.post + RenderRest(true, v.kids[1..]) + "}");
      ObjectInside(kid.pre, lead, Render(kid.value), kid.post, RenderRest(true, v.kids[1..]));
      assert RenderKid(true, kid) == (kid.pre + lead) + Render(kid.value) + kid.post;
      assert s == "{" + ((kid.pre + lead) + Render(kid.value) + kid.post + RenderRest(true, v.kids[1..])) + "}";
      TrimStartBlank(kid.pre, rest);
      assert rest[..1] == [rest[0]];
    }
  }

  lemma ObjectInside(pre: string, lead: string, value: string, post: string, more: string)
    ensures ("{" + ((pre + lead) + value + post + more) + "}")[1..] == pre + (lead + (value + post + more + "}"))
  {
    assert (pre + lead) + value + post + more == pre + (lead + (value + post + more));
    assert lead + (value + post + more) + "}" == lead + (value + post + more + "}");
  }

  // ----- pieces -----

  function PieceText(tool: Json, anthropic: bool, prim: Primitives): string { Render(Piece(tool, anthropic, prim)) }

  method CanonicalizedToolPiece(tool: Json, anthropic: bool, prim: Primitives) returns (piece: string)
    ensures piece == PieceText(tool, anthropic, prim)
  {
    var text := Render(tool);
    var p := SchemaPath(tool, anthropic);
    if p.None? { return text; }
    var schema := Render(At(tool, p.value));
    var canonical := Render(Canon(At(tool, p.value), prim.number));
    if canonical == schema { return text; }
    var offset := |Head(tool, p.value)|;
    RenderAt(tool, p.value);
    RenderWith(tool, p.value, Canon(At(tool, p.value), prim.number));
    PutAlone(tool, Put(p.value, Canon(At(tool, p.value), prim.number)));
    CutAround(Head(tool, p.value), schema, Tail(tool, p.value));
    piece := text[..offset] + canonical + text[offset + |schema|..];
  }

  lemma CutAround(a: string, m: string, b: string)
    ensures (a + m + b)[..|a|] == a && (a + m + b)[|a| + |m|..] == b
  {
  }

  /** Where and what to insert to add a member before the closing brace of an object's text. */
  function MemberInsertion(s: string, member: string): Option<(nat, string)> {
    if !EndsWith(s, "}") then None
    else Some((|s| - 1, if InteriorEmpty(s) then member else "," + member))
  }

  lemma MemberInsertionExact(v: Json, kid: Kid)
    requires Wf(v)
    ensures MemberInsertion(Render(v), RenderKid(true, kid))
            == if Object(v) then Some((|Render(v)| - 1, Insertion(v, kid))) else None
  {
    RenderEnds(v);
    if Object(v) {
      InteriorExact(v);
      InsertionText(v, kid);
    }
  }

  lemma InsertionText(v: Json, kid: Kid)
    requires Object(v)
    ensures Insertion(v, kid) == if v.kids == [] then RenderKid(true, kid) else "," + RenderKid(true, kid)
  {
    assert "" + RenderKid(true, kid) == RenderKid(true, kid);
  }

  /** Adds `"cache_control":{"type":"ephemeral"}` to a tool's text. */
  method AppendCacheControlToPiece(piece: string, ghost tool: Json) returns (r: string)
    requires Wf(tool) && piece == Render(tool)
    ensures r == Render(Cached(tool))
  {
    var insertion := MemberInsertion(piece, RenderKid(true, CacheKid));
    MemberInsertionExact(tool, CacheKid);
    if insertion.None? { return piece; }
    RenderExtended(tool, CacheKid);
    r := piece[..insertion.value.0] + insertion.value.1 + piece[insertion.value.0..];
  }

  // ----- the planner -----

  /** Pieces with a comma between them. */
  function Joined(pieces: seq<string>): string {
    if pieces == [] then ""
    else
      var n := |pieces| - 1;
      Joined(pieces[..n]) + (if n > 0 then "," else "") + pieces[n]
  }

  function Texts(tools: seq<Json>): (r: seq<string>)
    ensures |r| == |tools|
  {
    seq(|tools|, i requires 0 <= i < |tools| => Render(tools[i]))
  }

  lemma {:induction false} JoinedCompact(tools: seq<Json>)
    requires tools != []
    ensures var kids := Compact(tools).kids;
            Joined(Texts(tools)) == RenderKid(false, kids[0]) + RenderRest(false, kids[1..])
  {
    var n := |tools| - 1;
    var kids := Compact(tools).kids;
    assert RenderKid(false, kids[n]) == Render(tools[n]);
    if n == 0 {
      assert kids[1..] == [] && RenderRest(false, []) == "";
      assert Texts(tools)[..0] == [];
    } else {
      var t := tools[..n];
      JoinedCompact(t);
      var init := Compact(t).kids;
      assert kids[1..] == init[1..] + [kids[n]];
      RenderRestSnoc(false, init[1..], kids[n]);
      assert Texts(tools)[..n] == Texts(t);
      Assoc(RenderKid(false, kids[0]), RenderRest(false, init[1..]), "," + RenderKid(false, kids[n]));
      Assoc(Joined(Texts(t)), ",", Render(tools[n]));
    }
  }

  /** The original tool slices in their new order, each with its schema canonicalized. */
  method OrderedPieces(tools: seq<Json>, order: seq<int>, anthropic: bool, prim: Primitives)
    returns (pieces: seq<string>)
    requires forall i :: 0 <= i < |order| ==> 0 <= order[i] < |tools|
    ensures |pieces| == |order|
    ensures forall j :: 0 <= j < |order| ==> pieces[j] == PieceText(tools[order[j]], anthropic, prim)
  {
    hide *;
    pieces := [];
    for i := 0 to |order|
      invariant |pieces| == i
      invariant forall j :: 0 <= j < i ==> pieces[j] == PieceText(tools[order[j]], anthropic, prim)
    {
      var piece := CanonicalizedToolPiece(tools[order[i]], anthropic, prim);
      pieces := pieces + [piece];
    }
  }

  method JoinPieces(pieces: seq<string>) returns (bytes: string)
    ensures bytes == "[" + Joined(pieces) + "]"
  {
    bytes := "[";
    for i := 0 to |pieces|
      invariant bytes == "[" + Joined(pieces[..i])
    {
      JoinStep(bytes, pieces, i);
      if i > 0 { bytes := bytes + ","; }
      bytes := bytes + pieces[i];
    }
    assert pieces[..|pieces|] == pieces;
    bytes := bytes + "]";
  }

  lemma JoinStep(bytes: string, pieces: seq<string>, i: nat)
    requires i < |pieces| && bytes == "[" + Joined(pieces[..i])
    ensures "[" + Joined(pieces[..i + 1]) == (if i > 0 then bytes + "," else bytes) + pieces[i]
  {
    var q := pieces[..i + 1];
    assert q[..i] == pieces[..i] && q[i] == pieces[i];
    var a, c := Joined(pieces[..i]), pieces[i];
    assert Joined(q) == a + (if i > 0 then "," else "") + c;
    if i > 0 {
      assert "[" + (a + "," + c) == "[" + a + "," + c;
    } else {
      assert a + "" + c == a + c;
      Assoc("[", a, c);
    }
  }

  /** The rewritten array: pieces cut from the original text, reordered and joined. */
  method ReorderedBytes(tools: seq<Json>, order: seq<int>, place: bool, anthropic: bool, prim: Primitives)
    returns (bytes: string)
    requires tools != [] && !Marked(tools) && order == SortedIndices(tools, prim)
    requires AllWf(tools) && GoodNumbers(prim.number)
    requires forall i :: 0 <= i < |order| ==> 0 <= order[i] < |tools|
    ensures bytes == Render(Compact(FinalTools(tools, place, anthropic, prim)))
  {
    var pieces := OrderedPieces(tools, order, anthropic, prim);
    PiecesArranged(tools, order, pieces, anthropic, prim);
    if place {
      ghost var tool := Piece(Arranged(tools, prim)[|tools| - 1], anthropic, prim);
      var last := AppendCacheControlToPiece(pieces[|pieces| - 1], tool);
      pieces := pieces[|pieces| - 1 := last];
    }
    FinalTexts(tools, place, anthropic, prim, pieces);
    bytes := JoinPieces(pieces);
  }

  lemma PiecesArranged(tools: seq<Json>, order: seq<int>, pieces: seq<string>, anthropic: bool, prim: Primitives)
    requires !Marked(tools) && order == SortedIndices(tools, prim) && AllWf(tools) && GoodNumbers(prim.number)
    requires |pieces| == |order| && forall i :: 0 <= i < |order| ==> 0 <= order[i] < |tools|
    requires forall j :: 0 <= j < |order| ==> pieces[j] == PieceText(tools[order[j]], anthropic, prim)
    ensures |pieces| == |tools|
    ensures forall j :: 0 <= j < |tools| ==>
              pieces[j] == Render(Piece(Arranged(tools, prim)[j], anthropic, prim))
              && Wf(Piece(Arranged(tools, prim)[j], anthropic, prim))
  {
    SortedIndicesArrange(tools, prim);
    ArrangedWf(tools, prim);
    var arranged := Arranged(tools, prim);
    forall j | 0 <= j < |tools|
      ensures pieces[j] == Render(Piece(arranged[j], anthropic, prim)) && Wf(Piece(arranged[j], anthropic, prim))
    {
      assert Pick(tools, order)[j] == tools[order[j]];
      PieceSettled(arranged[j], anthropic, prim);
    }
  }

  lemma FinalAt(tools: seq<Json>, place: bool, anthropic: bool, prim: Primitives, j: nat)
    requires j < |tools|
    ensures FinalTools(tools, place, anthropic, prim)[j]
            == if place && j == |tools| - 1 then Cached(Piece(Arranged(tools, prim)[j], anthropic, prim))
               else Piece(Arranged(tools, prim)[j], anthropic, prim)
  {
  }

  lemma CompactText(tools: seq<Json>)
    requires tools != []
    ensures "[" + Joined(Texts(tools)) + "]" == Render(Compact(tools))
  {
    hide RenderKid, RenderRest, Joined, Texts;
    JoinedCompact(tools);
    var kids := Compact(tools).kids;
    Assoc("[", RenderKid(false, kids[0]), RenderRest(false, kids[1..]));
  }

  lemma SamePieces(pieces: seq<string>, final: seq<Json>)
    requires |pieces| == |final| && forall j :: 0 <= j < |final| ==> pieces[j] == Render(final[j])
    ensures pieces == Texts(final)
  {
    hide Render;
  }

  lemma FinalTexts(tools: seq<Json>, place: bool, anthropic: bool, prim: Primitives, pieces: seq<string>)
    requires tools != [] && |pieces| == |tools|
    requires forall j :: 0 <= j < |tools| ==>
               pieces[j] == Render(if place && j == |tools| - 1
                                   then Cached(Piece(Arranged(tools, prim)[j], anthropic, prim))
                                   else Piece(Arranged(tools, prim)[j], anthropic, prim))
    ensures "[" + Joined(pieces) + "]" == Render(Compact(FinalTools(tools, place, anthropic, prim)))
  {
    hide FinalTools, Arranged, Piece, Cached, Render;
    var final := FinalTools(tools, place, anthropic, prim);
    forall j | 0 <= j < |final| ensures pieces[j] == Render(final[j]) { FinalAt(tools, place, anthropic, prim, j); }
    SamePieces(pieces, final);
    CompactText(final);
  }

  /** Schema splices of the first `n` tools, without the breakpoint. */
  function SchemaUpTo(kids: seq<Kid>, n: nat, anthropic: bool, prim: Primitives): seq<Edit>
    requires n <= |kids|
  {
    UpTo(kids, n, ToolPlan(|kids|, false, anthropic, prim))
  }

  lemma LastPlan(kids: seq<Kid>, n: nat, place: bool, anthropic: bool, prim: Primitives)
    requires 0 < n <= |kids|
    ensures RebaseAll([n - 1], ToolPlan(|kids|, place, anthropic, prim)(n - 1, kids[n - 1].value))
            == RebaseAll([n - 1], SchemaEdits(kids[n - 1].value, anthropic, prim))
               + if place && n == |kids| && Object(kids[n - 1].value) then [Append([n - 1], CacheKid)] else []
  {
    var tool := kids[n - 1].value;
    var a := SchemaEdits(tool, anthropic, prim);
    assert ToolPlan(|kids|, place, anthropic, prim)(n - 1, tool)
        == KeptToolEdits(tool, place && n - 1 == |kids| - 1, anthropic, prim);
    if place && n == |kids| && Object(tool) {
      RebaseConcat([n - 1], a, [Append([], CacheKid)]);
      assert [n - 1] + [] == [n - 1];
      assert RebaseAll([n - 1], [Append([], CacheKid)]) == [Append([n - 1], CacheKid)];
    } else {
      assert a + [] == a && RebaseAll([n - 1], a) + [] == RebaseAll([n - 1], a);
    }
  }

  /** The breakpoint comes after every schema splice. */
  lemma {:induction false} PlanWithoutBreakpoint(kids: seq<Kid>, n: nat, place: bool, anthropic: bool, prim: Primitives)
    requires n <= |kids|
    ensures UpTo(kids, n, ToolPlan(|kids|, place, anthropic, prim))
            == SchemaUpTo(kids, n, anthropic, prim)
               + if place && n == |kids| && n > 0 && Object(kids[n - 1].value)
                 then [Append([n - 1], CacheKid)] else []
  {
    hide ToolPlan, SchemaEdits, Object;
    if n > 0 {
      PlanWithoutBreakpoint(kids, n - 1, place, anthropic, prim);
      LastPlan(kids, n, place, anthropic, prim);
      LastPlan(kids, n, false, anthropic, prim);
      JoinPlans(UpTo(kids, n - 1, ToolPlan(|kids|, place, anthropic, prim)), SchemaUpTo(kids, n - 1, anthropic, prim),
                RebaseAll([n - 1], SchemaEdits(kids[n - 1].value, anthropic, prim)),
                if place && n == |kids| && Object(kids[n - 1].value) then [Append([n - 1], CacheKid)] else []);
    } else {
      assert SchemaUpTo(kids, 0, anthropic, prim) == [];
    }
  }

  lemma JoinPlans(x: seq<Edit>, a: seq<Edit>, b: seq<Edit>, c: seq<Edit>)
    requires x == a + []
    ensures x + (b + c) == (a + (b + [])) + c
  {
    assert a + [] == a && b + [] == b;
    Assoc(a, b, c);
  }

  /** A single replacement planned in a part at `pp`. */
  lemma PutMove(v: Json, pp: Path, p: Path, node: Json, base: nat, es: seq<Edit>, move: Replacement<char>)
    requires HasPath(v, pp) && es == [Put(p, node)]
    requires HasPath(v, pp + p) && move.bytes == Render(node)
    requires move.lo == base + |Head(v, pp + p)| && move.hi == move.lo + |Render(At(v, pp + p))|
    ensures AllFit(v, RebaseAll(pp, es)) && Moves(v, RebaseAll(pp, es), base) == [move]
  {
    var q := pp + p;
    assert RebaseAll(pp, es) == [Put(q, node)];
    FullMove(v, q, node, base, move);
  }

  lemma FullMove(v: Json, q: Path, node: Json, base: nat, move: Replacement<char>)
    requires HasPath(v, q) && move.bytes == Render(node)
    requires move.lo == base + |Head(v, q)| && move.hi == move.lo + |Render(At(v, q))|
    ensures Moves(v, [Put(q, node)], base) == [move]
  {
    OneMove(v, Put(q, node), base);
  }

  /** The splice of one schema, placed by its offset in the segment. */
  method PlanSchema(v: Json, pp: Path, base: nat, anthropic: bool, prim: Primitives)
    returns (rs: seq<Replacement<char>>)
    requires HasPath(v, pp)
    ensures AllFit(v, RebaseAll(pp, SchemaEdits(At(v, pp), anthropic, prim)))
    ensures rs == Moves(v, RebaseAll(pp, SchemaEdits(At(v, pp), anthropic, prim)), base)
  {
    var tool := At(v, pp);
    var p := SchemaPath(tool, anthropic);
    ghost var es := SchemaEdits(tool, anthropic, prim);
    if p.None? {
      assert es == [] && RebaseAll(pp, es) == [];
      return [];
    }
    var schema := At(tool, p.value);
    var canonical := Canon(schema, prim.number);
    if Render(canonical) == Render(schema) {
      assert es == [] && RebaseAll(pp, es) == [];
      return [];
    }
    AtConcat(v, pp, p.value);
    var offset := |Head(v, pp + p.value)|;
    var move := Replacement(base + offset, base + offset + |Render(schema)|, Render(canonical));
    PutMove(v, pp, p.value, canonical, base, es, move);
    rs := [move];
  }

  method PlanSchemas(v: Json, k: nat, base: nat, anthropic: bool, prim: Primitives,
                     replacements: seq<Replacement<char>>)
    returns (out: seq<Replacement<char>>)
    requires v.Box? && k < |v.kids| && IsList(v.kids[k].value)
    ensures var kids := v.kids[k].value.kids;
            var es := RebaseAll([k], SchemaUpTo(kids, |kids|, anthropic, prim));
            AllFit(v, es) && out == replacements + Moves(v, es, base)
  {
    hide Rep, Reps, SchemaEdits, Shift, ToolPlan, Under;
    var list := v.kids[k].value;
    out := replacements;
    assert RebaseAll([k], SchemaUpTo(list.kids, 0, anthropic, prim)) == [];
    for i := 0 to |list.kids|
      invariant AllFit(v, RebaseAll([k], SchemaUpTo(list.kids, i, anthropic, prim)))
      invariant out == replacements + Moves(v, RebaseAll([k], SchemaUpTo(list.kids, i, anthropic, prim)), base)
    {
      TwoDown(v, k, i);
      var rs := PlanSchema(v, [k, i], base, anthropic, prim);
      SchemaTurn(v, k, i, base, anthropic, prim, replacements, out, rs);
      out := out + rs;
    }
  }

  lemma TwoDown(v: Json, k: nat, i: nat)
    requires v.Box? && k < |v.kids| && v.kids[k].value.Box? && i < |v.kids[k].value.kids|
    ensures HasPath(v, [k, i]) && At(v, [k, i]) == v.kids[k].value.kids[i].value
  {
    AtOne(v.kids[k].value, i);
    assert [k, i][1..] == [i];
  }

  lemma SchemaStep(v: Json, k: nat, i: nat, base: nat, anthropic: bool, prim: Primitives)
    requires v.Box? && k < |v.kids| && IsList(v.kids[k].value) && i < |v.kids[k].value.kids|
    requires AllFit(v, RebaseAll([k], SchemaUpTo(v.kids[k].value.kids, i, anthropic, prim)))
    requires AllFit(v, RebaseAll([k, i], SchemaEdits(v.kids[k].value.kids[i].value, anthropic, prim)))
    ensures var kids := v.kids[k].value.kids;
            var a := RebaseAll([k], SchemaUpTo(kids, i, anthropic, prim));
            var b := RebaseAll([k, i], SchemaEdits(kids[i].value, anthropic, prim));
            && RebaseAll([k], SchemaUpTo(kids, i + 1, anthropic, prim)) == a + b
            && AllFit(v, a + b) && Moves(v, a + b, base) == Moves(v, a, base) + Moves(v, b, base)
  {
    var kids := v.kids[k].value.kids;
    var es := SchemaEdits(kids[i].value, anthropic, prim);
    assert KeptToolEdits(kids[i].value, false, anthropic, prim) == es;
    RebaseConcat([k], SchemaUpTo(kids, i, anthropic, prim), RebaseAll([i], es));
    RebaseTwice([k], [i], es);
    assert [k] + [i] == [k, i];
    MovesConcat(v, RebaseAll([k], SchemaUpTo(kids, i, anthropic, prim)), RebaseAll([k, i], es), base);
  }

  /** One turn of the loop over tools. */
  lemma SchemaTurn(v: Json, k: nat, i: nat, base: nat, anthropic: bool, prim: Primitives,
                   first: seq<Replacement<char>>, out: seq<Replacement<char>>, rs: seq<Replacement<char>>)
    requires v.Box? && k < |v.kids| && IsList(v.kids[k].value) && i < |v.kids[k].value.kids|
    requires AllFit(v, RebaseAll([k], SchemaUpTo(v.kids[k].value.kids, i, anthropic, prim)))
    requires AllFit(v, RebaseAll([k, i], SchemaEdits(v.kids[k].value.kids[i].value, anthropic, prim)))
    requires out == first + Moves(v, RebaseAll([k], SchemaUpTo(v.kids[k].value.kids, i, anthropic, prim)), base)
    requires rs == Moves(v, RebaseAll([k, i], SchemaEdits(v.kids[k].value.kids[i].value, anthropic, prim)), base)
    ensures AllFit(v, RebaseAll([k], SchemaUpTo(v.kids[k].value.kids, i + 1, anthropic, prim)))
    ensures out + rs == first + Moves(v, RebaseAll([k], SchemaUpTo(v.kids[k].value.kids, i + 1, anthropic, prim)), base)
  {
    SchemaStep(v, k, i, base, anthropic, prim);
    Assoc(first, Moves(v, RebaseAll([k], SchemaUpTo(v.kids[k].value.kids, i, anthropic, prim)), base), rs);
  }

  /** Both paths of the normaliser, as the replacements of its tree edits. */
  method PlanToolsNormalization(v: Json, base: nat, anthropic: bool, prim: Primitives,
                                replacements: seq<Replacement<char>>)
    returns (out: seq<Replacement<char>>)
    requires Wf(v) && GoodNumbers(prim.number)
    ensures AllFit(v, ToolEdits(v, anthropic, prim))
    ensures out == replacements + Moves(v, ToolEdits(v, anthropic, prim), base)
  {
    var k := ToolList(v);
    if k.None? {
      assert ToolEdits(v, anthropic, prim) == [];
      assert replacements + [] == replacements;
      return replacements;
    }
    NormalizedTools(v, anthropic, prim);
    var list := v.kids[k.value].value;
    var tools, place := Vals(list.kids), Placing(v, anthropic);
    assert KidOk(v.isObj, v.kids[k.value]);
    KidsWf(list);
    if !Marked(tools) {
      SortedIndicesArrange(tools, prim);
      var order := SortedIndices(tools, prim);
      if order != seq(|tools|, i => i) {
        var bytes := ReorderedBytes(tools, order, place, anthropic, prim);
        AtOne(v, k.value);
        var start, text := |Head(v, [k.value])|, Render(list);
        var move := Replacement(base + start, base + start + |text|, bytes);
        ReorderMove(v, k.value, Compact(FinalTools(tools, place, anthropic, prim)), base,
                    ToolEdits(v, anthropic, prim), move);
        return replacements + [move];
      }
    }
    out := PlanKept(v, k.value, base, place, anthropic, prim, replacements);
  }

  lemma ReorderMove(v: Json, k: nat, node: Json, base: nat, es: seq<Edit>, move: Replacement<char>)
    requires v.Box? && k < |v.kids| && es == [Put([k], node)]
    requires HasPath(v, [k]) && move.bytes == Render(node)
    requires move.lo == base + |Head(v, [k])| && move.hi == move.lo + |Render(v.kids[k].value)|
    ensures AllFit(v, es) && Moves(v, es, base) == [move]
  {
    AtOne(v, k);
    OneMove(v, Put([k], node), base);
  }

  /** Order untouched: schemas in place, then the breakpoint in the last tool. */
  method PlanKept(v: Json, k: nat, base: nat, place: bool, anthropic: bool, prim: Primitives,
                  replacements: seq<Replacement<char>>)
    returns (out: seq<Replacement<char>>)
    requires v.Box? && k < |v.kids| && IsList(v.kids[k].value) && v.kids[k].value.kids != []
    requires AllWf(Vals(v.kids[k].value.kids))
    ensures var kids := v.kids[k].value.kids;
            var es := RebaseAll([k], UpTo(kids, |kids|, ToolPlan(|kids|, place, anthropic, prim)));
            AllFit(v, es) && out == replacements + Moves(v, es, base)
  {
    var kids := v.kids[k].value.kids;
    var n := |kids|;
    ghost var a := SchemaUpTo(kids, n, anthropic, prim);
    out := PlanSchemas(v, k, base, anthropic, prim, replacements);
    PlanWithoutBreakpoint(kids, n, place, anthropic, prim);
    assert a + [] == a;
    if place {
      out := PlanBreakpoint(v, k, a, base, out);
      if Object(kids[n - 1].value) {
        MovesConcat(v, RebaseAll([k], a), [Append([k, n - 1], CacheKid)], base);
        Assoc(replacements, Moves(v, RebaseAll([k], a), base), Moves(v, [Append([k, n - 1], CacheKid)], base));
        RebaseLast(k, n, a);
      }
    }
  }

  lemma RebaseLast(k: nat, n: nat, a: seq<Edit>)
    requires n > 0
    ensures RebaseAll([k], a + [Append([n - 1], CacheKid)]) == RebaseAll([k], a) + [Append([k, n - 1], CacheKid)]
  {
    RebaseConcat([k], a, [Append([n - 1], CacheKid)]);
    assert [k] + [n - 1] == [k, n - 1];
  }

  /** The insertion before the closing brace of the last tool, when that tool is an object. */
  method PlanBreakpoint(v: Json, k: nat, ghost a: seq<Edit>, base: nat, replacements: seq<Replacement<char>>)
    returns (out: seq<Replacement<char>>)
    requires v.Box? && k < |v.kids| && IsList(v.kids[k].value) && v.kids[k].value.kids != []
    requires AllWf(Vals(v.kids[k].value.kids))
    ensures var n := |v.kids[k].value.kids|;
            var e := Append([k, n - 1], CacheKid);
            if Object(v.kids[k].value.kids[n - 1].value)
            then Fits(v, e) && out == replacements + Moves(v, [e], base)
            else out == replacements
  {
    hide Render, RenderKid, MemberInsertion, Wf;
    var kids := v.kids[k].value.kids;
    var n := |kids|;
    var last := Vals(kids)[n - 1];
    out := replacements;
    MemberInsertionExact(last, CacheKid);
    var insertion := MemberInsertion(Render(last), RenderKid(true, CacheKid));
    if insertion.Some? {
      TwoDown(v, k, n - 1);
      var at := base + |Head(v, [k, n - 1])| + insertion.value.0;
      OneMove(v, Append([k, n - 1], CacheKid), base);
      out := out + [Replacement(at, at, insertion.value.1)];
    }
  }

  lemma OneMove(v: Json, e: Edit, base: nat)
    requires Fits(v, e)
    ensures Moves(v, [e], base) == [Moved(Rep(v, e), base)]
  {
  }
}
