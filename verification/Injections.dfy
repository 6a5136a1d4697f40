/** The retrieve tool and the prompt cache key a rewritten request receives. */
module Injections {
  import opened Prelude
  import opened Json
  import opened Splice
  import opened JsonParser
  import opened JsonEdits
  import opened EditLists
  import opened Values
  import opened Ccr
  import opened LiveZone
  import opened Tools
  import opened ToolPlanner

  const PCK := "prompt_cache_key"

  // ----- the injected tool -----

  function Property(text: string): Val { Obj([Entry("description", Txt(text)), Entry("type", Txt("string"))]) }

  function Parameters(w: Wording): Val {
    Obj([
      Entry("properties", Obj([Entry("hash", Property(w.hash)), Entry("query", Property(w.query))])),
      Entry("required", Arr([Txt("hash")])),
      Entry("type", Txt("object"))])
  }

  function RetrieveTool(shape: Shape, w: Wording): Val {
    match shape
    case OpenAiChat =>
      Obj([
        Entry("function", Obj([
          Entry("description", Txt(w.tool)), Entry("name", Txt(RETRIEVE)), Entry("parameters", Parameters(w))])),
        Entry("type", Txt("function"))])
    case OpenAiResponses =>
      Obj([
        Entry("description", Txt(w.tool)), Entry("name", Txt(RETRIEVE)), Entry("parameters", Parameters(w)),
        Entry("type", Txt("function"))])
    case _ =>
      Obj([Entry("description", Txt(w.tool)), Entry("input_schema", Parameters(w)), Entry("name", Txt(RETRIEVE))])
  }

  function FunctionName(tool: Json): Option<string> {
    var fn := Lookup(tool, "function");
    if fn.Some? then LookupText(fn.value, "name") else None
  }

  /** Whether a tool already is the retrieve tool of its shape. */
  predicate Announces(shape: Shape, tool: Json) {
    match shape
    case OpenAiChat => RetrieveNamed(FunctionName(tool))
    case OpenAiResponses =>
      var name := LookupText(tool, "name");
      RetrieveNamed(if name.Some? then name else FunctionName(tool))
    case _ => RetrieveNamed(LookupText(tool, "name"))
  }

  predicate Announced(shape: Shape, tools: seq<Json>) { exists i :: 0 <= i < |tools| && Announces(shape, tools[i]) }

  function ToolKid(shape: Shape, w: Wording): Kid { Kid("", "", "", "", Tree(RetrieveTool(shape, w)), "") }

  function ToolsMember(shape: Shape, w: Wording): Kid {
    Kid("", "tools", "", "", Box(false, [ToolKid(shape, w)], ""), "")
  }

  /** Append the tool to an array, create the array, or leave any other `tools` alone. */
  function ToolAppend(v: Json, shape: Shape, w: Wording): (r: Option<Edit>)
    ensures r.Some? ==> r.value.Append? && Fits(v, r.value)
  {
    var tools := Lookup(v, "tools");
    if tools.None? then (if Object(v) then Some(Append([], ToolsMember(shape, w))) else None)
    else if !IsList(tools.value) || Announced(shape, Vals(tools.value.kids)) || !ViewOk(v, {"tools"}) then None
    else
      var k := KeyIndex(v, "tools").value;
      AtOne(v, k);
      Some(Append([k], ToolKid(shape, w)))
  }

  // ----- the injected tool is well-formed and is recognised -----

  const Same: string -> string := t => t

  lemma PropertyNormal(text: string, number: string -> string)
    ensures Normal(Property(text), number)
  {
    assert Below("description", "type");
  }

  lemma ParametersNormal(w: Wording, number: string -> string)
    ensures Normal(Parameters(w), number)
  {
    hide ScalarOk, IsNumber;
    PropertyNormal(w.hash, number);
    PropertyNormal(w.query, number);
    assert Below("hash", "query");
    assert Normal(Obj([Entry("hash", Property(w.hash)), Entry("query", Property(w.query))]), number);
    assert Below("properties", "required") && Below("properties", "type") && Below("required", "type");
    assert Normal(Arr([Txt("hash")]), number);
  }

  lemma ChatNormal(w: Wording, number: string -> string)
    ensures Normal(RetrieveTool(OpenAiChat, w), number)
  {
    hide ScalarOk, IsNumber, Parameters;
    ParametersNormal(w, number);
    var fn := RetrieveTool(OpenAiChat, w).entries[0].val;
    assert Below("description", "name") && Below("description", "parameters") && Below("name", "parameters");
    assert Normal(fn, number);
    assert Below("function", "type");
  }

  lemma ResponsesNormal(w: Wording, number: string -> string)
    ensures Normal(RetrieveTool(OpenAiResponses, w), number)
  {
    hide ScalarOk, IsNumber, Parameters;
    ParametersNormal(w, number);
    assert Below("description", "name") && Below("description", "parameters") && Below("description", "type");
    assert Below("name", "parameters") && Below("name", "type") && Below("parameters", "type");
  }

  lemma AnthropicNormal(shape: Shape, w: Wording, number: string -> string)
    requires shape == AnthropicMessages || shape == AnthropicBatches
    ensures Normal(RetrieveTool(shape, w), number)
  {
    hide ScalarOk, IsNumber, Parameters;
    ParametersNormal(w, number);
    assert Below("description", "input_schema") && Below("description", "name") && Below("input_schema", "name");
  }

  lemma RetrieveNormal(shape: Shape, w: Wording, number: string -> string)
    ensures Normal(RetrieveTool(shape, w), number)
  {
    match shape
    case OpenAiChat => ChatNormal(w, number);
    case OpenAiResponses => ResponsesNormal(w, number);
    case _ => AnthropicNormal(shape, w, number);
  }

  /** Reading a member of a written value. */
  lemma LookupTree(v: Val, key: string)
    requires Normal(v, Same)
    ensures Get(v, key) == (var r := Lookup(Tree(v), key); if r.Some? then Some(Sem(r.value, Same)) else None)
    ensures GetText(v, key) == LookupText(Tree(v), key)
  {
    hide Tree, Normal, Lookup;
    SemTree(v, Same);
    LookupSem(Tree(v), key, Same);
  }

  lemma RetrieveWf(shape: Shape, w: Wording)
    ensures Wf(Tree(RetrieveTool(shape, w)))
  {
    RetrieveNormal(shape, w, Same);
    SemTree(RetrieveTool(shape, w), Same);
  }

  /** An object written with a top-level name reads back with it. */
  lemma NameRead(v: Val)
    requires Normal(v, Same) && GetText(v, "name") == Some(RETRIEVE)
    ensures LookupText(Tree(v), "name") == Some(RETRIEVE) && RetrieveNamed(LookupText(Tree(v), "name"))
  {
    LookupTree(v, "name");
  }

  lemma FunctionNameRead(v: Val, fn: Val)
    requires Normal(v, Same) && Get(v, "function") == Some(fn) && GetText(fn, "name") == Some(RETRIEVE)
    ensures FunctionName(Tree(v)) == Some(RETRIEVE)
  {
    hide Tree, Normal, Find;
    LookupTree(v, "function");
    LookupSem(Lookup(Tree(v), "function").value, "name", Same);
  }

  lemma RetrieveAnnounced(shape: Shape, w: Wording)
    ensures Announces(shape, Tree(RetrieveTool(shape, w)))
  {
    var v := RetrieveTool(shape, w);
    RetrieveNormal(shape, w, Same);
    if shape == OpenAiChat {
      var es := v.entries;
      var fn := es[0].val;
      assert Values.Find(es, "function") == Some(fn);
      ThirdEntry(fn.entries);
      FunctionNameRead(v, fn);
    } else {
      ThirdEntry(v.entries);
      NameRead(v);
    }
  }

  /** The name is the second or the third entry. */
  lemma ThirdEntry(es: seq<Entry>)
    requires |es| >= 2 && es[0].key == "description"
    requires es[1] == Entry("name", Txt(RETRIEVE))
             || (|es| >= 3 && es[1].key == "input_schema" && es[2] == Entry("name", Txt(RETRIEVE)))
    ensures Values.Find(es, "name") == Some(Txt(RETRIEVE))
  {
    assert es[0].key[1] != "name"[1];
    assert Values.Find(es, "name") == Values.Find(es[1..], "name");
    if es[1].key == "input_schema" {
      assert Values.Find(es[1..], "name") == Values.Find(es[1..][1..], "name");
    }
  }

  lemma ToolsKey(shape: Shape, w: Wording)
    ensures Text(ToolsMember(shape, w).key) == "tools" && KidOk(true, ToolsMember(shape, w))
    ensures KidOk(false, ToolKid(shape, w))
  {
    var key := "tools";
    TextOf(key);
    PlainText(key);
    assert ToolsMember(shape, w).key == key;
    RetrieveWf(shape, w);
    ToolKidsOk(ToolKid(shape, w));
  }

  lemma ToolKidsOk(kid: Kid)
    requires KidOk(false, kid)
    ensures Wf(Box(false, [kid], ""))
  {
  }

  /** Appending a second time finds the tool and plans nothing. */
  lemma ToolAppendOnce(v: Json, shape: Shape, w: Wording)
    requires ToolAppend(v, shape, w).Some?
    ensures ToolAppend(Step(v, ToolAppend(v, shape, w).value), shape, w) == None
  {
    hide RetrieveTool, Announces, Tree, Text;
    var e := ToolAppend(v, shape, w).value;
    var u := Step(v, e);
    var tool := Tree(RetrieveTool(shape, w));
    RetrieveAnnounced(shape, w);
    if e.path == [] {
      ToolsKey(shape, w);
      NewMember(v, ToolsMember(shape, w), "tools");
      assert Vals([ToolKid(shape, w)])[0] == tool;
    } else {
      var k := e.path[0];
      WithKidKeys(v, k, Extended(v.kids[k].value, ToolKid(shape, w)), "tools");
      AtOne(v, k);
      WithOne(v, k, Extended(v.kids[k].value, ToolKid(shape, w)));
      var kids := u.kids[k].value.kids;
      assert Vals(kids)[|kids| - 1] == tool;
    }
  }

  lemma NewMember(v: Json, kid: Kid, key: string)
    requires Object(v) && Text(kid.key) == key
    ensures Lookup(Extended(v, kid), key) == Some(kid.value)
  {
    var u := Extended(v, kid);
    var n := |u.kids| - 1;
    assert Keys(u.kids)[n] == key;
  }

  // ----- inserting at the end of a segment -----

  /** The segment without its trailing blanks, searched for its closing brace. */
  function SegmentInsertion(segment: string, member: string): Option<(nat, string)> {
    MemberInsertion(TrimEnd(segment), member)
  }

  /** The blank test only looks past a brace in first position. */
  predicate Misjudged(pre: string, v: Json) { pre != "" && Object(v) && v.kids == [] }

  lemma TrimmedSegment(pre: string, v: Json, post: string)
    requires AllWs(post) && Wf(v)
    ensures TrimEnd(pre + Render(v) + post) == pre + Render(v)
    ensures EndsWith(pre + Render(v), "}") == Object(v)
  {
    var s := pre + Render(v);
    RenderEnds(v);
    assert s[|s| - 1] == Render(v)[|Render(v)| - 1];
    TrimEndBlank(s, post);
    assert s[|s| - 1..] == Render(v)[|Render(v)| - 1..];
  }

  lemma LedInterior(pre: string, v: Json)
    requires AllWs(pre) && Wf(v) && Object(v)
    ensures InteriorEmpty(pre + Render(v)) == (pre == "" && v.kids == [])
  {
    var s := pre + Render(v);
    if pre == "" {
      assert s == Render(v);
      InteriorExact(v);
    } else {
      assert IsWs(pre[0]) && s[0] == pre[0];
      assert s[..1] == [s[0]];
    }
  }

  lemma SegmentInsertionExact(pre: string, v: Json, post: string, kid: Kid)
    requires AllWs(pre) && AllWs(post) && Wf(v)
    ensures SegmentInsertion(pre + Render(v) + post, RenderKid(true, kid))
            == if !Object(v) then None
               else Some((|pre| + |Render(v)| - 1,
                          if Misjudged(pre, v) then "," + RenderKid(true, kid) else Insertion(v, kid)))
  {
    hide RenderKid, Wf;
    TrimmedSegment(pre, v, post);
    var s, member := pre + Render(v), RenderKid(true, kid);
    assert |s| == |pre| + |Render(v)|;
    if Object(v) {
      LedInterior(pre, v);
      InsertionText(v, kid);
      assert MemberInsertion(s, member) == Some((|s| - 1, if InteriorEmpty(s) then member else "," + member));
    } else {
      assert MemberInsertion(s, member) == None;
    }
  }

  /** Appending the retrieve tool, planned on the text of an object and the blanks around it. */
  method PlanToolAppend(pre: string, v: Json, post: string, base: nat, shape: Shape, w: Wording,
                        replacements: seq<Replacement<char>>)
    returns (planned: bool, out: seq<Replacement<char>>)
    requires AllWs(pre) && AllWs(post) && Wf(v) && !Misjudged(pre, v)
    ensures planned == ToolAppend(v, shape, w).Some?
    ensures out == if planned then replacements + Moves(v, [ToolAppend(v, shape, w).value], base + |pre|)
            else replacements
  {
    hide Announced, Text, Keys, RetrieveTool, Rep, Render;
    var tools := Lookup(v, "tools");
    if tools.None? {
      var move := NewToolsMove(pre, v, post, base, ToolsMember(shape, w));
      if move.None? { return false, replacements; }
      return true, replacements + [move.value];
    }
    if !IsList(tools.value) || Announced(shape, Vals(tools.value.kids)) || !ViewOk(v, {"tools"}) {
      return false, replacements;
    }
    var k := KeyIndex(v, "tools").value;
    AtOne(v, k);
    var move := LastToolMove(v, [k], base + |pre|, ToolKid(shape, w));
    return true, replacements + [move];
  }

  /** Creating the member before the closing brace, if the segment has one. */
  method NewToolsMove(pre: string, v: Json, post: string, base: nat, member: Kid) returns (r: Option<Replacement<char>>)
    requires AllWs(pre) && AllWs(post) && Wf(v) && !Misjudged(pre, v)
    ensures r.Some? == Object(v)
    ensures Object(v) ==> [r.value] == Moves(v, [Append([], member)], base + |pre|)
  {
    hide Render, RenderKid, Text, Insertion;
    SegmentInsertionExact(pre, v, post, member);
    var at := SegmentInsertion(pre + Render(v) + post, RenderKid(true, member));
    if at.None? { return None; }
    var move := Replacement(base + at.value.0, base + at.value.0, at.value.1);
    AppendMove(v, [], member, base + |pre|, move);
    return Some(move);
  }

  /** Adding an element before the closing bracket. */
  method LastToolMove(v: Json, p: Path, base: nat, kid: Kid) returns (move: Replacement<char>)
    requires HasPath(v, p) && IsList(At(v, p))
    ensures [move] == Moves(v, [Append(p, kid)], base)
  {
    var list := At(v, p);
    var at := base + |Head(v, p)| + |Render(list)| - 1;
    var comma := if list.kids == [] then "" else ",";
    move := Replacement(at, at, comma + RenderKid(false, kid));
    AppendMove(v, p, kid, base, move);
  }

  lemma AppendMove(v: Json, p: Path, kid: Kid, base: nat, move: Replacement<char>)
    requires HasPath(v, p) && At(v, p).Box? && move.bytes == Insertion(At(v, p), kid)
    requires move.lo == move.hi == base + |Head(v, p)| + |Render(At(v, p))| - 1
    ensures Moves(v, [Append(p, kid)], base) == [move]
  {
    OneMove(v, Append(p, kid), base);
  }

  // ----- prompt cache key -----

  function FirstSystem(items: Option<Json>, number: string -> string): Option<Val> {
    if items.None? || !IsList(items.value) then None else FirstSystemIn(items.value.kids, number)
  }

  function FirstSystemIn(kids: seq<Kid>, number: string -> string): Option<Val> {
    if kids == [] then None
    else if LookupText(kids[0].value, "role") == Some("system") then
      var content := Lookup(kids[0].value, "content");
      Some(if content.None? then NULL else Sem(content.value, number))
    else FirstSystemIn(kids[1..], number)
  }

  /** Responses prefers `instructions`, then a system item of `input`, then one of `messages`. */
  function SystemValue(v: Json, shape: Shape, number: string -> string): Val {
    var chat := FirstSystem(Lookup(v, "messages"), number);
    var last := if chat.Some? then chat.value else NULL;
    if shape != OpenAiResponses then last
    else
      var instructions := Lookup(v, "instructions");
      var input := FirstSystem(Lookup(v, "input"), number);
      if instructions.Some? then Sem(instructions.value, number)
      else if input.Some? then input.value else last
  }

  function DerivedKey(v: Json, shape: Shape, prim: Primitives): string {
    var model := LookupText(v, "model");
    var tools := Lookup(v, "tools");
    prim.cacheKey(
      if model.Some? then model.value else "",
      Serialize(SystemValue(v, shape, prim.number)),
      Serialize(if tools.Some? then Sem(tools.value, prim.number) else NULL))
  }

  /** The customer's own key: a non-empty string. */
  predicate HasKey(v: Json) { var key := LookupText(v, PCK); key.Some? && key.value != "" }

  function KeyMember(key: string): Kid { Kid("", PCK, "", "", Str(key), "") }

  /** Insert the key, replace a value that is no key, or leave the request alone. */
  function KeyEdit(v: Json, shape: Shape, prim: Primitives): (r: Option<Edit>)
    ensures r.Some? ==> Fits(v, r.value)
  {
    var key := DerivedKey(v, shape, prim);
    if !Object(v) || HasKey(v) then None
    else if Lookup(v, PCK).None? then Some(Append([], KeyMember(key)))
    else
      var k := Field(v, PCK);
      if !ViewOk(v, {PCK}) || k.None? then None
      else
        AtOne(v, k.value);
        Some(Put([k.value], Str(key)))
  }

  /** Keys are non-empty and need no escaping. */
  ghost predicate GoodKeys(prim: Primitives) {
    forall a, b, c :: prim.cacheKey(a, b, c) != "" && Plain(prim.cacheKey(a, b, c))
  }

  /** The replacement of the key injection, exact text included. */
  method PlanPromptCacheKey(d: Doc, shape: Shape, prim: Primitives)
    returns (planned: bool, replacements: seq<Replacement<char>>)
    requires WfDoc(d)
    ensures planned == KeyEdit(d.root, shape, prim).Some?
    ensures replacements == if planned then [KeyMove(d, KeyEdit(d.root, shape, prim).value)] else []
  {
    var v := d.root;
    if !Object(v) || HasKey(v) { return false, []; }
    var key := DerivedKey(v, shape, prim);
    if Lookup(v, PCK).Some? {
      var k := Field(v, PCK);
      if !ViewOk(v, {PCK}) || k.None? { return false, []; }
      AtOne(v, k.value);
      var offset := |d.pre| + |Head(v, [k.value])|;
      var move := Replacement(offset, offset + |Render(At(v, [k.value]))|, "\"" + key + "\"");
      KeyPut(d, [k.value], key, move);
      return true, [move];
    }
    SegmentInsertionExact(d.pre, v, d.post, KeyMember(key));
    var at := SegmentInsertion(RenderDoc(d), RenderKid(true, KeyMember(key)));
    var move := Replacement(at.value.0, at.value.0, at.value.1);
    KeyAppend(d, KeyMember(key), move);
    return true, [move];
  }

  lemma KeyPut(d: Doc, p: Path, key: string, move: Replacement<char>)
    requires HasPath(d.root, p) && move.bytes == "\"" + key + "\""
    requires move.lo == |d.pre| + |Head(d.root, p)| && move.hi == move.lo + |Render(At(d.root, p))|
    ensures KeyMove(d, Put(p, Str(key))) == move
  {
    assert Render(Str(key)) == "\"" + key + "\"";
  }

  lemma KeyAppend(d: Doc, kid: Kid, move: Replacement<char>)
    requires Object(d.root)
    requires move.lo == move.hi == |d.pre| + |Render(d.root)| - 1
    requires move.bytes == if Misjudged(d.pre, d.root) then "," + RenderKid(true, kid) else Insertion(d.root, kid)
    ensures KeyMove(d, Append([], kid)) == move
  {
    assert Head(d.root, []) == "";
  }

  /** What is spliced into the body; a comma too many when the emptiness test misjudges. */
  function KeyMove(d: Doc, e: Edit): Replacement<char>
    requires Fits(d.root, e)
  {
    var r := Moved(Rep(d.root, e), |d.pre|);
    if e.Append? && Misjudged(d.pre, d.root) then r.(bytes := "," + RenderKid(true, e.kid)) else r
  }

  /** The body after the key has been spliced in. */
  function KeyedBody(d: Doc, shape: Shape, prim: Primitives): string {
    var e := KeyEdit(d.root, shape, prim);
    if e.None? then RenderDoc(d)
    else if e.value.Append? && Misjudged(d.pre, d.root) then
      d.pre + "{" + d.root.blank + "," + RenderKid(true, e.value.kid) + "}" + d.post
    else RenderDoc(d.(root := Step(d.root, e.value)))
  }

  // ----- what the key injection achieves -----

  lemma MemberOk(name: string, key: string)
    requires Plain(name) && Plain(key)
    ensures Decode(key) == Some(key) && Wf(Str(key)) && Text(name) == name
    ensures KidOk(true, Kid("", name, "", "", Str(key), ""))
  {
    PlainText(name);
    PlainText(key);
  }

  lemma StringKeyOk(prim: Primitives, v: Json, shape: Shape)
    requires GoodKeys(prim)
    ensures var key := DerivedKey(v, shape, prim);
            && Decode(key) == Some(key) && Wf(Str(key)) && KidOk(true, KeyMember(key))
            && Text(KeyMember(key).key) == PCK && key != ""
  {
    var name := "prompt_cache_key";
    assert Plain(name);
    NamedKeyOk(prim, v, shape, name);
  }

  lemma NamedKeyOk(prim: Primitives, v: Json, shape: Shape, name: string)
    requires GoodKeys(prim) && Plain(name) && name == PCK
    ensures var key := DerivedKey(v, shape, prim);
            && Decode(key) == Some(key) && Wf(Str(key)) && KidOk(true, KeyMember(key))
            && Text(KeyMember(key).key) == PCK && key != ""
  {
    MemberOk(name, DerivedKey(v, shape, prim));
  }

  lemma MisjudgedSplice(pre: string, blank: string, post: string, member: string)
    ensures var body := pre + ("{" + blank + "}") + post;
            var at := |pre| + |"{" + blank + "}"| - 1;
            var r := Replacement(at, at, member);
            && InOrder([r], 0, |body|)
            && Spliced(body, [r], 0) == pre + "{" + blank + member + "}" + post
  {
    var body := pre + ("{" + blank + "}") + post;
    var at := |pre| + |"{" + blank + "}"| - 1;
    var r := Replacement(at, at, member);
    assert [r][1..] == [];
    assert InOrder([r][1..], at, |body|);
    assert body[0..at] == pre + "{" + blank;
    assert body[at..] == "}" + post;
    assert Spliced(body, [r], 0) == body[0..at] + member + Spliced(body, [r][1..], at);
  }

  lemma KeySplice(d: Doc, shape: Shape, prim: Primitives)
    requires WfDoc(d) && KeyEdit(d.root, shape, prim).Some?
    ensures var rs := [KeyMove(d, KeyEdit(d.root, shape, prim).value)];
            && Visited(rs) == rs && InOrder(rs, 0, |RenderDoc(d)|)
            && Spliced(RenderDoc(d), rs, 0) == KeyedBody(d, shape, prim)
  {
    hide Render, RenderDoc, RenderKid, Sem, Sort, Lookup, Step;
    var e := KeyEdit(d.root, shape, prim).value;
    var rs := [KeyMove(d, e)];
    SortFixes(rs, StartsBefore);
    if e.Append? && Misjudged(d.pre, d.root) {
      MisjudgedKeyed(d, e.kid, rs[0]);
    } else {
      assert [e][..0] == [];
      assert BodyReps(d, [e]) == rs;
      SpliceBody(d, [e]);
      assert Edited(d.root, [e]) == Edited(Step(d.root, e), [e][..0]);
    }
  }

  lemma MisjudgedKeyed(d: Doc, kid: Kid, r: Replacement<char>)
    requires Object(d.root) && d.root.kids == []
    requires r.lo == r.hi == |d.pre| + |Render(d.root)| - 1 && r.bytes == "," + RenderKid(true, kid)
    ensures InOrder([r], 0, |RenderDoc(d)|)
    ensures Spliced(RenderDoc(d), [r], 0) == d.pre + "{" + d.root.blank + "," + RenderKid(true, kid) + "}" + d.post
  {
    MisjudgedSplice(d.pre, d.root.blank, d.post, r.bytes);
    Assoc(d.pre + "{" + d.root.blank, ",", RenderKid(true, kid));
  }

  /** An object cannot start with a comma. */
  lemma LeadingComma(pre: string, blank: string, rest: string)
    requires AllWs(pre) && AllWs(blank)
    ensures Parse(pre + ("{" + (blank + ("," + rest)))) == None
  {
    var inner := blank + ("," + rest);
    WsLenPrefix(pre, "{" + inner);
    WsLenPrefix(blank, "," + rest);
    assert ("{" + inner)[1..] == inner;
    assert ParseKid(true, inner) == None;
    assert ParseKids(true, inner) == None;
    assert ParseBox(true, "{" + inner) == None;
  }

  /** Whether the emptiness test looks at a blank instead of the opening brace. */
  predicate BreaksBody(d: Doc, shape: Shape, prim: Primitives) {
    Misjudged(d.pre, d.root) && KeyEdit(d.root, shape, prim).Some?
  }

  lemma FromLeft(a: string, b: string, c: string, d: string, e: string)
    ensures a + (b + (c + (d + e))) == a + b + c + d + e
  {
    Assoc(a, b, c + (d + e));
    Assoc(a + b, c, d + e);
    Assoc(a + b + c, d, e);
  }

  /** A comma right behind the opening brace. */
  lemma BrokenBody(pre: string, blank: string, member: string, post: string)
    requires AllWs(pre) && AllWs(blank)
    ensures Parse(pre + "{" + blank + "," + member + "}" + post) == None
  {
    LeadingComma(pre, blank, member + ("}" + post));
    FromLeft(pre, "{", blank, ",", member + ("}" + post));
    var head := pre + "{" + blank + ",";
    Assoc(head, member, "}" + post);
    Assoc(head + member, "}", post);
  }

  lemma KeyedWf(d: Doc, shape: Shape, prim: Primitives)
    requires WfDoc(d) && GoodKeys(prim)
    ensures WfDoc(KeyedDoc(d, shape, prim))
  {
    StringKeyOk(prim, d.root, shape);
    var e := KeyEdit(d.root, shape, prim);
    if e.Some? && e.value.Append? {
      WfExtended(d.root, e.value.kid);
    } else if e.Some? {
      WfWith(d.root, e.value.path, e.value.node);
    }
  }

  /**
   * The injected body is well-formed exactly when the emptiness test is not misled:
   * only a body with leading blanks and an empty root object is broken.
   */
  lemma KeyedBodyParses(d: Doc, shape: Shape, prim: Primitives)
    requires WfDoc(d) && GoodKeys(prim)
    ensures Parse(KeyedBody(d, shape, prim)) == if BreaksBody(d, shape, prim) then None
            else Some(KeyedDoc(d, shape, prim))
    ensures !BreaksBody(d, shape, prim) ==> KeyedBody(d, shape, prim) == RenderDoc(KeyedDoc(d, shape, prim))
  {
    KeyedWf(d, shape, prim);
    ParseComplete(KeyedDoc(d, shape, prim));
    if BreaksBody(d, shape, prim) {
      var e := KeyEdit(d.root, shape, prim);
      MisledAppends(d, shape, prim);
      BrokenBody(d.pre, d.root.blank, RenderKid(true, e.value.kid), d.post);
    }
  }

  lemma MisledAppends(d: Doc, shape: Shape, prim: Primitives)
    requires BreaksBody(d, shape, prim)
    ensures KeyEdit(d.root, shape, prim).value.Append?
  {
  }

  function KeyedDoc(d: Doc, shape: Shape, prim: Primitives): Doc {
    var e := KeyEdit(d.root, shape, prim);
    if e.None? then d else d.(root := Step(d.root, e.value))
  }

  /** A request the injection can give a key: it has one, or its key is neither `null` nor repeated. */
  predicate Keyable(v: Json) {
    Object(v) && (HasKey(v) || (Lookup(v, PCK) != Some(Scalar("null")) && multiset(Keys(v.kids))[PCK] <= 1))
  }

  lemma KeyInTree(d: Doc, shape: Shape, prim: Primitives)
    requires WfDoc(d) && GoodKeys(prim)
    ensures HasKey(KeyedDoc(d, shape, prim).root) <==> Keyable(d.root)
    ensures KeyEdit(KeyedDoc(d, shape, prim).root, shape, prim) == None
  {
    var e := KeyEdit(d.root, shape, prim);
    if e.Some? && e.value.Append? {
      KeyInserted(d, shape, prim);
    } else if e.Some? {
      KeyPutIn(d, shape, prim);
    }
  }

  /** The key a request has, or the one derived from it. */
  lemma KeyValue(d: Doc, shape: Shape, prim: Primitives)
    requires WfDoc(d) && GoodKeys(prim) && Keyable(d.root)
    ensures var own := LookupText(d.root, PCK);
            LookupText(KeyedDoc(d, shape, prim).root, PCK)
            == if own.Some? && own.value != "" then own else Some(DerivedKey(d.root, shape, prim))
  {
    hide DerivedKey, LookupText;
    var e := KeyEdit(d.root, shape, prim);
    if e.Some? && e.value.Append? {
      KeyInserted(d, shape, prim);
    } else if e.Some? {
      KeyPutIn(d, shape, prim);
    }
  }

  /**
   * The injected text is JSON with a usable key exactly when the request can be given one and
   * the emptiness test is not misled.
   */
  lemma KeyPresent(d: Doc, shape: Shape, prim: Primitives)
    requires WfDoc(d) && GoodKeys(prim)
    ensures var out := Parse(KeyedBody(d, shape, prim));
            (out.Some? && HasKey(out.value.root)) <==> !BreaksBody(d, shape, prim) && Keyable(d.root)
  {
    KeyInTree(d, shape, prim);
    KeyedBodyParses(d, shape, prim);
  }

  // ----- requests that end up without a key -----

  function KeyKid(value: Json): Kid { Kid("", PCK, "", "", value, "") }

  function Keyring(kids: seq<Kid>): Doc { Doc("", Box(true, kids, ""), "") }

  lemma NullKeyStays(shape: Shape, prim: Primitives)
    requires GoodKeys(prim)
    ensures var d := Keyring([KeyKid(Scalar("null"))]);
            WfDoc(d) && Parse(KeyedBody(d, shape, prim)) == Some(d) && !HasKey(d.root)
  {
    hide Text, Lookup, HasKey, KeyEdit, KeyedBody, Parse;
    var kid := KeyKid(Scalar("null"));
    KeyKidOk(Scalar("null"));
    LastOf([], kid);
    assert [] + [kid] == [kid];
    NullUnkeyed(Keyring([kid]).root, shape, prim);
    LeftAlone(Keyring([kid]), shape, prim);
  }

  lemma RepeatedKeyStays(shape: Shape, prim: Primitives)
    requires GoodKeys(prim)
    ensures var d := Keyring([KeyKid(Str("")), KeyKid(Str(""))]);
            WfDoc(d) && Parse(KeyedBody(d, shape, prim)) == Some(d) && !HasKey(d.root)
  {
    hide Text, Lookup, HasKey, KeyEdit, KeyedBody, Parse;
    var kid := KeyKid(Str(""));
    KeyKidOk(Str(""));
    TwoKeys(kid);
    TwiceUnkeyed(Keyring([kid, kid]).root, shape, prim);
    LeftAlone(Keyring([kid, kid]), shape, prim);
  }

  lemma TwoKeys(kid: Kid)
    requires Text(kid.key) == PCK
    ensures multiset(Keys([kid, kid]))[PCK] == 2 && Lookup(Keyring([kid, kid]).root, PCK) == Some(kid.value)
  {
    assert Keys([kid, kid]) == [PCK, PCK];
    assert [kid] + [kid] == [kid, kid];
    LastOf([kid], kid);
  }

  lemma LeftAlone(d: Doc, shape: Shape, prim: Primitives)
    requires WfDoc(d) && GoodKeys(prim) && KeyEdit(d.root, shape, prim).None?
    ensures Parse(KeyedBody(d, shape, prim)) == Some(d)
  {
    KeyedBodyParses(d, shape, prim);
  }

  lemma NullUnkeyed(v: Json, shape: Shape, prim: Primitives)
    requires Object(v) && Lookup(v, PCK) == Some(Scalar("null"))
    ensures KeyEdit(v, shape, prim).None? && !HasKey(v)
  {
  }

  lemma TwiceUnkeyed(v: Json, shape: Shape, prim: Primitives)
    requires Object(v) && Lookup(v, PCK) == Some(Str("")) && multiset(Keys(v.kids))[PCK] == 2
    ensures KeyEdit(v, shape, prim).None? && !HasKey(v)
  {
  }

  /** One blank in front of an empty object. */
  lemma BlankThenEmpty(shape: Shape, prim: Primitives)
    requires GoodKeys(prim)
    ensures var d := Doc(" ", Box(true, [], ""), "");
            WfDoc(d) && RenderDoc(d) == " {}" && Parse(KeyedBody(d, shape, prim)) == None
  {
    var d := Doc(" ", Box(true, [], ""), "");
    assert RenderDoc(d) == " {}";
    NoMembers(d.root, shape, prim);
    KeyedBodyParses(d, shape, prim);
  }

  lemma NoMembers(v: Json, shape: Shape, prim: Primitives)
    requires Object(v) && v.kids == []
    ensures KeyEdit(v, shape, prim).Some?
  {
    assert Keys(v.kids) == [];
  }

  lemma KeyKidOk(value: Json)
    requires Wf(value)
    ensures KidOk(true, KeyKid(value)) && Text(PCK) == PCK
  {
    hide KidOk, Text;
    var name := "prompt_cache_key";
    assert Plain(name);
    NamedKidOk(name, value);
  }

  lemma NamedKidOk(name: string, value: Json)
    requires Wf(value) && Plain(name)
    ensures KidOk(true, Kid("", name, "", "", value, "")) && Text(name) == name
  {
    hide Wf;
    PlainText(name);
  }

  lemma LastOf(before: seq<Kid>, kid: Kid)
    requires Text(kid.key) == PCK
    ensures Lookup(Box(true, before + [kid], ""), PCK) == Some(kid.value)
  {
    var kids := before + [kid];
    assert Keys(kids)[|kids| - 1] == PCK;
  }

  lemma KeyInserted(d: Doc, shape: Shape, prim: Primitives)
    requires WfDoc(d) && GoodKeys(prim) && KeyEdit(d.root, shape, prim).Some? &&
             KeyEdit(d.root, shape, prim).value.Append?
    ensures HasKey(KeyedDoc(d, shape, prim).root) && Lookup(d.root, PCK) != Some(Scalar("null"))
    ensures LookupText(KeyedDoc(d, shape, prim).root, PCK) == Some(DerivedKey(d.root, shape, prim))
    ensures Object(d.root) && multiset(Keys(d.root.kids))[PCK] <= 1
    ensures KeyEdit(KeyedDoc(d, shape, prim).root, shape, prim) == None
  {
    var key := DerivedKey(d.root, shape, prim);
    StringKeyOk(prim, d.root, shape);
    NewMember(d.root, KeyMember(key), PCK);
    NoKey(d.root);
  }

  lemma KeyPutIn(d: Doc, shape: Shape, prim: Primitives)
    requires WfDoc(d) && GoodKeys(prim) && KeyEdit(d.root, shape, prim).Some? && KeyEdit(d.root, shape, prim).value.Put?
    ensures HasKey(KeyedDoc(d, shape, prim).root) && Lookup(d.root, PCK) != Some(Scalar("null"))
    ensures LookupText(KeyedDoc(d, shape, prim).root, PCK) == Some(DerivedKey(d.root, shape, prim))
    ensures Object(d.root) && multiset(Keys(d.root.kids))[PCK] <= 1
    ensures KeyEdit(KeyedDoc(d, shape, prim).root, shape, prim) == None
  {
    StringKeyOk(prim, d.root, shape);
    KeyReplaced(d.root, KeyEdit(d.root, shape, prim).value.path[0], DerivedKey(d.root, shape, prim));
  }

  lemma NoKey(v: Json)
    requires Object(v) && Lookup(v, PCK).None?
    ensures multiset(Keys(v.kids))[PCK] == 0
  {
  }

  lemma KeyReplaced(v: Json, k: nat, key: string)
    requires Object(v) && KeyIndex(v, PCK) == Some(k) && Decode(key) == Some(key)
    ensures HasPath(v, [k]) && LookupText(With(v, [k], Str(key)), PCK) == Some(key)
  {
    WithOne(v, k, Str(key));
    WithKidKeys(v, k, Str(key), PCK);
  }
}
