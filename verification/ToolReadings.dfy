/** What normalisation and injection read of a request, told from its members alone. */
module ToolReadings {
  import opened Prelude
  import opened Json
  import opened JsonEdits
  import opened EditLists
  import opened Values
  import opened LiveZone
  import opened Tools
  import opened Injections
  import opened LiveTokens
  import Answers
  import JsonParser

  // ----- the schema of a tool -----

  /** The member is there and not `null`. */
  predicate Given(v: Json, name: string, k: nat) { Last(v, name, k) && v.kids[k].value != Scalar("null") }

  /** No member the schema is looked up by is repeated. */
  ghost predicate GoodTool(tool: Json) {
    && tool.Box? && tool.isObj
    && NoTwo(tool, "function") && NoTwo(tool, "parameters") && NoTwo(tool, "input_schema")
    && forall f: nat :: Given(tool, "function", f) ==> NoTwo(tool.kids[f].value, "parameters")
  }

  ghost predicate InFunction(tool: Json, f: nat, q: nat) {
    Given(tool, "function", f) && Given(tool.kids[f].value, "parameters", q)
  }

  /** The schema: `input_schema`; for OpenAI `function.parameters`, else `parameters`. */
  ghost predicate SchemaAt(tool: Json, anthropic: bool, p: Path) {
    && GoodTool(tool)
    && if anthropic then |p| == 1 && Given(tool, "input_schema", p[0])
       else
         || (|p| == 2 && InFunction(tool, p[0], p[1]))
         || (|p| == 1 && Given(tool, "parameters", p[0]) && forall f: nat, q: nat :: !InFunction(tool, f, q))
  }

  lemma GivenRead(v: Json, name: string)
    ensures forall k: nat :: Field(v, name) == Some(k) <==> Given(v, name, k)
  {
    hide Text;
    forall k: nat ensures Last(v, name, k) <==> KeyIndex(v, name) == Some(k) { LastRead(v, name, k); }
  }

  lemma NoTwoView(v: Json, name: string)
    ensures ViewOk(v, {name}) <==> NoTwo(v, name)
  {
    hide Text, Keys, NoTwo;
    if v.Box? && v.isObj { NoTwoRead(v, name); } else { NotObject(v, name, 0); }
  }

  lemma GoodToolRead(tool: Json)
    ensures ToolViewOk(tool) <==> GoodTool(tool)
  {
    hide Given, NoTwo, Keys, KeyIndex, Field;
    GivenRead(tool, "function");
    if tool.Box? && tool.isObj {
      NoTwoRead(tool, "function");
      NoTwoRead(tool, "parameters");
      NoTwoRead(tool, "input_schema");
      var f := Field(tool, "function");
      if f.Some? { NoTwoView(tool.kids[f.value].value, "parameters"); }
    }
  }

  /** The schema found is the one at these members, if any. */
  lemma SchemaExactly(tool: Json, anthropic: bool, p: Path)
    ensures SchemaPath(tool, anthropic) == Some(p) <==> SchemaAt(tool, anthropic, p)
  {
    hide Given, GoodTool, ToolViewOk, Field;
    GoodToolRead(tool);
    if ToolViewOk(tool) {
      GivenRead(tool, "input_schema");
      GivenRead(tool, "function");
      GivenRead(tool, "parameters");
      var f := Field(tool, "function");
      if f.Some? { GivenRead(tool.kids[f.value].value, "parameters"); }
      if |p| == 1 { assert p == [p[0]]; }
      if |p| == 2 { assert p == [p[0], p[1]]; }
      InFunctionRead(tool);
    }
  }

  lemma InFunctionRead(tool: Json)
    ensures var f := Field(tool, "function");
            (f.Some? && Field(tool.kids[f.value].value, "parameters").Some?)
            <==> exists f: nat, q: nat :: InFunction(tool, f, q)
  {
    hide Given, Field;
    GivenRead(tool, "function");
    var f := Field(tool, "function");
    if f.Some? {
      GivenRead(tool.kids[f.value].value, "parameters");
      var q := Field(tool.kids[f.value].value, "parameters");
      if q.Some? { assert InFunction(tool, f.value, q.value); }
    }
  }

  // ----- what canonical means -----

  /** No blanks, strings as the writer spells them, keys in ascending order. */
  predicate Dense(v: Json)
    decreases v
  {
    match v
    case Scalar(_) => true
    case Str(b) => b == Encode(Text(b))
    case Box(isObj, kids, blank) =>
      && blank == "" && (isObj ==> forall i, j :: 0 <= i < j < |kids| ==> Below(Text(kids[i].key), Text(kids[j].key)))
      && forall i :: 0 <= i < |kids| ==> DenseKid(kids[i])
  }

  predicate DenseKid(kid: Kid)
    decreases kid
  {
    kid.pre == kid.mid == kid.gap == kid.post == "" && kid.key == Encode(Text(kid.key)) && Dense(kid.value)
  }

  lemma {:induction false} TreeDense(v: Val, number: string -> string)
    requires Normal(v, number)
    ensures Dense(Tree(v))
    decreases v
  {
    match v
    case Lit(_) =>
    case Txt(t) => DecodeEncode(t);
    case Arr(items) =>
      var kids := ItemKids(items);
      forall i | 0 <= i < |kids| ensures DenseKid(kids[i]) { TreeDense(items[i], number); }
    case Obj(entries) =>
      var kids := EntryKids(entries);
      forall i | 0 <= i < |kids| ensures Text(kids[i].key) == entries[i].key && DenseKid(kids[i]) {
        assert entries[i].val < entries[i];
        DecodeEncode(entries[i].key);
        TreeDense(entries[i].val, number);
      }
  }

  /** Schemas that mean the same have one canonical form, without blanks and with ascending keys. */
  lemma CanonExactly(v: Json, w: Json, number: string -> string)
    requires Wf(v) && GoodNumbers(number)
    ensures Dense(Canon(v, number))
    ensures Sem(v, number) == Sem(w, number) ==> Canon(v, number) == Canon(w, number)
  {
    SemNormal(v, number);
    TreeDense(Sem(v, number), number);
  }

  /** The schema of every tool comes out canonical, and means what it meant. */
  lemma SchemaCanonical(tool: Json, anthropic: bool, prim: Primitives, p: Path)
    requires SchemaAt(tool, anthropic, p) && Wf(tool) && GoodNumbers(prim.number)
    ensures HasPath(tool, p) && HasPath(Piece(tool, anthropic, prim), p)
    ensures var before, after := At(tool, p), At(Piece(tool, anthropic, prim), p);
            Dense(after) && Sem(after, prim.number) == Sem(before, prim.number)
  {
    hide SchemaAt, Dense, Sem;
    SchemaExactly(tool, anthropic, p);
    var x := At(tool, p);
    WfAt(tool, p);
    CanonExactly(x, x, prim.number);
    CanonKeeps(x, prim.number);
    if Render(Canon(x, prim.number)) == Render(x) {
      SameText(Canon(x, prim.number), x);
      assert SchemaEdits(tool, anthropic, prim) == [];
    } else {
      var e := Put(p, Canon(x, prim.number));
      assert SchemaEdits(tool, anthropic, prim) == [e];
      PutAlone(tool, e);
      RenderWith(tool, p, e.node);
    }
  }

  lemma SameText(v: Json, w: Json)
    requires Wf(v) && Wf(w) && Render(v) == Render(w)
    ensures v == w
  {
    var d, e := Doc("", v, ""), Doc("", w, "");
    assert RenderDoc(d) == "" + Render(v) + "" == Render(v) && RenderDoc(e) == "" + Render(w) + "" == Render(w);
    JsonParser.ParseComplete(d);
    JsonParser.ParseComplete(e);
  }

  // ----- order -----

  /** Strictly before in the order of code points: at the first difference, or by being shorter. */
  ghost predicate Earlier(a: string, b: string) {
    exists n: nat :: n <= |a| && n < |b| && a[..n] == b[..n] && (n == |a| || a[n] < b[n])
  }

  lemma {:induction false} BelowExactly(a: string, b: string)
    ensures Below(a, b) <==> Earlier(a, b)
  {
    if b == "" {
    } else if a == "" {
      assert a[..0] == b[..0];
    } else if a[0] != b[0] {
      assert a[..0] == b[..0];
      if n: nat :| n <= |a| && n < |b| && a[..n] == b[..n] && (n == |a| || a[n] < b[n]) {
        if n > 0 { FirstDiffers(a, b, n); }
      }
    } else {
      BelowExactly(a[1..], b[1..]);
      EarlierTail(a, b);
    }
  }

  lemma FirstDiffers(a: string, b: string, n: nat)
    requires 0 < n <= |a| && n <= |b| && a[..n] == b[..n]
    ensures a[0] == b[0]
  {
    assert a[..n][0] == a[0] && b[..n][0] == b[0];
  }

  lemma EarlierTail(a: string, b: string)
    requires a != "" && b != "" && a[0] == b[0]
    ensures Earlier(a, b) <==> Earlier(a[1..], b[1..])
  {
    if n: nat :| n <= |a| && n < |b| && a[..n] == b[..n] && (n == |a| || a[n] < b[n]) {
      if n > 0 {
        var m: nat := n - 1;
        assert a[1..][..m] == a[..n][1..] && b[1..][..m] == b[..n][1..];
        assert m <= |a[1..]| && m < |b[1..]| && (m == |a[1..]| || a[1..][m] < b[1..][m]);
      }
    }
    if m: nat :| m <= |a[1..]| && m < |b[1..]| && a[1..][..m] == b[1..][..m]
                 && (m == |a[1..]| || a[1..][m] < b[1..][m])
    {
      var n: nat := m + 1;
      assert a[..n] == [a[0]] + a[1..][..m] && b[..n] == [b[0]] + b[1..][..m];
      assert n <= |a| && n < |b| && (n == |a| || a[n] < b[n]);
    }
  }

  ghost predicate FunctionSays(tool: Json, name: string) {
    exists f: nat :: Last(tool, "function", f) && Says(tool.kids[f].value, "name", name)
  }

  /** Tools are ordered by `name`, by `function.name`, or by a digest of the whole tool. */
  lemma SortKeyExactly(tool: Json, prim: Primitives)
    ensures forall name :: Says(tool, "name", name) ==> SortKey(tool, prim) == name
    ensures !SaysText(tool, "name") ==>
              && (forall name :: FunctionSays(tool, name) ==> SortKey(tool, prim) == name)
              && ((forall name :: !FunctionSays(tool, name)) ==>
                    SortKey(tool, prim) == prim.md5(Serialize(Sem(tool, prim.number))))
  {
    hide Says, Lookup, LookupText, Sem, Serialize;
    LookupRead(tool, "name");
    NoText(tool, "name");
    LastIs(tool, "function");
    var fn := Lookup(tool, "function");
    if fn.Some? {
      LookupRead(fn.value, "name");
      var inner := LookupText(fn.value, "name");
      if inner.Some? { assert FunctionSays(tool, inner.value); }
    }
  }

  lemma NoText(v: Json, name: string)
    ensures LookupText(v, name).None? <==> !SaysText(v, name)
  {
    hide Text, Last, Lookup;
    LastIs(v, name);
  }

  // ----- breakpoints -----

  /** A breakpoint on a tool of the list, on the system prompt or a block of it, or on a message. */
  ghost predicate CachedSomewhere(v: Json) {
    || (exists k: nat, i: nat ::
          && Last(v, "tools", k) && AList(v.kids[k].value) && i < |v.kids[k].value.kids|
          && HasMember(v.kids[k].value.kids[i].value, "cache_control"))
    || (exists k: nat :: Last(v, "system", k) && Broken(v.kids[k].value))
    || (exists k: nat, i: nat ::
          && Last(v, "messages", k) && AList(v.kids[k].value) && i < |v.kids[k].value.kids|
          && Breakpoint(v.kids[k].value.kids[i].value))
  }

  /** A member `cache_control` of its own, or of an element. */
  ghost predicate Broken(x: Json) {
    || HasMember(x, "cache_control")
    || (AList(x) && exists i :: 0 <= i < |x.kids| && HasMember(x.kids[i].value, "cache_control"))
  }

  lemma BrokenRead(x: Option<Json>)
    ensures HasCacheControl(x) <==> x.Some? && Broken(x.value)
  {
    hide Lookup, HasMember;
    if x.Some? {
      HasRead(x.value, "cache_control");
      HasInBox(x.value, "cache_control");
      if AList(x.value) { MarkedRead(x.value); }
    }
  }

  lemma MarkedRead(list: Json)
    requires AList(list)
    ensures forall i :: 0 <= i < |list.kids| ==>
              (Lookup(list.kids[i].value, "cache_control").Some? <==> HasMember(list.kids[i].value, "cache_control"))
  {
    hide Lookup, HasMember;
    forall i | 0 <= i < |list.kids|
      ensures Lookup(list.kids[i].value, "cache_control").Some? <==> HasMember(list.kids[i].value, "cache_control")
    {
      HasRead(list.kids[i].value, "cache_control");
    }
  }

  ghost predicate ToolCached(v: Json) {
    var tools := Lookup(v, "tools");
    tools.Some? && AList(tools.value) &&
    exists i :: 0 <= i < |tools.value.kids| && HasMember(tools.value.kids[i].value, "cache_control")
  }

  ghost predicate MessageCached(v: Json) {
    var messages := Lookup(v, "messages");
    messages.Some? && AList(messages.value) &&
    exists i :: 0 <= i < |messages.value.kids| && Breakpoint(messages.value.kids[i].value)
  }

  lemma ToolsCachedRead(v: Json)
    ensures ToolCached(v) <==>
            var tools := Lookup(v, "tools"); tools.Some? && AList(tools.value) && Marked(Vals(tools.value.kids))
  {
    hide HasMember, Lookup;
    var tools := Lookup(v, "tools");
    if tools.Some? && AList(tools.value) {
      MarkedRead(tools.value);
      var list := Vals(tools.value.kids);
      if ToolCached(v) {
        var i :| 0 <= i < |tools.value.kids| && HasMember(tools.value.kids[i].value, "cache_control");
        assert Lookup(list[i], "cache_control").Some?;
      }
    }
  }

  lemma MessagesCachedRead(v: Json)
    ensures MessageCached(v) <==>
            var messages := Lookup(v, "messages");
            messages.Some? && AList(messages.value) &&
            exists i :: 0 <= i < |messages.value.kids| && Pinned(messages.value.kids[i].value)
  {
    hide Breakpoint, Pinned, Lookup;
    var messages := Lookup(v, "messages");
    if messages.Some? && AList(messages.value) {
      forall i | 0 <= i < |messages.value.kids|
        ensures Pinned(messages.value.kids[i].value) <==> Breakpoint(messages.value.kids[i].value)
      {
        BreakpointRead(messages.value.kids[i].value);
      }
    }
  }

  /** A breakpoint is placed only in a request that has none, wherever a client may put one. */
  lemma CacheControlExactly(v: Json)
    ensures CacheControlSet(v) <==> CachedSomewhere(v)
  {
    hide HasMember, Lookup, Breakpoint, Broken, Pinned, Marked;
    LastIs(v, "tools");
    LastIs(v, "system");
    LastIs(v, "messages");
    ToolsCachedRead(v);
    MessagesCachedRead(v);
    BrokenRead(Lookup(v, "system"));
  }

  // ----- the retrieve tool -----

  /** A tool with the retrieve tool's name, where its shape puts names. */
  ghost predicate IsRetrieve(shape: Shape, tool: Json) {
    match shape
    case OpenAiChat => FunctionNames(tool)
    case OpenAiResponses => if SaysText(tool, "name") then NamesRetrieval(tool, "name") else FunctionNames(tool)
    case _ => NamesRetrieval(tool, "name")
  }

  ghost predicate FunctionNames(tool: Json) {
    exists f: nat :: Last(tool, "function", f) && NamesRetrieval(tool.kids[f].value, "name")
  }

  lemma FunctionNamesRead(tool: Json)
    ensures RetrieveNamed(FunctionName(tool)) <==> FunctionNames(tool)
  {
    hide NamesRetrieval, RetrieveNamed, LookupText, Lookup;
    LastIs(tool, "function");
    var fn := Lookup(tool, "function");
    if fn.Some? { RetrievalRead(fn.value, "name"); } else { assert !RetrieveNamed(None) by { NoName(); } }
  }

  lemma NoName()
    ensures !RetrieveNamed(None)
  {
  }

  lemma AnnouncesExactly(shape: Shape, tool: Json)
    ensures Announces(shape, tool) <==> IsRetrieve(shape, tool)
  {
    hide NamesRetrieval, RetrieveNamed, LookupText, FunctionName;
    RetrievalRead(tool, "name");
    FunctionNamesRead(tool);
    NoText(tool, "name");
  }

  // ----- the injected tool, member by member -----

  /** An object with exactly these members. */
  predicate HasExactly(v: Val, keys: seq<string>) {
    v.Obj? && |v.entries| == |keys| && forall i :: 0 <= i < |keys| ==> v.entries[i].key == keys[i]
  }

  /** A parameter of type string with this description. */
  predicate StringProperty(v: Option<Val>, description: string) {
    && v.Some? && HasExactly(v.value, ["description", "type"])
    && Get(v.value, "description") == Some(Txt(description)) && Get(v.value, "type") == Some(Txt("string"))
  }

  /** A schema with the required string `hash` and the optional string `query`. */
  predicate SchemaRight(v: Option<Val>, w: Wording) {
    && v.Some? && HasExactly(v.value, ["properties", "required", "type"])
    && Get(v.value, "type") == Some(Txt("object")) && Get(v.value, "required") == Some(Arr([Txt("hash")]))
    && var properties := Get(v.value, "properties");
       && properties.Some? && HasExactly(properties.value, ["hash", "query"])
       && StringProperty(Get(properties.value, "hash"), w.hash)
       && StringProperty(Get(properties.value, "query"), w.query)
  }

  /** Name, description and schema, the last under the given key. */
  predicate ToolRight(v: Val, schema: string, w: Wording) {
    && Get(v, "name") == Some(Txt("headroom_retrieve")) && Get(v, "description") == Some(Txt(w.tool))
    && SchemaRight(Get(v, schema), w)
  }

  lemma TwoRead(a: Entry, b: Entry)
    requires a.key != b.key
    ensures Get(Obj([a, b]), a.key) == Some(a.val) && Get(Obj([a, b]), b.key) == Some(b.val)
  {
    Answers.TwoMembers(a, b, a.key);
    Answers.TwoMembers(a, b, b.key);
  }

  lemma ThreeRead(a: Entry, b: Entry, c: Entry)
    requires a.key != b.key && a.key != c.key && b.key != c.key
    ensures var v := Obj([a, b, c]);
            Get(v, a.key) == Some(a.val) && Get(v, b.key) == Some(b.val) && Get(v, c.key) == Some(c.val)
  {
    hide Get;
    Answers.ThreeMembers(a, b, c, a.key);
    Answers.ThreeMembers(a, b, c, b.key);
    Answers.ThreeMembers(a, b, c, c.key);
    TwoRead(b, c);
  }

  lemma FourRead(a: Entry, b: Entry, c: Entry, d: Entry)
    requires a.key != b.key && a.key != c.key && a.key != d.key && b.key != c.key && b.key != d.key && c.key != d.key
    ensures var v := Obj([a, b, c, d]);
            && Get(v, a.key) == Some(a.val) && Get(v, b.key) == Some(b.val) && Get(v, c.key) == Some(c.val)
            && Get(v, d.key) == Some(d.val)
  {
    assert [a, b, c, d][1..] == [b, c, d];
    ThreeRead(b, c, d);
  }

  lemma PropertyRight(text: string)
    ensures StringProperty(Some(Property(text)), text)
  {
    hide Get;
    TwoRead(Entry("description", Txt(text)), Entry("type", Txt("string")));
  }

  lemma ParametersRight(w: Wording)
    ensures SchemaRight(Some(Parameters(w)), w)
  {
    hide Get, StringProperty, Property;
    PropertyRight(w.hash);
    PropertyRight(w.query);
    var hash, query := Entry("hash", Property(w.hash)), Entry("query", Property(w.query));
    TwoRead(hash, query);
    var required := Entry("required", Arr([Txt("hash")]));
    ThreeRead(Entry("properties", Obj([hash, query])), required, Entry("type", Txt("object")));
  }

  /** The injected tool: for chat inside `function`, for Anthropic with `input_schema`. */
  lemma RetrieveExactly(shape: Shape, w: Wording)
    ensures var v := RetrieveTool(shape, w);
            match shape
            case OpenAiChat =>
              && HasExactly(v, ["function", "type"]) && Get(v, "type") == Some(Txt("function"))
              && var fn := Get(v, "function");
                 fn.Some? && HasExactly(fn.value, ["description", "name", "parameters"])
                 && ToolRight(fn.value, "parameters", w)
            case OpenAiResponses =>
              && HasExactly(v, ["description", "name", "parameters", "type"])
              && Get(v, "type") == Some(Txt("function")) && ToolRight(v, "parameters", w)
            case _ => HasExactly(v, ["description", "input_schema", "name"]) && ToolRight(v, "input_schema", w)
  {
    hide Get, SchemaRight, Parameters;
    ParametersRight(w);
    var d, n := Entry("description", Txt(w.tool)), Entry("name", Txt(RETRIEVE));
    var p, s := Entry("parameters", Parameters(w)), Entry("input_schema", Parameters(w));
    var f := Entry("type", Txt("function"));
    match shape {
      case OpenAiChat =>
        ThreeRead(d, n, p);
        TwoRead(Entry("function", Obj([d, n, p])), f);
      case OpenAiResponses => FourRead(d, n, p, f);
      case _ => ThreeRead(d, s, n);
    }
  }

  // ----- the cache key -----

  /** The first item of the list whose `role` is `system`. */
  ghost predicate FirstSystemAt(kids: seq<Kid>, i: nat) {
    && i < |kids| && Says(kids[i].value, "role", "system")
    && forall j :: 0 <= j < i ==> !Says(kids[j].value, "role", "system")
  }

  /** What a member means; `null` when it is missing. */
  ghost predicate MemberMeans(v: Json, name: string, number: string -> string, x: Val) {
    if HasMember(v, name) then exists k: nat :: Last(v, name, k) && x == Sem(v.kids[k].value, number) else x == NULL
  }

  /** The content of the first system item of the list under `name`. */
  ghost predicate SystemIn(v: Json, name: string, number: string -> string, x: Val) {
    exists k: nat, i: nat ::
      && Last(v, name, k) && AList(v.kids[k].value) && FirstSystemAt(v.kids[k].value.kids, i)
      && MemberMeans(v.kids[k].value.kids[i].value, "content", number, x)
  }

  /** What the cache key takes for the system prompt. */
  ghost predicate SystemIs(v: Json, shape: Shape, number: string -> string, x: Val) {
    if shape == OpenAiResponses && HasMember(v, "instructions") then MemberMeans(v, "instructions", number, x)
    else if shape == OpenAiResponses && (exists y :: SystemIn(v, "input", number, y))
      then SystemIn(v, "input", number, x)
    else if exists y :: SystemIn(v, "messages", number, y) then SystemIn(v, "messages", number, x)
    else x == NULL
  }

  ghost predicate ModelIs(v: Json, model: string) {
    if SaysText(v, "model") then Says(v, "model", model) else model == ""
  }

  lemma MeansRead(v: Json, name: string, number: string -> string, x: Val)
    ensures MemberMeans(v, name, number, x) <==>
            x == if Lookup(v, name).Some? then Sem(Lookup(v, name).value, number) else NULL
  {
    hide Lookup, Sem;
    LastIs(v, name);
  }

  lemma {:induction false} FirstRead(kids: seq<Kid>, number: string -> string)
    ensures var r := FirstSystemIn(kids, number);
            && (r.None? ==> forall i: nat :: !FirstSystemAt(kids, i))
            && (r.Some? ==> exists i: nat ::
                  FirstSystemAt(kids, i) && i < |kids| && MemberMeans(kids[i].value, "content", number, r.value)
                  && forall j: nat :: FirstSystemAt(kids, j) ==> j == i)
    decreases |kids|
  {
    hide Says, MemberMeans, Lookup, LookupText, Sem;
    if kids != [] {
      LookupRead(kids[0].value, "role");
      if LookupText(kids[0].value, "role") == Some("system") {
        var content := Lookup(kids[0].value, "content");
        MeansRead(kids[0].value, "content", number, if content.None? then NULL else Sem(content.value, number));
        assert FirstSystemAt(kids, 0);
        forall j: nat | FirstSystemAt(kids, j) ensures j == 0 {}
      } else {
        FirstRead(kids[1..], number);
        forall j: nat ensures FirstSystemAt(kids, j) <==> j > 0 && FirstSystemAt(kids[1..], j - 1) {
          FirstLater(kids, j);
        }
        var r := FirstSystemIn(kids, number);
        if r.Some? {
          var i: nat :| FirstSystemAt(kids[1..], i) && MemberMeans(kids[1..][i].value, "content", number, r.value)
                        && forall j: nat :: FirstSystemAt(kids[1..], j) ==> j == i;
          assert kids[1..][i] == kids[i + 1] && FirstSystemAt(kids, i + 1);
        }
      }
    }
  }

  lemma FirstLater(kids: seq<Kid>, j: nat)
    requires kids != [] && !Says(kids[0].value, "role", "system")
    ensures FirstSystemAt(kids, j) <==> j > 0 && FirstSystemAt(kids[1..], j - 1)
  {
    hide Says;
    if j > 0 && j < |kids| {
      assert kids[1..][j - 1] == kids[j];
      assert forall i :: 0 <= i < j - 1 ==> kids[1..][i] == kids[i + 1];
      assert (forall i :: 0 <= i < j ==> !Says(kids[i].value, "role", "system")) <==>
             (forall i :: 0 <= i < j - 1 ==> !Says(kids[1..][i].value, "role", "system")) by {
        forall i | 0 < i < j ensures kids[i] == kids[1..][i - 1] {}
      }
    }
  }

  lemma SystemInRead(v: Json, name: string, number: string -> string, x: Val)
    ensures SystemIn(v, name, number, x) <==> FirstSystem(Lookup(v, name), number) == Some(x)
  {
    hide Lookup, MemberMeans, FirstSystemAt, FirstSystemIn;
    LastIs(v, name);
    var items := Lookup(v, name);
    if items.Some? && AList(items.value) {
      FirstRead(items.value.kids, number);
      SystemFrom(v, name, number, x, items.value);
      var r, kids := FirstSystemIn(items.value.kids, number), items.value.kids;
      if r.Some? {
        var i: nat :| FirstSystemAt(kids, i) && i < |kids| && MemberMeans(kids[i].value, "content", number, r.value)
                      && forall j: nat :: FirstSystemAt(kids, j) ==> j == i;
        OneMeaning(kids[i].value, "content", number);
      }
    }
  }

  lemma OneMeaning(v: Json, name: string, number: string -> string)
    ensures forall x, y :: MemberMeans(v, name, number, x) && MemberMeans(v, name, number, y) ==> x == y
  {
    hide MemberMeans;
    forall x ensures MemberMeans(v, name, number, x) <==>
                     x == if Lookup(v, name).Some? then Sem(Lookup(v, name).value, number) else NULL
    {
      MeansRead(v, name, number, x);
    }
  }

  lemma SystemFrom(v: Json, name: string, number: string -> string, x: Val, list: Json)
    requires Lookup(v, name) == Some(list) && AList(list)
    ensures SystemIn(v, name, number, x) <==> exists i: nat ::
              FirstSystemAt(list.kids, i) && MemberMeans(list.kids[i].value, "content", number, x)
  {
    hide Lookup, MemberMeans, FirstSystemAt;
    LastIs(v, name);
  }

  lemma SystemExactly(v: Json, shape: Shape, number: string -> string, x: Val)
    ensures SystemIs(v, shape, number, x) <==> x == SystemValue(v, shape, number)
  {
    hide MemberMeans, SystemIn, FirstSystem, Lookup, Sem;
    HasRead(v, "instructions");
    MeansRead(v, "instructions", number, x);
    forall y ensures SystemIn(v, "input", number, y) <==> FirstSystem(Lookup(v, "input"), number) == Some(y) {
      SystemInRead(v, "input", number, y);
    }
    forall y ensures SystemIn(v, "messages", number, y) <==> FirstSystem(Lookup(v, "messages"), number) == Some(y) {
      SystemInRead(v, "messages", number, y);
    }
  }

  /** The cache key is derived from the model, the system prompt and the tools of the request. */
  lemma DerivedKeyExactly(v: Json, shape: Shape, prim: Primitives, model: string, system: Val, tools: Val)
    requires ModelIs(v, model) && SystemIs(v, shape, prim.number, system) && MemberMeans(v, "tools", prim.number, tools)
    ensures DerivedKey(v, shape, prim) == prim.cacheKey(model, Serialize(system), Serialize(tools))
  {
    hide SystemIs, SystemValue, MemberMeans, Says, Lookup, LookupText, Sem, Serialize;
    LookupRead(v, "model");
    NoText(v, "model");
    SystemExactly(v, shape, prim.number, system);
    MeansRead(v, "tools", prim.number, tools);
  }
}
