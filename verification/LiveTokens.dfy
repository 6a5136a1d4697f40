/** Which string tokens the planner offers for compression, told from the members of the request alone. */
module LiveTokens {
  import opened Prelude
  import opened Json
  import opened JsonEdits
  import opened Values
  import opened LiveZone
  import Answers

  // ----- members -----

  /** The only member named `name` is the `k`-th. */
  predicate Sole(v: Json, name: string, k: nat) {
    && v.Box? && v.isObj && k < |v.kids| && Text(v.kids[k].key) == name
    && forall j :: 0 <= j < |v.kids| && j != k ==> Text(v.kids[j].key) != name
  }

  predicate Missing(v: Json, name: string) {
    v.Box? && v.isObj && forall j :: 0 <= j < |v.kids| ==> Text(v.kids[j].key) != name
  }

  predicate AList(v: Json) { v.Box? && !v.isObj }

  /** An object with at most one member of that name. */
  ghost predicate NoTwo(v: Json, name: string) { Missing(v, name) || exists k: nat :: Sole(v, name, k) }

  /** The last member named `name` is the `k`-th: the one a parsed map keeps. */
  predicate Last(v: Json, name: string, k: nat) {
    && v.Box? && v.isObj && k < |v.kids| && Text(v.kids[k].key) == name
    && forall j :: k < j < |v.kids| ==> Text(v.kids[j].key) != name
  }

  /** The member `name` is a string that spells `text`. */
  ghost predicate Says(v: Json, name: string, text: string) {
    exists k: nat :: Last(v, name, k) && v.kids[k].value.Str? && Text(v.kids[k].value.body) == text
  }

  ghost predicate SaysText(v: Json, name: string) {
    exists k: nat :: Last(v, name, k) && v.kids[k].value.Str?
  }

  /** The member is missing or `null`. */
  ghost predicate Without(v: Json, name: string) {
    v.Box? && v.isObj && forall k: nat :: Last(v, name, k) ==> v.kids[k].value == Scalar("null")
  }

  ghost predicate TextOrNothing(v: Json, name: string) { SaysText(v, name) || Without(v, name) }

  // ----- the readers -----

  lemma LastRead(v: Json, name: string, k: nat)
    ensures Last(v, name, k) <==> KeyIndex(v, name) == Some(k)
  {
    hide Text;
    if v.Box? && v.isObj {
      var keys := Keys(v.kids);
      forall j | 0 <= j < |v.kids| ensures keys[j] == Text(v.kids[j].key) {}
      var r := KeyIndex(v, name);
      if Last(v, name, k) {
        assert keys[k] == name && name in keys;
      }
    }
  }

  lemma {:induction false} CountNone(s: seq<string>, x: string)
    requires x !in s
    ensures multiset(s)[x] == 0
  {
  }

  lemma CountOne(s: seq<string>, x: string, k: nat)
    requires k < |s| && s[k] == x
    ensures multiset(s)[x] <= 1 <==> forall j :: 0 <= j < |s| && j != k ==> s[j] != x
  {
    assert s == s[..k] + [x] + s[k + 1..];
    var rest := s[..k] + s[k + 1..];
    assert multiset(s) == multiset(rest) + multiset{x};
    if forall j :: 0 <= j < |s| && j != k ==> s[j] != x {
      assert x !in rest;
    } else {
      var j :| 0 <= j < |s| && j != k && s[j] == x;
      assert rest[if j < k then j else j - 1] == x;
      assert x in multiset(rest);
    }
  }

  lemma NoTwoRead(v: Json, name: string)
    requires v.Box? && v.isObj
    ensures NoTwo(v, name) <==> multiset(Keys(v.kids))[name] <= 1
  {
    hide Text;
    var keys := Keys(v.kids);
    forall j | 0 <= j < |v.kids| ensures keys[j] == Text(v.kids[j].key) {}
    if name in keys {
      var k :| 0 <= k < |keys| && keys[k] == name;
      CountOne(keys, name, k);
      if multiset(keys)[name] <= 1 { assert Sole(v, name, k); }
      if NoTwo(v, name) {
        var i: nat :| Sole(v, name, i);
        assert i == k;
      }
    } else {
      CountNone(keys, name);
      assert Missing(v, name);
    }
  }

  lemma FieldRead(v: Json, name: string)
    requires v.Box? && v.isObj
    ensures Field(v, name).None? <==> Without(v, name)
    ensures TextFieldOk(v, name) <==> TextOrNothing(v, name)
    ensures forall text :: TextField(v, name) == Some(text) <==> Says(v, name, text)
    ensures TextField(v, name).Some? <==> SaysText(v, name)
    ensures forall k: nat :: Field(v, name) == Some(k) <==> Last(v, name, k) && v.kids[k].value != Scalar("null")
  {
    hide Text;
    forall k: nat ensures Last(v, name, k) <==> KeyIndex(v, name) == Some(k) { LastRead(v, name, k); }
  }

  lemma SoleRead(v: Json, name: string, k: nat)
    ensures Sole(v, name, k) <==> NoTwo(v, name) && Last(v, name, k)
  {
    hide Text;
    if NoTwo(v, name) && Last(v, name, k) {
      var i: nat :| Sole(v, name, i);
      assert i == k;
    }
  }

  lemma LookupRead(v: Json, name: string)
    ensures forall x :: Lookup(v, name) == Some(x) <==> exists k: nat :: Last(v, name, k) && v.kids[k].value == x
    ensures forall text :: LookupText(v, name) == Some(text) <==> Says(v, name, text)
  {
    hide Text, Last;
    forall k: nat ensures Last(v, name, k) <==> KeyIndex(v, name) == Some(k) { LastRead(v, name, k); }
  }

  lemma ListRead(v: Json, name: string, k: nat)
    ensures ListField(v, name) == Some(k) <==> Sole(v, name, k) && AList(v.kids[k].value)
  {
    hide Text, Last, Sole, NoTwo, KeyIndex, Keys;
    SoleRead(v, name, k);
    if v.Box? && v.isObj {
      NoTwoRead(v, name);
      FieldRead(v, name);
    } else {
      NotObject(v, name, k);
    }
  }

  lemma NotObject(v: Json, name: string, k: nat)
    requires !(v.Box? && v.isObj)
    ensures !Sole(v, name, k) && !Last(v, name, k) && !NoTwo(v, name)
  {
  }

  // ----- collected positions -----

  lemma PrefixedIn(k: nat, ps: seq<Path>, r: Path)
    ensures r in Prefixed([k], ps) <==> r != [] && r[0] == k && r[1..] in ps
  {
    var all := Prefixed([k], ps);
    if r in all {
      var i :| 0 <= i < |all| && all[i] == r;
      assert r == [k] + ps[i] && r[1..] == ps[i];
    }
    if r != [] && r[0] == k && r[1..] in ps {
      var i :| 0 <= i < |ps| && ps[i] == r[1..];
      assert all[i] == [k] + r[1..] == r;
    }
  }

  lemma InsideIn(v: Json, k: Option<nat>, f: Json -> seq<Path>, r: Path)
    requires k.Some? ==> v.Box? && k.value < |v.kids|
    ensures r in Inside(v, k, f) <==> k.Some? && r != [] && r[0] == k.value && r[1..] in f(v.kids[k.value].value)
  {
    if k.Some? { PrefixedIn(k.value, f(v.kids[k.value].value), r); }
  }

  lemma {:induction false} EachIn(kids: seq<Kid>, from: nat, f: Json -> seq<Path>, r: Path)
    ensures r in Each(kids, from, f) <==> r != [] && from <= r[0] < |kids| && r[1..] in f(kids[r[0]].value)
    decreases |kids| - from
  {
    hide Prefixed;
    if from < |kids| {
      PrefixedIn(from, f(kids[from].value), r);
      EachIn(kids, from + 1, f, r);
    }
  }

  // ----- messages -----

  ghost predicate GoodHeader(m: Json) {
    && m.Box? && m.isObj && NoTwo(m, "role") && NoTwo(m, "content") && NoTwo(m, "name") && NoTwo(m, "tool_call_id")
    && TextOrNothing(m, "role") && TextOrNothing(m, "name") && TextOrNothing(m, "tool_call_id")
  }

  ghost predicate GoodBlock(b: Json) {
    && b.Box? && b.isObj && NoTwo(b, "type") && NoTwo(b, "content") && NoTwo(b, "text") && NoTwo(b, "cache_control")
    && TextOrNothing(b, "type")
  }

  ghost predicate GoodItem(b: Json) {
    && b.Box? && b.isObj && NoTwo(b, "type") && NoTwo(b, "call_id") && NoTwo(b, "output")
    && TextOrNothing(b, "type") && TextOrNothing(b, "call_id")
  }

  lemma HeaderRead(m: Json)
    ensures HeaderOk(m) <==> GoodHeader(m)
  {
    hide NoTwo, TextOrNothing, Keys, TextFieldOk;
    if m.Box? && m.isObj {
      NoTwoRead(m, "role");
      NoTwoRead(m, "content");
      NoTwoRead(m, "name");
      NoTwoRead(m, "tool_call_id");
      FieldRead(m, "role");
      FieldRead(m, "name");
      FieldRead(m, "tool_call_id");
    }
  }

  lemma BlockRead(b: Json)
    ensures BlockOk(b) <==> GoodBlock(b)
  {
    hide NoTwo, TextOrNothing, Keys, TextFieldOk;
    if b.Box? && b.isObj {
      NoTwoRead(b, "type");
      NoTwoRead(b, "content");
      NoTwoRead(b, "text");
      NoTwoRead(b, "cache_control");
      FieldRead(b, "type");
    }
  }

  lemma ItemRead(b: Json)
    ensures ItemOk(b) <==> GoodItem(b)
  {
    hide NoTwo, TextOrNothing, Keys, TextFieldOk;
    if b.Box? && b.isObj {
      NoTwoRead(b, "type");
      NoTwoRead(b, "call_id");
      NoTwoRead(b, "output");
      FieldRead(b, "type");
      FieldRead(b, "call_id");
    }
  }

  /** The member `name` holds the name of the retrieve tool. */
  ghost predicate NamesRetrieval(v: Json, name: string) {
    exists text :: Says(v, name, text) && Answers.RetrievalName(text)
  }

  lemma RetrievalRead(v: Json, name: string)
    ensures RetrieveNamed(LookupText(v, name)) <==> NamesRetrieval(v, name)
  {
    hide Says, RetrieveNamed, Answers.RetrievalName;
    LookupRead(v, name);
    Answers.NameExactly(LookupText(v, name));
  }

  /** A call with this id of a function with the retrieve tool's name. */
  ghost predicate CallsUnder(call: Json, id: string) {
    Says(call, "id", id) && exists f: nat :: Last(call, "function", f) && NamesRetrieval(call.kids[f].value, "name")
  }

  /** Some entry of the `tool_calls` of a message is such a call. */
  ghost predicate AsksUnder(m: Json, id: string) {
    exists k: nat, i: nat ::
      && Last(m, "tool_calls", k) && AList(m.kids[k].value) && i < |m.kids[k].value.kids|
      && CallsUnder(m.kids[k].value.kids[i].value, id)
  }

  lemma LastIs(v: Json, name: string)
    ensures Lookup(v, name).None? ==> forall k: nat :: !Last(v, name, k)
    ensures Lookup(v, name).Some? ==>
              exists k: nat :: Last(v, name, k) && Lookup(v, name) == Some(v.kids[k].value)
                               && forall j: nat :: Last(v, name, j) ==> j == k
  {
    hide Text, Last;
    forall k: nat ensures Last(v, name, k) <==> KeyIndex(v, name) == Some(k) { LastRead(v, name, k); }
    if Lookup(v, name).Some? { assert Last(v, name, KeyIndex(v, name).value); }
  }

  lemma CallRead(call: Json, id: string)
    ensures RetrieveCallIn(call, id) <==> CallsUnder(call, id)
  {
    hide Says, RetrieveNamed, NamesRetrieval, LookupText, Lookup;
    LookupRead(call, "id");
    LastIs(call, "function");
    var fn := Lookup(call, "function");
    if fn.Some? { RetrievalRead(fn.value, "name"); }
  }

  lemma CallsRead(m: Json, id: string)
    ensures RetrieveCallOf(m, id) <==> AsksUnder(m, id)
  {
    hide CallsUnder, RetrieveCallIn, Lookup;
    LastIs(m, "tool_calls");
    var calls := Lookup(m, "tool_calls");
    if calls.Some? && AList(calls.value) {
      forall i | 0 <= i < |calls.value.kids|
        ensures RetrieveCallIn(calls.value.kids[i].value, id) <==> CallsUnder(calls.value.kids[i].value, id)
      {
        CallRead(calls.value.kids[i].value, id);
      }
    }
    if RetrieveCallOf(m, id) {
      var i :| 0 <= i < |calls.value.kids| && RetrieveCallIn(calls.value.kids[i].value, id);
      var k: nat :| Last(m, "tool_calls", k) && calls == Some(m.kids[k].value);
      assert CallsUnder(m.kids[k].value.kids[i].value, id);
    }
  }

  /** A tool result that is neither the retrieve tool's by name nor the answer to a retrieval call. */
  ghost predicate Result(messages: seq<Kid>, m: Json) {
    && GoodHeader(m) && Says(m, "role", "tool") && !NamesRetrieval(m, "name")
    && forall id, j :: 0 <= j < |messages| && Says(m, "tool_call_id", id) ==> !AsksUnder(messages[j].value, id)
  }

  ghost predicate User(m: Json) { GoodHeader(m) && Says(m, "role", "user") }

  lemma FieldText(m: Json, name: string)
    requires TextFieldOk(m, name)
    ensures TextField(m, name) == LookupText(m, name)
  {
  }

  lemma ResultRead(messages: seq<Kid>, m: Json)
    ensures LiveTool(messages, m) <==> Result(messages, m)
  {
    hide GoodHeader, Says, NamesRetrieval, AsksUnder, RetrieveCallOf, RetrieveNamed, TextField, LookupText;
    HeaderRead(m);
    if HeaderOk(m) {
      FieldText(m, "role");
      FieldText(m, "name");
      FieldText(m, "tool_call_id");
      LookupRead(m, "role");
      RetrievalRead(m, "name");
      LookupRead(m, "tool_call_id");
      var id := TextField(m, "tool_call_id");
      if id.Some? {
        forall j | 0 <= j < |messages|
          ensures RetrieveCallOf(messages[j].value, id.value) <==> AsksUnder(messages[j].value, id.value)
        {
          CallsRead(messages[j].value, id.value);
        }
      }
    }
  }

  lemma UserRead(m: Json)
    ensures LiveUser(m) <==> User(m)
  {
    hide GoodHeader, Says, TextField, LookupText;
    HeaderRead(m);
    if HeaderOk(m) {
      FieldText(m, "role");
      LookupRead(m, "role");
    }
  }

  // ----- OpenAI chat -----

  /** The member is the `k`-th, and a string. */
  predicate StringAt(v: Json, name: string, k: nat) { Last(v, name, k) && v.kids[k].value.Str? }

  ghost predicate LatestResult(messages: seq<Kid>, floor: nat, i: nat) {
    floor <= i < |messages| && Result(messages, messages[i].value) &&
    forall j :: i < j < |messages| ==> !Result(messages, messages[j].value)
  }

  ghost predicate LatestUser(messages: seq<Kid>, floor: nat, i: nat) {
    floor <= i < |messages| && User(messages[i].value) && forall j :: i < j < |messages| ==> !User(messages[j].value)
  }

  /** The content when it is a string, or the text of a part. */
  ghost predicate UserString(m: Json, q: Path) {
    || (|q| == 1 && StringAt(m, "content", q[0]))
    || (|q| == 3 && Last(m, "content", q[0]) && AList(m.kids[q[0]].value) && q[1] < |m.kids[q[0]].value.kids| &&
        var part := m.kids[q[0]].value.kids[q[1]].value;
        GoodBlock(part) && Says(part, "type", "text") && StringAt(part, "text", q[2]))
  }

  /**
   * The candidates of a chat request: the content of the last live tool result, and, opted in, the
   * texts of the last user message, both at or above the floor.
   */
  ghost predicate ChatToken(v: Json, floor: nat, userText: bool, p: Path) {
    && |p| >= 3 && Sole(v, "messages", p[0]) && AList(v.kids[p[0]].value) && p[1] < |v.kids[p[0]].value.kids|
    && var messages := v.kids[p[0]].value.kids;
       || (|p| == 3 && LatestResult(messages, floor, p[1]) && StringAt(messages[p[1]].value, "content", p[2]))
       || (userText && LatestUser(messages, floor, p[1]) && UserString(messages[p[1]].value, p[2..]))
  }

  lemma LeafIn(m: Json, q: Path)
    requires m.Box? && m.isObj
    ensures q in Inside(m, Field(m, "content"), Leaf) <==> |q| == 1 && StringAt(m, "content", q[0])
    ensures q in Inside(m, Field(m, "text"), Leaf) <==> |q| == 1 && StringAt(m, "text", q[0])
    ensures q in Inside(m, Field(m, "output"), Leaf) <==> |q| == 1 && StringAt(m, "output", q[0])
  {
    hide Text, Last, Field, Inside;
    FieldRead(m, "content");
    FieldRead(m, "text");
    FieldRead(m, "output");
    InsideIn(m, Field(m, "content"), Leaf, q);
    InsideIn(m, Field(m, "text"), Leaf, q);
    InsideIn(m, Field(m, "output"), Leaf, q);
    if q != [] { assert q[1..] == [] <==> |q| == 1; }
  }

  lemma PartIn(part: Json, q: Path)
    ensures q in PartPaths(part) <==>
            GoodBlock(part) && Says(part, "type", "text") && |q| == 1 && StringAt(part, "text", q[0])
  {
    hide GoodBlock, Says, StringAt, TextField, Inside, Field;
    BlockRead(part);
    if BlockOk(part) {
      FieldRead(part, "type");
      LeafIn(part, q);
    }
  }

  lemma UserIn(m: Json, q: Path)
    requires m.Box? && m.isObj
    ensures q in Inside(m, Field(m, "content"), UserContentPaths) <==> UserString(m, q)
  {
    hide GoodBlock, Says, TextField, Inside, Field, Last, PartPaths, Each;
    FieldRead(m, "content");
    InsideIn(m, Field(m, "content"), UserContentPaths, q);
    if Field(m, "content").Some? {
      var content := m.kids[Field(m, "content").value].value;
      if q != [] {
        if AList(content) {
          EachIn(content.kids, 0, PartPaths, q[1..]);
          if |q| >= 2 && q[1] < |content.kids| { PartIn(content.kids[q[1]].value, q[1..][1..]); }
        } else {
          assert q[1..] == [] <==> |q| == 1;
        }
      }
    }
  }

  lemma OneIn(list: Json, i: Option<nat>, f: Json -> seq<Path>, q: Path)
    requires AList(list) && (i.Some? ==> i.value < |list.kids|)
    ensures q in OneMessage(list, i, f) <==>
            i.Some? && q != [] && q[0] == i.value &&
            var m := list.kids[i.value].value; q[1..] in Inside(m, Field(m, "content"), f)
  {
    hide Inside;
    if i.Some? {
      var m := list.kids[i.value].value;
      PrefixedIn(i.value, Inside(m, Field(m, "content"), f), q);
    }
  }

  lemma LatestRead(messages: seq<Kid>, floor: nat, i: nat)
    ensures LastWhere(messages, floor, ToolFinder(messages)) == Some(i) <==> LatestResult(messages, floor, i)
    ensures LastWhere(messages, floor, LiveUser) == Some(i) <==> LatestUser(messages, floor, i)
  {
    hide LastWhere, Result, User, LiveTool, LiveUser;
    forall j | 0 <= j < |messages|
      ensures LiveTool(messages, messages[j].value) <==> Result(messages, messages[j].value)
      ensures LiveUser(messages[j].value) <==> User(messages[j].value)
    {
      ResultRead(messages, messages[j].value);
      UserRead(messages[j].value);
    }
  }

  lemma ChatListIn(list: Json, floor: nat, userText: bool, q: Path)
    requires AList(list)
    ensures q in ChatListPaths(list, floor, userText) <==>
            && |q| >= 2 && q[0] < |list.kids|
            && (|| (|q| == 2 && LatestResult(list.kids, floor, q[0])
                    && StringAt(list.kids[q[0]].value, "content", q[1]))
                || (userText && LatestUser(list.kids, floor, q[0]) && UserString(list.kids[q[0]].value, q[1..])))
  {
    hide Result, User, LastWhere, OneMessage, StringAt, UserString, Inside, Field;
    var tool := LastWhere(list.kids, floor, ToolFinder(list.kids));
    var user := LastWhere(list.kids, floor, LiveUser);
    OneIn(list, tool, Leaf, q);
    OneIn(list, user, UserContentPaths, q);
    if q != [] && q[0] < |list.kids| {
      LatestRead(list.kids, floor, q[0]);
      var m := list.kids[q[0]].value;
      if tool == Some(q[0]) || user == Some(q[0]) {
        Headed(list.kids, m);
        LeafIn(m, q[1..]);
        UserIn(m, q[1..]);
        UserLength(m, q[1..]);
      }
    }
  }

  lemma Headed(messages: seq<Kid>, m: Json)
    ensures Result(messages, m) || User(m) ==> m.Box? && m.isObj
  {
  }

  lemma UserLength(m: Json, q: Path)
    ensures UserString(m, q) ==> |q| >= 1
  {
  }

  /** A position of a chat request is a candidate exactly when it is such a token. */
  lemma ChatExactly(v: Json, floor: nat, userText: bool, p: Path)
    ensures p in SlotPaths(OpenAiChat, v, floor, userText) <==> ChatToken(v, floor, userText, p)
  {
    hide Sole, LatestResult, LatestUser, StringAt, UserString, ChatListPaths, ListField;
    var k := ListField(v, "messages");
    if p != [] { ListRead(v, "messages", p[0]); }
    if k.Some? {
      ListRead(v, "messages", k.value);
      var list := v.kids[k.value].value;
      PrefixedIn(k.value, ChatListPaths(list, floor, userText), p);
      if p != [] {
        ChatListIn(list, floor, userText, p[1..]);
        if |p| >= 3 { assert p[1..][0] == p[1] && p[1..][1] == p[2] && p[1..][1..] == p[2..]; }
      }
    }
  }

  // ----- OpenAI Responses -----

  /** The items: `input`, or `messages` when that is missing or `null`; no member of either name is repeated. */
  ghost predicate ItemsAt(v: Json, k: nat) {
    && v.Box? && v.isObj && NoTwo(v, "input") && NoTwo(v, "messages")
    && (Last(v, "input", k) || (Without(v, "input") && Last(v, "messages", k)))
    && v.kids[k].value != Scalar("null")
  }

  /** The member `instructions` holds a text or a list that is not empty. */
  ghost predicate Instructed(v: Json) {
    exists k: nat ::
      && Last(v, "instructions", k)
      && var x := v.kids[k].value;
         (x.Str? && Text(x.body) != "") || (AList(x) && x.kids != [])
  }

  /** An item of `input`, or of `messages` without `input`, calls the retrieve tool under this id. */
  ghost predicate ItemAsks(v: Json, id: string) {
    exists k: nat, i: nat ::
      && (Last(v, "input", k) || (Missing(v, "input") && Last(v, "messages", k)))
      && AList(v.kids[k].value) && i < |v.kids[k].value.kids|
      && ItemCalls(v.kids[k].value.kids[i].value, id)
  }

  ghost predicate ItemCalls(item: Json, id: string) {
    Says(item, "type", "function_call") && NamesRetrieval(item, "name") && Says(item, "call_id", id)
  }

  /** An item that holds the output of a call which was no retrieval. */
  ghost predicate OutputItem(v: Json, item: Json) {
    && GoodItem(item)
    && (|| Says(item, "type", "function_call_output") || Says(item, "type", "local_shell_call_output")
        || Says(item, "type", "apply_patch_call_output"))
    && forall id :: Says(item, "call_id", id) ==> !ItemAsks(v, id)
  }

  /** The candidates of a Responses request; the floor counts the instructions as one entry. */
  ghost predicate ResponsesToken(v: Json, floor: nat, p: Path) {
    && |p| == 3 && ItemsAt(v, p[0]) && AList(v.kids[p[0]].value) && p[1] < |v.kids[p[0]].value.kids|
    && p[1] + (if Instructed(v) then 1 else 0) >= floor
    && OutputItem(v, v.kids[p[0]].value.kids[p[1]].value)
    && StringAt(v.kids[p[0]].value.kids[p[1]].value, "output", p[2])
  }

  lemma ItemsRead(v: Json, k: nat)
    ensures ItemsField(v) == Some(k) <==> ItemsAt(v, k)
  {
    hide NoTwo, Without, Last, Field, Keys;
    if v.Box? && v.isObj {
      NoTwoRead(v, "input");
      NoTwoRead(v, "messages");
      FieldRead(v, "input");
      FieldRead(v, "messages");
      NullField(v, "input", k);
    }
  }

  lemma NullField(v: Json, name: string, k: nat)
    ensures Last(v, name, k) && Without(v, name) ==> v.kids[k].value == Scalar("null")
  {
    hide Text;
  }

  lemma InstructedRead(v: Json)
    ensures PrefixLen(v) == if Instructed(v) then 1 else 0
  {
    hide Text, Lookup;
    LastIs(v, "instructions");
  }

  lemma ItemCallRead(item: Json, id: string)
    ensures ResponsesRetrieveItem(item, id) <==> ItemCalls(item, id)
  {
    hide Says, RetrieveNamed, NamesRetrieval, LookupText;
    LookupRead(item, "type");
    RetrievalRead(item, "name");
    LookupRead(item, "call_id");
  }

  lemma ItemAskRead(v: Json, id: string)
    ensures ResponsesRetrieveCall(v, id) <==> ItemAsks(v, id)
  {
    hide ItemCalls, ResponsesRetrieveItem, Lookup, Missing;
    LastIs(v, "input");
    LastIs(v, "messages");
    MissingRead(v, "input");
    var first := Lookup(v, "input");
    var items := if first.Some? then first else Lookup(v, "messages");
    if items.Some? && AList(items.value) {
      forall i | 0 <= i < |items.value.kids|
        ensures ResponsesRetrieveItem(items.value.kids[i].value, id) <==> ItemCalls(items.value.kids[i].value, id)
      {
        ItemCallRead(items.value.kids[i].value, id);
      }
    }
    if ResponsesRetrieveCall(v, id) { AskFrom(v, items.value, id); }
  }

  lemma AskFrom(v: Json, items: Json, id: string)
    requires exists k: nat :: (Last(v, "input", k) || (Missing(v, "input") && Last(v, "messages", k))) &&
                              v.kids[k].value == items
    requires AList(items) && exists i :: 0 <= i < |items.kids| && ItemCalls(items.kids[i].value, id)
    ensures ItemAsks(v, id)
  {
    hide ItemCalls, Missing;
    var i :| 0 <= i < |items.kids| && ItemCalls(items.kids[i].value, id);
    var k: nat :| (Last(v, "input", k) || (Missing(v, "input") && Last(v, "messages", k))) && v.kids[k].value == items;
    assert ItemCalls(v.kids[k].value.kids[i].value, id);
  }

  lemma MissingRead(v: Json, name: string)
    ensures Lookup(v, name).Some? ==> !Missing(v, name)
    ensures v.Box? && v.isObj && Lookup(v, name).None? ==> Missing(v, name)
    ensures Missing(v, name) ==> v.Box? && v.isObj
    ensures Lookup(v, name).Some? ==> v.Box? && v.isObj
  {
    hide Text;
    if v.Box? && v.isObj {
      forall j | 0 <= j < |v.kids| ensures Keys(v.kids)[j] == Text(v.kids[j].key) {}
    }
  }

  lemma OutputRead(v: Json, item: Json, q: Path)
    ensures q in ItemPaths(v, item) <==> OutputItem(v, item) && |q| == 1 && StringAt(item, "output", q[0])
  {
    hide Says, GoodItem, ItemAsks, ResponsesRetrieveCall, TextField, Inside, Field, StringAt;
    ItemRead(item);
    if ItemOk(item) {
      FieldRead(item, "type");
      FieldRead(item, "call_id");
      LeafIn(item, q);
      OutputTypes();
      var id := TextField(item, "call_id");
      if id.Some? { ItemAskRead(v, id.value); }
    }
  }

  lemma OutputTypes()
    ensures forall kind :: kind in OUTPUT_ITEM_TYPES <==>
                           kind == "function_call_output" || kind == "local_shell_call_output" ||
                           kind == "apply_patch_call_output"
  {
  }

  /** A position of a Responses request is a candidate exactly when it is such a token. */
  lemma ResponsesExactly(v: Json, floor: nat, userText: bool, p: Path)
    ensures p in SlotPaths(OpenAiResponses, v, floor, userText) <==> ResponsesToken(v, floor, p)
  {
    hide OutputItem, StringAt, ItemsAt, ItemsField, Instructed, PrefixLen, ItemPaths, Each;
    var k := ItemsField(v);
    if p != [] { ItemsRead(v, p[0]); }
    InstructedRead(v);
    if k.Some? && AList(v.kids[k.value].value) {
      var list, from := v.kids[k.value].value, Minus(floor, PrefixLen(v));
      PrefixedIn(k.value, Each(list.kids, from, ItemFinder(v)), p);
      if p != [] {
        EachIn(list.kids, from, ItemFinder(v), p[1..]);
        if |p| >= 2 && p[1] < |list.kids| {
          OutputRead(v, list.kids[p[1]].value, p[1..][1..]);
          assert |p| == 3 ==> p[1..][1..][0] == p[2];
        }
      }
    }
  }

  // ----- Anthropic -----

  ghost predicate HasMember(v: Json, name: string) { exists k: nat :: Last(v, name, k) }

  /** A cache breakpoint on the content of a message, or on a block of it. */
  ghost predicate Breakpoint(m: Json) {
    exists c: nat ::
      && Last(m, "content", c)
      && var content := m.kids[c].value;
         || HasMember(content, "cache_control")
         || (AList(content) && exists i :: 0 <= i < |content.kids| &&
                                            HasMember(content.kids[i].value, "cache_control"))
  }

  /** A tool result of a message, or opted-in text of a message of the user. */
  ghost predicate BlockString(b: Json, userText: bool, k: nat) {
    && GoodBlock(b) && Without(b, "cache_control")
    && (|| (Says(b, "type", "tool_result") && StringAt(b, "content", k))
        || (userText && Says(b, "type", "text") && StringAt(b, "text", k)))
  }

  ghost predicate MessageString(m: Json, userText: bool, q: Path) {
    var users := userText && Says(m, "role", "user");
    && GoodHeader(m)
    && (|| (|q| == 1 && users && StringAt(m, "content", q[0]))
        || (|q| == 3 && Last(m, "content", q[0]) && AList(m.kids[q[0]].value)
            && q[1] < |m.kids[q[0]].value.kids| && BlockString(m.kids[q[0]].value.kids[q[1]].value, users, q[2])))
  }

  /** The candidates of an Anthropic request: at or above the floor, behind every breakpoint. */
  ghost predicate AnthropicToken(v: Json, floor: nat, userText: bool, p: Path) {
    && |p| >= 3 && Sole(v, "messages", p[0]) && AList(v.kids[p[0]].value)
    && var messages := v.kids[p[0]].value.kids;
       && floor <= p[1] < |messages| && (forall j :: p[1] <= j < |messages| ==> !Breakpoint(messages[j].value))
       && MessageString(messages[p[1]].value, userText, p[2..])
  }

  lemma HasRead(v: Json, name: string)
    ensures Lookup(v, name).Some? <==> HasMember(v, name)
  {
    hide Text, Last, Lookup;
    LastIs(v, name);
  }

  lemma BreakpointRead(m: Json)
    ensures Pinned(m) <==> Breakpoint(m)
  {
    hide Lookup, HasMember;
    LastIs(m, "content");
    var content := Lookup(m, "content");
    if content.Some? {
      HasRead(content.value, "cache_control");
      HasInBox(content.value, "cache_control");
      if AList(content.value) {
        forall i | 0 <= i < |content.value.kids|
          ensures Lookup(content.value.kids[i].value, "cache_control").Some?
                  <==> HasMember(content.value.kids[i].value, "cache_control")
        {
          HasRead(content.value.kids[i].value, "cache_control");
        }
      }
    }
  }

  lemma HasInBox(v: Json, name: string)
    ensures HasMember(v, name) ==> v.Box? && v.isObj
  {
    hide Text;
  }

  lemma BlockIn(b: Json, userText: bool, q: Path)
    ensures q in BlockPaths(b, userText) <==> |q| == 1 && BlockString(b, userText, q[0])
  {
    hide BlockOk, GoodBlock, StringAt, TextField, Field, Says, Without;
    BlockRead(b);
    if BlockOk(b) { GoodBlockIn(b, userText, q); }
  }

  /** The cases of a block. */
  lemma BlockCases(b: Json, userText: bool, q: Path)
    requires BlockOk(b)
    ensures var kind := TextField(b, "type");
            q in BlockPaths(b, userText) <==>
            && Field(b, "cache_control").None?
            && (|| (kind == Some("tool_result") && q in Inside(b, Field(b, "content"), Leaf))
                || (userText && kind == Some("text") && q in Inside(b, Field(b, "text"), Leaf)))
  {
    hide TextField, Inside, Field, Leaf;
    BlockTypes();
  }

  lemma BlockKind(b: Json)
    requires b.Box? && b.isObj
    ensures TextField(b, "type") == Some("tool_result") <==> Says(b, "type", "tool_result")
    ensures TextField(b, "type") == Some("text") <==> Says(b, "type", "text")
    ensures Field(b, "cache_control").None? <==> Without(b, "cache_control")
  {
    hide TextField, Field, Says, Without, Last;
    FieldRead(b, "type");
    FieldRead(b, "cache_control");
  }

  lemma GoodBlockIn(b: Json, userText: bool, q: Path)
    requires BlockOk(b)
    ensures q in BlockPaths(b, userText) <==> |q| == 1 && BlockString(b, userText, q[0])
  {
    hide BlockPaths, Says, GoodBlock, TextField, Inside, Field, StringAt, Without, Leaf;
    BlockCases(b, userText, q);
    BlockRead(b);
    BlockKind(b);
    LeafIn(b, q);
  }

  lemma BlockTypes()
    ensures "tool_result" !in HOT_ZONE_BLOCK_TYPES && "text" !in HOT_ZONE_BLOCK_TYPES && "tool_result" != "text"
  {
    var a, b := "tool_result", "text";
    assert |a| == 11 && a[5] == 'r' && |b| == 4;
  }

  lemma MessageIn(m: Json, userText: bool, q: Path)
    ensures q in MessagePaths(m, userText) <==> MessageString(m, userText, q)
  {
    hide Says, GoodHeader, TextField, Inside, Field, Last, BlockString, BlockPaths, Each;
    HeaderRead(m);
    if HeaderOk(m) {
      FieldRead(m, "role");
      FieldRead(m, "content");
      var users := userText && TextField(m, "role") == Some("user");
      InsideIn(m, Field(m, "content"), ContentFinder(users), q);
      if Field(m, "content").Some? && q != [] {
        var content := m.kids[Field(m, "content").value].value;
        if content.Str? {
          assert q[1..] == [] <==> |q| == 1;
        } else if AList(content) {
          EachIn(content.kids, 0, BlockFinder(users), q[1..]);
          if |q| >= 2 && q[1] < |content.kids| {
            BlockIn(content.kids[q[1]].value, users, q[1..][1..]);
            assert |q| == 3 ==> q[1..][1..][0] == q[2];
          }
        }
      }
    }
  }

  lemma FloorRead(v: Json, k: nat, floor: nat, i: nat)
    requires ListField(v, "messages") == Some(k) && i < |v.kids[k].value.kids|
    ensures i >= Max(floor, FrozenCount(v.kids[k].value.kids)) <==>
            floor <= i && forall j :: i <= j < |v.kids[k].value.kids| ==> !Breakpoint(v.kids[k].value.kids[j].value)
  {
    hide Pinned, Breakpoint, ListField;
    var kids := v.kids[k].value.kids;
    var n := FrozenCount(kids);
    forall j | 0 <= j < |kids| ensures Pinned(kids[j].value) <==> Breakpoint(kids[j].value) {
      BreakpointRead(kids[j].value);
    }
    if i < n { assert Pinned(kids[n - 1].value); }
  }

  /** A position of an Anthropic request is a candidate exactly when it is such a token. */
  lemma AnthropicExactly(v: Json, floor: nat, userText: bool, p: Path)
    ensures p in SlotPaths(AnthropicMessages, v, floor, userText) <==> AnthropicToken(v, floor, userText, p)
  {
    hide Sole, MessageString, MessagePaths, Breakpoint, FrozenCount, ListField, Each;
    var k := ListField(v, "messages");
    if p != [] { ListRead(v, "messages", p[0]); }
    if k.Some? {
      ListRead(v, "messages", k.value);
      var list := v.kids[k.value].value;
      var from := Max(floor, FrozenCount(list.kids));
      PrefixedIn(k.value, Each(list.kids, from, MessageFinder(userText)), p);
      if p != [] {
        EachIn(list.kids, from, MessageFinder(userText), p[1..]);
        if |p| >= 2 && p[1] < |list.kids| {
          FloorRead(v, k.value, floor, p[1]);
          MessageIn(list.kids[p[1]].value, userText, p[1..][1..]);
          assert p[1..][1..] == p[2..];
          MessageLength(list.kids[p[1]].value, userText, p[2..]);
        }
      }
    }
  }

  lemma MessageLength(m: Json, userText: bool, q: Path)
    ensures MessageString(m, userText, q) ==> |q| >= 1
  {
  }

  /** The params of a batch entry. */
  ghost predicate EntryAt(v: Json, p: Path) {
    && |p| == 3 && Sole(v, "requests", p[0]) && AList(v.kids[p[0]].value) && p[1] < |v.kids[p[0]].value.kids|
    && var entry := v.kids[p[0]].value.kids[p[1]].value;
       Sole(entry, "params", p[2]) && entry.kids[p[2]].value != Scalar("null")
  }

  lemma EntryRead(entry: Json, k: nat)
    ensures ViewOk(entry, {"params"}) && Field(entry, "params") == Some(k) <==>
            Sole(entry, "params", k) && entry.kids[k].value != Scalar("null")
  {
    hide NoTwo, Last, Sole, Keys, KeyIndex;
    SoleRead(entry, "params", k);
    if entry.Box? && entry.isObj {
      NoTwoRead(entry, "params");
      FieldRead(entry, "params");
    } else {
      NotObject(entry, "params", k);
    }
  }

  lemma EntryIn(entry: Json, userText: bool, q: Path)
    ensures q in RequestPaths(entry, userText) <==>
            && q != [] && Sole(entry, "params", q[0]) && entry.kids[q[0]].value != Scalar("null")
            && AnthropicToken(entry.kids[q[0]].value, 0, userText, q[1..])
  {
    hide Sole, AnthropicToken, AnthropicPaths, ViewOk, Field, Inside;
    if q != [] { EntryRead(entry, q[0]); }
    if ViewOk(entry, {"params"}) {
      InsideIn(entry, Field(entry, "params"), ParamsFinder(userText), q);
      var k := Field(entry, "params");
      if k.Some? { AnthropicExactly(entry.kids[k.value].value, 0, userText, if q != [] then q[1..] else []); }
    }
  }

  /** A position of a batch is a candidate exactly when it is one of the params of an entry. */
  lemma BatchExactly(v: Json, floor: nat, userText: bool, p: Path)
    ensures p in SlotPaths(AnthropicBatches, v, floor, userText) <==>
            && |p| >= 3 && EntryAt(v, p[..3])
            && AnthropicToken(v.kids[p[0]].value.kids[p[1]].value.kids[p[2]].value, 0, userText, p[3..])
  {
    hide Sole, AnthropicToken, RequestPaths, ListField, Each;
    var k := ListField(v, "requests");
    if p != [] { ListRead(v, "requests", p[0]); }
    if k.Some? {
      ListRead(v, "requests", k.value);
      var list := v.kids[k.value].value;
      PrefixedIn(k.value, Each(list.kids, 0, EntryFinder(userText)), p);
      if p != [] {
        EachIn(list.kids, 0, EntryFinder(userText), p[1..]);
        if |p| >= 2 && p[1] < |list.kids| {
          EntryIn(list.kids[p[1]].value, userText, p[1..][1..]);
          if |p| >= 3 { assert p[1..][1..][0] == p[2] && p[1..][1..][1..] == p[3..]; }
        }
      }
    }
  }
}
