/** Reading a body into its concrete tree, and the proof that reading and rendering are inverse. */
module JsonParser {
  import opened Prelude
  import opened Json

  // ----- lexer -----

  function WsLen(s: string): (n: nat)
    ensures n <= |s|
  {
    if s != "" && IsWs(s[0]) then 1 + WsLen(s[1..]) else 0
  }

  function ScalarLen(s: string): (n: nat)
    ensures n <= |s|
  {
    if s != "" && ScalarChar(s[0]) then 1 + ScalarLen(s[1..]) else 0
  }

  /** Distance to the closing quote of a string whose opening quote has been read. */
  function BodyLen(s: string): (r: Option<nat>)
    ensures r.Some? ==> r.value < |s|
  {
    if s == "" then None
    else if s[0] == '\"' then Some(0)
    else
      var skip := if s[0] == '\\' then 2 else 1;
      if |s| < skip then None
      else
        var r := BodyLen(s[skip..]);
        if r.None? then None else Some(r.value + skip)
  }

  function ParseString(s: string): (r: Option<(string, string)>)
    ensures r.Some? ==> |r.value.1| < |s|
  {
    if s == "" || s[0] != '\"' then None
    else
      var n := BodyLen(s[1..]);
      if n.None? || Decode(s[1..1 + n.value]).None? then None
      else Some((s[1..1 + n.value], s[n.value + 2..]))
  }

  // ----- grammar -----

  function ParseScalar(s: string): (r: Option<(Json, string)>)
    ensures r.Some? && s != "" ==> |r.value.1| < |s|
  {
    var n := ScalarLen(s);
    if n > 0 && ScalarOk(s[..n]) then Some((Scalar(s[..n]), s[n..])) else None
  }

  function ParseValue(s: string): (r: Option<(Json, string)>)
    ensures r.Some? ==> |r.value.1| < |s|
    decreases |s|, 0
  {
    if s == "" then None
    else if s[0] == '\"' then
      var str := ParseString(s);
      if str.None? then None else Some((Str(str.value.0), str.value.1))
    else if s[0] == '[' then ParseBox(false, s)
    else if s[0] == '{' then ParseBox(true, s)
    else ParseScalar(s)
  }

  predicate Closes(isObj: bool, s: string) {
    s != "" && s[0] == if isObj then '}' else ']'
  }

  function ParseBox(isObj: bool, s: string): (r: Option<(Json, string)>)
    requires s != ""
    ensures r.Some? ==> |r.value.1| < |s|
    decreases |s| - 1, 3
  {
    var w := WsLen(s[1..]);
    var t := s[1..][w..];
    if Closes(isObj, t) then Some((Box(isObj, [], s[1..][..w]), t[1..]))
    else
      var kids := ParseKids(isObj, s[1..]);
      if kids.None? then None else Some((Box(isObj, kids.value.0, ""), kids.value.1))
  }

  function ParseKids(isObj: bool, s: string): (r: Option<(seq<Kid>, string)>)
    ensures r.Some? ==> r.value.0 != [] && |r.value.1| < |s|
    decreases |s|, 2
  {
    var kid := ParseKid(isObj, s);
    if kid.None? || kid.value.1 == "" then None
    else
      var t := kid.value.1;
      if t[0] == ',' then
        var more := ParseKids(isObj, t[1..]);
        if more.None? then None else Some(([kid.value.0] + more.value.0, more.value.1))
      else if Closes(isObj, t) then Some(([kid.value.0], t[1..]))
      else None
  }

  function ParseKid(isObj: bool, s: string): (r: Option<(Kid, string)>)
    ensures r.Some? ==> |r.value.1| < |s|
    decreases |s|, 1
  {
    var w := WsLen(s);
    var lead := if isObj then ParseLead(s[w..]) else Some(("", "", "", s[w..]));
    if lead.None? then None
    else
      var (key, mid, gap, t) := lead.value;
      var value := ParseValue(t);
      if value.None? then None
      else
        var u := value.value.1;
        var p := WsLen(u);
        Some((Kid(s[..w], key, mid, gap, value.value.0, u[..p]), u[p..]))
  }

  /** Key, blanks around the colon, and what follows. */
  function ParseLead(s: string): (r: Option<(string, string, string, string)>)
    ensures r.Some? ==> |r.value.3| < |s|
  {
    var key := ParseString(s);
    if key.None? then None
    else
      var t := key.value.1;
      var m := WsLen(t);
      if m == |t| || t[m] != ':' then None
      else
        var u := t[m + 1..];
        var g := WsLen(u);
        Some((key.value.0, t[..m], u[..g], u[g..]))
  }

  function Parse(s: string): Option<Doc> {
    var w := WsLen(s);
    var value := ParseValue(s[w..]);
    if value.None? || WsLen(value.value.1) != |value.value.1| then None
    else Some(Doc(s[..w], value.value.0, value.value.1))
  }

  // ----- rendering in front of a rest, nested the way the reader consumes it -----

  function Emit(v: Json, k: string): string
    decreases v
  {
    match v
    case Scalar(token) => token + k
    case Str(body) => EmitString(body, k)
    case Box(isObj, kids, blank) =>
      Open(isObj) +
      if kids == [] then blank + (Close(isObj) + k) else EmitKid(isObj, kids[0], EmitRest(isObj, kids[1..], k))
  }

  function EmitString(b: string, k: string): string { "\"" + (b + ("\"" + k)) }

  function EmitLead(isObj: bool, kid: Kid, k: string): string {
    kid.pre + if isObj then EmitString(kid.key, kid.mid + (":" + (kid.gap + k))) else k
  }

  function EmitKid(isObj: bool, kid: Kid, k: string): string
    decreases kid
  {
    EmitLead(isObj, kid, Emit(kid.value, kid.post + k))
  }

  function EmitRest(isObj: bool, kids: seq<Kid>, k: string): string
    decreases kids
  {
    if kids == [] then Close(isObj) + k else "," + EmitKid(isObj, kids[0], EmitRest(isObj, kids[1..], k))
  }

  lemma {:induction false} EmitRender(v: Json, k: string)
    ensures Emit(v, k) == Render(v) + k
    decreases v
  {
    hide EmitLead, EmitRest, RenderKid, RenderRest;
    if v.Box? && v.kids != [] {
      var r := EmitRest(v.isObj, v.kids[1..], k);
      EmitRenderRest(v.isObj, v.kids[1..], k);
      EmitRenderKid(v.isObj, v.kids[0], r);
    }
  }

  lemma {:induction false} EmitRenderKid(isObj: bool, kid: Kid, k: string)
    ensures EmitKid(isObj, kid, k) == RenderKid(isObj, kid) + k
    decreases kid
  {
    EmitRender(kid.value, kid.post + k);
    EmitRenderLead(isObj, kid, Emit(kid.value, kid.post + k));
  }

  lemma EmitRenderLead(isObj: bool, kid: Kid, k: string)
    ensures EmitLead(isObj, kid, k) == Lead(isObj, kid) + k
  {
    if isObj { LeftToRight(kid.pre, "\"", kid.key, "\"", kid.mid, ":", kid.gap, k); }
  }

  lemma LeftToRight(a: string, b: string, c: string, d: string, e: string, f: string, g: string, k: string)
    ensures a + (b + (c + (d + (e + (f + (g + k)))))) == a + b + c + d + e + f + g + k
  {
    Assoc(a, b, c + (d + (e + (f + (g + k)))));
    Assoc(a + b, c, d + (e + (f + (g + k))));
    Assoc(a + b + c, d, e + (f + (g + k)));
    Assoc(a + b + c + d, e, f + (g + k));
    Assoc(a + b + c + d + e, f, g + k);
    Assoc(a + b + c + d + e + f, g, k);
  }

  lemma {:induction false} EmitRenderRest(isObj: bool, kids: seq<Kid>, k: string)
    ensures EmitRest(isObj, kids, k) == RenderRest(isObj, kids) + Close(isObj) + k
    decreases kids
  {
    if kids == [] {
    } else {
      EmitRenderRest(isObj, kids[1..], k);
      EmitRenderKid(isObj, kids[0], EmitRest(isObj, kids[1..], k));
      Regroup(",", RenderKid(isObj, kids[0]), RenderRest(isObj, kids[1..]), Close(isObj), k);
    }
  }

  lemma Regroup(a: string, b: string, c: string, d: string, e: string)
    ensures a + (b + (c + d + e)) == a + b + c + d + e
  {
    assert b + (c + d + e) == b + c + d + e;
  }

  // ----- lexer facts -----

  lemma Cut(a: string, b: string)
    ensures (a + b)[..|a|] == a && (a + b)[|a|..] == b
  {
  }

  lemma {:induction false} WsLenBlank(s: string)
    ensures AllWs(s[..WsLen(s)])
    ensures WsLen(s) < |s| ==> !IsWs(s[WsLen(s)])
  {
    if s != "" && IsWs(s[0]) {
      WsLenBlank(s[1..]);
      var n := WsLen(s[1..]);
      forall i | 0 <= i < n + 1 ensures IsWs(s[i]) {
        if i > 0 { assert s[i] == s[1..][..n][i - 1]; }
      }
    }
  }

  lemma {:induction false} WsLenPrefix(w: string, rest: string)
    requires AllWs(w) && (rest == "" || !IsWs(rest[0]))
    ensures WsLen(w + rest) == |w|
    ensures (w + rest)[..|w|] == w && (w + rest)[|w|..] == rest
  {
    if w == "" {
      assert w + rest == rest;
    } else {
      forall i | 0 <= i < |w| - 1 ensures IsWs(w[1..][i]) { assert IsWs(w[i + 1]); }
      WsLenPrefix(w[1..], rest);
      assert (w + rest)[1..] == w[1..] + rest;
    }
  }

  lemma {:induction false} ScalarLenPrefix(t: string, rest: string)
    requires forall i :: 0 <= i < |t| ==> ScalarChar(t[i])
    requires rest == "" || !ScalarChar(rest[0])
    ensures ScalarLen(t + rest) == |t|
  {
    if t == "" {
      assert t + rest == rest;
    } else {
      assert forall i :: 0 <= i < |t| - 1 ==> t[1..][i] == t[i + 1];
      ScalarLenPrefix(t[1..], rest);
      assert (t + rest)[1..] == t[1..] + rest;
    }
  }

  function Plus(r: Option<nat>, n: nat): Option<nat> { if r.None? then None else Some(r.value + n) }

  lemma {:induction false} BodyLenPlain(s: string, n: nat)
    requires n <= |s| && forall i :: 0 <= i < n ==> s[i] != '\"' && s[i] != '\\'
    ensures BodyLen(s) == Plus(BodyLen(s[n..]), n)
  {
    if n == 0 {
      assert s[0..] == s;
    } else {
      BodyLenPlain(s[1..], n - 1);
      assert s[1..][n - 1..] == s[n..];
    }
  }

  /** A `\uXXXX` escape holds neither a quote nor a backslash after its first two characters. */
  lemma BodyLenUnicode(s: string)
    requires |s| >= 6 && s[0] == '\\' && Hex4(s[2..6]).Some?
    ensures BodyLen(s) == Plus(BodyLen(s[6..]), 6)
  {
    var h := s[2..6];
    assert h[0] == s[2] && h[1] == s[3] && h[2] == s[4] && h[3] == s[5];
    BodyLenPlain(s[2..], 4);
    assert s[2..][4..] == s[6..];
  }

  lemma BodyLenHead(s: string, n: nat)
    requires s != "" && DecodeHead(s).Some? && n == DecodeHead(s).value.1
    ensures BodyLen(s) == Plus(BodyLen(s[n..]), n)
  {
    if n >= 6 {
      BodyLenUnicode(s);
      if n == 12 {
        var t := s[6..];
        assert t[2..6] == s[8..12];
        BodyLenUnicode(t);
        assert t[6..] == s[12..];
      }
    }
  }

  /** What spells a first character does not depend on what follows. */
  lemma DecodeHeadLocal(b: string, rest: string)
    requires b != "" && DecodeHead(b).Some?
    ensures DecodeHead(b + rest) == DecodeHead(b)
  {
    var n, s := DecodeHead(b).value.1, b + rest;
    if n >= 6 {
      assert s[2..6] == b[2..6];
      if n == 12 { assert s[8..12] == b[8..12]; }
    }
  }

  /** A decodable body runs exactly to the next closing quote. */
  lemma {:induction false} BodyLenDecodable(b: string, rest: string)
    requires Decode(b).Some?
    ensures BodyLen(b + ("\"" + rest)) == Some(|b|)
  {
    hide DecodeHead;
    var k := "\"" + rest;
    if b == "" {
      assert b + k == k;
    } else {
      var n := DecodeHead(b).value.1;
      BodyLenDecodable(b[n..], rest);
      DecodeHeadLocal(b, k);
      BodyLenHead(b + k, n);
      assert (b + k)[n..] == b[n..] + k;
    }
  }

  lemma ParseStringComplete(b: string, rest: string)
    requires Decode(b).Some?
    ensures ParseString(EmitString(b, rest)) == Some((b, rest))
  {
    var s := EmitString(b, rest);
    BodyLenDecodable(b, rest);
    assert s[1..] == b + ("\"" + rest);
    assert s[1..1 + |b|] == b;
    assert s[|b| + 2..] == rest;
  }

  lemma {:induction false} BodyLenQuote(s: string)
    requires BodyLen(s).Some?
    ensures s[BodyLen(s).value] == '\"'
  {
    if s[0] != '\"' { BodyLenQuote(s[if s[0] == '\\' then 2 else 1..]); }
  }

  lemma ParseStringSound(s: string)
    requires ParseString(s).Some?
    ensures s == EmitString(ParseString(s).value.0, ParseString(s).value.1)
    ensures Decode(ParseString(s).value.0).Some?
  {
    BodyLenQuote(s[1..]);
  }

  // ----- reading is sound: what was read renders back to the text -----

  lemma {:induction false} ParseValueSound(s: string)
    requires ParseValue(s).Some?
    ensures s == Emit(ParseValue(s).value.0, ParseValue(s).value.1)
    ensures Wf(ParseValue(s).value.0)
    decreases |s|, 0
  {
    if s[0] == '\"' {
      ParseStringSound(s);
    } else if s[0] == '[' {
      ParseBoxSound(false, s);
    } else if s[0] == '{' {
      ParseBoxSound(true, s);
    }
  }

  lemma {:induction false} ParseBoxSound(isObj: bool, s: string)
    requires s != "" && [s[0]] == Open(isObj) && ParseBox(isObj, s).Some?
    ensures s == Emit(ParseBox(isObj, s).value.0, ParseBox(isObj, s).value.1)
    ensures Wf(ParseBox(isObj, s).value.0)
    decreases |s| - 1, 4
  {
    hide Emit, EmitKid, EmitRest, ParseKids, WsLen;
    var s1 := s[1..];
    var w := WsLen(s1);
    assert s == Open(isObj) + s1;
    if Closes(isObj, s1[w..]) {
      EmptyRead(isObj, s1, w);
    } else {
      ParseKidsSound(isObj, s1);
      var (kids, rest) := ParseKids(isObj, s1).value;
      FullRead(isObj, s1, kids, rest);
    }
  }

  lemma EmptyRead(isObj: bool, s1: string, w: nat)
    requires w == WsLen(s1) && Closes(isObj, s1[w..])
    ensures Open(isObj) + s1 == Emit(Box(isObj, [], s1[..w]), s1[w..][1..]) && Wf(Box(isObj, [], s1[..w]))
  {
    hide WsLen;
    WsLenBlank(s1);
    SplitAt(s1, w);
    SplitAt(s1[w..], 1);
  }

  lemma FullRead(isObj: bool, s1: string, kids: seq<Kid>, rest: string)
    requires kids != [] && s1 == EmitKid(isObj, kids[0], EmitRest(isObj, kids[1..], rest))
    requires forall i :: 0 <= i < |kids| ==> KidOk(isObj, kids[i])
    ensures Open(isObj) + s1 == Emit(Box(isObj, kids, ""), rest) && Wf(Box(isObj, kids, ""))
  {
    hide EmitKid, EmitRest, KidOk;
  }

  lemma {:induction false} ParseKidsSound(isObj: bool, s: string)
    requires ParseKids(isObj, s).Some?
    ensures var (kids, rest) := ParseKids(isObj, s).value;
            && s == EmitKid(isObj, kids[0], EmitRest(isObj, kids[1..], rest))
            && forall i :: 0 <= i < |kids| ==> KidOk(isObj, kids[i])
    decreases |s|, 3
  {
    ParseKidSound(isObj, s);
    var (kid, t) := ParseKid(isObj, s).value;
    if t[0] == ',' {
      ParseKidsSound(isObj, t[1..]);
      var (more, rest) := ParseKids(isObj, t[1..]).value;
      KidsJoin(isObj, kid, more, t, rest);
      assert ParseKids(isObj, s) == Some(([kid] + more, rest));
    } else {
      KidsEnd(isObj, kid, t);
      assert ParseKids(isObj, s) == Some(([kid], t[1..]));
    }
  }

  lemma KidsJoin(isObj: bool, kid: Kid, more: seq<Kid>, t: string, rest: string)
    requires t != "" && t[0] == ',' && more != [] && KidOk(isObj, kid)
    requires t[1..] == EmitKid(isObj, more[0], EmitRest(isObj, more[1..], rest))
    requires forall i :: 0 <= i < |more| ==> KidOk(isObj, more[i])
    ensures var kids := [kid] + more;
            && t == EmitRest(isObj, kids[1..], rest)
            && forall i :: 0 <= i < |kids| ==> KidOk(isObj, kids[i])
  {
    assert ([kid] + more)[1..] == more;
    assert t == "," + t[1..];
  }

  lemma KidsEnd(isObj: bool, kid: Kid, t: string)
    requires Closes(isObj, t)
    ensures t == EmitRest(isObj, [kid][1..], t[1..])
  {
    assert [kid][1..] == [];
    assert t == Close(isObj) + t[1..];
  }

  lemma {:induction false} ParseKidSound(isObj: bool, s: string)
    requires ParseKid(isObj, s).Some?
    ensures s == EmitKid(isObj, ParseKid(isObj, s).value.0, ParseKid(isObj, s).value.1)
    ensures KidOk(isObj, ParseKid(isObj, s).value.0)
    decreases |s|, 2
  {
    var w := WsLen(s);
    WsLenBlank(s);
    SplitAt(s, w);
    if isObj { ParseLeadSound(s[w..]); }
    ParseKidTail(if isObj then ParseLead(s[w..]).value.3 else s[w..]);
  }

  lemma SplitAt(s: string, n: nat)
    requires n <= |s|
    ensures s == s[..n] + s[n..]
  {
  }

  /** Value and trailing blanks of a kid. */
  lemma {:induction false} ParseKidTail(t: string)
    requires ParseValue(t).Some?
    ensures var (v, u) := ParseValue(t).value;
            var p := WsLen(u);
            t == Emit(v, u[..p] + u[p..]) && Wf(v) && AllWs(u[..p])
    decreases |t|, 1
  {
    ParseValueSound(t);
    var u := ParseValue(t).value.1;
    WsLenBlank(u);
    SplitAt(u, WsLen(u));
  }

  lemma ParseLeadSound(s: string)
    requires ParseLead(s).Some?
    ensures var (key, mid, gap, rest) := ParseLead(s).value;
            && s == EmitString(key, mid + (":" + (gap + rest)))
            && Decode(key).Some? && AllWs(mid) && AllWs(gap)
  {
    ParseStringSound(s);
    ParseColonSound(ParseString(s).value.1);
  }

  lemma ParseColonSound(t: string)
    requires WsLen(t) < |t| && t[WsLen(t)] == ':'
    ensures var m := WsLen(t);
            var u := t[m + 1..];
            var g := WsLen(u);
            t == t[..m] + (":" + (u[..g] + u[g..])) && AllWs(t[..m]) && AllWs(u[..g])
  {
    var m := WsLen(t);
    var u := t[m + 1..];
    WsLenBlank(t);
    WsLenBlank(u);
    SplitAt(u, WsLen(u));
    assert t[m..] == ":" + u;
    SplitAt(t, m);
  }

  lemma AllBlank(rest: string)
    requires WsLen(rest) == |rest|
    ensures AllWs(rest)
  {
    WsLenBlank(rest);
    assert rest[..|rest|] == rest;
  }

  lemma RootRead(s: string, w: nat, v: Json, rest: string)
    requires w <= |s| && s[w..] == Emit(v, rest)
    ensures s[..w] + Render(v) + rest == s
  {
    EmitRender(v, rest);
    Assoc(s[..w], Render(v), rest);
    assert s == s[..w] + s[w..];
  }

  /** Whatever is accepted is exactly the rendering of the tree it was read as. */
  lemma ParseSound(s: string)
    requires Parse(s).Some?
    ensures RenderDoc(Parse(s).value) == s && WfDoc(Parse(s).value)
  {
    WsLenBlank(s);
    var w := WsLen(s);
    ParseValueSound(s[w..]);
    var (v, rest) := ParseValue(s[w..]).value;
    AllBlank(rest);
    RootRead(s, w, v, rest);
  }

  // ----- reading is complete: every rendering reads back as its tree -----

  predicate Delimited(v: Json, rest: string) {
    v.Scalar? ==> rest == "" || !ScalarChar(rest[0])
  }

  /** The first character of a rendered value. */
  lemma EmitStarts(v: Json, k: string)
    requires Wf(v)
    ensures Emit(v, k) != "" && !IsWs(Emit(v, k)[0]) && Emit(v, k)[0] != ']' && Emit(v, k)[0] != '}'
  {
    if v.Scalar? {
      assert ScalarChar(v.token[0]);
      assert Emit(v, k)[0] == v.token[0];
    }
  }

  lemma {:induction false} ParseValueComplete(v: Json, rest: string)
    requires Wf(v) && Delimited(v, rest)
    ensures ParseValue(Emit(v, rest)) == Some((v, rest))
    decreases v, 0
  {
    match v
    case Scalar(token) =>
      ParseScalarComplete(token, rest);
    case Str(body) =>
      ParseStringComplete(body, rest);
    case Box(isObj, kids, blank) =>
      if kids == [] {
        ParseEmptyComplete(isObj, blank, rest, Emit(v, rest));
      } else {
        ParseKidsComplete(isObj, kids, rest);
        KidStarts(isObj, kids[0], EmitRest(isObj, kids[1..], rest));
        ParseFullComplete(isObj, kids, rest, EmitKid(isObj, kids[0], EmitRest(isObj, kids[1..], rest)), Emit(v, rest));
      }
  }

  lemma ParseEmptyComplete(isObj: bool, blank: string, rest: string, s: string)
    requires AllWs(blank) && s == Open(isObj) + (blank + (Close(isObj) + rest))
    ensures ParseValue(s) == Some((Box(isObj, [], blank), rest))
  {
    assert s[1..] == blank + (Close(isObj) + rest);
    WsLenPrefix(blank, Close(isObj) + rest);
    Cut(blank, Close(isObj) + rest);
    assert (Close(isObj) + rest)[1..] == rest;
  }

  lemma ParseFullComplete(isObj: bool, kids: seq<Kid>, rest: string, t: string, s: string)
    requires s == Open(isObj) + t && ParseKids(isObj, t) == Some((kids, rest))
    requires !Closes(isObj, t[WsLen(t)..])
    ensures ParseValue(s) == Some((Box(isObj, kids, ""), rest))
  {
    assert s[1..] == t;
  }

  lemma ParseScalarComplete(token: string, rest: string)
    requires ScalarOk(token) && (rest == "" || !ScalarChar(rest[0]))
    ensures ParseValue(token + rest) == Some((Scalar(token), rest))
  {
    ScalarLenPrefix(token, rest);
    Cut(token, rest);
    assert ScalarChar(token[0]);
    assert (token + rest)[0] == token[0];
  }

  /** After its blanks, a kid does not start with a closing bracket. */
  lemma KidStarts(isObj: bool, kid: Kid, k: string)
    requires KidOk(isObj, kid)
    ensures WsLen(EmitKid(isObj, kid, k)) == |kid.pre|
    ensures !Closes(isObj, EmitKid(isObj, kid, k)[|kid.pre|..])
    ensures EmitKid(isObj, kid, k)[..|kid.pre|] == kid.pre
  {
    var t := Emit(kid.value, kid.post + k);
    EmitStarts(kid.value, kid.post + k);
    WsLenPrefix(kid.pre, if isObj then EmitString(kid.key, kid.mid + (":" + (kid.gap + t))) else t);
  }

  lemma {:induction false} ParseKidsComplete(isObj: bool, kids: seq<Kid>, rest: string)
    requires kids != [] && forall i :: 0 <= i < |kids| ==> KidOk(isObj, kids[i])
    ensures ParseKids(isObj, EmitKid(isObj, kids[0], EmitRest(isObj, kids[1..], rest))) == Some((kids, rest))
    decreases kids, 2
  {
    hide EmitLead, Open, ParseKid, Wf;
    var k := EmitRest(isObj, kids[1..], rest);
    ParseKidComplete(isObj, kids[0], k);
    if |kids| > 1 {
      ParseKidsComplete(isObj, kids[1..], rest);
      assert k[1..] == EmitKid(isObj, kids[1], EmitRest(isObj, kids[1..][1..], rest));
      assert kids == [kids[0]] + kids[1..];
    } else {
      assert k[1..] == rest;
      assert kids == [kids[0]];
    }
  }

  lemma {:induction false} ParseKidComplete(isObj: bool, kid: Kid, k: string)
    requires KidOk(isObj, kid) && k != "" && (k[0] == ',' || k[0] == ']' || k[0] == '}')
    ensures ParseKid(isObj, EmitKid(isObj, kid, k)) == Some((kid, k))
    decreases kid, 1
  {
    KidStarts(isObj, kid, k);
    var t := Emit(kid.value, kid.post + k);
    if isObj {
      EmitStarts(kid.value, kid.post + k);
      ParseLeadComplete(kid, t);
      Cut(kid.pre, EmitString(kid.key, kid.mid + (":" + (kid.gap + t))));
    } else {
      Cut(kid.pre, t);
    }
    DelimitedByBlank(kid, k);
    ParseValueComplete(kid.value, kid.post + k);
    WsLenPrefix(kid.post, k);
  }

  lemma DelimitedByBlank(kid: Kid, k: string)
    requires AllWs(kid.post) && k != "" && !ScalarChar(k[0])
    ensures Delimited(kid.value, kid.post + k)
  {
    if kid.post != "" { assert IsWs(kid.post[0]); }
  }

  lemma ParseLeadComplete(kid: Kid, t: string)
    requires KidOk(true, kid) && t != "" && !IsWs(t[0])
    ensures ParseLead(EmitString(kid.key, kid.mid + (":" + (kid.gap + t))))
            == Some((kid.key, kid.mid, kid.gap, t))
  {
    var u := kid.gap + t;
    ParseStringComplete(kid.key, kid.mid + (":" + u));
    WsLenPrefix(kid.mid, ":" + u);
    assert (kid.mid + (":" + u))[|kid.mid| + 1..] == u;
    WsLenPrefix(kid.gap, t);
  }

  /** Rendering then reading is the identity, so no text has two trees. */
  lemma ParseComplete(d: Doc)
    requires WfDoc(d)
    ensures Parse(RenderDoc(d)) == Some(d)
  {
    EmitRender(d.root, d.post);
    EmitStarts(d.root, d.post);
    assert RenderDoc(d) == d.pre + Emit(d.root, d.post);
    WsLenPrefix(d.pre, Emit(d.root, d.post));
    if d.post != "" { assert IsWs(d.post[0]); }
    ParseValueComplete(d.root, d.post);
    assert d.post + "" == d.post;
    WsLenPrefix(d.post, "");
  }
}
