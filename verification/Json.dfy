/**
 * Concrete JSON: trees that keep every byte of the text they came from.
 *
 * A text is a sequence of Unicode scalar values, as a Rust `&str` is; every cut the
 * proxy makes lies on a boundary between two of them.
 */
module Json {
  import opened Prelude

  /** One array element or object member. Array elements leave `key`, `mid` and `gap` empty. */
  datatype Kid = Kid(pre: string, key: string, mid: string, gap: string, value: Json, post: string)

  /** `Str` keeps the characters between the quotes as written, escapes included. */
  datatype Json =
    | Scalar(token: string)
    | Str(body: string)
    | Box(isObj: bool, kids: seq<Kid>, blank: string)

  datatype Doc = Doc(pre: string, root: Json, post: string)

  // ----- rendering -----

  function Open(isObj: bool): string { if isObj then "{" else "[" }

  function Close(isObj: bool): string { if isObj then "}" else "]" }

  function Render(v: Json): string
    decreases v
  {
    match v
    case Scalar(token) => token
    case Str(body) => "\"" + body + "\""
    case Box(isObj, kids, blank) =>
      Open(isObj) + (if kids == [] then blank else RenderKid(isObj, kids[0]) + RenderRest(isObj, kids[1..]))
      + Close(isObj)
  }

  function Lead(isObj: bool, kid: Kid): string {
    if isObj then kid.pre + "\"" + kid.key + "\"" + kid.mid + ":" + kid.gap else kid.pre
  }

  function RenderKid(isObj: bool, kid: Kid): string
    decreases kid
  {
    Lead(isObj, kid) + Render(kid.value) + kid.post
  }

  /** Members that follow another one: each is announced by a comma. */
  function RenderRest(isObj: bool, kids: seq<Kid>): string
    decreases kids
  {
    if kids == [] then "" else "," + RenderKid(isObj, kids[0]) + RenderRest(isObj, kids[1..])
  }

  function RenderDoc(d: Doc): string { d.pre + Render(d.root) + d.post }

  // ----- lexical rules -----

  predicate IsWs(c: char) { c == ' ' || c == '\t' || c == '\n' || c == '\r' }

  predicate AllWs(s: string) { forall i :: 0 <= i < |s| ==> IsWs(s[i]) }

  predicate IsDigit(c: char) { '0' <= c <= '9' }

  predicate ScalarChar(c: char) { IsDigit(c) || 'a' <= c <= 'z' || c in "+-.E" }

  function Digits(s: string): (n: nat)
    ensures n <= |s|
  {
    if s != "" && IsDigit(s[0]) then 1 + Digits(s[1..]) else 0
  }

  predicate ExponentOk(s: string) {
    s == "" ||
    (s[0] in "eE" &&
     var r := if |s| > 1 && s[1] in "+-" then s[2..] else s[1..];
     r != "" && Digits(r) == |r|)
  }

  predicate FractionOk(s: string) {
    if s != "" && s[0] == '.' then
      Digits(s[1..]) >= 1 && ExponentOk(s[1 + Digits(s[1..])..])
    else ExponentOk(s)
  }

  predicate IsNumber(s: string) {
    var t := if s != "" && s[0] == '-' then s[1..] else s;
    var d := Digits(t);
    d >= 1 && (d == 1 || t[0] != '0') && FractionOk(t[d..])
  }

  predicate ScalarOk(s: string) {
    && s != ""
    && (forall i :: 0 <= i < |s| ==> ScalarChar(s[i]))
    && (s in {"true", "false", "null"} || IsNumber(s))
  }

  // ----- string bodies -----

  function HexValue(c: char): Option<nat> {
    if '0' <= c <= '9' then Some(c as nat - '0' as nat)
    else if 'a' <= c <= 'f' then Some(c as nat - 'a' as nat + 10)
    else if 'A' <= c <= 'F' then Some(c as nat - 'A' as nat + 10)
    else None
  }

  function Hex4(s: string): (r: Option<nat>)
    requires |s| >= 4
    ensures r.Some? ==> r.value < 0x10000
  {
    var a, b, c, d := HexValue(s[0]), HexValue(s[1]), HexValue(s[2]), HexValue(s[3]);
    if a.Some? && b.Some? && c.Some? && d.Some?
    then Some(a.value * 0x1000 + b.value * 0x100 + c.value * 0x10 + d.value) else None
  }

  function Unescape(c: char): Option<char> {
    match c
    case '\"' => Some('\"')
    case '\\' => Some('\\')
    case '/' => Some('/')
    case 'b' => Some(8 as char)
    case 'f' => Some(12 as char)
    case 'n' => Some('\n')
    case 'r' => Some('\r')
    case 't' => Some('\t')
    case _ => None
  }

  /** First character of a non-empty string body and how much of the body spells it. */
  function DecodeHead(b: string): (r: Option<(char, nat)>)
    requires b != ""
    ensures r.Some? ==> 1 <= r.value.1 <= |b|
  {
    if b[0] == '\\' then
      if |b| >= 2 && b[1] != 'u' then
        var c := Unescape(b[1]);
        if c.Some? then Some((c.value, 2)) else None
      else if |b| < 6 then None
      else
        var u := Hex4(b[2..6]);
        if u.None? || 0xDC00 <= u.value < 0xE000 then None
        else if u.value < 0xD800 || u.value >= 0xE000 then Some((u.value as char, 6))
        else if |b| < 12 || b[6] != '\\' || b[7] != 'u' then None
        else
          var low := Hex4(b[8..12]);
          if low.None? || low.value < 0xDC00 || low.value >= 0xE000 then None
          else Some(((0x10000 + (u.value - 0xD800) * 0x400 + (low.value - 0xDC00)) as char, 12))
    else if b[0] < ' ' || b[0] == '\"' then None
    else Some((b[0], 1))
  }

  /** The text a string body denotes; none for a control character, bad escape or lone surrogate. */
  function Decode(b: string): Option<string> {
    if b == "" then Some("")
    else
      var head := DecodeHead(b);
      if head.None? then None
      else
        var tail := Decode(b[head.value.1..]);
        if tail.None? then None else Some([head.value.0] + tail.value)
  }

  function Text(b: string): string {
    var t := Decode(b);
    if t.Some? then t.value else ""
  }

  function HexDigit(n: nat): char
    requires n < 16
  {
    if n < 10 then ('0' as nat + n) as char else ('a' as nat + n - 10) as char
  }

  function EncodeChar(c: char): (r: string)
    ensures r != ""
  {
    if c == '\"' then "\\\""
    else if c == '\\' then "\\\\"
    else if c as nat == 8 then "\\b"
    else if c as nat == 12 then "\\f"
    else if c == '\n' then "\\n"
    else if c == '\r' then "\\r"
    else if c == '\t' then "\\t"
    else if c < ' ' then "\\u00" + [HexDigit(c as nat / 16), HexDigit(c as nat % 16)]
    else [c]
  }

  /** How the serializer writes a text between quotes. */
  function Encode(t: string): string {
    if t == "" then "" else EncodeChar(t[0]) + Encode(t[1..])
  }

  // ----- well-formedness -----

  predicate Wf(v: Json)
    decreases v
  {
    match v
    case Scalar(token) => ScalarOk(token)
    case Str(body) => Decode(body).Some?
    case Box(isObj, kids, blank) =>
      && AllWs(blank) && (kids != [] ==> blank == "")
      && forall i :: 0 <= i < |kids| ==> KidOk(isObj, kids[i])
  }

  predicate KidOk(isObj: bool, kid: Kid)
    decreases kid
  {
    && AllWs(kid.pre) && AllWs(kid.post) && AllWs(kid.mid) && AllWs(kid.gap)
    && (if isObj then Decode(kid.key).Some? else kid.key == "" && kid.mid == "" && kid.gap == "")
    && Wf(kid.value)
  }

  predicate WfDoc(d: Doc) { AllWs(d.pre) && AllWs(d.post) && Wf(d.root) }

  // ----- byte lengths -----

  function Utf8Width(c: char): nat {
    if c as nat < 0x80 then 1 else if c as nat < 0x800 then 2 else if c as nat < 0x10000 then 3 else 4
  }

  /** Length of a text in bytes. */
  function Bytes(s: string): (n: nat)
    ensures |s| <= n <= 4 * |s|
  {
    if s == "" then 0 else Utf8Width(s[0]) + Bytes(s[1..])
  }

  // ----- facts about texts -----

  lemma {:induction false} BytesConcat(a: string, b: string)
    ensures Bytes(a + b) == Bytes(a) + Bytes(b)
  {
    if a == "" {
      assert a + b == b;
    } else {
      BytesConcat(a[1..], b);
      assert (a + b)[1..] == a[1..] + b;
    }
  }

  lemma DecodeEncodeChar(c: char, rest: string)
    ensures DecodeHead(EncodeChar(c) + rest) == Some((c, |EncodeChar(c)|))
  {
    var e := EncodeChar(c) + rest;
    if c < ' ' && c !in "\n\r\t" && c as nat != 8 && c as nat != 12 {
      assert e[2..6] == ['0', '0', HexDigit(c as nat / 16), HexDigit(c as nat % 16)];
    }
  }

  /** Writing a text between quotes and reading it back gives the text. */
  lemma {:induction false} DecodeEncode(t: string)
    ensures Decode(Encode(t)) == Some(t)
  {
    if t == "" {
    } else {
      DecodeEncode(t[1..]);
      DecodeEncodeChar(t[0], Encode(t[1..]));
      assert Encode(t)[|EncodeChar(t[0])|..] == Encode(t[1..]);
      assert [t[0]] + t[1..] == t;
    }
  }

  /** A decoded character is never wider than the characters that spell it. */
  lemma DecodeHeadBytes(b: string)
    requires b != "" && DecodeHead(b).Some?
    ensures Utf8Width(DecodeHead(b).value.0) <= Bytes(b[..DecodeHead(b).value.1])
  {
    var n := DecodeHead(b).value.1;
    if n == 1 {
      assert b[..1] == [b[0]];
      assert Bytes(b[..1]) == Utf8Width(b[0]) + Bytes(b[..1][1..]);
    }
  }

  /** A string token is at least two bytes longer than the text it denotes. */
  lemma {:induction false} DecodeBytes(b: string)
    requires Decode(b).Some?
    ensures Bytes(Text(b)) <= Bytes(b)
  {
    if b == "" {
    } else {
      var n := DecodeHead(b).value.1;
      DecodeHeadBytes(b);
      DecodeBytes(b[n..]);
      BytesConcat(b[..n], b[n..]);
      assert b == b[..n] + b[n..];
      assert Text(b)[1..] == Text(b[n..]);
    }
  }

  predicate Plain(s: string) { forall i :: 0 <= i < |s| ==> s[i] >= ' ' && s[i] != '\"' && s[i] != '\\' }

  /** Text without quotes, backslashes and control characters is spelled as itself. */
  lemma {:induction false} PlainText(s: string)
    requires Plain(s)
    ensures Decode(s) == Some(s) && Encode(s) == s
  {
    if s != "" {
      PlainText(s[1..]);
      assert s == [s[0]] + s[1..];
    }
  }

  lemma TextOf(s: string)
    requires Plain(s)
    ensures Text(s) == s
  {
    PlainText(s);
  }
}
