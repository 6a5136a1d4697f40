/** Parsed JSON values, member lookups, and the canonical serialization. */
module Values {
  import opened Prelude
  import opened Json

  /** Entries of an object are kept in ascending key order, as a `BTreeMap` keeps them. */
  datatype Entry = Entry(key: string, val: Val)

  datatype Val =
    | Lit(token: string)
    | Txt(text: string)
    | Arr(items: seq<Val>)
    | Obj(entries: seq<Entry>)

  const NULL := Lit("null")

  // ----- unsigned integers -----

  const U64_SIZE := 0x1_0000_0000_0000_0000

  function Natural(s: string): nat {
    if s == "" then 0
    else 10 * Natural(s[..|s| - 1]) + (if IsDigit(s[|s| - 1]) then s[|s| - 1] as nat - '0' as nat else 0)
  }

  /** `as_u64`: plain digits that fit 64 bits. */
  function Unsigned(token: string): (r: Option<nat>)
    ensures r.Some? ==> r.value < U64_SIZE
  {
    if token != "" && Digits(token) == |token| && Natural(token) < U64_SIZE then Some(Natural(token)) else None
  }

  function SaturatingAdd(a: nat, b: nat): nat { if a + b < U64_SIZE then a + b else U64_SIZE - 1 }

  // ----- key order -----

  predicate Below(a: string, b: string) {
    b != "" && (a == "" || a[0] < b[0] || (a[0] == b[0] && Below(a[1..], b[1..])))
  }

  lemma {:induction false} BelowTotal(a: string, b: string)
    ensures Below(a, b) || Below(b, a) || a == b
    ensures !(Below(a, b) && Below(b, a)) && !Below(a, a)
  {
    if a != "" && b != "" {
      BelowTotal(a[1..], b[1..]);
      BelowTotal(a[1..], a[1..]);
      if a[0] == b[0] && a[1..] == b[1..] { assert a == [a[0]] + a[1..] && b == [b[0]] + b[1..]; }
    } else if a != "" {
      BelowTotal(a[1..], a[1..]);
    }
  }

  lemma {:induction false} BelowTransitive(a: string, b: string, c: string)
    requires Below(a, b) && Below(b, c)
    ensures Below(a, c)
  {
    if a != "" && a[0] == b[0] && b[0] == c[0] { BelowTransitive(a[1..], b[1..], c[1..]); }
  }

  lemma BelowWeakOrder()
    ensures WeakOrder(Below)
  {
    forall a, b | Below(a, b) ensures !Below(b, a) { BelowTotal(a, b); }
    forall a, b, c | !Below(b, a) && !Below(c, b) ensures !Below(c, a) {
      BelowTotal(a, b);
      BelowTotal(b, c);
      BelowTotal(a, c);
      if Below(c, a) && Below(a, b) { BelowTransitive(c, a, b); }
    }
  }

  // ----- objects -----

  function PutEntry(es: seq<Entry>, key: string, val: Val): (r: seq<Entry>) {
    if es == [] || Below(key, es[0].key) then [Entry(key, val)] + es
    else if key == es[0].key then [Entry(key, val)] + es[1..]
    else [es[0]] + PutEntry(es[1..], key, val)
  }

  predicate KeysAscend(es: seq<Entry>) {
    forall i, j :: 0 <= i < j < |es| ==> Below(es[i].key, es[j].key)
  }

  function Find(es: seq<Entry>, key: string): Option<Val> {
    if es == [] then None else if es[0].key == key then Some(es[0].val) else Find(es[1..], key)
  }

  /** `value.get(key)`. */
  function Get(v: Val, key: string): Option<Val> {
    if v.Obj? then Find(v.entries, key) else None
  }

  function GetText(v: Val, key: string): Option<string> {
    var r := Get(v, key);
    if r.Some? && r.value.Txt? then Some(r.value.text) else None
  }

  function GetU64(v: Val, key: string): (r: Option<nat>)
    ensures r.Some? ==> r.value < U64_SIZE
  {
    var r := Get(v, key);
    if r.Some? && r.value.Lit? then Unsigned(r.value.token) else None
  }

  function GetList(v: Val, key: string): Option<seq<Val>> {
    var r := Get(v, key);
    if r.Some? && r.value.Arr? then Some(r.value.items) else None
  }

  /** `value[key] = val` on an object. */
  function Put(v: Val, key: string, val: Val): Val
    requires v.Obj?
  {
    Obj(PutEntry(v.entries, key, val))
  }

  function Drop(es: seq<Entry>, key: string): seq<Entry> {
    if es == [] then [] else if es[0].key == key then Drop(es[1..], key) else [es[0]] + Drop(es[1..], key)
  }

  function Remove(v: Val, key: string): Val
    requires v.Obj?
  {
    Obj(Drop(v.entries, key))
  }

  lemma {:induction false} FindPut(es: seq<Entry>, key: string, val: Val, other: string)
    ensures Find(PutEntry(es, key, val), other) == if other == key then Some(val) else Find(es, other)
  {
    if es != [] && key != es[0].key && !Below(key, es[0].key) {
      FindPut(es[1..], key, val, other);
    }
  }

  lemma {:induction false} FindDrop(es: seq<Entry>, key: string, other: string)
    ensures Find(Drop(es, key), other) == if other == key then None else Find(es, other)
  {
    if es != [] { FindDrop(es[1..], key, other); }
  }

  lemma {:induction false} PutMembers(es: seq<Entry>, key: string, val: Val)
    ensures forall e :: e in PutEntry(es, key, val) ==> e == Entry(key, val) || e in es
  {
    if es != [] { PutMembers(es[1..], key, val); }
  }

  lemma AscendCons(e: Entry, es: seq<Entry>)
    requires KeysAscend(es) && forall x :: x in es ==> Below(e.key, x.key)
    ensures KeysAscend([e] + es)
  {
    var r := [e] + es;
    forall i, j | 0 <= i < j < |r| ensures Below(r[i].key, r[j].key) {
      assert r[j] == es[j - 1] && r[j] in es;
      if i > 0 { assert r[i] == es[i - 1]; }
    }
  }

  lemma AscendTail(es: seq<Entry>)
    requires es != [] && KeysAscend(es)
    ensures KeysAscend(es[1..]) && forall x :: x in es[1..] ==> Below(es[0].key, x.key)
  {
    var t := es[1..];
    forall i, j | 0 <= i < j < |t| ensures Below(t[i].key, t[j].key) { assert t[i] == es[i + 1] && t[j] == es[j + 1]; }
    forall x | x in t ensures Below(es[0].key, x.key) { var k :| 0 <= k < |t| && t[k] == x; assert es[k + 1] == x; }
  }

  lemma {:induction false} PutAscends(es: seq<Entry>, key: string, val: Val)
    requires KeysAscend(es)
    ensures KeysAscend(PutEntry(es, key, val))
  {
    if es == [] {
    } else {
      AscendTail(es);
      if Below(key, es[0].key) {
        forall x | x in es ensures Below(key, x.key) {
          if x != es[0] { assert x in es[1..]; BelowTransitive(key, es[0].key, x.key); }
        }
        AscendCons(Entry(key, val), es);
      } else if key == es[0].key {
        AscendCons(Entry(key, val), es[1..]);
      } else {
        BelowTotal(key, es[0].key);
        PutAscends(es[1..], key, val);
        PutMembers(es[1..], key, val);
        AscendCons(es[0], PutEntry(es[1..], key, val));
      }
    }
  }

  lemma {:induction false} PutLast(es: seq<Entry>, key: string, val: Val)
    requires forall i :: 0 <= i < |es| ==> Below(es[i].key, key)
    ensures PutEntry(es, key, val) == es + [Entry(key, val)]
  {
    if es != [] {
      BelowTotal(es[0].key, key);
      PutLast(es[1..], key, val);
      Assoc([es[0]], es[1..], [Entry(key, val)]);
      assert es == [es[0]] + es[1..];
    }
  }

  // ----- meaning of a concrete tree -----

  /** `number` is how the serializer rewrites a number token. */
  function Sem(v: Json, number: string -> string): Val
    decreases v
  {
    match v
    case Scalar(t) => Lit(if IsNumber(t) then number(t) else t)
    case Str(b) => Txt(Text(b))
    case Box(isObj, kids, _) =>
      if isObj then Obj(SemEntries(kids, number)) else Arr(SemItems(kids, number))
  }

  function SemItems(kids: seq<Kid>, number: string -> string): (r: seq<Val>)
    ensures |r| == |kids|
    ensures forall i :: 0 <= i < |kids| ==> r[i] == Sem(kids[i].value, number)
    decreases kids
  {
    if kids == [] then [] else
      assert kids[0].value < kids[0];
      [Sem(kids[0].value, number)] + SemItems(kids[1..], number)
  }

  /** Members in order; a repeated key keeps its last value. */
  function SemEntries(kids: seq<Kid>, number: string -> string): seq<Entry>
    decreases kids
  {
    if kids == [] then []
    else
      var n := |kids| - 1;
      PutEntry(SemEntries(kids[..n], number), Text(kids[n].key), Sem(kids[n].value, number))
  }

  // ----- canonical serialization -----

  /** Compact text with object keys in ascending order. */
  function Tree(v: Val): Json
    decreases v
  {
    match v
    case Lit(t) => Scalar(t)
    case Txt(t) => Str(Encode(t))
    case Arr(items) => Box(false, ItemKids(items), "")
    case Obj(entries) => Box(true, EntryKids(entries), "")
  }

  function ItemKids(items: seq<Val>): (r: seq<Kid>)
    ensures |r| == |items|
    ensures forall i :: 0 <= i < |items| ==> r[i] == Kid("", "", "", "", Tree(items[i]), "")
    decreases items
  {
    if items == [] then [] else [Kid("", "", "", "", Tree(items[0]), "")] + ItemKids(items[1..])
  }

  function EntryKids(entries: seq<Entry>): (r: seq<Kid>)
    ensures |r| == |entries|
    ensures forall i :: 0 <= i < |entries| ==> r[i] == Kid("", Encode(entries[i].key), "", "", Tree(entries[i].val), "")
    decreases entries
  {
    if entries == [] then [] else
      assert entries[0].val < entries[0];
      [Kid("", Encode(entries[0].key), "", "", Tree(entries[0].val), "")] + EntryKids(entries[1..])
  }

  function Canon(v: Json, number: string -> string): Json { Tree(Sem(v, number)) }

  function Serialize(v: Val): string { Render(Tree(v)) }

  /** Rewriting a number token yields a number token and settles after one step. */
  ghost predicate GoodNumbers(number: string -> string) {
    forall t :: IsNumber(t) && ScalarOk(t) ==>
      IsNumber(number(t)) && ScalarOk(number(t)) && number(number(t)) == number(t)
  }

  predicate Normal(v: Val, number: string -> string)
    decreases v
  {
    match v
    case Lit(t) => ScalarOk(t) && (IsNumber(t) ==> number(t) == t)
    case Txt(_) => true
    case Arr(items) => forall i :: 0 <= i < |items| ==> Normal(items[i], number)
    case Obj(entries) => KeysAscend(entries) && forall i :: 0 <= i < |entries| ==> Normal(entries[i].val, number)
  }

  lemma {:induction false} SemNormal(v: Json, number: string -> string)
    requires Wf(v) && GoodNumbers(number)
    ensures Normal(Sem(v, number), number)
    decreases v
  {
    match v
    case Scalar(t) =>
    case Str(_) =>
    case Box(isObj, kids, _) =>
      if isObj {
        SemEntriesNormal(kids, number);
      } else {
        forall i | 0 <= i < |kids| ensures Normal(SemItems(kids, number)[i], number) {
          assert KidOk(isObj, kids[i]);
          SemNormal(kids[i].value, number);
        }
      }
  }

  lemma {:induction false} SemEntriesNormal(kids: seq<Kid>, number: string -> string)
    requires GoodNumbers(number) && forall i :: 0 <= i < |kids| ==> KidOk(true, kids[i])
    ensures KeysAscend(SemEntries(kids, number))
    ensures forall i :: 0 <= i < |SemEntries(kids, number)| ==> Normal(SemEntries(kids, number)[i].val, number)
    decreases kids
  {
    if kids != [] {
      var n := |kids| - 1;
      assert KidOk(true, kids[n]);
      assert kids[n].value < kids[n];
      SemNormal(kids[n].value, number);
      var init := kids[..n];
      SemEntriesNormal(init, number);
      var es, key, val := SemEntries(init, number), Text(kids[n].key), Sem(kids[n].value, number);
      PutAscends(es, key, val);
      PutMembers(es, key, val);
      forall i | 0 <= i < |SemEntries(kids, number)| ensures Normal(SemEntries(kids, number)[i].val, number) {
        assert SemEntries(kids, number)[i] in PutEntry(es, key, val);
      }
    }
  }

  /** A normal value survives being written and read. */
  lemma {:induction false} SemTree(v: Val, number: string -> string)
    requires Normal(v, number)
    ensures Sem(Tree(v), number) == v && Wf(Tree(v))
    decreases v
  {
    match v
    case Lit(t) =>
    case Txt(t) => DecodeEncode(t);
    case Arr(items) =>
      forall i | 0 <= i < |items| ensures Sem(Tree(items[i]), number) == items[i] && Wf(Tree(items[i])) {
        SemTree(items[i], number);
      }
      var kids := ItemKids(items);
      forall i | 0 <= i < |kids| ensures KidOk(false, kids[i]) {}
    case Obj(entries) =>
      SemTreeEntries(entries, number);
  }

  lemma {:induction false} SemTreeEntries(entries: seq<Entry>, number: string -> string)
    requires KeysAscend(entries) && forall i :: 0 <= i < |entries| ==> Normal(entries[i].val, number)
    ensures SemEntries(EntryKids(entries), number) == entries
    ensures forall i :: 0 <= i < |entries| ==> KidOk(true, EntryKids(entries)[i])
    decreases entries
  {
    forall i | 0 <= i < |entries|
      ensures Sem(Tree(entries[i].val), number) == entries[i].val && KidOk(true, EntryKids(entries)[i])
      ensures Text(EntryKids(entries)[i].key) == entries[i].key
    {
      assert entries[i].val < entries[i];
      SemTree(entries[i].val, number);
      DecodeEncode(entries[i].key);
    }
    Rebuild(entries, EntryKids(entries), number);
  }

  lemma {:induction false} Rebuild(entries: seq<Entry>, kids: seq<Kid>, number: string -> string)
    requires KeysAscend(entries) && |kids| == |entries|
    requires forall i :: 0 <= i < |entries| ==>
               Sem(kids[i].value, number) == entries[i].val && Text(kids[i].key) == entries[i].key
    ensures SemEntries(kids, number) == entries
  {
    hide PutEntry, Text;
    if entries != [] {
      var n := |entries| - 1;
      Rebuild(entries[..n], kids[..n], number);
      PutLast(entries[..n], entries[n].key, entries[n].val);
      assert entries == entries[..n] + [entries[n]];
    }
  }

  /** Canonicalizing keeps the meaning, and doing it again changes nothing. */
  lemma CanonKeeps(v: Json, number: string -> string)
    requires Wf(v) && GoodNumbers(number)
    ensures Wf(Canon(v, number)) && Sem(Canon(v, number), number) == Sem(v, number)
    ensures Canon(Canon(v, number), number) == Canon(v, number)
  {
    SemNormal(v, number);
    SemTree(Sem(v, number), number);
  }

  // ----- lookups on the concrete tree -----

  function LastIndex(s: seq<string>, x: string): (r: Option<nat>)
    ensures r.Some? ==> r.value < |s| && s[r.value] == x && forall i :: r.value < i < |s| ==> s[i] != x
    ensures r.None? ==> x !in s
  {
    if s == [] then None
    else if s[|s| - 1] == x then Some(|s| - 1)
    else LastIndex(s[..|s| - 1], x)
  }

  function Keys(kids: seq<Kid>): (r: seq<string>)
    ensures |r| == |kids|
  {
    seq(|kids|, i requires 0 <= i < |kids| => Text(kids[i].key))
  }

  /** Index of the last member with this key: the one a parsed map keeps. */
  function KeyIndex(v: Json, key: string): (r: Option<nat>)
    ensures r.Some? ==> v.Box? && v.isObj && r.value < |v.kids|
  {
    if v.Box? && v.isObj then LastIndex(Keys(v.kids), key) else None
  }

  /** `value.get(key)` on the tree. */
  function Lookup(v: Json, key: string): (r: Option<Json>)
    ensures r.Some? ==> v.Box? && r.value < v
  {
    var k := KeyIndex(v, key);
    if k.Some? then
      assert v.kids[k.value] < v;
      Some(v.kids[k.value].value)
    else None
  }

  function AsText(v: Json): Option<string> { if v.Str? then Some(Text(v.body)) else None }

  predicate IsList(v: Json) { v.Box? && !v.isObj }

  predicate IsNull(v: Json) { v == Scalar("null") }

  function LookupText(v: Json, key: string): Option<string> {
    var r := Lookup(v, key);
    if r.Some? then AsText(r.value) else None
  }

  lemma {:induction false} FindEntries(kids: seq<Kid>, key: string, number: string -> string)
    ensures Find(SemEntries(kids, number), key)
            == (var k := LastIndex(Keys(kids), key); if k.Some? then Some(Sem(kids[k.value].value, number)) else None)
  {
    if kids != [] {
      var n := |kids| - 1;
      FindEntries(kids[..n], key, number);
      assert Keys(kids)[..n] == Keys(kids[..n]);
      FindPut(SemEntries(kids[..n], number), Text(kids[n].key), Sem(kids[n].value, number), key);
    }
  }

  /** Looking up in the tree is looking up in its meaning. */
  lemma LookupSem(v: Json, key: string, number: string -> string)
    ensures Get(Sem(v, number), key)
            == (var r := Lookup(v, key); if r.Some? then Some(Sem(r.value, number)) else None)
  {
    if v.Box? && v.isObj { FindEntries(v.kids, key, number); }
  }

  // ----- replacing parts by equals -----

  lemma {:induction false} SemKids(a: seq<Kid>, b: seq<Kid>, number: string -> string)
    requires |a| == |b|
    requires forall i :: 0 <= i < |a| ==> a[i].key == b[i].key && Sem(a[i].value, number) == Sem(b[i].value, number)
    ensures SemEntries(a, number) == SemEntries(b, number) && SemItems(a, number) == SemItems(b, number)
  {
    if a != [] {
      var n := |a| - 1;
      SemKids(a[..n], b[..n], number);
      assert forall i :: 0 <= i < |a| ==> SemItems(a, number)[i] == SemItems(b, number)[i];
    }
  }
}
