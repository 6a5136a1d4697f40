/**
 * Positions in a concrete tree, and the proof that replacing the byte range of a position
 * is replacing the subtree found there.
 */
module JsonEdits {
  import opened Prelude
  import opened Json
  import opened Splice

  /** Child indices from the root down; the model's form of a borrowed raw value. */
  type Path = seq<nat>

  predicate HasPath(v: Json, p: Path)
    decreases p
  {
    p == [] || (v.Box? && p[0] < |v.kids| && HasPath(v.kids[p[0]].value, p[1..]))
  }

  function At(v: Json, p: Path): Json
    requires HasPath(v, p)
    decreases p
  {
    if p == [] then v else At(v.kids[p[0]].value, p[1..])
  }

  function WithKid(v: Json, k: nat, w: Json): Json
    requires v.Box? && k < |v.kids|
  {
    v.(kids := v.kids[k := v.kids[k].(value := w)])
  }

  /** The tree with the subtree at `p` replaced. */
  function With(v: Json, p: Path, w: Json): Json
    requires HasPath(v, p)
    decreases p
  {
    if p == [] then w else WithKid(v, p[0], With(v.kids[p[0]].value, p[1..], w))
  }

  // ----- what surrounds a position -----

  /** Kids that precede another one, each with its comma. */
  function Ahead(isObj: bool, kids: seq<Kid>): string {
    if kids == [] then "" else RenderKid(isObj, kids[0]) + "," + Ahead(isObj, kids[1..])
  }

  function KidHead(v: Json, k: nat): string
    requires v.Box? && k < |v.kids|
  {
    Open(v.isObj) + Ahead(v.isObj, v.kids[..k]) + Lead(v.isObj, v.kids[k])
  }

  function KidTail(v: Json, k: nat): string
    requires v.Box? && k < |v.kids|
  {
    v.kids[k].post + RenderRest(v.isObj, v.kids[k + 1..]) + Close(v.isObj)
  }

  function Head(v: Json, p: Path): string
    requires HasPath(v, p)
    decreases p
  {
    if p == [] then "" else KidHead(v, p[0]) + Head(v.kids[p[0]].value, p[1..])
  }

  function Tail(v: Json, p: Path): string
    requires HasPath(v, p)
    decreases p
  {
    if p == [] then "" else Tail(v.kids[p[0]].value, p[1..]) + KidTail(v, p[0])
  }

  lemma {:induction false} AheadSplit(isObj: bool, kids: seq<Kid>, k: nat)
    requires k < |kids|
    ensures RenderKid(isObj, kids[0]) + RenderRest(isObj, kids[1..])
            == Ahead(isObj, kids[..k]) + RenderKid(isObj, kids[k]) + RenderRest(isObj, kids[k + 1..])
  {
    if k == 0 {
    } else {
      var t := kids[1..];
      AheadSplit(isObj, t, k - 1);
      assert t[..k - 1] == kids[..k][1..] && t[k..] == kids[k + 1..];
      var a, b, c := Ahead(isObj, t[..k - 1]), RenderKid(isObj, kids[k]), RenderRest(isObj, kids[k + 1..]);
      Regroup(RenderKid(isObj, kids[0]) + ",", a, b, c);
      assert RenderKid(isObj, kids[0]) + RenderRest(isObj, t)
          == RenderKid(isObj, kids[0]) + "," + (RenderKid(isObj, t[0]) + RenderRest(isObj, t[1..])) by {
        Assoc(",", RenderKid(isObj, t[0]), RenderRest(isObj, t[1..]));
        Assoc(RenderKid(isObj, kids[0]), ",", RenderKid(isObj, t[0]) + RenderRest(isObj, t[1..]));
      }
    }
  }

  lemma RenderAround(v: Json, k: nat)
    requires v.Box? && k < |v.kids|
    ensures Render(v) == KidHead(v, k) + Render(v.kids[k].value) + KidTail(v, k)
  {
    AheadSplit(v.isObj, v.kids, k);
    var kid := v.kids[k];
    var a, r := Ahead(v.isObj, v.kids[..k]), RenderRest(v.isObj, v.kids[k + 1..]);
    Nest(Open(v.isObj), a, Lead(v.isObj, kid), Render(kid.value), kid.post, r, Close(v.isObj));
  }

  lemma Nest(o: string, a: string, l: string, m: string, p: string, r: string, c: string)
    ensures o + (a + (l + m + p) + r) + c == (o + a + l) + m + (p + r + c)
  {
    var x := o + a + l;
    assert o + (a + (l + m + p) + r) == x + m + p + r;
  }

  lemma {:induction false} RenderAt(v: Json, p: Path)
    requires HasPath(v, p)
    ensures Render(v) == Head(v, p) + Render(At(v, p)) + Tail(v, p)
    decreases p
  {
    if p == [] {
    } else {
      var w := v.kids[p[0]].value;
      RenderAround(v, p[0]);
      RenderAt(w, p[1..]);
      var a, b, c := Head(w, p[1..]), Render(At(w, p[1..])), Tail(w, p[1..]);
      Regroup(KidHead(v, p[0]), a, b, c);
      Assoc(KidHead(v, p[0]) + a + b, c, KidTail(v, p[0]));
    }
  }

  lemma WithKidSurrounds(v: Json, k: nat, w: Json)
    requires v.Box? && k < |v.kids|
    ensures KidHead(WithKid(v, k, w), k) == KidHead(v, k) && KidTail(WithKid(v, k, w), k) == KidTail(v, k)
  {
    var u := WithKid(v, k, w);
    assert u.kids[..k] == v.kids[..k] && u.kids[k + 1..] == v.kids[k + 1..];
  }

  /** Replacing a subtree replaces its characters and no other. */
  lemma {:induction false} RenderWith(v: Json, p: Path, w: Json)
    requires HasPath(v, p)
    ensures HasPath(With(v, p, w), p) && At(With(v, p, w), p) == w
    ensures Head(With(v, p, w), p) == Head(v, p) && Tail(With(v, p, w), p) == Tail(v, p)
    ensures Render(With(v, p, w)) == Head(v, p) + Render(w) + Tail(v, p)
    decreases p
  {
    if p == [] {
    } else {
      RenderWith(v.kids[p[0]].value, p[1..], w);
      WithKidSurrounds(v, p[0], With(v.kids[p[0]].value, p[1..], w));
    }
    RenderAt(With(v, p, w), p);
  }

  lemma {:induction false} AtConcat(v: Json, p: Path, q: Path)
    requires HasPath(v, p) && HasPath(At(v, p), q)
    ensures HasPath(v, p + q) && At(v, p + q) == At(At(v, p), q)
    decreases p
  {
    if p == [] {
      assert p + q == q;
    } else {
      AtConcat(v.kids[p[0]].value, p[1..], q);
      assert (p + q)[1..] == p[1..] + q;
    }
  }

  lemma {:induction false} HeadConcat(v: Json, p: Path, q: Path)
    requires HasPath(v, p) && HasPath(At(v, p), q) && HasPath(v, p + q)
    ensures Head(v, p + q) == Head(v, p) + Head(At(v, p), q)
    decreases p
  {
    if p == [] {
      assert p + q == q;
    } else {
      var u := v.kids[p[0]].value;
      assert (p + q)[0] == p[0] && (p + q)[1..] == p[1..] + q;
      HeadConcat(u, p[1..], q);
      Assoc(KidHead(v, p[0]), Head(u, p[1..]), Head(At(v, p), q));
    }
  }

  lemma PathConcat(v: Json, p: Path, q: Path)
    requires HasPath(v, p) && HasPath(At(v, p), q)
    ensures HasPath(v, p + q) && At(v, p + q) == At(At(v, p), q)
    ensures Head(v, p + q) == Head(v, p) + Head(At(v, p), q)
  {
    AtConcat(v, p, q);
    HeadConcat(v, p, q);
  }

  lemma {:induction false} WithConcat(v: Json, p: Path, q: Path, w: Json)
    requires HasPath(v, p) && HasPath(At(v, p), q)
    ensures HasPath(v, p + q) && With(v, p + q, w) == With(v, p, With(At(v, p), q, w))
    decreases p
  {
    AtConcat(v, p, q);
    if p == [] {
      assert p + q == q;
    } else {
      WithConcat(v.kids[p[0]].value, p[1..], q, w);
      assert (p + q)[1..] == p[1..] + q;
    }
  }

  // ----- document order -----

  /** `p` branches off to the left of `q`. */
  predicate Before(p: Path, q: Path)
    decreases p
  {
    p != [] && q != [] && (p[0] < q[0] || (p[0] == q[0] && Before(p[1..], q[1..])))
  }

  predicate Under(p: Path, q: Path) { |p| < |q| && q[..|p|] == p }

  lemma {:induction false} AheadLonger(isObj: bool, kids: seq<Kid>, j: nat, k: nat)
    requires j < k <= |kids|
    ensures |Ahead(isObj, kids[..k])| > |Ahead(isObj, kids[..j])| + |RenderKid(isObj, kids[j])|
    decreases j
  {
    var t := kids[1..];
    assert kids[..k][1..] == t[..k - 1];
    if j > 0 {
      AheadLonger(isObj, t, j - 1, k - 1);
      assert kids[..j][1..] == t[..j - 1];
    } else {
      assert kids[..0] == [];
    }
  }

  /** Text to the left ends before text to the right starts. */
  lemma {:induction false} BeforeRanges(v: Json, p: Path, q: Path)
    requires HasPath(v, p) && HasPath(v, q) && Before(p, q)
    ensures |Head(v, p)| + |Render(At(v, p))| < |Head(v, q)|
    decreases p
  {
    var u := v.kids[p[0]].value;
    RenderAt(u, p[1..]);
    if p[0] < q[0] {
      AheadLonger(v.isObj, v.kids, p[0], q[0]);
    } else {
      BeforeRanges(u, p[1..], q[1..]);
    }
  }

  /** A change to the right leaves everything about a position alone. */
  lemma {:induction false} BeforeStable(v: Json, p: Path, q: Path, w: Json)
    requires HasPath(v, p) && HasPath(v, q) && Before(p, q)
    ensures HasPath(With(v, q, w), p)
    ensures At(With(v, q, w), p) == At(v, p) && Head(With(v, q, w), p) == Head(v, p)
    decreases p
  {
    if p[0] < q[0] {
      assert With(v, q, w).kids[..p[0]] == v.kids[..p[0]];
    } else {
      BeforeStable(v.kids[p[0]].value, p[1..], q[1..], w);
      WithKidSurrounds(v, p[0], With(v.kids[p[0]].value, q[1..], w));
    }
  }

  /** A change to the left leaves the subtree at a position alone. */
  lemma {:induction false} AfterStable(v: Json, p: Path, q: Path, w: Json)
    requires HasPath(v, p) && HasPath(v, q) && Before(q, p)
    ensures HasPath(With(v, q, w), p) && At(With(v, q, w), p) == At(v, p)
    decreases p
  {
    if q[0] == p[0] { AfterStable(v.kids[p[0]].value, p[1..], q[1..], w); }
  }

  // ----- edits -----

  /** Replace a subtree, or add a kid at the end of a container. */
  datatype Edit = Put(path: Path, node: Json) | Append(path: Path, kid: Kid)

  predicate Fits(v: Json, e: Edit) { HasPath(v, e.path) && (e.Append? ==> At(v, e.path).Box?) }

  function Extended(box: Json, kid: Kid): Json
    requires box.Box?
  {
    if box.kids == [] then Box(box.isObj, [kid.(pre := box.blank + kid.pre)], "")
    else box.(kids := box.kids + [kid])
  }

  function NewNode(v: Json, e: Edit): Json
    requires Fits(v, e)
  {
    match e
    case Put(p, node) => node
    case Append(p, kid) => Extended(At(v, p), kid)
  }

  function Step(v: Json, e: Edit): Json
    requires Fits(v, e)
  {
    With(v, e.path, NewNode(v, e))
  }

  /** Text inserted in front of the closing bracket to add a kid. */
  function Insertion(box: Json, kid: Kid): string
    requires box.Box?
  {
    (if box.kids == [] then "" else ",") + RenderKid(box.isObj, kid)
  }

  /** The byte-range form of an edit. */
  function Rep(v: Json, e: Edit): Replacement<char>
    requires Fits(v, e)
  {
    var lo, n := |Head(v, e.path)|, |Render(At(v, e.path))|;
    match e
    case Put(p, node) => Replacement(lo, lo + n, Render(node))
    case Append(p, kid) => Replacement(lo + n - 1, lo + n - 1, Insertion(At(v, p), kid))
  }

  lemma RenderRestSnoc(isObj: bool, kids: seq<Kid>, kid: Kid)
    ensures RenderRest(isObj, kids + [kid]) == RenderRest(isObj, kids) + ("," + RenderKid(isObj, kid))
  {
    if kids == [] {
      assert kids + [kid] == [kid];
      assert RenderRest(isObj, [kid]) == "," + RenderKid(isObj, kid) + RenderRest(isObj, [kid][1..]);
    } else {
      assert (kids + [kid])[1..] == kids[1..] + [kid];
      RenderRestSnoc(isObj, kids[1..], kid);
      Assoc("," + RenderKid(isObj, kids[0]), RenderRest(isObj, kids[1..]), "," + RenderKid(isObj, kid));
    }
  }

  lemma RenderExtendedEmpty(box: Json, kid: Kid)
    requires box.Box? && box.kids == []
    ensures Render(Extended(box, kid)) == Open(box.isObj) + box.blank + RenderKid(box.isObj, kid) + Close(box.isObj)
  {
    var moved := kid.(pre := box.blank + kid.pre);
    MovedKid(box.isObj, kid, box.blank);
    assert [moved][1..] == [] && RenderRest(box.isObj, []) == "";
    var r := RenderKid(box.isObj, moved);
    assert r + "" == r;
    assert Render(Extended(box, kid)) == Open(box.isObj) + r + Close(box.isObj);
  }

  /** Blanks in front of a kid. */
  lemma MovedKid(isObj: bool, kid: Kid, blank: string)
    ensures RenderKid(isObj, kid.(pre := blank + kid.pre)) == blank + RenderKid(isObj, kid)
  {
    var moved := kid.(pre := blank + kid.pre);
    MovedLead(isObj, kid, blank);
    LedText(blank, Lead(isObj, kid), Render(kid.value), kid.post);
    assert RenderKid(isObj, moved) == Lead(isObj, moved) + Render(kid.value) + kid.post;
  }

  lemma MovedLead(isObj: bool, kid: Kid, blank: string)
    ensures Lead(isObj, kid.(pre := blank + kid.pre)) == blank + Lead(isObj, kid)
  {
  }

  lemma LedText(blank: string, lead: string, value: string, post: string)
    ensures (blank + lead) + value + post == blank + (lead + value + post)
  {
  }

  lemma RenderExtendedMore(box: Json, kid: Kid)
    requires box.Box? && box.kids != []
    ensures Render(Extended(box, kid))
            == Open(box.isObj) + (RenderKid(box.isObj, box.kids[0]) + RenderRest(box.isObj, box.kids[1..]))
               + ("," + RenderKid(box.isObj, kid)) + Close(box.isObj)
  {
    var all := box.kids + [kid];
    assert all[0] == box.kids[0] && all[1..] == box.kids[1..] + [kid];
    RenderRestSnoc(box.isObj, box.kids[1..], kid);
    var first, rest := RenderKid(box.isObj, box.kids[0]), RenderRest(box.isObj, box.kids[1..]);
    Assoc(first, rest, "," + RenderKid(box.isObj, kid));
    Assoc(Open(box.isObj), first + rest, "," + RenderKid(box.isObj, kid));
  }

  lemma RenderExtended(box: Json, kid: Kid)
    requires box.Box?
    ensures var s := Render(box);
            var n := |s| - 1;
            && n >= 0 && s[n..] == Close(box.isObj)
            && Render(Extended(box, kid)) == s[..n] + Insertion(box, kid) + Close(box.isObj)
  {
    var inner := if box.kids == [] then box.blank
                 else RenderKid(box.isObj, box.kids[0]) + RenderRest(box.isObj, box.kids[1..]);
    assert Render(box) == (Open(box.isObj) + inner) + Close(box.isObj);
    assert Render(box)[..|Render(box)| - 1] == Open(box.isObj) + inner;
    if box.kids == [] {
      RenderExtendedEmpty(box, kid);
      assert Insertion(box, kid) == RenderKid(box.isObj, kid);
    } else {
      RenderExtendedMore(box, kid);
    }
  }

  lemma CutBetween(a: string, m: string, b: string, i: nat, j: nat, x: string)
    requires i <= j <= |m|
    ensures Cut(a + m + b, Replacement(|a| + i, |a| + j, x)) == a + (m[..i] + x + m[j..]) + b
  {
    var s := a + m + b;
    assert s[..|a| + i] == a + m[..i];
    assert s[|a| + j..] == m[j..] + b;
  }

  /** The text of a tree and of the tree with one subtree replaced, as one frame. */
  lemma Frame(v: Json, p: Path, w: Json) returns (a: string, b: string)
    requires HasPath(v, p)
    ensures |a| == |Head(v, p)|
    ensures Render(v) == a + Render(At(v, p)) + b && Render(With(v, p, w)) == a + Render(w) + b
  {
    RenderAt(v, p);
    RenderWith(v, p, w);
    a, b := Head(v, p), Tail(v, p);
  }

  lemma CutFrame(a: string, m: string, b: string, s: string, x: string, e: string, t: string, r: Replacement<char>,
                 i: nat, j: nat)
    requires i <= j <= |m| && m[..i] + x + m[j..] == e
    requires s == a + m + b && t == a + e + b
    requires r == Replacement(|a| + i, |a| + j, x)
    ensures r.lo <= r.hi <= |s| && Cut(s, r) == t
  {
    CutBetween(a, m, b, i, j, x);
  }

  lemma ExtendedText(box: Json, kid: Kid, m: string, x: string, e: string)
    requires box.Box? && m == Render(box) && x == Insertion(box, kid) && e == Render(Extended(box, kid))
    ensures |m| >= 1 && m[..|m| - 1] + x + m[|m| - 1..] == e
  {
    RenderExtended(box, kid);
  }

  lemma WholeText(m: string, x: string)
    ensures m[..0] + x + m[|m|..] == x
  {
  }

  /** One replacement is one tree edit. */
  lemma StepRender(v: Json, e: Edit)
    requires Fits(v, e)
    ensures Rep(v, e).lo <= Rep(v, e).hi <= |Render(v)|
    ensures Cut(Render(v), Rep(v, e)) == Render(Step(v, e))
  {
    hide Head, Render, RenderKid, WithKid;
    var a, b := Frame(v, e.path, NewNode(v, e));
    var m, s, t, r := Render(At(v, e.path)), Render(v), Render(Step(v, e)), Rep(v, e);
    match e
    case Put(p, node) =>
      WholeText(m, r.bytes);
      CutFrame(a, m, b, s, r.bytes, r.bytes, t, r, 0, |m|);
    case Append(p, kid) =>
      ExtendedText(At(v, p), kid, m, r.bytes, Render(NewNode(v, e)));
      CutFrame(a, m, b, s, r.bytes, Render(NewNode(v, e)), t, r, |m| - 1, |m| - 1);
  }

  /** `d` is visited before `e`: it lies to the left, or inside the container `e` adds to. */
  predicate Precedes(d: Edit, e: Edit) {
    Before(d.path, e.path) || (e.Append? && Under(e.path, d.path))
  }

  lemma {:induction false} UnderSplit(v: Json, p: Path, q: Path)
    requires HasPath(v, q) && Under(p, q)
    ensures HasPath(v, p) && At(v, p).Box? && HasPath(At(v, p), q[|p|..])
    ensures p + q[|p|..] == q && q[|p|..] != []
    decreases p
  {
    if p != [] {
      assert q[1..][..|p| - 1] == p[1..];
      UnderSplit(v.kids[p[0]].value, p[1..], q[1..]);
      assert q[1..][|p| - 1..] == q[|p|..];
    }
  }

  lemma ExtendedKeeps(box: Json, kid: Kid, r: Path)
    requires box.Box? && r != [] && HasPath(box, r)
    ensures HasPath(Extended(box, kid), r)
    ensures At(Extended(box, kid), r) == At(box, r) && Head(Extended(box, kid), r) == Head(box, r)
  {
    assert Extended(box, kid).kids[..r[0]] == box.kids[..r[0]];
  }

  lemma PrecedesLeft(v: Json, d: Edit, e: Edit)
    requires Fits(v, d) && Fits(v, e) && Before(d.path, e.path)
    ensures Fits(Step(v, e), d) && Rep(Step(v, e), d) == Rep(v, d)
    ensures Rep(v, d).hi <= |Head(v, e.path)| - 1
  {
    BeforeStable(v, d.path, e.path, NewNode(v, e));
    BeforeRanges(v, d.path, e.path);
  }

  lemma PrecedesInside(v: Json, d: Edit, e: Edit)
    requires Fits(v, d) && Fits(v, e) && e.Append? && Under(e.path, d.path)
    ensures Fits(Step(v, e), d) && Rep(Step(v, e), d) == Rep(v, d)
    ensures Rep(v, d).lo <= Rep(v, d).hi < Rep(v, e).lo + 1
  {
    hide Extended, Head, Tail, Insertion, Render, With, HasPath, At;
    UnderSplit(v, e.path, d.path);
    var r, box := d.path[|e.path|..], At(v, e.path);
    ExtendedKeeps(box, e.kid, r);
    RenderWith(v, e.path, NewNode(v, e));
    PathConcat(v, e.path, r);
    PathConcat(Step(v, e), e.path, r);
    InsideRange(box, r);
  }

  lemma InsideRange(box: Json, r: Path)
    requires HasPath(box, r) && r != []
    ensures |Head(box, r)| + |Render(At(box, r))| <= |Render(box)| - 1
    ensures |Head(box, r)| >= 1
  {
    RenderAt(box, r);
  }

  /** An edit visited earlier keeps its range when a later one has been made. */
  lemma PrecedesStable(v: Json, d: Edit, e: Edit)
    requires Fits(v, d) && Fits(v, e) && Precedes(d, e)
    ensures Fits(Step(v, e), d) && Rep(Step(v, e), d) == Rep(v, d)
    ensures Rep(v, d).hi <= Rep(v, e).lo
  {
    if Before(d.path, e.path) {
      PrecedesLeft(v, d, e);
      if e.Append? { assert |Render(At(v, e.path))| >= 1; }
    } else {
      PrecedesInside(v, d, e);
    }
  }

  // ----- several edits at once -----

  predicate AllFit(v: Json, es: seq<Edit>) { forall i :: 0 <= i < |es| ==> Fits(v, es[i]) }

  predicate InSequence(es: seq<Edit>) { forall i, j :: 0 <= i < j < |es| ==> Precedes(es[i], es[j]) }

  lemma LastStable(v: Json, es: seq<Edit>)
    requires es != [] && AllFit(v, es) && InSequence(es)
    ensures var e := es[|es| - 1];
            forall i :: 0 <= i < |es| - 1 ==>
              Fits(Step(v, e), es[i]) && Rep(Step(v, e), es[i]) == Rep(v, es[i]) && Rep(v, es[i]).hi <= Rep(v, e).lo
  {
    var n := |es| - 1;
    forall i | 0 <= i < n
      ensures Fits(Step(v, es[n]), es[i]) && Rep(Step(v, es[n]), es[i]) == Rep(v, es[i])
              && Rep(v, es[i]).hi <= Rep(v, es[n]).lo
    {
      PrecedesStable(v, es[i], es[n]);
    }
  }

  /** All edits made, the rightmost first. */
  function Edited(v: Json, es: seq<Edit>): Json
    requires AllFit(v, es) && InSequence(es)
    decreases |es|
  {
    if es == [] then v
    else
      LastStable(v, es);
      Edited(Step(v, es[|es| - 1]), es[..|es| - 1])
  }

  function Reps(v: Json, es: seq<Edit>): (r: seq<Replacement<char>>)
    requires AllFit(v, es)
    ensures |r| == |es| && forall i :: 0 <= i < |es| ==> r[i] == Rep(v, es[i])
  {
    seq(|es|, i requires 0 <= i < |es| => Rep(v, es[i]))
  }

  lemma {:induction false} PairwiseInOrder(rs: seq<Replacement<char>>, cursor: nat, n: nat)
    requires cursor <= n
    requires forall i :: 0 <= i < |rs| ==> cursor <= rs[i].lo <= rs[i].hi <= n
    requires forall i, j :: 0 <= i < j < |rs| ==> rs[i].hi <= rs[j].lo
    ensures InOrder(rs, cursor, n)
    decreases |rs|
  {
    if rs != [] {
      var t := rs[1..];
      forall i | 0 <= i < |t| ensures rs[0].hi <= t[i].lo <= t[i].hi <= n { assert t[i] == rs[i + 1]; }
      PairwiseInOrder(t, rs[0].hi, n);
    }
  }

  /** Ranges planned in document order never overlap and never leave the text. */
  lemma RepsInOrder(v: Json, es: seq<Edit>)
    requires AllFit(v, es) && InSequence(es)
    ensures InOrder(Reps(v, es), 0, |Render(v)|)
    ensures Visited(Reps(v, es)) == Reps(v, es)
  {
    var rs := Reps(v, es);
    forall i | 0 <= i < |es| ensures rs[i].lo <= rs[i].hi <= |Render(v)| { StepRender(v, es[i]); }
    forall i, j | 0 <= i < j < |es| ensures rs[i].hi <= rs[j].lo { PrecedesStable(v, es[i], es[j]); }
    PairwiseInOrder(rs, 0, |Render(v)|);
    SortFixes(rs, StartsBefore);
  }

  /** Splicing the rendered text is editing the tree. */
  lemma {:induction false} SpliceIsEdit(v: Json, es: seq<Edit>)
    requires AllFit(v, es) && InSequence(es)
    ensures InOrder(Reps(v, es), 0, |Render(v)|)
    ensures Spliced(Render(v), Reps(v, es), 0) == Render(Edited(v, es))
    decreases |es|
  {
    hide Rep, Reps, Under, Visited, With;
    RepsInOrder(v, es);
    if es == [] {
      assert Render(v)[0..] == Render(v);
    } else {
      var n := |es| - 1;
      var e, init := es[n], es[..n];
      LastStable(v, es);
      SpliceIsEdit(Step(v, e), init);
      RepsSplit(v, es);
      SplicedLast(Render(v), Reps(Step(v, e), init), Rep(v, e), 0);
      StepRender(v, e);
    }
  }

  lemma RepsSplit(v: Json, es: seq<Edit>)
    requires es != [] && AllFit(v, es) && InSequence(es)
    ensures var n := |es| - 1;
            && AllFit(Step(v, es[n]), es[..n])
            && Reps(v, es) == Reps(Step(v, es[n]), es[..n]) + [Rep(v, es[n])]
  {
    LastStable(v, es);
  }

  // ----- what edits keep -----

  predicate Apart(p: Path, q: Path) { Before(p, q) || Before(q, p) }

  lemma StepElsewhere(v: Json, e: Edit, p: Path)
    requires Fits(v, e) && HasPath(v, p) && Apart(p, e.path)
    ensures HasPath(Step(v, e), p) && At(Step(v, e), p) == At(v, p)
  {
    if Before(p, e.path) {
      BeforeStable(v, p, e.path, NewNode(v, e));
    } else {
      AfterStable(v, p, e.path, NewNode(v, e));
    }
  }

  /** A subtree no edit touches is unchanged, and so is every character of it. */
  lemma {:induction false} EditedElsewhere(v: Json, es: seq<Edit>, p: Path)
    requires AllFit(v, es) && InSequence(es) && HasPath(v, p)
    requires forall i :: 0 <= i < |es| ==> Apart(p, es[i].path)
    ensures HasPath(Edited(v, es), p) && At(Edited(v, es), p) == At(v, p)
    decreases |es|
  {
    if es != [] {
      LastStable(v, es);
      StepElsewhere(v, es[|es| - 1], p);
      EditedElsewhere(Step(v, es[|es| - 1]), es[..|es| - 1], p);
    }
  }

  /** After all edits each replaced position holds its new subtree. */
  lemma {:induction false} EditedHere(v: Json, es: seq<Edit>, k: nat)
    requires AllFit(v, es) && InSequence(es) && k < |es|
    requires forall i :: 0 <= i < |es| ==> es[i].Put?
    ensures HasPath(Edited(v, es), es[k].path) && At(Edited(v, es), es[k].path) == es[k].node
    decreases |es|
  {
    hide Rep, With, Render;
    var n := |es| - 1;
    var e, init := es[n], es[..n];
    LastStable(v, es);
    if k == n {
      RenderWith(v, e.path, e.node);
      EditedElsewhere(Step(v, e), init, e.path);
    } else {
      EditedHere(Step(v, e), init, k);
    }
  }

  lemma {:induction false} WfAt(v: Json, p: Path)
    requires Wf(v) && HasPath(v, p)
    ensures Wf(At(v, p))
    decreases p
  {
    if p != [] {
      assert KidOk(v.isObj, v.kids[p[0]]);
      WfAt(v.kids[p[0]].value, p[1..]);
    }
  }

  lemma {:induction false} WfWith(v: Json, p: Path, w: Json)
    requires Wf(v) && Wf(w) && HasPath(v, p)
    ensures Wf(With(v, p, w))
    decreases p
  {
    if p != [] {
      assert KidOk(v.isObj, v.kids[p[0]]);
      WfWith(v.kids[p[0]].value, p[1..], w);
      var u := With(v, p, w);
      forall i | 0 <= i < |u.kids| ensures KidOk(u.isObj, u.kids[i]) {
        assert KidOk(v.isObj, v.kids[i]);
      }
    }
  }

  lemma WfExtended(box: Json, kid: Kid)
    requires Wf(box) && box.Box? && KidOk(box.isObj, kid)
    ensures Wf(Extended(box, kid))
  {
    var u := Extended(box, kid);
    forall i | 0 <= i < |u.kids| ensures KidOk(u.isObj, u.kids[i]) {
      if i < |box.kids| { assert KidOk(box.isObj, box.kids[i]); }
    }
  }

  lemma PrecedesKind(v: Json, d: Edit, e: Edit)
    requires Fits(v, d) && Fits(v, e) && Precedes(d, e)
    ensures HasPath(Step(v, e), d.path) && At(Step(v, e), d.path) == At(v, d.path)
  {
    if Before(d.path, e.path) {
      BeforeStable(v, d.path, e.path, NewNode(v, e));
    } else {
      UnderSplit(v, e.path, d.path);
      var r := d.path[|e.path|..];
      ExtendedKeeps(At(v, e.path), e.kid, r);
      RenderWith(v, e.path, NewNode(v, e));
      AtConcat(v, e.path, r);
      AtConcat(Step(v, e), e.path, r);
    }
  }

  // ----- edits of a part, seen from the whole -----

  function Rebase(pp: Path, e: Edit): Edit { e.(path := pp + e.path) }

  lemma RebaseFits(v: Json, pp: Path, e: Edit)
    requires HasPath(v, pp) && Fits(At(v, pp), e)
    ensures Fits(v, Rebase(pp, e))
    ensures Rep(v, Rebase(pp, e)) ==
            (var r := Rep(At(v, pp), e); Replacement(|Head(v, pp)| + r.lo, |Head(v, pp)| + r.hi, r.bytes))
    ensures Step(v, Rebase(pp, e)) == With(v, pp, Step(At(v, pp), e))
  {
    hide At, Head, RenderRest, With;
    PathConcat(v, pp, e.path);
    WithConcat(v, pp, e.path, NewNode(At(v, pp), e));
  }

  lemma {:induction false} BeforePrefix(pp: Path, p: Path, q: Path)
    ensures Before(pp + p, pp + q) == Before(p, q)
  {
    if pp == [] {
      assert pp + p == p && pp + q == q;
    } else {
      BeforePrefix(pp[1..], p, q);
      assert (pp + p)[1..] == pp[1..] + p && (pp + q)[1..] == pp[1..] + q;
    }
  }

  lemma {:induction false} BeforeExtend(p: Path, q: Path, a: Path, b: Path)
    requires Before(p, q)
    ensures Before(p + a, q + b)
  {
    assert (p + a)[1..] == p[1..] + a && (q + b)[1..] == q[1..] + b;
    if p[0] == q[0] { BeforeExtend(p[1..], q[1..], a, b); }
  }

  // ----- whole bodies -----

  /** The replacements of a body: positions count from its first character. */
  function BodyReps(d: Doc, es: seq<Edit>): seq<Replacement<char>>
    requires AllFit(d.root, es)
  {
    Shift(Reps(d.root, es), |d.pre|)
  }

  function EditedDoc(d: Doc, es: seq<Edit>): Doc
    requires AllFit(d.root, es) && InSequence(es)
  {
    d.(root := Edited(d.root, es))
  }

  /** Splicing a body is editing its tree; blanks around the root are copied. */
  lemma SpliceBody(d: Doc, es: seq<Edit>)
    requires AllFit(d.root, es) && InSequence(es)
    ensures InOrder(BodyReps(d, es), 0, |RenderDoc(d)|)
    ensures Visited(BodyReps(d, es)) == BodyReps(d, es)
    ensures Spliced(RenderDoc(d), BodyReps(d, es), 0) == RenderDoc(EditedDoc(d, es))
  {
    SpliceIsEdit(d.root, es);
    SplicedInside(d.pre, Render(d.root), d.post, Reps(d.root, es));
    var rs := BodyReps(d, es);
    forall i, j | 0 <= i < j < |rs| ensures !StartsBefore(rs[j], rs[i]) {
      PrecedesStable(d.root, es[i], es[j]);
      StepRender(d.root, es[i]);
    }
    SortFixes(rs, StartsBefore);
  }
}
