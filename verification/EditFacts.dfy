/** What whole lists of edits keep, from what each single edit does. */
module EditFacts {
  import opened Json
  import opened JsonEdits
  import opened EditLists
  import opened Values
  import opened LiveZone
  import opened Tools
  import opened Rewriting

  // ----- judging each edit by the node it changes -----

  /** A test of an edit, given the subtree at its position. */
  type Check = (Json, Edit) -> bool

  predicate Judged(v: Json, e: Edit, ok: Check)
    requires Fits(v, e)
  {
    ok(At(v, e.path), e.(path := []))
  }

  predicate AllJudged(v: Json, es: seq<Edit>, ok: Check)
    requires AllFit(v, es)
  {
    forall i :: 0 <= i < |es| ==> Judged(v, es[i], ok)
  }

  lemma JudgedRebase(v: Json, pp: Path, es: seq<Edit>, ok: Check)
    requires HasPath(v, pp) && AllFit(At(v, pp), es) && AllJudged(At(v, pp), es, ok)
    ensures AllFit(v, RebaseAll(pp, es)) && AllJudged(v, RebaseAll(pp, es), ok)
  {
    RebaseAllFit(v, pp, es);
    forall i | 0 <= i < |es| ensures Judged(v, Rebase(pp, es[i]), ok) {
      assert Judged(At(v, pp), es[i], ok);
      AtConcat(v, pp, es[i].path);
    }
  }

  lemma JudgedConcat(v: Json, a: seq<Edit>, b: seq<Edit>, ok: Check)
    requires AllFit(v, a) && AllFit(v, b) && AllJudged(v, a, ok) && AllJudged(v, b, ok)
    ensures AllFit(v, a + b) && AllJudged(v, a + b, ok)
  {
  }

  lemma {:induction false} JudgedUpTo(v: Json, n: nat, f: Plan, ok: Check)
    requires v.Box? && n <= |v.kids|
    requires forall i :: 0 <= i < n ==>
               AllFit(v.kids[i].value, f(i, v.kids[i].value)) && AllJudged(v.kids[i].value, f(i, v.kids[i].value), ok)
    ensures AllFit(v, UpTo(v.kids, n, f)) && AllJudged(v, UpTo(v.kids, n, f), ok)
  {
    if n > 0 {
      var k := n - 1;
      JudgedUpTo(v, k, f, ok);
      AtOne(v, k);
      JudgedRebase(v, [k], f(k, v.kids[k].value), ok);
      JudgedConcat(v, UpTo(v.kids, k, f), RebaseAll([k], f(k, v.kids[k].value)), ok);
    }
  }

  /** A property of trees that their subtrees inherit. */
  ghost predicate Inherited(good: Json -> bool) {
    forall v, k :: good(v) && v.Box? && 0 <= k < |v.kids| ==> good(v.kids[k].value)
  }

  ghost predicate Yields(g: Plan, good: Json -> bool, ok: Check) {
    forall i, x :: good(x) ==> AllFit(x, g(i, x)) && AllJudged(x, g(i, x), ok)
  }

  lemma JudgedEntry(i: nat, entry: Json, g: Plan, good: Json -> bool, ok: Check)
    requires good(entry) && Inherited(good) && Yields(g, good, ok)
    ensures AllFit(entry, EntryEdits(i, entry, g)) && AllJudged(entry, EntryEdits(i, entry, g), ok)
  {
    var q := Field(entry, "params");
    if ViewOk(entry, {"params"}) && q.Some? {
      var params := entry.kids[q.value].value;
      assert good(params);
      AtOne(entry, q.value);
      assert AllFit(params, g(i, params)) && AllJudged(params, g(i, params), ok);
      JudgedRebase(entry, [q.value], g(i, params), ok);
    }
  }

  lemma JudgedPerRequest(shape: Shape, v: Json, g: Plan, good: Json -> bool, ok: Check)
    requires good(v) && Inherited(good) && Yields(g, good, ok)
    ensures AllFit(v, PerRequest(shape, v, g)) && AllJudged(v, PerRequest(shape, v, g), ok)
  {
    if shape != AnthropicBatches {
      assert AllFit(v, g(0, v)) && AllJudged(v, g(0, v), ok);
    } else {
      var k := ListField(v, "requests");
      if k.Some? {
        var list := v.kids[k.value].value;
        assert good(list);
        forall i | 0 <= i < |list.kids|
          ensures AllFit(list.kids[i].value, EntryPlan(g)(i, list.kids[i].value))
          ensures AllJudged(list.kids[i].value, EntryPlan(g)(i, list.kids[i].value), ok)
        {
          assert good(list.kids[i].value);
          JudgedEntry(i, list.kids[i].value, g, good, ok);
        }
        JudgedUpTo(list, |list.kids|, EntryPlan(g), ok);
        AtOne(v, k.value);
        JudgedRebase(v, [k.value], UpTo(list.kids, |list.kids|, EntryPlan(g)), ok);
      }
    }
  }

  /** The test survives edits made further right. */
  lemma JudgedInit(v: Json, es: seq<Edit>, ok: Check)
    requires es != [] && Planned(v, es) && AllJudged(v, es, ok)
    ensures var n := |es| - 1;
            Planned(Step(v, es[n]), es[..n]) && AllJudged(Step(v, es[n]), es[..n], ok)
  {
    var n := |es| - 1;
    LastStable(v, es);
    forall i | 0 <= i < n ensures Judged(Step(v, es[n]), es[..n][i], ok) {
      assert Judged(v, es[i], ok);
      PrecedesKind(v, es[i], es[n]);
    }
  }

  /** A property every judged edit keeps is kept by all of them. */
  ghost predicate Keeps(ok: Check, good: Json -> bool) {
    forall v: Json, e: Edit :: good(v) && Fits(v, e) && Judged(v, e, ok) ==> good(Step(v, e))
  }

  lemma {:induction false} EditedGood(v: Json, es: seq<Edit>, ok: Check, good: Json -> bool)
    requires Planned(v, es) && AllJudged(v, es, ok) && good(v) && Keeps(ok, good)
    ensures good(Edited(v, es))
    decreases |es|
  {
    if es != [] {
      JudgedInit(v, es, ok);
      assert Judged(v, es[|es| - 1], ok);
      EditedGood(Step(v, es[|es| - 1]), es[..|es| - 1], ok, good);
    }
  }

  // ----- well-formedness -----

  predicate WfCheck(x: Json, e: Edit) {
    match e
    case Put(_, node) => Wf(node)
    case Append(_, kid) => x.Box? && KidOk(x.isObj, kid)
  }

  lemma WfInherited()
    ensures Inherited(Wf)
  {
    forall v, k | Wf(v) && v.Box? && 0 <= k < |v.kids| ensures Wf(v.kids[k].value) { assert KidOk(v.isObj, v.kids[k]); }
  }

  lemma WfKept()
    ensures Keeps(WfCheck, Wf)
  {
    forall v: Json, e: Edit | Wf(v) && Fits(v, e) && Judged(v, e, WfCheck) ensures Wf(Step(v, e)) {
      WfAt(v, e.path);
      if e.Append? { WfExtended(At(v, e.path), e.kid); }
      WfWith(v, e.path, NewNode(v, e));
    }
  }

  // ----- no repeated keys -----

  predicate Distinct(s: seq<string>) { forall i, j :: 0 <= i < j < |s| ==> s[i] != s[j] }

  /** No object in the tree repeats a key. */
  predicate Tidy(v: Json)
    decreases v
  {
    v.Box? ==>
      && (v.isObj ==> Distinct(Keys(v.kids)))
      && forall i :: 0 <= i < |v.kids| ==> TidyKid(v.kids[i])
  }

  predicate TidyKid(kid: Kid)
    decreases kid
  {
    Tidy(kid.value)
  }

  predicate TidyCheck(x: Json, e: Edit) {
    match e
    case Put(_, node) => Tidy(node)
    case Append(_, kid) => Tidy(kid.value) && x.Box? && (x.isObj ==> Text(kid.key) !in Keys(x.kids))
  }

  lemma TidyInherited()
    ensures Inherited(Tidy)
  {
    forall v, k | Tidy(v) && v.Box? && 0 <= k < |v.kids| ensures Tidy(v.kids[k].value) { assert TidyKid(v.kids[k]); }
  }

  lemma {:induction false} TidyAt(v: Json, p: Path)
    requires Tidy(v) && HasPath(v, p)
    ensures Tidy(At(v, p))
    decreases p
  {
    if p != [] {
      assert TidyKid(v.kids[p[0]]);
      TidyAt(v.kids[p[0]].value, p[1..]);
    }
  }

  lemma TidyWithKid(v: Json, k: nat, w: Json)
    requires v.Box? && k < |v.kids| && Tidy(v) && Tidy(w)
    ensures Tidy(WithKid(v, k, w))
  {
    var u := WithKid(v, k, w);
    assert Keys(u.kids) == Keys(v.kids);
    forall i | 0 <= i < |u.kids| ensures TidyKid(u.kids[i]) { assert TidyKid(v.kids[i]); }
  }

  lemma {:induction false} TidyWith(v: Json, p: Path, w: Json)
    requires HasPath(v, p) && Tidy(v) && Tidy(w)
    ensures Tidy(With(v, p, w))
    decreases p
  {
    if p != [] {
      assert TidyKid(v.kids[p[0]]);
      TidyWith(v.kids[p[0]].value, p[1..], w);
      TidyWithKid(v, p[0], With(v.kids[p[0]].value, p[1..], w));
    }
  }

  lemma TidyExtended(box: Json, kid: Kid)
    requires box.Box? && Tidy(box) && Tidy(kid.value) && (box.isObj ==> Text(kid.key) !in Keys(box.kids))
    ensures Tidy(Extended(box, kid))
  {
    var u := Extended(box, kid);
    assert Keys(u.kids) == Keys(box.kids) + [Text(kid.key)];
    forall i | 0 <= i < |u.kids| ensures TidyKid(u.kids[i]) {
      if i < |box.kids| { assert TidyKid(box.kids[i]); }
    }
  }

  lemma TidyKept()
    ensures Keeps(TidyCheck, Tidy)
  {
    forall v: Json, e: Edit | Tidy(v) && Fits(v, e) && Judged(v, e, TidyCheck) ensures Tidy(Step(v, e)) {
      TidyAt(v, e.path);
      if e.Append? { TidyExtended(At(v, e.path), e.kid); }
      TidyWith(v, e.path, NewNode(v, e));
    }
  }

  // ----- what edits leave alone -----

  /** The edit does not reach the subtree at `p`: it is beside it, or adds to a container around it. */
  predicate Spares(e: Edit, p: Path) { Apart(p, e.path) || (e.Append? && Under(e.path, p)) }

  predicate AllSpare(es: seq<Edit>, p: Path) { forall i :: 0 <= i < |es| ==> Spares(es[i], p) }

  /** Edits below the root keep its members. */
  lemma {:induction false} EditedRoot(v: Json, es: seq<Edit>)
    requires Planned(v, es) && v.Box? && forall i :: 0 <= i < |es| ==> es[i].path != []
    ensures var w := Edited(v, es);
            w.Box? && w.isObj == v.isObj && |w.kids| == |v.kids| && w.blank == v.blank
            && forall i :: 0 <= i < |v.kids| ==> w.kids[i] == v.kids[i].(value := w.kids[i].value)
    decreases |es|
  {
    if es != [] {
      LastStable(v, es);
      EditedRoot(Step(v, es[|es| - 1]), es[..|es| - 1]);
    }
  }
}
