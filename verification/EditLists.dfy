/** Edits planned part by part: inside one subtree, and kid by kid along a container. */
module EditLists {
  import opened Json
  import opened Splice
  import opened JsonEdits

  predicate Planned(v: Json, es: seq<Edit>) { AllFit(v, es) && InSequence(es) }

  lemma EditedOne(w: Json, e: Edit)
    requires Fits(w, e)
    ensures Planned(w, [e]) && Edited(w, [e]) == Step(w, e)
  {
    assert [e][..0] == [];
    assert Edited(w, [e]) == Edited(Step(w, e), [e][..0]);
  }

  lemma {:induction false} EditedConcat(v: Json, a: seq<Edit>, b: seq<Edit>)
    requires Planned(v, a + b)
    ensures Planned(v, b) && Planned(Edited(v, b), a)
    ensures Edited(v, a + b) == Edited(Edited(v, b), a)
    decreases |b|
  {
    PlannedParts(v, a, b);
    if b == [] {
      assert a + b == a;
    } else {
      var e, init := b[|b| - 1], b[..|b| - 1];
      assert (a + b)[..|a + b| - 1] == a + init && (a + b)[|a + b| - 1] == e;
      LastStable(v, a + b);
      LastStable(v, b);
      PlannedPrefix(Step(v, e), a + b, |a + b| - 1);
      EditedConcat(Step(v, e), a, init);
    }
  }

  lemma PlannedParts(v: Json, a: seq<Edit>, b: seq<Edit>)
    requires Planned(v, a + b)
    ensures Planned(v, a) && Planned(v, b)
  {
    forall i | 0 <= i < |a| ensures Fits(v, a[i]) { assert (a + b)[i] == a[i]; }
    forall i | 0 <= i < |b| ensures Fits(v, b[i]) { assert (a + b)[i + |a|] == b[i]; }
    forall i, j | 0 <= i < j < |a| ensures Precedes(a[i], a[j]) { assert (a + b)[i] == a[i] && (a + b)[j] == a[j]; }
    forall i, j | 0 <= i < j < |b| ensures Precedes(b[i], b[j]) {
      assert (a + b)[i + |a|] == b[i] && (a + b)[j + |a|] == b[j];
    }
  }

  lemma PlannedPrefix(v: Json, es: seq<Edit>, n: nat)
    requires n <= |es| && InSequence(es) && forall i :: 0 <= i < n ==> Fits(v, es[i])
    ensures Planned(v, es[..n])
  {
  }

  // ----- edits of one subtree -----

  function RebaseAll(pp: Path, es: seq<Edit>): (r: seq<Edit>)
    ensures |r| == |es| && forall i :: 0 <= i < |es| ==> r[i] == Rebase(pp, es[i])
  {
    seq(|es|, i requires 0 <= i < |es| => Rebase(pp, es[i]))
  }

  lemma UnderPrefix(pp: Path, p: Path, q: Path)
    ensures Under(pp + p, pp + q) == Under(p, q)
  {
    if |p| < |q| {
      assert (pp + q)[..|pp + p|] == pp + q[..|p|];
      assert pp + q[..|p|] == pp + p ==> (pp + q[..|p|])[|pp|..] == (pp + p)[|pp|..];
      assert (pp + q[..|p|])[|pp|..] == q[..|p|] && (pp + p)[|pp|..] == p;
    }
  }

  lemma RebasePlanned(v: Json, pp: Path, es: seq<Edit>)
    requires HasPath(v, pp) && Planned(At(v, pp), es)
    ensures Planned(v, RebaseAll(pp, es))
  {
    var rs := RebaseAll(pp, es);
    forall i | 0 <= i < |rs| ensures Fits(v, rs[i]) { RebaseFits(v, pp, es[i]); }
    forall i, j | 0 <= i < j < |rs| ensures Precedes(rs[i], rs[j]) {
      assert Precedes(es[i], es[j]);
      BeforePrefix(pp, es[i].path, es[j].path);
      UnderPrefix(pp, es[j].path, es[i].path);
    }
  }

  lemma {:induction false} WithTwice(v: Json, pp: Path, a: Json, b: Json)
    requires HasPath(v, pp)
    ensures HasPath(With(v, pp, a), pp) && With(With(v, pp, a), pp, b) == With(v, pp, b)
    decreases pp
  {
    if pp != [] {
      var k := pp[0];
      WithTwice(v.kids[k].value, pp[1..], a, b);
      var w := With(v, pp, a);
      assert w.kids[k].value == With(v.kids[k].value, pp[1..], a);
      assert With(w, pp, b).kids == With(v, pp, b).kids;
    }
  }

  lemma {:induction false} WithSame(v: Json, pp: Path)
    requires HasPath(v, pp)
    ensures With(v, pp, At(v, pp)) == v
    decreases pp
  {
    if pp != [] { WithSame(v.kids[pp[0]].value, pp[1..]); }
  }

  lemma RebaseInit(pp: Path, es: seq<Edit>)
    requires es != []
    ensures RebaseAll(pp, es)[..|es| - 1] == RebaseAll(pp, es[..|es| - 1])
  {
  }

  /** Editing a subtree in place is replacing it by its edited form. */
  lemma {:induction false} EditedRebase(v: Json, pp: Path, es: seq<Edit>)
    requires HasPath(v, pp) && Planned(At(v, pp), es)
    ensures Planned(v, RebaseAll(pp, es))
    ensures Edited(v, RebaseAll(pp, es)) == With(v, pp, Edited(At(v, pp), es))
    decreases |es|, 1
  {
    RebasePlanned(v, pp, es);
    if es == [] {
      WithSame(v, pp);
    } else {
      EditedRebaseStep(v, pp, es);
      RebaseInit(pp, es);
    }
  }

  lemma {:induction false} EditedRebaseStep(v: Json, pp: Path, es: seq<Edit>)
    requires HasPath(v, pp) && Planned(At(v, pp), es) && es != []
    ensures var n := |es| - 1;
            && Fits(v, Rebase(pp, es[n]))
            && Planned(Step(v, Rebase(pp, es[n])), RebaseAll(pp, es[..n]))
            && Edited(Step(v, Rebase(pp, es[n])), RebaseAll(pp, es[..n])) == With(v, pp, Edited(At(v, pp), es))
    decreases |es|, 0
  {
    var n := |es| - 1;
    var e, u := es[n], At(v, pp);
    LastStable(u, es);
    RebaseFits(v, pp, e);
    RenderWith(v, pp, Step(u, e));
    EditedRebase(Step(v, Rebase(pp, e)), pp, es[..n]);
    WithTwice(v, pp, Step(u, e), Edited(Step(u, e), es[..n]));
  }

  // ----- edits kid by kid -----

  /** Edits planned for a kid, given its index and value. */
  type Plan = (nat, Json) -> seq<Edit>

  ghost predicate PlansKids(v: Json, n: nat, f: Plan)
    requires v.Box? && n <= |v.kids|
  {
    forall i :: 0 <= i < n ==> Planned(v.kids[i].value, f(i, v.kids[i].value))
  }

  /** The edits of the first `n` kids, in document order. */
  function UpTo(kids: seq<Kid>, n: nat, f: Plan): seq<Edit>
    requires n <= |kids|
  {
    if n == 0 then [] else UpTo(kids, n - 1, f) + RebaseAll([n - 1], f(n - 1, kids[n - 1].value))
  }

  /** The container with the first `n` kids edited. */
  function Mapped(v: Json, n: nat, f: Plan): Json
    requires v.Box? && n <= |v.kids| && PlansKids(v, n, f)
  {
    v.(kids := seq(|v.kids|, i requires 0 <= i < |v.kids| =>
      if i < n then v.kids[i].(value := Edited(v.kids[i].value, f(i, v.kids[i].value))) else v.kids[i]))
  }

  lemma {:induction false} UpToBelow(kids: seq<Kid>, n: nat, f: Plan)
    requires n <= |kids|
    ensures forall i :: 0 <= i < |UpTo(kids, n, f)| ==>
            UpTo(kids, n, f)[i].path != [] && UpTo(kids, n, f)[i].path[0] < n
  {
    if n > 0 { UpToBelow(kids, n - 1, f); }
  }

  lemma {:induction false} UpToPlanned(v: Json, n: nat, f: Plan)
    requires v.Box? && n <= |v.kids| && PlansKids(v, n, f)
    ensures Planned(v, UpTo(v.kids, n, f))
  {
    if n > 0 {
      UpToPlanned(v, n - 1, f);
      UpToBelow(v.kids, n - 1, f);
      var a, b := UpTo(v.kids, n - 1, f), RebaseAll([n - 1], f(n - 1, v.kids[n - 1].value));
      RebasePlanned(v, [n - 1], f(n - 1, v.kids[n - 1].value));
      forall i, j | 0 <= i < |a| && 0 <= j < |b| ensures Precedes(a[i], b[j]) {
        assert b[j].path == [n - 1] + f(n - 1, v.kids[n - 1].value)[j].path;
        assert Before(a[i].path, b[j].path);
      }
      JoinPlanned(v, a, b);
    }
  }

  lemma JoinPlanned(v: Json, a: seq<Edit>, b: seq<Edit>)
    requires Planned(v, a) && Planned(v, b)
    requires forall i, j :: 0 <= i < |a| && 0 <= j < |b| ==> Precedes(a[i], b[j])
    ensures Planned(v, a + b)
  {
  }

  lemma {:induction false} UpToSame(a: seq<Kid>, b: seq<Kid>, n: nat, f: Plan)
    requires n <= |a| && n <= |b| && forall i :: 0 <= i < n ==> a[i].value == b[i].value
    ensures UpTo(a, n, f) == UpTo(b, n, f)
  {
    if n > 0 { UpToSame(a, b, n - 1, f); }
  }

  /** Editing along a container edits each kid on its own. */
  lemma {:induction false} EditedUpTo(v: Json, n: nat, f: Plan)
    requires v.Box? && n <= |v.kids| && PlansKids(v, n, f)
    ensures Planned(v, UpTo(v.kids, n, f))
    ensures Edited(v, UpTo(v.kids, n, f)) == Mapped(v, n, f)
    decreases n
  {
    hide Edited, AllFit, InSequence;
    UpToPlanned(v, n, f);
    if n == 0 {
      assert Mapped(v, 0, f).kids == v.kids;
      EditedNothing(v);
    } else {
      var k := n - 1;
      var w := LastKidEdited(v, k, f);
      SamePlans(v, w, k, f);
      UpToSame(v.kids, w.kids, k, f);
      EditedUpTo(w, k, f);
      MappedStep(v, k, f);
    }
  }

  lemma EditedNothing(v: Json)
    ensures Planned(v, []) && Edited(v, []) == v
  {
  }

  /** Editing the last kid first. */
  lemma LastKidEdited(v: Json, k: nat, f: Plan) returns (w: Json)
    requires v.Box? && k < |v.kids| && PlansKids(v, k + 1, f) && Planned(v, UpTo(v.kids, k + 1, f))
    ensures w == WithKid(v, k, Edited(v.kids[k].value, f(k, v.kids[k].value)))
    ensures Planned(w, UpTo(v.kids, k, f)) && Edited(v, UpTo(v.kids, k + 1, f)) == Edited(w, UpTo(v.kids, k, f))
  {
    hide Edited, AllFit, InSequence;
    var es := f(k, v.kids[k].value);
    OneKid(v, k);
    EditedConcat(v, UpTo(v.kids, k, f), RebaseAll([k], es));
    EditedRebase(v, [k], es);
    w := WithKid(v, k, Edited(v.kids[k].value, es));
    OneKidWith(v, k, Edited(v.kids[k].value, es));
  }

  lemma OneKid(v: Json, k: nat)
    requires v.Box? && k < |v.kids|
    ensures HasPath(v, [k]) && At(v, [k]) == v.kids[k].value
  {
  }

  lemma OneKidWith(v: Json, k: nat, x: Json)
    requires v.Box? && k < |v.kids| && HasPath(v, [k])
    ensures With(v, [k], x) == WithKid(v, k, x)
  {
  }

  lemma SamePlans(v: Json, w: Json, k: nat, f: Plan)
    requires v.Box? && w.Box? && k < |v.kids| && |w.kids| == |v.kids| && PlansKids(v, k + 1, f)
    requires exists x :: w == WithKid(v, k, x)
    ensures PlansKids(w, k, f) && forall i :: 0 <= i < k ==> w.kids[i].value == v.kids[i].value
  {
    hide Planned;
    assert forall i :: 0 <= i < k ==> w.kids[i] == v.kids[i];
  }

  lemma MappedStep(v: Json, k: nat, f: Plan)
    requires v.Box? && k < |v.kids| && PlansKids(v, k + 1, f)
    ensures var w := WithKid(v, k, Edited(v.kids[k].value, f(k, v.kids[k].value)));
            PlansKids(w, k, f) && Mapped(w, k, f) == Mapped(v, k + 1, f)
  {
    var w := WithKid(v, k, Edited(v.kids[k].value, f(k, v.kids[k].value)));
    assert forall i :: 0 <= i < k ==> w.kids[i] == v.kids[i];
    assert Mapped(w, k, f).kids == Mapped(v, k + 1, f).kids;
  }

  // ----- the replacements of edits planned in a part of a larger text -----

  /** Byte-range form of edits of `v`, whose text starts at position `base` of the body. */
  function Moves(v: Json, es: seq<Edit>, base: nat): seq<Replacement<char>>
    requires AllFit(v, es)
  {
    Shift(Reps(v, es), base)
  }

  lemma MovesConcat(v: Json, a: seq<Edit>, b: seq<Edit>, base: nat)
    requires AllFit(v, a) && AllFit(v, b)
    ensures AllFit(v, a + b) && Moves(v, a + b, base) == Moves(v, a, base) + Moves(v, b, base)
  {
    hide Rep;
  }

  lemma RebaseConcat(pp: Path, a: seq<Edit>, b: seq<Edit>)
    ensures RebaseAll(pp, a + b) == RebaseAll(pp, a) + RebaseAll(pp, b)
  {
  }

  lemma RebaseTwice(pp: Path, qq: Path, es: seq<Edit>)
    ensures RebaseAll(pp, RebaseAll(qq, es)) == RebaseAll(pp + qq, es)
  {
    forall i | 0 <= i < |es| ensures pp + (qq + es[i].path) == (pp + qq) + es[i].path {}
  }

  function Moved(r: Replacement<char>, n: nat): Replacement<char> { Replacement(r.lo + n, r.hi + n, r.bytes) }

  lemma RebaseAllFit(v: Json, pp: Path, es: seq<Edit>)
    requires HasPath(v, pp) && AllFit(At(v, pp), es)
    ensures AllFit(v, RebaseAll(pp, es))
  {
    forall i | 0 <= i < |es| ensures Fits(v, Rebase(pp, es[i])) { RebaseFits(v, pp, es[i]); }
  }

  lemma RebaseMove(v: Json, pp: Path, e: Edit, base: nat)
    requires HasPath(v, pp) && Fits(At(v, pp), e)
    ensures Fits(v, Rebase(pp, e))
    ensures Moved(Rep(v, Rebase(pp, e)), base) == Moved(Rep(At(v, pp), e), base + |Head(v, pp)|)
  {
    RebaseFits(v, pp, e);
  }

  /** Planning a part at the offset of the part is planning it from the whole. */
  lemma RebaseMoves(v: Json, pp: Path, es: seq<Edit>, base: nat)
    requires HasPath(v, pp) && AllFit(At(v, pp), es)
    ensures AllFit(v, RebaseAll(pp, es))
    ensures Moves(v, RebaseAll(pp, es), base) == Moves(At(v, pp), es, base + |Head(v, pp)|)
  {
    RebaseAllFit(v, pp, es);
    var a, b := Moves(v, RebaseAll(pp, es), base), Moves(At(v, pp), es, base + |Head(v, pp)|);
    forall i | 0 <= i < |es| ensures a[i] == b[i] {
      RebaseMove(v, pp, es[i], base);
      MoveAt(v, RebaseAll(pp, es), base, i);
      MoveAt(At(v, pp), es, base + |Head(v, pp)|, i);
    }
  }

  lemma MoveAt(v: Json, es: seq<Edit>, base: nat, i: nat)
    requires AllFit(v, es) && i < |es|
    ensures Moves(v, es, base)[i] == Moved(Rep(v, es[i]), base)
  {
  }
}
