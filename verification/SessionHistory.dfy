/** Which floor a session is handed, told from the whole history of requests and answers. */
module SessionHistory {
  import opened Prelude
  import opened Values
  import opened PrefixTracker

  /** A clock that never runs back. */
  predicate Steady(ops: seq<Op>) { forall i, j :: 0 <= i <= j < |ops| ==> ops[i].time <= ops[j].time }

  /** An operation sweeps the sessions unless one less than a minute before did. */
  predicate Sweeps(ops: seq<Op>, m: nat)
    decreases m
  {
    m < |ops| && forall l: nat :: l < m && Sweeps(ops, l) ==> ops[l].time + 60 <= ops[m].time
  }

  /** Operation `i` is the last answer recorded for the session. */
  predicate LastAnswer(ops: seq<Op>, key: string, i: nat) {
    && i < |ops| && ops[i].Update? && ops[i].key == key
    && forall j :: i < j < |ops| && ops[j].key == key ==> ops[j].Query?
  }

  /** The session was used in the ten minutes before operation `m`, at or after operation `i`. */
  predicate UsedBefore(ops: seq<Op>, key: string, i: nat, m: nat)
    requires m < |ops|
  {
    exists l :: i <= l < m && ops[l].key == key && ops[m].time <= ops[l].time + 600
  }

  /** No sweep since that answer found the session idle for longer. */
  predicate Remembered(ops: seq<Op>, key: string, i: nat) {
    LastAnswer(ops, key, i) && forall m: nat :: i < m < |ops| && Sweeps(ops, m) ==> UsedBefore(ops, key, i, m)
  }

  /** The greatest number of leading messages whose estimates fit the tokens, from 1024 tokens on. */
  predicate FloorIs(answer: Op, n: nat)
    requires answer.Update?
  {
    var total := SaturatingAdd(answer.read, answer.written);
    if total < 1024 then n == 0
    else
      && n <= |answer.estimates| && PrefixSum(answer.estimates, n) <= total
      && forall j :: n < j <= |answer.estimates| ==> PrefixSum(answer.estimates, j) > total
  }

  // ----- the last sweep -----

  ghost predicate SweptLast(ops: seq<Op>, last: Option<nat>) {
    && (last.None? <==> ops == [])
    && (last.Some? ==> exists s: nat :: Sweeps(ops, s) && ops[s].time == last.value)
    && (last.Some? ==> forall m: nat :: Sweeps(ops, m) ==> ops[m].time <= last.value)
  }

  lemma {:induction false} SweepsEarlier(ops: seq<Op>, op: Op, m: nat)
    requires m < |ops|
    ensures Sweeps(ops + [op], m) <==> Sweeps(ops, m)
    decreases m
  {
    forall l: nat | l < m ensures Sweeps(ops + [op], l) <==> Sweeps(ops, l) { SweepsEarlier(ops, op, l); }
  }

  predicate Due(last: Option<nat>, now: nat) { last.None? || last.value + 60 <= now }

  /** The next operation sweeps when the last sweep is a minute away. */
  lemma SweepDue(ops: seq<Op>, op: Op, last: Option<nat>)
    requires SweptLast(ops, last)
    ensures Sweeps(ops + [op], |ops|) <==> Due(last, op.time)
  {
    var all := ops + [op];
    forall l: nat | l < |ops| ensures Sweeps(all, l) <==> Sweeps(ops, l) { SweepsEarlier(ops, op, l); }
    if last.Some? {
      var s: nat :| Sweeps(ops, s) && ops[s].time == last.value;
      assert all[s] == ops[s] && Sweeps(all, s);
    }
  }

  lemma SweptNext(ops: seq<Op>, op: Op, last: Option<nat>)
    requires SweptLast(ops, last) && Steady(ops + [op])
    ensures SweptLast(ops + [op], if Due(last, op.time) then Some(op.time) else last)
  {
    var all := ops + [op];
    SweepDue(ops, op, last);
    forall l: nat | l < |ops| ensures Sweeps(all, l) <==> Sweeps(ops, l) { SweepsEarlier(ops, op, l); }
    assert all[|ops|] == op;
    forall m: nat | Sweeps(all, m) ensures all[m].time <= op.time { assert all[m].time <= all[|ops|].time; }
    if !Due(last, op.time) {
      var s: nat :| Sweeps(ops, s) && ops[s].time == last.value;
      assert all[s] == ops[s] && Sweeps(all, s);
      forall m: nat | Sweeps(all, m) ensures all[m].time <= last.value { assert m < |ops| && all[m] == ops[m]; }
    }
  }

  // ----- one session -----

  /** The session was last used at this time. */
  predicate LastUsed(ops: seq<Op>, key: string, i: nat, time: nat) {
    && (exists l :: i <= l < |ops| && ops[l].key == key && ops[l].time == time)
    && forall l :: i <= l < |ops| && ops[l].key == key ==> ops[l].time <= time
  }

  /** What the state of a session takes from an answer. */
  predicate TakenFrom(s: PrefixState, ops: seq<Op>, i: nat) {
    && i < |ops| && ops[i].Update? && s.turns > 0
    && s.cachedTokens == SaturatingAdd(ops[i].read, ops[i].written)
    && s.cachedMessages == Floor(ops[i].estimates, s.cachedTokens)
  }

  /** What the trackers hold of the session after these operations. */
  ghost predicate Held(ops: seq<Op>, key: string, t: Trackers) {
    if key in t.prefixes then
      var s := t.prefixes[key];
      exists i: nat :: Remembered(ops, key, i) && LastUsed(ops, key, i, s.lastActivity) && TakenFrom(s, ops, i)
    else forall i: nat :: !Remembered(ops, key, i)
  }

  lemma UsedEarlier(ops: seq<Op>, op: Op, key: string, i: nat, m: nat)
    requires m < |ops|
    ensures UsedBefore(ops + [op], key, i, m) <==> UsedBefore(ops, key, i, m)
  {
    var all := ops + [op];
    assert forall l :: 0 <= l <= m ==> all[l] == ops[l];
  }

  /** An answer is still remembered after an operation that is no newer answer. */
  lemma RememberedNext(ops: seq<Op>, op: Op, key: string, i: nat)
    requires i < |ops|
    ensures Remembered(ops + [op], key, i) <==>
            && Remembered(ops, key, i) && !(op.Update? && op.key == key)
            && (Sweeps(ops + [op], |ops|) ==> UsedBefore(ops + [op], key, i, |ops|))
  {
    hide Sweeps, UsedBefore;
    var all := ops + [op];
    assert all[|ops|] == op && forall j :: 0 <= j < |ops| ==> all[j] == ops[j];
    forall m: nat | m < |ops|
      ensures Sweeps(all, m) <==> Sweeps(ops, m)
      ensures UsedBefore(all, key, i, m) <==> UsedBefore(ops, key, i, m)
    {
      SweepsEarlier(ops, op, m);
      UsedEarlier(ops, op, key, i, m);
    }
    AnswerNext(ops, op, key, i);
  }

  lemma AnswerNext(ops: seq<Op>, op: Op, key: string, i: nat)
    requires i < |ops|
    ensures LastAnswer(ops + [op], key, i) <==> LastAnswer(ops, key, i) && !(op.Update? && op.key == key)
  {
    var all := ops + [op];
    assert all[|ops|] == op && forall j :: 0 <= j < |ops| ==> all[j] == ops[j];
  }

  /** The last use decides whether a sweep finds the session idle. */
  lemma UsedNow(ops: seq<Op>, op: Op, key: string, i: nat, time: nat)
    requires i < |ops| && LastUsed(ops, key, i, time)
    ensures UsedBefore(ops + [op], key, i, |ops|) <==> op.time <= time + 600
  {
    var all := ops + [op];
    assert all[|ops|] == op && forall j :: 0 <= j < |ops| ==> all[j] == ops[j];
    var l :| i <= l < |ops| && ops[l].key == key && ops[l].time == time;
    assert all[l].time == time;
  }

  lemma LastUsedNext(ops: seq<Op>, op: Op, key: string, i: nat, time: nat)
    requires i < |ops| && LastUsed(ops, key, i, time) && Steady(ops + [op])
    ensures LastUsed(ops + [op], key, i, if op.key == key then op.time else time)
  {
    var all := ops + [op];
    assert all[|ops|] == op && forall j :: 0 <= j < |ops| ==> all[j] == ops[j];
    var l :| i <= l < |ops| && ops[l].key == key && ops[l].time == time;
    assert all[l].time == time && all[l].key == key;
    forall l | i <= l < |all| ensures all[l].time <= op.time { assert all[l].time <= all[|ops|].time; }
  }

  /** Whether the session is there once a sweep that is due is done. */
  lemma KeptSwept(t: Trackers, key: string, now: nat)
    ensures var c := Cleaned(t, now);
            && c.lastCleanup == (if Due(t.lastCleanup, now) then Some(now) else t.lastCleanup)
            && (key in c.prefixes <==>
                  key in t.prefixes && (Due(t.lastCleanup, now) ==> now <= t.prefixes[key].lastActivity + 600))
            && (key in c.prefixes ==> c.prefixes[key] == t.prefixes[key])
  {
  }

  lemma AnswersOnce(ops: seq<Op>, key: string, i: nat, j: nat)
    requires LastAnswer(ops, key, i) && LastAnswer(ops, key, j)
    ensures i == j
  {
  }

  /** An operation that is no answer of the session. */
  lemma HeldUnanswered(ops: seq<Op>, op: Op, key: string, t: Trackers)
    requires Steady(ops + [op]) && SweptLast(ops, t.lastCleanup) && Held(ops, key, t)
    requires op.key != key || op.Query?
    ensures Held(ops + [op], key, Perform(t, op))
  {
    hide Sweeps, UsedBefore, LastUsed, Remembered, Steady, SweptLast, Floor, Cleaned;
    var all, r := ops + [op], Perform(t, op);
    SweepDue(ops, op, t.lastCleanup);
    KeptSwept(t, key, op.time);
    assert !Remembered(all, key, |ops|) by { NoAnswer(ops, op, key); }
    if key in t.prefixes {
      var s := t.prefixes[key];
      var i: nat :| Remembered(ops, key, i) && LastUsed(ops, key, i, s.lastActivity) && TakenFrom(s, ops, i);
      RememberedNext(ops, op, key, i);
      UsedNow(ops, op, key, i, s.lastActivity);
      LastUsedNext(ops, op, key, i, s.lastActivity);
      assert all[i] == ops[i];
      forall j: nat | j != i ensures !Remembered(all, key, j) { OnlyOne(ops, op, key, i, j); }
    } else {
      forall j: nat ensures !Remembered(all, key, j) { StillNone(ops, op, key, j); }
    }
  }

  lemma NoAnswer(ops: seq<Op>, op: Op, key: string)
    requires op.key != key || op.Query?
    ensures !Remembered(ops + [op], key, |ops|)
  {
  }

  lemma OnlyOne(ops: seq<Op>, op: Op, key: string, i: nat, j: nat)
    requires Remembered(ops, key, i) && j != i && (op.key != key || op.Query?)
    ensures !Remembered(ops + [op], key, j)
  {
    hide Sweeps, UsedBefore;
    if j < |ops| {
      AnswerNext(ops, op, key, j);
      if LastAnswer(ops, key, j) { AnswersOnce(ops, key, i, j); }
    } else {
      NoAnswer(ops, op, key);
    }
  }

  lemma StillNone(ops: seq<Op>, op: Op, key: string, j: nat)
    requires !Remembered(ops, key, j) && (op.key != key || op.Query?)
    ensures !Remembered(ops + [op], key, j)
  {
    if j < |ops| {
      hide *;
      RememberedNext(ops, op, key, j);
    } else {
      NoAnswer(ops, op, key);
    }
  }

  /** An answer of the session starts it anew. */
  lemma HeldAnswered(ops: seq<Op>, op: Op, key: string, t: Trackers)
    requires op.Update? && op.key == key
    ensures Held(ops + [op], key, Perform(t, op))
  {
    hide Sweeps, UsedBefore, Floor, Cleaned;
    var all := ops + [op];
    assert all[|ops|] == op;
    assert Remembered(all, key, |ops|) && LastUsed(all, key, |ops|, op.time);
  }

  lemma {:induction false} RunLast(t: Trackers, ops: seq<Op>, op: Op)
    ensures Run(t, ops + [op]) == Perform(Run(t, ops), op)
    decreases ops
  {
    hide Perform;
    var all := ops + [op];
    if ops == [] {
      assert all[1..] == [] && all[0] == op;
    } else {
      assert all[0] == ops[0] && all[1..] == ops[1..] + [op];
      RunLast(Perform(t, ops[0]), ops[1..], op);
    }
  }

  lemma SteadyInit(ops: seq<Op>, op: Op)
    requires Steady(ops + [op])
    ensures Steady(ops)
  {
    var all := ops + [op];
    assert forall i :: 0 <= i < |ops| ==> all[i] == ops[i];
  }

  /** In every reachable state. */
  lemma {:induction false} RunHolds(ops: seq<Op>, key: string)
    requires Steady(ops)
    ensures SweptLast(ops, Run(Trackers(map[], None), ops).lastCleanup)
    ensures Held(ops, key, Run(Trackers(map[], None), ops))
    decreases |ops|
  {
    hide SweptLast, Held, Steady, Cleaned, Floor;
    if ops == [] {
      NothingYet(key);
    } else {
      var init, op := ops[..|ops| - 1], ops[|ops| - 1];
      assert ops == init + [op];
      SteadyInit(init, op);
      RunHolds(init, key);
      RunLast(Trackers(map[], None), init, op);
      var t := Run(Trackers(map[], None), init);
      SweptNext(init, op, t.lastCleanup);
      KeptSwept(t, key, op.time);
      if op.Update? && op.key == key { HeldAnswered(init, op, key, t); } else { HeldUnanswered(init, op, key, t); }
    }
  }

  lemma NothingYet(key: string)
    ensures SweptLast([], None) && Held([], key, Trackers(map[], None))
  {
  }

  /**
   * After any history of all sessions, a session that asks is handed the floor of its last answer
   * exactly when no sweep since then, that of the asking included, found it unused for more than ten
   * minutes; otherwise it has none.
   */
  lemma FloorExactly(ops: seq<Op>, key: string, now: nat, n: nat)
    requires Steady(ops + [Query(key, now)])
    ensures var asked := ops + [Query(key, now)];
            Queried(Run(Trackers(map[], None), ops), key, now).0 == n <==>
            || (exists i: nat :: Remembered(asked, key, i) && FloorIs(asked[i], n))
            || (n == 0 && forall i: nat :: !Remembered(asked, key, i))
  {
    hide SweptLast, Steady, Cleaned, Floor, Remembered, LastUsed, PrefixSum;
    var t, op, asked := Run(Trackers(map[], None), ops), Query(key, now), ops + [Query(key, now)];
    RunHolds(asked, key);
    RunLast(Trackers(map[], None), ops, op);
    var r := Perform(t, op);
    if key in r.prefixes {
      var s := r.prefixes[key];
      var i: nat :| Remembered(asked, key, i) && TakenFrom(s, asked, i);
      Handed(s, asked, i, n);
      forall j: nat | Remembered(asked, key, j) ensures j == i { SameAnswer(asked, key, i, j); }
    }
  }

  lemma Handed(s: PrefixState, ops: seq<Op>, i: nat, n: nat)
    requires TakenFrom(s, ops, i)
    ensures i < |ops| && ops[i].Update? && (FloorIs(ops[i], n) <==> n == FloorOf(s))
  {
    hide FloorIs, Floor;
    FloorRead(ops[i], n);
  }

  lemma SameAnswer(ops: seq<Op>, key: string, i: nat, j: nat)
    requires Remembered(ops, key, i) && Remembered(ops, key, j)
    ensures i == j
  {
    hide Sweeps, UsedBefore;
    AnswersOnce(ops, key, i, j);
  }

  lemma FloorRead(answer: Op, n: nat)
    requires answer.Update?
    ensures var total := SaturatingAdd(answer.read, answer.written);
            FloorIs(answer, n) <==> n == if total < 1024 then 0 else Floor(answer.estimates, total)
  {
    hide PrefixSum;
    var total := SaturatingAdd(answer.read, answer.written);
    if total > 0 { FloorExact(answer.estimates, total); }
  }
}
