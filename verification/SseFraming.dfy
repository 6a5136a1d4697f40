/** Incremental framing of a server-sent event stream, byte by byte. */
module SseFraming {
  import opened Prelude
  import Utf8

  type Bytes = seq<u8>

  const LF: u8 := 10
  const CR: u8 := 13
  const SPACE: u8 := 32
  const COLON: u8 := 58
  const EVENT: Bytes := [101, 118, 101, 110, 116]
  const DATA: Bytes := [100, 97, 116, 97]
  const DONE: Bytes := [91, 68, 79, 78, 69, 93]

  /** A framed event; the name is kept as its UTF-8 bytes. */
  datatype Event = Event(name: Option<Bytes>, data: Bytes)

  // ----- blank-line terminators -----

  /** Length of the terminator at `i`, 0 when there is none: LF LF or CR LF CR LF. */
  function TermAt(s: Bytes, i: nat): (n: nat)
    ensures n == 0 || n == 2 || n == 4
    ensures i + n <= |s| || n == 0
  {
    if i + 1 < |s| && s[i] == LF && s[i + 1] == LF then 2
    else if i + 3 < |s| && s[i] == CR && s[i + 1] == LF && s[i + 2] == CR && s[i + 3] == LF then 4
    else 0
  }

  /** First terminator at or after `i`, with its length. */
  function Terminator(s: Bytes, i: nat): (r: Option<(nat, nat)>)
    ensures r.Some? ==> i <= r.value.0 && r.value.1 > 0 && r.value.0 + r.value.1 <= |s|
    ensures r.Some? ==> TermAt(s, r.value.0) == r.value.1
    decreases |s| - i
  {
    if i + 1 >= |s| then None
    else if TermAt(s, i) > 0 then Some((i, TermAt(s, i)))
    else Terminator(s, i + 1)
  }

  method FindDoubleNewline(buf: Bytes) returns (r: Option<(nat, nat)>)
    ensures r == Terminator(buf, 0)
  {
    var index := 0;
    while index + 1 < |buf|
      invariant Terminator(buf, index) == Terminator(buf, 0)
    {
      if buf[index] == LF && buf[index + 1] == LF { return Some((index, 2)); }
      if index + 3 < |buf| && buf[index] == CR && buf[index + 1] == LF && buf[index + 2] == CR && buf[index + 3] == LF {
        return Some((index, 4));
      }
      index := index + 1;
    }
    r := None;
  }

  // ----- lines of a block -----

  /** Position of the first line feed, or the length. */
  function LineEnd(s: Bytes): (n: nat)
    ensures n <= |s| && LF !in s[..n] && (n < |s| ==> s[n] == LF)
  {
    if s == [] || s[0] == LF then 0
    else
      var n := 1 + LineEnd(s[1..]);
      assert s[..n] == [s[0]] + s[1..][..n - 1];
      n
  }

  /** The pieces between line feeds. */
  function Split(s: Bytes): (r: seq<Bytes>)
    ensures r != []
    decreases |s|
  {
    var n := LineEnd(s);
    if n == |s| then [s] else [s[..n]] + Split(s[n + 1..])
  }

  function StripCr(line: Bytes): Bytes {
    if line != [] && line[|line| - 1] == CR then line[..|line| - 1] else line
  }

  function StripSpace(value: Bytes): Bytes { if value != [] && value[0] == SPACE then value[1..] else value }

  function ColonAt(line: Bytes): (n: nat)
    ensures n <= |line| && (n < |line| ==> line[n] == COLON) && COLON !in line[..n]
  {
    if line == [] || line[0] == COLON then 0
    else
      var n := 1 + ColonAt(line[1..]);
      assert line[..n] == [line[0]] + line[1..][..n - 1];
      n
  }

  /** What the lines read so far say. */
  datatype Fields = Fields(name: Option<Bytes>, parts: seq<Bytes>)

  function Take(st: Fields, line: Bytes): Fields {
    if line == [] || line[0] == COLON then st
    else
      var n := ColonAt(line);
      var value := StripSpace(if n < |line| then line[n + 1..] else []);
      if line[..n] == EVENT then (if Utf8.IsUtf8(value) then st.(name := Some(value)) else st)
      else if line[..n] == DATA then st.(parts := st.parts + [value])
      else st
  }

  function TakeAll(st: Fields, lines: seq<Bytes>): Fields
    decreases lines
  {
    if lines == [] then st else TakeAll(Take(st, StripCr(lines[0])), lines[1..])
  }

  /** Data lines joined by a line feed. */
  function Join(parts: seq<Bytes>): Bytes {
    if parts == [] then [] else if |parts| == 1 then parts[0] else parts[0] + [LF] + Join(parts[1..])
  }

  function Finish(st: Fields): Option<Event> {
    if st.parts == [] then None else Some(Event(st.name, Join(st.parts)))
  }

  function ParseBlock(block: Bytes): Option<Event> { Finish(TakeAll(Fields(None, []), Split(block))) }

  lemma TakeFirst(st: Fields, line: Bytes, more: seq<Bytes>)
    ensures TakeAll(st, [line] + more) == TakeAll(Take(st, StripCr(line)), more)
  {
    assert ([line] + more)[1..] == more;
  }

  lemma SplitUnfold(s: Bytes, st: Fields)
    ensures var n := LineEnd(s);
            var next := Take(st, StripCr(s[..n]));
            TakeAll(st, Split(s)) == if n == |s| then next else TakeAll(next, Split(s[n + 1..]))
  {
    var n := LineEnd(s);
    if n == |s| {
      TakeFirst(st, s, []);
      assert s[..n] == s && [s] + [] == [s];
    } else {
      TakeFirst(st, s[..n], Split(s[n + 1..]));
    }
  }

  method TakeLine(name: Option<Bytes>, parts: seq<Bytes>, line: Bytes)
    returns (newName: Option<Bytes>, newParts: seq<Bytes>)
    ensures Fields(newName, newParts) == Take(Fields(name, parts), line)
  {
    newName, newParts := name, parts;
    if line == [] { return; }
    if line[0] == COLON { return; }
    var n := ColonAt(line);
    var value := StripSpace(if n < |line| then line[n + 1..] else []);
    if line[..n] == EVENT {
      if Utf8.IsUtf8(value) { newName := Some(value); }
    } else if line[..n] == DATA {
      newParts := parts + [value];
    }
  }

  method ParseEventBlock(block: Bytes) returns (r: Option<Event>)
    ensures r == ParseBlock(block)
  {
    var name: Option<Bytes>, parts: seq<Bytes> := None, [];
    var rest, more := block, true;
    ghost var all := TakeAll(Fields(None, []), Split(block));
    while more
      invariant if more then TakeAll(Fields(name, parts), Split(rest)) == all else Fields(name, parts) == all
      decreases more, |rest|
    {
      var end := LineEnd(rest);
      SplitUnfold(rest, Fields(name, parts));
      name, parts := TakeLine(name, parts, StripCr(rest[..end]));
      if end == |rest| { more := false; } else { rest := rest[end + 1..]; }
    }
    r := if parts == [] then None else Some(Event(name, Join(parts)));
  }

  // ----- the framer -----

  function Optional(e: Option<Event>): seq<Event> { if e.Some? then [e.value] else [] }

  /** Every complete event in the buffer, and the bytes left over. */
  function Drain(s: Bytes): (seq<Event>, Bytes)
    decreases |s|
  {
    var t := Terminator(s, 0);
    if t.None? then ([], s)
    else
      var (events, rest) := Drain(s[t.value.0 + t.value.1..]);
      (Optional(ParseBlock(s[..t.value.0])) + events, rest)
  }

  lemma DrainStep(s: Bytes, end: nat, length: nat)
    requires Terminator(s, 0) == Some((end, length))
    ensures Drain(s) == (Optional(ParseBlock(s[..end])) + Drain(s[end + length..]).0, Drain(s[end + length..]).1)
  {
  }

  lemma FirstOf(e: Option<Event>, more: seq<Event>)
    ensures var all := Optional(e) + more;
            if e.None? then all == more else all != [] && all[0] == e.value && all[1..] == more
  {
  }

  predicate IsDone(e: Event) { e.data == DONE }

  predicate AnyDone(events: seq<Event>) { exists i :: 0 <= i < |events| && IsDone(events[i]) }

  class SseFramer {
    var buf: Bytes
    var doneSeen: bool

    constructor ()
      ensures buf == [] && !doneSeen
    {
      buf, doneSeen := [], false;
    }

    method Push(chunk: Bytes)
      modifies this`buf
      ensures buf == old(buf) + chunk
    {
      if chunk == [] {
        assert buf + chunk == buf;
        return;
      }
      buf := buf + chunk;
    }

    /** The first complete event, comment blocks before it consumed. */
    method NextEvent() returns (r: Option<Event>)
      modifies this
      ensures var (events, rest) := Drain(old(buf));
              if events == [] then r == None && buf == rest
              else r == Some(events[0]) && Drain(buf) == (events[1..], rest)
      ensures r.Some? ==> |buf| < |old(buf)|
      ensures doneSeen == (old(doneSeen) || (r.Some? && IsDone(r.value)))
    {
      while true
        invariant Drain(buf) == Drain(old(buf)) && doneSeen == old(doneSeen) && |buf| <= |old(buf)|
        decreases |buf|
      {
        var t := FindDoubleNewline(buf);
        if t.None? { return None; }
        var (end, length) := t.value;
        DrainStep(buf, end, length);
        var event := ParseEventBlock(buf[..end]);
        buf := buf[end + length..];
        FirstOf(event, Drain(buf).0);
        if event.Some? {
          if IsDone(event.value) { doneSeen := true; }
          return event;
        }
      }
    }

    /** All complete events of the buffer, one after the other. */
    method TakeEvents() returns (events: seq<Event>)
      modifies this
      ensures (events, buf) == Drain(old(buf))
      ensures doneSeen == (old(doneSeen) || AnyDone(events))
    {
      events := [];
      ghost var all := Drain(buf);
      assert [] + all.0 == all.0;
      var more := true;
      while more
        invariant if more then AllEvents(events, buf) == all else (events, buf) == all
        invariant doneSeen == (old(doneSeen) || AnyDone(events))
        decreases more, |buf|
      {
        ghost var before := buf;
        var next := NextEvent();
        NextStep(events, before, next, buf);
        if next.Some? {
          AnyDoneSnoc(events, next.value);
          events := events + [next.value];
        } else {
          more := false;
        }
      }
    }

    /** Pushing chunk after chunk and draining after each, as the telemetry task does. */
    method Feed(chunks: seq<Bytes>) returns (events: seq<Event>)
      requires Terminator(buf, 0).None?
      modifies this
      ensures (events, buf) == Drain(old(buf) + Concat(chunks)) && Terminator(buf, 0).None?
      ensures doneSeen == (old(doneSeen) || AnyDone(events))
    {
      events := [];
      ghost var all := Drain(buf + Concat(chunks));
      assert chunks[0..] == chunks && [] + all.0 == all.0;
      for i := 0 to |chunks|
        invariant Terminator(buf, 0).None? && AllEvents(events, buf + Concat(chunks[i..])) == all
        invariant doneSeen == (old(doneSeen) || AnyDone(events))
      {
        FeedStep(events, buf, chunks, i);
        Push(chunks[i]);
        ghost var was := buf;
        var more := TakeEvents();
        DrainSettles(was);
        AnyDoneConcat(events, more);
        events := events + more;
      }
      assert chunks[|chunks|..] == [] && buf + [] == buf;
      assert events + [] == events;
    }
  }

  // ----- chunking does not matter -----

  function Concat(chunks: seq<Bytes>): Bytes {
    if chunks == [] then [] else chunks[0] + Concat(chunks[1..])
  }

  lemma AnyDoneConcat(a: seq<Event>, b: seq<Event>)
    ensures AnyDone(a + b) == (AnyDone(a) || AnyDone(b))
  {
    if AnyDone(a) {
      var i :| 0 <= i < |a| && IsDone(a[i]);
      assert (a + b)[i] == a[i];
    }
    if AnyDone(b) {
      var i :| 0 <= i < |b| && IsDone(b[i]);
      assert (a + b)[|a| + i] == b[i];
    }
  }

  lemma AnyDoneSnoc(a: seq<Event>, e: Event)
    ensures AnyDone(a + [e]) == (AnyDone(a) || IsDone(e))
  {
    AnyDoneConcat(a, [e]);
    assert [e][0] == e;
  }

  /** A terminator found in a prefix stays the first one in every extension. */
  lemma {:induction false} TerminatorStays(a: Bytes, b: Bytes, i: nat)
    requires Terminator(a, i).Some?
    ensures Terminator(a + b, i) == Terminator(a, i)
    decreases |a| - i
  {
    var s := a + b;
    assert i + 1 < |a| && s[i] == a[i] && s[i + 1] == a[i + 1];
    if TermAt(a, i) == 0 {
      TerminatorStays(a, b, i + 1);
    }
  }

  lemma {:induction false} DrainSettles(s: Bytes)
    ensures Terminator(Drain(s).1, 0).None?
    decreases |s|
  {
    var t := Terminator(s, 0);
    if t.Some? { DrainSettles(s[t.value.0 + t.value.1..]); }
  }

  /** Events found so far and events still in `s`, with what `s` leaves over. */
  function AllEvents(events: seq<Event>, s: Bytes): (seq<Event>, Bytes) { (events + Drain(s).0, Drain(s).1) }

  lemma NextStep(events: seq<Event>, before: Bytes, next: Option<Event>, after: Bytes)
    requires var (found, rest) := Drain(before);
             if found == [] then next == None && after == rest
             else next == Some(found[0]) && Drain(after) == (found[1..], rest)
    ensures if next.Some? then AllEvents(events + [next.value], after) == AllEvents(events, before)
            else (events, after) == AllEvents(events, before)
  {
    var found := Drain(before).0;
    if next.Some? {
      assert found == [found[0]] + found[1..];
      Assoc(events, [found[0]], found[1..]);
    } else {
      assert events + [] == events;
    }
  }

  /** Draining after a prefix and going on with the rest is draining the whole. */
  lemma {:induction false} DrainConcat(a: Bytes, b: Bytes)
    ensures Drain(a + b) == AllEvents(Drain(a).0, Drain(a).1 + b)
    decreases |a|
  {
    var t := Terminator(a, 0);
    if t.None? {
      assert [] + Drain(a + b).0 == Drain(a + b).0;
    } else {
      TerminatorStays(a, b, 0);
      var n := t.value.0 + t.value.1;
      assert (a + b)[n..] == a[n..] + b && (a + b)[..t.value.0] == a[..t.value.0];
      DrainConcat(a[n..], b);
      Assoc(Optional(ParseBlock(a[..t.value.0])), Drain(a[n..]).0, Drain(Drain(a[n..]).1 + b).0);
    }
  }

  lemma FeedStep(events: seq<Event>, buf: Bytes, chunks: seq<Bytes>, i: nat)
    requires i < |chunks|
    ensures var (more, rest) := Drain(buf + chunks[i]);
            AllEvents(events, buf + Concat(chunks[i..])) == AllEvents(events + more, rest + Concat(chunks[i + 1..]))
  {
    var later := Concat(chunks[i + 1..]);
    assert chunks[i..][0] == chunks[i] && chunks[i..][1..] == chunks[i + 1..];
    Assoc(buf, chunks[i], later);
    DrainConcat(buf + chunks[i], later);
    var (more, rest) := Drain(buf + chunks[i]);
    Assoc(events, more, Drain(rest + later).0);
  }

  lemma NoneSeen(chunks: seq<Bytes>)
    ensures AllEvents([], [] + Concat(chunks[0..])) == Drain(Concat(chunks))
  {
    var all := Drain(Concat(chunks));
    assert chunks[0..] == chunks && [] + Concat(chunks) == Concat(chunks) && [] + all.0 == all.0;
  }

  lemma AllSeen(seen: seq<Event>, buf: Bytes, chunks: seq<Bytes>)
    requires Terminator(buf, 0).None?
    ensures AllEvents(seen, buf + Concat(chunks[|chunks|..])).0 == seen
  {
    assert chunks[|chunks|..] == [] && buf + [] == buf && seen + [] == seen;
  }

  /** A stream fed to a fresh framer, in chunks. */
  function Framed(buf: Bytes, chunks: seq<Bytes>): (seq<Event>, Bytes)
    decreases chunks
  {
    if chunks == [] then ([], buf)
    else
      var (now, rest) := Drain(buf + chunks[0]);
      var (later, end) := Framed(rest, chunks[1..]);
      (now + later, end)
  }

  /** Every division of a stream into chunks yields the same events and the same residue. */
  lemma {:induction false} ChunkingInvariance(buf: Bytes, chunks: seq<Bytes>)
    requires Terminator(buf, 0).None?
    ensures Framed(buf, chunks) == Drain(buf + Concat(chunks))
    decreases chunks
  {
    if chunks == [] {
      assert buf + [] == buf;
    } else {
      var (now, rest) := Drain(buf + chunks[0]);
      DrainSettles(buf + chunks[0]);
      ChunkingInvariance(rest, chunks[1..]);
      Assoc(buf, chunks[0], Concat(chunks[1..]));
      DrainConcat(buf + chunks[0], Concat(chunks[1..]));
    }
  }

  // ----- writing a stream and framing it -----

  /** Line end of a stream: LF, or CR LF. */
  function Eol(crlf: bool): Bytes { if crlf then [CR, LF] else [LF] }

  function Sent(lines: seq<Bytes>, crlf: bool): Bytes {
    if lines == [] then [] else lines[0] + (Eol(crlf) + Sent(lines[1..], crlf))
  }

  /** Lines with line ends between them only. */
  function Body(lines: seq<Bytes>, crlf: bool): Bytes
    requires lines != []
  {
    if |lines| == 1 then lines[0] else lines[0] + (Eol(crlf) + Body(lines[1..], crlf))
  }

  function DataLines(parts: seq<Bytes>): seq<Bytes> {
    if parts == [] then [] else [DATA + [COLON, SPACE] + parts[0]] + DataLines(parts[1..])
  }

  function EventLines(e: Event): seq<Bytes> {
    (if e.name.Some? then [EVENT + [COLON, SPACE] + e.name.value] else []) + DataLines(Split(e.data))
  }

  /** A line that cannot be mistaken for a line end. */
  predicate Solid(line: Bytes) { line != [] && LF !in line && line[0] != CR }

  predicate AllSolid(lines: seq<Bytes>) { forall i :: 0 <= i < |lines| ==> Solid(lines[i]) }

  lemma {:induction false} TerminatorShift(a: Bytes, b: Bytes, i: nat)
    ensures Terminator(a + b, |a| + i) ==
            (var r := Terminator(b, i); if r.None? then None else Some((|a| + r.value.0, r.value.1)))
    decreases |b| - i
  {
    var s := a + b;
    assert forall k :: 0 <= k < |b| ==> s[|a| + k] == b[k];
    if i + 1 < |b| && TermAt(b, i) == 0 { TerminatorShift(a, b, i + 1); }
  }

  /** Nothing that ends in front of `n` starts a terminator. */
  lemma {:induction false} TerminatorSkip(s: Bytes, i: nat, n: nat)
    requires i <= n < |s| && forall k :: i <= k < n ==> TermAt(s, k) == 0
    ensures Terminator(s, i) == Terminator(s, n)
    decreases n - i
  {
    if i < n { TerminatorSkip(s, i + 1, n); }
  }

  lemma NoTerminatorIn(line: Bytes, crlf: bool, tail: Bytes, s: Bytes, k: nat)
    requires LF !in line && tail != [] && tail[0] != CR && tail[0] != LF
    requires s == line + Eol(crlf) + tail && k < |line| + |Eol(crlf)|
    ensures TermAt(s, k) == 0
  {
    var n := |line|;
    assert k < n ==> s[k] == line[k];
    assert k + 1 < n ==> s[k + 1] == line[k + 1];
    assert k + 3 < n ==> s[k + 3] == line[k + 3];
    if crlf {
      assert s[n] == CR && s[n + 1] == LF && s[n + 2] == tail[0];
    } else {
      assert s[n] == LF && s[n + 1] == tail[0];
    }
  }

  lemma SkipPrefix(a: Bytes, tail: Bytes)
    requires tail != [] && forall k :: 0 <= k < |a| ==> TermAt(a + tail, k) == 0
    ensures Terminator(a + tail, 0) ==
            (var r := Terminator(tail, 0); if r.None? then None else Some((|a| + r.value.0, r.value.1)))
  {
    TerminatorSkip(a + tail, 0, |a|);
    TerminatorShift(a, tail, 0);
  }

  /** A line followed by more text that starts with neither CR nor LF holds no terminator. */
  lemma SkipLine(line: Bytes, crlf: bool, tail: Bytes)
    requires LF !in line && tail != [] && tail[0] != CR && tail[0] != LF
    ensures var n := |line| + |Eol(crlf)|;
            Terminator(line + (Eol(crlf) + tail), 0) ==
            (var r := Terminator(tail, 0); if r.None? then None else Some((n + r.value.0, r.value.1)))
  {
    var a := line + Eol(crlf);
    Assoc(line, Eol(crlf), tail);
    forall k | 0 <= k < |a| ensures TermAt(a + tail, k) == 0 { NoTerminatorIn(line, crlf, tail, a + tail, k); }
    SkipPrefix(a, tail);
  }

  /** The last line of a block ends at its terminator. */
  lemma StopLine(line: Bytes, crlf: bool, rest: Bytes)
    requires LF !in line
    ensures Terminator(line + (Eol(crlf) + (Eol(crlf) + rest)), 0) == Some((|line|, 2 * |Eol(crlf)|))
  {
    var s := line + (Eol(crlf) + (Eol(crlf) + rest));
    var n := |line|;
    assert forall k :: 0 <= k < n ==> s[k] == line[k];
    if crlf {
      assert s[n] == CR && s[n + 1] == LF && s[n + 2] == CR && s[n + 3] == LF;
    } else {
      assert s[n] == LF && s[n + 1] == LF;
    }
    forall k | 0 <= k < n ensures TermAt(s, k) == 0 {}
    TerminatorSkip(s, 0, n);
  }

  lemma {:induction false} SentBody(lines: seq<Bytes>, crlf: bool)
    requires lines != []
    ensures Sent(lines, crlf) == Body(lines, crlf) + Eol(crlf)
  {
    if |lines| == 1 {
      assert Sent(lines[1..], crlf) == [];
      assert lines[0] + (Eol(crlf) + []) == lines[0] + Eol(crlf);
    } else {
      SentBody(lines[1..], crlf);
      var b := Body(lines[1..], crlf);
      Assoc(Eol(crlf), b, Eol(crlf));
      Assoc(lines[0], Eol(crlf) + b, Eol(crlf));
    }
  }

  /** A block of solid lines is cut off exactly where it ends. */
  lemma {:induction false} BlockEnds(lines: seq<Bytes>, crlf: bool, rest: Bytes)
    requires lines != [] && AllSolid(lines)
    ensures Terminator(Body(lines, crlf) + (Eol(crlf) + (Eol(crlf) + rest)), 0)
            == Some((|Body(lines, crlf)|, 2 * |Eol(crlf)|))
  {
    var end := Eol(crlf) + (Eol(crlf) + rest);
    assert Solid(lines[0]);
    if |lines| == 1 {
      StopLine(lines[0], crlf, rest);
    } else {
      var b := Body(lines[1..], crlf);
      forall i | 0 <= i < |lines| - 1 ensures Solid(lines[1..][i]) { assert Solid(lines[i + 1]); }
      BlockEnds(lines[1..], crlf, rest);
      assert Solid(lines[1]) && b[0] == lines[1][0];
      SkipLine(lines[0], crlf, b + end);
      Assoc(Eol(crlf), b, end);
      Assoc(lines[0], Eol(crlf) + b, end);
    }
  }

  // ----- reading the lines back -----

  /** What remains of the lines when one carriage return is dropped at each line end. */
  function Arrived(lines: seq<Bytes>, crlf: bool): (r: seq<Bytes>)
    ensures |r| == |lines|
  {
    if lines == [] then []
    else [if crlf && |lines| > 1 then lines[0] else StripCr(lines[0])] + Arrived(lines[1..], crlf)
  }

  function TakeClean(st: Fields, lines: seq<Bytes>): Fields
    decreases lines
  {
    if lines == [] then st else TakeClean(Take(st, lines[0]), lines[1..])
  }

  lemma {:induction false} LineEndAt(line: Bytes, rest: Bytes)
    requires LF !in line
    ensures LineEnd(line) == |line| && LineEnd(line + ([LF] + rest)) == |line|
  {
    if line == [] {
      assert ([] + ([LF] + rest))[0] == LF;
    } else {
      LineEndAt(line[1..], rest);
      assert (line + ([LF] + rest))[1..] == line[1..] + ([LF] + rest);
    }
  }

  lemma SplitFirst(line: Bytes, crlf: bool, rest: Bytes)
    requires LF !in line
    ensures Split(line + (Eol(crlf) + rest)) == [if crlf then line + [CR] else line] + Split(rest)
  {
    var first := if crlf then line + [CR] else line;
    assert line + (Eol(crlf) + rest) == first + ([LF] + rest);
    LineEndAt(first, rest);
    var s := first + ([LF] + rest);
    assert s[..|first|] == first && s[|first| + 1..] == rest;
  }

  /** Reading a block reads its lines as they arrived. */
  lemma {:induction false} BodyRead(st: Fields, lines: seq<Bytes>, crlf: bool)
    requires lines != [] && forall i :: 0 <= i < |lines| ==> LF !in lines[i]
    ensures TakeAll(st, Split(Body(lines, crlf))) == TakeClean(st, Arrived(lines, crlf))
    decreases lines
  {
    var arrived := Arrived(lines, crlf);
    assert arrived[1..] == Arrived(lines[1..], crlf);
    if |lines| == 1 {
      LineEndAt(lines[0], []);
      assert Split(lines[0]) == [lines[0]] && [lines[0]][1..] == [];
      assert TakeAll(st, [lines[0]]) == TakeAll(Take(st, StripCr(lines[0])), [lines[0]][1..]);
      assert TakeClean(st, arrived) == TakeClean(Take(st, arrived[0]), arrived[1..]);
    } else {
      var b := Body(lines[1..], crlf);
      SplitFirst(lines[0], crlf, b);
      var first := if crlf then lines[0] + [CR] else lines[0];
      assert StripCr(first) == arrived[0];
      assert ([first] + Split(b))[1..] == Split(b);
      BodyRead(Take(st, arrived[0]), lines[1..], crlf);
    }
  }

  // ----- events and comments -----

  lemma {:induction false} ColonAfter(field: Bytes, value: Bytes)
    requires COLON !in field
    ensures ColonAt(field + ([COLON] + value)) == |field|
  {
    if field == [] {
      assert (field + ([COLON] + value))[0] == COLON;
    } else {
      ColonAfter(field[1..], value);
      assert (field + ([COLON] + value))[1..] == field[1..] + ([COLON] + value);
    }
  }

  lemma TakeField(st: Fields, field: Bytes, value: Bytes)
    requires field == EVENT || field == DATA
    ensures Take(st, field + [COLON, SPACE] + value) ==
            if field == DATA then st.(parts := st.parts + [value])
            else if Utf8.IsUtf8(value) then st.(name := Some(value)) else st
  {
    var line := field + [COLON, SPACE] + value;
    assert line == field + ([COLON] + ([SPACE] + value));
    ColonAfter(field, [SPACE] + value);
    var n := |field|;
    assert line[..n] == field && line[n + 1..] == [SPACE] + value;
    assert StripSpace([SPACE] + value) == value;
  }

  lemma {:induction false} TakeData(name: Option<Bytes>, had: seq<Bytes>, parts: seq<Bytes>)
    ensures TakeClean(Fields(name, had), DataLines(parts)) == Fields(name, had + parts)
    decreases parts
  {
    if parts == [] {
      assert had + [] == had;
    } else {
      var line, rest := DATA + [COLON, SPACE] + parts[0], DataLines(parts[1..]);
      TakeField(Fields(name, had), DATA, parts[0]);
      TakeData(name, had + [parts[0]], parts[1..]);
      assert ([line] + rest)[1..] == rest;
      Assoc(had, [parts[0]], parts[1..]);
      assert parts == [parts[0]] + parts[1..];
    }
  }

  lemma JoinFirst(x: Bytes, more: seq<Bytes>)
    requires more != []
    ensures Join([x] + more) == x + [LF] + Join(more)
  {
    assert ([x] + more)[1..] == more;
  }

  lemma CutAtLf(s: Bytes, n: nat)
    requires n < |s| && s[n] == LF
    ensures s[..n] + [LF] + s[n + 1..] == s
  {
  }

  lemma {:induction false} JoinSplit(s: Bytes)
    ensures Join(Split(s)) == s
    decreases |s|
  {
    hide Join;
    var n := LineEnd(s);
    if n < |s| {
      JoinSplit(s[n + 1..]);
      JoinFirst(s[..n], Split(s[n + 1..]));
      CutAtLf(s, n);
    } else {
      JoinOne(s);
    }
  }

  lemma JoinOne(x: Bytes)
    ensures Join([x]) == x
  {
  }

  lemma {:induction false} SplitJoin(parts: seq<Bytes>)
    requires parts != [] && forall i :: 0 <= i < |parts| ==> LF !in parts[i]
    ensures Split(Join(parts)) == parts
  {
    if |parts| == 1 {
      LineEndAt(parts[0], []);
    } else {
      SplitJoin(parts[1..]);
      assert parts[0] + [LF] + Join(parts[1..]) == parts[0] + (Eol(false) + Join(parts[1..]));
      SplitFirst(parts[0], false, Join(parts[1..]));
      assert parts == [parts[0]] + parts[1..];
    }
  }

  lemma {:induction false} SplitPlain(s: Bytes)
    ensures forall i :: 0 <= i < |Split(s)| ==> LF !in Split(s)[i]
    decreases |s|
  {
    var n := LineEnd(s);
    if n < |s| { SplitPlain(s[n + 1..]); } else { assert s[..n] == s; }
  }

  lemma {:induction false} DataLinesAt(parts: seq<Bytes>)
    ensures |DataLines(parts)| == |parts|
    ensures forall i :: 0 <= i < |parts| ==> DataLines(parts)[i] == DATA + [COLON, SPACE] + parts[i]
  {
    if parts != [] { DataLinesAt(parts[1..]); }
  }

  /** Lines of an event whose name has no line feed are solid. */
  lemma EventSolid(e: Event)
    requires e.name.Some? ==> LF !in e.name.value
    ensures EventLines(e) != [] && AllSolid(EventLines(e))
  {
    var parts := Split(e.data);
    SplitPlain(e.data);
    DataLinesAt(parts);
    forall i | 0 <= i < |parts| ensures Solid(DataLines(parts)[i]) {}
    if e.name.Some? { assert Solid(EVENT + [COLON, SPACE] + e.name.value); }
  }

  lemma {:induction false} ArrivedCons(line: Bytes, rest: seq<Bytes>, crlf: bool)
    requires rest != []
    ensures Arrived([line] + rest, crlf) == [if crlf then line else StripCr(line)] + Arrived(rest, crlf)
  {
    assert ([line] + rest)[1..] == rest;
  }

  lemma StripField(field: Bytes, value: Bytes)
    ensures StripCr(field + [COLON, SPACE] + value) == field + [COLON, SPACE] + StripCr(value)
  {
    var line := field + [COLON, SPACE] + value;
    if value == [] {
      assert line[|line| - 1] == SPACE;
    } else {
      assert line[|line| - 1] == value[|value| - 1];
      assert line[..|line| - 1] == field + [COLON, SPACE] + value[..|value| - 1];
    }
  }

  lemma {:induction false} ArrivedData(parts: seq<Bytes>, crlf: bool)
    ensures Arrived(DataLines(parts), crlf) == DataLines(Arrived(parts, crlf))
  {
    if parts != [] {
      ArrivedData(parts[1..], crlf);
      DataLinesAt(parts);
      StripField(DATA, parts[0]);
      assert DataLines(parts)[1..] == DataLines(parts[1..]);
      assert Arrived(parts, crlf)[1..] == Arrived(parts[1..], crlf);
    }
  }

  function NameArrived(name: Option<Bytes>, crlf: bool): Option<Bytes> {
    if name.None? then None
    else
      var n := if crlf then name.value else StripCr(name.value);
      if Utf8.IsUtf8(n) then Some(n) else None
  }

  /** What the framer makes of a written event whose name has no line feed. */
  function EventArrived(e: Event, crlf: bool): Event {
    Event(NameArrived(e.name, crlf), Join(Arrived(Split(e.data), crlf)))
  }

  lemma EventRead(e: Event, crlf: bool)
    requires e.name.Some? ==> LF !in e.name.value
    ensures ParseBlock(Body(EventLines(e), crlf)) == Some(EventArrived(e, crlf))
  {
    var parts := Split(e.data);
    var lines := EventLines(e);
    EventSolid(e);
    forall i | 0 <= i < |lines| ensures LF !in lines[i] { assert Solid(lines[i]); }
    BodyRead(Fields(None, []), lines, crlf);
    ArrivedData(parts, crlf);
    DataLinesAt(parts);
    var arrived := Arrived(parts, crlf);
    if e.name.Some? {
      StripField(EVENT, e.name.value);
      var n := if crlf then e.name.value else StripCr(e.name.value);
      var head := EVENT + [COLON, SPACE] + n;
      ArrivedCons(EVENT + [COLON, SPACE] + e.name.value, DataLines(parts), crlf);
      TakeField(Fields(None, []), EVENT, n);
      assert ([head] + DataLines(arrived))[1..] == DataLines(arrived);
    } else {
      assert lines == DataLines(parts);
    }
    TakeData(NameArrived(e.name, crlf), [], arrived);
    assert [] + arrived == arrived;
  }

  /** A stream item: an event, or a comment that keeps the connection alive. */
  datatype Item = Message(event: Event) | Comment(text: Bytes)

  function ItemLines(item: Item): seq<Bytes> {
    match item
    case Message(e) => EventLines(e)
    case Comment(text) => [[COLON] + text]
  }

  function Written(items: seq<Item>, crlf: bool): Bytes {
    if items == [] then [] else Sent(ItemLines(items[0]), crlf) + (Eol(crlf) + Written(items[1..], crlf))
  }

  predicate Writable(item: Item) {
    match item
    case Message(e) => e.name.Some? ==> LF !in e.name.value
    case Comment(text) => LF !in text
  }

  /** The events among the items, as they arrive. */
  function Expected(items: seq<Item>, crlf: bool): seq<Event> {
    if items == [] then []
    else Optional(ItemArrived(items[0], crlf)) + Expected(items[1..], crlf)
  }

  lemma CommentRead(text: Bytes, crlf: bool)
    requires LF !in text
    ensures ParseBlock(Body([[COLON] + text], crlf)) == None
  {
    var line := [COLON] + text;
    LineEndAt(line, []);
    assert Split(line) == [line] && [line][1..] == [];
    assert StripCr(line)[0] == COLON;
    assert TakeAll(Fields(None, []), [line]) == TakeAll(Take(Fields(None, []), StripCr(line)), [line][1..]);
  }

  lemma DrainBlock(b: Bytes, end: Bytes, rest: Bytes)
    requires Terminator(b + (end + rest), 0) == Some((|b|, |end|))
    ensures Drain(b + (end + rest)) == AllEvents(Optional(ParseBlock(b)), rest)
  {
    hide Drain, ParseBlock, Terminator;
    CutTwice(b, end, rest);
    DrainStep(b + (end + rest), |b|, |end|);
  }

  lemma CutTwice(b: Bytes, end: Bytes, rest: Bytes)
    ensures var s := b + (end + rest); s[..|b|] == b && s[|b| + |end|..] == rest
  {
  }

  lemma BlockRead(lines: seq<Bytes>, crlf: bool, rest: Bytes, parsed: Option<Event>)
    requires lines != [] && AllSolid(lines) && ParseBlock(Body(lines, crlf)) == parsed
    ensures Drain(Sent(lines, crlf) + (Eol(crlf) + rest)) == AllEvents(Optional(parsed), rest)
  {
    var b, eol := Body(lines, crlf), Eol(crlf);
    SentBody(lines, crlf);
    BlockEnds(lines, crlf, rest);
    SameText(b, eol, rest);
    DrainBlock(b, eol + eol, rest);
  }

  lemma SameText(b: Bytes, eol: Bytes, rest: Bytes)
    ensures (b + eol) + (eol + rest) == b + ((eol + eol) + rest)
    ensures b + (eol + (eol + rest)) == b + ((eol + eol) + rest)
  {
    Assoc(eol, eol, rest);
    Assoc(b, eol, eol + rest);
  }

  function ItemArrived(item: Item, crlf: bool): Option<Event> {
    match item
    case Message(e) => Some(EventArrived(e, crlf))
    case Comment(_) => None
  }

  lemma ItemRead(item: Item, crlf: bool, rest: Bytes)
    requires Writable(item)
    ensures Drain(Sent(ItemLines(item), crlf) + (Eol(crlf) + rest))
            == AllEvents(Optional(ItemArrived(item, crlf)), rest)
  {
    match item
    case Message(e) =>
      EventSolid(e);
      EventRead(e, crlf);
      BlockRead(EventLines(e), crlf, rest, Some(EventArrived(e, crlf)));
    case Comment(text) =>
      CommentRead(text, crlf);
      BlockRead([[COLON] + text], crlf, rest, None);
  }

  /** Framing a written stream yields its events in order; comments between them leave no trace. */
  lemma {:induction false} StreamRead(items: seq<Item>, crlf: bool)
    requires forall i :: 0 <= i < |items| ==> Writable(items[i])
    ensures Drain(Written(items, crlf)) == (Expected(items, crlf), [])
  {
    if items != [] {
      StreamRead(items[1..], crlf);
      ItemRead(items[0], crlf, Written(items[1..], crlf));
    }
  }

  // ----- which events survive -----

  predicate EndsInCr(s: Bytes) { s != [] && s[|s| - 1] == CR }

  /** With LF line ends no line may end in CR; with CR LF only the last line must not. */
  predicate Clean(e: Event, crlf: bool) {
    var parts := Split(e.data);
    && (e.name.Some? ==> LF !in e.name.value && Utf8.IsUtf8(e.name.value) && (crlf || !EndsInCr(e.name.value)))
    && forall i :: 0 <= i < |parts| && (!crlf || i == |parts| - 1) ==> !EndsInCr(parts[i])
  }

  lemma StripCrSame(line: Bytes)
    ensures StripCr(line) == line <==> !EndsInCr(line)
  {
  }

  lemma {:induction false} ArrivedSame(parts: seq<Bytes>, crlf: bool)
    ensures (Arrived(parts, crlf) == parts) <==>
            (forall i :: 0 <= i < |parts| && (!crlf || i == |parts| - 1) ==> !EndsInCr(parts[i]))
  {
    hide StripCr, EndsInCr;
    if parts != [] {
      var rest, got := parts[1..], Arrived(parts, crlf);
      ArrivedSame(rest, crlf);
      assert got[1..] == Arrived(rest, crlf) && parts == [parts[0]] + rest;
      assert forall i :: 0 <= i < |rest| ==> rest[i] == parts[i + 1];
      StripCrSame(parts[0]);
      if got == parts {
        assert got[0] == parts[0] && got[1..] == rest;
        forall i | 0 <= i < |parts| && (!crlf || i == |parts| - 1) ensures !EndsInCr(parts[i]) {
          if i > 0 { assert !EndsInCr(rest[i - 1]); }
        }
      }
    }
  }

  lemma {:induction false} ArrivedPlain(parts: seq<Bytes>, crlf: bool)
    requires forall i :: 0 <= i < |parts| ==> LF !in parts[i]
    ensures forall i :: 0 <= i < |parts| ==> LF !in Arrived(parts, crlf)[i]
  {
    if parts != [] { ArrivedPlain(parts[1..], crlf); }
  }

  /** An event arrives as it was sent exactly when it is clean. */
  lemma ArrivesUnchanged(e: Event, crlf: bool)
    requires e.name.Some? ==> LF !in e.name.value
    ensures EventArrived(e, crlf) == e <==> Clean(e, crlf)
  {
    var parts := Split(e.data);
    SplitPlain(e.data);
    JoinSplit(e.data);
    ArrivedSame(parts, crlf);
    ArrivedPlain(parts, crlf);
    if Join(Arrived(parts, crlf)) == e.data {
      SplitJoin(Arrived(parts, crlf));
    }
  }

  lemma {:induction false} TakeAllName(st: Fields, lines: seq<Bytes>)
    requires (st.name.Some? ==> LF !in st.name.value) && forall i :: 0 <= i < |lines| ==> LF !in lines[i]
    ensures TakeAll(st, lines).name.Some? ==> LF !in TakeAll(st, lines).name.value
    decreases lines
  {
    if lines != [] { TakeAllName(Take(st, StripCr(lines[0])), lines[1..]); }
  }

  /** No framed event has a line feed in its name. */
  lemma {:induction false} DrainNames(s: Bytes)
    ensures forall i :: 0 <= i < |Drain(s).0| ==> Drain(s).0[i].name.Some? ==> LF !in Drain(s).0[i].name.value
    decreases |s|
  {
    var t := Terminator(s, 0);
    if t.Some? {
      var block := s[..t.value.0];
      SplitPlain(block);
      TakeAllName(Fields(None, []), Split(block));
      DrainNames(s[t.value.0 + t.value.1..]);
    }
  }

  /**
   * Round trip, exactly: writing one event with either line end and framing the bytes gives
   * back that event and an empty buffer if and only if it is clean.
   */
  lemma RoundTripExact(e: Event, crlf: bool)
    ensures Drain(Written([Message(e)], crlf)) == ([e], []) <==> Clean(e, crlf)
  {
    if e.name.Some? && LF in e.name.value {
      DrainNames(Written([Message(e)], crlf));
      assert [e][0] == e;
    } else {
      OneRead([Message(e)], e, crlf);
      ArrivesUnchanged(e, crlf);
      assert [EventArrived(e, crlf)][0] == EventArrived(e, crlf) && [e][0] == e;
    }
  }

  /** Data that ends in CR comes back without it, with LF line ends and with CR LF. */
  lemma TrailingCrIsLost(crlf: bool)
    ensures var e := Event(None, [CR]);
            Drain(Written([Message(e)], crlf)) == ([Event(None, [])], []) &&
              Drain(Written([Message(e)], crlf)) != ([e], [])
  {
    var e := Event(None, [CR]);
    SplitPlain([CR]);
    assert Split([CR]) == [[CR]];
    StreamRead([Message(e)], crlf);
    CrArrives(crlf);
  }

  lemma CrArrives(crlf: bool)
    ensures Expected([Message(Event(None, [CR]))], crlf) == [Event(None, [])]
  {
  }

  lemma OneRead(items: seq<Item>, e: Event, crlf: bool)
    requires (e.name.Some? ==> LF !in e.name.value) && |items| == 1 && items[0] == Message(e)
    ensures Drain(Written(items, crlf)) == ([EventArrived(e, crlf)], [])
  {
    StreamRead(items, crlf);
    var one := Optional(ItemArrived(items[0], crlf));
    assert Expected(items[1..], crlf) == [] && one + [] == one;
  }

  /** The events of a list of items. */
  function Messages(items: seq<Item>): seq<Event> {
    if items == [] then [] else (if items[0].Message? then [items[0].event] else []) + Messages(items[1..])
  }

  /** Any list of clean events with comments anywhere between them survives the stream. */
  lemma {:induction false} RoundTrip(items: seq<Item>, crlf: bool)
    requires forall i :: 0 <= i < |items| ==>
               match items[i] case Message(e) => Clean(e, crlf) case Comment(text) => LF !in text
    ensures Drain(Written(items, crlf)) == (Messages(items), [])
  {
    forall i | 0 <= i < |items| ensures Writable(items[i]) {}
    StreamRead(items, crlf);
    ExpectedMessages(items, crlf);
  }

  lemma {:induction false} ExpectedMessages(items: seq<Item>, crlf: bool)
    requires forall i :: 0 <= i < |items| && items[i].Message? ==> Clean(items[i].event, crlf)
    ensures Expected(items, crlf) == Messages(items)
  {
    if items != [] {
      if items[0].Message? { ArrivesUnchanged(items[0].event, crlf); }
      ExpectedMessages(items[1..], crlf);
    }
  }
}
