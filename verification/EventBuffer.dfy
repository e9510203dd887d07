/** The bounded event buffer with in-flight batches: what is kept, in what order, and
    how every loss is counted. */
module EventBuffer {
  import opened Prelude

  /** An event's content; `DroppedEvents` is the record the buffer itself synthesizes. */
  datatype Body = Plain(id: int) | DroppedEvents(dropped: nat, undeclared: nat)

  /** `stamp` is the wire's `seq`. */
  datatype Event = Event(stamp: nat, body: Body)

  datatype Batch = Batch(id: nat, events: seq<Event>)

  /** `inFlight` is the dict of unacknowledged batches in insertion order. */
  datatype Buffer = Buffer(
    max: nat, buf: seq<Event>, last: nat, dropped: nat, undeclared: nat, inFlight: seq<Batch>)

  const MAX_IN_FLIGHT_BATCHES: nat := 32

  function Empty(max: nat): Buffer { Buffer(max, [], 0, 0, 0, []) }

  function Min(a: nat, b: nat): nat { if a < b then a else b }

  // ---- Operations -------------------------------------------------------------

  /** Stamp and buffer one event, dropping the oldest when full. */
  function Push(b: Buffer, body: Body): Buffer
    requires b.max >= 1
  {
    var full := |b.buf| >= b.max;
    b.(buf := (if full then b.buf[1..] else b.buf) + [Event(b.last + 1, body)],
       last := b.last + 1, dropped := if full then b.dropped + 1 else b.dropped)
  }

  function Pushed(b: Buffer, bodies: seq<Body>): (b': Buffer)
    requires b.max >= 1
    ensures b'.max == b.max && b'.last == b.last + |bodies|
              && b'.undeclared == b.undeclared && b'.inFlight == b.inFlight
    ensures |b.buf| <= b.max ==> |b'.buf| <= b.max
    decreases |bodies|
  {
    if bodies == [] then b else Pushed(Push(b, bodies[0]), bodies[1..])
  }

  function Extended(b: Buffer, bodies: seq<Body>, refused: nat): Buffer
    requires b.max >= 1
  {
    Pushed(b.(undeclared := b.undeclared + refused), bodies)
  }

  /** Where an id sits in the dict, or its length. */
  function Find(inFlight: seq<Batch>, id: nat): (k: nat)
    ensures k <= |inFlight|
    ensures k < |inFlight| ==> inFlight[k].id == id
    ensures forall j :: 0 <= j < k ==> inFlight[j].id != id
  {
    if inFlight == [] || inFlight[0].id == id then 0 else 1 + Find(inFlight[1..], id)
  }

  function Without(inFlight: seq<Batch>, id: nat): seq<Batch> {
    var k := Find(inFlight, id);
    if k == |inFlight| then inFlight else inFlight[..k] + inFlight[k + 1..]
  }

  /** A dict assignment: an old key keeps its place. */
  function Put(inFlight: seq<Batch>, batch: Batch): seq<Batch> {
    var k := Find(inFlight, batch.id);
    if k == |inFlight| then inFlight + [batch] else inFlight[k := batch]
  }

  /** Record what was lost, ahead of everything buffered. */
  function Reported(b: Buffer): Buffer {
    if b.dropped == 0 && b.undeclared == 0 then b
    else b.(buf := [Event(b.last + 1, DroppedEvents(b.dropped, b.undeclared))] + b.buf,
            last := b.last + 1, dropped := 0, undeclared := 0)
  }

  /** Evict the oldest batches past the cap, counting their events as dropped. */
  function Evicted(b: Buffer): Buffer
    decreases |b.inFlight|
  {
    if |b.inFlight| <= MAX_IN_FLIGHT_BATCHES then b
    else Evicted(b.(inFlight := b.inFlight[1..], dropped := b.dropped + |b.inFlight[0].events|))
  }

  function Drained(b: Buffer, id: nat, maxEvents: nat): (Buffer, seq<Event>) {
    var r := Reported(b);
    var n := Min(|r.buf|, maxEvents);
    var out := r.buf[..n];
    if out == [] then (r, out)
    else (Evicted(r.(buf := r.buf[n..], inFlight := Put(r.inFlight, Batch(id, out)))), out)
  }

  function Acked(b: Buffer, id: nat): (Buffer, bool) {
    (b.(inFlight := Without(b.inFlight, id)), Find(b.inFlight, id) < |b.inFlight|)
  }

  function Nacked(b: Buffer, id: nat): (Buffer, Option<nat>) {
    var k := Find(b.inFlight, id);
    (b.(inFlight := Without(b.inFlight, id)), if k < |b.inFlight| then Some(|b.inFlight[k].events|) else None)
  }

  function Flatten(inFlight: seq<Batch>): seq<Event> {
    if inFlight == [] then [] else inFlight[0].events + Flatten(inFlight[1..])
  }

  /** Everything held, oldest first: in-flight batches in send order, then the buffer. */
  function Stream(b: Buffer): seq<Event> { Flatten(b.inFlight) + b.buf }

  /** Every in-flight batch goes back in front, then the bound drops the oldest. */
  function Requeued(b: Buffer): (Buffer, nat) {
    var all := Stream(b);
    var over := if |all| > b.max then |all| - b.max else 0;
    (b.(buf := all[over..], inFlight := [], dropped := b.dropped + over), |Flatten(b.inFlight)|)
  }

  predicate AnyStamp(s: seq<Event>, first: nat, stop: nat) {
    exists i :: 0 <= i < |s| && first <= s[i].stamp < stop
  }

  /** Whether an event stamped from `first` to before `stop` is still held. */
  predicate StreamHolds(b: Buffer, first: nat, stop: nat) { AnyStamp(Stream(b), first, stop) }

  lemma AnyStampConcat(a: seq<Event>, b: seq<Event>, first: nat, stop: nat)
    ensures AnyStamp(a + b, first, stop) <==> AnyStamp(a, first, stop) || AnyStamp(b, first, stop)
  {
    forall i | 0 <= i < |a| ensures (a + b)[i] == a[i] {}
    forall i | 0 <= i < |b| ensures (a + b)[|a| + i] == b[i] {}
  }

  // ---- Order ------------------------------------------------------------------

  /** Two entries carry different stamps, and two plain ones are in emit order. */
  predicate Pair(s: seq<Event>, i: int, j: int)
    requires 0 <= i < j < |s|
  {
    s[i].stamp != s[j].stamp && (s[i].body.Plain? && s[j].body.Plain? ==> s[i].stamp < s[j].stamp)
  }

  predicate Pairs(s: seq<Event>) { forall i, j :: 0 <= i < j < |s| ==> Pair(s, i, j) }

  /** Stamps are distinct, and the plain events come in the order they were emitted. */
  predicate InOrder(s: seq<Event>, last: nat) {
    && (forall i :: 0 <= i < |s| ==> 1 <= s[i].stamp <= last)
    && Pairs(s)
  }

  function Stamps(s: seq<Event>): set<nat> { set i | 0 <= i < |s| :: s[i].stamp }

  lemma StampsConcat(a: seq<Event>, b: seq<Event>)
    ensures Stamps(a + b) == Stamps(a) + Stamps(b)
  {
    var t := a + b;
    forall x | x in Stamps(a) ensures x in Stamps(t) {
      var i :| 0 <= i < |a| && a[i].stamp == x;
      assert t[i].stamp == x;
    }
    forall x | x in Stamps(b) ensures x in Stamps(t) {
      var i :| 0 <= i < |b| && b[i].stamp == x;
      assert t[|a| + i].stamp == x;
    }
  }

  lemma CutOrder(s: seq<Event>, i: nat, j: nat, last: nat)
    requires i <= j <= |s| && InOrder(s, last)
    ensures InOrder(s[..i] + s[j..], last)
  {
    var t := s[..i] + s[j..];
    forall x, y | 0 <= x < y < |t| ensures Pair(t, x, y) {
      assert Pair(s, if x < i then x else x + (j - i), if y < i then y else y + (j - i));
    }
  }

  lemma SlicePairs(s: seq<Event>, i: nat, j: nat)
    requires i <= j <= |s| && Pairs(s)
    ensures Pairs(s[i..j])
  {
    forall x, y | 0 <= x < y < j - i ensures Pair(s[i..j], x, y) { assert Pair(s, i + x, i + y); }
  }

  lemma CutStamps(s: seq<Event>, i: nat, j: nat)
    requires i <= j <= |s| && Pairs(s)
    ensures Stamps(s) - Stamps(s[..i] + s[j..]) == Stamps(s[i..j])
    ensures Stamps(s) == Stamps(s[..i] + s[j..]) + Stamps(s[i..j])
  {
    assert s == s[..i] + s[i..j] + s[j..];
    StampsConcat(s[..i] + s[i..j], s[j..]);
    StampsConcat(s[..i], s[i..j]);
    StampsConcat(s[..i], s[j..]);
    forall x | x in Stamps(s[i..j]) ensures x !in Stamps(s[..i]) && x !in Stamps(s[j..]) {
      var k :| 0 <= k < j - i && s[i..j][k].stamp == x;
      assert s[i + k].stamp == x;
      forall m | 0 <= m < i ensures s[..i][m].stamp != x { assert Pair(s, m, i + k); }
      forall m | 0 <= m < |s| - j ensures s[j..][m].stamp != x { assert Pair(s, i + k, j + m); }
    }
  }

  /** Cutting a slice out keeps order, and what left is that slice, each stamp once. */
  lemma Cut(s: seq<Event>, i: nat, j: nat, last: nat)
    requires i <= j <= |s| && InOrder(s, last)
    ensures InOrder(s[..i] + s[j..], last)
    ensures Stamps(s) - Stamps(s[..i] + s[j..]) == Stamps(s[i..j])
    ensures |Stamps(s[i..j])| == j - i
  {
    CutOrder(s, i, j, last);
    CutStamps(s, i, j);
    SlicePairs(s, i, j);
    DistinctStamps(s[i..j]);
  }

  lemma {:induction false} DistinctStamps(s: seq<Event>)
    requires Pairs(s)
    ensures |Stamps(s)| == |s|
  {
    if s == [] {
      assert Stamps(s) == {};
    } else {
      var n := |s| - 1;
      SlicePairs(s, 0, n);
      DistinctStamps(s[..n]);
      assert s == s[..n] + [s[n]];
      StampsConcat(s[..n], [s[n]]);
      assert [s[n]][0].stamp == s[n].stamp && Stamps([s[n]]) == {s[n].stamp};
      forall m | 0 <= m < n ensures s[..n][m].stamp != s[n].stamp { assert Pair(s, m, n); }
    }
  }

  lemma Append(s: seq<Event>, body: Body, last: nat)
    requires InOrder(s, last)
    ensures InOrder(s + [Event(last + 1, body)], last + 1)
    ensures Stamps(s + [Event(last + 1, body)]) == Stamps(s) + {last + 1}
  {
    var e := Event(last + 1, body);
    var t := s + [e];
    StampsConcat(s, [e]);
    assert [e][0].stamp == last + 1 && Stamps([e]) == {last + 1};
    forall x, y | 0 <= x < y < |t| ensures Pair(t, x, y) { assert y < |s| ==> Pair(s, x, y); }
  }

  lemma InsertOrder(s: seq<Event>, i: nat, e: Event, last: nat)
    requires InOrder(s, last) && i <= |s| && e.stamp == last + 1 && e.body.DroppedEvents?
    ensures InOrder(s[..i] + [e] + s[i..], last + 1)
  {
    var t := s[..i] + [e] + s[i..];
    forall x, y | 0 <= x < y < |t| ensures Pair(t, x, y) {
      if x != i && y != i {
        assert Pair(s, if x < i then x else x - 1, if y < i then y else y - 1);
      }
    }
  }

  lemma InsertStamps(s: seq<Event>, i: nat, e: Event)
    requires i <= |s|
    ensures Stamps(s[..i] + [e] + s[i..]) == Stamps(s) + {e.stamp}
  {
    assert s == s[..i] + s[i..];
    StampsConcat(s[..i], s[i..]);
    StampsConcat(s[..i] + [e], s[i..]);
    StampsConcat(s[..i], [e]);
    assert [e][0].stamp == e.stamp;
    assert Stamps([e]) == {e.stamp};
  }

  /** A synthesized record takes a fresh stamp wherever it goes. */
  lemma Insert(s: seq<Event>, i: nat, e: Event, last: nat)
    requires InOrder(s, last) && i <= |s| && e.stamp == last + 1 && e.body.DroppedEvents?
    ensures InOrder(s[..i] + [e] + s[i..], last + 1)
    ensures Stamps(s[..i] + [e] + s[i..]) == Stamps(s) + {last + 1}
  {
    InsertOrder(s, i, e, last);
    InsertStamps(s, i, e);
  }

  lemma {:induction false} FlattenAppend(a: seq<Batch>, b: seq<Batch>)
    ensures Flatten(a + b) == Flatten(a) + Flatten(b)
  {
    if a == [] {
      assert a + b == b;
    } else {
      assert (a + b)[1..] == a[1..] + b;
      FlattenAppend(a[1..], b);
    }
  }

  /** Taking one batch out of the dict cuts its events out of the stream. */
  lemma WithoutCuts(b: Buffer, k: nat) returns (i: nat, j: nat)
    requires k < |b.inFlight|
    ensures i <= j <= |Stream(b)| && Stream(b)[i..j] == b.inFlight[k].events
    ensures Stream(b.(inFlight := b.inFlight[..k] + b.inFlight[k + 1..])) == Stream(b)[..i] + Stream(b)[j..]
  {
    var front, batch, back := b.inFlight[..k], b.inFlight[k], b.inFlight[k + 1..];
    assert b.inFlight == front + ([batch] + back);
    FlattenAppend(front, [batch] + back);
    FlattenAppend([batch], back);
    FlattenAppend(front, back);
    assert Flatten([batch]) == batch.events;
    i, j := |Flatten(front)|, |Flatten(front)| + |batch.events|;
    assert Stream(b) == Flatten(front) + batch.events + (Flatten(back) + b.buf);
  }

  // ---- What one operation loses -----------------------------------------------

  predicate Later(x: nat, than: nat) { than < x }

  /** The stamps given out after `lo`, up to `hi`. */
  function Given(lo: nat, hi: nat): set<nat> { set x: nat | x <= hi && Later(x, lo) }

  /** From stream `s` to stream `t`: what was held and what was stamped since, minus
      `lost`, is still held, in order. */
  predicate Moves(s: seq<Event>, last: nat, t: seq<Event>, last': nat, lost: set<nat>) {
    && last <= last' && InOrder(t, last')
    && lost <= Stamps(s) + Given(last, last')
    && Stamps(t) == Stamps(s) + Given(last, last') - lost
  }

  lemma StampsBounded(s: seq<Event>, last: nat)
    requires InOrder(s, last)
    ensures forall x :: x in Stamps(s) ==> 1 <= x <= last
  {
  }

  lemma CutMoves(s: seq<Event>, i: nat, j: nat, last: nat, t: seq<Event>) returns (lost: set<nat>)
    requires i <= j <= |s| && InOrder(s, last) && t == s[..i] + s[j..]
    ensures Moves(s, last, t, last, lost) && |lost| == j - i && lost == Stamps(s[i..j])
  {
    Cut(s, i, j, last);
    CutStamps(s, i, j);
    lost := Stamps(s[i..j]);
    assert Given(last, last) == {};
  }

  lemma AppendMoves(s: seq<Event>, body: Body, last: nat, t: seq<Event>)
    requires InOrder(s, last) && t == s + [Event(last + 1, body)]
    ensures Moves(s, last, t, last + 1, {})
  {
    Append(s, body, last);
    assert Given(last, last + 1) == {last + 1};
  }

  lemma InsertMoves(s: seq<Event>, i: nat, e: Event, last: nat, t: seq<Event>)
    requires InOrder(s, last) && i <= |s| && e.stamp == last + 1 && e.body.DroppedEvents?
    requires t == s[..i] + [e] + s[i..]
    ensures Moves(s, last, t, last + 1, {})
  {
    Insert(s, i, e, last);
    assert Given(last, last + 1) == {last + 1};
  }

  lemma MovesThen(s: seq<Event>, a: nat, t: seq<Event>, b: nat, u: seq<Event>, c: nat, l1: set<nat>, l2: set<nat>)
    requires InOrder(s, a) && Moves(s, a, t, b, l1) && Moves(t, b, u, c, l2)
    ensures Moves(s, a, u, c, l1 + l2) && |l1 + l2| == |l1| + |l2|
  {
    StampsBounded(s, a);
    StampsBounded(t, b);
    assert Given(a, b) + Given(b, c) == Given(a, c);
    assert l1 !! l2;
  }

  /** The same for buffers, with the tally: it grows by what was lost, less what a
      synthesized record carried away. */
  predicate Loses(b: Buffer, b': Buffer, lost: set<nat>, placed: nat) {
    && b.max == b'.max
    && Moves(Stream(b), b.last, Stream(b'), b'.last, lost)
    && b'.dropped + placed == b.dropped + |lost|
  }

  lemma LosesThen(b: Buffer, b1: Buffer, b2: Buffer, l1: set<nat>, l2: set<nat>, p1: nat, p2: nat)
    requires InOrder(Stream(b), b.last) && Loses(b, b1, l1, p1) && Loses(b1, b2, l2, p2)
    ensures Loses(b, b2, l1 + l2, p1 + p2)
  {
    MovesThen(Stream(b), b.last, Stream(b1), b1.last, Stream(b2), b2.last, l1, l2);
  }

  lemma NothingMoves(s: seq<Event>, last: nat)
    requires InOrder(s, last)
    ensures Moves(s, last, s, last, {})
  {
    assert Given(last, last) == {};
  }

  lemma PushLoses(b: Buffer, body: Body) returns (lost: set<nat>)
    requires b.max >= 1 && InOrder(Stream(b), b.last)
    ensures Loses(b, Push(b, body), lost, 0)
  {
    var s, n := Stream(b), |Flatten(b.inFlight)|;
    var full := |b.buf| >= b.max;
    var j := if full then n + 1 else n;
    var t := s[..n] + s[j..];
    lost := CutMoves(s, n, j, b.last, t);
    assert Stream(Push(b, body)) == t + [Event(b.last + 1, body)];
    AppendMoves(t, body, b.last, Stream(Push(b, body)));
    MovesThen(s, b.last, t, b.last, Stream(Push(b, body)), b.last + 1, lost, {});
    assert lost + {} == lost;
  }

  lemma {:induction false} PushedLoses(b: Buffer, bodies: seq<Body>) returns (lost: set<nat>)
    requires b.max >= 1 && InOrder(Stream(b), b.last)
    ensures Loses(b, Pushed(b, bodies), lost, 0)
    decreases |bodies|
  {
    if bodies == [] {
      lost := {};
      NothingMoves(Stream(b), b.last);
    } else {
      var l1 := PushLoses(b, bodies[0]);
      var l2 := PushedLoses(Push(b, bodies[0]), bodies[1..]);
      LosesThen(b, Push(b, bodies[0]), Pushed(b, bodies), l1, l2, 0, 0);
      lost := l1 + l2;
    }
  }

  lemma ReportedLoses(b: Buffer)
    requires InOrder(Stream(b), b.last)
    ensures Loses(b, Reported(b), {}, b.dropped)
  {
    var r := Reported(b);
    if r == b {
      NothingMoves(Stream(b), b.last);
    } else {
      var s, n := Stream(b), |Flatten(b.inFlight)|;
      var e := Event(b.last + 1, DroppedEvents(b.dropped, b.undeclared));
      assert Stream(r) == s[..n] + [e] + s[n..];
      InsertMoves(s, n, e, b.last, Stream(r));
    }
  }

  lemma {:induction false} EvictedLoses(b: Buffer) returns (lost: set<nat>)
    requires InOrder(Stream(b), b.last)
    ensures Loses(b, Evicted(b), lost, 0)
    decreases |b.inFlight|
  {
    if |b.inFlight| <= MAX_IN_FLIGHT_BATCHES {
      NothingMoves(Stream(b), b.last);
      lost := {};
    } else {
      var b1 := b.(inFlight := b.inFlight[1..], dropped := b.dropped + |b.inFlight[0].events|);
      var s, n := Stream(b), |b.inFlight[0].events|;
      assert s == b.inFlight[0].events + Stream(b1);
      assert Stream(b1) == s[..0] + s[n..];
      var l1 := CutMoves(s, 0, n, b.last, Stream(b1));
      var l2 := EvictedLoses(b1);
      LosesThen(b, b1, Evicted(b), l1, l2, 0, 0);
      lost := l1 + l2;
    }
  }

  lemma DrainedLoses(b: Buffer, id: nat, maxEvents: nat) returns (lost: set<nat>)
    requires InOrder(Stream(b), b.last) && Find(b.inFlight, id) == |b.inFlight|
    ensures Loses(b, Drained(b, id, maxEvents).0, lost, b.dropped)
  {
    var r := Reported(b);
    ReportedLoses(b);
    var n := Min(|r.buf|, maxEvents);
    lost := {};
    if r.buf[..n] != [] {
      var moved := r.(buf := r.buf[n..], inFlight := r.inFlight + [Batch(id, r.buf[..n])]);
      FlattenAppend(r.inFlight, [Batch(id, r.buf[..n])]);
      assert Flatten([Batch(id, r.buf[..n])]) == r.buf[..n];
      assert Stream(moved) == Stream(r);
      lost := EvictedLoses(moved);
      LosesThen(b, moved, Evicted(moved), {}, lost, b.dropped, 0);
      assert {} + lost == lost;
    }
  }

  lemma RequeuedLoses(b: Buffer) returns (lost: set<nat>)
    requires InOrder(Stream(b), b.last)
    ensures Loses(b, Requeued(b).0, lost, 0)
  {
    var s := Stream(b);
    var over := if |s| > b.max then |s| - b.max else 0;
    assert Stream(Requeued(b).0) == s[..0] + s[over..];
    lost := CutMoves(s, 0, over, b.last, Stream(Requeued(b).0));
  }

  /** An ACK or a NACK takes one batch's events out, and no others. */
  lemma WithoutMoves(b: Buffer, id: nat) returns (lost: set<nat>)
    requires InOrder(Stream(b), b.last)
    ensures Moves(Stream(b), b.last, Stream(b.(inFlight := Without(b.inFlight, id))), b.last, lost)
    ensures var k := Find(b.inFlight, id);
            lost == if k < |b.inFlight| then Stamps(b.inFlight[k].events) else {}
  {
    var k := Find(b.inFlight, id);
    if k < |b.inFlight| {
      var i, j := WithoutCuts(b, k);
      lost := CutMoves(Stream(b), i, j, b.last, Stream(b.(inFlight := Without(b.inFlight, id))));
    } else {
      NothingMoves(Stream(b), b.last);
      lost := {};
    }
  }

  // ---- Every run --------------------------------------------------------------

  datatype Op =
    | Extend(bodies: seq<Body>, refused: nat)
    | Refuse
    | Drain(id: nat, maxEvents: nat)
    | Ack(id: nat)
    | Nack(id: nat)
    | Requeue

  /** A buffer and its history: what each batch id handed over and what each stamp given
      to a caller's event stands for; where every stamp that left went; what the
      `dropped_events` records the drains made say; and how many events were refused. */
  datatype World = World(
    b: Buffer, used: set<nat>, sent: map<nat, seq<Event>>, bodies: map<nat, Body>,
    acked: set<nat>, nacked: set<nat>, discarded: set<nat>,
    reported: nat, refused: nat, refusedReported: nat)

  /** A loss record stamped after `last`. */
  predicate NewRecord(e: Event, last: nat) { e.stamp > last && e.body.DroppedEvents? }

  /** What the new records of a stream say was dropped. */
  function DroppedIn(s: seq<Event>, last: nat): nat {
    if s == [] then 0 else (if NewRecord(s[0], last) then s[0].body.dropped else 0) + DroppedIn(s[1..], last)
  }

  /** What they say was refused. */
  function UndeclaredIn(s: seq<Event>, last: nat): nat {
    if s == [] then 0 else (if NewRecord(s[0], last) then s[0].body.undeclared else 0) + UndeclaredIn(s[1..], last)
  }

  /** Bodies under consecutive stamps. */
  function Stamped(last: nat, bodies: seq<Body>): seq<Event> {
    seq(|bodies|, i requires 0 <= i < |bodies| => Event(last + 1 + i, bodies[i]))
  }

  /** Batch ids are fresh, and a drain may take something. */
  predicate Enabled(w: World, op: Op) { op.Drain? ==> op.id !in w.used && op.maxEvents >= 1 }

  function Apply(b: Buffer, op: Op): Buffer
    requires b.max >= 1
  {
    match op
    case Extend(bodies, refused) => Extended(b, bodies, refused)
    case Refuse => b.(undeclared := b.undeclared + 1)
    case Drain(id, maxEvents) => Drained(b, id, maxEvents).0
    case Ack(id) => Acked(b, id).0
    case Nack(id) => Nacked(b, id).0
    case Requeue => Requeued(b).0
  }

  /** Stamps held before or given out by the operation, and held no longer. */
  function Gone(b: Buffer, b': Buffer): set<nat> {
    Stamps(Stream(b)) + Given(b.last, b'.last) - Stamps(Stream(b'))
  }

  /** The body a stamp given out after `last` goes to. */
  function BodyAt(last: nat, bodies: seq<Body>, x: nat): Body
    requires last < x <= last + |bodies|
  {
    bodies[x - last - 1]
  }

  /** What a drain puts on the wire. */
  function Handed(b: Buffer, op: Op): seq<Event>
    requires op.Drain?
  {
    Drained(b, op.id, op.maxEvents).1
  }

  function Next(w: World, op: Op): World
    requires w.b.max >= 1
  {
    var b' := Apply(w.b, op);
    var gone := Gone(w.b, b');
    World(b',
      if op.Drain? then w.used + {op.id} else w.used,
      if op.Drain? && Handed(w.b, op) != [] then w.sent[op.id := Handed(w.b, op)] else w.sent,
      if op.Extend? then
        w.bodies + (map x | x in Given(w.b.last, w.b.last + |op.bodies|) :: BodyAt(w.b.last, op.bodies, x))
      else w.bodies,
      if op.Ack? then w.acked + gone else w.acked,
      if op.Nack? then w.nacked + gone else w.nacked,
      if op.Ack? || op.Nack? then w.discarded else w.discarded + gone,
      if op.Drain? then w.reported + DroppedIn(Stream(b'), w.b.last) else w.reported,
      w.refused + (if op.Extend? then op.refused else if op.Refuse? then 1 else 0),
      if op.Drain? then w.refusedReported + UndeclaredIn(Stream(b'), w.b.last) else w.refusedReported)
  }

  predicate Bounded(w: World) {
    && w.b.max >= 1 && |w.b.buf| <= w.b.max && |w.b.inFlight| <= MAX_IN_FLIGHT_BATCHES
    && IdsIn(w.b.inFlight, w.used)
  }

  predicate IdsIn(inFlight: seq<Batch>, used: set<nat>) { forall k :: 0 <= k < |inFlight| ==> inFlight[k].id in used }

  /** Every stamp up to `top` is in exactly one of the four sets. */
  predicate Split(held: set<nat>, acked: set<nat>, nacked: set<nat>, discarded: set<nat>, top: nat) {
    && held + acked + nacked + discarded == Given(0, top)
    && held !! acked !! nacked !! discarded
  }

  predicate Partitioned(w: World) { Split(Stamps(Stream(w.b)), w.acked, w.nacked, w.discarded, w.b.last) }

  /** An event held under a stamp given to a caller's event is that event; any other is a
      loss record. */
  predicate BodyKept(w: World, e: Event) {
    if e.stamp in w.bodies then e.body == w.bodies[e.stamp] else e.body.DroppedEvents?
  }

  predicate Faithful(w: World) {
    && (forall x :: x in w.bodies ==> x <= w.b.last)
    && (forall i :: 0 <= i < |Stream(w.b)| ==> BodyKept(w, Stream(w.b)[i]))
  }

  /** A batch in flight holds what its drain handed over. */
  predicate Tracked(w: World) { forall k :: 0 <= k < |w.b.inFlight| ==> InSent(w.sent, w.b.inFlight[k]) }

  predicate InSent(sent: map<nat, seq<Event>>, batch: Batch) {
    batch.id in sent && batch.events == sent[batch.id] && batch.events != []
  }

  /** Every loss and every refusal is on the tally or in a record already made. */
  predicate Accounted(w: World) {
    && |w.discarded| == w.b.dropped + w.reported
    && w.refused == w.b.undeclared + w.refusedReported
  }

  predicate Inv(w: World) {
    && Bounded(w) && InOrder(Stream(w.b), w.b.last) && Partitioned(w) && Accounted(w)
    && Faithful(w) && Tracked(w)
  }

  lemma EvictedBounds(b: Buffer)
    ensures var e := Evicted(b);
            && |e.inFlight| <= MAX_IN_FLIGHT_BATCHES
            && e.max == b.max && e.buf == b.buf && e.last == b.last && e.undeclared == b.undeclared
            && |e.inFlight| <= |b.inFlight| && e.inFlight == b.inFlight[|b.inFlight| - |e.inFlight|..]
    decreases |b.inFlight|
  {
    if |b.inFlight| > MAX_IN_FLIGHT_BATCHES {
      EvictedBounds(b.(inFlight := b.inFlight[1..], dropped := b.dropped + |b.inFlight[0].events|));
    }
  }

  /** When a drain leaves the buffer within its bound: with a cap of zero it prepends the
      record and takes nothing back. */
  lemma DrainBoundIff(b: Buffer, id: nat, maxEvents: nat)
    requires |b.buf| <= b.max
    ensures |Drained(b, id, maxEvents).0.buf| <= b.max <==>
            maxEvents >= 1 || |b.buf| < b.max || (b.dropped == 0 && b.undeclared == 0)
  {
    var r := Reported(b);
    var n := Min(|r.buf|, maxEvents);
    if r.buf[..n] != [] { EvictedBounds(r.(buf := r.buf[n..], inFlight := Put(r.inFlight, Batch(id, r.buf[..n])))); }
  }

  lemma DrainKept(b: Buffer, id: nat, maxEvents: nat, used: set<nat>)
    requires IdsIn(b.inFlight, used)
    ensures IdsIn(Drained(b, id, maxEvents).0.inFlight, used + {id})
  {
    var r := Reported(b);
    var n := Min(|r.buf|, maxEvents);
    if r.buf[..n] != [] {
      var put := Put(r.inFlight, Batch(id, r.buf[..n]));
      assert IdsIn(put, used + {id});
      EvictedBounds(r.(buf := r.buf[n..], inFlight := put));
    }
  }

  lemma DrainedRest(b: Buffer, id: nat, maxEvents: nat)
    ensures var d := Drained(b, id, maxEvents).0;
            d.max == b.max && d.undeclared == 0
            && (|b.inFlight| <= MAX_IN_FLIGHT_BATCHES ==> |d.inFlight| <= MAX_IN_FLIGHT_BATCHES)
  {
    var r := Reported(b);
    var n := Min(|r.buf|, maxEvents);
    if r.buf[..n] != [] { EvictedBounds(r.(buf := r.buf[n..], inFlight := Put(r.inFlight, Batch(id, r.buf[..n])))); }
  }

  /** A drain hands over the oldest events, a record of any loss first, and holds the rest;
      in flight are the newest batches the cap allows, and what had to go is counted. */
  lemma DrainHandsOver(b: Buffer, id: nat, maxEvents: nat) returns (record: seq<Event>, batches: seq<Batch>)
    requires |b.inFlight| <= MAX_IN_FLIGHT_BATCHES && Find(b.inFlight, id) == |b.inFlight| && maxEvents >= 1
    ensures record == if b.dropped == 0 && b.undeclared == 0 then []
                      else [Event(b.last + 1, DroppedEvents(b.dropped, b.undeclared))]
    ensures var (d, out) := Drained(b, id, maxEvents);
            && batches == b.inFlight + (if out == [] then [] else [Batch(id, out)])
            && out + d.buf == record + b.buf && (|out| == maxEvents || d.buf == []) && |out| <= maxEvents
            && d.last == b.last + |record| && d.undeclared == 0
            && |d.inFlight| == Min(|batches|, MAX_IN_FLIGHT_BATCHES)
            && d.inFlight == batches[|batches| - |d.inFlight|..]
            && d.dropped == if |batches| <= MAX_IN_FLIGHT_BATCHES then 0 else |batches[0].events|
  {
    var r := Reported(b);
    var n := Min(|r.buf|, maxEvents);
    record := if b.dropped == 0 && b.undeclared == 0 then []
              else [Event(b.last + 1, DroppedEvents(b.dropped, b.undeclared))];
    batches := b.inFlight + if n == 0 then [] else [Batch(id, r.buf[..n])];
    assert r.buf == r.buf[..n] + r.buf[n..] && r.buf == record + b.buf;
    if n > 0 {
      assert r.buf[..n] != [] && Put(r.inFlight, Batch(id, r.buf[..n])) == batches;
      EvictedOnce(r.(buf := r.buf[n..], inFlight := batches));
    } else {
      assert r.buf[..n] == [];
    }
  }

  lemma EvictedOnce(b: Buffer)
    requires |b.inFlight| <= MAX_IN_FLIGHT_BATCHES + 1
    ensures Evicted(b) == if |b.inFlight| <= MAX_IN_FLIGHT_BATCHES then b
                          else b.(inFlight := b.inFlight[1..], dropped := b.dropped + |b.inFlight[0].events|)
  {
  }

  lemma {:induction false} SumsConcat(a: seq<Event>, b: seq<Event>, last: nat)
    ensures DroppedIn(a + b, last) == DroppedIn(a, last) + DroppedIn(b, last)
    ensures UndeclaredIn(a + b, last) == UndeclaredIn(a, last) + UndeclaredIn(b, last)
  {
    if a == [] {
      assert a + b == b;
    } else {
      assert (a + b)[1..] == a[1..] + b;
      SumsConcat(a[1..], b, last);
    }
  }

  lemma {:induction false} SumsOld(s: seq<Event>, last: nat)
    requires forall i :: 0 <= i < |s| ==> s[i].stamp <= last
    ensures DroppedIn(s, last) == 0 && UndeclaredIn(s, last) == 0
  {
    if s != [] { SumsOld(s[1..], last); }
  }

  /** The newest batches hold part of what was in flight, then what was handed over. */
  lemma NewestBatches(f: seq<Batch>, tail: seq<Batch>, cut: nat) returns (kept: seq<Event>)
    requires cut <= |f|
    ensures Flatten((f + tail)[cut..]) == kept + Flatten(tail)
    ensures forall e :: e in kept ==> e in Flatten(f)
  {
    kept := Flatten(f[cut..]);
    assert (f + tail)[cut..] == f[cut..] + tail;
    FlattenAppend(f[cut..], tail);
    assert f == f[..cut] + f[cut..];
    FlattenAppend(f[..cut], f[cut..]);
  }

  /** What a drain leaves in the stream: the batches it kept, its record, and the rest. */
  lemma DrainedStream(b: Buffer, id: nat, maxEvents: nat) returns (kept: seq<Event>, record: seq<Event>)
    requires |b.inFlight| <= MAX_IN_FLIGHT_BATCHES && Find(b.inFlight, id) == |b.inFlight| && maxEvents >= 1
    ensures Stream(Drained(b, id, maxEvents).0) == kept + record + b.buf
    ensures forall e :: e in kept ==> e in Stream(b)
    ensures record == if b.dropped == 0 && b.undeclared == 0 then []
                      else [Event(b.last + 1, DroppedEvents(b.dropped, b.undeclared))]
  {
    var batches: seq<Batch>;
    record, batches := DrainHandsOver(b, id, maxEvents);
    var (d, out) := Drained(b, id, maxEvents);
    var tail := if out == [] then [] else [Batch(id, out)];
    kept := NewestBatches(b.inFlight, tail, |batches| - |d.inFlight|);
    TailFlat(id, out, tail);
    Regrouped(kept, out, d.buf, record, b.buf);
  }

  lemma TailFlat(id: nat, out: seq<Event>, tail: seq<Batch>)
    requires tail == if out == [] then [] else [Batch(id, out)]
    ensures Flatten(tail) == out
  {
    if out != [] { assert tail[1..] == []; }
  }

  lemma Regrouped(kept: seq<Event>, out: seq<Event>, rest: seq<Event>, record: seq<Event>, buf: seq<Event>)
    requires out + rest == record + buf
    ensures kept + out + rest == kept + record + buf
  {
    assert kept + out + rest == kept + (out + rest) && kept + record + buf == kept + (record + buf);
  }

  lemma OldStamps(b: Buffer, s: seq<Event>)
    requires InOrder(Stream(b), b.last) && forall e :: e in s ==> e in Stream(b)
    ensures DroppedIn(s, b.last) == 0 && UndeclaredIn(s, b.last) == 0
  {
    forall i | 0 <= i < |s| ensures s[i].stamp <= b.last {
      assert s[i] in s && s[i] in Stream(b);
    }
    SumsOld(s, b.last);
  }

  /** The records of a drain say what the tally said. */
  lemma DrainPlaces(b: Buffer, id: nat, maxEvents: nat)
    requires |b.inFlight| <= MAX_IN_FLIGHT_BATCHES && Find(b.inFlight, id) == |b.inFlight| && maxEvents >= 1
    requires InOrder(Stream(b), b.last)
    ensures DroppedIn(Stream(Drained(b, id, maxEvents).0), b.last) == b.dropped
    ensures UndeclaredIn(Stream(Drained(b, id, maxEvents).0), b.last) == b.undeclared
  {
    var kept, record := DrainedStream(b, id, maxEvents);
    SumsConcat(kept + record, b.buf, b.last);
    SumsConcat(kept, record, b.last);
    OldStamps(b, kept);
    OldStamps(b, b.buf);
    RecordSums(record, b.last);
  }

  lemma RecordSums(record: seq<Event>, last: nat)
    requires |record| <= 1 && (record != [] ==> NewRecord(record[0], last))
    ensures DroppedIn(record, last) == if record == [] then 0 else record[0].body.dropped
    ensures UndeclaredIn(record, last) == if record == [] then 0 else record[0].body.undeclared
  {
    if record != [] { assert record[1..] == []; }
  }

  lemma DrainBounds(w: World, op: Op)
    requires Bounded(w) && Enabled(w, op) && op.Drain?
    ensures Bounded(Next(w, op))
    ensures Apply(w.b, op).undeclared == 0
  {
    DrainBoundIff(w.b, op.id, op.maxEvents);
    DrainedRest(w.b, op.id, op.maxEvents);
    DrainKept(w.b, op.id, op.maxEvents, w.used);
  }

  lemma LosesFrom(b: Buffer, b1: Buffer, b': Buffer, lost: set<nat>, placed: nat)
    requires Loses(b1, b', lost, placed)
    requires Stream(b) == Stream(b1) && b.last == b1.last && b.max == b1.max && b.dropped == b1.dropped
    ensures Loses(b, b', lost, placed)
  {
  }

  lemma ExtendLoses(b: Buffer, bodies: seq<Body>, refused: nat) returns (lost: set<nat>)
    requires b.max >= 1 && InOrder(Stream(b), b.last)
    ensures Loses(b, Extended(b, bodies, refused), lost, 0)
  {
    var b1 := b.(undeclared := b.undeclared + refused);
    assert Stream(b1) == Stream(b);
    lost := PushedLoses(b1, bodies);
    LosesFrom(b, b1, Extended(b, bodies, refused), lost, 0);
  }

  /** What overflows the bound is dropped, and nothing else. */
  lemma {:induction false} PushedDrops(b: Buffer, bodies: seq<Body>)
    requires b.max >= 1
    ensures Pushed(b, bodies).dropped - b.dropped ==
            if |b.buf| + |bodies| <= b.max then 0
            else if |b.buf| <= b.max then |b.buf| + |bodies| - b.max
            else |bodies|
    decreases |bodies|
  {
    if bodies != [] { PushedDrops(Push(b, bodies[0]), bodies[1..]); }
  }

  /** With room for the whole batch nothing is dropped and every new stamp is held. */
  lemma RoomyExtend(b: Buffer, bodies: seq<Body>, refused: nat)
    requires b.max >= 1 && |b.buf| + |bodies| <= b.max && InOrder(Stream(b), b.last)
    ensures var b' := Extended(b, bodies, refused);
            && b'.dropped == b.dropped && b'.last == b.last + |bodies|
            && Stamps(Stream(b')) == Stamps(Stream(b)) + Given(b.last, b.last + |bodies|)
  {
    PushedDrops(b.(undeclared := b.undeclared + refused), bodies);
    var lost := ExtendLoses(b, bodies, refused);
    NothingLost(Stamps(Stream(b)) + Given(b.last, b.last + |bodies|), lost);
  }

  lemma NothingLost(all: set<nat>, lost: set<nat>)
    requires |lost| == 0
    ensures all - lost == all
  {
  }

  lemma RefuseLoses(b: Buffer)
    requires InOrder(Stream(b), b.last)
    ensures Loses(b, b.(undeclared := b.undeclared + 1), {}, 0)
  {
    assert Stream(b.(undeclared := b.undeclared + 1)) == Stream(b);
    NothingMoves(Stream(b), b.last);
  }

  lemma FreshNotFound(w: World, id: nat)
    requires Bounded(w) && id !in w.used
    ensures Find(w.b.inFlight, id) == |w.b.inFlight|
  {
  }

  /** What an operation loses, for every one that is not an ACK or a NACK. */
  lemma OpLoses(w: World, op: Op) returns (lost: set<nat>)
    requires Bounded(w) && InOrder(Stream(w.b), w.b.last) && Enabled(w, op) && !op.Ack? && !op.Nack?
    ensures Loses(w.b, Apply(w.b, op), lost, if op.Drain? then w.b.dropped else 0)
  {
    match op
    case Extend(bodies, refused) => lost := ExtendLoses(w.b, bodies, refused);
    case Refuse =>
      RefuseLoses(w.b);
      lost := {};
    case Drain(id, maxEvents) =>
      FreshNotFound(w, id);
      lost := DrainedLoses(w.b, id, maxEvents);
    case Requeue => lost := RequeuedLoses(w.b);
  }

  lemma Regroup(held: set<nat>, held': set<nat>, a: set<nat>, n: set<nat>, d: set<nat>, lost: set<nat>,
      lo: nat, hi: nat)
    requires lo <= hi && Split(held, a, n, d, lo)
    requires lost <= held + Given(lo, hi) && held' == held + Given(lo, hi) - lost
    ensures Split(held', a + lost, n, d, hi) && Split(held', a, n + lost, d, hi) && Split(held', a, n, d + lost, hi)
    ensures lost !! d && held + Given(lo, hi) - held' == lost
  {
    assert Given(0, lo) + Given(lo, hi) == Given(0, hi);
    assert Given(0, lo) !! Given(lo, hi);
  }

  lemma BoundsKept(w: World, op: Op)
    requires Bounded(w) && Enabled(w, op) && !op.Ack? && !op.Nack?
    ensures Bounded(Next(w, op))
  {
    if op.Drain? { DrainBounds(w, op); }
  }

  lemma RefusalsKept(w: World, op: Op)
    requires Bounded(w) && Accounted(w) && Enabled(w, op) && !op.Ack? && !op.Nack? && InOrder(Stream(w.b), w.b.last)
    ensures var w' := Next(w, op); w'.refused == w'.b.undeclared + w'.refusedReported
  {
    if op.Drain? {
      DrainBounds(w, op);
      FreshNotFound(w, op.id);
      DrainPlaces(w.b, op.id, op.maxEvents);
    }
  }

  // ---- What is held is what was emitted ---------------------------------------

  /** The newest of `all` that fit. */
  predicate Newest(buf: seq<Event>, all: seq<Event>, max: nat) {
    |buf| == Min(|all|, max) && buf == all[|all| - |buf|..]
  }

  /** A batch appended to a full buffer pushes the oldest out: the newest that fit stay. */
  lemma {:induction false} ExtendKeepsNewest(b: Buffer, bodies: seq<Body>)
    requires b.max >= 1 && |b.buf| <= b.max
    ensures Newest(Pushed(b, bodies).buf, b.buf + Stamped(b.last, bodies), b.max)
    decreases |bodies|
  {
    if bodies == [] {
      assert b.buf + Stamped(b.last, bodies) == b.buf;
    } else {
      var b1 := Push(b, bodies[0]);
      ExtendKeepsNewest(b1, bodies[1..]);
      PushKeepsNewest(b, bodies, Pushed(b, bodies).buf);
    }
  }

  lemma ExtendLength(b: Buffer, bodies: seq<Body>, refused: nat)
    requires b.max >= 1 && |b.buf| <= b.max
    ensures var b' := Extended(b, bodies, refused);
            |b'.buf| == Min(|b.buf| + |bodies|, b.max) && b'.last == b.last + |bodies| && b'.max == b.max
  {
    ExtendKeepsNewest(b.(undeclared := b.undeclared + refused), bodies);
  }

  lemma PushKeepsNewest(b: Buffer, bodies: seq<Body>, buf: seq<Event>)
    requires b.max >= 1 && |b.buf| <= b.max && bodies != []
    requires var b1 := Push(b, bodies[0]); Newest(buf, b1.buf + Stamped(b1.last, bodies[1..]), b.max)
    ensures Newest(buf, b.buf + Stamped(b.last, bodies), b.max)
  {
    var b1 := Push(b, bodies[0]);
    var all, all1 := b.buf + Stamped(b.last, bodies), b1.buf + Stamped(b1.last, bodies[1..]);
    assert Stamped(b.last, bodies) == [Event(b.last + 1, bodies[0])] + Stamped(b1.last, bodies[1..]);
    assert all1 == all[|all| - |all1|..];
  }

  /** Every event held before and after an operation is the same one. */
  predicate Holds(b: Buffer, b': Buffer, added: seq<Event>) {
    forall i :: 0 <= i < |Stream(b')| ==> Stream(b')[i] in Stream(b) || Stream(b')[i] in added
  }

  lemma ExtendHolds(b: Buffer, bodies: seq<Body>, refused: nat)
    requires b.max >= 1 && |b.buf| <= b.max
    ensures Holds(b, Extended(b, bodies, refused), Stamped(b.last, bodies))
  {
    var b', all := Extended(b, bodies, refused), b.buf + Stamped(b.last, bodies);
    ExtendKeepsNewest(b.(undeclared := b.undeclared + refused), bodies);
    assert forall e :: e in b'.buf ==> e in all;
    assert forall e :: e in b.buf ==> e in Stream(b);
  }

  lemma WithoutHolds(b: Buffer, id: nat)
    ensures Holds(b, b.(inFlight := Without(b.inFlight, id)), [])
  {
    var k := Find(b.inFlight, id);
    if k < |b.inFlight| {
      var i, j := WithoutCuts(b, k);
    }
  }

  /** Only a loss record or a caller's event under its own new stamp is added. */
  lemma OpHolds(w: World, op: Op) returns (added: seq<Event>)
    requires Bounded(w) && Enabled(w, op)
    ensures Holds(w.b, Apply(w.b, op), added)
    ensures if op.Extend? then added == Stamped(w.b.last, op.bodies)
            else forall i :: 0 <= i < |added| ==> NewRecord(added[i], w.b.last)
  {
    added := [];
    match op
    case Extend(bodies, refused) =>
      ExtendHolds(w.b, bodies, refused);
      added := Stamped(w.b.last, bodies);
    case Refuse =>
    case Drain(id, maxEvents) =>
      FreshNotFound(w, id);
      var kept, record := DrainedStream(w.b, id, maxEvents);
      added := record;
    case Ack(id) => WithoutHolds(w.b, id);
    case Nack(id) => WithoutHolds(w.b, id);
    case Requeue =>
  }

  lemma FaithfulKept(w: World, op: Op)
    requires Bounded(w) && Faithful(w) && Enabled(w, op) && InOrder(Stream(w.b), w.b.last)
    ensures Faithful(Next(w, op))
  {
    var w' := Next(w, op);
    var added := OpHolds(w, op);
    LastGrows(w, op);
    forall i | 0 <= i < |Stream(w'.b)| ensures BodyKept(w', Stream(w'.b)[i]) {
      var e := Stream(w'.b)[i];
      if e in Stream(w.b) {
        var k :| 0 <= k < |Stream(w.b)| && Stream(w.b)[k] == e;
        assert BodyKept(w, Stream(w.b)[k]) && e.stamp <= w.b.last;
      } else {
        var k :| 0 <= k < |added| && added[k] == e;
      }
    }
  }

  lemma LastGrows(w: World, op: Op)
    requires Bounded(w) && Enabled(w, op)
    ensures Apply(w.b, op).last >= w.b.last + if op.Extend? then |op.bodies| else 0
  {
    if op.Drain? {
      FreshNotFound(w, op.id);
      var record, batches := DrainHandsOver(w.b, op.id, op.maxEvents);
    }
  }

  lemma TrackedKept(w: World, op: Op)
    requires Bounded(w) && Tracked(w) && Enabled(w, op)
    ensures Tracked(Next(w, op))
  {
    match op
    case Drain(id, maxEvents) => DrainTracked(w, id, maxEvents);
    case Ack(id) => WithoutTracked(w, id);
    case Nack(id) => WithoutTracked(w, id);
    case _ =>
  }

  /** In flight after a drain is what was before, and at most the new batch. */
  lemma DrainInFlight(b: Buffer, id: nat, maxEvents: nat)
    requires |b.inFlight| <= MAX_IN_FLIGHT_BATCHES && Find(b.inFlight, id) == |b.inFlight| && maxEvents >= 1
    ensures var (d, out) := Drained(b, id, maxEvents);
            forall k :: 0 <= k < |d.inFlight| ==>
              d.inFlight[k] in b.inFlight || (out != [] && d.inFlight[k] == Batch(id, out))
  {
    var record, batches := DrainHandsOver(b, id, maxEvents);
    var d := Drained(b, id, maxEvents).0;
    forall k | 0 <= k < |d.inFlight| ensures d.inFlight[k] == batches[|batches| - |d.inFlight| + k] {}
  }

  lemma DrainSent(b: Buffer, used: set<nat>, sent: map<nat, seq<Event>>, id: nat, out: seq<Event>, d: seq<Batch>)
    requires IdsIn(b.inFlight, used) && id !in used
    requires forall k :: 0 <= k < |b.inFlight| ==> InSent(sent, b.inFlight[k])
    requires forall k :: 0 <= k < |d| ==> d[k] in b.inFlight || (out != [] && d[k] == Batch(id, out))
    ensures var sent' := if out != [] then sent[id := out] else sent;
            forall k :: 0 <= k < |d| ==> InSent(sent', d[k])
  {
  }

  lemma DrainTracked(w: World, id: nat, maxEvents: nat)
    requires Bounded(w) && Tracked(w) && Enabled(w, Drain(id, maxEvents))
    ensures Tracked(Next(w, Drain(id, maxEvents)))
  {
    FreshNotFound(w, id);
    DrainInFlight(w.b, id, maxEvents);
    var (d, out) := Drained(w.b, id, maxEvents);
    DrainSent(w.b, w.used, w.sent, id, out, d.inFlight);
  }

  lemma WithoutTracked(w: World, id: nat)
    requires Tracked(w)
    ensures Tracked(w.(b := w.b.(inFlight := Without(w.b.inFlight, id))))
  {
    var k, left := Find(w.b.inFlight, id), Without(w.b.inFlight, id);
    forall j | 0 <= j < |left| ensures left[j] == w.b.inFlight[if j < k then j else j + 1] {}
  }

  lemma OpKeeps(w: World, op: Op)
    requires Inv(w) && Enabled(w, op) && !op.Ack? && !op.Nack?
    ensures Inv(Next(w, op))
  {
    var w', b' := Next(w, op), Apply(w.b, op);
    BoundsKept(w, op);
    RefusalsKept(w, op);
    FaithfulKept(w, op);
    TrackedKept(w, op);
    var lost := OpLoses(w, op);
    LossAccounted(w, b', lost, if op.Drain? then w.b.dropped else 0);
    if op.Drain? { FreshPlaces(w, op); }
    assert w'.discarded == w.discarded + lost;
  }

  lemma FreshPlaces(w: World, op: Op)
    requires Bounded(w) && InOrder(Stream(w.b), w.b.last) && Enabled(w, op) && op.Drain?
    ensures Next(w, op).reported == w.reported + w.b.dropped
  {
    FreshNotFound(w, op.id);
    DrainPlaces(w.b, op.id, op.maxEvents);
  }

  lemma LossAccounted(w: World, b': Buffer, lost: set<nat>, placed: nat)
    requires Inv(w) && Loses(w.b, b', lost, placed)
    ensures InOrder(Stream(b'), b'.last) && Gone(w.b, b') == lost
    ensures Split(Stamps(Stream(b')), w.acked, w.nacked, w.discarded + lost, b'.last)
    ensures |w.discarded + lost| == b'.dropped + w.reported + placed
  {
    Regroup(Stamps(Stream(w.b)), Stamps(Stream(b')), w.acked, w.nacked, w.discarded, lost, w.b.last, b'.last);
    assert |w.discarded + lost| == |w.discarded| + |lost|;
  }

  lemma AckBounds(w: World, id: nat)
    requires Bounded(w)
    ensures Bounded(w.(b := w.b.(inFlight := Without(w.b.inFlight, id))))
  {
    var k := Find(w.b.inFlight, id);
    var left := Without(w.b.inFlight, id);
    forall j | 0 <= j < |left| ensures left[j].id in w.used {
      assert left[j] == w.b.inFlight[if j < k then j else j + 1];
    }
  }

  /** Only the batches in flight change, and what they held is acked or nacked. */
  lemma GoneAccounted(w: World, b': Buffer, lost: set<nat>)
    requires Inv(w) && Moves(Stream(w.b), w.b.last, Stream(b'), b'.last, lost)
    ensures InOrder(Stream(b'), b'.last) && Gone(w.b, b') == lost
    ensures var held := Stamps(Stream(b'));
            && Split(held, w.acked + lost, w.nacked, w.discarded, b'.last)
            && Split(held, w.acked, w.nacked + lost, w.discarded, b'.last)
  {
    Regroup(Stamps(Stream(w.b)), Stamps(Stream(b')), w.acked, w.nacked, w.discarded, lost, w.b.last, b'.last);
  }

  lemma AckKeeps(w: World, op: Op)
    requires Inv(w) && (op.Ack? || op.Nack?)
    ensures Inv(Next(w, op))
  {
    var b' := w.b.(inFlight := Without(w.b.inFlight, op.id));
    assert Apply(w.b, op) == b';
    AckBounds(w, op.id);
    var lost := WithoutMoves(w.b, op.id);
    GoneAccounted(w, b', lost);
    FaithfulKept(w, op);
    TrackedKept(w, op);
  }

  lemma StepKeeps(w: World, op: Op)
    requires Inv(w) && Enabled(w, op)
    ensures Inv(Next(w, op))
  {
    if op.Ack? || op.Nack? { AckKeeps(w, op); } else { OpKeeps(w, op); }
  }

  /** A stamp that left the stream never comes back. */
  lemma MovesForget(s: seq<Event>, last: nat, t: seq<Event>, last': nat, lost: set<nat>)
    requires Moves(s, last, t, last', lost)
    ensures last <= last' && forall x :: x in Stamps(t) ==> x in Stamps(s) || last < x <= last'
  {
    forall x | x in Stamps(t) ensures x in Stamps(s) || last < x <= last' {
      assert x in Stamps(s) + Given(last, last');
    }
  }

  lemma OpForgets(w: World, op: Op)
    requires Inv(w) && Enabled(w, op)
    ensures var b := Apply(w.b, op);
            w.b.last <= b.last && b.max == w.b.max && |b.buf| <= b.max
            && forall x :: x in Stamps(Stream(b)) ==> x in Stamps(Stream(w.b)) || w.b.last < x <= b.last
  {
    var b := Apply(w.b, op);
    StaysBounded(w, op);
    if op.Ack? || op.Nack? {
      var lost := WithoutMoves(w.b, op.id);
      MovesForget(Stream(w.b), w.b.last, Stream(b), b.last, lost);
    } else {
      var lost := OpLoses(w, op);
      MovesForget(Stream(w.b), w.b.last, Stream(b), b.last, lost);
    }
  }

  /** `b'` is `b` with so many more events: all of them if they fit, and if not some of
      what was held or given out is dropped. */
  predicate ExtendsTo(b: Buffer, b': Buffer, count: nat) {
    && |b'.buf| == Min(|b.buf| + count, b.max) && b'.last == b.last + count && b'.max == b.max
    && Stamps(Stream(b')) <= Stamps(Stream(b)) + Given(b.last, b'.last)
    && (|b.buf| + count <= b.max ==>
          b'.dropped == b.dropped && Stamps(Stream(b')) == Stamps(Stream(b)) + Given(b.last, b'.last))
  }

  lemma ExtendGives(w: World, bodies: seq<Body>, refused: nat)
    requires Inv(w)
    ensures var b' := Extended(w.b, bodies, refused);
            b'.max == w.b.max && Stamps(Stream(b')) <= Stamps(Stream(w.b)) + Given(w.b.last, b'.last)
  {
    OpForgets(w, Extend(bodies, refused));
  }

  lemma ExtendSummary(w: World, bodies: seq<Body>, refused: nat)
    requires Inv(w)
    ensures ExtendsTo(w.b, Extended(w.b, bodies, refused), |bodies|)
  {
    ExtendLength(w.b, bodies, refused);
    ExtendGives(w, bodies, refused);
    if |w.b.buf| + |bodies| <= w.b.max { RoomyExtend(w.b, bodies, refused); }
  }

  lemma StaysBounded(w: World, op: Op)
    requires Inv(w) && Enabled(w, op)
    ensures var b := Apply(w.b, op); b.max == w.b.max && |b.buf| <= b.max
  {
    StepKeeps(w, op);
    if op.Drain? { DrainedRest(w.b, op.id, op.maxEvents); }
  }

  predicate IsRun(w: World, ops: seq<Op>)
    decreases |ops|
  {
    w.b.max >= 1 && (ops == [] || (Enabled(w, ops[0]) && IsRun(Next(w, ops[0]), ops[1..])))
  }

  function After(w: World, ops: seq<Op>): World
    requires IsRun(w, ops)
    decreases |ops|
  {
    if ops == [] then w else After(Next(w, ops[0]), ops[1..])
  }

  lemma {:induction false} RunKeeps(w: World, ops: seq<Op>)
    requires Inv(w) && IsRun(w, ops)
    ensures Inv(After(w, ops))
    decreases |ops|
  {
    if ops != [] {
      StepKeeps(w, ops[0]);
      RunKeeps(Next(w, ops[0]), ops[1..]);
    }
  }

  function Start(max: nat): World { World(Empty(max), {}, map[], map[], {}, {}, {}, 0, 0, 0) }

  /** In every reachable state: each stamp is held, acked, nacked or discarded, and only
      one of these; losses equal the tally plus what records carried; what is held lists
      plain events in emit order; and both bounds hold. */
  lemma Conservation(max: nat, ops: seq<Op>)
    requires max >= 1 && IsRun(Start(max), ops)
    ensures var w := After(Start(max), ops);
            && Partitioned(w) && Accounted(w) && InOrder(Stream(w.b), w.b.last) && Bounded(w)
            && Faithful(w) && Tracked(w)
  {
    assert Stream(Empty(max)) == [] && Stamps([]) == {} && Given(0, 0) == {};
    RunKeeps(Start(max), ops);
  }

  /** In every reachable state an ACK or a NACK is known exactly when it releases something;
      then it releases exactly what its batch handed over, and a NACK counts that. */
  lemma AckReleasesWhatWasSent(max: nat, ops: seq<Op>, id: nat)
    requires max >= 1 && IsRun(Start(max), ops)
    ensures var w := After(Start(max), ops);
            var gone := Gone(w.b, Acked(w.b, id).0);
            && Gone(w.b, Nacked(w.b, id).0) == gone
            && (Acked(w.b, id).1 <==> gone != {}) && (Nacked(w.b, id).1.Some? <==> gone != {})
            && (gone != {} ==> id in w.sent && gone == Stamps(w.sent[id]) && Nacked(w.b, id).1.value == |gone|)
  {
    Conservation(max, ops);
    var w := After(Start(max), ops);
    assert Inv(w);
    AckReleasesItsBatch(w, id);
    var k := Find(w.b.inFlight, id);
    if k < |w.b.inFlight| { BatchStamps(w.b, k); }
  }

  /** A batch in flight has as many stamps as events. */
  lemma BatchStamps(b: Buffer, k: nat)
    requires InOrder(Stream(b), b.last) && k < |b.inFlight|
    ensures |Stamps(b.inFlight[k].events)| == |b.inFlight[k].events|
    ensures b.inFlight[k].events != [] ==> Stamps(b.inFlight[k].events) != {}
  {
    var i, j := WithoutCuts(b, k);
    SlicePairs(Stream(b), i, j);
    DistinctStamps(b.inFlight[k].events);
  }

  /** An ACK moves exactly its own batch's stamps to acked; an unknown id moves nothing. */
  lemma AckReleasesItsBatch(w: World, id: nat)
    requires Inv(w)
    ensures var k := Find(w.b.inFlight, id);
            Gone(w.b, Acked(w.b, id).0) == if k < |w.b.inFlight| then Stamps(w.b.inFlight[k].events) else {}
  {
    var lost := WithoutMoves(w.b, id);
    assert Given(w.b.last, w.b.last) == {};
  }

  // ---- The buffer as it is written --------------------------------------------

  class EventBuffer {
    const max: nat
    var buf: seq<Event>
    var last: nat
    var dropped: nat
    var undeclared: nat
    var inFlight: seq<Batch>

    function Abs(): Buffer
      reads this
    {
      Buffer(max, buf, last, dropped, undeclared, inFlight)
    }

    constructor (max: nat)
      ensures Abs() == Empty(max)
    {
      this.max := max;
      buf, last, dropped, undeclared, inFlight := [], 0, 0, 0, [];
    }

    /** Buffer a batch in order; the stamps given out run from `first` to before `stop`. */
    method Extend(batch: seq<Body>, refused: nat) returns (first: nat, stop: nat)
      requires max >= 1
      modifies this
      ensures Abs() == Extended(old(Abs()), batch, refused)
      ensures first == old(last) + 1 && stop == first + |batch| && stop == last + 1
    {
      first := last + 1;
      undeclared := undeclared + refused;
      for i := 0 to |batch|
        invariant Pushed(Abs(), batch[i..]) == Extended(old(Abs()), batch, refused)
      {
        assert batch[i..][0] == batch[i] && batch[i..][1..] == batch[i + 1..];
        last := last + 1;
        if |buf| >= max {
          buf := buf[1..];
          dropped := dropped + 1;
        }
        buf := buf + [Event(last, batch[i])];
      }
      stop := last + 1;
    }

    method Refuse()
      modifies this
      ensures Abs() == old(Abs()).(undeclared := old(undeclared) + 1)
    {
      undeclared := undeclared + 1;
    }

    /** The largest batch that can be buffered without dropping anything. */
    method Room() returns (room: int)
      requires max >= 1
      ensures forall bodies :: Pushed(Abs(), bodies).dropped == dropped <==> bodies == [] || |bodies| <= room
    {
      room := max - |buf|;
      forall bodies ensures Pushed(Abs(), bodies).dropped == dropped <==> bodies == [] || |bodies| <= room {
        PushedDrops(Abs(), bodies);
      }
    }

    method HoldsAny(first: nat, stop: nat) returns (held: bool)
      ensures held == StreamHolds(Abs(), first, stop)
    {
      var all := buf;
      for k := 0 to |inFlight|
        invariant all == buf + Flatten(inFlight[..k])
      {
        FlattenFront(inFlight, k);
        all := all + inFlight[k].events;
      }
      assert inFlight[..|inFlight|] == inFlight;
      held := false;
      for i := 0 to |all|
        invariant held <==> AnyStamp(all[..i], first, stop)
      {
        assert all[..i + 1] == all[..i] + [all[i]];
        AnyStampConcat(all[..i], [all[i]], first, stop);
        assert [all[i]][0] == all[i];
        held := held || first <= all[i].stamp < stop;
      }
      assert all[..|all|] == all;
      AnyStampConcat(buf, Flatten(inFlight), first, stop);
      AnyStampConcat(Flatten(inFlight), buf, first, stop);
    }

    method Drain(id: nat, maxEvents: nat) returns (out: seq<Event>)
      modifies this
      ensures Drained(old(Abs()), id, maxEvents) == (Abs(), out)
    {
      if dropped > 0 || undeclared > 0 {
        last := last + 1;
        buf := [Event(last, DroppedEvents(dropped, undeclared))] + buf;
        dropped, undeclared := 0, 0;
      }
      assert Abs() == Reported(old(Abs()));
      out := PopUpTo(maxEvents);
      if out != [] {
        Track(id, out);
      }
    }

    /** Move up to `maxEvents` of the oldest events out of the buffer. */
    method PopUpTo(maxEvents: nat) returns (out: seq<Event>)
      modifies this
      ensures var n := Min(|old(buf)|, maxEvents);
              out == old(buf)[..n] && Abs() == old(Abs()).(buf := old(buf)[n..])
    {
      out := [];
      while buf != [] && |out| < maxEvents
        invariant |out| <= Min(|old(buf)|, maxEvents)
        invariant out == old(buf)[..|out|] && Abs() == old(Abs()).(buf := old(buf)[|out|..])
        decreases |buf|
      {
        out := out + [buf[0]];
        buf := buf[1..];
      }
    }

    /** Remember a batch until its ACK, evicting the oldest past the cap. */
    method Track(id: nat, out: seq<Event>)
      modifies this
      ensures Abs() == Evicted(old(Abs()).(inFlight := Put(old(inFlight), Batch(id, out))))
    {
      inFlight := Put(inFlight, Batch(id, out));
      ghost var put := Abs();
      while |inFlight| > MAX_IN_FLIGHT_BATCHES
        invariant Evicted(Abs()) == Evicted(put)
      {
        dropped := dropped + |inFlight[0].events|;
        inFlight := inFlight[1..];
      }
    }

    method Ack(id: nat) returns (known: bool)
      modifies this
      ensures Acked(old(Abs()), id) == (Abs(), known)
    {
      var k := Find(inFlight, id);
      known := k < |inFlight|;
      if known {
        inFlight := inFlight[..k] + inFlight[k + 1..];
      }
    }

    method Nack(id: nat) returns (count: Option<nat>)
      modifies this
      ensures Nacked(old(Abs()), id) == (Abs(), count)
    {
      var k := Find(inFlight, id);
      if k == |inFlight| {
        return None;
      }
      count := Some(|inFlight[k].events|);
      inFlight := inFlight[..k] + inFlight[k + 1..];
    }

    method RequeueUnacked() returns (requeued: nat)
      modifies this
      ensures Requeued(old(Abs())) == (Abs(), requeued)
      ensures inFlight == [] && Newest(buf, old(Stream(Abs())), max)
      ensures requeued == |old(Stream(Abs()))| - |old(buf)| && dropped == old(dropped) + |old(Stream(Abs()))| - |buf|
      ensures old(InOrder(Stream(Abs()), last)) ==> InOrder(buf, last)
    {
      ghost var was := Abs();
      var unacked := [];
      var batches := inFlight;
      for k := 0 to |batches|
        invariant Abs() == was && unacked == Flatten(inFlight[..k])
      {
        FlattenFront(inFlight, k);
        unacked := unacked + inFlight[k].events;
      }
      assert inFlight[..|inFlight|] == inFlight;
      buf := unacked + buf;
      requeued := |unacked|;
      inFlight := [];
      DropOldest();
      if InOrder(Stream(was), last) { SuffixOrder(Stream(was), |Stream(was)| - |buf|, last); }
    }

    /** Re-enforce the bound, dropping and counting the oldest. */
    method DropOldest()
      modifies this`buf, this`dropped
      ensures Newest(buf, old(buf), max)
      ensures dropped == old(dropped) + |old(buf)| - |buf|
    {
      while |buf| > max
        invariant |buf| <= |old(buf)| && buf == old(buf)[|old(buf)| - |buf|..]
        invariant |buf| < |old(buf)| ==> |buf| >= max
        invariant dropped == old(dropped) + |old(buf)| - |buf|
        decreases |buf|
      {
        buf := buf[1..];
        dropped := dropped + 1;
      }
    }
  }

  lemma SuffixOrder(all: seq<Event>, over: nat, last: nat)
    requires over <= |all| && InOrder(all, last)
    ensures InOrder(all[over..], last)
  {
    assert all[over..] == all[..0] + all[over..];
    CutOrder(all, 0, over, last);
  }

  lemma FlattenFront(inFlight: seq<Batch>, k: nat)
    requires k < |inFlight|
    ensures Flatten(inFlight[..k + 1]) == Flatten(inFlight[..k]) + inFlight[k].events
  {
    FlattenAppend(inFlight[..k], [inFlight[k]]);
    assert inFlight[..k] + [inFlight[k]] == inFlight[..k + 1];
    assert Flatten([inFlight[k]]) == inFlight[k].events;
  }
}
