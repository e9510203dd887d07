/** The pull protocol of one group: the loop that holds while a batch is in flight, its
    worker threads, the tracker, ACKs and restarts, in every interleaving. */
module PullProtocol {
  import opened Prelude
  import opened ContainerLog
  import opened DockerLines
  import opened PullCursor
  import P = PendingBatches

  /** A worker thread: before `docker logs` ran, or holding what it read. */
  datatype Thread =
    | Started(snapshot: set<Receipt>)
    | HasRead(snapshot: set<Receipt>, receipt: Receipt, lines: set<nat>, matched: bool)

  datatype Sent = Sent(receipt: Receipt, lines: set<nat>)

  /** `loop` is the thread the live log loop awaits, if any; `sent`, `delivered`,
      `filtered` and `seed` are history. */
  datatype Pull = Pull(
    maxLines: nat, timeout: real, log: seq<LogLine>, puller: Puller, tracker: P.Tracker,
    threads: map<nat, Thread>, loop: Option<nat>, sent: map<nat, Sent>, peeked: set<nat>,
    delivered: set<nat>, filtered: set<nat>, seed: Option<int>)

  datatype Step =
    | Emit(line: LogLine)
    | Wake(thread: nat, now: real)          // prune, then hold or start a read
    | Read(thread: nat, wall: int, runs: bool)
    | Skip(thread: nat)                     // wholly filtered
    | Ship(thread: nat, batch: nat, now: real)
    | Drop(thread: nat)                     // an empty read, or one whose session ended
    | Cancel                                // the session ends; its thread runs on
    | Ack(batch: nat)
    | ConfirmAcked(batch: nat)
    | Pop(batch: nat, release: bool)
    | TrackOther(batch: nat, receipt: Receipt, now: real)
    | Restart

  function Init(group: string, container: string, maxLines: nat, timeout: real): Pull {
    Pull(maxLines, timeout, [], Puller(group, container, None),
         P.Tracker(map[], {}), map[], None, map[], {}, {}, {}, None)
  }

  function KeptSet(s: Pull, since: int): set<nat> { set i | i in Kept(s.log, since, s.maxLines) }

  function ReadFrom(s: Pull, wall: int): int {
    if s.puller.checkpoint.Some? then s.puller.checkpoint.value else wall
  }

  predicate Enabled(s: Pull, a: Step) {
    match a
    case Emit(line) => s.log == [] || MicrosAt(s.log, |s.log| - 1) <= Micros(line.nanos)
    case Wake(id, _) => s.loop.None? && id !in s.threads
    case Read(id, _, _) => id in s.threads && s.threads[id].Started?
    case Skip(id) => id in s.threads && s.threads[id].HasRead? && s.threads[id].lines != {} && !s.threads[id].matched
    case Ship(id, b, _) =>
      id in s.threads && s.threads[id].HasRead? && s.threads[id].matched && s.loop == Some(id)
      && b !in s.sent && b !in s.tracker.entries
    case Drop(id) => id in s.threads && s.threads[id].HasRead? && (s.threads[id].lines == {} || s.loop != Some(id))
    case Ack(b) => b in s.sent
    case ConfirmAcked(b) => b in s.peeked && b in s.sent
    case TrackOther(b, receipt, _) => b !in s.sent && b !in s.tracker.entries && receipt.group != s.puller.group
    case _ => true
  }

  function Left(s: Pull, id: nat): Pull {
    s.(threads := s.threads - {id}, loop := if s.loop == Some(id) then None else s.loop)
  }

  function Next(s: Pull, a: Step): Pull
    requires Enabled(s, a)
  {
    match a
    case Emit(line) => s.(log := s.log + [line])
    case Wake(id, now) =>
      var tracker := P.Pruned(s.tracker, now - s.timeout);
      if P.InFlight(tracker, s.puller.group) then s.(tracker := tracker)
      else s.(tracker := tracker, threads := s.threads[id := Started(P.Receipts(tracker))], loop := Some(id))
    case Read(id, wall, runs) =>
      var from := ReadFrom(s, wall);
      var puller := s.puller.(checkpoint := Some(from));
      var lines := if runs then KeptSet(s, from) else {};
      var receipt := if runs then Claim(puller, s.log, from, s.maxLines)
                     else Receipt(puller.group, puller.container, from, from);
      var matched := exists i :: i in lines && i < |s.log| && s.log[i].matches;
      s.(puller := puller, seed := if s.seed.Some? then s.seed else Some(from),
         threads := s.threads[id := HasRead(s.threads[id].snapshot, receipt, lines, matched)])
    case Skip(id) =>
      var t := s.threads[id];
      Left(s.(puller := Skipped(s.puller, t.receipt, Some(t.snapshot)).0, filtered := s.filtered + t.lines), id)
    case Ship(id, b, now) =>
      var t := s.threads[id];
      Left(s.(sent := s.sent[b := Sent(t.receipt, t.lines)], tracker := P.Added(s.tracker, b, t.receipt, now)), id)
    case Drop(id) => Left(s, id)
    case Cancel => s.(loop := None)
    case Ack(b) =>
      s.(delivered := s.delivered + s.sent[b].lines,
         peeked := if b in s.tracker.entries then s.peeked + {b} else s.peeked)
    case ConfirmAcked(b) => s.(puller := Confirm(s.puller, s.sent[b].receipt).0)
    case Pop(b, release) => s.(tracker := P.Popped(s.tracker, b, release))
    case TrackOther(b, receipt, now) => s.(tracker := P.Added(s.tracker, b, receipt, now))
    case Restart => s.(tracker := P.Tracker(map[], {}), threads := map[], loop := None, peeked := {})
  }

  predicate IsRun(s: Pull, steps: seq<Step>)
    decreases |steps|
  {
    steps == [] || (Enabled(s, steps[0]) && IsRun(Next(s, steps[0]), steps[1..]))
  }

  function After(s: Pull, steps: seq<Step>): Pull
    requires IsRun(s, steps)
    decreases |steps|
  {
    if steps == [] then s else After(Next(s, steps[0]), steps[1..])
  }

  /** Every read of the run keeps all the lines its receipt claims. */
  predicate ReadsLeaveNone(s: Pull, steps: seq<Step>)
    requires IsRun(s, steps)
    decreases |steps|
  {
    steps == [] || (
      && (steps[0].Read? ==> LeavesNone(s.puller, s.log, ReadFrom(s, steps[0].wall), s.maxLines))
      && ReadsLeaveNone(Next(s, steps[0]), steps[1..])
    )
  }

  // ---- One batch in flight ----------------------------------------------------

  predicate Ours(s: Pull, b: nat) {
    b in s.tracker.entries && s.tracker.entries[b].receipt.group == s.puller.group
  }

  /** At most one batch of the group is pending, and none while its loop reads. */
  ghost predicate Held(s: Pull) {
    && (forall b, c :: Ours(s, b) && Ours(s, c) ==> b == c)
    && (s.loop.Some? ==> !P.InFlight(s.tracker, s.puller.group))
    && (forall id :: id in s.threads && s.threads[id].HasRead? ==> Own(s.puller, s.threads[id].receipt))
  }

  lemma StepHolds(s: Pull, a: Step)
    requires Held(s) && Enabled(s, a)
    ensures Held(Next(s, a))
  {
    var s' := Next(s, a);
    if a.Read? {
      ClaimEnd(s.puller, s.log, ReadFrom(s, a.wall), s.maxLines);
    }
    if a.Ship? {
      assert forall b :: Ours(s', b) && b != a.batch ==> Ours(s, b);
    } else {
      assert forall b :: Ours(s', b) ==> Ours(s, b);
    }
  }

  /** In every reachable state a held group has at most one batch in flight. */
  lemma {:induction false} OneInFlight(s: Pull, steps: seq<Step>)
    requires Held(s) && IsRun(s, steps)
    ensures Held(After(s, steps))
    decreases |steps|
  {
    if steps != [] {
      StepHolds(s, steps[0]);
      OneInFlight(Next(s, steps[0]), steps[1..]);
    }
  }

  // ---- At least once ----------------------------------------------------------

  predicate Covered(s: Pull, start: int, end: int) { Lines(s.log, start, end) <= s.delivered + s.filtered }

  predicate Safe(s: Pull) {
    s.seed.Some? && s.puller.checkpoint.Some? ==> Covered(s, s.seed.value, s.puller.checkpoint.value)
  }

  predicate Claimed(log: seq<LogLine>, r: Receipt, lines: set<nat>) {
    Sealed(log, r.start, r.end) && Lines(log, r.start, r.end) <= lines
  }

  predicate Inv(s: Pull) {
    && StrictMicros(s.log)
    && (s.seed.Some? <==> s.puller.checkpoint.Some?)
    && (s.seed.Some? ==> Sealed(s.log, s.seed.value, s.puller.checkpoint.value))
    && Safe(s)
    && (forall b :: b in s.sent ==> Claimed(s.log, s.sent[b].receipt, s.sent[b].lines))
    && (forall b :: b in s.peeked ==> b in s.sent && s.sent[b].lines <= s.delivered)
    && (forall id :: id in s.threads && s.threads[id].HasRead? ==>
          s.seed.Some? && Claimed(s.log, s.threads[id].receipt, s.threads[id].lines))
  }

  lemma EmitKeeps(s: Pull, line: LogLine)
    requires Inv(s) && Enabled(s, Emit(line)) && StrictMicros(s.log + [line])
    ensures Inv(Next(s, Emit(line)))
  {
    var s' := Next(s, Emit(line));
    forall start, end | Sealed(s.log, start, end)
      ensures Sealed(s'.log, start, end) && Lines(s'.log, start, end) == Lines(s.log, start, end)
    {
      LinesOfSealed(s.log, line, start, end);
    }
  }

  lemma ReadKeeps(s: Pull, id: nat, wall: int, runs: bool)
    requires Inv(s) && Enabled(s, Read(id, wall, runs))
    requires LeavesNone(s.puller, s.log, ReadFrom(s, wall), s.maxLines)
    ensures Inv(Next(s, Read(id, wall, runs)))
  {
    var s' := Next(s, Read(id, wall, runs));
    var from := ReadFrom(s, wall);
    ReadClaims(s, id, wall, runs);
    assert Lines(s.log, from, from) == {};
    assert forall a, b :: Covered(s, a, b) ==> Covered(s', a, b);
  }

  /** The receipt of a read that leaves none behind claims exactly lines it kept. */
  lemma ReadClaims(s: Pull, id: nat, wall: int, runs: bool)
    requires StrictMicros(s.log) && Enabled(s, Read(id, wall, runs))
    requires LeavesNone(s.puller, s.log, ReadFrom(s, wall), s.maxLines)
    ensures var t := Next(s, Read(id, wall, runs)).threads[id]; Claimed(s.log, t.receipt, t.lines)
  {
    var from := ReadFrom(s, wall);
    var kept := Kept(s.log, from, s.maxLines);
    ClaimEnd(s.puller, s.log, from, s.maxLines);
    ClaimEnd(s.puller.(checkpoint := Some(from)), s.log, from, s.maxLines);
    if kept != [] {
      FetchedAt(s.log, from, |kept| - 1);
      assert forall i :: 0 <= i < |s.log| ==> MicrosAt(s.log, i) <= MicrosAt(s.log, |s.log| - 1);
    }
    assert Lines(s.log, from, from) == {};
  }

  lemma ConfirmKeeps(s: Pull, r: Receipt)
    requires Inv(s) && s.seed.Some? && Sealed(s.log, r.start, r.end) && Covered(s, r.start, r.end)
    ensures Inv(s.(puller := Confirm(s.puller, r).0))
  {
    var s' := s.(puller := Confirm(s.puller, r).0);
    var c := s.puller.checkpoint.value;
    assert forall i :: i in Lines(s.log, s.seed.value, r.end) ==>
      i in Lines(s.log, s.seed.value, c) || (c <= MicrosAt(s.log, i) && i in Lines(s.log, c, r.end));
    assert r.start <= c ==> Lines(s.log, c, r.end) <= Lines(s.log, r.start, r.end);
  }

  lemma SkipKeeps(s: Pull, id: nat)
    requires Inv(s) && Enabled(s, Skip(id))
    ensures Inv(Next(s, Skip(id)))
  {
    var s1 := s.(filtered := s.filtered + s.threads[id].lines);
    assert forall x, y :: Covered(s, x, y) ==> Covered(s1, x, y);
    ConfirmKeeps(s1, s.threads[id].receipt);
  }

  lemma ShipKeeps(s: Pull, id: nat, b: nat, now: real)
    requires Inv(s) && Enabled(s, Ship(id, b, now))
    ensures Inv(Next(s, Ship(id, b, now)))
  {
  }

  lemma AckKeeps(s: Pull, b: nat)
    requires Inv(s) && Enabled(s, Ack(b))
    ensures Inv(Next(s, Ack(b)))
  {
    assert forall x, y :: Covered(s, x, y) ==> Covered(Next(s, Ack(b)), x, y);
  }

  /** The steps that move neither the checkpoint nor a claim. */
  lemma QuietKeeps(s: Pull, a: Step)
    requires Inv(s) && Enabled(s, a)
    requires a.Wake? || a.Drop? || a.Cancel? || a.Pop? || a.TrackOther? || a.Restart?
    ensures Inv(Next(s, a))
  {
    var s' := Next(s, a);
    assert s'.log == s.log && s'.puller == s.puller && s'.seed == s.seed && s'.sent == s.sent;
    assert s'.delivered == s.delivered && s'.filtered == s.filtered && s'.peeked <= s.peeked;
    assert forall id :: id in s'.threads && s'.threads[id].HasRead? ==>
                 id in s.threads && s'.threads[id] == s.threads[id];
  }

  lemma StepKeeps(s: Pull, a: Step)
    requires Inv(s) && Enabled(s, a) && StrictMicros(Next(s, a).log)
    requires a.Read? ==> LeavesNone(s.puller, s.log, ReadFrom(s, a.wall), s.maxLines)
    requires a.ConfirmAcked? ==> s.seed.Some?
    ensures Inv(Next(s, a))
  {
    match a
    case Emit(line) => EmitKeeps(s, line);
    case Read(id, wall, runs) => ReadKeeps(s, id, wall, runs);
    case Skip(id) => SkipKeeps(s, id);
    case ConfirmAcked(b) => ConfirmKeeps(s, s.sent[b].receipt);
    case Ship(id, b, now) => ShipKeeps(s, id, b, now);
    case Ack(b) => AckKeeps(s, b);
    case _ => QuietKeeps(s, a);
  }

  lemma {:induction false} LogGrows(s: Pull, steps: seq<Step>)
    requires IsRun(s, steps)
    ensures s.log <= After(s, steps).log && s.maxLines == After(s, steps).maxLines
    decreases |steps|
  {
    if steps != [] { LogGrows(Next(s, steps[0]), steps[1..]); }
  }

  lemma {:induction false} RunKeeps(s: Pull, steps: seq<Step>)
    requires Inv(s) && (s.sent != map[] ==> s.seed.Some?)
    requires IsRun(s, steps) && ReadsLeaveNone(s, steps) && StrictMicros(After(s, steps).log)
    ensures Inv(After(s, steps))
    decreases |steps|
  {
    if steps != [] {
      var s1 := Next(s, steps[0]);
      LogGrows(s1, steps[1..]);
      assert forall i :: 0 <= i < |s1.log| ==> MicrosAt(s1.log, i) == MicrosAt(After(s, steps).log, i);
      StepKeeps(s, steps[0]);
      RunKeeps(s1, steps[1..]);
    }
  }

  // ---- Only lines the filter rejects are skipped ------------------------------

  predicate Matches(log: seq<LogLine>, lines: set<nat>) { exists i :: i in lines && i < |log| && log[i].matches }

  predicate Within(log: seq<LogLine>, lines: set<nat>) { forall i :: i in lines ==> i < |log| }

  /** A read is held to match exactly when a line it kept does; no line that matches was
      ever counted as filtered; every batch on the wire carries one that does. */
  predicate Attributed(s: Pull) {
    && Within(s.log, s.filtered) && (forall i :: i in s.filtered ==> !s.log[i].matches)
    && (forall id :: id in s.threads && s.threads[id].HasRead? ==>
          Within(s.log, s.threads[id].lines) && (s.threads[id].matched <==> Matches(s.log, s.threads[id].lines)))
    && (forall b :: b in s.sent ==> Within(s.log, s.sent[b].lines) && Matches(s.log, s.sent[b].lines))
  }

  lemma EmitMatches(log: seq<LogLine>, line: LogLine, lines: set<nat>)
    requires Within(log, lines)
    ensures Within(log + [line], lines) && (Matches(log + [line], lines) <==> Matches(log, lines))
  {
    if Matches(log, lines) {
      var i :| i in lines && i < |log| && log[i].matches;
      assert (log + [line])[i].matches;
    }
    assert forall i :: i in lines ==> (log + [line])[i] == log[i];
  }

  lemma EmitAttributes(s: Pull, line: LogLine)
    requires Attributed(s) && Enabled(s, Emit(line))
    ensures Attributed(Next(s, Emit(line)))
  {
    forall lines | Within(s.log, lines)
      ensures Within(s.log + [line], lines) && (Matches(s.log + [line], lines) <==> Matches(s.log, lines))
    {
      EmitMatches(s.log, line, lines);
    }
    assert forall i :: i in s.filtered ==> (s.log + [line])[i] == s.log[i];
  }

  lemma ReadAttributes(s: Pull, id: nat, wall: int, runs: bool)
    requires Attributed(s) && Enabled(s, Read(id, wall, runs))
    ensures Attributed(Next(s, Read(id, wall, runs)))
  {
    var from := ReadFrom(s, wall);
    var kept := Kept(s.log, from, s.maxLines);
    forall i | i in KeptSet(s, from) ensures i < |s.log| {
      var k :| 0 <= k < |kept| && kept[k] == i;
      FetchedAt(s.log, from, k);
    }
  }

  lemma SkipAttributes(s: Pull, id: nat)
    requires Attributed(s) && Enabled(s, Skip(id))
    ensures Attributed(Next(s, Skip(id)))
  {
    assert !Matches(s.log, s.threads[id].lines);
  }

  lemma StepAttributes(s: Pull, a: Step)
    requires Attributed(s) && Enabled(s, a)
    ensures Attributed(Next(s, a))
  {
    match a
    case Emit(line) => EmitAttributes(s, line);
    case Read(id, wall, runs) => ReadAttributes(s, id, wall, runs);
    case Skip(id) => SkipAttributes(s, id);
    case _ =>
  }

  lemma {:induction false} RunAttributes(s: Pull, steps: seq<Step>)
    requires Attributed(s) && IsRun(s, steps)
    ensures Attributed(After(s, steps))
    decreases |steps|
  {
    if steps != [] {
      StepAttributes(s, steps[0]);
      RunAttributes(Next(s, steps[0]), steps[1..]);
    }
  }

  /** Every matching line behind the checkpoint was in an ACKed batch. */
  predicate MatchesDelivered(s: Pull) {
    s.seed.Some? && s.puller.checkpoint.Some? ==>
      forall i :: i in Lines(s.log, s.seed.value, s.puller.checkpoint.value) && s.log[i].matches ==> i in s.delivered
  }

  /** At least once for the pull tailer, over every interleaving whose reads leave none
      of their claimed lines behind. */
  lemma AtLeastOnce(group: string, container: string, maxLines: nat, timeout: real, steps: seq<Step>)
    requires var s0 := Init(group, container, maxLines, timeout);
             IsRun(s0, steps) && ReadsLeaveNone(s0, steps) && StrictMicros(After(s0, steps).log)
    ensures var s := After(Init(group, container, maxLines, timeout), steps);
            Safe(s) && Held(s) && MatchesDelivered(s)
  {
    RunAttributes(Init(group, container, maxLines, timeout), steps);
    RunKeeps(Init(group, container, maxLines, timeout), steps);
    OneInFlight(Init(group, container, maxLines, timeout), steps);
  }

  /** What one read decides: once the read at the checkpoint is ACKed and confirmed, the
      group is still safe exactly when that read left none of its claim behind. */
  lemma ConfirmedReadSafeIff(s: Pull)
    requires Inv(s) && s.seed.Some? && Kept(s.log, s.puller.checkpoint.value, s.maxLines) != []
    requires forall i :: i in s.delivered + s.filtered && i < |s.log| ==> MicrosAt(s.log, i) < s.puller.checkpoint.value
    ensures var c := s.puller.checkpoint.value;
            var (puller, ok) := Confirm(s.puller, Claim(s.puller, s.log, c, s.maxLines));
            && ok
            && (Safe(s.(puller := puller, delivered := s.delivered + KeptSet(s, c))) <==>
                LeavesNone(s.puller, s.log, c, s.maxLines))
  {
    var c := s.puller.checkpoint.value;
    var kept, claim := Kept(s.log, c, s.maxLines), Claim(s.puller, s.log, c, s.maxLines);
    ClaimEnd(s.puller, s.log, c, s.maxLines);
    FetchedAt(s.log, c, |kept| - 1);
    var s' := s.(puller := Confirm(s.puller, claim).0, delivered := s.delivered + KeptSet(s, c));
    assert Lines(s.log, s.seed.value, claim.end) == Lines(s.log, s.seed.value, c) + Lines(s.log, c, claim.end);
    if Safe(s') {
      assert Covered(s', s.seed.value, claim.end);
      forall i | i in Lines(s.log, c, claim.end) ensures i in kept {
        assert i in Lines(s.log, s.seed.value, claim.end);
      }
    }
  }

  // ---- Which logs are safe ----------------------------------------------------

  /** In a roomy log every read of every run keeps what it claims. */
  lemma {:induction false} RoomyReads(s: Pull, steps: seq<Step>)
    requires IsRun(s, steps) && StrictMicros(After(s, steps).log) && Roomy(After(s, steps).log, s.maxLines)
    ensures ReadsLeaveNone(s, steps)
    decreases |steps|
  {
    if steps != [] {
      LogGrows(s, steps);
      LogGrows(Next(s, steps[0]), steps[1..]);
      RoomyReads(Next(s, steps[0]), steps[1..]);
      assert forall i :: 0 <= i < |s.log| ==> MicrosAt(s.log, i) == MicrosAt(After(s, steps).log, i);
      if steps[0].Read? {
        RoomyLeavesNone(s.puller, s.log, After(s, steps).log, ReadFrom(s, steps[0].wall), s.maxLines);
      }
    }
  }

  predicate Reaches(s0: Pull, steps: seq<Step>, s: Pull) { IsRun(s0, steps) && After(s0, steps) == s }

  lemma {:induction false} RunThen(s0: Pull, steps: seq<Step>, a: Step)
    requires IsRun(s0, steps) && Enabled(After(s0, steps), a)
    ensures IsRun(s0, steps + [a]) && After(s0, steps + [a]) == Next(After(s0, steps), a)
    decreases |steps|
  {
    if steps == [] {
      assert [a][1..] == [];
    } else {
      assert (steps + [a])[1..] == steps[1..] + [a];
      RunThen(Next(s0, steps[0]), steps[1..], a);
    }
  }

  lemma Do(s0: Pull, steps: seq<Step>, s: Pull, a: Step) returns (steps': seq<Step>, s': Pull)
    requires Reaches(s0, steps, s) && Enabled(s, a)
    ensures Reaches(s0, steps', s') && s' == Next(s, a)
  {
    RunThen(s0, steps, a);
    steps', s' := steps + [a], Next(s, a);
  }

  /** The container writes more lines. */
  lemma {:induction false} EmitMore(s0: Pull, steps: seq<Step>, s: Pull, more: seq<LogLine>) returns (steps': seq<Step>)
    requires Reaches(s0, steps, s) && Ordered(s.log + more)
    ensures Reaches(s0, steps', s.(log := s.log + more))
    decreases |more|
  {
    if more == [] {
      assert s.log + more == s.log;
      steps' := steps;
    } else {
      var n := |more| - 1;
      var front := s.log + more[..n];
      assert s.log + more == front + [more[n]];
      assert forall i :: 0 <= i < |front| ==> MicrosAt(front, i) == MicrosAt(s.log + more, i);
      steps' := EmitMore(s0, steps, s, more[..n]);
      assert front == [] || MicrosAt(s.log + more, |front| - 1) <= MicrosAt(s.log + more, |front|);
      var s': Pull;
      steps', s' := Do(s0, steps', s.(log := front), Emit(more[n]));
    }
  }

  /** The container writes a whole log before the first read. */
  lemma EmitAll(s0: Pull, log: seq<LogLine>) returns (steps: seq<Step>)
    requires s0.log == [] && Ordered(log)
    ensures Reaches(s0, steps, s0.(log := log))
  {
    assert s0.log + log == log;
    steps := EmitMore(s0, [], s0, log);
  }

  /** The loop's first wake starts a thread, which reads from `t`. */
  lemma ReadFirst(s0: Pull, steps: seq<Step>, s: Pull, t: int) returns (steps': seq<Step>, s': Pull)
    requires Reaches(s0, steps, s)
                && s == Init(s.puller.group, s.puller.container, s.maxLines, s.timeout).(log := s.log)
    ensures Reaches(s0, steps', s') && s'.log == s.log && s'.seed == Some(t) && s'.loop == Some(0)
    ensures s'.puller == s.puller.(checkpoint := Some(t))
    ensures s'.sent == map[] && s'.tracker.entries == map[] && s'.delivered == {} && s'.filtered == {}
    ensures 0 in s'.threads && s'.threads[0].HasRead? && s'.threads[0].snapshot == {}
    ensures s'.threads[0].receipt == Claim(s'.puller, s.log, t, s.maxLines) && s'.threads[0].lines == KeptSet(s, t)
  {
    assert P.Pruned(s.tracker, 0.0 - s.timeout) == s.tracker && P.Receipts(s.tracker) == {};
    steps', s' := Do(s0, steps, s, Wake(0, 0.0));
    assert s.threads == map[] && s'.threads == map[0 := Started({})];
    assert s' == s.(threads := map[0 := Started({})], loop := Some(0));
    steps', s' := Do(s0, steps', s', Read(0, t, true));
  }

  /** The first read's receipt is confirmed, as an ACKed batch or as a filtered read. */
  lemma ReadAndConfirm(s0: Pull, steps: seq<Step>, s: Pull, t: int) returns (steps': seq<Step>, s': Pull)
    requires Reaches(s0, steps, s)
                && s == Init(s.puller.group, s.puller.container, s.maxLines, s.timeout).(log := s.log)
    requires Kept(s.log, t, s.maxLines) != []
    ensures Reaches(s0, steps', s') && s'.log == s.log && s'.seed == Some(t)
    ensures s'.puller.checkpoint == Some(Claim(s.puller, s.log, t, s.maxLines).end)
    ensures s'.delivered + s'.filtered == KeptSet(s, t)
  {
    steps', s' := ReadFirst(s0, steps, s, t);
    ClaimEnd(s.puller, s.log, t, s.maxLines);
    ClaimEnd(s'.puller, s.log, t, s.maxLines);
    var kept := Kept(s.log, t, s.maxLines);
    FetchedAt(s.log, t, |kept| - 1);
    assert kept[0] in KeptSet(s, t);
    steps', s' := ConfirmFirst(s0, steps', s', s'.threads[0].receipt);
  }

  lemma ConfirmFirst(s0: Pull, steps: seq<Step>, s: Pull, receipt: Receipt) returns (steps': seq<Step>, s': Pull)
    requires Reaches(s0, steps, s) && s.loop == Some(0) && 0 in s.threads && s.threads[0].HasRead?
    requires s.threads[0].receipt == receipt && s.threads[0].lines != {} && s.threads[0].snapshot == {}
    requires s.sent == map[] && s.tracker.entries == map[] && s.delivered == {} && s.filtered == {}
    requires s.puller.checkpoint == Some(receipt.start) && Own(s.puller, receipt) && receipt.start < receipt.end
    ensures Reaches(s0, steps', s') && s'.log == s.log && s'.seed == s.seed
    ensures s'.puller.checkpoint == Some(receipt.end) && s'.delivered + s'.filtered == s.threads[0].lines
  {
    if s.threads[0].matched {
      steps', s' := Do(s0, steps, s, Ship(0, 0, 0.0));
      steps', s' := Do(s0, steps', s', Ack(0));
      steps', s' := Do(s0, steps', s', ConfirmAcked(0));
    } else {
      steps', s' := Do(s0, steps, s, Skip(0));
    }
  }

  /** A log that is not roomy has a run, with one read, that loses a line. */
  lemma CrowdedLoses(group: string, container: string, maxLines: nat, timeout: real, log: seq<LogLine>)
    returns (steps: seq<Step>, s: Pull)
    requires maxLines >= 1 && StrictMicros(log) && !Roomy(log, maxLines)
    ensures Reaches(Init(group, container, maxLines, timeout), steps, s) && s.log == log && !Safe(s)
  {
    var s0 := Init(group, container, maxLines, timeout);
    steps := EmitAll(s0, log);
    s := s0.(log := log);
    var t, e := CrowdedCuts(s.puller, log, maxLines);
    ClaimEnd(s.puller, log, t, maxLines);
    assert Kept(log, t, maxLines) != [] by {
      assert Kept(log, t, maxLines) == [] ==> Lines(log, t, t) == {};
    }
    var claim := Claim(s.puller, log, t, maxLines);
    steps, s := ReadAndConfirm(s0, steps, s, t);
    assert e in Lines(s.log, t, claim.end) && e !in s.delivered + s.filtered;
  }

  /** Two lines in one microsecond, the first read before the second is written: the
      second falls behind the checkpoint. */
  lemma RepeatLoses(group: string, container: string, maxLines: nat, timeout: real, log: seq<LogLine>)
    returns (steps: seq<Step>, s: Pull)
    requires maxLines >= 1 && Ordered(log) && !StrictMicros(log)
    ensures Reaches(Init(group, container, maxLines, timeout), steps, s) && s.log == log && !Safe(s)
  {
    var s0 := Init(group, container, maxLines, timeout);
    var j, k :| 0 <= j < k < |log| && MicrosAt(log, j) >= MicrosAt(log, k);
    assert MicrosAt(log, j) <= MicrosAt(log, j + 1) <= MicrosAt(log, k);
    var i := FirstRepeat(log, j);
    var front := log[..i + 1];
    forall q | 0 <= q <= i ensures MicrosAt(front, q) == MicrosAt(log, q) {}
    steps, s := ReadUpTo(s0, front);
    assert front + log[i + 1..] == log;
    steps := EmitMore(s0, steps, s, log[i + 1..]);
    s := s.(log := log);
    assert i + 1 in Lines(log, MicrosAt(log, i), MicrosAt(log, i) + 1);
  }

  /** A first read at the instant of the log's last line, confirmed. */
  lemma ReadUpTo(s0: Pull, log: seq<LogLine>) returns (steps: seq<Step>, s: Pull)
    requires s0 == Init(s0.puller.group, s0.puller.container, s0.maxLines, s0.timeout) && s0.maxLines >= 1
    requires log != [] && Ordered(log) && forall i :: 0 <= i < |log| - 1 ==> MicrosAt(log, i) < MicrosAt(log, |log| - 1)
    ensures var t := MicrosAt(log, |log| - 1);
            && Reaches(s0, steps, s) && s.log == log && s.seed == Some(t)
            && s.puller.checkpoint == Some(t + 1) && s.delivered + s.filtered == {|log| - 1}
  {
    var t := MicrosAt(log, |log| - 1);
    steps := EmitAll(s0, log);
    LastAlone(log, t, s0.maxLines);
    ClaimEnd(s0.puller, log, t, s0.maxLines);
    steps, s := ReadAndConfirm(s0, steps, s0.(log := log), t);
    assert KeptSet(s0.(log := log), t) == {|log| - 1};
  }

  /** A read at the instant of a log's last line, when all others are older, keeps it only. */
  lemma LastAlone(log: seq<LogLine>, t: int, maxLines: nat)
    requires maxLines >= 1 && log != [] && MicrosAt(log, |log| - 1) == t
    requires forall i :: 0 <= i < |log| - 1 ==> MicrosAt(log, i) < t
    ensures Kept(log, t, maxLines) == [|log| - 1]
  {
    var n := |log| - 1;
    assert forall i :: 0 <= i < n ==> MicrosAt(log[..n], i) == MicrosAt(log, i);
    NonePicked(log[..n], t, false);
    NonePicked(log[..n], t, true);
    PickedOneMore(log, t, false);
    PickedOneMore(log, t, true);
    assert Fetched(log, t) == [n];
  }

  /** Exactly which logs the polling tailer delivers whole, on every schedule: those of
      distinct microseconds whose stdout fits under the cap or comes before any stderr. */
  lemma SafeIffStrictRoomy(group: string, container: string, maxLines: nat, timeout: real, log: seq<LogLine>)
    requires maxLines >= 1 && Ordered(log)
    ensures StrictMicros(log) && Roomy(log, maxLines) <==>
            forall steps, s :: Reaches(Init(group, container, maxLines, timeout), steps, s) && s.log == log ==> Safe(s)
  {
    var s0 := Init(group, container, maxLines, timeout);
    if !StrictMicros(log) {
      var steps, s := RepeatLoses(group, container, maxLines, timeout, log);
    } else if Roomy(log, maxLines) {
      forall steps, s | Reaches(s0, steps, s) && s.log == log ensures Safe(s) {
        RoomyReads(s0, steps);
        AtLeastOnce(group, container, maxLines, timeout, steps);
      }
    } else {
      var steps, s := CrowdedLoses(group, container, maxLines, timeout, log);
    }
  }

  // ---- What a run's history says ----------------------------------------------

  predicate Wakes(a: Step, id: nat) { a.Wake? && a.thread == id }

  predicate Leaves(a: Step, id: nat) { (a.Skip? || a.Ship? || a.Drop?) && a.thread == id }

  predicate WakesBetween(steps: seq<Step>, id: nat, i: int, j: int) {
    exists k :: i < k < j && 0 <= k < |steps| && Wakes(steps[k], id)
  }

  lemma WakesLater(a: Step, tail: seq<Step>, id: nat, i: int, j: int)
    requires WakesBetween(tail, id, i, j)
    ensures WakesBetween([a] + tail, id, i + 1, j + 1)
  {
    var k :| i < k < j && 0 <= k < |tail| && Wakes(tail[k], id);
    assert ([a] + tail)[k + 1] == tail[k];
  }

  lemma {:induction false} NotLeftYet(s: Pull, steps: seq<Step>, id: nat, j: nat)
    requires IsRun(s, steps) && j < |steps| && Leaves(steps[j], id) && id !in s.threads
    ensures WakesBetween(steps, id, -1, j)
    decreases |steps|
  {
    assert steps == [steps[0]] + steps[1..];
    if !Wakes(steps[0], id) {
      assert j > 0 && steps[j] == steps[1..][j - 1];
      NotLeftYet(Next(s, steps[0]), steps[1..], id, j - 1);
      WakesLater(steps[0], steps[1..], id, -1, j - 1);
    }
  }

  /** What a thread read is skipped, shipped or dropped once, and never after a restart. */
  lemma {:induction false} ReadUsedOnce(s: Pull, steps: seq<Step>, id: nat, i: nat, j: nat)
    requires IsRun(s, steps) && i < j < |steps| && Leaves(steps[j], id)
    requires Leaves(steps[i], id) || steps[i].Restart?
    ensures WakesBetween(steps, id, i, j)
    decreases |steps|
  {
    assert steps == [steps[0]] + steps[1..] && steps[j] == steps[1..][j - 1];
    if i == 0 {
      NotLeftYet(Next(s, steps[0]), steps[1..], id, j - 1);
    } else {
      assert steps[i] == steps[1..][i - 1];
      ReadUsedOnce(Next(s, steps[0]), steps[1..], id, i - 1, j - 1);
    }
    WakesLater(steps[0], steps[1..], id, i - 1, j - 1);
  }

  lemma {:induction false} NotShippedYet(s: Pull, steps: seq<Step>, id: nat, j: nat)
    requires IsRun(s, steps) && j < |steps| && steps[j].Ship? && steps[j].thread == id && s.loop != Some(id)
    ensures WakesBetween(steps, id, -1, j)
    decreases |steps|
  {
    assert steps == [steps[0]] + steps[1..];
    if !Wakes(steps[0], id) {
      assert j > 0 && steps[j] == steps[1..][j - 1];
      NotShippedYet(Next(s, steps[0]), steps[1..], id, j - 1);
      WakesLater(steps[0], steps[1..], id, -1, j - 1);
    }
  }

  /** A thread ships nothing once the session it was started in is over. */
  lemma {:induction false} ShippedInSession(s: Pull, steps: seq<Step>, id: nat, i: nat, j: nat)
    requires IsRun(s, steps) && i < j < |steps| && steps[j].Ship? && steps[j].thread == id
    requires steps[i].Cancel? || steps[i].Restart?
    ensures WakesBetween(steps, id, i, j)
    decreases |steps|
  {
    assert steps == [steps[0]] + steps[1..] && steps[j] == steps[1..][j - 1];
    if i == 0 {
      NotShippedYet(Next(s, steps[0]), steps[1..], id, j - 1);
    } else {
      assert steps[i] == steps[1..][i - 1];
      ShippedInSession(Next(s, steps[0]), steps[1..], id, i - 1, j - 1);
    }
    WakesLater(steps[0], steps[1..], id, i - 1, j - 1);
  }

  /** The ACK at `k` came, and no restart has by `j`. */
  predicate AckedAt(steps: seq<Step>, b: nat, k: int, j: int) {
    0 <= k < j <= |steps| && steps[k] == Ack(b) && forall i :: k < i < j ==> !steps[i].Restart?
  }

  lemma AckedLater(a: Step, tail: seq<Step>, b: nat, k: int, j: int)
    requires AckedAt(tail, b, k, j)
    ensures AckedAt([a] + tail, b, k + 1, j + 1)
  {
    assert forall i :: 0 < i <= |tail| ==> ([a] + tail)[i] == tail[i - 1];
  }

  lemma {:induction false} PeekedBefore(s: Pull, steps: seq<Step>, b: nat, j: nat)
    requires IsRun(s, steps) && j < |steps| && steps[j] == ConfirmAcked(b)
    ensures (b in s.peeked && forall i :: 0 <= i < j ==> !steps[i].Restart?) || exists k :: AckedAt(steps, b, k, j)
    decreases |steps|
  {
    if j > 0 {
      var a, tail, n := steps[0], steps[1..], j - 1;
      assert steps == [a] + tail && forall i :: 0 < i < |steps| ==> steps[i] == tail[i - 1];
      PeekedBefore(Next(s, a), tail, b, n);
      if k :| AckedAt(tail, b, k, n) {
        AckedLater(a, tail, b, k, n);
      } else if a == Ack(b) {
        assert AckedAt(steps, b, 0, j);
      }
    }
  }

  /** The checkpoint is moved for a batch only after its ACK came, in the same agent life. */
  lemma ConfirmFollowsAck(s: Pull, steps: seq<Step>, b: nat, j: nat)
    requires s.peeked == {} && IsRun(s, steps) && j < |steps| && steps[j] == ConfirmAcked(b)
    ensures exists k :: 0 <= k < j && steps[k] == Ack(b) && forall i :: k < i < j ==> !steps[i].Restart?
  {
    PeekedBefore(s, steps, b, j);
    var k :| AckedAt(steps, b, k, j);
    assert steps[k] == Ack(b);
  }

  // ---- When a wake reads ------------------------------------------------------

  predicate Tracks(a: Step, b: nat, own: bool) { (if own then a.Ship? else a.TrackOther?) && a.batch == b }

  /** The step takes a batch sent then out of the tracker. */
  predicate Untracks(a: Step, b: nat, sentAt: real, timeout: real) {
    (a.Pop? && a.batch == b) || a.Restart? || (a.Wake? && sentAt < a.now - timeout)
  }

  predicate Spared(steps: seq<Step>, b: nat, sentAt: real, timeout: real) {
    forall j :: 0 <= j < |steps| ==> !Untracks(steps[j], b, sentAt, timeout)
  }

  predicate TrackedAt(steps: seq<Step>, b: nat, own: bool, timeout: real, k: int) {
    0 <= k < |steps| && Tracks(steps[k], b, own)
    && forall j :: k < j < |steps| ==> !Untracks(steps[j], b, steps[k].now, timeout)
  }

  /** The batch was sent, and neither popped, nor pruned as stale, nor lost to a restart
      since. */
  predicate TrackedSince(steps: seq<Step>, b: nat, own: bool, timeout: real) {
    exists k :: 0 <= k < |steps| && TrackedAt(steps, b, own, timeout, k)
  }

  predicate Tracked(s: Pull, b: nat, own: bool) {
    b in s.tracker.entries && ((s.tracker.entries[b].receipt.group == s.puller.group) <==> own)
  }

  lemma TrackedAtLater(a: Step, tail: seq<Step>, b: nat, own: bool, timeout: real, k: int)
    requires k > 0
    ensures TrackedAt([a] + tail, b, own, timeout, k) <==> TrackedAt(tail, b, own, timeout, k - 1)
  {
    var steps := [a] + tail;
    assert forall j :: 0 < j < |steps| ==> steps[j] == tail[j - 1];
    assert forall j :: 0 <= j < |tail| ==> tail[j] == steps[j + 1];
  }

  lemma TrackedAtFirst(a: Step, tail: seq<Step>, b: nat, own: bool, timeout: real)
    ensures TrackedAt([a] + tail, b, own, timeout, 0) <==> Tracks(a, b, own) && Spared(tail, b, a.now, timeout)
  {
    var steps := [a] + tail;
    assert steps[0] == a && forall j :: 0 < j < |steps| ==> steps[j] == tail[j - 1];
    assert forall j :: 0 <= j < |tail| ==> tail[j] == steps[j + 1];
  }

  lemma TrackedFirst(a: Step, tail: seq<Step>, b: nat, own: bool, timeout: real)
    ensures TrackedSince([a] + tail, b, own, timeout) <==>
            TrackedSince(tail, b, own, timeout) || (Tracks(a, b, own) && Spared(tail, b, a.now, timeout))
  {
    TrackedAtFirst(a, tail, b, own, timeout);
    if k :| 0 <= k < |[a] + tail| && TrackedAt([a] + tail, b, own, timeout, k) {
      if k > 0 { TrackedAtLater(a, tail, b, own, timeout, k); }
    }
    if k :| 0 <= k < |tail| && TrackedAt(tail, b, own, timeout, k) {
      TrackedAtLater(a, tail, b, own, timeout, k + 1);
    }
  }

  lemma SparedFirst(a: Step, tail: seq<Step>, b: nat, sentAt: real, timeout: real)
    ensures Spared([a] + tail, b, sentAt, timeout) <==>
            !Untracks(a, b, sentAt, timeout) && Spared(tail, b, sentAt, timeout)
  {
    assert forall j :: 0 <= j < |tail| ==> ([a] + tail)[j + 1] == tail[j];
    assert ([a] + tail)[0] == a;
  }

  lemma TrackedStep(s: Pull, a: Step, b: nat, own: bool)
    requires Held(s) && Enabled(s, a)
    ensures var s' := Next(s, a);
            && s'.timeout == s.timeout && s'.puller.group == s.puller.group
            && (Tracked(s', b, own) <==>
                (Tracks(a, b, own)
                 || (Tracked(s, b, own) && !Untracks(a, b, s.tracker.entries[b].sentAt, s.timeout))))
            && (Tracked(s', b, own) ==>
                s'.tracker.entries[b].sentAt == if Tracks(a, b, own) then a.now else s.tracker.entries[b].sentAt)
  {
  }

  /** The tracker holds exactly the batches its history says, the group's own and others. */
  lemma {:induction false} TrackerIsHistory(s: Pull, steps: seq<Step>, b: nat, own: bool)
    requires Held(s) && IsRun(s, steps)
    ensures Tracked(After(s, steps), b, own) <==>
            (TrackedSince(steps, b, own, s.timeout)
             || (Tracked(s, b, own) && Spared(steps, b, s.tracker.entries[b].sentAt, s.timeout)))
    decreases |steps|
  {
    if steps != [] {
      var a, tail := steps[0], steps[1..];
      assert steps == [a] + tail;
      StepHolds(s, a);
      TrackedStep(s, a, b, own);
      TrackerIsHistory(Next(s, a), tail, b, own);
      TrackedFirst(a, tail, b, own, s.timeout);
      if Tracked(s, b, own) { SparedFirst(a, tail, b, s.tracker.entries[b].sentAt, s.timeout); }
    }
  }

  /** A wake starts a read exactly when no batch of the group is in flight: each one sent
      was popped, or was stale at some wake, this one included. */
  lemma WakeReadsIffNoneInFlight(group: string, container: string, maxLines: nat, timeout: real,
                                 steps: seq<Step>, id: nat, now: real, wall: int, runs: bool)
    requires var s0 := Init(group, container, maxLines, timeout);
             IsRun(s0, steps) && Enabled(After(s0, steps), Wake(id, now))
    ensures var s0, more := Init(group, container, maxLines, timeout), steps + [Wake(id, now)];
            && IsRun(s0, more)
            && (Enabled(After(s0, more), Read(id, wall, runs)) <==> forall b :: !TrackedSince(more, b, true, timeout))
  {
    var s0, more := Init(group, container, maxLines, timeout), steps + [Wake(id, now)];
    RunThen(s0, steps, Wake(id, now));
    forall b ensures Tracked(After(s0, more), b, true) <==> TrackedSince(more, b, true, timeout) {
      TrackerIsHistory(s0, more, b, true);
    }
    WakeReads(After(s0, steps), id, now, wall, runs);
  }

  lemma WakeReads(s: Pull, id: nat, now: real, wall: int, runs: bool)
    requires Enabled(s, Wake(id, now))
    ensures var s' := Next(s, Wake(id, now));
            Enabled(s', Read(id, wall, runs)) <==> forall b :: !Tracked(s', b, true)
  {
    var tracker := P.Pruned(s.tracker, now - s.timeout);
    if P.InFlight(tracker, s.puller.group) {
      var b :| b in tracker.entries && tracker.entries[b].receipt.group == s.puller.group;
      assert Tracked(Next(s, Wake(id, now)), b, true);
    }
  }
}
