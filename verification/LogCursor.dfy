/** The whole log cursor protocol of one streamed group: the container's log, the
    follow stream, reads in worker threads, batches in flight, ACKs, and restarts.
    One step is one atomic section; every interleaving of steps is a run. */
module LogCursor {
  import opened Prelude
  import opened ContainerLog
  import opened DockerLines
  import opened StreamingTailer

  /** A read in a worker thread: draining the pipe, or past its second locked section. */
  datatype Read =
    | Draining(from: int, running: bool, raw: seq<Line>, lines: set<nat>)
    | Ended(receipt: Receipt, raw: seq<Line>, lines: set<nat>)

  /** A batch put on the wire, and the log lines the read behind it covered. */
  datatype Sent = Sent(receipt: Receipt, lines: set<nat>)

  /** `since` is what the current stream was opened with, `pos` the next line it delivers.
      `delivered`, `filtered` and `orphaned` are history: lines of ACKed batches, lines of
      wholly filtered reads, and receipts of reads that took lines and were never tracked.
      `seed` is the first checkpoint ever stored. */
  datatype Sys = Sys(
    maxLines: nat, log: seq<LogLine>, tailer: Tailer, since: int, pos: nat,
    readers: map<nat, Read>, sent: map<nat, Sent>, pending: map<nat, Receipt>, peeked: set<nat>,
    delivered: set<nat>, filtered: set<nat>, orphaned: set<Receipt>, seed: Option<int>)

  datatype Step =
    | Emit(line: LogLine)                   // the container writes a line
    | StreamDies                            // the follow process exits
    | Begin(read: nat, snapshot: Option<set<Receipt>>, env: Env)
    | Take(read: nat)                       // the drain takes the stream's next line
    | TakeBare(read: nat, matches: bool)    // the drain takes an unstamped client message
    | End(read: nat)
    | Skip(read: nat)                       // wholly filtered: done at read
    | Ship(read: nat, batch: nat)           // tracked as pending, then sent
    | Orphan(read: nat)                     // the session ended before the batch was tracked
    | Ack(batch: nat)                       // the control plane's ACK arrives: peek
    | ConfirmAcked(batch: nat)              // the ACK worker confirms what it peeked
    | Pop(batch: nat)                       // resolved, or pruned as stale
    | TrackOther(batch: nat, receipt: Receipt)  // another group's batch enters the tracker
    | Close                                 // the follow process is terminated
    | Restart                               // the agent restarts: only the store survives

  function Init(group: string, container: string, maxLines: nat): Sys {
    Sys(maxLines, [], Fresh(group, container, None), 0, 0, map[], map[], map[], {}, {}, {}, {}, None)
  }

  /** The configured cap, stormpulse/config/__init__.py:828. */
  predicate Configured(s: Sys) { 1 <= s.maxLines <= MAX_LINES_PER_INTERVAL }

  // ---- The environment --------------------------------------------------------

  /** The index of the first line a stream opened `--since ts` delivers. */
  function Since(log: seq<LogLine>, ts: int): (pos: nat)
    ensures pos <= |log|
    ensures forall i :: 0 <= i < pos ==> MicrosAt(log, i) < ts
    ensures pos < |log| ==> MicrosAt(log, pos) >= ts
  {
    if log == [] || MicrosAt(log, 0) >= ts then 0
    else
      var rest := Since(log[1..], ts);
      assert forall i :: 0 < i < |log| ==> MicrosAt(log, i) == MicrosAt(log[1..], i - 1);
      1 + rest
  }

  predicate AnyMatch(raw: seq<Line>) { exists i :: 0 <= i < |raw| && raw[i].matches }

  // ---- The steps --------------------------------------------------------------

  predicate Enabled(s: Sys, a: Step) {
    match a
    case Emit(line) => s.log == [] || MicrosAt(s.log, |s.log| - 1) <= Micros(line.nanos)
    case Begin(r, _, _) => r !in s.readers
    case Take(r) => CanTake(s, r) && s.pos < |s.log|
    case TakeBare(r, _) => CanTake(s, r)
    case End(r) => r in s.readers && s.readers[r].Draining?
    case Skip(r) => r in s.readers && s.readers[r].Ended? && s.readers[r].raw != [] && !AnyMatch(s.readers[r].raw)
    case Ship(r, b) => r in s.readers && s.readers[r].Ended?
           && AnyMatch(s.readers[r].raw) && b !in s.sent && b !in s.pending
    case Orphan(r) => r in s.readers && s.readers[r].Ended?
    case Ack(b) => b in s.sent
    case ConfirmAcked(b) => b in s.peeked && b in s.sent
    case TrackOther(b, receipt) => b !in s.sent && b !in s.pending && receipt.group != s.tailer.group
    case _ => true
  }

  predicate CanTake(s: Sys, r: nat) {
    && r in s.readers && s.readers[r].Draining? && s.readers[r].running
    && s.tailer.proc.Proc? && |s.readers[r].raw| < s.maxLines
  }

  function Next(s: Sys, a: Step): Sys
    requires Enabled(s, a)
  {
    match a
    case Emit(line) =>  // a line stamped before the stream's bound is not delivered
      s.(log := s.log + [line],
         pos := if s.pos == |s.log| && Micros(line.nanos) < s.since then s.pos + 1 else s.pos)
    case StreamDies => s.(tailer := if s.tailer.proc.Proc? then s.tailer.(proc := Proc(false)) else s.tailer)
    case Begin(r, snapshot, env) =>
      var b := BeginRead(s.tailer, snapshot, env);
      s.(tailer := b.tailer,
         since := if b.spawned then b.from else s.since,
         pos := if b.spawned then Since(s.log, b.from) else s.pos,
         readers := s.readers[r := Draining(b.from, b.running, [], {})],
         seed := if s.seed.Some? then s.seed else b.tailer.checkpoint)
    case Take(r) =>
      var line := s.log[s.pos];
      var d := s.readers[r];
      s.(pos := s.pos + 1,
         readers := s.readers[r := Draining(d.from, d.running, d.raw + [Stamped(line.nanos, line.matches)],
                                        d.lines + {s.pos})])
    case TakeBare(r, m) =>
      var d := s.readers[r];
      s.(readers := s.readers[r := Draining(d.from, d.running, d.raw + [Bare(m)], d.lines)])
    case End(r) =>
      var d := s.readers[r];
      var (t, lines, receipt) := EndRead(s.tailer, d.from, d.raw, s.maxLines);
      s.(tailer := t, readers := s.readers[r := Ended(receipt, lines, d.lines)])
    case Skip(r) =>
      s.(tailer := Confirm(s.tailer, s.readers[r].receipt).0,
         filtered := s.filtered + s.readers[r].lines, readers := s.readers - {r})
    case Ship(r, b) =>
      var e := s.readers[r];
      s.(sent := s.sent[b := Sent(e.receipt, e.lines)], pending := s.pending[b := e.receipt],
         readers := s.readers - {r})
    case Orphan(r) =>
      var e := s.readers[r];
      s.(orphaned := if e.raw != [] then s.orphaned + {e.receipt} else s.orphaned, readers := s.readers - {r})
    case Ack(b) =>
      s.(delivered := s.delivered + s.sent[b].lines,
         peeked := if b in s.pending then s.peeked + {b} else s.peeked)
    case ConfirmAcked(b) => s.(tailer := Confirm(s.tailer, s.sent[b].receipt).0)
    case Pop(b) => s.(pending := s.pending - {b})
    case TrackOther(b, receipt) => s.(pending := s.pending[b := receipt])
    case Close => s.(tailer := Terminated(s.tailer))
    case Restart =>
      s.(tailer := Fresh(s.tailer.group, s.tailer.container, s.tailer.checkpoint),
         readers := map[], pending := map[], peeked := {})
  }

  /** A read begins only when no other is draining: one log worker at a time. */
  predicate Exclusive(s: Sys, a: Step) {
    a.Begin? ==> forall r :: r in s.readers ==> !s.readers[r].Draining?
  }

  predicate IsRun(s: Sys, steps: seq<Step>)
    decreases |steps|
  {
    steps == [] || (Enabled(s, steps[0]) && IsRun(Next(s, steps[0]), steps[1..]))
  }

  function After(s: Sys, steps: seq<Step>): Sys
    requires IsRun(s, steps)
    decreases |steps|
  {
    if steps == [] then s else After(Next(s, steps[0]), steps[1..])
  }

  predicate ExclusiveRun(s: Sys, steps: seq<Step>)
    requires IsRun(s, steps)
    decreases |steps|
  {
    steps == [] || (Exclusive(s, steps[0]) && ExclusiveRun(Next(s, steps[0]), steps[1..]))
  }

  /** At least once: every line from the seed up to the checkpoint was in an ACKed
      batch or a wholly filtered read. */
  predicate Safe(s: Sys) {
    s.seed.Some? && s.tailer.checkpoint.Some? ==>
      forall i :: i in Lines(s.log, s.seed.value, s.tailer.checkpoint.value) ==> i in s.delivered || i in s.filtered
  }

  // ---- The invariant ----------------------------------------------------------

  predicate Covered(s: Sys, start: int, end: int) {
    Lines(s.log, start, end) <= s.delivered + s.filtered
  }

  /** A claimed range and the lines its read really saw. */
  predicate Exact(log: seq<LogLine>, r: Receipt, lines: set<nat>) {
    Sealed(log, r.start, r.end) && lines == Lines(log, r.start, r.end)
  }

  predicate StreamAt(log: seq<LogLine>, pos: nat, ts: int) {
    && pos <= |log|
    && (forall i :: 0 <= i < pos ==> MicrosAt(log, i) < ts)
    && (forall i :: pos <= i < |log| ==> MicrosAt(log, i) >= ts)
  }

  predicate Idle(s: Sys) { forall r :: r in s.readers ==> !s.readers[r].Draining? }

  /** The stream delivers next exactly the lines from `ts` on, present and future. */
  predicate Streaming(s: Sys, ts: int) {
    StreamAt(s.log, s.pos, ts) && Sealed(s.log, s.since, ts)
  }

  predicate RangeOk(s: Sys, range: Range) {
    && Sealed(s.log, range.receipt.start, range.receipt.end)
    && (range.done ==> Covered(s, range.receipt.start, range.receipt.end))
  }

  predicate Checkpointed(s: Sys) {
    && Chained(s.tailer)
    && (s.seed.Some? <==> s.tailer.checkpoint.Some?)
    && (s.tailer.proc.Proc? ==> s.tailer.checkpoint.Some?)
    && (s.seed.Some? ==> Sealed(s.log, s.seed.value, s.tailer.checkpoint.value))
    && (s.seed.Some? ==> Covered(s, s.seed.value, s.tailer.checkpoint.value))
    && (forall k :: 0 <= k < |s.tailer.issued| ==> RangeOk(s, s.tailer.issued[k]))
  }

  predicate Recorded(s: Sys) {
    && (forall b :: b in s.sent ==> Exact(s.log, s.sent[b].receipt, s.sent[b].lines))
    && (forall b :: b in s.peeked ==> b in s.sent && s.sent[b].lines <= s.delivered)
    && (forall r :: r in s.readers && s.readers[r].Ended? ==> Exact(s.log, s.readers[r].receipt, s.readers[r].lines))
  }

  predicate DrainsExactly(s: Sys, d: Read)
    requires d.Draining?
  {
    && d.from == Cursor(s.tailer)
    && s.tailer.checkpoint.Some?
    && |d.raw| <= s.maxLines
    && Exact(s.log, Receipt(s.tailer.group, s.tailer.container, d.from, LastTs(d.raw, d.from)), d.lines)
    && (s.tailer.proc.Proc? ==> Streaming(s, LastTs(d.raw, d.from)))
  }

  predicate Drained(s: Sys) {
    && (forall r, q :: r in s.readers && q in s.readers && s.readers[r].Draining? && s.readers[q].Draining? ==> r == q)
    && (forall r :: r in s.readers && s.readers[r].Draining? ==> DrainsExactly(s, s.readers[r]))
    && (Idle(s) && s.tailer.proc.Proc? ==> Streaming(s, Cursor(s.tailer)))
  }

  predicate Inv(s: Sys) {
    Configured(s) && StrictMicros(s.log) && Checkpointed(s) && Recorded(s) && Drained(s)
  }

  lemma StreamingAcrossEmit(s: Sys, line: LogLine, ts: int)
    requires Enabled(s, Emit(line)) && StrictMicros(s.log + [line]) && Streaming(s, ts)
    ensures Streaming(Next(s, Emit(line)), ts)
  {
    var s' := Next(s, Emit(line));
    LinesOfSealed(s.log, line, s.since, ts);
    assert forall i :: 0 <= i < |s.log| ==> MicrosAt(s'.log, i) == MicrosAt(s.log, i);
    if s.log != [] { assert MicrosAt(s'.log, |s.log| - 1) < MicrosAt(s'.log, |s.log|); }
  }

  // ---- Every step keeps it ----------------------------------------------------

  lemma EmitKeeps(s: Sys, line: LogLine)
    requires Inv(s) && Enabled(s, Emit(line)) && StrictMicros(s.log + [line])
    ensures Inv(Next(s, Emit(line)))
  {
    var s' := Next(s, Emit(line));
    forall start, end | Sealed(s.log, start, end)
      ensures Sealed(s'.log, start, end) && Lines(s'.log, start, end) == Lines(s.log, start, end)
    {
      LinesOfSealed(s.log, line, start, end);
    }
    forall ts | Streaming(s, ts) ensures Streaming(s', ts) { StreamingAcrossEmit(s, line, ts); }
    assert Idle(s') ==> Idle(s);
    assert Checkpointed(s');
  }

  lemma BeginKeeps(s: Sys, r: nat, snapshot: Option<set<Receipt>>, env: Env)
    requires Inv(s) && Enabled(s, Begin(r, snapshot, env)) && Idle(s)
    ensures Inv(Next(s, Begin(r, snapshot, env)))
  {
    BeginCheckpointed(s, r, snapshot, env);
    BeginDrained(s, r, snapshot, env);
    assert Recorded(Next(s, Begin(r, snapshot, env)));
  }

  lemma BeginCheckpointed(s: Sys, r: nat, snapshot: Option<set<Receipt>>, env: Env)
    requires Checkpointed(s) && Enabled(s, Begin(r, snapshot, env))
    ensures Checkpointed(Next(s, Begin(r, snapshot, env)))
  {
    var s' := Next(s, Begin(r, snapshot, env));
    BeginReadKeepsChain(s.tailer, snapshot, env);
    if s.seed.None? { assert Lines(s.log, s'.seed.value, s'.seed.value) == {}; }
    assert forall j :: 0 <= j < |s'.tailer.issued| ==>
             RangeOk(s, s'.tailer.issued[j]) ==> RangeOk(s', s'.tailer.issued[j]);
  }

  lemma BeginDrained(s: Sys, r: nat, snapshot: Option<set<Receipt>>, env: Env)
    requires Checkpointed(s) && Drained(s) && Configured(s) && StrictMicros(s.log)
    requires Enabled(s, Begin(r, snapshot, env)) && Idle(s)
    ensures Drained(Next(s, Begin(r, snapshot, env)))
  {
    var s' := Next(s, Begin(r, snapshot, env));
    BeginReadKeepsChain(s.tailer, snapshot, env);
    assert s'.readers[r].Draining?;
    assert Lines(s.log, s'.readers[r].from, s'.readers[r].from) == {};
  }

  lemma TakeKeeps(s: Sys, r: nat)
    requires Inv(s) && Enabled(s, Take(r))
    ensures Inv(Next(s, Take(r)))
  {
    var s' := Next(s, Take(r));
    var d := s.readers[r];
    var line := s.log[s.pos];
    LastTsAppend(d.raw, Stamped(line.nanos, line.matches), d.from);
    assert s'.readers[r].Draining?;
    assert s'.readers[r].lines == Lines(s.log, d.from, Tick(line.nanos));
    assert Checkpointed(s') && Recorded(s');
  }

  lemma TakeBareKeeps(s: Sys, r: nat, m: bool)
    requires Inv(s) && Enabled(s, TakeBare(r, m))
    ensures Inv(Next(s, TakeBare(r, m)))
  {
    var s' := Next(s, TakeBare(r, m));
    LastTsAppend(s.readers[r].raw, Bare(m), s.readers[r].from);
    assert s'.readers[r].Draining?;
    assert Checkpointed(s') && Recorded(s');
  }

  lemma EndKeeps(s: Sys, r: nat)
    requires Inv(s) && Enabled(s, End(r))
    ensures Inv(Next(s, End(r)))
  {
    var s' := Next(s, End(r));
    var d := s.readers[r];
    EndReadKeepsChain(s.tailer, d.from, d.raw, s.maxLines);
    assert d.raw[..|d.raw|] == d.raw;
    assert Idle(s');
    assert Checkpointed(s') && Recorded(s');
  }

  lemma JoinRanges(s: Sys, a: int, b: int, c: int)
    requires Sealed(s.log, a, b) && Sealed(s.log, b, c) && Covered(s, a, b) && Covered(s, b, c)
    ensures Sealed(s.log, a, c) && Covered(s, a, c)
  {
    assert forall i :: i in Lines(s.log, a, c) ==> i in Lines(s.log, a, b) || i in Lines(s.log, b, c);
  }

  /** Everything up to the end of a done prefix is covered. */
  lemma {:induction false} DonePrefixCovered(s: Sys, seed: int, c: int, issued: seq<Range>, n: nat, e: int)
    requires 0 < n <= |issued| && Chain(c, issued, e)
    requires Sealed(s.log, seed, c) && Covered(s, seed, c)
    requires forall k :: 0 <= k < |issued| ==> RangeOk(s, issued[k])
    requires forall k :: 0 <= k < n ==> issued[k].done
    ensures Sealed(s.log, seed, issued[n - 1].receipt.end) && Covered(s, seed, issued[n - 1].receipt.end)
  {
    if n == 1 {
      JoinRanges(s, seed, c, issued[0].receipt.end);
    } else {
      DonePrefixCovered(s, seed, c, issued, n - 1, e);
      JoinRanges(s, seed, issued[n - 1].receipt.start, issued[n - 1].receipt.end);
    }
  }

  /** Marking a covered range done keeps the chain and every range sound. */
  lemma MarkedOk(s: Sys, r: Receipt, k: nat)
    requires Checkpointed(s) && Covered(s, r.start, r.end) && k == OpenMatch(s.tailer.issued, r) < |s.tailer.issued|
    ensures var marked := Marked(s.tailer.issued, k);
            && Chain(s.tailer.checkpoint.value, marked, s.tailer.streamTs.value)
            && forall j :: 0 <= j < |marked| ==> RangeOk(s, marked[j])
  {
    var t := s.tailer;
    var marked := Marked(t.issued, k);
    assert forall j :: 0 <= j < |marked| ==> marked[j].receipt == t.issued[j].receipt;
    assert forall j :: 0 <= j < |marked| ==> RangeOk(s, t.issued[j]) && RangeOk(s, marked[j]);
  }

  /** Nothing but the issued ranges and the checkpoint moved. */
  lemma CheckpointMoved(s: Sys, s': Sys)
    requires Checkpointed(s) && s' == s.(tailer := s'.tailer) && Chained(s'.tailer)
    requires s'.tailer.proc == s.tailer.proc && s'.tailer.checkpoint.Some? == s.tailer.checkpoint.Some?
    requires s.seed.Some? ==> Sealed(s.log, s.seed.value, s'.tailer.checkpoint.value)
                                 && Covered(s, s.seed.value, s'.tailer.checkpoint.value)
    requires forall j :: 0 <= j < |s'.tailer.issued| ==> RangeOk(s, s'.tailer.issued[j])
    ensures Checkpointed(s')
  {
    assert forall j :: 0 <= j < |s'.tailer.issued| ==>
             RangeOk(s, s'.tailer.issued[j]) ==> RangeOk(s', s'.tailer.issued[j]);
  }

  /** Confirming a receipt whose own lines are covered moves the checkpoint over
      covered lines only, whichever issued range it matches by value. */
  lemma ConfirmCovered(s: Sys, r: Receipt)
    requires Checkpointed(s) && Covered(s, r.start, r.end)
    ensures var t := Confirm(s.tailer, r).0;
            Checkpointed(s.(tailer := t)) && Cursor(t) == Cursor(s.tailer) && t.proc == s.tailer.proc
  {
    var t := s.tailer;
    ConfirmKeepsChain(t, r);
    var k := OpenMatch(t.issued, r);
    if k < |t.issued| {
      var marked := Marked(t.issued, k);
      var n := DonePrefix(marked);
      MarkedOk(s, r, k);
      PrefixMoved(s, marked, n, Confirm(t, r).0);
    }
  }

  /** The checkpoint moves over a done prefix of sound ranges. */
  lemma PrefixMoved(s: Sys, marked: seq<Range>, n: nat, t': Tailer)
    requires Checkpointed(s) && s.tailer.checkpoint.Some? && s.tailer.streamTs.Some?
    requires Chain(s.tailer.checkpoint.value, marked, s.tailer.streamTs.value)
    requires n <= |marked| && (forall j :: 0 <= j < n ==> marked[j].done)
                && forall j :: 0 <= j < |marked| ==> RangeOk(s, marked[j])
    requires Chained(t') && t' == s.tailer.(issued := marked[n..], checkpoint := t'.checkpoint)
    requires t'.checkpoint == if n > 0 then Some(marked[n - 1].receipt.end) else s.tailer.checkpoint
    ensures Checkpointed(s.(tailer := t'))
  {
    PrefixCovered(s, marked, n);
    forall j | 0 <= j < |t'.issued| ensures RangeOk(s, t'.issued[j]) { assert RangeOk(s, marked[n + j]); }
    CheckpointMoved(s, s.(tailer := t'));
  }

  lemma PrefixCovered(s: Sys, marked: seq<Range>, n: nat)
    requires Checkpointed(s) && s.tailer.checkpoint.Some? && s.tailer.streamTs.Some?
    requires Chain(s.tailer.checkpoint.value, marked, s.tailer.streamTs.value)
    requires n <= |marked| && (forall j :: 0 <= j < n ==> marked[j].done)
                && forall j :: 0 <= j < |marked| ==> RangeOk(s, marked[j])
    ensures var c := if n > 0 then marked[n - 1].receipt.end else s.tailer.checkpoint.value;
            s.seed.Some? ==> Sealed(s.log, s.seed.value, c) && Covered(s, s.seed.value, c)
  {
    if n > 0 && s.seed.Some? {
      DonePrefixCovered(s, s.seed.value, s.tailer.checkpoint.value, marked, n, s.tailer.streamTs.value);
    }
  }

  lemma DrainedFramed(s: Sys, s': Sys)
    requires Drained(s)
    requires s'.log == s.log && s'.since == s.since && s'.pos == s.pos && s'.maxLines == s.maxLines
    requires s'.tailer.group == s.tailer.group && s'.tailer.container == s.tailer.container
    requires s'.tailer.proc.Proc? ==> s.tailer.proc.Proc?
    requires Cursor(s'.tailer) == Cursor(s.tailer) && (s.tailer.checkpoint.Some? ==> s'.tailer.checkpoint.Some?)
    requires forall r :: r in s'.readers && s'.readers[r].Draining? ==> r in s.readers && s'.readers[r] == s.readers[r]
    requires Idle(s') ==> Idle(s)
    ensures Drained(s')
  {
  }

  lemma SkipKeeps(s: Sys, r: nat)
    requires Inv(s) && Enabled(s, Skip(r))
    ensures Inv(Next(s, Skip(r)))
  {
    var e, s' := s.readers[r], Next(s, Skip(r));
    FilteredMore(s, e.lines);
    var s1 := s.(filtered := s.filtered + e.lines);
    ConfirmCovered(s1, e.receipt);
    var s2 := s1.(tailer := s'.tailer);
    assert Checkpointed(s2);
    assert forall j :: 0 <= j < |s2.tailer.issued| ==>
             RangeOk(s2, s2.tailer.issued[j]) ==> RangeOk(s', s2.tailer.issued[j]);
    DrainedFramed(s, s');
    assert Recorded(s');
  }

  lemma FilteredMore(s: Sys, lines: set<nat>)
    requires Checkpointed(s)
    ensures Checkpointed(s.(filtered := s.filtered + lines))
  {
    var s1 := s.(filtered := s.filtered + lines);
    assert forall j :: 0 <= j < |s.tailer.issued| ==>
             RangeOk(s, s.tailer.issued[j]) ==> RangeOk(s1, s.tailer.issued[j]);
  }

  lemma ShipKeeps(s: Sys, r: nat, b: nat)
    requires Inv(s) && Enabled(s, Ship(r, b))
    ensures Inv(Next(s, Ship(r, b)))
  {
    var s' := Next(s, Ship(r, b));
    assert forall x, y :: Covered(s, x, y) ==> Covered(s', x, y);
    DrainedFramed(s, s');
  }

  lemma AckKeeps(s: Sys, b: nat)
    requires Inv(s) && Enabled(s, Ack(b))
    ensures Inv(Next(s, Ack(b)))
  {
    var s' := Next(s, Ack(b));
    assert forall x, y :: Covered(s, x, y) ==> Covered(s', x, y);
    DrainedFramed(s, s');
  }

  lemma ConfirmAckedKeeps(s: Sys, b: nat)
    requires Inv(s) && Enabled(s, ConfirmAcked(b))
    ensures Inv(Next(s, ConfirmAcked(b)))
  {
    var s' := Next(s, ConfirmAcked(b));
    ConfirmCovered(s, s.sent[b].receipt);
    DrainedFramed(s, s');
  }

  lemma RestartKeeps(s: Sys)
    requires Inv(s)
    ensures Inv(Next(s, Restart))
  {
    var s' := Next(s, Restart);
    assert forall x, y :: Covered(s, x, y) ==> Covered(s', x, y);
  }

  /** The steps that touch only the process or the tracker. */
  lemma QuietKeeps(s: Sys, a: Step)
    requires Inv(s) && Enabled(s, a)
    requires a.StreamDies? || a.Orphan? || a.Pop? || a.TrackOther? || a.Close?
    ensures Inv(Next(s, a))
  {
    var s' := Next(s, a);
    QuietCheckpointed(s, s');
    DrainedFramed(s, s');
  }

  lemma QuietCheckpointed(s: Sys, s': Sys)
    requires Checkpointed(s) && Chained(s'.tailer) && s'.seed == s.seed && s'.log == s.log
    requires s'.tailer.checkpoint == s.tailer.checkpoint && s'.tailer.issued == s.tailer.issued
    requires s'.delivered == s.delivered && s'.filtered == s.filtered && (s'.tailer.proc.Proc? ==> s.tailer.proc.Proc?)
    ensures Checkpointed(s')
  {
    assert forall j :: 0 <= j < |s.tailer.issued| ==>
             RangeOk(s, s.tailer.issued[j]) ==> RangeOk(s', s.tailer.issued[j]);
  }

  lemma StepKeeps(s: Sys, a: Step)
    requires Inv(s) && Enabled(s, a) && Exclusive(s, a) && StrictMicros(Next(s, a).log)
    ensures Inv(Next(s, a))
  {
    match a
    case Emit(line) => EmitKeeps(s, line);
    case Begin(r, snapshot, env) => BeginKeeps(s, r, snapshot, env);
    case Take(r) => TakeKeeps(s, r);
    case TakeBare(r, m) => TakeBareKeeps(s, r, m);
    case End(r) => EndKeeps(s, r);
    case Skip(r) => SkipKeeps(s, r);
    case Ship(r, b) => ShipKeeps(s, r, b);
    case Ack(b) => AckKeeps(s, b);
    case ConfirmAcked(b) => ConfirmAckedKeeps(s, b);
    case Restart => RestartKeeps(s);
    case _ => QuietKeeps(s, a);
  }

  lemma {:induction false} LogGrows(s: Sys, steps: seq<Step>)
    requires IsRun(s, steps)
    ensures s.log <= After(s, steps).log
    decreases |steps|
  {
    if steps != [] { LogGrows(Next(s, steps[0]), steps[1..]); }
  }

  lemma {:induction false} RunKeeps(s: Sys, steps: seq<Step>)
    requires Inv(s) && IsRun(s, steps) && ExclusiveRun(s, steps) && StrictMicros(After(s, steps).log)
    ensures Inv(After(s, steps))
    decreases |steps|
  {
    if steps != [] {
      var s1 := Next(s, steps[0]);
      LogGrows(s1, steps[1..]);
      assert forall i :: 0 <= i < |s1.log| ==> MicrosAt(s1.log, i) == MicrosAt(After(s, steps).log, i);
      StepKeeps(s, steps[0]);
      RunKeeps(s1, steps[1..]);
    }
  }

  // ---- Only lines the filter rejects are skipped ------------------------------

  /** A read that saw a matching log line holds a matching raw line; nothing that
      matches was ever counted as filtered. */
  predicate Attributed(s: Sys) {
    && (forall r :: r in s.readers ==> ReadAttributed(s, s.readers[r]))
    && (forall i :: i in s.filtered ==> i < |s.log|)
    && (forall i :: i in s.filtered ==> !s.log[i].matches)
  }

  predicate ReadAttributed(s: Sys, read: Read) {
    && (forall i :: i in read.lines ==> i < |s.log|)
    && (forall i :: i in read.lines && s.log[i].matches ==> AnyMatch(read.raw))
    && (read.Draining? ==> |read.raw| <= s.maxLines)
  }

  predicate MatchesDelivered(s: Sys) {
    s.seed.Some? && s.tailer.checkpoint.Some? ==>
      forall i :: i in Lines(s.log, s.seed.value, s.tailer.checkpoint.value) && s.log[i].matches ==> i in s.delivered
  }

  lemma AnyMatchAppend(raw: seq<Line>, line: Line)
    ensures AnyMatch(raw + [line]) <==> AnyMatch(raw) || line.matches
  {
    if line.matches { assert (raw + [line])[|raw|].matches; }
    if AnyMatch(raw) {
      var i :| 0 <= i < |raw| && raw[i].matches;
      assert (raw + [line])[i].matches;
    }
  }

  lemma StepAttributes(s: Sys, a: Step)
    requires Attributed(s) && Configured(s) && Enabled(s, a)
    ensures Attributed(Next(s, a)) && Configured(Next(s, a))
  {
    match a
    case Take(r) => AnyMatchAppend(s.readers[r].raw, Stamped(s.log[s.pos].nanos, s.log[s.pos].matches));
    case TakeBare(r, m) => AnyMatchAppend(s.readers[r].raw, Bare(m));
    case End(r) => assert s.readers[r].raw[..|s.readers[r].raw|] == s.readers[r].raw;
    case Skip(r) => assert ReadAttributed(s, s.readers[r]);
    case _ =>
  }

  lemma {:induction false} RunAttributes(s: Sys, steps: seq<Step>)
    requires Attributed(s) && Configured(s) && IsRun(s, steps)
    ensures Attributed(After(s, steps))
    decreases |steps|
  {
    if steps != [] {
      StepAttributes(s, steps[0]);
      RunAttributes(Next(s, steps[0]), steps[1..]);
    }
  }

  // ---- Only a lost range restarts the stream ----------------------------------

  /** How many open ranges carry a receipt. */
  function OpenCount(issued: seq<Range>, r: Receipt): nat {
    if issued == [] then 0 else (if issued[0] == Range(r, false) then 1 else 0) + OpenCount(issued[1..], r)
  }

  /** The finished reads in hand that took lines and claim that range. */
  function Holders(readers: map<nat, Read>, r: Receipt): set<nat> {
    set q | q in readers && Holds(readers[q], r)
  }

  predicate Holds(read: Read, r: Receipt) { read.Ended? && read.raw != [] && read.receipt == r }

  predicate SentOrOrphaned(s: Sys, r: Receipt) {
    r in s.orphaned || exists b :: b in s.sent && s.sent[b].receipt == r
  }

  /** Every open range is the claim of a read that took lines: still in hand, orphaned, or
      put on the wire; and a batch is pending under its own receipt. */
  ghost predicate Owned(s: Sys) {
    && (forall r :: SentOrOrphaned(s, r) || OpenCount(s.tailer.issued, r) <= |Holders(s.readers, r)|)
    && (forall b :: b in s.sent && b in s.pending ==> s.pending[b] == s.sent[b].receipt)
  }

  lemma {:induction false} OpenCountAppend(issued: seq<Range>, range: Range, r: Receipt)
    ensures OpenCount(issued + [range], r) == OpenCount(issued, r) + if range == Range(r, false) then 1 else 0
  {
    if issued == [] {
      assert issued + [range] == [range];
    } else {
      assert (issued + [range])[1..] == issued[1..] + [range];
      OpenCountAppend(issued[1..], range, r);
    }
  }

  lemma {:induction false} OpenCountMarked(issued: seq<Range>, k: nat, r: Receipt)
    requires k < |issued| && !issued[k].done
    ensures OpenCount(Marked(issued, k), r) == OpenCount(issued, r) - if issued[k].receipt == r then 1 else 0
  {
    var marked := Marked(issued, k);
    if k == 0 {
      assert marked[1..] == issued[1..];
    } else {
      assert marked[1..] == Marked(issued[1..], k - 1);
      OpenCountMarked(issued[1..], k - 1, r);
    }
  }

  lemma {:induction false} OpenCountDone(issued: seq<Range>, n: nat, r: Receipt)
    requires n <= |issued| && forall j :: 0 <= j < n ==> issued[j].done
    ensures OpenCount(issued[n..], r) == OpenCount(issued, r)
  {
    if n > 0 {
      assert issued[1..][n - 1..] == issued[n..];
      OpenCountDone(issued[1..], n - 1, r);
    } else {
      assert issued[0..] == issued;
    }
  }

  lemma {:induction false} OpenCountFound(issued: seq<Range>, r: Receipt, k: nat)
    requires k < |issued| && issued[k] == Range(r, false)
    ensures OpenCount(issued, r) > 0
  {
    if k > 0 { OpenCountFound(issued[1..], r, k - 1); }
  }

  /** A confirm closes one open range of its receipt if there is one, and no other. */
  lemma ConfirmCloses(t: Tailer, r: Receipt, x: Receipt)
    ensures var open := OpenCount(t.issued, x);
            OpenCount(Confirm(t, r).0.issued, x) == if x == r && open > 0 then open - 1 else open
  {
    var k := OpenMatch(t.issued, r);
    if k == |t.issued| {
      if OpenCount(t.issued, r) > 0 { NoneOpen(t.issued, r); }
    } else {
      OpenCountFound(t.issued, r, k);
      OpenCountMarked(t.issued, k, x);
      OpenCountDone(Marked(t.issued, k), DonePrefix(Marked(t.issued, k)), x);
    }
  }

  lemma {:induction false} NoneOpen(issued: seq<Range>, r: Receipt)
    requires forall j :: 0 <= j < |issued| ==> issued[j] != Range(r, false)
    ensures OpenCount(issued, r) == 0
  {
    if issued != [] { NoneOpen(issued[1..], r); }
  }

  lemma OneHolderLess(readers: map<nat, Read>, q: nat, r: Receipt)
    requires q in readers
    ensures |Holders(readers - {q}, r)| == |Holders(readers, r)| - if Holds(readers[q], r) then 1 else 0
  {
    if Holds(readers[q], r) {
      assert Holders(readers, r) == Holders(readers - {q}, r) + {q};
    } else {
      assert Holders(readers, r) == Holders(readers - {q}, r);
    }
  }

  lemma HolderPut(readers: map<nat, Read>, q: nat, read: Read, r: Receipt)
    requires q in readers ==> !Holds(readers[q], r)
    ensures |Holders(readers[q := read], r)| == |Holders(readers, r)| + if Holds(read, r) then 1 else 0
  {
    if Holds(read, r) {
      assert Holders(readers[q := read], r) == Holders(readers, r) + {q};
    } else {
      assert Holders(readers[q := read], r) == Holders(readers, r);
    }
  }

  /** A read that drained nothing leaves the tailer as it was. */
  lemma EmptyReadLeaves(s: Sys, r: nat)
    requires Enabled(s, End(r)) && s.readers[r].raw == []
    ensures Next(s, End(r)).tailer == s.tailer
  {
  }

  lemma EndOwned(s: Sys, q: nat)
    requires Owned(s) && Enabled(s, End(q)) && Configured(s)
    ensures Owned(Next(s, End(q)))
  {
    var s', d := Next(s, End(q)), s.readers[q];
    var e := s'.readers[q];
    forall r ensures SentOrOrphaned(s', r) || OpenCount(s'.tailer.issued, r) <= |Holders(s'.readers, r)| {
      assert SentOrOrphaned(s, r) ==> SentOrOrphaned(s', r);
      HolderPut(s.readers, q, e, r);
      if e.raw != [] { OpenCountAppend(s.tailer.issued, Range(e.receipt, false), r); }
    }
  }

  lemma SkipOwned(s: Sys, q: nat)
    requires Owned(s) && Enabled(s, Skip(q))
    ensures Owned(Next(s, Skip(q)))
  {
    var s', e := Next(s, Skip(q)), s.readers[q];
    forall r ensures SentOrOrphaned(s', r) || OpenCount(s'.tailer.issued, r) <= |Holders(s'.readers, r)| {
      assert SentOrOrphaned(s, r) ==> SentOrOrphaned(s', r);
      OneHolderLess(s.readers, q, r);
      ConfirmCloses(s.tailer, e.receipt, r);
    }
  }

  /** A read leaves the worker's hands for the wire, or is orphaned. */
  lemma LeaveOwned(s: Sys, a: Step)
    requires Owned(s) && Enabled(s, a) && (a.Ship? || a.Orphan?)
    ensures Owned(Next(s, a))
  {
    var s', e := Next(s, a), s.readers[a.read];
    forall r ensures SentOrOrphaned(s', r) || OpenCount(s'.tailer.issued, r) <= |Holders(s'.readers, r)| {
      OneHolderLess(s.readers, a.read, r);
      if a.Ship? { assert s'.sent[a.batch].receipt == e.receipt; }
      if SentOrOrphaned(s, r) && r !in s.orphaned {
        var b :| b in s.sent && s.sent[b].receipt == r;
        assert b in s'.sent && s'.sent[b].receipt == r;
      }
    }
  }

  lemma ConfirmOwned(s: Sys, b: nat)
    requires Owned(s) && Enabled(s, ConfirmAcked(b))
    ensures Owned(Next(s, ConfirmAcked(b)))
  {
    var s' := Next(s, ConfirmAcked(b));
    forall r ensures SentOrOrphaned(s', r) || OpenCount(s'.tailer.issued, r) <= |Holders(s'.readers, r)| {
      assert SentOrOrphaned(s, r) ==> SentOrOrphaned(s', r);
      ConfirmCloses(s.tailer, s.sent[b].receipt, r);
    }
  }

  lemma DrainOwned(s: Sys, a: Step)
    requires Owned(s) && Enabled(s, a) && (a.Begin? || a.Take? || a.TakeBare?)
    ensures Owned(Next(s, a))
  {
    var s' := Next(s, a);
    forall r ensures SentOrOrphaned(s', r) || OpenCount(s'.tailer.issued, r) <= |Holders(s'.readers, r)| {
      assert SentOrOrphaned(s, r) ==> SentOrOrphaned(s', r);
      HolderPut(s.readers, a.read, s'.readers[a.read], r);
    }
  }

  lemma StepOwned(s: Sys, a: Step)
    requires Owned(s) && Configured(s) && Enabled(s, a)
    ensures Owned(Next(s, a)) && Configured(Next(s, a))
  {
    match a
    case End(r) => EndOwned(s, r);
    case Skip(r) => SkipOwned(s, r);
    case Ship(r, b) => LeaveOwned(s, a);
    case Orphan(r) => LeaveOwned(s, a);
    case ConfirmAcked(b) => ConfirmOwned(s, b);
    case Begin(_, _, _) => DrainOwned(s, a);
    case Take(_) => DrainOwned(s, a);
    case TakeBare(_, _) => DrainOwned(s, a);
    case _ =>
      var s' := Next(s, a);
      assert s'.sent == s.sent && s'.orphaned == s.orphaned;
      assert forall r :: SentOrOrphaned(s, r) ==> SentOrOrphaned(s', r);
      assert s'.tailer.issued == [] || (s'.tailer.issued == s.tailer.issued && s'.readers == s.readers);
  }

  lemma {:induction false} RunOwned(s: Sys, steps: seq<Step>)
    requires Owned(s) && Configured(s) && IsRun(s, steps)
    ensures Owned(After(s, steps))
    decreases |steps|
  {
    if steps != [] {
      StepOwned(s, steps[0]);
      RunOwned(Next(s, steps[0]), steps[1..]);
    }
  }

  function Pending(s: Sys): set<Receipt> { set b | b in s.pending :: s.pending[b] }

  /** A range some read took lines for is no longer on its way to an ACK: the read is still
      in hand or was orphaned, or its batch left the tracker. */
  predicate Mislaid(s: Sys, r: Receipt) {
    || r in s.orphaned
    || (exists q :: q in s.readers && Holds(s.readers[q], r))
    || (exists b :: b in s.sent && s.sent[b].receipt == r && b !in s.pending)
  }

  /** A live stream is left alone. */
  predicate StreamKept(s: Sys, s': Sys) {
    && s'.since == s.since && s'.pos == s.pos && s'.tailer.proc == s.tailer.proc
    && s'.tailer.streamTs == s.tailer.streamTs && s'.tailer.issued == s.tailer.issued
    && s'.tailer.lastRespawn == s.tailer.lastRespawn
  }

  /** In every reachable state, a read told what is pending leaves a live stream alone
      unless some open range is not pending; that is the claim of a read that took lines
      and was mislaid; and then the stream is back at the checkpoint. A quiet container, a
      range done or one awaiting its ACK never restarts it. */
  lemma RestartsOnlyIfMislaid(group: string, container: string, maxLines: nat, steps: seq<Step>, r: nat, env: Env)
    requires 1 <= maxLines <= MAX_LINES_PER_INTERVAL && IsRun(Init(group, container, maxLines), steps)
    requires var s := After(Init(group, container, maxLines), steps);
             Alive(s.tailer) && Enabled(s, Begin(r, Some(Pending(s)), env))
    ensures var s := After(Init(group, container, maxLines), steps);
            var s' := Next(s, Begin(r, Some(Pending(s)), env));
            if exists x :: Range(x, false) in s.tailer.issued && x !in Pending(s)
            then (exists x :: Range(x, false) in s.tailer.issued && Mislaid(s, x))
                 && s'.tailer.issued == [] && s'.tailer.streamTs == None && s'.tailer.checkpoint == Some(s'.since)
            else StreamKept(s, s')
  {
    RunOwned(Init(group, container, maxLines), steps);
    var s := After(Init(group, container, maxLines), steps);
    if x :| Range(x, false) in s.tailer.issued && x !in Pending(s) {
      var k :| 0 <= k < |s.tailer.issued| && s.tailer.issued[k] == Range(x, false);
      assert Lost(s.tailer, Pending(s));
      OpenIsMislaid(s, x, k);
    } else {
      forall k | 0 <= k < |s.tailer.issued| && !s.tailer.issued[k].done
        ensures s.tailer.issued[k].receipt in Pending(s)
      {
        assert s.tailer.issued[k] == Range(s.tailer.issued[k].receipt, false);
      }
    }
  }

  lemma OpenIsMislaid(s: Sys, x: Receipt, k: nat)
    requires Owned(s) && k < |s.tailer.issued| && s.tailer.issued[k] == Range(x, false) && x !in Pending(s)
    ensures Mislaid(s, x)
  {
    OpenCountFound(s.tailer.issued, x, k);
    if !SentOrOrphaned(s, x) {
      assert |Holders(s.readers, x)| > 0;
      var q :| q in Holders(s.readers, x);
    } else if x !in s.orphaned {
      var b :| b in s.sent && s.sent[b].receipt == x;
      assert forall c :: c in s.pending ==> s.pending[c] in Pending(s);
    }
  }

  // ---- The results ------------------------------------------------------------

  /** At least once, over every interleaving with one log worker: when no two lines of
      the log share a microsecond, the checkpoint never passes an undelivered line. */
  lemma AtLeastOnce(group: string, container: string, maxLines: nat, steps: seq<Step>)
    requires 1 <= maxLines <= MAX_LINES_PER_INTERVAL
    requires var s0 := Init(group, container, maxLines);
             IsRun(s0, steps) && ExclusiveRun(s0, steps) && StrictMicros(After(s0, steps).log)
    ensures var s := After(Init(group, container, maxLines), steps);
            Safe(s) && MatchesDelivered(s) && Chained(s.tailer)
  {
    RunKeeps(Init(group, container, maxLines), steps);
    RunAttributes(Init(group, container, maxLines), steps);
  }

  // ---- Where it fails ---------------------------------------------------------

  /** What a run does without: reads that overlap, unstamped messages of the docker client. */
  datatype Manner = Manner(alone: bool, plain: bool)

  predicate Plain(steps: seq<Step>) { forall i :: 0 <= i < |steps| ==> !steps[i].TakeBare? }

  /** `steps` takes `s0` to `s`, in that manner. */
  predicate Reaches(s0: Sys, steps: seq<Step>, s: Sys, how: Manner) {
    IsRun(s0, steps) && After(s0, steps) == s && (how.alone ==> ExclusiveRun(s0, steps)) && (how.plain ==> Plain(steps))
  }

  lemma {:induction false} RunThen(s0: Sys, steps: seq<Step>, s: Sys, a: Step, how: Manner)
    requires Reaches(s0, steps, s, how) && Enabled(s, a)
                && (how.alone ==> Exclusive(s, a)) && (how.plain ==> !a.TakeBare?)
    ensures Reaches(s0, steps + [a], Next(s, a), how)
    decreases |steps|
  {
    if steps == [] {
      assert [a][1..] == [];
    } else {
      assert (steps + [a])[1..] == steps[1..] + [a];
      assert how.plain ==> forall i :: 0 <= i < |steps| - 1 ==> steps[1..][i] == steps[i + 1];
      RunThen(Next(s0, steps[0]), steps[1..], s, a, how);
    }
  }

  /** The container writes a whole log before the first read. */
  lemma {:induction false} EmitAll(s0: Sys, log: seq<LogLine>, how: Manner) returns (steps: seq<Step>)
    requires s0 == Init(s0.tailer.group, s0.tailer.container, s0.maxLines) && Ordered(log)
    ensures Reaches(s0, steps, s0.(log := log), how)
  {
    if log == [] {
      steps := [];
    } else {
      var front, last := log[..|log| - 1], log[|log| - 1];
      assert forall i :: 0 <= i < |front| ==> MicrosAt(front, i) == MicrosAt(log, i);
      assert front == [] || MicrosAt(front, |front| - 1) <= MicrosAt(log, |log| - 1);
      steps := EmitAll(s0, front, how);
      RunThen(s0, steps, s0.(log := front), Emit(last), how);
      steps := steps + [Emit(last)];
      assert front + [last] == log;
    }
  }

  /** Opened at the seed, its read about to drain. */
  function Opened(s: Sys, t: int, i: nat): Sys {
    s.(tailer := Tailer(s.tailer.group, s.tailer.container, Some(t), Proc(true), None, [], Some(0.0)),
       since := t, pos := i, seed := Some(t), readers := map[0 := Draining(t, true, [], {})])
  }

  /** The same with line `i` taken. */
  function TookOne(s: Sys, t: int, i: nat): Sys
    requires i < |s.log|
  {
    Opened(s, t, i).(pos := i + 1,
                    readers := map[0 := Draining(t, true, [Stamped(s.log[i].nanos, s.log[i].matches)], {i})])
  }

  /** The first read opens the stream at the seed and drains one line. */
  lemma DrainOne(s0: Sys, steps: seq<Step>, s: Sys, t: int, i: nat, how: Manner) returns (steps': seq<Step>)
    requires Reaches(s0, steps, s, how)
    requires s == Init(s.tailer.group, s.tailer.container, s.maxLines).(log := s.log) && 1 <= s.maxLines
    requires i < |s.log| && MicrosAt(s.log, i) == t && forall j :: 0 <= j < i ==> MicrosAt(s.log, j) < t
    ensures Reaches(s0, steps', TookOne(s, t, i), how)
  {
    var begin := Begin(0, None, Env(0.0, t, true));
    assert Since(s.log, t) == i;
    assert Next(s, begin) == Opened(s, t, i);
    RunThen(s0, steps, s, begin, how);
    assert Next(Opened(s, t, i), Take(0)) == TookOne(s, t, i) by {
      assert [] + [Stamped(s.log[i].nanos, s.log[i].matches)] == [Stamped(s.log[i].nanos, s.log[i].matches)];
      assert {} + {i} == {i};
    }
    RunThen(s0, steps + [begin], Opened(s, t, i), Take(0), how);
    steps' := steps + [begin] + [Take(0)];
  }

  /** A drained read of one line issues that line's range. */
  lemma EndOne(s: Sys, r: nat, t: int, line: Line, lines: set<nat>)
    requires r in s.readers && s.readers[r] == Draining(t, true, [line], lines) && line.Stamped? && 1 <= s.maxLines
    ensures var receipt := Receipt(s.tailer.group, s.tailer.container, t, Tick(line.nanos));
            Next(s, End(r)) ==
              s.(tailer := s.tailer.(streamTs := Some(receipt.end),
                                     issued := s.tailer.issued + [Range(receipt, false)]),
                 readers := s.readers[r := Ended(receipt, [line], lines)])
  {
    assert [line][..1] == [line];
  }

  /** An only issued range, once confirmed, moves the checkpoint to its end. */
  lemma ConfirmOnly(t: Tailer, r: Receipt)
    requires t.issued == [Range(r, false)]
    ensures Confirm(t, r) == (t.(issued := [], checkpoint := Some(r.end)), true)
  {
    assert OpenMatch(t.issued, r) == 0;
    assert DonePrefix(Marked(t.issued, 0)) == 1;
  }

  /** A finished read becomes a batch, and its ACK is confirmed. */
  lemma ShipAndConfirm(s0: Sys, steps: seq<Step>, s: Sys, r: nat, how: Manner) returns (steps': seq<Step>, s': Sys)
    requires Reaches(s0, steps, s, how) && Enabled(s, Ship(r, 0))
    ensures Reaches(s0, steps', s', how)
    ensures s'.tailer == Confirm(s.tailer, s.readers[r].receipt).0 && s'.log == s.log && s'.seed == s.seed
    ensures s'.delivered == s.delivered + s.readers[r].lines && s'.filtered == s.filtered
  {
    var s1 := Next(s, Ship(r, 0));
    RunThen(s0, steps, s, Ship(r, 0), how);
    var s2 := Next(s1, Ack(0));
    RunThen(s0, steps + [Ship(r, 0)], s1, Ack(0), how);
    s' := Next(s2, ConfirmAcked(0));
    RunThen(s0, steps + [Ship(r, 0)] + [Ack(0)], s2, ConfirmAcked(0), how);
    steps' := steps + [Ship(r, 0)] + [Ack(0)] + [ConfirmAcked(0)];
  }

  /** A read of one line that is alone in the chain ends, is consumed either way, and
      takes the checkpoint one tick past its line. */
  lemma FinishOne(s0: Sys, steps: seq<Step>, s: Sys, r: nat, t: int, line: Line, i: nat, how: Manner)
    returns (steps': seq<Step>, s': Sys)
    requires Reaches(s0, steps, s, how) && s.tailer.issued == [] && 1 <= s.maxLines
                && s.sent == map[] && s.pending == map[]
    requires r in s.readers && s.readers[r] == Draining(t, true, [line], {i}) && line.Stamped?
    ensures Reaches(s0, steps', s', how)
    ensures s'.tailer.checkpoint == Some(Tick(line.nanos)) && s'.log == s.log && s'.seed == s.seed
    ensures s'.delivered + s'.filtered == s.delivered + s.filtered + {i}
  {
    var receipt := Receipt(s.tailer.group, s.tailer.container, t, Tick(line.nanos));
    EndOne(s, r, t, line, {i});
    RunThen(s0, steps, s, End(r), how);
    steps', s' := steps + [End(r)], Next(s, End(r));
    assert s'.readers[r] == Ended(receipt, [line], {i}) && [line][0].matches == line.matches;
    ConfirmOnly(s'.tailer, receipt);
    if line.matches {
      steps', s' := ShipAndConfirm(s0, steps', s', r, how);
    } else {
      RunThen(s0, steps', s', Skip(r), how);
      steps', s' := steps' + [Skip(r)], Next(s', Skip(r));
    }
  }

  /** Two lines in one microsecond, read one at a time: the second falls behind the
      checkpoint undelivered. */
  lemma RepeatLoses(group: string, container: string, maxLines: nat, log: seq<LogLine>)
    returns (steps: seq<Step>, s: Sys)
    requires 1 <= maxLines && Ordered(log) && !StrictMicros(log)
    ensures Reaches(Init(group, container, maxLines), steps, s, Manner(true, true)) && s.log == log && !Safe(s)
  {
    var s0 := Init(group, container, maxLines);
    var j, k :| 0 <= j < k < |log| && MicrosAt(log, j) >= MicrosAt(log, k);
    assert MicrosAt(log, j) <= MicrosAt(log, j + 1) <= MicrosAt(log, k);
    var i := FirstRepeat(log, j);
    var t := MicrosAt(log, i);
    steps := EmitAll(s0, log, Manner(true, true));
    steps := DrainOne(s0, steps, s0.(log := log), t, i, Manner(true, true));
    steps, s := FinishOne(s0, steps, TookOne(s0.(log := log), t, i), 0, t, Stamped(log[i].nanos, log[i].matches),
                          i, Manner(true, true));
    assert i + 1 in Lines(log, t, t + 1) && i + 1 !in s.delivered + s.filtered;
  }

  /** Exactly which logs are safe however the agent is scheduled. */
  lemma SafeIffStrictMicros(group: string, container: string, maxLines: nat, log: seq<LogLine>)
    requires 1 <= maxLines <= MAX_LINES_PER_INTERVAL && Ordered(log)
    ensures StrictMicros(log) <==>
            forall steps, s :: Reaches(Init(group, container, maxLines), steps, s, Manner(true, false)) && s.log == log
              ==> Safe(s)
  {
    if StrictMicros(log) {
      forall steps, s | Reaches(Init(group, container, maxLines), steps, s, Manner(true, false)) && s.log == log
        ensures Safe(s) {
        AtLeastOnce(group, container, maxLines, steps);
      }
    } else {
      var steps, s := RepeatLoses(group, container, maxLines, log);
      assert Reaches(Init(group, container, maxLines), steps, s, Manner(true, false));
    }
  }

  // ---- Reads that overlap -----------------------------------------------------

  /** The read that took the first line is still draining when a second one takes the next
      and finishes: the first line falls behind the checkpoint. */
  lemma OverlappingReadsLose(group: string, container: string, maxLines: nat, log: seq<LogLine>)
    returns (steps: seq<Step>, s: Sys)
    requires 1 <= maxLines && Ordered(log) && |log| >= 2
    ensures Reaches(Init(group, container, maxLines), steps, s, Manner(false, true)) && s.log == log && !Safe(s)
  {
    var s0, how := Init(group, container, maxLines), Manner(false, true);
    var t := MicrosAt(log, 0);
    steps := EmitAll(s0, log, how);
    steps := DrainOne(s0, steps, s0.(log := log), t, 0, how);
    steps, s := SecondTakes(s0, steps, TookOne(s0.(log := log), t, 0), t);
    steps, s := FinishOne(s0, steps, s, 1, t, Stamped(log[1].nanos, log[1].matches), 1, how);
    assert MicrosAt(log, 0) <= MicrosAt(log, 1);
    assert 0 in Lines(log, t, Tick(log[1].nanos)) && 0 !in s.delivered + s.filtered;
  }

  /** A second read joins the first one's stream and takes its next line. */
  lemma SecondTakes(s0: Sys, steps: seq<Step>, s: Sys, t: int) returns (steps': seq<Step>, s': Sys)
    requires Reaches(s0, steps, s, Manner(false, true)) && |s.log| >= 2 && 1 <= s.maxLines
    requires s.tailer == Tailer(s.tailer.group, s.tailer.container, Some(t), Proc(true), None, [], Some(0.0))
    requires s.pos == 1 && 1 !in s.readers && s.seed == Some(t)
    ensures Reaches(s0, steps', s', Manner(false, true)) && s' == s.(pos := 2, readers := s'.readers)
    ensures s'.readers == s.readers[1 := Draining(t, true, [Stamped(s.log[1].nanos, s.log[1].matches)], {1})]
  {
    var second := Begin(1, None, Env(0.0, t, true));
    assert BeginRead(s.tailer, second.snapshot, second.env) == Begun(s.tailer, true, t, false);
    RunThen(s0, steps, s, second, Manner(false, true));
    steps', s' := steps + [second], Next(s, second);
    RunThen(s0, steps', s', Take(1), Manner(false, true));
    steps', s' := steps' + [Take(1)], Next(s', Take(1));
    var line := Stamped(s.log[1].nanos, s.log[1].matches);
    assert [] + [line] == [line] && {} + {1} == {1};
  }

  /** A read from the stream's end outlives its process and, on the one a third read
      starts at the checkpoint, sees only a client message: its empty range is all that is
      issued, and confirming it skips the first line, still undelivered. */
  lemma BareReadLoses(group: string, container: string, maxLines: nat, log: seq<LogLine>)
    returns (steps: seq<Step>, s: Sys)
    requires 1 <= maxLines && Ordered(log) && log != []
    ensures Reaches(Init(group, container, maxLines), steps, s, Manner(false, false)) && s.log == log && !Safe(s)
  {
    var s0, how := Init(group, container, maxLines), Manner(false, false);
    var t, m := MicrosAt(log, 0), Tick(log[0].nanos);
    steps := EmitAll(s0, log, how);
    steps := DrainOne(s0, steps, s0.(log := log), t, 0, how);
    s := TookOne(s0.(log := log), t, 0);
    EndOne(s, 0, t, Stamped(log[0].nanos, log[0].matches), {0});
    RunThen(s0, steps, s, End(0), how);
    steps, s := steps + [End(0)], Next(s, End(0));
    steps, s := JoinThenRespawn(s0, steps, s, t, m);
    steps, s := BareFinishes(s0, steps, s, t, m);
    assert 0 in Lines(log, t, m) && 0 !in s.delivered + s.filtered;
  }

  /** A read joins at the stream's end, the process dies, and another read respawns it. */
  lemma JoinThenRespawn(s0: Sys, steps: seq<Step>, s: Sys, t: int, m: int) returns (steps': seq<Step>, s': Sys)
    requires Reaches(s0, steps, s, Manner(false, false)) && 1 !in s.readers && 2 !in s.readers && s.seed == Some(t)
    requires s.tailer == Tailer(s.tailer.group, s.tailer.container,
                                Some(t), Proc(true), Some(m), s.tailer.issued, Some(0.0))
    ensures Reaches(s0, steps', s', Manner(false, false)) && s'.log == s.log && s'.seed == s.seed
    ensures s'.tailer == Tailer(s.tailer.group, s.tailer.container, Some(t), Proc(true), None, [], Some(5.0))
    ensures s'.delivered == s.delivered && s'.filtered == s.filtered && s'.maxLines == s.maxLines
    ensures 1 in s'.readers && s'.readers[1] == Draining(m, true, [], {})
  {
    var how := Manner(false, false);
    var join, respawn := Begin(1, None, Env(0.0, t, true)), Begin(2, None, Env(5.0, t, true));
    assert BeginRead(s.tailer, join.snapshot, join.env) == Begun(s.tailer, true, m, false);
    RunThen(s0, steps, s, join, how);
    steps', s' := steps + [join], Next(s, join);
    RunThen(s0, steps', s', StreamDies, how);
    steps', s' := steps' + [StreamDies], Next(s', StreamDies);
    RunThen(s0, steps', s', respawn, how);
    steps', s' := steps' + [respawn], Next(s', respawn);
  }

  lemma BareFinishes(s0: Sys, steps: seq<Step>, s: Sys, t: int, m: int) returns (steps': seq<Step>, s': Sys)
    requires Reaches(s0, steps, s, Manner(false, false)) && 1 <= s.maxLines
    requires s.tailer == Tailer(s.tailer.group, s.tailer.container, Some(t), Proc(true), None, [], Some(5.0))
    requires 1 in s.readers && s.readers[1] == Draining(m, true, [], {})
    ensures Reaches(s0, steps', s', Manner(false, false)) && s'.log == s.log && s'.seed == s.seed
    ensures s'.tailer.checkpoint == Some(m) && s'.delivered == s.delivered && s'.filtered == s.filtered
  {
    var receipt := Receipt(s.tailer.group, s.tailer.container, m, m);
    steps', s' := BareEnds(s0, steps, s, m);
    ConfirmOnly(s'.tailer, receipt);
    RunThen(s0, steps', s', Skip(1), Manner(false, false));
    steps', s' := steps' + [Skip(1)], Next(s', Skip(1));
  }

  /** A read of one client message issues an empty range where it began. */
  lemma BareEnds(s0: Sys, steps: seq<Step>, s: Sys, m: int) returns (steps': seq<Step>, s': Sys)
    requires Reaches(s0, steps, s, Manner(false, false)) && 1 <= s.maxLines
    requires s.tailer.proc.Proc? && s.tailer.issued == [] && 1 in s.readers && s.readers[1] == Draining(m, true, [], {})
    ensures Reaches(s0, steps', s', Manner(false, false)) && s' == EndedBare(s, m)
  {
    BareTaken(s, m);
    var s1: Sys;
    steps', s1 := Do(s0, steps, s, TakeBare(1, false));
    BareBatch(s1, m);
    steps', s' := Do(s0, steps', s1, End(1));
    BareOnly(s, s1, m);
  }

  /** The state once the read of one client message has ended. */
  function EndedBare(s: Sys, m: int): Sys {
    var receipt := Receipt(s.tailer.group, s.tailer.container, m, m);
    s.(tailer := s.tailer.(streamTs := Some(m), issued := [Range(receipt, false)]),
       readers := s.readers[1 := Ended(receipt, [Bare(false)], {})])
  }

  lemma BareOnly(s: Sys, s1: Sys, m: int)
    requires s1 == s.(readers := s.readers[1 := Draining(m, true, [Bare(false)], {})])
    ensures EndedBare(s1, m) == EndedBare(s, m)
  {
    var ended := Ended(Receipt(s.tailer.group, s.tailer.container, m, m), [Bare(false)], {});
    assert s1.readers[1 := ended] == s.readers[1 := ended];
  }

  lemma Do(s0: Sys, steps: seq<Step>, s: Sys, a: Step) returns (steps': seq<Step>, s': Sys)
    requires Reaches(s0, steps, s, Manner(false, false)) && Enabled(s, a)
    ensures Reaches(s0, steps', s', Manner(false, false)) && s' == Next(s, a)
  {
    RunThen(s0, steps, s, a, Manner(false, false));
    steps', s' := steps + [a], Next(s, a);
  }

  lemma BareTaken(s: Sys, m: int)
    requires 1 <= s.maxLines && s.tailer.proc.Proc? && 1 in s.readers && s.readers[1] == Draining(m, true, [], {})
    ensures Enabled(s, TakeBare(1, false))
    ensures Next(s, TakeBare(1, false)) == s.(readers := s.readers[1 := Draining(m, true, [Bare(false)], {})])
  {
    assert [] + [Bare(false)] == [Bare(false)];
  }

  lemma BareBatch(s: Sys, m: int)
    requires 1 <= s.maxLines && s.tailer.issued == [] && 1 in s.readers
                && s.readers[1] == Draining(m, true, [Bare(false)], {})
    ensures Next(s, End(1)) == EndedBare(s, m)
  {
    assert [Bare(false)][..1] == [Bare(false)] && [Bare(false)][..0] == [];
    assert LastTs([Bare(false)], m) == m;
  }

  /** With one line at most and no client messages, whatever is confirmed carried it. */
  predicate Lone(s: Sys) {
    && |s.log| <= 1 && s.pos <= |s.log|
    && (forall r :: r in s.readers && s.readers[r].raw != [] ==> 0 in s.readers[r].lines)
    && (forall b :: b in s.sent ==> 0 in s.sent[b].lines)
    && (forall b :: b in s.peeked ==> b in s.sent && 0 in s.delivered)
    && (s.seed.Some? ==> s.tailer.checkpoint.Some?)
    && (s.seed.Some? ==> s.tailer.checkpoint == s.seed || 0 in s.delivered + s.filtered)
  }

  lemma LoneKept(s: Sys, a: Step)
    requires Lone(s) && Enabled(s, a) && !a.TakeBare? && |Next(s, a).log| <= 1
    ensures Lone(Next(s, a))
  {
  }

  lemma {:induction false} RunLone(s: Sys, steps: seq<Step>)
    requires Lone(s) && IsRun(s, steps) && Plain(steps) && |After(s, steps).log| <= 1
    ensures Lone(After(s, steps))
    decreases |steps|
  {
    if steps != [] {
      LogGrows(Next(s, steps[0]), steps[1..]);
      LoneKept(s, steps[0]);
      assert forall i :: 0 <= i < |steps| - 1 ==> steps[1..][i] == steps[i + 1];
      RunLone(Next(s, steps[0]), steps[1..]);
    }
  }

  /** Exactly which logs are safe when reads may overlap: without client messages, those of
      at most one line. */
  lemma PlainSafeIffOneLine(group: string, container: string, maxLines: nat, log: seq<LogLine>)
    requires 1 <= maxLines && Ordered(log)
    ensures |log| <= 1 <==>
            forall steps, s :: Reaches(Init(group, container, maxLines), steps, s, Manner(false, true)) && s.log == log
              ==> Safe(s)
  {
    if |log| <= 1 {
      forall steps, s | Reaches(Init(group, container, maxLines), steps, s, Manner(false, true)) && s.log == log
        ensures Safe(s) {
        RunLone(Init(group, container, maxLines), steps);
      }
    } else {
      var steps, s := OverlappingReadsLose(group, container, maxLines, log);
    }
  }

  /** With them, only the empty log. */
  lemma SafeIffEmpty(group: string, container: string, maxLines: nat, log: seq<LogLine>)
    requires 1 <= maxLines && Ordered(log)
    ensures log == [] <==>
            forall steps, s :: Reaches(Init(group, container, maxLines), steps, s, Manner(false, false)) && s.log == log
              ==> Safe(s)
  {
    if log != [] {
      var steps, s := BareReadLoses(group, container, maxLines, log);
    }
  }

  // ---- No line is stuck -------------------------------------------------------

  /** An issued range that holds the instant: read and done, or awaiting its ACK. */
  predicate InRange(s: Sys, x: int, k: nat) {
    && k < |s.tailer.issued| && s.tailer.issued[k].receipt.start <= x < s.tailer.issued[k].receipt.end
    && (s.tailer.issued[k].done || s.tailer.issued[k].receipt in Pending(s))
  }

  lemma {:induction false} Tiled(c: int, issued: seq<Range>, e: int, x: int) returns (k: nat)
    requires Chain(c, issued, e) && c <= x < e
    ensures k < |issued| && issued[k].receipt.start <= x < issued[k].receipt.end
    decreases |issued|
  {
    var n := |issued| - 1;
    if issued[n].receipt.start <= x {
      k := n;
    } else {
      var front := issued[..n];
      assert forall j :: 0 < j < n ==> front[j].receipt.start == front[j - 1].receipt.end;
      k := Tiled(c, front, issued[n].receipt.start, x);
    }
  }

  /** Once a read has begun, told what is pending, no line from the checkpoint on is stuck:
      each is in a range that is done or awaits its ACK, or the stream has yet to deliver
      it, or there is no stream and the next one starts at the checkpoint. */
  lemma NoLineStuck(group: string, container: string, maxLines: nat, steps: seq<Step>, r: nat, env: Env, i: nat)
    requires 1 <= maxLines <= MAX_LINES_PER_INTERVAL
    requires var s0 := Init(group, container, maxLines);
             IsRun(s0, steps) && ExclusiveRun(s0, steps) && StrictMicros(After(s0, steps).log)
    requires var s := After(Init(group, container, maxLines), steps);
             Idle(s) && Enabled(s, Begin(r, Some(Pending(s)), env)) && i < |s.log|
    ensures var s := After(Init(group, container, maxLines), steps);
            var s' := Next(s, Begin(r, Some(Pending(s)), env));
            && s'.tailer.checkpoint.Some?
            && (MicrosAt(s.log, i) >= s'.tailer.checkpoint.value ==>
                  (exists k :: InRange(s', MicrosAt(s.log, i), k)) || i >= s'.pos || s'.tailer.proc.NoProc?)
  {
    RunKeeps(Init(group, container, maxLines), steps);
    var s := After(Init(group, container, maxLines), steps);
    NotStuck(s, r, env, i);
  }

  lemma NotStuck(s: Sys, r: nat, env: Env, i: nat)
    requires Inv(s) && Idle(s) && Enabled(s, Begin(r, Some(Pending(s)), env)) && i < |s.log|
    ensures var s' := Next(s, Begin(r, Some(Pending(s)), env));
            && s'.tailer.checkpoint.Some?
            && (MicrosAt(s.log, i) >= s'.tailer.checkpoint.value ==>
                  (exists k :: InRange(s', MicrosAt(s.log, i), k)) || i >= s'.pos || s'.tailer.proc.NoProc?)
  {
    var s' := Next(s, Begin(r, Some(Pending(s)), env));
    var x := MicrosAt(s.log, i);
    BeginReadKeepsChain(s.tailer, Some(Pending(s)), env);
    BeginDrained(s, r, Some(Pending(s)), env);
    assert s'.readers[r].Draining? && DrainsExactly(s', s'.readers[r]);
    if s'.tailer.checkpoint.value <= x < Cursor(s'.tailer) {
      var k := Tiled(s'.tailer.checkpoint.value, s'.tailer.issued, Cursor(s'.tailer), x);
      assert Pending(s') == Pending(s);
      assert InRange(s', x, k);
    }
  }

  // ---- What a run's history says ----------------------------------------------

  predicate Leaves(a: Step, r: nat) { (a.Skip? || a.Ship? || a.Orphan?) && a.read == r }

  lemma {:induction false} NotLeftYet(s: Sys, steps: seq<Step>, r: nat, j: nat)
    requires IsRun(s, steps) && j < |steps| && Leaves(steps[j], r) && r !in s.readers
    ensures exists k :: 0 <= k < j && steps[k].Begin? && steps[k].read == r
    decreases |steps|
  {
    if !(steps[0].Begin? && steps[0].read == r) {
      assert j > 0 && steps[j] == steps[1..][j - 1];
      NotLeftYet(Next(s, steps[0]), steps[1..], r, j - 1);
      var k :| 0 <= k < j - 1 && steps[1..][k].Begin? && steps[1..][k].read == r;
      assert steps[k + 1] == steps[1..][k];
    }
  }

  /** What a read took is filtered, shipped or orphaned once; nothing read before a restart
      is shipped or counted as filtered after it. */
  lemma {:induction false} ReadUsedOnce(s: Sys, steps: seq<Step>, r: nat, i: nat, j: nat)
    requires IsRun(s, steps) && i < j < |steps| && Leaves(steps[j], r)
    requires Leaves(steps[i], r) || steps[i].Restart?
    ensures exists k :: i < k < j && steps[k].Begin? && steps[k].read == r
    decreases |steps|
  {
    var tail := steps[1..];
    assert steps[j] == tail[j - 1];
    if i == 0 {
      NotLeftYet(Next(s, steps[0]), tail, r, j - 1);
      var k :| 0 <= k < j - 1 && tail[k].Begin? && tail[k].read == r;
      assert steps[k + 1] == tail[k];
    } else {
      assert steps[i] == tail[i - 1];
      ReadUsedOnce(Next(s, steps[0]), tail, r, i - 1, j - 1);
      var k :| i - 1 < k < j - 1 && tail[k].Begin? && tail[k].read == r;
      assert steps[k + 1] == tail[k];
    }
  }

  predicate Tracks(a: Step, b: nat) { (a.Ship? || a.TrackOther?) && a.batch == b }

  predicate Untracks(a: Step, b: nat) { a == Pop(b) || a.Restart? }

  predicate NoneUntracks(steps: seq<Step>, b: nat) { forall j :: 0 <= j < |steps| ==> !Untracks(steps[j], b) }

  predicate TrackedAt(steps: seq<Step>, b: nat, k: int) {
    0 <= k < |steps| && Tracks(steps[k], b) && forall j :: k < j < |steps| ==> !Untracks(steps[j], b)
  }

  /** The batch entered the tracker and was neither popped nor lost to a restart since. */
  predicate TrackedSince(steps: seq<Step>, b: nat) { exists k :: 0 <= k < |steps| && TrackedAt(steps, b, k) }

  lemma TrackedAtLater(a: Step, tail: seq<Step>, b: nat, k: int)
    requires k > 0
    ensures TrackedAt([a] + tail, b, k) <==> TrackedAt(tail, b, k - 1)
  {
    var steps := [a] + tail;
    assert forall j :: 0 < j < |steps| ==> steps[j] == tail[j - 1];
    assert forall j :: 0 <= j < |tail| ==> tail[j] == steps[j + 1];
  }

  lemma TrackedAtFirst(a: Step, tail: seq<Step>, b: nat)
    ensures TrackedAt([a] + tail, b, 0) <==> Tracks(a, b) && NoneUntracks(tail, b)
    ensures NoneUntracks([a] + tail, b) <==> !Untracks(a, b) && NoneUntracks(tail, b)
  {
    var steps := [a] + tail;
    assert steps[0] == a && forall j :: 0 < j < |steps| ==> steps[j] == tail[j - 1];
    assert forall j :: 0 <= j < |tail| ==> tail[j] == steps[j + 1];
  }

  lemma TrackedFirst(a: Step, tail: seq<Step>, b: nat)
    ensures TrackedSince([a] + tail, b) <==> TrackedSince(tail, b) || (Tracks(a, b) && NoneUntracks(tail, b))
    ensures NoneUntracks([a] + tail, b) <==> !Untracks(a, b) && NoneUntracks(tail, b)
  {
    TrackedAtFirst(a, tail, b);
    if k :| 0 <= k < |[a] + tail| && TrackedAt([a] + tail, b, k) {
      if k > 0 { TrackedAtLater(a, tail, b, k); }
    }
    if k :| 0 <= k < |tail| && TrackedAt(tail, b, k) { TrackedAtLater(a, tail, b, k + 1); }
  }

  /** A batch is pending exactly while its history says so. */
  lemma {:induction false} PendingIsTrackedSince(s: Sys, steps: seq<Step>, b: nat)
    requires IsRun(s, steps)
    ensures b in After(s, steps).pending <==> TrackedSince(steps, b) || (b in s.pending && NoneUntracks(steps, b))
    decreases |steps|
  {
    if steps != [] {
      assert steps == [steps[0]] + steps[1..];
      TrackedFirst(steps[0], steps[1..], b);
      PendingIsTrackedSince(Next(s, steps[0]), steps[1..], b);
    }
  }

  /** The ACK at `k` found the batch pending, and no restart has come by `j`. */
  predicate AckedAt(s: Sys, steps: seq<Step>, b: nat, k: nat, j: nat) {
    && k < j < |steps| && steps[k] == Ack(b) && Restart !in steps[k..j]
    && (TrackedSince(steps[..k], b) || (b in s.pending && NoneUntracks(steps[..k], b)))
  }

  lemma AckedLater(s: Sys, a: Step, tail: seq<Step>, b: nat, k: nat, j: nat)
    requires Enabled(s, a) && AckedAt(Next(s, a), tail, b, k, j)
    ensures AckedAt(s, [a] + tail, b, k + 1, j + 1)
  {
    var steps := [a] + tail;
    assert steps[k + 1] == tail[k] && steps[k + 1..j + 1] == tail[k..j];
    assert steps[..k + 1] == [a] + tail[..k];
    TrackedFirst(a, tail[..k], b);
    assert b in Next(s, a).pending ==> Tracks(a, b) || (b in s.pending && !Untracks(a, b));
  }

  lemma {:induction false} PeekedBefore(s: Sys, steps: seq<Step>, b: nat, j: nat)
    requires IsRun(s, steps) && j < |steps| && steps[j] == ConfirmAcked(b)
    ensures (b in s.peeked && Restart !in steps[..j]) || exists k: nat :: AckedAt(s, steps, b, k, j)
    decreases |steps|
  {
    if j > 0 {
      var a, tail, i := steps[0], steps[1..], j - 1;
      assert steps == [a] + tail && steps[..j] == [a] + tail[..i];
      PeekedBefore(Next(s, a), tail, b, i);
      if k: nat :| AckedAt(Next(s, a), tail, b, k, i) {
        AckedLater(s, a, tail, b, k, i);
      } else if b !in s.peeked {
        assert steps[0..j] == steps[..j] && steps[..0] == [];
        assert a == Ack(b) && AckedAt(s, steps, b, 0, j);
      }
    }
  }

  /** The cursor is moved for a batch only after its ACK came, in the same agent life and
      while it was pending. */
  lemma ConfirmFollowsAck(s: Sys, steps: seq<Step>, b: nat, j: nat)
    requires s.peeked == {} && s.pending == map[]
    requires IsRun(s, steps) && j < |steps| && steps[j] == ConfirmAcked(b)
    ensures exists k :: 0 <= k < j && steps[k] == Ack(b) && Restart !in steps[k..j] && TrackedSince(steps[..k], b)
  {
    PeekedBefore(s, steps, b, j);
    var k: nat :| AckedAt(s, steps, b, k, j);
    assert steps[k] == Ack(b) && steps[j] != Ack(b);
  }

  lemma {:induction false} NoStreamYet(s: Sys, steps: seq<Step>, j: nat)
    requires IsRun(s, steps) && j < |steps| && (steps[j].Take? || steps[j].TakeBare?) && s.tailer.proc.NoProc?
    ensures exists k :: 0 <= k < j && steps[k].Begin?
    decreases |steps|
  {
    if !steps[0].Begin? {
      assert j > 0 && steps[j] == steps[1..][j - 1];
      NoStreamYet(Next(s, steps[0]), steps[1..], j - 1);
      var k :| 0 <= k < j - 1 && steps[1..][k].Begin?;
      assert steps[k + 1] == steps[1..][k];
    }
  }

  /** A close ends the follow: nothing is taken after it until a read begins. */
  lemma {:induction false} CloseEndsFollow(s: Sys, steps: seq<Step>, i: nat, j: nat)
    requires IsRun(s, steps) && i < j < |steps| && steps[i].Close? && (steps[j].Take? || steps[j].TakeBare?)
    ensures exists k :: i < k < j && steps[k].Begin?
    decreases |steps|
  {
    var tail := steps[1..];
    assert steps[j] == tail[j - 1];
    if i == 0 {
      NoStreamYet(Next(s, steps[0]), tail, j - 1);
      var k :| 0 <= k < j - 1 && tail[k].Begin?;
      assert steps[k + 1] == tail[k];
    } else {
      assert steps[i] == tail[i - 1];
      CloseEndsFollow(Next(s, steps[0]), tail, i - 1, j - 1);
      var k :| i - 1 < k < j - 1 && tail[k].Begin?;
      assert steps[k + 1] == tail[k];
    }
  }
}
