/** One container followed by a long-lived `docker logs --follow`: the bookkeeping of
    issued ranges, the stored checkpoint, and the process that may die under it. */
module StreamingTailer {
  import opened Prelude
  import opened DockerLines

  /** An issued range, done once ACKed or wholly filtered. */
  datatype Range = Range(receipt: Receipt, done: bool)

  datatype Proc = NoProc | Proc(alive: bool)

  /** `checkpoint` is the group's row in the position store; it outlives the process.
      `streamTs` is None while the stream is at the checkpoint. */
  datatype Tailer = Tailer(
    group: string, container: string, checkpoint: Option<int>,
    proc: Proc, streamTs: Option<int>, issued: seq<Range>, lastRespawn: Option<real>)

  /** What one read finds outside: the monotonic clock, the wall clock in microseconds,
      and whether a subprocess can be started now. */
  datatype Env = Env(clock: real, wall: int, opens: bool)

  /** A read past its first locked section: where it reads from, and whether it may drain. */
  datatype Begun = Begun(tailer: Tailer, running: bool, from: int, spawned: bool)

  const RESPAWN_DELAY_SECONDS: real := 5.0

  function Fresh(group: string, container: string, checkpoint: Option<int>): Tailer {
    Tailer(group, container, checkpoint, NoProc, None, [], None)
  }

  // ---- Operations -------------------------------------------------------------

  function Seeded(t: Tailer, wall: int): Tailer {
    if t.checkpoint.Some? then t else t.(checkpoint := Some(wall))
  }

  predicate Lost(t: Tailer, pending: set<Receipt>) {
    exists k :: 0 <= k < |t.issued| && !t.issued[k].done && t.issued[k].receipt !in pending
  }

  function Terminated(t: Tailer): Tailer { t.(proc := NoProc) }

  function Rewound(t: Tailer): Tailer { Terminated(t).(lastRespawn := None) }

  function Spawned(t: Tailer, env: Env): Tailer {
    Seeded(t.(streamTs := None, issued := []), env.wall)
      .(proc := if env.opens then Proc(true) else NoProc, lastRespawn := Some(env.clock))
  }

  predicate Alive(t: Tailer) { t.proc.Proc? && t.proc.alive }

  predicate Throttled(t: Tailer, env: Env) {
    t.lastRespawn.Some? && env.clock - t.lastRespawn.value < RESPAWN_DELAY_SECONDS
  }

  function EnsureRunning(t: Tailer, env: Env): (Tailer, bool) {
    if Alive(t) then (t, true)
    else if Throttled(t, env) then (Terminated(t), false)
    else (Spawned(t, env), env.opens)
  }

  /** The first locked section of a read. */
  function BeginRead(t: Tailer, pending: Option<set<Receipt>>, env: Env): Begun {
    var t1 := if pending.Some? && Lost(t, pending.value) then Rewound(t) else t;
    var (t2, running) := EnsureRunning(t1, env);
    var t3 := if t2.streamTs.Some? then t2 else Seeded(t2, env.wall);
    Begun(t3, running, Cursor(t3), !Alive(t1) && !Throttled(t1, env))
  }

  /** Where the stream is: the last issued end, else the checkpoint. */
  function Cursor(t: Tailer): int {
    if t.streamTs.Some? then t.streamTs.value else if t.checkpoint.Some? then t.checkpoint.value else 0
  }

  /** The second locked section: lines issue a range, no lines issue nothing. */
  function EndRead(t: Tailer, from: int, raw: seq<Line>, maxLines: nat): (Tailer, seq<Line>, Receipt) {
    var (lines, receipt) := Batch(t.group, t.container, from, raw, maxLines);
    (if lines == [] then t
     else t.(streamTs := Some(receipt.end), issued := t.issued + [Range(receipt, false)]),
     lines, receipt)
  }

  /** The first open range equal to `r`, or the length if there is none. */
  function OpenMatch(issued: seq<Range>, r: Receipt): (k: nat)
    ensures k <= |issued|
    ensures k < |issued| ==> issued[k] == Range(r, false)
    ensures forall j :: 0 <= j < k ==> issued[j] != Range(r, false)
  {
    if issued == [] || issued[0] == Range(r, false) then 0 else 1 + OpenMatch(issued[1..], r)
  }

  /** How many ranges at the front are done. */
  function DonePrefix(issued: seq<Range>): (n: nat)
    ensures n <= |issued|
    ensures forall j :: 0 <= j < n ==> issued[j].done
    ensures n < |issued| ==> !issued[n].done
  {
    if issued == [] || !issued[0].done then 0 else 1 + DonePrefix(issued[1..])
  }

  function Marked(issued: seq<Range>, k: nat): seq<Range>
    requires k < |issued|
  {
    issued[k := issued[k].(done := true)]
  }

  /** Mark an issued range done, then move the checkpoint to the end of the done prefix. */
  function Confirm(t: Tailer, r: Receipt): (Tailer, bool) {
    var k := OpenMatch(t.issued, r);
    if k == |t.issued| then (t, false)
    else
      var marked := Marked(t.issued, k);
      var n := DonePrefix(marked);
      (t.(issued := marked[n..],
          checkpoint := if n > 0 then Some(marked[n - 1].receipt.end) else t.checkpoint), true)
  }

  // ---- The chain --------------------------------------------------------------

  /** Each range starts at its predecessor's end, from `c` to `e`. */
  predicate Chain(c: int, issued: seq<Range>, e: int) {
    && (issued == [] ==> c == e)
    && (issued != [] ==> issued[0].receipt.start == c && issued[|issued| - 1].receipt.end == e)
    && forall k :: 0 < k < |issued| ==> issued[k].receipt.start == issued[k - 1].receipt.end
  }

  /** The checkpoint starts the chain, the stream position ends it, the head is open. */
  predicate Chained(t: Tailer) {
    && (t.streamTs.None? ==> t.issued == [])
    && (t.streamTs.Some? ==> t.checkpoint.Some? && Chain(t.checkpoint.value, t.issued, t.streamTs.value))
    && (t.issued != [] ==> !t.issued[0].done)
  }

  /** Reading keeps the chain, and a read told what is pending leaves no range behind:
      each open one awaits its ACK, or the stream is back at the checkpoint. */
  lemma BeginReadKeepsChain(t: Tailer, pending: Option<set<Receipt>>, env: Env)
    requires Chained(t)
    ensures var b := BeginRead(t, pending, env);
            && Chained(b.tailer)
            && b.tailer.checkpoint.Some?
            && b.from == Cursor(b.tailer) && (b.running <==> Alive(b.tailer))
            && (t.checkpoint.Some? ==> b.tailer.checkpoint == t.checkpoint)
            && (b.spawned ==> b.tailer.issued == [] && b.from == b.tailer.checkpoint.value)
            && (!b.spawned ==> b.tailer.issued == t.issued && b.tailer.streamTs == t.streamTs)
            && (pending.Some? ==>
                  b.spawned ||
                  forall k :: 0 <= k < |b.tailer.issued| ==>
                    b.tailer.issued[k].done || b.tailer.issued[k].receipt in pending.value)
  {
  }

  /** A read that starts where the stream is extends the chain by the range it drained. */
  lemma EndReadKeepsChain(t: Tailer, from: int, raw: seq<Line>, maxLines: nat)
    requires Chained(t) && t.checkpoint.Some? && from == Cursor(t)
    ensures Chained(EndRead(t, from, raw, maxLines).0)
  {
  }

  /** Any confirm, of any receipt, keeps the chain; an accepted one was issued and open. */
  lemma ConfirmKeepsChain(t: Tailer, r: Receipt)
    requires Chained(t)
    ensures var (t', ok) := Confirm(t, r);
            && Chained(t')
            && (!ok ==> t' == t)
            && (ok <==> Range(r, false) in t.issued)
  {
    var k := OpenMatch(t.issued, r);
    if k < |t.issued| {
      var marked := Marked(t.issued, k);
      var n := DonePrefix(marked);
      assert forall j :: 0 <= j < |marked| ==> marked[j].receipt == t.issued[j].receipt;
      assert n == |marked| ==> marked[n - 1].receipt.end == t.streamTs.value;
    }
  }

  lemma ConfirmKeepsChainIfChained(t: Tailer, r: Receipt)
    ensures Chained(t) ==> Chained(Confirm(t, r).0)
  {
    if Chained(t) { ConfirmKeepsChain(t, r); }
  }

  lemma {:induction false} OpenMatchIsFirst(issued: seq<Range>, r: Receipt, k: nat)
    requires k <= |issued| && forall j :: 0 <= j < k ==> issued[j] != Range(r, false)
    requires k < |issued| ==> issued[k] == Range(r, false)
    ensures OpenMatch(issued, r) == k
  {
  }

  lemma {:induction false} DonePrefixIsLongest(issued: seq<Range>, n: nat)
    requires n <= |issued| && forall j :: 0 <= j < n ==> issued[j].done
    requires n < |issued| ==> !issued[n].done
    ensures DonePrefix(issued) == n
  {
  }
}
