/** The streaming tailer as it is written: fields updated in place, one method per
    locked section, each proved equal to the operation the protocol is about. */
module StreamingDockerTailer {
  import opened Prelude
  import opened DockerLines
  import S = StreamingTailer

  class StreamingDockerTailer {
    const group: string
    const container: string
    var checkpoint: Option<int>  // the group's row in the position store
    var proc: S.Proc
    var streamTs: Option<int>
    var issued: seq<S.Range>
    var lastRespawnAttempt: Option<real>

    function Abs(): S.Tailer
      reads this
    {
      S.Tailer(group, container, checkpoint, proc, streamTs, issued, lastRespawnAttempt)
    }

    constructor (group: string, container: string, checkpoint: Option<int>)
      ensures Abs() == S.Fresh(group, container, checkpoint) && S.Chained(Abs())
    {
      this.group, this.container, this.checkpoint := group, container, checkpoint;
      proc, streamTs, issued, lastRespawnAttempt := S.NoProc, None, [], None;
    }

    /** The first locked section of a read: rewind if a range was lost, make sure the
        stream runs, and note where it is. */
    method BeginRead(pending: Option<set<Receipt>>, env: S.Env) returns (running: bool, from: int)
      modifies this
      ensures var b := S.BeginRead(old(Abs()), pending, env);
              Abs() == b.tailer && running == b.running && from == b.from
    {
      if pending.Some? {
        var lost := Lost(pending.value);
        if lost {
          Rewind();
        }
      }
      running := EnsureRunning(env);
      if streamTs.Some? {
        from := streamTs.value;
      } else {
        from := FromTs(env.wall);
      }
    }

    /** The second locked section: lines issue a range. */
    method EndRead(from: int, raw: seq<Line>, maxLines: nat) returns (lines: seq<Line>, receipt: Receipt)
      modifies this
      ensures S.EndRead(old(Abs()), from, raw, maxLines) == (Abs(), lines, receipt)
    {
      var batch := Batch(group, container, from, raw, maxLines);
      lines, receipt := batch.0, batch.1;
      if lines != [] {
        streamTs := Some(receipt.end);
        issued := issued + [S.Range(receipt, false)];
      }
    }

    /** Mark an issued range done; store the end of the done prefix, never past it. */
    method ConfirmShipped(receipt: Receipt) returns (ok: bool)
      modifies this
      ensures S.Confirm(old(Abs()), receipt) == (Abs(), ok)
      ensures old(S.Chained(Abs())) ==> S.Chained(Abs())
    {
      S.ConfirmKeepsChainIfChained(Abs(), receipt);
      var k := 0;
      while k < |issued| && issued[k] != S.Range(receipt, false)
        invariant 0 <= k <= |issued|
        invariant forall j :: 0 <= j < k ==> issued[j] != S.Range(receipt, false)
      {
        k := k + 1;
      }
      S.OpenMatchIsFirst(issued, receipt, k);
      if k == |issued| {
        return false;
      }
      issued := issued[k := issued[k].(done := true)];
      ghost var marked := issued;
      ghost var n := 0;
      var end: Option<int> := None;
      while issued != [] && issued[0].done
        invariant 0 <= n <= |marked| && issued == marked[n..]
        invariant forall j :: 0 <= j < n ==> marked[j].done
        invariant end == if n > 0 then Some(marked[n - 1].receipt.end) else None
        invariant checkpoint == old(checkpoint) && proc == old(proc)
        invariant streamTs == old(streamTs) && lastRespawnAttempt == old(lastRespawnAttempt)
        decreases |issued|
      {
        end := Some(issued[0].receipt.end);
        issued := issued[1..];
        n := n + 1;
      }
      S.DonePrefixIsLongest(marked, n);
      if end.Some? {
        checkpoint := end;
      }
      return true;
    }

    /** A wholly filtered range never goes on the wire: done at read. */
    method SkipFiltered(receipt: Receipt) returns (ok: bool)
      modifies this
      ensures S.Confirm(old(Abs()), receipt) == (Abs(), ok)
    {
      ok := ConfirmShipped(receipt);
    }

    method Close()
      modifies this
      ensures Abs() == S.Terminated(old(Abs()))
    {
      proc := S.NoProc;
    }

    /** Whether a range issued, never confirmed, no longer awaits its ACK. */
    method Lost(pending: set<Receipt>) returns (lost: bool)
      ensures lost == S.Lost(Abs(), pending)
    {
      lost := false;
      for k := 0 to |issued|
        invariant lost <==> exists j :: 0 <= j < k && !issued[j].done && issued[j].receipt !in pending
      {
        lost := lost || (!issued[k].done && issued[k].receipt !in pending);
      }
    }

    method Rewind()
      modifies this
      ensures Abs() == S.Rewound(old(Abs()))
    {
      proc := S.NoProc;
      lastRespawnAttempt := None;
    }

    method EnsureRunning(env: S.Env) returns (running: bool)
      modifies this
      ensures S.EnsureRunning(old(Abs()), env) == (Abs(), running)
    {
      if proc.Proc? && proc.alive {
        return true;
      }
      proc := S.NoProc;
      if lastRespawnAttempt.Some? && env.clock - lastRespawnAttempt.value < S.RESPAWN_DELAY_SECONDS {
        return false;
      }
      lastRespawnAttempt := Some(env.clock);
      running := Spawn(env);
    }

    /** Every spawn is a rewind point, whether or not the process starts. */
    method Spawn(env: S.Env) returns (started: bool)
      modifies this
      ensures Abs() == S.Spawned(old(Abs()), env).(lastRespawn := old(lastRespawnAttempt))
      ensures started == env.opens
    {
      streamTs := None;
      issued := [];
      var since := FromTs(env.wall);
      started := env.opens;
      proc := if started then S.Proc(true) else S.NoProc;
    }

    /** The stored instant, or now persisted as the seed. */
    method FromTs(wall: int) returns (ts: int)
      modifies this
      ensures Abs() == S.Seeded(old(Abs()), wall) && checkpoint == Some(ts)
    {
      if checkpoint.None? {
        checkpoint := Some(wall);
      }
      ts := checkpoint.value;
    }
  }
}
