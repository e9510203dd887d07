/** One container polled with `docker logs --since`: the checkpoint guarded by what a
    receipt covers, and the loop that holds a group to one batch in flight. */
module PullCursor {
  import opened Prelude
  import opened ContainerLog
  import opened DockerLines

  /** The group's row in the position store, and whose it is. */
  datatype Puller = Puller(group: string, container: string, checkpoint: Option<int>)

  // ---- Confirming -------------------------------------------------------------

  predicate Own(p: Puller, r: Receipt) { r.group == p.group && r.source == p.container }

  /** No rewind, no skipped gap. */
  predicate Covers(start: int, stored: int, end: int) { start <= stored < end }

  function Confirm(p: Puller, r: Receipt): (Puller, bool) {
    if !Own(p, r) then (p, false)
    else if p.checkpoint.Some? && !Covers(r.start, p.checkpoint.value, r.end) then (p, false)
    else (p.(checkpoint := Some(r.end)), true)
  }

  /** Whether pending `p` may carry matches a checkpoint at the end of `r` would skip:
      Docker instants are strings, never compared, so any of the same source does. */
  predicate HoldsBack(p: Receipt, r: Receipt) { p.group == r.group && p.source == r.source }

  /** A wholly filtered read is confirmed unless a pending receipt may lie below it. */
  function Skipped(p: Puller, r: Receipt, pending: Option<set<Receipt>>): (Puller, bool) {
    if pending.None? || exists q :: q in pending.value && HoldsBack(q, r) then (p, false) else Confirm(p, r)
  }

  /** The receipts a run of confirms accepted, from a seeded checkpoint. */
  function Accepted(p: Puller, rs: seq<Receipt>): seq<Receipt>
    decreases |rs|
  {
    if rs == [] then []
    else
      var (p', ok) := Confirm(p, rs[0]);
      (if ok then [rs[0]] else []) + Accepted(p', rs[1..])
  }

  function AfterConfirms(p: Puller, rs: seq<Receipt>): Puller
    decreases |rs|
  {
    if rs == [] then p else AfterConfirms(Confirm(p, rs[0]).0, rs[1..])
  }

  /** Some receipt's range holds the instant. */
  predicate SpannedBy(x: int, rs: seq<Receipt>) {
    exists k :: 0 <= k < |rs| && rs[k].start <= x < rs[k].end
  }

  /** From checkpoint `c` to `end`: each receipt raises it to its own end, the next further
      than the last, and every instant passed lies in one of their ranges. */
  predicate Climbs(c: int, rs: seq<Receipt>, end: int) {
    && c <= end
    && (rs == [] ==> end == c)
    && (rs != [] ==> end == rs[|rs| - 1].end && c < rs[0].end)
    && (forall k :: 0 < k < |rs| ==> rs[k - 1].end < rs[k].end)
    && (forall x :: c <= x < end ==> SpannedBy(x, rs))
  }

  /** Whatever order stale, duplicate and fresh confirms come in, the checkpoint only
      rises, each accepted receipt raises it to its own end, and every instant it
      passed lies in an accepted receipt's range. */
  lemma {:induction false} AcceptedCoverWithoutGap(p: Puller, rs: seq<Receipt>)
    requires p.checkpoint.Some?
    ensures var p' := AfterConfirms(p, rs);
            && p'.checkpoint.Some? && Climbs(p.checkpoint.value, Accepted(p, rs), p'.checkpoint.value)
            && (Accepted(p, rs) == [] ==> p' == p)
    decreases |rs|
  {
    if rs != [] {
      var (p1, ok1) := Confirm(p, rs[0]);
      AcceptedCoverWithoutGap(p1, rs[1..]);
      var rest, end := Accepted(p1, rs[1..]), AfterConfirms(p1, rs[1..]).checkpoint.value;
      assert Accepted(p, rs) == if ok1 then [rs[0]] + rest else [] + rest;
      if ok1 {
        ClimbsFurther(p.checkpoint.value, rs[0], rest, end);
      } else {
        assert [] + rest == rest;
      }
    }
  }

  /** A covering receipt ahead of a climb extends it. */
  lemma ClimbsFurther(c: int, r: Receipt, rest: seq<Receipt>, end: int)
    requires Covers(r.start, c, r.end) && Climbs(r.end, rest, end)
    ensures Climbs(c, [r] + rest, end)
  {
    var rs := [r] + rest;
    assert forall k :: 0 < k < |rs| ==> rs[k] == rest[k - 1];
    forall x | c <= x < end ensures SpannedBy(x, rs) {
      if x < r.end {
        assert rs[0] == r;
      } else {
        assert SpannedBy(x, rest);
        var k :| 0 <= k < |rest| && rest[k].start <= x < rest[k].end;
        assert rs[k + 1] == rest[k];
      }
    }
  }

  // ---- Reading ----------------------------------------------------------------

  /** The lines of one of the container's two streams from `since` on, in order. */
  function Picked(log: seq<LogLine>, since: int, stderr: bool): (picked: seq<nat>)
    ensures forall k :: 0 <= k < |picked| ==> picked[k] < |log|
    decreases |log|
  {
    if log == [] then []
    else
      var n := |log| - 1;
      var front := Picked(log[..n], since, stderr);
      if log[n].stderr == stderr && since <= MicrosAt(log, n) then front + [n] else front
  }

  /** What one `docker logs --since` prints: all of stdout, then all of stderr. */
  function Fetched(log: seq<LogLine>, since: int): (all: seq<nat>)
    ensures forall k :: 0 <= k < |all| ==> all[k] < |log|
  {
    Picked(log, since, false) + Picked(log, since, true)
  }

  function Stamp(log: seq<LogLine>, picks: seq<nat>): (lines: seq<Line>)
    requires forall k :: 0 <= k < |picks| ==> picks[k] < |log|
    ensures |lines| == |picks| &&
                  forall k :: 0 <= k < |picks| ==> lines[k] == Stamped(log[picks[k]].nanos, log[picks[k]].matches)
  {
    seq(|picks|, k requires 0 <= k < |picks| => Stamped(log[picks[k]].nanos, log[picks[k]].matches))
  }

  /** The lines a read keeps under the cap. */
  function Kept(log: seq<LogLine>, since: int, maxLines: nat): seq<nat> {
    var all := Fetched(log, since);
    all[..Min(|all|, Min(maxLines, MAX_LINES_PER_INTERVAL))]
  }

  /** The receipt of a read at `since`. */
  function Claim(p: Puller, log: seq<LogLine>, since: int, maxLines: nat): Receipt {
    Batch(p.group, p.container, since, Stamp(log, Fetched(log, since)), maxLines).1
  }

  /** Every line the claim covers is among the lines the read kept. */
  predicate LeavesNone(p: Puller, log: seq<LogLine>, since: int, maxLines: nat) {
    forall i :: i in Lines(log, since, Claim(p, log, since, maxLines).end) ==> i in Kept(log, since, maxLines)
  }

  lemma ClaimEnd(p: Puller, log: seq<LogLine>, since: int, maxLines: nat)
    ensures var kept := Kept(log, since, maxLines);
            Claim(p, log, since, maxLines) ==
            Receipt(p.group, p.container, since, if kept == [] then since else MicrosAt(log, kept[|kept| - 1]) + 1)
  {
    var lines := Batch(p.group, p.container, since, Stamp(log, Fetched(log, since)), maxLines).0;
    if lines != [] { assert LastTs(lines, since) == Tick(lines[|lines| - 1].nanos); }
  }

  // ---- What is printed --------------------------------------------------------

  lemma PickedOneMore(log: seq<LogLine>, since: int, stderr: bool)
    requires log != []
    ensures var n := |log| - 1;
            Picked(log, since, stderr) ==
              Picked(log[..n], since, stderr) + if log[n].stderr == stderr && since <= MicrosAt(log, n) then [n] else []
  {
  }

  /** Every line printed is of the stream and not before the instant. */
  lemma {:induction false} PickedAt(log: seq<LogLine>, since: int, stderr: bool, k: nat)
    requires k < |Picked(log, since, stderr)|
    ensures var i := Picked(log, since, stderr)[k]; log[i].stderr == stderr && since <= MicrosAt(log, i)
    decreases |log|
  {
    var n := |log| - 1;
    PickedOneMore(log, since, stderr);
    if k < |Picked(log[..n], since, stderr)| { PickedAt(log[..n], since, stderr, k); }
  }

  /** Every such line is printed. */
  lemma {:induction false} PickedIndex(log: seq<LogLine>, since: int, stderr: bool, i: nat) returns (k: nat)
    requires i < |log| && log[i].stderr == stderr && since <= MicrosAt(log, i)
    ensures k < |Picked(log, since, stderr)| && Picked(log, since, stderr)[k] == i
    decreases |log|
  {
    var n := |log| - 1;
    PickedOneMore(log, since, stderr);
    if i == n {
      k := |Picked(log[..n], since, stderr)|;
    } else {
      k := PickedIndex(log[..n], since, stderr, i);
    }
  }

  predicate Sorted(picks: seq<nat>) { forall j, k :: 0 <= j < k < |picks| ==> picks[j] < picks[k] }

  /** A stream is printed in order. */
  lemma {:induction false} PickedSorted(log: seq<LogLine>, since: int, stderr: bool)
    ensures Sorted(Picked(log, since, stderr))
    decreases |log|
  {
    if log != [] {
      PickedSorted(log[..|log| - 1], since, stderr);
      PickedOneMore(log, since, stderr);
    }
  }

  /** What a read fetches is what the log holds from the instant on. */
  lemma FetchedIndex(log: seq<LogLine>, since: int, i: nat) returns (k: nat)
    requires i < |log| && since <= MicrosAt(log, i)
    ensures k < |Fetched(log, since)| && Fetched(log, since)[k] == i
    ensures log[i].stderr <==> k >= |Picked(log, since, false)|
  {
    k := PickedIndex(log, since, log[i].stderr, i);
    if log[i].stderr { k := |Picked(log, since, false)| + k; }
  }

  lemma FetchedAt(log: seq<LogLine>, since: int, k: nat)
    requires k < |Fetched(log, since)|
    ensures since <= MicrosAt(log, Fetched(log, since)[k])
  {
    var out := Picked(log, since, false);
    if k < |out| { PickedAt(log, since, false, k); } else { PickedAt(log, since, true, k - |out|); }
  }

  // ---- Reads that keep what they claim ----------------------------------------

  function Cap(maxLines: nat): nat { Min(maxLines, MAX_LINES_PER_INTERVAL) }

  /** A read that fits under the cap leaves nothing behind. */
  lemma UncappedLeavesNone(p: Puller, log: seq<LogLine>, since: int, maxLines: nat)
    requires |Fetched(log, since)| <= Cap(maxLines)
    ensures LeavesNone(p, log, since, maxLines)
  {
    forall i | i in Lines(log, since, Claim(p, log, since, maxLines).end) ensures i in Kept(log, since, maxLines) {
      var k := FetchedIndex(log, since, i);
      assert Kept(log, since, maxLines)[k] == i;
    }
  }

  /** No line of stderr comes before one of stdout. */
  predicate StdoutFirst(log: seq<LogLine>) {
    forall i, j :: 0 <= i < j < |log| && log[i].stderr ==> log[j].stderr
  }

  lemma NotAfter(log: seq<LogLine>, last: nat, i: nat)
    requires StrictMicros(log) && last < |log| && i < |log| && MicrosAt(log, i) <= MicrosAt(log, last)
    ensures i <= last
  {
  }

  /** In a sorted sequence an entry no larger than another is no later. */
  lemma NoLater(picks: seq<nat>, j: nat, k: nat)
    requires Sorted(picks) && j < |picks| && k < |picks| && picks[j] <= picks[k]
    ensures j <= k
  {
  }

  /** A read with room for its whole stdout leaves nothing behind. */
  lemma StdoutFitsLeavesNone(p: Puller, log: seq<LogLine>, since: int, maxLines: nat)
    requires StrictMicros(log) && |Picked(log, since, false)| < Cap(maxLines)
    ensures LeavesNone(p, log, since, maxLines)
  {
    if |Fetched(log, since)| <= Cap(maxLines) {
      UncappedLeavesNone(p, log, since, maxLines);
    } else {
      ClaimEnd(p, log, since, maxLines);
      forall i | i in Lines(log, since, Claim(p, log, since, maxLines).end) ensures i in Kept(log, since, maxLines) {
        KeptWithStdout(log, since, maxLines, i);
      }
    }
  }

  lemma KeptWithStdout(log: seq<LogLine>, since: int, maxLines: nat, i: nat)
    requires StrictMicros(log) && |Picked(log, since, false)| < Cap(maxLines) < |Fetched(log, since)|
    requires i < |log| && since <= MicrosAt(log, i) <= MicrosAt(log, Fetched(log, since)[Cap(maxLines) - 1])
    ensures i in Kept(log, since, maxLines)
  {
    var out, all, n := Picked(log, since, false), Fetched(log, since), Cap(maxLines);
    var k := FetchedIndex(log, since, i);
    if k >= |out| {
      NotAfter(log, all[n - 1], i);
      PickedSorted(log, since, true);
      NoLater(Picked(log, since, true), k - |out|, n - 1 - |out|);
    }
    assert all[..n][k] == i;
  }

  /** So does any read of a log whose stderr comes last: it is fetched in order. */
  lemma StdoutFirstLeavesNone(p: Puller, log: seq<LogLine>, since: int, maxLines: nat)
    requires StrictMicros(log) && StdoutFirst(log)
    ensures LeavesNone(p, log, since, maxLines)
  {
    ClaimEnd(p, log, since, maxLines);
    FetchedInOrder(log, since);
    forall i | i in Lines(log, since, Claim(p, log, since, maxLines).end) ensures i in Kept(log, since, maxLines) {
      var k := FetchedIndex(log, since, i);
      KeptInOrder(log, since, maxLines, k);
    }
  }

  lemma KeptInOrder(log: seq<LogLine>, since: int, maxLines: nat, k: nat)
    requires StrictMicros(log) && Sorted(Fetched(log, since)) && k < |Fetched(log, since)|
    requires var kept := Kept(log, since, maxLines);
             kept != [] && MicrosAt(log, Fetched(log, since)[k]) <= MicrosAt(log, kept[|kept| - 1])
    ensures Fetched(log, since)[k] in Kept(log, since, maxLines)
  {
    var all, kept := Fetched(log, since), Kept(log, since, maxLines);
    NotAfter(log, kept[|kept| - 1], all[k]);
    NoLater(all, k, |kept| - 1);
    assert kept[k] == all[k];
  }

  lemma FetchedInOrder(log: seq<LogLine>, since: int)
    requires StdoutFirst(log)
    ensures Sorted(Fetched(log, since))
  {
    var out, err := Picked(log, since, false), Picked(log, since, true);
    PickedSorted(log, since, false);
    PickedSorted(log, since, true);
    forall j, k | 0 <= j < |out| && 0 <= k < |err| ensures out[j] < err[k] {
      PickedAt(log, since, false, j);
      PickedAt(log, since, true, k);
    }
  }

  // ---- Reads that do not ------------------------------------------------------

  /** A capped read whose last kept line is of stdout cuts the stderr lines before it. */
  lemma CutStderr(p: Puller, log: seq<LogLine>, since: int, maxLines: nat, e: nat)
    requires 0 < Cap(maxLines) <= |Picked(log, since, false)| && e < |log| && log[e].stderr
    requires since <= MicrosAt(log, e) < MicrosAt(log, Picked(log, since, false)[Cap(maxLines) - 1])
    ensures e in Lines(log, since, Claim(p, log, since, maxLines).end) && e !in Kept(log, since, maxLines)
  {
    ClaimEnd(p, log, since, maxLines);
    var out, kept := Picked(log, since, false), Kept(log, since, maxLines);
    assert kept == out[..Cap(maxLines)];
    forall k | 0 <= k < |kept| ensures kept[k] != e { PickedAt(log, since, false, k); }
  }

  lemma {:induction false} NonePicked(log: seq<LogLine>, since: int, stderr: bool)
    requires forall i :: 0 <= i < |log| ==> MicrosAt(log, i) < since
    ensures Picked(log, since, stderr) == []
    decreases |log|
  {
    if log != [] {
      var n := |log| - 1;
      assert forall i :: 0 <= i < n ==> MicrosAt(log[..n], i) == MicrosAt(log, i);
      NonePicked(log[..n], since, stderr);
      PickedOneMore(log, since, stderr);
      assert MicrosAt(log, n) < since;
    }
  }

  /** What is printed from `since` on is the end of what is printed in all. */
  lemma {:induction false} PickedSuffix(log: seq<LogLine>, since: int, stderr: bool) returns (m: nat)
    requires StrictMicros(log)
    ensures m <= |Picked(log, 0, stderr)| && Picked(log, since, stderr) == Picked(log, 0, stderr)[m..]
    decreases |log|
  {
    if log == [] || since > MicrosAt(log, |log| - 1) {
      NonePicked(log, since, stderr);
      m := |Picked(log, 0, stderr)|;
    } else {
      var n := |log| - 1;
      assert forall i :: 0 <= i < n ==> MicrosAt(log[..n], i) == MicrosAt(log, i);
      m := PickedSuffix(log[..n], since, stderr);
      SuffixGrows(log, since, stderr, m);
    }
  }

  lemma SuffixGrows(log: seq<LogLine>, since: int, stderr: bool, m: nat)
    requires log != [] && since <= MicrosAt(log, |log| - 1)
    requires var front := log[..|log| - 1];
             m <= |Picked(front, 0, stderr)| && Picked(front, since, stderr) == Picked(front, 0, stderr)[m..]
    ensures m <= |Picked(log, 0, stderr)| && Picked(log, since, stderr) == Picked(log, 0, stderr)[m..]
  {
    PickedOneMore(log, since, stderr);
    PickedOneMore(log, 0, stderr);
  }

  lemma {:induction false} PickedGrows(log: seq<LogLine>, longer: seq<LogLine>, stderr: bool)
    requires log <= longer
    ensures Picked(log, 0, stderr) <= Picked(longer, 0, stderr)
    decreases |longer|
  {
    if |log| < |longer| {
      PickedGrows(log, longer[..|longer| - 1], stderr);
      PickedOneMore(longer, 0, stderr);
    } else {
      assert log == longer;
    }
  }

  /** The logs a capped read can never lose from: stdout fits under the cap, or all of it
      comes before any stderr. */
  predicate Roomy(log: seq<LogLine>, maxLines: nat) {
    |Picked(log, 0, false)| < Cap(maxLines) || StdoutFirst(log)
  }

  lemma RoomyLeavesNone(p: Puller, log: seq<LogLine>, longer: seq<LogLine>, since: int, maxLines: nat)
    requires StrictMicros(log) && log <= longer && Roomy(longer, maxLines)
    ensures LeavesNone(p, log, since, maxLines)
  {
    if StdoutFirst(longer) {
      StdoutFirstLeavesNone(p, log, since, maxLines);
    } else {
      var m := PickedSuffix(log, since, false);
      PickedGrows(log, longer, false);
      StdoutFitsLeavesNone(p, log, since, maxLines);
    }
  }

  /** Any other log has an instant to read from whose read cuts a stderr line. */
  lemma CrowdedCuts(p: Puller, log: seq<LogLine>, maxLines: nat) returns (since: int, e: nat)
    requires StrictMicros(log) && maxLines >= 1 && !Roomy(log, maxLines)
    ensures e in Lines(log, since, Claim(p, log, since, maxLines).end) && e !in Kept(log, since, maxLines)
  {
    var i, o :| 0 <= i < o < |log| && log[i].stderr && !log[o].stderr;
    e := i;
    var w := PickedIndex(log, 0, false, o);
    var k := |Picked(log, 0, false)| - Cap(maxLines);
    var first := Picked(log, 0, false)[k];
    if first < e {
      since := MicrosAt(log, first);
      LastPast(log, k, w);
    } else {
      since := MicrosAt(log, e);
      AllPast(log, e, k);
    }
    CutStderr(p, log, since, maxLines, e);
  }

  /** Read from a stdout line: it and all later ones are printed, up to the last. */
  lemma LastPast(log: seq<LogLine>, k: nat, w: nat)
    requires StrictMicros(log) && k < |Picked(log, 0, false)| && w < |Picked(log, 0, false)|
    ensures var out := Picked(log, 0, false);
            var late := Picked(log, MicrosAt(log, out[k]), false);
            && |late| == |out| - k && out[w] <= late[|late| - 1]
            && MicrosAt(log, out[w]) <= MicrosAt(log, late[|late| - 1])
  {
    var out := Picked(log, 0, false);
    var since := MicrosAt(log, out[k]);
    var m := PickedSuffix(log, since, false);
    PickedSorted(log, 0, false);
    SuffixHolds(log, since, m, k);
    SuffixFirst(log, since, m);
    NotAfter(log, out[m], out[k]);
    NoLater(out, k, m);
    assert out[k..][|out| - k - 1] == out[|out| - 1];
    assert w < |out| - 1 ==> out[w] < out[|out| - 1];
    assert out[w] < out[|out| - 1] ==> MicrosAt(log, out[w]) < MicrosAt(log, out[|out| - 1]);
  }

  /** The first line of the suffix printed is past the instant. */
  lemma SuffixFirst(log: seq<LogLine>, since: int, m: nat)
    requires m < |Picked(log, 0, false)| && Picked(log, since, false) == Picked(log, 0, false)[m..]
    ensures since <= MicrosAt(log, Picked(log, 0, false)[m])
  {
    PickedAt(log, since, false, 0);
    assert Picked(log, since, false)[0] == Picked(log, 0, false)[m];
  }

  /** Every stdout line at or past the instant is in the suffix printed. */
  lemma SuffixHolds(log: seq<LogLine>, since: int, m: nat, k: nat)
    requires var out := Picked(log, 0, false);
             m <= |out| && Picked(log, since, false) == out[m..] && k < |out| && since <= MicrosAt(log, out[k])
    ensures m <= k
  {
    var out := Picked(log, 0, false);
    PickedAt(log, 0, false, k);
    var q := PickedIndex(log, since, false, out[k]);
    assert out[m + q] == out[k];
    PickedSorted(log, 0, false);
    NoLater(out, m + q, k);
  }

  /** Read from a stderr line: every stdout line printed is past it, a cap's worth of them. */
  lemma AllPast(log: seq<LogLine>, e: nat, k: nat)
    requires StrictMicros(log) && e < |log| && log[e].stderr
                && k < |Picked(log, 0, false)| && e <= Picked(log, 0, false)[k]
    ensures var late := Picked(log, MicrosAt(log, e), false);
            && |late| >= |Picked(log, 0, false)| - k
            && forall j :: 0 <= j < |late| ==> MicrosAt(log, e) < MicrosAt(log, late[j])
  {
    var since := MicrosAt(log, e);
    var late := Picked(log, since, false);
    var m := PickedSuffix(log, since, false);
    SuffixHolds(log, since, m, k);
    forall j | 0 <= j < |late| ensures MicrosAt(log, e) < MicrosAt(log, late[j]) {
      PickedAt(log, since, false, j);
      NotAfter(log, late[j], e);
    }
  }

  // ---- The tailer as it is written --------------------------------------------

  class DockerTailer {
    const group: string
    const container: string
    var checkpoint: Option<int>  // the group's row in the position store

    function Abs(): Puller
      reads this
    {
      Puller(group, container, checkpoint)
    }

    constructor (group: string, container: string, checkpoint: Option<int>)
      ensures Abs() == Puller(group, container, checkpoint)
    {
      this.group, this.container, this.checkpoint := group, container, checkpoint;
    }

    /** One `docker logs --since`, which may fail to run; the seed is stored first. */
    method ReadNewLines(log: seq<LogLine>, maxLines: nat, wall: int, runs: bool)
      returns (lines: seq<Line>, receipt: Receipt)
      modifies this
      ensures checkpoint == if old(checkpoint).Some? then old(checkpoint) else Some(wall)
      ensures runs ==> receipt == Claim(Abs(), log, checkpoint.value, maxLines)
      ensures runs ==> lines == Stamp(log, Kept(log, checkpoint.value, maxLines))
      ensures !runs ==> lines == [] && receipt == Receipt(group, container, checkpoint.value, checkpoint.value)
    {
      if checkpoint.None? {
        checkpoint := Some(wall);
      }
      var raw := if runs then Stamp(log, Fetched(log, checkpoint.value)) else [];
      var batch := Batch(group, container, checkpoint.value, raw, maxLines);
      return batch.0, batch.1;
    }

    /** Store the receipt's end; refuse one this container never issued, or one that
        would rewind the checkpoint or skip a gap. */
    method ConfirmShipped(receipt: Receipt) returns (ok: bool)
      modifies this
      ensures Confirm(old(Abs()), receipt) == (Abs(), ok)
      ensures ok <==> receipt.group == group && receipt.source == container
                      && (old(checkpoint).None? || receipt.start <= old(checkpoint).value < receipt.end)
      ensures checkpoint == if ok then Some(receipt.end) else old(checkpoint)
    {
      if receipt.group != group || receipt.source != container {
        return false;
      }
      if checkpoint.Some? && !Covers(receipt.start, checkpoint.value, receipt.end) {
        return false;
      }
      checkpoint := Some(receipt.end);
      return true;
    }

    method SkipFiltered(receipt: Receipt, pending: Option<set<Receipt>>) returns (ok: bool)
      modifies this
      ensures Skipped(old(Abs()), receipt, pending) == (Abs(), ok)
      ensures ok <==> receipt.group == group && receipt.source == container
                      && (old(checkpoint).None? || receipt.start <= old(checkpoint).value < receipt.end)
                      && pending.Some? && forall q :: q in pending.value ==> q.group != group || q.source != container
      ensures checkpoint == if ok then Some(receipt.end) else old(checkpoint)
    {
      if pending.None? {
        return false;
      }
      var left := pending.value;
      while left != {}
        invariant left <= pending.value && Abs() == old(Abs())
        invariant forall q :: q in pending.value && q !in left ==> !HoldsBack(q, receipt)
        decreases left
      {
        var q :| q in left;
        if HoldsBack(q, receipt) {
          return false;
        }
        left := left - {q};
      }
      ok := ConfirmShipped(receipt);
    }
  }
}
