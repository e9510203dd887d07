/** Log batches in flight: batch id to the receipt of the read it carries and when it
    was sent, with a release flag per group for the loop that waits on an ACK. */
module PendingBatches {
  import opened Prelude
  import opened DockerLines
  import StreamingDockerTailer
  import S = StreamingTailer

  datatype Entry = Entry(receipt: Receipt, sentAt: real)

  datatype Tracker = Tracker(entries: map<nat, Entry>, released: set<string>)

  function Added(t: Tracker, batch: nat, receipt: Receipt, now: real): Tracker {
    Tracker(t.entries[batch := Entry(receipt, now)], t.released - {receipt.group})
  }

  function Peeked(t: Tracker, batch: nat): Option<Receipt> {
    if batch in t.entries then Some(t.entries[batch].receipt) else None
  }

  function Popped(t: Tracker, batch: nat, release: bool): Tracker {
    if batch !in t.entries then t
    else Tracker(t.entries - {batch},
                 if release then t.released + {t.entries[batch].receipt.group} else t.released)
  }

  predicate InFlight(t: Tracker, group: string) {
    exists b :: b in t.entries && t.entries[b].receipt.group == group
  }

  function Receipts(t: Tracker): set<Receipt> {
    set b | b in t.entries :: t.entries[b].receipt
  }

  function Stale(t: Tracker, cut: real): set<nat> {
    set b | b in t.entries && t.entries[b].sentAt < cut
  }

  function Pruned(t: Tracker, cut: real): Tracker {
    Tracker(t.entries - Stale(t, cut),
            t.released + set b | b in t.entries && t.entries[b].sentAt < cut :: t.entries[b].receipt.group)
  }

  // ---- What the tracker's history says ----------------------------------------

  datatype Op = Add(batch: nat, receipt: Receipt, now: real) | Pop(batch: nat, release: bool) | Prune(cut: real)

  function Apply(t: Tracker, op: Op): Tracker {
    match op
    case Add(b, receipt, now) => Added(t, b, receipt, now)
    case Pop(b, release) => Popped(t, b, release)
    case Prune(cut) => Pruned(t, cut)
  }

  function After(ops: seq<Op>): Tracker
    decreases |ops|
  {
    if ops == [] then Tracker(map[], {}) else Apply(After(ops[..|ops| - 1]), ops[|ops| - 1])
  }

  /** Batch ids are unused when drawn. */
  predicate IsRun(ops: seq<Op>) {
    forall i, j :: 0 <= i < j < |ops| && ops[i].Add? && ops[j].Add? ==> ops[i].batch != ops[j].batch
  }

  /** The operation takes a batch sent then out of the tracker. */
  predicate Ends(op: Op, batch: nat, sentAt: real) {
    (op.Pop? && op.batch == batch) || (op.Prune? && sentAt < op.cut)
  }

  /** The batch added at `k` is still awaiting its ACK. */
  predicate Open(ops: seq<Op>, k: int) {
    0 <= k < |ops| && ops[k].Add? && forall j :: k < j < |ops| ==> !Ends(ops[j], ops[k].batch, ops[k].now)
  }

  /** The operation at `i` woke the group: it took one of its batches out, by a released
      pop or as stale. */
  ghost predicate Wakes(ops: seq<Op>, i: int, group: string) {
    0 <= i < |ops| &&
    exists k :: Open(ops[..i], k) && ops[k].receipt.group == group && Ends(ops[i], ops[k].batch, ops[k].now)
                && (ops[i].Pop? ==> ops[i].release)
  }

  ghost predicate Awake(ops: seq<Op>, group: string) {
    exists i :: Wakes(ops, i, group) && forall j :: i < j < |ops| ==> !(ops[j].Add? && ops[j].receipt.group == group)
  }

  /** What the tracker holds is what was added and neither popped nor pruned since; a
      group's flag is up exactly when a batch of it was released or pruned and none of it
      was added since. */
  ghost predicate Told(ops: seq<Op>, t: Tracker) {
    && (forall b :: b in t.entries ==> exists k :: Open(ops, k) && Holds(ops[k], b, t.entries[b]))
    && (forall k :: Open(ops, k) ==> ops[k].batch in t.entries && Holds(ops[k], ops[k].batch, t.entries[ops[k].batch]))
    && (forall group :: group in t.released <==> Awake(ops, group))
  }

  predicate Holds(op: Op, b: nat, e: Entry) { op.Add? && op.batch == b && e == Entry(op.receipt, op.now) }

  lemma OpenSnoc(ops: seq<Op>, op: Op, k: int)
    ensures Open(ops + [op], k) <==>
            if k == |ops| then op.Add? else Open(ops, k) && !Ends(op, ops[k].batch, ops[k].now)
  {
    var more := ops + [op];
    assert more[|ops|] == op;
    assert forall j :: 0 <= j < |ops| ==> more[j] == ops[j];
  }

  lemma WakesSnoc(ops: seq<Op>, op: Op, i: int, group: string)
    requires i < |ops|
    ensures Wakes(ops + [op], i, group) <==> Wakes(ops, i, group)
  {
    if 0 <= i {
      assert (ops + [op])[..i] == ops[..i] && (ops + [op])[i] == ops[i];
      assert forall k :: 0 <= k < i ==> (ops + [op])[k] == ops[k];
    }
  }

  /** The last operation wakes the group, or it was awake and none of its batches came. */
  lemma AwakeSnoc(ops: seq<Op>, op: Op, group: string)
    ensures Awake(ops + [op], group) <==>
            Wakes(ops + [op], |ops|, group) || (Awake(ops, group) && !(op.Add? && op.receipt.group == group))
  {
    var more := ops + [op];
    assert more[|ops|] == op;
    assert forall j :: 0 <= j < |ops| ==> more[j] == ops[j];
    if Awake(ops, group) {
      var i :| Wakes(ops, i, group) && forall j :: i < j < |ops| ==> !(ops[j].Add? && ops[j].receipt.group == group);
      WakesSnoc(ops, op, i, group);
    }
    if Awake(more, group) {
      var i :| Wakes(more, i, group)
               && forall j :: i < j < |more| ==> !(more[j].Add? && more[j].receipt.group == group);
      if i < |ops| { WakesSnoc(ops, op, i, group); }
    }
  }

  lemma LastWakes(ops: seq<Op>, op: Op, t: Tracker, group: string)
    requires Told(ops, t)
    ensures Wakes(ops + [op], |ops|, group) <==>
            exists b :: b in t.entries && t.entries[b].receipt.group == group && Ends(op, b, t.entries[b].sentAt)
                        && (op.Pop? ==> op.release)
  {
    var more := ops + [op];
    assert more[..|ops|] == ops && more[|ops|] == op;
    assert forall j :: 0 <= j < |ops| ==> more[j] == ops[j];
    if Wakes(more, |ops|, group) {
      var k :| Open(ops, k) && more[k].receipt.group == group && Ends(op, more[k].batch, more[k].now)
               && (op.Pop? ==> op.release);
      assert Holds(ops[k], ops[k].batch, t.entries[ops[k].batch]);
    }
    if b :| b in t.entries && t.entries[b].receipt.group == group && Ends(op, b, t.entries[b].sentAt)
            && (op.Pop? ==> op.release) {
      var k :| Open(ops, k) && Holds(ops[k], b, t.entries[b]);
      assert more[k] == ops[k];
    }
  }

  lemma EntriesTold(ops: seq<Op>, op: Op, t: Tracker)
    requires IsRun(ops + [op]) && Told(ops, t)
    ensures var t', more := Apply(t, op), ops + [op];
            && (forall b :: b in t'.entries ==> exists k :: Open(more, k) && Holds(more[k], b, t'.entries[b]))
            && (forall k :: Open(more, k) ==>
                  more[k].batch in t'.entries && Holds(more[k], more[k].batch, t'.entries[more[k].batch]))
  {
    var t', more := Apply(t, op), ops + [op];
    assert more[|ops|] == op;
    assert forall j :: 0 <= j < |ops| ==> more[j] == ops[j];
    forall b | b in t'.entries ensures exists k :: Open(more, k) && Holds(more[k], b, t'.entries[b]) {
      if op.Add? && op.batch == b {
        OpenSnoc(ops, op, |ops|);
        assert Holds(more[|ops|], b, t'.entries[b]);
      } else {
        var k :| Open(ops, k) && Holds(ops[k], b, t.entries[b]);
        OpenSnoc(ops, op, k);
        assert Holds(more[k], b, t'.entries[b]);
      }
    }
    forall k | Open(more, k)
      ensures more[k].batch in t'.entries && Holds(more[k], more[k].batch, t'.entries[more[k].batch])
    {
      OpenSnoc(ops, op, k);
      if k < |ops| { assert Open(ops, k) && Holds(ops[k], ops[k].batch, t.entries[ops[k].batch]); }
    }
  }

  lemma StepTold(ops: seq<Op>, op: Op, t: Tracker)
    requires IsRun(ops + [op]) && Told(ops, t)
    ensures Told(ops + [op], Apply(t, op))
  {
    EntriesTold(ops, op, t);
    forall group ensures group in Apply(t, op).released <==> Awake(ops + [op], group) {
      AwakeSnoc(ops, op, group);
      LastWakes(ops, op, t, group);
    }
  }

  /** In every run the tracker is what its history says. */
  lemma {:induction false} TrackerTellsHistory(ops: seq<Op>)
    requires IsRun(ops)
    ensures Told(ops, After(ops))
    decreases |ops|
  {
    if ops == [] {
      assert forall group :: !Awake(ops, group);
    } else {
      var front, op := ops[..|ops| - 1], ops[|ops| - 1];
      assert ops == front + [op];
      TrackerTellsHistory(front);
      StepTold(front, op, After(front));
    }
  }

  /** A peek finds the receipt the batch was added with exactly while it awaits its ACK. */
  lemma PeekTellsOpen(ops: seq<Op>, b: nat)
    requires IsRun(ops)
    ensures match Peeked(After(ops), b)
            case Some(r) => exists k :: Open(ops, k) && ops[k].batch == b && ops[k].receipt == r
            case None => forall k :: Open(ops, k) ==> ops[k].batch != b
  {
    TrackerTellsHistory(ops);
    var t := After(ops);
    if b in t.entries {
      var k :| Open(ops, k) && Holds(ops[k], b, t.entries[b]);
      assert ops[k].batch == b;
    }
  }

  class PendingBatches {
    const ackTimeout: real
    var entries: map<nat, Entry>
    var released: set<string>

    function Abs(): Tracker
      reads this
    {
      Tracker(entries, released)
    }

    constructor (ackTimeout: real)
      ensures Abs() == Tracker(map[], {}) && this.ackTimeout == ackTimeout
    {
      this.ackTimeout := ackTimeout;
      entries, released := map[], {};
    }

    method Add(batch: nat, receipt: Receipt, now: real)
      modifies this
      ensures Abs() == Added(old(Abs()), batch, receipt, now)
    {
      entries := entries[batch := Entry(receipt, now)];
      released := released - {receipt.group};
    }

    method Peek(batch: nat) returns (receipt: Option<Receipt>)
      ensures receipt == Peeked(Abs(), batch)
    {
      receipt := if batch in entries then Some(entries[batch].receipt) else None;
    }

    method Pop(batch: nat, release: bool) returns (receipt: Option<Receipt>)
      modifies this
      ensures receipt == Peeked(old(Abs()), batch) && Abs() == Popped(old(Abs()), batch, release)
    {
      if batch !in entries {
        return None;
      }
      receipt := Some(entries[batch].receipt);
      entries := entries - {batch};
      if release {
        released := released + {receipt.value.group};
      }
    }

    /** Drop entries past the timeout, waking each dropped batch's group. */
    method PruneStale(now: real) returns (count: nat)
      modifies this
      ensures Abs() == Pruned(old(Abs()), now - ackTimeout)
      ensures count == |Stale(old(Abs()), now - ackTimeout)|
    {
      ghost var before := Abs();
      var stale := set b | b in entries && entries[b].sentAt < now - ackTimeout;
      assert stale == Stale(before, now - ackTimeout);
      count := |stale|;
      var left := stale;
      while left != {}
        invariant left <= stale
        invariant entries == before.entries - (stale - left)
        invariant released == before.released + set b | b in stale - left :: before.entries[b].receipt.group
        decreases left
      {
        var b :| b in left;
        assert b in entries && entries[b] == before.entries[b];
        released := released + {entries[b].receipt.group};
        entries := entries - {b};
        left := left - {b};
        assert stale - left == (stale - (left + {b})) + {b};
      }
      assert stale - left == stale;
    }
  }

  /** An ACK: confirm, then pop, so no read between the two sees the range lost. A refused
      confirm, a group with no shipper, or a confirm that raises leaves the waiter to its
      interval; the batch is popped all the same. */
  method HandleLogBatchAck(pending: PendingBatches, tailer: StreamingDockerTailer.StreamingDockerTailer?,
                           batch: nat, raises: bool)
    modifies pending, tailer
    ensures var known := Peeked(old(pending.Abs()), batch);
            if known.None? then pending.Abs() == old(pending.Abs())
                                && (tailer != null ==> tailer.Abs() == old(tailer.Abs()))
            else if tailer == null then pending.Abs() == Popped(old(pending.Abs()), batch, false)
            else
              var (t, confirmed) := if raises then (old(tailer.Abs()), false)
                else S.Confirm(old(tailer.Abs()), known.value);
              tailer.Abs() == t && pending.Abs() == Popped(old(pending.Abs()), batch, confirmed)
  {
    var receipt := pending.Peek(batch);
    if receipt.None? {
      return;
    }
    var confirmed := false;
    if tailer != null && !raises {
      confirmed := tailer.ConfirmShipped(receipt.value);
    }
    var _ := pending.Pop(batch, confirmed);
  }
}
