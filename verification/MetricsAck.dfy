/** Which resources one integration still owes the control plane: read revisions, the
    watermark each push carried, and the ACKs that release them. */
module MetricsAck {
  import opened Prelude

  /** A push awaiting its ACK and the revision it covered. */
  datatype Push = Push(id: nat, watermark: nat)

  /** `changed` maps each id owed to its latest revision; `pending` is in send order. */
  datatype Runtime = Runtime(revision: nat, changed: map<string, nat>, pending: seq<Push>)

  const MAX_PENDING_METRICS_PUSHES: nat := 32

  // ---- Operations -------------------------------------------------------------

  /** Owe every read; an id already dirty takes the newer revision. */
  function Noted(r: Runtime, ids: seq<string>): Runtime
    decreases |ids|
  {
    if ids == [] then r
    else Noted(if ids[0] == "" then r
               else r.(revision := r.revision + 1, changed := r.changed[ids[0] := r.revision + 1]), ids[1..])
  }

  function Find(pending: seq<Push>, id: nat): (k: nat)
    ensures k <= |pending|
    ensures k < |pending| ==> pending[k].id == id
    ensures forall j :: 0 <= j < k ==> pending[j].id != id
  {
    if pending == [] || pending[0].id == id then 0 else 1 + Find(pending[1..], id)
  }

  function Without(pending: seq<Push>, id: nat): seq<Push> {
    var k := Find(pending, id);
    if k == |pending| then pending else pending[..k] + pending[k + 1..]
  }

  function Put(pending: seq<Push>, push: Push): seq<Push> {
    var k := Find(pending, push.id);
    if k == |pending| then pending + [push] else pending[k := push]
  }

  /** The newest pushes that fit; evicting one never clears a change. */
  function Newest(pending: seq<Push>): seq<Push> {
    if |pending| <= MAX_PENDING_METRICS_PUSHES then pending else pending[|pending| - MAX_PENDING_METRICS_PUSHES..]
  }

  function Tracked(r: Runtime, id: nat): Runtime { r.(pending := Newest(Put(r.pending, Push(id, r.revision)))) }

  function Discarded(r: Runtime, id: nat): Runtime { r.(pending := Without(r.pending, id)) }

  function Cleared(r: Runtime): Runtime { r.(pending := []) }

  function Above(changed: map<string, nat>, watermark: nat): map<string, nat> {
    map i | i in changed && changed[i] > watermark :: changed[i]
  }

  /** Release only reads the push included. */
  function Acknowledged(r: Runtime, id: nat): (Runtime, bool) {
    var k := Find(r.pending, id);
    if k == |r.pending| then (r, false)
    else (r.(pending := Without(r.pending, id), changed := Above(r.changed, r.pending[k].watermark)), true)
  }

  // ---- The history ------------------------------------------------------------

  datatype Op = Note(ids: seq<string>) | Send(id: nat) | Ack(id: nat) | Discard(id: nat) | Disconnect

  /** Push ids are unused when drawn. */
  predicate IsRun(ops: seq<Op>) {
    forall i, j :: 0 <= i < j < |ops| && ops[i].Send? && ops[j].Send? ==> ops[i].id != ops[j].id
  }

  function Apply(r: Runtime, op: Op): Runtime {
    match op
    case Note(ids) => Noted(r, ids)
    case Send(id) => Tracked(r, id)
    case Ack(id) => Acknowledged(r, id).0
    case Discard(id) => Discarded(r, id)
    case Disconnect => Cleared(r)
  }

  function Fresh(): Runtime { Runtime(0, map[], []) }

  function After(ops: seq<Op>): Runtime
    decreases |ops|
  {
    if ops == [] then Fresh() else Apply(After(ops[..|ops| - 1]), ops[|ops| - 1])
  }

  function Named(ids: seq<string>): seq<string>
    decreases |ids|
  {
    if ids == [] then [] else (if ids[0] == "" then [] else [ids[0]]) + Named(ids[1..])
  }

  /** Every read noted, in order. */
  function Reads(ops: seq<Op>): seq<string>
    decreases |ops|
  {
    if ops == [] then []
    else Reads(ops[..|ops| - 1]) + if ops[|ops| - 1].Note? then Named(ops[|ops| - 1].ids) else []
  }

  /** The place of an id's latest read, 0 if it was never read. */
  function LastRead(noted: seq<string>, id: string): nat {
    if noted == [] then 0
    else if noted[|noted| - 1] == id then |noted|
    else LastRead(noted[..|noted| - 1], id)
  }

  /** When a push was sent, or the length if it never was. */
  function SentAt(ops: seq<Op>, id: nat): (k: nat)
    ensures k <= |ops| && (k < |ops| ==> ops[k] == Send(id))
    ensures forall j :: 0 <= j < k ==> ops[j] != Send(id)
    decreases |ops|
  {
    if ops == [] || ops[0] == Send(id) then 0 else 1 + SentAt(ops[1..], id)
  }

  predicate Sent(ops: seq<Op>, id: nat) { SentAt(ops, id) < |ops| }

  /** How many reads there had been when a push was sent. */
  function Carried(ops: seq<Op>, id: nat): nat { |Reads(ops[..SentAt(ops, id)])| }

  /** Sent, and since then not acknowledged, not discarded, not cleared by a disconnect, and
      not followed by so many pushes, all still outstanding, that a receipt had to go. */
  ghost predicate Outstanding(ops: seq<Op>, id: nat)
    decreases |ops|, 0
  {
    ops != [] &&
    var front := ops[..|ops| - 1];
    match ops[|ops| - 1]
    case Note(_) => Outstanding(front, id)
    case Send(q) => q == id || (Outstanding(front, id) && |Newer(front, id)| + 1 < MAX_PENDING_METRICS_PUSHES)
    case Ack(q) => q != id && Outstanding(front, id)
    case Discard(q) => q != id && Outstanding(front, id)
    case Disconnect => false
  }

  /** The outstanding pushes sent after one. */
  ghost function Newer(ops: seq<Op>, id: nat): set<nat>
    decreases |ops|, 1
  {
    set k | 0 <= k < |ops| && ops[k].Send? && k > SentAt(ops, id) && Outstanding(ops, ops[k].id) :: ops[k].id
  }

  function Max(a: nat, b: nat): nat { if a < b then b else a }

  /** The most reads any acknowledged push carried: an ACK counts while its push is
      outstanding. */
  ghost function Top(ops: seq<Op>): nat
    decreases |ops|
  {
    if ops == [] then 0
    else
      var front, op := ops[..|ops| - 1], ops[|ops| - 1];
      if op.Ack? && Outstanding(front, op.id) then Max(Top(front), Carried(front, op.id)) else Top(front)
  }

  /** The dirty set the history calls for: read since the largest acknowledged watermark. */
  ghost predicate DirtyMatches(r: Runtime, noted: seq<string>, top: nat) {
    && r.revision == |noted|
    && (forall i :: i in r.changed <==> LastRead(noted, i) > top)
    && (forall i :: i in r.changed ==> r.changed[i] == LastRead(noted, i))
  }

  // ---- Receipts are the outstanding pushes ------------------------------------

  ghost predicate Receipts(r: Runtime, ops: seq<Op>) {
    && |r.pending| <= MAX_PENDING_METRICS_PUSHES
    && (forall k :: 0 <= k < |r.pending| ==> Receipt(r.pending[k], ops))
    && (forall j, k :: 0 <= j < k < |r.pending| ==> SentAt(ops, r.pending[j].id) < SentAt(ops, r.pending[k].id))
    && (forall id :: Outstanding(ops, id) ==> Find(r.pending, id) < |r.pending|)
  }

  ghost predicate Receipt(p: Push, ops: seq<Op>) {
    Sent(ops, p.id) && Outstanding(ops, p.id) && p.watermark == Carried(ops, p.id)
  }

  lemma SentAtSnoc(ops: seq<Op>, op: Op, id: nat)
    ensures Sent(ops, id) ==> Sent(ops + [op], id) && SentAt(ops + [op], id) == SentAt(ops, id)
    ensures !Sent(ops, id) ==> SentAt(ops + [op], id) == |ops| + if op == Send(id) then 0 else 1
  {
    var more := ops + [op];
    assert forall j :: 0 <= j < |ops| ==> more[j] == ops[j];
    assert more[|ops|] == op;
  }

  /** A receipt stays one as long as its push is outstanding. */
  lemma ReceiptStays(p: Push, ops: seq<Op>, op: Op)
    requires Receipt(p, ops) && Outstanding(ops + [op], p.id)
    ensures Receipt(p, ops + [op]) && SentAt(ops + [op], p.id) == SentAt(ops, p.id)
  {
    SentAtSnoc(ops, op, p.id);
    assert (ops + [op])[..SentAt(ops, p.id)] == ops[..SentAt(ops, p.id)];
  }

  function IdsFrom(pending: seq<Push>, k: nat): set<nat> { set j | k <= j < |pending| :: pending[j].id }

  lemma {:induction false} IdsFromCount(pending: seq<Push>, k: nat)
    requires k <= |pending| && forall i, j :: 0 <= i < j < |pending| ==> pending[i].id != pending[j].id
    ensures |IdsFrom(pending, k)| == |pending| - k
    decreases |pending| - k
  {
    if k < |pending| {
      IdsFromCount(pending, k + 1);
      assert IdsFrom(pending, k) == IdsFrom(pending, k + 1) + {pending[k].id};
    }
  }

  /** The outstanding pushes sent after a pending one are those behind it. */
  lemma NewerCount(r: Runtime, ops: seq<Op>, k: nat)
    requires IsRun(ops) && Receipts(r, ops) && k < |r.pending|
    ensures |Newer(ops, r.pending[k].id)| == |r.pending| - k - 1
  {
    var newer, behind := Newer(ops, r.pending[k].id), IdsFrom(r.pending, k + 1);
    forall x | x in newer ensures x in behind {
      var i :| 0 <= i < |ops| && ops[i] == Send(x) && i > SentAt(ops, r.pending[k].id) && Outstanding(ops, x);
      assert SentAt(ops, x) == i;
      assert Find(r.pending, x) > k;
    }
    forall x | x in behind ensures x in newer {
      var j :| k < j < |r.pending| && r.pending[j].id == x;
      assert Receipt(r.pending[j], ops);
      assert ops[SentAt(ops, x)] == Send(x);
    }
    assert newer == behind;
    IdsFromCount(r.pending, k + 1);
  }

  /** Which of the pushes pending before are still so after one more. */
  lemma SendLeaves(r: Runtime, ops: seq<Op>, id: nat, k: nat)
    requires IsRun(ops + [Send(id)]) && Receipts(r, ops) && k < |r.pending|
    ensures r.pending[k].id != id && SentAt(ops + [Send(id)], r.pending[k].id) == SentAt(ops, r.pending[k].id)
    ensures Outstanding(ops + [Send(id)], r.pending[k].id) <==> |r.pending| - k < MAX_PENDING_METRICS_PUSHES
    ensures |r.pending| - k < MAX_PENDING_METRICS_PUSHES ==> Receipt(r.pending[k], ops + [Send(id)])
  {
    var more, push := ops + [Send(id)], r.pending[k];
    assert Receipt(push, ops);
    FreshSend(ops, id);
    SentAtSnoc(ops, Send(id), push.id);
    NewerCount(r, ops, k);
    assert more[..|ops|] == ops && more[|ops|] == Send(id);
    if Outstanding(more, push.id) { ReceiptStays(push, ops, Send(id)); }
  }

  lemma SentReceipt(r: Runtime, ops: seq<Op>, id: nat)
    requires IsRun(ops + [Send(id)]) && Receipts(r, ops) && r.revision == |Reads(ops)|
    ensures Receipt(Push(id, r.revision), ops + [Send(id)]) && SentAt(ops + [Send(id)], id) == |ops|
    ensures Find(r.pending, id) == |r.pending|
  {
    var more, k := ops + [Send(id)], Find(r.pending, id);
    FreshSend(ops, id);
    SentAtSnoc(ops, Send(id), id);
    assert more[..|ops|] == ops && more[|ops|] == Send(id);
    forall j | 0 <= j < |r.pending| ensures r.pending[j].id != id { assert Receipt(r.pending[j], ops); }
  }

  lemma SendReceipts(r: Runtime, ops: seq<Op>, id: nat)
    requires IsRun(ops + [Send(id)]) && Receipts(r, ops) && r.revision == |Reads(ops)|
    ensures Receipts(Tracked(r, id), ops + [Send(id)])
  {
    var p, put := r.pending, r.pending + [Push(id, r.revision)];
    SentReceipt(r, ops, id);
    forall k | 0 <= k < |p|
      ensures p[k].id != id && SentAt(ops + [Send(id)], p[k].id) == SentAt(ops, p[k].id)
      ensures |p| - k < MAX_PENDING_METRICS_PUSHES ==> Receipt(p[k], ops + [Send(id)])
    {
      SendLeaves(r, ops, id, k);
    }
    forall x | x != id && Outstanding(ops + [Send(id)], x)
      ensures |p| - Find(p, x) < MAX_PENDING_METRICS_PUSHES && Find(p, x) < |p|
    {
      assert (ops + [Send(id)])[..|ops|] == ops && (ops + [Send(id)])[|ops|] == Send(id);
      SendLeaves(r, ops, id, Find(p, x));
    }
    PutOrdered(r, ops, id);
    KeptReceipts(r, ops, id, Newest(put));
  }

  lemma PutOrdered(r: Runtime, ops: seq<Op>, id: nat)
    requires Receipts(r, ops) && SentAt(ops + [Send(id)], id) == |ops|
    requires forall k :: 0 <= k < |r.pending| ==>
               SentAt(ops + [Send(id)], r.pending[k].id) == SentAt(ops, r.pending[k].id)
    ensures var put := r.pending + [Push(id, r.revision)];
            forall j, k :: 0 <= j < k < |put| ==>
              SentAt(ops + [Send(id)], put[j].id) < SentAt(ops + [Send(id)], put[k].id)
  {
    var put := r.pending + [Push(id, r.revision)];
    forall j, k | 0 <= j < k < |put|
      ensures SentAt(ops + [Send(id)], put[j].id) < SentAt(ops + [Send(id)], put[k].id)
    {
      assert put[j] == r.pending[j] && Receipt(r.pending[j], ops);
      if k < |r.pending| { assert put[k] == r.pending[k]; }
    }
  }

  lemma KeptReceipts(r: Runtime, ops: seq<Op>, id: nat, kept: seq<Push>)
    requires kept == Newest(r.pending + [Push(id, r.revision)]) && |r.pending| <= MAX_PENDING_METRICS_PUSHES
    requires Receipt(Push(id, r.revision), ops + [Send(id)])
    requires var put := r.pending + [Push(id, r.revision)];
             forall j, k :: 0 <= j < k < |put| ==>
               SentAt(ops + [Send(id)], put[j].id) < SentAt(ops + [Send(id)], put[k].id)
    requires forall k :: 0 <= k < |r.pending| && |r.pending| - k < MAX_PENDING_METRICS_PUSHES ==>
               Receipt(r.pending[k], ops + [Send(id)])
    requires forall x :: x != id && Outstanding(ops + [Send(id)], x) ==>
               |r.pending| - Find(r.pending, x) < MAX_PENDING_METRICS_PUSHES && Find(r.pending, x) < |r.pending|
    ensures Receipts(r.(pending := kept), ops + [Send(id)])
  {
    var p, put := r.pending, r.pending + [Push(id, r.revision)];
    var cut := |put| - |kept|;
    assert kept == put[cut..];
    forall k | 0 <= k < |kept| ensures kept[k] == put[cut + k] && Receipt(kept[k], ops + [Send(id)]) {
      if cut + k < |p| { assert put[cut + k] == p[cut + k]; }
    }
    forall x | Outstanding(ops + [Send(id)], x) ensures Find(kept, x) < |kept| {
      KeptFound(p, Push(id, r.revision), x);
    }
  }

  lemma KeptFound(p: seq<Push>, push: Push, x: nat)
    requires |p| <= MAX_PENDING_METRICS_PUSHES
    requires x == push.id || (Find(p, x) < |p| && |p| - Find(p, x) < MAX_PENDING_METRICS_PUSHES)
    ensures Find(Newest(p + [push]), x) < |Newest(p + [push])|
  {
    var put, kept := p + [push], Newest(p + [push]);
    var k := if x == push.id then |p| else Find(p, x);
    assert put[k].id == x && kept[k - (|put| - |kept|)].id == x;
  }

  lemma FreshSend(ops: seq<Op>, id: nat)
    requires IsRun(ops + [Send(id)])
    ensures IsRun(ops) && !Sent(ops, id)
  {
    var more := ops + [Send(id)];
    assert forall j :: 0 <= j < |ops| ==> more[j] == ops[j];
    assert more[|ops|] == Send(id);
  }

  lemma DistinctIds(r: Runtime, ops: seq<Op>)
    requires Receipts(r, ops)
    ensures forall j, k :: 0 <= j < k < |r.pending| ==> r.pending[j].id != r.pending[k].id
  {
  }

  /** What is left of a list once one place is taken out. */
  lemma WithoutAt(p: seq<Push>, id: nat, k: nat)
    requires k < |Without(p, id)|
    ensures Without(p, id)[k] == p[if k < Find(p, id) then k else k + 1]
  {
  }

  /** An ACK or a failed send takes away its own receipt and no other. */
  lemma WithoutReceipts(r: Runtime, ops: seq<Op>, op: Op)
    requires Receipts(r, ops) && (op.Ack? || op.Discard?)
    ensures Receipts(r.(pending := Without(r.pending, op.id)), ops + [op])
  {
    var left := Without(r.pending, op.id);
    forall k | 0 <= k < |left|
      ensures left[k] == r.pending[if k < Find(r.pending, op.id) then k else k + 1] && Receipt(left[k], ops + [op])
      ensures SentAt(ops + [op], left[k].id) == SentAt(ops, left[k].id)
    {
      WithoutAt(r.pending, op.id, k);
      LeftReceipt(r, ops, op, if k < Find(r.pending, op.id) then k else k + 1);
    }
    forall x | Outstanding(ops + [op], x) ensures Find(left, x) < |left| {
      WasOutstanding(ops, op, x);
      LeftFound(r.pending, op.id, x);
    }
  }

  lemma LeftReceipt(r: Runtime, ops: seq<Op>, op: Op, k: nat)
    requires Receipts(r, ops) && (op.Ack? || op.Discard?) && k < |r.pending| && k != Find(r.pending, op.id)
    ensures Receipt(r.pending[k], ops + [op]) && SentAt(ops + [op], r.pending[k].id) == SentAt(ops, r.pending[k].id)
  {
    DistinctIds(r, ops);
    assert Receipt(r.pending[k], ops) && r.pending[k].id != op.id;
    assert (ops + [op])[..|ops|] == ops && (ops + [op])[|ops|] == op;
    ReceiptStays(r.pending[k], ops, op);
  }

  lemma WasOutstanding(ops: seq<Op>, op: Op, x: nat)
    requires Outstanding(ops + [op], x) && (op.Ack? || op.Discard?)
    ensures Outstanding(ops, x) && x != op.id
  {
    assert (ops + [op])[..|ops|] == ops && (ops + [op])[|ops|] == op;
  }

  lemma LeftFound(p: seq<Push>, id: nat, x: nat)
    requires Find(p, x) < |p| && x != id
    ensures Find(Without(p, id), x) < |Without(p, id)|
  {
    var k, at := Find(p, x), Find(p, id);
    var i := if k < at then k else k - 1;
    WithoutAt(p, id, i);
  }

  lemma NoteReceipts(r: Runtime, ops: seq<Op>, ids: seq<string>)
    requires Receipts(r, ops)
    ensures Receipts(Noted(r, ids), ops + [Note(ids)])
  {
    var more := ops + [Note(ids)];
    assert more[..|ops|] == ops && more[|ops|] == Note(ids);
    NotedPending(r, ids);
    forall k | 0 <= k < |r.pending|
      ensures Receipt(r.pending[k], more) && SentAt(more, r.pending[k].id) == SentAt(ops, r.pending[k].id)
    {
      assert Receipt(r.pending[k], ops);
      ReceiptStays(r.pending[k], ops, Note(ids));
    }
  }

  lemma {:induction false} NotedPending(r: Runtime, ids: seq<string>)
    ensures Noted(r, ids).pending == r.pending
    decreases |ids|
  {
    if ids != [] {
      NotedPending(if ids[0] == "" then r
                   else r.(revision := r.revision + 1, changed := r.changed[ids[0] := r.revision + 1]), ids[1..]);
    }
  }

  // ---- What is owed -----------------------------------------------------------

  /** A read no later than `k` is the latest of the first `k` too. */
  lemma {:induction false} LastReadOfPrefix(noted: seq<string>, k: nat, id: string)
    requires k <= |noted| && LastRead(noted, id) <= k
    ensures LastRead(noted[..k], id) == LastRead(noted, id)
  {
    if k < |noted| {
      assert noted[..|noted| - 1][..k] == noted[..k];
      LastReadOfPrefix(noted[..|noted| - 1], k, id);
    } else {
      assert noted[..k] == noted;
    }
  }

  lemma LastReadAppend(noted: seq<string>, x: string, id: string)
    ensures LastRead(noted + [x], id) == if x == id then |noted| + 1 else LastRead(noted, id)
  {
    assert (noted + [x])[..|noted|] == noted;
  }

  /** One more read owed. */
  lemma NoteOne(r: Runtime, noted: seq<string>, top: nat, x: string)
    requires DirtyMatches(r, noted, top) && top <= |noted|
    ensures DirtyMatches(r.(revision := r.revision + 1, changed := r.changed[x := r.revision + 1]), noted + [x], top)
  {
    forall i ensures LastRead(noted + [x], i) == if x == i then |noted| + 1 else LastRead(noted, i) {
      LastReadAppend(noted, x, i);
    }
  }

  lemma {:induction false} NotedMatches(r: Runtime, noted: seq<string>, top: nat, ids: seq<string>)
    requires DirtyMatches(r, noted, top) && top <= |noted|
    ensures DirtyMatches(Noted(r, ids), noted + Named(ids), top)
    decreases |ids|
  {
    if ids == [] {
      assert noted + [] == noted;
    } else if ids[0] == "" {
      NotedMatches(r, noted, top, ids[1..]);
      assert Named(ids) == Named(ids[1..]);
    } else {
      NoteOne(r, noted, top, ids[0]);
      NotedMatches(r.(revision := r.revision + 1, changed := r.changed[ids[0] := r.revision + 1]),
                   noted + [ids[0]], top, ids[1..]);
      assert noted + [ids[0]] + Named(ids[1..]) == noted + Named(ids);
    }
  }

  ghost predicate Inv(ops: seq<Op>) {
    && DirtyMatches(After(ops), Reads(ops), Top(ops)) && Top(ops) <= |Reads(ops)|
    && Receipts(After(ops), ops)
  }

  /** A push carried no more reads than there are by now. */
  lemma {:induction false} ReadsGrow(ops: seq<Op>, k: nat)
    requires k <= |ops|
    ensures Reads(ops[..k]) <= Reads(ops)
    decreases |ops|
  {
    if k < |ops| {
      var front := ops[..|ops| - 1];
      assert front[..k] == ops[..k];
      ReadsGrow(front, k);
    } else {
      assert ops[..k] == ops;
    }
  }

  lemma {:induction false} RunKeeps(ops: seq<Op>)
    requires IsRun(ops)
    ensures Inv(ops)
    decreases |ops|
  {
    if ops != [] {
      var front, op := ops[..|ops| - 1], ops[|ops| - 1];
      assert ops == front + [op];
      RunKeeps(front);
      StepKeeps(front, op);
    }
  }

  lemma StepKeeps(front: seq<Op>, op: Op)
    requires IsRun(front + [op]) && Inv(front)
    ensures Inv(front + [op])
  {
    var ops, r := front + [op], After(front);
    assert ops[..|front|] == front && ops[|front|] == op;
    assert Reads(front) + [] == Reads(front);
    match op
    case Note(ids) =>
      NotedMatches(r, Reads(front), Top(front), ids);
      NoteReceipts(r, front, ids);
    case Send(id) => SendReceipts(r, front, id);
    case Ack(id) =>
      WithoutReceipts(r, front, op);
      AckMatches(front, id);
    case Discard(id) => WithoutReceipts(r, front, op);
    case Disconnect =>
  }

  lemma AckMatches(front: seq<Op>, id: nat)
    requires Inv(front)
    ensures var (r, ok) := Acknowledged(After(front), id);
            && (ok <==> Outstanding(front, id)) && r.pending == Without(After(front).pending, id)
            && DirtyMatches(r, Reads(front), if ok then Max(Top(front), Carried(front, id)) else Top(front))
            && (ok ==> Carried(front, id) <= |Reads(front)|)
  {
    var p := After(front).pending;
    var k := Find(p, id);
    if k < |p| {
      assert Receipt(p[k], front);
      ReadsGrow(front, SentAt(front, id));
    }
  }

  /** For out-of-order, duplicate, evicted, discarded and reconnect-cleared pushes alike,
      what is owed is exactly what was read since the largest watermark whose push was
      acknowledged while outstanding. */
  lemma DirtyIsReadSinceAck(ops: seq<Op>)
    requires IsRun(ops)
    ensures DirtyMatches(After(ops), Reads(ops), Top(ops))
  {
    RunKeeps(ops);
  }

  /** An ACK is known exactly when its push is outstanding; then what stays owed is what
      was read since that push was sent, of what was owed before. */
  lemma AckKnownIffOutstanding(ops: seq<Op>, id: nat)
    requires IsRun(ops)
    ensures Acknowledged(After(ops), id).1 <==> Outstanding(ops, id)
    ensures forall item :: item in After(ops + [Ack(id)]).changed <==>
              item in After(ops).changed && (Outstanding(ops, id) ==> LastRead(Reads(ops), item) > Carried(ops, id))
  {
    RunKeeps(ops);
    AckMatches(ops, id);
    assert (ops + [Ack(id)])[..|ops|] == ops;
  }

  /** A push just sent is outstanding, so its ACK releases everything read by then. */
  lemma PromptAckReleasesAll(ops: seq<Op>, id: nat)
    requires IsRun(ops + [Send(id)])
    ensures Acknowledged(After(ops + [Send(id)]), id).1 && After(ops + [Send(id), Ack(id)]).changed == map[]
  {
    var sent := ops + [Send(id)];
    FreshSend(ops, id);
    SentAtSnoc(ops, Send(id), id);
    assert sent[..|ops|] == ops && sent[|ops|] == Send(id);
    AckKnownIffOutstanding(sent, id);
    RunKeeps(sent);
    assert sent + [Ack(id)] == ops + [Send(id), Ack(id)];
    assert Reads(sent) == Reads(ops) + [] == Reads(ops);
    LastReadBound(Reads(ops));
    assert sent[..|ops|] == ops;
    var left := After(sent + [Ack(id)]).changed;
    assert forall item :: item in left ==> LastRead(Reads(sent), item) > |Reads(ops)|;
    assert left.Keys == {};
  }

  lemma {:induction false} LastReadBound(noted: seq<string>)
    ensures forall id :: LastRead(noted, id) <= |noted|
  {
    if noted != [] { LastReadBound(noted[..|noted| - 1]); }
  }

  /** An ACK releases only ids its own push listed: those owed when it was sent. */
  lemma ReleasedWasListed(ops: seq<Op>, id: nat, item: string)
    requires IsRun(ops)
    requires item in After(ops).changed && item !in Acknowledged(After(ops), id).0.changed
    ensures Outstanding(ops, id) && item in After(ops[..SentAt(ops, id)]).changed
  {
    RunKeeps(ops);
    AckMatches(ops, id);
    var k := SentAt(ops, id);
    assert Receipt(After(ops).pending[Find(After(ops).pending, id)], ops);
    OwedThen(ops, k, item);
  }

  /** What was read by then and is still owed was owed then. */
  lemma OwedThen(ops: seq<Op>, k: nat, item: string)
    requires IsRun(ops) && k <= |ops| && Top(ops) < LastRead(Reads(ops), item) <= |Reads(ops[..k])|
    ensures item in After(ops[..k]).changed
  {
    assert IsRun(ops[..k]);
    RunKeeps(ops[..k]);
    ReadsGrow(ops, k);
    LastReadOfPrefix(Reads(ops), |Reads(ops[..k])|, item);
    assert Reads(ops)[..|Reads(ops[..k])|] == Reads(ops[..k]);
    TopGrows(ops, k);
  }

  lemma {:induction false} TopGrows(ops: seq<Op>, k: nat)
    requires k <= |ops|
    ensures Top(ops[..k]) <= Top(ops)
    decreases |ops|
  {
    if k < |ops| {
      var front := ops[..|ops| - 1];
      assert front[..k] == ops[..k];
      TopGrows(front, k);
    } else {
      assert ops[..k] == ops;
    }
  }

  // ---- The runtime as it is written -------------------------------------------

  class IntegrationRuntime {
    var revision: nat
    var changed: map<string, nat>
    var pending: seq<Push>

    function Abs(): Runtime
      reads this
    {
      Runtime(revision, changed, pending)
    }

    constructor ()
      ensures Abs() == Fresh()
    {
      revision, changed, pending := 0, map[], [];
    }

    method NoteChanged(ids: seq<string>)
      modifies this
      ensures Abs() == Noted(old(Abs()), ids)
    {
      for k := 0 to |ids|
        invariant Noted(Abs(), ids[k..]) == Noted(old(Abs()), ids)
      {
        assert ids[k..][0] == ids[k] && ids[k..][1..] == ids[k + 1..];
        if ids[k] != "" {
          revision := revision + 1;
          changed := changed[ids[k] := revision];
        }
      }
    }

    /** The watermark of a push just built; the oldest receipts past the cap go. */
    method TrackPush(id: nat)
      modifies this
      ensures Abs() == Tracked(old(Abs()), id)
    {
      pending := Put(pending, Push(id, revision));
      ghost var put := pending;
      while |pending| > MAX_PENDING_METRICS_PUSHES
        invariant revision == old(revision) && changed == old(changed)
        invariant |pending| <= |put| && pending == put[|put| - |pending|..]
        invariant |put| <= MAX_PENDING_METRICS_PUSHES ==> pending == put
        invariant |put| > MAX_PENDING_METRICS_PUSHES ==> |pending| >= MAX_PENDING_METRICS_PUSHES
        decreases |pending|
      {
        pending := pending[1..];
      }
    }

    method DiscardPush(id: nat)
      modifies this
      ensures Abs() == Discarded(old(Abs()), id)
    {
      pending := Without(pending, id);
    }

    /** No push sent so far can release anything any more, and nothing owed changes. */
    method DiscardPendingPushes()
      modifies this
      ensures Abs() == Cleared(old(Abs()))
      ensures forall id :: Acknowledged(Abs(), id) == (Abs(), false)
    {
      pending := [];
    }

    method AcknowledgePush(id: nat) returns (matched: bool)
      modifies this
      ensures Acknowledged(old(Abs()), id) == (Abs(), matched)
    {
      var k := Find(pending, id);
      if k == |pending| {
        return false;
      }
      var watermark := pending[k].watermark;
      pending := Without(pending, id);
      changed := Above(changed, watermark);
      return true;
    }
  }

  /** One ACK over every integration: each releases by its own watermark, and the ACK is
      known if any of them had the push pending. */
  method AcknowledgeAll(runtimes: seq<IntegrationRuntime>, id: nat) returns (matched: bool)
    requires forall i, j :: 0 <= i < j < |runtimes| ==> runtimes[i] != runtimes[j]
    modifies set r | r in runtimes
    ensures forall i :: 0 <= i < |runtimes| ==> runtimes[i].Abs() == Acknowledged(old(runtimes[i].Abs()), id).0
    ensures matched <==> exists i :: 0 <= i < |runtimes| && Acknowledged(old(runtimes[i].Abs()), id).1
  {
    matched := false;
    for k := 0 to |runtimes|
      invariant forall i :: 0 <= i < k ==> runtimes[i].Abs() == Acknowledged(old(runtimes[i].Abs()), id).0
      invariant forall i :: k <= i < |runtimes| ==> runtimes[i].Abs() == old(runtimes[i].Abs())
      invariant matched <==> exists i :: 0 <= i < k && Acknowledged(old(runtimes[i].Abs()), id).1
    {
      var known := runtimes[k].AcknowledgePush(id);
      matched := matched || known;
    }
  }
}
