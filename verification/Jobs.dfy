/** Long-running commands on one connection: a bounded number of bodies at once, one
    terminal message each, and a shutdown that races results. Every step below is what
    runs between two awaits. */
module Jobs {
  import opened Prelude

  const MAX_CONCURRENT_JOBS: int := 6
  const QUOTA_COMMAND := "garage_bucket_set_quota"

  /** Where a task is suspended. `Queued` waits for a permit, `Parked` sleeps between
      attempts; `Trying`, `Asking`, `Sending` and `Hooked` hold a permit. */
  datatype Phase = Queued | Trying | Asking | Parked | Sending | Hooked | Over

  /** `cancelled`: cancellation was asked for and is delivered at the next await. */
  datatype Job = Job(rid: string, command: string, phase: Phase, attempts: nat, succeeded: bool, cancelled: bool)

  datatype Message =
    | Result(rid: string, job: nat, success: bool)
    | Cancelled(rid: string, command: string, job: nat)
    | Shed(rid: string)

  /** `active` and `untold` are fixed by the snapshot a shutdown takes. */
  datatype Close =
    | Idle
    | Settling(reasoned: bool, active: set<nat>, untold: set<nat>)
    | Telling(active: set<nat>, untold: set<nat>)

  /** The tasks in start order; `jobs` and `commands` by request id; `free` permits. */
  datatype Manager = Manager(
    tasks: seq<Job>, jobs: map<string, nat>, commands: map<string, string>, terminal: set<string>,
    free: int, running: int, quotaRunning: int, rejected: nat,
    closing: bool, close: Close, wire: seq<Message>)

  predicate Live(j: Job) { j.phase != Over }

  predicate Holds(j: Job) { j.phase in {Trying, Asking, Sending, Hooked} }

  predicate Attempted(j: Job) { j.phase in {Sending, Hooked} }

  predicate HoldsQuota(j: Job) { Holds(j) && j.command == QUOTA_COMMAND }

  predicate LiveQuota(j: Job) { Live(j) && j.command == QUOTA_COMMAND }

  function Count(tasks: seq<Job>, p: Job -> bool): nat {
    if tasks == [] then 0
    else Count(tasks[..|tasks| - 1], p) + if p(tasks[|tasks| - 1]) then 1 else 0
  }

  predicate Tells(m: Message, j: nat) { !m.Shed? && m.job == j }

  /** How many results and cancellations name a job. */
  function Terminals(wire: seq<Message>, j: nat): nat {
    if wire == [] then 0
    else Terminals(wire[..|wire| - 1], j) + if Tells(wire[|wire| - 1], j) then 1 else 0
  }

  // ---- Steps ------------------------------------------------------------------

  datatype Step =
    | Dispatch(rid: string, command: string)
    | Acquire(j: nat, admits: bool)                 // a permit, and whether the window is open
    | Return(j: nat, success: bool, granted: bool)  // the handler is done; its ask was granted
    | ProgressSent(j: nat)
    | Wake(j: nat)
    | ResultSent(j: nat)
    | HookDone(j: nat)
    | Land(j: nat)                                  // an exception or a cancellation ends the task
    | Reap(j: nat)                                  // the task's done callback
    | CloseCalled
    | Snapshot(reasoned: bool)                      // the shutdown lock is held
    | Settled                                       // every active task is over
    | Tell(j: nat)
    | Told
    | Abort                                         // the shutdown itself is cancelled

  predicate In(m: Manager, j: nat, phases: set<Phase>) { j < |m.tasks| && m.tasks[j].phase in phases }

  predicate Enabled(m: Manager, a: Step) {
    match a
    case Acquire(j, _) => In(m, j, {Queued}) && !m.tasks[j].cancelled && m.free > 0
    case Return(j, success, granted) => In(m, j, {Trying}) && (success ==> !granted)
    case ProgressSent(j) => In(m, j, {Asking}) && !m.tasks[j].cancelled
    case Wake(j) => In(m, j, {Parked}) && !m.tasks[j].cancelled
    case ResultSent(j) => In(m, j, {Sending})
    case HookDone(j) => In(m, j, {Hooked})
    case Land(j) => j < |m.tasks| && Live(m.tasks[j])
    case Reap(j) => In(m, j, {Over})
    case Snapshot(_) => m.closing && m.close.Idle?
    case Settled => m.close.Settling? && forall j :: j in m.close.active ==> In(m, j, {Over})
    case Tell(j) => m.close.Telling? && j in m.close.untold && j < |m.tasks|
    case Told => m.close.Telling? && m.close.untold == {}
    case Abort => !m.close.Idle?
    case _ => true
  }

  /** The quota jobs the manager's dicts name as accepted and not done. */
  function QuotaIds(m: Manager): set<string> {
    set r | r in m.jobs && m.jobs[r] < |m.tasks| && Live(m.tasks[m.jobs[r]])
            && r in m.commands && m.commands[r] == QUOTA_COMMAND
  }

  predicate QuotaAdmissionOpen(m: Manager) { !m.closing && |QuotaIds(m)| < MAX_CONCURRENT_JOBS }

  predicate Busy(m: Manager, rid: string) { rid in m.jobs && m.jobs[rid] < |m.tasks| && Live(m.tasks[m.jobs[rid]]) }

  function Started(m: Manager, rid: string, command: string): Manager {
    m.(tasks := m.tasks + [Job(rid, command, Queued, 0, false, false)],
       jobs := m.jobs[rid := |m.tasks|],
       commands := m.commands[rid := command],
       terminal := m.terminal - {rid})
  }

  /** The quota check and the start it guards share one step. */
  function Dispatched(m: Manager, rid: string, command: string): Manager {
    if command == QUOTA_COMMAND && !QuotaAdmissionOpen(m)
    then m.(rejected := m.rejected + 1, wire := m.wire + [Shed(rid)])
    else if m.closing || Busy(m, rid) then m
    else Started(m, rid, command)
  }

  function Entered(m: Manager, j: nat): Manager
    requires j < |m.tasks|
  {
    m.(free := m.free - 1, running := m.running + 1,
       quotaRunning := if m.tasks[j].command == QUOTA_COMMAND then m.quotaRunning + 1 else m.quotaRunning)
  }

  function Left(m: Manager, j: nat): Manager
    requires j < |m.tasks|
  {
    m.(free := m.free + 1, running := m.running - 1,
       quotaRunning := if m.tasks[j].command == QUOTA_COMMAND then m.quotaRunning - 1 else m.quotaRunning)
  }

  function To(m: Manager, j: nat, phase: Phase): Manager
    requires j < |m.tasks|
  {
    m.(tasks := m.tasks[j := m.tasks[j].(phase := phase)])
  }

  /** The one terminal result: committed before its send yields. */
  function SendResult(m: Manager, j: nat): Manager
    requires j < |m.tasks|
  {
    To(m, j, Sending).(terminal := m.terminal + {m.tasks[j].rid},
                       wire := m.wire + [Result(m.tasks[j].rid, j, m.tasks[j].succeeded)])
  }

  function Acquired(m: Manager, j: nat, admits: bool): Manager
    requires j < |m.tasks|
  {
    var job := m.tasks[j];
    if job.attempts == 0 || admits
    then Entered(m, j).(tasks := m.tasks[j := job.(phase := Trying, attempts := job.attempts + 1)])
    else SendResult(Entered(m, j), j)
  }

  function Returned(m: Manager, j: nat, success: bool, granted: bool): Manager
    requires j < |m.tasks|
  {
    var m' := m.(tasks := m.tasks[j := m.tasks[j].(succeeded := success)]);
    if m.closing then Left(To(m', j, Over), j)
    else if granted then To(m', j, Asking)
    else SendResult(m', j)
  }

  function Landed(m: Manager, j: nat): Manager
    requires j < |m.tasks|
  {
    if Holds(m.tasks[j]) then Left(To(m, j, Over), j) else To(m, j, Over)
  }

  function Reaped(m: Manager, j: nat): Manager
    requires j < |m.tasks|
  {
    var rid := m.tasks[j].rid;
    if rid !in m.jobs || m.jobs[rid] != j then m
    else m.(jobs := m.jobs - {rid}, commands := m.commands - {rid}, terminal := m.terminal - {rid})
  }

  function Active(m: Manager): set<nat> {
    set r | r in m.jobs && m.jobs[r] < |m.tasks| && Live(m.tasks[m.jobs[r]]) :: m.jobs[r]
  }

  function Unresolved(m: Manager): set<nat> {
    set r | r in m.jobs && m.jobs[r] < |m.tasks| && Live(m.tasks[m.jobs[r]]) && r !in m.terminal :: m.jobs[r]
  }

  function Shot(m: Manager, reasoned: bool): Manager {
    m.(tasks := seq(|m.tasks|, j requires 0 <= j < |m.tasks| =>
                      if j in Active(m) then m.tasks[j].(cancelled := true) else m.tasks[j]),
       close := Settling(reasoned, Active(m), Unresolved(m)))
  }

  function ToldOf(m: Manager, j: nat): Manager
    requires j < |m.tasks| && m.close.Telling?
  {
    var rid := m.tasks[j].rid;
    m.(close := Telling(m.close.active, m.close.untold - {j}),
       wire := m.wire + [Cancelled(rid, m.tasks[j].command, j)])
  }

  function Next(m: Manager, a: Step): Manager
    requires Enabled(m, a)
  {
    match a
    case Dispatch(rid, command) => Dispatched(m, rid, command)
    case Acquire(j, admits) => Acquired(m, j, admits)
    case Return(j, success, granted) => Returned(m, j, success, granted)
    case ProgressSent(j) => Left(To(m, j, Parked), j)
    case Wake(j) => To(m, j, Queued)
    case ResultSent(j) => if m.tasks[j].succeeded then To(m, j, Hooked) else Left(To(m, j, Over), j)
    case HookDone(j) => Left(To(m, j, Over), j)
    case Land(j) => Landed(m, j)
    case Reap(j) => Reaped(m, j)
    case CloseCalled => m.(closing := true)
    case Snapshot(reasoned) => Shot(m, reasoned)
    case Settled =>
      m.(close := if m.close.reasoned then Telling(m.close.active, m.close.untold) else Idle)
    case Tell(j) => ToldOf(m, j)
    case Told => m.(close := Idle)
    case Abort => m.(close := Idle)
  }

  // ---- Invariants -------------------------------------------------------------

  ghost predicate Counters(m: Manager) {
    && m.running == Count(m.tasks, Holds)
    && m.quotaRunning == Count(m.tasks, HoldsQuota)
    && m.free + m.running == MAX_CONCURRENT_JOBS && 0 <= m.free
  }

  /** The dicts name every live task by its request id. */
  ghost predicate Named(m: Manager) {
    && m.jobs.Keys == m.commands.Keys
    && (forall r :: r in m.jobs ==> m.jobs[r] < |m.tasks| && m.tasks[m.jobs[r]].rid == r)
    && (forall j :: 0 <= j < |m.tasks| && Live(m.tasks[j]) ==> Current(m, j))
  }

  predicate Current(m: Manager, j: nat) {
    && j < |m.tasks| && m.tasks[j].rid in m.jobs && m.jobs[m.tasks[j].rid] == j
    && m.tasks[j].rid in m.commands && m.commands[m.tasks[j].rid] == m.tasks[j].command
  }

  /** A live job has told its result exactly when it has attempted to. */
  predicate Heard(m: Manager, j: nat)
    requires j < |m.tasks|
  {
    var job, n := m.tasks[j], Terminals(m.wire, j);
    n <= 1 && (Live(job) ==> (n == 1 <==> Attempted(job)) && (Attempted(job) <==> job.rid in m.terminal))
  }

  ghost predicate HeardOnce(m: Manager) {
    && (forall j :: 0 <= j < |m.tasks| ==> Heard(m, j))
    && (forall j :: j >= |m.tasks| ==> Terminals(m.wire, j) == 0)
  }

  /** What a shutdown owes: one terminal message for each job its snapshot found. */
  predicate Owes(m: Manager, j: nat, untold: set<nat>)
    requires j < |m.tasks|
  {
    var job := m.tasks[j];
    && (Live(job) ==> job.cancelled)
    && (j in untold ==> Terminals(m.wire, j) == 0 && !Attempted(job))
    && (j !in untold ==> Terminals(m.wire, j) == 1)
  }

  ghost predicate Closes(m: Manager) {
    match m.close
    case Idle => true
    case Settling(_, active, untold) =>
      m.closing && untold <= active && forall j :: j in active ==> j < |m.tasks| && Owes(m, j, untold)
    case Telling(active, untold) =>
      m.closing && untold <= active
      && forall j :: j in active ==> j < |m.tasks| && !Live(m.tasks[j]) && Owes(m, j, untold)
  }

  ghost predicate Inv(m: Manager) { Counters(m) && Named(m) && HeardOnce(m) && Closes(m) && Quota(m) }

  ghost predicate Quota(m: Manager) { Count(m.tasks, LiveQuota) <= MAX_CONCURRENT_JOBS }

  // ---- Counting ---------------------------------------------------------------

  function One(b: bool): nat { if b then 1 else 0 }

  lemma {:induction false} CountUpdate(tasks: seq<Job>, p: Job -> bool, j: nat, job: Job)
    requires j < |tasks|
    ensures Count(tasks[j := job], p) == Count(tasks, p) - One(p(tasks[j])) + One(p(job))
    decreases |tasks|
  {
    var last := |tasks| - 1;
    var u := tasks[j := job];
    if j == last {
      assert u[..last] == tasks[..last];
    } else {
      assert u[..last] == tasks[..last][j := job];
      CountUpdate(tasks[..last], p, j, job);
    }
  }

  lemma CountAppend(tasks: seq<Job>, p: Job -> bool, job: Job)
    ensures Count(tasks + [job], p) == Count(tasks, p) + One(p(job))
  {
    assert (tasks + [job])[..|tasks|] == tasks;
  }

  lemma {:induction false} CountSame(a: seq<Job>, b: seq<Job>, p: Job -> bool)
    requires |a| == |b| && forall j :: 0 <= j < |a| ==> p(a[j]) == p(b[j])
    ensures Count(a, p) == Count(b, p)
  {
    if a != [] { CountSame(a[..|a| - 1], b[..|b| - 1], p); }
  }

  lemma TerminalsAppend(wire: seq<Message>, m: Message, j: nat)
    ensures Terminals(wire + [m], j) == Terminals(wire, j) + One(Tells(m, j))
  {
    assert (wire + [m])[..|wire|] == wire;
  }

  /** The dicts' count of accepted quota jobs is the number of live ones. */
  lemma QuotaIdsCount(m: Manager)
    requires Named(m)
    ensures |QuotaIds(m)| == Count(m.tasks, LiveQuota)
  {
    QuotaIdsUpTo(m, |m.tasks|);
    var up := UpTo(m, |m.tasks|);
    assert m.tasks[..|m.tasks|] == m.tasks;
    forall r | r in QuotaIds(m) ensures r in up { assert LiveQuota(m.tasks[m.jobs[r]]); }
    forall r | r in up ensures r in QuotaIds(m) {
      var j :| 0 <= j < |m.tasks| && LiveQuota(m.tasks[j]) && m.tasks[j].rid == r;
      assert Current(m, j);
    }
    assert QuotaIds(m) == up;
  }

  function UpTo(m: Manager, n: nat): set<string>
    requires n <= |m.tasks|
  {
    set j | 0 <= j < n && LiveQuota(m.tasks[j]) :: m.tasks[j].rid
  }

  lemma {:induction false} QuotaIdsUpTo(m: Manager, n: nat)
    requires Named(m) && n <= |m.tasks|
    ensures |UpTo(m, n)| == Count(m.tasks[..n], LiveQuota)
  {
    if n > 0 {
      QuotaIdsUpTo(m, n - 1);
      assert m.tasks[..n][..n - 1] == m.tasks[..n - 1];
      OneMoreId(m, n);
    }
  }

  lemma OneMoreId(m: Manager, n: nat)
    requires Named(m) && 0 < n <= |m.tasks|
    ensures |UpTo(m, n)| == |UpTo(m, n - 1)| + One(LiveQuota(m.tasks[n - 1]))
  {
    if LiveQuota(m.tasks[n - 1]) {
      OneMore(m, n);
    } else {
      assert UpTo(m, n) == UpTo(m, n - 1);
    }
  }

  // ---- What each step keeps ---------------------------------------------------

  lemma CountsUpdate(m: Manager, j: nat, job: Job)
    requires j < |m.tasks|
    ensures Count(m.tasks[j := job], Holds) == Count(m.tasks, Holds) - One(Holds(m.tasks[j])) + One(Holds(job))
    ensures Count(m.tasks[j := job], HoldsQuota)
              == Count(m.tasks, HoldsQuota) - One(HoldsQuota(m.tasks[j])) + One(HoldsQuota(job))
    ensures Count(m.tasks[j := job], LiveQuota)
              == Count(m.tasks, LiveQuota) - One(LiveQuota(m.tasks[j])) + One(LiveQuota(job))
  {
    CountUpdate(m.tasks, Holds, j, job);
    CountUpdate(m.tasks, HoldsQuota, j, job);
    CountUpdate(m.tasks, LiveQuota, j, job);
  }

  function Of(a: Step): Option<nat> {
    match a
    case Acquire(j, _) => Some(j)
    case Return(j, _, _) => Some(j)
    case ProgressSent(j) => Some(j)
    case Wake(j) => Some(j)
    case ResultSent(j) => Some(j)
    case HookDone(j) => Some(j)
    case Land(j) => Some(j)
    case _ => None
  }

  /** One live task goes from one await to the next, perhaps sending its result. */
  predicate Moves(m: Manager, m': Manager, j: nat, sends: bool) {
    && j < |m.tasks| && |m'.tasks| == |m.tasks|
    && var x, x' := m.tasks[j], m'.tasks[j];
    && Live(x) && m'.tasks == m.tasks[j := x']
    && x'.rid == x.rid && x'.command == x.command && x'.cancelled == x.cancelled
    && m'.jobs == m.jobs && m'.commands == m.commands && m'.closing == m.closing && m'.close == m.close
    && m'.terminal == (if sends then m.terminal + {x.rid} else m.terminal)
    && m'.wire == (if sends then m.wire + [Result(x.rid, j, x'.succeeded)] else m.wire)
    && m'.free == m.free + One(Holds(x)) - One(Holds(x'))
    && m'.running == m.running - One(Holds(x)) + One(Holds(x'))
    && m'.quotaRunning == m.quotaRunning - One(HoldsQuota(x)) + One(HoldsQuota(x'))
    && (sends ==> !Attempted(x) && Attempted(x') && !(x.cancelled && m.closing))
    && (!sends && Live(x') ==> (Attempted(x') <==> Attempted(x)))
    && 0 <= m'.free
  }

  lemma StepMoves(m: Manager, a: Step)
    requires Inv(m) && Enabled(m, a) && Of(a).Some?
    ensures var m' := Next(m, a); Moves(m, m', Of(a).value, |m'.wire| > |m.wire|)
  {
    match a
    case Acquire(j, admits) => AcquireMoves(m, j, admits);
    case Return(j, success, granted) => ReturnMoves(m, j, success, granted);
    case ProgressSent(j) => ParkMoves(m, j);
    case Wake(j) => WakeMoves(m, j);
    case ResultSent(j) => SentMoves(m, j);
    case HookDone(j) => HookMoves(m, j);
    case Land(j) => LandMoves(m, j);
  }

  lemma ParkMoves(m: Manager, j: nat)
    requires Enabled(m, ProgressSent(j)) && 0 <= m.free
    ensures Moves(m, Next(m, ProgressSent(j)), j, false)
  {
  }

  lemma WakeMoves(m: Manager, j: nat)
    requires Enabled(m, Wake(j)) && 0 <= m.free
    ensures Moves(m, Next(m, Wake(j)), j, false)
  {
  }

  lemma SentMoves(m: Manager, j: nat)
    requires Enabled(m, ResultSent(j)) && 0 <= m.free
    ensures Moves(m, Next(m, ResultSent(j)), j, false)
  {
  }

  lemma HookMoves(m: Manager, j: nat)
    requires Enabled(m, HookDone(j)) && 0 <= m.free
    ensures Moves(m, Next(m, HookDone(j)), j, false)
  {
  }

  lemma LandMoves(m: Manager, j: nat)
    requires Enabled(m, Land(j)) && 0 <= m.free
    ensures Moves(m, Next(m, Land(j)), j, false)
  {
  }

  lemma AcquireMoves(m: Manager, j: nat, admits: bool)
    requires Enabled(m, Acquire(j, admits))
    ensures var m' := Acquired(m, j, admits); Moves(m, m', j, |m'.wire| > |m.wire|)
  {
  }

  lemma ReturnMoves(m: Manager, j: nat, success: bool, granted: bool)
    requires Enabled(m, Return(j, success, granted)) && 0 <= m.free
    ensures var m' := Returned(m, j, success, granted); Moves(m, m', j, |m'.wire| > |m.wire|)
  {
    var m' := Returned(m, j, success, granted);
    assert m'.tasks == m.tasks[j := m'.tasks[j]];
  }

  lemma MoveKeepsCounts(m: Manager, m': Manager, j: nat, sends: bool)
    requires Inv(m) && Moves(m, m', j, sends)
    ensures Counters(m') && Quota(m')
  {
    CountsUpdate(m, j, m'.tasks[j]);
  }

  lemma MoveKeepsNames(m: Manager, m': Manager, j: nat, sends: bool)
    requires Named(m) && Moves(m, m', j, sends)
    ensures Named(m')
  {
    forall i | 0 <= i < |m'.tasks| && Live(m'.tasks[i]) ensures Current(m', i) {
      assert Live(m.tasks[i]) && Current(m, i);
    }
  }

  lemma ResultCounts(m: Manager, m': Manager, j: nat, sends: bool, i: nat)
    requires Moves(m, m', j, sends)
    ensures Terminals(m'.wire, i) == Terminals(m.wire, i) + One(sends && i == j)
  {
    TerminalsAppend(m.wire, Result(m.tasks[j].rid, j, m'.tasks[j].succeeded), i);
  }

  lemma MoveKeepsTold(m: Manager, m': Manager, j: nat, sends: bool)
    requires Named(m) && HeardOnce(m) && Moves(m, m', j, sends)
    ensures HeardOnce(m')
  {
    forall i: nat ensures if i < |m'.tasks| then Heard(m', i) else Terminals(m'.wire, i) == 0 {
      ResultCounts(m, m', j, sends, i);
      if i < |m.tasks| {
        assert Heard(m, i) && Heard(m, j);
        assert Current(m, j) && (Live(m.tasks[i]) ==> Current(m, i));
      }
    }
  }

  lemma MoveKeepsCloses(m: Manager, m': Manager, j: nat, sends: bool)
    requires HeardOnce(m) && Closes(m) && Moves(m, m', j, sends)
    ensures Closes(m')
  {
    if !m.close.Idle? {
      var active, untold := m.close.active, m.close.untold;
      forall i | i in active
        ensures i < |m'.tasks| && Owes(m', i, untold) && (m.close.Telling? ==> !Live(m'.tasks[i])) {
        assert Owes(m, i, untold) && Heard(m, j);
        ResultCounts(m, m', j, sends, i);
      }
    }
  }

  lemma MoveKeeps(m: Manager, a: Step)
    requires Inv(m) && Enabled(m, a) && Of(a).Some?
    ensures Inv(Next(m, a))
  {
    var m', j := Next(m, a), Of(a).value;
    var sends := |m'.wire| > |m.wire|;
    StepMoves(m, a);
    MoveKeepsCounts(m, m', j, sends);
    MoveKeepsNames(m, m', j, sends);
    MoveKeepsTold(m, m', j, sends);
    MoveKeepsCloses(m, m', j, sends);
  }

  lemma StartedKeeps(m: Manager, rid: string, command: string)
    requires Inv(m) && !m.closing && !Busy(m, rid)
    requires command == QUOTA_COMMAND ==> Count(m.tasks, LiveQuota) < MAX_CONCURRENT_JOBS
    ensures Inv(Started(m, rid, command))
  {
    var m', job := Started(m, rid, command), Job(rid, command, Queued, 0, false, false);
    CountAppend(m.tasks, Holds, job);
    CountAppend(m.tasks, HoldsQuota, job);
    CountAppend(m.tasks, LiveQuota, job);
    forall j | 0 <= j < |m'.tasks| && Live(m'.tasks[j]) ensures Current(m', j) {
      assert j < |m.tasks| ==> Current(m, j);
    }
    forall j | 0 <= j < |m'.tasks| ensures Heard(m', j) {
      if j < |m.tasks| {
        assert Heard(m, j) && (Live(m.tasks[j]) ==> Current(m, j));
      }
    }
  }

  lemma ShedKeeps(m: Manager, rid: string)
    requires Inv(m)
    ensures Inv(m.(rejected := m.rejected + 1, wire := m.wire + [Shed(rid)]))
  {
    var m' := m.(rejected := m.rejected + 1, wire := m.wire + [Shed(rid)]);
    forall j: nat ensures Terminals(m'.wire, j) == Terminals(m.wire, j) { TerminalsAppend(m.wire, Shed(rid), j); }
    assert forall j :: 0 <= j < |m.tasks| ==> Heard(m, j) ==> Heard(m', j);
    if !m.close.Idle? {
      assert forall j :: j in m.close.active ==> Owes(m, j, m.close.untold) ==> Owes(m', j, m.close.untold);
    }
  }

  lemma ReapedKeeps(m: Manager, j: nat)
    requires Inv(m) && Enabled(m, Reap(j))
    ensures Inv(Reaped(m, j))
  {
    var m' := Reaped(m, j);
    forall i | 0 <= i < |m'.tasks| && Live(m'.tasks[i]) ensures Current(m', i) {
      assert Current(m, i);
    }
    forall i | 0 <= i < |m'.tasks| ensures Heard(m', i) {
      assert Heard(m, i) && (Live(m.tasks[i]) ==> Current(m, i));
    }
    if !m.close.Idle? {
      assert forall i :: i in m.close.active ==> Owes(m, i, m.close.untold) ==> Owes(m', i, m.close.untold);
    }
  }

  lemma ShotTasks(m: Manager, reasoned: bool)
    ensures var t, t' := m.tasks, Shot(m, reasoned).tasks;
            |t'| == |t| && forall j :: 0 <= j < |t| ==>
              t'[j] == t[j].(cancelled := t[j].cancelled || j in Active(m))
  {
  }

  lemma ShotKeepsRest(m: Manager, reasoned: bool)
    requires Inv(m)
    ensures var m' := Shot(m, reasoned); Counters(m') && Quota(m') && Named(m') && HeardOnce(m')
  {
    var m' := Shot(m, reasoned);
    ShotTasks(m, reasoned);
    CountSame(m.tasks, m'.tasks, Holds);
    CountSame(m.tasks, m'.tasks, HoldsQuota);
    CountSame(m.tasks, m'.tasks, LiveQuota);
    assert forall i :: 0 <= i < |m'.tasks| ==> (Heard(m, i) ==> Heard(m', i)) && (Current(m, i) ==> Current(m', i));
  }

  lemma InActive(m: Manager, j: nat)
    requires Inv(m) && j in Active(m)
    ensures j < |m.tasks| && Live(m.tasks[j]) && Heard(m, j)
    ensures j in Unresolved(m) <==> Terminals(m.wire, j) == 0
    ensures j in Unresolved(m) <==> !Attempted(m.tasks[j])
  {
    var r :| r in m.jobs && m.jobs[r] == j && m.jobs[r] < |m.tasks| && Live(m.tasks[m.jobs[r]]);
    assert Heard(m, j) && m.tasks[j].rid == r;
  }

  lemma ShotKeeps(m: Manager, reasoned: bool)
    requires Inv(m) && Enabled(m, Snapshot(reasoned))
    ensures Inv(Shot(m, reasoned))
  {
    var m' := Shot(m, reasoned);
    ShotKeepsRest(m, reasoned);
    ShotTasks(m, reasoned);
    forall j | j in Active(m) ensures j < |m'.tasks| && Owes(m', j, Unresolved(m)) {
      InActive(m, j);
    }
  }

  lemma ToldOfKeeps(m: Manager, j: nat)
    requires Inv(m) && Enabled(m, Tell(j))
    ensures Inv(ToldOf(m, j))
  {
    var m' := ToldOf(m, j);
    var msg := Cancelled(m.tasks[j].rid, m.tasks[j].command, j);
    forall i: nat
      ensures Terminals(m'.wire, i) == Terminals(m.wire, i) + One(i == j) { TerminalsAppend(m.wire, msg, i); }
    assert Owes(m, j, m.close.untold);
    forall i | 0 <= i < |m'.tasks| ensures Heard(m', i) { assert Heard(m, i); }
    forall i | i in m.close.active ensures Owes(m', i, m'.close.untold) { assert Owes(m, i, m.close.untold); }
    assert forall i :: 0 <= i < |m.tasks| && Live(m.tasks[i]) ==> Current(m, i) ==> Current(m', i);
  }

  lemma StepKeeps(m: Manager, a: Step)
    requires Inv(m) && Enabled(m, a)
    ensures Inv(Next(m, a))
  {
    match a
    case Dispatch(rid, command) =>
      QuotaIdsCount(m);
      if command == QUOTA_COMMAND && !QuotaAdmissionOpen(m) {
        ShedKeeps(m, rid);
      } else if !m.closing && !Busy(m, rid) {
        StartedKeeps(m, rid, command);
      }
    case Reap(j) => ReapedKeeps(m, j);
    case Snapshot(reasoned) => ShotKeeps(m, reasoned);
    case Tell(j) => ToldOfKeeps(m, j);
    case CloseCalled => FlagKeeps(m, Next(m, a));
    case Settled => FlagKeeps(m, Next(m, a));
    case Told => FlagKeeps(m, Next(m, a));
    case Abort => FlagKeeps(m, Next(m, a));
    case _ => MoveKeeps(m, a);
  }

  lemma OneMore(m: Manager, n: nat)
    requires Named(m) && 0 < n <= |m.tasks| && LiveQuota(m.tasks[n - 1])
    ensures UpTo(m, n) == UpTo(m, n - 1) + {m.tasks[n - 1].rid} && m.tasks[n - 1].rid !in UpTo(m, n - 1)
  {
    assert Current(m, n - 1);
    assert forall i :: 0 <= i < n - 1 && LiveQuota(m.tasks[i]) ==>
                 Current(m, i) && m.tasks[i].rid != m.tasks[n - 1].rid;
  }

  /** Only the shutdown's own progress changes. */
  lemma FlagKeeps(m: Manager, m': Manager)
    requires Inv(m) && m' == m.(closing := m'.closing, close := m'.close) && (m.closing ==> m'.closing)
    requires m'.close == m.close || m'.close.Idle? || (Enabled(m, Settled) && m' == Next(m, Settled))
    ensures Inv(m')
  {
    assert forall i :: 0 <= i < |m.tasks| ==> Heard(m, i) ==> Heard(m', i);
    assert forall i :: 0 <= i < |m.tasks| ==> Current(m, i) ==> Current(m', i);
    if !m.close.Idle? {
      assert forall i :: i in m.close.active ==> Owes(m, i, m.close.untold) ==> Owes(m', i, m.close.untold);
    }
  }

  // ---- Every run --------------------------------------------------------------

  function Start(): Manager { Manager([], map[], map[], {}, MAX_CONCURRENT_JOBS, 0, 0, 0, false, Idle, []) }

  predicate IsRun(m: Manager, steps: seq<Step>)
    decreases |steps|
  {
    steps == [] || (Enabled(m, steps[0]) && IsRun(Next(m, steps[0]), steps[1..]))
  }

  function After(m: Manager, steps: seq<Step>): Manager
    requires IsRun(m, steps)
    decreases |steps|
  {
    if steps == [] then m else After(Next(m, steps[0]), steps[1..])
  }

  lemma {:induction false} RunKeeps(m: Manager, steps: seq<Step>)
    requires Inv(m) && IsRun(m, steps)
    ensures Inv(After(m, steps))
    decreases |steps|
  {
    if steps != [] {
      StepKeeps(m, steps[0]);
      RunKeeps(Next(m, steps[0]), steps[1..]);
    }
  }

  /** The running counters are the jobs holding a permit, at most six of them, and at most
      six accepted quota jobs are ever unfinished. */
  lemma PermitsAndQuotas(steps: seq<Step>)
    requires IsRun(Start(), steps)
    ensures var m := After(Start(), steps);
            && m.running == Count(m.tasks, Holds) <= MAX_CONCURRENT_JOBS
            && m.quotaRunning == Count(m.tasks, HoldsQuota)
            && Count(m.tasks, LiveQuota) <= MAX_CONCURRENT_JOBS
  {
    RunKeeps(Start(), steps);
  }

  /** No job is ever told more than one terminal message: at most one result attempt, at
      most one cancellation, never both. */
  lemma OneTerminalEach(steps: seq<Step>, i: nat, k: nat, j: nat)
    requires IsRun(Start(), steps)
    requires var wire := After(Start(), steps).wire;
             i < k < |wire| && Tells(wire[i], j)
    ensures !Tells(After(Start(), steps).wire[k], j)
  {
    RunKeeps(Start(), steps);
    var m := After(Start(), steps);
    assert Terminals(m.wire, j) <= 1 by { assert j < |m.tasks| ==> Heard(m, j); }
    if Tells(m.wire[k], j) {
      TerminalsTwo(m.wire, i, k, j);
    }
  }

  lemma {:induction false} TerminalsTwo(wire: seq<Message>, i: nat, k: nat, j: nat)
    requires i < k < |wire| && Tells(wire[i], j) && Tells(wire[k], j)
    ensures Terminals(wire, j) >= 2
  {
    var last := |wire| - 1;
    if k < last {
      TerminalsTwo(wire[..last], i, k, j);
    } else {
      TerminalsOne(wire[..last], i, j);
    }
  }

  lemma {:induction false} TerminalsOne(wire: seq<Message>, i: nat, j: nat)
    requires i < |wire| && Tells(wire[i], j)
    ensures Terminals(wire, j) >= 1
  {
    var last := |wire| - 1;
    if i < last { TerminalsOne(wire[..last], i, j); }
  }

  /** No step of `steps` ends the shutdown. */
  predicate Continues(steps: seq<Step>) { forall i :: 0 <= i < |steps| ==> steps[i] !in {Told, Abort} }

  predicate Answering(c: Close, active: set<nat>) {
    match c
    case Idle => false
    case Settling(reasoned, a, _) => reasoned && a == active
    case Telling(a, _) => a == active
  }

  lemma {:induction false} AnsweringGoesOn(m: Manager, steps: seq<Step>, active: set<nat>)
    requires IsRun(m, steps) && Continues(steps) && Answering(m.close, active)
    ensures Answering(After(m, steps).close, active)
    decreases |steps|
  {
    if steps != [] {
      assert steps[0] !in {Told, Abort};
      assert Answering(Next(m, steps[0]).close, active);
      assert Continues(steps[1..]) by { assert forall i :: 0 <= i < |steps| - 1 ==> steps[1..][i] == steps[i + 1]; }
      AnsweringGoesOn(Next(m, steps[0]), steps[1..], active);
    }
  }

  lemma {:induction false} RunThen(m: Manager, first: seq<Step>, second: seq<Step>)
    requires IsRun(m, first)
    ensures IsRun(m, first + second) <==> IsRun(After(m, first), second)
    ensures IsRun(m, first + second) ==> After(m, first + second) == After(After(m, first), second)
    decreases |first|
  {
    if first == [] {
      assert first + second == second;
    } else {
      assert (first + second)[1..] == first[1..] + second;
      RunThen(Next(m, first[0]), first[1..], second);
    }
  }

  /** A shutdown with a reason that runs to its end leaves every job it found unfinished
      over, and each with exactly one terminal message, whatever its handler did with the
      cancellation; another shutdown may then follow. */
  lemma ShutdownAnswersAll(before: seq<Step>, during: seq<Step>, j: nat)
    requires IsRun(Start(), before + [Snapshot(true)] + during) && Continues(during)
    requires Enabled(After(Start(), before + [Snapshot(true)] + during), Told)
    requires IsRun(Start(), before)
    requires j < |After(Start(), before).tasks| && Live(After(Start(), before).tasks[j])
    ensures var m := After(Start(), before + [Snapshot(true)] + during);
            && j < |m.tasks| && !Live(m.tasks[j]) && Terminals(m.wire, j) == 1
            && Enabled(Next(m, Told), Snapshot(true))
  {
    var steps := before + [Snapshot(true)] + during;
    var m0 := After(Start(), before);
    assert steps == before + ([Snapshot(true)] + during);
    RunThen(Start(), before, [Snapshot(true)] + during);
    assert ([Snapshot(true)] + during)[1..] == during;
    var m1 := Next(m0, Snapshot(true));
    AnsweringGoesOn(m1, during, Active(m0));
    RunKeeps(Start(), before);
    RunKeeps(Start(), steps);
    var m := After(Start(), steps);
    assert m == After(m1, during);
    assert Current(m0, j);
    assert j in Active(m0);
    assert Owes(m, j, {});
  }

  /** Once admission has closed no task is ever created, and once a task is over it
      stays over. */
  lemma {:induction false} NothingStartsAfterClosing(m: Manager, steps: seq<Step>)
    requires m.closing && IsRun(m, steps)
    ensures var m' := After(m, steps);
            && m'.closing && |m'.tasks| == |m.tasks|
            && forall j :: 0 <= j < |m.tasks| && !Live(m.tasks[j]) ==> !Live(m'.tasks[j])
    decreases |steps|
  {
    if steps != [] {
      var next := Next(m, steps[0]);
      assert next.closing && |next.tasks| == |m.tasks|;
      assert forall j :: 0 <= j < |m.tasks| && !Live(m.tasks[j]) ==> !Live(next.tasks[j]);
      NothingStartsAfterClosing(next, steps[1..]);
    }
  }

  // ---- The manager ------------------------------------------------------------

  class JobManager {
    var tasks: seq<Job>
    var jobs: map<string, nat>
    var commands: map<string, string>
    var terminal: set<string>
    var free: int
    var running: int
    var quotaRunning: int
    var rejected: nat
    var closing: bool
    var close: Close
    var wire: seq<Message>

    function Abs(): Manager
      reads this
    {
      Manager(tasks, jobs, commands, terminal, free, running, quotaRunning, rejected, closing, close, wire)
    }

    constructor ()
      ensures Abs() == Start()
    {
      tasks, jobs, commands, terminal, wire := [], map[], map[], {}, [];
      free, running, quotaRunning, rejected := MAX_CONCURRENT_JOBS, 0, 0, 0;
      closing, close := false, Idle;
    }

    /** Accepted quota jobs not done, counted over the dicts. */
    method QuotaPending() returns (n: nat)
      requires Named(Abs())
      ensures n == Count(tasks, LiveQuota) == |QuotaIds(Abs())|
    {
      QuotaIdsCount(Abs());
      ghost var ids := QuotaIds(Abs());
      n := 0;
      var left := jobs.Keys;
      while left != {}
        invariant left <= jobs.Keys
        invariant n == |ids - left|
        decreases left
      {
        var r :| r in left;
        OneFewer(ids, left, r);
        if Live(tasks[jobs[r]]) && commands[r] == QUOTA_COMMAND {
          n := n + 1;
        }
        left := left - {r};
      }
      assert ids - {} == ids;
    }

    /** The quota ceiling. */
    method ShouldShedQuota(command: string) returns (shed: bool)
      requires Named(Abs())
      ensures shed <==> command == QUOTA_COMMAND && !QuotaAdmissionOpen(Abs())
    {
      if command != QUOTA_COMMAND || closing {
        return command == QUOTA_COMMAND;
      }
      var pending := QuotaPending();
      return pending >= MAX_CONCURRENT_JOBS;
    }

    /** The one admission gate. */
    method StartJob(rid: string, command: string) returns (accepted: bool)
      requires Named(Abs())
      modifies this
      ensures accepted <==> !old(closing) && !Busy(old(Abs()), rid)
      ensures Abs() == if accepted then Started(old(Abs()), rid, command) else old(Abs())
    {
      if closing || (rid in jobs && Live(tasks[jobs[rid]])) {
        return false;
      }
      jobs, commands := jobs[rid := |tasks|], commands[rid := command];
      tasks := tasks + [Job(rid, command, Queued, 0, false, false)];
      terminal := terminal - {rid};
      return true;
    }

    method Dispatch(rid: string, command: string) returns (accepted: bool)
      requires Named(Abs())
      modifies this
      ensures Abs() == Dispatched(old(Abs()), rid, command)
      ensures accepted ==> Abs() == Started(old(Abs()), rid, command)
    {
      var shed := ShouldShedQuota(command);
      if shed {
        rejected, wire := rejected + 1, wire + [Shed(rid)];
        return false;
      }
      accepted := StartJob(rid, command);
    }

    /** The task's done callback, which may run after its request id was started again. */
    method FinishJob(j: nat)
      requires j < |tasks|
      modifies this
      ensures Abs() == Reaped(old(Abs()), j)
    {
      var rid := tasks[j].rid;
      if rid !in jobs || jobs[rid] != j {
        return;
      }
      jobs, commands, terminal := jobs - {rid}, commands - {rid}, terminal - {rid};
    }

    method EnterPermit(j: nat)
      requires j < |tasks|
      modifies this`free, this`running, this`quotaRunning
      ensures Abs() == Entered(old(Abs()), j)
    {
      free, running := free - 1, running + 1;
      if tasks[j].command == QUOTA_COMMAND {
        quotaRunning := quotaRunning + 1;
      }
    }

    /** Runs on normal exit, crash and cancellation alike. */
    method LeavePermit(j: nat)
      requires j < |tasks|
      modifies this`free, this`running, this`quotaRunning
      ensures Abs() == Left(old(Abs()), j)
    {
      running := running - 1;
      if tasks[j].command == QUOTA_COMMAND {
        quotaRunning := quotaRunning - 1;
      }
      free := free + 1;
    }

    method BeginResult(j: nat)
      requires j < |tasks|
      modifies this`tasks, this`terminal, this`wire
      ensures Abs() == SendResult(old(Abs()), j)
    {
      terminal := terminal + {tasks[j].rid};
      wire := wire + [Result(tasks[j].rid, j, tasks[j].succeeded)];
      tasks := tasks[j := tasks[j].(phase := Sending)];
    }

    /** From the permit to the handler, or straight to the result once the window shut. */
    method Acquire(j: nat, admits: bool)
      requires Enabled(Abs(), Step.Acquire(j, admits))
      modifies this
      ensures Abs() == Next(old(Abs()), Step.Acquire(j, admits))
    {
      EnterPermit(j);
      var job := tasks[j];
      if job.attempts == 0 || admits {
        tasks := tasks[j := job.(phase := Trying, attempts := job.attempts + 1)];
      } else {
        BeginResult(j);
      }
    }

    /** From the handler's outcome to the next await. */
    method Return(j: nat, success: bool, granted: bool)
      requires Enabled(Abs(), Step.Return(j, success, granted))
      modifies this
      ensures Abs() == Next(old(Abs()), Step.Return(j, success, granted))
    {
      tasks := tasks[j := tasks[j].(succeeded := success)];
      if closing {
        tasks := tasks[j := tasks[j].(phase := Over)];
        LeavePermit(j);
      } else if granted {
        tasks := tasks[j := tasks[j].(phase := Asking)];
      } else {
        BeginResult(j);
      }
    }

    /** The values of some request ids that are not done. */
    method NotDone(rids: set<string>) returns (found: set<nat>)
      requires Named(Abs()) && rids <= jobs.Keys
      ensures found == Seen(Abs(), rids)
    {
      found := {};
      var left := rids;
      assert rids - left == {};
      while left != {}
        invariant left <= rids
        invariant found == Seen(Abs(), rids - left)
        decreases left
      {
        var r :| r in left;
        SeenOneMore(Abs(), rids - left, r);
        if Live(tasks[jobs[r]]) {
          found := found + {jobs[r]};
        }
        assert rids - (left - {r}) == rids - left + {r};
        left := left - {r};
      }
      assert rids - {} == rids;
    }

    method CancelEach(active: set<nat>)
      requires forall j :: j in active ==> j < |tasks|
      modifies this`tasks
      ensures |tasks| == |old(tasks)|
      ensures forall j :: 0 <= j < |tasks| ==>
                tasks[j] == old(tasks)[j].(cancelled := old(tasks)[j].cancelled || j in active)
    {
      var left := active;
      while left != {}
        invariant left <= active && |tasks| == |old(tasks)|
        invariant forall j :: 0 <= j < |tasks| ==>
                    tasks[j] == old(tasks)[j].(cancelled := old(tasks)[j].cancelled || j in active - left)
        decreases left
      {
        var j :| j in left;
        tasks := tasks[j := tasks[j].(cancelled := true)];
        left := left - {j};
      }
    }

    /** What is active, what of it is unresolved, then the cancels. */
    method SnapshotActive(reasoned: bool)
      requires Named(Abs()) && Enabled(Abs(), Step.Snapshot(reasoned))
      modifies this`tasks, this`close
      ensures Abs() == Next(old(Abs()), Step.Snapshot(reasoned))
    {
      ghost var m := Abs();
      var active := NotDone(jobs.Keys);
      var unresolved := NotDone(jobs.Keys - terminal);
      assert active == Active(m) && unresolved == Unresolved(m);
      CancelEach(active);
      ShotTasks(m, reasoned);
      assert tasks == Shot(m, reasoned).tasks;
      close := Settling(reasoned, active, unresolved);
    }
  }

  lemma OneFewer(ids: set<string>, left: set<string>, r: string)
    requires r in left
    ensures |ids - (left - {r})| == |ids - left| + One(r in ids)
  {
    if r in ids {
      assert ids - (left - {r}) == ids - left + {r};
    } else {
      assert ids - (left - {r}) == ids - left;
    }
  }

  ghost function Seen(m: Manager, rids: set<string>): set<nat> {
    set r | r in rids && r in m.jobs && m.jobs[r] < |m.tasks| && Live(m.tasks[m.jobs[r]]) :: m.jobs[r]
  }

  lemma SeenOneMore(m: Manager, rids: set<string>, r: string)
    requires r in m.jobs && m.jobs[r] < |m.tasks|
    ensures Seen(m, rids + {r}) == Seen(m, rids) + if Live(m.tasks[m.jobs[r]]) then {m.jobs[r]} else {}
  {
    forall j | j in Seen(m, rids) ensures j in Seen(m, rids + {r}) {
      var q :| q in rids && q in m.jobs && m.jobs[q] < |m.tasks| && Live(m.tasks[m.jobs[q]]) && m.jobs[q] == j;
      assert q in rids + {r};
    }
    assert r in rids + {r};
  }
}
