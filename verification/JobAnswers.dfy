/** What a run of the job manager answers, told from the steps taken and the wire alone:
    which steps finish a job, what its one result says, and what goes on unanswered. */
module JobAnswers {
  import opened Prelude
  import opened Jobs

  // ---- The history of one job -------------------------------------------------

  /** The job held a permit before. */
  predicate Tried(past: seq<Step>, j: nat) { exists k :: 0 <= k < |past| && past[k].Acquire? && past[k].j == j }

  /** What the job's last attempt came to; false before any did. */
  function LastOutcome(past: seq<Step>, j: nat): bool
    decreases |past|
  {
    if past == [] then false
    else
      var a := past[|past| - 1];
      if a.Return? && a.j == j then a.success else LastOutcome(past[..|past| - 1], j)
  }

  /** A step that calls for the job's result: an outcome with no granted ask, or a permit
      after the first that finds the window shut; nothing once admission has closed, except
      for a job that then waits for a permit. */
  predicate Finishes(past: seq<Step>, a: Step, j: nat) {
    match a
    case Return(i, _, granted) => i == j && !granted && CloseCalled !in past
    case Acquire(i, admits) => i == j && !admits && Tried(past, j)
    case _ => false
  }

  predicate Finished(past: seq<Step>, j: nat)
    decreases |past|
  {
    past != [] && (Finished(past[..|past| - 1], j) || Finishes(past[..|past| - 1], past[|past| - 1], j))
  }

  /** What the results on the wire that name the job say, in order. */
  function Results(wire: seq<Message>, j: nat): seq<bool> {
    if wire == [] then []
    else
      var m := wire[|wire| - 1];
      Results(wire[..|wire| - 1], j) + if m.Result? && m.job == j then [m.success] else []
  }

  // ---- The run and its history agree ------------------------------------------

  /** Where a job is, as far as its history tells. */
  predicate TracedAt(past: seq<Step>, m: Manager, j: nat)
    requires j < |m.tasks|
  {
    var job := m.tasks[j];
    && (job.attempts > 0 <==> Tried(past, j))
    && job.succeeded == LastOutcome(past, j)
    && Results(m.wire, j) == (if Finished(past, j) then [LastOutcome(past, j)] else [])
    && (Finished(past, j) ==> job.phase in {Sending, Hooked, Over})
    && (job.phase in {Sending, Hooked} ==> Finished(past, j))
    && (job.phase in {Trying, Asking, Parked} ==> Tried(past, j))
    && (job.phase == Hooked ==> LastOutcome(past, j))
    && (job.phase == Over ==> Finished(past, j) || Land(j) in past || CloseCalled in past)
    && (job.phase == Over && Land(j) !in past && Finished(past, j) ==>
          (LastOutcome(past, j) <==> HookDone(j) in past))
    && (HookDone(j) in past ==> job.phase == Over)
  }

  predicate Unnamed(past: seq<Step>, j: nat) { forall k :: 0 <= k < |past| ==> Of(past[k]) != Some(j) }

  ghost predicate Traced(past: seq<Step>, m: Manager) {
    && (m.closing <==> CloseCalled in past)
    && (forall j :: 0 <= j < |m.tasks| ==> TracedAt(past, m, j))
    && (forall j :: j >= |m.tasks| ==> Unnamed(past, j) && Results(m.wire, j) == [])
  }

  lemma Snoc(past: seq<Step>, a: Step)
    ensures (past + [a])[..|past|] == past && (past + [a])[|past|] == a
    ensures forall b :: b in past + [a] <==> b in past || b == a
  {
    assert (past + [a])[|past|] == a;
    assert forall b :: b in past ==> b in past + [a];
  }

  lemma TriedSnoc(past: seq<Step>, a: Step, j: nat)
    ensures Tried(past + [a], j) <==> Tried(past, j) || (a.Acquire? && a.j == j)
  {
    Snoc(past, a);
    if Tried(past, j) {
      var k :| 0 <= k < |past| && past[k].Acquire? && past[k].j == j;
      assert (past + [a])[k].Acquire?;
    }
  }

  /** A step that does not name a job leaves its history as it was. */
  lemma OtherSnoc(past: seq<Step>, a: Step, j: nat)
    requires Of(a) != Some(j)
    ensures Tried(past + [a], j) == Tried(past, j) && LastOutcome(past + [a], j) == LastOutcome(past, j)
    ensures Finished(past + [a], j) == Finished(past, j)
    ensures (Land(j) in past + [a] <==> Land(j) in past) && (HookDone(j) in past + [a] <==> HookDone(j) in past)
  {
    Snoc(past, a);
    TriedSnoc(past, a, j);
  }

  lemma ResultsAppend(wire: seq<Message>, m: Message, j: nat)
    ensures Results(wire + [m], j) == Results(wire, j) + if m.Result? && m.job == j then [m.success] else []
  {
    assert (wire + [m])[..|wire|] == wire;
  }

  lemma {:induction false} UnnamedHistory(past: seq<Step>, j: nat)
    requires Unnamed(past, j)
    ensures !Tried(past, j) && !LastOutcome(past, j) && !Finished(past, j)
    ensures Land(j) !in past && HookDone(j) !in past
    decreases |past|
  {
    if past != [] {
      var front, a := past[..|past| - 1], past[|past| - 1];
      assert Of(a) != Some(j) && past == front + [a];
      assert forall k :: 0 <= k < |front| ==> front[k] == past[k];
      UnnamedHistory(front, j);
      OtherSnoc(front, a, j);
    }
  }

  /** A job the step does not name, and whose results it does not touch. */
  lemma OtherTraced(past: seq<Step>, m: Manager, a: Step, m': Manager, j: nat)
    requires j < |m.tasks| <= |m'.tasks| && TracedAt(past, m, j) && Of(a) != Some(j)
    requires m'.tasks[j] == m.tasks[j].(cancelled := m'.tasks[j].cancelled) && Results(m'.wire, j) == Results(m.wire, j)
    ensures TracedAt(past + [a], m', j)
  {
    OtherSnoc(past, a, j);
    Snoc(past, a);
  }

  /** A step that names the job and neither tries, returns nor finishes it. */
  lemma QuietSnoc(past: seq<Step>, a: Step, j: nat)
    requires Of(a) == Some(j) && !a.Acquire? && !a.Return?
    ensures Tried(past + [a], j) == Tried(past, j) && LastOutcome(past + [a], j) == LastOutcome(past, j)
    ensures Finished(past + [a], j) == Finished(past, j)
    ensures forall b :: b in past + [a] <==> b in past || b == a
  {
    Snoc(past, a);
    TriedSnoc(past, a, j);
  }

  /** The job a step names: its history and its state move together. */
  lemma NamedTraced(past: seq<Step>, m: Manager, a: Step, m': Manager, j: nat)
    requires Enabled(m, a) && m' == Next(m, a) && Of(a) == Some(j)
    requires j < |m.tasks| == |m'.tasks| && TracedAt(past, m, j)
    requires m.closing <==> CloseCalled in past
    ensures TracedAt(past + [a], m', j)
  {
    if a.Acquire? {
      AcquireTraced(past, m, j, a.admits, m');
    } else if a.Return? {
      ReturnTraced(past, m, j, a.success, a.granted, m');
    } else if a.ProgressSent? || a.Wake? {
      ParkTraced(past, m, a, m', j);
    } else {
      OverTraced(past, m, a, m', j);
    }
  }

  lemma ParkTraced(past: seq<Step>, m: Manager, a: Step, m': Manager, j: nat)
    requires Enabled(m, a) && m' == Next(m, a) && j < |m.tasks| == |m'.tasks| && TracedAt(past, m, j)
    requires Of(a) == Some(j) && (a.ProgressSent? || a.Wake?)
    ensures TracedAt(past + [a], m', j)
  {
    QuietSnoc(past, a, j);
  }

  lemma OverTraced(past: seq<Step>, m: Manager, a: Step, m': Manager, j: nat)
    requires Enabled(m, a) && m' == Next(m, a) && j < |m.tasks| == |m'.tasks| && TracedAt(past, m, j)
    requires Of(a) == Some(j) && (a.ResultSent? || a.HookDone? || a.Land?)
    ensures TracedAt(past + [a], m', j)
  {
    QuietSnoc(past, a, j);
  }

  lemma AcquireTraced(past: seq<Step>, m: Manager, j: nat, admits: bool, m': Manager)
    requires Enabled(m, Acquire(j, admits)) && m' == Next(m, Acquire(j, admits)) && TracedAt(past, m, j)
    ensures TracedAt(past + [Acquire(j, admits)], m', j)
  {
    Snoc(past, Acquire(j, admits));
    TriedSnoc(past, Acquire(j, admits), j);
    var job := m.tasks[j];
    if Tried(past, j) && !admits { ResultsAppend(m.wire, Result(job.rid, j, job.succeeded), j); }
  }

  /** What the outcome makes of the history. */
  lemma ReturnSnoc(past: seq<Step>, j: nat, success: bool, granted: bool)
    ensures var more := past + [Return(j, success, granted)];
            && Tried(more, j) == Tried(past, j) && LastOutcome(more, j) == success
            && Finished(more, j) == (Finished(past, j) || (!granted && CloseCalled !in past))
            && forall b :: b in more <==> b in past || b == Return(j, success, granted)
  {
    Snoc(past, Return(j, success, granted));
    TriedSnoc(past, Return(j, success, granted), j);
  }

  /** What the outcome makes of the job and the wire. */
  lemma ReturnLeaves(m: Manager, j: nat, success: bool, granted: bool, m': Manager)
    requires Enabled(m, Return(j, success, granted)) && m' == Next(m, Return(j, success, granted))
    ensures |m'.tasks| == |m.tasks|
    ensures var told := !m.closing && !granted;
            && m'.tasks[j].succeeded == success && m'.tasks[j].attempts == m.tasks[j].attempts
            && m'.tasks[j].phase == (if m.closing then Over else if granted then Asking else Sending)
            && Results(m'.wire, j) == Results(m.wire, j) + if told then [success] else []
  {
    if !m.closing && !granted { ResultsAppend(m.wire, Result(m.tasks[j].rid, j, success), j); }
  }

  /** A job whose attempt just ended agrees with its longer history. */
  lemma ReturnAgrees(past: seq<Step>, m: Manager, j: nat, more: seq<Step>, m': Manager, told: bool)
    requires j < |m.tasks| == |m'.tasks| && TracedAt(past, m, j) && m.tasks[j].phase == Trying
    requires Tried(more, j) == Tried(past, j) && Finished(more, j) == (Finished(past, j) || told)
    requires (HookDone(j) in more <==> HookDone(j) in past) && (CloseCalled in more <==> CloseCalled in past)
    requires m'.tasks[j].succeeded == LastOutcome(more, j) && m'.tasks[j].attempts == m.tasks[j].attempts
    requires m'.tasks[j].phase in (if told then {Sending} else {Asking, Over})
    requires m'.tasks[j].phase == Over ==> CloseCalled in past
    requires Results(m'.wire, j) == Results(m.wire, j) + if told then [LastOutcome(more, j)] else []
    ensures TracedAt(more, m', j)
  {
  }

  lemma ReturnTraced(past: seq<Step>, m: Manager, j: nat, success: bool, granted: bool, m': Manager)
    requires Enabled(m, Return(j, success, granted)) && m' == Next(m, Return(j, success, granted))
    requires TracedAt(past, m, j)
    requires m.closing <==> CloseCalled in past
    ensures TracedAt(past + [Return(j, success, granted)], m', j)
  {
    ReturnSnoc(past, j, success, granted);
    ReturnLeaves(m, j, success, granted, m');
    ReturnAgrees(past, m, j, past + [Return(j, success, granted)], m', !m.closing && !granted);
  }

  lemma StepTraced(past: seq<Step>, m: Manager, a: Step)
    requires Inv(m) && Traced(past, m) && Enabled(m, a)
    ensures Traced(past + [a], Next(m, a))
  {
    var m' := Next(m, a);
    Snoc(past, a);
    if Of(a).Some? {
      StepMoves(m, a);
      MoveTraced(past, m, a, Of(a).value);
    } else if a.Dispatch? {
      DispatchTraced(past, m, a.rid, a.command);
    } else {
      assert |m'.tasks| == |m.tasks|;
      QuietResults(m, a);
      forall j | 0 <= j < |m.tasks| ensures TracedAt(past + [a], m', j) { OtherTraced(past, m, a, m', j); }
      forall j | j >= |m.tasks| ensures Unnamed(past + [a], j) { UnnamedSnoc(past, a, j); }
    }
  }

  lemma UnnamedSnoc(past: seq<Step>, a: Step, j: nat)
    requires Unnamed(past, j) && Of(a) != Some(j)
    ensures Unnamed(past + [a], j)
  {
    assert forall k :: 0 <= k < |past| ==> (past + [a])[k] == past[k];
  }

  /** The steps that name no job send no result. */
  lemma QuietResults(m: Manager, a: Step)
    requires Enabled(m, a) && Of(a).None?
    ensures forall j :: Results(Next(m, a).wire, j) == Results(m.wire, j)
  {
    var m' := Next(m, a);
    if m'.wire != m.wire {
      var last := m'.wire[|m'.wire| - 1];
      forall j ensures Results(m'.wire, j) == Results(m.wire, j) { ResultsAppend(m.wire, last, j); }
    }
  }

  lemma MoveTraced(past: seq<Step>, m: Manager, a: Step, j: nat)
    requires Traced(past, m) && Enabled(m, a) && Of(a) == Some(j)
    requires Moves(m, Next(m, a), j, |Next(m, a).wire| > |m.wire|)
    ensures Traced(past + [a], Next(m, a))
  {
    var m' := Next(m, a);
    Snoc(past, a);
    NamedTraced(past, m, a, m', j);
    forall i | i != j ensures Results(m'.wire, i) == Results(m.wire, i) {
      if |m'.wire| > |m.wire| { ResultsAppend(m.wire, m'.wire[|m.wire|], i); }
    }
    forall i | 0 <= i < |m.tasks| && i != j ensures TracedAt(past + [a], m', i) { OtherTraced(past, m, a, m', i); }
    forall i | i >= |m.tasks| ensures Unnamed(past + [a], i) { UnnamedSnoc(past, a, i); }
  }

  lemma DispatchTraced(past: seq<Step>, m: Manager, rid: string, command: string)
    requires Traced(past, m)
    ensures Traced(past + [Dispatch(rid, command)], Next(m, Dispatch(rid, command)))
  {
    var a, m' := Dispatch(rid, command), Next(m, Dispatch(rid, command));
    Snoc(past, a);
    QuietResults(m, a);
    forall j | 0 <= j < |m.tasks| ensures TracedAt(past + [a], m', j) { OtherTraced(past, m, a, m', j); }
    forall j | j >= |m.tasks| ensures Unnamed(past + [a], j) { UnnamedSnoc(past, a, j); }
    if |m'.tasks| > |m.tasks| { UnnamedHistory(past + [a], |m.tasks|); }
  }

  lemma {:induction false} RunFront(m: Manager, steps: seq<Step>)
    requires IsRun(m, steps) && steps != []
    ensures var front, a := steps[..|steps| - 1], steps[|steps| - 1];
            IsRun(m, front) && Enabled(After(m, front), a) && After(m, steps) == Next(After(m, front), a)
    decreases |steps|
  {
    var front := steps[..|steps| - 1];
    if front != [] {
      RunFront(Next(m, steps[0]), steps[1..]);
      assert front[1..] == steps[1..][..|steps| - 2];
    }
  }

  /** In every reachable state the results on the wire are those the history calls for. */
  lemma {:induction false} RunTraced(steps: seq<Step>)
    requires IsRun(Start(), steps)
    ensures Traced(steps, After(Start(), steps))
    decreases |steps|
  {
    if steps != [] {
      var front, a := steps[..|steps| - 1], steps[|steps| - 1];
      RunFront(Start(), steps);
      RunTraced(front);
      RunKeeps(Start(), front);
      StepTraced(front, After(Start(), front), a);
      assert steps == front + [a];
    }
  }

  // ---- What a job is told -----------------------------------------------------

  /** Exactly which jobs get a result, and that it says how their last attempt ended. */
  lemma ResultsAnswer(steps: seq<Step>, j: nat)
    requires IsRun(Start(), steps)
    ensures Results(After(Start(), steps).wire, j) == if Finished(steps, j) then [LastOutcome(steps, j)] else []
  {
    RunTraced(steps);
    var m := After(Start(), steps);
    if j < |m.tasks| { assert TracedAt(steps, m, j); } else { UnnamedHistory(steps, j); }
  }

  /** A job that is over, with no exception or cancellation and no shutdown, was told its
      last outcome, once, and its follow-up ran exactly when that was a success. */
  lemma OverIsAnswered(steps: seq<Step>, j: nat)
    requires IsRun(Start(), steps) && Land(j) !in steps && CloseCalled !in steps
    requires j < |After(Start(), steps).tasks| && !Live(After(Start(), steps).tasks[j])
    ensures Results(After(Start(), steps).wire, j) == [LastOutcome(steps, j)]
    ensures LastOutcome(steps, j) <==> HookDone(j) in steps
  {
    RunTraced(steps);
    assert TracedAt(steps, After(Start(), steps), j);
  }

  /** An outcome goes on the wire at once unless its ask was granted; a granted ask puts
      nothing there and the job goes on; once admission has closed the job is just over. */
  lemma OutcomeIsToldOrGoesOn(steps: seq<Step>, j: nat, success: bool, granted: bool)
    requires IsRun(Start(), steps) && Enabled(After(Start(), steps), Return(j, success, granted))
    ensures IsRun(Start(), steps + [Return(j, success, granted)])
    ensures var m, m' := After(Start(), steps), After(Start(), steps + [Return(j, success, granted)]);
            var told := !granted && CloseCalled !in steps;
            && m'.wire == m.wire + (if told then [Result(m.tasks[j].rid, j, success)] else [])
            && (Enabled(m', ResultSent(j)) <==> told)
            && (Enabled(m', ProgressSent(j)) <==> granted && CloseCalled !in steps && !m.tasks[j].cancelled)
            && (Enabled(m', Land(j)) <==> CloseCalled !in steps)
  {
    RunThen(Start(), steps, [Return(j, success, granted)]);
    RunTraced(steps);
    assert TracedAt(steps, After(Start(), steps), j);
  }

  /** A first permit, or one that finds the window open, is an attempt; one that finds it
      shut puts the last outcome on the wire. */
  lemma PermitIsAttemptOrResult(steps: seq<Step>, j: nat, admits: bool)
    requires IsRun(Start(), steps) && Enabled(After(Start(), steps), Acquire(j, admits))
    ensures IsRun(Start(), steps + [Acquire(j, admits)])
    ensures var m, m' := After(Start(), steps), After(Start(), steps + [Acquire(j, admits)]);
            var tries := admits || !Tried(steps, j);
            && (forall success :: Enabled(m', Return(j, success, false)) <==> tries)
            && (Enabled(m', ResultSent(j)) <==> !tries)
            && m'.wire == m.wire + (if tries then [] else [Result(m.tasks[j].rid, j, LastOutcome(steps, j))])
  {
    RunThen(Start(), steps, [Acquire(j, admits)]);
    RunTraced(steps);
    assert TracedAt(steps, After(Start(), steps), j);
  }
}
