/** A signed command sequence: one check of the whole batch, then each step admitted
    against the live state just before it runs. The seal and the grants may change at any
    moment, the registry only at a restart. */
module SequenceRun {
  import opened Prelude

  const VERIFY_BLOCK_COMMAND := "run_verify_block"
  const APPLY_BLOCK_COMMAND := "run_apply_block"

  predicate Hatch(name: string) { name == VERIFY_BLOCK_COMMAND || name == APPLY_BLOCK_COMMAND }

  /** What the host says at one instant. */
  datatype Live = Live(sealed: bool, revoked: set<string>)

  /** The live state at each reading of it. */
  type Schedule = nat -> Live

  datatype Spec = Spec(subprocess: bool, guarded: bool)

  type Registry = map<string, Spec>

  datatype Reason = SignoffSealed | Forbidden | RestartRequired | Unknown

  predicate Fenced(reg: Registry, live: Live, name: string) {
    name in reg && reg[name].guarded && name in live.revoked
  }

  /** Why a lookup raises, if it does. */
  function Lookup(reg: Registry, live: Live, name: string): Option<Reason> {
    if name !in reg then Some(Unknown)
    else if !reg[name].subprocess || Fenced(reg, live, name) then Some(Forbidden)
    else None
  }

  predicate Unloaded(reg: Registry, live: Live, name: string) { !live.sealed && Hatch(name) && name !in reg }

  /** One step's admission: seal, fence, restart pending, each read in turn. */
  function Refusal(reg: Registry, s: Schedule, t: nat, name: string): Option<Reason> {
    if s(t).sealed && Hatch(name) then Some(SignoffSealed)
    else if Fenced(reg, s(t + 1), name) then Some(Forbidden)
    else if Unloaded(reg, s(t + 2), name) then Some(RestartRequired)
    else None
  }

  // ---- What a run answers -----------------------------------------------------

  /** What executing a step comes to: a bad parameter set raises before anything runs. */
  datatype Run = Run(took: nat, badParams: bool, success: bool)

  /** One step's answer: when its admission was read and what it said, when the command
      ran if it did, and when the step was over. */
  datatype Answer = Answer(index: nat, checked: nat, refusal: Option<Reason>, ran: Option<nat>,
      done: nat, success: bool, sent: bool)

  /** The batch was refused at step `i`, the first one that explains the refusal. */
  predicate Explains(reg: Registry, s: Schedule, names: seq<string>, i: nat, r: Reason) {
    i < |names|
    && match r
       case RestartRequired =>
         Unloaded(reg, s(0), names[i]) && forall j :: 0 <= j < i ==> !Unloaded(reg, s(0), names[j])
       case SignoffSealed =>
         && LooksUp(reg, s, names, |names|) && s(1 + |names|).sealed
         && names[i] == (if APPLY_BLOCK_COMMAND in names then APPLY_BLOCK_COMMAND else VERIFY_BLOCK_COMMAND)
         && names[i] !in names[..i]
       case _ =>
         Lookup(reg, s(1 + i), names[i]) == Some(r) && LooksUp(reg, s, names, i)
  }

  /** None of the first `n` names is waiting for a restart, and each one looks up. */
  predicate LooksUp(reg: Registry, s: Schedule, names: seq<string>, n: nat)
    requires n <= |names|
  {
    && (forall j :: 0 <= j < |names| ==> !Unloaded(reg, s(0), names[j]))
    && forall j :: 0 <= j < n ==> Lookup(reg, s(1 + j), names[j]) == None
  }

  predicate BatchAdmitted(reg: Registry, s: Schedule, names: seq<string>) {
    LooksUp(reg, s, names, |names|) && (s(1 + |names|).sealed ==> forall j :: 0 <= j < |names| ==> !Hatch(names[j]))
  }

  /** An admitted step that raises instead of running: the command no longer looks up, or
      its parameters are bad. */
  predicate Skips(reg: Registry, s: Schedule, name: string, checked: nat, run: Run) {
    Lookup(reg, s(checked + 3), name).Some? || run.badParams
  }

  /** One step: a refused or skipped step runs nothing and fails; any other runs, and its
      success is the command's. */
  predicate Answered(reg: Registry, s: Schedule, name: string, run: Run, a: Answer) {
    && a.refusal == Refusal(reg, s, a.checked, name)
    && a.ran == (if a.refusal.Some? || Skips(reg, s, name, a.checked, run) then None else Some(a.checked + 3))
    && a.success == (a.ran.Some? && run.success)
    && a.checked + 3 <= a.done && (a.ran.Some? ==> a.ran.value < a.done)
  }

  /** A step's admission is read after the step before it was over. */
  predicate Admitted(reg: Registry, s: Schedule, names: seq<string>, runs: nat -> Run, log: seq<Answer>, i: nat)
    requires i < |log| <= |names|
  {
    var a := log[i];
    && a.index == i
    && (if i == 0 then |names| + 2 else log[i - 1].done) <= a.checked
    && Answered(reg, s, names[i], runs(i), a)
  }

  /** Whether anything follows an answer. */
  predicate GoesOn(a: Answer, stopOnFailure: bool) { a.refusal.None? && a.sent && (stopOnFailure ==> a.success) }

  ghost predicate Answers(reg: Registry, s: Schedule, names: seq<string>, runs: nat -> Run,
      stopOnFailure: bool, log: seq<Answer>) {
    && |log| <= |names|
    && (forall i :: 0 <= i < |log| ==> Admitted(reg, s, names, runs, log, i))
    && (forall i :: 0 <= i < |log| - 1 ==> GoesOn(log[i], stopOnFailure))
    && (log == [] ==> names == [])
    && (log != [] && |log| < |names| ==> !GoesOn(log[|log| - 1], stopOnFailure))
  }

  // ---- The handler ------------------------------------------------------------

  /** The whole-batch check. Its readings are at 0, at 1 .. |names|, and at |names| + 1. */
  method PreCheck(reg: Registry, s: Schedule, names: seq<string>) returns (refused: Option<(nat, Reason)>)
    ensures match refused
            case None => BatchAdmitted(reg, s, names)
            case Some((i, r)) => Explains(reg, s, names, i, r)
  {
    for i := 0 to |names|
      invariant forall j :: 0 <= j < i ==> !Unloaded(reg, s(0), names[j])
    {
      if Unloaded(reg, s(0), names[i]) {
        return Some((i, RestartRequired));
      }
    }
    for i := 0 to |names|
      invariant LooksUp(reg, s, names, i)
    {
      var why := Lookup(reg, s(1 + i), names[i]);
      if why.Some? {
        return Some((i, why.value));
      }
    }
    if s(1 + |names|).sealed && (APPLY_BLOCK_COMMAND in names || VERIFY_BLOCK_COMMAND in names) {
      var first := if APPLY_BLOCK_COMMAND in names then APPLY_BLOCK_COMMAND else VERIFY_BLOCK_COMMAND;
      var i := IndexOf(names, first);
      return Some((i, SignoffSealed));
    }
    assert s(1 + |names|).sealed ==> forall j :: 0 <= j < |names| ==> names[j] in names && !Hatch(names[j]);
    return None;
  }

  method IndexOf(names: seq<string>, name: string) returns (i: nat)
    requires name in names
    ensures i < |names| && names[i] == name && name !in names[..i]
  {
    i := 0;
    while names[i] != name
      invariant i < |names| && name !in names[..i] && name in names[i..]
      decreases |names| - i
    {
      assert names[..i + 1] == names[..i] + [names[i]];
      assert names[i..] == [names[i]] + names[i + 1..];
      i := i + 1;
    }
  }

  /** One step: admitted against the live state, run, answered. */
  method Step(reg: Registry, s: Schedule, name: string, index: nat, now: nat, run: Run, sent: bool)
    returns (a: Answer)
    ensures a.index == index && a.checked == now && a.sent == sent && Answered(reg, s, name, run, a)
  {
    var refusal := Refusal(reg, s, now, name);
    if refusal.Some? {
      return Answer(index, now, refusal, None, now + 3, false, sent);
    }
    // The lookup is made again as the command runs: a grant may be gone by now.
    if Lookup(reg, s(now + 3), name).Some? || run.badParams {
      return Answer(index, now, None, None, now + 4, false, sent);
    }
    return Answer(index, now, None, Some(now + 3), now + 4 + run.took, run.success, sent);
  }

  method HandleCommandSequence(reg: Registry, s: Schedule, names: seq<string>, stopOnFailure: bool,
                               runs: nat -> Run, sends: nat -> bool)
    returns (refused: Option<(nat, Reason)>, log: seq<Answer>)
    ensures match refused
            case Some((i, r)) => Explains(reg, s, names, i, r) && log == []
            case None => BatchAdmitted(reg, s, names) && Answers(reg, s, names, runs, stopOnFailure, log)
  {
    log := [];
    refused := PreCheck(reg, s, names);
    if refused.Some? {
      return;
    }
    var now := |names| + 2;
    for index := 0 to |names|
      invariant |log| == index && Ongoing(reg, s, names, runs, stopOnFailure, log)
      invariant now == Clock(names, log)
    {
      var a := Step(reg, s, names[index], index, now, runs(index), sends(index));
      Extends(reg, s, names, runs, stopOnFailure, log, a);
      log, now := log + [a], a.done;
      if a.refusal.Some? || !a.sent || (stopOnFailure && !a.success) {
        return;
      }
    }
  }

  /** When the next step's admission may be read. */
  function Clock(names: seq<string>, log: seq<Answer>): nat {
    if log == [] then |names| + 2 else log[|log| - 1].done
  }

  /** Every answer so far lets the sequence go on. */
  ghost predicate Ongoing(reg: Registry, s: Schedule, names: seq<string>, runs: nat -> Run,
      stopOnFailure: bool, log: seq<Answer>) {
    && |log| <= |names|
    && forall i :: 0 <= i < |log| ==> Admitted(reg, s, names, runs, log, i) && GoesOn(log[i], stopOnFailure)
  }

  lemma Extends(reg: Registry, s: Schedule, names: seq<string>, runs: nat -> Run,
      stopOnFailure: bool, log: seq<Answer>, a: Answer)
    requires Ongoing(reg, s, names, runs, stopOnFailure, log) && |log| < |names|
    requires a.index == |log| && a.checked == Clock(names, log) && Answered(reg, s, names[|log|], runs(|log|), a)
    ensures if GoesOn(a, stopOnFailure) then Ongoing(reg, s, names, runs, stopOnFailure, log + [a])
            else Answers(reg, s, names, runs, stopOnFailure, log + [a])
  {
    var next := log + [a];
    forall i | 0 <= i < |log| ensures Admitted(reg, s, names, runs, next, i) && GoesOn(next[i], stopOnFailure) {
      assert Admitted(reg, s, names, runs, log, i) && next[i] == log[i];
      assert i > 0 ==> next[i - 1] == log[i - 1];
    }
    assert log != [] ==> next[|log| - 1] == log[|log| - 1];
    assert Admitted(reg, s, names, runs, next, |log|);
  }

  // ---- What follows for every run ---------------------------------------------

  /** The steps attempted are the first so many, each answered under its own index, in
      order and apart in time; the sequence ends before its last step exactly at a refusal,
      an answer that could not be sent, or under stop-on-failure a failure. */
  lemma AttemptedIsPrefix(reg: Registry, s: Schedule, names: seq<string>, runs: nat -> Run,
      stopOnFailure: bool, log: seq<Answer>)
    requires Answers(reg, s, names, runs, stopOnFailure, log)
    ensures forall i :: 0 <= i < |log| ==> (log[i].refusal.None? <==> i < Attempts(log)) && log[i].index == i
    ensures forall i, k :: 0 <= i < k < |log| ==> log[i].done <= log[k].checked
    ensures forall i :: 0 <= i < |log| && (i < |log| - 1 || |log| < |names|) ==>
              (i < |log| - 1 <==> log[i].refusal.None? && log[i].sent && (stopOnFailure ==> log[i].success))
    ensures log == [] ==> names == []
  {
    forall i, k | 0 <= i < k < |log| ensures log[i].done <= log[k].checked
    { Apart(reg, s, names, runs, stopOnFailure, log, i, k); }
    forall i | 0 <= i < |log| ensures (log[i].refusal.None? <==> i < Attempts(log)) && log[i].index == i {
      assert Admitted(reg, s, names, runs, log, i);
      assert i < |log| - 1 ==> GoesOn(log[i], stopOnFailure);
    }
    assert forall i :: 0 <= i < |log| - 1 ==> GoesOn(log[i], stopOnFailure);
  }

  /** How many steps got past their admission. */
  function Attempts(log: seq<Answer>): nat {
    if log != [] && log[|log| - 1].refusal.Some? then |log| - 1 else |log|
  }

  lemma {:induction false} Apart(reg: Registry, s: Schedule, names: seq<string>, runs: nat -> Run,
      stopOnFailure: bool, log: seq<Answer>, i: nat, k: nat)
    requires Answers(reg, s, names, runs, stopOnFailure, log) && i < k < |log|
    ensures log[i].done <= log[k].checked
  {
    assert Admitted(reg, s, names, runs, log, k);
    if i < k - 1 {
      Apart(reg, s, names, runs, stopOnFailure, log, i, k - 1);
      assert Admitted(reg, s, names, runs, log, k - 1);
    }
  }

  // ---- What runs --------------------------------------------------------------

  /** A grant the command needs is gone at an instant. */
  predicate Revoked(reg: Registry, s: Schedule, t: nat, name: string) {
    name in reg && reg[name].guarded && name in s(t).revoked
  }

  /** The batch check in plain words, and why a refused batch was refused. */
  lemma BatchAdmittedIff(reg: Registry, s: Schedule, names: seq<string>)
    ensures BatchAdmitted(reg, s, names) <==>
            forall j :: 0 <= j < |names| ==>
              && names[j] in reg && reg[names[j]].subprocess && !Revoked(reg, s, 1 + j, names[j])
              && !(s(1 + |names|).sealed && (names[j] == VERIFY_BLOCK_COMMAND || names[j] == APPLY_BLOCK_COMMAND))
    ensures forall i, r :: Explains(reg, s, names, i, r) ==>
              match r
              case Unknown => names[i] !in reg
              case RestartRequired => names[i] !in reg && !s(0).sealed
              case Forbidden => names[i] in reg && (!reg[names[i]].subprocess || Revoked(reg, s, 1 + i, names[i]))
              case SignoffSealed => names[i] in {VERIFY_BLOCK_COMMAND, APPLY_BLOCK_COMMAND} && s(1 + |names|).sealed
  {
    if forall j :: 0 <= j < |names| ==> names[j] in reg && reg[names[j]].subprocess && !Revoked(reg, s, 1 + j, names[j])
    {
      forall j | 0 <= j < |names| ensures Lookup(reg, s(1 + j), names[j]) == None && !Unloaded(reg, s(0), names[j]) {
        assert names[j] in reg;
      }
    }
  }

  /** Exactly which of the answered steps ran their command, and when: a loaded subprocess
      with good parameters, no seal over it as its admission was read, and its grant there
      at the admission and again as it ran. */
  lemma RanIff(reg: Registry, s: Schedule, names: seq<string>, runs: nat -> Run,
      stopOnFailure: bool, log: seq<Answer>, i: nat)
    requires Answers(reg, s, names, runs, stopOnFailure, log) && i < |log|
    ensures var a, name := log[i], names[i];
            && (a.ran.Some? <==>
                && name in reg && reg[name].subprocess && !runs(i).badParams
                && !(s(a.checked).sealed && (name == VERIFY_BLOCK_COMMAND || name == APPLY_BLOCK_COMMAND))
                && !Revoked(reg, s, a.checked + 1, name) && !Revoked(reg, s, a.checked + 3, name))
            && (a.ran.Some? ==> a.checked < a.ran.value < a.done)
            && (a.refusal == Some(RestartRequired) <==>
                && name !in reg && (name == VERIFY_BLOCK_COMMAND || name == APPLY_BLOCK_COMMAND)
                && !s(a.checked).sealed && !s(a.checked + 2).sealed)
  {
    assert Admitted(reg, s, names, runs, log, i);
  }

  /** No step runs after one that did not. */
  predicate RunsPrefix(log: seq<Answer>) {
    forall i, j :: 0 <= i < j < |log| && log[j].ran.Some? ==> log[i].ran.Some?
  }

  /** Under stop-on-failure the steps that run are always the first so many. */
  lemma StopOnFailureRunsPrefix(reg: Registry, s: Schedule, names: seq<string>, runs: nat -> Run, log: seq<Answer>)
    requires Answers(reg, s, names, runs, true, log)
    ensures RunsPrefix(log)
  {
    forall i, j | 0 <= i < j < |log| && log[j].ran.Some? ensures log[i].ran.Some? {
      assert GoesOn(log[i], true) && Admitted(reg, s, names, runs, log, i);
    }
  }

  /** A step that some schedule makes raise once admitted. */
  predicate MaySkip(reg: Registry, name: string, run: Run) { run.badParams || (name in reg && reg[name].guarded) }

  /** Every name is a loaded command that runs in a sequence. */
  predicate Loaded(reg: Registry, names: seq<string>) {
    forall i :: 0 <= i < |names| ==> names[i] in reg && reg[names[i]].subprocess
  }

  /** Without it, a step that raises is passed over and later ones run. Exactly which
      batches run a prefix of their steps whatever the seal and the grants do: those where
      nothing that runs comes after a step with bad parameters or a guarded command. */
  lemma RunsPrefixIff(reg: Registry, names: seq<string>, runs: nat -> Run)
    requires Loaded(reg, names)
    ensures (forall s, log :: BatchAdmitted(reg, s, names) && Answers(reg, s, names, runs, false, log)
                 ==> RunsPrefix(log))
            <==> forall i, j :: 0 <= i < j < |names| && MaySkip(reg, names[i], runs(i)) ==> runs(j).badParams
  {
    if i, j :| 0 <= i < j < |names| && MaySkip(reg, names[i], runs(i)) && !runs(j).badParams {
      var s, log := PassesOver(reg, names, runs, i, j);
    } else {
      forall s, log | BatchAdmitted(reg, s, names) && Answers(reg, s, names, runs, false, log) ensures RunsPrefix(log) {
        NothingAfter(reg, s, names, runs, log);
      }
    }
  }

  lemma NothingAfter(reg: Registry, s: Schedule, names: seq<string>, runs: nat -> Run, log: seq<Answer>)
    requires Loaded(reg, names) && Answers(reg, s, names, runs, false, log)
    requires forall i, j :: 0 <= i < j < |names| && MaySkip(reg, names[i], runs(i)) ==> runs(j).badParams
    ensures RunsPrefix(log)
  {
    forall i, j | 0 <= i < j < |log| && log[j].ran.Some? ensures log[i].ran.Some? {
      assert Admitted(reg, s, names, runs, log, i) && Admitted(reg, s, names, runs, log, j);
      assert GoesOn(log[i], false);
      assert names[i] in reg && reg[names[i]].subprocess;
      assert !MaySkip(reg, names[i], runs(i));
    }
  }

  /** Revoked only at the second lookup of step `i`. */
  function RevokedAt(names: seq<string>, i: nat): Schedule
    requires i < |names|
  {
    t => Live(false, if t == |names| + 2 + 4 * i + 3 then {names[i]} else {})
  }

  /** Step `k` under that schedule, when steps take no time and every answer is sent. */
  function Timed(reg: Registry, names: seq<string>, runs: nat -> Run, i: nat, k: nat): Answer
    requires i < |names| && k < |names|
  {
    var checked := |names| + 2 + 4 * k;
    var ran := !Skips(reg, RevokedAt(names, i), names[k], checked, runs(k));
    Answer(k, checked, None, if ran then Some(checked + 3) else None, checked + 4, ran && runs(k).success, true)
  }

  lemma TimedAnswers(reg: Registry, names: seq<string>, runs: nat -> Run, i: nat, k: nat)
    requires Loaded(reg, names) && i < |names| && k < |names|
    ensures Answered(reg, RevokedAt(names, i), names[k], runs(k), Timed(reg, names, runs, i, k))
  {
    assert names[k] in reg;
  }

  lemma TimedRuns(reg: Registry, names: seq<string>, runs: nat -> Run, i: nat, k: nat)
    requires Loaded(reg, names) && i < |names| && k < |names| && MaySkip(reg, names[i], runs(i))
    ensures Timed(reg, names, runs, i, i).ran.None?
    ensures k != i && !runs(k).badParams ==> Timed(reg, names, runs, i, k).ran.Some?
  {
    assert names[k] in reg && names[i] in reg;
  }

  lemma RevokedAtAdmits(reg: Registry, names: seq<string>, i: nat)
    requires Loaded(reg, names) && i < |names|
    ensures BatchAdmitted(reg, RevokedAt(names, i), names)
  {
    assert forall k :: 0 <= k < |names| ==>
             names[k] in reg && Lookup(reg, RevokedAt(names, i)(1 + k), names[k]) == None;
  }

  lemma PassesOver(reg: Registry, names: seq<string>, runs: nat -> Run, i: nat, j: nat)
    returns (s: Schedule, log: seq<Answer>)
    requires Loaded(reg, names) && i < j < |names| && MaySkip(reg, names[i], runs(i)) && !runs(j).badParams
    ensures BatchAdmitted(reg, s, names) && Answers(reg, s, names, runs, false, log) && !RunsPrefix(log)
  {
    s := RevokedAt(names, i);
    RevokedAtAdmits(reg, names, i);
    log := seq(|names|, k requires 0 <= k < |names| => Timed(reg, names, runs, i, k));
    forall k | 0 <= k < |names| ensures Admitted(reg, s, names, runs, log, k) && GoesOn(log[k], false) {
      TimedAnswers(reg, names, runs, i, k);
    }
    TimedRuns(reg, names, runs, i, j);
    assert log[i].ran.None? && log[j].ran.Some?;
  }

  /** A seal that falls once step `j` is over and stays keeps every later hatch from
      running, and ends the sequence at the first one. */
  lemma ResealStops(reg: Registry, s: Schedule, names: seq<string>, runs: nat -> Run,
      stopOnFailure: bool, log: seq<Answer>, j: nat, i: nat)
    requires Answers(reg, s, names, runs, stopOnFailure, log)
    requires j < i < |log| && Hatch(names[i]) && forall t :: t >= log[j].done ==> s(t).sealed
    ensures log[i].refusal == Some(SignoffSealed) && log[i].ran == None && i == |log| - 1
  {
    Apart(reg, s, names, runs, stopOnFailure, log, j, i);
    assert Admitted(reg, s, names, runs, log, i);
    assert i < |log| - 1 ==> GoesOn(log[i], stopOnFailure);
  }

  /** A grant revoked once step `j` is over, and not given back, keeps its command from
      running in any later step, and ends the sequence there. */
  lemma RevokeStops(reg: Registry, s: Schedule, names: seq<string>, runs: nat -> Run,
      stopOnFailure: bool, log: seq<Answer>, j: nat, i: nat)
    requires Answers(reg, s, names, runs, stopOnFailure, log)
    requires j < i < |log| && forall t :: t >= log[j].done ==> Fenced(reg, s(t), names[i])
    ensures log[i].refusal.Some? && log[i].ran == None && i == |log| - 1
  {
    Apart(reg, s, names, runs, stopOnFailure, log, j, i);
    assert Admitted(reg, s, names, runs, log, i);
    assert i < |log| - 1 ==> GoesOn(log[i], stopOnFailure);
  }

  /** What the batch check asks of one name, at one instant. */
  predicate Clear(reg: Registry, live: Live, name: string) {
    !Unloaded(reg, live, name) && Lookup(reg, live, name).None? && !(live.sealed && Hatch(name))
  }

  /** While nothing changes the two gates agree: a batch passes the first exactly when
      every step would pass its own and look up. */
  lemma GatesAgree(reg: Registry, live: Live, s: Schedule, names: seq<string>, t: nat)
    requires forall k: nat :: s(k) == live
    ensures BatchAdmitted(reg, s, names) <==>
            forall i :: 0 <= i < |names| ==> Refusal(reg, s, t, names[i]).None? && Lookup(reg, s(t), names[i]).None?
  {
    assert s(0) == live && s(1 + |names|) == live && s(t) == live && s(t + 1) == live && s(t + 2) == live;
    assert forall j :: 0 <= j < |names| ==> Lookup(reg, s(1 + j), names[j]) == Lookup(reg, live, names[j]);
    assert forall i :: 0 <= i < |names| ==>
      (Clear(reg, live, names[i]) <==> Refusal(reg, s, t, names[i]).None? && Lookup(reg, s(t), names[i]).None?);
    if BatchAdmitted(reg, s, names) {
      forall i | 0 <= i < |names| ensures Clear(reg, live, names[i]) {
        assert Lookup(reg, s(1 + i), names[i]) == None;
      }
    } else if forall i :: 0 <= i < |names| ==> Clear(reg, live, names[i]) {
      assert LooksUp(reg, s, names, |names|);
      assert false;
    }
  }
}
