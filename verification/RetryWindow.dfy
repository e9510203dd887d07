/** One job's attempts: the retry window opens at the first permit, each granted park
    lasts at least a second, so attempts run out. Clock, permits and handler outcomes are
    whatever they are. */
module RetryWindow {
  import opened Prelude

  /** A success never asks to run again; an ask is for a whole number of seconds. */
  datatype Outcome = Outcome(success: bool, retryAfter: Option<int>)

  predicate WellFormed(o: Outcome) { o.retryAfter.Some? ==> !o.success && o.retryAfter.value >= 1 }

  datatype Final = Final(outcome: Outcome, attempts: nat, exhausted: bool, at: real)

  class Window {
    const seconds: Option<int>
    var deadline: Option<real>

    constructor (seconds: Option<int>)
      ensures this.seconds == seconds && deadline == None
    {
      this.seconds, deadline := seconds, None;
    }

    /** Opens once: later permits leave the deadline where it is. */
    method Open(now: real)
      modifies this
      ensures old(deadline).Some? ==> deadline == old(deadline)
      ensures old(deadline).None? ==>
                deadline == if seconds.Some? then Some(now + seconds.value as real) else None
    {
      if deadline.None? && seconds.Some? {
        deadline := Some(now + seconds.value as real);
      }
    }

    /** Whether a park of `delay` seconds still ends inside the window. */
    predicate Grants(delay: int, now: real)
      reads this
    {
      deadline.Some? && delay as real <= deadline.value - now
    }
  }

  /** The clock, some time later. */
  method Later(now: real, atLeast: int) returns (t: real)
    requires atLeast >= 0
    ensures t >= now + atLeast as real
  {
    var more: real :| more >= 0.0;
    t := now + atLeast as real + more;
  }

  /** One attempt: when it was admitted, what it came to, and when. */
  datatype Attempt = Attempt(at: real, outcome: Outcome, back: real)

  /** What an admission time says about the one before it. */
  predicate Spaced(tries: seq<Attempt>) {
    && (forall i :: 0 <= i < |tries| ==> WellFormed(tries[i].outcome) && tries[i].back >= tries[i].at)
    && forall i :: 0 <= i < |tries| - 1 ==>
         tries[i].outcome.retryAfter.Some?
         && tries[i + 1].at >= tries[i].back + tries[i].outcome.retryAfter.value as real
  }

  lemma {:induction false} SpacedBySeconds(tries: seq<Attempt>, i: nat)
    requires Spaced(tries) && i < |tries|
    ensures tries[i].at >= tries[0].at + i as real
  {
    if i > 0 {
      SpacedBySeconds(tries, i - 1);
      assert WellFormed(tries[i - 1].outcome);
      assert tries[(i - 1) + 1].at >= tries[i - 1].back + tries[i - 1].outcome.retryAfter.value as real;
    }
  }

  /** An ask made at `now` that ends inside the window opened at `start`. */
  predicate Fits(window: Option<int>, start: real, now: real, o: Outcome) {
    o.retryAfter.Some? && window.Some? && now + o.retryAfter.value as real <= start + window.value as real
  }

  /** The attempts so far are spaced, inside the window, and the handler's; and after each
      of the first `n` admission was open and its ask fitted the window. */
  ghost predicate Within(window: Option<int>, handler: nat -> Outcome, closing: nat -> bool, tries: seq<Attempt>,
      n: nat) {
    && Spaced(tries) && n <= |tries|
    && (window.Some? ==> |tries| <= window.value + 1)
    && (forall k :: 0 <= k < |tries| ==> tries[k].outcome == handler(k))
    && (forall k :: 0 <= k < |tries| && window.Some? ==> tries[k].at <= tries[0].at + window.value as real)
    && (forall k :: 0 <= k < n ==> !closing(k) && Fits(window, tries[0].at, tries[k].back, tries[k].outcome))
  }

  lemma OneMoreWithin(window: Option<int>, handler: nat -> Outcome, closing: nat -> bool, tries: seq<Attempt>,
      x: Attempt)
    requires Within(window, handler, closing, tries, |tries|) && (window.Some? ==> window.value >= 1)
    requires x.outcome == handler(|tries|) && WellFormed(x.outcome) && x.back >= x.at
    requires tries != [] ==>
               var last := tries[|tries| - 1];
               && last.outcome.retryAfter.Some? && x.at >= last.back + last.outcome.retryAfter.value as real
               && (window.Some? ==> x.at <= tries[0].at + window.value as real)
    ensures Within(window, handler, closing, tries + [x], |tries|)
  {
    assert Spaced(tries + [x]);
    SpacedBySeconds(tries + [x], |tries|);
    assert window.Some? ==> |tries| as real <= window.value as real;
  }

  /** The result is the last attempt's, and if its ask fitted, the window had shut since. */
  predicate Concludes(window: Option<int>, tries: seq<Attempt>, final: Final)
    requires tries != []
  {
    var last := tries[|tries| - 1];
    && final.outcome == last.outcome && final.attempts == |tries| && final.at >= last.back
    && (final.exhausted <==> last.outcome.retryAfter.Some?)
    && (Fits(window, tries[0].at, last.back, last.outcome) ==> final.at > tries[0].at + window.value as real)
  }

  /** Between two attempts, or before the first: what the last one asked for, not before
      when, and the deadline the first permit set. */
  ghost predicate Waiting(window: Option<int>, start: real, handler: nat -> Outcome, closing: nat -> bool,
      tries: seq<Attempt>, now: real, delay: Option<int>, deadline: Option<real>) {
    && Within(window, handler, closing, tries, |tries|)
    && (tries == [] ==> delay == None && deadline == None && now >= start)
    && (tries != [] ==>
          && window.Some? && delay == tries[|tries| - 1].outcome.retryAfter && delay.Some? && delay.value >= 1
          && start <= tries[0].at && now == tries[|tries| - 1].back
          && deadline == Some(tries[0].at + window.value as real))
  }

  /** An attempt admitted inside the window, and what follows if its ask fits and admission
      is open. */
  lemma AttemptLeads(window: Option<int>, start: real, handler: nat -> Outcome, closing: nat -> bool,
      tries: seq<Attempt>, now: real, delay: Option<int>, deadline: Option<real>, x: Attempt)
    requires Waiting(window, start, handler, closing, tries, now, delay, deadline)
    requires (window.Some? ==> window.value >= 1) && WellFormed(x.outcome)
    requires x.outcome == handler(|tries|) && x.back >= x.at
    requires x.at >= now + if delay.Some? then delay.value as real else 0.0
    requires tries != [] ==> x.at <= deadline.value
    ensures Within(window, handler, closing, tries + [x], |tries|) && start <= (tries + [x])[0].at
    ensures window.None? ==> tries == []
    ensures !closing(|tries|) && Fits(window, (tries + [x])[0].at, x.back, x.outcome) ==>
              Waiting(window, start, handler, closing, tries + [x], x.back, x.outcome.retryAfter,
                      Some((tries + [x])[0].at + window.value as real))
  {
    OneMoreWithin(window, handler, closing, tries, x);
    assert tries != [] ==> (tries + [x])[0] == tries[0];
  }

  /** From one attempt's delay to the next permit: `opens` is when the permit was had, and
      `admits` whether an attempt may start. */
  method Permit(w: Window, before: real, delay: Option<int>) returns (now: real, admits: bool)
    requires delay.Some? ==> delay.value >= 1
    modifies w
    ensures now >= before + if delay.Some? then delay.value as real else 0.0
    ensures old(w.deadline).Some? ==> w.deadline == old(w.deadline)
    ensures old(w.deadline).None? && delay.None? ==>
              w.deadline == if w.seconds.Some? then Some(now + w.seconds.value as real) else None
    ensures admits <==> delay.None? || w.Grants(0, now)
  {
    now := before;
    if delay.Some? {
      now := Later(now, delay.value);
    }
    now := Later(now, 0);
    w.Open(now);
    if delay.Some? {
      now := Later(now, 0);
    }
    admits := delay.None? || w.Grants(0, now);
  }

  /** What follows a permit: nothing, another wait, or the result. */
  datatype Verdict = Closed | Again | Done

  /** One permit: an attempt if it may start, and what follows. */
  method Round(w: Window, handler: nat -> Outcome, closing: nat -> bool, ghost start: real,
      was: seq<Attempt>, before: real, delay: Option<int>)
    returns (tries: seq<Attempt>, now: real, verdict: Verdict)
    requires w.seconds.Some? ==> w.seconds.value >= 1
    requires WellFormed(handler(|was|))
    requires Waiting(w.seconds, start, handler, closing, was, before, delay, w.deadline)
    modifies w
    ensures tries != [] && start <= tries[0].at && Within(w.seconds, handler, closing, tries, |tries| - 1)
    ensures w.seconds.None? ==> |tries| == 1
    ensures verdict.Closed? <==> closing(|tries| - 1)
    ensures verdict.Again? ==>
              && |tries| == |was| + 1
              && Waiting(w.seconds, start, handler, closing, tries, now, tries[|was|].outcome.retryAfter, w.deadline)
    ensures verdict.Done? ==>
              var last := tries[|tries| - 1].outcome;
              Concludes(w.seconds, tries, Final(last, |tries|, last.retryAfter.Some?, now))
  {
    var admits: bool;
    ghost var deadline := w.deadline;
    now, admits := Permit(w, before, delay);
    if !admits {
      return was, now, Done;
    }
    var outcome := handler(|was|);
    var back := Later(now, 0);
    tries := was + [Attempt(now, outcome, back)];
    AttemptLeads(w.seconds, start, handler, closing, was, before, delay, deadline, Attempt(now, outcome, back));
    now := back;
    if closing(|tries| - 1) {
      return tries, now, Closed;
    }
    verdict := if outcome.retryAfter.Some? && w.Grants(outcome.retryAfter.value, now) then Again else Done;
  }

  /** Drives a job through its attempts; `handler` says what each comes to and `closing`
      whether admission is found closed after it. Every attempt is admitted no later than
      the first permit plus the window, at least a second after the one before, so there
      are at most window + 1 of them; without a window there is one. One follows another
      exactly when the ask fits the window and the next permit still finds it open. The
      result is the last attempt's outcome, and there is one unless admission closed. */
  method Run(window: Option<int>, start: real, handler: nat -> Outcome, closing: nat -> bool)
    returns (final: Option<Final>, tries: seq<Attempt>)
    requires window.Some? ==> window.value >= 1
    requires forall k :: WellFormed(handler(k))
    ensures tries != [] && start <= tries[0].at && Within(window, handler, closing, tries, |tries| - 1)
    ensures window.None? ==> |tries| == 1
    ensures final.None? <==> closing(|tries| - 1)
    ensures final.Some? ==> Concludes(window, tries, final.value)
  {
    var w := new Window(window);
    var now := start;
    var delay: Option<int> := None;
    final, tries := None, [];
    var verdict := Again;
    while verdict.Again?
      invariant fresh(w) && w.seconds == window && (verdict.Again? || tries != [])
      invariant verdict.Again? ==> Waiting(window, start, handler, closing, tries, now, delay, w.deadline)
      invariant !verdict.Again? ==>
                  && start <= tries[0].at && Within(window, handler, closing, tries, |tries| - 1)
                  && (window.None? ==> |tries| == 1) && (verdict.Closed? <==> closing(|tries| - 1))
      invariant verdict.Done? ==>
                  var last := tries[|tries| - 1].outcome;
                  Concludes(window, tries, Final(last, |tries|, last.retryAfter.Some?, now))
      decreases verdict.Again?, if window.Some? then window.value + 2 - |tries| else 0
    {
      tries, now, verdict := Round(w, handler, closing, start, tries, now, delay);
      delay := tries[|tries| - 1].outcome.retryAfter;
    }
    if verdict.Done? {
      var last := tries[|tries| - 1].outcome;
      final := Some(Final(last, |tries|, last.retryAfter.Some?, now));
    }
  }
}
