/** The replay window of signed commands: the freshness check on a frame's timestamp, and
    the nonce rows that must outlive it. Times are seconds on the wall clock. */
module NonceWindow {
  const CLOCK_SKEW_TOLERANCE_SECONDS: real := 5.0

  /** A frame as received; `authentic` is whether its signature and fields check out. */
  datatype Frame = Frame(ts: real, nonce: string, authentic: bool)

  /** One verification and the clock readings it makes, in the order it makes them: for
      freshness, for the purge's cutoff, for the stored row. */
  datatype Check = Check(frame: Frame, now: real, purging: real, storing: real)

  type Rows = map<string, real>

  datatype Verdict = Accepted | FutureDated | TooOld | BadSignature | ReplayedNonce

  function Cutoff(c: Check, maxAge: real): real { c.purging - maxAge - CLOCK_SKEW_TOLERANCE_SECONDS }

  function Purged(rows: Rows, cutoff: real): Rows { map n | n in rows && rows[n] >= cutoff :: rows[n] }

  /** A refusal rolls the purge back. */
  function Stored(rows: Rows, nonce: string, cutoff: real, storing: real): (Rows, bool) {
    var left := Purged(rows, cutoff);
    if nonce in left then (rows, false) else (left[nonce := storing], true)
  }

  function Verify(rows: Rows, c: Check, maxAge: real): (Rows, Verdict) {
    var age := c.now - c.frame.ts;
    if age < -CLOCK_SKEW_TOLERANCE_SECONDS then (rows, FutureDated)
    else if age > maxAge then (rows, TooOld)
    else if !c.frame.authentic then (rows, BadSignature)
    else
      var (rows', ok) := Stored(rows, c.frame.nonce, Cutoff(c, maxAge), c.storing);
      (rows', if ok then Accepted else ReplayedNonce)
  }

  // ---- Every run --------------------------------------------------------------

  /** The rows after a run of verifications. */
  function After(cs: seq<Check>, maxAge: real): Rows {
    if cs == [] then map[] else Verify(After(cs[..|cs| - 1], maxAge), cs[|cs| - 1], maxAge).0
  }

  function VerdictOf(cs: seq<Check>, k: nat, maxAge: real): Verdict
    requires k < |cs|
  {
    Verify(After(cs[..k], maxAge), cs[k], maxAge).1
  }

  predicate InOrder(c: Check) { c.now <= c.purging <= c.storing }

  predicate Precedes(cs: seq<Check>, i: nat, k: nat)
    requires i < |cs| && k < |cs|
  {
    cs[i].storing <= cs[k].now
  }

  /** The clock never goes back, within a verification or between two. */
  ghost predicate ClockRises(cs: seq<Check>) {
    && (forall k :: 0 <= k < |cs| ==> InOrder(cs[k]))
    && (forall i, k :: 0 <= i < k < |cs| ==> Precedes(cs, i, k))
  }

  lemma AfterOne(cs: seq<Check>, n: nat, maxAge: real)
    requires n < |cs|
    ensures After(cs[..n + 1], maxAge) == Verify(After(cs[..n], maxAge), cs[n], maxAge).0
  {
    assert cs[..n + 1][..n] == cs[..n];
  }

  /** A stored nonce stays stored, no older, as long as no cutoff passes it. */
  lemma {:induction false} RowSurvives(cs: seq<Check>, j: nat, n: nat, maxAge: real)
    requires j < n <= |cs| && VerdictOf(cs, j, maxAge).Accepted? && ClockRises(cs)
    requires forall m :: j < m < n ==> Cutoff(cs[m], maxAge) <= cs[j].storing
    ensures var rows, nonce := After(cs[..n], maxAge), cs[j].frame.nonce;
            nonce in rows && cs[j].storing <= rows[nonce]
  {
    AfterOne(cs, n - 1, maxAge);
    if j < n - 1 {
      RowSurvives(cs, j, n - 1, maxAge);
      assert Precedes(cs, j, n - 1) && InOrder(cs[n - 1]) && InOrder(cs[j]);
    }
  }

  /** No cutoff between an acceptance and a still fresh copy passes the row it stored. */
  lemma CutoffsBetween(cs: seq<Check>, j: nat, k: nat, maxAge: real)
    requires j < k < |cs| && ClockRises(cs)
    requires cs[j].now - cs[j].frame.ts >= -CLOCK_SKEW_TOLERANCE_SECONDS
    requires cs[k].now - cs[j].frame.ts <= maxAge
    ensures forall m :: j < m < k ==> Cutoff(cs[m], maxAge) <= cs[j].storing
  {
    forall m | j < m < k ensures Cutoff(cs[m], maxAge) <= cs[j].storing {
      assert Precedes(cs, m, k) && InOrder(cs[m]) && InOrder(cs[j]);
    }
  }

  /** A copy of an accepted frame is refused whenever its verification takes no longer from
      the freshness reading to the purge than the accepted one took from its freshness
      reading to the stored row. */
  lemma NoReplay(cs: seq<Check>, j: nat, k: nat, maxAge: real)
    requires j < k < |cs| && ClockRises(cs)
    requires VerdictOf(cs, j, maxAge).Accepted? && cs[k].frame == cs[j].frame
    requires cs[k].purging - cs[k].now <= cs[j].storing - cs[j].now
    ensures !VerdictOf(cs, k, maxAge).Accepted?
  {
    if cs[k].now - cs[k].frame.ts <= maxAge {
      CutoffsBetween(cs, j, k, maxAge);
      RowSurvives(cs, j, k, maxAge);
    }
  }

  predicate ReadsOnce(c: Check) { c.now == c.purging == c.storing }

  /** With the clock read once per verification no frame is ever accepted twice: the
      purge's cutoff and the allowance for future timestamps meet exactly. */
  lemma ReadOnceNeverReplays(cs: seq<Check>, j: nat, k: nat, maxAge: real)
    requires j < k < |cs| && ClockRises(cs) && forall i :: 0 <= i < |cs| ==> ReadsOnce(cs[i])
    requires VerdictOf(cs, j, maxAge).Accepted? && cs[k].frame == cs[j].frame
    ensures !VerdictOf(cs, k, maxAge).Accepted?
  {
    assert ReadsOnce(cs[j]) && ReadsOnce(cs[k]);
    NoReplay(cs, j, k, maxAge);
  }

  /** The row of the last acceptance is exactly as it was stored. */
  lemma {:induction false} RowUntouched(cs: seq<Check>, j: nat, n: nat, maxAge: real)
    requires j < n <= |cs| && VerdictOf(cs, j, maxAge).Accepted? && ClockRises(cs)
    requires forall m :: j < m < n ==> Cutoff(cs[m], maxAge) <= cs[j].storing
    requires forall m :: j < m < n && cs[m].frame.nonce == cs[j].frame.nonce ==> !VerdictOf(cs, m, maxAge).Accepted?
    ensures var rows, nonce := After(cs[..n], maxAge), cs[j].frame.nonce;
            nonce in rows && rows[nonce] == cs[j].storing
  {
    AfterOne(cs, n - 1, maxAge);
    if j < n - 1 {
      RowUntouched(cs, j, n - 1, maxAge);
      assert cs[n - 1].frame.nonce == cs[j].frame.nonce ==> !VerdictOf(cs, n - 1, maxAge).Accepted?;
    }
  }

  /** As written the clock is read three times. A copy of a frame last accepted at `j` is
      accepted again exactly when it is still fresh and its own cutoff has passed the row. */
  lemma ReplayAcceptedIff(cs: seq<Check>, j: nat, k: nat, maxAge: real)
    requires j < k < |cs| && ClockRises(cs)
    requires VerdictOf(cs, j, maxAge).Accepted? && cs[k].frame == cs[j].frame
    requires forall m :: j < m < k && cs[m].frame.nonce == cs[j].frame.nonce ==> !VerdictOf(cs, m, maxAge).Accepted?
    ensures VerdictOf(cs, k, maxAge).Accepted? <==>
            cs[k].now - cs[k].frame.ts <= maxAge && cs[j].storing < Cutoff(cs[k], maxAge)
  {
    if cs[k].now - cs[k].frame.ts <= maxAge {
      CutoffsBetween(cs, j, k, maxAge);
      RowUntouched(cs, j, k, maxAge);
      assert Precedes(cs, j, k) && InOrder(cs[j]);
    }
  }

  /** Any delay between the copy's freshness reading and its purge, after an acceptance
      that had none, is enough at the edge of the window. */
  lemma LatePurgeReplays(maxAge: real, nonce: string, delay: real)
    requires maxAge >= 0.0 && delay > 0.0
    ensures var f := Frame(5.0, nonce, true);
            var cs := [Check(f, 0.0, 0.0, 0.0), Check(f, maxAge + 5.0, maxAge + 5.0 + delay, maxAge + 5.0 + delay)];
            ClockRises(cs) && VerdictOf(cs, 0, maxAge).Accepted? && VerdictOf(cs, 1, maxAge).Accepted?
  {
    var f := Frame(5.0, nonce, true);
    var cs := [Check(f, 0.0, 0.0, 0.0), Check(f, maxAge + 5.0, maxAge + 5.0 + delay, maxAge + 5.0 + delay)];
    assert cs[..0] == [];
    AfterOne(cs, 0, maxAge);
    assert After(cs[..1], maxAge) == map[nonce := 0.0];
    assert Cutoff(cs[1], maxAge) == delay;
    assert Purged(map[nonce := 0.0], delay) == map[];
    assert VerdictOf(cs, 1, maxAge) == Verify(map[nonce := 0.0], cs[1], maxAge).1;
  }

  /** Nothing enters the store but what a verification accepted: a forged or stale frame
      leaves no row, and a replay refusal means an authentic frame with that nonce was
      accepted earlier. */
  lemma {:induction false} RowsWereAccepted(cs: seq<Check>, n: nat, maxAge: real, nonce: string)
    requires n <= |cs| && nonce in After(cs[..n], maxAge)
    ensures exists j :: 0 <= j < n && VerdictOf(cs, j, maxAge).Accepted? && cs[j].frame.nonce == nonce
                        && cs[j].frame.authentic && cs[j].storing == After(cs[..n], maxAge)[nonce]
  {
    if n > 0 {
      AfterOne(cs, n - 1, maxAge);
      if VerdictOf(cs, n - 1, maxAge).Accepted? && cs[n - 1].frame.nonce == nonce {
      } else {
        RowsWereAccepted(cs, n - 1, maxAge, nonce);
      }
    }
  }

  /** A fresh authentic frame is refused only as a replay of an accepted nonce. */
  lemma RefusedOnlyAsReplay(cs: seq<Check>, k: nat, maxAge: real)
    requires k < |cs| && cs[k].frame.authentic
    requires -CLOCK_SKEW_TOLERANCE_SECONDS <= cs[k].now - cs[k].frame.ts <= maxAge
    requires !VerdictOf(cs, k, maxAge).Accepted?
    ensures VerdictOf(cs, k, maxAge).ReplayedNonce?
    ensures exists j :: 0 <= j < k && VerdictOf(cs, j, maxAge).Accepted? && cs[j].frame.nonce == cs[k].frame.nonce
  {
    RowsWereAccepted(cs, k, maxAge, cs[k].frame.nonce);
  }

  // ---- The store --------------------------------------------------------------

  class NonceStore {
    var rows: Rows

    constructor ()
      ensures rows == map[]
    {
      rows := map[];
    }

    /** One transaction: purge, look, insert; a nonce already there undoes the purge. */
    method CheckAndStore(nonce: string, cutoff: real, storing: real) returns (ok: bool)
      modifies this
      ensures (rows, ok) == Stored(old(rows), nonce, cutoff, storing)
    {
      var begun := rows;
      rows := Purged(rows, cutoff);
      if nonce in rows {
        rows := begun;
        return false;
      }
      rows := rows[nonce := storing];
      return true;
    }

    /** The checks in order; only a fresh, authentic frame reaches the store. */
    method VerifyEnvelope(c: Check, maxAge: real) returns (v: Verdict)
      modifies this
      ensures (rows, v) == Verify(old(rows), c, maxAge)
    {
      var age := c.now - c.frame.ts;
      if age < -CLOCK_SKEW_TOLERANCE_SECONDS {
        return FutureDated;
      }
      if age > maxAge {
        return TooOld;
      }
      if !c.frame.authentic {
        return BadSignature;
      }
      var ok := CheckAndStore(c.frame.nonce, Cutoff(c, maxAge), c.storing);
      return if ok then Accepted else ReplayedNonce;
    }
  }
}
