/** Renewing the client certificate on disk: a swap of several renames that a crash or a
    failed call may cut anywhere, and the roll-forward and fallback that read it back. */
module CertSwap {
  import opened Prelude

  /** What a name holds: a certificate for some key, a private key, or neither. */
  datatype File = Cert(key: nat, serial: nat) | Key(key: nat) | Junk

  datatype Disk = Disk(
    liveCert: Option<File>, liveKey: Option<File>, prevCert: Option<File>, prevKey: Option<File>,
    newCert: Option<File>, pending: Option<File>)

  /** Both files parse and the certificate certifies the key. */
  predicate Whole(cert: Option<File>, key: Option<File>) {
    cert.Some? && key.Some? && cert.value.Cert? && key.value.Key? && cert.value.key == key.value.key
  }

  predicate LiveWhole(d: Disk) { Whole(d.liveCert, d.liveKey) }

  predicate PrevWhole(d: Disk) { Whole(d.prevCert, d.prevKey) }

  /** The certificate went live and its key did not. */
  predicate MidSwap(d: Disk) { Whole(d.liveCert, d.pending) }

  // ---- One renewal ------------------------------------------------------------

  /** The pending key a renewal works with: the stored one when it parses as one. */
  function PendingKey(d: Disk, readable: bool, drawn: nat): nat {
    if readable && d.pending.Some? && d.pending.value.Key? then d.pending.value.key else drawn
  }

  function Prepared(d: Disk, readable: bool, drawn: nat): Disk {
    d.(pending := Some(Key(PendingKey(d, readable, drawn))))
  }

  /** The disk after the first `n` renames of an install. `seen` is what the check of the
      live pair answered: its reads may fail on a whole pair. */
  function Installed(d: Disk, cert: File, seen: bool, n: nat): Disk {
    var d1 := if n < 1 then d else d.(newCert := Some(cert));
    var d2 := if n < 2 || !seen then d1 else d1.(prevCert := d1.liveCert);
    var d3 := if n < 3 || !seen then d2 else d2.(prevKey := d2.liveKey);
    var d4 := if n < 4 then d3 else d3.(liveCert := d3.newCert, newCert := None);
    if n < 5 || d4.pending.None? then d4 else d4.(liveKey := d4.pending, pending := None)
  }

  /** A renewal cut after `n` of its writes and renames; the pending key is the first. The
      issued certificate certifies that key: anything else is refused before the install. */
  function Renewed(d: Disk, readable: bool, drawn: nat, serial: nat, seen: bool, n: nat): Disk {
    if n == 0 then d
    else
      var d1 := Prepared(d, readable, drawn);
      Installed(d1, Cert(d1.pending.value.key, serial), seen, n - 1)
  }

  // ---- Booting ----------------------------------------------------------------

  /** Roll forward, never back; `renames` is whether the rename succeeds. */
  function Rolled(d: Disk, renames: bool): Disk {
    if MidSwap(d) && renames then d.(liveKey := d.pending, pending := None) else d
  }

  datatype Pair = Live | Prev

  /** What a boot loads once any roll-forward is over: None when both pairs fail. */
  function Loaded(d: Disk): Option<Pair> {
    if LiveWhole(d) then Some(Live) else if PrevWhole(d) then Some(Prev) else None
  }

  function Presented(d: Disk): Pair {
    if LiveWhole(d) || MidSwap(d) then Live else if PrevWhole(d) then Prev else Live
  }

  // ---- Every cut of one renewal -----------------------------------------------

  predicate Safe(d: Disk) { LiveWhole(d) || PrevWhole(d) }

  /** The live pair is whole, or one roll-forward away from it. */
  predicate Recoverable(d: Disk) { LiveWhole(d) || MidSwap(d) }

  /** No live name ever goes missing, and the pending key is kept until it is the live
      one. */
  predicate Kept(d: Disk, d': Disk) {
    && (d.liveCert.Some? ==> d'.liveCert.Some?)
    && (d.liveKey.Some? ==> d'.liveKey.Some?)
    && (d.pending.Some? && d.pending.value.Key? ==> d'.pending == d.pending || d'.liveKey == d.pending)
  }

  /** At most one name was written, or one file renamed over another. */
  predicate OneChange(d: Disk, d': Disk) {
    || d' == d.(pending := d'.pending) || d' == d.(newCert := d'.newCert)
    || d' == d.(prevCert := d.liveCert) || d' == d.(prevKey := d.liveKey)
    || (d' == d.(liveCert := d.newCert, newCert := None) && d.newCert.Some?)
    || (d' == d.(liveKey := d.pending, pending := None) && d.pending.Some?)
  }

  /** Every cut of a renewal falls between two single changes of the disk, so a crash has
      no other states to leave, and a live name is only ever replaced by a rename. */
  lemma CutsAreSingleChanges(d: Disk, readable: bool, drawn: nat, serial: nat, seen: bool, n: nat)
    ensures Renewed(d, readable, drawn, serial, seen, 0) == d
    ensures OneChange(Renewed(d, readable, drawn, serial, seen, n), Renewed(d, readable, drawn, serial, seen, n + 1))
  {
  }

  /** A renewal that sees a whole live pair never leaves both pairs broken. One that
      misses it does, at the cut between its last two renames, exactly when there is no
      whole .prev to fall back on and the new certificate is for another key. */
  lemma RenewalSafeIff(d: Disk, readable: bool, drawn: nat, serial: nat, seen: bool)
    requires Safe(d) && (seen ==> LiveWhole(d))
    ensures (forall n: nat :: Safe(Renewed(d, readable, drawn, serial, seen, n)))
            <==> (seen || PrevWhole(d) || d.liveKey == Some(Key(PendingKey(d, readable, drawn))))
  {
    var ok := seen || PrevWhole(d) || d.liveKey == Some(Key(PendingKey(d, readable, drawn)));
    if ok {
      forall n: nat ensures Safe(Renewed(d, readable, drawn, serial, seen, n)) {
        RenewalSafe(d, readable, drawn, serial, seen, n);
      }
    } else {
      assert !Safe(Renewed(d, readable, drawn, serial, seen, 5));
    }
  }

  lemma RenewalSafe(d: Disk, readable: bool, drawn: nat, serial: nat, seen: bool, n: nat)
    requires Safe(d) && (seen ==> LiveWhole(d))
    requires seen || PrevWhole(d) || d.liveKey == Some(Key(PendingKey(d, readable, drawn)))
    ensures Safe(Renewed(d, readable, drawn, serial, seen, n))
  {
  }

  /** A renewal that reaches its end leaves the new pair live, and the pair it replaced as
      .prev when that was seen whole; otherwise .prev is what it was. */
  lemma RenewalInstalls(d: Disk, readable: bool, drawn: nat, serial: nat, seen: bool, n: nat)
    requires n >= 6
    ensures var d' := Renewed(d, readable, drawn, serial, seen, n);
            var key := PendingKey(d, readable, drawn);
            && d'.liveCert == Some(Cert(key, serial)) && d'.liveKey == Some(Key(key)) && LiveWhole(d')
            && d'.pending == None && d'.newCert == None
            && (if seen then d'.prevCert == d.liveCert && d'.prevKey == d.liveKey
                else d'.prevCert == d.prevCert && d'.prevKey == d.prevKey)
  {
  }

  /** A cut renewal tried again asks for a certificate for the same key, and completes. */
  lemma RetryKeepsKey(d: Disk, drawn: nat, again: nat, serial: nat, newer: nat, seen: bool, n: nat)
    requires 1 <= n < 6
    ensures PendingKey(Renewed(d, true, drawn, serial, seen, n), true, again) == PendingKey(d, true, drawn)
  {
  }

  /** A renewal keeps the disk recoverable at every cut exactly when it reads the pending
      key, or the live pair is whole and needs none, or the key it draws is the same one. */
  lemma RenewalRecoverableIff(d: Disk, readable: bool, drawn: nat, serial: nat, seen: bool)
    requires Recoverable(d)
    ensures (forall n: nat :: Recoverable(Renewed(d, readable, drawn, serial, seen, n)))
            <==> (readable || LiveWhole(d) || d.pending == Some(Key(drawn)))
  {
    if readable || LiveWhole(d) || d.pending == Some(Key(drawn)) {
      forall n: nat ensures Recoverable(Renewed(d, readable, drawn, serial, seen, n)) {
        RenewalRecoverable(d, readable, drawn, serial, seen, n);
      }
    } else {
      assert !Recoverable(Renewed(d, readable, drawn, serial, seen, 1));
    }
  }

  /** The certificate goes live before its key, so every cut can be rolled forward. */
  lemma RenewalRecoverable(d: Disk, readable: bool, drawn: nat, serial: nat, seen: bool, n: nat)
    requires Recoverable(d) && (readable || LiveWhole(d) || d.pending == Some(Key(drawn)))
    ensures Recoverable(Renewed(d, readable, drawn, serial, seen, n))
  {
  }

  // ---- Every run --------------------------------------------------------------

  /** `cut`: how many writes and renames happen before a crash or a failed call. Reads may
      fail too: `readable` is whether the pending key was read, `seen` whether the live
      pair was read and is whole; a boot that misreads does not rename. */
  datatype Step =
    | Renew(readable: bool, seen: bool, drawn: nat, serial: nat, cut: nat)
    | Boot(renames: bool)

  predicate Enabled(d: Disk, a: Step) { a.Renew? && a.seen ==> LiveWhole(d) }

  function Next(d: Disk, a: Step): Disk {
    match a
    case Renew(readable, seen, drawn, serial, cut) => Renewed(d, readable, drawn, serial, seen, cut)
    case Boot(renames) => Rolled(d, renames)
  }

  predicate IsRun(d: Disk, steps: seq<Step>)
    decreases |steps|
  {
    steps == [] || (Enabled(d, steps[0]) && IsRun(Next(d, steps[0]), steps[1..]))
  }

  function After(d: Disk, steps: seq<Step>): Disk
    decreases |steps|
  {
    if steps == [] then d else After(Next(d, steps[0]), steps[1..])
  }

  /** A renewal that takes no .prev from a whole live pair it failed to see, with no whole
      .prev to fall back on and another key. */
  predicate Blind(d: Disk, a: Step) {
    a.Renew? && !a.seen && !PrevWhole(d) && d.liveKey != Some(Key(PendingKey(d, a.readable, a.drawn)))
  }

  predicate NoneBlind(d: Disk, steps: seq<Step>)
    decreases |steps|
  {
    steps == [] || (!Blind(d, steps[0]) && NoneBlind(Next(d, steps[0]), steps[1..]))
  }

  /** Through any renewals and boots, each cut anywhere and any read failing, one pair stays
      whole and no live name goes missing, as long as no renewal is blind; and a blind one
      has a cut that leaves none (`RenewalSafeIff`). */
  lemma {:induction false} AlwaysBootable(d: Disk, steps: seq<Step>)
    requires Safe(d) && IsRun(d, steps) && NoneBlind(d, steps)
    ensures var d' := After(d, steps);
            && Safe(d') && Loaded(d').Some?
            && (d.liveCert.Some? ==> d'.liveCert.Some?) && (d.liveKey.Some? ==> d'.liveKey.Some?)
    decreases |steps|
  {
    if steps != [] {
      var next := Next(d, steps[0]);
      if steps[0].Renew? {
        var a := steps[0];
        RenewalSafe(d, a.readable, a.drawn, a.serial, a.seen, a.cut);
      }
      AlwaysBootable(next, steps[1..]);
    }
  }

  /** A renewal that cannot read the pending key while the live certificate waits for it. */
  predicate LosesKey(d: Disk, a: Step) {
    a.Renew? && !a.readable && !LiveWhole(d) && d.pending != Some(Key(a.drawn))
  }

  predicate NoneLosesKey(d: Disk, steps: seq<Step>)
    decreases |steps|
  {
    steps == [] || (!LosesKey(d, steps[0]) && NoneLosesKey(Next(d, steps[0]), steps[1..]))
  }

  /** From a whole live pair, whatever is cut where, the next boot whose rename succeeds
      loads a live pair, as long as no renewal loses the pending key the live certificate
      waits for (`RenewalRecoverableIff`). */
  lemma {:induction false} NextBootIsLive(d: Disk, steps: seq<Step>)
    requires Recoverable(d) && IsRun(d, steps) && NoneLosesKey(d, steps)
    ensures Recoverable(After(d, steps)) && Loaded(Rolled(After(d, steps), true)) == Some(Live)
    decreases |steps|
  {
    if steps != [] {
      if steps[0].Renew? {
        var a := steps[0];
        RenewalRecoverable(d, a.readable, a.drawn, a.serial, a.seen, a.cut);
      }
      NextBootIsLive(Next(d, steps[0]), steps[1..]);
    }
  }

  /** Once written, a pending key every renewal can read stays pending until the moment it
      is the live key. */
  lemma {:induction false} PendingUntilLive(d: Disk, steps: seq<Step>)
    requires d.pending.Some? && d.pending.value.Key?
    requires forall i :: 0 <= i < |steps| && steps[i].Renew? ==> steps[i].readable
    ensures After(d, steps).pending == d.pending
            || exists n :: 0 < n <= |steps| && After(d, steps[..n]).liveKey == d.pending
    decreases |steps|
  {
    if steps != [] {
      var next := Next(d, steps[0]);
      assert forall i :: 0 <= i < |steps| - 1 ==> steps[1..][i] == steps[i + 1];
      assert Kept(d, next);
      if next.pending == d.pending {
        PendingUntilLive(next, steps[1..]);
        if After(next, steps[1..]).pending != d.pending {
          var n :| 0 < n <= |steps| - 1 && After(next, steps[1..][..n]).liveKey == d.pending;
          assert steps[..n + 1][1..] == steps[1..][..n];
          assert After(d, steps[..n + 1]).liveKey == d.pending;
        }
      } else {
        assert steps[..1][1..] == [];
        assert After(d, steps[..1]) == next;
      }
    }
  }

  /** A live certificate for the pending key is made whole by the next boot whose rename
      succeeds, and that boot loads it. */
  lemma RollForwardMakesWhole(d: Disk)
    requires MidSwap(d)
    ensures var d' := Rolled(d, true);
            && LiveWhole(d') && d'.liveCert == d.liveCert && Loaded(d') == Some(Live)
            && OneChange(d, d') && d'.pending == None
  {
  }

  /** A boot loads exactly the pair the presented certificate belongs to, unless the live
      key awaits a roll-forward whose rename fails. */
  lemma LoadedIsPresentedIff(d: Disk, renames: bool)
    requires Loaded(Rolled(d, renames)).Some?
    ensures Loaded(Rolled(d, renames)) == Some(Presented(d)) <==> renames || LiveWhole(d) || !MidSwap(d)
  {
  }

  // ---- The credentials directory ----------------------------------------------

  class Credentials {
    var liveCert: Option<File>
    var liveKey: Option<File>
    var prevCert: Option<File>
    var prevKey: Option<File>
    var newCert: Option<File>
    var pending: Option<File>

    function Abs(): Disk
      reads this
    {
      Disk(liveCert, liveKey, prevCert, prevKey, newCert, pending)
    }

    constructor (d: Disk)
      ensures Abs() == d
    {
      liveCert, liveKey, prevCert := d.liveCert, d.liveKey, d.prevCert;
      prevKey, newCert, pending := d.prevKey, d.newCert, d.pending;
    }

    /** Reuses a stored pending key, else writes a fresh one before any request. */
    method LoadOrCreatePendingKey(readable: bool, drawn: nat) returns (key: nat)
      modifies this`pending
      ensures Abs() == Prepared(old(Abs()), readable, drawn) && pending == Some(Key(key))
    {
      if pending.Some? && readable && pending.value.Key? {
        return pending.value.key;
      }
      pending := Some(Key(drawn));
      key := drawn;
    }

    /** The swap, cut once `budget` of its writes and renames have happened. The .prev pair
        is taken only from a live pair seen whole, and the certificate goes live first. */
    method InstallRenewedPair(cert: File, readable: bool, budget: nat) returns (done: bool)
      modifies this
      ensures Abs() == Installed(old(Abs()), cert, readable && old(LiveWhole(Abs())), budget)
      ensures done <==> budget >= 5 && old(pending).Some?
    {
      if budget == 0 {
        return false;
      }
      newCert := Some(cert);
      if readable && Whole(liveCert, liveKey) {
        if budget == 1 {
          return false;
        }
        prevCert := liveCert;
        if budget == 2 {
          return false;
        }
        prevKey := liveKey;
      }
      if budget <= 3 {
        return false;
      }
      liveCert, newCert := newCert, None;
      if budget == 4 || pending.None? {
        return false;
      }
      liveKey, pending := pending, None;
      return true;
    }

    method CompletePendingSwap(renames: bool) returns (finished: bool)
      modifies this
      ensures Abs() == Rolled(old(Abs()), renames)
      ensures finished <==> old(MidSwap(Abs())) && renames
    {
      if pending.None? || !Whole(liveCert, pending) || !renames {
        return false;
      }
      liveKey, pending := pending, None;
      return true;
    }

    method LoadTlsContext(renames: bool) returns (loaded: Option<Pair>)
      modifies this
      ensures Abs() == Rolled(old(Abs()), renames)
      ensures loaded == Loaded(Abs())
    {
      var finished := CompletePendingSwap(renames);
      if Whole(liveCert, liveKey) {
        return Some(Live);
      }
      loaded := if Whole(prevCert, prevKey) then Some(Prev) else None;
    }
  }
}
