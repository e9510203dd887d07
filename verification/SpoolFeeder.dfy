/** One spool directory, the feeder that reads it, and the emitter that renames files
    into it at any moment. One step is one system call or one atomic stretch between
    two; calls may fail and leave every name as it was, and the agent may stop between
    any two steps. */
module SpoolFeeder {
  import opened Prelude
  import E = EventBuffer

  const MAX_SEGMENT_EVENTS: nat := 500
  const MAX_BUFFERED_EVENTS: nat := 4096

  /** What follows a put-back: more recovery, a settling's first rename, or nothing. */
  datatype Then = MoreRecovery(todo: set<string>) | FirstRename(read: Option<nat>) | Nothing

  /** Where the feeder is. A put-back is `Linking` then `Unlinking`; a settling is a
      put-back, then `Checking`, `Renaming`, `Comparing` and `Deleting` or a put-back. */
  datatype Phase =
    | Idle
    | Recovering(todo: set<string>)
    | Opening(name: string, before: Option<nat>)
    | Linking(name: string, next: Then)
    | Unlinking(name: string, next: Then)
    | Checking(name: string, read: Option<nat>)
    | Renaming(name: string, read: Option<nat>)
    | Comparing(name: string, read: Option<nat>)
    | Deleting(name: string, id: nat)

  datatype Pending = Pending(id: nat, stamps: set<nat>)

  /** Files are known by identity. `live` and `aside` are the directory's two kinds of
      name; `held`, `last` and `room` are the event buffer's. `home`, `superseded` and
      `released` are history for all time: every file and the name it came in under, the
      files the emitter itself replaced or deleted, and those the feeder deleted.
      `consumed`, `stamps` and `stampings` are history of this feeder's life: the files
      read or refused, the stamps each got, and the order they were stamped in. */
  datatype Spool = Spool(
    live: map<string, nat>, aside: map<string, nat>, dirs: set<nat>,
    held: set<nat>, last: nat, room: nat,
    pending: map<string, Pending>, stuck: map<string, nat>, listed: set<string>, phase: Phase,
    home: map<nat, string>, superseded: set<nat>, released: set<nat>,
    consumed: set<nat>, stamps: map<nat, set<nat>>, stampings: seq<nat>)

  datatype Opened = Unreadable | ReadFile(count: nat) | RefusedFile | RefusedSymlink

  datatype Step =
    | RenameIn(name: string, file: nat, dir: bool)   // the emitter
    | Delete(name: string)                           // the emitter's own bound
    | BufferMoves(held: set<nat>, last: nat, room: nat)  // events ship, settle, drop, arrive
    | Boot(lists: bool)                              // the agent stops anywhere and starts again
    | Recover(name: string)
    | Recovered
    | StartSettle(name: string)
    | StillHeld(name: string)                        // a pending segment still has events to wait for
    | List
    | Look(name: string)                             // the buffer has room for a whole segment
    | NoRoom                                         // it has not: the tick stops
    | Open(outcome: Opened)
    | Link(fails: bool)
    | Unlink(fails: bool)
    | Check
    | Rename(fails: bool)
    | Compare
    | Remove(fails: bool)

  function Start(): Spool {
    Spool(map[], map[], {}, {}, 0, MAX_BUFFERED_EVENTS, map[], map[], {}, Idle, map[], {}, {}, {}, map[], [])
  }

  function At(names: map<string, nat>, n: string): Option<nat> { if n in names then Some(names[n]) else None }

  function StampsOf(s: Spool, f: nat): set<nat> { if f in s.stamps then s.stamps[f] else {} }

  // ---- The steps --------------------------------------------------------------

  predicate Enabled(s: Spool, a: Step) {
    match a
    case RenameIn(_, f, _) => f !in s.home
    case Delete(n) => n in s.live
    case BufferMoves(held, last, room) =>
      s.last <= last && room <= MAX_BUFFERED_EVENTS && forall x :: x in held ==> x in s.held || s.last < x <= last
    case Boot(_) => true
    case Recover(n) => s.phase.Recovering? && n in s.phase.todo
    case Recovered => s.phase.Recovering? && s.phase.todo == {}
    case StartSettle(n) => s.phase.Idle? && n in s.pending && s.pending[n].stamps !! s.held
    case List => s.phase.Idle?
    case Look(n) => s.phase.Idle? && n in s.listed && s.room >= MAX_SEGMENT_EVENTS
    case NoRoom => s.phase.Idle? && s.listed != {} && s.room < MAX_SEGMENT_EVENTS
    case StillHeld(n) => s.phase.Idle? && n in s.pending && !(s.pending[n].stamps !! s.held)
    case Open(outcome) =>  // a directory is refused, never read
      && s.phase.Opening? && (outcome.Unreadable? || s.phase.name in s.live)
      && (outcome.ReadFile? ==> s.live[s.phase.name] !in s.dirs && outcome.count <= MAX_SEGMENT_EVENTS)
    case Link(fails) =>
      s.phase.Linking? && (!fails && s.phase.name in s.aside && s.phase.name !in s.live
          ==> s.aside[s.phase.name] !in s.dirs)
    case Unlink(fails) =>
      s.phase.Unlinking? && (!fails && s.phase.name in s.aside ==> s.aside[s.phase.name] !in s.dirs)
    case Check => s.phase.Checking?
    case Rename(_) => s.phase.Renaming?
    case Compare => s.phase.Comparing?
    case Remove(_) => s.phase.Deleting?
  }

  /** Settled but not deletable: skipped until the name holds another file. */
  function Parked(s: Spool, n: string, read: Option<nat>): Spool {
    s.(stuck := if read.Some? then s.stuck[n := read.value] else s.stuck, phase := Idle)
  }

  /** A put-back ended; `clear` says nothing is left aside. */
  function Resumed(s: Spool, n: string, next: Then, clear: bool): Spool {
    match next
    case MoreRecovery(todo) => s.(phase := Recovering(todo))
    case FirstRename(read) => if clear then s.(phase := Checking(n, read)) else Parked(s, n, read)
    case Nothing => s.(phase := Idle)
  }

  function Settling(s: Spool, n: string, read: Option<nat>): Spool { s.(phase := Linking(n, FirstRename(read))) }

  predicate Between(lo: nat, x: nat, hi: nat) { lo < x <= hi }

  function Fresh(lo: nat, hi: nat): set<nat> { set x: nat | x <= hi && Between(lo, x, hi) }

  /** What `count` more events leave; past the bound the oldest are dropped. */
  function RoomLeft(room: nat, count: nat): nat { if count <= room then room - count else 0 }

  /** What one open and read of the segment comes to. */
  function OpenedAs(s: Spool, n: string, before: Option<nat>, outcome: Opened): Spool
    requires outcome.Unreadable? || n in s.live
  {
    match outcome
    case Unreadable => s.(phase := Idle)
    case RefusedFile => Settling(s.(consumed := s.consumed + {s.live[n]}), n, Some(s.live[n]))
    case RefusedSymlink =>
      Settling(s.(consumed := if before.Some? then s.consumed + {before.value} else s.consumed), n, before)
    case ReadFile(count) =>
      var f := s.live[n];
      if count == 0 then Settling(s.(consumed := s.consumed + {f}), n, Some(f))
      else s.(consumed := s.consumed + {f}, stamps := s.stamps[f := StampsOf(s, f) + Fresh(s.last, s.last + count)],
              held := s.held + Fresh(s.last, s.last + count), last := s.last + count, room := RoomLeft(s.room, count),
              stampings := s.stampings + [f],
              pending := s.pending[n := Pending(f, Fresh(s.last, s.last + count))], phase := Idle)
  }

  function Linked(s: Spool, n: string, next: Then, fails: bool): Spool {
    if fails then Resumed(s, n, next, false)
    else if n !in s.aside then Resumed(s, n, next, true)
    else s.(live := if n in s.live then s.live else s.live[n := s.aside[n]], phase := Unlinking(n, next))
  }

  function Unlinked(s: Spool, n: string, next: Then, fails: bool): Spool {
    if fails then Resumed(s, n, next, false) else Resumed(s.(aside := s.aside - {n}), n, next, true)
  }

  /** A directory is never renamed aside: it could not be linked back. */
  function Checked(s: Spool, n: string, read: Option<nat>): Spool {
    if n in s.live && s.live[n] in s.dirs then Parked(s, n, read) else s.(phase := Renaming(n, read))
  }

  function Renamed(s: Spool, n: string, read: Option<nat>, fails: bool): Spool {
    if fails then Parked(s, n, read)
    else if n !in s.live then s.(phase := Idle)
    else s.(live := s.live - {n}, aside := s.aside[n := s.live[n]], phase := Comparing(n, read))
  }

  /** Only the file that was read is deleted; a replacement goes back. */
  function Compared(s: Spool, n: string, read: Option<nat>): Spool {
    if read.Some? && At(s.aside, n) == read then s.(phase := Deleting(n, read.value))
    else s.(phase := Linking(n, Nothing))
  }

  function Removed(s: Spool, n: string, id: nat, fails: bool): Spool {
    if fails then Parked(s, n, Some(id)).(phase := Linking(n, Nothing))
    else s.(aside := s.aside - {n}, released := s.released + {id}, phase := Idle)
  }

  function Next(s: Spool, a: Step): Spool
    requires Enabled(s, a)
  {
    match a
    case RenameIn(n, f, dir) =>
      s.(live := s.live[n := f], home := s.home[f := n], dirs := if dir then s.dirs + {f} else s.dirs,
         superseded := s.superseded + (if n in s.live then {s.live[n]} else {})
                         + (if n in s.aside then {s.aside[n]} else {}))
    case Delete(n) => s.(live := s.live - {n}, superseded := s.superseded + {s.live[n]})
    case BufferMoves(held, last, room) => s.(held := held, last := last, room := room)
    case Boot(lists) =>
      s.(held := {}, last := 0, room := MAX_BUFFERED_EVENTS, pending := map[], stuck := map[], listed := {},
         consumed := {}, stamps := map[], stampings := [],
         phase := Recovering(if lists then s.aside.Keys else {}))
    case Recover(n) => s.(phase := Linking(n, MoreRecovery(s.phase.todo - {n})))
    case Recovered => s.(phase := Idle)
    case StartSettle(n) =>
      Settling(s.(pending := s.pending - {n}), n, Some(s.pending[n].id))
    case StillHeld(_) => s
    case NoRoom => s
    case List =>
      var stuck := map n | n in s.stuck && At(s.live, n) == Some(s.stuck[n]) :: s.stuck[n];
      s.(stuck := stuck, listed := s.live.Keys - s.pending.Keys - stuck.Keys)
    case Look(n) => s.(phase := Opening(n, At(s.live, n)), listed := s.listed - {n})
    case Open(outcome) => OpenedAs(s, s.phase.name, s.phase.before, outcome)
    case Link(fails) => Linked(s, s.phase.name, s.phase.next, fails)
    case Unlink(fails) => Unlinked(s, s.phase.name, s.phase.next, fails)
    case Check => Checked(s, s.phase.name, s.phase.read)
    case Rename(fails) => Renamed(s, s.phase.name, s.phase.read, fails)
    case Compare => Compared(s, s.phase.name, s.phase.read)
    case Remove(fails) => Removed(s, s.phase.name, s.phase.id, fails)
  }

  predicate IsRun(s: Spool, steps: seq<Step>)
    decreases |steps|
  {
    steps == [] || (Enabled(s, steps[0]) && IsRun(Next(s, steps[0]), steps[1..]))
  }

  function After(s: Spool, steps: seq<Step>): Spool
    requires IsRun(s, steps)
    decreases |steps|
  {
    if steps == [] then s else After(Next(s, steps[0]), steps[1..])
  }

  // ---- No file is lost --------------------------------------------------------

  predicate Named(s: Spool, f: nat)
    requires f in s.home
  {
    At(s.live, s.home[f]) == Some(f) || At(s.aside, s.home[f]) == Some(f)
  }

  /** Read or refused in this life, and no stamp it got is still in the buffer. */
  predicate Settled(s: Spool, f: nat) { f in s.consumed && StampsOf(s, f) !! s.held }

  /** Every file the emitter put in still has a name, unless the emitter itself replaced
      or deleted it, or the feeder deleted it. */
  predicate NoFileLost(s: Spool) {
    forall f :: f in s.home ==> Named(s, f) || f in s.superseded || f in s.released
  }

  predicate Placed(s: Spool) {
    && (forall n :: n in s.live ==> s.live[n] in s.home && s.home[s.live[n]] == n)
    && (forall n :: n in s.aside ==> s.aside[n] in s.home && s.home[s.aside[n]] == n)
    && (forall n :: n in s.aside && n in s.live && s.aside[n] != s.live[n] ==> s.aside[n] in s.superseded)
  }

  predicate ReadSettled(s: Spool, read: Option<nat>) { read.Some? ==> Settled(s, read.value) }

  /** What each point of a settling may rely on. */
  predicate InPhase(s: Spool) {
    match s.phase
    case Linking(n, next) => next.FirstRename? ==> ReadSettled(s, next.read)
    case Unlinking(n, next) =>
      && (next.FirstRename? ==> ReadSettled(s, next.read))
      && n in s.aside && (At(s.live, n) == Some(s.aside[n]) || s.aside[n] in s.superseded)
    case Checking(n, read) => n !in s.aside && ReadSettled(s, read)
    case Renaming(n, read) => n !in s.aside && ReadSettled(s, read)
    case Comparing(n, read) => n in s.aside && ReadSettled(s, read)
    case Deleting(n, id) => At(s.aside, n) == Some(id) && Settled(s, id)
    case Opening(n, before) => n !in s.pending && n !in s.listed
      && (before.Some? ==> before.value in s.home && s.home[before.value] == n)
    case _ => true
  }

  /** A stamp still in the buffer belongs to a file still pending, and is awaited there. */
  predicate Awaited(s: Spool) {
    && (forall x :: x in s.held ==> x <= s.last)
    && (forall f, x :: f in s.stamps && x in s.stamps[f] ==> x <= s.last)
    && (forall f :: f in s.stamps ==> f in s.home && f in s.consumed)
    && (forall f :: f in s.stamps ==>
          s.stamps[f] !! s.held
          || (s.home[f] in s.pending && s.pending[s.home[f]].id == f
              && s.stamps[f] * s.held <= s.pending[s.home[f]].stamps))
    && (forall n :: n in s.pending ==>
          s.pending[n].id in s.consumed && s.pending[n].id in s.home && s.home[s.pending[n].id] == n)
    && (forall n :: n in s.listed ==> n !in s.pending)
  }

  predicate Inv(s: Spool) { Placed(s) && InPhase(s) && Awaited(s) && NoFileLost(s) }

  // ---- Every step keeps it ----------------------------------------------------

  lemma RenameInKeeps(s: Spool, n: string, f: nat, dir: bool)
    requires Inv(s) && Enabled(s, RenameIn(n, f, dir))
    ensures Inv(Next(s, RenameIn(n, f, dir)))
  {
    RenameInAwaited(s, n, f, dir);
    RenameInPlaced(s, n, f, dir);
    assert InPhase(Next(s, RenameIn(n, f, dir)));
  }

  lemma RenameInAwaited(s: Spool, n: string, f: nat, dir: bool)
    requires Inv(s) && Enabled(s, RenameIn(n, f, dir))
    ensures Awaited(Next(s, RenameIn(n, f, dir)))
  {
    assert f !in s.stamps;
  }

  lemma RenameInPlaced(s: Spool, n: string, f: nat, dir: bool)
    requires Placed(s) && NoFileLost(s) && Enabled(s, RenameIn(n, f, dir))
    ensures Placed(Next(s, RenameIn(n, f, dir))) && NoFileLost(Next(s, RenameIn(n, f, dir)))
  {
  }

  lemma DeleteKeeps(s: Spool, n: string)
    requires Inv(s) && Enabled(s, Delete(n))
    ensures Inv(Next(s, Delete(n)))
  {
    var s' := Next(s, Delete(n));
    assert Awaited(s');
    assert Placed(s');
  }

  lemma BufferKeeps(s: Spool, a: Step)
    requires Inv(s) && Enabled(s, a) && a.BufferMoves?
    ensures Inv(Next(s, a))
  {
    var s' := Next(s, a);
    forall f | f in s.stamps && s.stamps[f] !! s.held ensures s.stamps[f] !! s'.held {
      forall x | x in s.stamps[f] ensures x !in s'.held { assert x <= s.last; }
    }
  }

  lemma BootKeeps(s: Spool, lists: bool)
    requires Inv(s) && Enabled(s, Boot(lists))
    ensures Inv(Next(s, Boot(lists)))
  {
  }

  lemma RecoverKeeps(s: Spool, n: string)
    requires Inv(s) && Enabled(s, Recover(n))
    ensures Inv(Next(s, Recover(n)))
  {
  }

  lemma RecoveredKeeps(s: Spool)
    requires Inv(s) && Enabled(s, Recovered)
    ensures Inv(Next(s, Recovered))
  {
  }

  lemma ListKeeps(s: Spool)
    requires Inv(s) && Enabled(s, List)
    ensures Inv(Next(s, List))
  {
  }

  lemma LookKeeps(s: Spool, n: string)
    requires Inv(s) && Enabled(s, Look(n))
    ensures Inv(Next(s, Look(n)))
  {
  }

  lemma StillHeldKeeps(s: Spool, n: string)
    requires Inv(s) && Enabled(s, StillHeld(n))
    ensures Inv(Next(s, StillHeld(n)))
  {
  }

  lemma StartSettleKeeps(s: Spool, n: string)
    requires Inv(s) && Enabled(s, StartSettle(n))
    ensures Inv(Next(s, StartSettle(n)))
  {
  }

  predicate SameBuffer(s: Spool, s': Spool) {
    && s'.held == s.held && s'.last == s.last && s'.stamps == s.stamps && s'.consumed == s.consumed
    && s'.home == s.home && s'.pending == s.pending && s'.listed == s.listed && s'.superseded == s.superseded
    && s.released <= s'.released
  }

  lemma AwaitedFramed(s: Spool, s': Spool)
    requires Awaited(s) && SameBuffer(s, s')
    ensures Awaited(s')
  {
  }

  lemma DiskFramed(s: Spool, s': Spool)
    requires Placed(s) && NoFileLost(s) && SameBuffer(s, s') && s'.live == s.live && s'.aside == s.aside
    ensures Placed(s') && NoFileLost(s')
  {
  }

  lemma OpenKeeps(s: Spool, outcome: Opened)
    requires Inv(s) && Enabled(s, Open(outcome))
    ensures Inv(Next(s, Open(outcome)))
  {
    var s' := Next(s, Open(outcome));
    var n := s.phase.name;
    if outcome.ReadFile? {
      ReadKeeps(s, outcome.count);
    } else {
      assert s'.stamps == s.stamps;
      assert Awaited(s') && Placed(s') && NoFileLost(s');
      assert InPhase(s');
    }
  }

  lemma ReadKeeps(s: Spool, count: nat)
    requires Inv(s) && Enabled(s, Open(ReadFile(count)))
    ensures Inv(Next(s, Open(ReadFile(count))))
  {
    var s' := Next(s, Open(ReadFile(count)));
    assert StampsOf(s, s.live[s.phase.name]) !! s.held;
    assert Placed(s') && InPhase(s') && NoFileLost(s');
    if count > 0 { ReadAwaited(s, count); }
  }

  lemma ReadAwaited(s: Spool, count: nat)
    requires Inv(s) && Enabled(s, Open(ReadFile(count))) && count > 0
    ensures Awaited(Next(s, Open(ReadFile(count))))
  {
    var s' := Next(s, Open(ReadFile(count)));
    var n := s.phase.name;
    var f := s.live[n];
    assert StampsOf(s, f) !! s.held;
    assert s'.stamps[f] == StampsOf(s, f) + s'.pending[n].stamps;
    forall g | g in s'.stamps
      ensures s'.stamps[g] !! s'.held
           || (s'.home[g] in s'.pending && s'.pending[s'.home[g]].id == g
               && s'.stamps[g] * s'.held <= s'.pending[s'.home[g]].stamps)
    {
      if g != f {
        assert s'.stamps[g] == s.stamps[g];
        assert s'.stamps[g] * s'.held == s.stamps[g] * s.held;
      }
    }
  }

  predicate Facts(s: Spool) { Placed(s) && Awaited(s) && NoFileLost(s) }

  lemma FactsFramed(s: Spool, s': Spool)
    requires Facts(s) && SameBuffer(s, s') && s'.live == s.live && s'.aside == s.aside
    ensures Facts(s')
  {
    AwaitedFramed(s, s');
    DiskFramed(s, s');
  }

  lemma ResumedKeeps(s: Spool, n: string, next: Then, clear: bool)
    requires Facts(s) && (next.FirstRename? ==> ReadSettled(s, next.read)) && (clear ==> n !in s.aside)
    ensures Inv(Resumed(s, n, next, clear))
  {
    FactsFramed(s, Resumed(s, n, next, clear));
  }

  lemma LinkKeeps(s: Spool, n: string, next: Then, fails: bool)
    requires Inv(s) && s.phase == Linking(n, next)
    ensures Inv(Linked(s, n, next, fails))
  {
    if fails || n !in s.aside {
      ResumedKeeps(s, n, next, !fails);
    } else {
      var s' := Linked(s, n, next, fails);
      AwaitedFramed(s, s');
      assert Placed(s');
      forall g | g in s.home ensures Named(s', g) || g in s'.superseded || g in s'.released {
        assert Named(s, g) ==> Named(s', g);
      }
      assert NoFileLost(s');
    }
  }

  lemma UnlinkKeeps(s: Spool, n: string, next: Then, fails: bool)
    requires Inv(s) && s.phase == Unlinking(n, next)
    ensures Inv(Unlinked(s, n, next, fails))
  {
    if fails {
      ResumedKeeps(s, n, next, false);
    } else {
      var s1 := s.(aside := s.aside - {n});
      AwaitedFramed(s, s1);
      forall g | g in s.home ensures Named(s1, g) || g in s1.superseded || g in s1.released {
        assert Named(s, g) && g != s.aside[n] ==> Named(s1, g);
      }
      assert Placed(s1) && NoFileLost(s1);
      ResumedKeeps(s1, n, next, true);
    }
  }

  lemma CheckKeeps(s: Spool, n: string, read: Option<nat>)
    requires Inv(s) && s.phase == Checking(n, read)
    ensures Inv(Checked(s, n, read))
  {
    FactsFramed(s, s.(phase := Renaming(n, read)));
    assert ReadSettled(s.(phase := Renaming(n, read)), read);
    FactsFramed(s, Parked(s, n, read));
  }

  lemma RenameKeeps(s: Spool, n: string, read: Option<nat>, fails: bool)
    requires Inv(s) && s.phase == Renaming(n, read)
    ensures Inv(Renamed(s, n, read, fails))
  {
    var s' := Renamed(s, n, read, fails);
    if fails || n !in s.live {
      FactsFramed(s, s');
    } else {
      AwaitedFramed(s, s');
      forall g | g in s.home ensures Named(s', g) || g in s'.superseded || g in s'.released {
        assert Named(s, g) ==> Named(s', g);
      }
      assert Placed(s') && NoFileLost(s');
    }
  }

  lemma CompareKeeps(s: Spool, n: string, read: Option<nat>)
    requires Inv(s) && s.phase == Comparing(n, read)
    ensures Inv(Compared(s, n, read))
  {
    var s' := Compared(s, n, read);
    if read.Some? && At(s.aside, n) == read {
      assert Settled(s, read.value) && s' == s.(phase := Deleting(n, read.value));
      assert Settled(s', read.value);
    } else {
      assert s' == s.(phase := Linking(n, Nothing));
    }
    FactsFramed(s, s');
  }

  lemma RemoveKeeps(s: Spool, n: string, id: nat, fails: bool)
    requires Inv(s) && s.phase == Deleting(n, id)
    ensures Inv(Removed(s, n, id, fails))
  {
    var s' := Removed(s, n, id, fails);
    if fails {
      FactsFramed(s, s');
    } else {
      AwaitedFramed(s, s');
      forall g | g in s.home ensures Named(s', g) || g in s'.superseded || g in s'.released {
        assert Named(s, g) && g != id ==> Named(s', g);
      }
      assert Placed(s') && NoFileLost(s');
    }
  }

  lemma StepKeeps(s: Spool, a: Step)
    requires Inv(s) && Enabled(s, a)
    ensures Inv(Next(s, a))
  {
    match a
    case RenameIn(n, f, dir) => RenameInKeeps(s, n, f, dir);
    case Delete(n) => DeleteKeeps(s, n);
    case BufferMoves(_, _, _) => BufferKeeps(s, a);
    case Open(outcome) => OpenKeeps(s, outcome);
    case Link(fails) => LinkKeeps(s, s.phase.name, s.phase.next, fails);
    case Unlink(fails) => UnlinkKeeps(s, s.phase.name, s.phase.next, fails);
    case Rename(fails) => RenameKeeps(s, s.phase.name, s.phase.read, fails);
    case Remove(fails) => RemoveKeeps(s, s.phase.name, s.phase.id, fails);
    case Check => CheckKeeps(s, s.phase.name, s.phase.read);
    case Compare => CompareKeeps(s, s.phase.name, s.phase.read);
    case Boot(lists) => BootKeeps(s, lists);
    case Recover(n) => RecoverKeeps(s, n);
    case Recovered => RecoveredKeeps(s);
    case List => ListKeeps(s);
    case Look(n) => LookKeeps(s, n);
    case StillHeld(n) => StillHeldKeeps(s, n);
    case NoRoom =>
    case StartSettle(n) => StartSettleKeeps(s, n);
  }

  lemma {:induction false} RunKeeps(s: Spool, steps: seq<Step>)
    requires Inv(s) && IsRun(s, steps)
    ensures Inv(After(s, steps))
    decreases |steps|
  {
    if steps != [] {
      StepKeeps(s, steps[0]);
      RunKeeps(Next(s, steps[0]), steps[1..]);
    }
  }

  /** However the emitter, the buffer, failing calls and crashes interleave, no file is
      lost: what has no name left was replaced or deleted by the emitter, or deleted by
      the feeder; and at every point where the feeder is about to delete, the name holds
      the file it read in this life, and every event that file carried has left the
      buffer. */
  lemma NeverLoses(steps: seq<Step>)
    requires IsRun(Start(), steps)
    ensures var s := After(Start(), steps);
            && NoFileLost(s)
            && (s.phase.Deleting? ==> At(s.aside, s.phase.name) == Some(s.phase.id) && Settled(s, s.phase.id))
  {
    RunKeeps(Start(), steps);
  }

  // ---- What the feeder deletes -------------------------------------------------

  /** The file a settling may delete has no other name, and is no directory. */
  predicate Apart(s: Spool) {
    match s.phase
    case Renaming(n, read) => read.Some? && read.value in s.dirs ==> At(s.live, n) != read
    case Comparing(n, read) =>
      At(s.live, n) != At(s.aside, n) && (read.Some? && read.value in s.dirs ==> At(s.aside, n) != read)
    case Deleting(n, id) => At(s.live, n) != Some(id) && id !in s.dirs
    case _ => true
  }

  predicate Departed(s: Spool) {
    && Apart(s) && s.consumed <= s.home.Keys && s.dirs <= s.home.Keys
    && (forall f :: f in s.released ==> f in s.home && f !in s.dirs && !Named(s, f))
    && (forall f :: f in s.stampings ==> f in s.home && f !in s.dirs)
  }

  lemma RenameInDeparted(s: Spool, n: string, f: nat, dir: bool)
    requires Placed(s) && InPhase(s) && Departed(s) && f !in s.home
    ensures Departed(Next(s, RenameIn(n, f, dir)))
  {
    var s' := Next(s, RenameIn(n, f, dir));
    forall g | g in s.released ensures !Named(s', g) { assert !Named(s, g); }
  }

  /** The steps that give no file a name it had not. */
  lemma QuietDeparted(s: Spool, a: Step)
    requires InPhase(s) && Departed(s) && Enabled(s, a) && !a.RenameIn? && !a.Open? && !a.Link? && !a.Unlink?
    requires !a.Check? && !a.Rename? && !a.Compare? && !a.Remove?
    ensures Departed(Next(s, a))
  {
    var s' := Next(s, a);
    forall g | g in s.released ensures !Named(s', g) { assert !Named(s, g); }
  }

  lemma OpenDeparted(s: Spool, n: string, before: Option<nat>, outcome: Opened)
    requires Departed(s) && (n in s.live ==> s.live[n] in s.home) && (before.Some? ==> before.value in s.home)
    requires outcome.Unreadable? || n in s.live
    requires outcome.ReadFile? ==> s.live[n] !in s.dirs
    ensures Departed(OpenedAs(s, n, before, outcome))
  {
    var s' := OpenedAs(s, n, before, outcome);
    forall g | g in s.released ensures !Named(s', g) { assert !Named(s, g); }
  }

  predicate SameFiles(s: Spool, s': Spool) {
    && s'.live == s.live && s'.aside == s.aside && s'.home == s.home && s'.dirs == s.dirs
    && s'.released == s.released && s'.stampings == s.stampings && s'.consumed == s.consumed
  }

  lemma DepartedFramed(s: Spool, s': Spool)
    requires Departed(s) && SameFiles(s, s') && Apart(s')
    ensures Departed(s')
  {
    assert forall f :: f in s.released ==> !Named(s, f) && !Named(s', f);
  }

  lemma LinkDeparted(s: Spool, n: string, next: Then, fails: bool)
    requires Placed(s) && Departed(s) && s.phase == Linking(n, next)
    ensures Departed(Linked(s, n, next, fails))
  {
    var s' := Linked(s, n, next, fails);
    if fails || n !in s.aside {
      DepartedFramed(s, s');
    } else {
      forall f | f in s.released ensures !Named(s', f) { assert !Named(s, f); }
    }
  }

  lemma UnlinkDeparted(s: Spool, n: string, next: Then, fails: bool)
    requires Departed(s) && s.phase == Unlinking(n, next)
    ensures Departed(Unlinked(s, n, next, fails))
  {
    var s1 := if fails then s else s.(aside := s.aside - {n});
    assert forall f :: f in s.released ==> !Named(s, f) && !Named(s1, f);
    assert Unlinked(s, n, next, fails) == Resumed(s1, n, next, !fails);
    ResumedDeparted(s, s1, n, next, !fails);
  }

  lemma ResumedDeparted(s: Spool, s1: Spool, n: string, next: Then, clear: bool)
    requires Departed(s) && s1 == s.(aside := s1.aside) && s.phase == Unlinking(n, next)
    requires forall f :: f in s.released ==> !Named(s1, f)
    ensures Departed(Resumed(s1, n, next, clear))
  {
    var s' := Resumed(s1, n, next, clear);
    assert SameFiles(s1, s');
    assert forall f :: f in s.released ==> !Named(s1, f) && !Named(s', f);
  }

  lemma CheckDeparted(s: Spool, n: string, read: Option<nat>)
    requires Departed(s) && s.phase == Checking(n, read)
    ensures Departed(Checked(s, n, read))
  {
    DepartedFramed(s, Checked(s, n, read));
  }

  lemma RenameDeparted(s: Spool, n: string, read: Option<nat>, fails: bool)
    requires Placed(s) && Departed(s) && s.phase == Renaming(n, read)
    ensures Departed(Renamed(s, n, read, fails))
  {
    var s' := Renamed(s, n, read, fails);
    if fails || n !in s.live {
      DepartedFramed(s, s');
    } else {
      forall f | f in s.released ensures !Named(s', f) { assert !Named(s, f); }
    }
  }

  lemma CompareDeparted(s: Spool, n: string, read: Option<nat>)
    requires Departed(s) && s.phase == Comparing(n, read)
    ensures Departed(Compared(s, n, read))
  {
    DepartedFramed(s, Compared(s, n, read));
  }

  lemma RemoveDeparted(s: Spool, n: string, id: nat, fails: bool)
    requires Placed(s) && Departed(s) && s.phase == Deleting(n, id) && At(s.aside, n) == Some(id)
    ensures Departed(Removed(s, n, id, fails))
  {
    var s' := Removed(s, n, id, fails);
    if fails {
      DepartedFramed(s, s');
    } else {
      forall f | f in s'.released ensures f in s.home && f !in s.dirs && !Named(s', f) {
        assert f in s.released ==> !Named(s, f);
      }
    }
  }

  lemma StepDeparted(s: Spool, a: Step)
    requires Inv(s) && Departed(s) && Enabled(s, a)
    ensures Departed(Next(s, a))
  {
    match a
    case RenameIn(n, f, dir) => RenameInDeparted(s, n, f, dir);
    case Open(outcome) => OpenDeparted(s, s.phase.name, s.phase.before, outcome);
    case Link(fails) => LinkDeparted(s, s.phase.name, s.phase.next, fails);
    case Unlink(fails) => UnlinkDeparted(s, s.phase.name, s.phase.next, fails);
    case Check => CheckDeparted(s, s.phase.name, s.phase.read);
    case Rename(fails) => RenameDeparted(s, s.phase.name, s.phase.read, fails);
    case Compare => CompareDeparted(s, s.phase.name, s.phase.read);
    case Remove(fails) => RemoveDeparted(s, s.phase.name, s.phase.id, fails);
    case _ => QuietDeparted(s, a);
  }

  lemma {:induction false} RunDeparted(s: Spool, steps: seq<Step>)
    requires Inv(s) && Departed(s) && IsRun(s, steps)
    ensures Departed(After(s, steps))
    decreases |steps|
  {
    if steps != [] {
      StepKeeps(s, steps[0]);
      StepDeparted(s, steps[0]);
      RunDeparted(Next(s, steps[0]), steps[1..]);
    }
  }

  /** The emitter renamed a directory in under that identity. */
  predicate CameAsDir(steps: seq<Step>, f: nat) {
    exists i :: 0 <= i < |steps| && steps[i].RenameIn? && steps[i].file == f && steps[i].dir
  }

  lemma CameFirst(a: Step, tail: seq<Step>, f: nat)
    ensures CameAsDir([a] + tail, f) <==> CameAsDir(tail, f) || (a.RenameIn? && a.file == f && a.dir)
  {
    var steps := [a] + tail;
    assert steps[0] == a && forall i :: 0 < i < |steps| ==> steps[i] == tail[i - 1];
    assert forall i :: 0 <= i < |tail| ==> tail[i] == steps[i + 1];
  }

  /** What a put-back or a settling leaves alone. */
  predicate Untouched(s: Spool, s': Spool) { s'.dirs == s.dirs && s'.consumed == s.consumed && s'.listed == s.listed }

  lemma PutBackUntouched(s: Spool, n: string, next: Then, fails: bool)
    ensures Untouched(s, Linked(s, n, next, fails)) && Untouched(s, Unlinked(s, n, next, fails))
  {
    var s1 := s.(aside := s.aside - {n});
    assert forall clear :: Untouched(s, Resumed(s, n, next, clear));
    assert forall clear :: Untouched(s1, Resumed(s1, n, next, clear));
  }

  lemma SettleUntouched(s: Spool, n: string, read: Option<nat>, fails: bool)
    ensures Untouched(s, Checked(s, n, read)) && Untouched(s, Renamed(s, n, read, fails))
  {
  }

  lemma DecideUntouched(s: Spool, n: string, read: Option<nat>, id: nat, fails: bool)
    ensures Untouched(s, Compared(s, n, read)) && Untouched(s, Removed(s, n, id, fails))
  {
  }

  lemma SettlingUntouched(s: Spool, a: Step)
    requires Enabled(s, a) && (a.Link? || a.Unlink? || a.Check? || a.Rename? || a.Compare? || a.Remove?)
    ensures Untouched(s, Next(s, a))
  {
    match a
    case Link(fails) => PutBackUntouched(s, s.phase.name, s.phase.next, fails);
    case Unlink(fails) => PutBackUntouched(s, s.phase.name, s.phase.next, fails);
    case Check => SettleUntouched(s, s.phase.name, s.phase.read, false);
    case Rename(fails) => SettleUntouched(s, s.phase.name, s.phase.read, fails);
    case Compare => DecideUntouched(s, s.phase.name, s.phase.read, 0, false);
    case Remove(fails) => DecideUntouched(s, s.phase.name, None, s.phase.id, fails);
  }

  lemma DirsStep(s: Spool, a: Step)
    requires Enabled(s, a)
    ensures Next(s, a).dirs == s.dirs + if a.RenameIn? && a.dir then {a.file} else {}
  {
    if a.Link? || a.Unlink? || a.Check? || a.Rename? || a.Compare? || a.Remove? { SettlingUntouched(s, a); }
  }

  lemma {:induction false} DirsAreHistory(s: Spool, steps: seq<Step>, f: nat)
    requires IsRun(s, steps)
    ensures f in After(s, steps).dirs <==> f in s.dirs || CameAsDir(steps, f)
    decreases |steps|
  {
    if steps != [] {
      assert steps == [steps[0]] + steps[1..];
      CameFirst(steps[0], steps[1..], f);
      DirsStep(s, steps[0]);
      DirsAreHistory(Next(s, steps[0]), steps[1..], f);
    }
  }

  /** What the feeder deleted is gone, under every name and for good; and a directory is
      never read and never deleted. */
  lemma DeletedIsGone(steps: seq<Step>, f: nat)
    requires IsRun(Start(), steps)
    ensures var s := After(Start(), steps);
            f in s.released ==> forall n :: At(s.live, n) != Some(f) && At(s.aside, n) != Some(f)
    ensures CameAsDir(steps, f) ==> f !in After(Start(), steps).stampings && f !in After(Start(), steps).released
  {
    RunKeeps(Start(), steps);
    RunDeparted(Start(), steps);
    DirsAreHistory(Start(), steps, f);
    var s := After(Start(), steps);
    if f in s.released { assert !Named(s, f); }
  }

  /** The step reads or refuses that file. */
  predicate Finds(s: Spool, a: Step, f: nat) {
    a.Open? && s.phase.Opening? &&
    match a.outcome
    case Unreadable => false
    case RefusedSymlink => s.phase.before == Some(f)
    case _ => At(s.live, s.phase.name) == Some(f)
  }

  predicate NoBoot(steps: seq<Step>) { forall i :: 0 <= i < |steps| ==> !steps[i].Boot? }

  /** Some step of the run read or refused the file, and the agent has not started since. */
  predicate FoundThisLife(s: Spool, steps: seq<Step>, f: nat)
    requires IsRun(s, steps)
    decreases |steps|
  {
    steps != [] &&
    ((Finds(s, steps[0], f) && NoBoot(steps[1..])) || FoundThisLife(Next(s, steps[0]), steps[1..], f))
  }

  lemma ConsumedStep(s: Spool, a: Step, f: nat)
    requires Enabled(s, a)
    ensures f in Next(s, a).consumed <==> Finds(s, a, f) || (f in s.consumed && !a.Boot?)
  {
    if a.Link? || a.Unlink? || a.Check? || a.Rename? || a.Compare? || a.Remove? { SettlingUntouched(s, a); }
  }

  lemma NoBootFirst(a: Step, tail: seq<Step>)
    ensures NoBoot([a] + tail) <==> !a.Boot? && NoBoot(tail)
  {
    var steps := [a] + tail;
    assert steps[0] == a && forall i :: 0 < i < |steps| ==> steps[i] == tail[i - 1];
    assert forall i :: 0 <= i < |tail| ==> tail[i] == steps[i + 1];
  }

  lemma {:induction false} ConsumedIsFound(s: Spool, steps: seq<Step>, f: nat)
    requires IsRun(s, steps)
    ensures f in After(s, steps).consumed <==> FoundThisLife(s, steps, f) || (f in s.consumed && NoBoot(steps))
    decreases |steps|
  {
    if steps != [] {
      assert steps == [steps[0]] + steps[1..];
      NoBootFirst(steps[0], steps[1..]);
      ConsumedStep(s, steps[0], f);
      ConsumedIsFound(Next(s, steps[0]), steps[1..], f);
    }
  }

  /** The feeder only ever comes to delete a file it read or refused since the agent last
      started, whatever the emitter renames in meanwhile. */
  lemma DeletesOnlyWhatItRead(steps: seq<Step>)
    requires IsRun(Start(), steps) && After(Start(), steps).phase.Deleting?
    ensures FoundThisLife(Start(), steps, After(Start(), steps).phase.id)
  {
    NeverLoses(steps);
    ConsumedIsFound(Start(), steps, After(Start(), steps).phase.id);
  }

  lemma ListedStep(s: Spool, a: Step)
    requires Enabled(s, a) && s.listed == {} && !a.List?
    ensures Next(s, a).listed == {} && !a.Look?
  {
    if a.Link? || a.Unlink? || a.Check? || a.Rename? || a.Compare? || a.Remove? { SettlingUntouched(s, a); }
  }

  lemma {:induction false} NotListedYet(s: Spool, steps: seq<Step>, j: nat)
    requires IsRun(s, steps) && j < |steps| && steps[j].Look? && s.listed == {}
    ensures exists k :: 0 <= k < j && steps[k].List?
    decreases |steps|
  {
    if !steps[0].List? {
      ListedStep(s, steps[0]);
      assert j > 0 && steps[j] == steps[1..][j - 1];
      NotListedYet(Next(s, steps[0]), steps[1..], j - 1);
      var k :| 0 <= k < j - 1 && steps[1..][k].List?;
      assert steps[k + 1] == steps[1..][k];
    }
  }

  /** After a boot nothing is read before the directory is listed again. */
  lemma {:induction false} BootListsAgain(s: Spool, steps: seq<Step>, i: nat, j: nat)
    requires IsRun(s, steps) && i < j < |steps| && steps[i].Boot? && steps[j].Look?
    ensures exists k :: i < k < j && steps[k].List?
    decreases |steps|
  {
    var tail := steps[1..];
    assert steps[j] == tail[j - 1];
    if i == 0 {
      NotListedYet(Next(s, steps[0]), tail, j - 1);
      var k :| 0 <= k < j - 1 && tail[k].List?;
      assert steps[k + 1] == tail[k];
    } else {
      assert steps[i] == tail[i - 1];
      BootListsAgain(Next(s, steps[0]), tail, i - 1, j - 1);
      var k :| i - 1 < k < j - 1 && tail[k].List?;
      assert steps[k + 1] == tail[k];
    }
  }

  // ---- No file is stamped twice in one life -----------------------------------

  /** The name is settling, or will be, for another file than the stamped one aside it:
      the settling's put-back would give that one its name back. */
  predicate Returns(s: Spool, n: string) {
    && n in s.aside && s.aside[n] in s.stampings
    && ((n in s.pending && s.pending[n].id != s.aside[n])
        || (s.phase.Linking? && s.phase.name == n && s.phase.next.FirstRename?
            && s.phase.next.read != Some(s.aside[n])))
  }

  /** The emitter does not delete a segment whose settling would return a stamped file. */
  predicate Careful(s: Spool, a: Step) { a.Delete? ==> !Returns(s, a.name) }

  predicate CarefulRun(s: Spool, steps: seq<Step>)
    requires IsRun(s, steps)
    decreases |steps|
  {
    steps == [] || (Careful(s, steps[0]) && CarefulRun(Next(s, steps[0]), steps[1..]))
  }

  predicate Distinct(ids: seq<nat>) { forall i, j :: 0 <= i < j < |ids| ==> ids[i] != ids[j] }

  /** The name a read or a settling holds, before anything is parked under it. */
  function Busy(p: Phase): Option<string> {
    match p
    case Opening(n, _) => Some(n)
    case Linking(n, next) => if next.FirstRename? then Some(n) else None
    case Unlinking(n, next) => if next.FirstRename? then Some(n) else None
    case Checking(n, _) => Some(n)
    case Renaming(n, _) => Some(n)
    case Comparing(n, _) => Some(n)
    case Deleting(n, _) => Some(n)
    case _ => None
  }

  /** The name a settling's last put-back works on. */
  function PuttingBack(p: Phase): Option<string> {
    if (p.Linking? || p.Unlinking?) && p.next.Nothing? then Some(p.name) else None
  }

  /** The file being settled while it may still hold its live name. */
  function InHand(p: Phase): Option<nat> {
    match p
    case Linking(_, next) => if next.FirstRename? then next.read else None
    case Unlinking(_, next) => if next.FirstRename? then next.read else None
    case Checking(_, read) => read
    case Renaming(_, read) => read
    case _ => None
  }

  /** A stamped file at a live name is pending, in hand or parked there. */
  predicate LiveGuarded(s: Spool) {
    forall n :: n in s.live && s.live[n] in s.stampings ==>
      || (n in s.pending && s.pending[n].id == s.live[n])
      || (Busy(s.phase) == Some(n) && InHand(s.phase) == Some(s.live[n]))
      || At(s.stuck, n) == Some(s.live[n])
  }

  /** A stamped file aside cannot be put back unguarded: while its name may be settled
      the live name is taken, and otherwise it is parked first. */
  predicate AsideGuarded(s: Spool) {
    forall n :: n in s.aside && s.aside[n] in s.stampings ==>
      && (Returns(s, n) ==> n in s.live)
      && (s.phase.Linking? && s.phase.name == n && s.phase.next.Nothing? ==> At(s.stuck, n) == Some(s.aside[n]))
      && (s.phase.Comparing? && s.phase.name == n ==> s.phase.read == Some(s.aside[n]))
  }

  predicate MemoryGuarded(s: Spool) {
    && Distinct(s.stampings)
    && (forall f :: f in s.stampings ==> f in s.home && f !in s.dirs)
    && (forall n :: n in s.pending || n in s.listed ==> n !in s.stuck)
    && (forall n :: n in s.listed ==> n !in s.pending)
    && (Busy(s.phase).Some? ==> var n := Busy(s.phase).value; n !in s.pending && n !in s.listed && n !in s.stuck)
    && (PuttingBack(s.phase).Some? ==> var n := PuttingBack(s.phase).value; n !in s.pending && n !in s.listed)
    && (s.phase.Recovering? || ((s.phase.Linking? || s.phase.Unlinking?) && s.phase.next.MoreRecovery?) ==>
          s.stampings == [] && s.pending == map[] && s.stuck == map[])
  }

  predicate Once(s: Spool) { LiveGuarded(s) && AsideGuarded(s) && MemoryGuarded(s) }

  lemma OutsideOnce(s: Spool, a: Step)
    requires Inv(s) && Once(s) && Enabled(s, a) && Careful(s, a)
    requires a.RenameIn? || a.Delete? || a.BufferMoves?
    ensures Once(Next(s, a))
  {
  }

  lemma BootOnce(s: Spool, lists: bool)
    requires Inv(s) && Once(s) && Enabled(s, Boot(lists))
    ensures Once(Next(s, Boot(lists)))
  {
  }

  lemma RecoverOnce(s: Spool, n: string)
    requires Inv(s) && Once(s) && Enabled(s, Recover(n))
    ensures Once(Next(s, Recover(n)))
  {
  }

  lemma RecoveredOnce(s: Spool)
    requires Inv(s) && Once(s) && Enabled(s, Recovered)
    ensures Once(Next(s, Recovered))
  {
  }

  lemma ListOnce(s: Spool)
    requires Inv(s) && Once(s) && Enabled(s, List)
    ensures Once(Next(s, List))
  {
  }

  lemma LookOnce(s: Spool, n: string)
    requires Inv(s) && Once(s) && Enabled(s, Look(n))
    ensures Once(Next(s, Look(n)))
  {
  }

  lemma StillHeldOnce(s: Spool, n: string)
    requires Inv(s) && Once(s) && Enabled(s, StillHeld(n))
    ensures Once(Next(s, StillHeld(n)))
  {
  }

  lemma StartSettleOnce(s: Spool, n: string)
    requires Inv(s) && Once(s) && Enabled(s, StartSettle(n))
    ensures Once(Next(s, StartSettle(n)))
  {
  }

  lemma OpenOnce(s: Spool, n: string, before: Option<nat>, outcome: Opened)
    requires Inv(s) && Once(s) && s.phase == Opening(n, before) && (outcome.Unreadable? || n in s.live)
    requires outcome.ReadFile? ==> s.live[n] !in s.dirs
    ensures Once(OpenedAs(s, n, before, outcome))
  {
    match outcome
    case Unreadable => NotReadOnce(s, n, before, s, Idle);
    case RefusedFile =>
      NotReadOnce(s, n, before, s.(consumed := s.consumed + {s.live[n]}), Linking(n, FirstRename(Some(s.live[n]))));
    case RefusedSymlink =>
      var consumed := if before.Some? then s.consumed + {before.value} else s.consumed;
      NotReadOnce(s, n, before, s.(consumed := consumed), Linking(n, FirstRename(before)));
    case ReadFile(count) =>
      if count == 0 {
        NotReadOnce(s, n, before, s.(consumed := s.consumed + {s.live[n]}), Linking(n, FirstRename(Some(s.live[n]))));
      } else {
        ReadOnce(s, n, before, count);
      }
  }

  /** Nothing was stamped: the name is let go, or its settling begins. */
  lemma NotReadOnce(s: Spool, n: string, before: Option<nat>, s1: Spool, phase: Phase)
    requires Once(s) && s.phase == Opening(n, before) && s1 == s.(consumed := s1.consumed)
    requires phase == Idle || (phase.Linking? && phase.name == n && phase.next.FirstRename? && n in s.live)
    ensures Once(s1.(phase := phase))
  {
    var s' := s1.(phase := phase);
    assert n in s.live ==> s.live[n] !in s.stampings;
    assert MemoryGuarded(s');
    assert LiveGuarded(s');
  }

  lemma ReadOnce(s: Spool, n: string, before: Option<nat>, count: nat)
    requires Placed(s) && Once(s) && s.phase == Opening(n, before) && n in s.live && s.live[n] !in s.dirs && count > 0
    ensures Once(OpenedAs(s, n, before, ReadFile(count)))
  {
    var s' := OpenedAs(s, n, before, ReadFile(count));
    assert s.live[n] !in s.stampings && s.live[n] in s.home;
    assert NewlyRead(s, s', n);
    ReadMemory(s, s', n);
    ReadLive(s, s', n);
    ReadAside(s, s', n);
  }

  /** The segment at `n`, stamped for the first time, is now pending. */
  predicate NewlyRead(s: Spool, s': Spool, n: string)
    requires n in s.live
  {
    && s'.live == s.live && s'.aside == s.aside && s'.stuck == s.stuck && s'.listed == s.listed && s'.home == s.home
    && s'.dirs == s.dirs && s'.stampings == s.stampings + [s.live[n]] && s'.phase == Idle
    && n in s'.pending && s'.pending[n].id == s.live[n] && s'.pending == s.pending[n := s'.pending[n]]
  }

  lemma ReadMemory(s: Spool, s': Spool, n: string)
    requires MemoryGuarded(s) && Busy(s.phase) == Some(n) && n in s.live && NewlyRead(s, s', n)
    requires s.live[n] !in s.stampings && s.live[n] in s.home && s.live[n] !in s.dirs
    ensures MemoryGuarded(s')
  {
  }

  lemma ReadLive(s: Spool, s': Spool, n: string)
    requires Placed(s) && LiveGuarded(s) && n in s.live && s.phase.Opening? && s.phase.name == n && NewlyRead(s, s', n)
    ensures LiveGuarded(s')
  {
    assert forall m :: m in s.live && s.live[m] == s.live[n] ==> m == n;
  }

  lemma ReadAside(s: Spool, s': Spool, n: string)
    requires Placed(s) && AsideGuarded(s) && n in s.live && s.phase.Opening? && NewlyRead(s, s', n)
    ensures AsideGuarded(s')
  {
    forall m | m in s'.aside && s'.aside[m] in s'.stampings && Returns(s', m) ensures m in s'.live {
      if m != n { assert s.aside[m] in s.stampings; }
    }
  }

  lemma ResumedOnce(s: Spool, n: string, next: Then, clear: bool)
    requires Once(s) && (s.phase == Linking(n, next) || s.phase == Unlinking(n, next)) && (clear ==> n !in s.aside)
    ensures Once(Resumed(s, n, next, clear))
  {
  }

  lemma LinkOnce(s: Spool, n: string, next: Then, fails: bool)
    requires Inv(s) && Once(s) && s.phase == Linking(n, next)
    ensures Once(Linked(s, n, next, fails))
  {
    if fails || n !in s.aside { ResumedOnce(s, n, next, !fails); }
  }

  lemma UnlinkOnce(s: Spool, n: string, next: Then, fails: bool)
    requires Inv(s) && Once(s) && s.phase == Unlinking(n, next)
    ensures Once(Unlinked(s, n, next, fails))
  {
    if fails { ResumedOnce(s, n, next, false); } else { ClearedOnce(s, n, next); }
  }

  lemma ClearedOnce(s: Spool, n: string, next: Then)
    requires Once(s) && n in s.aside && s.phase == Unlinking(n, next)
    ensures Once(Unlinked(s, n, next, false))
  {
    var s' := Unlinked(s, n, next, false);
    assert s'.live == s.live && s'.stampings == s.stampings && s'.aside == s.aside - {n};
    assert MemoryGuarded(s');
    assert LiveGuarded(s');
  }

  lemma CheckOnce(s: Spool, n: string, read: Option<nat>)
    requires Inv(s) && Once(s) && s.phase == Checking(n, read)
    ensures Once(Checked(s, n, read))
  {
    if n in s.live && s.live[n] in s.dirs {
      ParkOnce(s, n, read);
    } else {
      var s' := s.(phase := Renaming(n, read));
      assert Busy(s'.phase) == Busy(s.phase) && InHand(s'.phase) == InHand(s.phase);
      assert MemoryGuarded(s') && LiveGuarded(s');
    }
  }

  lemma ParkOnce(s: Spool, n: string, read: Option<nat>)
    requires Inv(s) && Once(s) && (s.phase == Checking(n, read) || s.phase == Renaming(n, read))
    ensures Once(Parked(s, n, read))
  {
    var s' := Parked(s, n, read);
    assert s'.phase == Idle && Busy(s.phase) == Some(n) && InHand(s.phase) == read;
    forall m | m in s'.live && s'.live[m] in s'.stampings
      ensures (m in s'.pending && s'.pending[m].id == s'.live[m]) || At(s'.stuck, m) == Some(s'.live[m])
    {
    }
    assert MemoryGuarded(s');
  }

  lemma RenameOnce(s: Spool, n: string, read: Option<nat>, fails: bool)
    requires Inv(s) && Once(s) && s.phase == Renaming(n, read)
    ensures Once(Renamed(s, n, read, fails))
  {
    if fails {
      ParkOnce(s, n, read);
    } else if n !in s.live {
      GoneOnce(s, n, read);
    } else {
      MovedOnce(s, n, read);
    }
  }

  lemma GoneOnce(s: Spool, n: string, read: Option<nat>)
    requires Once(s) && s.phase == Renaming(n, read) && n !in s.live
    ensures Once(s.(phase := Idle))
  {
    var s' := s.(phase := Idle);
    assert MemoryGuarded(s') && LiveGuarded(s');
  }

  lemma MovedOnce(s: Spool, n: string, read: Option<nat>)
    requires Placed(s) && Once(s) && s.phase == Renaming(n, read) && n in s.live
    ensures Once(Renamed(s, n, read, false))
  {
    var s' := Renamed(s, n, read, false);
    var g := s.live[n];
    assert s' == s.(live := s.live - {n}, aside := s.aside[n := g], phase := Comparing(n, read));
    assert g in s.stampings ==> read == Some(g);
    assert MemoryGuarded(s');
    assert LiveGuarded(s');
    forall m | m in s'.aside && s'.aside[m] in s'.stampings
      ensures (Returns(s', m) ==> m in s'.live) && (m == n ==> read == Some(s'.aside[m]))
    {
    }
    assert AsideGuarded(s');
  }

  lemma CompareOnce(s: Spool, n: string, read: Option<nat>)
    requires Inv(s) && Once(s) && s.phase == Comparing(n, read)
    ensures Once(Compared(s, n, read))
  {
    if read.Some? && At(s.aside, n) == read {
      ComparedOnce(s, n, read, Deleting(n, read.value));
    } else {
      assert s.aside[n] !in s.stampings;
      ComparedOnce(s, n, read, Linking(n, Nothing));
    }
  }

  lemma ComparedOnce(s: Spool, n: string, read: Option<nat>, phase: Phase)
    requires Once(s) && s.phase == Comparing(n, read) && n in s.aside
    requires (phase.Deleting? && phase.name == n) || (phase == Linking(n, Nothing) && s.aside[n] !in s.stampings)
    ensures Once(s.(phase := phase))
  {
    var s' := s.(phase := phase);
    assert MemoryGuarded(s');
    assert LiveGuarded(s');
  }

  lemma RemoveOnce(s: Spool, n: string, id: nat, fails: bool)
    requires Inv(s) && Once(s) && s.phase == Deleting(n, id)
    ensures Once(Removed(s, n, id, fails))
  {
  }

  lemma StepOnce(s: Spool, a: Step)
    requires Inv(s) && Once(s) && Enabled(s, a) && Careful(s, a)
    ensures Once(Next(s, a))
  {
    match a
    case RenameIn(n, f, dir) => OutsideOnce(s, a);
    case Delete(n) => OutsideOnce(s, a);
    case BufferMoves(_, _, _) => OutsideOnce(s, a);
    case Open(outcome) => OpenOnce(s, s.phase.name, s.phase.before, outcome);
    case Link(fails) => LinkOnce(s, s.phase.name, s.phase.next, fails);
    case Unlink(fails) => UnlinkOnce(s, s.phase.name, s.phase.next, fails);
    case Check => CheckOnce(s, s.phase.name, s.phase.read);
    case Rename(fails) => RenameOnce(s, s.phase.name, s.phase.read, fails);
    case Compare => CompareOnce(s, s.phase.name, s.phase.read);
    case Remove(fails) => RemoveOnce(s, s.phase.name, s.phase.id, fails);
    case Boot(lists) => BootOnce(s, lists);
    case Recover(n) => RecoverOnce(s, n);
    case Recovered => RecoveredOnce(s);
    case List => ListOnce(s);
    case Look(n) => LookOnce(s, n);
    case StillHeld(n) => StillHeldOnce(s, n);
    case NoRoom =>
    case StartSettle(n) => StartSettleOnce(s, n);
  }

  lemma {:induction false} RunOnce(s: Spool, steps: seq<Step>)
    requires Inv(s) && Once(s) && IsRun(s, steps) && CarefulRun(s, steps)
    ensures Once(After(s, steps))
    decreases |steps|
  {
    if steps != [] {
      StepKeeps(s, steps[0]);
      StepOnce(s, steps[0]);
      RunOnce(Next(s, steps[0]), steps[1..]);
    }
  }

  /** No file is stamped twice in one life of the feeder, whatever calls fail, unless the
      emitter deletes a segment over a stranded one. */
  lemma StampedOnce(steps: seq<Step>)
    requires IsRun(Start(), steps) && CarefulRun(Start(), steps)
    ensures Distinct(After(Start(), steps).stampings)
  {
    RunOnce(Start(), steps);
  }

  // ---- Where it fails ---------------------------------------------------------

  predicate Leads(s0: Spool, steps: seq<Step>, s: Spool) { IsRun(s0, steps) && After(s0, steps) == s }

  predicate Reaches(steps: seq<Step>, s: Spool) { Leads(Start(), steps, s) }

  lemma {:induction false} RunThen(s0: Spool, steps: seq<Step>, a: Step)
    requires IsRun(s0, steps) && Enabled(After(s0, steps), a)
    ensures IsRun(s0, steps + [a]) && After(s0, steps + [a]) == Next(After(s0, steps), a)
    ensures !a.Delete? && CarefulRun(s0, steps) ==> CarefulRun(s0, steps + [a])
    decreases |steps|
  {
    if steps == [] {
      assert [a][1..] == [];
    } else {
      assert (steps + [a])[1..] == steps[1..] + [a];
      RunThen(Next(s0, steps[0]), steps[1..], a);
    }
  }

  /** `steps` takes `s0` to `s` without any deletion by the emitter. */
  predicate Quietly(s0: Spool, steps: seq<Step>, s: Spool) { Leads(s0, steps, s) && CarefulRun(s0, steps) }

  lemma Do(s0: Spool, steps: seq<Step>, s: Spool, a: Step) returns (steps': seq<Step>, s': Spool)
    requires Quietly(s0, steps, s) && Enabled(s, a) && !a.Delete?
    ensures Quietly(s0, steps', s') && s' == Next(s, a)
  {
    RunThen(s0, steps, a);
    steps', s' := steps + [a], Next(s, a);
  }

  /** A read, a settling or its last put-back, on another name than `n`. */
  predicate Ending(p: Phase, n: string) {
    match p
    case Idle => true
    case Recovering(_) => false
    case Linking(m, next) => m != n && !next.MoreRecovery?
    case Unlinking(m, next) => m != n && !next.MoreRecovery?
    case _ => p.name != n
  }

  /** The feeder finishes whatever it is doing to another name, with calls that fail. */
  lemma Finish(s0: Spool, steps: seq<Step>, s: Spool, n: string) returns (steps': seq<Step>, s': Spool)
    requires Quietly(s0, steps, s) && Ending(s.phase, n)
    ensures Quietly(s0, steps', s') && s'.phase == Idle && SameElsewhere(s, s', n)
  {
    match s.phase
    case Idle => steps', s' := steps, s;
    case Opening(_, _) => steps', s' := FinishIn(s0, steps, s, n, Open(Unreadable));
    case Linking(_, _) => steps', s' := FinishIn(s0, steps, s, n, Link(true));
    case Unlinking(_, _) => steps', s' := FinishIn(s0, steps, s, n, Unlink(true));
    case Checking(_, _) => steps', s' := FinishCheck(s0, steps, s, n);
    case Renaming(_, _) => steps', s' := FinishIn(s0, steps, s, n, Rename(true));
    case Comparing(_, _) => steps', s' := FinishCompare(s0, steps, s, n);
    case Deleting(_, _) => steps', s' := FinishDelete(s0, steps, s, n);
  }

  /** One failing call is enough to end what the feeder is doing. */
  predicate Ends(s: Spool, a: Step) {
    match a
    case Open(outcome) => s.phase.Opening? && outcome.Unreadable?
    case Link(fails) => s.phase.Linking? && fails
    case Unlink(fails) => s.phase.Unlinking? && fails
    case Rename(fails) => s.phase.Renaming? && fails
    case _ => false
  }

  lemma EndsIdle(s: Spool, n: string, a: Step)
    requires Ending(s.phase, n) && Ends(s, a)
    ensures Enabled(s, a) && Next(s, a).phase == Idle && SameElsewhere(s, Next(s, a), n)
  {
    match a
    case Open(_) =>
    case Link(_) => ResumedIdle(s, s.phase.name, s.phase.next, n);
    case Unlink(_) => ResumedIdle(s, s.phase.name, s.phase.next, n);
    case Rename(_) => ParkedIdle(s, s.phase.name, s.phase.read, n);
  }

  lemma ParkedIdle(s: Spool, m: string, read: Option<nat>, n: string)
    requires m != n
    ensures Parked(s, m, read).phase == Idle && SameElsewhere(s, Parked(s, m, read), n)
  {
  }

  lemma ResumedIdle(s: Spool, m: string, next: Then, n: string)
    requires m != n && !next.MoreRecovery?
    ensures Resumed(s, m, next, false).phase == Idle && SameElsewhere(s, Resumed(s, m, next, false), n)
  {
    if next.FirstRename? { ParkedIdle(s, m, next.read, n); }
  }

  lemma FinishIn(s0: Spool, steps: seq<Step>, s: Spool, n: string, a: Step) returns (steps': seq<Step>, s': Spool)
    requires Quietly(s0, steps, s) && Ending(s.phase, n) && Ends(s, a)
    ensures Quietly(s0, steps', s') && s'.phase == Idle && SameElsewhere(s, s', n)
  {
    EndsIdle(s, n, a);
    steps', s' := Do(s0, steps, s, a);
  }

  lemma FinishCheck(s0: Spool, steps: seq<Step>, s: Spool, n: string) returns (steps': seq<Step>, s': Spool)
    requires Quietly(s0, steps, s) && s.phase.Checking? && s.phase.name != n
    ensures Quietly(s0, steps', s') && s'.phase == Idle && SameElsewhere(s, s', n)
  {
    CheckedThere(s, n);
    steps', s' := Do(s0, steps, s, Check);
    if s'.phase.Renaming? { steps', s' := FinishIn(s0, steps', s', n, Rename(true)); }
  }

  lemma CheckedThere(s: Spool, n: string)
    requires s.phase.Checking? && s.phase.name != n
    ensures var s' := Next(s, Check);
            SameElsewhere(s, s', n) && (s'.phase == Idle || s'.phase == Renaming(s.phase.name, s.phase.read))
  {
    var s' := Checked(s, s.phase.name, s.phase.read);
    if !s'.phase.Renaming? { ParkedIdle(s, s.phase.name, s.phase.read, n); }
  }

  lemma FinishCompare(s0: Spool, steps: seq<Step>, s: Spool, n: string) returns (steps': seq<Step>, s': Spool)
    requires Quietly(s0, steps, s) && s.phase.Comparing? && s.phase.name != n
    ensures Quietly(s0, steps', s') && s'.phase == Idle && SameElsewhere(s, s', n)
  {
    ComparedThere(s, n);
    steps', s' := Do(s0, steps, s, Compare);
    if s'.phase.Deleting? {
      steps', s' := FinishDelete(s0, steps', s', n);
    } else {
      steps', s' := FinishIn(s0, steps', s', n, Link(true));
    }
  }

  lemma ComparedThere(s: Spool, n: string)
    requires s.phase.Comparing? && s.phase.name != n
    ensures var s' := Next(s, Compare);
            && s' == s.(phase := s'.phase) && SameElsewhere(s, s', n)
            && (s'.phase == Linking(s.phase.name, Nothing) || (s'.phase.Deleting? && s'.phase.name == s.phase.name))
  {
    assert Next(s, Compare) == Compared(s, s.phase.name, s.phase.read);
  }

  lemma FinishDelete(s0: Spool, steps: seq<Step>, s: Spool, n: string) returns (steps': seq<Step>, s': Spool)
    requires Quietly(s0, steps, s) && s.phase.Deleting? && s.phase.name != n
    ensures Quietly(s0, steps', s') && s'.phase == Idle && SameElsewhere(s, s', n)
  {
    steps', s' := Do(s0, steps, s, Remove(true));
    steps', s' := FinishIn(s0, steps', s', n, Link(true));
  }

  /** Nothing about name `n`, and no other file's standing, differs. */
  predicate SameElsewhere(s: Spool, s': Spool, n: string) {
    && At(s'.live, n) == At(s.live, n) && At(s'.aside, n) == At(s.aside, n) && At(s'.stuck, n) == At(s.stuck, n)
    && s'.pending == s.pending && s'.dirs == s.dirs && s'.stampings == s.stampings && s'.last == s.last
  }

  /** A put-back gives the stranded file its name back. */
  lemma BackToName(s0: Spool, steps: seq<Step>, s: Spool, n: string, next: Then) returns (steps': seq<Step>, s': Spool)
    requires Quietly(s0, steps, s) && s.phase == Linking(n, next)
    requires n !in s.live && n in s.aside && s.aside[n] !in s.dirs
    ensures Quietly(s0, steps', s')
    ensures s' == Resumed(s.(live := s.live[n := s.aside[n]], aside := s.aside - {n}), n, next, true)
  {
    steps', s' := Do(s0, steps, s, Link(false));
    steps', s' := Do(s0, steps', s', Unlink(false));
  }

  /** A settling as far as its file renamed aside and compared. */
  lemma SettleToCompare(s0: Spool, steps: seq<Step>, s: Spool, n: string, read: Option<nat>)
    returns (steps': seq<Step>, s': Spool)
    requires Quietly(s0, steps, s) && s.phase == Checking(n, read) && n in s.live && s.live[n] !in s.dirs
    ensures Quietly(s0, steps', s')
    ensures s' == Compared(s.(live := s.live - {n}, aside := s.aside[n := s.live[n]]), n, read)
  {
    steps', s' := Do(s0, steps, s, Check);
    steps', s' := Do(s0, steps', s', Rename(false));
    steps', s' := Do(s0, steps', s', Compare);
  }

  /** A segment at its name is read, and one event stamped. */
  lemma ReadAgain(s0: Spool, steps: seq<Step>, s: Spool, n: string) returns (steps': seq<Step>, s': Spool)
    requires Quietly(s0, steps, s) && s.phase == Idle && n !in s.pending
    requires n in s.live && s.live[n] !in s.dirs && At(s.stuck, n) != Some(s.live[n])
    ensures Quietly(s0, steps', s') && s'.stampings == s.stampings + [s.live[n]]
    ensures s'.phase == Idle && s'.live == s.live && s'.aside == s.aside && s'.dirs == s.dirs && s'.home == s.home
    ensures s'.pending.Keys == s.pending.Keys + {n} && s'.pending[n].id == s.live[n] && n !in s'.stuck
  {
    steps', s' := LookFor(s0, steps, s, n);
    steps', s' := Do(s0, steps', s', Open(ReadFile(1)));
  }

  /** Shipped events leave the buffer all the room it has. */
  lemma MakeRoom(s0: Spool, steps: seq<Step>, s: Spool) returns (steps': seq<Step>, s': Spool)
    requires Quietly(s0, steps, s)
    ensures Quietly(s0, steps', s') && s' == s.(room := MAX_BUFFERED_EVENTS)
  {
    steps', s' := Do(s0, steps, s, BufferMoves(s.held, s.last, MAX_BUFFERED_EVENTS));
  }

  lemma LookFor(s0: Spool, steps: seq<Step>, s: Spool, n: string) returns (steps': seq<Step>, s': Spool)
    requires Quietly(s0, steps, s) && s.phase == Idle && n !in s.pending
    requires n in s.live && At(s.stuck, n) != Some(s.live[n])
    ensures Quietly(s0, steps', s') && s'.phase == Opening(n, Some(s.live[n])) && n !in s'.stuck
    ensures s' == s.(phase := s'.phase, stuck := s'.stuck, listed := s'.listed, room := s'.room)
  {
    steps', s' := MakeRoom(s0, steps, s);
    steps', s' := Do(s0, steps', s', List);
    steps', s' := Do(s0, steps', s', Look(n));
  }

  /** A settling of another file that finds the name free puts the stranded file back, does
      not delete it, and the next tick stamps it again. */
  lemma StrandedReturns(s0: Spool, steps: seq<Step>, s: Spool, n: string, read: Option<nat>)
    returns (steps': seq<Step>, s': Spool)
    requires Quietly(s0, steps, s) && s.phase == Linking(n, FirstRename(read)) && n !in s.pending && n !in s.stuck
    requires n !in s.live && n in s.aside && s.aside[n] !in s.dirs && read != Some(s.aside[n])
    ensures Quietly(s0, steps', s') && s'.stampings == s.stampings + [s.aside[n]]
  {
    var f := s.aside[n];
    steps', s' := BackToName(s0, steps, s, n, FirstRename(read));
    steps', s' := SettleToCompare(s0, steps', s', n, read);
    assert s'.phase == Linking(n, Nothing) && s'.aside[n] == f && n !in s'.live;
    steps', s' := BackToName(s0, steps', s', n, Nothing);
    steps', s' := ReadAgain(s0, steps', s', n);
  }

  lemma StampedAgain(stampings: seq<nat>, f: nat)
    requires f in stampings
    ensures !Distinct(stampings + [f])
  {
    var i :| 0 <= i < |stampings| && stampings[i] == f;
    assert (stampings + [f])[i] == (stampings + [f])[|stampings|];
  }

  /** Once the emitter has deleted such a segment, the feeder's own next steps stamp the
      stranded file twice. */
  lemma CarelessStampsTwice(s: Spool, n: string) returns (steps: seq<Step>)
    requires Inv(s) && Once(s) && n in s.live && Returns(s, n)
    ensures var s1 := Next(s, Delete(n));
            IsRun(s1, steps) && CarefulRun(s1, steps) && !Distinct(After(s1, steps).stampings)
  {
    var s1 := Next(s, Delete(n));
    var f := s.aside[n];
    var s': Spool;
    steps, s' := [], s1;
    assert Quietly(s1, steps, s1);
    var read := if s.phase.Linking? && s.phase.name == n && s.phase.next.FirstRename? then s.phase.next.read
                else Some(s.pending[n].id);
    if !(s.phase.Linking? && s.phase.name == n && s.phase.next.FirstRename?) {
      steps, s' := Settles(s, n);
    }
    steps, s' := StrandedReturns(s1, steps, s', n, read);
    StampedAgain(s.stampings, f);
  }

  /** After the deletion the pending segment's own settling begins. */
  lemma Settles(s: Spool, n: string) returns (steps: seq<Step>, s': Spool)
    requires Once(s) && n in s.live && n in s.aside && s.aside[n] in s.stampings && n in s.pending
    ensures var s1 := Next(s, Delete(n));
            && Quietly(s1, steps, s') && s'.phase == Linking(n, FirstRename(Some(s.pending[n].id)))
            && n !in s'.pending && n !in s'.stuck && n !in s'.live
            && At(s'.aside, n) == Some(s.aside[n]) && s'.dirs == s.dirs && s'.stampings == s.stampings
  {
    var s1 := Next(s, Delete(n));
    assert Quietly(s1, [], s1);
    steps, s' := FinishAfterDelete(s, n);
    steps, s' := Do(s1, steps, s', BufferMoves({}, s'.last, 0));
    steps, s' := Do(s1, steps, s', StartSettle(n));
  }

  lemma FinishAfterDelete(s: Spool, n: string) returns (steps: seq<Step>, s': Spool)
    requires Once(s) && n in s.live && n in s.aside && s.aside[n] in s.stampings && n in s.pending
    ensures var s1 := Next(s, Delete(n)); Quietly(s1, steps, s') && s'.phase == Idle && SameElsewhere(s1, s', n)
  {
    var s1 := Next(s, Delete(n));
    steps, s' := Finish(s1, [], s1, n);
  }

  /** No careful run from here stamps a file twice. */
  ghost predicate StaysOnce(s: Spool) {
    forall more :: IsRun(s, more) && CarefulRun(s, more) ==> Distinct(After(s, more).stampings)
  }

  /** Exactly which deletions by the emitter keep every file from being stamped twice. */
  lemma DeleteSafeIff(steps: seq<Step>, n: string)
    requires IsRun(Start(), steps) && CarefulRun(Start(), steps) && n in After(Start(), steps).live
    ensures var s := After(Start(), steps); Careful(s, Delete(n)) <==> StaysOnce(Next(s, Delete(n)))
  {
    RunKeeps(Start(), steps);
    RunOnce(Start(), steps);
    var s := After(Start(), steps);
    if Careful(s, Delete(n)) {
      CarefulStaysOnce(s, n);
    } else {
      var more := CarelessStampsTwice(s, n);
    }
  }

  lemma CarefulStaysOnce(s: Spool, n: string)
    requires Inv(s) && Once(s) && n in s.live && Careful(s, Delete(n))
    ensures StaysOnce(Next(s, Delete(n)))
  {
    StepKeeps(s, Delete(n));
    StepOnce(s, Delete(n));
    var s1 := Next(s, Delete(n));
    forall more | IsRun(s1, more) && CarefulRun(s1, more) ensures Distinct(After(s1, more).stampings) {
      RunOnce(s1, more);
    }
  }

  /** A stamped file's deletion and the removal of its second name both fail. */
  lemma Strand(steps: seq<Step>, s: Spool, n: string, f: nat) returns (steps': seq<Step>, s': Spool)
    requires Quietly(Start(), steps, s) && s.phase == Idle && s.pending.Keys == {n} && s.pending[n].id == f
    requires s.live == map[n := f] && s.aside == map[] && s.dirs == {}
    ensures Quietly(Start(), steps', s') && s'.phase == Idle && s'.pending == map[] && s'.dirs == {}
    ensures s'.live == map[n := f] && s'.aside == map[n := f] && s'.stuck == s.stuck[n := f]
    ensures s'.stampings == s.stampings && s'.home == s.home
  {
    steps', s' := Do(Start(), steps, s, BufferMoves({}, s.last, 0));
    steps', s' := Do(Start(), steps', s', StartSettle(n));
    steps', s' := Do(Start(), steps', s', Link(false));
    steps', s' := SettleToCompare(Start(), steps', s', n, Some(f));
    assert s'.live == map[] && s'.aside == map[n := f];
    steps', s' := FailRemoval(steps', s', n, f);
  }

  lemma FailRemoval(steps: seq<Step>, s: Spool, n: string, f: nat) returns (steps': seq<Step>, s': Spool)
    requires Quietly(Start(), steps, s) && s.phase == Deleting(n, f) && s.live == map[]
                && s.aside == map[n := f] && s.dirs == {}
    ensures Quietly(Start(), steps', s') && s' == s.(phase := Idle, live := map[n := f], stuck := s.stuck[n := f])
  {
    steps', s' := Do(Start(), steps, s, Remove(true));
    steps', s' := Do(Start(), steps', s', Link(false));
    steps', s' := Do(Start(), steps', s', Unlink(true));
  }

  /** Such a deletion can be come to, under any name: two failed removals strand the first
      file, and a second one is read in its place. */
  lemma CarelessIsReachable(n: string) returns (steps: seq<Step>)
    ensures IsRun(Start(), steps) && CarefulRun(Start(), steps)
    ensures var s := After(Start(), steps); n in s.live && Returns(s, n)
  {
    var s: Spool;
    steps, s := Do(Start(), [], Start(), RenameIn(n, 1, false));
    assert s.live == map[n := 1];
    steps, s := ReadAgain(Start(), steps, s, n);
    steps, s := Strand(steps, s, n, 1);
    steps, s := Do(Start(), steps, s, RenameIn(n, 2, false));
    steps, s := ReadAgain(Start(), steps, s, n);
    assert s.stampings[0] == 1;
  }

  lemma {:induction false} RunConcat(s0: Spool, first: seq<Step>, second: seq<Step>)
    requires IsRun(s0, first) && IsRun(After(s0, first), second)
    ensures IsRun(s0, first + second) && After(s0, first + second) == After(After(s0, first), second)
    decreases |first|
  {
    if first == [] {
      assert first + second == second;
    } else {
      assert (first + second)[1..] == first[1..] + second;
      RunConcat(Next(s0, first[0]), first[1..], second);
    }
  }

  /** Two failed removals, a new segment, and the emitter's own delete: a file is stamped
      twice. */
  lemma StampedTwice(n: string) returns (steps: seq<Step>)
    ensures IsRun(Start(), steps) && !Distinct(After(Start(), steps).stampings)
  {
    var before := CarelessIsReachable(n);
    RunKeeps(Start(), before);
    RunOnce(Start(), before);
    RunThen(Start(), before, Delete(n));
    var more := CarelessStampsTwice(After(Start(), before), n);
    RunConcat(Start(), before + [Delete(n)], more);
    steps := before + [Delete(n)] + more;
  }

  // ---- The buffer is the event buffer -----------------------------------------

  predicate Mirrors(s: Spool, w: E.World) {
    && s.held == E.Stamps(E.Stream(w.b)) && s.last == w.b.last
    && w.b.max == MAX_BUFFERED_EVENTS && s.room == w.b.max - |w.b.buf|
  }

  /** A boot starts with a new, empty buffer. */
  lemma BootMirrorsEmpty(s: Spool, lists: bool)
    ensures Mirrors(Next(s, Boot(lists)), E.Start(MAX_BUFFERED_EVENTS))
  {
    assert E.Stream(E.Start(MAX_BUFFERED_EVENTS).b) == [];
  }

  /** What the buffer came to, as the protocol sees it. */
  function Moved(b: E.Buffer): Step
    requires |b.buf| <= b.max
  {
    BufferMoves(E.Stamps(E.Stream(b)), b.last, b.max - |b.buf|)
  }

  lemma ForgetsIsMove(s: Spool, b: E.Buffer)
    requires |b.buf| <= b.max == MAX_BUFFERED_EVENTS && s.last <= b.last
    requires forall x :: x in E.Stamps(E.Stream(b)) ==> x in s.held || s.last < x <= b.last
    ensures Enabled(s, Moved(b))
  {
  }

  /** Whatever else happens to the event buffer is a move the protocol allows for: a
      stamp that left never comes back. */
  lemma BufferOnlyForgets(s: Spool, w: E.World, op: E.Op)
    requires E.Inv(w) && E.Enabled(w, op) && Mirrors(s, w)
    ensures var w' := E.Next(w, op);
            |w'.b.buf| <= w'.b.max && Enabled(s, Moved(w'.b)) && Mirrors(Next(s, Moved(w'.b)), w')
  {
    E.OpForgets(w, op);
    ForgetsIsMove(s, E.Next(w, op).b);
  }

  /** Reading a segment is extending the buffer: with room for it exactly the stamps the
      protocol says are given out and nothing is dropped; without, what the bound drops on
      the way is a move of the buffer that follows. */
  lemma ReadIsExtend(s: Spool, w: E.World, bodies: seq<E.Body>, refused: nat, b: E.Buffer, s': Spool)
    requires E.Inv(w) && Mirrors(s, w) && bodies != [] && b == E.Extended(w.b, bodies, refused)
    requires Enabled(s, Open(ReadFile(|bodies|))) && s' == Next(s, Open(ReadFile(|bodies|)))
    ensures |b.buf| <= b.max && b.last == s'.last && s'.room == b.max - |b.buf|
    ensures |bodies| <= s.room ==> b.dropped == w.b.dropped && E.Stamps(E.Stream(b)) == s'.held
    ensures Enabled(s', Moved(b))
  {
    E.ExtendSummary(w, bodies, refused);
    ExtendIsRead(s, w, |bodies|, b, s');
  }

  lemma ExtendIsRead(s: Spool, w: E.World, count: nat, b: E.Buffer, s': Spool)
    requires Mirrors(s, w) && E.ExtendsTo(w.b, b, count) && count > 0
    requires Enabled(s, Open(ReadFile(count))) && s' == Next(s, Open(ReadFile(count)))
    ensures |b.buf| <= b.max && b.last == s'.last && s'.room == b.max - |b.buf|
    ensures count <= s.room ==> b.dropped == w.b.dropped && E.Stamps(E.Stream(b)) == s'.held
    ensures Enabled(s', Moved(b))
  {
    ReadBuffer(s, count);
    assert E.Given(s.last, s.last + count) == Fresh(s.last, s.last + count);
    ForgetsIsMove(s', b);
  }

  lemma ReadBuffer(s: Spool, count: nat)
    requires count > 0 && Enabled(s, Open(ReadFile(count)))
    ensures var s' := Next(s, Open(ReadFile(count)));
            s'.last == s.last + count && s'.room == RoomLeft(s.room, count)
            && s'.held == s.held + Fresh(s.last, s.last + count)
  {
  }

  // ---- The feeder's own code --------------------------------------------------

  /** What happens outside the feeder between two of its calls. */
  predicate Outside(a: Step) { a.RenameIn? || a.Delete? || a.BufferMoves? }

  /** No file aside became a directory. */
  predicate SameDirectories(s: Spool, s': Spool) {
    s.dirs <= s'.dirs && forall n :: n in s.aside && s.aside[n] in s'.dirs ==> s.aside[n] in s.dirs
  }

  /** The feeder is where it was, with the same files aside. */
  predicate Undisturbed(s: Spool, s': Spool) {
    && s'.phase == s.phase && s'.aside == s.aside && s'.pending == s.pending && s'.stuck == s.stuck
    && s'.listed == s.listed && s'.released == s.released && SameDirectories(s, s')
  }

  lemma OutsideLeaves(s: Spool, a: Step)
    requires Inv(s) && Outside(a) && Enabled(s, a)
    ensures Undisturbed(s, Next(s, a))
  {
  }

  /** What a put-back on name `n` leaves the feeder at. */
  predicate Resumes(s: Spool, n: string, next: Then, clear: bool) {
    && (clear ==> n !in s.aside)
    && match next
       case MoreRecovery(todo) => s.phase == Recovering(todo)
       case FirstRename(read) => s.phase == if clear then Checking(n, read) else Idle
       case Nothing => s.phase == Idle
  }

  function ParkedAs(stuck: map<string, nat>, n: string, read: Option<nat>): map<string, nat> {
    if read.Some? then stuck[n := read.value] else stuck
  }

  /** What a put-back does not touch; one that is not clear parks the file it settles. */
  predicate PutBackLeaves(s: Spool, s': Spool, n: string, next: Then, clear: bool) {
    && s'.pending == s.pending && s'.listed == s.listed && s'.released == s.released
    && s'.stuck == (if !clear && next.FirstRename? then ParkedAs(s.stuck, n, next.read) else s.stuck)
    && (s'.aside == s.aside || s'.aside == s.aside - {n})
    && SameDirectories(s, s')
  }

  lemma LinkLeaves(was: Spool, s: Spool, n: string, next: Then, fails: bool)
    requires Undisturbed(was, s) && s.phase == Linking(n, next) && Enabled(s, Link(fails))
    ensures var s' := Linked(s, n, next, fails);
            && Next(s, Link(fails)) == s'
            && PutBackLeaves(was, s', n, next, !fails) && s'.aside == was.aside
            && (Resumes(s', n, next, !fails) || (!fails && s'.phase == Unlinking(n, next) && n in s'.aside))
  {
  }

  lemma UnlinkLeaves(was: Spool, s: Spool, n: string, next: Then, fails: bool)
    requires Undisturbed(was, s) && s.phase == Unlinking(n, next) && Enabled(s, Unlink(fails))
    ensures var s' := Unlinked(s, n, next, fails);
            && Next(s, Unlink(fails)) == s'
            && PutBackLeaves(was, s', n, next, !fails) && Resumes(s', n, next, !fails)
  {
  }

  lemma PutBackThen(s0: Spool, s1: Spool, s2: Spool, n: string, next: Then, clear: bool)
    requires PutBackLeaves(s0, s1, n, next, true) && s1.aside == s0.aside && PutBackLeaves(s1, s2, n, next, clear)
    ensures PutBackLeaves(s0, s2, n, next, clear)
  {
  }

  predicate SettlingLeaves(s: Spool, s': Spool) {
    s'.pending == s.pending && s'.listed == s.listed && s'.dirs >= s.dirs
  }

  /** Where each call of a settling may be made. */
  predicate Calls(p: Phase, n: string, read: Option<nat>, a: Step) {
    match a
    case Check => p == Checking(n, read)
    case Rename(_) => p == Renaming(n, read)
    case Compare => p == Comparing(n, read)
    case Remove(_) => read.Some? && p == Deleting(n, read.value)
    case _ => false
  }

  /** What one call of a settling comes to. */
  predicate CallLeaves(s: Spool, s': Spool, n: string, read: Option<nat>, a: Step) {
    && SettlingLeaves(s, s')
    && s'.released == s.released + (if a == Remove(false) && read.Some? then {read.value} else {})
    && s'.stuck == (if a == Remove(true) || (s'.phase.Idle? && (a.Check? || a == Rename(true)))
                    then ParkedAs(s.stuck, n, read) else s.stuck)
    && match a
       case Check => s'.phase == Renaming(n, read) || (s'.phase.Idle? && s'.dirs != {})
       case Rename(fails) => s'.phase.Idle? || (!fails && s'.phase == Comparing(n, read))
       case Compare => s'.phase == Linking(n, Nothing) || (read.Some? && s'.phase == Deleting(n, read.value))
       case Remove(fails) => s'.phase == if fails then Linking(n, Nothing) else Idle
       case _ => true
  }

  lemma CheckLeaves(was: Spool, s: Spool, n: string, read: Option<nat>)
    requires Undisturbed(was, s) && s.phase == Checking(n, read)
    ensures CallLeaves(was, Checked(s, n, read), n, read, Check)
  {
  }

  lemma RenameLeaves(was: Spool, s: Spool, n: string, read: Option<nat>, fails: bool)
    requires Undisturbed(was, s) && s.phase == Renaming(n, read)
    ensures CallLeaves(was, Renamed(s, n, read, fails), n, read, Rename(fails))
  {
  }

  lemma CompareLeaves(was: Spool, s: Spool, n: string, read: Option<nat>)
    requires Undisturbed(was, s) && s.phase == Comparing(n, read)
    ensures CallLeaves(was, Compared(s, n, read), n, read, Compare)
  {
  }

  lemma RemoveLeaves(was: Spool, s: Spool, n: string, id: nat, fails: bool)
    requires Undisturbed(was, s) && s.phase == Deleting(n, id)
    ensures CallLeaves(was, Removed(s, n, id, fails), n, Some(id), Remove(fails))
  {
  }

  lemma CalledLeaves(was: Spool, s: Spool, n: string, read: Option<nat>, a: Step)
    requires Undisturbed(was, s) && Calls(s.phase, n, read, a)
    ensures Enabled(s, a) && CallLeaves(was, Next(s, a), n, read, a)
  {
    match a
    case Check => CheckLeaves(was, s, n, read);
    case Rename(fails) => RenameLeaves(was, s, n, read, fails);
    case Compare => CompareLeaves(was, s, n, read);
    case Remove(fails) => RemoveLeaves(was, s, n, read.value, fails);
  }

  /** In any run, a segment that was refused or held no event is being settled as soon as
      it was opened, for the very file that was found; one with events waits for them. */
  lemma RefusedIsSettled(steps: seq<Step>, outcome: Opened)
    requires IsRun(Start(), steps) && Enabled(After(Start(), steps), Open(outcome))
    ensures IsRun(Start(), steps + [Open(outcome)])
    ensures var s, s' := After(Start(), steps), After(Start(), steps + [Open(outcome)]);
            var n := s.phase.name;
            match outcome
            case Unreadable => s'.phase.Idle? && s' == s.(phase := s'.phase)
            case RefusedFile => s'.phase == Linking(n, FirstRename(Some(s.live[n]))) && s.live[n] in s'.consumed
            case RefusedSymlink => s'.phase == Linking(n, FirstRename(s.phase.before))
            case ReadFile(count) =>
              && s.live[n] in s'.consumed
              && if count == 0 then s'.phase == Linking(n, FirstRename(Some(s.live[n])))
                 else s'.phase.Idle? && n in s'.pending && s'.pending[n].id == s.live[n]
                      && s'.pending[n].stamps == Fresh(s.last, s'.last) && s'.last == s.last + count
  {
    RunThen(Start(), steps, Open(outcome));
  }

  /** The names a tick has to read: not awaiting their events, not parked as they are. */
  function Unread(s: Spool): set<string> {
    set n | n in s.live && n !in s.pending && At(s.stuck, n) != Some(s.live[n])
  }

  lemma ListsUnread(s: Spool)
    requires Enabled(s, List)
    ensures Next(s, List).listed == Unread(s)
  {
  }

  lemma OpenLeaves(s: Spool, outcome: Opened)
    requires Enabled(s, Open(outcome))
    ensures var s' := Next(s, Open(outcome));
            && s'.listed == s.listed
            && if Waits(outcome) then s'.phase.Idle? && (outcome.ReadFile? ==> s.phase.name in s'.pending)
               else s'.phase.Linking? && s'.phase.name == s.phase.name && s'.phase.next.FirstRename?
  {
  }

  /** Opened and left for later: unreadable now, or with events to wait for. */
  predicate Waits(outcome: Opened) { outcome.Unreadable? || (outcome.ReadFile? && outcome.count > 0) }

  /** The steps taken since, none of which is a boot. */
  ghost predicate Extends(was: seq<Step>, now: seq<Step>) {
    was <= now && forall k :: |was| <= k < |now| ==> !now[k].Boot?
  }

  ghost function Added(was: seq<Step>, now: seq<Step>): set<Step>
    requires was <= now
  {
    set k | |was| <= k < |now| :: now[k]
  }

  lemma AddedOne(was: seq<Step>, mid: seq<Step>, a: Step)
    requires was <= mid
    ensures was <= mid + [a] && Added(was, mid + [a]) == Added(was, mid) + {a}
  {
    var now := mid + [a];
    assert now[|mid|] == a;
    assert forall k :: |was| <= k < |mid| ==> now[k] == mid[k];
  }

  lemma AddedMore(was: seq<Step>, mid: seq<Step>, now: seq<Step>)
    requires was <= mid <= now
    ensures Added(was, mid) <= Added(was, now) && Added(mid, now) <= Added(was, now)
  {
    assert forall k :: |was| <= k < |mid| ==> now[k] == mid[k];
  }

  /** How a settling ended: the file could not go, its name was already gone, it was
      deleted, or another file had taken the name and was put back. */
  datatype Settlement = Stuck | Gone | Erased | Replaced

  /** The feeder's control flow, one call at a time, over the directory and the buffer it
      shares. Its own fields are `s.pending` and `s.stuck`; every method is a run of the
      protocol, whatever happens between its calls. `faulty` says whether calls may fail
      for reasons of their own. */
  class SpoolFeeder {
    var s: Spool
    ghost var past: seq<Step>

    ghost predicate Valid()
      reads this
    {
      Reaches(past, s)
    }

    constructor ()
      ensures Valid() && s == Start()
    {
      s, past := Start(), [];
    }

    method Act(a: Step)
      requires Valid() && Enabled(s, a)
      modifies this
      ensures Valid() && s == Next(old(s), a) && past == old(past) + [a]
    {
      RunThen(Start(), past, a);
      s, past := Next(s, a), past + [a];
    }

    /** Any number of renames, deletions and buffer moves. */
    method Elsewhere()
      requires Valid()
      modifies this
      ensures Valid() && Extends(old(past), past)
      ensures Undisturbed(old(s), s)
    {
      var count: int :| count >= 0;
      for k := 0 to count
        invariant Valid() && Extends(old(past), past)
        invariant Undisturbed(old(s), s)
      {
        assert Enabled(s, BufferMoves(s.held, s.last, 0));
        var a: Step :| Outside(a) && Enabled(s, a);
        RunKeeps(Start(), past);
        OutsideLeaves(s, a);
        Act(a);
      }
    }

    /** Links a file back to its name, then drops the aside name; true once nothing is
        left aside, which only a failing call or a directory prevents. */
    method PutBack(n: string, next: Then, faulty: bool) returns (clear: bool)
      requires Valid() && s.phase == Linking(n, next)
      modifies this
      ensures Valid() && Extends(old(past), past)
      ensures Resumes(s, n, next, clear) && PutBackLeaves(old(s), s, n, next, clear)
      ensures !faulty && !clear ==> n in old(s.aside) && old(s.aside)[n] in s.dirs
    {
      ghost var was := s;
      var linkFails := LinkBack(n, next, faulty);
      if linkFails || s.phase != Unlinking(n, next) {
        return !linkFails;
      }
      ghost var mid := s;
      var unlinkFails := UnlinkAside(n, next, faulty);
      PutBackThen(was, mid, s, n, next, !unlinkFails);
      return !unlinkFails;
    }

    method LinkBack(n: string, next: Then, faulty: bool) returns (fails: bool)
      requires Valid() && s.phase == Linking(n, next)
      modifies this
      ensures Valid() && Extends(old(past), past)
      ensures Resumes(s, n, next, !fails) || (!fails && s.phase == Unlinking(n, next) && n in s.aside)
      ensures PutBackLeaves(old(s), s, n, next, !fails) && s.aside == old(s.aside)
      ensures !faulty && fails ==> n in s.aside && s.aside[n] in s.dirs
    {
      Elsewhere();
      fails :| Enabled(s, Link(fails)) && (!faulty && Enabled(s, Link(false)) ==> !fails);
      LinkLeaves(old(s), s, n, next, fails);
      Act(Link(fails));
    }

    method UnlinkAside(n: string, next: Then, faulty: bool) returns (fails: bool)
      requires Valid() && s.phase == Unlinking(n, next)
      modifies this
      ensures Valid() && Extends(old(past), past)
      ensures Resumes(s, n, next, !fails) && PutBackLeaves(old(s), s, n, next, !fails)
      ensures !faulty && fails ==> n in old(s.aside) && old(s.aside)[n] in s.dirs
    {
      Elsewhere();
      fails :| Enabled(s, Unlink(fails)) && (!faulty && Enabled(s, Unlink(false)) ==> !fails);
      UnlinkLeaves(old(s), s, n, next, fails);
      Act(Unlink(fails));
    }

    /** One call of a settling, after anything else has happened. */
    method Call(n: string, read: Option<nat>, a: Step)
      requires Valid()
      requires Calls(s.phase, n, read, a)
      modifies this
      ensures Valid() && Extends(old(past), past) && a in Added(old(past), past)
      ensures CallLeaves(old(s), s, n, read, a)
    {
      Elsewhere();
      AddedOne(old(past), past, a);
      CalledLeaves(old(s), s, n, read, a);
      Act(a);
    }

    /** Renames the segment aside and deletes it only if it is the file that was read. */
    method Settle(n: string, read: Option<nat>, faulty: bool) returns (end: Settlement)
      requires Valid() && s.phase == Linking(n, FirstRename(read))
      modifies this
      ensures Valid() && Extends(old(past), past) && s.phase == Idle && SettlingLeaves(old(s), s)
      ensures end.Stuck? ==> s.stuck == ParkedAs(old(s.stuck), n, read) && (faulty || s.dirs != {})
      ensures !end.Stuck? ==> s.stuck == old(s.stuck) && Rename(false) in Added(old(past), past)
      ensures end.Erased? ==> read.Some? && Remove(false) in Added(old(past), past)
      ensures s.released == old(s.released) + if end.Erased? then {read.value} else {}
    {
      ghost var was := past;
      var clear := PutBack(n, FirstRename(read), faulty);
      if !clear {
        return Stuck;
      }
      ghost var mid := past;
      end := SettleClear(n, read, faulty);
      AddedMore(was, mid, past);
    }

    /** The same once nothing is left aside. */
    method SettleClear(n: string, read: Option<nat>, faulty: bool) returns (end: Settlement)
      requires Valid() && s.phase == Checking(n, read)
      modifies this
      ensures Valid() && Extends(old(past), past) && s.phase == Idle && SettlingLeaves(old(s), s)
      ensures end.Stuck? ==> s.stuck == ParkedAs(old(s.stuck), n, read) && (faulty || s.dirs != {})
      ensures !end.Stuck? ==> s.stuck == old(s.stuck) && Rename(false) in Added(old(past), past)
      ensures end.Erased? ==> read.Some? && Remove(false) in Added(old(past), past)
      ensures s.released == old(s.released) + if end.Erased? then {read.value} else {}
    {
      ghost var was := past;
      Call(n, read, Check);
      if s.phase.Idle? {
        return Stuck;
      }
      var renameFails: bool := *;
      ghost var mid := past;
      Call(n, read, Rename(faulty && renameFails));
      AddedMore(was, mid, past);
      if s.phase.Idle? {
        return if faulty && renameFails then Stuck else Gone;
      }
      mid := past;
      end := DeleteOrReturn(n, read, faulty);
      AddedMore(was, mid, past);
    }

    /** Renamed aside: the file that was read goes, any other goes back. */
    method DeleteOrReturn(n: string, read: Option<nat>, faulty: bool) returns (end: Settlement)
      requires Valid() && s.phase == Comparing(n, read)
      modifies this
      ensures Valid() && Extends(old(past), past) && s.phase == Idle && SettlingLeaves(old(s), s)
      ensures end.Stuck? ==> s.stuck == ParkedAs(old(s.stuck), n, read) && faulty
      ensures !end.Stuck? ==> s.stuck == old(s.stuck)
      ensures end.Erased? ==> read.Some? && Remove(false) in Added(old(past), past)
      ensures s.released == old(s.released) + if end.Erased? then {read.value} else {}
    {
      ghost var was := past;
      end := Replaced;
      Call(n, read, Compare);
      if s.phase.Deleting? {
        var removeFails: bool := *;
        ghost var mid := past;
        Call(n, read, Remove(faulty && removeFails));
        AddedMore(was, mid, past);
        if s.phase.Idle? {
          return Erased;
        }
        end := Stuck;
      }
      var back := PutBack(n, Nothing, faulty);
    }

    /** At boot every stranded file goes back under its name before anything is read;
        without faults only directories stay aside. */
    method RecoverAsides(lists: bool, faulty: bool)
      requires Valid()
      modifies this
      ensures Valid() && old(past) < past && past[|old(past)|] == Boot(lists)
                 && Extends(old(past) + [Boot(lists)], past)
      ensures lists ==> forall n :: n in old(s.aside) ==> Recover(n) in Added(old(past), past)
      ensures lists && !faulty ==> forall n :: n in s.aside ==> s.aside[n] in s.dirs
      ensures s.phase == Idle && NoFileLost(s)
    {
      Act(Boot(lists));
      ghost var booted := past;
      while s.phase.todo != {}
        invariant Valid() && Extends(booted, past) && s.phase.Recovering?
        invariant s.aside.Keys <= old(s.aside).Keys
        invariant lists ==> forall n :: n in old(s.aside) ==> n in s.phase.todo || Recover(n) in Added(booted, past)
        invariant lists && !faulty ==> forall n :: n in s.aside ==> n in s.phase.todo || s.aside[n] in s.dirs
        decreases s.phase.todo
      {
        var n :| n in s.phase.todo;
        ghost var mid := past;
        RecoverOne(n, faulty);
        AddedMore(booted, mid, past);
      }
      ghost var mid := past;
      AddedOne(booted, past, Recovered);
      Act(Recovered);
      AddedMore(old(past), booted, past);
      NeverLoses(past);
    }

    method RecoverOne(n: string, faulty: bool)
      requires Valid() && s.phase.Recovering? && n in s.phase.todo
      modifies this
      ensures Valid() && Extends(old(past), past) && s.phase == Recovering(old(s.phase.todo) - {n})
      ensures Recover(n) in Added(old(past), past)
      ensures s.aside == old(s.aside) || s.aside == old(s.aside) - {n}
      ensures old(s.dirs) <= s.dirs
      ensures !faulty && n in s.aside ==> s.aside[n] in s.dirs
    {
      Elsewhere();
      var todo := s.phase.todo - {n};
      AddedOne(old(past), past, Recover(n));
      Act(Recover(n));
      ghost var mid := past;
      var back := PutBack(n, MoreRecovery(todo), faulty);
      AddedMore(old(past), mid, past);
    }

    /** Looks at every pending segment and settles it unless its events are still held;
        lists, at step `at`; and reads every name it has to, unless the buffer is found
        without room for a whole segment, which then is what the tick saw last. */
    method Tick(faulty: bool) returns (full: bool, ghost at: nat)
      requires Valid() && s.phase == Idle
      modifies this
      ensures Valid() && Extends(old(past), past) && s.phase == Idle && NoFileLost(s)
      ensures forall n :: n in old(s.pending) ==>
                StartSettle(n) in Added(old(past), past) || StillHeld(n) in Added(old(past), past)
      ensures |old(past)| <= at < |past| && past[at] == List && IsRun(Start(), past[..at])
      ensures forall n :: n in Unread(After(Start(), past[..at])) ==>
                Look(n) in Added(old(past), past) || (full && n in s.listed)
      ensures full ==> past[|past| - 1] == NoRoom && s.room < MAX_SEGMENT_EVENTS
    {
      SettlePending(faulty);
      Elsewhere();
      ghost var settled := past;
      at := |past|;
      ListsUnread(s);
      AddedOne(old(past), past, List);
      Act(List);
      ghost var mid := past;
      full := ReadListed(faulty);
      AddedMore(old(past), mid, past);
      assert past[..at] == settled && past[at] == mid[at];
      NeverLoses(past);
    }

    method ReadListed(faulty: bool) returns (full: bool)
      requires Valid() && s.phase == Idle
      modifies this
      ensures Valid() && Extends(old(past), past) && s.phase == Idle
      ensures forall n :: n in old(s.listed) ==> Look(n) in Added(old(past), past) || (full && n in s.listed)
      ensures full ==> past != [] && past[|past| - 1] == NoRoom && s.room < MAX_SEGMENT_EVENTS
    {
      while s.listed != {}
        invariant Valid() && Extends(old(past), past) && s.phase == Idle
        invariant forall n :: n in old(s.listed) ==> n in s.listed || Look(n) in Added(old(past), past)
        decreases s.listed
      {
        var n :| n in s.listed;
        Elsewhere();
        ghost var mid := past;
        AddedMore(old(past), mid, past);
        if s.room < MAX_SEGMENT_EVENTS {
          AddedOne(old(past), past, NoRoom);
          Act(NoRoom);
          return true;
        }
        var outcome, end := ReadOne(n, faulty);
        AddedMore(old(past), mid, past);
      }
      full := false;
    }

    method SettlePending(faulty: bool)
      requires Valid() && s.phase == Idle
      modifies this
      ensures Valid() && Extends(old(past), past) && s.phase == Idle
      ensures forall n :: n in old(s.pending) ==>
                StartSettle(n) in Added(old(past), past) || StillHeld(n) in Added(old(past), past)
    {
      var names := s.pending.Keys;
      while names != {}
        invariant Valid() && Extends(old(past), past) && s.phase == Idle && names <= s.pending.Keys
        invariant forall n :: n in old(s.pending) ==>
                    n in names || StartSettle(n) in Added(old(past), past) || StillHeld(n) in Added(old(past), past)
        decreases names
      {
        var n :| n in names;
        names := names - {n};
        ghost var mid := past;
        LookAtPending(n, faulty);
        AddedMore(old(past), mid, past);
      }
    }

    method LookAtPending(n: string, faulty: bool)
      requires Valid() && s.phase == Idle && n in s.pending
      modifies this
      ensures Valid() && Extends(old(past), past) && s.phase == Idle
      ensures s.pending == old(s.pending) || s.pending == old(s.pending) - {n}
      ensures StartSettle(n) in Added(old(past), past) || StillHeld(n) in Added(old(past), past)
    {
      Elsewhere();
      if s.pending[n].stamps !! s.held {
        var read := Some(s.pending[n].id);
        AddedOne(old(past), past, StartSettle(n));
        Act(StartSettle(n));
        ghost var mid := past;
        var end := Settle(n, read, faulty);
        AddedMore(old(past), mid, past);
      } else {
        AddedOne(old(past), past, StillHeld(n));
        Act(StillHeld(n));
      }
    }

    /** Opens and reads one segment; one that is refused, or has no events to wait for,
        settles at once. */
    method ReadOne(n: string, faulty: bool) returns (outcome: Opened, end: Option<Settlement>)
      requires Valid() && s.phase == Idle && n in s.listed && s.room >= MAX_SEGMENT_EVENTS
      modifies this
      ensures Valid() && Extends(old(past), past) && s.phase == Idle
      ensures s.listed == old(s.listed) - {n}
      ensures Look(n) in Added(old(past), past) && Open(outcome) in Added(old(past), past)
      ensures end.None? <==> Waits(outcome)
      ensures outcome.ReadFile? && outcome.count > 0 ==> n in s.pending
    {
      AddedOne(old(past), past, Look(n));
      Act(Look(n));
      ghost var looked := past;
      outcome := OpenOne(n);
      AddedMore(old(past), looked, past);
      end := None;
      if !Waits(outcome) {
        ghost var mid := past;
        var settlement := Settle(n, s.phase.next.read, faulty);
        end := Some(settlement);
        AddedMore(old(past), mid, past);
      }
    }

    method OpenOne(n: string) returns (outcome: Opened)
      requires Valid() && s.phase.Opening? && s.phase.name == n
      modifies this
      ensures Valid() && Extends(old(past), past) && Open(outcome) in Added(old(past), past)
      ensures s.listed == old(s.listed)
      ensures if Waits(outcome) then s.phase.Idle? && (outcome.ReadFile? ==> n in s.pending)
              else s.phase.Linking? && s.phase.name == n && s.phase.next.FirstRename?
    {
      Elsewhere();
      assert Enabled(s, Open(Unreadable));
      outcome :| Enabled(s, Open(outcome));
      OpenLeaves(s, outcome);
      AddedOne(old(past), past, Open(outcome));
      Act(Open(outcome));
    }
  }
}
