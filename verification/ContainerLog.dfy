/** A container's log as Docker keeps it, and the lines a receipt's range claims. */
module ContainerLog {
  import opened DockerLines

  /** One line the container wrote. */
  datatype LogLine = LogLine(nanos: nat, matches: bool, stderr: bool)

  function MicrosAt(log: seq<LogLine>, i: int): int
    requires 0 <= i < |log|
  {
    Micros(log[i].nanos)
  }

  /** `docker logs` returns lines in time order. */
  predicate Ordered(log: seq<LogLine>) {
    forall i, j :: 0 <= i < j < |log| ==> MicrosAt(log, i) <= MicrosAt(log, j)
  }

  /** No two lines share a microsecond. */
  predicate StrictMicros(log: seq<LogLine>) {
    forall i, j :: 0 <= i < j < |log| ==> MicrosAt(log, i) < MicrosAt(log, j)
  }

  /** The log lines a range claims. */
  function Lines(log: seq<LogLine>, start: int, end: int): set<nat> {
    set i: nat | i < |log| && start <= MicrosAt(log, i) < end
  }

  /** No line still to be written can fall in the range. */
  predicate Sealed(log: seq<LogLine>, start: int, end: int) {
    start == end || (start < end && log != [] && end <= MicrosAt(log, |log| - 1) + 1)
  }

  lemma LinesOfSealed(log: seq<LogLine>, line: LogLine, start: int, end: int)
    requires StrictMicros(log + [line]) && Sealed(log, start, end)
    ensures Sealed(log + [line], start, end) && Lines(log + [line], start, end) == Lines(log, start, end)
  {
    var longer := log + [line];
    assert forall i :: 0 <= i < |log| ==> MicrosAt(longer, i) == MicrosAt(log, i);
    if log != [] { assert MicrosAt(longer, |log| - 1) < MicrosAt(longer, |log|); }
    assert forall i: nat :: i in Lines(longer, start, end) <==> i in Lines(log, start, end);
  }

  /** A log that repeats a microsecond has a first line that does. */
  lemma {:induction false} FirstRepeat(log: seq<LogLine>, k: nat) returns (i: nat)
    requires Ordered(log) && k + 1 < |log| && MicrosAt(log, k) == MicrosAt(log, k + 1)
    ensures i + 1 < |log| && MicrosAt(log, i) == MicrosAt(log, i + 1)
    ensures forall j :: 0 <= j < i ==> MicrosAt(log, j) < MicrosAt(log, i)
  {
    if j: nat :| j < k && MicrosAt(log, j) == MicrosAt(log, k) {
      assert MicrosAt(log, j) <= MicrosAt(log, j + 1) <= MicrosAt(log, k);
      i := FirstRepeat(log, j);
    } else {
      i := k;
      assert forall j :: 0 <= j < k ==> MicrosAt(log, j) <= MicrosAt(log, k);
    }
  }
}
