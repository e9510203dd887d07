/** Docker log lines, the receipts a read issues for them, and the tick a cursor
    moves by. Instants are integers: lines carry nanoseconds, cursors microseconds. */
module DockerLines {
  /** One raw line: `Bare` carries no `--timestamps` prefix (the docker client's own
      messages). `matches` says whether the line contains the group's filter text. */
  datatype Line = Stamped(nanos: nat, matches: bool) | Bare(matches: bool)

  /** The range one read claims, kept beside its batch until the ACK. */
  datatype Receipt = Receipt(group: string, source: string, start: int, end: int)

  const MAX_LINES_PER_INTERVAL: nat := 1000

  function Micros(nanos: nat): nat { nanos / 1000 }

  /** The next microsecond strictly after a line. */
  function Tick(nanos: nat): nat { Micros(nanos) + 1 }

  /** What `docker logs --since cursor` returns: the bound is inclusive. */
  predicate ReturnedSince(nanos: nat, cursor: int) { nanos >= 1000 * cursor }

  /** The tick is the least cursor past the line, so no coarser one is needed and no
      finer one works. */
  lemma TickIsLeastCursorPast(nanos: nat, cursor: int)
    ensures !ReturnedSince(nanos, cursor) <==> Tick(nanos) <= cursor
    ensures ReturnedSince(nanos, cursor) <==> cursor <= Micros(nanos)
  {
    assert nanos == 1000 * (nanos / 1000) + nanos % 1000;
  }

  /** One tick past the last stamped line, or `from` if none carries a stamp. */
  function LastTs(lines: seq<Line>, from: int): (end: int)
  {
    if lines == [] then from
    else
      var last := lines[|lines| - 1];
      if last.Stamped? then Tick(last.nanos) else LastTs(lines[..|lines| - 1], from)
  }

  lemma {:induction false} LastTsAppend(lines: seq<Line>, line: Line, from: int)
    ensures LastTs(lines + [line], from) ==
            if line.Stamped? then Tick(line.nanos) else LastTs(lines, from)
  {
    assert (lines + [line])[..|lines|] == lines;
  }

  function Min(a: int, b: int): int { if a < b then a else b }

  /** The capped lines and a receipt from `from` past the last of them. */
  function Batch(group: string, source: string, from: int, raw: seq<Line>, maxLines: nat): (seq<Line>, Receipt)
  {
    var lines := raw[..Min(|raw|, Min(maxLines, MAX_LINES_PER_INTERVAL))];
    (lines, Receipt(group, source, from, LastTs(lines, from)))
  }
}
