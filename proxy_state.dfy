/**
 * The bookkeeping a statement proxy keeps about its last execution, as a value,
 * and the timing state machine its filters drive: an idempotent start and a
 * finish that takes effect once, and only after a start.
 */
module ProxyState {
  import opened Jdbc

  /** The proxy's mutable fields, as one value. */
  datatype Snapshot = Snapshot(
    lastExecuteSql: Option<string>,
    lastExecuteType: Option<ExecuteType>,
    firstResultSet: bool,
    updateCount: Option<int32>,        // the cached update count; None is Java's null
    lastExecuteStartNano: int64,
    lastExecuteTimeNano: int64,
    batchSqlList: Option<seq<string>>  // None until the list is first needed
  )

  /** The fields of a newly constructed proxy (Java's defaults). */
  const Initial: Snapshot := Snapshot(None, None, false, None, 0, 0, None)

  /** The batch as a caller sees it: a list that has not been created yet is an empty one. */
  function BatchList(s: Snapshot): seq<string>
  {
    s.batchSqlList.GetOr([])
  }

  datatype TimingPhase = NotStarted | Started | Completed

  /** A start marker `<= 0` means "not started", a time marker `<= 0` means "not finished". */
  function Phase(s: Snapshot): TimingPhase
  {
    if s.lastExecuteStartNano <= 0 then NotStarted
    else if s.lastExecuteTimeNano <= 0 then Started
    else Completed
  }

  /** `setLastExecuteStartNano(long)`: record a start and re-arm the finish. */
  function Restart(s: Snapshot, start: int64): Snapshot
  {
    s.(lastExecuteStartNano := start, lastExecuteTimeNano := -1)
  }

  /** `setLastExecuteStartNano()`: record the clock only if no start is recorded. */
  function StartNow(s: Snapshot, nanoTime: int64): Snapshot
  {
    if s.lastExecuteStartNano <= 0 then Restart(s, nanoTime) else s
  }

  /** `setLastExecuteTimeNano(long)`. */
  function SetTime(s: Snapshot, time: int64): Snapshot
  {
    s.(lastExecuteTimeNano := time)
  }

  /** `setLastExecuteTimeNano()`: the elapsed time in Java `long` arithmetic, only when started and not yet finished. */
  function FinishNow(s: Snapshot, nanoTime: int64): Snapshot
  {
    if s.lastExecuteTimeNano <= 0 && s.lastExecuteStartNano > 0
    then s.(lastExecuteTimeNano := Wrap64(nanoTime as int - s.lastExecuteStartNano as int))
    else s
  }

  /** A start touches only the two timing markers. */
  lemma TimingTouchesOnlyMarkers(s: Snapshot, t: int64)
    ensures StartNow(s, t).(lastExecuteStartNano := s.lastExecuteStartNano, lastExecuteTimeNano := s.lastExecuteTimeNano) == s
    ensures FinishNow(s, t).(lastExecuteTimeNano := s.lastExecuteTimeNano) == s
  {
  }

  /** Once a positive start is recorded, further starts are no-ops: only the first reading counts. */
  lemma StartNowIdempotent(s: Snapshot, a: int64, b: int64)
    requires s.lastExecuteStartNano > 0 || a > 0
    ensures StartNow(StartNow(s, a), b) == StartNow(s, a)
    ensures Phase(s) == NotStarted ==> StartNow(s, a).lastExecuteStartNano == a && Phase(StartNow(s, a)) == Started
  {
  }

  /** Finishing before any start changes nothing. */
  lemma FinishBeforeStartIsNoOp(s: Snapshot, nanoTime: int64)
    requires Phase(s) == NotStarted
    ensures FinishNow(s, nanoTime) == s
  {
  }

  /** From a start, a clock that has not gone backwards gives the true elapsed time, with no wrap-around. */
  lemma FinishMeasures(s: Snapshot, nanoTime: int64)
    requires Phase(s) == Started && s.lastExecuteStartNano <= nanoTime
    ensures FinishNow(s, nanoTime).lastExecuteTimeNano as int == nanoTime as int - s.lastExecuteStartNano as int
    ensures Phase(FinishNow(s, nanoTime)) == (if s.lastExecuteStartNano < nanoTime then Completed else Started)
  {
  }

  /** A finish at a time later than the start takes effect once: a second finish changes nothing. */
  lemma FinishNowOnce(s: Snapshot, a: int64, b: int64)
    requires s.lastExecuteStartNano > 0 ==> s.lastExecuteStartNano < a
    ensures FinishNow(FinishNow(s, a), b) == FinishNow(s, a)
  {
  }

  /** An explicit start re-arms the finish even after a completed measurement. */
  lemma RestartRearms(s: Snapshot, start: int64, nanoTime: int64)
    requires 0 < start <= nanoTime
    ensures Phase(Restart(s, start)) == Started
    ensures FinishNow(Restart(s, start), nanoTime).lastExecuteTimeNano as int == nanoTime as int - start as int
  {
  }

  /**
   * The bracket a statistics filter puts around the driver call, after an
   * execution has reset both markers: start at `a`, finish at `b`, and the time
   * is `b - a`, whatever further starts and finishes follow.
   */
  lemma ExecutionBracket(s: Snapshot, a: int64, b: int64, c: int64, d: int64)
    requires Phase(s) == NotStarted && 0 < a < b
    ensures var t := FinishNow(StartNow(s, a), b);
      t.lastExecuteStartNano == a && t.lastExecuteTimeNano as int == b as int - a as int
      && Phase(t) == Completed
      && FinishNow(StartNow(t, c), d) == t
  {
  }

  /**
   * A clock reading `<= 0` is recorded but still reads "not started": the next
   * start overwrites it, and a finish before that does nothing.
   */
  lemma NonPositiveStartIsOverwritten(s: Snapshot, a: int64, b: int64, now: int64)
    requires Phase(s) == NotStarted && a <= 0
    ensures StartNow(s, a).lastExecuteStartNano == a && Phase(StartNow(s, a)) == NotStarted
    ensures StartNow(StartNow(s, a), b).lastExecuteStartNano == b
    ensures FinishNow(StartNow(s, a), now) == StartNow(s, a)
  {
  }

  /**
   * A finish in the same nanosecond as the start records 0, which still reads
   * "not finished": a later finish overwrites it.
   */
  lemma SameInstantFinishIsOverwritten(s: Snapshot, now: int64)
    requires Phase(s) == Started && s.lastExecuteStartNano < now
    ensures FinishNow(s, s.lastExecuteStartNano).lastExecuteTimeNano == 0
    ensures FinishNow(FinishNow(s, s.lastExecuteStartNano), now).lastExecuteTimeNano as int
         == now as int - s.lastExecuteStartNano as int
  {
  }
}
