/** The attempt log of one delivery, reduced to what its columns are about, and what the row says
    about the log. */
module AttemptLogs {
  import opened Prelude
  import opened Deliveries

  datatype LogRow = LogRow(attemptNo: nat, ok: bool)

  /** What a row's columns say about the log, and what the log looks like.  Attempt numbers
      run 1..k in chains; a chain is only ever followed by another one (or by a replay that has
      sent nothing yet) when it used up the whole budget and ended in a failure. */
  ghost predicate RowRefinesLog(maxAttempts: int, d: Delivery, log: seq<LogRow>) {
    && (d.nextRetryAt.Some? <==> d.state.Retrying?)
    && (d.state.Pending? ==> d.attemptCount == 0)
    && (d.state.Delivered? ==> log != [] && Last(log).ok)
    && (d.state.Dead? ==> d.attemptCount >= maxAttempts && log != [] && !Last(log).ok)
    && (d.attemptCount > 0 ==> log != [] && Last(log).attemptNo == d.attemptCount)
    && (d.attemptCount == 0 ==> log == [] || Closes(maxAttempts, Last(log)))
    && Chained(maxAttempts, log)
  }

  function Last(log: seq<LogRow>): LogRow
    requires log != []
  {
    log[|log| - 1]
  }

  /** The last row of a chain that a replay may follow. */
  predicate Closes(maxAttempts: int, row: LogRow) {
    row.attemptNo >= maxAttempts && !row.ok
  }

  ghost predicate Chained(maxAttempts: int, log: seq<LogRow>) {
    forall i | 0 <= i < |log| :: LinkedAt(maxAttempts, log, i)
  }

  ghost predicate LinkedAt(maxAttempts: int, log: seq<LogRow>, i: nat)
    requires i < |log|
  {
    if i == 0 then log[0].attemptNo == 1
    else || log[i].attemptNo == log[i - 1].attemptNo + 1
         || (log[i].attemptNo == 1 && Closes(maxAttempts, log[i - 1]))
  }

  lemma ChainedAppend(maxAttempts: int, log: seq<LogRow>, row: LogRow)
    requires Chained(maxAttempts, log)
    requires if log == [] then row.attemptNo == 1
             else || row.attemptNo == Last(log).attemptNo + 1
                  || (row.attemptNo == 1 && Closes(maxAttempts, Last(log)))
    ensures Chained(maxAttempts, log + [row])
  {
    forall i | 0 <= i < |log + [row]| ensures LinkedAt(maxAttempts, log + [row], i) {
      if i < |log| { assert LinkedAt(maxAttempts, log, i); }
    }
  }

  /** Recording an attempt, whatever state the row was in. */
  lemma SendRefines(maxAttempts: int, d: Delivery, log: seq<LogRow>, ok: bool, retryAt: Time)
    requires RowRefinesLog(maxAttempts, d, log)
    ensures RowRefinesLog(maxAttempts, RecordOutcome(d, ok, retryAt, maxAttempts), log + [LogRow(d.attemptCount + 1, ok)])
  {
    ChainedAppend(maxAttempts, log, LogRow(d.attemptCount + 1, ok));
  }
}
