/** One outbox row's life: claim, failure accounting, reaping and requeueing
    (packages/database outbox.py, apps/outbox-worker dead_letter.py and dispatcher.py). */
module Outbox {

  const MAX_ATTEMPTS: nat := 5

  /** Seconds of backoff before the given attempt. */
  const RETRY_DELAYS_SECONDS: map<nat, nat> := map[2 := 5, 3 := 15, 4 := 60, 5 := 300]

  datatype RowStatus = Pending | Processing | DeadLetter

  datatype Row = Row(
    status: RowStatus,
    attempts: nat,
    processAfter: int,
    createdAt: int,
    updatedAt: int)

  /** What one dispatch attempt came to. */
  datatype Outcome = Delivered | Retryable | Permanent

  const RETRYABLE_STATUS_CODES: set<int> := {429, 500, 502, 503, 504}

  function Classify(code: int): Outcome {
    if 200 <= code < 300 then Delivered
    else if code in RETRYABLE_STATUS_CODES then Retryable
    else Permanent
  }

  function NewRow(now: int): Row {
    Row(Pending, 0, now, now, now)
  }

  predicate IsDue(row: Row, now: int) {
    row.status == Pending && row.processAfter <= now
  }

  predicate IsStuck(row: Row, now: int, age: int) {
    row.status == Processing && row.updatedAt < now - age
  }

  function ClaimRow(row: Row, now: int): Row {
    row.(status := Processing, updatedAt := now)
  }

  function MarkFailed(row: Row, now: int, immediate: bool): (r: Row)
    ensures r.attempts == row.attempts + 1
    ensures r.status == Pending <==> r.attempts < MAX_ATTEMPTS
    ensures r.status != Processing
  {
    var failed := row.(attempts := row.attempts + 1, updatedAt := now);
    if failed.attempts >= MAX_ATTEMPTS then
      failed.(status := DeadLetter)
    else
      failed.(status := Pending,
              processAfter := if immediate then now
                              else now + RETRY_DELAYS_SECONDS[failed.attempts + 1])
  }

  function DeadLetterNow(row: Row, now: int): Row {
    row.(attempts := row.attempts + 1, updatedAt := now, status := DeadLetter)
  }

  function RequeueRow(row: Row, now: int): Row {
    row.(status := Pending, attempts := 0, processAfter := now, updatedAt := now)
  }

  /** The row a recording transaction wants, given the row as it read it. */
  function Failed(seen: Row, outcome: Outcome, now: int): Row
    requires outcome != Delivered
  {
    if outcome == Permanent then DeadLetterNow(seen, now) else MarkFailed(seen, now, false)
  }

  /** What the UPDATE leaves behind: it writes only the columns whose value differs from the
      one that was read, over whatever the row holds by then. */
  function WriteBack(current: Row, seen: Row, wanted: Row): Row {
    Row(if wanted.status != seen.status then wanted.status else current.status,
        if wanted.attempts != seen.attempts then wanted.attempts else current.attempts,
        if wanted.processAfter != seen.processAfter then wanted.processAfter else current.processAfter,
        if wanted.createdAt != seen.createdAt then wanted.createdAt else current.createdAt,
        if wanted.updatedAt != seen.updatedAt then wanted.updatedAt else current.updatedAt)
  }
}
