/** The outbox table and those who work on it: the poller's claim, the recording of an outcome, the
    reaper's sweep and the operator's requeue (packages/database outbox.py, apps/outbox-worker). */
module OutboxTable {
  import opened Outbox
  import opened Wrappers

  type Id = nat

  function Least(a: nat, b: nat): nat {
    if a <= b then a else b
  }

  /** `ORDER BY key ASC LIMIT limit`: the oldest of `keys`, oldest first, as many as allowed. */
  ghost predicate IsOldest(keys: map<Id, int>, limit: nat, out: seq<Id>) {
    && |out| == Least(limit, |keys|)
    && (forall i :: 0 <= i < |out| ==> out[i] in keys)
    && (forall i, j :: 0 <= i < j < |out| ==> out[i] != out[j] && keys[out[i]] <= keys[out[j]])
    && (forall i, x :: 0 <= i < |out| && x in keys && x !in out ==> keys[out[i]] <= keys[x])
  }

  method Oldest(keys: map<Id, int>) returns (e: Id)
    requires keys != map[]
    ensures e in keys && forall x :: x in keys ==> keys[e] <= keys[x]
  {
    e :| e in keys;
    var left := keys.Keys - {e};
    while left != {}
      invariant e in keys && left <= keys.Keys && forall x :: x in keys && x !in left ==> keys[e] <= keys[x]
      decreases left
    {
      var x :| x in left;
      if keys[x] < keys[e] { e := x; }
      left := left - {x};
    }
  }

  method OldestFirst(keys: map<Id, int>, limit: nat) returns (out: seq<Id>)
    ensures IsOldest(keys, limit, out)
  {
    out := [];
    var left := keys;
    while |out| < limit && left != map[]
      invariant left.Keys <= keys.Keys && forall x :: x in left ==> left[x] == keys[x]
      invariant forall x :: x in keys ==> (x in out <==> x !in left)
      invariant |out| <= limit && |out| + |left| == |keys|
      invariant forall i :: 0 <= i < |out| ==> out[i] in keys
      invariant forall i, j :: 0 <= i < j < |out| ==> out[i] != out[j] && keys[out[i]] <= keys[out[j]]
      invariant forall i, x :: 0 <= i < |out| && x in left ==> keys[out[i]] <= keys[x]
      decreases |left|
    {
      var e := Oldest(left);
      assert |left - {e}| == |left| - 1 by { assert left == (left - {e})[e := left[e]]; }
      out, left := out + [e], left - {e};
    }
  }

  /** The rows `chosen` by `change`, the others as they were. */
  ghost predicate Changed(before: map<Id, Row>, after: map<Id, Row>, chosen: seq<Id>, change: Row -> Row) {
    after.Keys == before.Keys
    && forall e :: e in before ==> after[e] == if e in chosen then change(before[e]) else before[e]
  }

  function DueKeys(rows: map<Id, Row>, now: int, locked: set<Id>): map<Id, int> {
    map e | e in rows && IsDue(rows[e], now) && e !in locked :: rows[e].createdAt
  }

  function StuckKeys(rows: map<Id, Row>, now: int, age: int, locked: set<Id>): map<Id, int> {
    map e | e in rows && IsStuck(rows[e], now, age) && e !in locked :: rows[e].updatedAt
  }

  /** What recording a dispatch leaves of the table, when nobody touched the row meanwhile. */
  function Recorded(rows: map<Id, Row>, e: Id, outcome: Outcome, now: int): map<Id, Row> {
    if e !in rows then rows
    else if outcome == Delivered then rows - {e}
    else rows[e := Failed(rows[e], outcome, now)]
  }

  class OutboxTable {
    var rows: map<Id, Row>

    constructor (rows: map<Id, Row>)
      ensures this.rows == rows
    {
      this.rows := rows;
    }

    /** Claim the oldest due rows nobody has locked, at most `limit` of them. */
    method ClaimBatch(now: int, limit: nat, locked: set<Id>) returns (claimed: seq<Id>)
      modifies this
      ensures IsOldest(DueKeys(old(rows), now, locked), limit, claimed)
      ensures Changed(old(rows), rows, claimed, (row: Row) => ClaimRow(row, now))
      ensures rows.Keys == old(rows).Keys && |claimed| <= limit
      ensures forall e :: e in claimed ==>
        var was := old(rows)[e];
        && e in old(rows) && e !in locked && was.status == Pending && was.processAfter <= now
        && rows[e] == Row(Processing, was.attempts, was.processAfter, was.createdAt, now)
      ensures forall e :: e in rows && e !in claimed ==> rows[e] == old(rows)[e]
      ensures forall i, j :: 0 <= i < j < |claimed| ==> rows[claimed[i]].createdAt <= rows[claimed[j]].createdAt
      ensures forall e :: e in rows && e !in claimed && rows[e].status == Pending && rows[e].processAfter <= now && e !in locked ==>
                |claimed| == limit && forall x :: x in claimed ==> rows[x].createdAt <= rows[e].createdAt
    {
      claimed := OldestFirst(DueKeys(rows, now, locked), limit);
      ghost var before := rows;
      for i := 0 to |claimed|
        invariant Changed(before, rows, claimed[..i], (row: Row) => ClaimRow(row, now))
      {
        var e := claimed[i];
        assert e in DueKeys(before, now, locked);
        assert e !in claimed[..i];
        assert claimed[..i + 1] == claimed[..i] + [e];
        rows := rows[e := rows[e].(status := Processing, updatedAt := now)];
      }
      assert claimed[..|claimed|] == claimed;
      ClaimedRows(before, rows, claimed, now, limit, locked);
    }

    /** Re-pend or dead-letter the rows that have been processing for longer than `age`. */
    method Sweep(now: int, age: int, limit: nat, locked: set<Id>) returns (stuck: seq<Id>)
      modifies this
      ensures IsOldest(StuckKeys(old(rows), now, age, locked), limit, stuck)
      ensures Changed(old(rows), rows, stuck, (row: Row) => MarkFailed(row, now, true))
      ensures rows.Keys == old(rows).Keys && |stuck| <= limit
      ensures forall e :: e in stuck ==>
        var was := old(rows)[e];
        && e in old(rows) && e !in locked && was.status == Processing && was.updatedAt < now - age
        && rows[e] == if was.attempts < 4 then Row(Pending, was.attempts + 1, now, was.createdAt, now)
                      else Row(DeadLetter, was.attempts + 1, was.processAfter, was.createdAt, now)
      ensures forall e :: e in rows && e !in stuck ==> rows[e] == old(rows)[e]
      ensures forall e :: e in rows && e !in stuck && rows[e].status == Processing && rows[e].updatedAt < now - age && e !in locked ==>
                |stuck| == limit && forall x :: x in stuck ==> old(rows)[x].updatedAt <= rows[e].updatedAt
    {
      stuck := OldestFirst(StuckKeys(rows, now, age, locked), limit);
      ghost var before := rows;
      for i := 0 to |stuck|
        invariant Changed(before, rows, stuck[..i], (row: Row) => MarkFailed(row, now, true))
      {
        var e := stuck[i];
        assert e in StuckKeys(before, now, age, locked);
        assert e !in stuck[..i];
        assert stuck[..i + 1] == stuck[..i] + [e];
        var row := rows[e].(attempts := rows[e].attempts + 1, updatedAt := now);
        if row.attempts >= MAX_ATTEMPTS {
          row := row.(status := DeadLetter);
        } else {
          row := row.(status := Pending, processAfter := now);
        }
        rows := rows[e := row];
      }
      assert stuck[..|stuck|] == stuck;
      SweptRows(before, rows, stuck, now, age, limit, locked);
    }

    /** Remove a delivered row, dead-letter a permanent failure, reschedule or exhaust any other. */
    method Record(e: Id, outcome: Outcome, now: int)
      modifies this
      ensures rows == Recorded(old(rows), e, outcome, now)
      ensures e in old(rows) ==>
        && rows - {e} == old(rows) - {e} && (e !in rows <==> outcome == Delivered)
        && (outcome == Permanent || (outcome == Retryable && old(rows)[e].attempts >= 4) ==>
              var was := old(rows)[e]; rows[e] == Row(DeadLetter, was.attempts + 1, was.processAfter, was.createdAt, now))
        && (outcome == Retryable && old(rows)[e].attempts < 4 ==>
              var was := old(rows)[e];
              rows[e] == Row(Pending, was.attempts + 1, now + [5, 15, 60, 300][was.attempts], was.createdAt, now))
      ensures e !in old(rows) ==> rows == old(rows)
    {
      if e !in rows { return; }
      var row := rows[e];
      if outcome == Delivered {
        rows := rows - {e};
        return;
      }
      row := row.(attempts := row.attempts + 1, updatedAt := now);
      if outcome == Permanent || row.attempts >= MAX_ATTEMPTS {
        row := row.(status := DeadLetter);
      } else {
        row := row.(status := Pending, processAfter := now + RETRY_DELAYS_SECONDS[row.attempts + 1]);
      }
      rows := rows[e := row];
    }

    /** Drive a claimed batch one event at a time. `outcomes` says what dispatching each would come
        to, `None` being a handler that raises, and `stopAt` before which event the stop signal is
        seen: the rest stays as claimed, for the reaper. */
    method HandleBatch(events: seq<Id>, outcomes: seq<Option<Outcome>>, stopAt: nat, now: int) returns (handled: nat)
      requires |outcomes| == |events| && forall i, j :: 0 <= i < j < |events| ==> events[i] != events[j]
      modifies this
      ensures handled == if stopAt <= |events| then stopAt else |events|
      ensures rows.Keys <= old(rows).Keys
      ensures forall i :: 0 <= i < handled && events[i] in old(rows) ==>
                OutcomeOf(old(rows)[events[i]], rows, events[i], outcomes[i], now)
      ensures forall e :: e !in events[..handled] ==> (e in rows <==> e in old(rows)) && (e in rows ==> rows[e] == old(rows)[e])
    {
      handled := 0;
      while handled < |events| && handled < stopAt
        invariant handled <= Least(stopAt, |events|) && rows.Keys <= old(rows).Keys
        invariant forall i :: 0 <= i < handled && events[i] in old(rows) ==>
                    OutcomeOf(old(rows)[events[i]], rows, events[i], outcomes[i], now)
        invariant forall e :: e !in events[..handled] ==> (e in rows <==> e in old(rows)) && (e in rows ==> rows[e] == old(rows)[e])
      {
        var e := events[handled];
        assert e !in events[..handled];
        assert events[..handled + 1] == events[..handled] + [e];
        if outcomes[handled].Some? { Record(e, outcomes[handled].value, now); }
        handled := handled + 1;
      }
    }

    /** Give a dead letter a fresh start; `false` when there is none by that id. */
    method Requeue(e: Id, now: int) returns (found: bool)
      modifies this
      ensures found <==> e in old(rows) && old(rows)[e].status == DeadLetter
      ensures rows == if found then old(rows)[e := Row(Pending, 0, now, old(rows)[e].createdAt, now)] else old(rows)
    {
      if e !in rows || rows[e].status != DeadLetter { return false; }
      rows := rows[e := rows[e].(status := Pending, attempts := 0, processAfter := now, updatedAt := now)];
      found := true;
    }
  }

  /** What one event's handling leaves of its row; a raising handler leaves it as claimed. */
  ghost predicate OutcomeOf(was: Row, rows: map<Id, Row>, e: Id, outcome: Option<Outcome>, now: int) {
    match outcome
    case None => e in rows && rows[e] == was
    case Some(Delivered) => e !in rows
    case Some(Permanent) => e in rows && rows[e] == Row(DeadLetter, was.attempts + 1, was.processAfter, was.createdAt, now)
    case Some(Retryable) =>
      e in rows && rows[e] == if was.attempts >= 4 then Row(DeadLetter, was.attempts + 1, was.processAfter, was.createdAt, now)
                              else Row(Pending, was.attempts + 1, now + [5, 15, 60, 300][was.attempts], was.createdAt, now)
  }

  lemma ClaimedRows(before: map<Id, Row>, rows: map<Id, Row>, claimed: seq<Id>, now: int, limit: nat, locked: set<Id>)
    requires IsOldest(DueKeys(before, now, locked), limit, claimed)
    requires Changed(before, rows, claimed, (row: Row) => ClaimRow(row, now))
    ensures forall e :: e in claimed ==>
      && e in before && e in rows && e !in locked && before[e].status == Pending && before[e].processAfter <= now
      && rows[e] == Row(Processing, before[e].attempts, before[e].processAfter, before[e].createdAt, now)
    ensures forall i, j :: 0 <= i < j < |claimed| ==> rows[claimed[i]].createdAt <= rows[claimed[j]].createdAt
    ensures forall e :: e in rows && e !in claimed && before[e].status == Pending && before[e].processAfter <= now && e !in locked ==>
              |claimed| == limit && forall x :: x in claimed ==> rows[x].createdAt <= before[e].createdAt
  {
    var keys := DueKeys(before, now, locked);
    ChosenAreKeys(keys, limit, claimed);
    forall e | e in before && e !in claimed && before[e].status == Pending && before[e].processAfter <= now && e !in locked
      ensures |claimed| == limit && forall x :: x in claimed ==> rows[x].createdAt <= before[e].createdAt
    {
      assert e in keys;
      NotAll(keys, claimed, e);
      forall x | x in claimed ensures rows[x].createdAt <= before[e].createdAt {
        var i :| 0 <= i < |claimed| && claimed[i] == x;
        assert keys[claimed[i]] <= keys[e];
      }
    }
  }

  lemma SweptRows(before: map<Id, Row>, rows: map<Id, Row>, stuck: seq<Id>, now: int, age: int, limit: nat, locked: set<Id>)
    requires IsOldest(StuckKeys(before, now, age, locked), limit, stuck)
    requires Changed(before, rows, stuck, (row: Row) => MarkFailed(row, now, true))
    ensures forall e :: e in stuck ==>
      && e in before && e in rows && e !in locked && before[e].status == Processing && before[e].updatedAt < now - age
      && rows[e] == if before[e].attempts < 4 then Row(Pending, before[e].attempts + 1, now, before[e].createdAt, now)
                    else Row(DeadLetter, before[e].attempts + 1, before[e].processAfter, before[e].createdAt, now)
    ensures forall e :: e in rows && e !in stuck && before[e].status == Processing && before[e].updatedAt < now - age && e !in locked ==>
              |stuck| == limit && forall x :: x in stuck ==> before[x].updatedAt <= before[e].updatedAt
  {
    var keys := StuckKeys(before, now, age, locked);
    ChosenAreKeys(keys, limit, stuck);
    forall e | e in before && e !in stuck && before[e].status == Processing && before[e].updatedAt < now - age && e !in locked
      ensures |stuck| == limit && forall x :: x in stuck ==> before[x].updatedAt <= before[e].updatedAt
    {
      assert e in keys;
      NotAll(keys, stuck, e);
      forall x | x in stuck ensures before[x].updatedAt <= before[e].updatedAt {
        var i :| 0 <= i < |stuck| && stuck[i] == x;
        assert keys[stuck[i]] <= keys[e];
      }
    }
  }

  // ---------------------------------------------------------------- what follows

  /** A requeued row is due at once, and any claim with room for all rows takes it unless it is locked. */
  lemma RequeuedIsClaimed(before: map<Id, Row>, e: Id, now: int, later: int, limit: nat, locked: set<Id>, claimed: seq<Id>)
    requires e in before && now <= later && e !in locked
    requires var rows := before[e := Row(Pending, 0, now, before[e].createdAt, now)];
             IsOldest(DueKeys(rows, later, locked), limit, claimed) && |rows| <= limit
    ensures e in claimed
  {
    var rows := before[e := Row(Pending, 0, now, before[e].createdAt, now)];
    var keys := DueKeys(rows, later, locked);
    assert e in keys;
    if e !in claimed {
      NotAll(keys, claimed, e);
      DomainWithin(keys.Keys, rows.Keys);
    }
  }

  lemma DomainWithin(a: set<Id>, b: set<Id>)
    requires a <= b
    ensures |a| <= |b|
  {
    assert b == a + (b - a);
  }

  /** Two claims never share a row, whether the second skips the first's locks or comes after its
      commit; nor do a claim and a sweep. */
  lemma ClaimsAreDisjoint(rows: map<Id, Row>, after: map<Id, Row>, a: seq<Id>, b: seq<Id>, c: seq<Id>,
                          now: int, later: int, limit: nat, locked: set<Id>, e: Id)
    requires IsOldest(DueKeys(rows, now, locked), limit, a) && Changed(rows, after, a, (row: Row) => ClaimRow(row, now))
    requires IsOldest(DueKeys(rows, later, locked + (set x | x in a)), limit, b)
    requires IsOldest(DueKeys(after, later, locked), limit, c)
    requires e in a
    ensures e !in b && e !in c
    ensures forall age :: later - age <= now ==> e !in StuckKeys(after, later, age, {})
  {
    ChosenAreKeys(DueKeys(rows, now, locked), limit, a);
    ChosenAreKeys(DueKeys(rows, later, locked + (set x | x in a)), limit, b);
    ChosenAreKeys(DueKeys(after, later, locked), limit, c);
    assert after[e] == ClaimRow(rows[e], now);
  }

  lemma ChosenAreKeys(keys: map<Id, int>, limit: nat, out: seq<Id>)
    requires IsOldest(keys, limit, out)
    ensures forall e :: e in out ==> e in keys
  {
  }

  /** The oldest due row waits for nobody: unless it is locked, any claim of at least one row takes
      it or one just as old. */
  lemma OldestIsClaimed(rows: map<Id, Row>, claimed: seq<Id>, now: int, limit: nat, locked: set<Id>, e: Id)
    requires IsOldest(DueKeys(rows, now, locked), limit, claimed) && limit > 0
    requires e in rows && IsDue(rows[e], now) && e !in locked
    ensures |claimed| > 0 && rows[claimed[0]].createdAt <= rows[e].createdAt
    ensures e !in claimed ==> |claimed| == limit && forall x :: x in claimed ==> rows[x].createdAt <= rows[e].createdAt
  {
    var keys := DueKeys(rows, now, locked);
    assert e in keys;
    if e in claimed {
      var i :| 0 <= i < |claimed| && claimed[i] == e;
    } else {
      NotAll(keys, claimed, e);
    }
  }

  lemma NotAll(keys: map<Id, int>, out: seq<Id>, e: Id)
    requires e in keys && e !in out && (forall i :: 0 <= i < |out| ==> out[i] in keys)
    requires forall i, j :: 0 <= i < j < |out| ==> out[i] != out[j]
    ensures |out| < |keys|
  {
    DistinctCount(out, keys.Keys - {e});
  }

  lemma {:induction false} DistinctCount(out: seq<Id>, s: set<Id>)
    requires (forall i :: 0 <= i < |out| ==> out[i] in s) && forall i, j :: 0 <= i < j < |out| ==> out[i] != out[j]
    ensures |out| <= |s|
  {
    if out != [] {
      DistinctCount(out[..|out| - 1], s - {out[|out| - 1]});
    } else {
    }
  }

  function AfterFailures(row: Row, times: seq<int>): Row {
    if times == [] then row else MarkFailed(AfterFailures(row, times[..|times| - 1]), times[|times| - 1], false)
  }

  /** An event that keeps failing is tried five times and then put aside: after `n` failures it has
      `n` attempts, and is pending, backing off, before the fifth and dead after it. */
  lemma {:induction false} FiveFailuresAndOut(row: Row, times: seq<int>)
    requires row.attempts == 0 && row.status == Pending && |times| <= MAX_ATTEMPTS
    ensures AfterFailures(row, times).attempts == |times|
    ensures AfterFailures(row, times).status == if |times| < MAX_ATTEMPTS then Pending else DeadLetter
    ensures 0 < |times| < MAX_ATTEMPTS ==>
              AfterFailures(row, times).processAfter == times[|times| - 1] + [5, 15, 60, 300][|times| - 1]
  {
    if times != [] {
      FiveFailuresAndOut(row, times[..|times| - 1]);
    } else {
    }
  }

  /** The recording transaction writes back only what it changed: on a row nobody touched that is
      the row it wanted, on a row the reaper has failed meanwhile the reaper's attempt is lost. */
  lemma StaleRecordLosesAnAttempt(row: Row, outcome: Outcome, now: int, reapedAt: int)
    requires outcome != Delivered && row.status == Processing && row.attempts + 1 < MAX_ATTEMPTS
    ensures WriteBack(row, row, Failed(row, outcome, now)) == Failed(row, outcome, now)
    ensures var reaped := MarkFailed(row, reapedAt, true);
            WriteBack(ClaimRow(reaped, reapedAt), row, Failed(row, outcome, now)).attempts == reaped.attempts
  {
  }
}
