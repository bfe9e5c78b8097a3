/** What becomes of an outbox row, said of its columns: after a dispatch was answered, refused or given
    up, after a reap, after a requeue, and what a worker can do with it next. */
module PipelineOutcomes {
  import opened Lifecycle
  import opened Outbox
  import opened Pipeline

  /** Nothing in the state changed but the row of event `e` and worker `w`. */
  ghost predicate OnlyRowAndWorker(s: State, t: State, e: Id, w: Id) {
    && t == s.(db := s.db.(rows := t.db.rows), workers := t.workers, claims := t.claims)
    && t.db.rows - {e} == s.db.rows - {e} && t.workers - {w} == s.workers - {w}
  }

  /** Seconds of backoff after the given number of failures. */
  predicate BacksOff(failures: nat, seconds: int) {
    || (failures == 1 && seconds == 5) || (failures == 2 && seconds == 15)
    || (failures == 3 && seconds == 60) || (failures == 4 && seconds == 300)
  }

  /** The failure is counted, and the row waits for its next attempt. */
  predicate Rescheduled(was: Row, row: Row, now: int) {
    && row.status == Pending && row.attempts == was.attempts + 1
    && BacksOff(row.attempts, row.processAfter - now)
    && row.createdAt == was.createdAt && row.updatedAt == now
  }

  /** The failure is counted, and nobody will try again. */
  predicate PutAside(was: Row, row: Row, now: int) {
    row.status == DeadLetter && row.attempts == was.attempts + 1 && row.createdAt == was.createdAt && row.updatedAt == now
  }

  /** The worker reads the row and records the outcome it has heard, nobody else touching the row. */
  function ReadAndRecord(s: State, w: Id, now: int): State
    requires Enabled(s, Fetch(w)) && s.workers[w].event in s.db.rows
  {
    Next(Next(s, Fetch(w)), Record(w, now))
  }

  lemma FailedRow(row: Row, now: int, permanent: bool)
    ensures var after := Failed(row, if permanent then Permanent else Retryable, now);
      && (!permanent && row.attempts < 4 ==> Rescheduled(row, after, now))
      && (permanent || row.attempts >= 4 ==> PutAside(row, after, now))
  {
  }

  lemma RecordsFailure(s: State, w: Id, e: Id, now: int, permanent: bool)
    requires w in s.workers && e in s.db.rows
    requires s.workers[w] == Worker(e, Heard(if permanent then Permanent else Retryable))
    ensures Enabled(s, Fetch(w))
    ensures var t := ReadAndRecord(s, w, now);
      && OnlyRowAndWorker(s, t, e, w) && w !in t.workers && t.claims == s.claims && e in t.db.rows
      && (!permanent && s.db.rows[e].attempts < 4 ==> Rescheduled(s.db.rows[e], t.db.rows[e], now))
      && (permanent || s.db.rows[e].attempts >= 4 ==> PutAside(s.db.rows[e], t.db.rows[e], now))
  {
    var outcome := if permanent then Permanent else Retryable;
    FailedRow(s.db.rows[e], now, permanent);
    FailureStep(s, w, e, now, outcome);
    RowWritten(s, e, w, Failed(s.db.rows[e], outcome, now));
  }

  lemma FailureStep(s: State, w: Id, e: Id, now: int, outcome: Outcome)
    requires w in s.workers && e in s.db.rows && s.workers[w] == Worker(e, Heard(outcome)) && outcome != Delivered
    ensures Enabled(s, Fetch(w))
    ensures ReadAndRecord(s, w, now) == EndTurn(SetRow(s, e, Failed(s.db.rows[e], outcome, now)), w)
  {
    var row := s.db.rows[e];
    var s1 := SetTurn(s, w, Fetched(outcome, row));
    assert Next(s, Fetch(w)) == s1;
    UndisturbedWrite(row, Failed(row, outcome, now));
    assert SetRow(s1, e, Failed(row, outcome, now)).workers - {w} == s.workers - {w};
  }

  lemma RowWritten(s: State, e: Id, w: Id, row: Row)
    ensures OnlyRowAndWorker(s, EndTurn(SetRow(s, e, row), w), e, w)
  {
  }

  lemma UndisturbedWrite(row: Row, wanted: Row)
    ensures WriteBack(row, row, wanted) == wanted
  {
  }

  lemma RecordsDelivery(s: State, w: Id, e: Id, now: int)
    requires w in s.workers && e in s.db.rows && s.workers[w] == Worker(e, Heard(Delivered))
    ensures Enabled(s, Fetch(w))
    ensures var t := ReadAndRecord(s, w, now);
            OnlyRowAndWorker(s, t, e, w) && w !in t.workers && t.claims == s.claims && e !in t.db.rows
  {
    var s1 := SetTurn(s, w, Fetched(Delivered, s.db.rows[e]));
    assert Next(s, Fetch(w)) == s1;
    assert Next(s1, Record(w, now)) == EndTurn(s1.(db := s1.db.(rows := s1.db.rows - {e})), w);
  }

  /** The worker hears an answer and records it: any 2xx removes the row, the five codes worth
      retrying reschedule it until the fifth failure, and every other code puts it aside at once. */
  lemma AnswerDecidesRow(s: State, w: Id, h: Id, e: Id, code: int, now: int)
    requires w in s.workers && s.workers[w] == Worker(e, Waiting(h)) && e in s.db.rows
    requires h in s.handlers && s.handlers[h].phase == Done(code)
    ensures Enabled(s, Hear(w)) && Enabled(Next(s, Hear(w)), Fetch(w)) && e in Next(s, Hear(w)).db.rows
    ensures var t := ReadAndRecord(Next(s, Hear(w)), w, now);
      && OnlyRowAndWorker(s, t, e, w) && w !in t.workers && t.claims == s.claims
      && (e !in t.db.rows <==> 200 <= code <= 299)
      && (code in {429, 500, 502, 503, 504} && s.db.rows[e].attempts < 4 ==> Rescheduled(s.db.rows[e], t.db.rows[e], now))
      && (code in {429, 500, 502, 503, 504} && s.db.rows[e].attempts >= 4 ==> PutAside(s.db.rows[e], t.db.rows[e], now))
      && (code !in {429, 500, 502, 503, 504} && !(200 <= code <= 299) ==> PutAside(s.db.rows[e], t.db.rows[e], now))
  {
    var s1 := Next(s, Hear(w));
    if 200 <= code <= 299 {
      assert s1 == SetTurn(s, w, Heard(Delivered));
      RecordsDelivery(s1, w, e, now);
    } else {
      var permanent := code !in {429, 500, 502, 503, 504};
      assert s1 == SetTurn(s, w, Heard(if permanent then Permanent else Retryable));
      RecordsFailure(s1, w, e, now, permanent);
    }
  }

  /** `t` follows when worker `w` hears its answer and then reads and records, nobody in between. */
  ghost predicate HearsAndRecords(s: State, t: State, w: Id, now: int) {
    && Enabled(s, Hear(w)) && Enabled(Next(s, Hear(w)), Fetch(w))
    && Next(s, Hear(w)).workers[w].event in Next(s, Hear(w)).db.rows
    && t == ReadAndRecord(Next(s, Hear(w)), w, now)
  }

  lemma AnswerRecorded(s: State, w: Id, h: Id, e: Id, code: int, now: int) returns (t: State)
    requires w in s.workers && s.workers[w] == Worker(e, Waiting(h)) && e in s.db.rows
    requires h in s.handlers && s.handlers[h].phase == Done(code) && code in {200, 422, 500, 503}
    ensures HearsAndRecords(s, t, w, now) && w !in t.workers && (e !in t.db.rows <==> code == 200)
    ensures code in {500, 503} ==> if s.db.rows[e].attempts < 4 then Rescheduled(s.db.rows[e], t.db.rows[e], now)
                                   else PutAside(s.db.rows[e], t.db.rows[e], now)
    ensures code == 422 ==> PutAside(s.db.rows[e], t.db.rows[e], now)
  {
    AnswerDecidesRow(s, w, h, e, code, now);
    t := ReadAndRecord(Next(s, Hear(w)), w, now);
  }

  /** Without a token for the target nothing is sent and the row is put aside; a dispatch that times
      out or does not connect is tried again. */
  lemma UnsentDecidesRow(s: State, w: Id, e: Id, now: int)
    requires w in s.workers && s.workers[w] == Worker(e, Claimed) && e in s.db.rows
    ensures Enabled(s, Refuse(w)) && Enabled(Next(s, Refuse(w)), Fetch(w)) && e in Next(s, Refuse(w)).db.rows
    ensures Enabled(s, GiveUp(w)) && Enabled(Next(s, GiveUp(w)), Fetch(w)) && e in Next(s, GiveUp(w)).db.rows
    ensures var t := ReadAndRecord(Next(s, Refuse(w)), w, now);
            OnlyRowAndWorker(s, t, e, w) && e in t.db.rows && PutAside(s.db.rows[e], t.db.rows[e], now)
    ensures var t := ReadAndRecord(Next(s, GiveUp(w)), w, now);
            OnlyRowAndWorker(s, t, e, w) && e in t.db.rows
            && if s.db.rows[e].attempts < 4 then Rescheduled(s.db.rows[e], t.db.rows[e], now)
               else PutAside(s.db.rows[e], t.db.rows[e], now)
  {
    assert Next(s, Refuse(w)) == SetTurn(s, w, Heard(Permanent));
    assert Next(s, GiveUp(w)) == SetTurn(s, w, Heard(Retryable));
    RecordsFailure(Next(s, Refuse(w)), w, e, now, true);
    RecordsFailure(Next(s, GiveUp(w)), w, e, now, false);
  }

  /** A claim: any free worker takes a row that is pending and due, and no other, and the row is then
      processing from now on. */
  lemma ClaimTakesDueRow(s: State, e: Id, w: Id, now: int)
    ensures Enabled(s, Claim(e, w, now)) <==>
              e in s.db.rows && s.db.rows[e].status == Pending && s.db.rows[e].processAfter <= now && w !in s.workers
    ensures Enabled(s, Claim(e, w, now)) ==>
              var was, t := s.db.rows[e], Next(s, Claim(e, w, now));
              && OnlyRowAndWorker(s, t, e, w) && t.claims == s.claims + multiset{e}
              && t.db.rows[e] == Row(Processing, was.attempts, was.processAfter, was.createdAt, now)
              && w in t.workers && t.workers[w] == Worker(e, Claimed)
  {
  }

  /** A reap: a row processing for longer than the age is due again at once, its attempt counted, and
      the fifth attempt puts it aside. */
  lemma ReapTakesStuckRow(s: State, e: Id, now: int, age: int)
    ensures Enabled(s, Reap(e, now, age)) <==>
              e in s.db.rows && s.db.rows[e].status == Processing && s.db.rows[e].updatedAt < now - age
    ensures Enabled(s, Reap(e, now, age)) ==>
              var was, t := s.db.rows[e], Next(s, Reap(e, now, age));
              && t == s.(db := s.db.(rows := s.db.rows[e := t.db.rows[e]])) && e in t.db.rows
              && t.db.rows[e] == if was.attempts < 4 then Row(Pending, was.attempts + 1, now, was.createdAt, now)
                                 else Row(DeadLetter, was.attempts + 1, was.processAfter, was.createdAt, now)
  {
  }

  /** A requeue of a dead letter nobody touches meanwhile: a row with a fresh budget, due at once, that
      any free worker can claim. */
  lemma RequeueRevives(s: State, e: Id, w: Id, now: int)
    requires e in s.db.rows && s.db.rows[e].status == DeadLetter && w !in s.workers
    ensures var a := Requeue(e, s.db.rows[e], now);
      && Enabled(s, a)
      && var t := Next(s, a);
         && t == s.(db := s.db.(rows := s.db.rows[e := Row(Pending, 0, now, s.db.rows[e].createdAt, now)]))
         && Enabled(t, Claim(e, w, now))
  {
    var row := s.db.rows[e];
    UndisturbedWrite(row, RequeueRow(row, now));
    assert RequeueRow(row, now) == Row(Pending, 0, now, row.createdAt, now);
  }
}
