/** The steps around the consumers, said of the database's columns: what ingestion, operators and
    clean-up jobs may do and leave behind, how a dispatch starts a handler, and what is left when one
    stops. */
module PipelineArrivals {
  import opened Lifecycle
  import opened Outbox
  import opened Wrappers
  import opened Pipeline

  /** An alert with no incident to attach to opens one and announces it, in one transaction. */
  lemma IncidentOpens(s: State, i: Id, e: Id, now: int)
    ensures Enabled(s, OpenIncident(i, e, now)) <==> i !in s.db.incidents && i !in s.db.openedBy && e !in s.db.written
    ensures Enabled(s, OpenIncident(i, e, now)) ==>
              Next(s, OpenIncident(i, e, now)) ==
              s.(db := s.db.(incidents := s.db.incidents[i := Open],
                             withAlerts := s.db.withAlerts + {i},
                             openedBy := s.db.openedBy[i := e],
                             written := s.db.written[e := Event(Watcher, AlertNormalized(i, false), Ingestion)],
                             rows := s.db.rows[e := Row(Pending, 0, now, now, now)]))
  {
  }

  /** A further alert of an open incident is announced as a duplicate. */
  lemma AlertAttaches(s: State, i: Id, e: Id, now: int)
    ensures Enabled(s, AttachAlert(i, e, now)) <==> i in s.db.incidents && s.db.incidents[i] == Open && e !in s.db.written
    ensures Enabled(s, AttachAlert(i, e, now)) ==>
              Next(s, AttachAlert(i, e, now)) ==
              s.(db := s.db.(withAlerts := s.db.withAlerts + {i},
                             written := s.db.written[e := Event(Watcher, AlertNormalized(i, true), Ingestion)],
                             rows := s.db.rows[e := Row(Pending, 0, now, now, now)]))
  {
  }

  /** A repeat is the same event under a new id; only the watcher's own events are never repeated. */
  lemma EventRepeats(s: State, original: Id, e: Id, now: int)
    ensures Enabled(s, Repeat(original, e, now)) <==>
              original in s.db.written && e !in s.db.written
              && match s.db.written[original].payload
                 case AlertNormalized(_, _) => false
                 case _ => true
    ensures Enabled(s, Repeat(original, e, now)) ==>
              var ev := s.db.written[original];
              Next(s, Repeat(original, e, now)) ==
              s.(db := s.db.(written := s.db.written[e := Event(ev.target, ev.payload, Elsewhere)],
                             rows := s.db.rows[e := Row(Pending, 0, now, now, now)]))
  {
  }

  /** A stray event is one its target does not handle. */
  lemma StrayArrives(s: State, ev: Event, e: Id, now: int)
    ensures Enabled(s, Stray(ev, e, now)) <==>
              e !in s.db.written && ev.origin == Elsewhere
              && match ev.payload
                 case AlertNormalized(_, _) => ev.target != Watcher
                 case PlanRequested(_) => ev.target != Planner
                 case ReasoningRequested(_, _) => ev.target != Reasoner
                 case RecommendationCreated(_, _) => ev.target != Feedback
    ensures Enabled(s, Stray(ev, e, now)) ==>
              Next(s, Stray(ev, e, now)) ==
              s.(db := s.db.(written := s.db.written[e := ev], rows := s.db.rows[e := Row(Pending, 0, now, now, now)]))
  {
  }

  /** Whoever but delivery moves an incident resolves it, open or investigating, or closes it resolved. */
  lemma IncidentMoves(s: State, i: Id, status: Status)
    ensures Enabled(s, Move(i, status)) <==>
              i in s.db.incidents
              && ((status == Resolved && s.db.incidents[i] in {Open, Investigating}) || (status == Closed && s.db.incidents[i] == Resolved))
    ensures Enabled(s, Move(i, status)) ==> Next(s, Move(i, status)) == s.(db := s.db.(incidents := s.db.incidents[i := status]))
  {
    if i in s.db.incidents { TheEdges(s.db.incidents[i], status); }
  }

  /** Some handler is between its check and its commit on incident `i`. */
  ghost predicate ChecksIncident(s: State, i: Id) {
    exists h, existing :: h in s.handlers && s.handlers[h] == Handler(s.handlers[h].event, Checked(existing))
                          && s.handlers[h].event in s.db.written && s.db.written[s.handlers[h].event].payload.incident == i
  }

  ghost predicate ChecksPlan(s: State, p: Id) {
    exists h, existing, i :: h in s.handlers && s.handlers[h] == Handler(s.handlers[h].event, Checked(existing))
                             && s.handlers[h].event in s.db.written
                             && s.db.written[s.handlers[h].event].payload == ReasoningRequested(i, p)
  }

  /** Rows go only while nothing refers to them: an incident without alerts, plan and recommendation, a
      plan without a recommendation, neither of them just checked by a handler about to commit. */
  lemma RowsGo(s: State, i: Id, p: Id)
    ensures Enabled(s, DeleteAlerts(i)) <==> i in s.db.withAlerts
    ensures Enabled(s, DeleteAlerts(i)) ==>
              Next(s, DeleteAlerts(i)) == s.(db := s.db.(withAlerts := s.db.withAlerts - {i}))
    ensures Enabled(s, DeletePlan(p)) <==>
              p in s.db.plans && (forall r :: r in s.db.recs ==> s.db.recs[r].plan != p) && !ChecksPlan(s, p)
    ensures Enabled(s, DeletePlan(p)) ==> Next(s, DeletePlan(p)) == s.(db := s.db.(plans := s.db.plans - {p}))
    ensures Enabled(s, DeleteIncident(i)) <==>
              i in s.db.incidents && i !in s.db.withAlerts && i !in s.db.plans.Values
              && (forall r :: r in s.db.recs ==> s.db.recs[r].incident != i) && !ChecksIncident(s, i)
    ensures Enabled(s, DeleteIncident(i)) ==>
              Next(s, DeleteIncident(i)) == s.(db := s.db.(incidents := s.db.incidents - {i}))
  {
    assert HasPlan(s.db, i) <==> i in s.db.plans.Values;
    CheckedIsRelied(s, i, p);
  }

  lemma CheckedIsRelied(s: State, i: Id, p: Id)
    ensures ChecksIncident(s, i) <==> Relied(s, i)
    ensures ChecksPlan(s, p) <==> ReliedPlan(s, p)
  {
    if Relied(s, i) {
      var h :| h in s.handlers && s.handlers[h].phase.Checked? && s.handlers[h].event in s.db.written
               && s.db.written[s.handlers[h].event].payload.incident == i;
      assert s.handlers[h] == Handler(s.handlers[h].event, Checked(s.handlers[h].phase.existing));
    }
    if ReliedPlan(s, p) {
      var h :| h in s.handlers && s.handlers[h].phase.Checked? && s.handlers[h].event in s.db.written
               && s.db.written[s.handlers[h].event].payload.ReasoningRequested?
               && s.db.written[s.handlers[h].event].payload.plan == p;
      assert s.handlers[h] == Handler(s.handlers[h].event, Checked(s.handlers[h].phase.existing));
      assert s.db.written[s.handlers[h].event].payload == ReasoningRequested(s.db.written[s.handlers[h].event].payload.incident, p);
    }
  }

  /** A dispatch starts a handler of its own with the claimed event. */
  lemma DispatchStarts(s: State, w: Id, h: Id, e: Id)
    requires w in s.workers && s.workers[w].event == e
    ensures Enabled(s, Dispatch(w, h)) <==>
              s.workers[w] == Worker(e, Claimed) && h !in s.handlers && forall v :: v in s.workers ==> s.workers[v].turn != Waiting(h)
    ensures Enabled(s, Dispatch(w, h)) ==>
              Next(s, Dispatch(w, h)) ==
              s.(workers := s.workers[w := Worker(e, Waiting(h))], handlers := s.handlers[h := Handler(e, Start)])
  {
  }

  /** A worker's turn: with a claimed event it may find no token for the target or give the dispatch up,
      which it may also do while it waits; it hears a handler that has answered; and it reads the row,
      ending its turn when there is none any more, before it records. */
  lemma WorkerTurns(s: State, w: Id, e: Id, now: int)
    requires w in s.workers && s.workers[w].event == e
    ensures Enabled(s, Refuse(w)) <==> s.workers[w].turn == Claimed
    ensures Enabled(s, GiveUp(w)) <==> s.workers[w].turn == Claimed || exists h :: s.workers[w].turn == Waiting(h)
    ensures Enabled(s, Hear(w)) <==>
              exists h, code :: s.workers[w].turn == Waiting(h) && h in s.handlers && s.handlers[h].phase == Done(code)
    ensures Enabled(s, Fetch(w)) <==> exists outcome :: s.workers[w].turn == Heard(outcome)
    ensures Enabled(s, Record(w, now)) <==> exists outcome, row :: s.workers[w].turn == Fetched(outcome, row)
    ensures Enabled(s, Fetch(w)) && e !in s.db.rows ==> Next(s, Fetch(w)) == s.(workers := s.workers - {w})
    ensures Enabled(s, Fetch(w)) && e in s.db.rows ==>
              Next(s, Fetch(w)) == s.(workers := s.workers[w := Worker(e, Fetched(s.workers[w].turn.outcome, s.db.rows[e]))])
  {
    var turn := s.workers[w].turn;
    if turn.Waiting? {
      assert turn == Waiting(turn.handler);
      if turn.handler in s.handlers && s.handlers[turn.handler].phase.Done? {
        assert s.handlers[turn.handler].phase == Done(s.handlers[turn.handler].phase.code);
      }
    }
    if turn.Heard? { assert turn == Heard(turn.outcome); }
    if turn.Fetched? { assert turn == Fetched(turn.outcome, turn.seen); }
  }

  /** What a record leaves of the row, whatever has happened to it since it was read: the columns whose
      value it changes are written, the others stay as they are by then. */
  predicate Overwritten(row: Row, was: Row, seen: Row, status: RowStatus, attempts: nat, processAfter: int, now: int) {
    && row.status == (if status == seen.status then was.status else status)
    && row.attempts == (if attempts == seen.attempts then was.attempts else attempts)
    && row.processAfter == (if processAfter == seen.processAfter then was.processAfter else processAfter)
    && row.updatedAt == (if now == seen.updatedAt then was.updatedAt else now)
    && row.createdAt == was.createdAt
  }

  lemma RecordWrites(s: State, w: Id, e: Id, outcome: Outcome, seen: Row, now: int)
    requires w in s.workers && s.workers[w] == Worker(e, Fetched(outcome, seen))
    ensures Enabled(s, Record(w, now))
    ensures var t := Next(s, Record(w, now));
      && t == s.(workers := s.workers - {w}, db := s.db.(rows := t.db.rows))
      && (e !in s.db.rows ==> t.db.rows == s.db.rows)
      && (e in s.db.rows && outcome == Delivered ==> t.db.rows == s.db.rows - {e})
      && (e in s.db.rows && outcome != Delivered ==>
            && e in t.db.rows && t.db.rows == s.db.rows[e := t.db.rows[e]]
            && if outcome == Permanent || seen.attempts >= 4
               then Overwritten(t.db.rows[e], s.db.rows[e], seen, DeadLetter, seen.attempts + 1, seen.processAfter, now)
               else Overwritten(t.db.rows[e], s.db.rows[e], seen, Pending, seen.attempts + 1,
                                now + (if seen.attempts == 0 then 5 else if seen.attempts == 1 then 15 else if seen.attempts == 2 then 60 else 300),
                                now))
  {
  }

  /** And a requeue decided on a dead letter as it was read. */
  lemma RequeueWrites(s: State, e: Id, seen: Row, now: int)
    ensures Enabled(s, Requeue(e, seen, now)) <==> e in s.db.rows && seen.status == DeadLetter
    ensures Enabled(s, Requeue(e, seen, now)) ==>
              var t := Next(s, Requeue(e, seen, now));
              && e in t.db.rows && t == s.(db := s.db.(rows := s.db.rows[e := t.db.rows[e]]))
              && Overwritten(t.db.rows[e], s.db.rows[e], seen, Pending, 0, now, now)
  {
  }

  /** A worker that dies leaves its row as it is, for the reaper. */
  lemma WorkerStops(s: State, w: Id)
    ensures Enabled(s, WorkerDies(w)) <==> w in s.workers
    ensures Enabled(s, WorkerDies(w)) ==> Next(s, WorkerDies(w)) == s.(workers := s.workers - {w})
  {
  }

  /** A handler that stops, with an answer or without, commits nothing and lets go of the row it holds;
      a card it has posted and not recorded stays in the channel and is counted as lost. */
  lemma HandlerStops(s: State, h: Id, held: set<Id>)
    requires h in s.handlers && held == (set r | r in s.locks && s.locks[r] == h)
    ensures Enabled(s, HandlerDies(h)) && (Enabled(s, HandlerFails(h)) <==> !s.handlers[h].phase.Done?)
    ensures var locks, died := s.locks - held, if s.handlers[h].phase.Posted? then s.died + multiset(held) else s.died;
      && Next(s, HandlerDies(h)) == s.(locks := locks, died := died, handlers := s.handlers - {h})
      && (Enabled(s, HandlerFails(h)) ==>
            Next(s, HandlerFails(h)) ==
            s.(locks := locks, died := died, handlers := s.handlers[h := Handler(s.handlers[h].event, Done(500))]))
  {
    assert held == HeldLocks(s, h);
  }
}
