/** Every committed transaction keeps the database half of the invariant and takes nothing back. */
module PipelineTransactions {
  import opened Lifecycle
  import opened Outbox
  import opened Pipeline
  import opened PipelineInvariant

  // ---------------------------------------------------------------- one lemma per clause

  lemma TruthStays(db: Db, after: Db)
    requires AllTruthful(db) && Grows(db, after)
    requires forall e :: e in after.written && e !in db.written ==> Truthful(after, after.written[e])
    ensures AllTruthful(after)
  {
    forall e | e in after.written ensures Truthful(after, after.written[e]) {
      if e in db.written { assert Truthful(db, db.written[e]); }
    }
  }

  lemma MarkersStay(db: Db, after: Db)
    requires MarkersBehindWork(db) && Grows(db, after)
    requires forall m :: m in after.processed && m !in db.processed ==>
               m.0 in after.written && m.1 == after.written[m.0].target && Effect(after, m.0)
    ensures MarkersBehindWork(after)
  {
    EffectLasts(db, after);
  }

  lemma OpeningsStay(db: Db, after: Db)
    requires Openings(db) && Grows(db, after) && after.openedBy == db.openedBy
    requires forall i :: i in db.openedBy && (db.openedBy[i], Watcher) in after.processed ==>
               (db.openedBy[i], Watcher) in db.processed || i in after.suppressed || Wrote(after, PlanRequest(i))
    requires forall e :: e in after.written && e !in db.written && after.written[e].origin == Ingestion ==>
               Repeatable(after.written[e])
    requires forall e :: e in after.written && e !in db.written && after.written[e].origin == By(Watcher) ==>
               after.written[e].payload.incident in db.openedBy
               && (db.openedBy[after.written[e].payload.incident], Watcher) in after.processed
    ensures Openings(after)
  {
    forall j | j in after.openedBy && (after.openedBy[j], Watcher) in after.processed
      ensures j in after.suppressed || Wrote(after, PlanRequest(j))
    {
      if (db.openedBy[j], Watcher) in db.processed && j !in db.suppressed {
        WroteStays(db, after, PlanRequest(j));
      }
    }
  }

  lemma WroteStays(db: Db, after: Db, ev: Event)
    requires Wrote(db, ev) && Grows(db, after)
    ensures Wrote(after, ev)
  {
    var x :| x in db.written && db.written[x] == ev;
    assert x in after.written && after.written[x] == ev;
  }

  lemma SuccessorsStay(db: Db, after: Db)
    requires Successors(db) && Grows(db, after)
    requires forall p :: p in after.planned && p !in db.planned ==> Wrote(after, Reasoning(after.planned[p], p))
    requires forall r :: r in after.recs && r !in db.recs ==> Wrote(after, Announcement(after.recs[r].incident, r))
    ensures Successors(after)
  {
    forall p | p in after.planned ensures Wrote(after, Reasoning(after.planned[p], p)) {
      if p in db.planned { WroteStays(db, after, Reasoning(db.planned[p], p)); }
    }
    forall r | r in after.recs ensures Wrote(after, Announcement(after.recs[r].incident, r)) {
      if r in db.recs { WroteStays(db, after, Announcement(db.recs[r].incident, r)); }
    }
  }

  /** One new event at most, and it says something new. */
  lemma OnceStays(db: Db, after: Db, next: Id, ev: Event)
    requires SaidOnce(db) && next !in db.written
    requires after.written == db.written || after.written == db.written[next := ev]
    requires Repeatable(ev) || !Wrote(db, ev)
    ensures SaidOnce(after)
  {
  }

  lemma ToldStays(db: Db, after: Db)
    requires InvestigatingMeansTold(db) && Grows(db, after)
    requires forall i :: i in after.incidents && after.incidents[i] == Investigating ==>
               (i in db.incidents && db.incidents[i] == Investigating) || Told(after, i)
    ensures InvestigatingMeansTold(after)
  {
    forall i | i in after.incidents && after.incidents[i] == Investigating ensures Told(after, i) {
      if i in db.incidents && db.incidents[i] == Investigating {
        var r :| r in db.recs && db.recs[r].incident == i && db.recs[r].slackTs.Some?;
        assert r in after.recs && after.recs[r].incident == i && after.recs[r].slackTs.Some?;
      }
    }
  }

  lemma KeptStays(db: Db, after: Db)
    requires NothingLost(db) && Grows(db, after)
    requires forall e :: e in db.written && e in db.rows && e !in after.rows ==> Effect(after, e)
    requires forall e :: e in after.written && e !in db.written ==> e in after.rows
    ensures NothingLost(after)
  {
    EffectLasts(db, after);
    forall e | e in after.written ensures e in after.rows || Effect(after, e) {
      if e in db.written { assert e in db.rows || Effect(db, e); }
    }
  }

  // ---------------------------------------------------------------- one lemma per transaction

  /** What a transaction that opens no incident owes, given that it writes at most `next`. */
  datatype Duty = REFERENCES | GROWTH | ROWS | MARKING | SUCCESSION | TELLING | WRITING

  ghost predicate Owes(db: Db, after: Db, next: Id, d: Duty) {
    match d
    case REFERENCES => Keys(after)
    case GROWTH => Grows(db, after) && after.openedBy == db.openedBy
    case ROWS => forall e :: e in db.written && e in db.rows && e !in after.rows ==> e in after.written && Effect(after, e)
    case MARKING => forall m :: m in after.processed && m !in db.processed ==> LawfulMarker(after, m)
    case SUCCESSION =>
      && (forall p :: p in after.planned && p !in db.planned ==> Wrote(after, Reasoning(after.planned[p], p)))
      && (forall r :: r in after.recs && r !in db.recs ==> Wrote(after, Announcement(after.recs[r].incident, r)))
    case TELLING => forall i :: i in after.incidents && after.incidents[i] == Investigating ==>
          (i in db.incidents && db.incidents[i] == Investigating) || Told(after, i)
    case WRITING =>
      && after.written.Keys <= db.written.Keys + {next}
      && (next in after.written && next !in db.written ==> LawfulEvent(db, after, next))
  }

  ghost predicate Lawful(db: Db, after: Db, next: Id) {
    forall d :: Owes(db, after, next, d)
  }

  ghost predicate LawfulMarker(after: Db, m: (Id, Service)) {
    && m.0 in after.written && m.1 == after.written[m.0].target && Effect(after, m.0)
    && (after.written[m.0].origin == Ingestion && !Repeatable(after.written[m.0]) ==>
          after.written[m.0].payload.incident in after.suppressed
          || Wrote(after, PlanRequest(after.written[m.0].payload.incident)))
  }

  ghost predicate LawfulEvent(db: Db, after: Db, next: Id)
    requires next in after.written
  {
    var ev := after.written[next];
    && Truthful(after, ev) && next in after.rows
    && (Repeatable(ev) || !Wrote(db, ev))
    && (ev.origin == Ingestion ==> Repeatable(ev))
    && (ev.origin == By(Watcher) ==>
          ev.payload.incident in db.openedBy && (db.openedBy[ev.payload.incident], Watcher) in after.processed)
  }

  lemma LawfulOpenings(db: Db, after: Db, next: Id)
    requires DbInv(db) && Lawful(db, after, next)
    ensures Openings(after)
  {
    assert Owes(db, after, next, GROWTH) && Owes(db, after, next, WRITING) && Owes(db, after, next, MARKING);
    assert Holds(db, OPENINGS);
    NewMarkers(db, after);
    OpeningsStay(db, after);
  }

  lemma LawfulOnce(db: Db, after: Db, next: Id)
    requires SaidOnce(db) && Grows(db, after) && Owes(db, after, next, WRITING)
    ensures SaidOnce(after)
  {
    if next in after.written && next !in db.written {
      OnceStays(db, after, next, after.written[next]);
    } else {
      assert after.written == db.written;
    }
  }

  lemma LawfulHolds(db: Db, after: Db, next: Id, c: Clause)
    requires DbInv(db) && Lawful(db, after, next) && Grows(db, after)
    ensures Holds(after, c)
  {
    assert Owes(db, after, next, WRITING);
    assert Holds(db, c);
    match c
    case KEYS => assert Owes(db, after, next, REFERENCES);
    case TRUTH => TruthStays(db, after);
    case MARKERS => assert Owes(db, after, next, MARKING); MarkersStay(db, after);
    case OPENINGS => LawfulOpenings(db, after, next);
    case SUCCESSORS => assert Owes(db, after, next, SUCCESSION); SuccessorsStay(db, after);
    case ONCE => LawfulOnce(db, after, next);
    case TOLD => assert Owes(db, after, next, TELLING); ToldStays(db, after);
    case KEPT => assert Owes(db, after, next, ROWS); KeptStays(db, after);
  }

  lemma LawfulKeeps(db: Db, after: Db, next: Id)
    requires DbInv(db) && Lawful(db, after, next)
    ensures DbInv(after) && Grows(db, after)
  {
    assert Owes(db, after, next, GROWTH);
    forall c ensures Holds(after, c) {
      LawfulHolds(db, after, next, c);
    }
  }

  lemma NewMarkers(db: Db, after: Db)
    requires Openings(db) && Grows(db, after) && after.openedBy == db.openedBy
    requires forall m :: m in after.processed && m !in db.processed ==> LawfulMarker(after, m)
    ensures forall i :: i in db.openedBy && (db.openedBy[i], Watcher) in after.processed ==>
              (db.openedBy[i], Watcher) in db.processed || i in after.suppressed || Wrote(after, PlanRequest(i))
  {
    forall i | i in db.openedBy && (db.openedBy[i], Watcher) in after.processed
      ensures (db.openedBy[i], Watcher) in db.processed || i in after.suppressed || Wrote(after, PlanRequest(i))
    {
      if (db.openedBy[i], Watcher) !in db.processed { assert LawfulMarker(after, (db.openedBy[i], Watcher)); }
    }
  }

  /** A transaction that changes outbox rows only, and drops a row only when its work is done. */
  lemma RowsOnly(db: Db, rows: map<Id, Row>)
    requires DbInv(db)
    requires rows.Keys <= db.rows.Keys
    requires forall e :: e in db.written && e in db.rows && e !in rows ==> Effect(db, e)
    ensures DbInv(db.(rows := rows)) && Grows(db, db.(rows := rows))
  {
    var after := db.(rows := rows);
    EffectLasts(db, after);
    forall d ensures Owes(db, after, 0, d) {
      match d
      case REFERENCES => assert Holds(db, KEYS);
      case _ =>
    }
    LawfulKeeps(db, after, 0);
  }

  /** A repeat, a stray or a deduplicated alert. */
  lemma RepeatableKeeps(db: Db, after: Db, e: Id, ev: Event, now: int)
    requires DbInv(db) && e !in db.written && Truthful(db, ev) && Repeatable(ev) && ev.origin != By(Watcher)
    requires after == WriteOutboxEvent(db.(withAlerts := after.withAlerts), e, ev, now)
    ensures DbInv(after) && Grows(db, after)
  {
    forall d ensures Owes(db, after, e, d) {
      match d
      case REFERENCES => assert Holds(db, KEYS);
      case _ =>
    }
    LawfulKeeps(db, after, e);
  }

  /** Deletions of rows nothing references, and status moves by anyone but delivery. */
  lemma QuietKeeps(db: Db, after: Db)
    requires DbInv(db)
    requires after == db.(incidents := after.incidents, withAlerts := after.withAlerts, plans := after.plans)
    requires forall i :: i in after.incidents ==>
               i in db.incidents && (after.incidents[i] == Investigating ==> db.incidents[i] == Investigating)
    requires forall p :: p in after.plans ==> p in db.plans && after.plans[p] == db.plans[p] && after.plans[p] in after.incidents
    requires forall r :: r in db.recs ==> db.recs[r].incident in after.incidents && db.recs[r].plan in after.plans
    ensures DbInv(after) && Grows(db, after)
  {
    forall d ensures Owes(db, after, 0, d) {
      match d
      case REFERENCES => assert Holds(db, KEYS);
      case _ =>
    }
    LawfulKeeps(db, after, 0);
  }

  function Opened(db: Db, i: Id, e: Id, now: int): Db {
    WriteOutboxEvent(db.(incidents := db.incidents[i := Open], withAlerts := db.withAlerts + {i},
                         openedBy := db.openedBy[i := e]), e, Opening(i), now)
  }

  lemma OpenedKeys(db: Db, i: Id, e: Id, now: int)
    requires Keys(db) && i !in db.incidents && i !in db.openedBy
    ensures Keys(Opened(db, i, e, now))
  {
  }

  lemma OpenIncidentKeeps(db: Db, i: Id, e: Id, now: int)
    requires DbInv(db) && i !in db.incidents && i !in db.openedBy && e !in db.written
    ensures DbInv(Opened(db, i, e, now)) && Grows(db, Opened(db, i, e, now))
  {
    OpenedGrows(db, i, e, now);
    forall c ensures Holds(Opened(db, i, e, now), c) {
      OpenedHolds(db, i, e, now, c);
    }
  }

  lemma OpenedGrows(db: Db, i: Id, e: Id, now: int)
    requires i !in db.incidents && i !in db.openedBy && e !in db.written
    ensures Grows(db, Opened(db, i, e, now))
  {
  }

  lemma OpenedHolds(db: Db, i: Id, e: Id, now: int, c: Clause)
    requires DbInv(db) && i !in db.incidents && i !in db.openedBy && e !in db.written && Grows(db, Opened(db, i, e, now))
    ensures Holds(Opened(db, i, e, now), c)
  {
    var after := Opened(db, i, e, now);
    assert Holds(db, c);
    match c
    case KEYS => OpenedKeys(db, i, e, now);
    case TRUTH => TruthStays(db, after);
    case MARKERS => MarkersStay(db, after);
    case OPENINGS => assert Holds(db, MARKERS); FirstOpening(db, after, i, e);
    case SUCCESSORS => SuccessorsStay(db, after);
    case ONCE => NotYetWritten(db, Opening(i)); OnceStays(db, after, e, Opening(i));
    case TOLD => ToldStays(db, after);
    case KEPT => KeptStays(db, after);
  }

  /** An event that would not be true yet has not been written yet. */
  lemma NotYetWritten(db: Db, ev: Event)
    requires DbInv(db) && !Truthful(db, ev)
    ensures !Wrote(db, ev)
  {
    assert Holds(db, TRUTH);
  }

  lemma FirstOpening(db: Db, after: Db, i: Id, e: Id)
    requires Openings(db) && MarkersBehindWork(db) && Grows(db, after) && after.processed == db.processed
    requires after.written == db.written[e := Opening(i)] && e !in db.written
    requires after.openedBy == db.openedBy[i := e] && i !in db.openedBy && after.suppressed == db.suppressed
    ensures Openings(after)
  {
    forall m | m in db.processed ensures m.0 != e {}
    forall j | j in after.openedBy && (after.openedBy[j], Watcher) in after.processed
      ensures j in after.suppressed || Wrote(after, PlanRequest(j))
    {
      assert (after.openedBy[j], Watcher).0 != e;
      if j !in db.suppressed { WroteStays(db, after, PlanRequest(j)); }
    }
  }

  /** Marking an event whose work is committed once the marker is. */
  lemma MarkKeeps(db: Db, e: Id)
    requires DbInv(db) && e in db.written
    requires !Handles(db.written[e]) || (Effect(db, e) && !db.written[e].payload.AlertNormalized?)
    ensures var after := MarkProcessed(db, e, db.written[e].target);
            DbInv(after) && Grows(db, after) && Effect(after, e) && OnlyNewRows(db, after)
  {
    var after := MarkProcessed(db, e, db.written[e].target);
    EffectLasts(db, after);
    assert Truthful(db, db.written[e]) by { assert Holds(db, TRUTH); }
    forall d ensures Owes(db, after, 0, d) {
      match d
      case REFERENCES => assert Holds(db, KEYS);
      case _ =>
    }
    LawfulKeeps(db, after, 0);
  }

  lemma WatcherCommitKeeps(db: Db, e: Id, request: bool, suppress: bool, next: Id, now: int)
    requires DbInv(db) && e in db.written && Handles(db.written[e]) && db.written[e].payload.AlertNormalized?
    requires (e, Watcher) !in db.processed && next !in db.written
    requires if db.written[e].payload.deduplicated then !request && !suppress else request != suppress
    ensures var after := WatcherCommit(db, e, db.written[e].payload.incident, request, suppress, next, now);
            DbInv(after) && Grows(db, after) && Effect(after, e) && OnlyNewRows(db, after)
  {
    var after := WatcherCommit(db, e, db.written[e].payload.incident, request, suppress, next, now);
    WatcherOwes(db, e, request, suppress, next, now);
    LawfulKeeps(db, after, next);
    assert OnlyNewRows(db, after) by { assert Holds(db, KEYS); }
  }

  lemma WatcherOwes(db: Db, e: Id, request: bool, suppress: bool, next: Id, now: int)
    requires DbInv(db) && e in db.written && Handles(db.written[e]) && db.written[e].payload.AlertNormalized?
    requires (e, Watcher) !in db.processed && next !in db.written
    requires if db.written[e].payload.deduplicated then !request && !suppress else request != suppress
    ensures Lawful(db, WatcherCommit(db, e, db.written[e].payload.incident, request, suppress, next, now), next)
  {
    var i := db.written[e].payload.incident;
    var after := WatcherCommit(db, e, i, request, suppress, next, now);
    assert Truthful(db, db.written[e]) by { assert Holds(db, TRUTH); }
    assert request ==> after.written[next] == PlanRequest(i);
    if request { NotYetRequested(db, e); }
    forall d ensures Owes(db, after, next, d) {
      match d
      case REFERENCES => assert Holds(db, KEYS);
      case _ =>
    }
  }

  /** The opening of `i` carries no marker yet, so nothing was requested for `i`. */
  lemma NotYetRequested(db: Db, e: Id)
    requires DbInv(db) && e in db.written && Handles(db.written[e]) && db.written[e].payload.AlertNormalized?
    requires !db.written[e].payload.deduplicated && (e, Watcher) !in db.processed
    ensures !Wrote(db, PlanRequest(db.written[e].payload.incident))
    ensures db.written[e].payload.incident in db.openedBy && db.openedBy[db.written[e].payload.incident] == e
  {
    assert Holds(db, TRUTH) && Truthful(db, db.written[e]);
    assert Holds(db, OPENINGS);
  }

  lemma PlannerKeys(db: Db, e: Id, i: Id, p: Id, next: Id, now: int)
    requires Keys(db) && p !in db.planned && i in db.incidents && !HasPlan(db, i)
    ensures Keys(PlannerCommit(db, e, i, false, p, next, now))
  {
  }

  lemma PlannerCommitKeeps(db: Db, e: Id, existing: bool, p: Id, next: Id, now: int)
    requires DbInv(db) && e in db.written && Handles(db.written[e]) && db.written[e].payload.PlanRequested?
    requires next !in db.written && p !in db.planned && p !in db.plans
    requires db.written[e].payload.incident in db.incidents
    requires existing ==> Effect(db, e)
    requires !existing ==> !HasPlan(db, db.written[e].payload.incident)
    ensures var after := PlannerCommit(db, e, db.written[e].payload.incident, existing, p, next, now);
            DbInv(after) && Grows(db, after) && Effect(after, e) && OnlyNewRows(db, after)
  {
    var i := db.written[e].payload.incident;
    var after := PlannerCommit(db, e, i, existing, p, next, now);
    if existing {
      MarkKeeps(db, e);
    } else {
      PlannerOwes(db, e, p, next, now);
      LawfulKeeps(db, after, next);
      assert after.planned[p] == i;
      assert OnlyNewRows(db, after) by { assert Holds(db, KEYS); }
    }
  }

  lemma PlannerOwes(db: Db, e: Id, p: Id, next: Id, now: int)
    requires DbInv(db) && e in db.written && Handles(db.written[e]) && db.written[e].payload.PlanRequested?
    requires next !in db.written && p !in db.planned && p !in db.plans
    requires db.written[e].payload.incident in db.incidents && !HasPlan(db, db.written[e].payload.incident)
    ensures Lawful(db, PlannerCommit(db, e, db.written[e].payload.incident, false, p, next, now), next)
  {
    var i := db.written[e].payload.incident;
    var after := PlannerCommit(db, e, i, false, p, next, now);
    assert after.planned[p] == i && after.written[next] == Reasoning(i, p);
    assert Truthful(db, db.written[e]) by { assert Holds(db, TRUTH); }
    NotYetWritten(db, Reasoning(i, p));
    forall d ensures Owes(db, after, next, d) {
      match d
      case REFERENCES => assert Holds(db, KEYS); PlannerKeys(db, e, i, p, next, now);
      case _ =>
    }
  }

  lemma ReasonerKeys(db: Db, e: Id, i: Id, p: Id, r: Id, next: Id, now: int)
    requires Keys(db) && i in db.incidents && p in db.plans && db.plans[p] == i && !HasRec(db, i)
    ensures Keys(ReasonerCommit(db, e, i, p, false, r, next, now))
  {
  }

  lemma ReasonerCommitKeeps(db: Db, e: Id, existing: bool, r: Id, next: Id, now: int)
    requires DbInv(db) && e in db.written && Handles(db.written[e]) && db.written[e].payload.ReasoningRequested?
    requires next !in db.written && r !in db.recs
    requires db.written[e].payload.incident in db.incidents
    requires db.written[e].payload.plan in db.plans && db.plans[db.written[e].payload.plan] == db.written[e].payload.incident
    requires existing ==> Effect(db, e)
    requires !existing ==> !HasRec(db, db.written[e].payload.incident)
    ensures var ev := db.written[e].payload;
            var after := ReasonerCommit(db, e, ev.incident, ev.plan, existing, r, next, now);
            DbInv(after) && Grows(db, after) && Effect(after, e) && OnlyNewRows(db, after)
  {
    var i, p := db.written[e].payload.incident, db.written[e].payload.plan;
    var after := ReasonerCommit(db, e, i, p, existing, r, next, now);
    if existing {
      MarkKeeps(db, e);
    } else {
      ReasonerOwes(db, e, r, next, now);
      LawfulKeeps(db, after, next);
      assert after.recs[r].incident == i;
      assert OnlyNewRows(db, after) by { assert Holds(db, KEYS); }
    }
  }

  lemma ReasonerOwes(db: Db, e: Id, r: Id, next: Id, now: int)
    requires DbInv(db) && e in db.written && Handles(db.written[e]) && db.written[e].payload.ReasoningRequested?
    requires next !in db.written && r !in db.recs
    requires db.written[e].payload.incident in db.incidents && !HasRec(db, db.written[e].payload.incident)
    requires db.written[e].payload.plan in db.plans && db.plans[db.written[e].payload.plan] == db.written[e].payload.incident
    ensures var ev := db.written[e].payload;
            Lawful(db, ReasonerCommit(db, e, ev.incident, ev.plan, false, r, next, now), next)
  {
    var i, p := db.written[e].payload.incident, db.written[e].payload.plan;
    var after := ReasonerCommit(db, e, i, p, false, r, next, now);
    assert after.recs[r].incident == i && after.written[next] == Announcement(i, r);
    assert Truthful(db, db.written[e]) by { assert Holds(db, TRUTH); }
    NotYetWritten(db, Announcement(i, r));
    forall d ensures Owes(db, after, next, d) {
      match d
      case REFERENCES => assert Holds(db, KEYS); ReasonerKeys(db, e, i, p, r, next, now);
      case _ =>
    }
  }

  lemma FeedbackKeys(db: Db, e: Id, i: Id, r: Id, ts: nat, read: Status)
    requires Keys(db) && r in db.recs && i in db.incidents
    ensures Keys(FeedbackCommit(db, e, i, r, ts, read))
  {
  }

  lemma FeedbackCommitKeeps(db: Db, e: Id, ts: nat, read: Status)
    requires DbInv(db) && e in db.written && Handles(db.written[e]) && db.written[e].payload.RecommendationCreated?
    requires db.written[e].payload.recommendation in db.recs && db.written[e].payload.incident in db.incidents
    requires db.recs[db.written[e].payload.recommendation].slackTs.None?
    ensures var ev := db.written[e].payload;
            var after := FeedbackCommit(db, e, ev.incident, ev.recommendation, ts, read);
            DbInv(after) && Grows(db, after) && Effect(after, e) && OnlyNewRows(db, after)
  {
    FeedbackOwes(db, e, ts, read);
    LawfulKeeps(db, FeedbackCommit(db, e, db.written[e].payload.incident, db.written[e].payload.recommendation, ts, read), 0);
  }

  lemma FeedbackOwes(db: Db, e: Id, ts: nat, read: Status)
    requires DbInv(db) && e in db.written && Handles(db.written[e]) && db.written[e].payload.RecommendationCreated?
    requires db.written[e].payload.recommendation in db.recs && db.written[e].payload.incident in db.incidents
    requires db.recs[db.written[e].payload.recommendation].slackTs.None?
    ensures var ev := db.written[e].payload;
            Lawful(db, FeedbackCommit(db, e, ev.incident, ev.recommendation, ts, read), 0)
  {
    var i, r := db.written[e].payload.incident, db.written[e].payload.recommendation;
    var after := FeedbackCommit(db, e, i, r, ts, read);
    assert Truthful(db, db.written[e]) by { assert Holds(db, TRUTH); }
    assert after.recs[r].incident == i && after.recs[r].slackTs.Some?;
    forall d ensures Owes(db, after, 0, d) {
      match d
      case REFERENCES => assert Holds(db, KEYS); FeedbackKeys(db, e, i, r, ts, read);
      case _ =>
    }
  }
}
