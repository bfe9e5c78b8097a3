/** The inductive invariant of the pipeline. */
module PipelineInvariant {
  import opened Lifecycle
  import opened Outbox
  import opened Pipeline

  /** The work an event stands for is committed. */
  ghost predicate Effect(db: Db, e: Id)
    requires e in db.written
  {
    var ev := db.written[e];
    if !Handles(ev) then (e, ev.target) in db.processed
    else match ev.payload
      case AlertNormalized(_, _) => (e, Watcher) in db.processed
      case PlanRequested(i) => exists p :: p in db.planned && db.planned[p] == i
      case ReasoningRequested(i, _) => HasRec(db, i)
      case RecommendationCreated(_, r) => r in db.recs && db.recs[r].slackTs.Some?
  }

  /** Primary, foreign and unique keys. */
  ghost predicate Keys(db: Db) {
    && db.rows.Keys <= db.written.Keys
    && db.incidents.Keys <= db.openedBy.Keys
    && (forall p :: p in db.plans ==> p in db.planned && db.planned[p] == db.plans[p] && db.plans[p] in db.incidents)
    && (forall p, q :: p in db.plans && q in db.plans && db.plans[p] == db.plans[q] ==> p == q)
    && (forall r :: r in db.recs ==>
          && db.recs[r].incident in db.incidents
          && db.recs[r].plan in db.plans && db.plans[db.recs[r].plan] == db.recs[r].incident)
    && (forall q, r :: q in db.recs && r in db.recs && db.recs[q].incident == db.recs[r].incident ==> q == r)
  }

  /** An event says nothing false about the rows it names, and its writer wrote its own type. */
  ghost predicate Truthful(db: Db, ev: Event) {
    && (!Handles(ev) ==> ev.origin == Elsewhere)
    && (Handles(ev) ==>
          match ev.payload
          case AlertNormalized(i, _) => ev.origin == Ingestion && i in db.openedBy
          case PlanRequested(i) => ev.origin in {By(Watcher), Elsewhere} && i in db.openedBy
          case ReasoningRequested(i, p) => ev.origin in {By(Planner), Elsewhere} && p in db.planned && db.planned[p] == i
          case RecommendationCreated(i, r) => ev.origin in {By(Reasoner), Elsewhere} && r in db.recs && db.recs[r].incident == i)
  }

  ghost predicate AllTruthful(db: Db) {
    forall e :: e in db.written ==> Truthful(db, db.written[e])
  }

  /** A marker names a written event, for its target, whose work is committed. */
  ghost predicate MarkersBehindWork(db: Db) {
    forall m :: m in db.processed ==> m.0 in db.written && m.1 == db.written[m.0].target && Effect(db, m.0)
  }

  /** The event that opens incident `i`, the plan request for it, and the successors of a plan
      and of a recommendation, exactly as their writers write them. */
  function Opening(i: Id): Event { Event(Watcher, AlertNormalized(i, false), Ingestion) }
  function PlanRequest(i: Id): Event { Event(Planner, PlanRequested(i), By(Watcher)) }
  function Reasoning(i: Id, p: Id): Event { Event(Reasoner, ReasoningRequested(i, p), By(Planner)) }
  function Announcement(i: Id, r: Id): Event { Event(Feedback, RecommendationCreated(i, r), By(Reasoner)) }

  ghost predicate Wrote(db: Db, ev: Event) {
    exists e :: e in db.written && db.written[e] == ev
  }

  /** Only an operator's repeat and a deduplicated alert may be written twice over. */
  predicate Repeatable(ev: Event) {
    ev.origin == Elsewhere || (ev.payload.AlertNormalized? && ev.payload.deduplicated)
  }

  /** Every other event is written under one id only. */
  ghost predicate SaidOnce(db: Db) {
    forall e, f :: e in db.written && f in db.written && db.written[e] == db.written[f] && !Repeatable(db.written[e])
      ==> e == f
  }

  ghost predicate Openings(db: Db) {
    && (forall i :: i in db.openedBy ==>
          && db.openedBy[i] in db.written && db.written[db.openedBy[i]] == Opening(i)
          && ((db.openedBy[i], Watcher) in db.processed ==> i in db.suppressed || Wrote(db, PlanRequest(i))))
    && (forall e :: e in db.written && db.written[e].origin == Ingestion && !Repeatable(db.written[e]) ==>
          db.written[e].payload.incident in db.openedBy && db.openedBy[db.written[e].payload.incident] == e)
    && (forall e :: e in db.written && db.written[e].origin == By(Watcher) ==>
          db.written[e].payload.incident in db.openedBy
          && (db.openedBy[db.written[e].payload.incident], Watcher) in db.processed)
  }

  ghost predicate Successors(db: Db) {
    && (forall p :: p in db.planned ==> Wrote(db, Reasoning(db.planned[p], p)))
    && (forall r :: r in db.recs ==> Wrote(db, Announcement(db.recs[r].incident, r)))
  }

  ghost predicate Told(db: Db, i: Id) {
    exists r :: r in db.recs && db.recs[r].incident == i && db.recs[r].slackTs.Some?
  }

  ghost predicate InvestigatingMeansTold(db: Db) {
    forall i :: i in db.incidents && db.incidents[i] == Investigating ==> Told(db, i)
  }

  ghost predicate NothingLost(db: Db) {
    forall e :: e in db.written ==> e in db.rows || Effect(db, e)
  }

  /** The database half of the invariant, clause by clause. */
  datatype Clause = KEYS | TRUTH | MARKERS | OPENINGS | SUCCESSORS | ONCE | TOLD | KEPT

  ghost predicate Holds(db: Db, c: Clause) {
    match c
    case KEYS => Keys(db)
    case TRUTH => AllTruthful(db)
    case MARKERS => MarkersBehindWork(db)
    case OPENINGS => Openings(db)
    case SUCCESSORS => Successors(db)
    case ONCE => SaidOnce(db)
    case TOLD => InvestigatingMeansTold(db)
    case KEPT => NothingLost(db)
  }

  ghost predicate DbInv(db: Db) {
    forall c :: Holds(db, c)
  }

  // ---------------------------------------------------------------- what only ever grows

  /** Nothing an effect rests on is taken back. */
  ghost predicate Grows(a: Db, b: Db) {
    && (forall e :: e in a.written ==> e in b.written && b.written[e] == a.written[e])
    && a.processed <= b.processed
    && (forall p :: p in a.planned ==> p in b.planned && b.planned[p] == a.planned[p])
    && (forall i :: i in a.openedBy ==> i in b.openedBy && b.openedBy[i] == a.openedBy[i])
    && a.suppressed <= b.suppressed
    && (forall r :: r in a.recs ==>
          && r in b.recs && b.recs[r].incident == a.recs[r].incident && b.recs[r].plan == a.recs[r].plan
          && (a.recs[r].slackTs.Some? ==> b.recs[r].slackTs == a.recs[r].slackTs))
  }

  /** A step never reuses an incident's id, and commits a plan together with its row. */
  ghost predicate Onward(a: Db, b: Db) {
    && Grows(a, b)
    && (forall i :: i in b.incidents && i !in a.incidents ==> b.incidents[i] == Open && i !in a.openedBy)
    && (forall p :: p in b.planned && p !in a.planned ==> p in b.plans)
  }

  /** A consumer leaves the rows it finds alone and adds pending ones for new events. */
  ghost predicate OnlyNewRows(a: Db, b: Db) {
    && (forall e :: e in a.rows ==> e in b.rows && b.rows[e] == a.rows[e])
    && (forall e :: e in b.rows && e !in a.rows ==>
          e !in a.written && e in b.written && b.rows[e].status == Pending && b.rows[e].attempts == 0)
  }

  ghost predicate PlansStay(a: Db, b: Db) {
    a.plans.Keys <= b.plans.Keys
  }

  lemma EffectLasts(a: Db, b: Db)
    requires Grows(a, b)
    ensures forall e :: e in a.written && Effect(a, e) ==> Effect(b, e)
  {
    forall e | e in a.written && Effect(a, e) ensures Effect(b, e) {
      var ev := a.written[e];
      if Handles(ev) {
        match ev.payload
        case PlanRequested(i) =>
          var p :| p in a.planned && a.planned[p] == i;
          assert p in b.planned && b.planned[p] == i;
        case ReasoningRequested(i, _) =>
          var r :| r in a.recs && a.recs[r].incident == i;
          assert r in b.recs && b.recs[r].incident == i;
        case _ =>
      }
    }
  }

  // ---------------------------------------------------------------- consumers, locks, workers

  ghost predicate HandlerInv(s: State, h: Id)
    requires h in s.handlers
  {
    var e, db := s.handlers[h].event, s.db;
    e in db.written &&
    var ev := db.written[e];
    match s.handlers[h].phase
    case Start => true
    case Dropping => !Handles(ev)
    case Gated => Handles(ev)
    case Decided(request, suppress) =>
      Handles(ev) && ev.payload.AlertNormalized? && (if ev.payload.deduplicated then !request && !suppress else request != suppress)
    case Thinking => Handles(ev) && ev.payload.ReasoningRequested?
    case Checked(existing) =>
      && Handles(ev) && (ev.payload.PlanRequested? || ev.payload.ReasoningRequested?)
      && ev.payload.incident in db.incidents
      && (ev.payload.ReasoningRequested? ==> ev.payload.plan in db.plans && db.plans[ev.payload.plan] == ev.payload.incident)
      && (existing ==> Effect(db, e))
    case Recovering => Handles(ev) && !ev.payload.AlertNormalized? && Effect(db, e)
    case RecoveryGated => Handles(ev) && !ev.payload.AlertNormalized? && Effect(db, e)
    case Locked => Handles(ev) && ev.payload.RecommendationCreated? && HoldsLock(s, h, ev.payload.recommendation)
    case Posted(ts, _) =>
      && Handles(ev) && ev.payload.RecommendationCreated? && HoldsLock(s, h, ev.payload.recommendation)
      && ts < |s.slack| && s.slack[ts] == ev.payload.recommendation
      && db.recs[ev.payload.recommendation].slackTs.None?
    case Done(code) => Classify(code) == Delivered ==> Effect(db, e)
  }

  ghost predicate HoldsLock(s: State, h: Id, r: Id) {
    r in s.db.recs && r in s.locks && s.locks[r] == h
  }

  /** A lock belongs to a handler that is past taking it and not past dropping it. */
  ghost predicate LockInv(s: State, r: Id)
    requires r in s.locks
  {
    && s.locks[r] in s.handlers
    && (s.handlers[s.locks[r]].phase.Locked? || s.handlers[s.locks[r]].phase.Posted?)
    && s.handlers[s.locks[r]].event in s.db.written
    && s.db.written[s.handlers[s.locks[r]].event].payload.RecommendationCreated?
    && s.db.written[s.handlers[s.locks[r]].event].payload.recommendation == r
  }

  /** 1 while some handler is between the post and the commit for `r`. */
  ghost function InFlight(s: State, r: Id): nat {
    if r in s.locks && s.locks[r] in s.handlers && s.handlers[s.locks[r]].phase.Posted? then 1 else 0
  }

  ghost function Recorded(s: State, r: Id): nat {
    if r in s.db.recs && s.db.recs[r].slackTs.Some? then 1 else 0
  }

  ghost predicate CardInv(s: State, r: Id) {
    && multiset(s.slack)[r] == Recorded(s, r) + s.died[r] + InFlight(s, r)
    && (r in s.db.recs && s.db.recs[r].slackTs.Some? ==>
          s.db.recs[r].slackTs.value < |s.slack| && s.slack[s.db.recs[r].slackTs.value] == r)
  }

  ghost predicate WorkerInv(s: State, w: Id)
    requires w in s.workers
  {
    var e := s.workers[w].event;
    e in s.db.written &&
    match s.workers[w].turn
    case Claimed => true
    case Waiting(h) => h in s.handlers ==> s.handlers[h].event == e
    case Heard(outcome) => outcome == Delivered ==> Effect(s.db, e)
    case Fetched(outcome, _) => outcome == Delivered ==> Effect(s.db, e)
  }

  datatype Part = DATABASE | HANDLERS | LOCKS | CARDS | WORKERS

  ghost predicate HasPart(s: State, p: Part) {
    match p
    case DATABASE => DbInv(s.db)
    case HANDLERS => forall h :: h in s.handlers ==> HandlerInv(s, h)
    case LOCKS => forall r :: r in s.locks ==> LockInv(s, r)
    case CARDS => forall r :: CardInv(s, r)
    case WORKERS => forall w :: w in s.workers ==> WorkerInv(s, w)
  }

  ghost predicate Inv(s: State) {
    forall p :: HasPart(s, p)
  }

  // What the invariant says of one row, handler, lock, recommendation or worker.

  lemma AtClause(s: State, c: Clause)
    requires Inv(s)
    ensures DbInv(s.db) && Holds(s.db, c)
  {
    assert HasPart(s, DATABASE);
  }

  lemma AtHandler(s: State, h: Id)
    requires Inv(s) && h in s.handlers
    ensures DbInv(s.db) && HandlerInv(s, h)
  {
    assert HasPart(s, DATABASE) && HasPart(s, HANDLERS);
  }

  lemma AtLock(s: State, r: Id)
    requires Inv(s) && r in s.locks
    ensures LockInv(s, r)
  {
    assert HasPart(s, LOCKS);
  }

  lemma AtCard(s: State, r: Id)
    requires Inv(s)
    ensures CardInv(s, r)
  {
    assert HasPart(s, CARDS);
  }

  lemma AtWorker(s: State, w: Id)
    requires Inv(s) && w in s.workers
    ensures DbInv(s.db) && WorkerInv(s, w)
  {
    assert HasPart(s, DATABASE) && HasPart(s, WORKERS);
  }
}
