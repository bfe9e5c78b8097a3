/** Every step keeps the invariant, so every run does. */
module PipelineSafety {
  import opened Lifecycle
  import opened Outbox
  import opened Wrappers
  import opened Pipeline
  import opened PipelineInvariant
  import opened PipelineTransactions

  // ---------------------------------------------------------------- what a step leaves alone

  /** `moved` bounds the handlers a step touches; the rest keep their phase, their locks and
      the rows they rely on. */
  ghost predicate Spares(s: State, t: State, moved: set<Id>) {
    && Grows(s.db, t.db)
    && (forall h :: h in t.handlers && h !in moved ==> h in s.handlers && t.handlers[h] == s.handlers[h])
    && (forall h :: h in t.handlers && h in s.handlers ==> t.handlers[h].event == s.handlers[h].event)
    && s.slack <= t.slack
    && (forall r :: r in s.locks && s.locks[r] !in moved ==>
          r in t.locks && t.locks[r] == s.locks[r] && (r in s.db.recs ==> t.db.recs[r] == s.db.recs[r]))
    && (forall h :: h in t.handlers && h !in moved && t.handlers[h].phase.Checked? && t.handlers[h].event in s.db.written ==>
          RowsStay(s.db, t.db, s.db.written[t.handlers[h].event]))
  }

  /** The rows a pre-check found are still there. */
  ghost predicate RowsStay(a: Db, b: Db, ev: Event) {
    && (ev.payload.incident in a.incidents ==> ev.payload.incident in b.incidents)
    && (ev.payload.ReasoningRequested? && ev.payload.plan in a.plans ==>
          ev.payload.plan in b.plans && b.plans[ev.payload.plan] == a.plans[ev.payload.plan])
  }

  lemma OthersStay(s: State, t: State, moved: set<Id>)
    requires Inv(s) && Spares(s, t, moved)
    ensures forall h :: h in t.handlers && h !in moved ==> HandlerInv(t, h)
  {
    EffectLasts(s.db, t.db);
    forall h | h in t.handlers && h !in moved ensures HandlerInv(t, h) {
      AtHandler(s, h);
    }
  }

  lemma WorkersStay(s: State, t: State)
    requires Inv(s) && Grows(s.db, t.db)
    requires forall w :: w in t.workers ==> w in s.workers && t.workers[w] == s.workers[w]
    requires forall h :: h in t.handlers ==> h in s.handlers && t.handlers[h].event == s.handlers[h].event
    ensures forall w :: w in t.workers ==> WorkerInv(t, w)
  {
    EffectLasts(s.db, t.db);
    forall w | w in t.workers ensures WorkerInv(t, w) {
      AtWorker(s, w);
    }
  }

  /** A step away from locks, posts and records. */
  lemma CardsStay(s: State, t: State)
    requires Inv(s) && Grows(s.db, t.db)
    requires t.slack == s.slack && t.died == s.died && t.locks == s.locks
    requires forall r :: r in t.db.recs ==> (if r in s.db.recs then t.db.recs[r] == s.db.recs[r] else t.db.recs[r].slackTs.None?)
    requires forall h :: h in s.handlers && (s.handlers[h].phase.Locked? || s.handlers[h].phase.Posted?) ==>
               h in t.handlers && t.handlers[h] == s.handlers[h]
    ensures forall r :: r in t.locks ==> LockInv(t, r)
    ensures forall r :: CardInv(t, r)
  {
    forall r | r in t.locks ensures LockInv(t, r) {
      AtLock(s, r);
    }
    forall r ensures CardInv(t, r) {
      AtCard(s, r);
      if r in s.locks { AtLock(s, r); }
    }
  }

  lemma Together(t: State)
    requires DbInv(t.db)
    requires forall h :: h in t.handlers ==> HandlerInv(t, h)
    requires forall r :: r in t.locks ==> LockInv(t, r)
    requires forall r :: CardInv(t, r)
    requires forall w :: w in t.workers ==> WorkerInv(t, w)
    ensures Inv(t)
  {
    forall p ensures HasPart(t, p) {}
  }

  // ---------------------------------------------------------------- the world and the worker

  /** A step that changes only the database, short of deliveries, and the workers. */
  lemma DatabaseStep(s: State, t: State)
    requires Inv(s) && DbInv(t.db) && Grows(s.db, t.db)
    requires t == s.(db := t.db, workers := t.workers, claims := t.claims)
    requires t.db.recs == s.db.recs
    requires forall h :: h in s.handlers && s.handlers[h].phase.Checked? && s.handlers[h].event in s.db.written ==>
               RowsStay(s.db, t.db, s.db.written[s.handlers[h].event])
    requires forall w :: w in t.workers ==> WorkerInv(t, w)
    ensures Inv(t)
  {
    OthersStay(s, t, {});
    CardsStay(s, t);
    Together(t);
  }

  /** New incidents, attached alerts, repeats and strays. */
  lemma ArrivalKeeps(s: State, a: Action)
    requires Inv(s) && Enabled(s, a)
    requires a.OpenIncident? || a.AttachAlert? || a.Repeat? || a.Stray?
    ensures Inv(Next(s, a)) && Onward(s.db, Next(s, a).db)
    ensures a.DeletePlan? || PlansStay(s.db, Next(s, a).db)
  {
    var db, t := s.db, Next(s, a);
    AtClause(s, KEYS);
    match a {
      case OpenIncident(i, e, now) => OpenIncidentKeeps(db, i, e, now);
      case AttachAlert(i, e, now) =>
        assert i in db.openedBy by { AtClause(s, KEYS); }
        RepeatableKeeps(db, t.db, e, Event(Watcher, AlertNormalized(i, true), Ingestion), now);
      case Repeat(original, e, now) =>
        assert Truthful(db, db.written[original]) by { AtClause(s, TRUTH); }
        RepeatableKeeps(db, t.db, e, db.written[original].(origin := Elsewhere), now);
      case Stray(ev, e, now) => RepeatableKeeps(db, t.db, e, ev, now);
    }
    QuietStep(s, t);
  }

  lemma QuietStep(s: State, t: State)
    requires Inv(s) && DbInv(t.db) && Onward(s.db, t.db) && t == s.(db := t.db) && t.db.recs == s.db.recs
    requires forall h :: h in s.handlers && s.handlers[h].phase.Checked? && s.handlers[h].event in s.db.written ==>
               RowsStay(s.db, t.db, s.db.written[s.handlers[h].event])
    ensures Inv(t)
  {
    WorkersStay(s, t);
    DatabaseStep(s, t);
  }

  /** Deletions of unreferenced rows and status moves. */
  lemma UpkeepKeeps(s: State, a: Action)
    requires Inv(s) && Enabled(s, a)
    requires a.DeleteAlerts? || a.DeletePlan? || a.DeleteIncident? || a.Move?
    ensures Inv(Next(s, a)) && Onward(s.db, Next(s, a).db)
    ensures a.DeletePlan? || PlansStay(s.db, Next(s, a).db)
  {
    var t := Next(s, a);
    AtClause(s, KEYS);
    UpkeepTransaction(s, a);
    QuietStep(s, t);
  }

  lemma UpkeepTransaction(s: State, a: Action)
    requires DbInv(s.db) && Enabled(s, a)
    requires a.DeleteAlerts? || a.DeletePlan? || a.DeleteIncident? || a.Move?
    ensures DbInv(Next(s, a).db) && Onward(s.db, Next(s, a).db)
  {
    assert Holds(s.db, KEYS);
    QuietKeeps(s.db, Next(s, a).db);
  }

  lemma RowKeeps(s: State, a: Action)
    requires Inv(s) && Enabled(s, a) && (a.Requeue? || a.Reap?)
    ensures Inv(Next(s, a)) && Onward(s.db, Next(s, a).db)
    ensures a.DeletePlan? || PlansStay(s.db, Next(s, a).db)
  {
    var t := Next(s, a);
    AtClause(s, KEYS);
    RowsOnly(s.db, t.db.rows);
    QuietStep(s, t);
  }

  /** A worker's step: its own turn, and outbox rows. */
  lemma WorkerStep(s: State, t: State, w: Id)
    requires Inv(s)
    requires t == s.(db := s.db.(rows := t.db.rows), workers := t.workers, claims := t.claims)
    requires forall v :: v in t.workers && v != w ==> v in s.workers && t.workers[v] == s.workers[v]
    requires t.db.rows.Keys <= s.db.rows.Keys
    requires forall e :: e in s.db.written && e in s.db.rows && e !in t.db.rows ==> Effect(s.db, e)
    requires w in t.workers ==> WorkerInv(s.(workers := t.workers), w)
    ensures Inv(t)
  {
    AtClause(s, KEYS);
    RowsOnly(s.db, t.db.rows);
    EffectLasts(s.db, t.db);
    forall v | v in t.workers ensures WorkerInv(t, v) {
      if v != w { AtWorker(s, v); }
    }
    DatabaseStep(s, t);
  }

  lemma ClaimKeeps(s: State, e: Id, w: Id, now: int)
    requires Inv(s) && Enabled(s, Claim(e, w, now))
    ensures Inv(Next(s, Claim(e, w, now))) && Onward(s.db, Next(s, Claim(e, w, now)).db)
    ensures PlansStay(s.db, Next(s, Claim(e, w, now)).db)
  {
    assert e in s.db.written by { AtClause(s, KEYS); }
    WorkerStep(s, Next(s, Claim(e, w, now)), w);
  }

  lemma TurnKeeps(s: State, a: Action)
    requires Inv(s) && Enabled(s, a)
    requires a.Refuse? || a.GiveUp? || a.Hear? || a.Fetch? || a.WorkerDies?
    ensures Inv(Next(s, a)) && Onward(s.db, Next(s, a).db)
    ensures a.DeletePlan? || PlansStay(s.db, Next(s, a).db)
  {
    AtWorker(s, a.w);
    if a.Hear? { AtHandler(s, s.workers[a.w].turn.handler); }
    WorkerStep(s, Next(s, a), a.w);
  }

  /** A worker removes a row only after hearing that the work is done. */
  lemma RecordKeeps(s: State, w: Id, now: int)
    requires Inv(s) && Enabled(s, Record(w, now))
    ensures Inv(Next(s, Record(w, now))) && Onward(s.db, Next(s, Record(w, now)).db)
    ensures PlansStay(s.db, Next(s, Record(w, now)).db)
  {
    AtWorker(s, w);
    WorkerStep(s, Next(s, Record(w, now)), w);
  }

  lemma DispatchKeeps(s: State, w: Id, h: Id)
    requires Inv(s) && Enabled(s, Dispatch(w, h))
    ensures Inv(Next(s, Dispatch(w, h))) && Onward(s.db, Next(s, Dispatch(w, h)).db)
    ensures PlansStay(s.db, Next(s, Dispatch(w, h)).db)
  {
    var t := Next(s, Dispatch(w, h));
    AtWorker(s, w);
    OthersStay(s, t, {h});
    CardsStay(s, t);
    forall v | v in t.workers ensures WorkerInv(t, v) {
      AtWorker(s, v);
    }
    Together(t);
  }

  // ---------------------------------------------------------------- the consumers

  /** A transaction that only adds rows. */
  ghost predicate Adds(a: Db, b: Db) {
    && a.incidents == b.incidents
    && (forall p :: p in a.plans ==> p in b.plans && b.plans[p] == a.plans[p])
    && (forall r :: r in b.recs ==> (if r in a.recs then b.recs[r] == a.recs[r] else b.recs[r].slackTs.None?))
    && (forall p :: p in b.planned && p !in a.planned ==> p in b.plans)
  }

  /** A consumer's step outside the card protocol: a new phase, and perhaps a commit. */
  lemma PlainHandlerStep(s: State, h: Id, phase: Phase, after: Db)
    requires Inv(s) && h in s.handlers && !s.handlers[h].phase.Locked? && !s.handlers[h].phase.Posted?
    requires DbInv(after) && Grows(s.db, after) && Adds(s.db, after)
    requires HandlerInv(SetPhase(s, h, phase).(db := after), h)
    ensures Inv(SetPhase(s, h, phase).(db := after)) && Onward(s.db, after) && PlansStay(s.db, after)
  {
    var t := SetPhase(s, h, phase).(db := after);
    forall r | r in s.locks ensures s.locks[r] != h { AtLock(s, r); }
    assert forall r :: r in s.locks && r in s.db.recs ==> after.recs[r] == s.db.recs[r];
    OthersStay(s, t, {h});
    CardsStay(s, t);
    WorkersStay(s, t);
    Together(t);
  }

  lemma PhaseKeeps(s: State, h: Id, phase: Phase)
    requires Inv(s) && h in s.handlers && !s.handlers[h].phase.Locked? && !s.handlers[h].phase.Posted?
    requires HandlerInv(SetPhase(s, h, phase), h)
    ensures Inv(SetPhase(s, h, phase)) && Onward(s.db, s.db) && PlansStay(s.db, s.db) && OnlyNewRows(s.db, s.db)
  {
    AtHandler(s, h);
    assert SetPhase(s, h, phase).(db := s.db) == SetPhase(s, h, phase);
    PlainHandlerStep(s, h, phase, s.db);
  }

  /** A handler whose transaction commits the work answers 200. */
  lemma CommittedKeeps(s: State, h: Id, after: Db)
    requires Inv(s) && h in s.handlers && !s.handlers[h].phase.Locked? && !s.handlers[h].phase.Posted?
    requires DbInv(after) && Grows(s.db, after) && Adds(s.db, after)
    requires s.handlers[h].event in after.written && Effect(after, s.handlers[h].event)
    ensures Inv(Answer(s, h, 200).(db := after)) && Onward(s.db, after) && PlansStay(s.db, after)
  {
    PlainHandlerStep(s, h, Done(200), after);
  }

  /** The reads: the gate, the pre-checks and the recovery's second look at the marker. */
  predicate Reads(s: State, h: Id)
    requires h in s.handlers && s.handlers[h].event in s.db.written
  {
    match s.handlers[h].phase
    case Start => true
    case Gated => !s.db.written[s.handlers[h].event].payload.RecommendationCreated?
    case Thinking => true
    case Recovering => true
    case _ => false
  }

  lemma ReadKeeps(s: State, h: Id, c: Choice)
    requires Inv(s) && CanHandle(s, h, c) && Reads(s, h)
    ensures Inv(Handle(s, h, c)) && Onward(s.db, Handle(s, h, c).db)
    ensures PlansStay(s.db, Handle(s, h, c).db) && OnlyNewRows(s.db, Handle(s, h, c).db)
  {
    AtHandler(s, h);
    ReadPhase(s, h, c);
    PhaseKeeps(s, h, Handle(s, h, c).handlers[h].phase);
  }

  lemma ReadPhase(s: State, h: Id, c: Choice)
    requires DbInv(s.db) && CanHandle(s, h, c) && Reads(s, h) && HandlerInv(s, h)
    ensures Handle(s, h, c) == SetPhase(s, h, Handle(s, h, c).handlers[h].phase)
    ensures HandlerInv(Handle(s, h, c), h)
  {
    var e := s.handlers[h].event;
    MarkedMeansDone(s.db, e);
    if Handles(s.db.written[e]) { PreCheck(s.db, e); }
  }

  lemma MarkedMeansDone(db: Db, e: Id)
    requires DbInv(db) && e in db.written
    ensures (e, db.written[e].target) in db.processed ==> Effect(db, e)
  {
    assert Holds(db, MARKERS);
    assert forall m :: m in db.processed ==> Effect(db, m.0);
    assert (e, db.written[e].target).0 == e;
  }

  /** A pre-check that finds a row has found the event's effect. */
  lemma PreCheck(db: Db, e: Id)
    requires DbInv(db) && e in db.written && Handles(db.written[e])
    ensures db.written[e].payload.PlanRequested? && HasPlan(db, db.written[e].payload.incident) ==> Effect(db, e)
    ensures db.written[e].payload.ReasoningRequested? && HasRec(db, db.written[e].payload.incident) ==> Effect(db, e)
    ensures db.written[e].payload.ReasoningRequested? && db.written[e].payload.plan in db.plans ==>
              db.plans[db.written[e].payload.plan] == db.written[e].payload.incident
  {
    assert Holds(db, KEYS);
    assert Truthful(db, db.written[e]) by { assert Holds(db, TRUTH); }
    if db.written[e].payload.PlanRequested? && HasPlan(db, db.written[e].payload.incident) {
      var p :| p in db.plans && db.plans[p] == db.written[e].payload.incident;
      assert p in db.planned && db.planned[p] == db.written[e].payload.incident;
    }
  }

  /** Marking a stray, and the recovery commit. */
  lemma MarkStepKeeps(s: State, h: Id, c: Choice)
    requires Inv(s) && CanHandle(s, h, c) && (s.handlers[h].phase.Dropping? || s.handlers[h].phase.RecoveryGated?)
    ensures Inv(Handle(s, h, c)) && Onward(s.db, Handle(s, h, c).db)
    ensures PlansStay(s.db, Handle(s, h, c).db) && OnlyNewRows(s.db, Handle(s, h, c).db)
  {
    var e, target := s.handlers[h].event, s.db.written[s.handlers[h].event].target;
    AtHandler(s, h);
    if (e, target) in s.db.processed {
      PhaseKeeps(s, h, Done(500));
    } else {
      MarkKeeps(s.db, e);
      CommittedKeeps(s, h, MarkProcessed(s.db, e, target));
    }
  }

  /** The watcher's commit. */
  lemma DecidedKeeps(s: State, h: Id, c: Choice)
    requires Inv(s) && CanHandle(s, h, c) && s.handlers[h].phase.Decided?
    ensures Inv(Handle(s, h, c)) && Onward(s.db, Handle(s, h, c).db)
    ensures PlansStay(s.db, Handle(s, h, c).db) && OnlyNewRows(s.db, Handle(s, h, c).db)
  {
    var e, phase := s.handlers[h].event, s.handlers[h].phase;
    AtHandler(s, h);
    if (e, s.db.written[e].target) in s.db.processed {
      PhaseKeeps(s, h, Done(500));
    } else {
      WatcherCommitKeeps(s.db, e, phase.request, phase.suppress, c.event, c.now);
      CommittedKeeps(s, h, WatcherCommit(s.db, e, s.db.written[e].payload.incident, phase.request, phase.suppress, c.event, c.now));
    }
  }

  /** The commit meets a marker, or a row that was not there when it was looked for. */
  predicate LosesRace(db: Db, e: Id, existing: bool)
    requires e in db.written
  {
    || (e, db.written[e].target) in db.processed
    || (!existing && db.written[e].payload.PlanRequested? && HasPlan(db, db.written[e].payload.incident))
    || (!existing && db.written[e].payload.ReasoningRequested? && HasRec(db, db.written[e].payload.incident))
  }

  lemma CheckedStep(s: State, h: Id, c: Choice)
    requires CanHandle(s, h, c) && s.handlers[h].phase.Checked?
    ensures var e, existing := s.handlers[h].event, s.handlers[h].phase.existing;
            var p := s.db.written[e].payload;
            && (LosesRace(s.db, e, existing) ==> Handle(s, h, c) == SetPhase(s, h, Recovering))
            && (!LosesRace(s.db, e, existing) && p.PlanRequested? ==>
                  Handle(s, h, c) == Answer(s, h, 200).(db := PlannerCommit(s.db, e, p.incident, existing, c.row, c.event, c.now)))
            && (!LosesRace(s.db, e, existing) && p.ReasoningRequested? ==>
                  Handle(s, h, c) == Answer(s, h, 200).(
                    db := ReasonerCommit(s.db, e, p.incident, p.plan, existing, c.row, c.event, c.now)))
  {
  }

  /** The planner's and the reasoner's commit: the work with its marker, or the lost race. */
  lemma CheckedKeeps(s: State, h: Id, c: Choice)
    requires Inv(s) && CanHandle(s, h, c) && s.handlers[h].phase.Checked?
    ensures Inv(Handle(s, h, c)) && Onward(s.db, Handle(s, h, c).db)
    ensures PlansStay(s.db, Handle(s, h, c).db) && OnlyNewRows(s.db, Handle(s, h, c).db)
  {
    var e, existing := s.handlers[h].event, s.handlers[h].phase.existing;
    AtHandler(s, h);
    CheckedStep(s, h, c);
    if LosesRace(s.db, e, existing) {
      MarkedMeansDone(s.db, e);
      PreCheck(s.db, e);
      PhaseKeeps(s, h, Recovering);
    } else if s.db.written[e].payload.PlanRequested? {
      PlannerCommitKeeps(s.db, e, existing, c.row, c.event, c.now);
      CommittedKeeps(s, h, PlannerCommit(s.db, e, s.db.written[e].payload.incident, existing, c.row, c.event, c.now));
    } else {
      ReasonerCommitKeeps(s.db, e, existing, c.row, c.event, c.now);
      CommittedKeeps(s, h, ReasonerCommit(s.db, e, s.db.written[e].payload.incident, s.db.written[e].payload.plan, existing,
                                          c.row, c.event, c.now));
    }
  }

  // ---------------------------------------------------------------- the card protocol

  /** A step of the handler that holds, takes or drops the lock on `r`. */
  lemma CardStep(s: State, t: State, h: Id, r: Id)
    requires Inv(s) && h in s.handlers && DbInv(t.db) && Grows(s.db, t.db)
    requires t == s.(db := t.db, handlers := t.handlers, locks := t.locks, slack := t.slack, died := t.died)
    requires t.handlers.Keys <= s.handlers.Keys
    requires forall k :: k in t.handlers ==> t.handlers[k].event == s.handlers[k].event
    requires forall k :: k in s.handlers && k != h ==> k in t.handlers && t.handlers[k] == s.handlers[k]
    requires forall q :: q in s.locks && s.locks[q] == h ==> q == r
    requires forall q :: q != r ==> (q in t.locks <==> q in s.locks) && (q in s.locks ==> t.locks[q] == s.locks[q])
    requires r in s.locks ==> s.locks[r] == h
    requires s.slack <= t.slack
    requires s.db.incidents.Keys <= t.db.incidents.Keys && s.db.plans == t.db.plans
    requires t.db.recs.Keys == s.db.recs.Keys && forall q :: q in s.db.recs && q != r ==> t.db.recs[q] == s.db.recs[q]
    requires forall q :: q != r ==> multiset(t.slack)[q] == multiset(s.slack)[q] && t.died[q] == s.died[q]
    requires h in t.handlers ==> HandlerInv(t, h)
    requires r in t.locks ==> LockInv(t, r)
    requires CardInv(t, r)
    ensures Inv(t)
  {
    OthersStay(s, t, {h});
    WorkersStay(s, t);
    OtherCardsStay(s, t, h, r);
    Together(t);
  }

  lemma OtherCardsStay(s: State, t: State, h: Id, r: Id)
    requires Inv(s) && h in s.handlers && Grows(s.db, t.db)
    requires forall k :: k in s.handlers && k != h ==> k in t.handlers && t.handlers[k] == s.handlers[k]
    requires forall q :: q in s.locks && s.locks[q] == h ==> q == r
    requires forall q :: q != r ==> (q in t.locks <==> q in s.locks) && (q in s.locks ==> t.locks[q] == s.locks[q])
    requires s.slack <= t.slack
    requires t.db.recs.Keys == s.db.recs.Keys && forall q :: q in s.db.recs && q != r ==> t.db.recs[q] == s.db.recs[q]
    requires forall q :: q != r ==> multiset(t.slack)[q] == multiset(s.slack)[q] && t.died[q] == s.died[q]
    ensures forall q :: q in t.locks && q != r ==> LockInv(t, q)
    ensures forall q :: q != r ==> CardInv(t, q)
  {
    forall q | q in t.locks && q != r ensures LockInv(t, q) {
      AtLock(s, q);
    }
    forall q | q != r ensures CardInv(t, q) {
      AtCard(s, q);
      if q in s.locks { AtLock(s, q); }
    }
  }

  /** A handler holds at most the lock on its own event's recommendation, and that only
      between taking it and dropping it. */
  lemma OwnLock(s: State, h: Id)
    requires Inv(s) && h in s.handlers
    ensures s.handlers[h].event in s.db.written
    ensures forall q :: q in s.locks && s.locks[q] == h ==>
              && s.db.written[s.handlers[h].event].payload.RecommendationCreated?
              && q == s.db.written[s.handlers[h].event].payload.recommendation
              && (s.handlers[h].phase.Locked? || s.handlers[h].phase.Posted?)
  {
    AtHandler(s, h);
    forall q | q in s.locks ensures LockInv(s, q) { AtLock(s, q); }
  }

  /** SELECT ... FOR UPDATE on the recommendation. */
  lemma LockKeeps(s: State, h: Id, r: Id, c: Choice)
    requires Inv(s) && h in s.handlers && s.handlers[h].phase.Gated? && s.handlers[h].event in s.db.written
    requires Handles(s.db.written[s.handlers[h].event])
    requires s.db.written[s.handlers[h].event].payload.RecommendationCreated?
    requires r == s.db.written[s.handlers[h].event].payload.recommendation && r !in s.locks
    ensures Inv(GateOpen(s, h, s.db.written[s.handlers[h].event], c))
  {
    AtHandler(s, h);
    if r in s.db.recs { LockedStateKeeps(s, h, r); } else { PhaseKeeps(s, h, Done(422)); }
  }

  lemma LockedStateKeeps(s: State, h: Id, r: Id)
    requires Inv(s) && h in s.handlers && s.handlers[h].phase.Gated? && s.handlers[h].event in s.db.written
    requires Handles(s.db.written[s.handlers[h].event])
    requires s.db.written[s.handlers[h].event].payload.RecommendationCreated?
    requires r == s.db.written[s.handlers[h].event].payload.recommendation && r !in s.locks && r in s.db.recs
    ensures Inv(SetPhase(s, h, Locked).(locks := s.locks[r := h]))
  {
    AtHandler(s, h);
    AtCard(s, r);
    OwnLock(s, h);
    CardStep(s, SetPhase(s, h, Locked).(locks := s.locks[r := h]), h, r);
  }

  lemma PostKeeps(s: State, h: Id, i: Id, r: Id, c: Choice)
    requires Inv(s) && h in s.handlers && s.handlers[h].phase.Locked? && s.handlers[h].event in s.db.written
    requires s.db.written[s.handlers[h].event].payload == RecommendationCreated(i, r) && r in s.db.recs
    ensures Inv(PostCard(s, h, i, r, c))
  {
    AtHandler(s, h);
    if s.db.recs[r].slackTs.Some? {
      ReleaseKeeps(s, h, r, 200);
    } else if i !in s.db.incidents {
      ReleaseKeeps(s, h, r, 422);
    } else if !c.posted {
      ReleaseKeeps(s, h, r, 503);
    } else {
      PostedKeeps(s, h, r, s.db.incidents[i]);
    }
  }

  lemma ReleaseKeeps(s: State, h: Id, r: Id, code: int)
    requires Inv(s) && h in s.handlers && s.handlers[h].phase.Locked? && s.handlers[h].event in s.db.written
    requires s.db.written[s.handlers[h].event].payload.RecommendationCreated?
    requires r == s.db.written[s.handlers[h].event].payload.recommendation && r in s.db.recs
    requires Classify(code) == Delivered ==> s.db.recs[r].slackTs.Some?
    ensures Inv(Release(Answer(s, h, code), r))
  {
    AtHandler(s, h);
    AtCard(s, r);
    OwnLock(s, h);
    CardStep(s, Release(Answer(s, h, code), r), h, r);
  }

  lemma PostedKeeps(s: State, h: Id, r: Id, read: Status)
    requires Inv(s) && h in s.handlers && s.handlers[h].phase.Locked? && s.handlers[h].event in s.db.written
    requires s.db.written[s.handlers[h].event].payload.RecommendationCreated?
    requires r == s.db.written[s.handlers[h].event].payload.recommendation && r in s.db.recs && s.db.recs[r].slackTs.None?
    ensures Inv(SetPhase(s, h, Posted(|s.slack|, read)).(slack := s.slack + [r]))
  {
    AtHandler(s, h);
    AtCard(s, r);
    OwnLock(s, h);
    assert multiset(s.slack + [r]) == multiset(s.slack) + multiset{r};
    CardStep(s, SetPhase(s, h, Posted(|s.slack|, read)).(slack := s.slack + [r]), h, r);
  }

  /** What the record of a posted card comes to. */
  lemma RecordedCard(s: State, h: Id, c: Choice)
    requires Inv(s) && CanHandle(s, h, c) && s.handlers[h].phase.Posted?
    ensures var e := s.handlers[h].event;
            var i, r := s.db.written[e].payload.incident, s.db.written[e].payload.recommendation;
            && r in s.db.recs && s.db.recs[r].slackTs.None? && s.db.recs[r].incident == i && i in s.db.incidents
            && Handle(s, h, c) == Release(Answer(s, h, 200), r).(
                 db := FeedbackCommit(s.db, e, i, r, s.handlers[h].phase.ts, s.handlers[h].phase.read))
  {
    AtHandler(s, h);
    RecordCannotConflict(s.db, s.handlers[h].event);
    assert Holds(s.db, TRUTH);
    assert Truthful(s.db, s.db.written[s.handlers[h].event]);
  }

  lemma RecordCardKeeps(s: State, h: Id, c: Choice)
    requires Inv(s) && CanHandle(s, h, c) && s.handlers[h].phase.Posted?
    ensures Inv(Handle(s, h, c)) && Onward(s.db, Handle(s, h, c).db)
    ensures PlansStay(s.db, Handle(s, h, c).db) && OnlyNewRows(s.db, Handle(s, h, c).db)
    ensures Handle(s, h, c).handlers[h].phase == Done(200)
  {
    RecordedCard(s, h, c);
    AtHandler(s, h);
    var e := s.handlers[h].event;
    var ts, read := s.handlers[h].phase.ts, s.handlers[h].phase.read;
    var i, r := s.db.written[e].payload.incident, s.db.written[e].payload.recommendation;
    FeedbackCommitKeeps(s.db, e, ts, read);
    FeedbackTouches(s.db, e, i, r, ts, read);
    RecordedStateKeeps(s, h, e, r, ts, FeedbackCommit(s.db, e, i, r, ts, read));
  }

  lemma FeedbackTouches(db: Db, e: Id, i: Id, r: Id, ts: nat, read: Status)
    requires r in db.recs && i in db.incidents
    ensures var after := FeedbackCommit(db, e, i, r, ts, read);
            && after.incidents.Keys == db.incidents.Keys && after.plans == db.plans && after.planned == db.planned
            && after.recs == db.recs[r := db.recs[r].(slackTs := Some(ts))]
  {
  }

  lemma RecordedStateKeeps(s: State, h: Id, e: Id, r: Id, ts: nat, after: Db)
    requires Inv(s) && h in s.handlers && s.handlers[h].event == e && s.handlers[h].phase.Posted? && s.handlers[h].phase.ts == ts
    requires e in s.db.written && s.db.written[e].payload.RecommendationCreated? && s.db.written[e].payload.recommendation == r
    requires r in s.db.recs && s.db.recs[r].slackTs.None?
    requires DbInv(after) && Grows(s.db, after) && e in after.written && Effect(after, e)
    requires after.incidents.Keys == s.db.incidents.Keys && after.plans == s.db.plans && after.planned == s.db.planned
    requires after.recs == s.db.recs[r := s.db.recs[r].(slackTs := Some(ts))]
    ensures Inv(Release(Answer(s, h, 200), r).(db := after)) && Onward(s.db, after) && PlansStay(s.db, after)
  {
    AtHandler(s, h);
    AtCard(s, r);
    OwnLock(s, h);
    CardStep(s, Release(Answer(s, h, 200), r).(db := after), h, r);
  }

  /** With the row unrecorded and locked, the record's transaction meets no marker and no
      missing incident: a card that is posted fails to be recorded only if something dies. */
  lemma RecordCannotConflict(db: Db, e: Id)
    requires DbInv(db) && e in db.written && Handles(db.written[e]) && db.written[e].payload.RecommendationCreated?
    requires db.written[e].payload.recommendation in db.recs
    requires db.recs[db.written[e].payload.recommendation].slackTs.None?
    ensures (e, Feedback) !in db.processed
    ensures db.written[e].payload.incident in db.incidents
  {
    MarkedMeansDone(db, e);
    assert Truthful(db, db.written[e]) by { assert Holds(db, TRUTH); }
    assert Holds(db, KEYS);
  }

  /** A handler that fails or dies gives its lock back; a posted card stays posted. */
  lemma AbandonKeeps(s: State, h: Id, t: State)
    requires Inv(s) && h in s.handlers
    requires t == Abandon(s, h).(handlers := t.handlers)
    requires t.handlers == s.handlers - {h} || t.handlers == s.handlers[h := s.handlers[h].(phase := Done(500))]
    ensures Inv(t)
  {
    AtHandler(s, h);
    OwnLock(s, h);
    if s.handlers[h].phase.Locked? || s.handlers[h].phase.Posted? {
      AbandonLocked(s, h, t);
    } else {
      assert HeldLocks(s, h) == {};
      assert t.locks == s.locks;
      OthersStay(s, t, {h});
      CardsStay(s, t);
      WorkersStay(s, t);
      Together(t);
    }
  }

  lemma AbandonLocked(s: State, h: Id, t: State)
    requires Inv(s) && h in s.handlers && (s.handlers[h].phase.Locked? || s.handlers[h].phase.Posted?)
    requires t == Abandon(s, h).(handlers := t.handlers)
    requires t.handlers == s.handlers - {h} || t.handlers == s.handlers[h := s.handlers[h].(phase := Done(500))]
    ensures Inv(t)
  {
    AtHandler(s, h);
    OwnLock(s, h);
    var r := s.db.written[s.handlers[h].event].payload.recommendation;
    assert HeldLocks(s, h) == {r};
    AtCard(s, r);
    CardStep(s, t, h, r);
  }

  lemma LockedKeeps(s: State, h: Id, c: Choice)
    requires Inv(s) && CanHandle(s, h, c) && s.handlers[h].phase.Locked?
    ensures Inv(Handle(s, h, c)) && Onward(s.db, Handle(s, h, c).db)
    ensures PlansStay(s.db, Handle(s, h, c).db) && OnlyNewRows(s.db, Handle(s, h, c).db)
  {
    LockedPosts(s, h, c);
    PostKeeps(s, h, s.db.written[s.handlers[h].event].payload.incident, s.db.written[s.handlers[h].event].payload.recommendation, c);
  }

  lemma LockedPosts(s: State, h: Id, c: Choice)
    requires CanHandle(s, h, c) && s.handlers[h].phase.Locked?
    ensures var ev := s.db.written[s.handlers[h].event];
            Handle(s, h, c) == PostCard(s, h, ev.payload.incident, ev.payload.recommendation, c)
    ensures Handle(s, h, c).db == s.db
  {
  }

  lemma ConsumeKeeps(s: State, h: Id, c: Choice)
    requires Inv(s) && CanHandle(s, h, c)
    ensures Inv(Handle(s, h, c)) && Onward(s.db, Handle(s, h, c).db)
    ensures PlansStay(s.db, Handle(s, h, c).db) && OnlyNewRows(s.db, Handle(s, h, c).db)
  {
    match s.handlers[h].phase
    case Dropping => MarkStepKeeps(s, h, c);
    case Decided(_, _) => DecidedKeeps(s, h, c);
    case RecoveryGated => MarkStepKeeps(s, h, c);
    case Checked(_) => CheckedKeeps(s, h, c);
    case Locked => LockedKeeps(s, h, c);
    case Posted(_, _) => RecordCardKeeps(s, h, c);
    case Gated =>
      if s.db.written[s.handlers[h].event].payload.RecommendationCreated? {
        LockKeeps(s, h, s.db.written[s.handlers[h].event].payload.recommendation, c);
      } else {
        ReadKeeps(s, h, c);
      }
    case _ => ReadKeeps(s, h, c);
  }

  lemma StepKeeps(s: State, a: Action)
    requires Inv(s) && Enabled(s, a)
    ensures Inv(Next(s, a)) && Onward(s.db, Next(s, a).db)
    ensures a.DeletePlan? || PlansStay(s.db, Next(s, a).db)
  {
    match a
    case OpenIncident(_, _, _) => ArrivalKeeps(s, a);
    case AttachAlert(_, _, _) => ArrivalKeeps(s, a);
    case Repeat(_, _, _) => ArrivalKeeps(s, a);
    case Stray(_, _, _) => ArrivalKeeps(s, a);
    case DeleteAlerts(_) => UpkeepKeeps(s, a);
    case DeletePlan(_) => UpkeepKeeps(s, a);
    case DeleteIncident(_) => UpkeepKeeps(s, a);
    case Move(_, _) => UpkeepKeeps(s, a);
    case Requeue(_, _, _) => RowKeeps(s, a);
    case Reap(_, _, _) => RowKeeps(s, a);
    case Claim(e, w, now) => ClaimKeeps(s, e, w, now);
    case Dispatch(w, h) => DispatchKeeps(s, w, h);
    case Record(w, now) => RecordKeeps(s, w, now);
    case Consume(h, c) => ConsumeKeeps(s, h, c);
    case HandlerFails(h) => AbandonKeeps(s, h, Next(s, a));
    case HandlerDies(h) => AbandonKeeps(s, h, Next(s, a));
    case _ => TurnKeeps(s, a);
  }

  lemma InitHolds()
    ensures Inv(Init)
  {
    forall c ensures Holds(Init.db, c) {}
    Together(Init);
  }

  lemma {:induction false} RunKeeps(states: seq<State>, actions: seq<Action>, n: nat)
    requires IsRun(states, actions) && n <= |actions|
    ensures Inv(states[n])
  {
    if n == 0 {
      InitHolds();
    } else {
      RunKeeps(states, actions, n - 1);
      MomentKeeps(states, actions, n - 1);
    }
  }

  lemma MomentKeeps(states: seq<State>, actions: seq<Action>, k: nat)
    requires IsRun(states, actions) && k < |actions| && Inv(states[k])
    ensures Inv(states[k + 1]) && Onward(states[k].db, states[k + 1].db)
    ensures actions[k].DeletePlan? || PlansStay(states[k].db, states[k + 1].db)
  {
    assert StepAt(states, actions, k);
    StepKeeps(states[k], actions[k]);
  }

  lemma ReachableSafe(s: State)
    requires Reachable(s)
    ensures Inv(s)
  {
    var states, actions :| IsRun(states, actions) && states[|actions|] == s;
    RunKeeps(states, actions, |actions|);
  }
}
