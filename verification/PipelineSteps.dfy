/** What one step leaves alone: a consumer's step is its own, the worker's and the reaper's touch outbox
    rows only, and the rest of the world does none of the consumers' work. */
module PipelineSteps {
  import opened Lifecycle
  import opened Outbox
  import opened Pipeline
  import opened PipelineInvariant
  import opened PipelineSafety

  /** The step from `s` to `t` touches the phase of no other handler, and no worker. */
  predicate OwnPhase(s: State, t: State, h: Id)
    requires h in s.handlers
  {
    && t == s.(db := t.db, handlers := t.handlers, locks := t.locks, slack := t.slack, died := t.died)
    && h in t.handlers && t.handlers == s.handlers[h := s.handlers[h].(phase := t.handlers[h].phase)]
  }

  /** ... and, short of delivering a card, adds rows to the database and changes none. */
  ghost predicate OwnStep(s: State, t: State, h: Id)
    requires h in s.handlers
  {
    && OwnPhase(s, t, h) && !t.handlers[h].phase.Posted? && Adds(s.db, t.db) && t.slack == s.slack
    && (!s.handlers[h].phase.Checked? ==> t.db.planned == s.db.planned)
  }

  /** A step that commits nothing. */
  predicate Silent(s: State, t: State, h: Id)
    requires h in s.handlers
  {
    OwnPhase(s, t, h) && !t.handlers[h].phase.Posted? && t.db == s.db && t.slack == s.slack
  }

  lemma SilentIsOwn(s: State, t: State, h: Id)
    requires Inv(s) && h in s.handlers && Silent(s, t, h)
    ensures OwnStep(s, t, h)
  {
    AtClause(s, KEYS);
  }

  lemma AnswerIsOwn(s: State, h: Id, after: Db)
    requires h in s.handlers && s.handlers[h].phase.Checked? && Adds(s.db, after)
    ensures OwnStep(s, Answer(s, h, 200).(db := after), h)
  {
  }

  lemma StartIsSilent(s: State, h: Id, c: Choice)
    requires CanHandle(s, h, c) && s.handlers[h].phase.Start?
    ensures Silent(s, Handle(s, h, c), h)
  {
  }

  lemma GateIsSilent(s: State, h: Id, ev: Event, c: Choice)
    requires h in s.handlers && Handles(ev)
    ensures Silent(s, GateOpen(s, h, ev, c), h)
  {
  }

  lemma ThinkingIsSilent(s: State, h: Id, c: Choice)
    requires CanHandle(s, h, c) && (s.handlers[h].phase.Thinking? || s.handlers[h].phase.Recovering? || s.handlers[h].phase.Done?)
    ensures Silent(s, Handle(s, h, c), h)
  {
  }

  lemma DroppingIsOwn(s: State, h: Id, c: Choice)
    requires Inv(s) && CanHandle(s, h, c) && s.handlers[h].phase.Dropping?
    ensures OwnStep(s, Handle(s, h, c), h)
  {
    AtClause(s, KEYS);
  }

  lemma RecoveryIsOwn(s: State, h: Id, c: Choice)
    requires Inv(s) && CanHandle(s, h, c) && s.handlers[h].phase.RecoveryGated?
    ensures OwnStep(s, Handle(s, h, c), h)
  {
    AtClause(s, KEYS);
  }

  lemma DecidedIsOwn(s: State, h: Id, c: Choice)
    requires Inv(s) && CanHandle(s, h, c) && s.handlers[h].phase.Decided?
    ensures OwnStep(s, Handle(s, h, c), h)
  {
    var e, phase := s.handlers[h].event, s.handlers[h].phase;
    var i := s.db.written[e].payload.incident;
    AtClause(s, KEYS);
    DecidedStep(s, h, c);
    WatchedAdds(s.db, e, i, phase.request, phase.suppress, c.event, c.now);
  }

  lemma DecidedStep(s: State, h: Id, c: Choice)
    requires CanHandle(s, h, c) && s.handlers[h].phase.Decided?
    ensures var e, phase := s.handlers[h].event, s.handlers[h].phase;
            Handle(s, h, c) == if (e, s.db.written[e].target) in s.db.processed then Answer(s, h, 500)
                               else Answer(s, h, 200).(db := WatcherCommit(s.db, e, s.db.written[e].payload.incident,
                                                                           phase.request, phase.suppress, c.event, c.now))
  {
  }

  lemma WatchedAdds(db: Db, e: Id, i: Id, request: bool, suppress: bool, next: Id, now: int)
    requires Keys(db)
    ensures Adds(db, WatcherCommit(db, e, i, request, suppress, next, now))
    ensures WatcherCommit(db, e, i, request, suppress, next, now).planned == db.planned
  {
  }

  lemma PlannedAdds(db: Db, e: Id, i: Id, existing: bool, p: Id, next: Id, now: int)
    requires Keys(db) && p !in db.plans
    ensures Adds(db, PlannerCommit(db, e, i, existing, p, next, now))
  {
  }

  lemma ReasonedAdds(db: Db, e: Id, i: Id, p: Id, existing: bool, r: Id, next: Id, now: int)
    requires Keys(db) && r !in db.recs
    ensures Adds(db, ReasonerCommit(db, e, i, p, existing, r, next, now))
  {
  }

  lemma CheckedIsOwn(s: State, h: Id, c: Choice)
    requires Inv(s) && CanHandle(s, h, c) && s.handlers[h].phase.Checked?
    ensures OwnStep(s, Handle(s, h, c), h)
  {
    var e, existing := s.handlers[h].event, s.handlers[h].phase.existing;
    var p := s.db.written[e].payload;
    AtHandler(s, h);
    AtClause(s, KEYS);
    CheckedStep(s, h, c);
    if LosesRace(s.db, e, existing) {
      SilentIsOwn(s, Handle(s, h, c), h);
    } else if p.PlanRequested? {
      PlannedAdds(s.db, e, p.incident, existing, c.row, c.event, c.now);
      AnswerIsOwn(s, h, PlannerCommit(s.db, e, p.incident, existing, c.row, c.event, c.now));
    } else {
      ReasonedAdds(s.db, e, p.incident, p.plan, existing, c.row, c.event, c.now);
      AnswerIsOwn(s, h, ReasonerCommit(s.db, e, p.incident, p.plan, existing, c.row, c.event, c.now));
    }
  }

  /** Every step but the post and the record of a card. */
  lemma ConsumeIsOwn(s: State, h: Id, c: Choice)
    requires Inv(s) && CanHandle(s, h, c) && !s.handlers[h].phase.Locked? && !s.handlers[h].phase.Posted?
    ensures OwnStep(s, Handle(s, h, c), h)
  {
    var t := Handle(s, h, c);
    match s.handlers[h].phase
    case Start => StartIsSilent(s, h, c); SilentIsOwn(s, t, h);
    case Gated => GateIsSilent(s, h, s.db.written[s.handlers[h].event], c); SilentIsOwn(s, t, h);
    case Checked(_) => CheckedIsOwn(s, h, c);
    case Decided(_, _) => DecidedIsOwn(s, h, c);
    case Dropping => DroppingIsOwn(s, h, c);
    case RecoveryGated => RecoveryIsOwn(s, h, c);
    case _ => ThinkingIsSilent(s, h, c); SilentIsOwn(s, t, h);
  }

  /** The post: a card more in the channel, or nothing; the status read is the current one. */
  lemma PostIsOwn(s: State, h: Id, c: Choice)
    requires Inv(s) && CanHandle(s, h, c) && s.handlers[h].phase.Locked?
    ensures var i, r := s.db.written[s.handlers[h].event].payload.incident, s.db.written[s.handlers[h].event].payload.recommendation;
            var t := Handle(s, h, c);
            && OwnPhase(s, t, h) && t.db == s.db
            && if t.handlers[h].phase.Posted?
               then t.slack == s.slack + [r] && i in s.db.incidents && t.handlers[h].phase.read == s.db.incidents[i]
               else t.slack == s.slack
  {
    LockedPosts(s, h, c);
  }

  /** The record: its own handler's, on to its answer. */
  lemma RecordIsOwn(s: State, h: Id, c: Choice)
    requires Inv(s) && CanHandle(s, h, c) && s.handlers[h].phase.Posted?
    ensures OwnPhase(s, Handle(s, h, c), h) && !Handle(s, h, c).handlers[h].phase.Posted?
    ensures Handle(s, h, c).slack == s.slack && Handle(s, h, c).db.planned == s.db.planned
  {
    RecordedCard(s, h, c);
  }

  /** All of them: no other handler's phase changes, a handler has posted after its step only if this
      step was the post, and only the record moves an incident. */
  lemma HandlerStep(s: State, h: Id, c: Choice)
    requires Inv(s) && CanHandle(s, h, c)
    ensures var t := Handle(s, h, c);
            && OwnPhase(s, t, h)
            && (!s.handlers[h].phase.Posted? ==> t.db.incidents == s.db.incidents)
            && (!s.handlers[h].phase.Checked? ==> t.db.planned == s.db.planned)
            && (t.handlers[h].phase.Posted? ==> JustPosted(s, t, h))
  {
    match s.handlers[h].phase
    case Locked => PostIsOwn(s, h, c);
    case Posted(_, _) => RecordIsOwn(s, h, c);
    case _ => ConsumeIsOwn(s, h, c);
  }

  predicate JustPosted(s: State, t: State, h: Id)
    requires h in s.handlers && h in t.handlers && t.handlers[h].phase.Posted?
  {
    && t.db == s.db && s.handlers[h].event in s.db.written
    && var i := s.db.written[s.handlers[h].event].payload.incident;
       i in s.db.incidents && t.handlers[h].phase.read == s.db.incidents[i]
  }

  // ---------------------------------------------------------------- everybody else

  /** Ingestion, repeats, deletions and status moves. */
  predicate IsUpkeep(a: Action) {
    a.OpenIncident? || a.AttachAlert? || a.Repeat? || a.Stray? || a.DeleteAlerts? || a.DeletePlan? || a.DeleteIncident? || a.Move?
  }

  /** They do no consumer's work. */
  lemma UpkeepStep(s: State, a: Action)
    requires Enabled(s, a) && IsUpkeep(a)
    ensures var t := Next(s, a);
            && t == s.(db := t.db) && t.db.planned == s.db.planned && t.db.recs == s.db.recs && t.db.processed == s.db.processed
            && forall e :: e in s.db.written ==> e in t.db.written && t.db.written[e] == s.db.written[e]
  {
  }

  /** A handler is where it was, has just been started or has just been stopped. */
  lemma HandlersStay(s: State, a: Action, h: Id)
    requires Enabled(s, a) && !IsUpkeep(a) && !a.Consume? && h in Next(s, a).handlers
    ensures || (h in s.handlers && Next(s, a).handlers[h] == s.handlers[h])
            || Next(s, a).handlers[h].phase.Start? || Next(s, a).handlers[h].phase.Done?
  {
    match a
    case Record(w, now) => OutcomeStep(s, s.workers[w].event, s.workers[w].turn.outcome, s.workers[w].turn.seen, now);
    case HandlerFails(_) => StopStep(s, a);
    case HandlerDies(_) => StopStep(s, a);
    case _ => TurnHandlers(s, a, h);
  }

  lemma TurnHandlers(s: State, a: Action, h: Id)
    requires Enabled(s, a) && h in Next(s, a).handlers
    requires a.Requeue? || a.Claim? || a.Dispatch? || a.Refuse? || a.GiveUp? || a.Hear? || a.Fetch? || a.Reap? || a.WorkerDies?
    ensures (h in s.handlers && Next(s, a).handlers[h] == s.handlers[h]) || Next(s, a).handlers[h].phase.Start?
  {
  }

  /** Workers, the reaper, requeues and handlers that stop change no table but the outbox, and post nothing. */
  lemma RowStep(s: State, a: Action)
    requires Enabled(s, a) && !IsUpkeep(a) && !a.Consume?
    ensures Next(s, a).db == s.db.(rows := Next(s, a).db.rows) && Next(s, a).slack == s.slack
  {
    match a
    case Record(w, now) => RecordStep(s, w, now);
    case HandlerFails(_) => StopStep(s, a);
    case HandlerDies(_) => StopStep(s, a);
    case _ => TurnStep(s, a);
  }

  lemma TurnStep(s: State, a: Action)
    requires Enabled(s, a)
    requires a.Requeue? || a.Claim? || a.Dispatch? || a.Refuse? || a.GiveUp? || a.Hear? || a.Fetch? || a.Reap? || a.WorkerDies?
    ensures Next(s, a).db == s.db.(rows := Next(s, a).db.rows) && Next(s, a).slack == s.slack
  {
  }

  lemma StopStep(s: State, a: Action)
    requires Enabled(s, a) && (a.HandlerFails? || a.HandlerDies?)
    ensures Next(s, a).db == s.db && Next(s, a).slack == s.slack
  {
  }

  lemma RecordStep(s: State, w: Id, now: int)
    requires Enabled(s, Record(w, now))
    ensures Next(s, Record(w, now)).db == s.db.(rows := Next(s, Record(w, now)).db.rows) && Next(s, Record(w, now)).slack == s.slack
  {
    var Worker(e, Fetched(outcome, seen)) := s.workers[w];
    OutcomeStep(s, e, outcome, seen, now);
  }

  lemma OutcomeStep(s: State, e: Id, outcome: Outcome, seen: Row, now: int)
    ensures var t := RecordOutcome(s, e, outcome, seen, now); t == s.(db := s.db.(rows := t.db.rows))
  {
  }
}
