/** Every step of a handler, said of the database's columns: which answer it comes to and what it
    commits on the way (the `receive_event` and `handle_event` routes, planning.py, storage.py and
    delivery.py). */
module PipelineAnswers {
  import opened Lifecycle
  import opened Outbox
  import opened Wrappers
  import opened Pipeline
  import opened PipelineInvariant
  import opened PipelineSafety
  import opened PipelineSteps
  import opened PipelineOutcomes

  /** The handler goes on to `phase`, the database to `db`, and nothing else changes. */
  predicate GoesOn(s: State, t: State, h: Id, phase: Phase, db: Db)
    requires h in s.handlers
  {
    t == s.(db := db, handlers := s.handlers[h := Handler(s.handlers[h].event, phase)])
  }

  /** `db` with the marker of event `e` for service `s`. */
  function Marked(db: Db, e: Id, s: Service): Db {
    db.(processed := db.processed + {(e, s)})
  }

  /** `db` with one more event, its row pending and due at once. */
  function Sent(db: Db, e: Id, target: Service, payload: Payload, origin: Service, now: int): Db {
    db.(written := db.written[e := Event(target, payload, By(origin))], rows := db.rows[e := Row(Pending, 0, now, now, now)])
  }

  /** The first look at the marker: found, the answer is 200; an event of another service is marked and
      dropped; any other goes on. */
  lemma StartStep(s: State, h: Id, c: Choice, e: Id, ev: Event)
    requires Enabled(s, Consume(h, c)) && s.handlers[h] == Handler(e, Start) && ev == s.db.written[e]
    ensures GoesOn(s, Next(s, Consume(h, c)), h,
                   if (e, ev.target) in s.db.processed then Done(200)
                   else if || (ev.target == Watcher && ev.payload.AlertNormalized?)
                           || (ev.target == Planner && ev.payload.PlanRequested?)
                           || (ev.target == Reasoner && ev.payload.ReasoningRequested?)
                           || (ev.target == Feedback && ev.payload.RecommendationCreated?)
                   then Gated else Dropping,
                   s.db)
  {
  }

  /** Writing the marker alone, to drop an event or after a lost race. */
  lemma MarkStep(s: State, h: Id, c: Choice, e: Id, target: Service)
    requires Enabled(s, Consume(h, c)) && s.handlers[h].event == e && target == s.db.written[e].target
    requires s.handlers[h].phase.Dropping? || s.handlers[h].phase.RecoveryGated?
    ensures var t := Next(s, Consume(h, c));
            if (e, target) in s.db.processed then GoesOn(s, t, h, Done(500), s.db)
            else GoesOn(s, t, h, Done(200), Marked(s.db, e, target))
  {
  }

  /** The recovery's look-up. */
  lemma RecoveringStep(s: State, h: Id, c: Choice, e: Id)
    requires Enabled(s, Consume(h, c)) && s.handlers[h] == Handler(e, Recovering)
    ensures GoesOn(s, Next(s, Consume(h, c)), h,
                   if (e, s.db.written[e].target) in s.db.processed then Done(200) else RecoveryGated, s.db)
  {
  }

  lemma WatcherGate(s: State, h: Id, c: Choice, e: Id, i: Id, deduplicated: bool)
    requires Enabled(s, Consume(h, c)) && s.handlers[h] == Handler(e, Gated) && s.db.written[e].payload == AlertNormalized(i, deduplicated)
    ensures GoesOn(s, Next(s, Consume(h, c)), h,
                   if i !in s.db.incidents then Done(422)
                   else if deduplicated then Decided(false, false)
                   else if c.suppress then Decided(false, true) else Decided(true, false),
                   s.db)
  {
  }

  lemma WatcherCommits(s: State, h: Id, c: Choice, e: Id, i: Id, request: bool, suppress: bool)
    requires Enabled(s, Consume(h, c)) && s.handlers[h] == Handler(e, Decided(request, suppress))
    requires s.db.written[e].target == Watcher && s.db.written[e].payload.incident == i && !(request && suppress)
    ensures var t, marked := Next(s, Consume(h, c)), Marked(s.db, e, Watcher);
            if (e, Watcher) in s.db.processed then GoesOn(s, t, h, Done(500), s.db)
            else GoesOn(s, t, h, Done(200),
                        if request then Sent(marked, c.event, Planner, PlanRequested(i), Watcher, c.now)
                        else if suppress then marked.(suppressed := s.db.suppressed + {i}) else marked)
  {
    DecidedStep(s, h, c);
  }

  lemma PlannerGate(s: State, h: Id, c: Choice, e: Id, i: Id)
    requires Enabled(s, Consume(h, c)) && s.handlers[h] == Handler(e, Gated) && s.db.written[e].payload == PlanRequested(i)
    ensures GoesOn(s, Next(s, Consume(h, c)), h,
                   if i in s.db.incidents then Checked(i in s.db.plans.Values) else Done(422), s.db)
  {
    assert HasPlan(s.db, i) <==> i in s.db.plans.Values;
  }

  lemma PlannerCommits(s: State, h: Id, c: Choice, e: Id, i: Id, existing: bool)
    requires Enabled(s, Consume(h, c)) && s.handlers[h] == Handler(e, Checked(existing)) && s.db.written[e].payload == PlanRequested(i)
    requires s.db.written[e].target == Planner
    ensures var t, marked := Next(s, Consume(h, c)), Marked(s.db, e, Planner);
            if (e, Planner) in s.db.processed || (!existing && i in s.db.plans.Values) then GoesOn(s, t, h, Recovering, s.db)
            else GoesOn(s, t, h, Done(200),
                        if existing then marked
                        else Sent(marked.(plans := s.db.plans[c.row := i], planned := s.db.planned[c.row := i]),
                                  c.event, Reasoner, ReasoningRequested(i, c.row), Planner, c.now))
  {
    assert HasPlan(s.db, i) <==> i in s.db.plans.Values;
    CheckedStep(s, h, c);
  }

  lemma ReasonerGate(s: State, h: Id, c: Choice, e: Id, i: Id, p: Id)
    requires Enabled(s, Consume(h, c)) && s.handlers[h] == Handler(e, Gated) && s.db.written[e].payload == ReasoningRequested(i, p)
    ensures GoesOn(s, Next(s, Consume(h, c)), h,
                   if i in s.db.incidents && i in s.db.withAlerts && p in s.db.plans && s.db.plans[p] == i then Thinking else Done(422),
                   s.db)
  {
  }

  lemma ThinkingStep(s: State, h: Id, c: Choice, e: Id, i: Id, p: Id)
    requires Enabled(s, Consume(h, c)) && s.handlers[h] == Handler(e, Thinking) && s.db.written[e].payload == ReasoningRequested(i, p)
    ensures GoesOn(s, Next(s, Consume(h, c)), h,
                   if i in s.db.incidents && p in s.db.plans then Checked(exists r :: r in s.db.recs && s.db.recs[r].incident == i)
                   else Done(422),
                   s.db)
  {
  }

  lemma ReasonerCommits(s: State, h: Id, c: Choice, e: Id, i: Id, p: Id, existing: bool)
    requires Enabled(s, Consume(h, c)) && s.handlers[h] == Handler(e, Checked(existing)) && s.db.written[e].payload == ReasoningRequested(i, p)
    requires s.db.written[e].target == Reasoner
    ensures var t, marked := Next(s, Consume(h, c)), Marked(s.db, e, Reasoner);
            if (e, Reasoner) in s.db.processed || (!existing && exists r :: r in s.db.recs && s.db.recs[r].incident == i)
            then GoesOn(s, t, h, Recovering, s.db)
            else GoesOn(s, t, h, Done(200),
                        if existing then marked
                        else Sent(marked.(recs := s.db.recs[c.row := Rec(i, p, None)]),
                                  c.event, Feedback, RecommendationCreated(i, c.row), Reasoner, c.now))
  {
    CheckedStep(s, h, c);
  }

  /** Only the planner's and the reasoner's events come to these phases; for any other the answer would be 500. */
  lemma OtherEventsFail(s: State, h: Id, c: Choice, e: Id)
    requires Enabled(s, Consume(h, c)) && s.handlers[h].event == e && !s.db.written[e].payload.ReasoningRequested?
    requires s.handlers[h].phase.Thinking?
             || (s.handlers[h].phase.Checked? && !s.db.written[e].payload.PlanRequested? && (e, s.db.written[e].target) !in s.db.processed)
    ensures GoesOn(s, Next(s, Consume(h, c)), h, Done(500), s.db)
  {
  }

  lemma FeedbackGate(s: State, h: Id, c: Choice, e: Id, i: Id, r: Id)
    requires Enabled(s, Consume(h, c)) && s.handlers[h] == Handler(e, Gated) && s.db.written[e].payload == RecommendationCreated(i, r)
    ensures var t := Next(s, Consume(h, c));
            if r in s.db.recs then r !in s.locks && t.locks == s.locks[r := h] && GoesOn(s, t.(locks := s.locks), h, Locked, s.db)
            else GoesOn(s, t, h, Done(422), s.db)
  {
  }

  /** The step under the row lock: an unrecorded card is posted, and its status read is the current one;
      anything else answers and lets the row go. */
  lemma PostStep(s: State, h: Id, c: Choice, e: Id, i: Id, r: Id)
    requires Enabled(s, Consume(h, c)) && s.handlers[h] == Handler(e, Locked) && s.db.written[e].payload == RecommendationCreated(i, r)
    ensures var t := Next(s, Consume(h, c));
            if s.db.recs[r].slackTs.None? && i in s.db.incidents && c.posted
            then t.slack == s.slack + [r] && GoesOn(s, t.(slack := s.slack), h, Posted(|s.slack|, s.db.incidents[i]), s.db)
            else t.locks == s.locks - {r}
                 && GoesOn(s, t.(locks := s.locks), h,
                           if s.db.recs[r].slackTs.Some? then Done(200) else if i !in s.db.incidents then Done(422) else Done(503), s.db)
  {
  }

  /** The record of the card that was posted: a conflict loses the record and not the card, which is
      counted as lost. */
  lemma RecordStepOfCard(s: State, h: Id, c: Choice, e: Id, i: Id, r: Id, ts: nat, read: Status)
    requires Enabled(s, Consume(h, c)) && s.handlers[h] == Handler(e, Posted(ts, read))
    requires s.db.written[e].payload == RecommendationCreated(i, r)
    ensures var t := Next(s, Consume(h, c));
      && t.locks == s.locks - {r}
      && if (e, Feedback) in s.db.processed || i !in s.db.incidents
         then
           && t.died == s.died + multiset{r}
           && GoesOn(s, t.(locks := s.locks, died := s.died), h, Done(if (e, Feedback) in s.db.processed then 500 else 422), s.db)
         else
           GoesOn(s, t.(locks := s.locks), h, Done(200),
                  Marked(s.db, e, Feedback).(
                    recs := s.db.recs[r := Rec(s.db.recs[r].incident, s.db.recs[r].plan, Some(ts))],
                    incidents := if read == Open then s.db.incidents[i := Investigating] else s.db.incidents))
  {
    TheEdges(read, Investigating);
  }

  /** When a handler can take a step: it has an event and has not answered, its fresh ids are fresh, and
      where the step takes a row's lock nobody holds it. */
  lemma HandlerCanStep(s: State, h: Id, c: Choice)
    ensures Enabled(s, Consume(h, c)) <==>
      && h in s.handlers && s.handlers[h].event in s.db.written
      && c.event !in s.db.written && c.row !in s.db.planned && c.row !in s.db.plans && c.row !in s.db.recs
      && var ev := s.db.written[s.handlers[h].event];
         match s.handlers[h].phase
         case Done(_) => false
         case Gated =>
           (match ev.payload
            case AlertNormalized(_, _) => ev.target == Watcher
            case PlanRequested(_) => ev.target == Planner
            case ReasoningRequested(_, _) => ev.target == Reasoner
            case RecommendationCreated(_, r) => ev.target == Feedback && r !in s.locks)
         case Locked => ev.payload.RecommendationCreated? && ev.payload.recommendation in s.db.recs
         case Posted(_, _) => ev.payload.RecommendationCreated? && ev.payload.recommendation in s.db.recs
         case _ => true
  {
  }

  // ---------------------------------------------------------------- what an answer tells

  /** Whether the step found its own marker at a look-up, found the card recorded, or committed. */
  predicate Settles(s: State, t: State, h: Id, e: Id)
    requires h in s.handlers && e in s.db.written
  {
    var phase, m := s.handlers[h].phase, (e, s.db.written[e].target);
    || ((phase.Start? || phase.Recovering?) && m in s.db.processed)
    || (m !in s.db.processed && m in t.db.processed)
    || (phase.Locked? && s.db.written[e].payload.RecommendationCreated? && s.db.written[e].payload.recommendation in s.db.recs
        && s.db.recs[s.db.written[e].payload.recommendation].slackTs.Some?)
  }

  /** Whether the marker came in after the look-up and before this step's commit. */
  predicate LosesMarker(s: State, h: Id, e: Id)
    requires h in s.handlers && e in s.db.written
  {
    var phase := s.handlers[h].phase;
    (phase.Dropping? || phase.Decided? || phase.RecoveryGated?) && (e, s.db.written[e].target) in s.db.processed
  }

  ghost predicate Tells(s: State, t: State, h: Id, e: Id)
    requires h in s.handlers && e in s.db.written
  {
    && h in t.handlers && (Settles(s, t, h, e) ==> t.handlers[h].phase == Done(200))
    && (t.handlers[h].phase.Done? ==>
          var code := t.handlers[h].phase.code;
          && code in {200, 422, 500, 503}
          && (code == 200 <==> Settles(s, t, h, e))
          && (code == 500 <==> LosesMarker(s, h, e))
          && (code == 503 <==> s.handlers[h].phase.Locked? && !Settles(s, t, h, e))
          && (code == 422 <==> !Settles(s, t, h, e) && (s.handlers[h].phase.Gated? || s.handlers[h].phase.Thinking?)))
  }

  lemma GateTells(s: State, h: Id, c: Choice, e: Id)
    requires Enabled(s, Consume(h, c)) && s.handlers[h] == Handler(e, Gated)
    ensures Tells(s, Next(s, Consume(h, c)), h, e)
  {
    match s.db.written[e].payload
    case AlertNormalized(i, deduplicated) => WatcherGate(s, h, c, e, i, deduplicated);
    case PlanRequested(i) => PlannerGate(s, h, c, e, i);
    case ReasoningRequested(i, p) => ReasonerGate(s, h, c, e, i, p);
    case RecommendationCreated(i, r) => FeedbackGate(s, h, c, e, i, r);
  }

  lemma CheckedTells(s: State, h: Id, c: Choice, e: Id, existing: bool)
    requires Inv(s) && Enabled(s, Consume(h, c)) && s.handlers[h] == Handler(e, Checked(existing))
    ensures Tells(s, Next(s, Consume(h, c)), h, e)
  {
    AtHandler(s, h);
    var payload := s.db.written[e].payload;
    if payload.PlanRequested? {
      PlannerCommits(s, h, c, e, payload.incident, existing);
    } else {
      ReasonerCommits(s, h, c, e, payload.incident, payload.plan, existing);
    }
  }

  lemma LockedTells(s: State, h: Id, c: Choice, e: Id)
    requires Inv(s) && Enabled(s, Consume(h, c)) && s.handlers[h] == Handler(e, Locked)
    ensures Tells(s, Next(s, Consume(h, c)), h, e)
  {
    AtHandler(s, h);
    var i, r := s.db.written[e].payload.incident, s.db.written[e].payload.recommendation;
    PostStep(s, h, c, e, i, r);
    if s.db.recs[r].slackTs.None? { RecordCannotConflict(s.db, e); }
  }

  lemma PostedTells(s: State, h: Id, c: Choice, e: Id, ts: nat, read: Status)
    requires Inv(s) && Enabled(s, Consume(h, c)) && s.handlers[h] == Handler(e, Posted(ts, read))
    ensures Tells(s, Next(s, Consume(h, c)), h, e)
  {
    AtHandler(s, h);
    assert s.db.written[e].payload == RecommendationCreated(s.db.written[e].payload.incident, s.db.written[e].payload.recommendation);
    RecordStepOfCard(s, h, c, e, s.db.written[e].payload.incident, s.db.written[e].payload.recommendation, ts, read);
    RecordCannotConflict(s.db, e);
  }

  lemma DecidedTells(s: State, h: Id, c: Choice, e: Id, request: bool, suppress: bool)
    requires Inv(s) && Enabled(s, Consume(h, c)) && s.handlers[h] == Handler(e, Decided(request, suppress))
    ensures Tells(s, Next(s, Consume(h, c)), h, e)
  {
    AtHandler(s, h);
    WatcherCommits(s, h, c, e, s.db.written[e].payload.incident, request, suppress);
  }

  /** The four answers and no other: 200 exactly for a marker or a recorded card that was found and for
      work that was committed, 500 exactly for a marker that came in between, 503 exactly for a refused
      post, and 422 for the rest, a row that is missing. A commit is always answered. */
  lemma AnswersTell(s: State, h: Id, c: Choice, e: Id)
    requires Inv(s) && Enabled(s, Consume(h, c)) && s.handlers[h].event == e
    ensures Tells(s, Next(s, Consume(h, c)), h, e)
  {
    AtHandler(s, h);
    match s.handlers[h].phase
    case Start => StartStep(s, h, c, e, s.db.written[e]);
    case Gated => GateTells(s, h, c, e);
    case Decided(request, suppress) => DecidedTells(s, h, c, e, request, suppress);
    case Thinking => ThinkingStep(s, h, c, e, s.db.written[e].payload.incident, s.db.written[e].payload.plan);
    case Checked(existing) => CheckedTells(s, h, c, e, existing);
    case Recovering => RecoveringStep(s, h, c, e);
    case Locked => LockedTells(s, h, c, e);
    case Posted(ts, read) => PostedTells(s, h, c, e, ts, read);
    case Dropping => MarkStep(s, h, c, e, s.db.written[e].target);
    case RecoveryGated => MarkStep(s, h, c, e, s.db.written[e].target);
    case Done(_) => assert false;
  }

  lemma RowWaits(s: State, h: Id, c: Choice, e: Id)
    requires Inv(s) && Enabled(s, Consume(h, c)) && e in s.db.rows
    ensures var t := Next(s, Consume(h, c)); e in t.db.rows && t.db.rows[e] == s.db.rows[e] && t.workers == s.workers
  {
    ConsumeKeeps(s, h, c);
    HandlerStep(s, h, c);
  }

  lemma ToldSettlesRow(s: State, h: Id, t: State, e: Id, w: Id, now: int) returns (u: State)
    requires h in s.handlers && e in s.db.written && Tells(s, t, h, e) && t.handlers[h].phase.Done?
    requires w in t.workers && t.workers[w] == Worker(e, Waiting(h)) && e in t.db.rows
    ensures HearsAndRecords(t, u, w, now)
    ensures w !in u.workers && (e !in u.db.rows <==> Settles(s, t, h, e))
    ensures e in u.db.rows ==>
              if t.db.rows[e].attempts < 4 && (LosesMarker(s, h, e) || s.handlers[h].phase.Locked?)
              then Rescheduled(t.db.rows[e], u.db.rows[e], now) else PutAside(t.db.rows[e], u.db.rows[e], now)
  {
    u := AnswerRecorded(t, w, h, e, t.handlers[h].phase.code, now);
  }

  /** And what becomes of the outbox row when the worker that waits records the answer, nobody else
      touching the row: it is gone exactly when the step found its marker or its card or committed its
      work; a marker that came in between and a refused post have it tried again, up to the fifth
      failure; a missing row puts it aside at once. */
  lemma AnswerSettlesRow(s: State, h: Id, c: Choice, t: State, e: Id, w: Id, now: int) returns (u: State)
    requires Inv(s) && Enabled(s, Consume(h, c)) && s.handlers[h].event == e && t == Next(s, Consume(h, c))
    requires w in s.workers && s.workers[w] == Worker(e, Waiting(h)) && e in s.db.rows
    requires h in t.handlers && t.handlers[h].phase.Done?
    ensures HearsAndRecords(t, u, w, now)
    ensures w !in u.workers && (e !in u.db.rows <==> Settles(s, t, h, e))
    ensures e in u.db.rows ==>
              if s.db.rows[e].attempts < 4 && (LosesMarker(s, h, e) || s.handlers[h].phase.Locked?)
              then Rescheduled(s.db.rows[e], u.db.rows[e], now) else PutAside(s.db.rows[e], u.db.rows[e], now)
  {
    AnswersTell(s, h, c, e);
    RowWaits(s, h, c, e);
    u := ToldSettlesRow(s, h, t, e, w, now);
  }
}
