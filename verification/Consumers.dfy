/** The event handlers as they are written, transaction after transaction, verified against
    whatever other transactions commit in between (the `receive_event` and `handle_event` routes of
    the four services, planning.py, storage.py and delivery.py). */
module Consumers {
  import opened Lifecycle
  import opened Outbox
  import opened Wrappers
  import opened Pipeline
  import opened PipelineInvariant
  import opened PipelineTransactions
  import opened PipelineSafety
  import opened PipelineSteps
  import opened PipelineTheorems

  datatype Delivery = CardDelivered | AlreadyDelivered | PostFailed | Missing

  /** Whether the service has its database and configuration, and whether the event's body parses. */
  datatype Request = Request(ready: bool, wellFormed: bool)

  /** What other transactions may do while a handler is between two of its own steps: keep the books,
      take nothing back, leave this handler's fresh ids alone, and leave the rows it has checked in
      its open transaction, or holds locked, as they are. */
  ghost predicate Rely(was: Db, posted: seq<Id>, db: Db, slack: seq<Id>, c: Choice, checked: Option<Event>, locked: Option<Id>) {
    && DbInv(db) && Grows(was, db) && FreshFor(db, c) && posted <= slack
    && (checked.Some? ==> RowsStay(was, db, checked.value))
    && (locked.Some? ==>
          && (locked.value in was.recs ==> db.recs[locked.value] == was.recs[locked.value])
          && multiset(slack)[locked.value] == multiset(posted)[locked.value])
  }

  // ---------------------------------------------------------------- the step system keeps to it

  /** A step by anyone but handler `h`. */
  predicate NotBy(a: Action, h: Id) {
    !((a.Consume? || a.HandlerFails? || a.HandlerDies?) && a.h == h)
  }

  /** The event whose rows handler `h` has checked in its open transaction. */
  function CheckedBy(s: State, h: Id): Option<Event>
    requires h in s.handlers
  {
    if s.handlers[h].phase.Checked? && s.handlers[h].event in s.db.written then Some(s.db.written[s.handlers[h].event]) else None
  }

  predicate LockedPhase(phase: Phase) {
    phase.Locked? || phase.Posted?
  }

  /** The recommendation whose row handler `h` holds locked. */
  function LockedBy(s: State, h: Id): Option<Id>
    requires h in s.handlers
  {
    if LockedPhase(s.handlers[h].phase) && s.handlers[h].event in s.db.written
       && s.db.written[s.handlers[h].event].payload.RecommendationCreated?
    then Some(s.db.written[s.handlers[h].event].payload.recommendation) else None
  }

  lemma OthersKeepRows(s: State, a: Action, h: Id)
    requires Inv(s) && Enabled(s, a) && NotBy(a, h) && h in s.handlers && CheckedBy(s, h).Some?
    ensures RowsStay(s.db, Next(s, a).db, CheckedBy(s, h).value)
  {
    if a.Consume? {
      HandlerStep(s, a.h, a.c);
      if !LockedPhase(s.handlers[a.h].phase) {
        ConsumeIsOwn(s, a.h, a.c);
      } else if s.handlers[a.h].phase.Posted? {
        RecordedCard(s, a.h, a.c);
      }
    } else if IsUpkeep(a) {
      UpkeepKeepsRows(s, a, h);
    } else {
      RowStep(s, a);
    }
  }

  lemma UpkeepKeepsRows(s: State, a: Action, h: Id)
    requires Enabled(s, a) && IsUpkeep(a) && h in s.handlers && CheckedBy(s, h).Some?
    ensures RowsStay(s.db, Next(s, a).db, CheckedBy(s, h).value)
  {
    assert s.handlers[h].phase.Checked? && s.handlers[h].event in s.db.written;
  }

  lemma HeldByOne(s: State, g: Id, h: Id)
    requires Inv(s) && g in s.handlers && h in s.handlers && g != h && LockedBy(s, h).Some?
    ensures LockedBy(s, g) != LockedBy(s, h)
  {
    AtHandler(s, g);
    AtHandler(s, h);
  }

  lemma PostKeepsCard(s: State, g: Id, c: Choice, r: Id)
    requires Inv(s) && CanHandle(s, g, c) && s.handlers[g].phase.Locked? && r in s.db.recs && LockedBy(s, g) != Some(r)
    ensures Handle(s, g, c).db == s.db && multiset(Handle(s, g, c).slack)[r] == multiset(s.slack)[r]
  {
    PostIsOwn(s, g, c);
  }

  lemma RecordKeepsCard(s: State, g: Id, c: Choice, r: Id)
    requires Inv(s) && CanHandle(s, g, c) && s.handlers[g].phase.Posted? && r in s.db.recs && LockedBy(s, g) != Some(r)
    ensures r in Handle(s, g, c).db.recs && Handle(s, g, c).db.recs[r] == s.db.recs[r] && Handle(s, g, c).slack == s.slack
  {
    RecordedCard(s, g, c);
  }

  lemma ConsumeKeepsCard(s: State, g: Id, c: Choice, r: Id)
    requires Inv(s) && CanHandle(s, g, c) && r in s.db.recs && LockedBy(s, g) != Some(r)
    ensures r in Handle(s, g, c).db.recs && Handle(s, g, c).db.recs[r] == s.db.recs[r]
    ensures multiset(Handle(s, g, c).slack)[r] == multiset(s.slack)[r]
  {
    if s.handlers[g].phase.Locked? {
      PostKeepsCard(s, g, c, r);
    } else if s.handlers[g].phase.Posted? {
      RecordKeepsCard(s, g, c, r);
    } else {
      PlainKeepsCard(s, g, c, r);
    }
  }

  lemma PlainKeepsCard(s: State, g: Id, c: Choice, r: Id)
    requires Inv(s) && CanHandle(s, g, c) && !LockedPhase(s.handlers[g].phase) && r in s.db.recs
    ensures r in Handle(s, g, c).db.recs && Handle(s, g, c).db.recs[r] == s.db.recs[r] && Handle(s, g, c).slack == s.slack
  {
    ConsumeIsOwn(s, g, c);
    StepKeeps(s, Consume(g, c));
  }

  lemma OthersKeepCard(s: State, a: Action, h: Id)
    requires Inv(s) && Enabled(s, a) && NotBy(a, h) && h in s.handlers && LockedBy(s, h).Some?
    ensures var r := LockedBy(s, h).value;
            && r in s.db.recs && r in Next(s, a).db.recs && Next(s, a).db.recs[r] == s.db.recs[r]
            && multiset(Next(s, a).slack)[r] == multiset(s.slack)[r]
  {
    AtHandler(s, h);
    if a.Consume? {
      HeldByOne(s, a.h, h);
      ConsumeKeepsCard(s, a.h, a.c, LockedBy(s, h).value);
    } else if IsUpkeep(a) {
      UpkeepStep(s, a);
    } else {
      RowStep(s, a);
    }
  }

  lemma OthersKeepHandler(s: State, a: Action, h: Id)
    requires Inv(s) && Enabled(s, a) && NotBy(a, h) && h in s.handlers
    ensures h in Next(s, a).handlers && Next(s, a).handlers[h] == s.handlers[h] && s.slack <= Next(s, a).slack
  {
    if a.Consume? {
      ConsumeKeepsHandler(s, a.h, a.c, h);
    } else if IsUpkeep(a) {
      UpkeepStep(s, a);
    } else {
      RowStep(s, a);
      OthersStop(s, a, h);
    }
  }

  lemma ConsumeKeepsHandler(s: State, g: Id, c: Choice, h: Id)
    requires Inv(s) && CanHandle(s, g, c) && h in s.handlers && g != h
    ensures h in Handle(s, g, c).handlers && Handle(s, g, c).handlers[h] == s.handlers[h] && s.slack <= Handle(s, g, c).slack
  {
    HandlerStep(s, g, c);
    if s.handlers[g].phase.Locked? {
      PostIsOwn(s, g, c);
    } else if s.handlers[g].phase.Posted? {
      RecordIsOwn(s, g, c);
    } else {
      ConsumeIsOwn(s, g, c);
    }
  }

  lemma OthersStop(s: State, a: Action, h: Id)
    requires Enabled(s, a) && NotBy(a, h) && h in s.handlers && !a.Consume? && !IsUpkeep(a)
    ensures h in Next(s, a).handlers && Next(s, a).handlers[h] == s.handlers[h]
  {
    if a.Record? {
      OutcomeStep(s, s.workers[a.w].event, s.workers[a.w].turn.outcome, s.workers[a.w].turn.seen, a.now);
    }
  }

  /** Every step of the pipeline by anyone else leaves handler `h` in its phase and keeps to `Rely`,
      short of drawing an id that is fresh for `h`. */
  lemma StepRelies(s: State, a: Action, h: Id, c: Choice)
    requires Inv(s) && Enabled(s, a) && NotBy(a, h) && h in s.handlers && FreshFor(Next(s, a).db, c)
    ensures h in Next(s, a).handlers && Next(s, a).handlers[h] == s.handlers[h]
    ensures Rely(s.db, s.slack, Next(s, a).db, Next(s, a).slack, c, CheckedBy(s, h), LockedBy(s, h))
  {
    StepKeeps(s, a);
    assert HasPart(Next(s, a), DATABASE);
    OthersKeepHandler(s, a, h);
    if CheckedBy(s, h).Some? { OthersKeepRows(s, a, h); }
    if LockedBy(s, h).Some? { OthersKeepCard(s, a, h); }
  }

  lemma RelyChains(was: Db, posted: seq<Id>, mid: Db, more: seq<Id>, db: Db, slack: seq<Id>, c: Choice,
                   checked: Option<Event>, locked: Option<Id>)
    requires Rely(was, posted, mid, more, c, checked, locked) && Rely(mid, more, db, slack, c, checked, locked)
    requires locked.Some? ==> locked.value in was.recs
    ensures Rely(was, posted, db, slack, c, checked, locked)
  {
    GrowthChains(was, mid, db);
  }

  /** What is fresh for a handler at the end of a stretch was fresh all along. */
  lemma FreshBefore(was: Db, db: Db, c: Choice)
    requires DbInv(was) && Grows(was, db) && FreshFor(db, c)
    ensures FreshFor(was, c)
  {
    assert Holds(was, KEYS);
  }

  /** And so does any stretch of a run in which handler `h` does not move. */
  lemma {:induction false} OthersRely(states: seq<State>, actions: seq<Action>, m: nat, n: nat, h: Id, c: Choice)
    requires IsRun(states, actions) && m <= n <= |actions| && h in states[m].handlers
    requires forall k :: m <= k < n ==> NotBy(actions[k], h)
    requires FreshFor(states[n].db, c)
    ensures h in states[n].handlers && states[n].handlers[h] == states[m].handlers[h]
    ensures Rely(states[m].db, states[m].slack, states[n].db, states[n].slack, c, CheckedBy(states[m], h), LockedBy(states[m], h))
    decreases n
  {
    RunKeeps(states, actions, m);
    AtHandler(states[m], h);
    if m < n {
      RunKeeps(states, actions, n - 1);
      assert StepAt(states, actions, n - 1);
      MomentKeeps(states, actions, n - 1);
      assert HasPart(states[n - 1], DATABASE);
      FreshBefore(states[n - 1].db, states[n].db, c);
      OthersRely(states, actions, m, n - 1, h, c);
      StepRelies(states[n - 1], actions[n - 1], h, c);
      AtHandler(states[n - 1], h);
      RelyChains(states[m].db, states[m].slack, states[n - 1].db, states[n - 1].slack, states[n].db, states[n].slack, c,
                 CheckedBy(states[m], h), LockedBy(states[m], h));
    }
  }

  /** The committed state as other transactions leave it. */
  datatype Moment = Moment(db: Db, slack: seq<Id>)

  /** The answer to an attempt to commit a marker, and nothing else, over `was`: 500 when it is there
      already, and 200 with the marker written when it is not. */
  ghost predicate Marks(was: Db, e: Id, s: Service, db: Db, code: int) {
    if (e, s) in was.processed then code == 500 && db == was
    else code == 200 && db == was.(processed := was.processed + {(e, s)})
  }

  /** The answer of a recovery: 200 when the marker is there at its look-up, `seen[0]`, and otherwise
      that of writing it over `seen[1]`. */
  ghost predicate Recovers(seen: seq<Moment>, e: Id, s: Service, db: Db, code: int) {
    && |seen| > 0
    && if (e, s) in seen[0].db.processed then |seen| == 1 && code == 200 && db == seen[0].db
       else |seen| == 2 && Marks(seen[1].db, e, s, db, code)
  }

  /** The planner's commit, `existing` telling whether its look-up found a plan: over `seen[0]`. */
  ghost predicate CommitsPlan(seen: seq<Moment>, e: Id, i: Id, existing: bool, c: Choice, db: Db, code: int) {
    && |seen| > 0
    && var now := seen[0].db;
       if (e, Planner) in now.processed || (!existing && i in now.plans.Values) then Recovers(seen[1..], e, Planner, db, code)
       else if existing then |seen| == 1 && Marks(now, e, Planner, db, code)
       else
         && |seen| == 1 && code == 200
         && db == now.(processed := now.processed + {(e, Planner)},
                       plans := now.plans[c.row := i],
                       planned := now.planned[c.row := i],
                       written := now.written[c.event := Event(Reasoner, ReasoningRequested(i, c.row), By(Planner))],
                       rows := now.rows[c.event := Row(Pending, 0, c.now, c.now, c.now)])
  }

  /** The planner's answer to a well-formed plan request: its look-ups meet `seen[0]`. */
  ghost predicate Plans(seen: seq<Moment>, e: Id, i: Id, c: Choice, db: Db, code: int) {
    && |seen| > 0
    && if i in seen[0].db.incidents then CommitsPlan(seen[1..], e, i, i in seen[0].db.plans.Values, c, db, code)
       else code == 422 && |seen| == 1 && db == seen[0].db
  }

  ghost predicate Recommended(db: Db, i: Id) {
    exists r :: r in db.recs && db.recs[r].incident == i
  }

  /** The reasoner's commit, `existing` telling whether its look-up found a recommendation: over `seen[0]`. */
  ghost predicate CommitsRec(seen: seq<Moment>, e: Id, i: Id, p: Id, existing: bool, c: Choice, db: Db, code: int) {
    && |seen| > 0
    && var now := seen[0].db;
       if (e, Reasoner) in now.processed || (!existing && Recommended(now, i)) then Recovers(seen[1..], e, Reasoner, db, code)
       else if existing then |seen| == 1 && Marks(now, e, Reasoner, db, code)
       else
         && |seen| == 1 && code == 200
         && db == now.(processed := now.processed + {(e, Reasoner)},
                       recs := now.recs[c.row := Rec(i, p, None)],
                       written := now.written[c.event := Event(Feedback, RecommendationCreated(i, c.row), By(Reasoner))],
                       rows := now.rows[c.event := Row(Pending, 0, c.now, c.now, c.now)])
  }

  /** The reasoner's write after its call: its second look-ups meet `seen[0]`. */
  ghost predicate Stores(seen: seq<Moment>, e: Id, i: Id, p: Id, c: Choice, db: Db, code: int) {
    && |seen| > 0
    && if i in seen[0].db.incidents && p in seen[0].db.plans
       then CommitsRec(seen[1..], e, i, p, Recommended(seen[0].db, i), c, db, code)
       else code == 422 && |seen| == 1 && db == seen[0].db
  }

  /** The watcher's answer to a well-formed alert: `seen[0]` is the state its look-up meets and
      `seen[1]` the one its commit meets. */
  ghost predicate Correlates(seen: seq<Moment>, e: Id, i: Id, deduplicated: bool, c: Choice, db: Db, code: int) {
    && |seen| > 0
    && if i !in seen[0].db.incidents then code == 422 && |seen| == 1 && db == seen[0].db
       else
         && |seen| == 2
         && var now := seen[1].db;
            if deduplicated || (e, Watcher) in now.processed then Marks(now, e, Watcher, db, code)
            else
              && code == 200
              && if c.suppress then db == now.(processed := now.processed + {(e, Watcher)}, suppressed := now.suppressed + {i})
                 else db == now.(processed := now.processed + {(e, Watcher)},
                                 written := now.written[c.event := Event(Planner, PlanRequested(i), By(Watcher))],
                                 rows := now.rows[c.event := Row(Pending, 0, c.now, c.now, c.now)])
  }

  /** A record over `now`: the card's timestamp, the marker, and the incident's move if it was open
      when it was read. */
  ghost predicate Records(now: Db, e: Id, i: Id, r: Id, ts: nat, wasOpen: bool, db: Db) {
    && r in now.recs && i in now.incidents
    && db == now.(processed := now.processed + {(e, Feedback)},
                  recs := now.recs[r := Rec(now.recs[r].incident, now.recs[r].plan, Some(ts))],
                  incidents := if wasOpen then now.incidents[i := Investigating] else now.incidents)
  }

  /** The delivery's outcome from `was` on: `seen[0]` is the state at the post and `seen[1]` the one at
      the record. */
  ghost predicate Delivers(was: Moment, seen: seq<Moment>, e: Id, i: Id, r: Id, c: Choice, after: Moment, outcome: Delivery) {
    if r !in was.db.recs then outcome == Missing && seen == [] && after == was
    else if was.db.recs[r].slackTs.Some? then outcome == AlreadyDelivered && seen == [] && after == was
    else
      && i in was.db.incidents && |seen| > 0
      && if !c.posted then outcome == PostFailed && |seen| == 1 && after == seen[0]
         else
           && outcome == CardDelivered && |seen| == 2
           && after.slack == seen[1].slack && seen[0].slack + [r] <= after.slack
           && Records(seen[1].db, e, i, r, |seen[0].slack|, was.db.incidents[i] == Open, after.db)
  }

  /** The answer for it: 200 for a card delivered now or before, 422 for a missing recommendation, and
      503 for a post that Slack refused. */
  ghost predicate DeliveryAnswers(was: Moment, seen: seq<Moment>, e: Id, i: Id, r: Id, c: Choice, after: Moment, code: int) {
    if r !in was.db.recs then code == 422 && Delivers(was, seen, e, i, r, c, after, Missing)
    else if was.db.recs[r].slackTs.Some? then code == 200 && Delivers(was, seen, e, i, r, c, after, AlreadyDelivered)
    else if !c.posted then code == 503 && Delivers(was, seen, e, i, r, c, after, PostFailed)
    else code == 200 && Delivers(was, seen, e, i, r, c, after, CardDelivered)
  }

  /** The marker of the event came in between a look-up and the commit. */
  predicate Raced(look: Db, commit: Db, e: Id, s: Service) {
    (e, s) !in look.processed && (e, s) in commit.processed
  }

  /** The planner answers 500 exactly when the event's own marker came in between its recovery's look-up
      and commit; otherwise a marker or a missing incident stands behind its answer. */
  lemma PlannerFails(seen: seq<Moment>, e: Id, i: Id, c: Choice, db: Db, code: int)
    requires Plans(seen, e, i, c, db, code)
    ensures code == 500 <==> |seen| == 4 && Raced(seen[2].db, seen[3].db, e, Planner)
    ensures code == 200 ==> (e, Planner) in db.processed
    ensures code in {200, 422, 500} && (code == 422 <==> i !in seen[0].db.incidents)
    ensures code in {422, 500} ==> db == seen[|seen| - 1].db
  {
  }

  /** And the reasoner likewise. */
  lemma ReasonerFails(seen: seq<Moment>, e: Id, i: Id, p: Id, c: Choice, db: Db, code: int)
    requires Stores(seen, e, i, p, c, db, code)
    ensures code == 500 <==> |seen| == 4 && Raced(seen[2].db, seen[3].db, e, Reasoner)
    ensures code == 200 ==> (e, Reasoner) in db.processed
    ensures code in {200, 422, 500} && (code == 422 <==> i !in seen[0].db.incidents || p !in seen[0].db.plans)
    ensures code in {422, 500} ==> db == seen[|seen| - 1].db
  {
  }

  /** The watcher has no recovery: it answers 500 exactly when its own marker is there at its commit. */
  lemma WatcherFails(seen: seq<Moment>, e: Id, i: Id, deduplicated: bool, c: Choice, db: Db, code: int)
    requires Correlates(seen, e, i, deduplicated, c, db, code)
    ensures code == 500 <==> |seen| == 2 && (e, Watcher) in seen[1].db.processed
    ensures code == 200 ==> (e, Watcher) in db.processed
    ensures code in {200, 422, 500} && (code == 422 <==> i !in seen[0].db.incidents)
    ensures code in {422, 500} ==> db == seen[|seen| - 1].db
  {
  }

  lemma PlannedIsHasPlan(db: Db, i: Id)
    ensures HasPlan(db, i) <==> i in db.plans.Values
  {
  }

  class Services {
    var db: Db
    /** The channel: the recommendation each posted card belongs to. */
    var slack: seq<Id>
    /** How other transactions left the committed state, each time they had their turn. */
    ghost var moments: seq<Moment>

    ghost predicate Valid()
      reads this
    {
      DbInv(db)
    }

    /** Other transactions. The body is one possibility; callers know what `Rely` says and no more. */
    method Others(c: Choice, ghost checked: Option<Event>, ghost locked: Option<Id>)
      requires Valid() && FreshFor(db, c)
      modifies this`db, this`slack, this`moments
      ensures Valid() && Rely(old(db), old(slack), db, slack, c, checked, locked)
      ensures moments == old(moments) + [Moment(db, slack)]
    {
      moments := moments + [Moment(db, slack)];
    }

    /** Mark an event this service does not handle, and drop it. */
    method Drop(e: Id, c: Choice) returns (code: int, ghost seen: seq<Moment>)
      requires Valid() && FreshFor(db, c) && e in db.written && !Handles(db.written[e])
      modifies this`db, this`slack, this`moments
      ensures Valid() && Grows(old(db), db) && moments == old(moments) + seen
      ensures |seen| == 1 && Marks(seen[0].db, e, old(db).written[e].target, db, code)
      ensures Effect(db, e) && (e, db.written[e].target) in db.processed
    {
      Others(c, None, None);
      seen := [Moment(db, slack)];
      MarkedMeansDone(db, e);
      if (e, db.written[e].target) in db.processed { return 500, seen; }
      ghost var before := db;
      MarkKeeps(db, e);
      db := MarkProcessed(db, e, db.written[e].target);
      GrowthChains(old(db), before, db);
      code := 200;
    }

    /** The recovery of a lost race, in a fresh transaction: look at the marker again, write it. */
    method AbsorbRace(e: Id, c: Choice) returns (code: int, ghost seen: seq<Moment>)
      requires Valid() && FreshFor(db, c) && e in db.written && Handles(db.written[e])
      requires Effect(db, e) && !db.written[e].payload.AlertNormalized?
      modifies this`db, this`slack, this`moments
      ensures Valid() && Grows(old(db), db) && moments == old(moments) + seen
      ensures Recovers(seen, e, old(db).written[e].target, db, code)
      ensures Effect(db, e) && (e, db.written[e].target) in db.processed
    {
      Others(c, None, None);
      seen := [Moment(db, slack)];
      EffectLasts(old(db), db);
      if (e, db.written[e].target) in db.processed { return 200, seen; }
      ghost var looked := db;
      Others(c, None, None);
      seen := seen + [Moment(db, slack)];
      EffectLasts(looked, db);
      GrowthChains(old(db), looked, db);
      if (e, db.written[e].target) in db.processed { return 500, seen; }
      ghost var before := db;
      MarkKeeps(db, e);
      db := MarkProcessed(db, e, db.written[e].target);
      GrowthChains(old(db), before, db);
      code := 200;
    }

    /** The planner. A plan was committed for the incident and the event is marked, whichever way it
        came to it; or the body does not parse or the incident is gone, and the answer is 422. */
    method ReceivePlanRequest(e: Id, request: Request, c: Choice) returns (code: int, ghost seen: seq<Moment>)
      requires Valid() && FreshFor(db, c) && e in db.written && db.written[e].target == Planner
      modifies this`db, this`slack, this`moments
      ensures Valid() && Grows(old(db), db) && moments == old(moments) + seen
      ensures code in {200, 500} ==> Effect(db, e) && (e, Planner) in db.processed
      ensures !request.ready ==> code == 503 && seen == [] && db == old(db)
      ensures request.ready && (e, Planner) in old(db).processed ==> code == 200 && seen == [] && db == old(db)
      ensures request.ready && (e, Planner) !in old(db).processed ==>
        match old(db).written[e].payload
        case PlanRequested(i) => if request.wellFormed then Plans(seen, e, i, c, db, code) else code == 422 && seen == [] && db == old(db)
        case _ => |seen| == 1 && Marks(seen[0].db, e, Planner, db, code)
    {
      seen := [];
      if !request.ready { return 503, seen; }
      MarkedMeansDone(db, e);
      if (e, Planner) in db.processed { return 200, seen; }
      if !Handles(db.written[e]) {
        code, seen := Drop(e, c);
        return;
      }
      if !request.wellFormed { return 422, seen; }
      code, seen := PlanIncident(e, c);
    }

    /** Look the incident and its plan up, and commit plan, event and marker, or recover. */
    method PlanIncident(e: Id, c: Choice) returns (code: int, ghost seen: seq<Moment>)
      requires Valid() && FreshFor(db, c) && e in db.written && db.written[e].target == Planner && db.written[e].payload.PlanRequested?
      modifies this`db, this`slack, this`moments
      ensures Valid() && Grows(old(db), db) && moments == old(moments) + seen
      ensures code in {200, 500} ==> Effect(db, e) && (e, Planner) in db.processed
      ensures Plans(seen, e, old(db).written[e].payload.incident, c, db, code)
    {
      Others(c, None, None);
      seen := [Moment(db, slack)];
      ghost var gated := db;
      var i := db.written[e].payload.incident;
      if i !in db.incidents { return 422, seen; }
      var existing := HasPlan(db, i);
      PlannedIsHasPlan(db, i);
      PreCheck(db, e);
      ghost var more;
      code, more := CommitPlan(e, existing, c);
      GrowthChains(old(db), gated, db);
      assert (seen + more)[1..] == more;
      seen := seen + more;
    }

    method CommitPlan(e: Id, existing: bool, c: Choice) returns (code: int, ghost seen: seq<Moment>)
      requires Valid() && FreshFor(db, c) && e in db.written && db.written[e].target == Planner && db.written[e].payload.PlanRequested?
      requires db.written[e].payload.incident in db.incidents && existing == HasPlan(db, db.written[e].payload.incident)
      requires existing ==> Effect(db, e)
      modifies this`db, this`slack, this`moments
      ensures Valid() && Grows(old(db), db) && moments == old(moments) + seen
      ensures Effect(db, e) && (e, Planner) in db.processed
      ensures CommitsPlan(seen, e, old(db).written[e].payload.incident, existing, c, db, code)
    {
      var i := db.written[e].payload.incident;
      Others(c, Some(db.written[e]), None);
      seen := [Moment(db, slack)];
      EffectLasts(old(db), db);
      MarkedMeansDone(db, e);
      PreCheck(db, e);
      PlannedIsHasPlan(db, i);
      if (e, Planner) in db.processed || (!existing && HasPlan(db, i)) {
        ghost var lost, more := db, [];
        code, more := AbsorbRace(e, c);
        GrowthChains(old(db), lost, db);
        assert (seen + more)[1..] == more;
        seen := seen + more;
        return;
      }
      ghost var before := db;
      PlannerCommitKeeps(db, e, existing, c.row, c.event, c.now);
      db := PlannerCommit(db, e, i, existing, c.row, c.event, c.now);
      GrowthChains(old(db), before, db);
      code := 200;
    }

    /** The reasoner, with no transaction open while it calls out: there the rows it has read may be
        deleted, so they are looked up again before the write. */
    method ReceiveReasoningRequest(e: Id, request: Request, c: Choice) returns (code: int, ghost seen: seq<Moment>)
      requires Valid() && FreshFor(db, c) && e in db.written && db.written[e].target == Reasoner
      modifies this`db, this`slack, this`moments
      ensures Valid() && Grows(old(db), db) && moments == old(moments) + seen
      ensures code in {200, 500} ==> Effect(db, e) && (e, Reasoner) in db.processed
      ensures !request.ready ==> code == 503 && seen == [] && db == old(db)
      ensures request.ready && (e, Reasoner) in old(db).processed ==> code == 200 && seen == [] && db == old(db)
      ensures request.ready && (e, Reasoner) !in old(db).processed ==>
        match old(db).written[e].payload
        case ReasoningRequested(i, p) =>
          if !request.wellFormed then code == 422 && seen == [] && db == old(db)
          else
            && |seen| > 0
            && var was := seen[0].db;
               if i in was.incidents && i in was.withAlerts && p in was.plans && was.plans[p] == i
               then Stores(seen[1..], e, i, p, c, db, code)
               else code == 422 && |seen| == 1 && db == was
        case _ => |seen| == 1 && Marks(seen[0].db, e, Reasoner, db, code)
    {
      seen := [];
      if !request.ready { return 503, seen; }
      MarkedMeansDone(db, e);
      if (e, Reasoner) in db.processed { return 200, seen; }
      if !Handles(db.written[e]) {
        code, seen := Drop(e, c);
        return;
      }
      if !request.wellFormed { return 422, seen; }
      Others(c, None, None);
      seen := [Moment(db, slack)];
      ghost var read := db;
      if !ContextAvailable(db, db.written[e].payload.incident, db.written[e].payload.plan) { return 422, seen; }
      ghost var more;
      code, more := StoreRecommendation(e, c);
      GrowthChains(old(db), read, db);
      assert (seen + more)[1..] == more;
      seen := seen + more;
    }

    /** Look the rows up again after the call, and commit recommendation, event and marker, or recover. */
    method StoreRecommendation(e: Id, c: Choice) returns (code: int, ghost seen: seq<Moment>)
      requires Valid() && FreshFor(db, c) && e in db.written && db.written[e].target == Reasoner && db.written[e].payload.ReasoningRequested?
      modifies this`db, this`slack, this`moments
      ensures Valid() && Grows(old(db), db) && moments == old(moments) + seen
      ensures code in {200, 500} ==> Effect(db, e) && (e, Reasoner) in db.processed
      ensures Stores(seen, e, old(db).written[e].payload.incident, old(db).written[e].payload.plan, c, db, code)
    {
      Others(c, None, None);
      seen := [Moment(db, slack)];
      var i, p := db.written[e].payload.incident, db.written[e].payload.plan;
      if i !in db.incidents || p !in db.plans { return 422, seen; }
      PreCheck(db, e);
      ghost var checked, more := db, [];
      code, more := CommitRecommendation(e, HasRec(db, i), c);
      GrowthChains(old(db), checked, db);
      assert (seen + more)[1..] == more;
      seen := seen + more;
    }

    method CommitRecommendation(e: Id, existing: bool, c: Choice) returns (code: int, ghost seen: seq<Moment>)
      requires Valid() && FreshFor(db, c) && e in db.written && db.written[e].target == Reasoner && db.written[e].payload.ReasoningRequested?
      requires db.written[e].payload.incident in db.incidents && db.written[e].payload.plan in db.plans
      requires existing == HasRec(db, db.written[e].payload.incident) && (existing ==> Effect(db, e))
      modifies this`db, this`slack, this`moments
      ensures Valid() && Grows(old(db), db) && moments == old(moments) + seen
      ensures Effect(db, e) && (e, Reasoner) in db.processed
      ensures CommitsRec(seen, e, old(db).written[e].payload.incident, old(db).written[e].payload.plan, existing, c, db, code)
    {
      var i, p := db.written[e].payload.incident, db.written[e].payload.plan;
      Others(c, Some(db.written[e]), None);
      seen := [Moment(db, slack)];
      EffectLasts(old(db), db);
      MarkedMeansDone(db, e);
      PreCheck(db, e);
      if (e, Reasoner) in db.processed || (!existing && HasRec(db, i)) {
        ghost var lost, more := db, [];
        code, more := AbsorbRace(e, c);
        GrowthChains(old(db), lost, db);
        assert (seen + more)[1..] == more;
        seen := seen + more;
        return;
      }
      ghost var before := db;
      ReasonerCommitKeeps(db, e, existing, c.row, c.event, c.now);
      db := ReasonerCommit(db, e, i, p, existing, c.row, c.event, c.now);
      GrowthChains(old(db), before, db);
      code := 200;
    }

    /** The watcher: its decision and its marker are one commit. */
    method ReceiveAlert(e: Id, request: Request, c: Choice) returns (code: int, ghost seen: seq<Moment>)
      requires Valid() && FreshFor(db, c) && e in db.written && db.written[e].target == Watcher
      modifies this`db, this`slack, this`moments
      ensures Valid() && Grows(old(db), db) && moments == old(moments) + seen
      ensures code in {200, 500} ==> Effect(db, e) && (e, Watcher) in db.processed
      ensures !request.ready ==> code == 503 && seen == [] && db == old(db)
      ensures request.ready && (e, Watcher) in old(db).processed ==> code == 200 && seen == [] && db == old(db)
      ensures request.ready && (e, Watcher) !in old(db).processed ==>
        match old(db).written[e].payload
        case AlertNormalized(i, deduplicated) =>
          if request.wellFormed then Correlates(seen, e, i, deduplicated, c, db, code)
          else code == 422 && seen == [] && db == old(db)
        case _ => |seen| == 1 && Marks(seen[0].db, e, Watcher, db, code)
    {
      seen := [];
      if !request.ready { return 503, seen; }
      MarkedMeansDone(db, e);
      if (e, Watcher) in db.processed { return 200, seen; }
      if !Handles(db.written[e]) {
        code, seen := Drop(e, c);
        return;
      }
      if !request.wellFormed { return 422, seen; }
      code, seen := Correlate(e, c);
    }

    /** Look the incident up, decide, and commit decision and marker. */
    method Correlate(e: Id, c: Choice) returns (code: int, ghost seen: seq<Moment>)
      requires Valid() && FreshFor(db, c) && e in db.written && db.written[e].target == Watcher && db.written[e].payload.AlertNormalized?
      modifies this`db, this`slack, this`moments
      ensures Valid() && Grows(old(db), db) && moments == old(moments) + seen
      ensures code in {200, 500} ==> Effect(db, e) && (e, Watcher) in db.processed
      ensures Correlates(seen, e, old(db).written[e].payload.incident, old(db).written[e].payload.deduplicated, c, db, code)
    {
      Others(c, None, None);
      seen := [Moment(db, slack)];
      var i, deduplicated := db.written[e].payload.incident, db.written[e].payload.deduplicated;
      if i !in db.incidents { return 422, seen; }
      var wanted, suppress := false, false;
      if !deduplicated { wanted, suppress := !c.suppress, c.suppress; }
      ghost var decided := db;
      Others(c, None, None);
      seen := seen + [Moment(db, slack)];
      GrowthChains(old(db), decided, db);
      MarkedMeansDone(db, e);
      if (e, Watcher) in db.processed { return 500, seen; }
      ghost var before := db;
      WatcherCommitKeeps(db, e, wanted, suppress, c.event, c.now);
      db := WatcherCommit(db, e, i, wanted, suppress, c.event, c.now);
      GrowthChains(old(db), before, db);
      code := 200;
    }

    /** Deliver one card with the recommendation's row locked from before the post until after the
        record: the channel gets one card more for it, and the row names that card, or nothing
        happens to either. An incident open before the post ends up investigating, whatever moved
        it meanwhile. */
    method DeliverRca(e: Id, c: Choice) returns (outcome: Delivery, ghost seen: seq<Moment>)
      requires Valid() && FreshFor(db, c) && e in db.written && Handles(db.written[e]) && db.written[e].payload.RecommendationCreated?
      modifies this`db, this`slack, this`moments
      ensures Valid() && Grows(old(db), db) && old(slack) <= slack && moments == old(moments) + seen
      ensures outcome in {AlreadyDelivered, CardDelivered} ==> Effect(db, e)
      ensures Delivers(Moment(old(db), old(slack)), seen, e, old(db).written[e].payload.incident,
                       old(db).written[e].payload.recommendation, c, Moment(db, slack), outcome)
      ensures var r := old(db).written[e].payload.recommendation;
        multiset(slack)[r] == multiset(old(slack))[r] + (if outcome == CardDelivered then 1 else 0)
    {
      seen := [];
      var r, i := db.written[e].payload.recommendation, db.written[e].payload.incident;
      if r !in db.recs { return Missing, seen; }
      if db.recs[r].slackTs.Some? { return AlreadyDelivered, seen; }
      RecordCannotConflict(db, e);
      if i !in db.incidents { return Missing, seen; }
      var read := db.incidents[i];
      ghost var locked := db;
      Others(c, None, Some(r));
      seen := [Moment(db, slack)];
      if !c.posted { return PostFailed, seen; }
      var ts := |slack|;
      slack := slack + [r];
      ghost var posted := db;
      ghost var last := RecordCard(e, ts, read, c);
      GrowthChains(locked, posted, db);
      seen := seen + [last];
      outcome := CardDelivered;
    }

    /** The record of a card just posted, the row still locked. */
    method RecordCard(e: Id, ts: nat, read: Status, c: Choice) returns (ghost last: Moment)
      requires Valid() && FreshFor(db, c) && e in db.written && Handles(db.written[e]) && db.written[e].payload.RecommendationCreated?
      requires db.written[e].payload.recommendation in db.recs && db.recs[db.written[e].payload.recommendation].slackTs.None?
      requires ts < |slack|
      modifies this`db, this`slack, this`moments
      ensures Valid() && Grows(old(db), db) && old(slack) <= slack && Effect(db, e) && moments == old(moments) + [last]
      ensures var r, i := old(db).written[e].payload.recommendation, old(db).written[e].payload.incident;
        slack == last.slack && multiset(slack)[r] == multiset(old(slack))[r] && Records(last.db, e, i, r, ts, read == Open, db)
    {
      var r, i := db.written[e].payload.recommendation, db.written[e].payload.incident;
      Others(c, None, Some(r));
      last := Moment(db, slack);
      RecordCannotConflict(db, e);
      ghost var before := db;
      FeedbackCommitKeeps(db, e, ts, read);
      TheEdges(read, Investigating);
      db := FeedbackCommit(db, e, i, r, ts, read);
      GrowthChains(old(db), before, db);
    }

    /** The feedback service's handler around it. */
    method HandleRecommendation(e: Id, request: Request, c: Choice) returns (code: int, ghost seen: seq<Moment>)
      requires Valid() && FreshFor(db, c) && e in db.written && db.written[e].target == Feedback
      modifies this`db, this`slack, this`moments
      ensures Valid() && Grows(old(db), db) && moments == old(moments) + seen
      ensures code in {200, 500} ==> Effect(db, e)
      ensures !request.ready ==> code == 503 && seen == [] && db == old(db) && slack == old(slack)
      ensures request.ready && (e, Feedback) in old(db).processed ==> code == 200 && seen == [] && db == old(db) && slack == old(slack)
      ensures request.ready && (e, Feedback) !in old(db).processed ==>
        match old(db).written[e].payload
        case RecommendationCreated(i, r) =>
          if !request.wellFormed then code == 422 && seen == [] && db == old(db) && slack == old(slack)
          else
            && |seen| > 0
            && DeliveryAnswers(seen[0], seen[1..], e, i, r, c, Moment(db, slack), code)
            && multiset(slack)[r] == multiset(seen[0].slack)[r] + (if |seen| == 3 then 1 else 0)
        case _ => |seen| == 1 && Marks(seen[0].db, e, Feedback, db, code)
    {
      seen := [];
      if !request.ready { return 503, seen; }
      MarkedMeansDone(db, e);
      if (e, Feedback) in db.processed { return 200, seen; }
      if !Handles(db.written[e]) {
        code, seen := Drop(e, c);
        return;
      }
      if !request.wellFormed { return 422, seen; }
      Others(c, None, None);
      seen := [Moment(db, slack)];
      ghost var gated, more := db, [];
      code, more := AnswerDelivery(e, c);
      GrowthChains(old(db), gated, db);
      assert (seen + more)[1..] == more;
      seen := seen + more;
    }

    method AnswerDelivery(e: Id, c: Choice) returns (code: int, ghost seen: seq<Moment>)
      requires Valid() && FreshFor(db, c) && e in db.written && Handles(db.written[e]) && db.written[e].payload.RecommendationCreated?
      modifies this`db, this`slack, this`moments
      ensures Valid() && Grows(old(db), db) && moments == old(moments) + seen
      ensures code in {200, 500} ==> Effect(db, e)
      ensures var r, i := old(db).written[e].payload.recommendation, old(db).written[e].payload.incident;
        && DeliveryAnswers(Moment(old(db), old(slack)), seen, e, i, r, c, Moment(db, slack), code)
        && multiset(slack)[r] == multiset(old(slack))[r] + (if |seen| == 2 then 1 else 0)
    {
      var outcome;
      outcome, seen := DeliverRca(e, c);
      match outcome
      case PostFailed => code := 503;
      case Missing => code := 422;
      case CardDelivered => code := 200;
      case AlreadyDelivered => code := 200;
    }
  }
}
