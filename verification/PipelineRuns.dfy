/** Runs that show a condition is needed: an incident planned twice, and a resolved incident put back to
    investigating. */
module PipelineRuns {
  import opened Lifecycle
  import opened Outbox
  import opened Pipeline
  import opened PipelinePlanning
  import opened PipelineStatus

  ghost predicate Idle(s: State, e: Id, w: Id, h: Id) {
    && e in s.db.rows && s.db.rows[e] == NewRow(0) && e in s.db.written && (e, s.db.written[e].target) !in s.db.processed
    && w !in s.workers && h !in s.handlers && forall v :: v in s.workers ==> s.workers[v].turn != Waiting(h)
  }

  /** Worker `w` claims event `e` and hands it to handler `h`. */
  function Delivered(s: State, e: Id, w: Id, h: Id): State {
    s.(db := s.db.(rows := s.db.rows[e := Row(Processing, 0, 0, 0, 0)]),
       workers := s.workers[w := Worker(e, Waiting(h))],
       handlers := s.handlers[h := Handler(e, Start)],
       claims := s.claims + multiset{e})
  }

  lemma Deliver(states: seq<State>, actions: seq<Action>, e: Id, w: Id, h: Id) returns (t: seq<State>, b: seq<Action>)
    requires IsRun(states, actions) && Idle(states[|actions|], e, w, h)
    ensures IsRun(t, b) && t[|b|] == Delivered(states[|actions|], e, w, h)
  {
    var s := states[|actions|];
    t, b := Go(states, actions, Claim(e, w, 0));
    t, b := Go(t, b, Dispatch(w, h));
  }

  /** One step of handler `h` that only moves its phase. */
  lemma Advance(states: seq<State>, actions: seq<Action>, h: Id, c: Choice, phase: Phase)
    returns (t: seq<State>, b: seq<Action>)
    requires IsRun(states, actions) && CanHandle(states[|actions|], h, c)
    requires Handle(states[|actions|], h, c) == SetPhase(states[|actions|], h, phase)
    ensures IsRun(t, b) && t[|b|] == SetPhase(states[|actions|], h, phase)
  {
    t, b := Go(states, actions, Consume(h, c));
  }

  /** The watcher handles event `e` and requests a plan by event `next`. */
  lemma Watch(states: seq<State>, actions: seq<Action>, e: Id, i: Id, w: Id, h: Id, next: Id) returns (t: seq<State>, b: seq<Action>)
    requires IsRun(states, actions)
    requires var s := states[|actions|];
      && Idle(s, e, w, h) && s.db.written[e] == Event(Watcher, AlertNormalized(i, false), Ingestion) && i in s.db.incidents
      && FreshFor(s.db, Choice(next, next, false, true, 0))
    ensures IsRun(t, b)
    ensures var s := Delivered(states[|actions|], e, w, h);
            t[|b|] == Answer(s, h, 200).(db := WatcherCommit(s.db, e, i, true, false, next, 0))
  {
    var c := Choice(next, next, false, true, 0);
    t, b := Deliver(states, actions, e, w, h);
    t, b := Advance(t, b, h, c, Gated);
    t, b := Advance(t, b, h, c, Decided(true, false));
    t, b := Go(t, b, Consume(h, c));
    var s := Delivered(states[|actions|], e, w, h);
    assert SetPhase(SetPhase(s, h, Gated), h, Decided(true, false)) == SetPhase(s, h, Decided(true, false));
  }

  /** The planner handles event `e`, commits plan `p` and writes event `next`. */
  lemma Plan(states: seq<State>, actions: seq<Action>, e: Id, i: Id, w: Id, h: Id, p: Id, next: Id)
    returns (t: seq<State>, b: seq<Action>)
    requires IsRun(states, actions)
    requires var s := states[|actions|];
      && Idle(s, e, w, h) && s.db.written[e].target == Planner && s.db.written[e].payload == PlanRequested(i)
      && i in s.db.incidents && !HasPlan(s.db, i) && FreshFor(s.db, Choice(p, next, false, true, 0))
    ensures IsRun(t, b)
    ensures var s := Delivered(states[|actions|], e, w, h);
            t[|b|] == Answer(s, h, 200).(db := PlannerCommit(s.db, e, i, false, p, next, 0))
  {
    var c := Choice(p, next, false, true, 0);
    t, b := Deliver(states, actions, e, w, h);
    t, b := Advance(t, b, h, c, Gated);
    t, b := Advance(t, b, h, c, Checked(false));
    t, b := Go(t, b, Consume(h, c));
    var s := Delivered(states[|actions|], e, w, h);
    assert SetPhase(SetPhase(s, h, Gated), h, Checked(false)) == SetPhase(s, h, Checked(false));
  }

  /** An incident is opened; event 1 requests its plan. */
  lemma Watched() returns (t: seq<State>, b: seq<Action>)
    ensures IsRun(t, b)
    ensures var s := t[|b|];
      && Idle(s, 1, 1, 1) && s.workers == map[0 := Worker(0, Waiting(0))] && s.handlers == map[0 := Handler(0, Done(200))]
      && s.db.written.Keys == {0, 1} && s.db.written[1] == Event(Planner, PlanRequested(0), By(Watcher)) && s.locks == map[]
      && s.db.incidents == map[0 := Open] && s.db.withAlerts == {0} && s.db.plans == map[] && s.db.planned == map[]
      && s.db.recs == map[] && s.db.processed == {(0, Watcher)}
  {
    t, b := Go([Init], [], OpenIncident(0, 0, 0));
    t, b := Watch(t, b, 0, 0, 0, 0, 1);
  }

  /** An incident is opened and a plan for it requested, and the request is repeated. */
  lemma Requested() returns (t: seq<State>, b: seq<Action>)
    ensures IsRun(t, b)
    ensures var s := t[|b|];
      && Idle(s, 1, 1, 1) && Idle(s, 2, 2, 2) && 0 in s.db.incidents
      && s.db.written[1] == Event(Planner, PlanRequested(0), By(Watcher))
      && s.db.written[2] == Event(Planner, PlanRequested(0), Elsewhere)
      && s.db.written.Keys == {0, 1, 2} && s.db.plans == map[] && s.db.planned == map[] && s.db.recs == map[]
      && s.handlers == map[0 := Handler(0, Done(200))]
      && s.workers == map[0 := Worker(0, Waiting(0))]
  {
    t, b := Watched();
    t, b := Go(t, b, Repeat(1, 2, 0));
  }

  /** Planned, its plan deleted, planned again for the repeated request: one incident, two plans in
      the history. */
  lemma DeletedPlanIsPlannedAgain()
    ensures exists states: seq<State>, actions: seq<Action>, i: Id, p: Id, q: Id ::
              IsRun(states, actions) && p != q && PlannedFor(states[|actions|].db, p, i) && PlannedFor(states[|actions|].db, q, i)
  {
    var t, b := Requested();
    t, b := Plan(t, b, 1, 0, 1, 1, 0, 3);
    t, b := Go(t, b, DeletePlan(0));
    t, b := Plan(t, b, 2, 0, 2, 2, 1, 4);
    assert PlannedFor(t[|b|].db, 0, 0) && PlannedFor(t[|b|].db, 1, 0);
  }

  // ---------------------------------------------------------------- resolved during the post

  /** The reasoner handles event `e`, commits recommendation `r` and writes event `next`. */
  lemma Reason(states: seq<State>, actions: seq<Action>, e: Id, i: Id, p: Id, w: Id, h: Id, r: Id, next: Id)
    returns (t: seq<State>, b: seq<Action>)
    requires IsRun(states, actions)
    requires var s := states[|actions|];
      && Idle(s, e, w, h) && s.db.written[e].target == Reasoner && s.db.written[e].payload == ReasoningRequested(i, p)
      && ContextAvailable(s.db, i, p) && !HasRec(s.db, i) && FreshFor(s.db, Choice(r, next, false, true, 0))
    ensures IsRun(t, b)
    ensures var s := Delivered(states[|actions|], e, w, h);
            t[|b|] == Answer(s, h, 200).(db := ReasonerCommit(s.db, e, i, p, false, r, next, 0))
  {
    var c := Choice(r, next, false, true, 0);
    t, b := Deliver(states, actions, e, w, h);
    t, b := Advance(t, b, h, c, Gated);
    t, b := Advance(t, b, h, c, Thinking);
    t, b := Advance(t, b, h, c, Checked(false));
    t, b := Go(t, b, Consume(h, c));
    var s := Delivered(states[|actions|], e, w, h);
    assert SetPhase(SetPhase(SetPhase(s, h, Gated), h, Thinking), h, Checked(false)) == SetPhase(s, h, Checked(false));
  }

  /** The incident is planned; event 2 requests the reasoning. */
  lemma Planned() returns (t: seq<State>, b: seq<Action>)
    ensures IsRun(t, b)
    ensures var s := t[|b|];
      && Idle(s, 2, 2, 2) && s.workers.Keys == {0, 1} && s.handlers.Keys == {0, 1} && s.locks == map[]
      && (forall v :: v in s.workers ==> s.workers[v].turn != Waiting(3))
      && s.db.written.Keys == {0, 1, 2} && s.db.written[2] == Event(Reasoner, ReasoningRequested(0, 0), By(Planner))
      && s.db.incidents == map[0 := Open] && s.db.withAlerts == {0} && s.db.plans == map[0 := 0] && s.db.planned == map[0 := 0]
      && s.db.recs == map[] && (3, Feedback) !in s.db.processed
  {
    t, b := Watched();
    t, b := Plan(t, b, 1, 0, 1, 1, 0, 2);
  }

  /** The incident is reasoned about; event 3 announces recommendation 1. */
  lemma Recommended() returns (t: seq<State>, b: seq<Action>)
    ensures IsRun(t, b)
    ensures var s := t[|b|];
      && Idle(s, 3, 3, 3) && s.locks == map[]
      && s.db.written.Keys == {0, 1, 2, 3} && s.db.written[3] == Event(Feedback, RecommendationCreated(0, 1), By(Reasoner))
      && s.db.incidents == map[0 := Open] && s.db.plans.Keys == {0} && s.db.planned.Keys == {0}
      && s.db.recs.Keys == {1} && s.db.recs[1].slackTs.None?
  {
    t, b := Planned();
    t, b := Reason(t, b, 2, 0, 0, 2, 2, 1, 3);
  }

  /** The feedback service handles event `e`: it locks recommendation `r` and posts its card. */
  lemma Post(states: seq<State>, actions: seq<Action>, e: Id, i: Id, w: Id, h: Id, r: Id, c: Choice)
    returns (t: seq<State>, b: seq<Action>)
    requires IsRun(states, actions)
    requires var s := states[|actions|];
      && Idle(s, e, w, h) && s.db.written[e].target == Feedback && s.db.written[e].payload == RecommendationCreated(i, r)
      && i in s.db.incidents && r in s.db.recs && s.db.recs[r].slackTs.None? && r !in s.locks
      && FreshFor(s.db, c) && c.posted
    ensures IsRun(t, b)
    ensures var s := Delivered(states[|actions|], e, w, h);
            t[|b|] == SetPhase(s, h, Posted(|s.slack|, s.db.incidents[i])).(locks := s.locks[r := h], slack := s.slack + [r])
  {
    t, b := Deliver(states, actions, e, w, h);
    t, b := Advance(t, b, h, c, Gated);
    t, b := Lock(t, b, h, r, c);
    t, b := PostLocked(t, b, h, i, r, c);
    var s := Delivered(states[|actions|], e, w, h);
    assert SetPhase(SetPhase(SetPhase(s, h, Gated), h, Locked), h, Posted(|s.slack|, s.db.incidents[i]))
           == SetPhase(s, h, Posted(|s.slack|, s.db.incidents[i]));
  }

  lemma PostLocked(states: seq<State>, actions: seq<Action>, h: Id, i: Id, r: Id, c: Choice)
    returns (t: seq<State>, b: seq<Action>)
    requires IsRun(states, actions) && CanHandle(states[|actions|], h, c)
    requires var s := states[|actions|];
      && s.handlers[h].phase.Locked? && s.db.written[s.handlers[h].event].payload == RecommendationCreated(i, r)
      && i in s.db.incidents && r in s.db.recs && s.db.recs[r].slackTs.None? && c.posted
    ensures var s := states[|actions|];
            IsRun(t, b) && t[|b|] == SetPhase(s, h, Posted(|s.slack|, s.db.incidents[i])).(slack := s.slack + [r])
  {
    t, b := Go(states, actions, Consume(h, c));
  }

  lemma Lock(states: seq<State>, actions: seq<Action>, h: Id, r: Id, c: Choice) returns (t: seq<State>, b: seq<Action>)
    requires IsRun(states, actions) && CanHandle(states[|actions|], h, c)
    requires var s := states[|actions|];
      && s.handlers[h].phase.Gated? && s.db.written[s.handlers[h].event].payload.RecommendationCreated?
      && s.db.written[s.handlers[h].event].payload.recommendation == r && r in s.db.recs
    ensures IsRun(t, b) && t[|b|] == SetPhase(states[|actions|], h, Locked).(locks := states[|actions|].locks[r := h])
  {
    t, b := Go(states, actions, Consume(h, c));
  }

  /** Whatever handler `h` read as open is resolved and then recorded as investigating. */
  lemma ResolveAndRecord(states: seq<State>, actions: seq<Action>, e: Id, i: Id, h: Id, r: Id, ts: nat, c: Choice)
    returns (t: seq<State>, b: seq<Action>)
    requires IsRun(states, actions)
    requires var s := states[|actions|];
      && h in s.handlers && s.handlers[h] == Handler(e, Posted(ts, Open)) && e in s.db.written
      && s.db.written[e].payload == RecommendationCreated(i, r) && (e, Feedback) !in s.db.processed
      && i in s.db.incidents && s.db.incidents[i] == Open && r in s.db.recs && FreshFor(s.db, c)
    ensures |b| > 0 && IsRun(t, b)
    ensures var s := t[|b| - 1];
            Overwrites(s, b[|b| - 1], i) && s.db.incidents[i] == Resolved
            && i in t[|b|].db.incidents && t[|b|].db.incidents[i] == Investigating
  {
    t, b := Go(states, actions, Move(i, Resolved));
    t, b := Go(t, b, Consume(h, c));
  }

  /** The incident is resolved while its card is being posted, and the record puts it back to
      investigating: a record overwrites, and the status falls. */
  lemma ResolvedDuringPostIsOverwritten()
    ensures exists states: seq<State>, actions: seq<Action>, n: nat, i: Id ::
              && IsRun(states, actions) && n < |actions| && Overwrites(states[n], actions[n], i)
              && states[n].db.incidents[i] == Resolved
              && i in states[n + 1].db.incidents && states[n + 1].db.incidents[i] == Investigating
  {
    var c := Choice(2, 4, false, true, 0);
    var t, b := Recommended();
    t, b := Post(t, b, 3, 0, 3, 3, 1, c);
    t, b := ResolveAndRecord(t, b, 3, 0, 3, 1, |t[|b|].slack| - 1, c);
    var n := |b| - 1;
    assert Overwrites(t[n], b[n], 0);
  }
}
