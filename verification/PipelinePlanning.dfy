/** How often an incident is planned over a run. */
module PipelinePlanning {
  import opened Lifecycle
  import opened Outbox
  import opened Pipeline
  import opened PipelineInvariant
  import opened PipelineSafety
  import opened PipelineSteps
  import opened PipelineTheorems

  /** Plan `p` was committed for incident `i`, whether its row is still there or not. */
  predicate PlannedFor(db: Db, p: Id, i: Id) {
    p in db.planned && db.planned[p] == i
  }

  /** The planner's commit for incident `i` that found no plan row, neither at its pre-check nor at
      its insert, and no marker. */
  ghost predicate CommitsPlan(s: State, a: Action, i: Id) {
    && a.Consume? && a.h in s.handlers && s.handlers[a.h].phase == Checked(false)
    && s.handlers[a.h].event in s.db.written && s.db.written[s.handlers[a.h].event].payload == PlanRequested(i)
    && (s.handlers[a.h].event, Planner) !in s.db.processed && !HasPlan(s.db, i)
  }

  /** ... for an incident that was planned before: every plan row it had is gone. */
  ghost predicate Replans(s: State, a: Action, i: Id) {
    CommitsPlan(s, a, i) && exists p :: PlannedFor(s.db, p, i)
  }

  ghost predicate PlannedTwice(db: Db, i: Id) {
    exists p, q :: p != q && PlannedFor(db, p, i) && PlannedFor(db, q, i)
  }

  // ---------------------------------------------------------------- one step

  /** A step adds to an incident's plans exactly when it commits one, and then that one. */
  lemma PlanningStep(s: State, a: Action, i: Id)
    requires Inv(s) && Enabled(s, a)
    ensures CommitsPlan(s, a, i) ==> PlannedFor(Next(s, a).db, a.c.row, i) && a.c.row !in s.db.planned
    ensures forall p :: PlannedFor(Next(s, a).db, p, i) && !PlannedFor(s.db, p, i) ==> CommitsPlan(s, a, i) && p == a.c.row
  {
    if a.Consume? {
      ConsumePlanning(s, a.h, a.c, i);
    } else if IsUpkeep(a) {
      UpkeepStep(s, a);
    } else {
      RowStep(s, a);
    }
  }

  lemma ConsumePlanning(s: State, h: Id, c: Choice, i: Id)
    requires Inv(s) && CanHandle(s, h, c)
    ensures CommitsPlan(s, Consume(h, c), i) ==> PlannedFor(Handle(s, h, c).db, c.row, i) && c.row !in s.db.planned
    ensures forall p :: PlannedFor(Handle(s, h, c).db, p, i) && !PlannedFor(s.db, p, i) ==>
              CommitsPlan(s, Consume(h, c), i) && p == c.row
  {
    HandlerStep(s, h, c);
    if s.handlers[h].phase.Checked? {
      AtHandler(s, h);
      CheckedStep(s, h, c);
    }
  }

  // ---------------------------------------------------------------- whole runs

  /** An incident has been planned twice by moment `n` if and only if some earlier step committed a plan
      for it when all the plans it had before had been deleted. */
  lemma PlannedTwiceIffReplanned(states: seq<State>, actions: seq<Action>, n: nat, i: Id)
    requires IsRun(states, actions) && n <= |actions|
    ensures PlannedTwice(states[n].db, i) <==> exists k :: 0 <= k < n && Replans(states[k], actions[k], i)
  {
    if PlannedTwice(states[n].db, i) {
      TwiceMeansReplanned(states, actions, n, i);
    }
    forall k | 0 <= k < n && Replans(states[k], actions[k], i) ensures PlannedTwice(states[n].db, i) {
      RunKeeps(states, actions, k);
      assert StepAt(states, actions, k);
      PlanningStep(states[k], actions[k], i);
      RunOnlyGrows(states, actions, k, n);
      RunOnlyGrows(states, actions, k + 1, n);
      var p :| PlannedFor(states[k].db, p, i);
      assert PlannedFor(states[n].db, p, i) && PlannedFor(states[n].db, actions[k].c.row, i);
    }
  }

  lemma {:induction false} TwiceMeansReplanned(states: seq<State>, actions: seq<Action>, n: nat, i: Id)
    requires IsRun(states, actions) && n <= |actions| && PlannedTwice(states[n].db, i)
    ensures exists k :: 0 <= k < n && Replans(states[k], actions[k], i)
  {
    var p, q :| p != q && PlannedFor(states[n].db, p, i) && PlannedFor(states[n].db, q, i);
    if n > 0 {
      var s, a := states[n - 1], actions[n - 1];
      RunKeeps(states, actions, n - 1);
      assert StepAt(states, actions, n - 1);
      PlanningStep(s, a, i);
      if PlannedFor(s.db, p, i) && PlannedFor(s.db, q, i) {
        TwiceMeansReplanned(states, actions, n - 1, i);
      } else {
        assert PlannedFor(s.db, p, i) || PlannedFor(s.db, q, i);
        assert Replans(s, a, i);
      }
    }
  }

  // ---------------------------------------------------------------- only after a deletion

  /** A step that deletes a plan of incident `i`. */
  ghost predicate DeletesPlanOf(s: State, a: Action, i: Id) {
    a.DeletePlan? && a.p in s.db.plans && s.db.plans[a.p] == i
  }

  lemma PlansOfStay(states: seq<State>, actions: seq<Action>, k: nat, i: Id)
    requires IsRun(states, actions) && k < |actions| && Inv(states[k]) && !DeletesPlanOf(states[k], actions[k], i)
    ensures forall p :: p in states[k].db.plans && states[k].db.plans[p] == i ==> p in states[k + 1].db.plans
    ensures Grows(states[k].db, states[k + 1].db)
    ensures forall p :: p in states[k + 1].db.planned && p !in states[k].db.planned ==> p in states[k + 1].db.plans
  {
    assert StepAt(states, actions, k);
    MomentKeeps(states, actions, k);
  }

  /** A plan's row can be deleted and the incident planned again; while no plan of its own is
      deleted, an incident is planned once over the whole run. */
  lemma {:induction false} PlannedOnce(states: seq<State>, actions: seq<Action>, n: nat, i: Id)
    requires IsRun(states, actions) && n <= |actions|
    requires forall k :: 0 <= k < n ==> !DeletesPlanOf(states[k], actions[k], i)
    ensures forall p :: PlannedFor(states[n].db, p, i) ==> p in states[n].db.plans
    ensures forall p, q :: PlannedFor(states[n].db, p, i) && PlannedFor(states[n].db, q, i) ==> p == q
  {
    RunKeeps(states, actions, n);
    AtClause(states[n], KEYS);
    if n > 0 {
      PlannedOnce(states, actions, n - 1, i);
      RunKeeps(states, actions, n - 1);
      AtClause(states[n - 1], KEYS);
      PlansOfStay(states, actions, n - 1, i);
    } else {
    }
  }
}
