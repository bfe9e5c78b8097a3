/** What holds of every run of the pipeline. */
module PipelineTheorems {
  import opened Lifecycle
  import opened Outbox
  import opened Wrappers
  import opened Pipeline
  import opened PipelineInvariant
  import opened PipelineTransactions
  import opened PipelineSafety

  // ---------------------------------------------------------------- nothing is lost

  /** Whatever workers, reapers, operators, crashes and repeats did: an event ever written is
      still an outbox row, or the work it stands for is committed. */
  lemma NoEventIsLost(s: State, e: Id)
    requires Reachable(s) && e in s.db.written
    ensures e in s.db.rows || Effect(s.db, e)
  {
    ReachableSafe(s);
    AtClause(s, KEPT);
  }

  /** Every incident ever opened was suppressed, or its card is recorded as delivered, or some
      outbox row about it is still there for the worker or an operator. */
  lemma EveryIncidentIsAccountedFor(s: State, i: Id)
    requires Reachable(s) && i in s.db.openedBy
    ensures i in s.db.suppressed
            || Told(s.db, i)
            || exists e :: e in s.db.rows && e in s.db.written && s.db.written[e].payload.incident == i
  {
    var db := s.db;
    ReachableSafe(s);
    AtClause(s, OPENINGS);
    AtClause(s, KEPT);
    if i !in db.suppressed && !exists e :: e in db.rows && e in db.written && db.written[e].payload.incident == i {
      var e0 := db.openedBy[i];
      assert db.written[e0].payload.incident == i && Effect(db, e0);
      var e1 :| e1 in db.written && db.written[e1] == PlanRequest(i);
      assert db.written[e1].payload.incident == i && Effect(db, e1);
      var p :| p in db.planned && db.planned[p] == i;
      PlannedIncidentIsTold(s, i, p);
    }
  }

  lemma PlannedIncidentIsTold(s: State, i: Id, p: Id)
    requires Inv(s) && p in s.db.planned && s.db.planned[p] == i
    requires !exists e :: e in s.db.rows && e in s.db.written && s.db.written[e].payload.incident == i
    ensures Told(s.db, i)
  {
    var db := s.db;
    AtClause(s, SUCCESSORS);
    AtClause(s, KEPT);
    assert Wrote(db, Reasoning(db.planned[p], p));
    var e2 :| e2 in db.written && db.written[e2] == Reasoning(i, p);
    assert db.written[e2].payload.incident == i && Effect(db, e2);
    var r :| r in db.recs && db.recs[r].incident == i;
    assert Wrote(db, Announcement(db.recs[r].incident, r));
    var e3 :| e3 in db.written && db.written[e3] == Announcement(i, r);
    assert db.written[e3].payload.incident == i && Effect(db, e3);
  }

  // ---------------------------------------------------------------- effects happen once

  ghost predicate ExactlyOne(db: Db, ev: Event) {
    exists e :: e in db.written && db.written[e] == ev && forall f :: f in db.written && db.written[f] == ev ==> f == e
  }

  lemma WrittenOnce(s: State, ev: Event)
    requires Inv(s) && Wrote(s.db, ev) && !Repeatable(ev)
    ensures ExactlyOne(s.db, ev)
  {
    AtClause(s, ONCE);
    var e :| e in s.db.written && s.db.written[e] == ev;
    forall f | f in s.db.written && s.db.written[f] == ev ensures f == e {}
  }

  /** Per incident: one plan request by the watcher, one plan row, one recommendation. */
  lemma OnceOnly(s: State, i: Id)
    requires Reachable(s)
    ensures Wrote(s.db, PlanRequest(i)) ==> ExactlyOne(s.db, PlanRequest(i))
    ensures forall p, q :: p in s.db.plans && q in s.db.plans && s.db.plans[p] == i && s.db.plans[q] == i ==> p == q
    ensures forall q, r :: q in s.db.recs && r in s.db.recs && s.db.recs[q].incident == i && s.db.recs[r].incident == i ==> q == r
  {
    ReachableSafe(s);
    AtClause(s, KEYS);
    if Wrote(s.db, PlanRequest(i)) { WrittenOnce(s, PlanRequest(i)); }
  }

  /** Every plan ever committed was handed to the reasoner by exactly one event of the planner's,
      and any other event the planner wrote is about another plan. */
  lemma OneSuccessorPerPlan(s: State, p: Id)
    requires Reachable(s) && p in s.db.planned
    ensures ExactlyOne(s.db, Reasoning(s.db.planned[p], p))
    ensures forall e :: e in s.db.written && s.db.written[e].origin == By(Planner) ==>
              s.db.written[e].payload.ReasoningRequested?
              && (s.db.written[e].payload.plan == p ==> s.db.written[e] == Reasoning(s.db.planned[p], p))
  {
    ReachableSafe(s);
    AtClause(s, SUCCESSORS);
    assert Wrote(s.db, Reasoning(s.db.planned[p], p));
    WrittenOnce(s, Reasoning(s.db.planned[p], p));
    AtClause(s, TRUTH);
    forall e | e in s.db.written && s.db.written[e].origin == By(Planner)
      ensures s.db.written[e].payload.ReasoningRequested?
              && (s.db.written[e].payload.plan == p ==> s.db.written[e] == Reasoning(s.db.planned[p], p))
    {
      assert Truthful(s.db, s.db.written[e]);
    }
  }

  lemma OneSuccessorPerRecommendation(s: State, r: Id)
    requires Reachable(s) && r in s.db.recs
    ensures ExactlyOne(s.db, Announcement(s.db.recs[r].incident, r))
    ensures forall e :: e in s.db.written && s.db.written[e].origin == By(Reasoner) ==>
              s.db.written[e].payload.RecommendationCreated?
              && (s.db.written[e].payload.recommendation == r ==> s.db.written[e] == Announcement(s.db.recs[r].incident, r))
  {
    ReachableSafe(s);
    AtClause(s, SUCCESSORS);
    assert Wrote(s.db, Announcement(s.db.recs[r].incident, r));
    WrittenOnce(s, Announcement(s.db.recs[r].incident, r));
    AtClause(s, TRUTH);
    forall e | e in s.db.written && s.db.written[e].origin == By(Reasoner)
      ensures s.db.written[e].payload.RecommendationCreated?
              && (s.db.written[e].payload.recommendation == r ==> s.db.written[e] == Announcement(s.db.recs[r].incident, r))
    {
      assert Truthful(s.db, s.db.written[e]);
    }
  }

  // ---------------------------------------------------------------- markers

  /** A committed marker for an event its consumer handles means the work exists: for the planner
      a plan was committed for the incident, for the reasoner the recommendation is there, for
      the feedback service the card is recorded. */
  lemma MarkerNeverAheadOfWork(s: State, e: Id)
    requires Reachable(s) && e in s.db.written && (e, s.db.written[e].target) in s.db.processed
    ensures Effect(s.db, e)
    ensures Handles(s.db.written[e]) && s.db.written[e].payload.RecommendationCreated? ==>
              Told(s.db, s.db.written[e].payload.incident)
  {
    ReachableSafe(s);
    AtClause(s, TRUTH);
    MarkedMeansDone(s.db, e);
    assert Truthful(s.db, s.db.written[e]);
    if Handles(s.db.written[e]) && s.db.written[e].payload.RecommendationCreated? {
      var r := s.db.written[e].payload.recommendation;
      assert s.db.recs[r].incident == s.db.written[e].payload.incident;
    }
  }

  /** A handler that answers 2xx, for whatever reason, leaves the work committed. */
  lemma SuccessMeansDone(s: State, h: Id)
    requires Reachable(s) && h in s.handlers && s.handlers[h].phase.Done?
    requires Classify(s.handlers[h].phase.code) == Delivered
    ensures s.handlers[h].event in s.db.written && Effect(s.db, s.handlers[h].event)
  {
    ReachableSafe(s);
    AtHandler(s, h);
  }

  // ---------------------------------------------------------------- cards

  /** Cards in the channel for one recommendation: the recorded one, those whose transaction died
      after the post, and the one a lock holder has just posted. */
  lemma CardsAreCounted(s: State, r: Id)
    requires Reachable(s)
    ensures multiset(s.slack)[r] ==
              (if r in s.db.recs && s.db.recs[r].slackTs.Some? then 1 else 0) + s.died[r] + InFlight(s, r)
    ensures r in s.db.recs && s.db.recs[r].slackTs.Some? ==>
              s.db.recs[r].slackTs.value < |s.slack| && s.slack[s.db.recs[r].slackTs.value] == r
  {
    ReachableSafe(s);
    AtCard(s, r);
  }

  predicate HasCard(s: State, h: Id)
    requires h in s.handlers
  {
    s.handlers[h].phase.Locked? || s.handlers[h].phase.Posted?
  }

  /** No two recommendations claim one message, and two handlers are never both at work on one
      recommendation's card. */
  lemma CardsAreExclusive(s: State, q: Id, r: Id, g: Id, h: Id)
    requires Reachable(s) && q in s.db.recs && r in s.db.recs && g in s.handlers && h in s.handlers
    ensures s.db.recs[q].slackTs.Some? && s.db.recs[q].slackTs == s.db.recs[r].slackTs ==> q == r
    ensures s.handlers[g].event in s.db.written && s.handlers[h].event in s.db.written
    ensures HasCard(s, g) && HasCard(s, h)
            && s.db.written[s.handlers[g].event].payload == s.db.written[s.handlers[h].event].payload
            ==> g == h
  {
    ReachableSafe(s);
    AtCard(s, q);
    AtCard(s, r);
    AtHandler(s, g);
    AtHandler(s, h);
  }

  /** With the lock held, recording a posted card always succeeds: a card goes unrecorded only
      when its handler fails or dies between the post and the commit. */
  lemma PostedCardIsRecorded(s: State, h: Id, c: Choice)
    requires Reachable(s) && CanHandle(s, h, c) && s.handlers[h].phase.Posted?
    ensures Handle(s, h, c).handlers[h].phase == Done(200)
    ensures Handle(s, h, c).db.recs[s.db.written[s.handlers[h].event].payload.recommendation].slackTs == Some(s.handlers[h].phase.ts)
    ensures Handle(s, h, c).died == s.died
  {
    ReachableSafe(s);
    AtHandler(s, h);
    RecordCannotConflict(s.db, s.handlers[h].event);
  }

  /** The guard on a handler's step excludes nothing but waiting for another's row lock. */
  lemma OnlyLocksBlock(s: State, h: Id, c: Choice)
    requires Reachable(s) && h in s.handlers && !s.handlers[h].phase.Done? && FreshFor(s.db, c)
    ensures CanHandle(s, h, c) <==>
              !(s.handlers[h].event in s.db.written && s.handlers[h].phase.Gated?
                && s.db.written[s.handlers[h].event].payload.RecommendationCreated?
                && s.db.written[s.handlers[h].event].payload.recommendation in s.locks)
  {
    ReachableSafe(s);
    AtHandler(s, h);
  }

  // ---------------------------------------------------------------- what lasts

  /** What a run has committed it keeps: events, markers, plans' histories, recommendations,
      recorded cards; and every effect with them. */
  lemma {:induction false} RunOnlyGrows(states: seq<State>, actions: seq<Action>, m: nat, n: nat)
    requires IsRun(states, actions) && m <= n <= |actions|
    ensures Grows(states[m].db, states[n].db)
    ensures forall e :: e in states[m].db.written && Effect(states[m].db, e) ==>
              e in states[n].db.written && Effect(states[n].db, e)
    decreases n
  {
    if m < n {
      RunOnlyGrows(states, actions, m, n - 1);
      RunKeeps(states, actions, n - 1);
      MomentKeeps(states, actions, n - 1);
      GrowthChains(states[m].db, states[n - 1].db, states[n].db);
    }
    EffectLasts(states[m].db, states[n].db);
  }

  lemma GrowthChains(a: Db, b: Db, c: Db)
    requires Grows(a, b) && Grows(b, c)
    ensures Grows(a, c)
  {
  }

  /** `investigating` means a human has been told. */
  lemma InvestigatingMeansDelivered(s: State, i: Id)
    requires Reachable(s) && i in s.db.incidents && s.db.incidents[i] == Investigating
    ensures exists r :: r in s.db.recs && s.db.recs[r].incident == i && s.db.recs[r].slackTs.Some? && r in s.slack
  {
    ReachableSafe(s);
    AtClause(s, TOLD);
    assert Told(s.db, i);
    var r :| r in s.db.recs && s.db.recs[r].incident == i && s.db.recs[r].slackTs.Some?;
    AtCard(s, r);
    assert s.slack[s.db.recs[r].slackTs.value] == r;
  }
}
