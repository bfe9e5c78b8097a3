/** The status of an incident over a run. Delivery decides on the status its session read before the
    post; everybody else moves the status on from what it is. */
module PipelineStatus {
  import opened Lifecycle
  import opened Outbox
  import opened Pipeline
  import opened PipelineInvariant
  import opened PipelineSafety
  import opened PipelineSteps

  /** Handler `h` records a card about incident `i`, which was open when the session read it. */
  ghost predicate Records(s: State, a: Action, h: Id, i: Id) {
    && a.Consume? && a.h == h && PostedAbout(s, h, i)
    && IsValidTransition(s.handlers[h].phase.read, Investigating)
  }

  /** Handler `h` has posted a card about incident `i` and not recorded it yet. */
  ghost predicate PostedAbout(s: State, h: Id, i: Id) {
    && h in s.handlers && s.handlers[h].phase.Posted?
    && s.handlers[h].event in s.db.written && s.db.written[s.handlers[h].event].payload.incident == i
  }

  /** ... and by now somebody has moved the incident on. */
  ghost predicate Overwrites(s: State, a: Action, i: Id) {
    && a.Consume? && Records(s, a, a.h, i)
    && i in s.db.incidents && s.db.incidents[i] != s.handlers[a.h].phase.read
  }

  // ---------------------------------------------------------------- one step

  /** A posted card's incident is not investigating: nobody has been told about it yet. */
  lemma NotYetInvestigating(s: State, h: Id, i: Id)
    requires Inv(s) && PostedAbout(s, h, i)
    ensures i in s.db.incidents && s.db.incidents[i] != Investigating
    ensures s.db.written[s.handlers[h].event].payload.RecommendationCreated?
    ensures var r := s.db.written[s.handlers[h].event].payload.recommendation;
            r in s.db.recs && s.db.recs[r].incident == i && r in s.locks && s.locks[r] == h
  {
    AtHandler(s, h);
    RecordCannotConflict(s.db, s.handlers[h].event);
    AtClause(s, TRUTH);
    assert Truthful(s.db, s.db.written[s.handlers[h].event]);
    AtClause(s, TOLD);
    AtClause(s, KEYS);
  }

  /** The handlers that have posted about one incident are one. */
  lemma PostedOnce(s: State, g: Id, h: Id, i: Id)
    requires Inv(s) && PostedAbout(s, g, i) && PostedAbout(s, h, i)
    ensures g == h
  {
    NotYetInvestigating(s, g, i);
    NotYetInvestigating(s, h, i);
    AtClause(s, KEYS);
  }

  /** A step moves a status along a legal edge or not at all, unless it overwrites it: then the
      incident falls back to investigating. */
  ghost predicate MovesOn(was: Status, now: Status, overwrites: bool) {
    if overwrites then now == Investigating && Rank(now) < Rank(was) else now == was || IsValidTransition(was, now)
  }

  lemma StatusStep(s: State, a: Action, i: Id)
    requires Inv(s) && Enabled(s, a) && i in s.db.incidents && i in Next(s, a).db.incidents
    ensures MovesOn(s.db.incidents[i], Next(s, a).db.incidents[i], Overwrites(s, a, i))
  {
    if a.Consume? {
      ConsumeStatus(s, a.h, a.c, i);
    } else {
      WorldStatus(s, a, i);
    }
  }

  lemma WorldStatus(s: State, a: Action, i: Id)
    requires Enabled(s, a) && !a.Consume? && i in s.db.incidents && i in Next(s, a).db.incidents
    ensures MovesOn(s.db.incidents[i], Next(s, a).db.incidents[i], false)
    ensures Next(s, a).db.incidents[i] != s.db.incidents[i] ==> a.Move? && a.i == i
  {
    if a.Move? {
    } else if IsUpkeep(a) {
      UpkeepMovesNothing(s, a, i);
    } else {
      RowStep(s, a);
    }
  }

  lemma UpkeepMovesNothing(s: State, a: Action, i: Id)
    requires Enabled(s, a) && IsUpkeep(a) && !a.Move? && i in s.db.incidents && i in Next(s, a).db.incidents
    ensures Next(s, a).db.incidents[i] == s.db.incidents[i]
  {
  }

  lemma ConsumeStatus(s: State, h: Id, c: Choice, i: Id)
    requires Inv(s) && CanHandle(s, h, c) && i in s.db.incidents && i in Handle(s, h, c).db.incidents
    ensures MovesOn(s.db.incidents[i], Handle(s, h, c).db.incidents[i], Overwrites(s, Consume(h, c), i))
    ensures Handle(s, h, c).db.incidents[i] != s.db.incidents[i] ==> PostedAbout(s, h, i)
  {
    HandlerStep(s, h, c);
    if s.handlers[h].phase.Posted? {
      RecordedCard(s, h, c);
      if PostedAbout(s, h, i) { NotYetInvestigating(s, h, i); }
    }
  }

  // ---------------------------------------------------------------- whole runs

  /** From `was` to `db` the status is unchanged or strictly further along, and never beyond closed. */
  ghost predicate Climbs(was: Db, db: Db, i: Id) {
    i in was.incidents && i in db.incidents ==>
      was.incidents[i] == db.incidents[i] || Rank(was.incidents[i]) < Rank(db.incidents[i]) <= 3
  }

  /** Up to `n` a status never falls back over any stretch of the run if and only if no record
      overwrites a status that was moved since it was read. */
  lemma StatusClimbs(states: seq<State>, actions: seq<Action>, n: nat, i: Id)
    requires IsRun(states, actions) && n <= |actions|
    ensures (forall k, m :: 0 <= k <= m <= n ==> Climbs(states[k].db, states[m].db, i))
            <==> (forall k :: 0 <= k < n ==> !Overwrites(states[k], actions[k], i))
  {
    if forall k :: 0 <= k < n ==> !Overwrites(states[k], actions[k], i) {
      forall k, m | 0 <= k <= m <= n ensures Climbs(states[k].db, states[m].db, i) {
        ClimbsUnlessOverwritten(states, actions, i, k, m);
      }
    } else {
      var k :| 0 <= k < n && Overwrites(states[k], actions[k], i);
      OverwritingFalls(states, actions, k, i);
    }
  }

  lemma OverwritingFalls(states: seq<State>, actions: seq<Action>, k: nat, i: Id)
    requires IsRun(states, actions) && k < |actions| && Overwrites(states[k], actions[k], i)
    ensures !Climbs(states[k].db, states[k + 1].db, i)
  {
    RunKeeps(states, actions, k);
    assert StepAt(states, actions, k);
    RecordedCard(states[k], actions[k].h, actions[k].c);
    StatusStep(states[k], actions[k], i);
  }

  lemma {:induction false} ClimbsUnlessOverwritten(states: seq<State>, actions: seq<Action>, i: Id, m: nat, n: nat)
    requires IsRun(states, actions) && m <= n <= |actions|
    requires forall k :: m <= k < n ==> !Overwrites(states[k], actions[k], i)
    ensures Climbs(states[m].db, states[n].db, i)
    decreases n
  {
    if m < n && i in states[m].db.incidents && i in states[n].db.incidents {
      RunKeeps(states, actions, n - 1);
      MomentKeeps(states, actions, n - 1);
      StaysOpened(states, actions, i, m, n - 1);
      assert StepAt(states, actions, n - 1);
      StatusStep(states[n - 1], actions[n - 1], i);
      ClimbsUnlessOverwritten(states, actions, i, m, n - 1);
      ClimbsOn(states[m].db, states[n - 1].db, states[n].db, i);
    }
  }

  lemma ClimbsOn(was: Db, before: Db, db: Db, i: Id)
    requires i in before.incidents && i in db.incidents && Climbs(was, before, i)
    requires MovesOn(before.incidents[i], db.incidents[i], false)
    ensures Climbs(was, db, i)
  {
  }

  lemma {:induction false} StaysOpened(states: seq<State>, actions: seq<Action>, i: Id, m: nat, n: nat)
    requires IsRun(states, actions) && m <= n <= |actions| && i in states[m].db.incidents
    ensures i in states[n].db.openedBy
    decreases n
  {
    RunKeeps(states, actions, m);
    AtClause(states[m], KEYS);
    if m < n {
      StaysOpened(states, actions, i, m, n - 1);
      RunKeeps(states, actions, n - 1);
      MomentKeeps(states, actions, n - 1);
    }
  }

  // ---------------------------------------------------------------- when a record overwrites

  /** A status move of incident `i` commits while `h` is between its post and its record. */
  ghost predicate MovedMeanwhile(s: State, a: Action, h: Id, i: Id) {
    a.Move? && a.i == i && PostedAbout(s, h, i)
  }

  /** A record overwrites if and only if the incident was moved between the post and the record. */
  lemma OverwritesIffMovedMeanwhile(states: seq<State>, actions: seq<Action>, n: nat, h: Id, i: Id)
    requires IsRun(states, actions) && n < |actions| && Records(states[n], actions[n], h, i)
    ensures Overwrites(states[n], actions[n], i) <==>
              exists j :: 0 <= j < n && MovedMeanwhile(states[j], actions[j], h, i)
  {
    RunKeeps(states, actions, n);
    NotYetInvestigating(states[n], h, i);
    if states[n].db.incidents[i] != Open {
      MovedSincePosted(states, actions, n, h, i);
    }
    forall j | 0 <= j < n && MovedMeanwhile(states[j], actions[j], h, i)
      ensures states[n].db.incidents[i] != Open
    {
      assert StepAt(states, actions, j);
      NeverOpenAgain(states, actions, i, j + 1, n);
    }
  }

  lemma {:induction false} NeverOpenAgain(states: seq<State>, actions: seq<Action>, i: Id, m: nat, n: nat)
    requires IsRun(states, actions) && m <= n <= |actions|
    requires i in states[m].db.incidents && states[m].db.incidents[i] != Open && i in states[n].db.incidents
    ensures states[n].db.incidents[i] != Open
    decreases n
  {
    if m < n {
      RunKeeps(states, actions, n - 1);
      MomentKeeps(states, actions, n - 1);
      StaysOpened(states, actions, i, m, n - 1);
      NeverOpenAgain(states, actions, i, m, n - 1);
      assert StepAt(states, actions, n - 1);
      StatusStep(states[n - 1], actions[n - 1], i);
      NotOpenedAgain(states[n - 1].db.incidents[i], states[n].db.incidents[i], Overwrites(states[n - 1], actions[n - 1], i));
    }
  }

  lemma NotOpenedAgain(was: Status, now: Status, overwrites: bool)
    requires MovesOn(was, now, overwrites) && was != Open
    ensures now != Open
  {
  }

  lemma {:induction false} MovedSincePosted(states: seq<State>, actions: seq<Action>, n: nat, h: Id, i: Id)
    requires IsRun(states, actions) && n <= |actions| && PostedAbout(states[n], h, i)
    requires states[n].handlers[h].phase.read == Open
    requires i in states[n].db.incidents && states[n].db.incidents[i] != Open
    ensures exists j :: 0 <= j < n && MovedMeanwhile(states[j], actions[j], h, i)
  {
    if n > 0 {
      var s, a := states[n - 1], actions[n - 1];
      RunKeeps(states, actions, n - 1);
      assert StepAt(states, actions, n - 1);
      PostedBefore(s, a, h, i);
      NotYetInvestigating(s, h, i);
      if s.db.incidents[i] != Open {
        MovedSincePosted(states, actions, n - 1, h, i);
      } else {
        OnlyMovesMove(s, a, h, i);
        assert MovedMeanwhile(s, a, h, i);
      }
    }
  }

  /** A handler that has posted did so in an earlier step, or in this one, reading the status then. */
  lemma PostedBefore(s: State, a: Action, h: Id, i: Id)
    requires Inv(s) && Enabled(s, a) && PostedAbout(Next(s, a), h, i)
    requires i in Next(s, a).db.incidents && Next(s, a).db.incidents[i] != Next(s, a).handlers[h].phase.read
    ensures PostedAbout(s, h, i) && s.handlers[h] == Next(s, a).handlers[h]
  {
    if a.Consume? {
      HandlerStep(s, a.h, a.c);
      ConsumeGrows(s, a.h, a.c);
    } else {
      WorldPostsNothing(s, a, h);
    }
    if h in s.handlers { AtHandler(s, h); }
  }

  lemma ConsumeGrows(s: State, h: Id, c: Choice)
    requires Inv(s) && CanHandle(s, h, c)
    ensures Grows(s.db, Handle(s, h, c).db)
  {
    ConsumeKeeps(s, h, c);
  }

  lemma WorldPostsNothing(s: State, a: Action, h: Id)
    requires Enabled(s, a) && !a.Consume? && h in Next(s, a).handlers && Next(s, a).handlers[h].phase.Posted?
    ensures h in s.handlers && s.handlers[h] == Next(s, a).handlers[h]
    ensures forall e :: e in s.db.written ==> e in Next(s, a).db.written && Next(s, a).db.written[e] == s.db.written[e]
  {
    if IsUpkeep(a) {
      UpkeepStep(s, a);
    } else {
      RowStep(s, a);
      HandlersStay(s, a, h);
    }
  }

  lemma OnlyMovesMove(s: State, a: Action, h: Id, i: Id)
    requires Inv(s) && Enabled(s, a) && PostedAbout(s, h, i) && PostedAbout(Next(s, a), h, i)
    requires i in s.db.incidents && i in Next(s, a).db.incidents && Next(s, a).db.incidents[i] != s.db.incidents[i]
    ensures a.Move? && a.i == i
  {
    if a.Consume? {
      ConsumeStatus(s, a.h, a.c, i);
      PostedOnce(s, a.h, h, i);
      RecordIsOwn(s, a.h, a.c);
      assert false;
    } else {
      WorldStatus(s, a, i);
    }
  }
}
