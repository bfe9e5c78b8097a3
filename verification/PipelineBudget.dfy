/** How often one event is claimed. A recording transaction reads its row without a lock and writes
    only changed columns, so it can put an older attempt count back. Whether five claims stay the
    limit is decided record by record. */
module PipelineBudget {
  import opened Lifecycle
  import opened Outbox
  import opened Pipeline
  import opened PipelineInvariant
  import opened PipelineSafety
  import opened PipelineSteps

  // ---------------------------------------------------------------- one row

  /** How many more claims a row is good for while it is only claimed and reaped. */
  function Left(row: Row): nat {
    match row.status
    case Pending => if row.attempts < MAX_ATTEMPTS then MAX_ATTEMPTS - row.attempts else 1
    case Processing => if row.attempts + 1 < MAX_ATTEMPTS then MAX_ATTEMPTS - row.attempts - 1 else 0
    case DeadLetter => 0
  }

  predicate RowInBudget(row: Row, claims: nat) {
    claims + Left(row) <= MAX_ATTEMPTS
  }

  /** A claim uses one of the claims left, and a reap none. */
  lemma ClaimsAndReapsPay(row: Row, now: int)
    ensures row.status == Pending ==> Left(ClaimRow(row, now)) + 1 == Left(row)
    ensures row.status == Processing ==> Left(MarkFailed(row, now, true)) == Left(row)
  {
  }

  /** The status a recorded failure leaves: the one wanted if the row was read in another one,
      otherwise whatever the row has by then. */
  function StatusLeft(row: Row, seen: Row, outcome: Outcome): RowStatus {
    var wanted := if outcome == Permanent || seen.attempts + 1 >= MAX_ATTEMPTS then DeadLetter else Pending;
    if wanted == seen.status then row.status else wanted
  }

  /** The count a record leaves is one more than it read. That must cover the claims so far, one more
      of them when the row is left to somebody processing it. */
  predicate Harmless(row: Row, seen: Row, outcome: Outcome, claims: nat) {
    match StatusLeft(row, seen, outcome)
    case DeadLetter => claims <= MAX_ATTEMPTS
    case Pending => claims <= seen.attempts + 1 && claims < MAX_ATTEMPTS
    case Processing => claims <= seen.attempts + 2 && claims <= MAX_ATTEMPTS
  }

  /** Whatever row was read, whatever it has become and however often it was claimed. */
  lemma RecordKeepsBudgetIffHarmless(row: Row, seen: Row, outcome: Outcome, now: int, claims: nat)
    requires outcome != Delivered
    ensures RowInBudget(WriteBack(row, seen, Failed(seen, outcome, now)), claims) <==> Harmless(row, seen, outcome, claims)
  {
    var after := WriteBack(row, seen, Failed(seen, outcome, now));
    assert after.attempts == seen.attempts + 1 && after.status == StatusLeft(row, seen, outcome);
  }

  /** The claims a row's attempts pay for exactly. */
  function Paid(row: Row): nat {
    row.attempts + if row.status == Processing then 1 else 0
  }

  /** A live row with attempts to spare is within budget if and only if they pay for its claims. */
  lemma InBudgetIffPaid(row: Row, claims: nat)
    requires row.status != DeadLetter && row.attempts < MAX_ATTEMPTS
    ensures RowInBudget(row, claims) <==> claims <= Paid(row)
  {
  }

  /** For a row whose claims are just paid for, a retryable failure is harmless if and only if nobody has
      claimed the row again since it was read, the current claim aside when it was read re-pended. */
  lemma HarmlessIffNotReclaimed(row: Row, seen: Row)
    requires seen.attempts + 1 < MAX_ATTEMPTS && row.status != DeadLetter
    ensures Harmless(row, seen, Retryable, Paid(row)) <==>
              Paid(row) <= seen.attempts + 1 + if seen.status == Pending && row.status == Processing then 1 else 0
  {
    assert StatusLeft(row, seen, Retryable) == if seen.status == Pending then row.status else Pending;
  }

  // ---------------------------------------------------------------- one step

  /** The claims of an event so far and those its row is still good for. */
  ghost function Potential(s: State, e: Id): nat {
    s.claims[e] + if e in s.db.rows then Left(s.db.rows[e]) else 0
  }

  /** A failure of event `e` is recorded, and it is not harmless. */
  ghost predicate Harms(s: State, a: Action, e: Id) {
    && a.Record? && a.w in s.workers && s.workers[a.w].event == e && s.workers[a.w].turn.Fetched? && e in s.db.rows
    && s.workers[a.w].turn.outcome != Delivered
    && !Harmless(s.db.rows[e], s.workers[a.w].turn.seen, s.workers[a.w].turn.outcome, s.claims[e])
  }

  ghost predicate ClaimedIsWritten(s: State, e: Id) {
    s.claims[e] > 0 ==> e in s.db.written
  }

  /** Short of a requeue, a step leaves the budget if and only if it harms. */
  ghost predicate Budgets(s: State, t: State, e: Id, harms: bool) {
    if harms then Potential(t, e) > MAX_ATTEMPTS
    else Potential(s, e) <= MAX_ATTEMPTS ==> Potential(t, e) <= MAX_ATTEMPTS
  }

  lemma PotentialStep(s: State, a: Action, e: Id)
    requires Inv(s) && Enabled(s, a) && !a.Requeue? && ClaimedIsWritten(s, e)
    ensures Budgets(s, Next(s, a), e, Harms(s, a, e))
  {
    AtClause(s, KEYS);
    match a
    case Consume(h, c) => ConsumePotential(s, h, c, e);
    case Record(w, now) => RecordPotential(s, w, now, e);
    case Claim(f, w, now) => ClaimPotential(s, f, w, now, e);
    case Reap(f, now, age) => ReapPotential(s, f, now, age, e);
    case Requeue(_, _, _) =>
    case _ => QuietPotential(s, a, e);
  }

  lemma ConsumePotential(s: State, h: Id, c: Choice, e: Id)
    requires Inv(s) && CanHandle(s, h, c) && ClaimedIsWritten(s, e)
    ensures Budgets(s, Handle(s, h, c), e, false)
  {
    ConsumeKeeps(s, h, c);
    HandlerStep(s, h, c);
    RowsAdded(s, Handle(s, h, c), e);
  }

  lemma RowsAdded(s: State, t: State, e: Id)
    requires OnlyNewRows(s.db, t.db) && t.claims == s.claims && ClaimedIsWritten(s, e)
    ensures Budgets(s, t, e, false)
  {
  }

  lemma ClaimPotential(s: State, f: Id, w: Id, now: int, e: Id)
    requires Enabled(s, Claim(f, w, now))
    ensures Potential(Next(s, Claim(f, w, now)), e) == Potential(s, e)
  {
    ClaimsAndReapsPay(s.db.rows[f], now);
  }

  lemma ReapPotential(s: State, f: Id, now: int, age: int, e: Id)
    requires Enabled(s, Reap(f, now, age))
    ensures Potential(Next(s, Reap(f, now, age)), e) == Potential(s, e)
  {
    ClaimsAndReapsPay(s.db.rows[f], now);
  }

  lemma RecordPotential(s: State, w: Id, now: int, e: Id)
    requires Enabled(s, Record(w, now))
    ensures Budgets(s, Next(s, Record(w, now)), e, Harms(s, Record(w, now), e))
  {
    var Worker(f, Fetched(outcome, seen)) := s.workers[w];
    OutcomePotential(s, f, outcome, seen, now, e);
  }

  lemma OutcomePotential(s: State, f: Id, outcome: Outcome, seen: Row, now: int, e: Id)
    ensures Budgets(s, RecordOutcome(s, f, outcome, seen, now), e,
                    f == e && e in s.db.rows && outcome != Delivered && !Harmless(s.db.rows[e], seen, outcome, s.claims[e]))
  {
    if f == e && e in s.db.rows && outcome != Delivered {
      RecordKeepsBudgetIffHarmless(s.db.rows[e], seen, outcome, now, s.claims[e]);
    }
  }

  lemma QuietPotential(s: State, a: Action, e: Id)
    requires Enabled(s, a) && ClaimedIsWritten(s, e) && s.db.rows.Keys <= s.db.written.Keys
    requires !a.Consume? && !a.Record? && !a.Claim? && !a.Reap? && !a.Requeue?
    ensures Budgets(s, Next(s, a), e, false)
  {
    QuietRows(s, a);
    RowsAdded(s, Next(s, a), e);
  }

  lemma QuietRows(s: State, a: Action)
    requires Enabled(s, a) && s.db.rows.Keys <= s.db.written.Keys
    requires !a.Consume? && !a.Record? && !a.Claim? && !a.Reap? && !a.Requeue?
    ensures OnlyNewRows(s.db, Next(s, a).db) && Next(s, a).claims == s.claims
  {
  }

  lemma ClaimsStep(s: State, a: Action, e: Id)
    requires Inv(s) && Enabled(s, a) && ClaimedIsWritten(s, e)
    ensures ClaimedIsWritten(Next(s, a), e)
  {
    AtClause(s, KEYS);
    StepKeeps(s, a);
    if a.Consume? { HandlerStep(s, a.h, a.c); }
  }

  // ---------------------------------------------------------------- whole runs

  ghost predicate StaysInBudget(states: seq<State>, n: nat, e: Id)
    requires n < |states|
  {
    forall k :: 0 <= k <= n ==> Potential(states[k], e) <= MAX_ATTEMPTS
  }

  /** Without requeues the claims made and those still to come stay within five up to moment `n` if and
      only if no record before it was harmful, whatever crashes and however early the reaper comes. */
  lemma {:induction false} BudgetIffHarmless(states: seq<State>, actions: seq<Action>, n: nat, e: Id)
    requires IsRun(states, actions) && n <= |actions|
    requires forall k :: 0 <= k < n ==> !actions[k].Requeue?
    ensures StaysInBudget(states, n, e) <==> forall k :: 0 <= k < n ==> !Harms(states[k], actions[k], e)
    ensures ClaimedIsWritten(states[n], e)
  {
    if n == 0 {
      assert states[0] == Init;
    } else {
      BudgetIffHarmless(states, actions, n - 1, e);
      RunKeeps(states, actions, n - 1);
      assert StepAt(states, actions, n - 1);
      PotentialStep(states[n - 1], actions[n - 1], e);
      ClaimsStep(states[n - 1], actions[n - 1], e);
    }
  }

  /** So, requeues aside, no event whose records are harmless is claimed more than five times. */
  lemma FreshRunsClaimAtMost(states: seq<State>, actions: seq<Action>, n: nat, e: Id)
    requires IsRun(states, actions) && n <= |actions|
    requires forall k :: 0 <= k < n ==> !actions[k].Requeue? && !Harms(states[k], actions[k], e)
    ensures states[n].claims[e] <= MAX_ATTEMPTS
  {
    BudgetIffHarmless(states, actions, n, e);
    assert Potential(states[n], e) <= MAX_ATTEMPTS;
  }

  // ---------------------------------------------------------------- what can still come of a state

  /** `states` goes on from `s`. */
  ghost predicate IsPath(s: State, states: seq<State>, actions: seq<Action>) {
    && |states| == |actions| + 1
    && states[0] == s
    && forall k :: 0 <= k < |actions| ==> StepAt(states, actions, k)
  }

  /** Nobody requeues, and no record harms event `e`. */
  ghost predicate Careful(states: seq<State>, actions: seq<Action>, e: Id)
    requires |states| == |actions| + 1
  {
    forall k :: 0 <= k < |actions| ==> !actions[k].Requeue? && !Harms(states[k], actions[k], e)
  }

  /** From a reachable state an event can be claimed beyond the limit, with no requeue and no further
      harmful record, if and only if its claims so far and those its row is good for exceed it: for a
      live row with attempts to spare, if and only if its attempts no longer pay for its claims. */
  lemma OverclaimedIffOverBudget(s: State, e: Id)
    requires Reachable(s)
    ensures (exists states: seq<State>, actions: seq<Action> ::
               IsPath(s, states, actions) && Careful(states, actions, e) && states[|actions|].claims[e] > MAX_ATTEMPTS)
            <==> Potential(s, e) > MAX_ATTEMPTS
    ensures e in s.db.rows && s.db.rows[e].status != DeadLetter && s.db.rows[e].attempts < MAX_ATTEMPTS ==>
              (Potential(s, e) > MAX_ATTEMPTS <==> s.claims[e] > Paid(s.db.rows[e]))
  {
    ReachableSafe(s);
    ReachableClaims(s, e);
    if e in s.db.rows && s.db.rows[e].status != DeadLetter && s.db.rows[e].attempts < MAX_ATTEMPTS {
      InBudgetIffPaid(s.db.rows[e], s.claims[e]);
    }
    if Potential(s, e) <= MAX_ATTEMPTS {
      forall states: seq<State>, actions: seq<Action> | IsPath(s, states, actions) && Careful(states, actions, e)
        ensures states[|actions|].claims[e] <= MAX_ATTEMPTS
      {
        CarefulStaysInBudget(s, states, actions, |actions|, e);
      }
    } else {
      var states, actions := ClaimOn(s, e);
      assert IsPath(s, states, actions) && Careful(states, actions, e) && states[|actions|].claims[e] > MAX_ATTEMPTS;
    }
  }

  lemma ReachableClaims(s: State, e: Id)
    requires Reachable(s)
    ensures ClaimedIsWritten(s, e)
  {
    var states, actions :| IsRun(states, actions) && states[|actions|] == s;
    RunClaims(states, actions, |actions|, e);
  }

  lemma {:induction false} RunClaims(states: seq<State>, actions: seq<Action>, n: nat, e: Id)
    requires IsRun(states, actions) && n <= |actions|
    ensures ClaimedIsWritten(states[n], e)
  {
    if n == 0 {
      assert states[0] == Init;
    } else {
      RunClaims(states, actions, n - 1, e);
      RunKeeps(states, actions, n - 1);
      assert StepAt(states, actions, n - 1);
      ClaimsStep(states[n - 1], actions[n - 1], e);
    }
  }

  lemma {:induction false} CarefulStaysInBudget(s: State, states: seq<State>, actions: seq<Action>, n: nat, e: Id)
    requires Inv(s) && ClaimedIsWritten(s, e) && Potential(s, e) <= MAX_ATTEMPTS
    requires IsPath(s, states, actions) && Careful(states, actions, e) && n <= |actions|
    ensures Inv(states[n]) && ClaimedIsWritten(states[n], e) && Potential(states[n], e) <= MAX_ATTEMPTS
  {
    if n > 0 {
      CarefulStaysInBudget(s, states, actions, n - 1, e);
      assert StepAt(states, actions, n - 1);
      PotentialStep(states[n - 1], actions[n - 1], e);
      ClaimsStep(states[n - 1], actions[n - 1], e);
      StepKeeps(states[n - 1], actions[n - 1]);
    }
  }

  /** The age in seconds at which the reaper takes a row back. */
  const STUCK_AFTER: int := 60

  /** Claimed and reaped in turn, an event comes to all the claims its row is good for. */
  lemma {:induction false} ClaimOn(s: State, e: Id) returns (states: seq<State>, actions: seq<Action>)
    ensures IsPath(s, states, actions) && Careful(states, actions, e)
    ensures forall k :: 0 <= k < |actions| ==> actions[k].Claim? || (actions[k].Reap? && actions[k].age == STUCK_AFTER)
    ensures states[|actions|].claims[e] == Potential(s, e)
    decreases if e in s.db.rows then Left(s.db.rows[e]) else 0, e in s.db.rows && s.db.rows[e].status == Processing
  {
    if e !in s.db.rows || Left(s.db.rows[e]) == 0 {
      states, actions := [s], [];
    } else {
      var a;
      if s.db.rows[e].status == Pending { a := NextClaim(s, e); } else { a := NextReap(s, e); }
      states, actions := ClaimOn(Next(s, a), e);
      Prepend(s, a, states, actions);
      states, actions := [s] + states, [a] + actions;
    }
  }

  /** From `s` to `t` event `e` is claimed or reaped: of the claims it was good for none is lost. */
  ghost predicate Pays(s: State, a: Action, t: State, e: Id) {
    && e in s.db.rows && e in t.db.rows && Potential(t, e) == Potential(s, e)
    && if a.Claim? then Left(t.db.rows[e]) < Left(s.db.rows[e])
       else a.Reap? && a.age == STUCK_AFTER
            && s.db.rows[e].status == Processing && t.db.rows[e].status == Pending
            && Left(t.db.rows[e]) == Left(s.db.rows[e])
  }

  lemma NextClaim(s: State, e: Id) returns (a: Action)
    requires e in s.db.rows && s.db.rows[e].status == Pending
    ensures Enabled(s, a) && Pays(s, a, Next(s, a), e)
  {
    var w := Above(s.workers.Keys);
    var now := s.db.rows[e].processAfter;
    a := Claim(e, w, now);
    ClaimPotential(s, e, w, now, e);
  }

  lemma NextReap(s: State, e: Id) returns (a: Action)
    requires e in s.db.rows && s.db.rows[e].status == Processing && Left(s.db.rows[e]) > 0
    ensures Enabled(s, a) && Pays(s, a, Next(s, a), e)
  {
    var now := s.db.rows[e].updatedAt + STUCK_AFTER + 1;
    a := Reap(e, now, STUCK_AFTER);
    ReapPotential(s, e, now, STUCK_AFTER, e);
    ClaimsAndReapsPay(s.db.rows[e], now);
  }

  /** An id beyond all those in use. */
  lemma {:induction false} Above(ids: set<Id>) returns (w: Id)
    ensures forall v :: v in ids ==> v < w
    decreases |ids|
  {
    if ids == {} {
      w := 0;
    } else {
      var v :| v in ids;
      w := Above(ids - {v});
      forall u | u in ids && u != v ensures u < w { assert u in ids - {v}; }
      w := if v < w then w else v + 1;
    }
  }

  lemma Prepend(s: State, a: Action, states: seq<State>, actions: seq<Action>)
    requires Enabled(s, a) && IsPath(Next(s, a), states, actions)
    ensures IsPath(s, [s] + states, [a] + actions)
  {
    var t, b := [s] + states, [a] + actions;
    forall k | 0 <= k < |b| ensures StepAt(t, b, k) {
      assert t[k + 1] == states[k];
      if k > 0 {
        assert StepAt(states, actions, k - 1) && t[k] == states[k - 1] && b[k] == actions[k - 1];
      }
    }
  }

  // ---------------------------------------------------------------- a stale record breaks it

  /** Nobody requeues, and the reaper waits for its age. */
  ghost predicate KeepsTime(actions: seq<Action>) {
    forall k :: 0 <= k < |actions| ==> !actions[k].Requeue? && (actions[k].Reap? ==> actions[k].age == STUCK_AFTER)
  }

  /** Worker 1 claims event 0, gives up on the dispatch and reads the row; before it records, the reaper
      takes the row back and worker 2 claims it. */
  lemma Overtaken() returns (states: seq<State>, actions: seq<Action>)
    ensures IsRun(states, actions) && KeepsTime(actions)
    ensures var s := states[|actions|];
            && s.db.rows == map[0 := Row(Processing, 1, 61, 0, 61)] && s.claims[0] == 2
            && 1 in s.workers && s.workers[1] == Worker(0, Fetched(Retryable, Row(Processing, 0, 0, 0, 0)))
  {
    states, actions := Fetching();
    states, actions := Go(states, actions, Reap(0, 61, STUCK_AFTER));
    states, actions := Go(states, actions, Claim(0, 2, 61));
  }

  lemma Fetching() returns (states: seq<State>, actions: seq<Action>)
    ensures IsRun(states, actions) && KeepsTime(actions)
    ensures var s := states[|actions|];
            && s.db.rows == map[0 := Row(Processing, 0, 0, 0, 0)] && s.claims[0] == 1
            && s.workers == map[1 := Worker(0, Fetched(Retryable, Row(Processing, 0, 0, 0, 0)))]
  {
    states, actions := Claiming();
    states, actions := Go(states, actions, GiveUp(1));
    states, actions := Go(states, actions, Fetch(1));
  }

  lemma Claiming() returns (states: seq<State>, actions: seq<Action>)
    ensures IsRun(states, actions) && KeepsTime(actions)
    ensures var s := states[|actions|];
            && s.db.rows == map[0 := Row(Processing, 0, 0, 0, 0)] && s.claims[0] == 1
            && s.workers == map[1 := Worker(0, Claimed)]
  {
    states, actions := Go([Init], [], Stray(Event(Planner, AlertNormalized(0, true), Elsewhere), 0, 0));
    states, actions := Go(states, actions, Claim(0, 1, 0));
  }

  /** The late record puts the count back below the claims, and the event is claimed a sixth time, with
      the reaper at its own age and no operator involved. */
  lemma StaleRecordBreaksTheLimit()
    ensures exists states: seq<State>, actions: seq<Action> ::
              IsRun(states, actions) && KeepsTime(actions) && states[|actions|].claims[0] > MAX_ATTEMPTS
  {
    var states, actions := Overtaken();
    states, actions := Go(states, actions, Record(1, 90));
    assert states[|actions|].db.rows[0] == Row(Pending, 1, 95, 0, 90);
    assert Potential(states[|actions|], 0) == 6;
    var more, next := ClaimOn(states[|actions|], 0);
    Join(states, actions, more, next);
    assert KeepsTime(actions + next);
  }

  lemma Join(states: seq<State>, actions: seq<Action>, more: seq<State>, next: seq<Action>)
    requires IsRun(states, actions) && IsPath(states[|actions|], more, next)
    ensures IsRun(states + more[1..], actions + next) && (states + more[1..])[|actions + next|] == more[|next|]
  {
    var all := states + more[1..];
    forall k | 0 <= k < |actions + next| ensures StepAt(all, actions + next, k) {
      if k < |actions| {
        assert StepAt(states, actions, k);
      } else {
        assert StepAt(more, next, k - |actions|);
        assert all[k + 1] == more[k - |actions| + 1];
        assert all[k] == more[k - |actions|];
      }
    }
  }
}
