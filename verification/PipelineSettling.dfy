/** Left to itself the pipeline settles: with no new alerts, requeues or repeats, no run of
    workers, reapers and consumers goes on for ever, however they interleave, fail, die or
    overwrite each other's outcomes. */
module PipelineSettling {
  import opened Lifecycle
  import opened Outbox
  import opened Wrappers
  import opened Pipeline
  import opened PipelineInvariant
  import opened PipelineSafety

  // ---------------------------------------------------------------- sums over finite maps

  ghost function Sum(m: map<Id, nat>): nat {
    if m == map[] then 0
    else var k :| k in m; m[k] + Sum(m - {k})
  }

  lemma {:induction false} SumRemove(m: map<Id, nat>, k: Id)
    requires k in m
    ensures Sum(m) == m[k] + Sum(m - {k})
  {
    var j :| j in m && Sum(m) == m[j] + Sum(m - {j});
    if j != k {
      SumRemove(m - {j}, k);
      SumRemove(m - {k}, j);
      assert m - {j} - {k} == m - {k} - {j};
    }
  }

  lemma SumPut(m: map<Id, nat>, k: Id, v: nat)
    ensures Sum(m[k := v]) == v + Sum(m - {k})
  {
    SumRemove(m[k := v], k);
    assert m[k := v] - {k} == m - {k};
  }

  lemma {:induction false} SumLeq(a: map<Id, nat>, b: map<Id, nat>)
    requires a.Keys <= b.Keys && forall k :: k in a ==> a[k] <= b[k]
    ensures Sum(a) <= Sum(b)
  {
    if a != map[] {
      var k :| k in a;
      SumRemove(a, k);
      SumRemove(b, k);
      SumLeq(a - {k}, b - {k});
    } else {
    }
  }

  /** Changing one entry only. */
  lemma SumLess(a: map<Id, nat>, b: map<Id, nat>, k: Id)
    requires a.Keys <= b.Keys && k in b && (forall j :: j in a ==> a[j] <= b[j])
    requires k in a ==> a[k] < b[k]
    requires k !in a ==> 0 < b[k]
    ensures Sum(a) < Sum(b)
  {
    SumRemove(b, k);
    if k in a { SumRemove(a, k); }
    SumLeq(a - {k}, b - {k});
    if k !in a { assert a - {k} == a; }
  }

  // ---------------------------------------------------------------- what is left to do

  /** How many stages an unmarked event may still lead through. */
  function Stages(ev: Event): nat {
    match ev.payload
    case AlertNormalized(_, _) => 4
    case PlanRequested(_) => 3
    case ReasoningRequested(_, _) => 2
    case RecommendationCreated(_, _) => 1
  }

  ghost function StageWeights(db: Db): map<Id, nat> {
    map e | e in db.written :: if (e, db.written[e].target) in db.processed then 0 else Stages(db.written[e])
  }

  ghost function Unfinished(s: State): nat {
    Sum(StageWeights(s.db))
  }

  /** Who could still record a failure on top of `level` attempts: a worker that has read the row
      at that count, a worker yet to read a row that has not passed it, the reaper if such a row
      is processing, and the worker and reaper of a claim still to come if it is pending. */
  ghost function RowExposure(row: Row, level: nat): nat {
    if row.attempts > level then 0
    else match row.status
      case Pending => 2
      case Processing => 1
      case DeadLetter => 0
  }

  ghost function WorkerExposure(rows: map<Id, Row>, w: Worker, level: nat): nat {
    match w.turn
    case Fetched(_, seen) => if seen.attempts == level then 1 else 0
    case _ => if w.event in rows && rows[w.event].attempts <= level then 1 else 0
  }

  ghost function RowExposures(rows: map<Id, Row>, level: nat): map<Id, nat> {
    map e | e in rows :: RowExposure(rows[e], level)
  }

  ghost function WorkerExposures(rows: map<Id, Row>, workers: map<Id, Worker>, level: nat): map<Id, nat> {
    map w | w in workers :: WorkerExposure(rows, workers[w], level)
  }

  ghost function Exposure(s: State, level: nat): nat {
    Sum(RowExposures(s.db.rows, level)) + Sum(WorkerExposures(s.db.rows, s.workers, level))
  }

  /** Steps left before anything has to be read afresh. */
  function RowSteps(row: Row): nat {
    match row.status
    case Pending => 17
    case Processing => 1
    case DeadLetter => 0
  }

  function TurnSteps(w: Worker): nat {
    match w.turn
    case Claimed => 15
    case Waiting(_) => 3
    case Heard(_) => 2
    case Fetched(_, _) => 1
  }

  function PhaseSteps(h: Handler): nat {
    match h.phase
    case Start => 10
    case Gated => 9
    case Thinking => 8
    case Locked => 7
    case Posted(_, _) => 6
    case Checked(_) => 5
    case Decided(_, _) => 5
    case Dropping => 5
    case Recovering => 4
    case RecoveryGated => 3
    case Done(_) => 1
  }

  ghost function RowWork(s: State): map<Id, nat> { map e | e in s.db.rows :: RowSteps(s.db.rows[e]) }
  ghost function TurnWork(s: State): map<Id, nat> { map w | w in s.workers :: TurnSteps(s.workers[w]) }
  ghost function PhaseWork(s: State): map<Id, nat> { map h | h in s.handlers :: PhaseSteps(s.handlers[h]) }

  ghost function Work(s: State): nat {
    Sum(RowWork(s)) + Sum(TurnWork(s)) + Sum(PhaseWork(s))
  }

  /** What goes down, most significant first: stages, then exposure at 0, 1, 2 and 3 attempts, then
      single steps. */
  ghost function Measure(s: State): (m: seq<nat>)
    ensures |m| == MAX_ATTEMPTS + 1
  {
    Framed(Unfinished(s), Exposures(s), Work(s))
  }

  ghost function Exposures(s: State): (x: seq<nat>)
    ensures |x| == MAX_ATTEMPTS - 1 && forall l :: 0 <= l < |x| ==> x[l] == Exposure(s, l)
  {
    seq(MAX_ATTEMPTS - 1, l requires 0 <= l < MAX_ATTEMPTS - 1 => Exposure(s, l))
  }

  function Framed(first: nat, middle: seq<nat>, last: nat): (m: seq<nat>)
    ensures |m| == |middle| + 2 && m[0] == first && m[|m| - 1] == last
    ensures forall j :: 0 < j < |m| - 1 ==> m[j] == middle[j - 1]
  {
    [first] + middle + [last]
  }

  /** From position `i` on, `a` is lexicographically less than `b`. */
  ghost predicate LessFrom(a: seq<nat>, b: seq<nat>, i: nat)
    requires |a| == |b|
    decreases |a| - i
  {
    i < |a| && (a[i] < b[i] || (a[i] == b[i] && LessFrom(a, b, i + 1)))
  }

  lemma {:induction false} LessAt(a: seq<nat>, b: seq<nat>, i: nat, top: nat)
    requires |a| == |b| && i <= top < |a| && (forall j :: 0 <= j < top ==> a[j] <= b[j]) && a[top] < b[top]
    ensures LessFrom(a, b, i)
    decreases top - i
  {
    if i < top {
      LessAt(a, b, i + 1, top);
    } else {
    }
  }

  ghost predicate Descends(s: State, t: State) {
    LessFrom(Measure(t), Measure(s), 0)
  }

  /** Neither stages nor exposure below `top` rises, and at `top` exposure falls, or work does. */
  lemma DescendsAt(s: State, t: State, top: nat)
    requires Unfinished(t) <= Unfinished(s) && top < MAX_ATTEMPTS
    requires forall l: nat :: l < top ==> Exposure(t, l) <= Exposure(s, l)
    requires if top == MAX_ATTEMPTS - 1 then Work(t) < Work(s) else Exposure(t, top) < Exposure(s, top)
    ensures Descends(s, t)
  {
    var x, y := Exposures(t), Exposures(s);
    forall l | 0 <= l < top ensures x[l] <= y[l] { assert Exposure(t, l) <= Exposure(s, l); }
    LessAt(Framed(Unfinished(t), x, Work(t)), Framed(Unfinished(s), y, Work(s)), 0, top + 1);
  }

  /** No new alerts, repeats or strays, no requeues, nobody tidying up or moving incidents. */
  predicate Progresses(a: Action) {
    a.Claim? || a.Dispatch? || a.Refuse? || a.GiveUp? || a.Hear? || a.Fetch? || a.Record? || a.Reap? || a.WorkerDies?
    || a.Consume? || a.HandlerFails? || a.HandlerDies?
  }

  // ---------------------------------------------------------------- every step descends

  lemma SameStages(s: State, t: State)
    requires t.db.written == s.db.written && t.db.processed == s.db.processed
    ensures Unfinished(t) == Unfinished(s)
  {
    assert StageWeights(t.db) == StageWeights(s.db);
  }

  /** Rows and workers whose exposure at `level` has not risen. */
  lemma ExposureLeq(s: State, t: State, level: nat)
    requires t.db.rows.Keys <= s.db.rows.Keys && t.workers.Keys <= s.workers.Keys
    requires forall e :: e in t.db.rows ==> RowExposure(t.db.rows[e], level) <= RowExposure(s.db.rows[e], level)
    requires forall w :: w in t.workers ==>
               WorkerExposure(t.db.rows, t.workers[w], level) <= WorkerExposure(s.db.rows, s.workers[w], level)
    ensures Exposure(t, level) <= Exposure(s, level)
  {
    SumLeq(RowExposures(t.db.rows, level), RowExposures(s.db.rows, level));
    SumLeq(WorkerExposures(t.db.rows, t.workers, level), WorkerExposures(s.db.rows, s.workers, level));
  }

  lemma ClaimDescends(s: State, e: Id, w: Id, now: int)
    requires Enabled(s, Claim(e, w, now))
    ensures Descends(s, Next(s, Claim(e, w, now)))
  {
    var t := Next(s, Claim(e, w, now));
    SameStages(s, t);
    forall l: nat ensures Exposure(t, l) == Exposure(s, l) { ClaimExposure(s, t, e, w, now, l); }
    ClaimWork(s, t, e, w, now);
    DescendsAt(s, t, MAX_ATTEMPTS - 1);
  }

  /** The claim a pending row was owed is now a worker. */
  lemma ClaimExposure(s: State, t: State, e: Id, w: Id, now: int, l: nat)
    requires e in s.db.rows && s.db.rows[e].status == Pending && w !in s.workers
    requires t.db.rows == s.db.rows[e := ClaimRow(s.db.rows[e], now)] && t.workers == s.workers[w := Worker(e, Claimed)]
    ensures Exposure(t, l) == Exposure(s, l)
  {
    ClaimedRowExposure(s.db.rows, t.db.rows, e, now, l);
    NewWorkerExposure(s.db.rows, t.db.rows, s.workers, t.workers, e, w, now, l);
  }

  lemma ClaimedRowExposure(rows: map<Id, Row>, after: map<Id, Row>, e: Id, now: int, l: nat)
    requires e in rows && rows[e].status == Pending && after == rows[e := ClaimRow(rows[e], now)]
    ensures Sum(RowExposures(rows, l)) == Sum(RowExposures(after, l)) + if rows[e].attempts <= l then 1 else 0
  {
    var re, spent := RowExposures(rows, l), if rows[e].attempts <= l then 1 else 0;
    assert RowExposures(after, l) == re[e := re[e] - spent];
    SumRemove(re, e);
    SumPut(re, e, re[e] - spent);
  }

  lemma NewWorkerExposure(rows: map<Id, Row>, after: map<Id, Row>, workers: map<Id, Worker>, joined: map<Id, Worker>,
                          e: Id, w: Id, now: int, l: nat)
    requires e in rows && after == rows[e := ClaimRow(rows[e], now)] && w !in workers && joined == workers[w := Worker(e, Claimed)]
    ensures Sum(WorkerExposures(after, joined, l)) == Sum(WorkerExposures(rows, workers, l)) + if rows[e].attempts <= l then 1 else 0
  {
    var we, spent := WorkerExposures(rows, workers, l), if rows[e].attempts <= l then 1 else 0;
    assert WorkerExposures(after, joined, l) == we[w := spent];
    SumPut(we, w, spent);
    assert we - {w} == we;
  }

  lemma ClaimWork(s: State, t: State, e: Id, w: Id, now: int)
    requires e in s.db.rows && s.db.rows[e].status == Pending && w !in s.workers && t.handlers == s.handlers
    requires t.db.rows == s.db.rows[e := ClaimRow(s.db.rows[e], now)] && t.workers == s.workers[w := Worker(e, Claimed)]
    ensures Work(t) < Work(s)
  {
    assert RowWork(t) == RowWork(s)[e := 1];
    SumRemove(RowWork(s), e);
    SumPut(RowWork(s), e, 1);
    assert TurnWork(t) == TurnWork(s)[w := 15];
    SumPut(TurnWork(s), w, 15);
    assert TurnWork(s) - {w} == TurnWork(s);
    assert PhaseWork(t) == PhaseWork(s);
  }

  lemma DispatchDescends(s: State, w: Id, h: Id)
    requires Enabled(s, Dispatch(w, h))
    ensures Descends(s, Next(s, Dispatch(w, h)))
  {
    var t := Next(s, Dispatch(w, h));
    SameStages(s, t);
    forall l: nat ensures Exposure(t, l) <= Exposure(s, l) { ExposureLeq(s, t, l); }
    DispatchWork(s, t, w, h);
    DescendsAt(s, t, MAX_ATTEMPTS - 1);
  }

  lemma DispatchWork(s: State, t: State, w: Id, h: Id)
    requires w in s.workers && s.workers[w].turn == Claimed && h !in s.handlers && t.db.rows == s.db.rows
    requires t.workers == s.workers[w := s.workers[w].(turn := Waiting(h))]
    requires t.handlers == s.handlers[h := Handler(s.workers[w].event, Start)]
    ensures Work(t) < Work(s)
  {
    assert RowWork(t) == RowWork(s);
    assert TurnWork(t) == TurnWork(s)[w := 3];
    SumRemove(TurnWork(s), w);
    SumPut(TurnWork(s), w, 3);
    assert PhaseWork(t) == PhaseWork(s)[h := 10];
    SumPut(PhaseWork(s), h, 10);
    assert PhaseWork(s) - {h} == PhaseWork(s);
  }

  /** A worker's own turn moves on or ends, its row untouched or removed. */
  lemma TurnDescends(s: State, t: State, w: Id)
    requires w in s.workers && t.workers.Keys <= s.workers.Keys && t.handlers == s.handlers
    requires t.db.written == s.db.written && t.db.processed == s.db.processed
    requires t.db.rows.Keys <= s.db.rows.Keys
    requires forall e :: e in t.db.rows ==> t.db.rows[e] == s.db.rows[e]
    requires forall v :: v in t.workers && v != w ==> t.workers[v] == s.workers[v]
    requires w in t.workers ==> TurnSteps(t.workers[w]) < TurnSteps(s.workers[w])
    requires w in t.workers ==> forall l: nat ::
               WorkerExposure(t.db.rows, t.workers[w], l) <= WorkerExposure(s.db.rows, s.workers[w], l)
    ensures Descends(s, t)
  {
    SameStages(s, t);
    forall l: nat ensures Exposure(t, l) <= Exposure(s, l) { ExposureLeq(s, t, l); }
    SumLeq(RowWork(t), RowWork(s));
    SumLess(TurnWork(t), TurnWork(s), w);
    assert PhaseWork(t) == PhaseWork(s);
    DescendsAt(s, t, MAX_ATTEMPTS - 1);
  }

  /** A row rewritten on top of the attempts somebody read: the exposure at that count falls. */
  lemma FailureDescends(s: State, t: State, e: Id, seen: nat, w: Option<Id>)
    requires e in s.db.rows && e in t.db.rows && t.db == s.db.(rows := s.db.rows[e := t.db.rows[e]]) && t.handlers == s.handlers
    requires t.db.rows[e].attempts == seen + 1
    requires w.None? ==> t.workers == s.workers
    requires w.None? ==> s.db.rows[e].attempts == seen && s.db.rows[e].status == Processing
    requires w.Some? ==> w.value in s.workers && t.workers == s.workers - {w.value}
    requires w.Some? ==> s.workers[w.value].turn.Fetched? && s.workers[w.value].turn.seen.attempts == seen
    requires seen >= MAX_ATTEMPTS - 1 ==> RowSteps(t.db.rows[e]) <= RowSteps(s.db.rows[e])
    requires seen >= MAX_ATTEMPTS - 1 && w.None? ==> RowSteps(t.db.rows[e]) < RowSteps(s.db.rows[e])
    ensures Descends(s, t)
  {
    SameStages(s, t);
    forall l: nat | l <= seen ensures Exposure(t, l) <= Exposure(s, l) { ExposureLeq(s, t, l); }
    if seen < MAX_ATTEMPTS - 1 {
      ExposureFalls(s, t, e, seen, w);
      DescendsAt(s, t, seen);
    } else {
      WorkFalls(s, t, e, w);
      DescendsAt(s, t, MAX_ATTEMPTS - 1);
    }
  }

  /** The record's worker is gone, or the reaped row is no longer processing. */
  lemma WorkFalls(s: State, t: State, e: Id, w: Option<Id>)
    requires e in s.db.rows && e in t.db.rows && t.db == s.db.(rows := s.db.rows[e := t.db.rows[e]]) && t.handlers == s.handlers
    requires w.None? ==> t.workers == s.workers && RowSteps(t.db.rows[e]) < RowSteps(s.db.rows[e])
    requires w.Some? ==> w.value in s.workers && t.workers == s.workers - {w.value} && RowSteps(t.db.rows[e]) <= RowSteps(s.db.rows[e])
    ensures Work(t) < Work(s)
  {
    assert PhaseWork(t) == PhaseWork(s);
    if w.Some? {
      SumLeq(RowWork(t), RowWork(s));
      SumLess(TurnWork(t), TurnWork(s), w.value);
    } else {
      SumLess(RowWork(t), RowWork(s), e);
      assert TurnWork(t) == TurnWork(s);
    }
  }

  lemma ExposureFalls(s: State, t: State, e: Id, seen: nat, w: Option<Id>)
    requires e in s.db.rows && e in t.db.rows && t.db.rows == s.db.rows[e := t.db.rows[e]] && t.db.rows[e].attempts == seen + 1
    requires w.None? ==> t.workers == s.workers
    requires w.None? ==> s.db.rows[e].attempts == seen && s.db.rows[e].status == Processing
    requires w.Some? ==> w.value in s.workers && t.workers == s.workers - {w.value}
    requires w.Some? ==> s.workers[w.value].turn.Fetched? && s.workers[w.value].turn.seen.attempts == seen
    ensures Exposure(t, seen) < Exposure(s, seen)
  {
    if w.Some? {
      RecordExposure(s.db.rows, t.db.rows, s.workers, t.workers, e, seen, w.value);
    } else {
      ReapExposure(s.db.rows, t.db.rows, s.workers, e, seen);
    }
  }

  lemma RecordExposure(rows: map<Id, Row>, after: map<Id, Row>, workers: map<Id, Worker>, left: map<Id, Worker>,
                       e: Id, seen: nat, w: Id)
    requires e in rows && e in after && after == rows[e := after[e]] && after[e].attempts == seen + 1
    requires w in workers && left == workers - {w} && workers[w].turn.Fetched? && workers[w].turn.seen.attempts == seen
    ensures Sum(RowExposures(after, seen)) <= Sum(RowExposures(rows, seen))
    ensures Sum(WorkerExposures(after, left, seen)) < Sum(WorkerExposures(rows, workers, seen))
  {
    SumLeq(RowExposures(after, seen), RowExposures(rows, seen));
    SumLess(WorkerExposures(after, left, seen), WorkerExposures(rows, workers, seen), w);
  }

  lemma ReapExposure(rows: map<Id, Row>, after: map<Id, Row>, workers: map<Id, Worker>, e: Id, seen: nat)
    requires e in rows && e in after && after == rows[e := after[e]] && after[e].attempts == seen + 1
    requires rows[e].attempts == seen && rows[e].status == Processing
    ensures Sum(RowExposures(after, seen)) < Sum(RowExposures(rows, seen))
    ensures Sum(WorkerExposures(after, workers, seen)) <= Sum(WorkerExposures(rows, workers, seen))
  {
    SumLess(RowExposures(after, seen), RowExposures(rows, seen), e);
    SumLeq(WorkerExposures(after, workers, seen), WorkerExposures(rows, workers, seen));
  }

  lemma RecordDescends(s: State, w: Id, now: int)
    requires Enabled(s, Record(w, now))
    ensures Descends(s, Next(s, Record(w, now)))
  {
    var t := Next(s, Record(w, now));
    var Worker(e, Fetched(outcome, seen)) := s.workers[w];
    if e in s.db.rows && outcome != Delivered {
      FailureDescends(s, t, e, seen.attempts, Some(w));
    } else {
      TurnDescends(s, t, w);
    }
  }

  lemma ReapDescends(s: State, e: Id, now: int, age: int)
    requires Enabled(s, Reap(e, now, age))
    ensures Descends(s, Next(s, Reap(e, now, age)))
  {
    FailureDescends(s, Next(s, Reap(e, now, age)), e, s.db.rows[e].attempts, None);
  }

  /** A handler's phase moves on, or the handler is gone, with nothing committed. */
  lemma PhaseDescends(s: State, t: State, h: Id)
    requires h in s.handlers && t.handlers.Keys <= s.handlers.Keys && t.workers == s.workers
    requires t.db.written == s.db.written && t.db.processed == s.db.processed && t.db.rows == s.db.rows
    requires forall g :: g in t.handlers && g != h ==> t.handlers[g] == s.handlers[g]
    requires h in t.handlers ==> PhaseSteps(t.handlers[h]) < PhaseSteps(s.handlers[h])
    ensures Descends(s, t)
  {
    SameStages(s, t);
    assert RowWork(t) == RowWork(s);
    assert TurnWork(t) == TurnWork(s);
    SumLess(PhaseWork(t), PhaseWork(s), h);
    DescendsAt(s, t, MAX_ATTEMPTS - 1);
  }

  /** A commit marks its event and writes at most one event of a later stage. */
  lemma CommitDescends(a: Db, b: Db, s: State, t: State, e: Id, next: Id)
    requires s.db == a && t.db == b
    requires e in a.written && (e, a.written[e].target) !in a.processed
    requires b.processed == a.processed + {(e, a.written[e].target)}
    requires next !in a.written
    requires b.written == a.written
             || (next in b.written && b.written == a.written[next := b.written[next]] && Stages(b.written[next]) < Stages(a.written[e]))
    ensures Descends(s, t)
  {
    var x := StageWeights(a);
    var y := StageWeights(b);
    SumRemove(x, e);
    if b.written == a.written {
      SumLess(y, x, e);
    } else {
      var z := y - {next};
      SumRemove(y, next);
      SumRemove(z, e);
      SumLeq(z - {e}, x - {e});
    }
  }

  lemma ConsumeDescends(s: State, h: Id, c: Choice)
    requires Inv(s) && CanHandle(s, h, c)
    ensures Descends(s, Handle(s, h, c))
  {
    AtHandler(s, h);
    match s.handlers[h].phase
    case Dropping => MarkDescends(s, h, c);
    case Decided(_, _) => MarkDescends(s, h, c);
    case RecoveryGated => MarkDescends(s, h, c);
    case Checked(_) => CheckedDescends(s, h, c);
    case Posted(_, _) => RecordCardDescends(s, h, c);
    case Locked => PostDescends(s, h, c);
    case Gated => GateDescends(s, h, c);
    case Start => StartDescends(s, h, c);
    case Thinking => ThinkingDescends(s, h, c);
    case Recovering => RecoveringDescends(s, h, c);
    case Done(_) =>
  }

  /** Reads, locking and posting commit nothing. */
  lemma StartDescends(s: State, h: Id, c: Choice)
    requires CanHandle(s, h, c) && s.handlers[h].phase.Start?
    ensures Descends(s, Handle(s, h, c))
  {
    PhaseDescends(s, Handle(s, h, c), h);
  }

  lemma ThinkingDescends(s: State, h: Id, c: Choice)
    requires CanHandle(s, h, c) && s.handlers[h].phase.Thinking?
    ensures Descends(s, Handle(s, h, c))
  {
    PhaseDescends(s, Handle(s, h, c), h);
  }

  lemma RecoveringDescends(s: State, h: Id, c: Choice)
    requires CanHandle(s, h, c) && s.handlers[h].phase.Recovering?
    ensures Descends(s, Handle(s, h, c))
  {
    PhaseDescends(s, Handle(s, h, c), h);
  }

  lemma GateDescends(s: State, h: Id, c: Choice)
    requires CanHandle(s, h, c) && s.handlers[h].phase.Gated?
    ensures Descends(s, Handle(s, h, c))
  {
    var ev := s.db.written[s.handlers[h].event];
    GateSilent(s, h, ev, c);
    PhaseDescends(s, GateOpen(s, h, ev, c), h);
  }

  lemma GateSilent(s: State, h: Id, ev: Event, c: Choice)
    requires h in s.handlers && Handles(ev) && s.handlers[h].phase.Gated?
    ensures var t := GateOpen(s, h, ev, c);
            && t.db == s.db && t.workers == s.workers && t.handlers.Keys == s.handlers.Keys
            && (forall g :: g in s.handlers && g != h ==> t.handlers[g] == s.handlers[g])
            && PhaseSteps(t.handlers[h]) < PhaseSteps(s.handlers[h])
  {
  }

  lemma PostDescends(s: State, h: Id, c: Choice)
    requires CanHandle(s, h, c) && s.handlers[h].phase.Locked?
    ensures Descends(s, Handle(s, h, c))
  {
    var ev := s.db.written[s.handlers[h].event].payload;
    LockedPosts(s, h, c);
    PostSilent(s, h, ev.incident, ev.recommendation, c);
    PhaseDescends(s, PostCard(s, h, ev.incident, ev.recommendation, c), h);
  }

  lemma PostSilent(s: State, h: Id, i: Id, r: Id, c: Choice)
    requires h in s.handlers && r in s.db.recs && s.handlers[h].phase.Locked?
    ensures var t := PostCard(s, h, i, r, c);
            && t.db == s.db && t.workers == s.workers && t.handlers.Keys == s.handlers.Keys
            && (forall g :: g in s.handlers && g != h ==> t.handlers[g] == s.handlers[g])
            && PhaseSteps(t.handlers[h]) < PhaseSteps(s.handlers[h])
  {
  }

  lemma RecordCardDescends(s: State, h: Id, c: Choice)
    requires DbInv(s.db) && CanHandle(s, h, c) && HandlerInv(s, h) && s.handlers[h].phase.Posted?
    ensures Descends(s, Handle(s, h, c))
  {
    RecordCannotConflict(s.db, s.handlers[h].event);
    CommitDescends(s.db, Handle(s, h, c).db, s, Handle(s, h, c), s.handlers[h].event, c.event);
  }

  lemma MarkDescends(s: State, h: Id, c: Choice)
    requires CanHandle(s, h, c) && HandlerInv(s, h)
    requires s.handlers[h].phase.Dropping? || s.handlers[h].phase.Decided? || s.handlers[h].phase.RecoveryGated?
    ensures Descends(s, Handle(s, h, c))
  {
    var e, t := s.handlers[h].event, Handle(s, h, c);
    if (e, s.db.written[e].target) in s.db.processed {
      PhaseDescends(s, t, h);
    } else {
      CommitDescends(s.db, t.db, s, t, e, c.event);
    }
  }

  lemma CheckedDescends(s: State, h: Id, c: Choice)
    requires CanHandle(s, h, c) && HandlerInv(s, h) && s.handlers[h].phase.Checked?
    ensures Descends(s, Handle(s, h, c))
  {
    var e, existing := s.handlers[h].event, s.handlers[h].phase.existing;
    var ev := s.db.written[e];
    var t := CommitChecked(s, h, e, ev, existing, c);
    if (e, ev.target) in s.db.processed {
      PhaseDescends(s, t, h);
    } else if LosesRace(s.db, e, existing) {
      PhaseDescends(s, t, h);
    } else {
      CommitDescends(s.db, t.db, s, t, e, c.event);
    }
  }

  lemma StepDescends(s: State, a: Action)
    requires Inv(s) && Enabled(s, a) && Progresses(a)
    ensures Descends(s, Next(s, a))
  {
    match a
    case Claim(e, w, now) => ClaimDescends(s, e, w, now);
    case Dispatch(w, h) => DispatchDescends(s, w, h);
    case Record(w, now) => RecordDescends(s, w, now);
    case Reap(e, now, age) => ReapDescends(s, e, now, age);
    case Consume(h, c) => ConsumeDescends(s, h, c);
    case HandlerFails(h) => PhaseDescends(s, Next(s, a), h);
    case HandlerDies(h) => PhaseDescends(s, Next(s, a), h);
    case Refuse(_) => OwnTurnDescends(s, a);
    case GiveUp(_) => OwnTurnDescends(s, a);
    case Hear(_) => OwnTurnDescends(s, a);
    case Fetch(_) => OwnTurnDescends(s, a);
    case WorkerDies(_) => OwnTurnDescends(s, a);
    case _ =>
  }

  lemma OwnTurnDescends(s: State, a: Action)
    requires Enabled(s, a) && (a.Refuse? || a.GiveUp? || a.Hear? || a.Fetch? || a.WorkerDies?)
    ensures Descends(s, Next(s, a))
  {
    TurnDescends(s, Next(s, a), a.w);
  }

  // ---------------------------------------------------------------- so no run goes on for ever

  ghost predicate Follows(s: State, a: Action, t: State) {
    Enabled(s, a) && t == Next(s, a)
  }

  lemma FollowingKeeps(s: State, a: Action, t: State)
    requires Inv(s) && Follows(s, a, t)
    ensures Inv(t) && (Progresses(a) ==> Descends(s, t))
  {
    StepKeeps(s, a);
    if Progresses(a) { StepDescends(s, a); }
  }

  /** An endless run has steps of the world's after every moment: new alerts, repeats, requeues,
      deletions or status moves. With finitely many of those it comes to its end. */
  lemma EveryRunSettles(states: nat -> State, actions: nat -> Action, n: nat)
    requires Reachable(states(0)) && forall k: nat :: Follows(states(k), actions(k), states(k + 1))
    ensures exists k: nat :: k >= n && !Progresses(actions(k))
  {
    EndlessKeeps(states, actions, n);
    if forall k: nat :: k >= n ==> Progresses(actions(k)) {
      NoEndlessWork(states, actions, n, Measure(states(n)));
    }
  }

  lemma {:induction false} EndlessKeeps(states: nat -> State, actions: nat -> Action, n: nat)
    requires Reachable(states(0)) && forall k: nat :: Follows(states(k), actions(k), states(k + 1))
    ensures Inv(states(n))
  {
    if n == 0 {
      ReachableSafe(states(0));
    } else {
      EndlessKeeps(states, actions, n - 1);
      assert Follows(states(n - 1), actions(n - 1), states(n));
      FollowingKeeps(states(n - 1), actions(n - 1), states(n));
    }
  }

  lemma {:induction false} NoEndlessWork(states: nat -> State, actions: nat -> Action, n: nat, m: seq<nat>)
    requires forall k: nat :: Follows(states(k), actions(k), states(k + 1))
    requires forall k: nat :: k >= n ==> Progresses(actions(k))
    requires Inv(states(n)) && |m| == MAX_ATTEMPTS + 1 && m == Measure(states(n))
    ensures false
    decreases m[0], m[1], m[2], m[3], m[4], m[5]
  {
    var lower := StepDown(states, actions, n, m);
    NoEndlessWork(states, actions, n + 1, lower);
  }

  lemma StepDown(states: nat -> State, actions: nat -> Action, n: nat, m: seq<nat>) returns (lower: seq<nat>)
    requires forall k: nat :: Follows(states(k), actions(k), states(k + 1))
    requires Progresses(actions(n)) && Inv(states(n)) && m == Measure(states(n))
    ensures Inv(states(n + 1)) && |lower| == |m| == MAX_ATTEMPTS + 1 && lower == Measure(states(n + 1)) && Lower(lower, m)
  {
    assert Follows(states(n), actions(n), states(n + 1));
    FollowingKeeps(states(n), actions(n), states(n + 1));
    lower := Measure(states(n + 1));
    Unrolled(lower, m);
  }

  /** The lexicographic order, written out. */
  predicate Lower(a: seq<nat>, b: seq<nat>)
    requires |a| == |b| == 6
  {
    || a[0] < b[0]
    || (a[0] == b[0]
        && (a[1] < b[1]
            || (a[1] == b[1]
                && (a[2] < b[2]
                    || (a[2] == b[2]
                        && (a[3] < b[3]
                            || (a[3] == b[3] && (a[4] < b[4] || (a[4] == b[4] && a[5] < b[5])))))))))
  }

  lemma Unrolled(a: seq<nat>, b: seq<nat>)
    requires |a| == |b| == 6 && LessFrom(a, b, 0)
    ensures Lower(a, b)
  {
    assert LessFrom(a, b, 1) ==> a[1] < b[1] || (a[1] == b[1] && LessFrom(a, b, 2));
    assert LessFrom(a, b, 3) ==> a[3] < b[3] || (a[3] == b[3] && LessFrom(a, b, 4));
    assert LessFrom(a, b, 5) ==> a[5] < b[5] by { assert !LessFrom(a, b, 6); }
  }
}
