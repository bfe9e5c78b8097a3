/** The pipeline as a step system: the database, the outbox workers and the four event
    consumers, any of which may interleave, fail or die between two steps. */
module Pipeline {
  import opened Lifecycle
  import opened Outbox
  import opened Wrappers

  type Id = nat

  datatype Service = Watcher | Planner | Reasoner | Feedback

  datatype Payload =
    | AlertNormalized(incident: Id, deduplicated: bool)
    | PlanRequested(incident: Id)
    | ReasoningRequested(incident: Id, plan: Id)
    | RecommendationCreated(incident: Id, recommendation: Id)

  /** Who wrote an event. `Elsewhere` covers operators, replays and upstream bugs. */
  datatype Origin = Ingestion | By(service: Service) | Elsewhere

  datatype Event = Event(target: Service, payload: Payload, origin: Origin)

  /** Each consumer interprets exactly one event type. */
  predicate Handles(ev: Event) {
    match ev.payload
    case AlertNormalized(_, _) => ev.target == Watcher
    case PlanRequested(_) => ev.target == Planner
    case ReasoningRequested(_, _) => ev.target == Reasoner
    case RecommendationCreated(_, _) => ev.target == Feedback
  }

  datatype Rec = Rec(incident: Id, plan: Id, slackTs: Option<nat>)

  /** The committed database. The last four fields are histories: every event ever written (an
      event's content never changes), every plan ever committed, the event each incident was
      opened by, and the incidents whose plan was suppressed. */
  datatype Db = Db(
    incidents: map<Id, Status>,
    withAlerts: set<Id>,
    plans: map<Id, Id>,
    recs: map<Id, Rec>,
    processed: set<(Id, Service)>,
    rows: map<Id, Row>,
    written: map<Id, Event>,
    planned: map<Id, Id>,
    openedBy: map<Id, Id>,
    suppressed: set<Id>)

  /** The outbox worker's progress with one claimed event. */
  datatype Turn =
    | Claimed
    | Waiting(handler: Id)
    | Heard(outcome: Outcome)
    | Fetched(outcome: Outcome, seen: Row)

  datatype Worker = Worker(event: Id, turn: Turn)

  /** A consumer's progress with one delivery. Every phase but `Done` may hold an open
      transaction; `Checked` is the point between a pre-check and its commit, and `Posted` keeps the
      incident's status as the session read it before the post. */
  datatype Phase =
    | Start
    | Dropping
    | Gated
    | Decided(request: bool, suppress: bool)
    | Thinking
    | Checked(existing: bool)
    | Recovering
    | RecoveryGated
    | Locked
    | Posted(ts: nat, read: Status)
    | Done(code: int)

  datatype Handler = Handler(event: Id, phase: Phase)

  /** `slack` is the channel: the recommendation each posted card belongs to, a card's
      timestamp being its index. `died` counts posts whose transaction never committed. */
  datatype State = State(
    db: Db,
    workers: map<Id, Worker>,
    handlers: map<Id, Handler>,
    locks: map<Id, Id>,
    slack: seq<Id>,
    died: multiset<Id>,
    claims: multiset<Id>)

  const Init := State(Db(map[], {}, map[], map[], {}, map[], map[], map[], map[], {}),
                      map[], map[], map[], [], multiset{}, multiset{})

  // ---------------------------------------------------------------- transactions

  predicate HasPlan(db: Db, i: Id) {
    exists p :: p in db.plans && db.plans[p] == i
  }

  predicate HasRec(db: Db, i: Id) {
    exists r :: r in db.recs && db.recs[r].incident == i
  }

  /** The outbox row and its event, added to the caller's transaction. */
  function WriteOutboxEvent(db: Db, e: Id, ev: Event, now: int): Db {
    db.(rows := db.rows[e := NewRow(now)], written := db.written[e := ev])
  }

  function MarkProcessed(db: Db, e: Id, s: Service): Db {
    db.(processed := db.processed + {(e, s)})
  }

  function WatcherCommit(db: Db, e: Id, i: Id, request: bool, suppress: bool, next: Id, now: int): Db {
    var marked := MarkProcessed(db, e, Watcher);
    if request then WriteOutboxEvent(marked, next, Event(Planner, PlanRequested(i), By(Watcher)), now)
    else if suppress then marked.(suppressed := marked.suppressed + {i})
    else marked
  }

  function PlannerCommit(db: Db, e: Id, i: Id, existing: bool, p: Id, next: Id, now: int): Db {
    var marked := MarkProcessed(db, e, Planner);
    if existing then marked
    else WriteOutboxEvent(marked.(plans := marked.plans[p := i], planned := marked.planned[p := i]),
                          next, Event(Reasoner, ReasoningRequested(i, p), By(Planner)), now)
  }

  function ReasonerCommit(db: Db, e: Id, i: Id, p: Id, existing: bool, r: Id, next: Id, now: int): Db {
    var marked := MarkProcessed(db, e, Reasoner);
    if existing then marked
    else WriteOutboxEvent(marked.(recs := marked.recs[r := Rec(i, p, None)]),
                          next, Event(Feedback, RecommendationCreated(i, r), By(Reasoner)), now)
  }

  /** The record of a posted card. The status decided on is the one read before the post: the
      locking select hands back the incident the session has already loaded. */
  function FeedbackCommit(db: Db, e: Id, i: Id, r: Id, ts: nat, read: Status): Db
    requires r in db.recs && i in db.incidents
  {
    var delivered := MarkProcessed(db, e, Feedback).(recs := db.recs[r := db.recs[r].(slackTs := Some(ts))]);
    if IsValidTransition(read, Investigating)
    then delivered.(incidents := db.incidents[i := Investigating])
    else delivered
  }

  // ---------------------------------------------------------------- one handler step

  /** What is left to chance in a handler step: fresh ids, the suppression rule's verdict,
      whether Slack accepts the post, and the clock. */
  datatype Choice = Choice(row: Id, event: Id, suppress: bool, posted: bool, now: int)

  predicate FreshFor(db: Db, c: Choice) {
    c.event !in db.written && c.row !in db.planned && c.row !in db.plans && c.row !in db.recs
  }

  function SetPhase(s: State, h: Id, phase: Phase): State
    requires h in s.handlers
  {
    s.(handlers := s.handlers[h := s.handlers[h].(phase := phase)])
  }

  function Answer(s: State, h: Id, code: int): State
    requires h in s.handlers
  {
    SetPhase(s, h, Done(code))
  }

  function Release(s: State, r: Id): State {
    s.(locks := s.locks - {r})
  }

  /** The reasoner's context read: the incident, the plan, their agreement, and an alert. */
  predicate ContextAvailable(db: Db, i: Id, p: Id) {
    i in db.incidents && p in db.plans && db.plans[p] == i && i in db.withAlerts
  }

  function GateOpen(s: State, h: Id, ev: Event, c: Choice): State
    requires h in s.handlers && Handles(ev)
  {
    var db, i := s.db, ev.payload.incident;
    match ev.payload
    case AlertNormalized(_, deduplicated) =>
      if i !in db.incidents then Answer(s, h, 422)
      else SetPhase(s, h, Decided(!deduplicated && !c.suppress, !deduplicated && c.suppress))
    case PlanRequested(_) =>
      if i !in db.incidents then Answer(s, h, 422)
      else SetPhase(s, h, Checked(HasPlan(db, i)))
    case ReasoningRequested(_, p) =>
      if ContextAvailable(db, i, p) then SetPhase(s, h, Thinking) else Answer(s, h, 422)
    case RecommendationCreated(_, r) =>
      if r !in db.recs then Answer(s, h, 422)
      else SetPhase(s, h, Locked).(locks := s.locks[r := h])
  }

  function CommitChecked(s: State, h: Id, e: Id, ev: Event, existing: bool, c: Choice): State
    requires h in s.handlers
  {
    var db := s.db;
    if (e, ev.target) in db.processed then SetPhase(s, h, Recovering)
    else match ev.payload
      case PlanRequested(i) =>
        if !existing && HasPlan(db, i) then SetPhase(s, h, Recovering)
        else Answer(s, h, 200).(db := PlannerCommit(db, e, i, existing, c.row, c.event, c.now))
      case ReasoningRequested(i, p) =>
        if !existing && HasRec(db, i) then SetPhase(s, h, Recovering)
        else Answer(s, h, 200).(db := ReasonerCommit(db, e, i, p, existing, c.row, c.event, c.now))
      case _ => Answer(s, h, 500)
  }

  /** Under the row lock: skip a card already recorded, otherwise post it. */
  function PostCard(s: State, h: Id, i: Id, r: Id, c: Choice): State
    requires h in s.handlers && r in s.db.recs
  {
    if s.db.recs[r].slackTs.Some? then Release(Answer(s, h, 200), r)
    else if i !in s.db.incidents then Release(Answer(s, h, 422), r)
    else if !c.posted then Release(Answer(s, h, 503), r)
    else SetPhase(s, h, Posted(|s.slack|, s.db.incidents[i])).(slack := s.slack + [r])
  }

  /** Record the card that was just posted; any conflict here loses the record, not the card. */
  function RecordCard(s: State, h: Id, e: Id, i: Id, r: Id, ts: nat, read: Status): State
    requires h in s.handlers && r in s.db.recs
  {
    if (e, Feedback) in s.db.processed then
      Release(Answer(s, h, 500), r).(died := s.died + multiset{r})
    else if i !in s.db.incidents then
      Release(Answer(s, h, 422), r).(died := s.died + multiset{r})
    else
      Release(Answer(s, h, 200), r).(db := FeedbackCommit(s.db, e, i, r, ts, read))
  }

  predicate CanHandle(s: State, h: Id, c: Choice) {
    && h in s.handlers
    && s.handlers[h].event in s.db.written
    && !s.handlers[h].phase.Done?
    && FreshFor(s.db, c)
    && var ev := s.db.written[s.handlers[h].event];
    && (s.handlers[h].phase.Gated? ==> Handles(ev))
    && (ev.payload.RecommendationCreated? ==>
          // SELECT ... FOR UPDATE waits for whoever holds the row.
          && (s.handlers[h].phase.Gated? ==> ev.payload.recommendation !in s.locks)
          && (s.handlers[h].phase.Locked? || s.handlers[h].phase.Posted? ==>
                ev.payload.recommendation in s.db.recs))
    && (s.handlers[h].phase.Locked? || s.handlers[h].phase.Posted? ==>
          ev.payload.RecommendationCreated?)
  }

  /** One handler step. */
  function Handle(s: State, h: Id, c: Choice): State
    requires CanHandle(s, h, c)
  {
    var e := s.handlers[h].event;
    var ev := s.db.written[e];
    var db := s.db;
    match s.handlers[h].phase
    case Start =>
      if (e, ev.target) in db.processed then Answer(s, h, 200)
      else if !Handles(ev) then SetPhase(s, h, Dropping)
      else SetPhase(s, h, Gated)
    case Dropping =>
      if (e, ev.target) in db.processed then Answer(s, h, 500)
      else Answer(s, h, 200).(db := MarkProcessed(db, e, ev.target))
    case Gated => GateOpen(s, h, ev, c)
    case Decided(request, suppress) =>
      if (e, ev.target) in db.processed then Answer(s, h, 500)
      else Answer(s, h, 200).(db := WatcherCommit(db, e, ev.payload.incident, request, suppress, c.event, c.now))
    case Thinking =>
      if !ev.payload.ReasoningRequested? then Answer(s, h, 500)
      else if ev.payload.incident !in db.incidents || ev.payload.plan !in db.plans then Answer(s, h, 422)
      else SetPhase(s, h, Checked(HasRec(db, ev.payload.incident)))
    case Checked(existing) => CommitChecked(s, h, e, ev, existing, c)
    case Recovering =>
      if (e, ev.target) in db.processed then Answer(s, h, 200) else SetPhase(s, h, RecoveryGated)
    case RecoveryGated =>
      if (e, ev.target) in db.processed then Answer(s, h, 500)
      else Answer(s, h, 200).(db := MarkProcessed(db, e, ev.target))
    case Locked => PostCard(s, h, ev.payload.incident, ev.payload.recommendation, c)
    case Posted(ts, read) => RecordCard(s, h, e, ev.payload.incident, ev.payload.recommendation, ts, read)
    case Done(_) => s
  }

  // ---------------------------------------------------------------- the step system

  datatype Action =
    // Ingestion and the world around the pipeline.
    | OpenIncident(i: Id, e: Id, now: int)
    | AttachAlert(i: Id, e: Id, now: int)
    | Repeat(original: Id, e: Id, now: int)
    | Stray(ev: Event, e: Id, now: int)
    | DeleteAlerts(i: Id)
    | DeletePlan(p: Id)
    | DeleteIncident(i: Id)
    | Move(i: Id, status: Status)
    | Requeue(e: Id, seen: Row, now: int)
    // The outbox worker and its reaper.
    | Claim(e: Id, w: Id, now: int)
    | Dispatch(w: Id, h: Id)
    | Refuse(w: Id)
    | GiveUp(w: Id)
    | Hear(w: Id)
    | Fetch(w: Id)
    | Record(w: Id, now: int)
    | Reap(e: Id, now: int, age: int)
    | WorkerDies(w: Id)
    // The consumers.
    | Consume(h: Id, c: Choice)
    | HandlerFails(h: Id)
    | HandlerDies(h: Id)

  /** Between an explicit check and its commit the row that was checked stays put. */
  predicate Relied(s: State, i: Id) {
    exists h :: h in s.handlers && s.handlers[h].phase.Checked?
                && s.handlers[h].event in s.db.written
                && s.db.written[s.handlers[h].event].payload.incident == i
  }

  predicate ReliedPlan(s: State, p: Id) {
    exists h :: h in s.handlers && s.handlers[h].phase.Checked?
                && s.handlers[h].event in s.db.written
                && s.db.written[s.handlers[h].event].payload.ReasoningRequested?
                && s.db.written[s.handlers[h].event].payload.plan == p
  }

  predicate Enabled(s: State, a: Action) {
    var db := s.db;
    match a
    case OpenIncident(i, e, _) => i !in db.incidents && i !in db.openedBy && e !in db.written
    case AttachAlert(i, e, _) => i in db.incidents && db.incidents[i] == Open && e !in db.written
    case Repeat(original, e, _) =>
      original in db.written && !db.written[original].payload.AlertNormalized? && e !in db.written
    case Stray(ev, e, _) => !Handles(ev) && ev.origin == Elsewhere && e !in db.written
    case DeleteAlerts(i) => i in db.withAlerts
    case DeletePlan(p) =>
      p in db.plans && (forall r :: r in db.recs ==> db.recs[r].plan != p) && !ReliedPlan(s, p)
    case DeleteIncident(i) =>
      i in db.incidents && i !in db.withAlerts && !HasPlan(db, i) && !HasRec(db, i) && !Relied(s, i)
    case Move(i, status) =>
      // Every mover but delivery: ingestion and Slack resolve, an operator closes.
      i in db.incidents && status != Investigating && IsValidTransition(db.incidents[i], status)
    case Requeue(e, seen, _) =>
      // Read without a lock as a dead letter, whatever the row is by the time of the write.
      e in db.rows && seen.status == DeadLetter
    case Claim(e, w, now) => e in db.rows && IsDue(db.rows[e], now) && w !in s.workers
    case Dispatch(w, h) =>
      && w in s.workers && s.workers[w].turn == Claimed && h !in s.handlers
      && forall w' :: w' in s.workers ==> s.workers[w'].turn != Waiting(h)
    case Refuse(w) => w in s.workers && s.workers[w].turn == Claimed
    case GiveUp(w) => w in s.workers && (s.workers[w].turn == Claimed || s.workers[w].turn.Waiting?)
    case Hear(w) =>
      && w in s.workers && s.workers[w].turn.Waiting?
      && s.workers[w].turn.handler in s.handlers
      && s.handlers[s.workers[w].turn.handler].phase.Done?
    case Fetch(w) => w in s.workers && s.workers[w].turn.Heard?
    case Record(w, _) => w in s.workers && s.workers[w].turn.Fetched?
    case Reap(e, now, age) => e in db.rows && IsStuck(db.rows[e], now, age)
    case WorkerDies(w) => w in s.workers
    case Consume(h, c) => CanHandle(s, h, c)
    case HandlerFails(h) => h in s.handlers && !s.handlers[h].phase.Done?
    case HandlerDies(h) => h in s.handlers
  }

  function SetTurn(s: State, w: Id, turn: Turn): State
    requires w in s.workers
  {
    s.(workers := s.workers[w := s.workers[w].(turn := turn)])
  }

  function EndTurn(s: State, w: Id): State {
    s.(workers := s.workers - {w})
  }

  function SetRow(s: State, e: Id, row: Row): State {
    s.(db := s.db.(rows := s.db.rows[e := row]))
  }

  /** The recording transaction's write: remove the row, or update the row it read. */
  function RecordOutcome(s: State, e: Id, outcome: Outcome, seen: Row, now: int): State {
    if e !in s.db.rows then s
    else if outcome == Delivered then s.(db := s.db.(rows := s.db.rows - {e}))
    else SetRow(s, e, WriteBack(s.db.rows[e], seen, Failed(seen, outcome, now)))
  }

  /** The recommendation a handler holds locked, if it holds one. */
  function HeldLocks(s: State, h: Id): set<Id> {
    set r | r in s.locks && s.locks[r] == h
  }

  /** A handler stops mid-phase: its transaction rolls back, its lock goes, a posted card stays. */
  function Abandon(s: State, h: Id): State
    requires h in s.handlers
  {
    var held := HeldLocks(s, h);
    s.(locks := s.locks - held,
       died := if s.handlers[h].phase.Posted? then s.died + multiset(held) else s.died)
  }

  function Next(s: State, a: Action): State
    requires Enabled(s, a)
  {
    var db := s.db;
    match a
    case OpenIncident(i, e, now) =>
      s.(db := WriteOutboxEvent(db.(incidents := db.incidents[i := Open], withAlerts := db.withAlerts + {i},
                                    openedBy := db.openedBy[i := e]),
                                e, Event(Watcher, AlertNormalized(i, false), Ingestion), now))
    case AttachAlert(i, e, now) =>
      s.(db := WriteOutboxEvent(db.(withAlerts := db.withAlerts + {i}),
                                e, Event(Watcher, AlertNormalized(i, true), Ingestion), now))
    case Repeat(original, e, now) =>
      s.(db := WriteOutboxEvent(db, e, db.written[original].(origin := Elsewhere), now))
    case Stray(ev, e, now) => s.(db := WriteOutboxEvent(db, e, ev, now))
    case DeleteAlerts(i) => s.(db := db.(withAlerts := db.withAlerts - {i}))
    case DeletePlan(p) => s.(db := db.(plans := db.plans - {p}))
    case DeleteIncident(i) => s.(db := db.(incidents := db.incidents - {i}))
    case Move(i, status) => s.(db := db.(incidents := db.incidents[i := status]))
    case Requeue(e, seen, now) => SetRow(s, e, WriteBack(db.rows[e], seen, RequeueRow(seen, now)))
    case Claim(e, w, now) =>
      SetRow(s, e, ClaimRow(db.rows[e], now))
      .(workers := s.workers[w := Worker(e, Claimed)], claims := s.claims + multiset{e})
    case Dispatch(w, h) =>
      SetTurn(s, w, Waiting(h)).(handlers := s.handlers[h := Handler(s.workers[w].event, Start)])
    case Refuse(w) => SetTurn(s, w, Heard(Permanent))
    case GiveUp(w) => SetTurn(s, w, Heard(Retryable))
    case Hear(w) => SetTurn(s, w, Heard(Classify(s.handlers[s.workers[w].turn.handler].phase.code)))
    case Fetch(w) =>
      var e := s.workers[w].event;
      if e in db.rows then SetTurn(s, w, Fetched(s.workers[w].turn.outcome, db.rows[e])) else EndTurn(s, w)
    case Record(w, now) =>
      var Worker(e, Fetched(outcome, seen)) := s.workers[w];
      EndTurn(RecordOutcome(s, e, outcome, seen, now), w)
    case Reap(e, now, age) => SetRow(s, e, MarkFailed(db.rows[e], now, true))
    case WorkerDies(w) => EndTurn(s, w)
    case Consume(h, c) => Handle(s, h, c)
    case HandlerFails(h) => Answer(Abandon(s, h), h, 500)
    case HandlerDies(h) => var left := Abandon(s, h); left.(handlers := left.handlers - {h})
  }

  ghost predicate StepAt(states: seq<State>, actions: seq<Action>, k: nat)
    requires |states| == |actions| + 1 && k < |actions|
  {
    Enabled(states[k], actions[k]) && states[k + 1] == Next(states[k], actions[k])
  }

  /** `states` is a run: it starts empty and every state follows from the one before. */
  ghost predicate IsRun(states: seq<State>, actions: seq<Action>) {
    && |states| == |actions| + 1
    && states[0] == Init
    && forall k :: 0 <= k < |actions| ==> StepAt(states, actions, k)
  }

  ghost predicate Reachable(s: State) {
    exists states, actions :: IsRun(states, actions) && states[|actions|] == s
  }

  /** A run can go on with any enabled action. */
  lemma Go(states: seq<State>, actions: seq<Action>, a: Action) returns (t: seq<State>, b: seq<Action>)
    requires IsRun(states, actions) && Enabled(states[|actions|], a)
    ensures t == states + [Next(states[|actions|], a)] && b == actions + [a]
    ensures IsRun(t, b) && t[|b|] == Next(states[|actions|], a)
  {
    t, b := states + [Next(states[|actions|], a)], actions + [a];
    forall k | 0 <= k < |b| ensures StepAt(t, b, k) {
      if k < |actions| { assert StepAt(states, actions, k); }
    }
  }
}
