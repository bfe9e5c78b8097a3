/** Incidents and their alerts as ingestion keeps them (apps/ingestion publisher.py, deduper.py and
    resolver.py), beside the other writers of an incident's status. Transactions are serial. */
module Incidents {
  import opened Lifecycle
  import opened Wrappers

  datatype AlertStatus = Firing | AlertResolved | OtherStatus(name: string)

  /** A normalized alert as far as ingestion acts on it, with the reference time the caller may give. */
  datatype Signal = Signal(fingerprint: string, status: AlertStatus, resolvedAt: Option<int>, receivedAt: int, asOf: Option<int>)

  /** The moment the dedup window ends at. */
  function Reference(s: Signal): int {
    if s.asOf.Some? then s.asOf.value else s.receivedAt
  }

  datatype Resolver = ByAlerts | BySlack

  /** `reference` is the reference time of the alert the incident was opened by; `openedAt` the
      database's clock at that moment. */
  datatype Incident = Incident(
    fingerprint: string,
    status: Status,
    alertCount: nat,
    openedAt: int,
    reference: int,
    resolvedAt: Option<int>,
    resolvedBy: Option<Resolver>)

  datatype AlertRow = AlertRow(incident: nat, status: AlertStatus, resolvedAt: Option<int>)

  /** Incidents in the order they were committed, an incident's id being its index. */
  datatype Books = Books(incidents: seq<Incident>, alerts: seq<AlertRow>)

  /** Five minutes, in seconds. */
  const DEDUP_WINDOW: int := 300

  // ---------------------------------------------------------------- the lookups

  predicate Absorbs(x: Incident, fingerprint: string, asOf: int) {
    x.fingerprint == fingerprint && x.status == Open && x.openedAt >= asOf - DEDUP_WINDOW
  }

  predicate Resolvable(x: Incident, fingerprint: string) {
    x.fingerprint == fingerprint && x.status in {Open, Investigating}
  }

  /** The incident a firing alert attaches to: of those that absorb it one opened last. */
  predicate IsOpenMatch(b: Books, s: Signal, i: nat) {
    && i < |b.incidents| && Absorbs(b.incidents[i], s.fingerprint, Reference(s))
    && forall j :: 0 <= j < |b.incidents| && Absorbs(b.incidents[j], s.fingerprint, Reference(s)) ==>
         b.incidents[j].openedAt <= b.incidents[i].openedAt
  }

  predicate IsLiveMatch(b: Books, fingerprint: string, i: nat) {
    && i < |b.incidents| && Resolvable(b.incidents[i], fingerprint)
    && forall j :: 0 <= j < |b.incidents| && Resolvable(b.incidents[j], fingerprint) ==>
         b.incidents[j].openedAt <= b.incidents[i].openedAt
  }

  predicate NoOpenMatch(b: Books, s: Signal) {
    forall j :: 0 <= j < |b.incidents| ==> !Absorbs(b.incidents[j], s.fingerprint, Reference(s))
  }

  predicate NoLiveMatch(b: Books, fingerprint: string) {
    forall j :: 0 <= j < |b.incidents| ==> !Resolvable(b.incidents[j], fingerprint)
  }

  // ---------------------------------------------------------------- the transactions

  function Attached(b: Books, s: Signal, i: nat): Books
    requires i < |b.incidents|
  {
    Books(b.incidents[i := b.incidents[i].(alertCount := b.incidents[i].alertCount + 1)],
          b.alerts + [AlertRow(i, s.status, s.resolvedAt)])
  }

  function Opened(b: Books, s: Signal, now: int): Books {
    Books(b.incidents + [Incident(s.fingerprint, Open, 1, now, Reference(s), None, None)],
          b.alerts + [AlertRow(|b.incidents|, s.status, s.resolvedAt)])
  }

  function FlipRow(row: AlertRow, i: nat, at: int): AlertRow {
    if row.incident == i && row.status == Firing then row.(status := AlertResolved, resolvedAt := Some(at)) else row
  }

  function Flipped(alerts: seq<AlertRow>, i: nat, at: int): (r: seq<AlertRow>)
    ensures |r| == |alerts| && forall k :: 0 <= k < |r| ==> r[k] == FlipRow(alerts[k], i, at)
  {
    seq(|alerts|, k requires 0 <= k < |alerts| => FlipRow(alerts[k], i, at))
  }

  predicate AnyFiring(alerts: seq<AlertRow>, i: nat) {
    exists k :: 0 <= k < |alerts| && alerts[k].incident == i && alerts[k].status == Firing
  }

  function Moved(x: Incident, status: Status, at: int, resolver: Option<Resolver>): Incident {
    if status == Resolved then x.(status := Resolved, resolvedAt := Some(at), resolvedBy := resolver) else x.(status := status)
  }

  /** The alerts of `i` are flipped, and `i` is resolved if none of them is firing any more. */
  function Cleared(b: Books, i: nat, at: int): Books
    requires i < |b.incidents|
  {
    var alerts := Flipped(b.alerts, i, at);
    if AnyFiring(alerts, i) then b.(alerts := alerts)
    else Books(b.incidents[i := Moved(b.incidents[i], Resolved, at, Some(ByAlerts))], alerts)
  }

  /** The source's own clearing time, or else when the webhook came in. */
  function ClearingTime(s: Signal): int {
    if s.resolvedAt.Some? then s.resolvedAt.value else s.receivedAt
  }

  /** A status change by anyone but ingestion: delivery marks, Slack resolves, an operator closes.
      An illegal one is refused and changes nothing. */
  function Transitioned(b: Books, i: nat, status: Status, at: int): Books {
    if i < |b.incidents| && IsValidTransition(b.incidents[i].status, status) then
      b.(incidents := b.incidents[i := Moved(b.incidents[i], status, at, Some(BySlack))])
    else b
  }

  datatype Action =
    | OpenNew(signal: Signal, now: int)
    | Attach(signal: Signal, found: nat)
    | Clear(signal: Signal, found: nat)
    | Ignore(signal: Signal)
    | Transition(i: nat, status: Status, at: int)

  ghost predicate Does(b: Books, a: Action, after: Books) {
    match a
    case OpenNew(s, now) => s.status != AlertResolved && NoOpenMatch(b, s) && after == Opened(b, s, now)
    case Attach(s, i) => s.status != AlertResolved && IsOpenMatch(b, s, i) && after == Attached(b, s, i)
    case Clear(s, i) => s.status == AlertResolved && IsLiveMatch(b, s.fingerprint, i) && after == Cleared(b, i, ClearingTime(s))
    case Ignore(s) => s.status == AlertResolved && NoLiveMatch(b, s.fingerprint) && after == b
    case Transition(i, status, at) => after == Transitioned(b, i, status, at)
  }

  // ---------------------------------------------------------------- the books

  function Rows(alerts: seq<AlertRow>, i: nat): nat {
    if alerts == [] then 0
    else Rows(alerts[..|alerts| - 1], i) + if alerts[|alerts| - 1].incident == i then 1 else 0
  }

  /** One incident's entry is right. */
  ghost predicate EntryInv(b: Books, i: nat)
    requires i < |b.incidents|
  {
    var x := b.incidents[i];
    && x.alertCount == Rows(b.alerts, i)
    && (x.resolvedBy == Some(ByAlerts) ==> !AnyFiring(b.alerts, i))
    && (x.resolvedAt.Some? <==> x.status in {Resolved, Closed})
    && (x.resolvedBy.Some? <==> x.resolvedAt.Some?)
    && x.status in {Open, Investigating, Resolved, Closed}
  }

  /** An incident still open was opened more than the window before the alert that opened any later
      one with its fingerprint. */
  ghost predicate WindowInv(b: Books, i: nat, j: nat)
    requires i < |b.incidents| && j < |b.incidents|
  {
    i < j && b.incidents[i].fingerprint == b.incidents[j].fingerprint && b.incidents[i].status == Open ==>
      b.incidents[i].openedAt + DEDUP_WINDOW < b.incidents[j].reference
  }

  ghost predicate Inv(b: Books) {
    && (forall i :: 0 <= i < |b.incidents| ==> EntryInv(b, i))
    && (forall i, j :: 0 <= i < |b.incidents| && 0 <= j < |b.incidents| ==> WindowInv(b, i, j))
    && (forall k :: 0 <= k < |b.alerts| ==> b.alerts[k].incident < |b.incidents|)
  }

  lemma {:induction false} RowsOf(a: seq<AlertRow>, b: seq<AlertRow>, i: nat)
    requires |a| == |b| && forall k :: 0 <= k < |a| ==> a[k].incident == b[k].incident
    ensures Rows(a, i) == Rows(b, i)
  {
    if a != [] {
      RowsOf(a[..|a| - 1], b[..|b| - 1], i);
    } else {
    }
  }

  lemma {:induction false} NoRowsYet(alerts: seq<AlertRow>, i: nat)
    requires forall k :: 0 <= k < |alerts| ==> alerts[k].incident != i
    ensures Rows(alerts, i) == 0
  {
    if alerts != [] {
      NoRowsYet(alerts[..|alerts| - 1], i);
    } else {
    }
  }

  lemma OneRowMore(alerts: seq<AlertRow>, row: AlertRow, i: nat)
    ensures Rows(alerts + [row], i) == Rows(alerts, i) + if row.incident == i then 1 else 0
    ensures AnyFiring(alerts + [row], i) ==> AnyFiring(alerts, i) || (row.incident == i && row.status == Firing)
  {
    assert (alerts + [row])[..|alerts|] == alerts;
    if AnyFiring(alerts + [row], i) {
      var k :| 0 <= k < |alerts + [row]| && (alerts + [row])[k].incident == i && (alerts + [row])[k].status == Firing;
      assert k < |alerts| ==> alerts[k] == (alerts + [row])[k];
    }
  }

  /** Flipping leaves nothing firing on the incident, so a resolve that finds an incident always
      resolves it. */
  lemma FlippedIsQuiet(alerts: seq<AlertRow>, i: nat, at: int)
    ensures !AnyFiring(Flipped(alerts, i, at), i)
    ensures forall j :: j != i ==> (AnyFiring(Flipped(alerts, i, at), j) <==> AnyFiring(alerts, j))
  {
    var after := Flipped(alerts, i, at);
    forall j | j != i ensures AnyFiring(after, j) <==> AnyFiring(alerts, j) {
      if AnyFiring(alerts, j) {
        var k :| 0 <= k < |alerts| && alerts[k].incident == j && alerts[k].status == Firing;
        assert after[k] == alerts[k];
      }
      if AnyFiring(after, j) {
        var k :| 0 <= k < |after| && after[k].incident == j && after[k].status == Firing;
        assert after[k] == alerts[k];
      }
    }
  }

  // ---------------------------------------------------------------- every transaction keeps them

  lemma OpenedKeeps(b: Books, s: Signal, now: int)
    requires Inv(b) && NoOpenMatch(b, s)
    ensures Inv(Opened(b, s, now))
  {
    var after, n := Opened(b, s, now), |b.incidents|;
    NoRowsYet(b.alerts, n);
    forall i | 0 <= i < |after.incidents| ensures EntryInv(after, i) {
      OneRowMore(b.alerts, AlertRow(n, s.status, s.resolvedAt), i);
      if i < n { assert EntryInv(b, i) && after.incidents[i] == b.incidents[i]; }
    }
    forall i, j | 0 <= i < |after.incidents| && 0 <= j < |after.incidents| ensures WindowInv(after, i, j) {
      if i < n && j < n { assert WindowInv(b, i, j); }
      if i < n && j == n { assert !Absorbs(b.incidents[i], s.fingerprint, Reference(s)); }
    }
  }

  lemma AttachedKeeps(b: Books, s: Signal, i: nat)
    requires Inv(b) && IsOpenMatch(b, s, i)
    ensures Inv(Attached(b, s, i))
  {
    var after := Attached(b, s, i);
    forall j | 0 <= j < |after.incidents| ensures EntryInv(after, j) {
      OneRowMore(b.alerts, AlertRow(i, s.status, s.resolvedAt), j);
      assert EntryInv(b, j);
    }
    forall j, k | 0 <= j < |after.incidents| && 0 <= k < |after.incidents| ensures WindowInv(after, j, k) {
      assert WindowInv(b, j, k);
    }
  }

  /** An incident that only leaves `Open`, or keeps its status, keeps every window. */
  lemma WindowsStay(b: Books, after: Books, i: nat, x: Incident)
    requires Inv(b) && i < |b.incidents| && after.incidents == b.incidents[i := x]
    requires x.fingerprint == b.incidents[i].fingerprint && x.openedAt == b.incidents[i].openedAt
    requires x.reference == b.incidents[i].reference && (x.status == Open ==> b.incidents[i].status == Open)
    ensures forall j, k :: 0 <= j < |after.incidents| && 0 <= k < |after.incidents| ==> WindowInv(after, j, k)
  {
    forall j, k | 0 <= j < |after.incidents| && 0 <= k < |after.incidents| ensures WindowInv(after, j, k) {
      assert WindowInv(b, j, k);
    }
  }

  lemma ClearedResolves(b: Books, i: nat, at: int)
    requires i < |b.incidents|
    ensures Cleared(b, i, at)
            == Books(b.incidents[i := Moved(b.incidents[i], Resolved, at, Some(ByAlerts))], Flipped(b.alerts, i, at))
  {
    FlippedIsQuiet(b.alerts, i, at);
  }

  lemma ClearedKeeps(b: Books, i: nat, at: int)
    requires Inv(b) && i < |b.incidents| && b.incidents[i].status in {Open, Investigating}
    ensures Inv(Cleared(b, i, at))
  {
    var after := Cleared(b, i, at);
    ClearedResolves(b, i, at);
    FlippedIsQuiet(b.alerts, i, at);
    WindowsStay(b, after, i, Moved(b.incidents[i], Resolved, at, Some(ByAlerts)));
    forall j | 0 <= j < |after.incidents| ensures EntryInv(after, j) {
      RowsOf(b.alerts, after.alerts, j);
      assert EntryInv(b, j);
    }
  }

  lemma TransitionedKeeps(b: Books, i: nat, status: Status, at: int)
    requires Inv(b)
    ensures Inv(Transitioned(b, i, status, at))
  {
    if i < |b.incidents| && IsValidTransition(b.incidents[i].status, status) {
      var after := Transitioned(b, i, status, at);
      WindowsStay(b, after, i, Moved(b.incidents[i], status, at, Some(BySlack)));
      forall j | 0 <= j < |after.incidents| ensures EntryInv(after, j) { assert EntryInv(b, j); }
    }
  }

  /** What a transaction never does: lose a row, move an incident back or off the lifecycle, alter
      a stamp, touch an alert that is resolved, or put a firing alert on an incident its alerts have
      resolved. */
  ghost predicate Onward(b: Books, after: Books) {
    && |b.incidents| <= |after.incidents| && |b.alerts| <= |after.alerts|
    && (forall i :: 0 <= i < |b.incidents| ==> EntryOnward(b, after, i))
    && (forall k :: 0 <= k < |b.alerts| ==> RowOnward(b.alerts[k], after.alerts[k]))
  }

  ghost predicate EntryOnward(b: Books, after: Books, i: nat)
    requires i < |b.incidents| && i < |after.incidents|
  {
    var x, y := b.incidents[i], after.incidents[i];
    && y.fingerprint == x.fingerprint && y.openedAt == x.openedAt && y.reference == x.reference
    && (y.status == x.status || Rank(x.status) < Rank(y.status))
    && (x.resolvedAt.Some? ==> y.resolvedAt == x.resolvedAt && y.resolvedBy == x.resolvedBy && y.alertCount == x.alertCount)
    && x.alertCount <= y.alertCount
  }

  ghost predicate RowOnward(x: AlertRow, y: AlertRow) {
    y == x || (x.status == Firing && y.status == AlertResolved && y.resolvedAt.Some? && y.incident == x.incident)
  }

  lemma DoesKeeps(b: Books, a: Action, after: Books)
    requires Inv(b) && Does(b, a, after)
    ensures Inv(after) && Onward(b, after)
  {
    match a
    case OpenNew(s, now) => OpenedKeeps(b, s, now);
    case Attach(s, i) => AttachedKeeps(b, s, i); AttachedOnward(b, s, i);
    case Clear(s, i) => ClearedKeeps(b, i, ClearingTime(s)); ClearedOnward(b, i, ClearingTime(s));
    case Ignore(_) =>
    case Transition(i, status, at) => TransitionedKeeps(b, i, status, at); TransitionedOnward(b, i, status, at);
  }

  lemma AttachedOnward(b: Books, s: Signal, i: nat)
    requires Inv(b) && IsOpenMatch(b, s, i)
    ensures Onward(b, Attached(b, s, i))
  {
    assert EntryInv(b, i);
  }

  lemma ClearedOnward(b: Books, i: nat, at: int)
    requires Inv(b) && i < |b.incidents| && b.incidents[i].status in {Open, Investigating}
    ensures Onward(b, Cleared(b, i, at))
  {
    ClearedResolves(b, i, at);
    assert EntryInv(b, i);
  }

  lemma TransitionedOnward(b: Books, i: nat, status: Status, at: int)
    requires Inv(b)
    ensures Onward(b, Transitioned(b, i, status, at))
  {
    if i < |b.incidents| { assert EntryInv(b, i); }
  }

  // ---------------------------------------------------------------- runs

  ghost predicate DoesAt(states: seq<Books>, actions: seq<Action>, k: nat)
    requires |states| == |actions| + 1 && k < |actions|
  {
    Does(states[k], actions[k], states[k + 1])
  }

  ghost predicate IsRun(states: seq<Books>, actions: seq<Action>) {
    && |states| == |actions| + 1 && states[0] == Books([], [])
    && forall k :: 0 <= k < |actions| ==> DoesAt(states, actions, k)
  }

  lemma {:induction false} RunKeeps(states: seq<Books>, actions: seq<Action>, n: nat)
    requires IsRun(states, actions) && n <= |actions|
    ensures Inv(states[n])
  {
    if n > 0 {
      RunKeeps(states, actions, n - 1);
      assert DoesAt(states, actions, n - 1);
      DoesKeeps(states[n - 1], actions[n - 1], states[n]);
    } else {
    }
  }

  lemma {:induction false} RunOnward(states: seq<Books>, actions: seq<Action>, m: nat, n: nat)
    requires IsRun(states, actions) && m <= n <= |actions|
    ensures Onward(states[m], states[n])
    decreases n
  {
    if m < n {
      RunOnward(states, actions, m, n - 1);
      RunKeeps(states, actions, n - 1);
      assert DoesAt(states, actions, n - 1);
      DoesKeeps(states[n - 1], actions[n - 1], states[n]);
      OnwardChains(states[m], states[n - 1], states[n]);
    } else {
    }
  }

  lemma OnwardChains(a: Books, b: Books, c: Books)
    requires Onward(a, b) && Onward(b, c)
    ensures Onward(a, c)
  {
    forall i | 0 <= i < |a.incidents| ensures EntryOnward(a, c, i) { assert EntryOnward(a, b, i) && EntryOnward(b, c, i); }
    forall k | 0 <= k < |a.alerts| ensures RowOnward(a.alerts[k], c.alerts[k]) {
      assert RowOnward(a.alerts[k], b.alerts[k]) && RowOnward(b.alerts[k], c.alerts[k]);
    }
  }

  /** The count of every incident is the number of its alert rows, at every point of every run. */
  lemma CountsAreRows(states: seq<Books>, actions: seq<Action>, n: nat, i: nat)
    requires IsRun(states, actions) && n <= |actions| && i < |states[n].incidents|
    ensures states[n].incidents[i].alertCount == Rows(states[n].alerts, i)
  {
    RunKeeps(states, actions, n);
    assert EntryInv(states[n], i);
  }

  /** A still-open incident was opened more than the window before the reference time of the alert that
      opened any later one with its fingerprint; and before the later one was opened, if that time came
      before its row was written. */
  lemma OpenIncidentsAreApart(states: seq<Books>, actions: seq<Action>, n: nat, i: nat, j: nat)
    requires IsRun(states, actions) && n <= |actions| && i < j < |states[n].incidents|
    requires states[n].incidents[i].fingerprint == states[n].incidents[j].fingerprint && states[n].incidents[i].status == Open
    ensures states[n].incidents[i].openedAt + DEDUP_WINDOW < states[n].incidents[j].reference
    ensures states[n].incidents[j].reference <= states[n].incidents[j].openedAt ==>
              states[n].incidents[i].openedAt + DEDUP_WINDOW < states[n].incidents[j].openedAt
  {
    RunKeeps(states, actions, n);
    assert WindowInv(states[n], i, j);
  }

  /** An incident its alerts have resolved stays so, with the same stamp, and never holds a firing
      alert again. */
  lemma ResolvedStaysQuiet(states: seq<Books>, actions: seq<Action>, m: nat, n: nat, i: nat)
    requires IsRun(states, actions) && m <= n <= |actions| && i < |states[m].incidents|
    requires states[m].incidents[i].resolvedBy == Some(ByAlerts)
    ensures i < |states[n].incidents| && !AnyFiring(states[n].alerts, i)
    ensures states[n].incidents[i].resolvedAt == states[m].incidents[i].resolvedAt
    ensures states[n].incidents[i].status in {Resolved, Closed}
  {
    RunOnward(states, actions, m, n);
    assert EntryOnward(states[m], states[n], i);
    RunKeeps(states, actions, m);
    assert EntryInv(states[m], i);
    RunKeeps(states, actions, n);
    assert EntryInv(states[n], i);
  }

  /** Every stamp is written once: a resolved alert's row and a resolved incident's time never
      change again. */
  lemma StampsAreFinal(states: seq<Books>, actions: seq<Action>, m: nat, n: nat, k: nat, i: nat)
    requires IsRun(states, actions) && m <= n <= |actions| && k < |states[m].alerts| && i < |states[m].incidents|
    ensures k < |states[n].alerts| && i < |states[n].incidents|
    ensures states[m].alerts[k].status == AlertResolved ==> states[n].alerts[k] == states[m].alerts[k]
    ensures states[m].incidents[i].resolvedAt.Some? ==> states[n].incidents[i].resolvedAt == states[m].incidents[i].resolvedAt
  {
    RunOnward(states, actions, m, n);
    assert RowOnward(states[m].alerts[k], states[n].alerts[k]);
    assert EntryOnward(states[m], states[n], i);
  }

  /** The alerts of an incident that is resolved or closed stay as they are for ever: one that fires then,
      as after a resolve from Slack, fires in every later state, since later resolves look for a live
      incident and find this one no more. */
  lemma {:induction false} SlackLeavesAlertsFiring(states: seq<Books>, actions: seq<Action>, m: nat, n: nat, k: nat)
    requires IsRun(states, actions) && m <= n <= |actions| && k < |states[m].alerts|
    requires states[m].alerts[k].incident < |states[m].incidents|
    requires states[m].incidents[states[m].alerts[k].incident].status in {Resolved, Closed}
    ensures k < |states[n].alerts| && states[n].alerts[k] == states[m].alerts[k]
    ensures states[n].alerts[k].status == Firing <==> states[m].alerts[k].status == Firing
    decreases n
  {
    if m < n {
      SlackLeavesAlertsFiring(states, actions, m, n - 1, k);
      RunOnward(states, actions, m, n - 1);
      var i := states[m].alerts[k].incident;
      assert EntryOnward(states[m], states[n - 1], i);
      assert DoesAt(states, actions, n - 1);
      RunKeeps(states, actions, m);
      RunKeeps(states, actions, n - 1);
      assert EntryInv(states[m], i) && EntryInv(states[n - 1], i);
      RowOfResolvedStays(states[n - 1], actions[n - 1], states[n], k);
    } else {
    }
  }

  lemma RowOfResolvedStays(b: Books, a: Action, after: Books, k: nat)
    requires Inv(b) && Does(b, a, after) && k < |b.alerts| && b.alerts[k].incident < |b.incidents|
    requires b.incidents[b.alerts[k].incident].status in {Resolved, Closed}
    ensures k < |after.alerts| && after.alerts[k] == b.alerts[k]
  {
    match a
    case Clear(s, i) => ClearedResolves(b, i, ClearingTime(s));
    case OpenNew(_, _) =>
    case Attach(_, _) =>
    case Ignore(_) =>
    case Transition(_, _, _) =>
  }

  ghost predicate ClearsAt(actions: seq<Action>, k: nat, i: nat)
    requires k < |actions|
  {
    actions[k].Clear? && actions[k].found == i
  }

  /** One alert's row through one transaction: it is flipped by a clear of its incident and by nothing else. */
  lemma RowFlips(b: Books, a: Action, after: Books, k: nat)
    requires Does(b, a, after) && k < |b.alerts| && b.alerts[k].status == Firing
    ensures k < |after.alerts| && after.alerts[k].incident == b.alerts[k].incident
    ensures after.alerts[k].status == Firing <==> !(a.Clear? && a.found == b.alerts[k].incident)
  {
    match a
    case Clear(s, i) => ClearedResolves(b, i, ClearingTime(s));
    case OpenNew(_, _) =>
    case Attach(_, _) =>
    case Ignore(_) =>
    case Transition(_, _, _) =>
  }

  /** A firing alert fires exactly until a resolve clears its incident. */
  lemma {:induction false} FiresUntilCleared(states: seq<Books>, actions: seq<Action>, m: nat, n: nat, k: nat)
    requires IsRun(states, actions) && m <= n <= |actions| && k < |states[m].alerts| && states[m].alerts[k].status == Firing
    ensures k < |states[n].alerts| && states[n].alerts[k].incident == states[m].alerts[k].incident
    ensures states[n].alerts[k].status == Firing <==>
              forall j :: m <= j < n ==> !ClearsAt(actions, j, states[m].alerts[k].incident)
    decreases n
  {
    if m < n {
      FiresUntilCleared(states, actions, m, n - 1, k);
      assert DoesAt(states, actions, n - 1);
      RunOnward(states, actions, n - 1, n);
      assert RowOnward(states[n - 1].alerts[k], states[n].alerts[k]);
      var i := states[m].alerts[k].incident;
      if states[n - 1].alerts[k].status == Firing {
        RowFlips(states[n - 1], actions[n - 1], states[n], k);
        assert states[n].alerts[k].status == Firing <==> !ClearsAt(actions, n - 1, i);
      }
      assert (forall j :: m <= j < n ==> !ClearsAt(actions, j, i)) <==>
             (forall j :: m <= j < n - 1 ==> !ClearsAt(actions, j, i)) && !ClearsAt(actions, n - 1, i);
    } else {
    }
  }

  /** So an incident that a firing alert has opened, or was attached to, has a firing alert until a
      resolve clears it. */
  lemma IncidentFires(states: seq<Books>, actions: seq<Action>, m: nat, n: nat, i: nat)
    requires IsRun(states, actions) && m < n <= |actions|
    requires match actions[m]
             case OpenNew(s, _) => s.status == Firing && i == |states[m].incidents|
             case Attach(s, found) => s.status == Firing && i == found
             case _ => false
    requires forall j :: m < j < n ==> !ClearsAt(actions, j, i)
    ensures AnyFiring(states[n].alerts, i)
  {
    var k := |states[m].alerts|;
    assert DoesAt(states, actions, m);
    assert states[m + 1].alerts[k].incident == i && states[m + 1].alerts[k].status == Firing;
    FiresUntilCleared(states, actions, m + 1, n, k);
  }

  /** A resolve delivered twice: the repeat finds nothing, and so changes nothing, exactly when no
      other live incident has the fingerprint. */
  lemma RepeatedResolve(b: Books, s: Signal, i: nat, after: Books)
    requires Inv(b) && Does(b, Clear(s, i), after)
    ensures NoLiveMatch(after, s.fingerprint) <==>
              forall j :: 0 <= j < |b.incidents| && j != i ==> !Resolvable(b.incidents[j], s.fingerprint)
    ensures forall j: nat, again :: Does(after, Clear(s, j), again) ==>
              j != i && j < |b.incidents| && Resolvable(b.incidents[j], s.fingerprint) && again != after
  {
    ClearedResolves(b, i, ClearingTime(s));
    assert forall j :: 0 <= j < |b.incidents| && j != i ==> after.incidents[j] == b.incidents[j];
    forall j: nat, again | Does(after, Clear(s, j), again)
      ensures j != i && j < |b.incidents| && Resolvable(b.incidents[j], s.fingerprint) && again != after
    {
      ClearedResolves(after, j, ClearingTime(s));
      assert again.incidents[j].status == Resolved;
    }
  }

  /** The trap in it, whenever the alerts come: of two incidents opened past each other's window the
      repeat of a resolve that was about the newer one resolves the older. */
  lemma RepeatHitsOlderIncident(fingerprint: string, t: int, later: int, at: int)
    returns (states: seq<Books>, actions: seq<Action>)
    requires t + DEDUP_WINDOW < later
    ensures IsRun(states, actions) && |actions| == 4
    ensures actions[0].OpenNew? && actions[0].signal.receivedAt == t && actions[1].OpenNew? && actions[1].signal.receivedAt == later
    ensures var s := Signal(fingerprint, AlertResolved, Some(at), at, None);
            actions[2] == Clear(s, 1) && actions[3] == Clear(s, 0)
    ensures |states[3].incidents| == |states[4].incidents| == 2
    ensures states[3].incidents[0].status == Open && states[4].incidents[0].status == Resolved
  {
    var first, second := Signal(fingerprint, Firing, None, t, None), Signal(fingerprint, Firing, None, later, None);
    var s := Signal(fingerprint, AlertResolved, Some(at), at, None);
    var one := Opened(Books([], []), first, t);
    var two := Opened(one, second, later);
    ClearedResolves(two, 1, at);
    var three := Cleared(two, 1, at);
    ClearedResolves(three, 0, at);
    states := [Books([], []), one, two, three, Cleared(three, 0, at)];
    actions := [OpenNew(first, t), OpenNew(second, later), Clear(s, 1), Clear(s, 0)];
    assert DoesAt(states, actions, 0) && DoesAt(states, actions, 1);
    assert DoesAt(states, actions, 2) && DoesAt(states, actions, 3);
  }

  // ---------------------------------------------------------------- the code

  /** What came of one alert: the incident it concerns; whether it joined one that was open; for a
      resolve, whether it met none, how many alerts it flipped and whether it resolved the incident. */
  datatype Published = Published(
    incident: Option<nat>,
    deduplicated: bool,
    ignored: bool,
    alertsResolved: Option<nat>,
    incidentResolved: bool)

  ghost function FiringRows(alerts: seq<AlertRow>, i: nat): set<nat> {
    set k: nat | k < |alerts| && alerts[k].incident == i && alerts[k].status == Firing
  }

  lemma FiringRowsFire(alerts: seq<AlertRow>, i: nat)
    ensures |FiringRows(alerts, i)| == 0 <==> !AnyFiring(alerts, i)
  {
    if AnyFiring(alerts, i) {
      var k :| 0 <= k < |alerts| && alerts[k].incident == i && alerts[k].status == Firing;
      assert k in FiringRows(alerts, i);
    }
  }

  /** `i` was open for the fingerprint and opened at most 300 seconds before the reference time. */
  predicate InWindow(b: Books, s: Signal, i: nat) {
    && i < |b.incidents| && b.incidents[i].fingerprint == s.fingerprint && b.incidents[i].status == Open
    && (if s.asOf.Some? then s.asOf.value else s.receivedAt) - b.incidents[i].openedAt <= 300
  }

  /** An alert that is not resolved, said of the rows: one alert row more, with the alert's own status and
      clearing time, on the incident named in the result. */
  ghost predicate Stores(b: Books, after: Books, s: Signal, now: int, result: Published) {
    && result.incident.Some? && !result.ignored && result.alertsResolved.None? && !result.incidentResolved
    && |after.alerts| == |b.alerts| + 1
    && (forall k :: 0 <= k < |b.alerts| ==> after.alerts[k] == b.alerts[k])
    && after.alerts[|b.alerts|].incident == result.incident.value
    && after.alerts[|b.alerts|].status == s.status && after.alerts[|b.alerts|].resolvedAt == s.resolvedAt
    && var i := result.incident.value;
       if result.deduplicated then
         && InWindow(b, s, i) && (forall j: nat :: InWindow(b, s, j) ==> b.incidents[j].openedAt <= b.incidents[i].openedAt)
         && |after.incidents| == |b.incidents|
         && (forall j :: 0 <= j < |b.incidents| && j != i ==> after.incidents[j] == b.incidents[j])
         && after.incidents[i] == b.incidents[i].(alertCount := b.incidents[i].alertCount + 1)
       else
         && i == |b.incidents| && (forall j: nat :: !InWindow(b, s, j))
         && |after.incidents| == |b.incidents| + 1
         && (forall j :: 0 <= j < |b.incidents| ==> after.incidents[j] == b.incidents[j])
         && after.incidents[i] == Incident(s.fingerprint, Open, 1, now, if s.asOf.Some? then s.asOf.value else s.receivedAt, None, None)
  }

  predicate IsLive(b: Books, fingerprint: string, i: nat) {
    && i < |b.incidents| && b.incidents[i].fingerprint == fingerprint
    && (b.incidents[i].status == Open || b.incidents[i].status == Investigating)
  }

  /** A resolve, said of the rows: the newest live incident's firing alerts and the incident itself are
      resolved as of the source's clearing time, or of the webhook's when it gives none; without a live
      incident nothing changes. */
  ghost predicate Resolves(b: Books, after: Books, s: Signal, result: Published) {
    if forall j: nat :: !IsLive(b, s.fingerprint, j) then result == Published(None, false, true, None, false) && after == b
    else
      && result.incident.Some?
      && var i, at := result.incident.value, if s.resolvedAt.Some? then s.resolvedAt.value else s.receivedAt;
         && IsLive(b, s.fingerprint, i)
         && (forall j: nat :: IsLive(b, s.fingerprint, j) ==> b.incidents[j].openedAt <= b.incidents[i].openedAt)
         && result == Published(Some(i), false, false, Some(|FiringRows(b.alerts, i)|), true)
         && |after.alerts| == |b.alerts|
         && (forall k :: 0 <= k < |b.alerts| ==>
               after.alerts[k] == if k in FiringRows(b.alerts, i) then AlertRow(i, AlertResolved, Some(at)) else b.alerts[k])
         && after.incidents ==
            b.incidents[i := b.incidents[i].(status := Resolved, resolvedAt := Some(at), resolvedBy := Some(ByAlerts))]
  }

  lemma OpenedStores(b: Books, s: Signal, now: int)
    requires NoOpenMatch(b, s)
    ensures Stores(b, Opened(b, s, now), s, now, Published(Some(|b.incidents|), false, false, None, false))
  {
    forall j: nat ensures !InWindow(b, s, j) { if j < |b.incidents| { assert !Absorbs(b.incidents[j], s.fingerprint, Reference(s)); } }
  }

  lemma AttachedStores(b: Books, s: Signal, i: nat, now: int)
    requires IsOpenMatch(b, s, i)
    ensures Stores(b, Attached(b, s, i), s, now, Published(Some(i), true, false, None, false))
  {
    forall j: nat | InWindow(b, s, j) ensures b.incidents[j].openedAt <= b.incidents[i].openedAt {
      assert Absorbs(b.incidents[j], s.fingerprint, Reference(s));
    }
  }

  lemma ClearedResolvesRows(b: Books, s: Signal, i: nat, at: int)
    requires IsLiveMatch(b, s.fingerprint, i) && at == if s.resolvedAt.Some? then s.resolvedAt.value else s.receivedAt
    ensures Resolves(b, Cleared(b, i, at), s, Published(Some(i), false, false, Some(|FiringRows(b.alerts, i)|), true))
  {
    ClearedResolves(b, i, at);
    assert IsLive(b, s.fingerprint, i);
    forall j: nat | IsLive(b, s.fingerprint, j) ensures b.incidents[j].openedAt <= b.incidents[i].openedAt {
      assert Resolvable(b.incidents[j], s.fingerprint);
    }
  }

  lemma NothingLive(b: Books, s: Signal)
    requires NoLiveMatch(b, s.fingerprint)
    ensures Resolves(b, b, s, Published(None, false, true, None, false))
  {
    forall j: nat ensures !IsLive(b, s.fingerprint, j) { if j < |b.incidents| { assert !Resolvable(b.incidents[j], s.fingerprint); } }
  }

  class Ledger {
    var incidents: seq<Incident>
    var alerts: seq<AlertRow>

    ghost function State(): Books
      reads this
    {
      Books(incidents, alerts)
    }

    constructor ()
      ensures State() == Books([], [])
    {
      incidents, alerts := [], [];
    }

    /** The newest open incident of the fingerprint opened at most five minutes, 300 seconds, before the
        reference time, or later than that. */
    method FindOpenIncident(s: Signal) returns (found: Option<nat>)
      ensures found.Some? ==> IsOpenMatch(State(), s, found.value)
      ensures found.None? ==> NoOpenMatch(State(), s)
      ensures var asOf := if s.asOf.Some? then s.asOf.value else s.receivedAt;
        && (found.Some? ==>
              && found.value < |incidents| && incidents[found.value].fingerprint == s.fingerprint
              && incidents[found.value].status == Open && asOf - incidents[found.value].openedAt <= 300)
        && (forall j :: 0 <= j < |incidents| && incidents[j].fingerprint == s.fingerprint
                        && incidents[j].status == Open && asOf - incidents[j].openedAt <= 300 ==>
              found.Some? && incidents[j].openedAt <= incidents[found.value].openedAt)
    {
      found := None;
      for j := 0 to |incidents|
        invariant found.None? ==> forall k :: 0 <= k < j ==> !Absorbs(incidents[k], s.fingerprint, Reference(s))
        invariant found.Some? ==> found.value < j && Absorbs(incidents[found.value], s.fingerprint, Reference(s))
        invariant found.Some? ==> forall k :: 0 <= k < j && Absorbs(incidents[k], s.fingerprint, Reference(s)) ==>
                    incidents[k].openedAt <= incidents[found.value].openedAt
      {
        if Absorbs(incidents[j], s.fingerprint, Reference(s))
           && (found.None? || incidents[found.value].openedAt < incidents[j].openedAt) {
          found := Some(j);
        }
      }
    }

    /** The newest open or investigating incident of the fingerprint, however old. */
    method FindResolvableIncident(fingerprint: string) returns (found: Option<nat>)
      ensures found.Some? ==> IsLiveMatch(State(), fingerprint, found.value)
      ensures found.None? ==> NoLiveMatch(State(), fingerprint)
      ensures found.Some? ==>
                && found.value < |incidents| && incidents[found.value].fingerprint == fingerprint
                && (incidents[found.value].status == Open || incidents[found.value].status == Investigating)
      ensures forall j :: 0 <= j < |incidents| && incidents[j].fingerprint == fingerprint
                          && (incidents[j].status == Open || incidents[j].status == Investigating) ==>
                found.Some? && incidents[j].openedAt <= incidents[found.value].openedAt
    {
      found := None;
      for j := 0 to |incidents|
        invariant found.None? ==> forall k :: 0 <= k < j ==> !Resolvable(incidents[k], fingerprint)
        invariant found.Some? ==> found.value < j && Resolvable(incidents[found.value], fingerprint)
        invariant found.Some? ==> forall k :: 0 <= k < j && Resolvable(incidents[k], fingerprint) ==>
                    incidents[k].openedAt <= incidents[found.value].openedAt
      {
        if Resolvable(incidents[j], fingerprint) && (found.None? || incidents[found.value].openedAt < incidents[j].openedAt) {
          found := Some(j);
        }
      }
    }

    /** The incident's firing alerts are resolved as of `at`, and counted; no other row changes. */
    method MarkAlertsResolved(i: nat, at: int) returns (count: nat)
      modifies this`alerts
      ensures alerts == Flipped(old(alerts), i, at)
      ensures |alerts| == |old(alerts)|
      ensures forall k :: 0 <= k < |alerts| ==>
                alerts[k] == if old(alerts)[k].incident == i && old(alerts)[k].status == Firing then AlertRow(i, AlertResolved, Some(at))
                             else old(alerts)[k]
      ensures count == |FiringRows(old(alerts), i)|
      ensures count == 0 <==> alerts == old(alerts) && !AnyFiring(old(alerts), i)
    {
      count := 0;
      ghost var flipped: set<nat> := {};
      for k := 0 to |alerts|
        invariant |alerts| == |old(alerts)|
        invariant forall m :: 0 <= m < k ==> alerts[m] == FlipRow(old(alerts)[m], i, at)
        invariant forall m :: k <= m < |alerts| ==> alerts[m] == old(alerts)[m]
        invariant forall m :: m in flipped <==> 0 <= m < k && old(alerts)[m].incident == i && old(alerts)[m].status == Firing
        invariant count == |flipped|
      {
        if alerts[k].incident == i && alerts[k].status == Firing {
          alerts := alerts[k := alerts[k].(status := AlertResolved, resolvedAt := Some(at))];
          count := count + 1;
          flipped := flipped + {k};
        }
      }
      assert flipped == FiringRows(old(alerts), i);
      FiringRowsFire(old(alerts), i);
      if count == 0 { assert alerts == old(alerts); }
    }

    /** Whether the incident is resolved now; an error when it is missing or cannot be. */
    method ResolveIfQuiet(i: nat, at: int) returns (resolved: Result<bool>)
      modifies this`incidents
      ensures resolved == Ok(false) <==> AnyFiring(alerts, i)
      ensures resolved == Ok(true) <==>
                !AnyFiring(alerts, i) && i < |old(incidents)|
                && (old(incidents)[i].status == Open || old(incidents)[i].status == Investigating)
      ensures resolved.Err? ==> resolved == Err(if i < |old(incidents)| then "invalid transition" else "incident does not exist")
      ensures incidents == if resolved == Ok(true)
                           then old(incidents)[i := old(incidents)[i].(status := Resolved, resolvedAt := Some(at), resolvedBy := Some(ByAlerts))]
                           else old(incidents)
    {
      if AnyFiring(alerts, i) { return Ok(false); }
      if i >= |incidents| { return Err("incident does not exist"); }
      TheEdges(incidents[i].status, Resolved);
      if !IsValidTransition(incidents[i].status, Resolved) { return Err("invalid transition"); }
      incidents := incidents[i := incidents[i].(status := Resolved, resolvedAt := Some(at), resolvedBy := Some(ByAlerts))];
      resolved := Ok(true);
    }

    /** One alert, one transaction. Whatever its status, but resolved, it gets a row with that status:
        on the newest open incident within the window, which counts one more, or on an incident it
        opens. A resolve gets no row: it clears the newest live incident, or nothing. */
    method PersistAlert(s: Signal, now: int) returns (result: Published, ghost did: Action)
      modifies this
      ensures Does(old(State()), did, State())
      ensures did == if result.incident.None? then Ignore(s)
                     else if result.alertsResolved.Some? then Clear(s, result.incident.value)
                     else if result.deduplicated then Attach(s, result.incident.value) else OpenNew(s, now)
      ensures s.status != AlertResolved ==> Stores(old(State()), State(), s, now, result)
      ensures s.status == AlertResolved ==> Resolves(old(State()), State(), s, result)
    {
      if s.status == AlertResolved {
        var live := FindResolvableIncident(s.fingerprint);
        if live.None? {
          NothingLive(State(), s);
          return Published(None, false, true, None, false), Ignore(s);
        }
        var i, at := live.value, if s.resolvedAt.Some? then s.resolvedAt.value else s.receivedAt;
        var count := MarkAlertsResolved(i, at);
        FlippedIsQuiet(old(alerts), i, at);
        var resolved := ResolveIfQuiet(i, at);
        ClearedResolvesRows(old(State()), s, i, at);
        return Published(Some(i), false, false, Some(count), resolved == Ok(true)), Clear(s, i);
      }
      var open := FindOpenIncident(s);
      if open.Some? {
        var i := open.value;
        AttachedStores(State(), s, i, now);
        incidents := incidents[i := incidents[i].(alertCount := incidents[i].alertCount + 1)];
        alerts := alerts + [AlertRow(i, s.status, s.resolvedAt)];
        return Published(Some(i), true, false, None, false), Attach(s, i);
      }
      OpenedStores(State(), s, now);
      alerts := alerts + [AlertRow(|incidents|, s.status, s.resolvedAt)];
      incidents := incidents + [Incident(s.fingerprint, Open, 1, now, Reference(s), None, None)];
      result, did := Published(Some(|incidents| - 1), false, false, None, false), OpenNew(s, now);
    }

    /** The one way a status changes outside ingestion; `false` when the edge is refused. */
    method TransitionStatus(i: nat, status: Status, at: int) returns (ok: bool)
      modifies this`incidents
      ensures State() == Transitioned(old(State()), i, status, at)
      ensures ok <==>
                i < |old(incidents)|
                && var was := old(incidents)[i].status;
                   || (was == Open && status == Investigating) || (was == Open && status == Resolved)
                   || (was == Investigating && status == Resolved) || (was == Resolved && status == Closed)
      ensures incidents == if !ok then old(incidents)
                           else if status == Resolved
                           then old(incidents)[i := old(incidents)[i].(status := Resolved, resolvedAt := Some(at), resolvedBy := Some(BySlack))]
                           else old(incidents)[i := old(incidents)[i].(status := status)]
    {
      if i >= |incidents| { return false; }
      var current := incidents[i];
      TheEdges(current.status, status);
      if !IsValidTransition(current.status, status) { return false; }
      if status == Resolved {
        current := current.(resolvedAt := Some(at), resolvedBy := Some(BySlack));
      }
      incidents := incidents[i := current.(status := status)];
      ok := true;
    }
  }
}
