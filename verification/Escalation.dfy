/** The watcher's escalation (apps/watcher-agent correlation.py): an incident's severity is raised
    when enough of its alerts have arrived, and only ever raised. */
module Escalation {
  import opened Wrappers

  /** Declared from the most severe down. */
  datatype Severity = Critical | High | Medium | Low | Info

  function Rank(s: Severity): nat {
    match s
    case Critical => 0
    case High => 1
    case Medium => 2
    case Low => 3
    case Info => 4
  }

  predicate IsMoreSevere(candidate: Severity, current: Severity) {
    Rank(candidate) < Rank(current)
  }

  /** Critical before High before Medium before Low before Info, and nothing is more severe than itself. */
  lemma SeverityOrder(candidate: Severity, current: Severity)
    ensures IsMoreSevere(candidate, current) <==>
              match candidate
              case Critical => current != Critical
              case High => current == Medium || current == Low || current == Info
              case Medium => current == Low || current == Info
              case Low => current == Info
              case Info => false
    ensures Rank(candidate) <= Rank(current) <==> !IsMoreSevere(current, candidate)
  {
  }

  /** Loading refuses thresholds below two and empty windows. */
  datatype Rule = Rule(threshold: int, withinMinutes: int, escalateTo: Severity)

  predicate Loaded(rules: seq<Rule>) {
    forall r :: r in rules ==> r.threshold > 1 && r.withinMinutes > 0
  }

  /** Alerts on the incident that arrived at or after `since`; there is no later bound. */
  function CountSince(received: seq<int>, since: int): nat {
    if received == [] then 0
    else CountSince(received[..|received| - 1], since) + if received[|received| - 1] >= since then 1 else 0
  }

  /** Times are in seconds. */
  predicate Fires(rule: Rule, received: seq<int>, reference: int) {
    CountSince(received, reference - 60 * rule.withinMinutes) >= rule.threshold
  }

  lemma {:induction false} CountIsOfArrivals(received: seq<int>, since: int)
    ensures CountSince(received, since) == |set i: nat | i < |received| && received[i] >= since|
  {
    var arrivals := set i: nat | i < |received| && received[i] >= since;
    if received != [] {
      var n := |received| - 1;
      CountIsOfArrivals(received[..n], since);
      var before := set i: nat | i < |received[..n]| && received[..n][i] >= since;
      assert arrivals == if received[n] >= since then before + {n} else before;
    } else {
      assert arrivals == {};
    }
  }

  /** A rule fires when as many alerts as its threshold came in at most its minutes, of 60 seconds each,
      before the event, or later. */
  lemma FiresWhenEnoughCame(rule: Rule, received: seq<int>, reference: int)
    ensures Fires(rule, received, reference) <==>
              |set i: nat | i < |received| && reference - received[i] <= rule.withinMinutes * 60| >= rule.threshold
  {
    var since := reference - 60 * rule.withinMinutes;
    CountIsOfArrivals(received, since);
    assert (set i: nat | i < |received| && received[i] >= since)
        == (set i: nat | i < |received| && reference - received[i] <= rule.withinMinutes * 60);
  }

  // ---------------------------------------------------------------- the code

  /** Raise `current` to the most severe target among the rules that fire, if that is more severe. */
  method Escalate(rules: seq<Rule>, received: seq<int>, current: Severity, reference: int)
    returns (severity: Severity, escalatedTo: Option<Severity>)
    ensures IsWorst(severity, current, rules, received, {reference})
    ensures escalatedTo == if severity == current then None else Some(severity)
  {
    severity, escalatedTo := current, None;
    var fired: seq<Severity> := [];
    for i := 0 to |rules|
      invariant forall s :: s in fired ==> exists k :: 0 <= k < i && Fires(rules[k], received, reference) && rules[k].escalateTo == s
      invariant forall k :: 0 <= k < i && Fires(rules[k], received, reference) ==> rules[k].escalateTo in fired
    {
      var since := reference - 60 * rules[i].withinMinutes;
      var count := CountAlertsSince(received, since);
      if count >= rules[i].threshold { fired := fired + [rules[i].escalateTo]; }
    }
    if fired == [] { return; }
    var target := MostSevere(fired);
    if !IsMoreSevere(target, current) { return; }
    severity, escalatedTo := target, Some(target);
  }

  method CountAlertsSince(received: seq<int>, since: int) returns (count: nat)
    ensures count == CountSince(received, since)
    ensures count == |set i: nat | i < |received| && received[i] >= since|
  {
    CountIsOfArrivals(received, since);
    count := 0;
    for i := 0 to |received|
      invariant count == CountSince(received[..i], since)
    {
      assert received[..i + 1][..i] == received[..i];
      if received[i] >= since { count := count + 1; }
    }
    assert received[..|received|] == received;
  }

  method MostSevere(fired: seq<Severity>) returns (target: Severity)
    requires fired != []
    ensures target in fired && forall s :: s in fired ==> Rank(target) <= Rank(s)
  {
    target := fired[0];
    for i := 1 to |fired|
      invariant target in fired && forall k :: 0 <= k < i ==> Rank(target) <= Rank(fired[k])
    {
      if IsMoreSevere(fired[i], target) { target := fired[i]; }
    }
  }

  // ---------------------------------------------------------------- what it comes to

  /** `worst` is the most severe of `start` and every target whose rule fired for one of the
      events, an event being known by its arrival time. */
  ghost predicate IsWorst(worst: Severity, start: Severity, rules: seq<Rule>, received: seq<int>, references: set<int>) {
    && Rank(worst) <= Rank(start)
    && (forall k, t :: 0 <= k < |rules| && t in references && Fires(rules[k], received, t) ==>
          Rank(worst) <= Rank(rules[k].escalateTo))
    && (worst == start
        || exists k, t :: 0 <= k < |rules| && t in references && Fires(rules[k], received, t) && rules[k].escalateTo == worst)
  }

  lemma WorstIsUnique(a: Severity, b: Severity, start: Severity, rules: seq<Rule>, received: seq<int>, references: set<int>)
    requires IsWorst(a, start, rules, received, references) && IsWorst(b, start, rules, received, references)
    ensures a == b
  {
    assert Rank(a) == Rank(b);
  }

  /** The severities an incident goes through as the events are handled one after another. */
  ghost predicate Handled(severities: seq<Severity>, rules: seq<Rule>, received: seq<int>, events: seq<int>) {
    && |severities| == |events| + 1
    && forall k :: 0 <= k < |events| ==> IsWorst(severities[k + 1], severities[k], rules, received, {events[k]})
  }

  function Members(events: seq<int>): set<int> {
    set t | t in events
  }

  lemma OneMore(worst: Severity, next: Severity, start: Severity, rules: seq<Rule>, received: seq<int>, done: set<int>, t: int)
    requires IsWorst(worst, start, rules, received, done) && IsWorst(next, worst, rules, received, {t})
    ensures IsWorst(next, start, rules, received, done + {t})
  {
    if next != worst {
      var k, u :| 0 <= k < |rules| && u in {t} && Fires(rules[k], received, u) && rules[k].escalateTo == next;
      assert u in done + {t};
    } else if worst != start {
      var k, u :| 0 <= k < |rules| && u in done && Fires(rules[k], received, u) && rules[k].escalateTo == worst;
      assert u in done + {t};
    }
  }

  /** The ratchet, and what it reaches: severity never gets milder, and after the first `n` events
      it is the most severe of the start and all targets that fired for any of them. */
  lemma {:induction false} HandlingReachesWorst(severities: seq<Severity>, rules: seq<Rule>, received: seq<int>,
                                                events: seq<int>, n: nat)
    requires Handled(severities, rules, received, events) && n <= |events|
    ensures IsWorst(severities[n], severities[0], rules, received, Members(events[..n]))
    ensures forall m :: 0 <= m <= n ==> Rank(severities[n]) <= Rank(severities[m])
  {
    if n > 0 {
      HandlingReachesWorst(severities, rules, received, events, n - 1);
      OneMore(severities[n - 1], severities[n], severities[0], rules, received, Members(events[..n - 1]), events[n - 1]);
      assert Members(events[..n]) == Members(events[..n - 1]) + {events[n - 1]};
    } else {
    }
  }

  /** Delivery order and repetition do not matter: the same events, in any order and number, leave
      the same severity. */
  lemma OrderAndRepetitionIgnored(a: seq<Severity>, b: seq<Severity>, rules: seq<Rule>, received: seq<int>,
                                  events: seq<int>, others: seq<int>)
    requires Handled(a, rules, received, events) && Handled(b, rules, received, others)
    requires a[0] == b[0] && forall t :: t in events <==> t in others
    ensures a[|events|] == b[|others|]
  {
    HandlingReachesWorst(a, rules, received, events, |events|);
    HandlingReachesWorst(b, rules, received, others, |others|);
    assert events[..|events|] == events && others[..|others|] == others;
    forall t ensures t in Members(events) <==> t in Members(others) { assert t in events <==> t in others; }
    assert Members(events) == Members(others);
    WorstIsUnique(a[|events|], b[|others|], a[0], rules, received, Members(events));
  }

  // ---------------------------------------------------------------- no upper bound on the window

  lemma {:induction false} EarlierCountsMore(received: seq<int>, since: int, earlier: int)
    requires earlier <= since
    ensures CountSince(received, since) <= CountSince(received, earlier) <= |received|
  {
    if received != [] {
      EarlierCountsMore(received[..|received| - 1], since, earlier);
    } else {
    }
  }

  lemma {:induction false} AllCounted(received: seq<int>, since: int)
    requires forall t :: t in received ==> since <= t
    ensures CountSince(received, since) == |received|
  {
    if received != [] {
      var front := received[..|received| - 1];
      assert received == front + [received[|received| - 1]];
      forall t | t in front ensures since <= t { assert t in received; }
      assert received[|received| - 1] in received;
      AllCounted(front, since);
    } else {
    }
  }

  /** Since the count has no upper time bound, an earlier event's window holds a later one's: of
      all events the earliest decides alone. */
  lemma EarliestDecides(worst: Severity, start: Severity, rules: seq<Rule>, received: seq<int>, references: set<int>, first: int)
    requires first in references && forall t :: t in references ==> first <= t
    ensures IsWorst(worst, start, rules, received, references) <==> IsWorst(worst, start, rules, received, {first})
  {
    forall k, t | 0 <= k < |rules| && t in references && Fires(rules[k], received, t)
      ensures Fires(rules[k], received, first)
    {
      EarlierCountsMore(received, t - 60 * rules[k].withinMinutes, first - 60 * rules[k].withinMinutes);
    }
  }

  /** What a rolling window ending at the event would count. */
  function CountWithin(received: seq<int>, since: int, until: int): nat {
    if received == [] then 0
    else CountWithin(received[..|received| - 1], since, until) + if since <= received[|received| - 1] <= until then 1 else 0
  }

  /** The count is the rolling window's exactly while no alert has arrived after the event. */
  lemma {:induction false} RollingExactlyWhenNothingCameLater(received: seq<int>, since: int, reference: int)
    requires since <= reference
    ensures CountWithin(received, since, reference) <= CountSince(received, since)
    ensures CountWithin(received, since, reference) == CountSince(received, since)
            <==> forall i :: 0 <= i < |received| ==> received[i] <= reference
  {
    if received != [] {
      RollingExactlyWhenNothingCameLater(received[..|received| - 1], since, reference);
    } else {
    }
  }

  /** So the rolling window is none for a late delivery: once the incident's first event is handled
      with all alerts in the table, a rule fires exactly when there are enough alerts at all,
      however far apart they arrived. */
  lemma LateFirstEventCountsAll(rule: Rule, received: seq<int>, first: int)
    requires rule.withinMinutes > 0 && first in received && forall t :: t in received ==> first <= t
    ensures Fires(rule, received, first) <==> |received| >= rule.threshold
  {
    AllCounted(received, first - 60 * rule.withinMinutes);
  }

  /** While an incident has its one opening alert only, no rule fires that loading accepts: a rule fires
      on one alert when its threshold is one and the alert is in its window, or its threshold is less. */
  lemma OneAlertNeverEscalates(rule: Rule, received: int, reference: int)
    ensures Fires(rule, [received], reference) <==>
              rule.threshold <= 0 || (rule.threshold == 1 && reference - received <= 60 * rule.withinMinutes)
    ensures Loaded([rule]) ==> !Fires(rule, [received], reference)
  {
    var since := reference - 60 * rule.withinMinutes;
    assert [received][..0] == [];
    assert CountSince([received], since) == CountSince([received][..0], since) + if received >= since then 1 else 0;
    assert rule in [rule];
  }
}
