/** The incident lifecycle (packages/database lifecycle.py): four states, a fixed edge table. */
module Lifecycle {

  /** `Unknown` stands for every string that is not one of the four state names. */
  datatype Status = Open | Investigating | Resolved | Closed | Unknown(name: string)

  const VALID_TRANSITIONS: map<Status, set<Status>> :=
    map[Open := {Investigating, Resolved},
        Investigating := {Resolved},
        Resolved := {Closed},
        Closed := {}]

  predicate IsValidTransition(current: Status, next: Status) {
    current in VALID_TRANSITIONS && next in VALID_TRANSITIONS[current]
  }

  /** The four moves there are. */
  lemma TheEdges(current: Status, next: Status)
    ensures IsValidTransition(current, next) <==>
              || (current == Open && next == Investigating) || (current == Open && next == Resolved)
              || (current == Investigating && next == Resolved) || (current == Resolved && next == Closed)
  {
  }

  /** How far along the lifecycle a status is. */
  function Rank(status: Status): nat {
    match status
    case Open => 0
    case Investigating => 1
    case Resolved => 2
    case Closed => 3
    case Unknown(_) => 4
  }

  /** A history of statuses, each reached from the one before by a legal edge. */
  ghost predicate LegalHistory(h: seq<Status>) {
    forall k :: 0 < k < |h| ==> IsValidTransition(h[k - 1], h[k])
  }

  /** A legal history climbs strictly from any point to any later one: no status is ever
      entered twice, and nothing is left once `Closed`. */
  lemma {:induction false} HistoryClimbs(h: seq<Status>, i: nat, j: nat)
    requires LegalHistory(h) && i < j < |h|
    ensures Rank(h[i]) + (j - i) <= Rank(h[j]) <= 3
    decreases j
  {
    assert IsValidTransition(h[j - 1], h[j]);
    if i < j - 1 {
      HistoryClimbs(h, i, j - 1);
    }
  }

  /** So an incident is moved at most three times in its life, and a history of four
      statuses is the full one. */
  lemma AtMostThreeMoves(h: seq<Status>)
    requires LegalHistory(h)
    ensures |h| <= 4
    ensures |h| == 4 ==> h == [Open, Investigating, Resolved, Closed]
  {
    if |h| >= 2 {
      HistoryClimbs(h, 0, |h| - 1);
    }
    if |h| == 4 {
      HistoryClimbs(h, 0, 1);
      HistoryClimbs(h, 1, 2);
      HistoryClimbs(h, 2, 3);
    }
  }
}
