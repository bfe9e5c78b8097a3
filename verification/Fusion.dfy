/** Reciprocal rank fusion and the retrieval around it (apps/knowledge-service fusion.py and
    retrieval.py), over exact arithmetic. */
module Fusion {
  import opened Wrappers

  type Ranking = seq<string>

  // ---------------------------------------------------------------- the order of the output

  /** The order of strings by code points. */
  predicate Before(a: string, b: string) {
    b != "" && (a == "" || a[0] < b[0] || (a[0] == b[0] && Before(a[1..], b[1..])))
  }

  lemma {:induction false} BeforeIsTotal(a: string, b: string)
    ensures a != b ==> Before(a, b) || Before(b, a)
    ensures !(Before(a, b) && Before(b, a)) && !Before(a, a)
  {
    if a != "" { BeforeIsTotal(a[1..], a[1..]); }
    if a != "" && b != "" {
      BeforeIsTotal(a[1..], b[1..]);
      assert a == [a[0]] + a[1..] && b == [b[0]] + b[1..];
    }
  }

  lemma {:induction false} BeforeIsTransitive(a: string, b: string, c: string)
    requires Before(a, b) && Before(b, c)
    ensures Before(a, c)
  {
    if a != "" && a[0] == b[0] && b[0] == c[0] { BeforeIsTransitive(a[1..], b[1..], c[1..]); }
  }

  /** `a` comes first at the first place they differ, by code point or by being over. */
  ghost predicate FirstAt(a: string, b: string, n: nat) {
    && n <= |a| && n < |b| && a[..n] == b[..n] && (n == |a| || a[n] < b[n])
  }

  lemma SameStart(a: string, b: string, n: nat)
    ensures FirstAt(a, b, n) && n > 0 ==> a != "" && a[0] == b[0]
  {
    if FirstAt(a, b, n) && n > 0 { assert a[0] == a[..n][0] && b[0] == b[..n][0]; }
  }

  lemma {:induction false} BeforeIsByCodePoints(a: string, b: string)
    ensures Before(a, b) <==> exists n: nat :: FirstAt(a, b, n)
  {
    if a != "" && b != "" && a[0] == b[0] {
      BeforeIsByCodePoints(a[1..], b[1..]);
      if Before(a[1..], b[1..]) {
        var n: nat :| FirstAt(a[1..], b[1..], n);
        assert a[..n + 1] == [a[0]] + a[1..][..n] && b[..n + 1] == [b[0]] + b[1..][..n];
        assert FirstAt(a, b, n + 1);
      }
      forall n: nat | FirstAt(a, b, n) ensures Before(a[1..], b[1..]) {
        assert n > 0;
        assert a[1..][..n - 1] == a[..n][1..] && b[1..][..n - 1] == b[..n][1..];
        assert FirstAt(a[1..], b[1..], n - 1);
      }
    } else if b != "" {
      assert FirstAt(a, b, 0) <==> a == "" || a[0] < b[0];
      forall n: nat ensures FirstAt(a, b, n) && n > 0 ==> a != "" && a[0] == b[0] { SameStart(a, b, n); }
    }
  }

  /** The sort key: higher score, then better best position, then the id itself. */
  datatype Key = Key(score: real, best: nat, id: string)

  predicate Ahead(a: Key, b: Key) {
    a.score > b.score || (a.score == b.score && (a.best < b.best || (a.best == b.best && Before(a.id, b.id))))
  }

  lemma AheadIsTotal(a: Key, b: Key)
    ensures a != b ==> Ahead(a, b) || Ahead(b, a)
    ensures !(Ahead(a, b) && Ahead(b, a)) && !Ahead(a, a)
  {
    BeforeIsTotal(a.id, b.id);
  }

  lemma AheadIsTransitive(a: Key, b: Key, c: Key)
    requires Ahead(a, b) && Ahead(b, c)
    ensures Ahead(a, c)
  {
    if Before(a.id, b.id) && Before(b.id, c.id) { BeforeIsTransitive(a.id, b.id, c.id); }
  }

  // ---------------------------------------------------------------- scores and best positions

  function Share(k: int, position: nat): real
    requires k > 0
  {
    1.0 / (k + position) as real
  }

  function LegScore(leg: Ranking, k: int, id: string): real
    requires k > 0
  {
    if leg == [] then 0.0
    else LegScore(leg[..|leg| - 1], k, id) + if leg[|leg| - 1] == id then Share(k, |leg|) else 0.0
  }

  function Score(rankings: seq<Ranking>, k: int, id: string): real
    requires k > 0
  {
    if rankings == [] then 0.0
    else Score(rankings[..|rankings| - 1], k, id) + LegScore(rankings[|rankings| - 1], k, id)
  }

  /** The smaller of two positions, 0 standing for "nowhere". */
  function Nearer(p: nat, q: nat): nat {
    if p == 0 then q else if q == 0 || p <= q then p else q
  }

  function LegBest(leg: Ranking, id: string): nat {
    if leg == [] then 0
    else Nearer(LegBest(leg[..|leg| - 1], id), if leg[|leg| - 1] == id then |leg| else 0)
  }

  function Best(rankings: seq<Ranking>, id: string): nat {
    if rankings == [] then 0
    else Nearer(Best(rankings[..|rankings| - 1], id), LegBest(rankings[|rankings| - 1], id))
  }

  ghost predicate Found(rankings: seq<Ranking>, id: string) {
    exists leg :: leg in rankings && id in leg
  }

  function KeyOf(rankings: seq<Ranking>, k: int, id: string): Key
    requires k > 0
  {
    Key(Score(rankings, k, id), Best(rankings, id), id)
  }

  ghost predicate Precedes(rankings: seq<Ranking>, k: int, a: string, b: string)
    requires k > 0
  {
    Ahead(KeyOf(rankings, k, a), KeyOf(rankings, k, b))
  }

  /** `out` lists every id of the rankings, each ahead of all that follow. */
  ghost predicate IsFusion(out: seq<string>, rankings: seq<Ranking>, k: int)
    requires k > 0
  {
    && (forall id :: id in out <==> Found(rankings, id))
    && (forall i, j :: 0 <= i < j < |out| ==> Precedes(rankings, k, out[i], out[j]))
  }

  /** The prefix a Python slice `[:limit]` keeps. */
  function Prefix<T>(s: seq<T>, limit: Option<int>): (r: seq<T>)
    ensures r <= s
  {
    match limit
    case None => s
    case Some(n) =>
      if n >= |s| then s
      else if n >= 0 then s[..n]
      else if |s| + n >= 0 then s[..|s| + n]
      else []
  }

  /** What the functions above come to, entry by entry and leg by leg: an entry at position `p`, counted
      from 1, adds one over the constant plus `p`, and the best position is the least; with no entry
      both are zero. */
  lemma EntryByEntry(leg: Ranking, entry: string, legs: seq<Ranking>, k: int, id: string)
    requires k > 0
    ensures LegScore([], k, id) == Score([], k, id) == 0.0 && LegBest([], id) == Best([], id) == 0
    ensures LegScore(leg + [entry], k, id) == LegScore(leg, k, id) + if entry == id then 1.0 / (k + |leg| + 1) as real else 0.0
    ensures LegBest(leg + [entry], id) == if LegBest(leg, id) == 0 && entry == id then |leg| + 1 else LegBest(leg, id)
    ensures Score(legs + [leg], k, id) == Score(legs, k, id) + LegScore(leg, k, id)
    ensures var before, here := Best(legs, id), LegBest(leg, id);
            Best(legs + [leg], id) == if before == 0 || (0 < here < before) then here else before
  {
    assert (leg + [entry])[..|leg|] == leg && (legs + [leg])[..|legs|] == legs;
    BestIsInside(leg, id);
  }

  lemma {:induction false} BestIsInside(leg: Ranking, id: string)
    ensures LegBest(leg, id) <= |leg|
  {
    if leg != [] {
      BestIsInside(leg[..|leg| - 1], id);
    } else {
    }
  }

  /** The order of a fusion: higher scores first, equal ones by the better best position, and those by
      the ids' code points. */
  lemma FusionOrder(out: seq<string>, rankings: seq<Ranking>, k: int, i: nat, j: nat)
    requires k > 0 && IsFusion(out, rankings, k) && i < j < |out|
    ensures var a, b := out[i], out[j];
      || Score(rankings, k, a) > Score(rankings, k, b)
      || (Score(rankings, k, a) == Score(rankings, k, b)
          && (Best(rankings, a) < Best(rankings, b) || (Best(rankings, a) == Best(rankings, b) && exists n: nat :: FirstAt(a, b, n))))
  {
    assert Precedes(rankings, k, out[i], out[j]);
    BeforeIsByCodePoints(out[i], out[j]);
  }

  /** A limit keeps that many from the front, and a negative one leaves that many off the end. */
  lemma SliceKeeps<T>(s: seq<T>, n: int)
    ensures Prefix(s, None) == s && Prefix(s, Some(n)) <= s
    ensures |Prefix(s, Some(n))| == if n >= |s| then |s| else if n >= 0 then n else if |s| >= -n then |s| + n else 0
  {
  }

  // ---------------------------------------------------------------- what positions mean

  lemma ShareFalls(k: int, p: nat, q: nat)
    requires k > 0 && p < q
    ensures Share(k, p) > Share(k, q) > 0.0
  {
    var x, y := (k + p) as real, (k + q) as real;
    assert 1.0 / x * x == 1.0 && 1.0 / y * y == 1.0;
    Reciprocals(x, y, 1.0 / x, 1.0 / y);
  }

  lemma Reciprocals(x: real, y: real, u: real, v: real)
    requires 0.0 < x < y && u * x == 1.0 && v * y == 1.0
    ensures u > v > 0.0
  {
    if v <= 0.0 { Products(v, 0.0, y, y); }
    if v > 0.0 && u <= v { Products(u, v, x, y); }
  }

  lemma Products(u: real, v: real, x: real, y: real)
    requires u <= v && 0.0 < x <= y
    ensures v >= 0.0 ==> u * x <= v * y
    ensures v > 0.0 && x < y ==> u * x < v * y
  {
    assert v * x == u * x + (v - u) * x;
    assert v * y == v * x + v * (y - x);
    Positive(v - u, x);
    if v >= 0.0 { Positive(v, y - x); }
  }

  lemma Positive(a: real, b: real)
    requires a >= 0.0 && b >= 0.0
    ensures a * b >= 0.0
    ensures a > 0.0 && b > 0.0 ==> a * b > 0.0
  {
  }

  ghost predicate Distinct(leg: Ranking) {
    forall i, j :: 0 <= i < j < |leg| ==> leg[i] != leg[j]
  }

  lemma {:induction false} LegAbsent(leg: Ranking, k: int, id: string)
    requires k > 0
    ensures LegScore(leg, k, id) >= 0.0
    ensures id !in leg ==> LegScore(leg, k, id) == 0.0 && LegBest(leg, id) == 0
    ensures id in leg ==> LegScore(leg, k, id) > 0.0 && 0 < LegBest(leg, id) <= |leg| && leg[LegBest(leg, id) - 1] == id
  {
    if leg != [] {
      LegAbsent(leg[..|leg| - 1], k, id);
      ShareFalls(k, |leg|, |leg| + 1);
      assert leg == leg[..|leg| - 1] + [leg[|leg| - 1]];
    } else {
    }
  }

  /** In a duplicate-free leg an id scores what its one position is worth. */
  lemma {:induction false} LegPresent(leg: Ranking, k: int, i: nat)
    requires k > 0 && i < |leg| && Distinct(leg)
    ensures LegScore(leg, k, leg[i]) == Share(k, i + 1) && LegBest(leg, leg[i]) == i + 1
  {
    var front := leg[..|leg| - 1];
    if i < |leg| - 1 {
      LegPresent(front, k, i);
    } else {
      LegAbsent(front, k, leg[i]);
    }
  }

  lemma {:induction false} FoundHasScore(rankings: seq<Ranking>, k: int, id: string)
    requires k > 0
    ensures Score(rankings, k, id) >= 0.0
    ensures Found(rankings, id) <==> Best(rankings, id) > 0
    ensures Found(rankings, id) <==> Score(rankings, k, id) > 0.0
  {
    if rankings != [] {
      var front, leg := rankings[..|rankings| - 1], rankings[|rankings| - 1];
      FoundHasScore(front, k, id);
      LegAbsent(leg, k, id);
      assert rankings == front + [leg];
      assert leg in rankings;
      forall other | other in front ensures other in rankings {}
    } else {
    }
  }

  // ---------------------------------------------------------------- the output is canonical

  /** At most one list is the fusion of given rankings. */
  lemma {:induction false} FusionIsUnique(x: seq<string>, y: seq<string>, rankings: seq<Ranking>, k: int)
    requires k > 0 && IsFusion(x, rankings, k) && IsFusion(y, rankings, k)
    ensures x == y
  {
    SameHead(x, y, rankings, k, 0);
  }

  lemma {:induction false} SameHead(x: seq<string>, y: seq<string>, rankings: seq<Ranking>, k: int, n: nat)
    requires k > 0 && IsFusion(x, rankings, k) && IsFusion(y, rankings, k)
    requires n <= |x| && n <= |y| && x[..n] == y[..n]
    ensures x == y
    decreases |x| - n
  {
    if n == |x| {
      NoLonger(x, y, rankings, k);
    } else {
      EarlierIsAnother(x, rankings, k, n);
      assert x[n] in y && x[n] !in y[..n];
      NoneBetween(y, rankings, k, n, x[n]);
      EarlierIsAnother(y, rankings, k, n);
      assert y[n] in x && y[n] !in x[..n];
      NoneBetween(x, rankings, k, n, y[n]);
      AheadIsTotal(KeyOf(rankings, k, x[n]), KeyOf(rankings, k, y[n]));
      SameHead(x, y, rankings, k, n + 1);
    }
  }

  /** The ids not among the first `n` start with the one at `n`. */
  lemma NoneBetween(x: seq<string>, rankings: seq<Ranking>, k: int, n: nat, id: string)
    requires k > 0 && IsFusion(x, rankings, k) && n <= |x| && id in x && id !in x[..n]
    ensures n < |x| && (id == x[n] || Precedes(rankings, k, x[n], id))
  {
    var i :| 0 <= i < |x| && x[i] == id;
    assert forall j :: 0 <= j < n ==> x[j] == x[..n][j];
  }

  lemma NoLonger(x: seq<string>, y: seq<string>, rankings: seq<Ranking>, k: int)
    requires k > 0 && IsFusion(x, rankings, k) && IsFusion(y, rankings, k) && x <= y
    ensures x == y
  {
    forall i | 0 <= i < |y| ensures y[i] in x { assert y[i] in y; }
    assert forall i :: 0 <= i < |x| ==> y[i] == x[i];
    if |x| < |y| {
      var i :| 0 <= i < |x| && x[i] == y[|x|];
      EarlierIsAnother(y, rankings, k, |x|);
    }
  }

  lemma EarlierIsAnother(x: seq<string>, rankings: seq<Ranking>, k: int, n: nat)
    requires k > 0 && IsFusion(x, rankings, k) && n < |x|
    ensures forall i :: 0 <= i < n ==> x[i] != x[n]
  {
    forall i | 0 <= i < n ensures x[i] != x[n] {
      assert Precedes(rankings, k, x[i], x[n]);
      AheadIsTotal(KeyOf(rankings, k, x[i]), KeyOf(rankings, k, x[n]));
    }
  }

  /** Taking one leg out of the middle. */
  lemma {:induction false} LegTakenOut(p: seq<Ranking>, leg: Ranking, q: seq<Ranking>, k: int, id: string)
    requires k > 0
    ensures Score(p + [leg] + q, k, id) == Score(p + q, k, id) + LegScore(leg, k, id)
    ensures Best(p + [leg] + q, id) == Nearer(Best(p + q, id), LegBest(leg, id))
  {
    if q == [] {
      assert p + [leg] + q == p + [leg] && p + q == p;
    } else {
      var front, last := q[..|q| - 1], q[|q| - 1];
      LegTakenOut(p, leg, front, k, id);
      assert (p + [leg] + q)[..|p + [leg] + q| - 1] == p + [leg] + front;
      assert (p + q)[..|p + q| - 1] == p + front;
    }
  }

  lemma SameRest<T>(front: seq<T>, x: T, p: seq<T>, q: seq<T>)
    requires multiset(front + [x]) == multiset(p + [x] + q)
    ensures multiset(front) == multiset(p + q)
  {
    assert multiset(front) == multiset(front + [x]) - multiset{x};
    assert multiset(p + q) == multiset(p + [x] + q) - multiset{x};
  }

  lemma Somewhere<T>(a: seq<T>, b: seq<T>) returns (i: nat)
    requires multiset(a) == multiset(b) && a != []
    ensures i < |b| && b[i] == a[|a| - 1]
    ensures b == b[..i] + [b[i]] + b[i + 1..] && a == a[..|a| - 1] + [a[|a| - 1]]
  {
    assert a[|a| - 1] in multiset(b);
    i :| 0 <= i < |b| && b[i] == a[|a| - 1];
  }

  lemma {:induction false} LegOrderIgnored(a: seq<Ranking>, b: seq<Ranking>, k: int, id: string)
    requires k > 0 && multiset(a) == multiset(b)
    ensures KeyOf(a, k, id) == KeyOf(b, k, id)
  {
    if a == [] {
      assert |multiset(b)| == 0;
    } else {
      var i := Somewhere(a, b);
      SameRest(a[..|a| - 1], b[i], b[..i], b[i + 1..]);
      LegTakenOut(b[..i], b[i], b[i + 1..], k, id);
      LegOrderIgnored(a[..|a| - 1], b[..i] + b[i + 1..], k, id);
    }
  }

  /** The order in which the legs are given does not matter. */
  lemma FusionIgnoresLegOrder(out: seq<string>, a: seq<Ranking>, b: seq<Ranking>, k: int)
    requires k > 0 && multiset(a) == multiset(b)
    ensures IsFusion(out, a, k) <==> IsFusion(out, b, k)
  {
    forall id ensures KeyOf(a, k, id) == KeyOf(b, k, id) && (Found(a, id) <==> Found(b, id)) {
      LegOrderIgnored(a, b, k, id);
      FoundHasScore(a, k, id);
      FoundHasScore(b, k, id);
    }
  }

  // ---------------------------------------------------------------- monotonicity and dominance

  function MovedUp(leg: Ranking, j: nat): Ranking
    requires 0 < j < |leg|
  {
    leg[j := leg[j - 1]][j - 1 := leg[j]]
  }

  lemma MovedUpScores(leg: Ranking, k: int, j: nat, id: string)
    requires k > 0 && 0 < j < |leg| && Distinct(leg)
    ensures id == leg[j] ==> LegScore(MovedUp(leg, j), k, id) > LegScore(leg, k, id)
    ensures id != leg[j] ==> LegScore(MovedUp(leg, j), k, id) <= LegScore(leg, k, id)
  {
    var moved := MovedUp(leg, j);
    ShareFalls(k, j, j + 1);
    if id in leg {
      var i :| 0 <= i < |leg| && leg[i] == id;
      LegPresent(leg, k, i);
      LegPresent(moved, k, if i == j then j - 1 else if i == j - 1 then j else i);
    } else {
      LegAbsent(leg, k, id);
      LegAbsent(moved, k, id);
    }
  }

  /** Moving one id up a place in one duplicate-free ranking puts no other id's key ahead of its own. */
  lemma MovedUpStaysAhead(rankings: seq<Ranking>, k: int, l: nat, j: nat, other: string)
    requires k > 0 && l < |rankings| && 0 < j < |rankings[l]| && Distinct(rankings[l])
    requires other != rankings[l][j]
    requires Precedes(rankings, k, rankings[l][j], other)
    ensures Precedes(rankings[l := MovedUp(rankings[l], j)], k, rankings[l][j], other)
  {
    var id, p, q := rankings[l][j], rankings[..l], rankings[l + 1..];
    var moved := rankings[l := MovedUp(rankings[l], j)];
    assert rankings == p + [rankings[l]] + q && moved == p + [moved[l]] + q;
    forall x ensures Score(moved, k, x) - Score(rankings, k, x) == LegScore(moved[l], k, x) - LegScore(rankings[l], k, x) {
      LegTakenOut(p, rankings[l], q, k, x);
      LegTakenOut(p, moved[l], q, k, x);
    }
    MovedUpScores(rankings[l], k, j, id);
    MovedUpScores(rankings[l], k, j, other);
  }

  lemma SameFound(rankings: seq<Ranking>, l: nat, j: nat, id: string)
    requires l < |rankings| && 0 < j < |rankings[l]|
    ensures Found(rankings[l := MovedUp(rankings[l], j)], id) <==> Found(rankings, id)
  {
    var moved := rankings[l := MovedUp(rankings[l], j)];
    assert id in moved[l] <==> id in rankings[l] by {
      assert moved[l][j] == rankings[l][j - 1] && moved[l][j - 1] == rankings[l][j];
      assert forall p :: 0 <= p < |rankings[l]| && p != j && p != j - 1 ==> moved[l][p] == rankings[l][p];
    }
    if Found(rankings, id) {
      var leg :| leg in rankings && id in leg;
      var p :| 0 <= p < |rankings| && rankings[p] == leg;
      assert moved[p] in moved && id in moved[p];
    }
    if Found(moved, id) {
      var leg :| leg in moved && id in leg;
      var p :| 0 <= p < |moved| && moved[p] == leg;
      assert rankings[p] in rankings && id in rankings[p];
    }
  }

  function Elements(s: seq<string>): set<string> {
    set x | x in s
  }

  lemma {:induction false} ElementsOf(s: seq<string>)
    ensures |Elements(s)| <= |s|
    ensures Distinct(s) ==> |Elements(s)| == |s|
  {
    if s != [] {
      var front := s[..|s| - 1];
      ElementsOf(front);
      assert Elements(s) == Elements(front) + {s[|s| - 1]};
    } else {
    }
  }

  lemma FusedAreDistinct(out: seq<string>, rankings: seq<Ranking>, k: int)
    requires k > 0 && IsFusion(out, rankings, k)
    ensures Distinct(out)
  {
    forall i, j | 0 <= i < j < |out| ensures out[i] != out[j] {
      AheadIsTotal(KeyOf(rankings, k, out[i]), KeyOf(rankings, k, out[j]));
    }
  }

  /** Whoever is listed before the id after the move was listed before it already. */
  lemma NobodyOvertakes(out: seq<string>, after: seq<string>, rankings: seq<Ranking>, k: int, l: nat, j: nat, n: nat, m: nat)
    requires k > 0 && l < |rankings| && 0 < j < |rankings[l]| && Distinct(rankings[l])
    requires IsFusion(out, rankings, k) && IsFusion(after, rankings[l := MovedUp(rankings[l], j)], k)
    requires n < |out| && m < |after| && out[n] == after[m] == rankings[l][j]
    ensures Elements(after[..m]) <= Elements(out[..n])
  {
    var moved := rankings[l := MovedUp(rankings[l], j)];
    forall x | x in Elements(after[..m]) ensures x in Elements(out[..n]) {
      var p :| 0 <= p < m && after[p] == x;
      assert Precedes(moved, k, after[p], after[m]);
      AheadIsTotal(KeyOf(moved, k, x), KeyOf(moved, k, after[m]));
      SameFound(rankings, l, j, x);
      var q :| 0 <= q < |out| && out[q] == x;
      if q > n {
        assert Precedes(rankings, k, out[n], out[q]);
        MovedUpStaysAhead(rankings, k, l, j, x);
      }
      assert out[..n][q] == x;
    }
  }

  /** So in what comes out it is at the same place or a higher one, and stays within every prefix it was
      within. */
  lemma FusionIsMonotone(out: seq<string>, after: seq<string>, rankings: seq<Ranking>, k: int, l: nat, j: nat, n: nat)
    returns (m: nat)
    requires k > 0 && l < |rankings| && 0 < j < |rankings[l]| && Distinct(rankings[l])
    requires IsFusion(out, rankings, k) && IsFusion(after, rankings[l := MovedUp(rankings[l], j)], k)
    requires n < |out| && out[n] == rankings[l][j]
    ensures m <= n && m < |after| && after[m] == rankings[l][j]
    ensures forall limit :: n < |Prefix(out, limit)| ==> after[m] in Prefix(after, limit)
  {
    SameFound(rankings, l, j, rankings[l][j]);
    assert rankings[l][j] in after;
    m :| 0 <= m < |after| && after[m] == rankings[l][j];
    NobodyOvertakes(out, after, rankings, k, l, j, n, m);
    FusedAreDistinct(after, rankings[l := MovedUp(rankings[l], j)], k);
    FewerElements(after[..m], out[..n]);
    SameLength(out, after, rankings, k, l, j);
    PrefixesKeep(out, after, n, m);
  }

  lemma FewerElements(a: seq<string>, b: seq<string>)
    requires Distinct(a) && Elements(a) <= Elements(b)
    ensures |a| <= |b|
  {
    ElementsOf(a);
    ElementsOf(b);
    assert Elements(b) == Elements(a) + (Elements(b) - Elements(a));
  }

  lemma PrefixesKeep(out: seq<string>, after: seq<string>, n: nat, m: nat)
    requires |out| == |after| && m <= n < |out|
    ensures forall limit :: n < |Prefix(out, limit)| ==> after[m] in Prefix(after, limit)
  {
    forall limit | n < |Prefix(out, limit)| ensures after[m] in Prefix(after, limit) {
      assert |Prefix(after, limit)| == |Prefix(out, limit)|;
      assert Prefix(after, limit)[m] == after[m];
    }
  }

  lemma SameLength(out: seq<string>, after: seq<string>, rankings: seq<Ranking>, k: int, l: nat, j: nat)
    requires k > 0 && l < |rankings| && 0 < j < |rankings[l]|
    requires IsFusion(out, rankings, k) && IsFusion(after, rankings[l := MovedUp(rankings[l], j)], k)
    ensures |out| == |after|
  {
    FusedAreDistinct(out, rankings, k);
    FusedAreDistinct(after, rankings[l := MovedUp(rankings[l], j)], k);
    ElementsOf(out);
    ElementsOf(after);
    forall x ensures x in out <==> x in after { SameFound(rankings, l, j, x); }
    assert Elements(out) == Elements(after);
  }

  ghost predicate Dominates(leg: Ranking, a: string, b: string) {
    b in leg ==> exists i, j :: 0 <= i < j < |leg| && leg[i] == a && leg[j] == b
  }

  lemma LegDominance(leg: Ranking, k: int, a: string, b: string)
    requires k > 0 && Distinct(leg) && Dominates(leg, a, b)
    ensures LegScore(leg, k, a) >= LegScore(leg, k, b)
    ensures b in leg ==> LegScore(leg, k, a) > LegScore(leg, k, b)
  {
    if b in leg {
      var i, j :| 0 <= i < j < |leg| && leg[i] == a && leg[j] == b;
      LegPresent(leg, k, i);
      LegPresent(leg, k, j);
      ShareFalls(k, i + 1, j + 1);
    } else {
      LegAbsent(leg, k, a);
      LegAbsent(leg, k, b);
    }
  }

  /** An id that precedes another in every leg that holds the other precedes it in the result. */
  lemma {:induction false} FusionRespectsDominance(rankings: seq<Ranking>, k: int, a: string, b: string)
    requires k > 0 && (forall l :: 0 <= l < |rankings| ==> Distinct(rankings[l]) && Dominates(rankings[l], a, b))
    ensures Score(rankings, k, a) >= Score(rankings, k, b)
    ensures Found(rankings, b) ==> Score(rankings, k, a) > Score(rankings, k, b)
    ensures Found(rankings, b) ==> Precedes(rankings, k, a, b)
  {
    if rankings != [] {
      var front, leg := rankings[..|rankings| - 1], rankings[|rankings| - 1];
      FusionRespectsDominance(front, k, a, b);
      LegDominance(leg, k, a, b);
      FoundInOne(front, leg, rankings, b);
    } else {
    }
  }

  lemma FoundInOne(front: seq<Ranking>, leg: Ranking, rankings: seq<Ranking>, id: string)
    requires rankings != [] && front == rankings[..|rankings| - 1] && leg == rankings[|rankings| - 1]
    ensures Found(rankings, id) <==> Found(front, id) || id in leg
  {
    assert rankings == front + [leg];
    assert leg in rankings;
  }

  // ---------------------------------------------------------------- two legs

  lemma TwoLegs(a: Ranking, b: Ranking, k: int, id: string)
    requires k > 0
    ensures Score([a, b], k, id) == LegScore(a, k, id) + LegScore(b, k, id)
    ensures Best([a, b], id) == Nearer(LegBest(a, id), LegBest(b, id))
  {
    assert [a, b] == [a] + [b] + [] && [a] == [] + [a] + [] && [a] == [a] + [];
    LegTakenOut([a], b, [], k, id);
    LegTakenOut([], a, [], k, id);
  }

  lemma HalfShare(k: int)
    requires k > 0
    ensures Share(k, k + 1) + Share(k, k + 1) > Share(k, 1)
    ensures Share(k, k + 2) + Share(k, k + 2) == Share(k, 1)
  {
    ShareFalls(k, k + 1, k + 2);
    var n := (k + 1) as real;
    assert (k + (k + 2)) as real == 2.0 * n;
    assert 1.0 / (2.0 * n) + 1.0 / (2.0 * n) == 1.0 / n;
  }

  /** With legs of distinct ids, at most `k + 1` of them each, every id found by both legs
      outranks every id found by one. */
  lemma BothLegsOutrankOne(a: Ranking, b: Ranking, k: int, x: string, y: string)
    requires k > 0 && Distinct(a) && Distinct(b) && |a| <= k + 1 && |b| <= k + 1
    requires x in a && x in b && (y in a <==> y !in b)
    ensures Precedes([a, b], k, x, y)
  {
    TwoLegs(a, b, k, x);
    TwoLegs(a, b, k, y);
    HalfShare(k);
    AtLeastLast(a, k, x);
    AtLeastLast(b, k, x);
    LegAbsent(a, k, y);
    LegAbsent(b, k, y);
    AtMostFirst(if y in a then a else b, k, y);
  }

  lemma AtLeastLast(leg: Ranking, k: int, id: string)
    requires k > 0 && Distinct(leg) && |leg| <= k + 1 && id in leg
    ensures LegScore(leg, k, id) >= Share(k, k + 1)
  {
    var i :| 0 <= i < |leg| && leg[i] == id;
    LegPresent(leg, k, i);
    if i < k { ShareFalls(k, i + 1, k + 1); }
  }

  lemma AtMostFirst(leg: Ranking, k: int, id: string)
    requires k > 0 && Distinct(leg) && id in leg
    ensures LegScore(leg, k, id) <= Share(k, 1)
  {
    var i :| 0 <= i < |leg| && leg[i] == id;
    LegPresent(leg, k, i);
    if i > 0 { ShareFalls(k, 1, i + 1); }
  }

  /** One place more and the bound fails: an id last in both legs loses to one first in only one. */
  lemma BoundIsExact(a: Ranking, b: Ranking, k: int, x: string, y: string)
    requires k > 0 && Distinct(a) && Distinct(b) && |a| == |b| == k + 2
    requires a[k + 1] == x && b[k + 1] == x && a[0] == y && y !in b
    ensures Precedes([a, b], k, y, x)
  {
    TwoLegs(a, b, k, x);
    TwoLegs(a, b, k, y);
    HalfShare(k);
    LegPresent(a, k, k + 1);
    LegPresent(b, k, k + 1);
    LegPresent(a, k, 0);
    LegAbsent(b, k, y);
  }

  // ---------------------------------------------------------------- the code

  ghost predicate SortedKeys(s: seq<Key>) {
    forall i, j :: 0 <= i < j < |s| ==> Ahead(s[i], s[j])
  }

  method Insert(s: seq<Key>, key: Key) returns (r: seq<Key>)
    requires SortedKeys(s) && key !in s
    ensures SortedKeys(r) && forall x :: x in r <==> x in s || x == key
  {
    var i := 0;
    while i < |s| && Ahead(s[i], key)
      invariant i <= |s| && forall j :: 0 <= j < i ==> Ahead(s[j], key)
    {
      i := i + 1;
    }
    forall j | i <= j < |s| ensures Ahead(key, s[j]) {
      AheadIsTotal(s[i], key);
      if i < j { AheadIsTransitive(key, s[i], s[j]); }
    }
    r := s[..i] + [key] + s[i..];
  }

  /** `sorted` over the ids of the score table, by key. */
  method Sort(scores: map<string, real>, best: map<string, nat>) returns (ids: seq<string>)
    requires scores.Keys == best.Keys
    ensures forall id :: id in ids <==> id in scores
    ensures forall i, j :: 0 <= i < j < |ids| ==>
              Ahead(Key(scores[ids[i]], best[ids[i]], ids[i]), Key(scores[ids[j]], best[ids[j]], ids[j]))
  {
    var left := scores.Keys;
    var keys: seq<Key> := [];
    while left != {}
      invariant left <= scores.Keys && SortedKeys(keys)
      invariant forall key :: key in keys ==> key.id in scores && key.id !in left && key == Key(scores[key.id], best[key.id], key.id)
      invariant forall id :: id in scores && id !in left ==> Key(scores[id], best[id], id) in keys
      decreases left
    {
      var id :| id in left;
      keys := Insert(keys, Key(scores[id], best[id], id));
      left := left - {id};
    }
    ids := seq(|keys|, i requires 0 <= i < |keys| => keys[i].id);
    forall id | id in scores ensures id in ids {
      var i :| 0 <= i < |keys| && keys[i] == Key(scores[id], best[id], id);
      assert ids[i] == id;
    }
    forall id | id in ids ensures id in scores {
      var i :| 0 <= i < |ids| && ids[i] == id;
      assert keys[i] in keys;
    }
    forall i | 0 <= i < |ids| ensures keys[i] == Key(scores[ids[i]], best[ids[i]], ids[i]) { assert keys[i] in keys; }
  }

  ghost predicate Tallied(scores: map<string, real>, best: map<string, nat>, rankings: seq<Ranking>, part: Ranking, k: int)
    requires k > 0
  {
    scores.Keys == best.Keys && forall id :: TalliedAt(scores, best, rankings, part, k, id)
  }

  ghost predicate TalliedAt(scores: map<string, real>, best: map<string, nat>, rankings: seq<Ranking>, part: Ranking, k: int, id: string)
    requires k > 0 && scores.Keys == best.Keys
  {
    && (id in scores <==> Nearer(Best(rankings, id), LegBest(part, id)) > 0)
    && (id in scores ==>
          scores[id] == Score(rankings, k, id) + LegScore(part, k, id) && best[id] == Nearer(Best(rankings, id), LegBest(part, id)))
  }

  method Tally(rankings: seq<Ranking>, k: int) returns (scores: map<string, real>, best: map<string, nat>)
    requires k > 0
    ensures Tallied(scores, best, rankings, [], k)
  {
    scores, best := map[], map[];
    for r := 0 to |rankings|
      invariant Tallied(scores, best, rankings[..r], [], k)
    {
      var ranking := rankings[r];
      for p := 0 to |ranking|
        invariant Tallied(scores, best, rankings[..r], ranking[..p], k)
      {
        var id, position := ranking[p], p + 1;
        ghost var scores0, best0 := scores, best;
        scores := scores[id := (if id in scores then scores[id] else 0.0) + 1.0 / (k + position) as real];
        if position < (if id in best then best[id] else position + 1) {
          best := best[id := position];
        }
        OnePlaceOn(scores0, best0, scores, best, rankings[..r], ranking, p, k);
      }
      assert ranking[..|ranking|] == ranking;
      NextLeg(scores, best, rankings, r, k);
    }
    assert rankings[..|rankings|] == rankings;
  }

  lemma OnePlaceOn(scores0: map<string, real>, best0: map<string, nat>, scores: map<string, real>, best: map<string, nat>,
                   done: seq<Ranking>, ranking: Ranking, p: nat, k: int)
    requires k > 0 && p < |ranking| && Tallied(scores0, best0, done, ranking[..p], k)
    requires scores == scores0[ranking[p] := (if ranking[p] in scores0 then scores0[ranking[p]] else 0.0) + Share(k, p + 1)]
    requires best == if p + 1 < (if ranking[p] in best0 then best0[ranking[p]] else p + 2) then best0[ranking[p] := p + 1] else best0
    ensures Tallied(scores, best, done, ranking[..p + 1], k)
  {
    var part := ranking[..p + 1];
    forall id ensures TalliedAt(scores, best, done, part, k, id) {
      assert TalliedAt(scores0, best0, done, ranking[..p], k, id);
      LegGrows(ranking, p, k, id);
      if id == ranking[p] {
        FoundHasScore(done, k, id);
        LegAbsent(ranking[..p], k, id);
      }
    }
  }

  lemma LegGrows(ranking: Ranking, p: nat, k: int, id: string)
    requires k > 0 && p < |ranking|
    ensures LegBest(ranking[..p + 1], id) == Nearer(LegBest(ranking[..p], id), if ranking[p] == id then p + 1 else 0)
    ensures LegScore(ranking[..p + 1], k, id) == LegScore(ranking[..p], k, id) + if ranking[p] == id then Share(k, p + 1) else 0.0
  {
    assert ranking[..p + 1][..p] == ranking[..p];
  }

  lemma NextLeg(scores: map<string, real>, best: map<string, nat>, rankings: seq<Ranking>, r: nat, k: int)
    requires k > 0 && r < |rankings| && Tallied(scores, best, rankings[..r], rankings[r], k)
    ensures Tallied(scores, best, rankings[..r + 1], [], k)
  {
    assert rankings[..r + 1][..r] == rankings[..r];
    var done := rankings[..r + 1];
    forall id ensures TalliedAt(scores, best, done, [], k, id) {
      assert TalliedAt(scores, best, rankings[..r], rankings[r], k, id);
    }
  }

  /** Fuse the rankings; a rank constant that is not positive is refused. */
  method ReciprocalRankFusion(rankings: seq<Ranking>, k: int, limit: Option<int>) returns (out: Result<seq<string>>)
    ensures out.Err? <==> k <= 0
    ensures out.Err? ==> out == Err("rank_constant must be positive")
    ensures out.Ok? ==> exists whole :: IsFusion(whole, rankings, k) && out.value == Prefix(whole, limit)
  {
    if k <= 0 { return Err("rank_constant must be positive"); }
    var scores, best := Tally(rankings, k);
    var fused := Sort(scores, best);
    forall id ensures id in fused <==> Found(rankings, id) {
      assert TalliedAt(scores, best, rankings, [], k, id);
      FoundHasScore(rankings, k, id);
    }
    forall id | id in fused ensures Key(scores[id], best[id], id) == KeyOf(rankings, k, id) {
      assert TalliedAt(scores, best, rankings, [], k, id);
    }
    assert IsFusion(fused, rankings, k);
    out := Ok(Prefix(fused, limit));
  }

  // ---------------------------------------------------------------- retrieval

  const DEFAULT_RANK_CONSTANT := 60

  datatype Hit = Hit(chunkId: string, payload: string)

  function Ids(hits: seq<Hit>): (r: Ranking)
    ensures |r| == |hits| && forall i :: 0 <= i < |r| ==> r[i] == hits[i].chunkId
  {
    seq(|hits|, i requires 0 <= i < |hits| => hits[i].chunkId)
  }

  /** The first of the hits with that id. */
  function FirstHit(hits: seq<Hit>, id: string): (hit: Hit)
    requires id in Ids(hits)
    ensures hit in hits && hit.chunkId == id
  {
    if hits[0].chunkId == id then hits[0]
    else assert Ids(hits) == [hits[0].chunkId] + Ids(hits[1..]); FirstHit(hits[1..], id)
  }

  lemma {:induction false} FirstOfTwo(a: seq<Hit>, b: seq<Hit>, id: string)
    ensures id in Ids(a + b) <==> id in Ids(a) || id in Ids(b)
    ensures id in Ids(a) ==> FirstHit(a + b, id) == FirstHit(a, id)
    ensures id !in Ids(a) && id in Ids(b) ==> FirstHit(a + b, id) == FirstHit(b, id)
  {
    assert Ids(a + b) == Ids(a) + Ids(b);
    if a == [] {
      assert a + b == b;
    } else {
      assert Ids(a) == [a[0].chunkId] + Ids(a[1..]);
      assert (a + b)[1..] == a[1..] + b;
      FirstOfTwo(a[1..], b, id);
    }
  }

  /** Each id's first hit. */
  method ById(hits: seq<Hit>) returns (byId: map<string, Hit>)
    ensures forall id :: id in byId <==> id in Ids(hits)
    ensures forall id :: id in byId ==> byId[id] == FirstHit(hits, id)
  {
    byId := map[];
    for i := 0 to |hits|
      invariant forall id :: id in byId <==> id in Ids(hits[..i])
      invariant forall id :: id in byId ==> byId[id] == FirstHit(hits[..i], id)
    {
      OneHitMore(hits, i);
      if hits[i].chunkId !in byId { byId := byId[hits[i].chunkId := hits[i]]; }
    }
    assert hits[..|hits|] == hits;
  }

  /** Both legs' hits, fused and looked up again by id: no lookup misses, and each id comes back
      as the vector leg's hit where that leg has one. */
  method Retrieve(blankQuery: bool, lexical: seq<Hit>, vectorial: seq<Hit>, limit: int) returns (out: Result<seq<Hit>>)
    ensures out.Err? <==> blankQuery
    ensures out.Err? ==> out == Err("cannot retrieve for an empty query")
    ensures out.Ok? ==> exists whole ::
      && IsFusion(whole, [Ids(lexical), Ids(vectorial)], 60)
      && Ids(out.value) == Prefix(whole, Some(limit))
      && forall hit :: hit in out.value ==> Preferred(hit, lexical, vectorial)
  {
    if blankQuery { return Err("cannot retrieve for an empty query"); }
    var byId := ById(vectorial + lexical);
    var fused := ReciprocalRankFusion([Ids(lexical), Ids(vectorial)], DEFAULT_RANK_CONSTANT, Some(limit));
    ghost var whole :| IsFusion(whole, [Ids(lexical), Ids(vectorial)], DEFAULT_RANK_CONSTANT)
                       && fused.value == Prefix(whole, Some(limit));
    forall id | id in fused.value ensures id in byId { FusedIsFetched(whole, fused.value, id, lexical, vectorial); }
    var found := seq(|fused.value|, i requires 0 <= i < |fused.value| => byId[fused.value[i]]);
    assert Ids(found) == fused.value;
    forall hit | hit in found ensures Preferred(hit, lexical, vectorial) { FirstOfTwo(vectorial, lexical, hit.chunkId); }
    out := Ok(found);
  }

  /** The vector leg's hit for its id if there is one, else the lexical leg's. */
  ghost predicate Preferred(hit: Hit, lexical: seq<Hit>, vectorial: seq<Hit>) {
    if hit.chunkId in Ids(vectorial) then hit == FirstHit(vectorial, hit.chunkId)
    else hit.chunkId in Ids(lexical) && hit == FirstHit(lexical, hit.chunkId)
  }

  lemma OneHitMore(hits: seq<Hit>, i: nat)
    requires i < |hits|
    ensures forall id :: id in Ids(hits[..i + 1]) <==> id in Ids(hits[..i]) || id == hits[i].chunkId
    ensures forall id :: id in Ids(hits[..i]) ==> FirstHit(hits[..i + 1], id) == FirstHit(hits[..i], id)
    ensures hits[i].chunkId !in Ids(hits[..i]) ==> FirstHit(hits[..i + 1], hits[i].chunkId) == hits[i]
  {
    assert hits[..i + 1] == hits[..i] + [hits[i]];
    forall id ensures id in Ids(hits[..i + 1]) <==> id in Ids(hits[..i]) || id == hits[i].chunkId
              ensures id in Ids(hits[..i]) ==> FirstHit(hits[..i + 1], id) == FirstHit(hits[..i], id)
    {
      FirstOfTwo(hits[..i], [hits[i]], id);
    }
    FirstOfTwo(hits[..i], [hits[i]], hits[i].chunkId);
  }

  lemma FusedIsFetched(whole: seq<string>, fused: seq<string>, id: string, lexical: seq<Hit>, vectorial: seq<Hit>)
    requires IsFusion(whole, [Ids(lexical), Ids(vectorial)], DEFAULT_RANK_CONSTANT) && fused <= whole && id in fused
    ensures id in Ids(vectorial + lexical)
  {
    assert id in whole;
    assert Found([Ids(lexical), Ids(vectorial)], id);
    assert Ids(vectorial + lexical) == Ids(vectorial) + Ids(lexical);
  }

  lemma InOrder(out: seq<string>, rankings: seq<Ranking>, k: int, i: nat, j: nat)
    requires k > 0 && IsFusion(out, rankings, k) && i < j < |out|
    ensures Precedes(rankings, k, out[i], out[j])
  {
  }

  /** With the legs retrieval asks for, a chunk found by both is never listed after one found by
      a single leg. */
  lemma SharedHitsComeFirst(lexical: seq<Hit>, vectorial: seq<Hit>, whole: seq<string>, i: nat, j: nat)
    requires Distinct(Ids(lexical)) && Distinct(Ids(vectorial))
    requires |lexical| <= DEFAULT_RANK_CONSTANT + 1 && |vectorial| <= DEFAULT_RANK_CONSTANT + 1
    requires IsFusion(whole, [Ids(lexical), Ids(vectorial)], DEFAULT_RANK_CONSTANT) && i < |whole| && j < |whole|
    requires whole[i] in Ids(lexical) && whole[i] in Ids(vectorial)
    requires whole[j] in Ids(lexical) <==> whole[j] !in Ids(vectorial)
    ensures i < j
  {
    var legs := [Ids(lexical), Ids(vectorial)];
    BothLegsOutrankOne(Ids(lexical), Ids(vectorial), DEFAULT_RANK_CONSTANT, whole[i], whole[j]);
    AheadIsTotal(KeyOf(legs, DEFAULT_RANK_CONSTANT, whole[i]), KeyOf(legs, DEFAULT_RANK_CONSTANT, whole[j]));
    if j < i { InOrder(whole, legs, DEFAULT_RANK_CONSTANT, j, i); }
  }
}
