/** The chaos counter ramp (apps/platform-sim chaos.py), over real arithmetic: a counter that climbs
    at a rate inside a window and is handed out in whole units whenever it is scraped. */
module CounterRamp {

  datatype Call =
    | Ramp(perSecond: real, duration: real, at: real)
    | Drain(at: real)
    | Clear(at: real)

  function Min(a: real, b: real): real {
    if a <= b then a else b
  }

  // ---------------------------------------------------------------- what the calls have earned

  /** A stretch of climbing, from one moment until another. */
  datatype Window = Window(perSecond: real, from: real, until: real)

  function Cut(ws: seq<Window>, at: real): (r: seq<Window>)
    ensures |r| == |ws|
  {
    seq(|ws|, i requires 0 <= i < |ws| => ws[i].(until := Min(ws[i].until, at)))
  }

  /** The windows a log opens: a ramp ends what was running and opens one, a clear only ends,
      and a drain has no part in it. */
  function Windows(log: seq<Call>): seq<Window> {
    if log == [] then []
    else
      var before := Windows(log[..|log| - 1]);
      match log[|log| - 1]
      case Ramp(rate, duration, at) => Cut(before, at) + [Window(rate, at, at + duration)]
      case Drain(_) => before
      case Clear(at) => Cut(before, at)
  }

  function Active(w: Window, now: real): real {
    if Min(w.until, now) > w.from then Min(w.until, now) - w.from else 0.0
  }

  function Total(ws: seq<Window>, now: real): real {
    if ws == [] then 0.0
    else Total(ws[..|ws| - 1], now) + ws[|ws| - 1].perSecond * Active(ws[|ws| - 1], now)
  }

  /** Rate times active time, summed over the windows. */
  function Earned(log: seq<Call>, now: real): real {
    Total(Windows(log), now)
  }

  predicate Ordered(log: seq<Call>) {
    forall i :: 0 < i < |log| ==> log[i - 1].at <= log[i].at
  }

  predicate NotBefore(log: seq<Call>, now: real) {
    log != [] ==> log[|log| - 1].at <= now
  }

  lemma {:induction false} CutStopsTheClock(ws: seq<Window>, at: real, now: real)
    requires at <= now
    ensures Total(Cut(ws, at), now) == Total(ws, at)
  {
    if ws != [] {
      CutStopsTheClock(ws[..|ws| - 1], at, now);
      assert Cut(ws, at)[..|ws| - 1] == Cut(ws[..|ws| - 1], at);
    } else {
    }
  }

  function Undrained(log: seq<Call>): seq<Call> {
    if log == [] then []
    else if log[|log| - 1].Drain? then Undrained(log[..|log| - 1])
    else Undrained(log[..|log| - 1]) + [log[|log| - 1]]
  }

  lemma {:induction false} DrainsOpenNothing(log: seq<Call>)
    ensures Windows(log) == Windows(Undrained(log))
  {
    if log != [] {
      var front, call := log[..|log| - 1], log[|log| - 1];
      DrainsOpenNothing(front);
      if !call.Drain? {
        assert (Undrained(front) + [call])[..|Undrained(front)|] == Undrained(front);
      }
    } else {
    }
  }

  // ---------------------------------------------------------------- the ramp

  /** What a ramp settled up to `last` has accrued since, by `now`. */
  function Accrued(rate: real, deadline: real, last: real, now: real): real {
    if Min(now, deadline) > last then rate * (Min(now, deadline) - last) else 0.0
  }

  function Advanced(deadline: real, last: real, now: real): real {
    if Min(now, deadline) > last then Min(now, deadline) else last
  }

  /** Settling on the way changes nothing in the end. */
  lemma AccruesInParts(rate: real, deadline: real, last: real, now: real, later: real)
    requires now <= later
    ensures Accrued(rate, deadline, last, later)
            == Accrued(rate, deadline, last, now) + Accrued(rate, deadline, Advanced(deadline, last, now), later)
  {
    var end, finish := Min(now, deadline), Min(later, deadline);
    if last < end < finish {
      Distributes(rate, end - last, finish - end);
      assert finish - last == (end - last) + (finish - end);
    } else if last < end {
      assert end == finish;
    }
  }

  lemma Distributes(rate: real, a: real, b: real)
    ensures rate * (a + b) == rate * a + rate * b
  {
  }

  lemma WindowEarns(w: Window, now: real)
    ensures w.perSecond * Active(w, now) == Accrued(w.perSecond, w.until, w.from, now)
  {
    assert w.perSecond * 0.0 == 0.0;
  }

  lemma RampEarns(log: seq<Call>, rate: real, duration: real, at: real, later: real)
    requires at <= later
    ensures Earned(log + [Ramp(rate, duration, at)], later) == Earned(log, at) + Accrued(rate, at + duration, at, later)
  {
    var ws, w := Windows(log), Window(rate, at, at + duration);
    assert (log + [Ramp(rate, duration, at)])[..|log|] == log;
    TotalOfOneMore(Cut(ws, at), w, later);
    CutStopsTheClock(ws, at, later);
    WindowEarns(w, later);
  }

  lemma TotalOfOneMore(ws: seq<Window>, w: Window, now: real)
    ensures Total(ws + [w], now) == Total(ws, now) + w.perSecond * Active(w, now)
  {
    assert (ws + [w])[..|ws|] == ws;
  }

  lemma SameTime(rate: real, a: real, b: real)
    requires a == b
    ensures rate * a == rate * b
  {
  }

  lemma RampRuns(rate: real, duration: real, at: real, later: real)
    requires at <= later
    ensures Accrued(rate, at + duration, at, later) ==
            if duration <= 0.0 then 0.0 else if later - at <= duration then rate * (later - at) else rate * duration
  {
    if duration > 0.0 {
      if later - at > duration {
        assert Min(later, at + duration) == at + duration;
        SameTime(rate, at + duration - at, duration);
      } else {
        assert Min(later, at + duration) == later;
        if later == at { SameTime(rate, later - at, 0.0); }
      }
    }
  }

  lemma OthersEarn(log: seq<Call>, at: real, later: real)
    requires at <= later
    ensures Earned(log + [Clear(at)], later) == Earned(log, at)
    ensures Earned(log + [Drain(at)], later) == Earned(log, later)
  {
    CutStopsTheClock(Windows(log), at, later);
    assert (log + [Clear(at)])[..|log|] == log && (log + [Drain(at)])[..|log|] == log;
  }

  /** What a log earns, call by call: a ramp adds its rate for as long as it runs, at most its duration,
      and ends what ran before; a clear ends it; a drain adds nothing and ends nothing. */
  lemma CallByCall(log: seq<Call>, at: real, rate: real, duration: real, later: real)
    requires at <= later
    ensures log == [] ==> Earned(log, later) == 0.0
    ensures Earned(log + [Clear(at)], later) == Earned(log, at)
    ensures Earned(log + [Drain(at)], later) == Earned(log, later)
    ensures Earned(log + [Ramp(rate, duration, at)], later) ==
            Earned(log, at) + if duration <= 0.0 then 0.0 else if later - at <= duration then rate * (later - at) else rate * duration
  {
    RampEarns(log, rate, duration, at, later);
    RampRuns(rate, duration, at, later);
    OthersEarn(log, at, later);
  }

  class CounterRamp {
    var perSecond: real
    var deadline: real
    var lastAdvance: real
    var pending: real
    /** The calls so far, and what the drains among them returned in all. */
    ghost var log: seq<Call>
    ghost var drained: int

    /** What `Accrue` would add at `now`. */
    ghost function Due(now: real): real
      reads this
    {
      Accrued(perSecond, deadline, lastAdvance, now)
    }

    /** Nothing earned is ever lost or counted twice. */
    ghost predicate Conserves(now: real)
      reads this
    {
      Earned(log, now) == drained as real + pending + Due(now)
    }

    ghost predicate Valid()
      reads this
    {
      Ordered(log) && forall now :: NotBefore(log, now) ==> Conserves(now)
    }

    constructor ()
      ensures Valid() && log == [] && drained == 0
    {
      perSecond, deadline, lastAdvance, pending := 0.0, 0.0, 0.0, 0.0;
      log, drained := [], 0;
    }

    method Accrue(now: real)
      requires Valid() && NotBefore(log, now)
      modifies this`pending, this`lastAdvance
      ensures Due(now) == 0.0 && Conserves(now)
      ensures forall later :: later >= now ==>
        Earned(log, later) == drained as real + pending + Accrued(perSecond, deadline, lastAdvance, later)
    {
      forall later | later >= now
        ensures Earned(log, later) == drained as real + pending + Due(now)
                                      + Accrued(perSecond, deadline, Advanced(deadline, lastAdvance, now), later)
      {
        assert Conserves(later);
        AccruesInParts(perSecond, deadline, lastAdvance, now, later);
      }
      var end := Min(now, deadline);
      if end > lastAdvance {
        pending := pending + perSecond * (end - lastAdvance);
        lastAdvance := end;
      }
    }

    /** Start or retarget the ramp. */
    method Start(rate: real, duration: real, now: real)
      requires Valid() && NotBefore(log, now)
      modifies this
      ensures Valid() && log == old(log) + [Ramp(rate, duration, now)] && drained == old(drained)
    {
      Accrue(now);
      perSecond := rate;
      deadline := now + duration;
      lastAdvance := now;
      log := log + [Ramp(rate, duration, now)];
      forall later | later >= now ensures Conserves(later) { RampEarns(old(log), rate, duration, now, later); }
    }

    /** The whole units earned and not handed out yet: after it the drains have returned the
        floor of everything earned, and less than one unit is left over. */
    method HandOver(now: real) returns (whole: int)
      requires Valid() && NotBefore(log, now)
      modifies this
      ensures Valid() && log == old(log) + [Drain(now)] && drained == old(drained) + whole
      ensures drained == Earned(log, now).Floor
      ensures JustDrained(this, now)
    {
      Accrue(now);
      whole := pending.Floor;
      pending := pending - whole as real;
      drained := drained + whole;
      log := log + [Drain(now)];
      assert log[..|log| - 1] == old(log);
      forall later | later >= now ensures Conserves(later) { assert Earned(log, later) == Earned(old(log), later); }
    }

    /** Stop the climb; what was earned stays owed. */
    method Stop(now: real)
      requires Valid() && NotBefore(log, now)
      modifies this
      ensures Valid() && log == old(log) + [Clear(now)] && drained == old(drained)
      ensures forall later :: later >= now ==> Earned(log, later) == Earned(old(log), now)
    {
      Accrue(now);
      perSecond, deadline, lastAdvance := 0.0, 0.0, 0.0;
      log := log + [Clear(now)];
      assert log[..|log| - 1] == old(log);
      forall later | later >= now ensures Conserves(later) && Earned(log, later) == Earned(old(log), now) {
        CutStopsTheClock(Windows(old(log)), now, later);
      }
    }
  }

  ghost predicate JustDrained(ramp: CounterRamp, now: real)
    reads ramp
  {
    ramp.log != [] && ramp.log[|ramp.log| - 1] == Drain(now) && 0.0 <= ramp.pending < 1.0 && ramp.Due(now) == 0.0
  }

  /** The total handed out does not depend on how often, or when, the counter was scraped before:
      two ramps with the same ramps and clears that have just been drained have handed out the
      same, namely the floor of what those calls earned. */
  lemma ScrapingDoesNotMatter(a: CounterRamp, b: CounterRamp, now: real)
    requires a.Valid() && b.Valid() && JustDrained(a, now) && JustDrained(b, now)
    requires Undrained(a.log) == Undrained(b.log)
    ensures a.drained == b.drained == Earned(Undrained(a.log), now).Floor
    ensures a.pending == b.pending
  {
    DrainsOpenNothing(a.log);
    DrainsOpenNothing(b.log);
    assert a.Conserves(now) && b.Conserves(now);
  }
}
