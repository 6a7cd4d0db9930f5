/** The send gate of `Worker::sendDueUpdates`, over real time.

    A client is due when a full interval has passed since `lastSendTime`; the mark then
    advances by one interval, or jumps to now when that would still leave it more than an
    interval behind.  Two bounds follow: a burst bound over any run, and the exact phase of
    a steady run.
 */
module Pacing {

  function Interval(hz: nat): (i: real)
    requires hz >= 1
    ensures i > 0.0 && i * hz as real == 1.0
  {
    1.0 / hz as real
  }

  predicate Due(interval: real, last: real, now: real) {
    now - last >= interval
  }

  function Advance(interval: real, last: real, now: real): real {
    var next := last + interval;
    if now - next > interval then now else next
  }

  /** k intervals, as repeated addition. */
  function Multiple(k: int, interval: real): real
    decreases if k < 0 then -k else k
  {
    if k == 0 then 0.0
    else if k > 0 then Multiple(k - 1, interval) + interval
    else Multiple(k + 1, interval) - interval
  }

  lemma {:induction false} MultipleIsProduct(k: int, interval: real)
    ensures Multiple(k, interval) == k as real * interval
    decreases if k < 0 then -k else k
  {
    if k > 0 {
      MultipleIsProduct(k - 1, interval);
      assert k as real * interval == (k - 1) as real * interval + interval;
    } else if k < 0 {
      MultipleIsProduct(k + 1, interval);
      assert k as real * interval == (k + 1) as real * interval - interval;
    }
  }

  lemma OneMore(k: int, interval: real)
    ensures Multiple(k + 1, interval) == Multiple(k, interval) + interval
  {
  }

  // ----- Burst bound -------------------------------------------------------------------

  /** What every run keeps about one client: `attempts` are the times it passed the gate. */
  ghost predicate Spaced(interval: real, attempts: seq<real>, last: real, clock: real) {
    && (attempts != [] ==> last <= clock)
    && (forall k :: 0 <= k < |attempts| ==>
          attempts[k] <= clock && last >= attempts[k] + Multiple(|attempts| - 2 - k, interval))
    && (forall i, j :: 0 <= i <= j < |attempts| ==>
          attempts[i] <= attempts[j] && Multiple(j - i - 1, interval) <= attempts[j] - attempts[i])
  }

  lemma AttemptKeepsSpacing(interval: real, attempts: seq<real>, last: real, clock: real, now: real)
    requires interval > 0.0 && clock <= now
    requires Spaced(interval, attempts, last, clock) && Due(interval, last, now)
    ensures Spaced(interval, attempts + [now], Advance(interval, last, now), now)
  {
    var more, m := attempts + [now], |attempts|;
    var next := Advance(interval, last, now);
    forall k | 0 <= k < |more|
      ensures more[k] <= now && next >= more[k] + Multiple(|more| - 2 - k, interval)
    {
      OneMore(m - 2 - k, interval);
    }
    forall i, j | 0 <= i <= j < |more|
      ensures more[i] <= more[j] && Multiple(j - i - 1, interval) <= more[j] - more[i]
    {
      OneMore(m - 2 - i, interval);
    }
  }

  lemma ResumeKeepsSpacing(interval: real, attempts: seq<real>, last: real, clock: real, now: real)
    requires clock <= now && Spaced(interval, attempts, last, clock)
    ensures Spaced(interval, attempts, now, now)
  {
  }

  /** At most W * hz + 2 attempts fall in any window of length W. */
  lemma BurstBound(hz: nat, attempts: seq<real>, last: real, clock: real, from: real, window: real, i: nat, j: nat)
    requires hz >= 1 && Spaced(Interval(hz), attempts, last, clock)
    requires i <= j < |attempts| && from <= attempts[i] && attempts[j] <= from + window
    ensures (j - i + 1) as real <= window * hz as real + 2.0
  {
    MultipleIsProduct(j - i - 1, Interval(hz));
    ScaleBound((j - i - 1) as real, Interval(hz), hz as real, window);
  }

  lemma ScaleBound(gaps: real, interval: real, h: real, window: real)
    requires interval * h == 1.0 && h > 0.0 && gaps * interval <= window
    ensures gaps <= window * h
  {
    assert gaps * interval * h <= window * h;
    assert gaps * interval * h == gaps * (interval * h);
  }

  // ----- Steady phase ------------------------------------------------------------------

  datatype Progress = Progress(attempts: nat, last: real)

  /** The gate over the tick times of a client that stays active. */
  function RunTicks(interval: real, last: real, ticks: seq<real>): Progress
    decreases |ticks|
  {
    if ticks == [] then Progress(0, last)
    else
      var before := RunTicks(interval, last, ticks[..|ticks| - 1]);
      var now := ticks[|ticks| - 1];
      if Due(interval, before.last, now)
      then Progress(before.attempts + 1, Advance(interval, before.last, now))
      else before
  }

  function EndOf(start: real, ticks: seq<real>): real {
    if ticks == [] then start else ticks[|ticks| - 1]
  }

  /** Ticks follow `start` and each other by at most one interval. */
  ghost predicate Close(interval: real, start: real, ticks: seq<real>)
    decreases |ticks|
  {
    ticks != [] ==>
      var rest := ticks[..|ticks| - 1];
      && Close(interval, start, rest)
      && EndOf(start, rest) <= ticks[|ticks| - 1] <= EndOf(start, rest) + interval
  }

  /** How far the mark trails the clock after a tick: never more than an interval. */
  lemma SlackAfterTick(interval: real, last: real, now: real)
    requires interval > 0.0 && last <= now
    ensures var next := if Due(interval, last, now) then Advance(interval, last, now) else last;
            0.0 <= now - next <= interval
    ensures Due(interval, last, now) && now - last == 2.0 * interval ==> now - Advance(interval, last, now) == interval
  {
  }

  /** The no-burst jump never fires while ticks stay close, so the mark advances by exactly
      one interval an attempt and the phase stays where it was. */
  lemma {:induction false} PhaseKept(interval: real, last: real, start: real, ticks: seq<real>)
    requires interval > 0.0 && 0.0 <= start - last <= interval && Close(interval, start, ticks)
    ensures var p := RunTicks(interval, last, ticks);
            && p.last == last + Multiple(p.attempts, interval)
            && 0.0 <= EndOf(start, ticks) - p.last <= interval
            && (start - last < interval ==> EndOf(start, ticks) - p.last < interval)
    decreases |ticks|
  {
    if ticks != [] {
      var rest := ticks[..|ticks| - 1];
      PhaseKept(interval, last, start, rest);
      OneMore(RunTicks(interval, last, rest).attempts, interval);
    }
  }

  ghost predicate WithinOne(hz: nat, last: real, start: real, ticks: seq<real>)
    requires hz >= 1
  {
    var made := RunTicks(Interval(hz), last, ticks).attempts as real;
    var expected := (EndOf(start, ticks) - start) * hz as real;
    -1.0 < made - expected < 1.0
  }

  lemma RateFromPhase(i: real, h: real, last: real, start: real, ticks: seq<real>)
    requires i * h == 1.0 && i > 0.0 && h > 0.0
    requires 0.0 <= start - last < i && Close(i, start, ticks)
    ensures -1.0 < RunTicks(i, last, ticks).attempts as real - (EndOf(start, ticks) - start) * h < 1.0
  {
    PhaseKept(i, last, start, ticks);
    var made := RunTicks(i, last, ticks).attempts;
    var whole := Multiple(made, i);
    MultipleIsProduct(made, i);
    ScaleDifference(i, h, EndOf(start, ticks) - start, made as real, whole);
  }

  lemma WithinOneFromPhase(hz: nat, last: real, start: real, ticks: seq<real>)
    requires hz >= 1 && 0.0 <= start - last < Interval(hz) && Close(Interval(hz), start, ticks)
    ensures WithinOne(hz, last, start, ticks)
  {
    RateFromPhase(Interval(hz), hz as real, last, start, ticks);
  }

  lemma ScaleDifference(i: real, h: real, w: real, made: real, whole: real)
    requires i * h == 1.0 && h > 0.0 && whole == made * i && -i < w - whole < i
    ensures -1.0 < made - w * h < 1.0
  {
    var d := w - whole;
    assert (i - d) * h > 0.0 && (i + d) * h > 0.0;
    assert whole * h == made * (i * h);
    assert d * h == w * h - whole * h;
    assert (i - d) * h == i * h - d * h && (i + d) * h == i * h + d * h;
  }

  /** Steady rate.  From a tick that left the mark trailing by `start - last`, every run of
      close ticks makes W * hz attempts to within less than one, exactly when the mark trails
      by less than a full interval.  A stall of exactly two intervals leaves it a full one
      behind, and then two ticks at one instant already differ by one. */
  lemma SteadyRate(hz: nat, last: real, start: real)
    requires hz >= 1 && 0.0 <= start - last <= Interval(hz)
    ensures (forall ticks :: Close(Interval(hz), start, ticks) ==> WithinOne(hz, last, start, ticks))
       <==> start - last < Interval(hz)
  {
    if start - last < Interval(hz) {
      forall ticks | Close(Interval(hz), start, ticks)
        ensures WithinOne(hz, last, start, ticks)
      {
        WithinOneFromPhase(hz, last, start, ticks);
      }
    } else {
      var again := [start];
      assert again[..0] == [];
      assert Close(Interval(hz), start, again) by {
        assert Close(Interval(hz), start, again[..0]);
      }
      assert RunTicks(Interval(hz), last, again[..0]) == Progress(0, last);
      assert RunTicks(Interval(hz), last, again).attempts == 1;
      assert !WithinOne(hz, last, start, again);
    }
  }
}
