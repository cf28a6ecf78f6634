/** The limiter of position uploads (`should_send_upload_position` in
    src/CommandExecutor.cc): load, check and compare-exchange by any number of
    threads, and the two stores of a frequency command. */
module RateLimiter {
  import opened Options

  const DEFAULT_INTERVAL := 1000

  /** Where one caller is: it has read the clock, then also the interval, then
      also the last accepted time. */
  datatype Caller =
    | Started(now: int)
    | Timed(now: int, interval: int)
    | Checking(now: int, interval: int, last: int)

  /** An acceptance: its time, and the interval the winner had read. */
  datatype Acceptance = Acceptance(now: int, interval: int)

  /** `accepted` counts from the last reset. */
  datatype State = State(interval: int, last: int, callers: multiset<Caller>, accepted: seq<Acceptance>)

  const INITIAL := State(DEFAULT_INTERVAL, 0, multiset{}, [])

  /** A weak compare-exchange may fail for no reason, so `Fails` is always possible. */
  datatype Action =
    | Calls(now: int)
    | ReadsInterval(c: Caller)
    | ReadsLast(c: Caller)
    | Rejects(c: Caller)
    | Wins(c: Caller)
    | Fails(c: Caller)
    | SetsInterval(interval: int)
    | ResetsLast

  predicate Due(c: Caller)
    requires c.Checking?
  {
    c.now - c.last >= c.interval
  }

  predicate Enabled(s: State, a: Action) {
    match a
    case Calls(_) => true
    case ReadsInterval(c) => c in s.callers && c.Started?
    case ReadsLast(c) => c in s.callers && c.Timed?
    case Rejects(c) => c in s.callers && c.Checking? && !Due(c)
    case Wins(c) => c in s.callers && c.Checking? && Due(c) && s.last == c.last
    case Fails(c) => c in s.callers && c.Checking? && Due(c)
    case SetsInterval(interval) => interval >= 1
    case ResetsLast => true
  }

  function Moved(s: State, c: Caller, c': Caller): State {
    s.(callers := s.callers - multiset{c} + multiset{c'})
  }

  function Next(s: State, a: Action): State
    requires Enabled(s, a)
  {
    match a
    case Calls(now) => s.(callers := s.callers + multiset{Started(now)})
    case ReadsInterval(c) => Moved(s, c, Timed(c.now, s.interval))
    case ReadsLast(c) => Moved(s, c, Checking(c.now, c.interval, s.last))
    case Rejects(c) => s.(callers := s.callers - multiset{c})
    case Wins(c) =>
      s.(callers := s.callers - multiset{c}, last := c.now,
         accepted := s.accepted + [Acceptance(c.now, c.interval)])
    case Fails(c) => Moved(s, c, Checking(c.now, c.interval, s.last))
    case SetsInterval(interval) => s.(interval := interval)
    case ResetsLast => s.(last := 0, accepted := [])
  }

  ghost predicate IsRun(run: seq<State>, actions: seq<Action>) {
    && |run| == |actions| + 1 && run[0] == INITIAL
    && forall i :: 0 <= i < |actions| ==> Enabled(run[i], actions[i]) && run[i + 1] == Next(run[i], actions[i])
  }

  ghost predicate Spaced(accepted: seq<Acceptance>) {
    && (accepted != [] ==> accepted[0].now >= accepted[0].interval)
    && (forall i :: 0 <= i < |accepted| ==> accepted[i].interval >= 1)
    && (forall i :: 0 < i < |accepted| ==> accepted[i].now - accepted[i - 1].now >= accepted[i].interval)
  }

  ghost predicate Inv(s: State) {
    && s.interval >= 1
    && (forall c :: c in s.callers && !c.Started? ==> c.interval >= 1)
    && s.last == (if s.accepted == [] then 0 else s.accepted[|s.accepted| - 1].now)
    && Spaced(s.accepted)
  }

  lemma WinKeepsSpaced(accepted: seq<Acceptance>, won: Acceptance)
    requires Spaced(accepted) && won.interval >= 1
    requires won.now - (if accepted == [] then 0 else accepted[|accepted| - 1].now) >= won.interval
    ensures Spaced(accepted + [won])
  {
  }

  lemma WinKeeps(s: State, c: Caller)
    requires Inv(s) && Enabled(s, Wins(c))
    ensures Inv(Next(s, Wins(c)))
  {
    WinKeepsSpaced(s.accepted, Acceptance(c.now, c.interval));
  }

  lemma StepKeeps(s: State, a: Action)
    requires Inv(s) && Enabled(s, a)
    ensures Inv(Next(s, a))
  {
    if a.Wins? {
      WinKeeps(s, a.c);
    }
  }

  lemma {:induction false} RunKeeps(run: seq<State>, actions: seq<Action>, i: nat)
    requires IsRun(run, actions) && i < |run|
    ensures Inv(run[i])
    decreases i
  {
    if i > 0 {
      RunKeeps(run, actions, i - 1);
      StepKeeps(run[i - 1], actions[i - 1]);
    }
  }

  lemma {:induction false} GapsAddUp(accepted: seq<Acceptance>, i: nat, j: nat, d: int)
    requires Spaced(accepted) && i <= j < |accepted|
    requires forall k :: i < k <= j ==> accepted[k].interval >= d
    ensures accepted[j].now - accepted[i].now >= (j - i) * d
    decreases j - i
  {
    if i < j {
      GapsAddUp(accepted, i, j - 1, d);
      assert (j - i) * d == (j - 1 - i) * d + d;
    }
  }

  /** Whatever the threads do, accepted times since the last reset strictly
      increase, each by at least the interval its winner had read. */
  lemma AcceptedTimesAreSpaced(run: seq<State>, actions: seq<Action>, n: nat, i: nat, j: nat)
    requires IsRun(run, actions) && n < |run| && i < j < |run[n].accepted|
    ensures run[n].accepted[i].now < run[n].accepted[j].now
    ensures run[n].accepted[j].now - run[n].accepted[j - 1].now >= run[n].accepted[j].interval
  {
    RunKeeps(run, actions, n);
    GapsAddUp(run[n].accepted, i, j, 1);
  }

  lemma PositiveFactor(x: int, d: int)
    requires d >= 1 && x * d > 0
    ensures x > 0
  {
  }

  lemma GapsFit(gaps: int, d: int, length: int)
    requires d >= 1 && gaps * d <= length
    ensures gaps <= length / d
  {
    var q := length / d;
    assert length < (q + 1) * d;
    assert (q + 1 - gaps) * d == (q + 1) * d - gaps * d;
    PositiveFactor(q + 1 - gaps, d);
  }

  /** When every winner had read an interval of at least `d`, a window of length
      `length` holds at most `length / d + 1` acceptances: those from `i` to `j`. */
  lemma WindowHoldsFew(run: seq<State>, actions: seq<Action>, n: nat, i: nat, j: nat, d: int, length: int)
    requires IsRun(run, actions) && n < |run| && i <= j < |run[n].accepted|
    requires d >= 1 && forall k :: i < k <= j ==> run[n].accepted[k].interval >= d
    requires run[n].accepted[j].now - run[n].accepted[i].now <= length
    ensures j - i + 1 <= length / d + 1
  {
    RunKeeps(run, actions, n);
    GapsAddUp(run[n].accepted, i, j, d);
    GapsFit(j - i, d, length);
  }

  /** A caller that nobody disturbs is accepted exactly when the interval is over. */
  lemma AloneItDecidesByTheInterval(s: State, now: int)
    requires s.callers == multiset{}
    ensures var c := Checking(now, s.interval, s.last);
      var s3 := Next(Next(Next(s, Calls(now)), ReadsInterval(Started(now))), ReadsLast(Timed(now, s.interval)));
      && s3 == s.(callers := multiset{c})
      && (Enabled(s3, Wins(c)) <==> now - s.last >= s.interval)
      && (Enabled(s3, Rejects(c)) <==> now - s.last < s.interval)
  {
  }

  // ---- the loop in place -------------------------------------------------------------

  /** What happens to `last` before one compare-exchange: another thread stores, or
      the exchange fails for no reason. */
  datatype Disturbance = Stored(last: int) | Spurious

  lemma PeriodIsLong(hz: real)
    requires 0.0 < hz <= 1000.0
    ensures 1000.0 / hz >= 1.0
  {
  }

  /** The interval of a frequency is its period to the nearest millisecond. */
  lemma RoundedBounds(hz: real, period: real, rounded: real)
    requires hz > 0.0 && period * hz == 1000.0 && rounded - 0.5 <= period < rounded + 0.5
    ensures rounded * hz - 0.5 * hz <= 1000.0 < rounded * hz + 0.5 * hz
  {
    NotBelow(hz, period, rounded);
    Above(hz, period, rounded);
  }

  lemma NotBelow(hz: real, period: real, rounded: real)
    requires hz > 0.0 && period * hz == 1000.0 && rounded - 0.5 <= period
    ensures rounded * hz - 0.5 * hz <= 1000.0
  {
    assert (period - rounded + 0.5) * hz >= 0.0;
  }

  lemma Above(hz: real, period: real, rounded: real)
    requires hz > 0.0 && period * hz == 1000.0 && period < rounded + 0.5
    ensures 1000.0 < rounded * hz + 0.5 * hz
  {
    var product, gap := period * hz, (rounded + 0.5 - period) * hz;
    assert gap > 0.0;
    assert gap == rounded * hz + 0.5 * hz - product;
  }

  class Limiter {
    var interval: int
    var last: int

    constructor ()
      ensures interval == DEFAULT_INTERVAL && last == 0
    {
      interval, last := DEFAULT_INTERVAL, 0;
    }

    /** A frequency command; no value stands for one that is missing, unreadable or not
        finite. The interval is the nearest number of milliseconds, halves rounded up. */
    method SetFrequency(hz: Option<real>) returns (accepted: bool)
      modifies this
      ensures accepted <==> hz.Some? && 0.0 < hz.value <= 1000.0
      ensures accepted ==> last == 0 && interval >= 1
      ensures accepted ==>
        interval as real * hz.value - 0.5 * hz.value <= 1000.0 < interval as real * hz.value + 0.5 * hz.value
      ensures !accepted ==> interval == old(interval) && last == old(last)
    {
      if hz == None || hz.value <= 0.0 || hz.value > 1000.0 {
        return false;
      }
      var period := 1000.0 / hz.value;
      PeriodIsLong(hz.value);
      var rounded := (period + 0.5).Floor;
      RoundedBounds(hz.value, period, rounded as real);
      interval := if rounded < 1 then 1 else rounded;
      last := 0;
      return true;
    }

    /** The call loops while it is disturbed. It accepts only over a value it has
        checked, and rejects only when the latest value is too recent. */
    method ShouldSend(now: int, disturbances: seq<Disturbance>) returns (ok: bool, ghost before: int)
      modifies this`last
      ensures before == old(last) || Stored(before) in disturbances
      ensures ok ==> now - before >= interval && last == now
      ensures !ok ==> now - before < interval && last == before
      ensures disturbances == [] ==> (ok <==> now - old(last) >= interval)
    {
      var expected := last;
      var n := 0;
      while true
        invariant n <= |disturbances| && expected == last
        invariant last == old(last) || Stored(last) in disturbances
        invariant disturbances == [] ==> last == old(last)
        decreases |disturbances| - n
      {
        if now - expected < interval {
          return false, last;
        }
        if n < |disturbances| && disturbances[n].Stored? {
          last := disturbances[n].last;
        }
        if last == expected && !(n < |disturbances| && disturbances[n].Spurious?) {
          before := last;
          last := now;
          return true, before;
        }
        expected := last;
        n := n + 1;
      }
    }
  }
}
