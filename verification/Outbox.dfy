/** The cloud outbox: `send_to_cloud` and `try_flush_msgs` of
    src/CommandExecutor.cc. The link to the cloud is an oracle. */
module Outbox {
  /** `position` and `info`: the text contains the marker of a position upload,
      of a robot state. All other messages are ordinary. */
  datatype Msg = Msg(id: nat, position: bool, info: bool)

  const LIMIT := 50

  predicate IsOrdinary(m: Msg) { !m.position && !m.info }

  function Ordinary(s: seq<Msg>): seq<Msg> {
    if s == [] then [] else (if IsOrdinary(s[0]) then [s[0]] else []) + Ordinary(s[1..])
  }

  function WithoutInfo(s: seq<Msg>): seq<Msg> {
    if s == [] then [] else (if s[0].info then [] else [s[0]]) + WithoutInfo(s[1..])
  }

  /** Drops positions from the front of a full queue. */
  function Trimmed(s: seq<Msg>): (r: seq<Msg>)
    ensures |r| <= |s|
    ensures |r| >= LIMIT ==> !r[0].position
    ensures |r| < |s| ==> |r| >= LIMIT - 1
  {
    if |s| >= LIMIT && s[0].position then Trimmed(s[1..]) else s
  }

  datatype Admission = Admission(queue: seq<Msg>, accepted: bool)

  function Admit(s: seq<Msg>, m: Msg): Admission {
    var s1 := if m.info then WithoutInfo(s) else s;
    var s2 := if m.position then Trimmed(s1) else s1;
    if (m.position || m.info) && |s2| >= LIMIT then Admission(s2, false) else Admission(s2 + [m], true)
  }

  lemma {:induction false} OrdinaryAppends(a: seq<Msg>, b: seq<Msg>)
    ensures Ordinary(a + b) == Ordinary(a) + Ordinary(b)
    decreases |a|
  {
    if a == [] {
      assert a + b == b;
    } else {
      OrdinaryAppends(a[1..], b);
      var head, rest, tail := if IsOrdinary(a[0]) then [a[0]] else [], Ordinary(a[1..]), Ordinary(b);
      assert (a + b)[0] == a[0] && (a + b)[1..] == a[1..] + b;
      assert Ordinary(a + b) == head + (rest + tail);
      Regroups(head, rest, tail);
    }
  }

  lemma Regroups(a: seq<Msg>, b: seq<Msg>, c: seq<Msg>)
    ensures a + (b + c) == (a + b) + c
  {
  }

  lemma {:induction false} InfoIsNotOrdinary(s: seq<Msg>)
    ensures Ordinary(WithoutInfo(s)) == Ordinary(s) && |WithoutInfo(s)| <= |s|
    decreases |s|
  {
    if s != [] {
      InfoIsNotOrdinary(s[1..]);
      var head := if s[0].info then [] else [s[0]];
      OrdinaryAppends(head, WithoutInfo(s[1..]));
      assert Ordinary(head) == if IsOrdinary(s[0]) then [s[0]] else [];
    }
  }

  lemma {:induction false} TrimmingKeepsOrdinary(s: seq<Msg>)
    ensures Ordinary(Trimmed(s)) == Ordinary(s)
    decreases |s|
  {
    if |s| >= LIMIT && s[0].position {
      TrimmingKeepsOrdinary(s[1..]);
    }
  }

  /** No ordinary message is ever dropped or moved by another one. */
  lemma AdmissionKeepsOrdinary(s: seq<Msg>, m: Msg)
    ensures Ordinary(Admit(s, m).queue) == Ordinary(s) + Ordinary([m])
  {
    InfoIsNotOrdinary(s);
    var s1 := if m.info then WithoutInfo(s) else s;
    TrimmingKeepsOrdinary(s1);
    var s2 := if m.position then Trimmed(s1) else s1;
    OrdinaryAppends(s2, [m]);
    assert Ordinary([m]) == if IsOrdinary(m) then [m] else [];
  }

  /** A position or state message never takes the queue past the limit, and is
      refused exactly when the queue stays full of older messages. */
  lemma LimitHolds(s: seq<Msg>, m: Msg)
    requires m.position || m.info
    ensures var a := Admit(s, m);
      && (a.accepted ==> |a.queue| <= LIMIT && a.queue[|a.queue| - 1] == m)
      && (!a.accepted ==> LIMIT <= |a.queue| <= |s|)
      && (!m.info && !a.accepted ==> |s| >= LIMIT && !a.queue[0].position)
  {
    InfoIsNotOrdinary(s);
  }

  // ---- which messages stay ---------------------------------------------------------------

  /** How many of the first `i` messages are no robot states. */
  function Others(s: seq<Msg>, i: nat): nat
    requires i <= |s|
  {
    if i == 0 then 0 else Others(s, i - 1) + if s[i - 1].info then 0 else 1
  }

  /** `kept` are the messages of `s` that are no robot states, in their order: each has
      as many before it as it had in `s`. */
  ghost predicate KeepsOthers(s: seq<Msg>, kept: seq<Msg>) {
    && |kept| == Others(s, |s|)
    && forall i :: 0 <= i < |s| && !s[i].info ==> Others(s, i) < |kept| && kept[Others(s, i)] == s[i]
  }

  lemma {:induction false} OthersOfTail(s: seq<Msg>, i: nat)
    requires 0 < i <= |s|
    ensures Others(s, i) == Others(s[1..], i - 1) + if s[0].info then 0 else 1
    decreases i
  {
    if i > 1 {
      OthersOfTail(s, i - 1);
    }
  }

  /** Removing the robot states leaves all other messages in their order. */
  lemma {:induction false} OthersStayInOrder(s: seq<Msg>)
    ensures KeepsOthers(s, WithoutInfo(s))
  {
    if s != [] {
      var kept, tail := WithoutInfo(s), WithoutInfo(s[1..]);
      OthersStayInOrder(s[1..]);
      OthersOfTail(s, |s|);
      forall i | 0 <= i < |s| && !s[i].info ensures Others(s, i) < |kept| && kept[Others(s, i)] == s[i] {
        if i > 0 {
          OthersOfTail(s, i);
          assert tail[Others(s[1..], i - 1)] == s[1..][i - 1];
        }
      }
    }
  }

  /** How many positions leave the front of `s` so that a further one fits. */
  ghost predicate MakesRoom(s: seq<Msg>, n: nat) {
    && n <= |s| && (forall j :: 0 <= j < n ==> s[j].position)
    && (n > 0 ==> |s| - n >= LIMIT - 1)
    && (|s| - n >= LIMIT ==> !s[n].position)
  }

  lemma {:induction false} TrimmingMakesRoom(s: seq<Msg>) returns (n: nat)
    ensures MakesRoom(s, n) && Trimmed(s) == s[n..]
  {
    if |s| >= LIMIT && s[0].position {
      n := TrimmingMakesRoom(s[1..]);
      n := n + 1;
    } else {
      n := 0;
    }
  }

  /** What admission does to each kind of message. An ordinary one is appended. A robot
      state replaces all older ones, and a position drops positions from the front of a
      full queue; either is then appended if fewer than fifty messages are left, and
      refused otherwise. */
  lemma AdmissionExactly(s: seq<Msg>, m: Msg) returns (kept: seq<Msg>, n: nat)
    ensures if m.info then KeepsOthers(s, kept) else kept == s
    ensures if m.position then MakesRoom(kept, n) else n == 0
    ensures Admit(s, m).accepted <==> IsOrdinary(m) || |kept| - n < 50
    ensures Admit(s, m).queue == kept[n..] + if Admit(s, m).accepted then [m] else []
  {
    kept, n := s, 0;
    if m.info {
      OthersStayInOrder(s);
      kept := WithoutInfo(s);
    }
    if m.position {
      n := TrimmingMakesRoom(kept);
    }
  }

  // ---- the outbox in place ------------------------------------------------------------

  class CloudOutbox {
    var pending: seq<Msg>

    constructor ()
      ensures pending == []
    {
      pending := [];
    }

    /** Sends from the front until the queue is empty or the link fails;
        `works(n)` is the result of the n-th attempt. */
    method TryFlush(connected: bool, works: nat -> bool) returns (delivered: seq<Msg>)
      modifies this
      ensures delivered + pending == old(pending)
      ensures forall n: nat :: n < |delivered| ==> works(n)
      ensures !connected ==> delivered == []
      ensures pending == [] || !connected || !works(|delivered|)
    {
      delivered := [];
      if !connected {
        return;
      }
      ghost var start := pending;
      while pending != []
        invariant delivered + pending == start
        invariant forall n: nat :: n < |delivered| ==> works(n)
        decreases |pending|
      {
        var msg := pending[0];
        pending := pending[1..];
        if !works(|delivered|) {
          pending := [msg] + pending;
          return;
        }
        delivered := delivered + [msg];
      }
    }

    method RemoveInfo()
      modifies this
      ensures pending == WithoutInfo(old(pending))
    {
      var kept, left := [], pending;
      while left != []
        invariant kept + WithoutInfo(left) == WithoutInfo(old(pending))
        decreases |left|
      {
        var head := if left[0].info then [] else [left[0]];
        Regroups(kept, head, WithoutInfo(left[1..]));
        kept := kept + head;
        left := left[1..];
      }
      pending := kept;
    }

    method DropPositions()
      modifies this
      ensures pending == Trimmed(old(pending))
    {
      while |pending| >= LIMIT && pending != []
        invariant Trimmed(pending) == Trimmed(old(pending))
        decreases |pending|
      {
        if !pending[0].position {
          break;
        }
        pending := pending[1..];
      }
    }

    method SendToCloud(m: Msg, connected: bool, works: nat -> bool) returns (accepted: bool, delivered: seq<Msg>)
      modifies this
      ensures accepted == Admit(old(pending), m).accepted
      ensures delivered + pending == Admit(old(pending), m).queue
      ensures !accepted || !connected ==> delivered == []
      ensures accepted && connected ==> pending == [] || !works(|delivered|)
    {
      if m.info {
        RemoveInfo();
      }
      if m.position {
        DropPositions();
        if |pending| >= LIMIT {
          return false, [];
        }
      }
      if m.info && |pending| >= LIMIT {
        return false, [];
      }
      pending := pending + [m];
      accepted := true;
      delivered := TryFlush(connected, works);
    }
  }

  // ---- senders and flushers together ----------------------------------------------------

  /** `held` are the messages taken by flushers and not yet sent or given back. */
  datatype State = State(pending: seq<Msg>, held: multiset<Msg>, delivered: seq<Msg>, submitted: seq<Msg>)

  const EMPTY := State([], multiset{}, [], [])

  datatype Action = Submit(m: Msg) | Take | Sent(m: Msg) | GaveBack(m: Msg)

  predicate Enabled(s: State, a: Action) {
    match a
    case Submit(_) => true
    case Take => s.pending != []
    case Sent(m) => m in s.held
    case GaveBack(m) => m in s.held
  }

  function Next(s: State, a: Action): State
    requires Enabled(s, a)
  {
    match a
    case Submit(m) => s.(pending := Admit(s.pending, m).queue, submitted := s.submitted + [m])
    case Take => s.(pending := s.pending[1..], held := s.held + multiset{s.pending[0]})
    case Sent(m) => s.(held := s.held - multiset{m}, delivered := s.delivered + [m])
    case GaveBack(m) => s.(pending := [m] + s.pending, held := s.held - multiset{m})
  }

  ghost predicate IsRun(run: seq<State>, actions: seq<Action>) {
    && |run| == |actions| + 1 && run[0] == EMPTY
    && forall i :: 0 <= i < |actions| ==> Enabled(run[i], actions[i]) && run[i + 1] == Next(run[i], actions[i])
  }

  /** How often `m` is somewhere in the outbox, or delivered. */
  function Copies(s: State, m: Msg): nat {
    multiset(Ordinary(s.delivered))[m] + s.held[m] + multiset(Ordinary(s.pending))[m]
  }

  lemma {:induction false} OrdinaryCounts(s: seq<Msg>, m: Msg)
    requires IsOrdinary(m)
    ensures multiset(Ordinary(s))[m] == multiset(s)[m]
    decreases |s|
  {
    if s != [] {
      OrdinaryCounts(s[1..], m);
      assert s == [s[0]] + s[1..];
      var head := if IsOrdinary(s[0]) then [s[0]] else [];
      assert multiset(Ordinary(s)) == multiset(head) + multiset(Ordinary(s[1..]));
    }
  }

  lemma StepConserves(s: State, a: Action, m: Msg)
    requires Enabled(s, a) && IsOrdinary(m)
    ensures Copies(Next(s, a), m) - multiset(Ordinary(Next(s, a).submitted))[m] ==
            Copies(s, m) - multiset(Ordinary(s.submitted))[m]
  {
    match a
    case Submit(x) =>
      AdmissionKeepsOrdinary(s.pending, x);
      OrdinaryAppends(s.submitted, [x]);
    case Take =>
      OrdinaryAppends([s.pending[0]], s.pending[1..]);
      assert s.pending == [s.pending[0]] + s.pending[1..];
      OrdinaryCounts([s.pending[0]], m);
    case Sent(x) =>
      OrdinaryAppends(s.delivered, [x]);
      OrdinaryCounts([x], m);
    case GaveBack(x) =>
      OrdinaryAppends([x], s.pending);
      OrdinaryCounts([x], m);
  }

  /** Conservation: under any interleaving every ordinary message submitted is
      delivered, queued or held by a flusher, as often as it was submitted. */
  lemma {:induction false} NothingLostOrDoubled(run: seq<State>, actions: seq<Action>, i: nat, m: Msg)
    requires IsRun(run, actions) && i < |run| && IsOrdinary(m)
    ensures Copies(run[i], m) == multiset(Ordinary(run[i].submitted))[m]
    decreases i
  {
    if i > 0 {
      NothingLostOrDoubled(run, actions, i - 1, m);
      StepConserves(run[i - 1], actions[i - 1], m);
    }
  }

  // ---- the order of delivery -----------------------------------------------------------------

  /** The ordinary messages held by flushers: all the same one, `held` of it. */
  ghost predicate Holds(s: State, held: seq<Msg>) {
    && (forall x :: IsOrdinary(x) ==> s.held[x] == multiset(held)[x])
    && (forall i :: 0 <= i < |held| ==> IsOrdinary(held[i]) && held[i] == held[0])
  }

  /** Delivered, then held, then waiting: the order of submission. */
  predicate InSequence(delivered: seq<Msg>, held: seq<Msg>, pending: seq<Msg>, submitted: seq<Msg>) {
    delivered + held + pending == submitted
  }

  ghost predicate Ordered(s: State, held: seq<Msg>) {
    Holds(s, held) && InSequence(Ordinary(s.delivered), held, Ordinary(s.pending), Ordinary(s.submitted))
  }

  /** Whatever is delivered now or next, ordinary messages go out in the order of submission. */
  ghost predicate SendsInOrder(s: State) {
    && Ordinary(s.delivered) <= Ordinary(s.submitted)
    && forall m :: m in s.held ==> Ordinary(s.delivered + [m]) <= Ordinary(s.submitted)
  }

  /** A flusher takes an ordinary message while another one is held. */
  ghost predicate Overtakes(s: State, a: Action) {
    && a.Take? && s.pending != [] && IsOrdinary(s.pending[0])
    && exists x :: x in s.held && IsOrdinary(x) && x != s.pending[0]
  }

  lemma OrdinaryOne(m: Msg)
    ensures Ordinary([m]) == if IsOrdinary(m) then [m] else []
  {
  }

  lemma SequenceGrows(d: seq<Msg>, h: seq<Msg>, p: seq<Msg>, s: seq<Msg>, more: seq<Msg>)
    requires InSequence(d, h, p, s)
    ensures InSequence(d, h, p + more, s + more)
  {
    assert d + h + (p + more) == (d + h + p) + more;
  }

  lemma SequenceTakes(d: seq<Msg>, h: seq<Msg>, p: seq<Msg>, s: seq<Msg>, front: seq<Msg>)
    requires InSequence(d, h, front + p, s)
    ensures InSequence(d, h + front, p, s)
  {
    assert d + h + (front + p) == d + (h + front) + p;
  }

  lemma SequenceSends(d: seq<Msg>, m: Msg, h: seq<Msg>, p: seq<Msg>, s: seq<Msg>)
    requires InSequence(d, [m] + h, p, s)
    ensures InSequence(d + [m], h, p, s)
  {
    assert d + ([m] + h) == (d + [m]) + h;
  }

  lemma SequenceGivesBack(d: seq<Msg>, h: seq<Msg>, m: Msg, p: seq<Msg>, s: seq<Msg>)
    requires InSequence(d, h + [m], p, s)
    ensures InSequence(d, h, [m] + p, s)
  {
    assert d + h + ([m] + p) == d + (h + [m]) + p;
  }

  /** The held messages are all `m`, so one of them is the first and the last. */
  lemma HeldEnds(s: State, held: seq<Msg>, m: Msg)
    requires Holds(s, held) && m in s.held && IsOrdinary(m)
    ensures held != [] && held == [m] + held[1..] && held == held[1..] + [m]
    ensures Holds(s.(held := s.held - multiset{m}), held[1..])
  {
    assert m in multiset(held);
    assert held[0] == m;
    assert forall i :: 0 <= i < |held| ==> held[i] == m;
    assert held == [m] + held[1..];
    assert held == held[1..] + [m];
    assert multiset(held) == multiset{m} + multiset(held[1..]);
  }

  lemma SubmitKeepsOrder(s: State, held: seq<Msg>, m: Msg)
    requires Ordered(s, held)
    ensures Ordered(Next(s, Submit(m)), held)
  {
    SubmittedInSequence(s, held, m);
  }

  lemma SubmittedInSequence(s: State, held: seq<Msg>, m: Msg)
    requires InSequence(Ordinary(s.delivered), held, Ordinary(s.pending), Ordinary(s.submitted))
    ensures var s' := Next(s, Submit(m));
      InSequence(Ordinary(s'.delivered), held, Ordinary(s'.pending), Ordinary(s'.submitted))
  {
    AdmissionKeepsOrdinary(s.pending, m);
    OrdinaryAppends(s.submitted, [m]);
    SequenceGrows(Ordinary(s.delivered), held, Ordinary(s.pending), Ordinary(s.submitted), Ordinary([m]));
  }

  /** What one more taken message makes of the held ones. */
  lemma TakenIsHeld(s: State, held: seq<Msg>)
    requires Holds(s, held) && s.pending != [] && !Overtakes(s, Take)
    ensures Holds(Next(s, Take), held + Ordinary([s.pending[0]]))
  {
    var m := s.pending[0];
    OrdinaryOne(m);
    var now := held + Ordinary([m]);
    assert multiset(now) == multiset(held) + multiset(Ordinary([m]));
    if IsOrdinary(m) && held != [] {
      assert held[0] in multiset(held);
      assert held[0] in s.held;
      assert held[0] == m;
    }
  }

  lemma TakenInSequence(d: seq<Msg>, held: seq<Msg>, pending: seq<Msg>, s: seq<Msg>)
    requires pending != [] && InSequence(d, held, Ordinary(pending), s)
    ensures InSequence(d, held + Ordinary([pending[0]]), Ordinary(pending[1..]), s)
  {
    var front, rest := [pending[0]], pending[1..];
    assert pending == front + rest;
    OrdinaryAppends(front, rest);
    SequenceTakes(d, held, Ordinary(rest), s, Ordinary(front));
  }

  lemma TakeKeepsOrder(s: State, held: seq<Msg>)
    requires Ordered(s, held) && s.pending != [] && !Overtakes(s, Take)
    ensures Ordered(Next(s, Take), held + Ordinary([s.pending[0]]))
  {
    TakenIsHeld(s, held);
    TakenInSequence(Ordinary(s.delivered), held, s.pending, Ordinary(s.submitted));
  }

  lemma OrdinarySent(s: State, held: seq<Msg>, m: Msg)
    requires Ordered(s, held) && m in s.held && IsOrdinary(m)
    ensures held != [] && Ordered(Next(s, Sent(m)), held[1..])
  {
    HeldEnds(s, held, m);
    DeliveredAppends(s.delivered, m);
    SequenceSends(Ordinary(s.delivered), m, held[1..], Ordinary(s.pending), Ordinary(s.submitted));
  }

  lemma DeliveredAppends(delivered: seq<Msg>, m: Msg)
    ensures Ordinary(delivered + [m]) == if IsOrdinary(m) then Ordinary(delivered) + [m] else Ordinary(delivered)
  {
    OrdinaryAppends(delivered, [m]);
    OrdinaryOne(m);
  }

  lemma OtherSent(s: State, held: seq<Msg>, m: Msg)
    requires Ordered(s, held) && m in s.held && !IsOrdinary(m)
    ensures Ordered(Next(s, Sent(m)), held)
  {
    DeliveredAppends(s.delivered, m);
  }

  lemma PendingPrepends(m: Msg, pending: seq<Msg>)
    ensures Ordinary([m] + pending) == if IsOrdinary(m) then [m] + Ordinary(pending) else Ordinary(pending)
  {
    OrdinaryAppends([m], pending);
    OrdinaryOne(m);
  }

  lemma OrdinaryGivenBack(s: State, held: seq<Msg>, m: Msg)
    requires Ordered(s, held) && m in s.held && IsOrdinary(m)
    ensures held != [] && Ordered(Next(s, GaveBack(m)), held[1..])
  {
    HeldEnds(s, held, m);
    PendingPrepends(m, s.pending);
    SequenceGivesBack(Ordinary(s.delivered), held[1..], m, Ordinary(s.pending), Ordinary(s.submitted));
  }

  lemma OtherGivenBack(s: State, held: seq<Msg>, m: Msg)
    requires Ordered(s, held) && m in s.held && !IsOrdinary(m)
    ensures Ordered(Next(s, GaveBack(m)), held)
  {
    PendingPrepends(m, s.pending);
  }

  lemma StepKeepsOrder(s: State, held: seq<Msg>, a: Action) returns (left: seq<Msg>)
    requires Ordered(s, held) && Enabled(s, a) && !Overtakes(s, a)
    ensures Ordered(Next(s, a), left)
  {
    match a
    case Submit(m) =>
      SubmitKeepsOrder(s, held, m);
      left := held;
    case Take =>
      TakeKeepsOrder(s, held);
      left := held + Ordinary([s.pending[0]]);
    case Sent(m) =>
      if IsOrdinary(m) { OrdinarySent(s, held, m); } else { OtherSent(s, held, m); }
      left := if IsOrdinary(m) then held[1..] else held;
    case GaveBack(m) =>
      if IsOrdinary(m) { OrdinaryGivenBack(s, held, m); } else { OtherGivenBack(s, held, m); }
      left := if IsOrdinary(m) then held[1..] else held;
  }

  lemma {:induction false} OrderedUntil(run: seq<State>, actions: seq<Action>, i: nat) returns (held: seq<Msg>)
    requires IsRun(run, actions) && i < |run|
    requires forall j: nat :: j < i ==> !Overtakes(run[j], actions[j])
    ensures Ordered(run[i], held)
    decreases i
  {
    if i == 0 {
      held := [];
      assert Ordered(EMPTY, []);
    } else {
      held := OrderedUntil(run, actions, i - 1);
      held := StepKeepsOrder(run[i - 1], held, actions[i - 1]);
    }
  }

  lemma OrderedSendsInOrder(s: State, held: seq<Msg>)
    requires Ordered(s, held)
    ensures SendsInOrder(s)
  {
    forall m | m in s.held ensures Ordinary(s.delivered + [m]) <= Ordinary(s.submitted) {
      DeliveredAppends(s.delivered, m);
      if IsOrdinary(m) {
        HeldEnds(s, held, m);
        SequenceSends(Ordinary(s.delivered), m, held[1..], Ordinary(s.pending), Ordinary(s.submitted));
      }
    }
  }

  /** Overtaking breaks the order at once: the message taken can be delivered next,
      and that is before one submitted earlier. */
  lemma OvertakingBreaksOrder(s: State, held: seq<Msg>)
    requires Ordered(s, held) && Overtakes(s, Take)
    ensures !SendsInOrder(Next(s, Take))
    ensures s.pending[0] in Next(s, Take).held
    ensures !(Ordinary(s.delivered + [s.pending[0]]) <= Ordinary(s.submitted))
  {
    var x :| x in s.held && IsOrdinary(x) && x != s.pending[0];
    var b, d := s.pending[0], Ordinary(s.delivered);
    HeldEnds(s, held, x);
    DeliveredAppends(s.delivered, b);
    assert Ordinary(s.submitted)[|d|] == x && (d + [b])[|d|] == b;
    assert b in Next(s, Take).held;
  }

  lemma {:induction false} FirstOvertaking(run: seq<State>, actions: seq<Action>, n: nat) returns (k: nat)
    requires |run| == |actions| + 1 && n < |actions| && Overtakes(run[n], actions[n])
    ensures k <= n && Overtakes(run[k], actions[k])
    ensures forall j: nat :: j < k ==> !Overtakes(run[j], actions[j])
  {
    if j: nat :| j < n && Overtakes(run[j], actions[j]) {
      k := FirstOvertaking(run, actions, j);
    } else {
      k := n;
    }
  }

  /** In any run of any number of flushers, every possible delivery is in the order
      of submission if and only if no flusher ever takes an ordinary message while
      another one is held. */
  lemma InOrderExactlyWithoutOvertaking(run: seq<State>, actions: seq<Action>)
    requires IsRun(run, actions)
    ensures (forall i: nat :: i < |run| ==> SendsInOrder(run[i])) <==>
            (forall i: nat :: i < |actions| ==> !Overtakes(run[i], actions[i]))
  {
    if n: nat :| n < |actions| && Overtakes(run[n], actions[n]) {
      var k := FirstOvertaking(run, actions, n);
      var held := OrderedUntil(run, actions, k);
      OvertakingBreaksOrder(run[k], held);
      assert !SendsInOrder(run[k + 1]);
    } else {
      forall i: nat | i < |run| ensures SendsInOrder(run[i]) {
        var held := OrderedUntil(run, actions, i);
        OrderedSendsInOrder(run[i], held);
      }
    }
  }

  /** One flusher at a time is enough. */
  lemma OneFlusherIsFifo(run: seq<State>, actions: seq<Action>, i: nat)
    requires IsRun(run, actions) && i < |run|
    requires forall j: nat :: j < i && actions[j].Take? ==> run[j].held == multiset{}
    ensures Ordinary(run[i].delivered) <= Ordinary(run[i].submitted)
  {
    var held := OrderedUntil(run, actions, i);
    OrderedSendsInOrder(run[i], held);
  }

  lemma TwoSubmitted(a: Msg, b: Msg)
    requires IsOrdinary(a) && IsOrdinary(b)
    ensures Next(EMPTY, Submit(a)) == State([a], multiset{}, [], [a])
    ensures Next(State([a], multiset{}, [], [a]), Submit(b)) == State([a, b], multiset{}, [], [a, b])
  {
  }

  lemma TwoTaken(a: Msg, b: Msg)
    ensures Next(State([a, b], multiset{}, [], [a, b]), Take) == State([b], multiset{a}, [], [a, b])
    ensures Next(State([b], multiset{a}, [], [a, b]), Take) == State([], multiset{a, b}, [], [a, b])
  {
  }

  lemma SecondSent(a: Msg, b: Msg)
    ensures Next(State([], multiset{a, b}, [], [a, b]), Sent(b)) == State([], multiset{a}, [b], [a, b])
  {
    assert multiset{a, b} - multiset{b} == multiset{a};
  }

  lemma OrdinaryTwo(a: Msg, b: Msg)
    requires IsOrdinary(a) && IsOrdinary(b) && a != b
    ensures !(Ordinary([b]) <= Ordinary([a, b]))
  {
    assert Ordinary([a, b])[0] == a && Ordinary([b])[0] == b;
  }

  /** Two flushers can deliver out of order. */
  lemma TwoFlushersReorder()
    ensures exists run: seq<State>, actions: seq<Action> ::
      IsRun(run, actions) && |run| == 6 && !(Ordinary(run[5].delivered) <= Ordinary(run[5].submitted))
  {
    var a, b := Msg(0, false, false), Msg(1, false, false);
    var run := [EMPTY, State([a], multiset{}, [], [a]), State([a, b], multiset{}, [], [a, b]),
                State([b], multiset{a}, [], [a, b]), State([], multiset{a, b}, [], [a, b]),
                State([], multiset{a}, [b], [a, b])];
    TwoSubmitted(a, b);
    TwoTaken(a, b);
    SecondSent(a, b);
    OrdinaryTwo(a, b);
    assert IsRun(run, [Submit(a), Submit(b), Take, Take, Sent(b)]);
  }
}
