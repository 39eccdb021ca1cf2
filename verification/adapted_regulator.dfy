/** Adapted RegulaTor, a RegulaTor variant for video traffic, as two machines.

    The relay machine sends padding at a rate that decays along R·D^t,
    approximated by a chain of constant-rate SEND states: each covers one
    interval of the curve holding `packetsPerState` packets. The client
    machine sends one padding packet for every U packets received. */
module AdaptedRegulator {
  import opened Optional
  import opened Machines
  import opened IntervalSearch

  // ---------------------------------------------------------------------
  // Client machine
  // ---------------------------------------------------------------------

  /** A float-to-`usize` cast: truncation toward zero, negatives giving 0. */
  function AsUsize(x: real): nat {
    if x < 0.0 then 0 else x.Floor
  }

  /** Fractional part with the sign of `x`: `x` minus `x` truncated toward zero. */
  function Fract(x: real): real {
    var truncated := if x >= 0.0 then x.Floor else -((-x).Floor);
    x - truncated as real
  }

  /** Number of COUNT states of the client machine for upload ratio `u`. */
  function NumCountStates(u: real): nat {
    AsUsize(u)
  }

  /** The probability with which COUNT state `i` advances on a received packet:
      certain except in the last COUNT state, which advances with 1 − fract(u). */
  function AdvanceProbability(u: real, i: nat): real {
    if i + 1 == NumCountStates(u) then 1.0 - Fract(u) else 1.0
  }

  /** Advance to `next` with probability `p`, stay at `curr` otherwise. */
  function CountEntry(curr: nat, next: nat, p: real): Entry {
    if p < 1.0 then map[Idx(next) := p, Idx(curr) := 1.0 - p] else map[Idx(next) := p]
  }

  /** COUNT_curr: block, and count received packets towards `next`. When the
      advance is uncertain, two blocked-then-released actions also advance. */
  function ClientCountState(curr: nat, next: nat, p: real): State {
    var counting := map[PaddingRecv := CountEntry(curr, next, p), NonPaddingRecv := CountEntry(curr, next, p)];
    State(if p < 1.0 then counting[LimitReached := Single(Idx(next))] else counting,
          Fixed(Fin(0.0)), Fixed(Inf), Fixed(Fin(2.0)),
          true, true, true)
  }

  /** SEND: send one padding packet at once, then count again from COUNT_0. */
  function ClientSendState(): State {
    State(map[PaddingSent := Single(Idx(0))],
          Fixed(Fin(0.0)), Fixed(Fin(PacketSize)), DefaultDist,
          true, true, false)
  }

  /** The transitions of a COUNT state `i` advancing with probability `p`. */
  predicate CountTransitionsAre(s: State, i: nat, p: real) {
    && s.transitions.Keys == (if p < 1.0 then {PaddingRecv, NonPaddingRecv, LimitReached} else {PaddingRecv, NonPaddingRecv})
    && s.transitions[PaddingRecv] == s.transitions[NonPaddingRecv]
    && s.transitions[PaddingRecv].Keys == (if p < 1.0 then {Idx(i + 1), Idx(i)} else {Idx(i + 1)})
    && s.transitions[PaddingRecv][Idx(i + 1)] == p
    && (p < 1.0 ==> s.transitions[PaddingRecv][Idx(i)] == 1.0 - p)
    && (p < 1.0 ==> s.transitions[LimitReached] == Single(Idx(i + 1)))
  }

  function GenerateClientMachine(u: real): (m: Machine)
    ensures |m.states| == NumCountStates(u) + 1 && Unbudgeted(m)
    // SEND, last, pads once with a full-size packet and restarts the count
    ensures m.states[NumCountStates(u)].transitions == map[PaddingSent := Single(Idx(0))]
    ensures PadsEvery(m.states[NumCountStates(u)], 0.0) && m.states[NumCountStates(u)].limit == DefaultDist
  {
    var numStates := NumCountStates(u) + 1;
    var counts := seq(numStates - 1, i requires 0 <= i < numStates - 1 =>
      ClientCountState(i, i + 1, AdvanceProbability(u, i)));
    Assemble(counts + [ClientSendState()])
  }

  lemma ClientCountStateShape(i: nat, p: real)
    ensures CountTransitionsAre(ClientCountState(i, i + 1, p), i, p)
  {
  }

  /** COUNT states 0 .. n-1 form a chain: COUNT_i advances to COUNT_(i+1) on
      every packet received with its advance probability, staying put
      otherwise; it blocks forever, and a split state also advances after
      two blocked-and-released actions. */
  lemma ClientCountStates(u: real, i: nat)
    requires i < NumCountStates(u)
    ensures var s := GenerateClientMachine(u).states[i];
      && CountTransitionsAre(s, i, AdvanceProbability(u, i))
      && BlocksFor(s, Inf)
      && s.limit == Fixed(Fin(2.0))
  {
    var p := AdvanceProbability(u, i);
    assert GenerateClientMachine(u).states[i] == ClientCountState(i, i + 1, p);
    ClientCountStateShape(i, p);
  }

  /** Only the last COUNT state may advance with less than certainty, and
      then with exactly 1 − fract(u); every advance probability is in (0, 1]. */
  lemma OnlyLastCountStateSplits(u: real, i: nat)
    requires i < NumCountStates(u)
    ensures 0.0 < AdvanceProbability(u, i) <= 1.0
    ensures AdvanceProbability(u, i) < 1.0 <==> i + 1 == NumCountStates(u) && u != u.Floor as real
    ensures i + 1 == NumCountStates(u) ==> AdvanceProbability(u, i) == 1.0 - (u - u.Floor as real)
  {
  }

  /** An advance entry with a probability in (0, 1] between two distinct
      valid states is a probability distribution. */
  lemma CountEntryOk(curr: nat, next: nat, p: real, numStates: nat)
    requires curr < numStates && next < numStates && curr != next
    requires 0.0 < p <= 1.0
    ensures EntryOk(CountEntry(curr, next, p), numStates)
  {
    if p < 1.0 {
      PairOk(Idx(next), Idx(curr), p, 1.0 - p, numStates);
    } else {
      SingleOk(Idx(next), numStates);
    }
  }

  /** A COUNT state advancing with a probability in (0, 1] to a distinct
      valid state is well formed. */
  lemma ClientCountStateOk(curr: nat, next: nat, p: real, numStates: nat)
    requires curr < numStates && next < numStates && curr != next
    requires 0.0 < p <= 1.0
    ensures StateOk(ClientCountState(curr, next, p), numStates)
  {
    var s := ClientCountState(curr, next, p);
    CountEntryOk(curr, next, p, numStates);
    SingleOk(Idx(next), numStates);
    assert forall e :: e in s.transitions ==> s.transitions[e] == CountEntry(curr, next, p) || s.transitions[e] == Single(Idx(next));
  }

  /** The client machine is well formed for every upload ratio. */
  lemma GenerateClientMachineWellFormed(u: real)
    ensures WellFormed(GenerateClientMachine(u))
  {
    var m := GenerateClientMachine(u);
    forall i | 0 <= i < |m.states|
      ensures StateOk(m.states[i], |m.states|)
    {
      ClientStateOk(u, i);
    }
  }

  /** Each state of the client machine is well formed. */
  lemma ClientStateOk(u: real, i: nat)
    requires i < NumCountStates(u) + 1
    ensures StateOk(GenerateClientMachine(u).states[i], NumCountStates(u) + 1)
  {
    var m := GenerateClientMachine(u);
    var n := NumCountStates(u) + 1;
    if i < NumCountStates(u) {
      var p := AdvanceProbability(u, i);
      OnlyLastCountStateSplits(u, i);
      assert m.states[i] == ClientCountState(i, i + 1, p);
      ClientCountStateOk(i, i + 1, p, n);
    } else {
      assert m.states[i] == ClientSendState();
      SingleOk(Idx(0), n);
    }
  }

  /** An upload ratio of 2.5 gives two COUNT states and SEND; the second
      COUNT state advances with probability one half. */
  lemma ClientExample()
    ensures var m := GenerateClientMachine(2.5);
      && |m.states| == 3
      && m.states[0].transitions[PaddingRecv] == Single(Idx(1))
      && m.states[1].transitions[PaddingRecv] == map[Idx(2) := 0.5, Idx(1) := 0.5]
      && m.states[1].transitions[LimitReached] == Single(Idx(2))
  {
    assert NumCountStates(2.5) == 2;
    assert Fract(2.5) == 0.5;
    ClientCountStates(2.5, 0);
    ClientCountStates(2.5, 1);
  }

  // ---------------------------------------------------------------------
  // Relay machine
  // ---------------------------------------------------------------------

  const RelayStartIndex: nat := 0
  const RelayBlockIndex: nat := 1
  const FirstSendIndex: nat := 2

  /** Below this rate (packets per second) real traffic restarts the curve. */
  const ResetRateThreshold: real := 200.0

  /** An interval whose midpoint rate falls below this ends the machine. */
  const MinRate: real := 1.0

  const MicrosPerSecond: real := 1000000.0

  /** Intervals the relay generator will lay out before giving up. */
  const MaxSendStates: nat := 1000000

  /** How the relay's intervals are laid out: the width of the interval
      starting at a time (`None` when the search diverges) and the rate at
      a time. The relay generator uses `CurveLayout`; the lemmas below hold
      for every layout. */
  datatype Layout = Layout(width: real -> Option<real>, rate: real -> real)

  function CurveLayout(c: Curve, count: real): Layout {
    Layout(t => IntervalWidth(c, t, count), t => Rate(c, t))
  }

  /** Whether the interval starting at `t` is the last one: its width
      diverges or its midpoint rate is below `MinRate`. */
  predicate LastAt(l: Layout, t: real) {
    var w := l.width(t);
    w.None? || l.rate(t + w.value / 2.0) < MinRate
  }

  /** The start of the next interval. */
  function Advance(l: Layout, t: real): real {
    var w := l.width(t);
    if w.Some? then t + w.value else t
  }

  /** The start of the j-th interval, the first starting at `t`. */
  function Edge(l: Layout, t: real, j: nat): real
    decreases j
  {
    if j == 0 then t else Edge(l, Advance(l, t), j - 1)
  }

  /** The intervals from `t` are the first interval followed by the
      intervals from its end. */
  lemma EdgeShift(l: Layout, t: real, k: nat)
    ensures forall j :: 1 <= j <= k ==> Edge(l, t, j) == Edge(l, Advance(l, t), j - 1)
  {
  }

  /** The sending rate of the interval starting at `t`: its midpoint rate,
      clamped to `MinRate` for the last interval. */
  function SendRate(l: Layout, t: real): (r: real)
    ensures r >= MinRate
    ensures LastAt(l, t) ==> r == MinRate
    ensures !LastAt(l, t) ==> r == l.rate(t + l.width(t).value / 2.0)
  {
    if LastAt(l, t) then MinRate else l.rate(t + l.width(t).value / 2.0)
  }

  /** The first pass: count intervals until the last one, giving up after
      `fuel` further intervals. */
  function CountSendStates(l: Layout, t: real, fuel: nat): (r: Option<nat>)
    decreases fuel
    ensures r.Some? ==> r.value >= 1
  {
    if LastAt(l, t) then Some(1)
    else if fuel == 0 then None
    else
      match CountSendStates(l, Advance(l, t), fuel - 1)
      case None => None
      case Some(k) => Some(k + 1)
  }

  /** The first pass stops at the first last interval: the k-th interval is
      a last one and none before it is. */
  lemma {:induction false} CountSendStatesFindsLast(l: Layout, t: real, fuel: nat, k: nat)
    requires CountSendStates(l, t, fuel) == Some(k)
    ensures k >= 1
    ensures LastAt(l, Edge(l, t, k - 1))
    ensures forall j :: 0 <= j < k - 1 ==> !LastAt(l, Edge(l, t, j))
    decreases fuel
  {
    if !LastAt(l, t) {
      var t' := Advance(l, t);
      assert CountSendStates(l, t', fuel - 1) == Some(k - 1);
      CountSendStatesFindsLast(l, t', fuel - 1, k - 1);
      EdgeShift(l, t, k - 1);
    }
  }

  /** Conversely, a first last interval within the budget is the one the
      first pass stops at. */
  lemma {:induction false} CountSendStatesStopsAtFirstLast(l: Layout, t: real, fuel: nat, k: nat)
    requires 1 <= k <= fuel + 1
    requires LastAt(l, Edge(l, t, k - 1))
    requires forall j :: 0 <= j < k - 1 ==> !LastAt(l, Edge(l, t, j))
    ensures CountSendStates(l, t, fuel) == Some(k)
    decreases k
  {
    assert Edge(l, t, 0) == t;
    if k > 1 {
      var t' := Advance(l, t);
      assert !LastAt(l, Edge(l, t, 0));
      EdgeShift(l, t, k - 1);
      assert LastAt(l, Edge(l, t', k - 2));
      forall j | 0 <= j < k - 2
        ensures !LastAt(l, Edge(l, t', j))
      {
        assert Edge(l, t, j + 1) == Edge(l, t', j);
      }
      CountSendStatesStopsAtFirstLast(l, t', fuel - 1, k - 1);
    }
  }

  /** The k-th interval from `t` is, within a budget of `fuel` further
      intervals, the first last one. */
  predicate FirstLastWithin(l: Layout, t: real, fuel: nat, k: nat) {
    && 1 <= k <= fuel + 1
    && LastAt(l, Edge(l, t, k - 1))
    && forall j :: 0 <= j < k - 1 ==> !LastAt(l, Edge(l, t, j))
  }

  /** The first pass counts k intervals if and only if the k-th interval,
      within the budget, is the first last one. */
  lemma CountSendStatesIsFirstLast(l: Layout, t: real, fuel: nat, k: nat)
    ensures CountSendStates(l, t, fuel) == Some(k) ==> FirstLastWithin(l, t, fuel, k)
    ensures FirstLastWithin(l, t, fuel, k) ==> CountSendStates(l, t, fuel) == Some(k)
  {
    if CountSendStates(l, t, fuel) == Some(k) {
      CountSendStatesFindsLast(l, t, fuel, k);
      CountSendStatesWithinBudget(l, t, fuel);
    }
    if FirstLastWithin(l, t, fuel, k) {
      CountSendStatesStopsAtFirstLast(l, t, fuel, k);
    }
  }

  /** The first pass never counts more intervals than its budget allows. */
  lemma {:induction false} CountSendStatesWithinBudget(l: Layout, t: real, fuel: nat)
    ensures CountSendStates(l, t, fuel).Some? ==> CountSendStates(l, t, fuel).value <= fuel + 1
    decreases fuel
  {
    if !LastAt(l, t) && fuel > 0 {
      CountSendStatesWithinBudget(l, Advance(l, t), fuel - 1);
    }
  }

  /** The first pass gives up exactly when none of the first `fuel + 1`
      intervals is a last one. */
  lemma {:induction false} CountSendStatesExhausted(l: Layout, t: real, fuel: nat)
    ensures CountSendStates(l, t, fuel).None? <==> forall j :: 0 <= j <= fuel ==> !LastAt(l, Edge(l, t, j))
    decreases fuel
  {
    assert Edge(l, t, 0) == t;
    if LastAt(l, t) {
      assert CountSendStates(l, t, fuel) == Some(1);
      assert LastAt(l, Edge(l, t, 0));
    } else if fuel == 0 {
      assert CountSendStates(l, t, fuel) == None;
      forall j | 0 <= j <= fuel ensures !LastAt(l, Edge(l, t, j)) {
        assert j == 0;
      }
    } else {
      var t' := Advance(l, t);
      CountSendStatesExhausted(l, t', fuel - 1);
      assert CountSendStates(l, t, fuel).None? == CountSendStates(l, t', fuel - 1).None?;
      if CountSendStates(l, t, fuel).None? {
        assert forall i :: 0 <= i <= fuel - 1 ==> !LastAt(l, Edge(l, t', i));
        forall j | 0 <= j <= fuel
          ensures !LastAt(l, Edge(l, t, j))
        {
          if j > 0 {
            assert Edge(l, t, j) == Edge(l, t', j - 1);
            assert !LastAt(l, Edge(l, t', j - 1));
          }
        }
      } else {
        var j :| 0 <= j <= fuel - 1 && LastAt(l, Edge(l, t', j));
        assert Edge(l, t, j + 1) == Edge(l, t', j);
      }
    }
  }

  /** SEND_curr: pad at the given timeout, `count` times, then go to `next`;
      at low rates real traffic restarts the curve. */
  function RelaySendState(curr: nat, next: Target, count: real, timeout: real, rate: real): State {
    var t := map[PaddingSent := Single(Idx(curr)), LimitReached := Single(next)];
    State(if rate < ResetRateThreshold then t[NonPaddingSent := Single(Idx(FirstSendIndex))] else t,
          Fixed(Fin(timeout)), Fixed(Fin(PacketSize)), Fixed(Fin(count)),
          true, true, false)
  }

  /** The SEND state built for send index `i` whose interval starts at `t`. */
  function SendStateAt(l: Layout, count: real, t: real, i: nat): State {
    SendStateFor(i, LastAt(l, t), SendRate(l, t), count)
  }

  /** SEND_(i) sending at `rate`: the last one ends the machine on its limit,
      any other moves on to the next SEND state. */
  function SendStateFor(i: nat, last: bool, rate: real, count: real): State
    requires rate >= MinRate
  {
    var next := if last then End else Idx(i + FirstSendIndex + 1);
    RelaySendState(i + FirstSendIndex, next, count, MicrosPerSecond / rate, rate)
  }

  /** The second pass: SEND states for send indices i .. n-1, the first
      interval starting at `t`. */
  function SendStates(l: Layout, count: real, t: real, i: nat, n: nat): (r: seq<State>)
    requires i <= n
    decreases n - i
    ensures |r| == n - i
    ensures forall j :: 0 <= j < n - i ==> r[j] == SendStateAt(l, count, Edge(l, t, j), i + j)
  {
    if i == n then []
    else
      var rest := SendStates(l, count, Advance(l, t), i + 1, n);
      EdgeShift(l, t, n - i - 1);
      [SendStateAt(l, count, t, i)] + rest
  }

  /** START: the first non-padding packet sent leads to BLOCK. */
  function RelayStartState(): State {
    NewState(map[NonPaddingSent := Single(Idx(RelayBlockIndex))])
  }

  /** BLOCK: block indefinitely, then start sending once blocking has begun. */
  function RelayBlockState(): State {
    State(map[BlockingBegin := Single(Idx(FirstSendIndex))],
          Fixed(Fin(0.0)), Fixed(Inf), DefaultDist,
          true, true, true)
  }

  /** The relay machine for a layout; `None` only when more than
      `MaxSendStates` intervals would be needed. */
  function RelayMachine(count: real, l: Layout): (m: Option<Machine>)
    ensures m.Some? ==> Unbudgeted(m.value) && |m.value.states| >= FirstSendIndex + 1
    ensures m.Some? ==> m.value.states[RelayStartIndex].transitions == map[NonPaddingSent := Single(Idx(RelayBlockIndex))]
    ensures m.Some? ==> m.value.states[RelayBlockIndex].transitions == map[BlockingBegin := Single(Idx(FirstSendIndex))]
    ensures m.Some? ==> Passive(m.value.states[RelayStartIndex])
    ensures m.Some? ==> BlocksFor(m.value.states[RelayBlockIndex], Inf) && m.value.states[RelayBlockIndex].limit == DefaultDist
    ensures m.Some? ==> CountSendStates(l, 0.0, MaxSendStates) == Some(|m.value.states| - FirstSendIndex)
  {
    match CountSendStates(l, 0.0, MaxSendStates)
    case None => None
    case Some(n) =>
      Some(Assemble([RelayStartState(), RelayBlockState()] + SendStates(l, count, 0.0, 0, n)))
  }

  /** The relay machine for the curve R·D^t with `count` packets per state. */
  function GenerateRelayMachine(count: real, c: Curve): Option<Machine> {
    RelayMachine(count, CurveLayout(c, count))
  }

  /** The relay generator gives up exactly when none of the first
      `MaxSendStates + 1` intervals of the layout is a last one. */
  lemma RelayMachineNone(count: real, l: Layout)
    ensures RelayMachine(count, l).None? <==> forall j :: 0 <= j <= MaxSendStates ==> !LastAt(l, Edge(l, 0.0, j))
  {
    CountSendStatesExhausted(l, 0.0, MaxSendStates);
  }

  /** An interval of width zero leaves every later interval where it is. */
  lemma {:induction false} EdgeStays(l: Layout, t: real, j: nat)
    requires Advance(l, t) == t
    ensures Edge(l, t, j) == t
    decreases j
  {
    if j > 0 {
      EdgeStays(l, t, j - 1);
    }
  }

  /** With a packet count within the tolerance of zero and a starting rate
      of at least `MinRate`, every interval has width zero, so the first
      pass never moves on and the relay generator yields no machine. */
  lemma RelayStallsOnZeroCount(count: real, c: Curve)
    requires Abs(count) <= Tolerance && Rate(c, 0.0) >= MinRate
    ensures GenerateRelayMachine(count, c).None?
  {
    var l := CurveLayout(c, count);
    assert l.width(0.0) == Some(0.0);
    assert !LastAt(l, 0.0);
    forall j | 0 <= j <= MaxSendStates
      ensures !LastAt(l, Edge(l, 0.0, j))
    {
      EdgeStays(l, 0.0, j);
    }
    RelayMachineNone(count, l);
  }

  /** When the very first interval is already a last one, the relay machine
      is START, BLOCK and a single SEND state that ends the machine. */
  lemma RelaySingleSendState(count: real, l: Layout)
    requires LastAt(l, 0.0)
    ensures RelayMachine(count, l).Some?
    ensures |RelayMachine(count, l).value.states| == FirstSendIndex + 1
  {
    assert CountSendStates(l, 0.0, MaxSendStates) == Some(1);
  }

  /** The SEND state for an interval: it pads at the interval's rate
      `count` times, then moves on to the next SEND state or, for the last
      interval, ends the machine; at rates below `ResetRateThreshold` real
      traffic restarts the curve from SEND_0. */
  lemma SendStateAtShape(l: Layout, count: real, t: real, i: nat)
    ensures var s := SendStateAt(l, count, t, i);
      var rate := SendRate(l, t);
      && s.transitions.Keys == (if rate < ResetRateThreshold then {PaddingSent, LimitReached, NonPaddingSent} else {PaddingSent, LimitReached})
      && s.transitions[PaddingSent] == Single(Idx(FirstSendIndex + i))
      && s.transitions[LimitReached] == Single(if LastAt(l, t) then End else Idx(FirstSendIndex + i + 1))
      && (rate < ResetRateThreshold ==> s.transitions[NonPaddingSent] == Single(Idx(FirstSendIndex)))
      && PadsEvery(s, MicrosPerSecond / rate)
      && s.limit == Fixed(Fin(count))
  {
  }

  /** Where the relay machine's SEND states come from: SEND_j is built for
      the j-th interval, and only the interval of the last SEND state is a
      last one. */
  lemma RelaySendStates(count: real, l: Layout, m: Machine, j: nat)
    requires RelayMachine(count, l) == Some(m)
    requires j < |m.states| - FirstSendIndex
    ensures m.states[FirstSendIndex + j] == SendStateAt(l, count, Edge(l, 0.0, j), j)
    ensures LastAt(l, Edge(l, 0.0, j)) <==> FirstSendIndex + j + 1 == |m.states|
  {
    var n := |m.states| - FirstSendIndex;
    var sends := SendStates(l, count, 0.0, 0, n);
    assert m.states == [RelayStartState(), RelayBlockState()] + sends;
    assert m.states[FirstSendIndex + j] == sends[j];
    CountSendStatesFindsLast(l, 0.0, MaxSendStates, n);
  }

  /** The SEND states form a chain: SEND_j pads at the rate of its interval
      (clamped to `MinRate`) `count` times and moves on to SEND_(j+1), except
      the last, which ends the machine; real traffic sent at a rate below
      `ResetRateThreshold` restarts the curve from SEND_0. */
  lemma RelaySendStateShape(count: real, l: Layout, m: Machine, j: nat)
    requires RelayMachine(count, l) == Some(m)
    requires j < |m.states| - FirstSendIndex
    ensures var s := m.states[FirstSendIndex + j];
      var rate := SendRate(l, Edge(l, 0.0, j));
      && s.transitions.Keys == (if rate < ResetRateThreshold then {PaddingSent, LimitReached, NonPaddingSent} else {PaddingSent, LimitReached})
      && s.transitions[PaddingSent] == Single(Idx(FirstSendIndex + j))
      && s.transitions[LimitReached] == Single(if FirstSendIndex + j + 1 == |m.states| then End else Idx(FirstSendIndex + j + 1))
      && (rate < ResetRateThreshold ==> s.transitions[NonPaddingSent] == Single(Idx(FirstSendIndex)))
      && PadsEvery(s, MicrosPerSecond / rate)
      && s.limit == Fixed(Fin(count))
    ensures FirstSendIndex + j + 1 == |m.states| ==> SendRate(l, Edge(l, 0.0, j)) == MinRate
  {
    RelaySendStates(count, l, m, j);
    SendStateAtShape(l, count, Edge(l, 0.0, j), j);
  }

  /** The last SEND state ends the machine when its limit is reached; it
      sends at `MinRate`, so real traffic sent there restarts the curve. */
  lemma RelayLastSendState(count: real, l: Layout, m: Machine)
    requires RelayMachine(count, l) == Some(m)
    ensures var s := m.states[|m.states| - 1];
      && LimitReached in s.transitions && s.transitions[LimitReached] == Single(End)
      && NonPaddingSent in s.transitions && s.transitions[NonPaddingSent] == Single(Idx(FirstSendIndex))
      && s.timeout == Fixed(Fin(MicrosPerSecond))
  {
    var j := |m.states| - FirstSendIndex - 1;
    RelaySendStates(count, l, m, j);
    LastSendStateAt(l, count, Edge(l, 0.0, j), j);
  }

  /** The SEND state of a last interval. */
  lemma LastSendStateAt(l: Layout, count: real, t: real, i: nat)
    requires LastAt(l, t)
    ensures SendStateAt(l, count, t, i) == RelaySendState(FirstSendIndex + i, End, count, MicrosPerSecond, MinRate)
  {
  }

  /** A SEND state whose targets lie within the machine moves with
      certainty within it. */
  lemma RelaySendStateValid(s: State, curr: nat, next: Target, count: real, timeout: real, rate: real, n: nat)
    requires s == RelaySendState(curr, next, count, timeout, rate)
    requires curr < n && FirstSendIndex < n && ValidTarget(next, n)
    ensures Deterministic(s) && TargetsValid(s, n)
  {
    SingleOk(Idx(curr), n);
    SingleOk(Idx(FirstSendIndex), n);
    SingleOk(next, n);
  }

  /** The SEND state of an interval moves with certainty, and within a
      machine of `n` states as long as its successor exists there. */
  lemma SendStateForValid(s: State, i: nat, last: bool, rate: real, count: real, n: nat)
    requires rate >= MinRate && s == SendStateFor(i, last, rate, count)
    requires FirstSendIndex + i < n
    requires !last ==> FirstSendIndex + i + 1 < n
    ensures Deterministic(s) && TargetsValid(s, n)
  {
    var next := if last then End else Idx(i + FirstSendIndex + 1);
    RelaySendStateValid(s, i + FirstSendIndex, next, count, MicrosPerSecond / rate, rate, n);
  }

  /** Every state of a relay machine is deterministic and stays within it. */
  lemma RelayStateValid(count: real, l: Layout, m: Machine, i: nat)
    requires RelayMachine(count, l) == Some(m)
    requires i < |m.states|
    ensures Deterministic(m.states[i]) && TargetsValid(m.states[i], |m.states|)
  {
    var n := |m.states|;
    if i >= FirstSendIndex {
      var j := i - FirstSendIndex;
      var t := Edge(l, 0.0, j);
      RelaySendStates(count, l, m, j);
      SendStateForValid(m.states[i], j, LastAt(l, t), SendRate(l, t), count, n);
    } else {
      RelayHeadStateValid(m.states[i], n);
    }
  }

  /** START and BLOCK move with certainty within any relay machine. */
  lemma RelayHeadStateValid(s: State, n: nat)
    requires s.transitions == map[NonPaddingSent := Single(Idx(RelayBlockIndex))]
          || s.transitions == map[BlockingBegin := Single(Idx(FirstSendIndex))]
    requires FirstSendIndex < n
    ensures Deterministic(s) && TargetsValid(s, n)
  {
    SingleOk(Idx(RelayBlockIndex), n);
    SingleOk(Idx(FirstSendIndex), n);
  }

  /** The engine can accept every relay machine the generator produces. */
  lemma RelayMachineWellFormed(count: real, l: Layout, m: Machine)
    requires RelayMachine(count, l) == Some(m)
    ensures WellFormed(m)
    ensures forall i :: 0 <= i < |m.states| ==> Deterministic(m.states[i])
  {
    forall i | 0 <= i < |m.states|
      ensures Deterministic(m.states[i]) && TargetsValid(m.states[i], |m.states|)
    {
      RelayStateValid(count, l, m, i);
    }
    DeterministicWellFormed(m);
  }

  /** An interval of the curve that is not the last one has a finite width
      holding `count` packets up to the search tolerance, the next interval
      starts where it ends, and its SEND state sends at its midpoint rate. */
  lemma CurveStep(c: Curve, count: real, t: real)
    requires !LastAt(CurveLayout(c, count), t)
    ensures IntervalWidth(c, t, count).Some?
    ensures Fits(c, t, count, IntervalWidth(c, t, count).value)
    ensures Advance(CurveLayout(c, count), t) == t + IntervalWidth(c, t, count).value
    ensures SendRate(CurveLayout(c, count), t) == Rate(c, t + IntervalWidth(c, t, count).value / 2.0) >= MinRate
  {
    var l := CurveLayout(c, count);
    assert l.width(t) == IntervalWidth(c, t, count);
  }

  /** Along the curve, every SEND state but the last covers an interval
      holding `count` packets up to the search tolerance, and the next
      interval starts where it ends. */
  lemma RelayIntervalsFit(count: real, c: Curve, m: Machine, j: nat)
    requires GenerateRelayMachine(count, c) == Some(m)
    requires j + 1 < |m.states| - FirstSendIndex
    ensures IntervalWidth(c, Edge(CurveLayout(c, count), 0.0, j), count).Some?
    ensures Fits(c, Edge(CurveLayout(c, count), 0.0, j), count, IntervalWidth(c, Edge(CurveLayout(c, count), 0.0, j), count).value)
    ensures Edge(CurveLayout(c, count), 0.0, j + 1) == Edge(CurveLayout(c, count), 0.0, j) + IntervalWidth(c, Edge(CurveLayout(c, count), 0.0, j), count).value
  {
    var l := CurveLayout(c, count);
    RelayNotLast(count, l, m, j);
    CurveStep(c, count, Edge(l, 0.0, j));
  }

  /** Every SEND state but the last covers an interval that is not a last
      one, and the next SEND state's interval starts where it ends. */
  lemma RelayNotLast(count: real, l: Layout, m: Machine, j: nat)
    requires RelayMachine(count, l) == Some(m)
    requires j + 1 < |m.states| - FirstSendIndex
    ensures !LastAt(l, Edge(l, 0.0, j))
    ensures Edge(l, 0.0, j + 1) == Advance(l, Edge(l, 0.0, j))
  {
    RelaySendStates(count, l, m, j);
    EdgeStep(l, 0.0, j);
  }

  /** One more interval: the (j+1)-th starts where the j-th ends. */
  lemma {:induction false} EdgeStep(l: Layout, t: real, j: nat)
    ensures Edge(l, t, j + 1) == Advance(l, Edge(l, t, j))
    decreases j
  {
    if j > 0 {
      EdgeStep(l, Advance(l, t), j - 1);
    }
  }
}
