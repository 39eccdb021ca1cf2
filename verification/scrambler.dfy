/** The Scrambler defense: two cooperating machines. Machine one regularises
    packet timing inside a segment and pads its tail by a random count;
    machine two watches for segments that overrun and signals by blocking. */
module Scrambler {
  import opened Machines

  // Machine one
  const NumStatesOne: nat := 7
  const StartIndex: nat := 0
  const BlockIndex: nat := 1
  const MinIndex: nat := 2
  /** Index of the first trailing pair: L0 at 3 and R0 at 4; L1 and R1 follow at 5 and 6. */
  const LeftIndex: nat := 3
  const RightIndex: nat := 4

  // Machine two
  const NumStatesTwo: nat := 3
  const CountLeftIndex: nat := 0
  const CountRightIndex: nat := 1
  const SignalIndex: nat := 2

  /** Factor by which machine two's counting limit exceeds the minimum count. */
  const OverrunFactor: real := 1.25

  /** START: block (with a zero-length action) and wait for the first
      non-padding packet sent. */
  function StartState(): State {
    State(map[NonPaddingSent := Single(Idx(BlockIndex))],
          Fixed(Fin(0.0)), Fixed(Fin(0.0)), DefaultDist,
          true, true, true)
  }

  /** BLOCK: block indefinitely, then move to MIN once blocking has begun. */
  function BlockState(): State {
    State(map[BlockingBegin := Single(Idx(MinIndex))],
          Fixed(Fin(0.0)), Fixed(Inf), DefaultDist,
          true, true, true)
  }

  /** MIN: pad every `interval` exactly `minCount` times, then go to R0. */
  function MinState(interval: real, minCount: real): State {
    State(map[PaddingSent := Single(Idx(MinIndex)), LimitReached := Single(Idx(RightIndex))],
          Fixed(Fin(interval)), Fixed(Fin(PacketSize)), Fixed(Fin(minCount)),
          true, true, false)
  }

  /** The transitions shared by a trailing state at `self` whose partner is
      at `partner`: pad on itself, swap on real traffic, return to START on
      the limit and, for the first pair only, move on by two on blocking. */
  function TrailTransitions(index: nat, self: nat, partner: nat): map<Event, Entry> {
    var common := map[
      PaddingSent := Single(Idx(self)),
      NonPaddingSent := Single(Idx(partner)),
      LimitReached := Single(Idx(StartIndex))];
    if index == 0 then common[BlockingBegin := Single(Idx(self + 2))] else common
  }

  lemma TrailTransitionsShape(index: nat, self: nat, partner: nat)
    ensures var t := TrailTransitions(index, self, partner);
      && t.Keys == (if index == 0 then {PaddingSent, NonPaddingSent, LimitReached, BlockingBegin}
                    else {PaddingSent, NonPaddingSent, LimitReached})
      && t[PaddingSent] == Single(Idx(self))
      && t[NonPaddingSent] == Single(Idx(partner))
      && t[LimitReached] == Single(Idx(StartIndex))
      && (index == 0 ==> t[BlockingBegin] == Single(Idx(self + 2)))
  {
  }

  function TrailState(transitions: map<Event, Entry>, interval: real, minTrail: real, maxTrail: real): State {
    State(transitions,
          Fixed(Fin(interval)), Fixed(Fin(PacketSize)), Range(minTrail, maxTrail),
          true, true, false)
  }

  /** L_index, at 3 + 2·index. */
  function LeftState(index: nat, interval: real, minTrail: real, maxTrail: real): State {
    TrailState(TrailTransitions(index, LeftIndex + 2 * index, RightIndex + 2 * index), interval, minTrail, maxTrail)
  }

  /** R_index, at 4 + 2·index. */
  function RightState(index: nat, interval: real, minTrail: real, maxTrail: real): State {
    TrailState(TrailTransitions(index, RightIndex + 2 * index, LeftIndex + 2 * index), interval, minTrail, maxTrail)
  }

  /** Trailing states of machine one: L0, R0, L1, R1. */
  predicate IsTrailing(i: int) {
    LeftIndex <= i < NumStatesOne
  }

  /** The other state of a trailing pair (L_k and R_k). */
  function Partner(i: int): nat
    requires IsTrailing(i)
  {
    if i % 2 == 1 then i + 1 else i - 1
  }

  /** The trailing-padding limit range of the secondary pair is a quarter of
      that of the primary pair. */
  const SecondaryTrailDivisor: real := 4.0

  function GenerateMachineOne(interval: real, minCount: real, minTrail: real, maxTrail: real): (m: Machine)
    ensures |m.states| == NumStatesOne && Unbudgeted(m)
    // START blocks for no time at once, then waits for a non-padding packet sent
    ensures m.states[StartIndex].transitions == map[NonPaddingSent := Single(Idx(BlockIndex))]
    ensures BlocksFor(m.states[StartIndex], Fin(0.0)) && m.states[StartIndex].limit == DefaultDist
    // BLOCK blocks forever, and moves to MIN once blocking has begun
    ensures m.states[BlockIndex].transitions == map[BlockingBegin := Single(Idx(MinIndex))]
    ensures BlocksFor(m.states[BlockIndex], Inf) && m.states[BlockIndex].limit == DefaultDist
    // MIN pads on itself at the fixed interval, a fixed number of times, then hands over to R0
    ensures m.states[MinIndex].transitions == map[PaddingSent := Single(Idx(MinIndex)), LimitReached := Single(Idx(RightIndex))]
    ensures PadsEvery(m.states[MinIndex], interval)
    ensures m.states[MinIndex].limit == Fixed(Fin(minCount))
  {
    Assemble([
      StartState(),
      BlockState(),
      MinState(interval, minCount),
      LeftState(0, interval, minTrail, maxTrail),
      RightState(0, interval, minTrail, maxTrail),
      LeftState(1, interval, minTrail / SecondaryTrailDivisor, maxTrail / SecondaryTrailDivisor),
      RightState(1, interval, minTrail / SecondaryTrailDivisor, maxTrail / SecondaryTrailDivisor)
    ])
  }

  /** The transitions of a trailing state that is `pairIndex` pairs after L0/R0. */
  predicate TrailingTransitionsAre(s: State, i: nat, pairIndex: nat) 
    requires IsTrailing(i)
  {
    && s.transitions.Keys
       == (if pairIndex == 0 then {PaddingSent, NonPaddingSent, LimitReached, BlockingBegin}
           else {PaddingSent, NonPaddingSent, LimitReached})
    && s.transitions[PaddingSent] == Single(Idx(i))
    && s.transitions[NonPaddingSent] == Single(Idx(Partner(i)))
    && s.transitions[LimitReached] == Single(Idx(StartIndex))
    && (pairIndex == 0 ==> s.transitions[BlockingBegin] == Single(Idx(i + 2)))
  }

  /** The trailing pairs of machine one: each state pads on itself, swaps
      with its partner on real traffic and returns to START when its limit
      is reached; blocking moves the primary pair (L0, R0) to the secondary
      pair (L1, R1), which ignores it. */
  lemma TrailingPairs(interval: real, minCount: real, minTrail: real, maxTrail: real, i: int)
    requires IsTrailing(i)
    ensures TrailingTransitionsAre(GenerateMachineOne(interval, minCount, minTrail, maxTrail).states[i], i, (i - LeftIndex) / 2)
    ensures PadsEvery(GenerateMachineOne(interval, minCount, minTrail, maxTrail).states[i], interval)
  {
    var m := GenerateMachineOne(interval, minCount, minTrail, maxTrail);
    var pairIndex := (i - LeftIndex) / 2;
    if i == 3 {
      assert m.states[i] == LeftState(0, interval, minTrail, maxTrail);
    } else if i == 4 {
      assert m.states[i] == RightState(0, interval, minTrail, maxTrail);
    } else if i == 5 {
      assert m.states[i] == LeftState(1, interval, minTrail / SecondaryTrailDivisor, maxTrail / SecondaryTrailDivisor);
    } else {
      assert m.states[i] == RightState(1, interval, minTrail / SecondaryTrailDivisor, maxTrail / SecondaryTrailDivisor);
    }
    assert m.states[i].transitions == TrailTransitions(pairIndex, i, Partner(i));
    TrailTransitionsShape(pairIndex, i, Partner(i));
  }

  /** Swapping sides twice on real traffic returns to the same trailing state. */
  lemma PartnerSwapsBack(i: int)
    requires IsTrailing(i)
    ensures IsTrailing(Partner(i)) && Partner(i) != i && Partner(Partner(i)) == i
    ensures (Partner(i) - LeftIndex) / 2 == (i - LeftIndex) / 2
  {
  }

  /** Randomised trailing counts: L0/R0 draw their limit from exactly
      [minTrail, maxTrail] and L1/R1 from a quarter of it; every other
      distribution of machine one is a fixed value. */
  lemma TrailLimits(interval: real, minCount: real, minTrail: real, maxTrail: real)
    ensures var m := GenerateMachineOne(interval, minCount, minTrail, maxTrail);
      && m.states[LeftIndex].limit == m.states[RightIndex].limit == Range(minTrail, maxTrail)
      && m.states[LeftIndex + 2].limit == m.states[RightIndex + 2].limit
         == Range(minTrail / SecondaryTrailDivisor, maxTrail / SecondaryTrailDivisor)
      && forall i :: 0 <= i < NumStatesOne ==>
           IsFixed(m.states[i].timeout) && IsFixed(m.states[i].action) && (!IsTrailing(i) ==> IsFixed(m.states[i].limit))
  {
  }

  lemma TrailingStateDeterministic(s: State, i: int, pairIndex: nat)
    requires IsTrailing(i) && TrailingTransitionsAre(s, i, pairIndex)
    requires pairIndex == 0 ==> i + 2 < NumStatesOne
    ensures Deterministic(s) && TargetsValid(s, NumStatesOne)
  {
    SingleOk(Idx(i), NumStatesOne);
    SingleOk(Idx(Partner(i)), NumStatesOne);
    SingleOk(Idx(StartIndex), NumStatesOne);
    if pairIndex == 0 {
      SingleOk(Idx(i + 2), NumStatesOne);
    }
  }

  /** The first three states of machine one move with certainty within it. */
  lemma HeadStateDeterministic(s: State)
    requires var t := s.transitions;
      || t == map[NonPaddingSent := Single(Idx(BlockIndex))]
             || t == map[BlockingBegin := Single(Idx(MinIndex))]
             || t == map[PaddingSent := Single(Idx(MinIndex)), LimitReached := Single(Idx(RightIndex))]
    ensures Deterministic(s) && TargetsValid(s, NumStatesOne)
  {
    SingleOk(Idx(BlockIndex), NumStatesOne);
    SingleOk(Idx(MinIndex), NumStatesOne);
    SingleOk(Idx(RightIndex), NumStatesOne);
  }

  /** Machine one is well formed, and every one of its transitions is certain. */
  lemma GenerateMachineOneWellFormed(interval: real, minCount: real, minTrail: real, maxTrail: real)
    ensures WellFormed(GenerateMachineOne(interval, minCount, minTrail, maxTrail))
    ensures forall i :: 0 <= i < NumStatesOne ==> Deterministic(GenerateMachineOne(interval, minCount, minTrail, maxTrail).states[i])
  {
    var m := GenerateMachineOne(interval, minCount, minTrail, maxTrail);
    forall i | 0 <= i < NumStatesOne
      ensures Deterministic(m.states[i]) && TargetsValid(m.states[i], NumStatesOne)
    {
      if IsTrailing(i) {
        TrailingPairs(interval, minCount, minTrail, maxTrail, i);
        TrailingStateDeterministic(m.states[i], i, (i - LeftIndex) / 2);
      } else {
        HeadStateDeterministic(m.states[i]);
      }
    }
    DeterministicWellFormed(m);
  }

  /** Machine two's counting state on one side: count non-padding packets
      sent, swap sides on blocking, and signal once the count reaches
      1.25 times the minimum. */
  function CountState(self: nat, other: nat, count: real): State {
    State(map[
            NonPaddingSent := Single(Idx(self)),
            BlockingBegin := Single(Idx(other)),
            LimitReached := Single(Idx(SignalIndex))],
          Fixed(Fin(0.0)), Fixed(Fin(0.0)), Fixed(Fin(count * OverrunFactor)),
          true, false, true)
  }

  /** SIGNAL: block indefinitely; a new blocking period restarts counting on
      the right side. */
  function SignalState(): State {
    State(map[BlockingBegin := Single(Idx(CountRightIndex))],
          Fixed(Fin(0.0)), Fixed(Inf), DefaultDist,
          true, true, true)
  }

  /** The counting side opposite to `i`. */
  function OtherSide(i: nat): nat
    requires i < SignalIndex
  {
    1 - i
  }

  function GenerateMachineTwo(minCount: real): (m: Machine)
    ensures |m.states| == NumStatesTwo && Unbudgeted(m)
    // SIGNAL blocks forever, and a new blocking period sends it back to the right side
    ensures m.states[SignalIndex].transitions == map[BlockingBegin := Single(Idx(CountRightIndex))]
    ensures BlocksFor(m.states[SignalIndex], Inf) && m.states[SignalIndex].limit == DefaultDist
  {
    Assemble([
      CountState(CountLeftIndex, CountRightIndex, minCount),
      CountState(CountRightIndex, CountLeftIndex, minCount),
      SignalState()
    ])
  }

  /** A counting side `i` of machine two: it counts non-padding packets sent,
      swaps to the other side on blocking and signals on its limit,
      1.25 times the minimum count. */
  predicate CountingSideIs(s: State, i: nat, minCount: real)
    requires i < SignalIndex
  {
    && s.transitions.Keys == {NonPaddingSent, BlockingBegin, LimitReached}
    && s.transitions[NonPaddingSent] == Single(Idx(i))
    && s.transitions[BlockingBegin] == Single(Idx(OtherSide(i)))
    && s.transitions[LimitReached] == Single(Idx(SignalIndex))
    && s.limit == Fixed(Fin(OverrunFactor * minCount))
    && s.timeout == Fixed(Fin(0.0)) && s.action == Fixed(Fin(0.0))
    && s.actionIsBlock && s.bypass && !s.replace
  }

  /** Both counting sides of machine two have the same shape, mirrored. */
  lemma CountingSides(minCount: real, i: nat)
    requires i < SignalIndex
    ensures CountingSideIs(GenerateMachineTwo(minCount).states[i], i, minCount)
  {
    var m := GenerateMachineTwo(minCount);
    if i == CountLeftIndex {
      assert m.states[i] == CountState(CountLeftIndex, CountRightIndex, minCount);
    } else {
      assert m.states[i] == CountState(CountRightIndex, CountLeftIndex, minCount);
    }
  }

  /** A counting state whose targets are states of machine two moves with
      certainty within it. */
  lemma CountStateValid(self: nat, other: nat, count: real)
    requires self < NumStatesTwo && other < NumStatesTwo
    ensures Deterministic(CountState(self, other, count))
    ensures TargetsValid(CountState(self, other, count), NumStatesTwo)
  {
    SingleOk(Idx(self), NumStatesTwo);
    SingleOk(Idx(other), NumStatesTwo);
    SingleOk(Idx(SignalIndex), NumStatesTwo);
  }

  /** Each state of machine two moves with certainty within the machine. */
  lemma MachineTwoStateValid(minCount: real, i: nat)
    requires i < NumStatesTwo
    ensures Deterministic(GenerateMachineTwo(minCount).states[i])
    ensures TargetsValid(GenerateMachineTwo(minCount).states[i], NumStatesTwo)
  {
    var m := GenerateMachineTwo(minCount);
    if i == CountLeftIndex {
      assert m.states[i] == CountState(CountLeftIndex, CountRightIndex, minCount);
      CountStateValid(CountLeftIndex, CountRightIndex, minCount);
    } else if i == CountRightIndex {
      assert m.states[i] == CountState(CountRightIndex, CountLeftIndex, minCount);
      CountStateValid(CountRightIndex, CountLeftIndex, minCount);
    } else {
      SingleOk(Idx(CountRightIndex), NumStatesTwo);
    }
  }

  /** Machine two is well formed, and every one of its transitions is certain. */
  lemma GenerateMachineTwoWellFormed(minCount: real)
    ensures WellFormed(GenerateMachineTwo(minCount))
    ensures forall i :: 0 <= i < NumStatesTwo ==> Deterministic(GenerateMachineTwo(minCount).states[i])
  {
    var m := GenerateMachineTwo(minCount);
    forall i | 0 <= i < NumStatesTwo
      ensures Deterministic(m.states[i]) && TargetsValid(m.states[i], NumStatesTwo)
    {
      MachineTwoStateValid(minCount, i);
    }
    DeterministicWellFormed(m);
  }
}
