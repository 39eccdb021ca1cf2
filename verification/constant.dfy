/** The constant-rate defense: after the first non-padding packet in either
    direction, block real traffic and send one padding packet every
    `interval` microseconds. */
module Constant {
  import opened Machines

  const NumStates: nat := 3
  const BlockIndex: nat := 1
  const ConstIndex: nat := 2

  /** START: the first non-padding packet sent or received leads to BLOCK. */
  function StartState(): State {
    NewState(map[NonPaddingSent := Single(Idx(BlockIndex)), NonPaddingRecv := Single(Idx(BlockIndex))])
  }

  /** BLOCK: block indefinitely; once blocking has begun move to CONST. */
  function BlockState(): State {
    State(map[BlockingBegin := Single(Idx(ConstIndex))],
          Fixed(Fin(0.0)), Fixed(Inf), DefaultDist,
          true, true, true)
  }

  /** CONST: one padding packet every `interval` microseconds, forever. */
  function ConstState(interval: real): State {
    State(map[PaddingSent := Single(Idx(ConstIndex))],
          Fixed(Fin(interval)), Fixed(Fin(PacketSize)), DefaultDist,
          true, true, false)
  }

  function GenerateMachine(interval: real): (m: Machine)
    ensures |m.states| == NumStates && Unbudgeted(m)
    // START is a default state reacting to a non-padding packet in either direction, and to nothing else
    ensures m.states[0].transitions.Keys == {NonPaddingSent, NonPaddingRecv}
    ensures m.states[0].transitions[NonPaddingSent] == Single(Idx(BlockIndex))
    ensures m.states[0].transitions[NonPaddingRecv] == Single(Idx(BlockIndex))
    ensures Passive(m.states[0])
    // BLOCK blocks forever, bypassing and replacing, until blocking has begun
    ensures m.states[BlockIndex].transitions == map[BlockingBegin := Single(Idx(ConstIndex))]
    ensures BlocksFor(m.states[BlockIndex], Inf) && m.states[BlockIndex].limit == DefaultDist
    // CONST pads on its own, every `interval`, with full-size packets, without a limit
    ensures m.states[ConstIndex].transitions == map[PaddingSent := Single(Idx(ConstIndex))]
    ensures PadsEvery(m.states[ConstIndex], interval) && m.states[ConstIndex].limit == DefaultDist
  {
    Assemble([StartState(), BlockState(), ConstState(interval)])
  }

  /** The engine can accept every constant-rate machine: every transition is
      certain and stays within the three states. */
  lemma GenerateMachineWellFormed(interval: real)
    ensures WellFormed(GenerateMachine(interval))
    ensures forall i :: 0 <= i < NumStates ==> Deterministic(GenerateMachine(interval).states[i])
  {
    var m := GenerateMachine(interval);
    forall i | 0 <= i < NumStates
      ensures Deterministic(m.states[i]) && TargetsValid(m.states[i], NumStates)
    {
      StateValid(interval, i);
    }
    DeterministicWellFormed(m);
  }

  /** Each state of the constant-rate machine moves with certainty to a
      state of the machine. */
  lemma StateValid(interval: real, i: nat)
    requires i < NumStates
    ensures Deterministic(GenerateMachine(interval).states[i])
    ensures TargetsValid(GenerateMachine(interval).states[i], NumStates)
  {
    SingleOk(Idx(BlockIndex), NumStates);
    SingleOk(Idx(ConstIndex), NumStates);
  }

  /** Only CONST depends on the interval: START and BLOCK are the same for
      every input. */
  lemma OnlyConstDependsOnInterval(interval1: real, interval2: real)
    ensures GenerateMachine(interval1).states[..ConstIndex] == GenerateMachine(interval2).states[..ConstIndex]
    ensures interval1 != interval2 ==> GenerateMachine(interval1).states[ConstIndex] != GenerateMachine(interval2).states[ConstIndex]
  {
    assert GenerateMachine(interval1).states[ConstIndex].timeout.param1 == Fin(interval1);
  }
}
