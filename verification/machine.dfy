/** The declarative padding machine handed to the traffic-shaping engine:
    events, transition targets, distributions, states and whole machines,
    together with the well-formedness the engine expects of them.

    A machine is only a description; it is never executed here. */
module Machines {

  /** The observable events a state reacts to (the ones the generators use). */
  datatype Event =
    | PaddingSent
    | PaddingRecv
    | NonPaddingSent
    | NonPaddingRecv
    | BlockingBegin
    | LimitReached

  /** Where a transition leads: a position in the machine's state sequence,
      or the engine's end-of-machine sentinel. */
  datatype Target = Idx(index: nat) | End

  /** A distribution parameter; several blocking actions use an infinite one. */
  datatype Param = Fin(value: real) | Inf

  /** `NoDist` marks a distribution left at the engine's default, which the
      default state constructor installs; every distribution the generators
      set themselves is `Uniform`. */
  datatype DistKind = NoDist | Uniform

  datatype Dist = Dist(kind: DistKind, param1: Param, param2: Param, start: real, max: real)

  /** Per event, the probability of moving to each listed target. */
  type Entry = map<Target, real>

  datatype State = State(
    transitions: map<Event, Entry>,
    timeout: Dist,
    action: Dist,
    limit: Dist,
    bypass: bool,
    replace: bool,
    actionIsBlock: bool)

  datatype Machine = Machine(
    allowedPaddingBytes: nat,
    maxPaddingFrac: real,
    allowedBlockedMicrosec: nat,
    maxBlockingFrac: real,
    states: seq<State>,
    includeSmallPackets: bool)

  /** Size in bytes of every padding packet the generators ask for. */
  const PacketSize: real := 1500.0

  /** The distribution the engine's default state constructor installs. */
  const DefaultDist: Dist := Dist(NoDist, Fin(0.0), Fin(0.0), 0.0, 0.0)

  /** A uniform distribution that always yields `p`. */
  function Fixed(p: Param): Dist {
    Dist(Uniform, p, p, 0.0, 0.0)
  }

  /** A uniform distribution over [lo, hi]. */
  function Range(lo: real, hi: real): Dist {
    Dist(Uniform, Fin(lo), Fin(hi), 0.0, 0.0)
  }

  /** The default state constructor: the given transitions, every distribution
      at the engine default and every flag off. */
  function NewState(transitions: map<Event, Entry>): State {
    State(transitions, DefaultDist, DefaultDist, DefaultDist, false, false, false)
  }

  /** A transition taken with certainty. */
  function Single(t: Target): Entry {
    map[t := 1.0]
  }

  /** A machine with both budgets disabled and small packets ignored, which
      is how every generator here assembles its machine. */
  function Assemble(states: seq<State>): Machine {
    Machine(0, 0.0, 0, 0.0, states, false)
  }

  predicate Unbudgeted(m: Machine) {
    && m.allowedPaddingBytes == 0
    && m.maxPaddingFrac == 0.0
    && m.allowedBlockedMicrosec == 0
    && m.maxBlockingFrac == 0.0
    && !m.includeSmallPackets
  }

  /** A state as the default constructor leaves it: every distribution at
      the engine default and every flag off. */
  predicate Passive(s: State) {
    && s.timeout == DefaultDist && s.action == DefaultDist && s.limit == DefaultDist
    && !s.bypass && !s.replace && !s.actionIsBlock
  }

  /** A blocking state: at once (zero timeout) it blocks outgoing traffic
      for `duration`, bypassing other blocking and replacing queued packets. */
  predicate BlocksFor(s: State, duration: Param) {
    && s.actionIsBlock && s.bypass && s.replace
    && s.timeout == Fixed(Fin(0.0)) && s.action == Fixed(duration)
  }

  /** A padding state: every `interval` microseconds it sends one full-size
      padding packet, bypassing blocking and replacing queued packets. */
  predicate PadsEvery(s: State, interval: real) {
    && !s.actionIsBlock && s.bypass && s.replace
    && s.timeout == Fixed(Fin(interval)) && s.action == Fixed(Fin(PacketSize))
  }

  /** A distribution that always yields the same value. */
  predicate IsFixed(d: Dist) {
    d.param1 == d.param2
  }

  /** Some target of a non-empty entry; which one is left unspecified. */
  ghost function Pick(entry: Entry): (t: Target)
    requires |entry| > 0
    ensures t in entry
  {
    assert entry.Keys != {};
    var t :| t in entry.Keys; t
  }

  /** Total probability mass of an entry. The target it starts from is
      unspecified and does not matter (see `SumRemove`). */
  ghost function Sum(entry: Entry): real
    decreases |entry|
  {
    if |entry| == 0 then 0.0
    else
      var t := Pick(entry);
      assert (entry - {t}).Keys == entry.Keys - {t};
      entry[t] + Sum(entry - {t})
  }

  predicate ValidTarget(t: Target, numStates: nat) {
    t.Idx? ==> t.index < numStates
  }

  /** Every target names a real state (or the end sentinel), every
      probability lies in [0, 1] and together they sum to 1. */
  ghost predicate EntryOk(entry: Entry, numStates: nat) {
    && (forall t :: t in entry ==> ValidTarget(t, numStates) && 0.0 <= entry[t] <= 1.0)
    && Sum(entry) == 1.0
  }

  ghost predicate StateOk(s: State, numStates: nat) {
    forall e :: e in s.transitions ==> EntryOk(s.transitions[e], numStates)
  }

  /** What the engine requires of a machine: all transitions of all states
      are probability distributions over valid targets. */
  ghost predicate WellFormed(m: Machine) {
    forall i :: 0 <= i < |m.states| ==> StateOk(m.states[i], |m.states|)
  }

  /** An entry that moves to one target with certainty. */
  predicate Certain(entry: Entry) {
    |entry| == 1 && forall t :: t in entry ==> entry[t] == 1.0
  }

  /** Every event of the state moves to one target with certainty. */
  predicate Deterministic(s: State) {
    forall e :: e in s.transitions ==> Certain(s.transitions[e])
  }

  lemma RemoveShrinks(entry: Entry, t: Target)
    requires t in entry
    ensures |entry - {t}| == |entry| - 1
  {
    assert (entry - {t}).Keys == entry.Keys - {t};
  }

  /** The sum may start from any target of the entry. */
  lemma {:induction false} SumRemove(entry: Entry, t: Target)
    requires t in entry
    ensures Sum(entry) == entry[t] + Sum(entry - {t})
    decreases |entry|
  {
    var u := Pick(entry);
    if u != t {
      var withoutU := entry - {u};
      var withoutT := entry - {t};
      RemoveShrinks(entry, u);
      RemoveShrinks(entry, t);
      assert t in withoutU && withoutU[t] == entry[t];
      assert u in withoutT && withoutT[u] == entry[u];
      SumRemove(withoutU, t);
      SumRemove(withoutT, u);
      assert withoutU - {t} == withoutT - {u};
    }
  }

  lemma SumSingle(t: Target, p: real)
    ensures Sum(map[t := p]) == p
  {
    var m := map[t := p];
    SumRemove(m, t);
    assert m - {t} == map[];
  }

  /** Mass of a two-target entry. */
  lemma SumPair(a: Target, b: Target, p: real, q: real)
    requires a != b
    ensures Sum(map[a := p, b := q]) == p + q
  {
    var m := map[a := p, b := q];
    SumRemove(m, a);
    assert m - {a} == map[b := q];
    SumSingle(b, q);
  }

  /** A split between two distinct valid targets is a well-formed entry. */
  lemma PairOk(a: Target, b: Target, p: real, q: real, numStates: nat)
    requires a != b && ValidTarget(a, numStates) && ValidTarget(b, numStates)
    requires 0.0 <= p <= 1.0 && 0.0 <= q <= 1.0 && p + q == 1.0
    ensures EntryOk(map[a := p, b := q], numStates)
  {
    SumPair(a, b, p, q);
  }

  /** Every target of every transition of the state lies within the machine. */
  predicate TargetsValid(s: State, numStates: nat) {
    forall e, t :: e in s.transitions && t in s.transitions[e] ==> ValidTarget(t, numStates)
  }

  /** A certain transition to a valid target is a well-formed entry. */
  lemma CertainOk(entry: Entry, numStates: nat)
    requires Certain(entry)
    requires forall t :: t in entry ==> ValidTarget(t, numStates)
    ensures EntryOk(entry, numStates)
  {
    var t := Pick(entry);
    SumRemove(entry, t);
    RemoveShrinks(entry, t);
  }

  lemma SingleOk(t: Target, numStates: nat)
    requires ValidTarget(t, numStates)
    ensures EntryOk(Single(t), numStates) && Certain(Single(t))
  {
    SumSingle(t, 1.0);
  }

  /** A state whose transitions are all certain and stay in the machine is
      well formed. */
  lemma DeterministicStateOk(s: State, numStates: nat)
    requires Deterministic(s) && TargetsValid(s, numStates)
    ensures StateOk(s, numStates)
  {
    forall e | e in s.transitions
      ensures EntryOk(s.transitions[e], numStates)
    {
      CertainOk(s.transitions[e], numStates);
    }
  }

  /** A machine whose states are all deterministic and stay in the machine
      is well formed. */
  lemma DeterministicWellFormed(m: Machine)
    requires forall i :: 0 <= i < |m.states| ==> Deterministic(m.states[i]) && TargetsValid(m.states[i], |m.states|)
    ensures WellFormed(m)
  {
    forall i | 0 <= i < |m.states|
      ensures StateOk(m.states[i], |m.states|)
    {
      DeterministicStateOk(m.states[i], |m.states|);
    }
  }
}
