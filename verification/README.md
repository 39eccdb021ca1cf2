# Padding-machine generators for video-streaming defenses

Three offline generators build padding machines for a traffic-shaping
engine (Maybenot). Each machine is a declarative description: a sequence of
states, each with an event-indexed transition table, timeout/action/limit
distributions and behaviour flags. The engine runs the machines; the
generators only describe them.

- **Constant-rate** (`Constant`): START → BLOCK → CONST. After the first
  non-padding packet in either direction it blocks real traffic, then sends
  one full-size padding packet every `interval` microseconds.
- **Segment scrambler** (`Scrambler`).
  - Machine one has seven states. START and BLOCK are followed by MIN, which
    sends `min_count` packets at a fixed interval. Then two pairs of
    trailing states follow, (L0, R0) and (L1, R1). Each trailing state pads
    on itself and swaps to its partner on real traffic. Its repeat limit is
    drawn from [min_trail, max_trail], or a quarter of that range for the
    second pair, and when the limit is reached it returns to START.
  - Machine two has three states: two counting sides that swap on blocking,
    and a blocking SIGNAL state. SIGNAL is entered once a side has counted
    1.25 × `min_count` non-padding packets.
- **Adapted RegulaTor** (`AdaptedRegulator`, `IntervalSearch`).
  - The relay machine approximates the decaying rate curve R·D^t with a
    chain of constant-rate SEND states. Each state covers one interval of
    the curve holding `packets_per_state` packets.
  - A doubling/halving search finds each interval's width. It looks for the
    width w whose midpoint rate times w is within 1e-5 of the count.
  - The chain ends with the first interval whose search diverges or whose
    midpoint rate is below 1 packet/s.
  - The client machine is a chain of COUNT states followed by SEND. It sends
    one padding packet per U packets received; only the last COUNT state
    advances at random, with probability 1 − fract(U).

`Machines` holds the shared data model:
- events, targets (a state index or the end sentinel), distributions,
  states and machines;
- `WellFormed`, the condition the engine requires: every target names a
  state of the machine or the end sentinel, every probability lies in
  [0, 1], and the probabilities of each event's transitions sum to 1.

Every generator is proved to produce well-formed machines. For each state
the contracts state its transitions exactly, and whether it pads (and at
which interval), blocks (and for how long) or is a default state. They also
state its bypass and replace flags and its limit.

Points of the code worth knowing when reading the model:
- `U as usize` truncates, so the client machine has ⌊U⌋ COUNT states
  (defenses/src/bin/adapted_regulator.rs:52). For U = 2.5 that is two COUNT
  states plus SEND.
- The second trailing pair of scrambler machine one draws its limit from
  the first pair's range divided by 4 (defenses/src/bin/scrambler.rs:70-71).
- In scrambler machine two, BlockingBegin takes SIGNAL back to the right
  counting side (defenses/src/bin/scrambler.rs:455-461).
- The source's comments call states 3 and 4 "L_1" and "R_1", and the
  blocking targets "L_2" and "R_2". Here the states are named L0, R0, L1 and
  R1, by index 3 to 6.
- The search's convergence test compares the absolute difference between
  the target and the implied count
  (defenses/src/bin/adapted_regulator.rs:359).

## Model

| member | source | states |
|---|---|---|
| Constant.GenerateMachine | defenses/src/bin/constant.rs:47-154 | three states with both budgets off; START is a default state that reacts exactly to a non-padding packet sent or received and moves to BLOCK; BLOCK blocks for an infinite time at once, bypassing and replacing, and moves to CONST when blocking begins; CONST self-loops on padding sent, sending a full-size packet every `interval` without blocking, bypassing and replacing; neither has a limit |
| Constant.GenerateMachineWellFormed | defenses/src/bin/constant.rs:69-154 | every constant-rate machine is well formed and each of its transitions is certain |
| Constant.StateValid | defenses/src/bin/constant.rs:69-154 | every state of the constant-rate machine moves with certainty to a state of the machine |
| Constant.OnlyConstDependsOnInterval | defenses/src/bin/constant.rs:47-65 | START and BLOCK do not depend on the interval; different intervals give different CONST states |
| Scrambler.GenerateMachineOne | defenses/src/bin/scrambler.rs:59-203 | seven states with both budgets off; START blocks for zero time at once, bypassing and replacing, and moves to BLOCK on a non-padding send; BLOCK blocks forever, bypassing and replacing, and moves to MIN when blocking begins; MIN pads on itself with a full-size packet every `interval`, bypassing and replacing, with limit `min_count`, then goes to R0 (index 4) |
| Scrambler.TrailingPairs | defenses/src/bin/scrambler.rs:205-322 | each trailing state pads on itself, moves to its partner on a non-padding send and to START on its limit; only L0/R0 react to blocking, moving to L1/R1; each sends a full-size packet every `interval` without blocking, bypassing and replacing |
| Scrambler.PartnerSwapsBack | defenses/src/bin/scrambler.rs:207-322 | swapping sides is an involution between the two states of the same pair (3↔4, 5↔6) |
| Scrambler.TrailLimits | defenses/src/bin/scrambler.rs:59-84 | L0/R0 draw their limit from exactly [min_trail, max_trail], L1/R1 from [min_trail/4, max_trail/4]; every other distribution of machine one is a fixed value |
| Scrambler.GenerateMachineOneWellFormed | defenses/src/bin/scrambler.rs:59-322 | machine one is well formed for every parameter and each of its transitions is certain |
| Scrambler.GenerateMachineTwo | defenses/src/bin/scrambler.rs:326-345 | three states with both budgets off; SIGNAL blocks forever at once, bypassing and replacing, with no limit, and returns to the right counting side when blocking begins, reacting to nothing else |
| Scrambler.CountingSides | defenses/src/bin/scrambler.rs:347-451 | each counting side has exactly three transitions: a non-padding send keeps it, blocking swaps to the other side, the limit goes to SIGNAL; its limit is 1.25 × min_count, its timeout and action are zero, and it blocks with bypass but without replace |
| Scrambler.MachineTwoStateValid | defenses/src/bin/scrambler.rs:347-486 | every state of machine two moves with certainty to a state of the machine |
| Scrambler.GenerateMachineTwoWellFormed | defenses/src/bin/scrambler.rs:326-486 | machine two is well formed and each of its transitions is certain |
| IntervalSearch.Step | defenses/src/bin/adapted_regulator.rs:359-375 | one search iteration keeps the search invariant (difference = target − implied count at the midpoint, positive step, midpoint lagging the step by 0.5 until the turn); once turned it stays turned; it turns exactly when the difference is negative; the step halves after the turn and doubles before it |
| IntervalSearch.Run | defenses/src/bin/adapted_regulator.rs:359-375 | a finished search is converged (within 1e-5 of the target) and keeps the invariant; an already converged point is returned unchanged |
| IntervalSearch.RunGivesUpOnlyUnconverged | defenses/src/bin/adapted_regulator.rs:359-375 | the search gives up only when none of the points it visited within its budget has converged |
| IntervalSearch.RunGivesUpWhenNoneConverged | defenses/src/bin/adapted_regulator.rs:359-375 | conversely, when no point within the budget has converged the search gives up rather than stopping early |
| IntervalSearch.RunStopsAtFirstConverged | defenses/src/bin/adapted_regulator.rs:359-375 | the search keeps stepping until the first converged point and returns exactly that point |
| IntervalSearch.BeginInv | defenses/src/bin/adapted_regulator.rs:352-357 | the initial point (midpoint at `a`, step 0.5, nothing counted) satisfies the search invariant |
| IntervalSearch.ConvergedWidth | defenses/src/bin/adapted_regulator.rs:373-377 | twice the final offset from `a` is a width w with rate(a + w/2) · w within 1e-5 of the target count |
| IntervalSearch.IntervalWidth | defenses/src/bin/adapted_regulator.rs:351-378 | every width the search returns satisfies rate(a + w/2) · w ≈ count within 1e-5; a target count already within tolerance of zero gives width 0 |
| IntervalSearch.IntervalWidthNone | defenses/src/bin/adapted_regulator.rs:351-378 | no width comes back if and only if none of the first 3201 points of the search from the left edge has converged |
| IntervalSearch.IntervalWidthAtFirstConverged | defenses/src/bin/adapted_regulator.rs:351-378 | the width is twice the offset from `a` of the first converged point of the doubling/halving search |
| IntervalSearch.CalcIntervalWidth | defenses/src/bin/adapted_regulator.rs:351-378 | the mutable-variable loop computes the same result as the recursive search, and its width fits the count |
| AdaptedRegulator.GenerateClientMachine | defenses/src/bin/adapted_regulator.rs:50-117 | ⌊U⌋ COUNT states then SEND, budgets off; SEND sends one full-size padding packet at once without blocking, bypassing and replacing, with no limit, and returns to COUNT_0 |
| AdaptedRegulator.ClientCountStates | defenses/src/bin/adapted_regulator.rs:56-178 | COUNT_i advances to i+1 on padding or non-padding received with its advance probability, staying put with the rest, and has a limit-reached exit to i+1 exactly when that probability is below 1; each COUNT state blocks forever at once, bypassing and replacing, with limit 2 |
| AdaptedRegulator.OnlyLastCountStateSplits | defenses/src/bin/adapted_regulator.rs:52-65 | every advance probability lies in (0, 1]; it is below 1 exactly for the last COUNT state of a non-integral U, where it equals 1 − fract(U) |
| AdaptedRegulator.CountEntryOk | defenses/src/bin/adapted_regulator.rs:120-133 | a COUNT state's advance entry is a probability distribution over valid states |
| AdaptedRegulator.ClientCountStateOk | defenses/src/bin/adapted_regulator.rs:119-178 | a COUNT state advancing with a probability in (0, 1] to another state of the machine is well formed |
| AdaptedRegulator.GenerateClientMachineWellFormed | defenses/src/bin/adapted_regulator.rs:50-178 | the client machine is well formed for every upload ratio |
| AdaptedRegulator.ClientExample | defenses/src/bin/adapted_regulator.rs:50-81 | U = 2.5 gives two COUNT states and SEND; the second COUNT state advances with probability 0.5 and stays with 0.5 |
| AdaptedRegulator.CountSendStatesFindsLast | defenses/src/bin/adapted_regulator.rs:183-199 | when the first pass counts k intervals, the k-th is a last interval (diverging width or midpoint rate below 1) and none before it is |
| AdaptedRegulator.CountSendStatesStopsAtFirstLast | defenses/src/bin/adapted_regulator.rs:183-199 | conversely, when the k-th interval is the first last one and lies within the budget, the first pass counts exactly k intervals |
| AdaptedRegulator.CountSendStatesIsFirstLast | defenses/src/bin/adapted_regulator.rs:183-199 | the first pass counts k intervals if and only if the k-th interval is, within the budget, the first last one |
| AdaptedRegulator.CountSendStatesExhausted | defenses/src/bin/adapted_regulator.rs:183-199 | the first pass gives up exactly when none of the intervals within its budget is a last one |
| AdaptedRegulator.SendStates | defenses/src/bin/adapted_regulator.rs:210-229 | the second pass yields one SEND state per interval, the j-th built from the j-th interval of the same layout |
| AdaptedRegulator.RelayMachine | defenses/src/bin/adapted_regulator.rs:182-242 | START, BLOCK and then at least one SEND state, budgets off; START is a default state that moves to BLOCK on a non-padding send; BLOCK blocks forever at once, bypassing and replacing, with no limit, and moves to SEND_0 when blocking begins; the number of SEND states is the first pass's count |
| AdaptedRegulator.RelayMachineNone | defenses/src/bin/adapted_regulator.rs:187-199 | the relay generator yields no machine exactly when no interval within the budget is a last one |
| AdaptedRegulator.RelaySendStates | defenses/src/bin/adapted_regulator.rs:210-229 | SEND_j is built from interval j, and interval j is a last one exactly when SEND_j is the last state |
| AdaptedRegulator.RelaySendStateShape | defenses/src/bin/adapted_regulator.rs:212-297 | SEND_j self-loops on padding sent and goes to SEND_(j+1) on its limit, or to the end sentinel if it is the last state; it has a non-padding-sent reset to SEND_0 exactly when its rate is below 200; its timeout is 1e6 / rate, it sends `count` full-size packets, and the last state's rate is clamped to 1 |
| AdaptedRegulator.RelayLastSendState | defenses/src/bin/adapted_regulator.rs:221-226 | the last SEND state ends the machine on its limit, resets on real traffic and pads once per second |
| AdaptedRegulator.RelaySingleSendState | defenses/src/bin/adapted_regulator.rs:188-199 | when the very first interval is already a last one, the relay machine has exactly one SEND state |
| AdaptedRegulator.RelayStallsOnZeroCount | defenses/src/bin/adapted_regulator.rs:188-199 | with a packet count within 1e-5 of zero and a starting rate of at least 1, every interval has width zero and the relay generator yields no machine |
| AdaptedRegulator.RelayStateValid | defenses/src/bin/adapted_regulator.rs:246-347 | every relay state is deterministic and its targets lie within the machine |
| AdaptedRegulator.RelayMachineWellFormed | defenses/src/bin/adapted_regulator.rs:182-347 | every relay machine the generator yields is well formed, and each of its transitions is certain |
| AdaptedRegulator.RelayNotLast | defenses/src/bin/adapted_regulator.rs:188-199 | every SEND state but the last covers an interval that is not a last one, and the next interval starts where it ends |
| AdaptedRegulator.CurveStep | defenses/src/bin/adapted_regulator.rs:189-194 | a non-last interval of the curve has a finite width fitting the count, the next interval starts at its end, and its sending rate is the curve's midpoint rate, at least 1 |
| AdaptedRegulator.RelayIntervalsFit | defenses/src/bin/adapted_regulator.rs:210-229 | along the curve R·D^t every SEND state but the last covers an interval holding `count` packets within 1e-5, and consecutive intervals are adjacent |

## Left out

- Command-line parsing, usage errors and printing: these are `main` in each file, plus the two fatal input errors.
- `Machine::serialize`: the engine's encoding of a machine. The model returns the machine itself.
- `State::new`: the engine's default constructor is not part of this model. It is taken to install the given transitions, default (`NoDist`) distributions and all flags off. Its `num_states` argument is not modelled.
- The engine's `Machine`/`State` field widths: counts are unbounded naturals and real numbers are exact.
- 64-bit floating point: every quantity is an exact real. NaN, signed zeros, rounding and overflow are not modelled. `WellFormed` asks probabilities to sum to exactly 1, where the engine allows floating-point tolerance.
- `powf`: `Curve.pow` is a function supplied by the caller, and no property of exponentiation is assumed. Every result holds for any such function.
- IntervalSearch.IntervalWidth: `None` (no width) means that none of the first 3201 search points (`SearchFuel` = 3200 iterations) has converged; `IntervalWidthNone` proves this. With exact reals this stands for two float behaviours: a step that overflows, where the source returns an infinite width, and a step that underflows to zero, where the source would loop forever.
- AdaptedRegulator.RelayMachine: the first pass gives up after 1 000 001 intervals (`MaxSendStates` + 1), and the generator then yields no machine. The source's loop has no such bound. On some inputs it never ends: with |packets_per_state| ≤ 1e-5 and R·D^0 ≥ 1, calc_interval_width returns 0 at once, so the interval start never advances (defenses/src/bin/adapted_regulator.rs:188-199). `RelayStallsOnZeroCount` proves that the model yields no machine there.
- AdaptedRegulator.GenerateRelayMachine: has no contract of its own. It is `RelayMachine` applied to the curve's layout, and every relay lemma is stated for an arbitrary layout or for that curve.
- AdaptedRegulator.NumCountStates: `usize` saturation of `U as usize` for U ≥ 2^64, and the overflow of the `+ 1` after it, are not modelled.
- `HashMap` iteration order: transition tables are maps, so no order is modelled.
- The fingerprinting attacks (`attacks/*.py`): not part of this model.
