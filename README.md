# ArkeLogic gate library, modelled in Dafny

ArkeLogic evaluates combinational logic step by step. An `ExternalInput` is a
line whose value its owner sets. A gate holds a cached `Value` that only its
`Tick()` recomputes, from the current values of the lines wired to it.

- The primitive gates (`NotGate`, `AndGate`, `OrGate`, `XorGate`) each compute
  one boolean function of their inputs.
- The composite gates (`NandGate`, `NorGate`, `NxorGate`) each own a
  first-stage gate (And, Or or Xor) and a `NotGate` wired to that gate's output.
  Their `Tick()` ticks the first stage, then the `NotGate`, and caches the
  `NotGate`'s value. This order is what makes the `NotGate` see the current
  round's first-stage value.

The project has four modules:

- `Logic` (logic.dfy) holds the gates' boolean functions. Each is stated
  against the arithmetic of the digits 0 and 1 (product, sum modulo 2, ...).
- `Composite` (composite.dfy) models the composite step protocol on values.
  - The state is the three cached booleans.
  - `Tick` is one step in dependency order: the first stage, then the NotGate,
    then the composite's cache. `TickReversed` is the same step with the two
    sub-gate ticks swapped.
  - `Outputs` and `OutputsReversed` run many rounds of input values.
  - Lemmas prove that dependency order gives the right output in every round
    from any cached state. The swapped order is one round stale and is wrong
    from the initial state.
- `ArkeLogic` (gates.dfy) holds the classes, with the fields, constructors and
  `Tick` methods of the source.
  - The `ILine` interface becomes the datatype `Line`, a reference to an input
    or to a gate. `Line.Value()` reads only that one object.
  - The wiring is `const`, so it is fixed at construction.
  - A composite's `Valid()` says three things. Its first stage is wired to its
    own inputs and its NotGate to the first stage. Both sub-gates are
    themselves `Valid()`. Neither input is one of the objects it owns.
  - A separate ghost function `Repr()` is the gate and its two sub-gates. It
    is the set of objects that `Tick` may modify.
  - Each composite `Tick` is proved against `Composite.Tick`.
- `Scenarios` (scenarios.dfy) is client code. It shows what follows from the
  contracts alone: the frame of a setter, a repeated `Tick`, and a fresh gate
  driven for one round.

## Model

| member | source | states |
|---|---|---|
| Logic.Not | Program.cs:52 | NotGate's function: the output digit is 1 minus the input digit |
| Logic.And | Program.cs:61 | AndGate's function: the output digit is the product of the input digits |
| Logic.Or | Program.cs:70 | OrGate's function: the output digit is the sum less the product of the input digits |
| Logic.Xor | Program.cs:79 | XorGate's function: the output digit is the sum of the input digits modulo 2 |
| Logic.Nand | Program.cs:96-101 | what NandGate computes: 1 minus the product of the input digits |
| Logic.Nor | Program.cs:118-123 | what NorGate computes: 1 exactly when both input digits are 0 |
| Logic.Nxor | Program.cs:140-145 | what NxorGate computes: 1 exactly when the input digits agree |
| Composite.Tick | Program.cs:96-145 | a composite tick (first stage, then NotGate, then cache) leaves every cached value settled on the inputs, and the output is Nand, Nor or Nxor of the inputs, whatever was cached before |
| Composite.TickReversed | Program.cs:96-145 | with the two sub-gate ticks swapped, the output is the negation of the previous round's first-stage value |
| Composite.TickIdempotent | Program.cs:42 | a tick leaves a composite unchanged exactly when it is already settled on the inputs, so a second tick with the same inputs changes nothing |
| Composite.ReversedAgreesIff | Program.cs:96-145 | the swapped order gives the right output if and only if the previous round's first-stage value already matches the new inputs |
| Composite.Outputs | Program.cs:17-22 | setting the inputs, ticking once and reading the value, round after round, gives exactly one output per round |
| Composite.OutputsReversed | Program.cs:96-145 | ticking in the swapped order once per round gives exactly one output per round |
| Composite.OutputsFollowInputs | Program.cs:96-145 | in dependency order, the output of every round is the composite function of that round's inputs, from any cached state |
| Composite.AfterIsSettled | Program.cs:96-145 | after one or more rounds, the first stage, the NotGate and the composite all hold the values their functions give for the last round's inputs |
| Composite.ReversedLagsOneRound | Program.cs:96-145 | in the swapped order, every round's output is the negated first-stage value of the round before, or of the cached state in the first round |
| Composite.ReversedIsStale | Program.cs:96-145 | for each composite, some first round of inputs makes the swapped order differ from the composite's function, starting from the initial state |
| ArkeLogic.Line.Value | Program.cs:28 | the stored value of the input, or the cached Value of the gate, that the line names |
| ArkeLogic.ExternalInput.constructor | Program.cs:31-33 | a new input reads false |
| ArkeLogic.ExternalInput.SetValue | Program.cs:32 | after setting v the input reads v, and no other object changes |
| ArkeLogic.NotGate.constructor | Program.cs:50 | the input is wired as given, the gate does not read itself, and Value is false before any tick |
| ArkeLogic.NotGate.OnTick | Program.cs:52 | the negation of the input line's current value: its digit is 1 minus the input's digit |
| ArkeLogic.NotGate.Tick | Program.cs:42 | the cached Value becomes the negation of the input's current value, and the input is not changed |
| ArkeLogic.AndGate.constructor | Program.cs:59 | the inputs are wired as given, and Value is false before any tick |
| ArkeLogic.AndGate.OnTick | Program.cs:61 | the conjunction of the input lines' current values: its digit is the product of theirs |
| ArkeLogic.AndGate.Tick | Program.cs:61 | the cached Value becomes the conjunction of the inputs' current values, and the inputs are not changed |
| ArkeLogic.OrGate.constructor | Program.cs:68 | the inputs are wired as given, and Value is false before any tick |
| ArkeLogic.OrGate.OnTick | Program.cs:70 | the disjunction of the input lines' current values: its digit is their sum less their product |
| ArkeLogic.OrGate.Tick | Program.cs:70 | the cached Value becomes the disjunction of the inputs' current values, and the inputs are not changed |
| ArkeLogic.XorGate.constructor | Program.cs:77 | the inputs are wired as given, and Value is false before any tick |
| ArkeLogic.XorGate.OnTick | Program.cs:79 | the exclusive or of the input lines' current values: its digit is their sum modulo 2 |
| ArkeLogic.XorGate.Tick | Program.cs:79 | the cached Value becomes the exclusive or of the inputs' current values, and the inputs are not changed |
| ArkeLogic.NandGate.constructor | Program.cs:89-94 | the AndGate is wired to the gate's own inputs and the NotGate to the AndGate; both are fresh and owned, and every cached value is false |
| ArkeLogic.NandGate.OnTick | Program.cs:96-101 | the AndGate is ticked on the inputs, then the NotGate reads the AndGate's new value, and the NotGate's value is returned |
| ArkeLogic.NandGate.Tick | Program.cs:42 | the new cached values are one composite tick of the old ones, Value is ¬(A∧B), only the gate and its sub-gates change, and a tick on a settled gate changes nothing |
| ArkeLogic.NorGate.constructor | Program.cs:111-116 | the OrGate is wired to the gate's own inputs and the NotGate to the OrGate; both are fresh and owned, and every cached value is false |
| ArkeLogic.NorGate.OnTick | Program.cs:118-123 | the OrGate is ticked on the inputs, then the NotGate reads the OrGate's new value, and the NotGate's value is returned |
| ArkeLogic.NorGate.Tick | Program.cs:104-124 | the new cached values are one composite tick of the old ones, Value is ¬(A∨B), only the gate and its sub-gates change, and a tick on a settled gate changes nothing |
| ArkeLogic.NxorGate.constructor | Program.cs:133-138 | the XorGate is wired to the gate's own inputs and the NotGate to the XorGate; both are fresh and owned, and every cached value is false |
| ArkeLogic.NxorGate.OnTick | Program.cs:140-145 | the XorGate is ticked on the inputs, then the NotGate reads the XorGate's new value, and the NotGate's value is returned |
| ArkeLogic.NxorGate.Tick | Program.cs:126-146 | the new cached values are one composite tick of the old ones, Value is ¬(A⊕B), only the gate and its sub-gates change, and a tick on a settled gate changes nothing |
| Scenarios.SetWithoutTick | Program.cs:40 | setting an input changes no gate: a primitive and a composite gate wired to that input keep the values cached at their last tick |
| Scenarios.TickTwice | Program.cs:42 | two ticks with the inputs held read the same output, ¬(A∨B), and leave the gate settled |
| Scenarios.FreshNxor | Program.cs:126-146 | a new NxorGate on two new inputs reads false before any tick, and after the inputs are set to u and v and one tick it reads ¬(u⊕v) |

## Left out

- `Program.Main` (Program.cs:5-24) is the console driver. Reading keys, turning
  a `'1'` key into `true` and printing are I/O and are not modelled.
- The abstract classes `IC` and `Gate` and the `ILine` interface are not
  separate types. Each gate class carries its own `Value` field and its own
  `Tick()`, which assigns `OnTick()` to `Value`, as `Gate.Tick` does. `ILine`
  becomes the datatype `Line`, with one case per class that implements it.
- ArkeLogic.NandGate.Tick, ArkeLogic.NorGate.Tick, ArkeLogic.NxorGate.Tick: the
  private setter of `Gate.Value` cannot be expressed. Any method whose
  `modifies` clause names a gate could write its `Value`. Only the frames of
  the methods modelled here state that nothing but `Tick` changes it.
- The constructors do not check for null inputs, and neither does the source.
  Inputs are non-null references, and no failure path is modelled.
- Half and full adders do not appear in the source, so they are not part of
  this model.
- The library is strictly sequential, so concurrency is not modelled.
