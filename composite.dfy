/**
  The step protocol of a composite gate (NandGate, NorGate, NxorGate) on
  values: the three cached booleans it owns, one Tick in dependency order
  (first stage, then the inverter, then the composite's own cache), the
  same Tick with the two sub-gate steps swapped, and runs of Ticks over a
  sequence of rounds of input values.
 */
module Composite {
  import Logic

  /** Which composite gate: its first stage is an And, an Or or a Xor gate. */
  datatype Kind = Nand | Nor | Nxor

  /** The first-stage gate's boolean function. */
  function FirstStage(k: Kind, a: bool, b: bool): bool
  {
    match k
    case Nand => Logic.And(a, b)
    case Nor => Logic.Or(a, b)
    case Nxor => Logic.Xor(a, b)
  }

  /** The function the composite is meant to compute. */
  function Output(k: Kind, a: bool, b: bool): bool
  {
    match k
    case Nand => Logic.Nand(a, b)
    case Nor => Logic.Nor(a, b)
    case Nxor => Logic.Nxor(a, b)
  }

  /**
    The cached values of a composite: its first-stage gate's, its inner
    NotGate's, and its own.
   */
  datatype State = State(first: bool, inverter: bool, value: bool)

  /** Every cached value starts out false, before any Tick. */
  const Unticked := State(false, false, false)

  /** Each cached value agrees with what its gate computes from the inputs a and b. */
  ghost predicate Settled(k: Kind, s: State, a: bool, b: bool)
  {
    && s.first == FirstStage(k, a, b)
    && s.inverter == Logic.Not(s.first)
    && s.value == s.inverter
  }

  /**
    One Tick in dependency order: the first stage reads the inputs, the
    NotGate then reads the first stage's new value, and the composite caches
    the NotGate's value.
   */
  function Tick(k: Kind, s: State, a: bool, b: bool): (r: State)
    ensures Settled(k, r, a, b)
    ensures r.value == Output(k, a, b)
  {
    var staged := s.(first := FirstStage(k, a, b));
    var inverted := staged.(inverter := Logic.Not(staged.first));
    inverted.(value := inverted.inverter)
  }

  /**
    The same Tick with the two sub-gate steps swapped: the NotGate reads the
    first stage's value from the previous round.
   */
  function TickReversed(k: Kind, s: State, a: bool, b: bool): (r: State)
    ensures r.first == FirstStage(k, a, b)
    ensures r.value == Logic.Not(s.first)
    ensures r.value == r.inverter
  {
    var inverted := s.(inverter := Logic.Not(s.first));
    var staged := inverted.(first := FirstStage(k, a, b));
    staged.(value := staged.inverter)
  }

  /** A settled composite is left as it is by a further Tick with the same inputs. */
  lemma TickIdempotent(k: Kind, s: State, a: bool, b: bool)
    ensures Settled(k, s, a, b) <==> Tick(k, s, a, b) == s
    ensures Tick(k, Tick(k, s, a, b), a, b) == Tick(k, s, a, b)
  {
  }

  /**
    The swapped order gives the right output exactly when the first stage's
    cached value from the previous round already matches the new inputs.
   */
  lemma ReversedAgreesIff(k: Kind, s: State, a: bool, b: bool)
    ensures TickReversed(k, s, a, b).value == Tick(k, s, a, b).value <==> s.first == FirstStage(k, a, b)
  {
  }

  /** One round of inputs: the values of the two external input lines. */
  type Round = (bool, bool)

  /** The state after ticking once per round, the inputs set anew before each Tick. */
  function After(k: Kind, s: State, rounds: seq<Round>): State
    decreases |rounds|
  {
    if rounds == [] then s
    else After(k, Tick(k, s, rounds[0].0, rounds[0].1), rounds[1..])
  }

  /** The composite's value read after each round's Tick. */
  function Outputs(k: Kind, s: State, rounds: seq<Round>): (outs: seq<bool>)
    ensures |outs| == |rounds|
    decreases |rounds|
  {
    if rounds == [] then []
    else
      var next := Tick(k, s, rounds[0].0, rounds[0].1);
      [next.value] + Outputs(k, next, rounds[1..])
  }

  /** The same outputs when every Tick runs the two sub-gates in the swapped order. */
  function OutputsReversed(k: Kind, s: State, rounds: seq<Round>): (outs: seq<bool>)
    ensures |outs| == |rounds|
    decreases |rounds|
  {
    if rounds == [] then []
    else
      var next := TickReversed(k, s, rounds[0].0, rounds[0].1);
      [next.value] + OutputsReversed(k, next, rounds[1..])
  }

  /**
    Ticked in dependency order (first stage, then the NotGate, then the
    composite's cache), every round's output is the composite's
    function of that round's inputs, whatever was cached before.
   */
  lemma {:induction false} OutputsFollowInputs(k: Kind, s: State, rounds: seq<Round>, i: nat)
    requires i < |rounds|
    ensures Outputs(k, s, rounds)[i] == Output(k, rounds[i].0, rounds[i].1)
    decreases |rounds|
  {
    if i > 0 {
      OutputsFollowInputs(k, Tick(k, s, rounds[0].0, rounds[0].1), rounds[1..], i - 1);
    }
  }

  /** After at least one round, the whole composite is settled on the last round's inputs. */
  lemma {:induction false} AfterIsSettled(k: Kind, s: State, rounds: seq<Round>)
    requires rounds != []
    ensures Settled(k, After(k, s, rounds), rounds[|rounds| - 1].0, rounds[|rounds| - 1].1)
    decreases |rounds|
  {
    if |rounds| > 1 {
      AfterIsSettled(k, Tick(k, s, rounds[0].0, rounds[0].1), rounds[1..]);
    }
  }

  /**
    Ticked in the swapped order, every output is one round stale: it is the
    negated first-stage value of the round before (of the cached state in the
    first round).
   */
  lemma {:induction false} ReversedLagsOneRound(k: Kind, s: State, rounds: seq<Round>, i: nat)
    requires i < |rounds|
    ensures i == 0 ==> OutputsReversed(k, s, rounds)[i] == Logic.Not(s.first)
    ensures i > 0 ==> OutputsReversed(k, s, rounds)[i] == Logic.Not(FirstStage(k, rounds[i - 1].0, rounds[i - 1].1))
    decreases |rounds|
  {
    if i > 0 {
      ReversedLagsOneRound(k, TickReversed(k, s, rounds[0].0, rounds[0].1), rounds[1..], i - 1);
    }
  }

  /**
    The swapped order is observably wrong for every composite: from the
    unticked state, the first round below already gives a wrong output.
   */
  lemma ReversedIsStale(k: Kind)
    ensures exists a: bool, b: bool :: TickReversed(k, Unticked, a, b).value != Output(k, a, b)
  {
    var a, b := true, k == Nand;
    assert TickReversed(k, Unticked, a, b).value != Output(k, a, b);
  }
}
