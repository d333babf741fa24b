/**
  The gate library of ArkeLogic: settable input lines, the primitive gates
  Not, And, Or and Xor, and the composite gates Nand, Nor and Nxor, each of
  which owns a first-stage gate and a NotGate wired to it.

  Every gate caches its output in `Value`, which only its `Tick` changes;
  the wiring is made of constant fields, fixed by the constructor.
 */
module ArkeLogic {
  import Logic
  import Composite

  /**
    A readable signal (the ILine interface): a reference to an external input
    or to any gate, read through that object's `Value`.
   */
  datatype Line =
    | OfInput(input: ExternalInput)
    | OfNot(not: NotGate)
    | OfAnd(and: AndGate)
    | OfOr(or: OrGate)
    | OfXor(xor: XorGate)
    | OfNand(nand: NandGate)
    | OfNor(nor: NorGate)
    | OfNxor(nxor: NxorGate)
  {
    /** The one object whose state this signal shows. */
    function Source(): object
    {
      match this
      case OfInput(x) => x
      case OfNot(g) => g
      case OfAnd(g) => g
      case OfOr(g) => g
      case OfXor(g) => g
      case OfNand(g) => g
      case OfNor(g) => g
      case OfNxor(g) => g
    }

    /** The signal's current value: the input's stored value or the gate's cached one. */
    function Value(): (r: bool)
      reads Source()
      ensures OfInput? ==> r == input.Value
      ensures OfNot? ==> r == not.Value
      ensures OfAnd? ==> r == and.Value
      ensures OfOr? ==> r == or.Value
      ensures OfXor? ==> r == xor.Value
      ensures OfNand? ==> r == nand.Value
      ensures OfNor? ==> r == nor.Value
      ensures OfNxor? ==> r == nxor.Value
    {
      match this
      case OfInput(x) => x.Value
      case OfNot(g) => g.Value
      case OfAnd(g) => g.Value
      case OfOr(g) => g.Value
      case OfXor(g) => g.Value
      case OfNand(g) => g.Value
      case OfNor(g) => g.Value
      case OfNxor(g) => g.Value
    }
  }

  /** A line whose value its owner sets directly. */
  class ExternalInput {
    var Value: bool

    /** A new input reads false until it is set. */
    constructor ()
      ensures Value == false
    {
      Value := false;
    }

    /** The property setter: stores v and changes no other object. */
    method SetValue(v: bool)
      modifies this
      ensures Value == v
    {
      Value := v;
    }
  }

  class NotGate {
    const I: Line
    var Value: bool

    /** The gate does not read its own output. */
    ghost predicate Valid()
    {
      I.Source() != this
    }

    constructor (i: Line)
      ensures Valid() && I == i
      ensures Value == false
    {
      I := i;
      Value := false;
    }

    /** The gate's boolean function of the current input value. */
    function OnTick(): (r: bool)
      reads I.Source()
      ensures Logic.Bit(r) == 1 - Logic.Bit(I.Value())
    {
      Logic.Not(I.Value())
    }

    /** Recomputes the cached value from the input's current value; the input is not touched. */
    method Tick()
      requires Valid()
      modifies this
      ensures Value == Logic.Not(I.Value())
      ensures I.Value() == old(I.Value())
    {
      Value := OnTick();
    }
  }

  class AndGate {
    const A: Line
    const B: Line
    var Value: bool

    ghost predicate Valid()
    {
      A.Source() != this && B.Source() != this
    }

    constructor (a: Line, b: Line)
      ensures Valid() && A == a && B == b
      ensures Value == false
    {
      A, B := a, b;
      Value := false;
    }

    /** The gate's boolean function of the inputs' current values. */
    function OnTick(): (r: bool)
      reads A.Source(), B.Source()
      ensures Logic.Bit(r) == Logic.Bit(A.Value()) * Logic.Bit(B.Value())
    {
      Logic.And(A.Value(), B.Value())
    }

    method Tick()
      requires Valid()
      modifies this
      ensures Value == Logic.And(A.Value(), B.Value())
      ensures A.Value() == old(A.Value()) && B.Value() == old(B.Value())
    {
      Value := OnTick();
    }
  }

  class OrGate {
    const A: Line
    const B: Line
    var Value: bool

    ghost predicate Valid()
    {
      A.Source() != this && B.Source() != this
    }

    constructor (a: Line, b: Line)
      ensures Valid() && A == a && B == b
      ensures Value == false
    {
      A, B := a, b;
      Value := false;
    }

    /** The gate's boolean function of the inputs' current values. */
    function OnTick(): (r: bool)
      reads A.Source(), B.Source()
      ensures Logic.Bit(r) == Logic.Bit(A.Value()) + Logic.Bit(B.Value()) - Logic.Bit(A.Value()) * Logic.Bit(B.Value())
    {
      Logic.Or(A.Value(), B.Value())
    }

    method Tick()
      requires Valid()
      modifies this
      ensures Value == Logic.Or(A.Value(), B.Value())
      ensures A.Value() == old(A.Value()) && B.Value() == old(B.Value())
    {
      Value := OnTick();
    }
  }

  class XorGate {
    const A: Line
    const B: Line
    var Value: bool

    ghost predicate Valid()
    {
      A.Source() != this && B.Source() != this
    }

    constructor (a: Line, b: Line)
      ensures Valid() && A == a && B == b
      ensures Value == false
    {
      A, B := a, b;
      Value := false;
    }

    /** The gate's boolean function of the inputs' current values. */
    function OnTick(): (r: bool)
      reads A.Source(), B.Source()
      ensures Logic.Bit(r) == (Logic.Bit(A.Value()) + Logic.Bit(B.Value())) % 2
    {
      Logic.Xor(A.Value(), B.Value())
    }

    method Tick()
      requires Valid()
      modifies this
      ensures Value == Logic.Xor(A.Value(), B.Value())
      ensures A.Value() == old(A.Value()) && B.Value() == old(B.Value())
    {
      Value := OnTick();
    }
  }

  class NandGate {
    const A: Line
    const B: Line
    const andGate: AndGate
    const notGate: NotGate
    var Value: bool

    /** The objects a Tick may change: the gate and the two sub-gates it owns. */
    ghost function Repr(): set<object>
    {
      {this, andGate, notGate}
    }

    /**
      The first stage reads the composite's own inputs, the NotGate reads the
      first stage, and neither input is one of the objects the gate owns.
     */
    ghost predicate Valid()
    {
      && andGate.A == A && andGate.B == B && andGate.Valid()
      && notGate.I == OfAnd(andGate) && notGate.Valid()
      && A.Source() !in Repr() && B.Source() !in Repr()
    }

    /** The cached values of the first stage, the NotGate and the gate itself. */
    ghost function State(): Composite.State
      reads this, andGate, notGate
    {
      Composite.State(andGate.Value, notGate.Value, Value)
    }

    constructor (a: Line, b: Line)
      ensures Valid() && A == a && B == b
      ensures fresh(Repr())
      ensures State() == Composite.Unticked
    {
      A, B := a, b;
      var first := new AndGate(a, b);
      andGate := first;
      notGate := new NotGate(OfAnd(first));
      Value := false;
    }

    /** Ticks the first stage, then the NotGate, and returns the NotGate's new value. */
    method OnTick() returns (r: bool)
      requires Valid()
      modifies andGate, notGate
      ensures andGate.Value == Logic.And(A.Value(), B.Value())
      ensures notGate.Value == Logic.Not(andGate.Value)
      ensures r == notGate.Value
      ensures A.Value() == old(A.Value()) && B.Value() == old(B.Value())
    {
      andGate.Tick();
      notGate.Tick();
      r := notGate.Value;
    }

    /**
      One round: the new cached values are those of one Tick of the
      composite's step protocol, so the output is the Nand of the inputs; the
      inputs are not touched, and a second Tick with unchanged inputs changes
      nothing.
     */
    method Tick()
      requires Valid()
      modifies Repr()
      ensures State() == Composite.Tick(Composite.Nand, old(State()), A.Value(), B.Value())
      ensures Value == Logic.Nand(A.Value(), B.Value())
      ensures A.Value() == old(A.Value()) && B.Value() == old(B.Value())
      ensures old(Composite.Settled(Composite.Nand, State(), A.Value(), B.Value())) ==> State() == old(State())
    {
      ghost var before := State();
      Value := OnTick();
      Composite.TickIdempotent(Composite.Nand, before, A.Value(), B.Value());
    }
  }

  class NorGate {
    const A: Line
    const B: Line
    const orGate: OrGate
    const notGate: NotGate
    var Value: bool

    ghost function Repr(): set<object>
    {
      {this, orGate, notGate}
    }

    ghost predicate Valid()
    {
      && orGate.A == A && orGate.B == B && orGate.Valid()
      && notGate.I == OfOr(orGate) && notGate.Valid()
      && A.Source() !in Repr() && B.Source() !in Repr()
    }

    ghost function State(): Composite.State
      reads this, orGate, notGate
    {
      Composite.State(orGate.Value, notGate.Value, Value)
    }

    constructor (a: Line, b: Line)
      ensures Valid() && A == a && B == b
      ensures fresh(Repr())
      ensures State() == Composite.Unticked
    {
      A, B := a, b;
      var first := new OrGate(a, b);
      orGate := first;
      notGate := new NotGate(OfOr(first));
      Value := false;
    }

    method OnTick() returns (r: bool)
      requires Valid()
      modifies orGate, notGate
      ensures orGate.Value == Logic.Or(A.Value(), B.Value())
      ensures notGate.Value == Logic.Not(orGate.Value)
      ensures r == notGate.Value
      ensures A.Value() == old(A.Value()) && B.Value() == old(B.Value())
    {
      orGate.Tick();
      notGate.Tick();
      r := notGate.Value;
    }

    method Tick()
      requires Valid()
      modifies Repr()
      ensures State() == Composite.Tick(Composite.Nor, old(State()), A.Value(), B.Value())
      ensures Value == Logic.Nor(A.Value(), B.Value())
      ensures A.Value() == old(A.Value()) && B.Value() == old(B.Value())
      ensures old(Composite.Settled(Composite.Nor, State(), A.Value(), B.Value())) ==> State() == old(State())
    {
      ghost var before := State();
      Value := OnTick();
      Composite.TickIdempotent(Composite.Nor, before, A.Value(), B.Value());
    }
  }

  class NxorGate {
    const A: Line
    const B: Line
    const xorGate: XorGate
    const notGate: NotGate
    var Value: bool

    ghost function Repr(): set<object>
    {
      {this, xorGate, notGate}
    }

    ghost predicate Valid()
    {
      && xorGate.A == A && xorGate.B == B && xorGate.Valid()
      && notGate.I == OfXor(xorGate) && notGate.Valid()
      && A.Source() !in Repr() && B.Source() !in Repr()
    }

    ghost function State(): Composite.State
      reads this, xorGate, notGate
    {
      Composite.State(xorGate.Value, notGate.Value, Value)
    }

    constructor (a: Line, b: Line)
      ensures Valid() && A == a && B == b
      ensures fresh(Repr())
      ensures State() == Composite.Unticked
    {
      A, B := a, b;
      var first := new XorGate(a, b);
      xorGate := first;
      notGate := new NotGate(OfXor(first));
      Value := false;
    }

    method OnTick() returns (r: bool)
      requires Valid()
      modifies xorGate, notGate
      ensures xorGate.Value == Logic.Xor(A.Value(), B.Value())
      ensures notGate.Value == Logic.Not(xorGate.Value)
      ensures r == notGate.Value
      ensures A.Value() == old(A.Value()) && B.Value() == old(B.Value())
    {
      xorGate.Tick();
      notGate.Tick();
      r := notGate.Value;
    }

    method Tick()
      requires Valid()
      modifies Repr()
      ensures State() == Composite.Tick(Composite.Nxor, old(State()), A.Value(), B.Value())
      ensures Value == Logic.Nxor(A.Value(), B.Value())
      ensures A.Value() == old(A.Value()) && B.Value() == old(B.Value())
      ensures old(Composite.Settled(Composite.Nxor, State(), A.Value(), B.Value())) ==> State() == old(State())
    {
      ghost var before := State();
      Value := OnTick();
      Composite.TickIdempotent(Composite.Nxor, before, A.Value(), B.Value());
    }
  }
}
