/**
  What a client of the gate library can conclude from the contracts alone.
 */
module Scenarios {
  import Logic
  import Composite
  import opened ArkeLogic

  /**
    Setting an input line changes only that line: a gate wired to it keeps
    the value cached at its last Tick until it is ticked again.
   */
  method SetWithoutTick(x: ExternalInput, v: bool, g: AndGate, h: NandGate)
    requires g.A == OfInput(x) && h.A == OfInput(x)
    modifies x
    ensures OfInput(x).Value() == v
    ensures g.Value == old(g.Value)
    ensures h.State() == old(h.State())
  {
    x.SetValue(v);
  }

  /**
    Two Ticks in a row with the inputs held read the same output, and the
    second leaves every cached value of the composite as the first left it.
   */
  method TickTwice(g: NorGate) returns (first: bool, second: bool)
    requires g.Valid()
    modifies g.Repr()
    ensures first == second == Logic.Nor(g.A.Value(), g.B.Value())
    ensures Composite.Settled(Composite.Nor, g.State(), g.A.Value(), g.B.Value())
  {
    g.Tick();
    first := g.Value;
    ghost var settled := g.State();
    g.Tick();
    assert g.State() == settled;
    second := g.Value;
  }

  /**
    A composite driven by two fresh input lines: before any Tick every
    cached value is false; after the inputs are set and the gate ticked, its
    output is the Nxor of what was set.
   */
  method FreshNxor(u: bool, v: bool) returns (before: bool, after: bool)
    ensures before == false
    ensures after == Logic.Nxor(u, v)
  {
    var a := new ExternalInput();
    var b := new ExternalInput();
    var g := new NxorGate(OfInput(a), OfInput(b));
    before := g.Value;
    a.SetValue(u);
    b.SetValue(v);
    g.Tick();
    after := g.Value;
  }
}
