/**
 * The scalar units of the circuit and its three kinds of gate.
 *
 * A gate's `Forward` records its input units and a fresh output unit on the
 * gate; its `Backward`, which needs those references, adds the gate's local
 * derivative times the output's gradient into each input's `grad`.
 */
module Gates {
  import opened Sigmoid

  /** A wire of the circuit: a value and the gradient accumulated into it. */
  class Unit {
    var value: real
    var grad: real

    constructor (value: real, grad: real)
      ensures this.value == value && this.grad == grad
    {
      this.value := value;
      this.grad := grad;
    }
  }

  /** Gate computing `u0 * u1`. */
  class MultiplyGate {
    var u0: Unit?
    var u1: Unit?
    var utop: Unit?

    constructor ()
      ensures u0 == null && u1 == null && utop == null
    {
      u0, u1, utop := null, null, null;
    }

    /** The state `Forward` leaves behind: both inputs and the output are
        recorded, and the output is a unit of its own. */
    ghost predicate Valid()
      reads this
    {
      u0 != null && u1 != null && utop != null && utop != u0 && utop != u1
    }

    method Forward(u0: Unit, u1: Unit) returns (utop: Unit)
      modifies this
      ensures Valid() && this.u0 == u0 && this.u1 == u1 && this.utop == utop
      ensures fresh(utop) && utop.value == u0.value * u1.value && utop.grad == 0.0
    {
      this.u0 := u0;
      this.u1 := u1;
      utop := new Unit(u0.value * u1.value, 0.0);
      this.utop := utop;
    }

    /** Product rule: each input's grad grows by the other input's value times
        the output's grad; when both inputs are one unit, it receives both
        terms. */
    method Backward()
      requires Valid()
      modifies u0`grad, u1`grad
      ensures u0 != u1 ==> u0.grad == old(u0.grad) + u1.value * utop.grad
      ensures u0 != u1 ==> u1.grad == old(u1.grad) + u0.value * utop.grad
      ensures u0 == u1 ==> u0.grad == old(u0.grad) + u1.value * utop.grad + u0.value * utop.grad
    {
      u0.grad := u0.grad + u1.value * utop.grad;
      u1.grad := u1.grad + u0.value * utop.grad;
    }
  }

  /** Gate computing `u0 + u1`. */
  class AddGate {
    var u0: Unit?
    var u1: Unit?
    var utop: Unit?

    constructor ()
      ensures u0 == null && u1 == null && utop == null
    {
      u0, u1, utop := null, null, null;
    }

    ghost predicate Valid()
      reads this
    {
      u0 != null && u1 != null && utop != null && utop != u0 && utop != u1
    }

    method Forward(u0: Unit, u1: Unit) returns (utop: Unit)
      modifies this
      ensures Valid() && this.u0 == u0 && this.u1 == u1 && this.utop == utop
      ensures fresh(utop) && utop.value == u0.value + u1.value && utop.grad == 0.0
    {
      this.u0 := u0;
      this.u1 := u1;
      utop := new Unit(this.u0.value + this.u1.value, 0.0);
      this.utop := utop;
    }

    /** The derivative of a sum is 1 in each addend: each input's grad grows by
        the output's grad, twice over when both inputs are one unit. */
    method Backward()
      requires Valid()
      modifies u0`grad, u1`grad
      ensures u0 != u1 ==> u0.grad == old(u0.grad) + utop.grad
      ensures u0 != u1 ==> u1.grad == old(u1.grad) + utop.grad
      ensures u0 == u1 ==> u0.grad == old(u0.grad) + utop.grad + utop.grad
    {
      u0.grad := u0.grad + 1.0 * utop.grad;
      u1.grad := u1.grad + 1.0 * utop.grad;
    }
  }

  /** Gate computing `sig(u0)` for its squashing function `sig`. */
  class SigmoidGate {
    const sig: real -> real
    var u0: Unit?
    var utop: Unit?

    constructor (sig: real -> real)
      ensures this.sig == sig && u0 == null && utop == null
    {
      this.sig := sig;
      u0, utop := null, null;
    }

    ghost predicate Valid()
      reads this
    {
      u0 != null && utop != null && utop != u0
    }

    method Forward(u0: Unit) returns (utop: Unit)
      modifies this
      ensures Valid() && this.u0 == u0 && this.utop == utop
      ensures fresh(utop) && utop.value == sig(u0.value) && utop.grad == 0.0
    {
      this.u0 := u0;
      utop := new Unit(sig(this.u0.value), 0.0);
      this.utop := utop;
    }

    /** The input's grad grows by `s * (1 - s)` times the output's grad, where
        `s` is the sigmoid recomputed from the input's current value; while
        that value is the one `Forward` saw, this is the output's own
        `value * (1 - value)`. */
    method Backward()
      requires Valid()
      modifies u0`grad
      ensures u0.grad == old(u0.grad) + LocalDerivative(sig(u0.value)) * utop.grad
      ensures utop.value == sig(u0.value) ==>
                u0.grad == old(u0.grad) + utop.value * (1.0 - utop.value) * utop.grad
    {
      var s := sig(u0.value);
      var derivativeTerm := s * (1.0 - s);
      u0.grad := u0.grad + derivativeTerm * utop.grad;
    }
  }

  /** A multiply gate fed one unit twice computes its square, and backward
      leaves on that unit the derivative of the square, `2 * v`. */
  method SquareByAliasing(v: real) returns (value: real, grad: real)
    ensures value == v * v && grad == 2.0 * v
  {
    var u := new Unit(v, 0.0);
    var g := new MultiplyGate();
    var top := g.Forward(u, u);
    top.grad := 1.0;
    g.Backward();
    value, grad := top.value, u.grad;
  }

  /** An add gate fed one unit twice computes `2 * v`, and backward leaves on
      that unit the derivative 2. */
  method DoubleByAliasing(v: real) returns (value: real, grad: real)
    ensures value == 2.0 * v && grad == 2.0
  {
    var u := new Unit(v, 0.0);
    var g := new AddGate();
    var top := g.Forward(u, u);
    top.grad := 1.0;
    g.Backward();
    value, grad := top.value, u.grad;
  }
}
