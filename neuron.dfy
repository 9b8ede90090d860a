/**
 * The single neuron `sig(a*x + b*y + c)` wired from two multiply gates, two
 * add gates and one sigmoid gate, with the program's driver: one forward
 * pass, seeding the output's gradient, the five backward calls in reverse
 * construction order, one gradient-ascent update of the inputs and a second
 * forward pass.
 */
module SingleNeuron {
  import opened Sigmoid
  import opened Gates

  /** One real per input unit of the neuron, in the order a, b, c, x, y:
      a snapshot of the inputs' values or of their gradients. */
  datatype Inputs = Inputs(a: real, b: real, c: real, x: real, y: real)

  /** The step size of the update. */
  const StepSize: real := 0.01

  /** What the sigmoid gate receives: `a*x + b*y + c`. */
  function PreActivation(v: Inputs): real
  {
    v.a * v.x + v.b * v.y + v.c
  }

  /** The neuron's output for the given input values. */
  function Output(sig: real -> real, v: Inputs): real
  {
    sig(PreActivation(v))
  }

  /** The partial derivatives of `a*x + b*y + c` in a, b, c, x and y. */
  function Slopes(v: Inputs): Inputs
  {
    Inputs(v.x, v.y, 1.0, v.a, v.b)
  }

  /** `a*x + b*y + c` is linear in each input on its own: moving one input by
      `e` changes it by exactly `e` times that input's entry in Slopes. */
  lemma SlopesArePartialDerivatives(v: Inputs, e: real)
    ensures PreActivation(v.(a := v.a + e)) == PreActivation(v) + e * Slopes(v).a
    ensures PreActivation(v.(b := v.b + e)) == PreActivation(v) + e * Slopes(v).b
    ensures PreActivation(v.(c := v.c + e)) == PreActivation(v) + e * Slopes(v).c
    ensures PreActivation(v.(x := v.x + e)) == PreActivation(v) + e * Slopes(v).x
    ensures PreActivation(v.(y := v.y + e)) == PreActivation(v) + e * Slopes(v).y
  {
  }

  /** What the backward pass leaves on the inputs: `d` times the partial
      derivatives of `a*x + b*y + c`, with `d = s*(1-s)` at
      `s = sig(a*x + b*y + c)`. This is the chain-rule gradient of Output when
      `sig` is the logistic function (LocalDerivativeIsSlope); for another
      `sig`, `d` is only the gate's local-derivative term. */
  function ChainRule(sig: real -> real, v: Inputs): Inputs
  {
    var d := LocalDerivative(sig(PreActivation(v)));
    var g := Slopes(v);
    Inputs(g.a * d, g.b * d, g.c * d, g.x * d, g.y * d)
  }

  /** Componentwise sum: grads accumulated on top of earlier grads. */
  function Plus(v: Inputs, w: Inputs): Inputs
  {
    Inputs(v.a + w.a, v.b + w.b, v.c + w.c, v.x + w.x, v.y + w.y)
  }

  /** Each value moved by `h` times its gradient. */
  function Ascend(v: Inputs, g: Inputs, h: real): Inputs
  {
    Inputs(v.a + h * g.a, v.b + h * g.b, v.c + h * g.c, v.x + h * g.x, v.y + h * g.y)
  }

  /** A gradient-ascent step along `d` times the gradient of `a*x + b*y + c`
      strictly raises `a*x + b*y + c`, as long as `h * d <= 2`. */
  lemma AscentRaisesPreActivation(v: Inputs, d: real, h: real)
    requires 0.0 < d && 0.0 < h && h * d <= 2.0
    ensures PreActivation(Ascend(v, Inputs(v.x * d, v.y * d, d, v.a * d, v.b * d), h))
          > PreActivation(v)
  {
    var k := h * d;
    var sq, p := v.a * v.a + v.x * v.x + v.b * v.b + v.y * v.y, v.a * v.x + v.b * v.y;
    AscentGain(v, d, h);
    CrossTermBound(v.a, v.x);
    CrossTermBound(v.b, v.y);
    SmallStepGain(k, sq, p);
  }

  /** What the step along `d` times the gradient of `a*x + b*y + c` adds
      to `a*x + b*y + c`. */
  lemma AscentGain(v: Inputs, d: real, h: real)
    ensures PreActivation(Ascend(v, Inputs(v.x * d, v.y * d, d, v.a * d, v.b * d), h))
         == PreActivation(v)
            + Gain(h * d, v.a * v.a + v.x * v.x + v.b * v.b + v.y * v.y, v.a * v.x + v.b * v.y)
  {
    StepAlongPartners(v, d, h);
    GainIdentity(v.a, v.b, v.c, v.x, v.y, h * d);
  }

  /** The step along `d` times the gradient of `a*x + b*y + c` moves each
      input by `h * d` times its partner in the product, and `c` by `h * d`. */
  lemma StepAlongPartners(v: Inputs, d: real, h: real)
    ensures Ascend(v, Inputs(v.x * d, v.y * d, d, v.a * d, v.b * d), h)
         == Inputs(v.a + (h * d) * v.x, v.b + (h * d) * v.y, v.c + h * d,
                   v.x + (h * d) * v.a, v.y + (h * d) * v.b)
  {
    var w := Ascend(v, Inputs(v.x * d, v.y * d, d, v.a * d, v.b * d), h);
    assert w.a == v.a + (h * d) * v.x by { Reassociate(h, v.x, d); }
    assert w.b == v.b + (h * d) * v.y by { Reassociate(h, v.y, d); }
    assert w.x == v.x + (h * d) * v.a by { Reassociate(h, v.a, d); }
    assert w.y == v.y + (h * d) * v.b by { Reassociate(h, v.b, d); }
  }

  /** `h * (u * d)` regrouped as `(h * d) * u`. */
  lemma Reassociate(h: real, u: real, d: real)
    ensures h * (u * d) == (h * d) * u
  {
  }

  /** Equal factors give equal products (a step the solver is slow to take
      across heap states). */
  lemma SameProduct(p: real, q: real, p': real, q': real)
    requires p == p' && q == q'
    ensures p * q == p' * q'
  {
  }

  /** What a step of size `k` along the Slopes direction adds to the
      pre-activation, given the sum of squares and the cross terms. */
  function Gain(k: real, sq: real, p: real): real
  {
    k * sq + k * k * p + k
  }

  /** The pre-activation after moving each input by `k` times its partner
      in the product (and `c` by `k`) is the old one plus Gain. */
  lemma GainIdentity(a: real, b: real, c: real, x: real, y: real, k: real)
    ensures PreActivation(Inputs(a + k * x, b + k * y, c + k, x + k * a, y + k * b))
         == PreActivation(Inputs(a, b, c, x, y))
            + Gain(k, a * a + x * x + b * b + y * y, a * x + b * y)
  {
    assert (a + k * x) * (x + k * a) + (b + k * y) * (y + k * b) + (c + k)
        == (a * x + b * y + c) + k * (a * a + x * x + b * b + y * y) + k * k * (a * x + b * y) + k;
  }

  /** `2*u*t` is never below `-(u*u + t*t)`, since `(u + t)^2 >= 0`. */
  lemma CrossTermBound(u: real, t: real)
    ensures 2.0 * (u * t) >= -(u * u + t * t)
  {
    assert (u + t) * (u + t) == u * u + t * t + 2.0 * (u * t);
    NonNegativeProduct(if u + t >= 0.0 then u + t else -(u + t),
                       if u + t >= 0.0 then u + t else -(u + t));
  }

  lemma NonNegativeProduct(p: real, q: real)
    requires 0.0 <= p && 0.0 <= q
    ensures 0.0 <= p * q
  {
  }

  /** For `0 < k <= 2`, `sq >= 0` and `2*p >= -sq`, the gain
      `k*sq + k*k*p + k` is at least `k`. */
  lemma SmallStepGain(k: real, sq: real, p: real)
    requires 0.0 < k <= 2.0 && 0.0 <= sq && 2.0 * p >= -sq
    ensures Gain(k, sq, p) >= k
  {
    NonNegativeProduct(k * k, 2.0 * p + sq);
    assert 2.0 * (k * sq + k * k * p) == k * k * (2.0 * p + sq) + k * sq * (2.0 - k);
    NonNegativeProduct(k * sq, 2.0 - k);
    NonNegativeProduct(k, sq);
  }

  /** For an increasing squashing sigmoid, one gradient-ascent step along
      ChainRule with a step size in (0, 8] strictly raises the
      neuron's output. */
  lemma AscentImproves(sig: real -> real, v: Inputs, h: real)
    requires Squashing(sig) && Increasing(sig)
    requires 0.0 < h <= 8.0
    ensures Output(sig, Ascend(v, ChainRule(sig, v), h)) > Output(sig, v)
  {
    var p := PreActivation(v);
    var d := LocalDerivative(sig(p));
    assert 0.0 < sig(p) < 1.0;
    assert h * d <= 2.0 by {
      NonNegativeProduct(8.0 - h, d);
      NonNegativeProduct(h, 0.25 - d);
    }
    assert ChainRule(sig, v) == Inputs(v.x * d, v.y * d, d, v.a * d, v.b * d);
    AscentRaisesPreActivation(v, d, h);
    var q := PreActivation(Ascend(v, ChainRule(sig, v), h));
    assert p < q;
    assert sig(p) < sig(q);
  }

  /** Five pairwise distinct units. */
  ghost predicate DistinctInputs(a: Unit, b: Unit, c: Unit, x: Unit, y: Unit)
  {
    a != b && a != c && a != x && a != y && b != c &&
    b != x && b != y && c != x && c != y && x != y
  }

  /** The environment of the program's forward pass: the five input units
      and the five gates, created once and reused by every pass. */
  class Circuit {
    const sig: real -> real
    const a: Unit
    const b: Unit
    const c: Unit
    const x: Unit
    const y: Unit
    const mulg0: MultiplyGate
    const mulg1: MultiplyGate
    const addg0: AddGate
    const addg1: AddGate
    const sg0: SigmoidGate

    /** Five distinct input units, five distinct gates. */
    ghost predicate Valid()
    {
      sg0.sig == sig && DistinctInputs(a, b, c, x, y) &&
      mulg0 != mulg1 && addg0 != addg1
    }

    constructor (sig: real -> real, a: Unit, b: Unit, c: Unit, x: Unit, y: Unit)
      requires DistinctInputs(a, b, c, x, y)
      ensures Valid() && this.sig == sig
      ensures this.a == a && this.b == b && this.c == c && this.x == x && this.y == y
      ensures fresh(mulg0) && fresh(mulg1) && fresh(addg0) && fresh(addg1) && fresh(sg0)
    {
      this.sig := sig;
      this.a, this.b, this.c, this.x, this.y := a, b, c, x, y;
      mulg0 := new MultiplyGate();
      mulg1 := new MultiplyGate();
      addg0 := new AddGate();
      addg1 := new AddGate();
      sg0 := new SigmoidGate(sig);
    }

    function Values(): Inputs
      reads a, b, c, x, y
    {
      Inputs(a.value, b.value, c.value, x.value, y.value)
    }

    function Grads(): Inputs
      reads a, b, c, x, y
    {
      Inputs(a.grad, b.grad, c.grad, x.grad, y.grad)
    }

    /** The inputs and the output units of the last forward pass. */
    ghost function Repr(): set<Unit?>
      reads mulg0, mulg1, addg0, addg1, sg0
    {
      {a, b, c, x, y, mulg0.utop, mulg1.utop, addg0.utop, addg1.utop, sg0.utop}
    }

    /** The wiring a forward pass leaves in the gates: `ax = a*x`, `by = b*y`,
        `axpby = ax + by`, `axpbypc = axpby + c`, `s = sig(axpbypc)`, each
        intermediate a unit of its own. */
    ghost predicate Wired()
      reads mulg0, mulg1, addg0, addg1, sg0
    {
      Valid() &&
      mulg0.Valid() && mulg1.Valid() && addg0.Valid() && addg1.Valid() && sg0.Valid() &&
      mulg0.u0 == a && mulg0.u1 == x && mulg1.u0 == b && mulg1.u1 == y &&
      addg0.u0 == mulg0.utop && addg0.u1 == mulg1.utop &&
      addg1.u0 == addg0.utop && addg1.u1 == c &&
      sg0.u0 == addg1.utop &&
      Distinct(mulg0.utop, mulg1.utop, addg0.utop, addg1.utop, sg0.utop)
    }

    /** Each gate's output holds the value the gate computes from its
        inputs' values (with Wired, these are `a*x`, `b*y`, their sum,
        that sum plus `c` and the sigmoid of the last). */
    ghost predicate Computed()
      reads mulg0, mulg1, addg0, addg1, sg0, Repr()`value
      requires Wired()
    {
      mulg0.utop.value == mulg0.u0.value * mulg0.u1.value &&
      mulg1.utop.value == mulg1.u0.value * mulg1.u1.value &&
      addg0.utop.value == addg0.u0.value + addg0.u1.value &&
      addg1.utop.value == addg1.u0.value + addg1.u1.value &&
      sg0.utop.value == sig(sg0.u0.value)
    }

    /** The five intermediate units are distinct from each other and from
        the inputs. */
    ghost predicate Distinct(aX: Unit?, bY: Unit?, axpby: Unit?, axpbypc: Unit?, s: Unit?)
    {
      NotInput(aX) && NotInput(bY) && NotInput(axpby) && NotInput(axpbypc) && NotInput(s) &&
      aX != bY && aX != axpby && aX != axpbypc && aX != s &&
      bY != axpby && bY != axpbypc && bY != s &&
      axpby != axpbypc && axpby != s && axpbypc != s
    }

    ghost predicate NotInput(u: Unit?)
    {
      u != a && u != b && u != c && u != x && u != y
    }

    /** The intermediates feeding the backward pass still hold grad 0. */
    ghost predicate InnerGradsZero()
      reads mulg0, mulg1, addg0, addg1, sg0, Repr()`grad
      requires Wired()
    {
      mulg0.utop.grad == 0.0 && mulg1.utop.grad == 0.0 &&
      addg0.utop.grad == 0.0 && addg1.utop.grad == 0.0
    }

    /** forwardNeuron: the output unit holds `sig(a*x + b*y + c)` with grad 0;
        every intermediate is fresh with grad 0, and the inputs are not
        touched, so running it again on unchanged inputs gives the same
        value. */
    method Forward() returns (s: Unit)
      requires Valid()
      modifies mulg0, mulg1, addg0, addg1, sg0
      ensures Wired() && Computed() && InnerGradsZero()
      ensures Values() == old(Values()) && Grads() == old(Grads())
      ensures sg0.u0.value == PreActivation(Values())
      ensures s == sg0.utop && s.value == Output(sig, Values()) && s.grad == 0.0
      ensures fresh(mulg0.utop) && fresh(mulg1.utop) && fresh(addg0.utop)
      ensures fresh(addg1.utop) && fresh(sg0.utop)
    {
      ghost var v, g := Values(), Grads();
      var ax := mulg0.Forward(a, x);
      SameProduct(a.value, x.value, v.a, v.x);
      var bY := mulg1.Forward(b, y);
      SameProduct(b.value, y.value, v.b, v.y);
      var axpby := addg0.Forward(ax, bY);
      var axpbypc := addg1.Forward(axpby, c);
      assert axpbypc.value == PreActivation(v);
      s := sg0.Forward(axpbypc);
      assert Values() == v && Grads() == g;
      SameProduct(mulg0.u0.value, mulg0.u1.value, v.a, v.x);
      SameProduct(mulg1.u0.value, mulg1.u1.value, v.b, v.y);
    }

    /** Seed `s.grad = 1` and run backward on sg0, addg1, addg0, mulg1, mulg0:
        each input's grad grows by `d` times the partial derivative of
        `a*x + b*y + c` in that input (ChainRule), with `d = s*(1-s)` at
        `s = sig(a*x + b*y + c)`; every intermediate ends with `d`, and no
        value changes. */
    method Backpropagate()
      requires Wired() && InnerGradsZero()
      requires sg0.u0.value == PreActivation(Values())
      modifies a`grad, b`grad, c`grad, x`grad, y`grad
      modifies mulg0.utop`grad, mulg1.utop`grad, addg0.utop`grad, addg1.utop`grad, sg0.utop`grad
      ensures Values() == old(Values())
      ensures Grads() == Plus(old(Grads()), ChainRule(sig, Values()))
      ensures sg0.utop.grad == 1.0
      ensures var d := LocalDerivative(sig(PreActivation(Values())));
              addg1.utop.grad == d && addg0.utop.grad == d &&
              mulg0.utop.grad == d && mulg1.utop.grad == d
    {
      ghost var d := LocalDerivative(sig(PreActivation(Values())));
      ghost var g := ChainRule(sig, Values());
      assert g == Inputs(x.value * d, y.value * d, d, a.value * d, b.value * d);
      sg0.utop.grad := 1.0;
      sg0.Backward();
      assert addg1.utop.grad == d;
      addg1.Backward();
      assert addg0.utop.grad == d;
      addg0.Backward();
      assert mulg0.utop.grad == d && mulg1.utop.grad == d;
      mulg1.Backward();
      mulg0.Backward();
      assert Values() == old(Values());
    }

    /** The update step: every input value moves by StepSize times its grad;
        the grads stay as they are. */
    method Update()
      requires Valid()
      modifies a, b, c, x, y
      ensures Values() == Ascend(old(Values()), old(Grads()), StepSize)
      ensures Grads() == old(Grads())
    {
      a.value := a.value + StepSize * a.grad;
      b.value := b.value + StepSize * b.grad;
      c.value := c.value + StepSize * c.grad;
      x.value := x.value + StepSize * x.grad;
      y.value := y.value + StepSize * y.grad;
    }
  }

  /** The program's input values: a = 1, b = 2, c = -3, x = -1, y = 3. */
  const Start: Inputs := Inputs(1.0, 2.0, -3.0, -1.0, 3.0)

  /** At Start the pre-activation is 2 and ChainRule is `(-d, 3d, d, d, 2d)`,
      with `d = s*(1-s)` at `s = sig(2)`. */
  lemma GradientsAtStart(sig: real -> real)
    ensures PreActivation(Start) == 2.0
    ensures var d := LocalDerivative(sig(2.0));
            ChainRule(sig, Start) == Inputs(-d, 3.0 * d, d, d, 2.0 * d)
  {
  }

  /** The program's run on Start with sigmoid `sig`: the first output is
      `sig(2)`, the gradients are `(-d, 3d, d, d, 2d)` with `d = s*(1-s)` at
      `s = sig(2)`, the second output is the neuron on the
      inputs moved by StepSize times those gradients, and for an increasing
      squashing sigmoid it is strictly larger than the first. */
  method Run(sig: real -> real) returns (first: real, grads: Inputs, second: real)
    ensures first == sig(2.0)
    ensures var d := LocalDerivative(sig(2.0));
            grads == Inputs(-d, 3.0 * d, d, d, 2.0 * d)
    ensures second == Output(sig, Ascend(Start, grads, StepSize))
    ensures Squashing(sig) && Increasing(sig) ==> first < second
  {
    ghost var d := LocalDerivative(sig(2.0));
    var a := new Unit(1.0, 0.0);
    var b := new Unit(2.0, 0.0);
    var c := new Unit(-3.0, 0.0);
    var x := new Unit(-1.0, 0.0);
    var y := new Unit(3.0, 0.0);
    var neuron := new Circuit(sig, a, b, c, x, y);
    assert neuron.Values() == Start && neuron.Grads() == Inputs(0.0, 0.0, 0.0, 0.0, 0.0);
    assert PreActivation(Start) == 2.0;

    var s := neuron.Forward();
    first := s.value;
    assert neuron.Grads() == Inputs(0.0, 0.0, 0.0, 0.0, 0.0);
    neuron.Backpropagate();
    assert neuron.Values() == Start;
    grads := neuron.Grads();
    assert grads == ChainRule(sig, Start);
    GradientsAtStart(sig);
    neuron.Update();
    s := neuron.Forward();
    second := s.value;

    if Squashing(sig) && Increasing(sig) {
      AscentImproves(sig, Start, StepSize);
    }
  }

  /** The program itself: Run with the logistic sigmoid. */
  method Demo(exp: real -> real) returns (first: real, grads: Inputs, second: real)
    requires ExpPositive(exp)
    ensures first == Logistic(exp, 2.0)
    ensures var d := LocalDerivative(Logistic(exp, 2.0));
            grads == Inputs(-d, 3.0 * d, d, d, 2.0 * d)
    ensures second == Logistic(exp, PreActivation(Ascend(Start, grads, StepSize)))
    ensures ExpIncreasing(exp) ==> first < second
  {
    LogisticIsSigmoid(exp);
    first, grads, second := Run(t => Logistic(exp, t));
  }
}
