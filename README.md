# A single neuron with reverse-mode differentiation, in Dafny

`simple-neuron.py` builds the neuron `sig(a*x + b*y + c)` from scalar units
and three kinds of gates. It then runs one round of the backpropagation example:

1. A forward pass.
2. Seed the output unit's gradient with 1.
3. Call `backward` on the five gates in reverse construction order.
4. Move each input's value by 0.01 times its gradient.
5. A second forward pass.

This project models that program and proves what it computes.

- `sigmoid.dfy`, module `Sigmoid`:
  - The logistic function `1 / (1 + exp(-arg))` of `SigmoidGate.sig`, over a
    parameter `exp`.
  - The local derivative `s * (1 - s)` used by the sigmoid gate's backward.
  - Facts about both: they are bounded, the local derivative equals the
    slope the quotient rule gives, and the logistic function is monotone.
- `gates.dfy`, module `Gates`:
  - `Unit` is a class whose `value` and `grad` are updated in place.
  - `MultiplyGate`, `AddGate` and `SigmoidGate` are classes. Their nullable
    `u0`/`u1`/`utop` fields are set by `Forward`.
  - Each `Backward` requires a prior `Forward`. It may change only its
    inputs' `grad` fields, and adds the local derivative times the output's
    gradient into them.
  - The case where both inputs are one unit is covered too: both increments
    land on that unit.
- `neuron.dfy`, module `SingleNeuron`:
  - `Circuit` holds the five input units and the five gates created once by
    the program.
  - `Forward` is `forwardNeuron`.
  - `Backpropagate` is the gradient seed and the five backward calls.
  - `Update` is the step.
  - `Run` and `Demo` are the program's run on its literal inputs.
  - Pure functions on the five inputs (`PreActivation`, `Output`,
    `Slopes`, `ChainRule`, `Ascend`) state what these compute. `ChainRule` is
    `d` times the partial derivatives of `a*x + b*y + c`, with `d = s*(1-s)`
    at `s = sig(a*x + b*y + c)`. It is the chain-rule gradient of the output
    when `sig` is the logistic function.
  - Lemmas prove that one ascent step strictly raises the output.

The update moves each value in the direction of its gradient (`+=`). So
the step is gradient ascent on the output, not descent, and the model keeps
it that way.

## Model

| member | source | states |
|---|---|---|
| Sigmoid.Logistic | simple-neuron.py:62-69 | the sigmoid `1 / (1 + exp(-arg))` lies strictly between 0 and 1 whenever `exp` is positive |
| Sigmoid.LocalDerivative | simple-neuron.py:83-84 | `s * (1 - s)` is in (0, 1/4] for every sigmoid output `s` in (0, 1) |
| Sigmoid.LocalDerivativeIsSlope | simple-neuron.py:83-85 | at `s = sig(arg)`, `s * (1 - s)` equals `exp(-arg) / (1 + exp(-arg))^2`, the derivative of the logistic function when exp is its own derivative, so the backward pass uses the true local slope |
| Sigmoid.LogisticIncreasing | simple-neuron.py:62-69 | with an increasing exp, a larger argument gives a strictly larger sigmoid |
| Sigmoid.LogisticIsSigmoid | simple-neuron.py:62-69 | the logistic function is a squashing function, and strictly increasing when exp is |
| Gates.Unit.constructor | simple-neuron.py:12-20 | a new unit holds the given value and grad |
| Gates.MultiplyGate.constructor | simple-neuron.py:97-98 | a new multiply gate has recorded no units yet |
| Gates.MultiplyGate.Forward | simple-neuron.py:25-35 | records both inputs and a fresh output unit with value `u0.value * u1.value` and grad 0; only the gate changes |
| Gates.MultiplyGate.Backward | simple-neuron.py:37-40 | `u0.grad` grows by `u1.value * utop.grad` and `u1.grad` by `u0.value * utop.grad`; with one unit as both inputs it receives both terms; only those grads change |
| Gates.AddGate.constructor | simple-neuron.py:99-100 | a new add gate has recorded no units yet |
| Gates.AddGate.Forward | simple-neuron.py:43-53 | records both inputs and a fresh output unit with value `u0.value + u1.value` and grad 0; only the gate changes |
| Gates.AddGate.Backward | simple-neuron.py:55-58 | each input's grad grows by `utop.grad`, twice over for a single unit used as both inputs; only those grads change |
| Gates.SigmoidGate.constructor | simple-neuron.py:101 | a new sigmoid gate carries the given sigmoid and has recorded no units yet |
| Gates.SigmoidGate.Forward | simple-neuron.py:71-79 | records the input and a fresh output unit with value `sig(u0.value)` and grad 0 |
| Gates.SigmoidGate.Backward | simple-neuron.py:81-85 | `u0.grad` grows by `s * (1 - s) * utop.grad` with `s` recomputed from the input's current value; while that value is unchanged since forward this is `utop.value * (1 - utop.value) * utop.grad` |
| Gates.SquareByAliasing | simple-neuron.py:25-40 | a multiply gate fed one unit twice outputs `v*v`, and its backward leaves `2*v`, the derivative of the square, on that unit |
| Gates.DoubleByAliasing | simple-neuron.py:43-58 | an add gate fed one unit twice outputs `2*v`, and its backward leaves gradient 2 on that unit |
| SingleNeuron.Circuit.constructor | simple-neuron.py:89-101 | five distinct input units and five fresh gates, the sigmoid gate using the circuit's sigmoid |
| SingleNeuron.Circuit.Forward | simple-neuron.py:104-110 | every gate is wired as `ax = a*x`, `by = b*y`, `axpby = ax + by`, `axpbypc = axpby + c`, `s = sig(axpbypc)`, over fresh and distinct intermediate units with grad 0; the output's value is `sig(a*x + b*y + c)`; no input's value or grad changes, so a rerun on the same inputs gives the same output |
| SingleNeuron.Circuit.Backpropagate | simple-neuron.py:116-121 | after seeding `s.grad = 1` and the backward calls in the order sg0, addg1, addg0, mulg1, mulg0, the input grads are their old values plus `d` times the partial derivatives of `a*x + b*y + c` (`x*d`, `y*d`, `d`, `a*d`, `b*d`), with `d = s*(1-s)` at `s = sig(a*x + b*y + c)`; this is the chain-rule gradient when `sig` is the logistic function (LocalDerivativeIsSlope); every intermediate carries `d`; no value changes |
| SingleNeuron.Circuit.Update | simple-neuron.py:123-128 | each input value becomes `value + 0.01 * grad`; the grads stay |
| SingleNeuron.AscentRaisesPreActivation | simple-neuron.py:123-128 | proof step of AscentImproves: moving the inputs by `h` times `d` times the gradient of `a*x + b*y + c`, with `0 < h*d <= 2`, strictly raises `a*x + b*y + c` |
| SingleNeuron.AscentGain | simple-neuron.py:123-128 | proof step of AscentRaisesPreActivation: that step adds exactly `k*(a²+x²+b²+y²) + k²*(a*x+b*y) + k` to `a*x + b*y + c`, with `k = h*d` |
| SingleNeuron.StepAlongPartners | simple-neuron.py:124-128 | proof step of AscentGain: the update with the backward pass's grads moves `a` by `k*x`, `b` by `k*y`, `c` by `k`, `x` by `k*a` and `y` by `k*b` |
| SingleNeuron.SlopesArePartialDerivatives | simple-neuron.py:105-108 | `(x, y, 1, a, b)` are the partial derivatives of `a*x + b*y + c`: moving one input by `e` changes it by exactly `e` times that entry |
| SingleNeuron.AscentImproves | simple-neuron.py:123-130 | for an increasing squashing sigmoid and a step size in (0, 8], a step of that size along `d` times the partial derivatives of `a*x + b*y + c`, with `d = s*(1-s)` at `s = sig(a*x + b*y + c)`, strictly raises the neuron's output; for the logistic sigmoid this direction is the chain-rule gradient (LocalDerivativeIsSlope) |
| SingleNeuron.GradientsAtStart | simple-neuron.py:90-94 | on the program's inputs the pre-activation is 2 and the backward pass's gradient is `(-d, 3d, d, d, 2d)` with `d = s*(1-s)` at `s = sig(2)`, the pattern of the comments' -0.105, 0.315, 0.105, 0.105, 0.210 |
| SingleNeuron.Run | simple-neuron.py:88-132 | on `a=1, b=2, c=-3, x=-1, y=3` the first output is `sig(2)`, the grads are `(-d, 3d, d, d, 2d)`, the second output is the neuron on the updated inputs, and it is strictly larger than the first for any increasing squashing sigmoid |
| SingleNeuron.Demo | simple-neuron.py:88-132 | the same run with the logistic sigmoid: the first output is `1/(1+exp(-2))`, and with an increasing exp the second output is strictly larger than the first |

## Left out

- The two `print` lines and `round(..., 4)` (simple-neuron.py:114, 132) are output formatting. `Run` and `Demo` return the unrounded outputs instead.
- `math.exp` is a library call on floating-point numbers. It is the parameter `exp` of `Logistic` and `Demo`, assumed positive, and for monotonicity strictly increasing. Overflow and rounding are not modelled. All arithmetic is exact over `real`.
- The gates take any function `sig: real -> real`, fixed to the logistic function only by `Demo`. The rest of the model does not depend on `exp`.
- The literal outputs 0.8808 and 0.8825 need `exp` evaluated and are not proved. What is proved is that the second output is strictly larger than the first.
- The unused `namedtuple` import (simple-neuron.py:6) has no counterpart.
- The program performs one backward pass and never resets `grad`. The model does the same and adds no reset or training loop.
- Gates.MultiplyGate.Backward, Gates.AddGate.Backward, Gates.SigmoidGate.Backward: these require a prior `Forward`, i.e. non-null fields with the output distinct from the inputs. Python would raise on the null case instead, and `Forward` always creates a fresh output.
- SingleNeuron.Circuit.constructor: requires the five input units to be distinct, as the program creates them. A neuron whose inputs alias one another is not modelled. Aliasing at a single gate is covered by `SquareByAliasing` and `DoubleByAliasing`.
- SingleNeuron.Circuit.Backpropagate: requires what the program's forward pass leaves behind. The gates are wired, the intermediates have grad 0, and the sigmoid's input still holds `a*x + b*y + c`. The program never calls it in another state.
- The local closure `forwardNeuron` and the top-level driver are methods of `Circuit` plus `Run`. Their gates are created once and reused by both forward passes, as in the program.
