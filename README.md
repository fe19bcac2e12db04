# neupy convolution layer: typed properties and shape inference, in Dafny

This project models the configuration and shape-inference core of neupy's
`Convolution` layer (`neupy/layers/convolutions.py`):

- the **stride property**, which normalises a raw stride to a pair
  (an int `s` to `(s, s)`, a one-element sequence `(s,)` to `(s, 1)`) and
  refuses more than two elements or any element that is not positive;
- the **padding property**, which normalises a raw padding to one of the two
  named modes `VALID` / `SAME` (case-insensitively) or to a pair of
  non-negative zero-padding amounts;
- **`conv_output_shape`**, the arithmetic that gives one spatial output
  dimension from the input dimension, the filter size, the padding and the
  stride, with its type guards and its three padding formulas, all rounded up;
- the **`Convolution` layer** as a class with fields `size`, `padding`,
  `stride` and `inputShape`: setters that coerce, validate and store only on
  success, the rank-3 check on a connected input, and the derived
  `output_shape`, `weight_shape` and `bias_shape`, together with the decision
  in `output` to turn an explicit padding into zero-padding followed by a
  `VALID` convolution.

Files: `wrappers.dfy` (Option, Result), `values.dfy` (the Python values the
layer inspects, and `str.upper`), `shape_arithmetic.dfy`
(`conv_output_shape`), `properties.dfy` (the two properties),
`convolution.dfy` (the layer class, its lemmas and the test-suite cases
replayed against the model).

Python values are the datatype `PyValues.Value`: `Int`, `Str`, `Tuple` and
`List` of ints, and `Other` for everything else (a float such as `1.5`,
`None`, an object). Python's exceptions are `Err` values; a refused assignment
leaves the stored property as it was. Integers are unbounded and the ceiling
of Python's true division is computed exactly (`ShapeArithmetic.CeilDiv`,
also for negative divisors); a zero stride, which Python reports with
`ZeroDivisionError`, is the error `DivisionByZero`.

Two places where the source's own documentation promises more than its code
does; the model follows the code:

- `conv_output_shape`'s docstring (neupy/layers/convolutions.py:72-76)
  promises a "Dimension size", but under `VALID` a filter longer than the
  input by more than one gives a negative result: an input of 2 with a filter
  of 5 gives -2 (`ShapeArithmetic.ValidCanBeNegative`);
- the `Convolution` docstring (neupy/layers/convolutions.py:169) describes
  the stride as a "tuple with 1 or 2 integers or integer", but the checks at
  lines 44-50 refuse only more than two elements, so an empty sequence `()`
  gets through them; whether the base property class refuses it is not part
  of this model (see "Left out").

## Model

| member | source | states |
|---|---|---|
| `ShapeArithmetic.CeilDiv` | neupy/layers/convolutions.py:90-98 | `math.ceil(a / b)` is the least integer q with a <= q * b for a positive divisor (and the mirrored bounds for a negative one) |
| `ShapeArithmetic.CeilDivUnique` | neupy/layers/convolutions.py:90-98 | the ceiling bounds determine the result: any q with (q - 1) * b < a <= q * b is `CeilDiv(a, b)` |
| `ShapeArithmetic.Divide` | neupy/layers/convolutions.py:91-98 | the division by the stride fails with `ZeroDivisionError` exactly when the stride is 0; otherwise it yields the ceiling of the extent over the stride, with the bounds for a positive and for a negative stride |
| `ShapeArithmetic.ConvOutputShape` | neupy/layers/convolutions.py:53-101 | an unknown dimension gives unknown before any check; then a non-int stride is reported, then a non-int filter size, then any padding other than 'VALID', 'SAME' or an int is "unknown padding"; a zero stride fails; the call succeeds exactly when none of these apply |
| `ShapeArithmetic.ValidCountsWindows` | neupy/layers/convolutions.py:90-91 | under 'VALID' with stride s > 0 the result c counts filter windows: the window at offset (c - 1) * s fits into the input and the one at c * s does not; if the filter fits, 1 <= c <= n - f + 1 |
| `ShapeArithmetic.SameCoversInput` | neupy/layers/convolutions.py:93-94 | under 'SAME' the result c satisfies (c - 1) * s < n <= c * s, lies between 1 and n for a non-empty input, and does not depend on the filter size |
| `ShapeArithmetic.ExplicitIsPaddedValid` | neupy/layers/convolutions.py:90-98 | an int padding p gives the 'VALID' size of the input lengthened by 2p, for every stride |
| `ShapeArithmetic.ConvOutputShapeExamples` | tests/layers/test_convolution_layers.py:100-134 | the test suite's values: (10, 5, 3, 5) gives 3, a None dimension gives None, a string stride, a string filter size and the padding 1.5 each raise their error |
| `ShapeArithmetic.FilterAsLongAsInput` | neupy/layers/convolutions.py:90-91 | under 'VALID' a filter as long as the input (5 on 5, stride 1) fits in exactly one position |
| `ShapeArithmetic.LowerCaseModeIsUnknown` | neupy/layers/convolutions.py:90-101 | `conv_output_shape` compares the mode case-sensitively: 'valid' is an unknown padding there |
| `ShapeArithmetic.ValidCanBeNegative` | neupy/layers/convolutions.py:90-91 | under 'VALID' an input of 2 with a filter of 5 gives -2: no positivity without n >= f |
| `PyValues.Upper` | neupy/layers/convolutions.py:125-126 | upper-casing keeps the length and maps each character to its upper-case form |
| `PyValues.UpperIdempotent` | neupy/layers/convolutions.py:125-126 | upper-casing twice is upper-casing once |
| `ConvProperties.CoerceStride` | neupy/layers/convolutions.py:32-37 | after the rebinding no bare int and no sequence shorter than two is left; other values pass unchanged |
| `ConvProperties.ValidateStride` | neupy/layers/convolutions.py:41-50 | a coerced stride is accepted exactly when it is a two-element sequence of positive ints, and is then stored as that pair; more than two elements and non-sequences are refused |
| `ConvProperties.NormalizeStride` | neupy/layers/convolutions.py:26-50 | int s gives (s, s) iff s > 0; (s,) gives (s, 1) iff s > 0; (a, b) is kept iff both are positive; more than two elements and strings or other types are refused; every accepted stride is positive |
| `ConvProperties.StrideRoundTrip` | neupy/layers/convolutions.py:32-50 | a stored stride assigned again as a tuple or a list is stored unchanged |
| `ConvProperties.StrideIdempotent` | neupy/layers/convolutions.py:32-50 | re-normalising what normalisation produced gives the same stride |
| `ConvProperties.CoercePadding` | neupy/layers/convolutions.py:123-126 | after the rebinding no bare int is left |
| `ConvProperties.ValidatePadding` | neupy/layers/convolutions.py:130-153 | an accepted padding reads back as exactly the validated value and is well formed; lists and other types are refused; a tuple of length other than two is refused; a string is accepted iff it is 'VALID' or 'SAME' |
| `ConvProperties.NormalizePadding` | neupy/layers/convolutions.py:112-153 | a negative int is refused first, a non-negative int p gives (p, p); a string is upper-cased and accepted iff it becomes 'VALID' or 'SAME'; a tuple needs two elements, then non-negative ones; lists and other types are refused |
| `ConvProperties.PaddingRoundTrip` | neupy/layers/convolutions.py:115-153 | a stored padding assigned again as the value it reads back as is stored unchanged |
| `ConvProperties.PaddingCaseInsensitive` | neupy/layers/convolutions.py:125-126 | a string and its upper-cased form are normalised alike |
| `ConvProperties.PaddingModeSpellings` | tests/layers/test_convolution_layers.py:86-89 | 'valid', 'VALID', 'same' and 'SAME' normalise to the two modes |
| `ConvProperties.ModeOfWrongLengthRefused` | neupy/layers/convolutions.py:140-148 | a string of a length other than four or five is refused and the error carries its upper-cased form |
| `ConvolutionLayer.ValidateInput` | neupy/layers/convolutions.py:211-216 | an input shape is accepted iff it has three dimensions; otherwise the error reports its rank and the shape |
| `ConvolutionLayer.AxisPadding` | neupy/layers/convolutions.py:229-232 | a pair is split into its row and its column component; a named mode goes unchanged to both axes; either way the value is a padding `conv_output_shape` knows |
| `ConvolutionLayer.AxisOutput` | neupy/layers/convolutions.py:229-238 | with a validated stride and padding `conv_output_shape` cannot fail on an axis, and the axis is known iff the input axis is |
| `ConvolutionLayer.Convolution.constructor` | neupy/layers/convolutions.py:207-209 | a new layer stores its size, padding 'VALID', stride (1, 1) and no input shape |
| `ConvolutionLayer.Convolution.SetStride` | neupy/layers/convolutions.py:32-50 | the stride becomes the normalised value on success, stays as it was on an error which is returned, and nothing else changes |
| `ConvolutionLayer.Convolution.SetPadding` | neupy/layers/convolutions.py:115-153 | the padding becomes the normalised value on success, stays as it was on an error which is returned, and nothing else changes |
| `ConvolutionLayer.Convolution.SetInputShape` | neupy/layers/convolutions.py:211-216 | a shape is stored only when `validate` accepts it; the error is returned otherwise |
| `ConvolutionLayer.Convolution.OutputShape` | neupy/layers/convolutions.py:218-242 | unknown iff no input is connected; otherwise three dimensions, rows and columns each from `conv_output_shape` with their own filter size, padding component and stride component, channels from `size`; an axis is unknown iff the input's is |
| `ConvolutionLayer.Convolution.OutputShapeAsWritten` | neupy/layers/convolutions.py:218-242 | the code as written: fails with a `TypeError` from `int(None)` exactly when a spatial input dimension is unknown, and otherwise agrees with `OutputShape` |
| `ConvolutionLayer.Convolution.WeightShape` | neupy/layers/convolutions.py:244-248 | fails iff no input is connected; otherwise four dimensions whose third is the input's last (its channel count) |
| `ConvolutionLayer.Convolution.BiasShape` | neupy/layers/convolutions.py:250-252 | the bias shape is the one-element tuple of the output channel count, the last entry of `size` |
| `ConvolutionLayer.Convolution.BackendPlan` | neupy/layers/convolutions.py:255-267 | an explicit padding becomes zero-padding of those amounts followed by a 'VALID' convolution; a named mode is passed on unchanged with no zero-padding |
| `ConvolutionLayer.ParameterShapesAgree` | neupy/layers/convolutions.py:244-252 | the weight shape is (filter rows, filter columns, input channels, output channels), the bias shape is (output channels,), and both agree with the output shape's channel count |
| `ConvolutionLayer.BackendPlanAgreesWithOutputShape` | neupy/layers/convolutions.py:254-269 | zero-padding the input as `output` does and convolving with the mode it passes on gives, on each axis, the size `output_shape` reports |
| `ConvolutionLayer.UnknownRowsBreakOutputShape` | neupy/layers/convolutions.py:234-242 | an input (None, 28, 3) is accepted by `validate`, but `output_shape` as written raises, while the corrected output shape reports unknown rows |
| `ConvolutionLayer.DefaultsAreNormalised` | neupy/layers/convolutions.py:208-209 | the defaults 'valid' and (1, 1) normalise to what the constructor stores |

## Findings

| source | as written | input that shows it | evidently intended | confidence | as-written member | corrected member |
|---|---|---|---|---|---|---|
| neupy/layers/convolutions.py:240-242 | `output_shape` passes both spatial results through `int(...)`, which raises `TypeError` on the `None` that `conv_output_shape` returns for an unknown dimension | a layer connected to an input of shape (None, 28, 3) | an unknown input dimension gives an unknown output dimension, as `conv_output_shape` already arranges | medium, not executed | `ConvolutionLayer.Convolution.OutputShapeAsWritten` (shown by `ConvolutionLayer.UnknownRowsBreakOutputShape`) | `ConvolutionLayer.Convolution.OutputShape` |

## Left out

- `ConvProperties.NormalizeStride`: requires that a sequence stride is not empty; the checks in `convolutions.py` let `()` through, and whether the base class `TypedListProperty` refuses it is not part of this model.
- `ConvProperties.CoerceStride`, `ConvolutionLayer.Convolution.SetStride`: the same requirement, for the same reason.
- Sequence elements that are not ints are not representable: the element-type check belongs to `TypedListProperty`, and a padding tuple such as `(1.5, 2)`, whose element types `PaddingProperty` does not check, is not modelled.
- The type check against `expected_type` is modelled as the error `WrongType`; the exact behaviour and messages of `Property` and `TypedListProperty` (`neupy/core/properties.py`) are not part of this model, nor is how a default such as `'valid'` is applied.
- `PyValues.Upper`: upper-cases the ASCII letters only; Python's `str.upper` also maps letters such as the dotless `ı` to `I`, so a string like `'valıd'` is accepted by Python and refused here.
- `ShapeArithmetic.CeilDiv`: computes the exact rational ceiling; the floating-point rounding of Python's true division for integers beyond 2^53 is not modelled.
- A stored stride or padding forgets whether it was a list or a tuple; no code in the layer distinguishes them after storing.
- `size` is modelled as a triple of ints; its own validation is `TypedListProperty`'s, and a size of another length is not representable.
- `ConvolutionLayer.Convolution.SetInputShape` stands in for the base layer assigning `input_shape`; graph wiring (`layers.join`, the `>` operator, `initialize`, `ParameterBasedLayer`, materialising the parameters) is not part of this model.
- The numeric body of `output` (`tf.pad`, `tf.nn.convolution`, the bias add) belongs to TensorFlow and works on float tensors; only the padding decision is modelled, and `ConvolutionLayer.BackendPlanAgreesWithOutputShape` takes TensorFlow's 'VALID' and 'SAME' output sizes to be the formulas of `conv_output_shape`. The end-to-end value tests are out of scope for the same reason.
- Python 2's float result of `math.ceil`, and `bool` being a subclass of `int`, are not modelled.
- The other files of the repository (line search training, saliency maps, the SqueezeNet example and its test) do file I/O, plotting or run whole networks through TensorFlow, and are not part of this model.
