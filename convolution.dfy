/**
  The `Convolution` layer: its three properties, the rank check made when an
  input shape is connected, and the shapes it derives from that input shape
  (output, weight and bias), plus the padding rewrite made before the
  convolution is handed to the tensor backend.
*/
module ConvolutionLayer {
  import opened Wrappers
  import opened PyValues
  import opened ShapeArithmetic
  import opened ConvProperties

  /** One dimension of a shape: a size, or `None` when it is not known. */
  type Dim = Option<int>

  /** A shape without its batch dimension. */
  type Shape = seq<Dim>

  /** The `size` property: (filter rows, filter columns, output channels). */
  datatype FilterSize = FilterSize(rows: int, cols: int, kernels: int)

  /** The errors raised by the layer's own code. */
  datatype LayerError =
    | LayerConnectionError(rank: nat, shape: Shape)  // `validate`: an input that is not of rank 3
    | InputShapeUnset                                // `input_shape[-1]` while `input_shape` is None
    | IntOfNone                                      // `int(None)` in `output_shape`

  /** The zero-padding amounts per axis and the mode that `output` hands to the backend. */
  datatype BackendCall = BackendCall(padRows: int, padCols: int, mode: Value)

  /** `Convolution.validate`: the input must have exactly three dimensions. */
  function ValidateInput(shape: Shape): (r: Option<LayerError>)
    ensures r.None? <==> |shape| == 3
    ensures r.Some? ==> r.value == LayerConnectionError(|shape|, shape)
  {
    if |shape| != 3 then Some(LayerConnectionError(|shape|, shape)) else None
  }

  /**
    The padding argument `output_shape` passes to `conv_output_shape` on one
    axis: a named mode goes to both axes, a pair is split into its row and its
    column component.
  */
  function AxisPadding(p: Padding, row: bool): (v: Value)
    ensures KnownPadding(v)
    ensures p.ExplicitPadding? ==> v == Int(if row then p.rows else p.cols)
    ensures !p.ExplicitPadding? ==> v == PaddingToRaw(p)
  {
    match p
    case ValidPadding => Str("VALID")
    case SamePadding => Str("SAME")
    case ExplicitPadding(rows, cols) => Int(if row then rows else cols)
  }

  /** `conv_output_shape` on one axis of a layer whose properties were validated. */
  function AxisOutput(dim: Dim, filterSize: int, padding: Padding, row: bool, stride: int): (d: Dim)
    requires stride > 0
    ensures ConvOutputShape(dim, Int(filterSize), AxisPadding(padding, row), Int(stride)) == Ok(d)
    ensures d.Some? <==> dim.Some?
  {
    ConvOutputShape(dim, Int(filterSize), AxisPadding(padding, row), Int(stride)).value
  }

  /** One dimension after `tf.pad` adds p zeros on both of its sides. */
  function PadDim(d: Dim, p: int): Dim {
    if d.None? then None else Some(d.value + 2 * p)
  }

  class Convolution {
    var size: FilterSize
    var padding: Padding
    var stride: Stride
    var inputShape: Option<Shape>

    /** Every stored property is in coerced, validated form; a connected input has rank 3. */
    ghost predicate Valid()
      reads this
    {
      StrideOk(stride) && PaddingOk(padding) &&
      (inputShape.Some? ==> |inputShape.value| == 3)
    }

    /** A fresh layer with the defaults: padding 'valid' and stride (1, 1), not connected. */
    constructor (size: FilterSize)
      ensures Valid()
      ensures this.size == size && padding == ValidPadding && stride == Stride(1, 1) && inputShape == None
    {
      this.size := size;
      padding := ValidPadding;
      stride := Stride(1, 1);
      inputShape := None;
    }

    /** `StrideProperty.__set__`: coerce, validate, and store only on success. */
    method SetStride(raw: Value) returns (err: Option<PropertyError>)
      requires Valid() && StrideDecided(raw)
      modifies this
      ensures Valid()
      ensures NormalizeStride(raw).Ok? ==> err == None && stride == NormalizeStride(raw).value
      ensures NormalizeStride(raw).Err? ==> err == Some(NormalizeStride(raw).error) && stride == old(stride)
      ensures size == old(size) && padding == old(padding) && inputShape == old(inputShape)
    {
      var value := raw;
      if IsSequence(value) && |value.items| == 1 {
        value := Tuple([value.items[0], 1]);
      }
      if value.Int? {
        value := Tuple([value.n, value.n]);
      }
      assert value == CoerceStride(raw);
      var checked := ValidateStride(value);
      match checked {
        case Ok(s) =>
          stride := s;
          err := None;
        case Err(e) =>
          err := Some(e);
      }
    }

    /** `PaddingProperty.__set__`: refuse a negative int, coerce, validate, and store only on success. */
    method SetPadding(raw: Value) returns (err: Option<PropertyError>)
      requires Valid()
      modifies this
      ensures Valid()
      ensures NormalizePadding(raw).Ok? ==> err == None && padding == NormalizePadding(raw).value
      ensures NormalizePadding(raw).Err? ==> err == Some(NormalizePadding(raw).error) && padding == old(padding)
      ensures size == old(size) && stride == old(stride) && inputShape == old(inputShape)
    {
      var value := raw;
      if value.Int? {
        if value.n < 0 {
          return Some(NegativeIntPadding(value.n));
        }
        value := Tuple([value.n, value.n]);
      }
      if value.Str? {
        value := Str(Upper(value.s));
      }
      assert value == CoercePadding(raw);
      var checked := ValidatePadding(value);
      match checked {
        case Ok(p) =>
          padding := p;
          err := None;
        case Err(e) =>
          err := Some(e);
      }
    }

    /** Connecting an input shape: `validate` runs first, and a refused shape is not stored. */
    method SetInputShape(shape: Shape) returns (err: Option<LayerError>)
      requires Valid()
      modifies this
      ensures Valid()
      ensures err == ValidateInput(shape)
      ensures inputShape == if err.None? then Some(shape) else old(inputShape)
      ensures size == old(size) && padding == old(padding) && stride == old(stride)
    {
      err := ValidateInput(shape);
      if err.None? {
        inputShape := Some(shape);
      }
    }

    /**
      `output_shape` with unknown dimensions carried through: unknown while
      no input is connected; otherwise rows and columns each from their own
      filter size, padding and stride component, and the output channels
      from `size`. An axis is unknown exactly when the input's is.
    */
    function OutputShape(): (r: Option<Shape>)
      reads this
      requires Valid()
      ensures r.None? <==> inputShape.None?
      ensures r.Some? ==> |r.value| == 3 && r.value[2] == Some(size.kernels)
      ensures r.Some? ==>
        ConvOutputShape(inputShape.value[0], Int(size.rows), AxisPadding(padding, true), Int(stride.rows)) == Ok(r.value[0]) &&
        ConvOutputShape(inputShape.value[1], Int(size.cols), AxisPadding(padding, false), Int(stride.cols)) == Ok(r.value[1])
      ensures r.Some? ==> (r.value[0].Some? <==> inputShape.value[0].Some?) && (r.value[1].Some? <==> inputShape.value[1].Some?)
    {
      if inputShape.None? then None
      else
        var input := inputShape.value;
        Some([AxisOutput(input[0], size.rows, padding, true, stride.rows),
              AxisOutput(input[1], size.cols, padding, false, stride.cols),
              Some(size.kernels)])
    }

    /**
      `output_shape` as written: the final `int(...)` casts raise when
      `conv_output_shape` returned None for an unknown input dimension.
    */
    function OutputShapeAsWritten(): (r: Result<Option<Shape>, LayerError>)
      reads this
      requires Valid()
      ensures inputShape.None? ==> r == Ok(None)
      ensures inputShape.Some? ==> (r.Ok? <==> inputShape.value[0].Some? && inputShape.value[1].Some?)
      ensures r.Ok? ==> r.value == OutputShape()
      ensures r.Err? ==> r.error == IntOfNone
    {
      if inputShape.None? then Ok(None)
      else
        var input := inputShape.value;
        var rows := AxisOutput(input[0], size.rows, padding, true, stride.rows);
        var cols := AxisOutput(input[1], size.cols, padding, false, stride.cols);
        if rows.None? || cols.None? then Err(IntOfNone)
        else Ok(Some([rows, cols, Some(size.kernels)]))
    }

    /** `weight_shape`: (filter rows, filter columns, input channels, output channels). */
    function WeightShape(): (r: Result<Shape, LayerError>)
      reads this
      requires Valid()
      ensures r.Ok? <==> inputShape.Some?
      ensures r.Err? ==> r.error == InputShapeUnset
      ensures r.Ok? ==> |r.value| == 4 && r.value[2] == inputShape.value[|inputShape.value| - 1]
    {
      if inputShape.None? then Err(InputShapeUnset)
      else Ok([Some(size.rows), Some(size.cols), inputShape.value[2], Some(size.kernels)])
    }

    /** `bias_shape`: one bias per output channel. */
    function BiasShape(): (r: seq<int>)
      reads this
      ensures |r| == 1 && r[0] == size.kernels
    {
      [size.kernels]
    }

    /**
      The decision `output` makes before calling the backend: an explicit
      padding becomes zero-padding of the input followed by a 'VALID'
      convolution; a named mode is passed through with no zero-padding.
    */
    function BackendPlan(): (c: BackendCall)
      reads this
      requires Valid()
      ensures padding.ExplicitPadding? ==> c == BackendCall(padding.rows, padding.cols, Str("VALID"))
      ensures !padding.ExplicitPadding? ==> c.padRows == 0 && c.padCols == 0 && c.mode == PaddingToRaw(padding)
    {
      match padding
      case ExplicitPadding(rows, cols) => BackendCall(rows, cols, Str("VALID"))
      case _ => BackendCall(0, 0, AxisPadding(padding, true))
    }
  }

  /**
    The parameter shapes agree with each other and with the output shape:
    the weight's last dimension is the bias length and the number of output
    channels, the weight's third dimension is the input's channel count, and
    the filter dimensions come from `size`.
  */
  lemma ParameterShapesAgree(layer: Convolution)
    requires layer.Valid() && layer.inputShape.Some?
    ensures layer.WeightShape().Ok?
    ensures var w := layer.WeightShape().value;
      w == [Some(layer.size.rows), Some(layer.size.cols), layer.inputShape.value[2], Some(layer.size.kernels)] &&
      layer.BiasShape() == [layer.size.kernels] &&
      w[3] == Some(layer.BiasShape()[0]) &&
      w[3] == layer.OutputShape().value[2]
  {
  }

  /**
    What `output` hands the backend yields the shape `output_shape` promises:
    on each spatial axis, the input zero-padded by the plan's amount and
    convolved with the plan's mode has the size `output_shape` reports, taking
    the backend's output size for 'VALID' and 'SAME' to be the formula of
    `conv_output_shape`.
  */
  lemma BackendPlanAgreesWithOutputShape(layer: Convolution)
    requires layer.Valid() && layer.inputShape.Some?
    ensures var plan := layer.BackendPlan();
      var input := layer.inputShape.value;
      var out := layer.OutputShape().value;
      ConvOutputShape(PadDim(input[0], plan.padRows), Int(layer.size.rows), plan.mode, Int(layer.stride.rows)) == Ok(out[0]) &&
      ConvOutputShape(PadDim(input[1], plan.padCols), Int(layer.size.cols), plan.mode, Int(layer.stride.cols)) == Ok(out[1])
  {
    var input := layer.inputShape.value;
    var plan := layer.BackendPlan();
    match layer.padding
    case ExplicitPadding(pr, pc) =>
      if input[0].Some? {
        ExplicitIsPaddedValid(input[0].value, layer.size.rows, pr, Int(layer.stride.rows));
      }
      if input[1].Some? {
        ExplicitIsPaddedValid(input[1].value, layer.size.cols, pc, Int(layer.stride.cols));
      }
    case _ =>
      assert PadDim(input[0], 0) == input[0] && PadDim(input[1], 0) == input[1];
  }

  /**
    The discrepancy in `output_shape` as written: an input with an unknown
    row count is connected without complaint, but asking for the output
    shape raises, while the corrected output shape reports the rows as unknown.
  */
  lemma UnknownRowsBreakOutputShape(layer: Convolution)
    requires layer.Valid() && layer.inputShape == Some([None, Some(28), Some(3)])
    ensures ValidateInput(layer.inputShape.value).None?
    ensures layer.OutputShapeAsWritten() == Err(IntOfNone)
    ensures layer.OutputShape().Some? && layer.OutputShape().value[0] == None
    ensures layer.OutputShape().value[1].Some? && layer.OutputShape().value[2] == Some(layer.size.kernels)
  {
  }

  /** The defaults the constructor stores are what 'valid' and (1, 1) normalise to. */
  lemma DefaultsAreNormalised()
    ensures NormalizePadding(Str("valid")) == Ok(ValidPadding)
    ensures NormalizeStride(Tuple([1, 1])) == Ok(Stride(1, 1))
  {
    PaddingModeSpellings();
  }

  /** The parameter shapes of a (2, 2, 6) filter on a 5x5x1 input, as the test suite expects. */
  method TestConvolutionParams()
  {
    var conv := new Convolution(FilterSize(2, 2, 6));
    assert conv.OutputShape() == None;
    var e := conv.SetInputShape([Some(5), Some(5), Some(1)]);
    assert e == None;
    ParameterShapesAgree(conv);
    assert conv.WeightShape() == Ok([Some(2), Some(2), Some(1), Some(6)]);
    assert conv.BiasShape() == [6];
  }

  /** The valid and invalid strides of the test suite; a refused stride leaves the stored one as it was. */
  method TestStrides()
  {
    var layer := new Convolution(FilterSize(2, 3, 1));
    var se := layer.SetStride(Tuple([4, 4]));
    assert se == None && layer.stride == Stride(4, 4);
    se := layer.SetStride(Tuple([4]));
    assert se == None && layer.stride == Stride(4, 1);
    se := layer.SetStride(Int(4));
    assert se == None && layer.stride == Stride(4, 4);

    se := layer.SetStride(Tuple([4, 4, 4]));
    assert se == Some(TooManyStrideElements(3)) && layer.stride == Stride(4, 4);
    se := layer.SetStride(Int(-10));
    assert se.Some? && layer.stride == Stride(4, 4);
    se := layer.SetStride(Tuple([-5, -5]));
    assert se.Some? && layer.stride == Stride(4, 4);
    se := layer.SetStride(Tuple([-5, 5]));
    assert se.Some? && layer.stride == Stride(4, 4);
    se := layer.SetStride(Tuple([-5, 0]));
    assert se.Some? && layer.stride == Stride(4, 4);
  }

  /** The paddings the test suite accepts. */
  method TestValidPaddings()
  {
    PaddingModeSpellings();
    var layer := new Convolution(FilterSize(2, 3, 1));
    var pe := layer.SetPadding(Str("SAME"));
    assert pe == None && layer.padding == SamePadding;
    pe := layer.SetPadding(Str("VALID"));
    assert pe == None && layer.padding == ValidPadding;
  }

  /** The strings the test suite refuses as paddings; a refused padding leaves the stored one as it was. */
  method TestInvalidPaddingStrings()
  {
    var layer := new Convolution(FilterSize(1, 3, 3));
    ModeOfWrongLengthRefused("invalid mode");
    var pe := layer.SetPadding(Str("invalid mode"));
    assert pe.Some? && pe.value.InvalidPaddingString? && layer.padding == ValidPadding;
    ModeOfWrongLengthRefused("NOT_SAME");
    pe := layer.SetPadding(Str("NOT_SAME"));
    assert pe.Some? && pe.value.InvalidPaddingString? && layer.padding == ValidPadding;
  }

  /** The int and tuple paddings the test suite refuses. */
  method TestInvalidNumericPaddings()
  {
    var layer := new Convolution(FilterSize(1, 3, 3));
    var pe := layer.SetPadding(Int(-10));
    assert pe == Some(NegativeIntPadding(-10)) && layer.padding == ValidPadding;
    pe := layer.SetPadding(Tuple([10, -5]));
    assert pe == Some(NegativeTuplePadding([10, -5])) && layer.padding == ValidPadding;
    pe := layer.SetPadding(Tuple([3, 3, 3]));
    assert pe == Some(WrongPaddingArity(3)) && layer.padding == ValidPadding;
  }

  /** An input of rank one is refused and not stored. */
  method TestInvalidInputShape()
  {
    var conv := new Convolution(FilterSize(1, 3, 3));
    var e := conv.SetInputShape([Some(10)]);
    assert e == Some(LayerConnectionError(1, [Some(10)])) && conv.inputShape == None;
  }

  /** Integer padding 2 and tuple padding (0, 2) on a 5x5x1 input with a (3, 3, 1) filter. */
  method TestCustomPadding()
  {
    var conv := new Convolution(FilterSize(3, 3, 1));
    var pe := conv.SetPadding(Int(2));
    var e := conv.SetInputShape([Some(5), Some(5), Some(1)]);
    assert conv.OutputShape() == Some([Some(7), Some(7), Some(1)]);
    pe := conv.SetPadding(Tuple([0, 2]));
    assert conv.padding == ExplicitPadding(0, 2);
    assert conv.OutputShape() == Some([Some(3), Some(7), Some(1)]);
    assert conv.BackendPlan() == BackendCall(0, 2, Str("VALID"));
  }

  /** A (3, 4, 5) filter on a 12x11x2 input under 'SAME' with stride (2, 2) and 'VALID' with stride (2, 1). */
  method TestConvShapes()
  {
    PaddingModeSpellings();
    var conv := new Convolution(FilterSize(3, 4, 5));
    var e := conv.SetInputShape([Some(12), Some(11), Some(2)]);
    var pe := conv.SetPadding(Str("SAME"));
    var se := conv.SetStride(Tuple([2, 2]));
    assert conv.OutputShape() == Some([Some(6), Some(6), Some(5)]);
    pe := conv.SetPadding(Str("VALID"));
    se := conv.SetStride(Tuple([2, 1]));
    assert conv.OutputShape() == Some([Some(5), Some(8), Some(5)]);
  }
}
