/**
  The output size of one spatial axis of a convolution, as computed by
  `conv_output_shape` in neupy/layers/convolutions.py.
*/
module ShapeArithmetic {
  import opened Wrappers
  import opened PyValues

  /** The `ValueError`s (and the `ZeroDivisionError`) that `conv_output_shape` can raise. */
  datatype ShapeError =
    | StrideNotInt(stride: Value)
    | FilterSizeNotInt(filterSize: Value)
    | UnknownPadding(padding: Value)
    | DivisionByZero

  /**
    `math.ceil(a / b)` for Python's true division of two ints, computed exactly:
    the least integer not below the rational a / b.
  */
  function CeilDiv(a: int, b: int): (q: int)
    requires b != 0
    ensures b > 0 ==> (q - 1) * b < a <= q * b
    ensures b < 0 ==> q * b <= a < (q - 1) * b
    decreases if b > 0 then 0 else 1
  {
    if b > 0 then
      var q := (a + b - 1) / b;
      assert a + b - 1 == q * b + (a + b - 1) % b;
      q
    else
      var q := CeilDiv(-a, -b);
      assert (q - 1) * (-b) < -a <= q * (-b);
      assert (q - 1) * (-b) == -((q - 1) * b) && q * (-b) == -(q * b);
      q
  }

  /** The padding values that `conv_output_shape` knows: 'VALID', 'SAME' or an int. */
  predicate KnownPadding(padding: Value) {
    padding == Str("VALID") || padding == Str("SAME") || padding.Int?
  }

  /** The division by the stride, which raises when the stride is 0. */
  function Divide(extent: int, stride: int): (r: Result<Option<int>, ShapeError>)
    ensures r.Err? <==> stride == 0
    ensures r.Err? ==> r.error == DivisionByZero
    ensures r.Ok? ==> r.value.Some?
    ensures r.Ok? && stride > 0 ==> (r.value.value - 1) * stride < extent <= r.value.value * stride
    ensures r.Ok? && stride < 0 ==> r.value.value * stride <= extent < (r.value.value - 1) * stride
  {
    if stride == 0 then Err(DivisionByZero) else Ok(Some(CeilDiv(extent, stride)))
  }

  /**
    `conv_output_shape(dimension_size, filter_size, padding, stride)`: an unknown
    dimension stays unknown; otherwise the stride is checked for being an int,
    then the filter size, then the padding selects the formula.
  */
  function ConvOutputShape(dim: Option<int>, filterSize: Value, padding: Value, stride: Value): (r: Result<Option<int>, ShapeError>)
    ensures dim.None? ==> r == Ok(None)
    ensures dim.Some? && !stride.Int? ==> r == Err(StrideNotInt(stride))
    ensures dim.Some? && stride.Int? && !filterSize.Int? ==> r == Err(FilterSizeNotInt(filterSize))
    ensures dim.Some? && stride.Int? && filterSize.Int? && !KnownPadding(padding) ==> r == Err(UnknownPadding(padding))
    ensures dim.Some? && stride == Int(0) && filterSize.Int? && KnownPadding(padding) ==> r == Err(DivisionByZero)
    ensures r.Ok? <==> dim.None? || (stride.Int? && stride.n != 0 && filterSize.Int? && KnownPadding(padding))
    ensures r.Ok? && dim.Some? ==> r.value.Some?
  {
    if dim.None? then Ok(None)
    else if !stride.Int? then Err(StrideNotInt(stride))
    else if !filterSize.Int? then Err(FilterSizeNotInt(filterSize))
    else if padding == Str("VALID") then Divide(dim.value - filterSize.n + 1, stride.n)
    else if padding == Str("SAME") then Divide(dim.value, stride.n)
    else if padding.Int? then Divide(dim.value + 2 * padding.n - filterSize.n + 1, stride.n)
    else Err(UnknownPadding(padding))
  }

  /** CeilDiv is the only integer with its two bounds. */
  lemma CeilDivUnique(a: int, b: int, q: int)
    requires b > 0
    requires (q - 1) * b < a <= q * b
    ensures q == CeilDiv(a, b)
  {
    var c := CeilDiv(a, b);
    if q < c {
      MulMonotone(q, c - 1, b);
    } else if q > c {
      MulMonotone(c, q - 1, b);
    }
  }

  lemma MulMonotone(x: int, y: int, b: int)
    requires x <= y && b > 0
    ensures x * b <= y * b
  {
    assert y * b - x * b == (y - x) * b;
  }

  /**
    Under 'VALID' with a positive stride, the result c is the number of filter
    windows at offsets 0, s, 2s, ...: the window at (c - 1) * s still fits into
    the n input positions and the one at c * s does not. When the filter fits at
    all, there is at least one window and at most n - f + 1 of them.
  */
  lemma ValidCountsWindows(n: int, f: int, s: int)
    requires s > 0
    ensures var r := ConvOutputShape(Some(n), Int(f), Str("VALID"), Int(s));
      r.Ok? && r.value.Some? &&
      (r.value.value - 1) * s + f <= n < r.value.value * s + f &&
      (n >= f ==> 1 <= r.value.value <= n - f + 1)
  {
    var c := CeilDiv(n - f + 1, s);
    assert ConvOutputShape(Some(n), Int(f), Str("VALID"), Int(s)) == Ok(Some(c));
    if n >= f {
      AtLeastOneStep(c, n - f + 1, s);
    }
  }

  /**
    With a positive stride, a ceiling over a positive extent is at least one
    and no larger than the extent itself.
  */
  lemma AtLeastOneStep(c: int, a: int, s: int)
    requires s > 0 && a >= 1
    requires (c - 1) * s < a <= c * s
    ensures 1 <= c <= a
  {
    if c < 1 {
      MulMonotone(c, 0, s);
    }
    if c > 1 {
      MulMonotone(1, s, c - 1);
    }
  }

  /**
    Under 'SAME' with a positive stride, the result c covers the input with one
    output per stride step: offsets 0, s, ..., (c - 1) * s all lie inside the n
    input positions and c * s reaches past them. A non-empty input gives between
    1 and n outputs, and the filter size plays no part.
  */
  lemma SameCoversInput(n: int, f: int, g: int, s: int)
    requires s > 0
    ensures var r := ConvOutputShape(Some(n), Int(f), Str("SAME"), Int(s));
      r.Ok? && r.value.Some? &&
      (r.value.value - 1) * s < n <= r.value.value * s &&
      (n >= 1 ==> 1 <= r.value.value <= n) &&
      r == ConvOutputShape(Some(n), Int(g), Str("SAME"), Int(s))
  {
    var c := CeilDiv(n, s);
    assert ConvOutputShape(Some(n), Int(f), Str("SAME"), Int(s)) == Ok(Some(c));
    if n >= 1 {
      AtLeastOneStep(c, n, s);
    }
  }

  /**
    An explicit int padding p gives the size that 'VALID' gives on the input
    zero-padded by p on both sides, for every stride (a zero stride fails in both).
  */
  lemma ExplicitIsPaddedValid(n: int, f: int, p: int, s: Value)
    ensures ConvOutputShape(Some(n), Int(f), Int(p), s) == ConvOutputShape(Some(n + 2 * p), Int(f), Str("VALID"), s)
  {
  }

  /** The values that the test suite expects from `conv_output_shape`. */
  lemma ConvOutputShapeExamples()
    ensures ConvOutputShape(Some(10), Int(5), Int(3), Int(5)) == Ok(Some(3))
    ensures ConvOutputShape(None, Int(5), Str("VALID"), Int(5)) == Ok(None)
    ensures ConvOutputShape(Some(5), Int(5), Str("VALID"), Str("not int")) == Err(StrideNotInt(Str("not int")))
    ensures ConvOutputShape(Some(5), Str("not int"), Str("SAME"), Int(5)) == Err(FilterSizeNotInt(Str("not int")))
    ensures ConvOutputShape(Some(5), Int(5), Other, Int(5)) == Err(UnknownPadding(Other))
  {
  }

  /** Under 'VALID' a filter as long as the input fits in exactly one position. */
  lemma FilterAsLongAsInput()
    ensures ConvOutputShape(Some(5), Int(5), Str("VALID"), Int(1)) == Ok(Some(1))
  {
  }

  /** A lower-case mode name is not one `conv_output_shape` knows. */
  lemma LowerCaseModeIsUnknown()
    ensures ConvOutputShape(Some(5), Int(3), Str("valid"), Int(1)) == Err(UnknownPadding(Str("valid")))
  {
  }

  /**
    The result is not always positive: under 'VALID' a filter longer than the
    input by more than one gives a negative size.
  */
  lemma ValidCanBeNegative()
    ensures ConvOutputShape(Some(2), Int(5), Str("VALID"), Int(1)) == Ok(Some(-2))
  {
  }
}
