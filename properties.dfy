/**
  The two typed properties of the convolution layer: `StrideProperty` and
  `PaddingProperty`. Each coerces the raw value assigned to it and then
  validates the coerced value; only a value that passes is stored.
*/
module ConvProperties {
  import opened Wrappers
  import opened PyValues

  /** A stored stride: (row stride, column stride). */
  datatype Stride = Stride(rows: int, cols: int)

  /** A stored padding: one of the two named modes, or zero-padding per axis. */
  datatype Padding =
    | ValidPadding
    | SamePadding
    | ExplicitPadding(rows: int, cols: int)

  /** The `ValueError`s the two properties raise, and the type check against `expected_type`. */
  datatype PropertyError =
    | WrongType(value: Value)
    | TooManyStrideElements(count: nat)
    | NonPositiveStride(stride: seq<int>)
    | NegativeIntPadding(intPadding: int)
    | WrongPaddingArity(count: nat)
    | InvalidPaddingString(mode: string)
    | NegativeTuplePadding(tuplePadding: seq<int>)

  /** What a validated stride satisfies. */
  predicate StrideOk(s: Stride) {
    s.rows > 0 && s.cols > 0
  }

  /** What a validated padding satisfies. */
  predicate PaddingOk(p: Padding) {
    p.ExplicitPadding? ==> p.rows >= 0 && p.cols >= 0
  }

  /** `any(element <= 0 for element in xs)` */
  predicate AnyNonPositive(xs: seq<int>) {
    exists i :: 0 <= i < |xs| && xs[i] <= 0
  }

  /** `any(element < 0 for element in xs)` */
  predicate AnyNegative(xs: seq<int>) {
    exists i :: 0 <= i < |xs| && xs[i] < 0
  }

  // ---------------------------------------------------------------- stride

  /** The raw strides this model decides: every value except an empty sequence. */
  predicate StrideDecided(raw: Value) {
    IsSequence(raw) ==> |raw.items| > 0
  }

  /**
    The values that `StrideProperty.__set__` hands on to validation: never a
    bare int, and never a sequence shorter than two.
  */
  predicate StrideCoerced(v: Value) {
    !v.Int? && (IsSequence(v) ==> |v.items| >= 2)
  }

  /**
    The rebinding in `StrideProperty.__set__`: a one-element sequence (s,)
    becomes (s, 1), then an int s becomes (s, s). A one-character string is
    also iterable with length one; it ends in the element-type error either way,
    and is passed on unchanged here.
  */
  function CoerceStride(raw: Value): (v: Value)
    requires StrideDecided(raw)
    ensures StrideCoerced(v)
    ensures !raw.Int? && !(IsSequence(raw) && |raw.items| == 1) ==> v == raw
  {
    var v := if IsSequence(raw) && |raw.items| == 1 then Tuple([raw.items[0], 1]) else raw;
    if v.Int? then Tuple([v.n, v.n]) else v
  }

  /**
    `StrideProperty.validate`, together with the type check against
    `expected_type` (list, tuple, int) and the int `element_type`: at most two
    elements, all positive.
  */
  function ValidateStride(v: Value): (r: Result<Stride, PropertyError>)
    requires StrideCoerced(v)
    ensures r.Ok? <==> IsSequence(v) && |v.items| == 2 && v.items[0] > 0 && v.items[1] > 0
    ensures r.Ok? ==> StrideOk(r.value) && r.value == Stride(v.items[0], v.items[1])
    ensures IsSequence(v) && |v.items| > 2 ==> r == Err(TooManyStrideElements(|v.items|))
    ensures !IsSequence(v) ==> r == Err(WrongType(v))
  {
    if !IsSequence(v) then Err(WrongType(v))
    else if |v.items| > 2 then Err(TooManyStrideElements(|v.items|))
    else if AnyNonPositive(v.items) then Err(NonPositiveStride(v.items))
    else Ok(Stride(v.items[0], v.items[1]))
  }

  /**
    What assigning `raw` to a stride property stores, or the error it raises:
    an int s gives (s, s), a one-element sequence (s,) gives (s, 1), a
    two-element sequence is kept; more than two elements, or any element that is
    not positive after this normalisation, is an error.
  */
  function NormalizeStride(raw: Value): (r: Result<Stride, PropertyError>)
    requires StrideDecided(raw)
    ensures r.Ok? ==> StrideOk(r.value)
    ensures raw.Int? ==> r == if raw.n > 0 then Ok(Stride(raw.n, raw.n)) else Err(NonPositiveStride([raw.n, raw.n]))
    ensures IsSequence(raw) && |raw.items| == 1 ==>
      r == if raw.items[0] > 0 then Ok(Stride(raw.items[0], 1)) else Err(NonPositiveStride([raw.items[0], 1]))
    ensures IsSequence(raw) && |raw.items| == 2 ==>
      (r.Ok? <==> raw.items[0] > 0 && raw.items[1] > 0) &&
      (r.Ok? ==> r.value == Stride(raw.items[0], raw.items[1])) &&
      (r.Err? ==> r.error == NonPositiveStride(raw.items))
    ensures IsSequence(raw) && |raw.items| > 2 ==> r == Err(TooManyStrideElements(|raw.items|))
    ensures raw.Str? || raw.Other? ==> r == Err(WrongType(raw))
  {
    var v := CoerceStride(raw);
    assert raw.Int? ==> v.items == [raw.n, raw.n] && !AnyNonPositive(v.items) == (raw.n > 0);
    assert IsSequence(raw) && |raw.items| == 1 ==> v.items == [raw.items[0], 1];
    ValidateStride(v)
  }

  /** A stored stride, assigned again as a tuple or a list, is stored unchanged. */
  lemma StrideRoundTrip(s: Stride)
    requires StrideOk(s)
    ensures NormalizeStride(Tuple([s.rows, s.cols])) == Ok(s)
    ensures NormalizeStride(List([s.rows, s.cols])) == Ok(s)
  {
  }

  /** Normalising is idempotent: a normalised stride normalises to itself. */
  lemma StrideIdempotent(raw: Value)
    requires StrideDecided(raw) && NormalizeStride(raw).Ok?
    ensures var s := NormalizeStride(raw).value; NormalizeStride(Tuple([s.rows, s.cols])) == Ok(s)
  {
    StrideRoundTrip(NormalizeStride(raw).value);
  }

  // ---------------------------------------------------------------- padding

  /** The value that a stored padding reads back as ('VALID', 'SAME' or a pair). */
  function PaddingToRaw(p: Padding): Value {
    match p
    case ValidPadding => Str("VALID")
    case SamePadding => Str("SAME")
    case ExplicitPadding(rows, cols) => Tuple([rows, cols])
  }

  /**
    The rebinding in `PaddingProperty.__set__` after the sign check on ints:
    an int p becomes (p, p) and a string is upper-cased.
  */
  function CoercePadding(raw: Value): (v: Value)
    ensures !v.Int?
  {
    match raw
    case Int(p) => Tuple([p, p])
    case Str(s) => Str(Upper(s))
    case _ => raw
  }

  /**
    `PaddingProperty.validate`, together with the type check against
    `expected_type` (str, int, tuple): a tuple must have two elements, a string
    must be 'VALID' or 'SAME', and a tuple's elements must not be negative, in
    that order.
  */
  function ValidatePadding(v: Value): (r: Result<Padding, PropertyError>)
    requires !v.Int?
    ensures r.Ok? ==> PaddingOk(r.value) && PaddingToRaw(r.value) == v
    ensures v.List? || v.Other? ==> r == Err(WrongType(v))
    ensures v.Tuple? && |v.items| != 2 ==> r == Err(WrongPaddingArity(|v.items|))
    ensures v.Str? ==> (r.Ok? <==> v.s == "VALID" || v.s == "SAME")
  {
    if !(v.Str? || v.Tuple?) then Err(WrongType(v))
    else if v.Tuple? && |v.items| != 2 then Err(WrongPaddingArity(|v.items|))
    else if v.Str? && v.s != "VALID" && v.s != "SAME" then Err(InvalidPaddingString(v.s))
    else if v.Tuple? && AnyNegative(v.items) then Err(NegativeTuplePadding(v.items))
    else if v.Str? then (if v.s == "VALID" then Ok(ValidPadding) else Ok(SamePadding))
    else
      assert v.items == [v.items[0], v.items[1]];
      Ok(ExplicitPadding(v.items[0], v.items[1]))
  }

  /**
    What assigning `raw` to a padding property stores, or the error it raises:
    a non-negative int p gives (p, p) and a negative one is refused first; a
    string is compared upper-cased against 'VALID' and 'SAME'; a tuple needs
    exactly two non-negative elements; lists and other types are refused.
  */
  function NormalizePadding(raw: Value): (r: Result<Padding, PropertyError>)
    ensures r.Ok? ==> PaddingOk(r.value)
    ensures raw.Int? ==> r == if raw.n < 0 then Err(NegativeIntPadding(raw.n)) else Ok(ExplicitPadding(raw.n, raw.n))
    ensures raw.Str? ==>
      r == (if Upper(raw.s) == "VALID" then Ok(ValidPadding)
            else if Upper(raw.s) == "SAME" then Ok(SamePadding)
            else Err(InvalidPaddingString(Upper(raw.s))))
    ensures raw.Tuple? && |raw.items| != 2 ==> r == Err(WrongPaddingArity(|raw.items|))
    ensures raw.Tuple? && |raw.items| == 2 ==>
      (r.Ok? <==> raw.items[0] >= 0 && raw.items[1] >= 0) &&
      (r.Ok? ==> r.value == ExplicitPadding(raw.items[0], raw.items[1])) &&
      (r.Err? ==> r.error == NegativeTuplePadding(raw.items))
    ensures raw.List? || raw.Other? ==> r == Err(WrongType(raw))
  {
    if raw.Int? && raw.n < 0 then Err(NegativeIntPadding(raw.n))
    else
      var v := CoercePadding(raw);
      assert raw.Int? ==> v.items == [raw.n, raw.n] && !AnyNegative(v.items);
      ValidatePadding(v)
  }

  /** A stored padding, assigned again as the value it reads back as, is stored unchanged. */
  lemma PaddingRoundTrip(p: Padding)
    requires PaddingOk(p)
    ensures NormalizePadding(PaddingToRaw(p)) == Ok(p)
  {
    if !p.ExplicitPadding? {
      UpperOfUpper(PaddingToRaw(p).s);
    }
  }

  /** The mode names are case-insensitive: a string and its upper-cased form normalise alike. */
  lemma PaddingCaseInsensitive(s: string)
    ensures NormalizePadding(Str(s)) == NormalizePadding(Str(Upper(s)))
  {
    UpperIdempotent(s);
  }

  /** Both cases of each mode name normalise to that mode. */
  lemma PaddingModeSpellings()
    ensures NormalizePadding(Str("valid")) == Ok(ValidPadding)
    ensures NormalizePadding(Str("VALID")) == Ok(ValidPadding)
    ensures NormalizePadding(Str("same")) == Ok(SamePadding)
    ensures NormalizePadding(Str("SAME")) == Ok(SamePadding)
  {
    assert Upper("valid") == "VALID";
    assert Upper("same") == "SAME";
    UpperOfUpper("VALID");
    UpperOfUpper("SAME");
  }

  /** A string that is neither four nor five characters long is never a mode name. */
  lemma ModeOfWrongLengthRefused(s: string)
    requires |s| != 4 && |s| != 5
    ensures NormalizePadding(Str(s)) == Err(InvalidPaddingString(Upper(s)))
  {
    assert |Upper(s)| == |s|;
  }
}
