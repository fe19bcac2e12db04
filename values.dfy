/**
  The dynamically typed Python values that the convolution layer inspects
  when it coerces its properties and computes shapes.
*/
module PyValues {

  /**
    A Python value as far as `isinstance` tests in the layer can tell it apart:
    an `int`, a `str`, a `tuple` or a `list` of ints, or anything else
    (a float such as 1.5, `None`, an arbitrary object).
  */
  datatype Value =
    | Int(n: int)
    | Str(s: string)
    | Tuple(items: seq<int>)
    | List(items: seq<int>)
    | Other

  /** `isinstance(v, (list, tuple))` */
  predicate IsSequence(v: Value) {
    v.Tuple? || v.List?
  }

  /** Upper-casing of one character, over the ASCII letters. */
  function UpperChar(c: char): char {
    if 'a' <= c <= 'z' then (c as int - 32) as char else c
  }

  /** `str.upper()`, over the ASCII letters. */
  function Upper(s: string): (r: string)
    ensures |r| == |s|
    ensures forall i :: 0 <= i < |s| ==> r[i] == UpperChar(s[i])
  {
    if s == [] then [] else [UpperChar(s[0])] + Upper(s[1..])
  }

  /** Upper-casing an upper-cased string changes nothing. */
  lemma UpperIdempotent(s: string)
    ensures Upper(Upper(s)) == Upper(s)
  {
  }

  /** A string with no lower-case ASCII letter is its own upper-case form. */
  lemma UpperOfUpper(s: string)
    requires forall i :: 0 <= i < |s| ==> !('a' <= s[i] <= 'z')
    ensures Upper(s) == s
  {
  }
}
