/**
 * DataWrapper: numpy arrays to and from json_tricks text. Strings are taken to
 * be text already; everything else is serialised with NaN and Infinity allowed.
 * Any failure of the library is re-raised as the wrapper's own exception.
 */
module DataWrapper {
  import opened Python

  const ExponentBits: bv64 := 0x7FF0_0000_0000_0000
  const MantissaBits: bv64 := 0x000F_FFFF_FFFF_FFFF

  /** The quiet NaN `float('nan')` gives, which JSON's `NaN` reads back as. */
  const QuietNaN: bv64 := 0x7FF8_0000_0000_0000

  /** All exponent bits set and a non-zero mantissa. */
  predicate IsNaN(f: Float64) {
    f.bits & ExponentBits == ExponentBits && f.bits & MantissaBits != 0
  }

  /** An element after it was written as JSON text and read back: every NaN,
      whatever its sign and payload, is written `NaN` and reads back as the
      quiet NaN; every other element comes back as it was. */
  function ReadBack(x: Scalar): (y: Scalar)
    ensures x.IntScalar? ==> y == x
    ensures x.FloatScalar? && !IsNaN(x.f) ==> y == x
    ensures x.FloatScalar? && IsNaN(x.f) ==> y == FloatScalar(Float64(QuietNaN)) && IsNaN(y.f)
  {
    if x.FloatScalar? && IsNaN(x.f) then FloatScalar(Float64(QuietNaN)) else x
  }

  /** The array json_tricks reads back: same shape, each element read back. */
  function ReadBackArray(a: NdArray): (b: NdArray)
    ensures b.shape == a.shape && |b.elems| == |a.elems|
    ensures forall i :: 0 <= i < |a.elems| ==> b.elems[i] == ReadBack(a.elems[i])
  {
    ArrayData(a.shape, seq(|a.elems|, i requires 0 <= i < |a.elems| => ReadBack(a.elems[i])))
  }

  /** What json_tricks (with `allow_nan=True`) does for arrays: every array,
      NaN and the infinities included, can be written out, and reading the text
      back gives the array with its NaNs made quiet. */
  ghost predicate FaithfulForArrays(tricks: Codec) {
    forall a: NdArray {:trigger tricks.dumps(PyArray(a))} ::
      tricks.dumps(PyArray(a)).Ok? && tricks.loads(tricks.dumps(PyArray(a)).value) == Ok(PyArray(ReadBackArray(a)))
  }

  /** `DataWrapper.unwrap_data`: parse a string, pass anything else through. */
  function UnwrapData(data: Value, tricks: Codec): (r: Result<Value, Error>)
    ensures !data.PyStr? ==> r == Ok(data)
    ensures data.PyStr? ==> (r.Ok? <==> tricks.loads(data.s).Ok?)
    ensures data.PyStr? && r.Ok? ==> r.value == tricks.loads(data.s).value
    ensures r.Err? ==> r.error == DataUnwrappingException(tricks.loads(data.s).error.message)
  {
    if data.PyStr? then
      match tricks.loads(data.s)
      case Ok(v) => Ok(v)
      case Err(x) => Err(DataUnwrappingException(x.message))
    else Ok(data)
  }

  /** `DataWrapper.wrap_data`: serialise a non-string, pass a string through. */
  function WrapData(data: Value, tricks: Codec): (r: Result<Value, Error>)
    ensures data.PyStr? ==> r == Ok(data)
    ensures r.Ok? ==> r.value.PyStr?
    ensures !data.PyStr? ==> (r.Ok? <==> tricks.dumps(data).Ok?)
    ensures !data.PyStr? && r.Ok? ==> r.value == PyStr(tricks.dumps(data).value)
    ensures r.Err? ==> r.error == DataWrappingException(tricks.dumps(data).error.message)
  {
    if data.PyStr? then Ok(data)
    else
      match tricks.dumps(data)
      case Ok(s) => Ok(PyStr(s))
      case Err(x) => Err(DataWrappingException(x.message))
  }

  /** Wrapping is idempotent: its output is a string, which it passes through. */
  lemma WrapDataIdempotent(data: Value, tricks: Codec)
    requires WrapData(data, tricks).Ok?
    ensures WrapData(WrapData(data, tricks).value, tricks) == WrapData(data, tricks)
  {
  }

  /** Unwrapping a non-string twice is the same as once. */
  lemma UnwrapDataFixesNonStrings(data: Value, tricks: Codec)
    requires UnwrapData(data, tricks).Ok? && !UnwrapData(data, tricks).value.PyStr?
    ensures UnwrapData(UnwrapData(data, tricks).value, tricks) == UnwrapData(data, tricks)
  {
  }

  /** The round trip the service relies on: an array wraps without raising
      (NaN and Infinity included) and unwraps to the same array, up to the
      sign and payload of its NaNs. */
  lemma ArrayRoundTrip(a: NdArray, tricks: Codec)
    requires FaithfulForArrays(tricks)
    ensures WrapData(PyArray(a), tricks).Ok?
    ensures UnwrapData(WrapData(PyArray(a), tricks).value, tricks) == Ok(PyArray(ReadBackArray(a)))
  {
    assert tricks.dumps(PyArray(a)).Ok?;
  }

  /** An array without NaNs, or whose NaNs are already quiet, comes back
      exactly. */
  lemma ReadBackKeepsQuietArrays(a: NdArray)
    requires forall i :: 0 <= i < |a.elems| ==>
               (!(a.elems[i].FloatScalar? && IsNaN(a.elems[i].f)) || a.elems[i] == FloatScalar(Float64(QuietNaN)))
    ensures ReadBackArray(a) == a
  {
    assert ReadBackArray(a).elems == a.elems;
  }

  /** After one round trip the array is stable: a second trip changes nothing. */
  lemma ReadBackIdempotent(a: NdArray)
    ensures ReadBackArray(ReadBackArray(a)) == ReadBackArray(a)
  {
    ReadBackKeepsQuietArrays(ReadBackArray(a));
  }
}
