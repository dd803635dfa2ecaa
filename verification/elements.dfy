/** The element types an `FFT<T>` can be instantiated with, the transform kinds of the C
    kernel, and the `FFTElement` witnesses that route every kernel query to a kind.
    The kernel itself is foreign code: it appears here only as the `Kernel` parameter. */
module Elements {
  import opened Outcomes
  import opened SwiftInt

  /** `FFTType`: the kind of transform a kernel plan computes. */
  datatype FFTType = Real | Complex

  /** `FFTSign`: the direction of a transform. */
  datatype FFTSign = Forward | Backward

  /** `FFTError`: the one recoverable error of the facade. */
  datatype FFTError = InvalidSize

  /** The two scalar widths the kernel is compiled for (`pffft_*` and `pffftd_*`). */
  datatype Scalar = Float | Double

  /** The four `FFTElement` conformances: `Float`, `Double`, `Complex<Float>`, `Complex<Double>`.
      Two elements are equal exactly when their Swift types are the same type. */
  datatype Element = Plain(scalar: Scalar) | ComplexOf(scalar: Scalar)

  /** `T.FFTComplexType`: `Complex<T>` for a scalar, and the type itself for a complex type. */
  function ComplexType(e: Element): Element {
    ComplexOf(e.scalar)
  }

  /** `T.FFTScalarType`. */
  function ScalarType(e: Element): Element {
    Plain(e.scalar)
  }

  /** The engine's test `T.self == ComplexType.self`: it holds for the complex element types only. */
  predicate IsComplex(e: Element): (b: bool)
    ensures b <==> e.ComplexOf?
  {
    e == ComplexType(e)
  }

  /** The width in bytes of one scalar. */
  function ScalarBytes(s: Scalar): nat {
    match s
    case Float => 4
    case Double => 8
  }

  /** `MemoryLayout<T>.stride` in bytes: a complex value is two scalars. */
  function Stride(e: Element): (s: nat)
    ensures s >= 4
    ensures s == (if IsComplex(e) then 2 else 1) * ScalarBytes(e.scalar)
  {
    match e
    case Plain(Float) => 4
    case Plain(Double) => 8
    case ComplexOf(Float) => 8
    case ComplexOf(Double) => 16
  }

  /** The opaque native plan a successful `pffft(d)_new_setup` returns. `id` is an abstract
      identity that is never reused, unlike a native pointer, which may be handed out again after
      `pffft_destroy_setup`; `scalar`, `kind` and `n` are what the plan was built for. */
  datatype Handle = Handle(id: nat, scalar: Scalar, kind: FFTType, n: int)

  /** The C kernel's entry points the facade consults, as functions of their C arguments.
      `newSetup` tells whether `pffft(d)_new_setup(n, kind)` returns a non-null plan; the other
      three return the C `int` of the corresponding size query. */
  datatype Kernel = Kernel(
    newSetup: (Scalar, FFTType, int) -> bool,
    minFftSize: (Scalar, FFTType) -> int,
    isValidSize: (Scalar, FFTType, int) -> int,
    nearestTransformSize: (Scalar, FFTType, int, int) -> int)

  /** The kind a witness of `e` actually hands to the kernel when asked for `requested`:
      complex element types substitute `.complex`, scalar types pass the request through. */
  function Resolve(e: Element, requested: FFTType): (k: FFTType)
    ensures IsComplex(e) ==> k == Complex
    ensures !IsComplex(e) ==> k == requested
  {
    match e
    case ComplexOf(_) => Complex
    case Plain(_) => requested
  }

  /** `T.pffftSetup(n, requested)`: a plan for the resolved kind, or `invalidSize` when the
      kernel returns null. `id` is the identity the new plan receives. */
  function ElementSetup(k: Kernel, e: Element, n: int, requested: FFTType, id: nat): (r: Result<Handle, FFTError>)
    requires InInt32(n)
    ensures r.Success? <==> k.newSetup(e.scalar, if IsComplex(e) then Complex else requested, n)
    ensures r.Failure? ==> r.error == InvalidSize
    ensures r.Success? ==> r.value.id == id && r.value.n == n && r.value.scalar == e.scalar
    ensures r.Success? ==> r.value.kind == (if IsComplex(e) then Complex else requested)
  {
    var kind := Resolve(e, requested);
    if k.newSetup(e.scalar, kind, n) then Success(Handle(id, e.scalar, kind, n)) else Failure(InvalidSize)
  }

  /** `T.pffftMinFftSize(requested)`. */
  function ElementMinFftSize(k: Kernel, e: Element, requested: FFTType): (m: int)
    ensures IsComplex(e) ==> m == k.minFftSize(e.scalar, Complex)
    ensures !IsComplex(e) ==> m == k.minFftSize(e.scalar, requested)
  {
    k.minFftSize(e.scalar, Resolve(e, requested))
  }

  /** `T.pffftIsValidSize(n, requested)`: the kernel's C truth value, nonzero meaning valid. */
  function ElementIsValidSize(k: Kernel, e: Element, n: int, requested: FFTType): (b: bool)
    requires InInt32(n)
    ensures IsComplex(e) ==> (b <==> k.isValidSize(e.scalar, Complex, n) != 0)
    ensures !IsComplex(e) ==> (b <==> k.isValidSize(e.scalar, requested, n) != 0)
  {
    k.isValidSize(e.scalar, Resolve(e, requested), n) != 0
  }

  /** `T.pffftNearestValidSize(n, requested, higher)`: `higher` reaches C as 1 or 0. */
  function ElementNearestValidSize(k: Kernel, e: Element, n: int, requested: FFTType, higher: bool): (m: int)
    requires InInt32(n)
    ensures IsComplex(e) ==> m == k.nearestTransformSize(e.scalar, Complex, n, if higher then 1 else 0)
    ensures !IsComplex(e) ==> m == k.nearestTransformSize(e.scalar, requested, n, if higher then 1 else 0)
  {
    k.nearestTransformSize(e.scalar, Resolve(e, requested), n, if higher then 1 else 0)
  }

  /** A complex element type's witnesses answer the same whatever kind they are asked for. */
  lemma ComplexWitnessesIgnoreRequest(k: Kernel, e: Element, n: int, a: FFTType, b: FFTType, higher: bool, id: nat)
    requires IsComplex(e) && InInt32(n)
    ensures ElementSetup(k, e, n, a, id) == ElementSetup(k, e, n, b, id)
    ensures ElementMinFftSize(k, e, a) == ElementMinFftSize(k, e, b)
    ensures ElementIsValidSize(k, e, n, a) == ElementIsValidSize(k, e, n, b)
    ensures ElementNearestValidSize(k, e, n, a, higher) == ElementNearestValidSize(k, e, n, b, higher)
  {
  }
}
