/** `Setup`: the immutable kernel plan for one size and element type. */
module Setups {
  import opened Outcomes
  import opened SwiftInt
  import opened Elements

  /** A plan: the native `handle` (`ptr`) and the size `n` it was built for. */
  datatype Setup = Setup(handle: Handle, n: int)

  /** `Setup(n:type:)`: asks the element type for a `.real` plan of size `n`, so complex element
      types get a complex plan and scalar types a real one; throws `invalidSize` exactly when the
      kernel returns null. `id` is the identity the new plan receives. */
  function NewSetup(k: Kernel, n: int, e: Element, id: nat): (r: Result<Setup, FFTError>)
    requires InInt32(n)
    ensures r.Success? <==> k.newSetup(e.scalar, if IsComplex(e) then Complex else Real, n)
    ensures r.Failure? ==> r.error == InvalidSize
    ensures r.Success? ==> r.value.n == n && r.value.handle.n == n
    ensures r.Success? ==> r.value.handle == Handle(id, e.scalar, if IsComplex(e) then Complex else Real, n)
  {
    match ElementSetup(k, e, n, Real, id)
    case Success(h) => Success(Setup(h, n))
    case Failure(err) => Failure(err)
  }

  /** The scalar width of the destroy function `deinit` calls, as written: always the `Float`
      kernel's `pffft_destroy_setup`, whatever width built the plan. */
  function DeinitWidthAsWritten(s: Setup): (w: Scalar)
    ensures w == s.handle.scalar <==> s.handle.scalar == Float
  {
    Float
  }

  /** A `Double` plan, built by `pffftd_new_setup`, is destroyed through the `Float` kernel. */
  lemma DoublePlanDestroyedThroughFloat(k: Kernel, n: int, e: Element, id: nat)
    requires InInt32(n) && e.scalar == Double && NewSetup(k, n, e, id).Success?
    ensures DeinitWidthAsWritten(NewSetup(k, n, e, id).value) != NewSetup(k, n, e, id).value.handle.scalar
  {
  }

  /** The destroy function's width as intended: that of the kernel that built the plan. */
  function DeinitWidth(s: Setup): (w: Scalar)
    ensures w == DeinitWidthAsWritten(s) <==> s.handle.scalar == Float
  {
    s.handle.scalar
  }

  /** Every plan `Setup(n:type:)` builds is destroyed through the kernel of the width that built
      it (`pffft_destroy_setup` for `Float`, `pffftd_destroy_setup` for `Double`). */
  lemma DeinitMatchesConstructor(k: Kernel, n: int, e: Element, id: nat)
    requires InInt32(n) && NewSetup(k, n, e, id).Success?
    ensures DeinitWidth(NewSetup(k, n, e, id).value) == e.scalar
    ensures k.newSetup(DeinitWidth(NewSetup(k, n, e, id).value), Resolve(e, Real), n)
  {
  }
}
