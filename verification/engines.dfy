/** `FFT<T>`: the engine bound to one `Setup`. The transforms are foreign kernel calls; what is
    modelled is everything the facade decides around them: the scratch-buffer size, the buffer
    factories' capacities, the fatal size guards, which kernel entry point each operation
    reaches, and the kind every static size query is evaluated for. */
module Engines {
  import opened Outcomes
  import opened SwiftInt
  import opened Elements
  import opened Buffers
  import opened Setups

  /** Above this size the kernel needs caller-provided working memory. */
  const WorkThreshold: int := 4096

  /** The scratch buffer's contents: kernel-private, never read by the facade. */
  datatype Scratch = Scratch

  /** An engine for element type `element`: its plan, its size and its scratch buffer.
      The kernel pointer `ptr` is `setup.handle`. */
  datatype Engine = Engine(element: Element, setup: Setup, n: int, work: Buffer<Scratch>)

  /** The scratch capacity `init(setup:)` allocates, in scalars. */
  function WorkCapacity(e: Element, n: int): int {
    if n > WorkThreshold then (if IsComplex(e) then 2 * n else n) else 0
  }

  /** `FFT(setup:)`: the engine takes its size from the setup and keeps the setup. The setup's
      size came through `Int32(n)`, so `2 * n` cannot overflow. */
  function FromSetup(e: Element, s: Setup): (g: Engine)
    requires InInt32(s.n)
    ensures g.element == e && g.setup == s && g.n == s.n
    ensures g.n <= WorkThreshold ==> g.work.Count() == 0
    ensures g.n > WorkThreshold ==> g.work.Count() == (if IsComplex(e) then 2 * g.n else g.n)
  {
    var stride := Stride(ScalarType(e));
    var capacity := WorkCapacity(e, s.n);
    assert stride <= 8 && capacity <= 2 * Int32Max;
    assert stride * capacity <= 16 * Int32Max;
    Engine(e, s, s.n, Allocate(capacity, stride, Scratch))
  }

  /** `workPtr`: no scratch pointer when the scratch buffer is empty, the buffer otherwise. */
  function WorkPtr(g: Engine): (p: Option<Buffer<Scratch>>)
    ensures p.None? <==> g.work.Count() == 0
    ensures p.Some? ==> p.value == g.work
  {
    if g.work.Count() > 0 then Some(g.work) else None
  }

  /** An engine built from a setup passes a scratch buffer to the kernel exactly when its size
      exceeds the threshold, and that buffer then holds `n` scalars for a real engine and `2n`
      for a complex one, as the kernel requires. */
  lemma WorkPtrPresentIffLarge(e: Element, s: Setup)
    requires InInt32(s.n)
    ensures WorkPtr(FromSetup(e, s)).Some? <==> s.n > WorkThreshold
    ensures WorkPtr(FromSetup(e, s)).Some? ==>
      WorkPtr(FromSetup(e, s)).value.Count() == (if IsComplex(e) then 2 * s.n else s.n)
  {
  }

  /** Whether `s` is the plan `Setup(n:type:)` builds for element type `e`: the same scalar
      width, the kind `e` resolves `.real` to, and the setup's own size. `init(setup:)` accepts
      any setup without this check. */
  predicate PlanFits(e: Element, s: Setup) {
    s.handle.scalar == e.scalar && s.handle.kind == Resolve(e, Real) && s.handle.n == s.n
  }

  /** The scalars a plan's transform reads and writes on each side: `2n` for a complex plan,
      `n` for a real one. */
  function PlanScalars(h: Handle): int {
    if h.kind == Complex then 2 * h.n else h.n
  }

  /** The scalars in `count` elements of type `e`. */
  function ScalarsOf(e: Element, count: int): int {
    (if IsComplex(e) then 2 else 1) * count
  }

  /** `init(setup:)` with the check it lacks: an engine only for a setup that fits `e`. */
  function FromFittingSetup(e: Element, s: Setup): (r: Option<Engine>)
    requires InInt32(s.n)
    ensures r.Some? <==> PlanFits(e, s)
    ensures r.Some? ==> r.value == FromSetup(e, s)
  {
    if PlanFits(e, s) then Some(FromSetup(e, s)) else None
  }

  // Buffer factories. `extra` is a Swift `Int`; the capacity arithmetic and the byte count
  // `stride * capacity` must stay within `Int`, and the capacity must not be negative.

  /** The spectrum capacity: one complex value per bin, `n/2` of them for a real engine. */
  function SpectrumCapacity(g: Engine, extra: int): int {
    if IsComplex(g.element) then g.n + extra else Half(g.n) + extra
  }

  /** The internal-layout capacity in scalars: `n + extra` points of one or two scalars. */
  function InternalLayoutCapacity(g: Engine, extra: int): int {
    (if IsComplex(g.element) then 2 else 1) * (g.n + extra)
  }

  /** `makeSignalBuffer(extra:)`: `n + extra` elements of type `T`. */
  function MakeSignalBuffer<T>(g: Engine, extra: int, junk: T): (b: Buffer<T>)
    requires InInt(extra) && Allocatable(g.n + extra, Stride(g.element))
    ensures b.Count() == g.n + extra
    ensures extra >= 0 ==> b.Count() >= g.n
  {
    Allocate(g.n + extra, Stride(g.element), junk)
  }

  /** `makeSpectrumBuffer(extra:)`: `n + extra` complex values for a complex engine, `n/2 + extra`
      (truncating) for a real one. */
  function MakeSpectrumBuffer<C>(g: Engine, extra: int, junk: C): (b: Buffer<C>)
    requires InInt(extra) && Allocatable(SpectrumCapacity(g, extra), Stride(ComplexType(g.element)))
    ensures IsComplex(g.element) ==> b.Count() == g.n + extra
    ensures !IsComplex(g.element) ==> b.Count() == Half(g.n) + extra
  {
    Allocate(SpectrumCapacity(g, extra), Stride(ComplexType(g.element)), junk)
  }

  /** `makeInternalLayoutBuffer(extra:)`: `2 * (n + extra)` scalars for a complex engine,
      `n + extra` for a real one. */
  function MakeInternalLayoutBuffer<S>(g: Engine, extra: int, junk: S): (b: Buffer<S>)
    requires InInt(extra) && Allocatable(InternalLayoutCapacity(g, extra), Stride(ScalarType(g.element)))
    ensures IsComplex(g.element) ==> b.Count() == 2 * (g.n + extra)
    ensures !IsComplex(g.element) ==> b.Count() == g.n + extra
  {
    Allocate(InternalLayoutCapacity(g, extra), Stride(ScalarType(g.element)), junk)
  }

  /** A guard's verdict: go on, or stop the process with `fatalError(message)`. */
  datatype Check = Pass | Fatal(message: string)

  /** The fewest complex values an ordered spectrum buffer may hold. */
  function OrderedSpectrumMinimum(g: Engine): int {
    if IsComplex(g.element) then g.n else Half(g.n)
  }

  /** The fewest scalars an internal-layout buffer may hold. */
  function InternalLayoutMinimum(g: Engine): int {
    if IsComplex(g.element) then 2 * g.n else g.n
  }

  /** `checkFftBufferCounts`: the signal needs `n` elements, the spectrum `n` complex values
      (`n/2` for a real engine); the signal is checked first. */
  function CheckFftBufferCounts<S, C>(g: Engine, signal: Buffer<S>, spectrum: Buffer<C>): (r: Check)
    ensures r.Pass? <==> signal.Count() >= g.n && spectrum.Count() >= (if IsComplex(g.element) then g.n else Half(g.n))
    ensures signal.Count() < g.n ==> r == Fatal("signal buffer too small")
    ensures signal.Count() >= g.n && r.Fatal? ==> r == Fatal("spectrum buffer too small")
  {
    if signal.Count() < g.n then Fatal("signal buffer too small")
    else if spectrum.Count() < OrderedSpectrumMinimum(g) then Fatal("spectrum buffer too small")
    else Pass
  }

  /** `checkFftInternalLayoutBufferCounts`: the signal needs `n` elements, the internal-layout
      spectrum `2n` scalars (`n` for a real engine). */
  function CheckFftInternalLayoutBufferCounts<S, F>(g: Engine, signal: Buffer<S>, spectrum: Buffer<F>): (r: Check)
    ensures r.Pass? <==> signal.Count() >= g.n && spectrum.Count() >= (if IsComplex(g.element) then 2 * g.n else g.n)
    ensures signal.Count() < g.n ==> r == Fatal("signal buffer too small")
    ensures signal.Count() >= g.n && r.Fatal? ==> r == Fatal("spectrum buffer too small")
  {
    if signal.Count() < g.n then Fatal("signal buffer too small")
    else if spectrum.Count() < InternalLayoutMinimum(g) then Fatal("spectrum buffer too small")
    else Pass
  }

  /** `checkConvolveBufferCounts`: each of `a`, `b` and `ab`, checked in that order, needs `2n`
      scalars (`n` for a real engine). */
  function CheckConvolveBufferCounts<F>(g: Engine, a: Buffer<F>, b: Buffer<F>, ab: Buffer<F>): (r: Check)
    ensures r.Pass? <==> (var m := if IsComplex(g.element) then 2 * g.n else g.n;
                          a.Count() >= m && b.Count() >= m && ab.Count() >= m)
    ensures a.Count() < InternalLayoutMinimum(g) ==> r == Fatal("a buffer too small")
    ensures a.Count() >= InternalLayoutMinimum(g) && b.Count() < InternalLayoutMinimum(g) ==> r == Fatal("b buffer too small")
    ensures a.Count() >= InternalLayoutMinimum(g) && b.Count() >= InternalLayoutMinimum(g) && r.Fatal? ==> r == Fatal("ab buffer too small")
  {
    var minCount := InternalLayoutMinimum(g);
    if a.Count() < minCount then Fatal("a buffer too small")
    else if b.Count() < minCount then Fatal("b buffer too small")
    else if ab.Count() < minCount then Fatal("ab buffer too small")
    else Pass
  }

  /** The kernel entry point an operation reaches. */
  datatype KernelCall =
    | TransformOrdered(dir: FFTSign)
    | Transform(dir: FFTSign)
    | Zreorder(dir: FFTSign)
    | ZconvolveNoAccu
    | ZconvolveAccumulate

  /** What an operation does: abort with a guard's message, or call the entry point of scalar
      width `width` (`ScalarType`'s, the engine's element width) with the engine's plan and the
      given scratch pointer. */
  datatype Dispatch =
    | Aborted(message: string)
    | Invoked(call: KernelCall, width: Scalar, handle: Handle, work: Option<Buffer<Scratch>>)

  /** The call guarded by `c`. */
  function Guarded(c: Check, call: KernelCall, g: Engine, work: Option<Buffer<Scratch>>): (r: Dispatch)
    ensures r.Invoked? <==> c.Pass?
    ensures c.Fatal? ==> r == Aborted(c.message)
    ensures c.Pass? ==> r == Invoked(call, g.element.scalar, g.setup.handle, work)
  {
    match c
    case Fatal(m) => Aborted(m)
    case Pass => Invoked(call, g.element.scalar, g.setup.handle, work)
  }

  /** `forward(signal:spectrum:)`: an ordered forward transform using the scratch buffer. */
  function Forward<S, C>(g: Engine, signal: Buffer<S>, spectrum: Buffer<C>): (r: Dispatch)
    ensures r.Invoked? <==> signal.Count() >= g.n && spectrum.Count() >= OrderedSpectrumMinimum(g)
    ensures r.Aborted? ==> r.message == CheckFftBufferCounts(g, signal, spectrum).message
    ensures r.Invoked? ==> r == Invoked(TransformOrdered(FFTSign.Forward), g.element.scalar, g.setup.handle, WorkPtr(g))
  {
    Guarded(CheckFftBufferCounts(g, signal, spectrum), TransformOrdered(FFTSign.Forward), g, WorkPtr(g))
  }

  /** `inverse(spectrum:signal:)`: the ordered backward transform, under the same guard. */
  function Inverse<S, C>(g: Engine, spectrum: Buffer<C>, signal: Buffer<S>): (r: Dispatch)
    ensures r.Invoked? <==> signal.Count() >= g.n && spectrum.Count() >= OrderedSpectrumMinimum(g)
    ensures r.Aborted? ==> r.message == CheckFftBufferCounts(g, signal, spectrum).message
    ensures r.Invoked? ==> r == Invoked(TransformOrdered(FFTSign.Backward), g.element.scalar, g.setup.handle, WorkPtr(g))
  {
    Guarded(CheckFftBufferCounts(g, signal, spectrum), TransformOrdered(FFTSign.Backward), g, WorkPtr(g))
  }

  /** `forwardToInternalLayout(signal:spectrum:)`: the unordered forward transform. */
  function ForwardToInternalLayout<S, F>(g: Engine, signal: Buffer<S>, spectrum: Buffer<F>): (r: Dispatch)
    ensures r.Invoked? <==> signal.Count() >= g.n && spectrum.Count() >= InternalLayoutMinimum(g)
    ensures r.Aborted? ==> r.message == CheckFftInternalLayoutBufferCounts(g, signal, spectrum).message
    ensures r.Invoked? ==> r == Invoked(Transform(FFTSign.Forward), g.element.scalar, g.setup.handle, WorkPtr(g))
  {
    Guarded(CheckFftInternalLayoutBufferCounts(g, signal, spectrum), Transform(FFTSign.Forward), g, WorkPtr(g))
  }

  /** `inverseFromInternalLayout(spectrum:signal:)`: the unordered backward transform. */
  function InverseFromInternalLayout<S, F>(g: Engine, spectrum: Buffer<F>, signal: Buffer<S>): (r: Dispatch)
    ensures r.Invoked? <==> signal.Count() >= g.n && spectrum.Count() >= InternalLayoutMinimum(g)
    ensures r.Aborted? ==> r.message == CheckFftInternalLayoutBufferCounts(g, signal, spectrum).message
    ensures r.Invoked? ==> r == Invoked(Transform(FFTSign.Backward), g.element.scalar, g.setup.handle, WorkPtr(g))
  {
    Guarded(CheckFftInternalLayoutBufferCounts(g, signal, spectrum), Transform(FFTSign.Backward), g, WorkPtr(g))
  }

  /** `reorder(spectrum:output:)` as written: the internal-layout input needs `2n` scalars (`n`
      for a real engine) and the ordered output `n` complex values for either kind. The kernel's
      reorder takes no scratch buffer and always runs forward. */
  function ReorderAsWritten<F, C>(g: Engine, spectrum: Buffer<F>, output: Buffer<C>): (r: Dispatch)
    ensures r.Invoked? <==> spectrum.Count() >= InternalLayoutMinimum(g) && output.Count() >= g.n
    ensures spectrum.Count() < InternalLayoutMinimum(g) ==> r == Aborted("signal buffer too small")
    ensures spectrum.Count() >= InternalLayoutMinimum(g) && r.Aborted? ==> r == Aborted("output buffer too small")
    ensures r.Invoked? ==> r == Invoked(Zreorder(FFTSign.Forward), g.element.scalar, g.setup.handle, None)
  {
    var check :=
      if spectrum.Count() < InternalLayoutMinimum(g) then Fatal("signal buffer too small")
      else if output.Count() < g.n then Fatal("output buffer too small")
      else Pass;
    Guarded(check, Zreorder(FFTSign.Forward), g, None)
  }

  /** A real engine's own ordered spectrum buffer (`n/2` complex values) is rejected as the
      output of the as-written `reorder`, although it holds the whole ordered spectrum. */
  lemma ReorderAsWrittenRejectsSpectrumBuffer<F, C>(g: Engine, jf: F, jc: C)
    requires !IsComplex(g.element) && 1 <= g.n && InInt32(g.n)
    ensures ReorderAsWritten(g, MakeInternalLayoutBuffer(g, 0, jf), MakeSpectrumBuffer(g, 0, jc))
         == Aborted("output buffer too small")
  {
    var out := MakeSpectrumBuffer(g, 0, jc);
    assert out.Count() == Half(g.n) < g.n;
  }

  /** `reorder(spectrum:output:)` with the output bound the ordered transforms use: `n` complex
      values for a complex engine, `n/2` for a real one. */
  function Reorder<F, C>(g: Engine, spectrum: Buffer<F>, output: Buffer<C>): (r: Dispatch)
    ensures r.Invoked? <==> spectrum.Count() >= InternalLayoutMinimum(g) && output.Count() >= OrderedSpectrumMinimum(g)
    ensures spectrum.Count() < InternalLayoutMinimum(g) ==> r == Aborted("signal buffer too small")
    ensures spectrum.Count() >= InternalLayoutMinimum(g) && r.Aborted? ==> r == Aborted("output buffer too small")
    ensures r.Invoked? ==> r == Invoked(Zreorder(FFTSign.Forward), g.element.scalar, g.setup.handle, None)
    ensures IsComplex(g.element) ==> r == ReorderAsWritten(g, spectrum, output)
  {
    var check :=
      if spectrum.Count() < InternalLayoutMinimum(g) then Fatal("signal buffer too small")
      else if output.Count() < OrderedSpectrumMinimum(g) then Fatal("output buffer too small")
      else Pass;
    Guarded(check, Zreorder(FFTSign.Forward), g, None)
  }

  /** `convolve(dftA:dftB:dftAB:scaling:)`: `ab = a * b * scaling` in the kernel. */
  function Convolve<F>(g: Engine, a: Buffer<F>, b: Buffer<F>, ab: Buffer<F>): (r: Dispatch)
    ensures r.Invoked? <==> CheckConvolveBufferCounts(g, a, b, ab).Pass?
    ensures r.Aborted? ==> r.message == CheckConvolveBufferCounts(g, a, b, ab).message
    ensures r.Invoked? ==> r == Invoked(ZconvolveNoAccu, g.element.scalar, g.setup.handle, None)
  {
    Guarded(CheckConvolveBufferCounts(g, a, b, ab), ZconvolveNoAccu, g, None)
  }

  /** `convolveAccumulate(dftA:dftB:dftAB:scaling:)`: `ab += a * b * scaling` in the kernel. */
  function ConvolveAccumulate<F>(g: Engine, a: Buffer<F>, b: Buffer<F>, ab: Buffer<F>): (r: Dispatch)
    ensures r.Invoked? <==> CheckConvolveBufferCounts(g, a, b, ab).Pass?
    ensures r.Aborted? ==> r.message == CheckConvolveBufferCounts(g, a, b, ab).message
    ensures r.Invoked? ==> r == Invoked(ZconvolveAccumulate, g.element.scalar, g.setup.handle, None)
  {
    Guarded(CheckConvolveBufferCounts(g, a, b, ab), ZconvolveAccumulate, g, None)
  }

  /** Buffers from the signal and spectrum factories, with any non-negative padding, pass the
      ordered transforms' guards in both directions. */
  lemma FactoryBuffersPassOrderedChecks<S, C>(g: Engine, x: int, y: int, js: S, jc: C)
    requires InInt(x) && Allocatable(g.n + x, Stride(g.element)) && 0 <= x
    requires InInt(y) && Allocatable(SpectrumCapacity(g, y), Stride(ComplexType(g.element))) && 0 <= y
    ensures Forward(g, MakeSignalBuffer(g, x, js), MakeSpectrumBuffer(g, y, jc)).Invoked?
    ensures Inverse(g, MakeSpectrumBuffer(g, y, jc), MakeSignalBuffer(g, x, js)).Invoked?
  {
  }

  /** Buffers from the signal and internal-layout factories, with any non-negative padding, pass
      the internal-layout transforms' guards, and three internal-layout buffers pass the
      convolutions' guard. */
  lemma FactoryBuffersPassInternalLayoutChecks<S, F>(g: Engine, x: int, y: int, z: int, w: int, js: S, jf: F)
    requires InInt(x) && Allocatable(g.n + x, Stride(g.element)) && 0 <= x
    requires InInt(y) && Allocatable(InternalLayoutCapacity(g, y), Stride(ScalarType(g.element))) && 0 <= y
    requires InInt(z) && Allocatable(InternalLayoutCapacity(g, z), Stride(ScalarType(g.element))) && 0 <= z
    requires InInt(w) && Allocatable(InternalLayoutCapacity(g, w), Stride(ScalarType(g.element))) && 0 <= w
    ensures ForwardToInternalLayout(g, MakeSignalBuffer(g, x, js), MakeInternalLayoutBuffer(g, y, jf)).Invoked?
    ensures InverseFromInternalLayout(g, MakeInternalLayoutBuffer(g, y, jf), MakeSignalBuffer(g, x, js)).Invoked?
    ensures Convolve(g, MakeInternalLayoutBuffer(g, y, jf), MakeInternalLayoutBuffer(g, z, jf), MakeInternalLayoutBuffer(g, w, jf)).Invoked?
    ensures ConvolveAccumulate(g, MakeInternalLayoutBuffer(g, y, jf), MakeInternalLayoutBuffer(g, z, jf), MakeInternalLayoutBuffer(g, w, jf)).Invoked?
  {
  }

  /** With the corrected bound, a factory internal-layout buffer reorders into a factory
      spectrum buffer for either kind. */
  lemma FactoryBuffersPassReorder<F, C>(g: Engine, y: int, z: int, jf: F, jc: C)
    requires InInt(y) && Allocatable(InternalLayoutCapacity(g, y), Stride(ScalarType(g.element))) && 0 <= y
    requires InInt(z) && Allocatable(SpectrumCapacity(g, z), Stride(ComplexType(g.element))) && 0 <= z
    ensures Reorder(g, MakeInternalLayoutBuffer(g, y, jf), MakeSpectrumBuffer(g, z, jc)).Invoked?
  {
  }

  // Static size queries: each asks `T`'s witness for `.real`, which a complex element type
  // overrides to `.complex`.

  /** `FFT<T>.isValidSize(n)`. */
  function IsValidSize(k: Kernel, e: Element, n: int): (b: bool)
    requires InInt32(n)
    ensures b <==> k.isValidSize(e.scalar, if IsComplex(e) then Complex else Real, n) != 0
  {
    ElementIsValidSize(k, e, n, Real)
  }

  /** `FFT<T>.nearestValidSize(n, higher:)`. */
  function NearestValidSize(k: Kernel, e: Element, n: int, higher: bool): (m: int)
    requires InInt32(n)
    ensures m == k.nearestTransformSize(e.scalar, if IsComplex(e) then Complex else Real, n, if higher then 1 else 0)
  {
    ElementNearestValidSize(k, e, n, Real, higher)
  }

  /** `FFT<T>.minFftSize`. */
  function MinFftSize(k: Kernel, e: Element): (m: int)
    ensures m == k.minFftSize(e.scalar, if IsComplex(e) then Complex else Real)
  {
    ElementMinFftSize(k, e, Real)
  }

  /** The static queries are evaluated for exactly the scalar width and kind of the plan that
      `Setup(n:type:)` builds for the same element type. */
  lemma StaticQueriesMatchSetupKind(k: Kernel, e: Element, n: int, id: nat)
    requires InInt32(n) && NewSetup(k, n, e, id).Success?
    ensures var h := NewSetup(k, n, e, id).value.handle;
      && IsValidSize(k, e, n) == (k.isValidSize(h.scalar, h.kind, n) != 0)
      && MinFftSize(k, e) == k.minFftSize(h.scalar, h.kind)
      && NearestValidSize(k, e, n, true) == k.nearestTransformSize(h.scalar, h.kind, n, 1)
      && NearestValidSize(k, e, n, false) == k.nearestTransformSize(h.scalar, h.kind, n, 0)
  {
  }

  /** On an engine whose setup fits its element type, the guards ask for what the plan needs:
      a signal that passes them holds the plan's `2n` or `n` scalars, so does an internal-layout
      buffer, and so does an ordered spectrum (two scalars per complex value) for a complex plan
      or a real plan of even size; for a real plan of odd size the ordered guard is one scalar
      short. The kernel is entered at the plan's own width. */
  lemma FittingEngineGuardsCoverPlan<S, C, F>(e: Element, s: Setup, signal: Buffer<S>, spectrum: Buffer<C>, layout: Buffer<F>)
    requires InInt32(s.n) && FromFittingSetup(e, s).Some?
    ensures ScalarsOf(e, FromFittingSetup(e, s).value.n) == PlanScalars(s.handle)
    ensures InternalLayoutMinimum(FromFittingSetup(e, s).value) == PlanScalars(s.handle)
    ensures s.handle.kind == Complex || s.n % 2 == 0 ==>
      2 * OrderedSpectrumMinimum(FromFittingSetup(e, s).value) == PlanScalars(s.handle)
    ensures s.handle.kind == Real && s.n > 0 && s.n % 2 == 1 ==>
      2 * OrderedSpectrumMinimum(FromFittingSetup(e, s).value) == PlanScalars(s.handle) - 1
    ensures Forward(FromFittingSetup(e, s).value, signal, spectrum).Invoked? ==>
      && ScalarsOf(e, signal.Count()) >= PlanScalars(s.handle)
      && (s.handle.kind == Complex || s.n % 2 == 0 ==> 2 * spectrum.Count() >= PlanScalars(s.handle))
      && Forward(FromFittingSetup(e, s).value, signal, spectrum).width == s.handle.scalar
    ensures Inverse(FromFittingSetup(e, s).value, spectrum, signal).Invoked? ==>
      && ScalarsOf(e, signal.Count()) >= PlanScalars(s.handle)
      && (s.handle.kind == Complex || s.n % 2 == 0 ==> 2 * spectrum.Count() >= PlanScalars(s.handle))
      && Inverse(FromFittingSetup(e, s).value, spectrum, signal).width == s.handle.scalar
    ensures ForwardToInternalLayout(FromFittingSetup(e, s).value, signal, layout).Invoked? ==>
      && ScalarsOf(e, signal.Count()) >= PlanScalars(s.handle)
      && layout.Count() >= PlanScalars(s.handle)
      && ForwardToInternalLayout(FromFittingSetup(e, s).value, signal, layout).width == s.handle.scalar
    ensures Reorder(FromFittingSetup(e, s).value, layout, spectrum).Invoked? ==>
      && layout.Count() >= PlanScalars(s.handle)
      && (s.handle.kind == Complex || s.n % 2 == 0 ==> 2 * spectrum.Count() >= PlanScalars(s.handle))
  {
  }

  /** `init(setup:)` as written: an `FFT<Float>` opened on a complex `Float` plan passes every
      guard of `forward` with its own buffers (`n` floats in, `n/2` complex values out), while
      the complex plan reads and writes `2n` scalars; an `FFT<Double>` on the same plan enters
      the `Double` kernel with a `Float` plan. */
  lemma MisfitEnginePassesGuards(s: Setup)
    requires s.handle == Handle(s.handle.id, Float, Complex, s.n) && 1 <= s.n && InInt32(s.n)
    ensures !PlanFits(Plain(Float), s) && !PlanFits(Plain(Double), s)
    ensures var g := FromSetup(Plain(Float), s);
      && Forward(g, MakeSignalBuffer(g, 0, 0.0), MakeSpectrumBuffer(g, 0, 0.0)).Invoked?
      && ScalarsOf(g.element, MakeSignalBuffer(g, 0, 0.0).Count()) < PlanScalars(s.handle)
    ensures var g := FromSetup(Plain(Double), s);
      && Forward(g, MakeSignalBuffer(g, 0, 0.0), MakeSpectrumBuffer(g, 0, 0.0)).Invoked?
      && Forward(g, MakeSignalBuffer(g, 0, 0.0), MakeSpectrumBuffer(g, 0, 0.0)).width != s.handle.scalar
  {
  }
}
