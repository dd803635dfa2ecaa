# SwiftPFFFT facade, modelled in Dafny

SwiftPFFFT wraps the PFFFT C library. A generic engine `FFT<T>`, with `T` one of `Float`,
`Double`, `Complex<Float>` and `Complex<Double>`, is bound to a `Setup`: the kernel's plan for
one size `n`. The engine hands out aligned `Buffer`s and aborts any transform whose buffer
counts fall short of what `n` and `T` call for. Those guards protect the plan only when it was
built for `T`: `FFT(setup:)` accepts a plan built for another element type unchecked (see
"## Findings"). Plans are memoized in a `SetupCache` keyed by size and element type. That cache also
caches failed constructions.

This project models the integer and state logic of the facade:

- **Element types and kinds** (`Elements`). A complex element type always asks the kernel for
  a complex plan, whatever kind it is asked for. A scalar type passes the requested kind through.
- **The engine** (`Engines`):
  - the scratch-buffer size, with its threshold at 4096;
  - the capacities of the three buffer factories;
  - the fatal size guards of every operation;
  - which kernel entry point each operation reaches, with which plan and scratch pointer;
  - the kind each static size query is evaluated for.
- **Buffers** (`Buffers`). The count is fixed at allocation. `mapInPlace` and the DC/Nyquist
  packing of `mapInPlaceSwapLast` are modelled as loops over the buffer's contents, including
  a `body` that throws partway through.
- **Plans and the cache** (`Setups`, `SetupCaches`). `get` is a two-step lookup: a shared read,
  then an exclusive re-check-and-insert. `clear` empties the cache. Per-key construction counts
  show that each key is built at most once between clears. Failures are cached. Repeated hits
  return the identical plan.
- **Plan lifetimes** (`Lifetimes`). References to plans are held by cache entries, by
  engines, and by callers who keep a `Setup` returned by the public `get`. `FFT(n:)`,
  `FFT(setup:)` on a held setup, `get`, dropping an engine or a held setup, and `clear` move
  those references. A plan is destroyed once its last reference is gone, and never twice.
  Clearing the cache spares the plans that engines or callers still hold.

The C kernel is a parameter of type `Elements.Kernel`: a value holding the answers of
`pffft(d)_new_setup`, `min_fft_size`, `is_valid_size` and `nearest_transform_size`. Transforms
are represented by the kernel call they dispatch to (`Engines.Dispatch`). Their numerical
results are not modelled.

Swift integer semantics are written out where they matter:

- `Int32(n)` traps unless `n` fits, so every member through which `n` reaches the kernel
  requires `InInt32(n)`.
- An allocation's byte count `stride * capacity` must lie in `0 ... Int.max`.
- `n / 2` truncates toward zero (`SwiftInt.Half`).

A design question: do the static size queries use the same kind as the engine's own plan?
They always request `.real`, and `Setup(n:type:)` also requests `.real`. The complex
witnesses override that request, so for `FFT<Complex<…>>` both are complex-kind.
`Engines.StaticQueriesMatchSetupKind` proves that the queries use the same scalar width and
kind as the plan.

## Model

| member | source | states |
|---|---|---|
| `Elements.IsComplex` | Sources/PFFFT/FFT.swift:92-94 | `T.self == ComplexType.self` holds exactly for the complex element types |
| `Elements.Stride` | Sources/PFFFT/Buffer.swift:18 | the byte stride of an element: a complex value is two scalars of 4 (Float) or 8 (Double) bytes |
| `Elements.Resolve` | Sources/PFFFT/FFT.swift:96-110 | complex element types resolve every requested kind to complex; scalar types keep the requested kind |
| `Elements.ElementSetup` | Sources/PFFFT/FFT.swift:96-152 | `pffftSetup` succeeds exactly when the kernel builds a plan for the resolved kind; the plan records the scalar width, that kind and `n`; a failure throws `invalidSize` |
| `Elements.ElementMinFftSize` | Sources/PFFFT/FFT.swift:96-152 | the minimum size is the kernel's answer for complex when the element is complex, for the requested kind otherwise |
| `Elements.ElementIsValidSize` | Sources/PFFFT/FFT.swift:96-152 | validity is the kernel's nonzero C result for the resolved kind |
| `Elements.ElementNearestValidSize` | Sources/PFFFT/FFT.swift:96-152 | the nearest size is the kernel's answer for the resolved kind, with `higher` passed as 1 or 0 |
| `Elements.ComplexWitnessesIgnoreRequest` | Sources/PFFFT/FFT.swift:96-110 | for a complex element type every witness returns the same result for any two requested kinds |
| `Outcomes.Result.ToOption` | Sources/PFFFT/SetupCache.swift:29 | `try?` gives a value exactly when the call did not throw, and it is the returned value |
| `SwiftInt.Half` | Sources/PFFFT/FFT.swift:199 | Swift's `n / 2` truncates toward zero: for `n >= 0` it is the floor of n/2, for `n < 0` its ceiling |
| `Buffers.Allocate` | Sources/PFFFT/Buffer.swift:16-21 | a buffer allocated with a capacity has exactly that count (the byte count must be a non-negative `Int`) |
| `Buffers.MapInPlace` | Sources/PFFFT/Buffer.swift:51-55 | the count is unchanged; no throw happens exactly when `body` succeeds at every index, and then element i is `body(i)`; on a throw at k, indices below k hold `body(i)`, indices from k on keep their old values, and the error is `body(k)`'s |
| `Buffers.MapInPlaceSwapLast` | Sources/PFFFT/Buffer.swift:81-86 | requires a non-empty buffer; without a throw element i is `body(i)` for i >= 1, element 0 has `body(0)`'s real part and `body(count-1)`'s real part as imaginary part; a throw behaves as in `mapInPlace` and skips the swap |
| `Buffers.NyquistPackedIntoDc` | Sources/PFFFT/Buffer.swift:70-85 | with count `n/2 + 1`, element 0 carries the DC real part and, as imaginary part, the Nyquist bin `n/2`'s real part |
| `Setups.DeinitWidthAsWritten` | Sources/PFFFT/Setup.swift:12-14 | the destroy function `deinit` calls has the plan's own width exactly when the plan is a `Float` one |
| `Setups.DoublePlanDestroyedThroughFloat` | Sources/PFFFT/Setup.swift:12-14 | as written, `deinit` destroys a `Double` plan through the `Float` kernel's destroy function |
| `Setups.DeinitWidth` | Sources/PFFFT/Setup.swift:12-14 | the intended destroy width agrees with the as-written `Float` one exactly for `Float` plans |
| `Setups.DeinitMatchesConstructor` | Sources/PFFFT/Setup.swift:7-14 | as intended, every plan is destroyed through the kernel of the width whose `new_setup` built it |
| `Setups.NewSetup` | Sources/PFFFT/Setup.swift:7-10 | `Setup(n:type:)` succeeds exactly when the kernel accepts `n` for the kind obtained by requesting `.real` (complex for complex types); the plan records `n`; failure is `invalidSize` |
| `Engines.FromSetup` | Sources/PFFFT/FFT.swift:165-176 | the engine keeps the setup and its `n`; the scratch buffer is empty for `n <= 4096`, else `2n` scalars for a complex type and `n` for a real one |
| `Engines.MisfitEnginePassesGuards` | Sources/PFFFT/FFT.swift:165-176 | as written, an `FFT<Float>` on a complex `Float` plan passes `forward`'s guards with `n` floats though the plan needs `2n` scalars, and an `FFT<Double>` on it enters the `Double` kernel with a `Float` plan |
| `Engines.FromFittingSetup` | Sources/PFFFT/FFT.swift:165-176 | `init(setup:)` with a fit check: an engine exactly when the setup has `T`'s scalar width and the kind `T` resolves `.real` to, and then the same engine as `init(setup:)` |
| `Engines.FittingEngineGuardsCoverPlan` | Sources/PFFFT/FFT.swift:227-243 | on a fitting engine the signal and internal-layout thresholds equal the plan's `2n` or `n` scalars; the ordered-spectrum threshold (of `forward`, `inverse` and the corrected `reorder`) equals them for a complex plan or a real plan of even size and is one scalar short for an odd real size; the kernel is entered at the plan's width |
| `Engines.WorkPtr` | Sources/PFFFT/FFT.swift:211-217 | no scratch pointer exactly when the scratch buffer is empty; otherwise the pointer is that buffer |
| `Engines.WorkPtrPresentIffLarge` | Sources/PFFFT/FFT.swift:170-175 | an engine passes a scratch buffer exactly when `n > 4096`, and it then holds `n` (real) or `2n` (complex) scalars |
| `Engines.MakeSignalBuffer` | Sources/PFFFT/FFT.swift:191-193 | the signal buffer holds `n + extra` elements |
| `Engines.MakeSpectrumBuffer` | Sources/PFFFT/FFT.swift:198-200 | the spectrum buffer holds `n + extra` complex values for a complex engine, `n/2 + extra` (truncating) for a real one |
| `Engines.MakeInternalLayoutBuffer` | Sources/PFFFT/FFT.swift:206-208 | the internal-layout buffer holds `2(n + extra)` scalars for a complex engine, `n + extra` for a real one |
| `Engines.CheckFftBufferCounts` | Sources/PFFFT/FFT.swift:225-232 | passes exactly when the signal has `n` elements and the spectrum `n` (complex) or `n/2` (real); the signal is checked first, with the source's messages |
| `Engines.CheckFftInternalLayoutBufferCounts` | Sources/PFFFT/FFT.swift:235-242 | passes exactly when the signal has `n` elements and the spectrum `2n` (complex) or `n` (real) scalars; signal checked first |
| `Engines.CheckConvolveBufferCounts` | Sources/PFFFT/FFT.swift:245-257 | passes exactly when each of a, b, ab has `2n` (complex) or `n` (real) scalars; failures reported in the order a, b, ab |
| `Engines.Forward` | Sources/PFFFT/FFT.swift:279-282 | the ordered forward transform of `ScalarType`'s width runs, with the engine's plan and scratch pointer, exactly when the ordered guard passes; otherwise it aborts with the guard's message |
| `Engines.Inverse` | Sources/PFFFT/FFT.swift:284-287 | the same for the ordered backward transform |
| `Engines.ForwardToInternalLayout` | Sources/PFFFT/FFT.swift:298-301 | the unordered forward transform runs exactly when the internal-layout guard passes |
| `Engines.InverseFromInternalLayout` | Sources/PFFFT/FFT.swift:303-306 | the unordered backward transform runs exactly when the internal-layout guard passes |
| `Engines.ReorderAsWritten` | Sources/PFFFT/FFT.swift:308-316 | the forward reorder, which has no scratch pointer, runs exactly when the input has `2n` (complex) or `n` (real) scalars and the output has `n` complex values for either kind |
| `Engines.ReorderAsWrittenRejectsSpectrumBuffer` | Sources/PFFFT/FFT.swift:308-316 | for a real engine with `n >= 1`, reordering a factory internal-layout buffer into a factory spectrum buffer aborts with "output buffer too small" |
| `Engines.Reorder` | Sources/PFFFT/FFT.swift:308-316 | the corrected reorder: the output bound is the ordered spectrum's, `n` (complex) or `n/2` (real); for complex engines it coincides with the as-written reorder |
| `Engines.Convolve` | Sources/PFFFT/FFT.swift:327-330 | the non-accumulating convolution runs exactly when the convolution guard passes |
| `Engines.ConvolveAccumulate` | Sources/PFFFT/FFT.swift:341-344 | the accumulating convolution runs exactly when the convolution guard passes |
| `Engines.FactoryBuffersPassOrderedChecks` | Sources/PFFFT/FFT.swift:225-232 | factory signal and spectrum buffers with non-negative `extra` never abort `forward` or `inverse` |
| `Engines.FactoryBuffersPassInternalLayoutChecks` | Sources/PFFFT/FFT.swift:235-257 | factory signal and internal-layout buffers with non-negative `extra` never abort the internal-layout transforms or either convolution |
| `Engines.FactoryBuffersPassReorder` | Sources/PFFFT/FFT.swift:308-316 | under the corrected bound, factory internal-layout and spectrum buffers never abort `reorder` |
| `Engines.IsValidSize` | Sources/PFFFT/FFT.swift:352-354 | `isValidSize` asks the kernel about the complex kind for complex element types and the real kind for scalar ones |
| `Engines.NearestValidSize` | Sources/PFFFT/FFT.swift:361-363 | `nearestValidSize` likewise routes to complex or real by element type |
| `Engines.MinFftSize` | Sources/PFFFT/FFT.swift:366-368 | `minFftSize` likewise routes to complex or real by element type |
| `Engines.StaticQueriesMatchSetupKind` | Sources/PFFFT/FFT.swift:352-368 | the static queries consult the kernel for the same scalar width and kind as the plan `Setup(n:type:)` builds |
| `SetupCaches.Empty` | Sources/PFFFT/SetupCache.swift:14-17 | a new cache has no entry and no construction for any key |
| `SetupCaches.Lookup` | Sources/PFFFT/SetupCache.swift:22 | the dictionary read is present exactly when the key has an entry, and is that entry |
| `SetupCaches.EmptyInv` | Sources/PFFFT/SetupCache.swift:17 | the empty cache satisfies the cache invariant |
| `SetupCaches.AtMostOneConstruction` | Sources/PFFFT/SetupCache.swift:24-33 | under the invariant each key has had at most one construction since the last clear, and exactly one iff it has an entry |
| `SetupCaches.Exclusive` | Sources/PFFFT/SetupCache.swift:25-33 | the barrier section returns a present entry unchanged; only if absent does it build once and install the plan or the nil sentinel, adding one construction for that key |
| `SetupCaches.Unwrap` | Sources/PFFFT/SetupCache.swift:35 | the nil sentinel throws `invalidSize`, a plan is returned |
| `SetupCaches.Get` | Sources/PFFFT/SetupCache.swift:19-37 | a hit returns the stored entry and changes nothing; a miss adds one construction, succeeding exactly when the kernel accepts; the result is the key's entry afterwards; no other key's entry or count changes |
| `SetupCaches.Clear` | Sources/PFFFT/SetupCache.swift:39-43 | clear leaves no entry and no construction count for any key |
| `SetupCaches.ClearPreservesInv` | Sources/PFFFT/SetupCache.swift:39-43 | clear keeps the cache invariant |
| `SetupCaches.GetPreservesInv` | Sources/PFFFT/SetupCache.swift:24-33 | `get` keeps the cache invariant: one construction per present key, plans matching their keys, no plan shared by two keys |
| `SetupCaches.GetReturnsPlanForKey` | Sources/PFFFT/SetupCache.swift:29 | a plan `get` returns was built for the requested `n` with the kind `Setup(n:type:)` requests |
| `SetupCaches.FailureIsCached` | Sources/PFFFT/SetupCache.swift:29-35 | after a failed `get`, the next `get` for that key throws again and changes nothing, whatever the kernel would now answer |
| `SetupCaches.GetExtends` | Sources/PFFFT/SetupCache.swift:26-31 | `get` keeps every existing entry |
| `SetupCaches.SameSetupOnRepeatedGets` | Sources/PFFFT/SetupCache.swift:20-36 | after a successful `get`, any later `get` for the key without an intervening clear returns the identical plan and changes nothing |
| `SetupCaches.KeysAreIndependent` | Sources/PFFFT/SetupCache.swift:4-11 | a `get` for one (n, type) leaves the entry of every key differing in n or in type untouched |
| `SetupCaches.FreshAfterClear` | Sources/PFFFT/SetupCache.swift:39-43 | after clear, the next `get` constructs, and a plan it returns differs from every plan the cache held |
| `SetupCaches.RacingFirstRequests` | Sources/PFFFT/SetupCache.swift:21-33 | when two first requests both miss the shared read, the second's re-check finds the first's entry: same result, still one construction |
| `Lifetimes.Settle` | Sources/PFFFT/Setup.swift:12-14 | a plan is destroyed once more exactly when it loses its last reference, from cache entries, engines and caller-held setups together |
| `Lifetimes.Initial` | Sources/PFFFT/SetupCache.swift:45 | the process starts with an empty shared cache, no engines, no caller-held setups, and the lifetime invariant |
| `Lifetimes.OpenEngine` | Sources/PFFFT/FFT.swift:184-186 | `FFT(n:)` takes the plan from the shared cache's `get` and appends an engine of size `n` around it, or throws `invalidSize`; caller-held setups are unchanged |
| `Lifetimes.GetSetup` | Sources/PFFFT/SetupCache.swift:19-37 | a caller's `get` on the shared cache returns its result and, on success, the caller holds that plan; engines are unchanged |
| `Lifetimes.OpenEngineFromSetup` | Sources/PFFFT/FFT.swift:165-176 | `FFT(setup:)` appends an engine around the caller's setup, which the caller keeps; the cache is unchanged |
| `Lifetimes.CallerCanOpenMisfitEngine` | Sources/PFFFT/SetupCache.swift:19-37 | a caller can get a complex `Float` plan from the shared cache and open an engine of any element type on it |
| `Lifetimes.OpenEnginePlanFits` | Sources/PFFFT/FFT.swift:184-186 | `FFT(n:)` always builds its engine around a plan that fits `T`, so it agrees with the checked `FromFittingSetup` |
| `Lifetimes.CloseEngine` | Sources/PFFFT/FFT.swift:163 | dropping an engine removes just that engine and releases its reference |
| `Lifetimes.DropSetup` | Sources/PFFFT/Setup.swift:3 | a caller dropping a held setup removes just that setup and releases its reference |
| `Lifetimes.ClearCache` | Sources/PFFFT/SetupCache.swift:39-43 | clearing the shared cache keeps every engine and every caller-held setup |
| `Lifetimes.OpenPreservesInv` | Sources/PFFFT/FFT.swift:184-186 | opening an engine keeps the lifetime invariant: every plan built is referenced or destroyed, never both, never destroyed twice |
| `Lifetimes.GetSetupPreservesInv` | Sources/PFFFT/SetupCache.swift:19-37 | a caller keeping the result of `get` keeps the lifetime invariant |
| `Lifetimes.OpenFromSetupPreservesInv` | Sources/PFFFT/FFT.swift:165-168 | a held setup went through `Int32(n)`, and `FFT(setup:)` on it keeps the lifetime invariant |
| `Lifetimes.ClosePreservesInv` | Sources/PFFFT/Setup.swift:12-14 | dropping an engine keeps the lifetime invariant |
| `Lifetimes.DropSetupPreservesInv` | Sources/PFFFT/Setup.swift:12-14 | dropping a caller-held setup keeps the lifetime invariant |
| `Lifetimes.ClearPreservesInv` | Sources/PFFFT/SetupCache.swift:41 | clearing the cache keeps the lifetime invariant |
| `Lifetimes.SettlePreservesInv` | Sources/PFFFT/Setup.swift:12-14 | any step that only drops references or adds fresh plans keeps the lifetime invariant |
| `Lifetimes.GetStepPreservesInv` | Sources/PFFFT/SetupCache.swift:19-37 | a `get` whose plan goes to a new engine or to the caller keeps the lifetime invariant |
| `Lifetimes.AcquiringDestroysNothing` | Sources/PFFFT/FFT.swift:165-186 | `FFT(n:)`, `FFT(setup:)` and keeping the result of `get` destroy no plan |
| `Lifetimes.ClearSparesHolders` | Sources/PFFFT/SetupCache.swift:41 | clearing destroys no plan an engine or a caller holds, and destroys once each plan only the cache held |
| `Lifetimes.KeptSetupSurvivesClear` | Sources/PFFFT/SetupCache.swift:19-43 | a setup a caller got from the shared cache is not destroyed by a following `clear` |
| `Lifetimes.DestroysOnlyUnreferencedOnce` | Sources/PFFFT/Setup.swift:12-14 | a plan is destroyed only when it has just lost its last reference, and only for the first time |
| `Lifetimes.AllReleasedAllDestroyed` | Sources/PFFFT/Setup.swift:12-14 | when no cache entry, engine or caller-held setup remains, every plan ever built has been destroyed exactly once |

## Findings

| source | as written | input that shows it | evidently intended | confidence | as-written member | corrected member |
|---|---|---|---|---|---|---|
| Sources/PFFFT/FFT.swift:312 | `reorder` requires `output.count >= n` complex values for either kind | a real engine with `n = 32`: its own `makeSpectrumBuffer()` has 16 complex values, which hold the whole ordered spectrum, and `reorder` aborts with "output buffer too small" | the ordered-output bound of `checkFftBufferCounts`: `n` complex values for a complex engine, `n/2` for a real one | medium, not executed | `Engines.ReorderAsWritten`, `Engines.ReorderAsWrittenRejectsSpectrumBuffer` | `Engines.Reorder`, `Engines.FactoryBuffersPassReorder` |
| Sources/PFFFT/FFT.swift:165-168 | `init(setup:)` takes any `Setup` and sizes every guard by `T`, not by the plan's own kind and width | `FFT<Float>(setup: SetupCache.shared.get(n: 64, type: Complex<Float>.self))`: `forward` with the engine's own buffers passes its guards with 64 floats, while the complex plan reads and writes 128; `FFT<Double>` on the same plan calls the `Double` kernel with a `Float` plan | the engine accepts only a setup built for `T` (its width and the kind `T` resolves `.real` to), so the signal and internal-layout guards cover the plan's scalars, and the ordered-spectrum guard does too for every size the kernel accepts for a real plan (an even one) | medium, not executed | `Lifetimes.OpenEngineFromSetup`, `Lifetimes.CallerCanOpenMisfitEngine`, `Engines.MisfitEnginePassesGuards` | `Engines.FromFittingSetup`, `Engines.FittingEngineGuardsCoverPlan`, `Lifetimes.OpenEnginePlanFits` |
| Sources/PFFFT/Setup.swift:13 | `deinit` always calls `pffft_destroy_setup`, the `Float` kernel's destroy function | any `FFT<Double>` or `FFT<Complex<Double>>` plan, built by `pffftd_new_setup` (Sources/PFFFT/FFT.swift:117), is destroyed through the `Float` kernel | a plan is destroyed through `pffftd_destroy_setup` when the `Double` kernel built it | medium, not executed | `Setups.DeinitWidthAsWritten`, `Setups.DoublePlanDestroyedThroughFloat` | `Setups.DeinitWidth`, `Setups.DeinitMatchesConstructor` |

The guard at Sources/PFFFT/FFT.swift:309 reports a too-small internal-layout input as "signal
buffer too small". The model keeps that message.

## Left out

- The FFT arithmetic: ordered and internal transforms, `zreorder`, the convolutions, the
  unnormalized round trip to `n·x` and the literal spectra of the tests. These are foreign C
  code and floating point. Each operation is modelled only up to the kernel call it dispatches.
- The kernel's size-validity rule and its `nearest_transform_size` search. They are foreign and
  are answers of the `Kernel` parameter.
- `simdArch`, and the enum-to-C-constant mapping in Sources/PFFFT/PFFFT.swift. They are thin
  wrappers over foreign constants and strings.
- Raw memory: the 32-byte alignment, `bindMemory` and `rebind` reinterpretation, deallocation in
  `Buffer.deinit`, the `withUnsafe…` accessors and `Buffer.map`. Buffer contents are a sequence.
  Freshly allocated memory holds unspecified values, modelled as a caller-chosen `junk` value.
- `DispatchQueue` synchronisation. `get` is sequential, with its two lookups as separate steps.
  `RacingFirstRequests` covers one interleaving of two requests; general thread interleavings
  are not modelled.
- Independent `SetupCache` instances in `Lifetimes`. The lifetime model has the one shared
  cache, while `SetupCaches` models any single instance.
- Swift `Int` overflow in `n + extra`, `n / 2 + extra` and `2 * (n + extra)`. It is covered only
  through the requirement that the final capacity and byte count fit in `Int`.
- `Engines.FromSetup`: requires `InInt32(setup.n)`, which every plan built by `Setup(n:type:)`
  satisfies because `n` went through `Int32(n)`. Like the source, it does not check that the
  setup fits the element type; the checked variant is `Engines.FromFittingSetup`.
- `Lifetimes.Settle`: a destruction is recorded by plan identity only, not by which kernel's
  destroy function is called. The destroy function's width is modelled separately, by
  `Setups.DeinitWidthAsWritten` (always `Float`, as `deinit` is written) and `Setups.DeinitWidth`.
- `Buffers.MapInPlaceSwapLast`: requires a non-empty buffer, as its documented use (a spectrum
  of `n/2 + 1` values) implies. The source has no guard: `buffer[0]` and
  `buffer[buffer.count - 1]` at Sources/PFFFT/Buffer.swift:85 are checked only in debug builds,
  so an empty buffer is an unchecked out-of-bounds access in optimized builds.
- Package.swift build configuration.
- `Engines.FittingEngineGuardsCoverPlan`: covers the ordered spectrum only for complex plans and
  real plans of even size. That the kernel builds real plans only for even sizes is part of
  its size rule, which the `Kernel` parameter leaves open; for an odd real size the model
  shows the ordered guard one scalar short of the plan.
- `Buffers.MapInPlace` and `Buffers.MapInPlaceSwapLast`: `body` is a pure function of the
  index. The contracts say which results are written, not that `body` is called once per index,
  in ascending order, and never after the first throw (Sources/PFFFT/Buffer.swift:51-55), which a
  closure with side effects could observe.
- `Lifetimes.OpenEngine`, `Lifetimes.GetSetup`, `SetupCaches.Get`, `Setups.NewSetup`,
  `Elements.ElementSetup`, `Elements.ElementIsValidSize`, `Elements.ElementNearestValidSize`,
  `Engines.IsValidSize` and `Engines.NearestValidSize`: require `InInt32(n)`. `init(n:)` is
  documented to throw `invalidSize` for an invalid size (Sources/PFFFT/FFT.swift:183), but
  `Int32(n)` at Sources/PFFFT/FFT.swift:117, 126, 130, 138, 147 and 151 traps before the kernel
  is asked when `n` does not fit in 32 bits. The trap is a process abort, so those sizes are
  outside the model rather than a thrown error.
- `Engines.Forward`, `Engines.Inverse`, `Engines.ForwardToInternalLayout`,
  `Engines.InverseFromInternalLayout`, `Engines.Reorder` and the convolutions: the `Dispatch`
  names the kernel entry point, its scalar width, the plan and the scratch buffer, but not which buffer goes in which
  argument position (for example, `inverse` passes the spectrum as the kernel's input). The
  argument wiring is a pointer reinterpretation at the kernel boundary.
