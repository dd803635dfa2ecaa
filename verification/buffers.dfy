/** `Buffer<T>`: a fixed-capacity, exclusively owned block of elements, and its two in-place
    mapping operations. The block is modelled by its contents; alignment and deallocation
    are not modelled. */
module Buffers {
  import opened Outcomes
  import opened SwiftInt

  /** A buffer's elements. `buffer` is an immutable `let`, so the count never changes. */
  datatype Buffer<T> = Buffer(elems: seq<T>) {
    /** `count`: the number of elements the buffer holds. */
    function Count(): nat {
      |elems|
    }
  }

  /** The byte count `stride * capacity` of an allocation is a non-negative Swift `Int`;
      otherwise the allocation traps. */
  predicate Allocatable(capacity: int, stride: nat) {
    0 <= capacity && stride * capacity <= IntMax
  }

  /** `Buffer(capacity:)`. Fresh memory holds unspecified values; `junk` stands for them. */
  function Allocate<T>(capacity: int, stride: nat, junk: T): (b: Buffer<T>)
    requires Allocatable(capacity, stride)
    ensures b.Count() == capacity
  {
    Buffer(seq(capacity, _ => junk))
  }

  /** `body` threw `e` at index `k`: every earlier index was written with its value,
      and `k` and every later index keep what `b` held. */
  ghost predicate StoppedAt<T, E>(b: Buffer<T>, body: int -> Result<T, E>, r: Buffer<T>, k: int, e: E) {
    && 0 <= k < b.Count() == r.Count()
    && body(k) == Failure(e)
    && (forall i :: 0 <= i < k ==> body(i) == Success(r.elems[i]))
    && (forall i :: k <= i < b.Count() ==> r.elems[i] == b.elems[i])
  }

  /** `mapInPlace(body)`: writes `body(i)` into every index in ascending order. A throw stops
      the loop and propagates, leaving the writes already made in place. */
  method MapInPlace<T, E>(b: Buffer<T>, body: int -> Result<T, E>) returns (r: Buffer<T>, thrown: Option<E>)
    ensures r.Count() == b.Count()
    ensures thrown.None? <==> forall i :: 0 <= i < b.Count() ==> body(i).Success?
    ensures thrown.None? ==> forall i :: 0 <= i < b.Count() ==> body(i) == Success(r.elems[i])
    ensures thrown.Some? ==> exists k :: StoppedAt(b, body, r, k, thrown.value)
  {
    var elems := b.elems;
    var i := 0;
    while i < |elems|
      invariant 0 <= i <= |elems| == b.Count()
      invariant forall j :: 0 <= j < i ==> body(j) == Success(elems[j])
      invariant forall j :: i <= j < |elems| ==> elems[j] == b.elems[j]
    {
      var v := body(i);
      if v.Failure? {
        r, thrown := Buffer(elems), Some(v.error);
        assert StoppedAt(b, body, r, i, v.error);
        return;
      }
      elems := elems[i := v.value];
      i := i + 1;
    }
    r, thrown := Buffer(elems), None;
  }

  /** A value of the `ComplexType` protocol: `re` is its `real` part and `im` its `imaginary` part. */
  datatype Cplx<R> = Cplx(re: R, im: R)

  /** The outcome of a `mapInPlaceSwapLast` that did not throw: every index but 0 holds its
      `body` value, and index 0 holds `body(0)`'s real part with the last value's real part
      as its imaginary part. */
  ghost predicate SwappedLast<R, E>(b: Buffer<Cplx<R>>, body: int -> Result<Cplx<R>, E>, r: Buffer<Cplx<R>>) {
    && 1 <= b.Count() == r.Count()
    && (forall i :: 0 <= i < b.Count() ==> body(i).Success?)
    && (forall i :: 1 <= i < b.Count() ==> r.elems[i] == body(i).value)
    && r.elems[0] == Cplx(body(0).value.re, body(b.Count() - 1).value.re)
  }

  /** `mapInPlaceSwapLast(body)`: `mapInPlace`, then the real part of the last element is
      copied into the imaginary part of element 0. The buffer must not be empty, since the
      last element is read. */
  method MapInPlaceSwapLast<R, E>(b: Buffer<Cplx<R>>, body: int -> Result<Cplx<R>, E>)
    returns (r: Buffer<Cplx<R>>, thrown: Option<E>)
    requires b.Count() >= 1
    ensures r.Count() == b.Count()
    ensures thrown.None? <==> forall i :: 0 <= i < b.Count() ==> body(i).Success?
    ensures thrown.None? ==> SwappedLast(b, body, r)
    ensures thrown.Some? ==> exists k :: StoppedAt(b, body, r, k, thrown.value)
  {
    r, thrown := MapInPlace(b, body);
    if thrown.None? {
      var last := r.elems[r.Count() - 1];
      r := Buffer(r.elems[0 := r.elems[0].(im := last.re)]);
    }
  }

  /** With the documented spectrum size `count == n/2 + 1`, element 0 carries the DC bin's
      real part and, in its imaginary part, the Nyquist bin `n/2`'s real part. */
  lemma NyquistPackedIntoDc<R, E>(n: int, b: Buffer<Cplx<R>>, body: int -> Result<Cplx<R>, E>, r: Buffer<Cplx<R>>)
    requires b.Count() == Half(n) + 1
    requires SwappedLast(b, body, r)
    ensures body(0).Success? && body(Half(n)).Success?
    ensures r.elems[0].re == body(0).value.re
    ensures r.elems[0].im == body(Half(n)).value.re
  {
  }
}
