/** Helpers shared by the layers and solvers: memory writes, scalar tensors, casts and `axpby`. */
module Util {
  import opened Wrappers
  import opened Tensors

  /** Where a tensor's current copy lives: host memory, or a device buffer the host cannot write. */
  datatype MemoryType<T> = Native(buffer: array<T>) | Device

  /**
   * `write_to_memory`: copies `data` element by element into the front of
   * a native buffer; a device buffer is left alone.
   */
  method WriteToMemory<T>(mem: MemoryType<T>, data: seq<T>)
    requires mem.Native? ==> |data| <= mem.buffer.Length
    modifies if mem.Native? then {mem.buffer} else {}
    ensures mem.Native? ==> mem.buffer[..] == data + old(mem.buffer[|data|..])
  {
    match mem
    case Native(buffer) =>
      var index := 0;
      while index < |data|
        invariant 0 <= index <= |data|
        invariant buffer[..] == data[..index] + old(buffer[index..])
      {
        buffer[index] := data[index];
        index := index + 1;
        assert buffer[..] == data[..index] + old(buffer[index..]) by {
          assert data[..index] == data[..index - 1] + [data[index - 1]];
        }
      }
      assert data[..index] == data;
    case Device =>
  }

  /** `native_scalar`: a one-element tensor of shape `[1]` holding `scalar`. */
  method NativeScalar(scalar: real) returns (t: SharedTensor)
    ensures fresh(t) && fresh(t.mem) && t.Valid()
    ensures t.desc == [1] && t.mem[..] == [scalar]
  {
    t := new SharedTensor([1]);
    WriteToMemory(Native(t.mem), [scalar]);
  }

  const I32_MIN: int := -0x8000_0000
  const I32_MAX: int := 0x7FFF_FFFF

  /** Rust's `x as i32` for a `usize`: keep the low 32 bits and read them as two's complement. */
  function AsI32(x: nat): (r: int)
    ensures I32_MIN <= r <= I32_MAX
    ensures (r - x) % 0x1_0000_0000 == 0
    ensures x <= I32_MAX ==> r == x
  {
    var low := x % 0x1_0000_0000;
    if low <= I32_MAX then low else low - 0x1_0000_0000
  }

  /** `cast_vec_usize_to_i32`: element-wise `as i32`. */
  function CastVecUsizeToI32(input: seq<nat>): (out: seq<int>)
    ensures |out| == |input|
    ensures forall i :: 0 <= i < |input| ==> I32_MIN <= out[i] <= I32_MAX
    ensures forall i :: 0 <= i < |input| && input[i] <= I32_MAX ==> out[i] == input[i]
    ensures forall i :: 0 <= i < |input| ==> (out[i] - input[i]) % 0x1_0000_0000 == 0
  {
    seq(|input|, i requires 0 <= i < |input| => AsI32(input[i]))
  }

  /** What a BLAS call of the backend reports. */
  datatype Outcome = Success | Failure

  /** The BLAS calls `axpby_plain` makes, in the order it makes them. */
  datatype BlasCall = Scal | Axpy

  /**
   * `axpby_plain`: `y := a*x + b*y` as a `scal(b, y)` followed by an
   * `axpy(a, x, y)`; the first failure is returned and nothing after it
   * runs. The outcomes are the backend's; a failed call is taken to leave
   * `y` as it was.
   */
  method AxpbyPlain(a: real, x: array<real>, b: real, y: array<real>, scalOutcome: Outcome, axpyOutcome: Outcome)
    returns (r: Outcome, calls: seq<BlasCall>)
    requires x != y
    requires x.Length != y.Length ==> axpyOutcome == Failure
    modifies y
    ensures calls == if scalOutcome == Failure then [Scal] else [Scal, Axpy]
    ensures r == Success <==> scalOutcome == Success && axpyOutcome == Success
    ensures scalOutcome == Failure ==> y[..] == old(y[..])
    ensures scalOutcome == Success && axpyOutcome == Failure ==>
      forall i :: 0 <= i < y.Length ==> y[i] == b * old(y[i])
    ensures r == Success ==>
      forall i :: 0 <= i < y.Length ==> y[i] == a * x[i] + b * old(y[i])
  {
    calls := [Scal];
    if scalOutcome == Failure {
      return Failure, calls;
    }
    ScalPlain(b, y);
    calls := calls + [Axpy];
    if axpyOutcome == Failure {
      return Failure, calls;
    }
    AxpyPlain(a, x, y);
    r := Success;
  }

  /** The effect of a successful `scal(b, y)`: `y := b*y`. */
  method ScalPlain(b: real, y: array<real>)
    modifies y
    ensures forall i :: 0 <= i < y.Length ==> y[i] == b * old(y[i])
  {
    var i := 0;
    while i < y.Length
      invariant 0 <= i <= y.Length
      invariant forall k :: 0 <= k < i ==> y[k] == b * old(y[k])
      invariant forall k :: i <= k < y.Length ==> y[k] == old(y[k])
    {
      y[i] := b * y[i];
      i := i + 1;
    }
  }

  /** The effect of a successful `axpy(a, x, y)`: `y := a*x + y`. */
  method AxpyPlain(a: real, x: array<real>, y: array<real>)
    requires x != y && x.Length == y.Length
    modifies y
    ensures forall i :: 0 <= i < y.Length ==> y[i] == a * x[i] + old(y[i])
  {
    var i := 0;
    while i < y.Length
      invariant 0 <= i <= y.Length
      invariant forall k :: 0 <= k < i ==> y[k] == a * x[k] + old(y[k])
      invariant forall k :: i <= k < y.Length ==> y[k] == old(y[k])
    {
      y[i] := a * x[i] + y[i];
      i := i + 1;
    }
  }
}
