/** `Sequence`: an arithmetic progression from `start` by `step` for as long
    as a bound test against `stop` holds, over Go's integer kinds. */
module Utils {
  /** The reflect kinds `Sequence` distinguishes; `Other` stands for every kind
      it does not support. `int`, `uint` and `uintptr` are 64 bits wide. */
  datatype Kind =
    | Int | Int8 | Int16 | Int32 | Int64
    | Uint | Uint8 | Uint16 | Uint32 | Uint64 | Uintptr
    | Float32 | Float64
    | Other

  predicate IsSigned(k: Kind)
  {
    k.Int? || k.Int8? || k.Int16? || k.Int32? || k.Int64?
  }

  predicate IsUnsigned(k: Kind)
  {
    k.Uint? || k.Uint8? || k.Uint16? || k.Uint32? || k.Uint64? || k.Uintptr?
  }

  predicate IsFloat(k: Kind)
  {
    k.Float32? || k.Float64?
  }

  /** The values a variable of integer kind `k` can hold. */
  predicate InRange(k: Kind, n: int)
    requires IsSigned(k) || IsUnsigned(k)
  {
    match k
    case Int8 => -0x80 <= n < 0x80
    case Int16 => -0x8000 <= n < 0x8000
    case Int32 => -0x8000_0000 <= n < 0x8000_0000
    case Int | Int64 => -0x8000_0000_0000_0000 <= n < 0x8000_0000_0000_0000
    case Uint8 => 0 <= n < 0x100
    case Uint16 => 0 <= n < 0x1_0000
    case Uint32 => 0 <= n < 0x1_0000_0000
    case _ => 0 <= n < 0x1_0000_0000_0000_0000
  }

  predicate IsInteger(k: Kind)
  {
    IsSigned(k) || IsUnsigned(k)
  }

  /** A Go value passed to `Sequence`: its kind, its value for an integer kind
      (`n` means nothing for the other kinds), and whether its type is a named
      type such as `type Speed int16` rather than a predeclared one. */
  datatype Value = Value(kind: Kind, n: int, named: bool)

  predicate Representable(v: Value)
  {
    IsInteger(v.kind) ==> InRange(v.kind, v.n)
  }

  /** What `Sequence` hands back: `nil`, a slice, or a run-time panic. */
  datatype Result = Nil | Slice(values: seq<Value>) | Panic

  // ---------------------------------------------------------------------
  // The capacity computed before the loop

  const TwoTo63: int := 0x8000_0000_0000_0000
  const TwoTo64: int := 0x1_0000_0000_0000_0000

  /** Go's 64-bit two's-complement wrap-around. */
  function Wrap64(x: int): (r: int)
    ensures -TwoTo63 <= r < TwoTo63
    ensures (r - x) % TwoTo64 == 0
    ensures -TwoTo63 <= x < TwoTo63 ==> r == x
  {
    (x + TwoTo63) % TwoTo64 - TwoTo63
  }

  function Abs(x: int): nat
  {
    if x < 0 then -x else x
  }

  /** Go's integer division, which truncates toward zero. */
  function Quot(a: int, b: int): int
    requires b != 0
  {
    var m := Abs(a) / Abs(b);
    if (a < 0) == (b < 0) then m else -m
  }

  /** The slice capacity Go computes from the three values: for signed kinds
      the absolute value of the truncated quotient `(stop - start) / step`,
      in 64-bit arithmetic where both the difference and the negation can
      wrap; for unsigned kinds the 64-bit unsigned quotient, converted to a
      signed `int`. */
  function Capacity(k: Kind, start: int, stop: int, step: int): (c: int)
    requires IsInteger(k)
    requires step != 0
    ensures -TwoTo63 <= c < TwoTo63
  {
    if IsSigned(k) then
      var q := Wrap64(Quot(Wrap64(stop - start), step));
      if q < 0 then Wrap64(-q) else q
    else
      Wrap64(((stop - start) % TwoTo64) / Abs(step))
  }

  lemma QuotAbs(a: int, b: int)
    requires b != 0
    ensures Abs(Quot(a, b)) == Abs(a) / Abs(b)
  {
    DivBounds(Abs(a), Abs(b));
  }

  lemma DivBounds(x: nat, y: nat)
    requires y > 0
    ensures 0 <= x / y <= x
  {
    var q := x / y;
    assert x == y * q + x % y;
    MulNonNegative(y - 1, q);
    assert (y - 1) * q == y * q - q;
  }

  lemma MulNonNegative(a: int, b: int)
    requires a >= 0 && b >= 0
    ensures a * b >= 0
  {
  }

  /** Wherever nothing wraps, the capacity is `|stop - start| / |step|`: the
      number of whole steps from `start` to `stop`, whichever the direction. */
  lemma CapacityNoWrap(k: Kind, start: int, stop: int, step: int)
    requires IsInteger(k) && InRange(k, start) && InRange(k, stop) && InRange(k, step) && step != 0
    requires IsSigned(k) ==> -TwoTo63 < stop - start < TwoTo63
    requires IsUnsigned(k) ==> start <= stop && (stop - start) / step < TwoTo63
    ensures Capacity(k, start, stop, step) == Abs(stop - start) / Abs(step)
  {
    QuotAbs(stop - start, step);
    DivBounds(Abs(stop - start), Abs(step));
  }

  /** Bytes per element of a slice of kind `k`. */
  function ElemSize(k: Kind): nat
  {
    match k
    case Int8 | Uint8 => 1
    case Int16 | Uint16 => 2
    case Int32 | Uint32 => 4
    case _ => 8
  }

  /** The largest allocation Go's runtime grants on 64-bit platforms with
      48-bit heap addresses. */
  const MaxAlloc: int := 0x1_0000_0000_0000

  /** Whether `reflect.MakeSlice` accepts capacity `c` for elements of kind
      `k`: it panics on a negative capacity and on an allocation larger than
      `MaxAlloc`. */
  predicate CapacityOk(k: Kind, c: int)
  {
    0 <= c && c * ElemSize(k) <= MaxAlloc
  }

  /** Go's capacities for inputs at the edges. */
  lemma CapacityExamples()
    ensures Capacity(Int, 0, 10, 2) == 5 && CapacityOk(Int, 5)
    ensures Capacity(Int, 0, 10, -2) == 5
    ensures Capacity(Int16, 0, -10, -2) == 5
    ensures Capacity(Uint8, 5, 10, 1) == 5
    ensures Capacity(Int64, 0, -TwoTo63, 1) == -TwoTo63 && !CapacityOk(Int64, -TwoTo63)
    ensures Capacity(Int, 0, 0x4_0000_0000_0000, -1) == 0x4_0000_0000_0000
    ensures !CapacityOk(Int, 0x4_0000_0000_0000)
    ensures Capacity(Uint, 1, 0, 1) == -1
  {
  }

  /** Whether `Sequence` gets as far as its loop: the three kinds agree on
      an integer kind, the capacity is computed and allocated without a
      panic, and `start` has a predeclared type. */
  predicate ReachesLoop(start: Value, stop: Value, step: Value)
  {
    start.kind == stop.kind == step.kind && IsInteger(start.kind) && step.n != 0 &&
    CapacityOk(start.kind, Capacity(start.kind, start.n, stop.n, step.n)) && !start.named
  }

  // ---------------------------------------------------------------------
  // The loop

  /** The loop's bound test: `v > stop` when `step` is negative, `v < stop`
      otherwise. For unsigned kinds `step` is never negative, so this is the
      unsigned test `v < stop` too. */
  predicate InBound(v: int, stop: int, step: int)
  {
    if step < 0 then v > stop else v < stop
  }

  /** The progression the loop builds: `v`, `v + step`, ... for as long as
      the bound test holds. */
  function Progression(v: int, stop: int, step: int): (r: seq<int>)
    requires step != 0
    ensures forall k :: 0 <= k < |r| ==> InBound(r[k], stop, step)
    decreases if step > 0 then stop - v else v - stop
  {
    if InBound(v, stop, step) then [v] + Progression(v + step, stop, step) else []
  }

  /** Element `k` of the progression is `v + k * step` and passes the bound
      test; `v + |P| * step`, the first value left out, fails it. A step
      pointing away from `stop` gives no elements. */
  lemma {:induction false} ProgressionTerms(v: int, stop: int, step: int)
    requires step != 0
    ensures var p := Progression(v, stop, step);
      (forall k :: 0 <= k < |p| ==> p[k] == v + k * step && InBound(p[k], stop, step)) &&
      !InBound(v + |p| * step, stop, step)
    ensures (step > 0 && v >= stop) || (step < 0 && v <= stop) ==> Progression(v, stop, step) == []
    decreases if step > 0 then stop - v else v - stop
  {
    if InBound(v, stop, step) {
      var p := Progression(v, stop, step);
      var q := Progression(v + step, stop, step);
      ProgressionTerms(v + step, stop, step);
      assert p == [v] + q;
      forall k | 1 <= k < |p|
        ensures p[k] == v + k * step
      {
        assert p[k] == q[k - 1];
        ShiftTerm(v, step, k - 1);
      }
      ShiftTerm(v, step, |q|);
    }
  }

  /** Starting one step later shifts every index by one. */
  lemma ShiftTerm(v: int, step: int, k: nat)
    ensures v + step + k * step == v + (k + 1) * step
  {
  }

  /** The progression is strictly increasing for a positive step and strictly
      decreasing for a negative one. */
  lemma {:induction false} ProgressionMonotone(v: int, stop: int, step: int)
    requires step != 0
    ensures var p := Progression(v, stop, step);
      forall i, j :: 0 <= i < j < |p| ==> if step > 0 then p[i] < p[j] else p[i] > p[j]
    decreases if step > 0 then stop - v else v - stop
  {
    if InBound(v, stop, step) {
      var p := Progression(v, stop, step);
      var q := Progression(v + step, stop, step);
      ProgressionMonotone(v + step, stop, step);
      ProgressionTerms(v + step, stop, step);
      assert p == [v] + q;
      forall i, j | 0 <= i < j < |p|
        ensures if step > 0 then p[i] < p[j] else p[i] > p[j]
      {
        if i == 0 {
          assert p[j] == q[j - 1];
          if j > 1 {
            assert q[0] == v + step;
          }
        } else {
          assert p[i] == q[i - 1] && p[j] == q[j - 1];
        }
      }
    }
  }

  lemma MulMonotone(a: nat, b: nat, step: int)
    requires a <= b
    ensures step > 0 ==> a * step <= b * step
    ensures step < 0 ==> a * step >= b * step
  {
  }

  /** Every value after the first left out fails the bound test too, so the
      length of the progression is the number of `k` for which
      `v + k * step` passes it. */
  lemma ProgressionLength(v: int, stop: int, step: int, k: nat)
    requires step != 0
    requires k >= |Progression(v, stop, step)|
    ensures !InBound(v + k * step, stop, step)
  {
    ProgressionTerms(v, stop, step);
    MulMonotone(|Progression(v, stop, step)|, k, step);
  }

  /** The signed-integer branch: the loop appends the loop variable and adds
      `step` while the sign-aware bound test holds. */
  method SignedSequence(start: int, stop: int, step: int) returns (r: seq<int>)
    requires step != 0
    ensures r == Progression(start, stop, step)
  {
    r := [];
    var v := start;
    while InBound(v, stop, step)
      invariant r + Progression(v, stop, step) == Progression(start, stop, step)
      decreases if step > 0 then stop - v else v - stop
    {
      r := r + [v];
      v := v + step;
    }
  }

  /** The unsigned-integer branch: the same loop with the test `v < stop`; the
      sign of `step` is never consulted. */
  method UnsignedSequence(start: nat, stop: nat, step: nat) returns (r: seq<nat>)
    requires step > 0
    ensures r == Progression(start, stop, step)
  {
    r := [];
    var v: nat := start;
    while v < stop
      invariant r + Progression(v, stop, step) == Progression(start, stop, step)
      decreases stop - v
    {
      r := r + [v];
      v := v + step;
    }
  }

  /** `Sequence(start, stop, step)`. Values of different kinds or of an
      unsupported kind give `nil`. For integer kinds Go then divides by
      `step` (a zero step panics) and allocates the capacity (a negative or
      oversized one panics), and a `start` of a named type gives `nil`.
      Otherwise the result is the progression from `start`, each element of
      `start`'s type. The loop wraps around, and need not end, when the first
      value it leaves out does not fit the kind: callers keep clear of that. */
  method Sequence(start: Value, stop: Value, step: Value) returns (r: Result)
    requires Representable(start) && Representable(stop) && Representable(step)
    requires start.kind == stop.kind == step.kind ==> !IsFloat(start.kind)
    requires ReachesLoop(start, stop, step) ==>
      InRange(start.kind, start.n + |Progression(start.n, stop.n, step.n)| * step.n)
    ensures r.Nil? <==>
      start.kind != stop.kind || start.kind != step.kind || start.kind == Other ||
      (IsInteger(start.kind) && step.n != 0 &&
       CapacityOk(start.kind, Capacity(start.kind, start.n, stop.n, step.n)) && start.named)
    ensures r.Panic? <==>
      start.kind == stop.kind == step.kind && IsInteger(start.kind) &&
      (step.n == 0 || !CapacityOk(start.kind, Capacity(start.kind, start.n, stop.n, step.n)))
    ensures r.Slice? <==> ReachesLoop(start, stop, step)
    ensures r.Slice? ==> |r.values| == |Progression(start.n, stop.n, step.n)|
    ensures r.Slice? ==> forall k :: 0 <= k < |r.values| ==>
      r.values[k] == Value(start.kind, Progression(start.n, stop.n, step.n)[k], false)
    ensures r.Slice? ==> forall k :: 0 <= k < |r.values| ==> Representable(r.values[k])
  {
    if start.kind != stop.kind || start.kind != step.kind {
      return Nil;
    }
    var kind := start.kind;
    if !IsInteger(kind) {
      return Nil;
    }
    if step.n == 0 {
      return Panic;
    }
    var capacity := Capacity(kind, start.n, stop.n, step.n);
    if !CapacityOk(kind, capacity) {
      return Panic;
    }
    if start.named {
      return Nil;
    }
    var ns: seq<int>;
    if IsSigned(kind) {
      ns := SignedSequence(start.n, stop.n, step.n);
    } else {
      ns := UnsignedSequence(start.n, stop.n, step.n);
    }
    ProgressionTerms(start.n, stop.n, step.n);
    forall k | 0 <= k < |ns|
      ensures InRange(kind, ns[k])
    {
      MulMonotone(0, k, step.n);
    }
    r := Slice(seq(|ns|, k requires 0 <= k < |ns| => Value(kind, ns[k], false)));
  }

  /** The progressions of the library's own examples. */
  lemma ProgressionExamples()
    ensures Progression(0, 10, 1) == [0, 1, 2, 3, 4, 5, 6, 7, 8, 9]
    ensures Progression(5, 10, 1) == [5, 6, 7, 8, 9]
    ensures Progression(0, 10, 2) == [0, 2, 4, 6, 8]
    ensures Progression(0, -10, -2) == [0, -2, -4, -6, -8]
    ensures Progression(0, 10, -2) == []
  {
  }

  /** Values of kind `k` and predeclared type holding the integers `ns`. */
  function Values(k: Kind, ns: seq<int>): (r: seq<Value>)
    ensures |r| == |ns|
    ensures forall i :: 0 <= i < |ns| ==> r[i] == Value(k, ns[i], false)
  {
    seq(|ns|, i requires 0 <= i < |ns| => Value(k, ns[i], false))
  }

  /** The library's own calls of `Sequence` and their results. */
  method SequenceExamples() returns (a: Result, b: Result, c: Result, d: Result, e: Result, f: Result)
    ensures a == Slice(Values(Int, [0, 1, 2, 3, 4, 5, 6, 7, 8, 9]))
    ensures b == Slice(Values(Uint8, [5, 6, 7, 8, 9]))
    ensures c == Slice(Values(Uintptr, [0, 2, 4, 6, 8]))
    ensures d == Slice(Values(Int16, [0, -2, -4, -6, -8]))
    ensures e == Nil
    ensures f == Slice([])
  {
    ProgressionExamples();
    a := Sequence(Value(Int, 0, false), Value(Int, 10, false), Value(Int, 1, false));
    assert a.values == Values(Int, [0, 1, 2, 3, 4, 5, 6, 7, 8, 9]);
    b := Sequence(Value(Uint8, 5, false), Value(Uint8, 10, false), Value(Uint8, 1, false));
    assert b.values == Values(Uint8, [5, 6, 7, 8, 9]);
    c := Sequence(Value(Uintptr, 0, false), Value(Uintptr, 10, false), Value(Uintptr, 2, false));
    assert c.values == Values(Uintptr, [0, 2, 4, 6, 8]);
    d := Sequence(Value(Int16, 0, false), Value(Int16, -10, false), Value(Int16, -2, false));
    assert d.values == Values(Int16, [0, -2, -4, -6, -8]);
    e := Sequence(Value(Int, 0, false), Value(Uint8, 10, false), Value(Int, 2, false));
    f := Sequence(Value(Int, 0, false), Value(Int, 10, false), Value(Int, -2, false));
  }
}
