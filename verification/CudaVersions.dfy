/** Exactly when reading a CUDA minor version as decimals keeps the order of versions. */
module CudaVersions {
  import opened Basics
  import opened Profiles
  import opened Compatibility

  lemma {:induction false} BelowPower(n: nat)
    ensures n < PowerOfTen(Digits(n))
  {
    if n >= 10 {
      BelowPower(n / 10);
    }
  }

  lemma {:induction false} FractionOrder(b: nat, p: nat, d: nat, q: nat)
    requires p > 0 && q > 0
    ensures b as real / p as real < d as real / q as real <==> b * q < d * p
  {
    var x, y := b as real / p as real, d as real / q as real;
    assert x * p as real == b as real && y * q as real == d as real;
    Scaled(x, y, p as real, q as real);
    assert (b * q) as real == b as real * q as real && (d * p) as real == d as real * p as real;
  }

  lemma {:induction false} Scaled(x: real, y: real, p: real, q: real)
    requires p > 0.0 && q > 0.0
    ensures x < y <==> (x * p) * q < (y * q) * p
  {
    var f := p * q;
    assert f > 0.0;
    assert (x * p) * q == x * f && (y * q) * p == y * f;
    Widened(x, y, f);
  }

  lemma {:induction false} Widened(x: real, y: real, f: real)
    requires f > 0.0
    ensures x < y <==> x * f < y * f
  {
    assert y * f - x * f == (y - x) * f;
    if x < y { assert (y - x) * f > 0.0; }
    if x >= y { assert (x - y) * f >= 0.0; assert x * f - y * f == (x - y) * f; }
  }

  lemma {:induction false} FractionIsProper(n: nat, p: nat)
    requires n < p
    ensures 0.0 <= n as real / p as real < 1.0
  {
    var x := n as real / p as real;
    assert x * p as real == n as real;
    Widened(x, 1.0, p as real);
    Widened(x, 0.0, p as real);
  }

  /** Decimals are ordered by major number, and within it by the minor numbers scaled to a common length. */
  lemma {:induction false} DecimalOrder(a: nat, b: nat, c: nat, d: nat)
    ensures Decimal(a, b) < Decimal(c, d)
      <==> a < c || (a == c && b * PowerOfTen(Digits(d)) < d * PowerOfTen(Digits(b)))
  {
    BelowPower(b);
    BelowPower(d);
    FractionIsProper(b, PowerOfTen(Digits(b)));
    FractionIsProper(d, PowerOfTen(Digits(d)));
    FractionOrder(b, PowerOfTen(Digits(b)), d, PowerOfTen(Digits(d)));
    assert a < c ==> a as real + 1.0 <= c as real;
    assert c < a ==> c as real + 1.0 <= a as real;
  }

  predicate Earlier(a: nat, b: nat, c: nat, d: nat) { a < c || (a == c && b < d) }

  /** The majors differ, or scaling the minors to a common length keeps their order. */
  predicate ReadInOrder(a: nat, b: nat, c: nat, d: nat) {
    a != c || (b < d <==> b * PowerOfTen(Digits(d)) < d * PowerOfTen(Digits(b)))
  }

  lemma {:induction false} OrderKeptIff(a: nat, b: nat, c: nat, d: nat)
    ensures (Decimal(a, b) < Decimal(c, d) <==> Earlier(a, b, c, d)) <==> ReadInOrder(a, b, c, d)
  {
    DecimalOrder(a, b, c, d);
  }

  lemma {:induction false} ProductGrows(d: int, p: nat)
    requires p > 0
    ensures d > 0 <==> d * p > 0
  {
  }

  lemma {:induction false} ScaledAlike(b: nat, d: nat, p: nat)
    requires p > 0
    ensures b < d <==> b * p < d * p
  {
    ProductGrows(d - b, p);
    assert (d - b) * p == d * p - b * p;
  }

  /** Minor numbers of equally many digits are read in order. */
  lemma {:induction false} SameLengthInOrder(a: nat, b: nat, c: nat, d: nat)
    requires Digits(b) == Digits(d)
    ensures ReadInOrder(a, b, c, d)
  {
    ScaledAlike(b, d, PowerOfTen(Digits(b)));
  }

  /** A tuple's CUDA minimum is judged as version order would judge it if and only if the two versions are read in order. */
  lemma {:induction false} TupleMinimumRightIff(t: Tables, p: Profile, s: Selector, major: nat, minor: nat)
    requires p.cuda.Some? && s.cudaMin == Some(Decimal(major, minor)) && TupleMatches(t, p, s.(cudaMin := None))
    ensures (TupleMatches(t, p, s) <==> !Earlier(p.cuda.value.major, p.cuda.value.minor, major, minor))
      <==> ReadInOrder(p.cuda.value.major, p.cuda.value.minor, major, minor)
  {
    OrderKeptIff(p.cuda.value.major, p.cuda.value.minor, major, minor);
  }

  /** So is the minimum of a layer's requirement. */
  lemma {:induction false} NeedMinimumRightIff(t: Tables, p: Profile, layer: string, major: nat, minor: nat)
    requires p.cuda.Some?
    ensures (NeedErrors(t, p, Need(layer, "cuda_runtime", Range(Some(Decimal(major, minor)), None))) == []
             <==> !Earlier(p.cuda.value.major, p.cuda.value.minor, major, minor))
      <==> ReadInOrder(p.cuda.value.major, p.cuda.value.minor, major, minor)
  {
    OrderKeptIff(p.cuda.value.major, p.cuda.value.minor, major, minor);
    RangeIsChecked(t, p, layer, Decimal(major, minor));
  }

  lemma {:induction false} RangeIsChecked(t: Tables, p: Profile, layer: string, min: real)
    ensures NeedErrors(t, p, Need(layer, "cuda_runtime", Range(Some(min), None))) == [] <==> !Below(CudaVersion(p), Some(min))
  {
    KeysDiffer();
  }

  lemma {:induction false} KeysDiffer()
    ensures "cuda_runtime"[1] == 'u' && "cuda_runtime"[0] == 'c' && "container_runtime"[1] == 'o'
    ensures "cuda_runtime" !in {"arch", "arch_id", "os", "os_family_id", "os_version_id", "gpu_vendor", "gpu_vendor_id", "gpu_family_id",
                                "container_runtime", "driver_min"}
  {
    assert "arch"[0] != 'c' && "arch_id"[0] != 'c' && "os"[0] != 'c' && "os_family_id"[0] != 'c' && "os_version_id"[0] != 'c';
    assert "gpu_vendor"[0] != 'c' && "gpu_vendor_id"[0] != 'c' && "gpu_family_id"[0] != 'c' && "driver_min"[0] != 'c';
  }

  /** CUDA 12.10 fails every tuple and every requirement that asks for 12.4, though it is later; 12.4 itself passes the test. */
  lemma {:induction false} TwelveTenFailsTwelveFour(t: Tables, p: Profile, s: Selector, layer: string)
    requires p.cuda.Some? && p.cuda.value.major == 12 && p.cuda.value.minor == 10 && s.cudaMin == Some(12.4)
    ensures !Earlier(12, 10, 12, 4) && !TupleMatches(t, p, s)
    ensures NeedErrors(t, p, Need(layer, "cuda_runtime", Range(Some(12.4), None))) != []
    ensures !Below(CudaVersion(p.(cuda := Some(p.cuda.value.(minor := 4)))), s.cudaMin)
  {
    Powers();
    RangeIsChecked(t, p, layer, 12.4);
  }

  lemma {:induction false} Powers()
    ensures Decimal(12, 10) == 12.1 && Decimal(12, 4) == 12.4
  {
    assert Digits(10) == 2 && Digits(4) == 1;
    assert PowerOfTen(1) == 10 && PowerOfTen(2) == 100;
  }
}
