/**
  Microsecond timestamps cut to 32 bits: their circular distance, and what a
  receiver reconstructs from one.
 */
module CompactTimestamp {
  import opened Bytes

  const MODULUS := 0x1_0000_0000
  const HALF := 0x8000_0000

  function WrappingAdd(a: U32, b: U32): U32 { (a + b) % MODULUS }

  function WrappingSub(a: U32, b: U32): U32 { (a - b) % MODULUS }

  function Min(a: U32, b: U32): U32 { if a <= b then a else b }

  function DurationSinceUs(a: U32, b: U32): U32 {
    var normalDiff := if a > b then a - b else b - a;
    var wraparoundDiff := WrappingAdd(WrappingSub(0xFFFF_FFFF, normalDiff), 1);
    Min(normalDiff, wraparoundDiff)
  }

  function Abs(x: int): nat { if x < 0 then -x else x }

  function Residue(x: int): U32 { x % MODULUS }

  // ----- the distance

  lemma DistanceFormula(a: U32, b: U32)
    ensures DurationSinceUs(a, b) == if Abs(a - b) <= 0x8000_0000 then Abs(a - b) else 0x1_0000_0000 - Abs(a - b)
  {
    var n: U32 := Abs(a - b);
    assert WrappingSub(0xFFFF_FFFF, n) == 0xFFFF_FFFF - n;
    assert WrappingAdd(0xFFFF_FFFF - n, 1) == if n == 0 then 0 else 0x1_0000_0000 - n;
  }

  lemma Quotient(x: int) returns (q: int)
    ensures x == 0x1_0000_0000 * q + Residue(x)
  {
    q := x / MODULUS;
  }

  lemma ResidueOf(x: int, q: int, r: U32)
    requires x == 0x1_0000_0000 * q + r
    ensures Residue(x) == r
  {
  }

  /** The distance of two timestamps is the least distance of any two instants
      they may stand for, reached exactly when these are at most 2^31 apart. */
  lemma DistanceIsLeast(a: U32, b: U32, x: int, y: int)
    requires Residue(x) == a && Residue(y) == b
    ensures DurationSinceUs(a, b) <= Abs(x - y)
    ensures DurationSinceUs(a, b) == Abs(x - y) <==> Abs(x - y) <= 0x8000_0000
  {
    hide DurationSinceUs, Residue;
    DistanceFormula(a, b);
    var i := Quotient(x);
    var j := Quotient(y);
    var k := i - j;
    assert x - y == 0x1_0000_0000 * k + (a - b);
    if k >= 2 || k <= -2 {
      assert Abs(x - y) > 0x1_0000_0000;
    }
  }

  lemma DistanceIsAttained(a: U32, b: U32) returns (x: int, y: int)
    ensures Residue(x) == a && Residue(y) == b && Abs(x - y) == DurationSinceUs(a, b)
  {
    hide DurationSinceUs, Residue;
    DistanceFormula(a, b);
    x, y := a, b;
    if a - b > 0x8000_0000 {
      y := b + 0x1_0000_0000;
    } else if b - a > 0x8000_0000 {
      x := a + 0x1_0000_0000;
    }
    ResidueOf(x, if x == a then 0 else 1, a);
    ResidueOf(y, if y == b then 0 else 1, b);
  }

  /** Attained with the first instant chosen freely. */
  lemma AttainedFrom(x: int, b: U32) returns (y: int)
    ensures Residue(y) == b && Abs(x - y) == DurationSinceUs(Residue(x), b)
  {
    hide DurationSinceUs, Residue;
    var x', y' := DistanceIsAttained(Residue(x), b);
    var i := Quotient(x);
    var j := Quotient(x');
    var k := Quotient(y');
    y := y' + (x - x');
    ResidueOf(y, k + (i - j), b);
  }

  lemma DistanceIsMetric(a: U32, b: U32, c: U32)
    ensures DurationSinceUs(a, b) == 0 <==> a == b
    ensures DurationSinceUs(a, b) == DurationSinceUs(b, a) <= 0x8000_0000
    ensures DurationSinceUs(a, c) <= DurationSinceUs(a, b) + DurationSinceUs(b, c)
  {
    hide DurationSinceUs, Residue;
    DistanceFormula(a, b);
    DistanceFormula(b, a);
    ResidueOf(a, 0, a);
    var y := AttainedFrom(a, b);
    var z := AttainedFrom(y, c);
    DistanceIsLeast(a, c, a, z);
  }

  lemma DistanceIsShiftInvariant(a: U32, b: U32, k: U32)
    ensures DurationSinceUs(WrappingAdd(a, k), WrappingAdd(b, k)) == DurationSinceUs(a, b)
  {
    var x, y := DistanceIsAttained(a, b);
    DistanceIsMetric(a, b, b);
    ResidueAdds(x, a, k);
    ResidueAdds(y, b, k);
    hide DurationSinceUs, Residue;
    DistanceIsLeast(WrappingAdd(a, k), WrappingAdd(b, k), x + k, y + k);
  }

  lemma ResidueAdds(x: int, a: U32, k: U32)
    requires Residue(x) == a
    ensures Residue(x + k) == WrappingAdd(a, k)
  {
    var q := Quotient(x);
    if a + k < 0x1_0000_0000 {
      ResidueOf(x + k, q, a + k);
    } else {
      ResidueOf(x + k, q + 1, a + k - 0x1_0000_0000);
    }
  }

  // ----- reconstruction; instants are nanoseconds since the epoch

  const NANOS_PER_MICRO := 1000

  function FromSystemTime(t: nat): U32 { Residue(t / NANOS_PER_MICRO) }

  function ToSystemTime(timestamp: U32, now: nat): int {
    now - DurationSinceUs(FromSystemTime(now), timestamp) * NANOS_PER_MICRO
  }

  /** A timestamp is the microseconds since the epoch, cut to 32 bits. */
  lemma TimestampMeans(t: nat)
    ensures 0 <= FromSystemTime(t) < 0x1_0000_0000
    ensures exists q :: t / 1000 == 0x1_0000_0000 * q + FromSystemTime(t)
  {
    hide Residue;
    var q := Quotient(t / 1000);
  }

  /** A timestamp is read back to within a microsecond exactly when it is not
      from the future and at most 2^31 microseconds old: about 35.8 minutes,
      half of what the comment gives. */
  lemma ReconstructionWindow(t: nat, now: nat)
    ensures var age := now / 1000 - t / 1000;
      Abs(ToSystemTime(FromSystemTime(t), now) - t) < 1000 <==> 0 <= age <= 0x8000_0000
  {
    hide DurationSinceUs, Residue;
    var n, m := now / 1000, t / 1000;
    var d := DurationSinceUs(Residue(n), Residue(m));
    DistanceIsLeast(Residue(n), Residue(m), n, m);
    var k := HalfError(n, m);
    assert now == 1000 * n + now % 1000 && t == 1000 * m + t % 1000;
    assert ToSystemTime(FromSystemTime(t), now) - t == 2000 * k + (now % 1000 - t % 1000);
    assert k == 0 <==> d == n - m;
  }

  /** The reconstruction error in microseconds is even: never one. */
  lemma HalfError(x: int, y: int) returns (k: int)
    ensures (x - y) - DurationSinceUs(Residue(x), Residue(y)) == 2 * k
  {
    hide DurationSinceUs, Residue;
    DistanceFormula(Residue(x), Residue(y));
    var i := Quotient(x);
    var j := Quotient(y);
    var a: int, b: int := Residue(x), Residue(y);
    if Abs(a - b) <= 0x8000_0000 {
      k := 0x8000_0000 * (i - j) + (if a >= b then 0 else a - b);
    } else {
      k := 0x8000_0000 * (i - j) + (if a >= b then a - b - 0x8000_0000 else -0x8000_0000);
    }
  }

  /** Any timestamp reads back, to the microsecond, as an instant up to 2^31
      microseconds before now that has the same 32 bits or whose mirror image
      around now has them. */
  lemma ReadsBackAsAlias(t: nat, now: nat)
    ensures var n := now / 1000;
      var micros := n - DurationSinceUs(FromSystemTime(now), FromSystemTime(t));
      && ToSystemTime(FromSystemTime(t), now) == micros * 1000 + now % 1000
      && n - 0x8000_0000 <= micros <= n
      && (Residue(micros) == FromSystemTime(t) || Residue(2 * n - micros) == FromSystemTime(t))
  {
    hide DurationSinceUs, Residue;
    var n := now / 1000;
    DistanceIsMetric(Residue(n), FromSystemTime(t), 0);
    var y := AttainedFrom(n, FromSystemTime(t));
    assert now == 1000 * n + now % 1000;
  }

  /** One microsecond outside the window: 2^31 + 1 microseconds read back as 2^31 - 1. */
  lemma WindowIsTight()
    ensures ToSystemTime(FromSystemTime(0), 0x8000_0001 * 1000) == 2 * 1000
  {
  }
}
