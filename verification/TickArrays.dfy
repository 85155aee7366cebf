/**
  Start indexes of the five tick arrays around a pool's current tick, in checked
  32-bit arithmetic, and the decimal seeds their addresses are derived from.
 */
module TickArrays {
  import opened Decimals
  import opened Wrappers

  const TICK_ARRAY_SIZE := 88
  const I32_MIN := -0x8000_0000
  const I32_MAX := 0x7FFF_FFFF

  type U16 = n: int | 0 <= n < 0x1_0000

  function I32(x: int): Option<int> {
    if I32_MIN <= x <= I32_MAX then Some(x) else None
  }

  /** div_euclid by a positive divisor. */
  function DivEuclid(a: int, b: int): int
    requires b > 0
  {
    a / b
  }

  /** First ticks of the array that holds the tick, of the next two and of the
      previous two; None where an intermediate value leaves the 32-bit range.
      A spacing of zero is refused by the division. */
  function TickArrayIndexes(tick: int, spacing: U16): Option<seq<int>> {
    if spacing == 0 then None
    else
      var realIndex := DivEuclid(DivEuclid(tick, spacing), TICK_ARRAY_SIZE);
      var scaled := I32(realIndex * spacing);
      if scaled.None? then None
      else
        var start := I32(scaled.value * TICK_ARRAY_SIZE);
        var offset := spacing * TICK_ARRAY_SIZE;
        if start.None? || I32(offset).None? || I32(offset * 2).None? then None
        else
          var s := start.value;
          if I32(s + offset).None? || I32(s + offset * 2).None? || I32(s - offset).None? || I32(s - offset * 2).None?
          then None
          else Some([s, s + offset, s + offset * 2, s - offset, s - offset * 2])
  }

  function Width(spacing: U16): int { spacing * TICK_ARRAY_SIZE }

  function StartIndex(tick: int, spacing: U16): int
    requires spacing > 0
  {
    tick / spacing / TICK_ARRAY_SIZE * spacing * TICK_ARRAY_SIZE
  }

  // ----- the start

  lemma QuotientBounds(x: int, d: int)
    requires d > 0
    ensures d * (x / d) <= x < d * (x / d) + d
  {
  }

  /** The nested division rounds down to a whole array. */
  lemma StartHoldsTick(tick: int, spacing: U16)
    requires spacing > 0
    ensures Width(spacing) == 88 * spacing
    ensures StartIndex(tick, spacing) <= tick < StartIndex(tick, spacing) + Width(spacing)
    ensures StartIndex(tick, spacing) == Width(spacing) * (tick / spacing / TICK_ARRAY_SIZE)
  {
    var q := tick / spacing;
    var r := q / TICK_ARRAY_SIZE;
    QuotientBounds(tick, spacing);
    assert 88 * r <= q <= 88 * r + 87;
    MulMonotone(spacing, 88 * r, q);
    MulMonotone(spacing, q, 88 * r + 87);
    assert StartIndex(tick, spacing) == spacing * (88 * r);
    assert spacing * (88 * r + 87) == spacing * (88 * r) + 87 * spacing;
  }

  lemma MulMonotone(c: int, a: int, b: int)
    requires c >= 0 && a <= b
    ensures c * a <= c * b
  {
    assert c * (b - a) >= 0;
  }

  /** It is the only multiple of the width that does. */
  lemma StartIsUnique(tick: int, spacing: U16, k: int)
    requires spacing > 0 && Width(spacing) * k <= tick < Width(spacing) * k + Width(spacing)
    ensures Width(spacing) * k == StartIndex(tick, spacing)
  {
    StartHoldsTick(tick, spacing);
    var w, r := Width(spacing), tick / spacing / TICK_ARRAY_SIZE;
    assert w * (k + 1) == w * k + w && w * (r + 1) == w * r + w;
    if k < r {
      MulMonotone(w, k + 1, r);
    } else if k > r {
      MulMonotone(w, r + 1, k);
    }
  }

  // ----- overflow

  /** The computation succeeds exactly when the outermost of the five indexes
      fit; nothing before them overflows first. */
  lemma SucceedsIffOuterFit(tick: int, spacing: U16)
    requires I32_MIN <= tick <= I32_MAX
    ensures TickArrayIndexes(tick, spacing).Some? <==>
      && spacing > 0
      && -0x8000_0000 <= StartIndex(tick, spacing) - 2 * (88 * spacing)
      && StartIndex(tick, spacing) + 2 * (88 * spacing) <= 0x7FFF_FFFF
    ensures TickArrayIndexes(tick, spacing).Some? ==>
      var s, w := StartIndex(tick, spacing), 88 * spacing;
      TickArrayIndexes(tick, spacing).value == [s, s + w, s + 2 * w, s - w, s - 2 * w]
  {
    if spacing > 0 {
      var realIndex := tick / spacing / TICK_ARRAY_SIZE;
      StartHoldsTick(tick, spacing);
      assert StartIndex(tick, spacing) == 88 * (realIndex * spacing);
    }
  }

  /** In terms of the tick alone. */
  lemma NoOverflowInRange(tick: int, spacing: U16)
    requires spacing > 0 && I32_MIN + 3 * Width(spacing) - 1 <= tick <= I32_MAX - 2 * Width(spacing)
    ensures TickArrayIndexes(tick, spacing).Some?
  {
    StartHoldsTick(tick, spacing);
    SucceedsIffOuterFit(tick, spacing);
  }

  // ----- tiling

  ghost predicate Covers(start: int, spacing: U16, x: int) {
    start <= x < start + Width(spacing)
  }

  /** The five arrays tile the stretch from two widths below to three above the
      start, each tick in exactly one of them, and the current tick in the first. */
  lemma ArraysTile(tick: int, spacing: U16, x: int)
    requires I32_MIN <= tick <= I32_MAX && TickArrayIndexes(tick, spacing).Some?
    ensures var all := TickArrayIndexes(tick, spacing).value;
      && |all| == 5 && Covers(all[0], spacing, tick)
      && (all[4] <= x < all[2] + Width(spacing) <==> exists i :: 0 <= i < 5 && Covers(all[i], spacing, x))
      && (forall i, j :: 0 <= i < j < 5 ==> !(Covers(all[i], spacing, x) && Covers(all[j], spacing, x)))
      && all[4] == all[0] - 2 * Width(spacing) && all[2] == all[0] + 2 * Width(spacing)
  {
    SucceedsIffOuterFit(tick, spacing);
    StartHoldsTick(tick, spacing);
    var all := TickArrayIndexes(tick, spacing).value;
    if all[4] <= x < all[2] + Width(spacing) {
      assert Covers(all[0], spacing, x) || Covers(all[1], spacing, x) || Covers(all[2], spacing, x)
          || Covers(all[3], spacing, x) || Covers(all[4], spacing, x);
    }
  }

  // ----- seeds

  /** No two of the five arrays share a seed. */
  lemma SeedsDiffer(tick: int, spacing: U16, i: nat, j: nat)
    requires I32_MIN <= tick <= I32_MAX && TickArrayIndexes(tick, spacing).Some?
    requires i < j < |TickArrayIndexes(tick, spacing).value|
    ensures Decimal(TickArrayIndexes(tick, spacing).value[i]) != Decimal(TickArrayIndexes(tick, spacing).value[j])
  {
    SucceedsIffOuterFit(tick, spacing);
    var all := TickArrayIndexes(tick, spacing).value;
    if Decimal(all[i]) == Decimal(all[j]) {
      DecimalInjective(all[i], all[j]);
    }
  }
}
