/** Rounding of worked hours up to a billing step, and pricing of the
    rounded hours.  Hours, rates and totals are exact reals here. */
module Pricing {
  import opened Sequences

  /** Python's math.ceil: the least integer not below x. */
  function Ceil(x: real): (k: int)
    ensures x <= k as real < x + 1.0
  {
    -((-x).Floor)
  }

  /** True when h hours is a whole number of step-minute increments,
      that is, h * 60 is a multiple of step. */
  ghost predicate OnStep(h: real, step: int)
    requires step > 0
  {
    var q := h * 60.0 / step as real;
    q.Floor as real == q
  }

  /** WorkItem.get_rounded_hours: the hours converted to minutes, rounded up
      to a whole number of steps, converted back to hours. */
  function RoundUpHours(hours: real, step: int): (r: real)
    requires step > 0
    ensures OnStep(r, step)
    ensures hours <= r < hours + step as real / 60.0
    ensures hours == 0.0 ==> r == 0.0
  {
    var minutes := hours * 60.0;
    var k := Ceil(minutes / step as real);
    StepsToHours(k, step);
    CeilStepBounds(minutes, step);
    (k * step) as real / 60.0
  }

  /** Whole steps covering the minutes: at least the minutes, and less than
      one step more. */
  lemma CeilStepBounds(minutes: real, step: int)
    requires step > 0
    ensures var k := Ceil(minutes / step as real);
      minutes <= (k * step) as real < minutes + step as real
  {
    var s := step as real;
    var q := minutes / s;
    var k := Ceil(q);
    assert q <= k as real < q + 1.0;
    CastProduct(k, step);
    DivideThenScale(minutes, s);
    ScaleLess(q, k as real, s);
    ScaleLess(k as real, q + 1.0, s);
    ScaleAdd(q, 1.0, s);
    assert minutes == q * s <= k as real * s;
    assert k as real * s < q * s + 1.0 * s == minutes + s;
    assert (k * step) as real < minutes + step as real;
    assert k == Ceil(minutes / step as real);
  }

  /** The product of two integers, as a real, is the product of the reals. */
  lemma CastProduct(k: int, step: int)
    ensures (k * step) as real == k as real * step as real
  {
  }

  /** Dividing by a non-zero factor and scaling back gives the start. */
  lemma DivideThenScale(m: real, s: real)
    requires s != 0.0
    ensures (m / s) * s == m
  {
  }

  /** Scaling distributes over a sum. */
  lemma ScaleAdd(x: real, y: real, s: real)
    ensures (x + y) * s == x * s + y * s
  {
  }

  /** Scaling by a positive factor keeps the order. */
  lemma ScaleLess(x: real, y: real, s: real)
    requires s > 0.0
    ensures x <= y ==> x * s <= y * s
    ensures x < y ==> x * s < y * s
  {
    assert y * s - x * s == (y - x) * s;
  }

  /** k whole steps, expressed in hours, are on a step boundary and
      k * step / 60 hours long. */
  lemma StepsToHours(k: int, step: int)
    requires step > 0
    ensures OnStep((k * step) as real / 60.0, step)
    ensures ((k * step) as real / 60.0) * 60.0 / step as real == k as real
  {
    var s := step as real;
    assert (k * step) as real == k as real * s;
    calc {
      ((k as real * s) / 60.0) * 60.0 / s;
      k as real * s / s;
      k as real;
    }
  }

  /** The rounding is the least step boundary at or above the hours: any
      other boundary h at or above the hours is at or above the result. */
  lemma RoundUpHoursIsLeast(hours: real, step: int, h: real)
    requires step > 0
    requires OnStep(h, step) && h >= hours
    ensures RoundUpHours(hours, step) <= h
  {
    var s := step as real;
    var q := h * 60.0 / s;
    var j := q.Floor;
    var k := Ceil(hours * 60.0 / s);
    DivideMonotonic(hours * 60.0, h * 60.0, s);
    assert k <= j;
    ScaleLess(k as real, j as real, s);
    DivideThenScale(h * 60.0, s);
    CastProduct(k, step);
    assert (k * step) as real <= h * 60.0;
  }

  /** Dividing by a positive factor keeps the order. */
  lemma DivideMonotonic(a: real, b: real, s: real)
    requires s > 0.0 && a <= b
    ensures a / s <= b / s
  {
    assert b / s - a / s == (b - a) / s;
  }

  /** Rounding an already rounded value changes nothing. */
  lemma RoundUpHoursIdempotent(hours: real, step: int)
    requires step > 0
    ensures RoundUpHours(RoundUpHours(hours, step), step) == RoundUpHours(hours, step)
  {
    var r := RoundUpHours(hours, step);
    RoundUpHoursIsLeast(r, step, r);
  }

  /** More hours never bill fewer rounded hours. */
  lemma RoundUpHoursMonotonic(h1: real, h2: real, step: int)
    requires step > 0 && h1 <= h2
    ensures RoundUpHours(h1, step) <= RoundUpHours(h2, step)
  {
    RoundUpHoursIsLeast(h1, step, RoundUpHours(h2, step));
  }

  /** A 15-minute step: 1.02 hours is 61.2 minutes, billed as 75 minutes. */
  lemma RoundUpHoursExample()
    ensures RoundUpHours(1.02, 15) == 1.25
    ensures RoundUpHours(0.0, 15) == 0.0
  {
    assert Ceil(1.02 * 60.0 / 15.0) == 5;
  }

  /** WorkItem.get_total: the rate times the rounded hours. */
  function ItemTotal(rate: real, hours: real, step: int): (t: real)
    requires step > 0
  {
    rate * RoundUpHours(hours, step)
  }

  /** For a non-negative rate the billed amount is never below the amount
      for the raw hours, and exceeds it by less than one step's worth. */
  lemma ItemTotalBounds(rate: real, hours: real, step: int)
    requires step > 0
    ensures rate >= 0.0 ==>
      rate * hours <= ItemTotal(rate, hours, step) <= rate * hours + rate * step as real / 60.0
  {
    if rate >= 0.0 {
      var r := RoundUpHours(hours, step);
      var d := step as real / 60.0;
      assert hours <= r <= hours + d;
      assert rate * hours <= rate * r by {
        assert rate * (r - hours) >= 0.0;
      }
      assert rate * r <= rate * (hours + d) by {
        assert rate * (hours + d - r) >= 0.0;
      }
    }
  }

  /** A 15-minute step: 1.02 hours at 100 per hour bill 1.25 hours. */
  lemma ItemTotalExample()
    ensures ItemTotal(100.0, 1.02, 15) == 125.0
  {
    RoundUpHoursExample();
  }

  /** One invoice line: what a WorkItem holds before it is rounded. */
  datatype Billable = Billable(project: string, description: string, rate: real, hours: real)

  /** The total of each line, in order. */
  function LineTotals(items: seq<Billable>, step: int): seq<real>
    requires step > 0
  {
    seq(|items|, i requires 0 <= i < |items| => ItemTotal(items[i].rate, items[i].hours, step))
  }

  /** Client.get_total_due: the sum, left to right, of every line's total. */
  function Total(items: seq<Billable>, step: int): real
    requires step > 0
  {
    Sum(LineTotals(items, step))
  }

  /** The amount each line's raw, unrounded hours would bill. */
  function RawAmounts(items: seq<Billable>): seq<real>
  {
    seq(|items|, i requires 0 <= i < |items| => items[i].rate * items[i].hours)
  }

  /** The most each line's rounding can add: one step's worth of its rate. */
  function Slacks(items: seq<Billable>, step: int): seq<real>
  {
    seq(|items|, i requires 0 <= i < |items| => items[i].rate * step as real / 60.0)
  }

  /** One line bills at least its raw amount and at most one step more. */
  lemma LineBounds(items: seq<Billable>, step: int, i: int)
    requires step > 0 && 0 <= i < |items| && items[i].rate >= 0.0
    ensures RawAmounts(items)[i] <= LineTotals(items, step)[i]
    ensures LineTotals(items, step)[i] <= RawAmounts(items)[i] + Slacks(items, step)[i]
  {
    ItemTotalBounds(items[i].rate, items[i].hours, step);
  }

  /** With non-negative rates, the total due is never below what the raw
      hours bill, and exceeds it by at most one step's worth per line. */
  lemma TotalBounds(items: seq<Billable>, step: int)
    requires step > 0
    requires forall i :: 0 <= i < |items| ==> items[i].rate >= 0.0
    ensures Sum(RawAmounts(items)) <= Total(items, step)
    ensures Total(items, step) <= Sum(RawAmounts(items)) + Sum(Slacks(items, step))
  {
    var raw, lines, slacks := RawAmounts(items), LineTotals(items, step), Slacks(items, step);
    var most := seq(|items|, i requires 0 <= i < |items| => raw[i] + slacks[i]);
    forall i | 0 <= i < |items|
      ensures raw[i] <= lines[i] <= most[i]
    {
      LineBounds(items, step, i);
    }
    SumMonotonic(raw, lines);
    SumMonotonic(lines, most);
    SumAdd(raw, slacks, most);
  }

  /** The total of two lists of lines is the sum of their totals. */
  lemma TotalAppend(a: seq<Billable>, b: seq<Billable>, step: int)
    requires step > 0
    ensures Total(a + b, step) == Total(a, step) + Total(b, step)
  {
    assert LineTotals(a + b, step) == LineTotals(a, step) + LineTotals(b, step);
    SumAppend(LineTotals(a, step), LineTotals(b, step));
  }

  /** The total does not depend on the order of the lines. */
  lemma TotalPermutation(a: seq<Billable>, b: seq<Billable>, step: int)
    requires step > 0
    requires multiset(a) == multiset(b)
    ensures Total(a, step) == Total(b, step)
  {
    var total := (x: Billable) => ItemTotal(x.rate, x.hours, step);
    assert LineTotals(a, step) == Mapped(a, total);
    assert LineTotals(b, step) == Mapped(b, total);
    MappedPermutation(a, b, total);
    SumPermutation(LineTotals(a, step), LineTotals(b, step));
  }
}
