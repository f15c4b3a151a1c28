/** The two calculations of a coupon's discount: in `OrderService.createOrder` and in `handleCouponValidation`. */
module Discount {

  datatype CouponType = PERCENTAGE | AMOUNT

  /** A coupon as a user holds it: `available` by its status, `expired` by its date. */
  datatype HeldCoupon = HeldCoupon(kind: CouponType, amount: real, minOrderAmount: real, available: bool, expired: bool)

  datatype Line = Line(price: real, quantity: nat)

  function Cost(line: Line): real {
    line.price * (line.quantity as real)
  }

  function Price(line: Line): real {
    line.price
  }

  function Sum(lines: seq<Line>, f: Line -> real): real {
    if lines == [] then 0.0 else Sum(lines[..|lines| - 1], f) + f(lines[|lines| - 1])
  }

  function Total(lines: seq<Line>): real {
    Sum(lines, Cost)
  }

  /** `createOrder` adds up the lines one after another, looks at the status and the minimum, and does not round. */
  method PriceOrder(lines: seq<Line>, coupon: HeldCoupon)
      returns (totalAmount: real, discountAmount: real, finalAmount: real)
    ensures totalAmount == Total(lines) == Sum(AllUnits(lines), Price)
    ensures discountAmount == OrderDiscount(totalAmount, coupon)
    ensures finalAmount + discountAmount == totalAmount
  {
    totalAmount := 0.0;
    for i := 0 to |lines|
      invariant totalAmount == Total(lines[..i])
    {
      assert lines[..i + 1][..i] == lines[..i];
      totalAmount := totalAmount + lines[i].price * (lines[i].quantity as real);
    }
    assert lines[..|lines|] == lines;
    discountAmount := 0.0;
    if coupon.available && coupon.minOrderAmount <= totalAmount {
      discountAmount := if coupon.kind == PERCENTAGE then totalAmount * (coupon.amount / 100.0) else coupon.amount;
    }
    finalAmount := totalAmount - discountAmount;
    TotalCountsUnits(lines);
  }

  // ---------------------------------------------------------------- what the total adds up

  /** A line of several units as so many lines of one unit. */
  function Units(line: Line): (units: seq<Line>)
    ensures |units| == line.quantity && forall unit | unit in units :: unit == Line(line.price, 1)
  {
    seq(line.quantity, _ => Line(line.price, 1))
  }

  function AllUnits(lines: seq<Line>): seq<Line> {
    if lines == [] then [] else Units(lines[0]) + AllUnits(lines[1..])
  }

  lemma {:induction false} SumConcat(a: seq<Line>, b: seq<Line>, f: Line -> real)
    ensures Sum(a + b, f) == Sum(a, f) + Sum(b, f)
    decreases |b|
  {
    if b == [] {
      assert a + b == a;
    } else {
      assert (a + b)[..|a + b| - 1] == a + b[..|b| - 1];
      SumConcat(a, b[..|b| - 1], f);
    }
  }

  lemma SumOfFirst(lines: seq<Line>, f: Line -> real)
    requires lines != []
    ensures Sum(lines, f) == f(lines[0]) + Sum(lines[1..], f)
  {
    assert lines == [lines[0]] + lines[1..] && [lines[0]][..0] == [];
    SumConcat([lines[0]], lines[1..], f);
  }

  lemma {:induction false} SumSame(lines: seq<Line>, f: Line -> real, g: Line -> real)
    requires forall line | line in lines :: f(line) == g(line)
    ensures Sum(lines, f) == Sum(lines, g)
    decreases |lines|
  {
    if lines != [] {
      SumSame(lines[..|lines| - 1], f, g);
    }
  }

  lemma {:induction false} SumOfEqual(lines: seq<Line>, f: Line -> real, x: real)
    requires forall line | line in lines :: f(line) == x
    ensures Sum(lines, f) == x * (|lines| as real)
    decreases |lines|
  {
    if lines != [] {
      SumOfEqual(lines[..|lines| - 1], f, x);
    }
  }

  lemma UnitsCost(line: Line)
    ensures Sum(Units(line), Price) == Cost(line)
  {
    SumOfEqual(Units(line), Price, line.price);
  }

  /** An order costs what its single units cost together: a line of quantity n counts n times. */
  lemma {:induction false} TotalCountsUnits(lines: seq<Line>)
    ensures Total(lines) == Sum(AllUnits(lines), Price)
    decreases |lines|
  {
    if lines != [] {
      UnitsCost(lines[0]);
      SumConcat(Units(lines[0]), AllUnits(lines[1..]), Price);
      SumOfFirst(lines, Cost);
      TotalCountsUnits(lines[1..]);
    }
  }

  lemma {:induction false} AllUnitsAreUnits(lines: seq<Line>)
    ensures forall unit | unit in AllUnits(lines) :: unit.quantity == 1
    decreases |lines|
  {
    if lines != [] {
      AllUnitsAreUnits(lines[1..]);
    }
  }

  /** Splitting every line into its single units does not change the total. */
  lemma UnitsTotalTheSame(lines: seq<Line>)
    ensures Total(AllUnits(lines)) == Total(lines)
  {
    TotalCountsUnits(lines);
    AllUnitsAreUnits(lines);
    forall unit | unit in AllUnits(lines) ensures Cost(unit) == Price(unit) {
    }
    SumSame(AllUnits(lines), Cost, Price);
  }

  lemma SumWithout(lines: seq<Line>, i: nat, f: Line -> real)
    requires i < |lines|
    ensures Sum(lines, f) == Sum(lines[..i] + lines[i + 1..], f) + f(lines[i])
  {
    var before, from, after := lines[..i], lines[i..], lines[i + 1..];
    assert from[0] == lines[i] && from[1..] == after;
    assert lines == before + from && from == [lines[i]] + after;
    SumConcat(before, from, f);
    SumOfFirst(from, f);
    SumConcat(before, after, f);
  }

  lemma WithoutOne(lines: seq<Line>, i: nat)
    requires i < |lines|
    ensures multiset(lines[..i] + lines[i + 1..]) == multiset(lines) - multiset{lines[i]}
  {
    assert lines == lines[..i] + [lines[i]] + lines[i + 1..];
  }

  lemma {:induction false} SumPermutation(a: seq<Line>, b: seq<Line>, f: Line -> real)
    requires multiset(a) == multiset(b)
    ensures Sum(a, f) == Sum(b, f)
    decreases |a|
  {
    if a == [] {
      assert |multiset(b)| == |b|;
    } else {
      var n := |a| - 1;
      assert a == a[..n] + [a[n]];
      assert multiset(a[..n]) == multiset(a) - multiset{a[n]};
      assert a[n] in multiset(b);
      var i :| 0 <= i < |b| && b[i] == a[n];
      SumWithout(b, i, f);
      WithoutOne(b, i);
      SumPermutation(a[..n], b[..i] + b[i + 1..], f);
    }
  }

  /** The total does not depend on the order of the lines. */
  lemma LineOrderIrrelevant(a: seq<Line>, b: seq<Line>)
    requires multiset(a) == multiset(b)
    ensures Total(a) == Total(b)
  {
    SumPermutation(a, b, Cost);
  }

  // ---------------------------------------------------------------- the discount

  function Raw(total: real, coupon: HeldCoupon): real {
    if coupon.kind == PERCENTAGE then total * (coupon.amount / 100.0) else coupon.amount
  }

  function OrderDiscount(total: real, coupon: HeldCoupon): real {
    if coupon.available && coupon.minOrderAmount <= total then Raw(total, coupon) else 0.0
  }

  /** The event handler also looks at the date, and rounds a percentage down; a coupon that fails a check gives
      nothing. */
  function EventDiscount(total: real, coupon: HeldCoupon): real {
    if !coupon.available || coupon.expired || coupon.minOrderAmount > total then 0.0
    else if coupon.kind == PERCENTAGE then Raw(total, coupon).Floor as real
    else coupon.amount
  }

  predicate Applies(total: real, coupon: HeldCoupon) {
    coupon.available && coupon.minOrderAmount <= total
  }

  predicate Whole(x: real) {
    x == x.Floor as real
  }

  /** The two agree exactly when the coupon does not apply, or it is in date and takes a whole amount
      (as any fixed amount counts), or it takes nothing. */
  lemma DiscountsAgreeExactly(total: real, coupon: HeldCoupon)
    ensures OrderDiscount(total, coupon) == EventDiscount(total, coupon) <==>
            || !Applies(total, coupon)
            || Raw(total, coupon) == 0.0
            || (!coupon.expired && (coupon.kind == PERCENTAGE ==> Whole(Raw(total, coupon))))
  {
  }

  /** A percentage of a whole total is whole exactly when a hundred divides their product. */
  lemma WholePercentage(total: int, percent: int)
    ensures Whole(total as real * (percent as real / 100.0)) <==> total * percent % 100 == 0
    ensures total as real * (percent as real / 100.0) == 0.0 <==> total * percent == 0
  {
    var product := total * percent;
    assert product as real == total as real * percent as real;
    var share := total as real * (percent as real / 100.0);
    assert share * 100.0 == product as real;
    if Whole(share) {
      assert product == share.Floor * 100;
    }
    if product % 100 == 0 {
      assert share == (product / 100) as real;
    }
  }

  /** For a whole total and a whole percentage, the two agree exactly when the coupon does not apply, or takes nothing,
      or is in date and a hundred divides the product of total and percentage. */
  lemma WholeDiscountsAgreeExactly(total: int, percent: int, coupon: HeldCoupon)
    requires coupon.kind == PERCENTAGE && coupon.amount == percent as real
    ensures OrderDiscount(total as real, coupon) == EventDiscount(total as real, coupon) <==>
            || !Applies(total as real, coupon)
            || total * percent == 0
            || (!coupon.expired && total * percent % 100 == 0)
  {
    var share := total as real * (percent as real / 100.0);
    assert Raw(total as real, coupon) == share;
    DiscountsAgreeExactly(total as real, coupon);
    WholePercentage(total, percent);
    assert share == 0.0 <==> total * percent == 0;
    assert Whole(share) <==> total * percent % 100 == 0;
  }

  /** When they both apply, the event handler gives at most as much, and less than one unit less. */
  lemma RoundingLosesLessThanOne(total: real, coupon: HeldCoupon)
    requires !coupon.expired
    ensures EventDiscount(total, coupon) <= OrderDiscount(total, coupon) < EventDiscount(total, coupon) + 1.0
  {
  }

  /** An order's final amount is negative exactly when an applying coupon takes more than the total: a percentage above
      one hundred of a positive total, or a fixed amount beyond it. */
  lemma NegativeFinalExactly(total: real, coupon: HeldCoupon)
    requires total >= 0.0
    ensures total - OrderDiscount(total, coupon) < 0.0 <==>
            && Applies(total, coupon)
            && if coupon.kind == PERCENTAGE then total > 0.0 && coupon.amount > 100.0 else coupon.amount > total
  {
    if Applies(total, coupon) && coupon.kind == PERCENTAGE {
      PercentageAboveHundred(total, coupon.amount);
    }
  }

  lemma PercentageAboveHundred(total: real, percent: real)
    requires total >= 0.0
    ensures total * (percent / 100.0) > total <==> total > 0.0 && percent > 100.0
  {
    var share := percent / 100.0;
    assert total * share - total == total * (share - 1.0);
    if total > 0.0 && share > 1.0 {
      assert total * (share - 1.0) > 0.0;
    } else if share <= 1.0 {
      assert total * (share - 1.0) <= 0.0;
    }
  }
}
