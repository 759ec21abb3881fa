/** The four discount strategies of an order (Lab3/src/domain/strategies):
    immutable price functions whose constructors validate their parameters. */
module Strategies {
  import opened Common

  datatype Strategy =
    | NoDiscount
    | PercentageOff(percentage: real)
    | FixedAmountOff(amount: real)
    | LoyaltyPoints(points: real, conversionRate: real)

  /** The parameter ranges the constructors admit; no other strategy can exist. */
  predicate Valid(s: Strategy)
  {
    match s
    case NoDiscount => true
    case PercentageOff(pct) => 0.0 <= pct <= 100.0
    case FixedAmountOff(amount) => 0.0 <= amount
    case LoyaltyPoints(points, rate) => 0.0 <= points && 0.0 < rate
  }

  /** Default of the loyalty constructor's `conversionRate` parameter. */
  const DefaultConversionRate: real := 100.0

  /** `new PercentageDiscountStrategy(pct)`. */
  function NewPercentage(percentage: real): (r: Result<Strategy>)
    ensures r.Ok? <==> 0.0 <= percentage <= 100.0
    ensures r.Ok? ==> r.value == PercentageOff(percentage) && Valid(r.value)
    ensures r.Err? ==> r.message == "Percentage must be between 0 and 100"
  {
    if percentage < 0.0 || percentage > 100.0 then Err("Percentage must be between 0 and 100")
    else Ok(PercentageOff(percentage))
  }

  /** `new FixedAmountDiscountStrategy(amount)`. */
  function NewFixedAmount(amount: real): (r: Result<Strategy>)
    ensures r.Ok? <==> 0.0 <= amount
    ensures r.Ok? ==> r.value == FixedAmountOff(amount) && Valid(r.value)
    ensures r.Err? ==> r.message == "Discount amount must be positive"
  {
    if amount < 0.0 then Err("Discount amount must be positive")
    else Ok(FixedAmountOff(amount))
  }

  /** `new LoyaltyPointsDiscountStrategy(points, conversionRate?)`: the points
      are checked first, and an omitted rate is 100. */
  function NewLoyaltyPoints(points: real, conversionRate: Option<real>): (r: Result<Strategy>)
    ensures var rate := if conversionRate.Some? then conversionRate.value else DefaultConversionRate;
            && (r.Ok? <==> 0.0 <= points && 0.0 < rate)
            && (r.Ok? ==> r.value == LoyaltyPoints(points, rate) && Valid(r.value))
    ensures points < 0.0 ==> r == Err("Points must be positive")
    ensures 0.0 <= points && r.Err? ==> r.message == "Conversion rate must be positive"
  {
    var rate := if conversionRate.Some? then conversionRate.value else DefaultConversionRate;
    if points < 0.0 then Err("Points must be positive")
    else if rate <= 0.0 then Err("Conversion rate must be positive")
    else Ok(LoyaltyPoints(points, rate))
  }

  /** `Math.max(0, x)`. */
  function Max0(x: real): real
  {
    if x < 0.0 then 0.0 else x
  }

  /** `applyDiscount(basePrice)`. Only the fixed-amount and loyalty strategies
      clamp at zero; the percentage strategy passes a negative base through. */
  function ApplyDiscount(s: Strategy, basePrice: real): (r: real)
    requires Valid(s)
    ensures s.NoDiscount? ==> r == basePrice
    ensures s.FixedAmountOff? || s.LoyaltyPoints? ==> 0.0 <= r
    ensures 0.0 <= basePrice ==> 0.0 <= r <= basePrice
    ensures s.PercentageOff? && basePrice < 0.0 && s.percentage < 100.0 ==> r < 0.0
  {
    match s
    case NoDiscount => basePrice
    case PercentageOff(pct) =>
      PercentageBounds(basePrice, pct);
      TakePercentage(basePrice, pct)
    case FixedAmountOff(amount) => Max0(basePrice - amount)
    case LoyaltyPoints(points, rate) =>
      assert 0.0 <= points / rate by { DivNonNegative(points, rate); }
      Max0(basePrice - points / rate)
  }

  lemma DivNonNegative(x: real, y: real)
    requires 0.0 <= x && 0.0 < y
    ensures 0.0 <= x / y
  {
  }

  /** `basePrice - basePrice * (percentage / 100)`. */
  function TakePercentage(p: real, pct: real): real
  {
    p - p * (pct / 100.0)
  }

  /** Taking a percentage in [0, 100] off a price keeps a non-negative price
      within [0, price] and keeps a negative price negative. */
  lemma PercentageBounds(p: real, pct: real)
    requires 0.0 <= pct <= 100.0
    ensures 0.0 <= p ==> 0.0 <= TakePercentage(p, pct) <= p
    ensures p < 0.0 && pct < 100.0 ==> TakePercentage(p, pct) < 0.0
  {
    var f := pct / 100.0;
    assert 0.0 <= f <= 1.0;
    if 0.0 <= p {
      assert 0.0 <= p * f <= p * 1.0;
    } else if pct < 100.0 {
      var g := 1.0 - f;
      assert 0.0 < g;
      assert TakePercentage(p, pct) == p * g;
      assert 0.0 < (-p) * g;
    }
  }

  /** No discount is idempotent and keeps the sign of the price. */
  lemma NoDiscountIdentity(p: real)
    ensures ApplyDiscount(NoDiscount, ApplyDiscount(NoDiscount, p)) == ApplyDiscount(NoDiscount, p)
    ensures 0.0 <= ApplyDiscount(NoDiscount, p) <==> 0.0 <= p
  {
  }

  /** 0% is the identity and 100% makes everything free. */
  lemma PercentageEndpoints(p: real)
    ensures ApplyDiscount(PercentageOff(0.0), p) == p
    ensures ApplyDiscount(PercentageOff(100.0), p) == 0.0
  {
  }

  /** A fixed amount at least the price makes it free; amount 0 is the
      identity on non-negative prices. */
  lemma FixedAmountClamps(amount: real, p: real)
    requires 0.0 <= amount
    ensures p <= amount ==> ApplyDiscount(FixedAmountOff(amount), p) == 0.0
    ensures 0.0 <= p ==> ApplyDiscount(FixedAmountOff(0.0), p) == p
  {
  }

  /** More loyalty points never raise the final price. */
  lemma LoyaltyMonotone(fewer: real, more: real, rate: real, p: real)
    requires 0.0 <= fewer <= more && 0.0 < rate
    ensures ApplyDiscount(LoyaltyPoints(more, rate), p) <= ApplyDiscount(LoyaltyPoints(fewer, rate), p)
  {
    DivNonNegative(more - fewer, rate);
    assert (more - fewer) / rate == more / rate - fewer / rate;
  }

  /** Zero points is the identity on non-negative prices, and 250 points at
      the default rate take 2.50 off. */
  lemma LoyaltyExamples(p: real)
    ensures 0.0 <= p ==> ApplyDiscount(LoyaltyPoints(0.0, DefaultConversionRate), p) == p
    ensures ApplyDiscount(LoyaltyPoints(250.0, DefaultConversionRate), p) == Max0(p - 2.5)
  {
  }

  /** The worked prices: 15% off 5.99, 3.00 off 5.99, 5.00 off 1.00, and a
      rejected 150%. */
  lemma DiscountScenarios()
    ensures ApplyDiscount(PercentageOff(15.0), 5.99) == 5.0915
    ensures ApplyDiscount(FixedAmountOff(3.0), 5.99) == 2.99
    ensures ApplyDiscount(FixedAmountOff(5.0), 1.0) == 0.0
    ensures NewPercentage(150.0).Err?
  {
  }

  /** `getDescription()`. Number rendering is a parameter: `show` is
      JavaScript's default number-to-text and `fixed2` is `toFixed(2)`. */
  function Describe(s: Strategy, show: real -> string, fixed2: real -> string): (text: string)
    requires Valid(s)
    ensures s.NoDiscount? ==> text == "No discount"
    ensures s.PercentageOff? ==> IsSuffix("% off", text) && IsPrefix(show(s.percentage), text)
    ensures s.FixedAmountOff? ==> IsPrefix("$", text) && IsSuffix(" off", text)
    ensures s.LoyaltyPoints? ==> IsSuffix(" off)", text) && IsPrefix(show(s.points) + " loyalty points ($", text)
  {
    match s
    case NoDiscount => "No discount"
    case PercentageOff(pct) => show(pct) + "% off"
    case FixedAmountOff(amount) => "$" + fixed2(amount) + " off"
    case LoyaltyPoints(points, rate) =>
      show(points) + " loyalty points ($" + fixed2(points / rate) + " off)"
  }
}
