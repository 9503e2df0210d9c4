/** The four closed-form call prices of the calculator, Black-Scholes and
    Bachelier on a stock and on a future, and the puts derived from them by
    put-call parity. The numerical routines they call are uninterpreted, so
    every formula is an exact symbolic transcription, and the facts proved
    here hold for any log, exp, sqrt, normal CDF and normal PDF (or for any
    that obey the laws a lemma names). */
module Pricing {

  /** The numerical routines the formulas call: np.log, np.exp, np.sqrt,
      norm.cdf and norm.pdf, and the value a float division x / 0 yields (an
      infinity or NaN), all left uninterpreted. */
  datatype Numerics = Numerics(
    log: real -> real,
    exp: real -> real,
    sqrt: real -> real,
    cdf: real -> real,
    pdf: real -> real,
    overZero: real -> real)

  /** Float division: exact wherever the divisor is non-zero. */
  function Div(num: Numerics, x: real, y: real): real
  {
    if y != 0.0 then x / y else num.overZero(x)
  }

  /** The two kinds of underlying, one per subclass of the option. */
  datatype Product = Stock | Future

  /** The two volatility conventions. */
  datatype Model = BlackScholes | Bachelier

  /** The two sides of an option. */
  datatype Side = Call | Put

  /** One of the four price methods an option can hand out. */
  datatype Pricer = Pricer(model: Model, side: Side)

  /** The inputs an option stores: spot (or futures price) x, strike k,
      time to expiry tau in years and risk-free rate r. */
  datatype Market = Market(x: real, k: real, tau: real, r: real)

  /** The exponent -r * t of the discount factor over a time t at rate r. */
  function DiscountExponent(r: real, t: real): real
  {
    -r * t
  }

  /** The discount factor exp(-r * t). */
  function DiscountFactor(num: Numerics, r: real, t: real): real
  {
    num.exp(DiscountExponent(r, t))
  }

  /** sigma * sqrt(tau), the spread of the terminal distribution. */
  function StdDev(num: Numerics, m: Market, sigma: real): real
  {
    sigma * num.sqrt(m.tau)
  }

  /** d1 of the Black-Scholes formula on a stock. */
  function StockD1(num: Numerics, m: Market, sigma: real): real
  {
    Div(num, num.log(Div(num, m.x, m.k)) + (m.r + 0.5 * (sigma * sigma)) * m.tau, StdDev(num, m, sigma))
  }

  /** d2 of the Black-Scholes formula on a stock. */
  function StockD2(num: Numerics, m: Market, sigma: real): real
  {
    StockD1(num, m, sigma) - StdDev(num, m, sigma)
  }

  /** d1 of the Black-76 formula on a future. */
  function FutureD1(num: Numerics, m: Market, sigma: real): real
  {
    Div(num, num.log(Div(num, m.x, m.k)) + 0.5 * (sigma * sigma) * m.tau, StdDev(num, m, sigma))
  }

  /** d2 of the Black-76 formula on a future. */
  function FutureD2(num: Numerics, m: Market, sigma: real): real
  {
    FutureD1(num, m, sigma) - StdDev(num, m, sigma)
  }

  /** The discounted strike K* of the Bachelier formula on a stock. */
  function DiscountedStrike(num: Numerics, m: Market): real
  {
    m.k * DiscountFactor(num, m.r, m.tau)
  }

  /** The integrated volatility v of the Bachelier formula on a stock. */
  function StockBachelierSpread(num: Numerics, m: Market, sigma: real): real
    requires m.r != 0.0
  {
    0.5 * (sigma * sigma / m.r) * (1.0 - num.exp(-2.0 * m.r * m.tau))
  }

  /** d of the Bachelier formula on a stock. */
  function StockBachelierD(num: Numerics, m: Market, sigma: real): real
    requires m.r != 0.0
  {
    Div(num, m.x - DiscountedStrike(num, m), StockBachelierSpread(num, m, sigma))
  }

  /** d of the Bachelier formula on a future. */
  function FutureBachelierD(num: Numerics, m: Market, sigma: real): real
  {
    Div(num, m.x - m.k, StdDev(num, m, sigma))
  }

  function StockCallBlackScholes(num: Numerics, m: Market, sigma: real): real
  {
    m.x * num.cdf(StockD1(num, m, sigma))
      - DiscountFactor(num, m.r, m.tau) * m.k * num.cdf(StockD2(num, m, sigma))
  }

  function StockCallBachelier(num: Numerics, m: Market, sigma: real): real
    requires m.r != 0.0
  {
    (m.x - DiscountedStrike(num, m)) * num.cdf(StockBachelierD(num, m, sigma))
      + StockBachelierSpread(num, m, sigma) * num.pdf(StockBachelierD(num, m, sigma))
  }

  function FutureCallBlackScholes(num: Numerics, m: Market, sigma: real): real
  {
    DiscountFactor(num, m.r, m.tau)
      * (m.x * num.cdf(FutureD1(num, m, sigma)) - m.k * num.cdf(FutureD2(num, m, sigma)))
  }

  function FutureCallBachelier(num: Numerics, m: Market, sigma: real): real
  {
    (m.x - m.k) * num.cdf(FutureBachelierD(num, m, sigma))
      + StdDev(num, m, sigma) * num.pdf(FutureBachelierD(num, m, sigma))
  }

  /** The Bachelier price on a stock divides by the rate. */
  predicate Priceable(product: Product, model: Model, m: Market)
  {
    product == Stock && model == Bachelier ==> m.r != 0.0
  }

  /** The call price of the given product under the given model. */
  function CallPrice(num: Numerics, product: Product, model: Model, m: Market, sigma: real): (c: real)
    requires Priceable(product, model, m)
    ensures product == Stock && model == BlackScholes ==> c == StockCallBlackScholes(num, m, sigma)
    ensures product == Stock && model == Bachelier ==> c == StockCallBachelier(num, m, sigma)
    ensures product == Future && model == BlackScholes ==> c == FutureCallBlackScholes(num, m, sigma)
    ensures product == Future && model == Bachelier ==> c == FutureCallBachelier(num, m, sigma)
  {
    match (product, model)
    case (Stock, BlackScholes) => StockCallBlackScholes(num, m, sigma)
    case (Stock, Bachelier) => StockCallBachelier(num, m, sigma)
    case (Future, BlackScholes) => FutureCallBlackScholes(num, m, sigma)
    case (Future, Bachelier) => FutureCallBachelier(num, m, sigma)
  }

  /** Every put price is the call price plus the option's parity offset. */
  function PutPrice(num: Numerics, product: Product, model: Model, m: Market, offset: real, sigma: real): (p: real)
    requires Priceable(product, model, m)
    ensures p - CallPrice(num, product, model, m, sigma) == offset
  {
    CallPrice(num, product, model, m, sigma) + offset
  }

  /** The price method a Pricer stands for, at volatility sigma. */
  function Price(num: Numerics, product: Product, pr: Pricer, m: Market, offset: real, sigma: real): (v: real)
    requires Priceable(product, pr.model, m)
    ensures pr.side == Call ==> v == CallPrice(num, product, pr.model, m, sigma)
    ensures pr.side == Put ==> v == PutPrice(num, product, pr.model, m, offset, sigma)
  {
    match pr.side
    case Call => CallPrice(num, product, pr.model, m, sigma)
    case Put => PutPrice(num, product, pr.model, m, offset, sigma)
  }

  /** Put-call parity as the code builds it: put minus call is the stored
      offset at every volatility, the same at any two volatilities. */
  lemma PutCallParity(num: Numerics, product: Product, model: Model, m: Market, offset: real, s1: real, s2: real)
    requires Priceable(product, model, m)
    ensures Price(num, product, Pricer(model, Put), m, offset, s1)
          - Price(num, product, Pricer(model, Call), m, offset, s1) == offset
    ensures Price(num, product, Pricer(model, Put), m, offset, s1)
          - Price(num, product, Pricer(model, Call), m, offset, s1)
         == Price(num, product, Pricer(model, Put), m, offset, s2)
          - Price(num, product, Pricer(model, Call), m, offset, s2)
  {
  }

  /** The offset the constructors store, as written: both discount over
      the raw day count rather than the year fraction. */
  function DayCountOffset(num: Numerics, product: Product, x: real, k: real, days: real, r: real): real
  {
    match product
    case Stock => k * DiscountFactor(num, r, days) - x
    case Future => (k - x) * DiscountFactor(num, r, days)
  }

  /** The market an option built from a day count stores: tau = days / 365. */
  function YearFraction(x: real, k: real, days: real, r: real): Market
  {
    Market(x, k, days / 365.0, r)
  }

  /** The normal CDF is symmetric: Phi(-y) == 1 - Phi(y). */
  ghost predicate SymmetricCdf(num: Numerics)
  {
    forall y, z :: y + z == 0.0 ==> num.cdf(y) + num.cdf(z) == 1.0
  }

  /** exp is strictly increasing and exp(0) == 1. */
  ghost predicate ExpLaws(num: Numerics)
  {
    (forall y, z :: y < z ==> num.exp(y) < num.exp(z)) && num.exp(0.0) == 1.0
  }

  function StockPutBlackScholesClosed(num: Numerics, m: Market, sigma: real): real
  {
    DiscountFactor(num, m.r, m.tau) * m.k * num.cdf(-StockD2(num, m, sigma))
      - m.x * num.cdf(-StockD1(num, m, sigma))
  }

  function StockPutBachelierClosed(num: Numerics, m: Market, sigma: real): real
    requires m.r != 0.0
  {
    (DiscountedStrike(num, m) - m.x) * num.cdf(-StockBachelierD(num, m, sigma))
      + StockBachelierSpread(num, m, sigma) * num.pdf(StockBachelierD(num, m, sigma))
  }

  function FuturePutBlackScholesClosed(num: Numerics, m: Market, sigma: real): real
  {
    DiscountFactor(num, m.r, m.tau)
      * (m.k * num.cdf(-FutureD2(num, m, sigma)) - m.x * num.cdf(-FutureD1(num, m, sigma)))
  }

  function FuturePutBachelierClosed(num: Numerics, m: Market, sigma: real): real
  {
    (m.k - m.x) * num.cdf(-FutureBachelierD(num, m, sigma))
      + StdDev(num, m, sigma) * num.pdf(FutureBachelierD(num, m, sigma))
  }

  /** The closed-form put of each formula, written with the same d1, d2
      (or d) and spread as its call: the reference the derived puts are
      compared with. */
  function ClosedFormPut(num: Numerics, product: Product, model: Model, m: Market, sigma: real): real
    requires Priceable(product, model, m)
  {
    match (product, model)
    case (Stock, BlackScholes) => StockPutBlackScholesClosed(num, m, sigma)
    case (Stock, Bachelier) => StockPutBachelierClosed(num, m, sigma)
    case (Future, BlackScholes) => FuturePutBlackScholesClosed(num, m, sigma)
    case (Future, Bachelier) => FuturePutBachelierClosed(num, m, sigma)
  }

  /** The offset that makes each derived put equal its closed form: the
      discount over the stored year fraction, and none for the undiscounted
      Bachelier price on a future. */
  function IntendedParityOffset(num: Numerics, product: Product, model: Model, m: Market): real
  {
    match (product, model)
    case (Stock, _) => DiscountedStrike(num, m) - m.x
    case (Future, BlackScholes) => (m.k - m.x) * DiscountFactor(num, m.r, m.tau)
    case (Future, Bachelier) => m.k - m.x
  }

  /** With a symmetric CDF, the call plus the intended offset is the
      closed-form put, for each of the four formulas. */
  lemma IntendedParityIsClosedForm(num: Numerics, product: Product, model: Model, m: Market, sigma: real)
    requires SymmetricCdf(num) && Priceable(product, model, m)
    ensures PutPrice(num, product, model, m, IntendedParityOffset(num, product, model, m), sigma)
         == ClosedFormPut(num, product, model, m, sigma)
  {
    match (product, model)
    case (Stock, BlackScholes) => StockBlackScholesParity(num, m, sigma);
    case (Stock, Bachelier) => StockBachelierParity(num, m, sigma);
    case (Future, BlackScholes) => FutureBlackScholesParity(num, m, sigma);
    case (Future, Bachelier) => FutureBachelierParity(num, m, sigma);
  }

  lemma StockBlackScholesParity(num: Numerics, m: Market, sigma: real)
    requires SymmetricCdf(num)
    ensures StockCallBlackScholes(num, m, sigma) + (DiscountedStrike(num, m) - m.x)
         == StockPutBlackScholesClosed(num, m, sigma)
  {
    var d1, d2 := StockD1(num, m, sigma), StockD2(num, m, sigma);
    CdfPair(num, d1);
    CdfPair(num, d2);
    LognormalParity(m.x, m.k, DiscountFactor(num, m.r, m.tau), num.cdf(d1), num.cdf(-d1), num.cdf(d2), num.cdf(-d2),
      StockCallBlackScholes(num, m, sigma), StockPutBlackScholesClosed(num, m, sigma));
  }

  lemma StockBachelierParity(num: Numerics, m: Market, sigma: real)
    requires SymmetricCdf(num) && m.r != 0.0
    ensures StockCallBachelier(num, m, sigma) + (DiscountedStrike(num, m) - m.x)
         == StockPutBachelierClosed(num, m, sigma)
  {
    var d := StockBachelierD(num, m, sigma);
    CdfPair(num, d);
    NormalParity(m.x - DiscountedStrike(num, m), StockBachelierSpread(num, m, sigma) * num.pdf(d), num.cdf(d), num.cdf(-d),
      StockCallBachelier(num, m, sigma), StockPutBachelierClosed(num, m, sigma));
  }

  lemma FutureBlackScholesParity(num: Numerics, m: Market, sigma: real)
    requires SymmetricCdf(num)
    ensures FutureCallBlackScholes(num, m, sigma) + (m.k - m.x) * DiscountFactor(num, m.r, m.tau)
         == FuturePutBlackScholesClosed(num, m, sigma)
  {
    var d1, d2 := FutureD1(num, m, sigma), FutureD2(num, m, sigma);
    CdfPair(num, d1);
    CdfPair(num, d2);
    ForwardParity(m.x, m.k, DiscountFactor(num, m.r, m.tau), num.cdf(d1), num.cdf(-d1), num.cdf(d2), num.cdf(-d2),
      FutureCallBlackScholes(num, m, sigma), FuturePutBlackScholesClosed(num, m, sigma));
  }

  lemma FutureBachelierParity(num: Numerics, m: Market, sigma: real)
    requires SymmetricCdf(num)
    ensures FutureCallBachelier(num, m, sigma) + (m.k - m.x) == FuturePutBachelierClosed(num, m, sigma)
  {
    var d := FutureBachelierD(num, m, sigma);
    CdfPair(num, d);
    NormalParity(m.x - m.k, StdDev(num, m, sigma) * num.pdf(d), num.cdf(d), num.cdf(-d),
      FutureCallBachelier(num, m, sigma), FuturePutBachelierClosed(num, m, sigma));
  }

  lemma CdfPair(num: Numerics, d: real)
    requires SymmetricCdf(num)
    ensures num.cdf(d) + num.cdf(-d) == 1.0
  {
  }

  /** A call c == x * P1 - e * k * P2 and a put p == e * k * N2 - x * N1
      satisfy c + (k * e - x) == p when P1 + N1 == 1 and P2 + N2 == 1. */
  lemma LognormalParity(x: real, k: real, e: real, p1: real, n1: real, p2: real, n2: real, c: real, p: real)
    requires p1 + n1 == 1.0 && p2 + n2 == 1.0
    requires c == x * p1 - e * k * p2 && p == e * k * n2 - x * n1
    ensures c + (k * e - x) == p
  {
    assert x * p1 == x - x * n1;
    assert e * k * p2 == e * k - e * k * n2;
  }

  /** A call c == e * (x * P1 - k * P2) and a put p == e * (k * N2 - x * N1)
      satisfy c + (k - x) * e == p when P1 + N1 == 1 and P2 + N2 == 1. */
  lemma ForwardParity(x: real, k: real, e: real, p1: real, n1: real, p2: real, n2: real, c: real, p: real)
    requires p1 + n1 == 1.0 && p2 + n2 == 1.0
    requires c == e * (x * p1 - k * p2) && p == e * (k * n2 - x * n1)
    ensures c + (k - x) * e == p
  {
    assert x * p1 - k * p2 + (k - x) == k * n2 - x * n1 by {
      assert x * p1 == x - x * n1;
      assert k * p2 == k - k * n2;
    }
  }

  /** A call c == e * P + w and a put p == -e * N + w satisfy c - e == p
      when P + N == 1. */
  lemma NormalParity(e: real, w: real, pp: real, n: real, c: real, p: real)
    requires pp + n == 1.0
    requires c == e * pp + w && p == -e * n + w
    ensures c + -e == p
  {
    assert e * pp == e - e * n;
  }

  lemma ExpSeparates(num: Numerics, y: real, z: real)
    requires ExpLaws(num) && y != z
    ensures num.exp(y) != num.exp(z)
  {
    if y < z {
      assert num.exp(y) < num.exp(z);
    } else {
      assert num.exp(z) < num.exp(y);
    }
  }

  lemma ExponentsDiffer(r: real, days: real)
    requires r != 0.0 && days != 0.0
    ensures DiscountExponent(r, days) != DiscountExponent(r, days / 365.0)
    ensures DiscountExponent(r, days) != 0.0
  {
    assert DiscountExponent(r, days) == 365.0 * DiscountExponent(r, days / 365.0);
  }

  /** At a non-zero rate, discounting over a non-zero day count differs
      both from discounting over its year fraction and from no discount. */
  lemma DayCountDiscountDiffers(num: Numerics, r: real, days: real)
    requires ExpLaws(num) && r != 0.0 && days != 0.0
    ensures DiscountFactor(num, r, days) != DiscountFactor(num, r, days / 365.0)
    ensures DiscountFactor(num, r, days) != 1.0
  {
    ExponentsDiffer(r, days);
    ExpSeparates(num, DiscountExponent(r, days), DiscountExponent(r, days / 365.0));
    ExpSeparates(num, DiscountExponent(r, days), 0.0);
  }

  /** c * u + s and c * v + s differ when c != 0 and u != v. */
  lemma ScaleSeparates(a: real, b: real, c: real, u: real, v: real, s: real)
    requires c != 0.0 && u != v
    requires a == c * u + s && b == c * v + s
    ensures a != b
  {
    assert a - b == c * (u - v);
  }

  /** The offset stored from a day count differs from the intended one
      whenever the rate and the day count are non-zero and the discounted
      term does not vanish (k != 0 for a stock, k != x for a future). */
  lemma DayCountOffsetDisagrees(num: Numerics, product: Product, model: Model, x: real, k: real, days: real, r: real)
    requires ExpLaws(num) && r != 0.0 && days != 0.0
    requires product == Stock ==> k != 0.0
    requires product == Future ==> k != x
    ensures DayCountOffset(num, product, x, k, days, r)
         != IntendedParityOffset(num, product, model, YearFraction(x, k, days, r))
  {
    var m := YearFraction(x, k, days, r);
    DayCountDiscountDiffers(num, r, days);
    match (product, model) {
      case (Stock, _) =>
        ScaleSeparates(DayCountOffset(num, product, x, k, days, r), IntendedParityOffset(num, product, model, m),
          k, DiscountFactor(num, r, days), DiscountFactor(num, m.r, m.tau), -x);
      case (Future, BlackScholes) =>
        ScaleSeparates(DayCountOffset(num, product, x, k, days, r), IntendedParityOffset(num, product, model, m),
          k - x, DiscountFactor(num, r, days), DiscountFactor(num, m.r, m.tau), 0.0);
      case (Future, Bachelier) =>
        ScaleSeparates(DayCountOffset(num, product, x, k, days, r), IntendedParityOffset(num, product, model, m),
          k - x, DiscountFactor(num, r, days), 1.0, 0.0);
    }
  }

  /** So the put the code derives from a day count is not the closed-form
      put of its own formula, for every product and model. */
  lemma DayCountPutMissesClosedForm(num: Numerics, product: Product, model: Model, x: real, k: real, days: real, r: real, sigma: real)
    requires SymmetricCdf(num) && ExpLaws(num) && r != 0.0 && days != 0.0
    requires product == Stock ==> k != 0.0
    requires product == Future ==> k != x
    ensures PutPrice(num, product, model, YearFraction(x, k, days, r), DayCountOffset(num, product, x, k, days, r), sigma)
         != ClosedFormPut(num, product, model, YearFraction(x, k, days, r), sigma)
  {
    var m := YearFraction(x, k, days, r);
    DayCountOffsetDisagrees(num, product, model, x, k, days, r);
    IntendedParityIsClosedForm(num, product, model, m, sigma);
  }

  /** Even over the year fraction, the discounted future offset does not
      turn the undiscounted Bachelier call into its closed-form put. */
  lemma DiscountedFutureOffsetMissesBachelier(num: Numerics, m: Market, sigma: real)
    requires SymmetricCdf(num) && ExpLaws(num) && m.r != 0.0 && m.tau != 0.0 && m.k != m.x
    ensures PutPrice(num, Future, Bachelier, m, (m.k - m.x) * DiscountFactor(num, m.r, m.tau), sigma)
         != ClosedFormPut(num, Future, Bachelier, m, sigma)
  {
    var offset := (m.k - m.x) * DiscountFactor(num, m.r, m.tau);
    DayCountDiscountDiffers(num, m.r, m.tau);
    ScaleSeparates(offset, IntendedParityOffset(num, Future, Bachelier, m), m.k - m.x, DiscountFactor(num, m.r, m.tau), 1.0, 0.0);
    IntendedParityIsClosedForm(num, Future, Bachelier, m, sigma);
  }
}
