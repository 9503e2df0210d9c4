/** The option side of the calculator: an option on a stock or on a future
    that stores its market inputs and a put-call-parity offset, hands out
    one of its four price methods by model and side, and finds its implied
    volatility with a root finder; and the factory that builds an option
    from the name of its underlying. */
module Options {
  import opened Common
  import opened Pricing
  import opened RootFinding

  const ModelNotSupported: PyError := NameError("Model Type not supported")
  const OptionTypeNotRecognized: PyError := NameError("Option Type not recognized")
  const NoneNotCallable: PyError := TypeError("'NoneType' object is not callable")

  /** The model names the dispatch accepts. */
  function ModelNamed(name: string): (m: Maybe<Model>)
    ensures m == Some(BlackScholes) <==> name == "BlackScholes"
    ensures m == Some(Bachelier) <==> name == "Bachelier"
    ensures m == None <==> name != "BlackScholes" && name != "Bachelier"
  {
    if name == "BlackScholes" then Some(BlackScholes)
    else if name == "Bachelier" then Some(Bachelier)
    else None
  }

  /** The option sides the dispatch accepts. */
  function SideNamed(name: string): (s: Maybe<Side>)
    ensures s == Some(Call) <==> name == "Call"
    ensures s == Some(Put) <==> name == "Put"
    ensures s == None <==> name != "Call" && name != "Put"
  {
    if name == "Call" then Some(Call)
    else if name == "Put" then Some(Put)
    else None
  }

  /** The keys of the product factory. */
  function ProductNamed(name: string): (p: Maybe<Product>)
    ensures p == Some(Stock) <==> name == "Stock"
    ensures p == Some(Future) <==> name == "Future"
    ensures p == None <==> name != "Stock" && name != "Future"
  {
    if name == "Stock" then Some(Stock)
    else if name == "Future" then Some(Future)
    else None
  }

  /** The mispricing sigma -> price(sigma) - vMkt of the given price method,
      as the function handed to the root finder. */
  function Mispriced(num: Numerics, product: Product, pr: Pricer, m: Market, offset: real, vMkt: real): (g: real -> real)
    requires Priceable(product, pr.model, m)
    ensures forall sigma :: g(sigma) + vMkt == Price(num, product, pr, m, offset, sigma)
  {
    (sigma: real) => Price(num, product, pr, m, offset, sigma) - vMkt
  }

  /** An option on a stock or a future. The market inputs are fixed at
      construction; the parity offset is a field the constructor sets
      through its setter. */
  class Option {
    const product: Product
    const vMkt: real
    const x: real
    const k: real
    const tau: real
    const r: real
    const optionType: string
    const modelType: string
    var parityOffset: real

    /** Builds the option from a day count: tau is stored in years, while
        the offset is discounted over the day count itself. */
    constructor (product: Product, num: Numerics, vMkt: real, x: real, k: real, days: real, r: real,
                 optionType: string, modelType: string)
      ensures this.product == product && this.vMkt == vMkt && this.x == x && this.k == k && this.r == r
      ensures tau == days / 365.0
      ensures this.optionType == optionType && this.modelType == modelType
      ensures parityOffset == DayCountOffset(num, product, x, k, days, r)
    {
      this.product := product;
      this.vMkt := vMkt;
      this.x := x;
      this.k := k;
      this.tau := days / 365.0;
      this.r := r;
      this.optionType := optionType;
      this.modelType := modelType;
      new;
      SetPutCallParityOffset(DayCountOffset(num, product, x, k, days, r));
    }

    method SetPutCallParityOffset(value: real)
      modifies this
      ensures parityOffset == value
    {
      parityOffset := value;
    }

    /** The inputs its price formulas read. */
    function Inputs(): Market
    {
      Market(x, k, tau, r)
    }

    /** The price method selected by model type, then by option type: an
        unknown model is reported whatever the side, and an unknown side is
        reported only under a known model. */
    function GetOptionPrice(): (res: Result<Pricer>)
      ensures res.Ok? <==> ModelNamed(modelType).Some? && SideNamed(optionType).Some?
      ensures res.Ok? ==> res.value == Pricer(ModelNamed(modelType).value, SideNamed(optionType).value)
      ensures ModelNamed(modelType) == None ==> res == Err(ModelNotSupported)
      ensures ModelNamed(modelType).Some? && SideNamed(optionType) == None ==> res == Err(OptionTypeNotRecognized)
    {
      if modelType == "BlackScholes" then
        if optionType == "Call" then Ok(Pricer(BlackScholes, Call))
        else if optionType == "Put" then Ok(Pricer(BlackScholes, Put))
        else Err(OptionTypeNotRecognized)
      else if modelType == "Bachelier" then
        if optionType == "Call" then Ok(Pricer(Bachelier, Call))
        else if optionType == "Put" then Ok(Pricer(Bachelier, Put))
        else Err(OptionTypeNotRecognized)
      else
        Err(ModelNotSupported)
    }

    /** The mispricing of the price method pr: the model price at
        volatility sigma minus the market price. */
    function Mispricing(num: Numerics, pr: Pricer): (g: real -> real)
      reads this
      requires Priceable(product, pr.model, Inputs())
      ensures forall sigma :: g(sigma) + vMkt == Price(num, product, pr, Inputs(), parityOffset, sigma)
    {
      Mispriced(num, product, pr, Inputs(), parityOffset, vMkt)
    }

    /** The implied volatility: the selected root finder applied to the
        mispricing on its default bracket [0, 100]. An unset finder raises
        TypeError before the mispricing is built; a dispatch error is raised
        by the mispricing at the finder's first evaluation. */
    method ImpliedVol(num: Numerics, rootFind: RootFinder, fuel: nat)
      returns (res: Outcome, ghost partner: real, ghost previous: real)
      requires rootFind.rootFindMethod == Some(Bisection) ==> rootFind.accuracy > 0.0
      requires product == Stock && modelType == "Bachelier" ==> r != 0.0
      ensures rootFind.rootFindMethod == None <==> res == Raised(NoneNotCallable)
      ensures rootFind.rootFindMethod != None && GetOptionPrice().Err? ==> res == Raised(GetOptionPrice().error)
      ensures rootFind.rootFindMethod != None && GetOptionPrice().Ok? ==>
        (res == NoSignChange <==>
           Mispricing(num, GetOptionPrice().value)(0.0) * Mispricing(num, GetOptionPrice().value)(100.0) > 0.0)
      ensures res.Root? ==>
        GetOptionPrice().Ok? && Within(res.x, 0.0, 100.0) && Within(partner, 0.0, 100.0) &&
        !SameSign(Mispricing(num, GetOptionPrice().value)(res.x), Mispricing(num, GetOptionPrice().value)(partner))
      ensures res.Root? && rootFind.rootFindMethod == Some(Bisection) ==> Abs(res.x - partner) <= rootFind.accuracy
      ensures res.Root? && rootFind.rootFindMethod == Some(Dekkers) ==>
        Within(previous, 0.0, 100.0) && Abs(res.x - previous) <= rootFind.accuracy
      ensures rootFind.rootFindMethod == Some(Dekkers) && GetOptionPrice().Ok? &&
              !SameSign(Mispricing(num, GetOptionPrice().value)(0.0), Mispricing(num, GetOptionPrice().value)(100.0)) ==>
        var g := Mispricing(num, GetOptionPrice().value);
        (res, previous) == DekkerRun(g, rootFind.accuracy, DekkerStart(g, 0.0, 100.0), fuel)
      ensures rootFind.rootFindMethod == Some(Bisection) && GetOptionPrice().Ok? &&
              !SameSign(Mispricing(num, GetOptionPrice().value)(0.0), Mispricing(num, GetOptionPrice().value)(100.0)) ==>
        var g := Mispricing(num, GetOptionPrice().value);
        res == BisectRun(g, rootFind.accuracy, 0.0, 100.0, None, HalvingsNeeded(100.0 - 0.0, rootFind.accuracy))
      ensures rootFind.rootFindMethod == Some(Bisection) && GetOptionPrice().Ok? ==>
        (res == Raised(UnboundLocalError("c")) <==>
           !SameSign(Mispricing(num, GetOptionPrice().value)(0.0), Mispricing(num, GetOptionPrice().value)(100.0)) &&
           100.0 <= rootFind.accuracy)
      ensures res.OutOfFuel? || res.Indeterminate? ==> rootFind.rootFindMethod == Some(Dekkers)
      ensures res == Raised(UnboundLocalError("c")) ==> rootFind.rootFindMethod == Some(Bisection)
      ensures res.Raised? ==>
        res.error == NoneNotCallable || res.error == UnboundLocalError("c") ||
        (GetOptionPrice().Err? && res.error == GetOptionPrice().error)
    {
      if rootFind.GetRootFindMethod() == None {
        return Raised(NoneNotCallable), 0.0, 0.0;
      }
      match GetOptionPrice() {
        case Err(e) =>
          res, partner, previous := Raised(e), 0.0, 0.0;
        case Ok(pr) =>
          res, partner, previous := SolveMispricing(num, rootFind, pr, fuel);
      }
    }

    /** The selected root finder applied to the mispricing of the price
        method pr on [0, 100]. */
    method SolveMispricing(num: Numerics, rootFind: RootFinder, pr: Pricer, fuel: nat)
      returns (res: Outcome, ghost partner: real, ghost previous: real)
      requires rootFind.rootFindMethod != None
      requires rootFind.rootFindMethod == Some(Bisection) ==> rootFind.accuracy > 0.0
      requires Priceable(product, pr.model, Inputs())
      ensures res == NoSignChange <==> Mispricing(num, pr)(0.0) * Mispricing(num, pr)(100.0) > 0.0
      ensures res.Root? ==>
        Within(res.x, 0.0, 100.0) && Within(partner, 0.0, 100.0) &&
        !SameSign(Mispricing(num, pr)(res.x), Mispricing(num, pr)(partner))
      ensures res.Root? && rootFind.rootFindMethod == Some(Bisection) ==> Abs(res.x - partner) <= rootFind.accuracy
      ensures res.Root? && rootFind.rootFindMethod == Some(Dekkers) ==>
        Within(previous, 0.0, 100.0) && Abs(res.x - previous) <= rootFind.accuracy
      ensures rootFind.rootFindMethod == Some(Dekkers) && !SameSign(Mispricing(num, pr)(0.0), Mispricing(num, pr)(100.0)) ==>
        var g := Mispricing(num, pr);
        (res, previous) == DekkerRun(g, rootFind.accuracy, DekkerStart(g, 0.0, 100.0), fuel)
      ensures rootFind.rootFindMethod == Some(Bisection) && !SameSign(Mispricing(num, pr)(0.0), Mispricing(num, pr)(100.0)) ==>
        var g := Mispricing(num, pr);
        res == BisectRun(g, rootFind.accuracy, 0.0, 100.0, None, HalvingsNeeded(100.0 - 0.0, rootFind.accuracy))
      ensures rootFind.rootFindMethod == Some(Bisection) ==>
        (res == Raised(UnboundLocalError("c")) <==>
           !SameSign(Mispricing(num, pr)(0.0), Mispricing(num, pr)(100.0)) && 100.0 <= rootFind.accuracy)
      ensures res.OutOfFuel? || res.Indeterminate? ==> rootFind.rootFindMethod == Some(Dekkers)
      ensures res == Raised(UnboundLocalError("c")) ==> rootFind.rootFindMethod == Some(Bisection)
      ensures res.Raised? ==> res.error == UnboundLocalError("c")
    {
      var misprice := Mispricing(num, pr);
      res, partner, previous := rootFind.Solve(misprice, fuel);
    }
  }

  /** The factory: builds the option on a stock and the one on a future
      from the same arguments and returns the one keyed by product; any
      other key raises KeyError. */
  method GetProduct(num: Numerics, product: string, vMkt: real, x: real, k: real, days: real, r: real,
                    optionType: string, modelType: string)
    returns (res: Result<Option>)
    ensures res.Err? <==> ProductNamed(product) == None
    ensures res.Err? ==> res.error == KeyError(product)
    ensures res.Ok? ==> fresh(res.value) && res.value.product == ProductNamed(product).value
    ensures res.Ok? ==>
      res.value.vMkt == vMkt && res.value.x == x && res.value.k == k && res.value.r == r &&
      res.value.tau == days / 365.0 && res.value.optionType == optionType && res.value.modelType == modelType
    ensures res.Ok? ==> res.value.parityOffset == DayCountOffset(num, res.value.product, x, k, days, r)
  {
    var stock := new Option(Stock, num, vMkt, x, k, days, r, optionType, modelType);
    var future := new Option(Future, num, vMkt, x, k, days, r, optionType, modelType);
    match ProductNamed(product) {
      case Some(Stock) => res := Ok(stock);
      case Some(Future) => res := Ok(future);
      case None => res := Err(KeyError(product));
    }
  }
}
