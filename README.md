# Implied-volatility calculator, modelled in Dafny

The modelled program is a small implied-volatility calculator. It has three parts:

- a `RootFinder` with two bracketing methods, bisection and Dekker's method, chosen by name;
- an `Option` on a stock or on a future. Its `getOptionPrice` hands out one of four price methods: Black-Scholes or Bachelier, call or put. Each put is the call plus a put-call-parity offset that the constructor stores;
- `impliedVol`, which hands the mispricing `price(sigma) - V_mkt` to the selected root finder on the bracket [0, 100], and the factory `getProduct`.

The project has four modules:

- `Common`: Python's None (`Maybe`), raised exceptions (`PyError`, `Result`), `Abs` and `Within`.
- `RootFinding` (`root_finder.dfy`): the class `RootFinder`.
  - Its field `rootFindMethod` starts as None and is changed by `SetRootFindMethod`.
  - The two methods are `while` loops over exact `real` arithmetic, proved against loop invariants.
  - The objective `f` is a `real -> real` parameter.
  - The np.nan sentinel is the outcome `NoSignChange`.
- `Pricing` (`pricing.dfy`):
  - the four call formulas as exact symbolic transcriptions;
  - puts as call plus offset, and the dispatch from (product, model, side) to a formula;
  - the closed-form puts, the offset that would make the derived puts equal them, and the lemmas that compare the two offsets.

  np.log, np.exp, np.sqrt, norm.cdf and norm.pdf, and the value of a float division by zero, are fields of a `Numerics` record passed as a parameter, so they stay uninterpreted. A lemma that needs a law of these functions states it as a precondition: `SymmetricCdf`, for Phi(-y) = 1 - Phi(y), or `ExpLaws`, for exp increasing with exp(0) = 1.
- `Options` (`options.dfy`):
  - the class `Option`, whose constructor sets the offset through its setter;
  - the model/side dispatch `GetOptionPrice`;
  - `ImpliedVol`, which builds the mispricing as a closure and calls `RootFinder.Solve`;
  - the factory `GetProduct`.

All source paths below are in `Mako_Global/MakoInterviewPack/solution.py`.

## Model

| member | source | states |
|---|---|---|
| RootFinding.MethodNamed | Mako_Global/MakoInterviewPack/solution.py:17-18 | "dekkers" selects Dekker's method and "bisection" selects bisection, each if and only if that is the name; every other name finds nothing |
| RootFinding.RootFinder.constructor | Mako_Global/MakoInterviewPack/solution.py:6-9 | the accuracy is stored (default 1e-8) and no method is selected yet |
| RootFinding.RootFinder.SetRootFindMethod | Mako_Global/MakoInterviewPack/solution.py:15-23 | a known name (default "dekkers") selects its method; an unknown one raises NameError("root finder method not available") and leaves the selection unchanged |
| RootFinding.RootFinder.BisectionMethod | Mako_Global/MakoInterviewPack/solution.py:25-54 | returns the sentinel if and only if f(a)·f(b) > 0; otherwise the outcome is that of RootFinding.BisectRun from [a0, b0] with no midpoint yet and RootFinding.HalvingsNeeded halvings, so it fixes which root comes back: an exact zero at a midpoint at once, else the last midpoint; raises UnboundLocalError("c") if and only if there is a sign change and the bracket is already within the accuracy (the loop never runs); otherwise the final bracket [lo, hi] keeps a sign change, lies in the initial one and is the initial one halved `halvings` times, and the root is an exact zero at the midpoint of a bracket wider than the accuracy or an end of a final bracket within the accuracy; it terminates for accuracy > 0 |
| RootFinding.BisectRun | Mako_Global/MakoInterviewPack/solution.py:43-54 | the reference run of the bisection loop: once abs(b - a) <= accuracy the last midpoint is returned, and its absence raises UnboundLocalError("c"); otherwise the midpoint is returned if f vanishes there exactly, and else a moves to the midpoint when f(a) and f(mid) share a strict sign and b moves there otherwise; no contract of its own: RootFinding.BisectRunSound and RootFinding.RootFinder.BisectionMethod state its properties |
| RootFinding.BisectRunSound | Mako_Global/MakoInterviewPack/solution.py:43-54 | a run from a loop state (a sign change on a bracket inside [a0, b0] that is the initial one halved k times), with halvings enough to reach the accuracy, returns a root or the unbound-midpoint error, never runs out of fuel, raises exactly when the initial bracket is within the accuracy, and a root is an exact zero at the midpoint of a bracket wider than the accuracy or an end of a final bracket within it, that bracket keeping a sign change inside [a0, b0] |
| RootFinding.BisectRunFirstMidpoint | Mako_Global/MakoInterviewPack/solution.py:46-48 | on [0, 100] with 0 < accuracy < 100, the cubic with roots 10, 50 and 90 yields 50: the exact zero at the first midpoint is returned at once |
| RootFinding.HalvingsNeeded | Mako_Global/MakoInterviewPack/solution.py:43 | a number of halvings that is at least 1 and exceeds abs(w) / accuracy |
| RootFinding.RootFinder.DekkersMethod | Mako_Global/MakoInterviewPack/solution.py:56-113 | returns the sentinel if and only if f(a)·f(b) > 0; otherwise its outcome and `previous` are those of RootFinding.DekkerRun from the initial state, so a bracket already within the accuracy returns b0 with previous a0, and `OutOfFuel` or `Indeterminate` come only when the initial bracket is wider than the accuracy; it never returns `Raised`; by RootFinding.DekkerRunSound, a returned root lies in the initial bracket, is within the accuracy of the previous iterate, and keeps a sign change against a point `partner` of the initial bracket |
| RootFinding.DekkerRun | Mako_Global/MakoInterviewPack/solution.py:80-113 | the reference run of Dekker's loop, one Rebracket and NextIterate step per iteration: it stops with (b, a) once abs(b - a) <= accuracy, and otherwise moves b to the accepted secant point or the midpoint with the old b as the previous iterate; no contract of its own: RootFinding.DekkerRunSound and RootFinding.RootFinder.DekkersMethod state its properties |
| RootFinding.DekkerRunSound | Mako_Global/MakoInterviewPack/solution.py:80-113 | a run from a state inside [a0, b0] never reports the sentinel or raises, and a root it returns lies in [a0, b0], is within the accuracy of the returned previous iterate (also in [a0, b0]), and keeps a sign change against a point `partner` of [a0, b0] |
| RootFinding.RootFinder.Solve | Mako_Global/MakoInterviewPack/solution.py:199 | calling the unset method raises TypeError("'NoneType' object is not callable") if and only if none is selected; with a method selected the sentinel comes back if and only if f(a)·f(b) > 0; a root lies in the bracket with a sign change against a point `partner` of it; under bisection it is within the accuracy of `partner`, under Dekker's method the outcome and `previous` are those of RootFinding.DekkerRun from the initial state, so the root is within the accuracy of the previous iterate, which also lies in the bracket; under bisection with a sign change the outcome is that of RootFinding.BisectRun from [a, b], and UnboundLocalError("c") is raised if and only if there is a sign change and abs(b - a) <= accuracy; `OutOfFuel` and `Indeterminate` come only from Dekker's method; the only errors raised are that TypeError and that UnboundLocalError |
| RootFinding.RootFinder.GetRootFindMethod | Mako_Global/MakoInterviewPack/solution.py:12-13 | returns the method currently selected, None before any is set |
| RootFinding.ProductSign | Mako_Global/MakoInterviewPack/solution.py:40 | the product test `u * v > 0` holds exactly when u and v have the same strict sign |
| RootFinding.HalvedIsDivision | Mako_Global/MakoInterviewPack/solution.py:45-53 | halving a width k times is dividing it by 2^k |
| RootFinding.HalvedShrinks | Mako_Global/MakoInterviewPack/solution.py:43-53 | more halvings never give a wider interval |
| RootFinding.EnoughHalvings | Mako_Global/MakoInterviewPack/solution.py:43 | for a positive accuracy, RootFinding.HalvingsNeeded halvings bring any width within it, so the bisection loop ends |
| RootFinding.Rebracket | Mako_Global/MakoInterviewPack/solution.py:83-93 | after the sign reset and the swap, f(b) and f(c) do not share a strict sign and abs(f(b)) <= abs(f(c)); abs(f(b)) has not grown; every point is one of the three old points |
| RootFinding.NextIterate | Mako_Global/MakoInterviewPack/solution.py:96-111 | an accepted secant point lies between b and the midpoint m and is where the secant line through (a, f(a)) and (b, f(b)) vanishes; a rejected step takes m; acceptance with q = 0 happens only with p = 0 (0/0) |
| RootFinding.SecantBetween | Mako_Global/MakoInterviewPack/solution.py:106-107 | an accepted step p / q, with p >= 0 and p <= d * q, lies between 0 and d |
| RootFinding.RebracketInside | Mako_Global/MakoInterviewPack/solution.py:83-93 | the sign reset and the swap keep all three points evaluated by f and inside the initial bracket |
| RootFinding.StepInside | Mako_Global/MakoInterviewPack/solution.py:104-111 | a new estimate between b and the midpoint of b and c stays inside the initial bracket |
| RootFinding.SignSplit | Mako_Global/MakoInterviewPack/solution.py:104-111 | when b and c do not share a strict sign, a new value f(x) cannot share one with both, so a sign change survives the step |
| Pricing.StockCallBlackScholes | Mako_Global/MakoInterviewPack/solution.py:220-232 | the Black-Scholes stock call X·Phi(d1) - exp(-r·tau)·K·Phi(d2) with d1 and d2 as at lines 227-228; no contract of its own: Pricing.StockBlackScholesParity states the parity it meets |
| Pricing.StockCallBachelier | Mako_Global/MakoInterviewPack/solution.py:246-264 | the Bachelier stock call (X - K*)·Phi(d) + v·phi(d) with K* = K·exp(-r·tau), v = 0.5·(sigma^2 / r)·(1 - exp(-2·r·tau)) and d = (X - K*) / v; requires r != 0; Pricing.StockBachelierParity states the parity it meets |
| Pricing.FutureCallBlackScholes | Mako_Global/MakoInterviewPack/solution.py:290-302 | the Black-76 call exp(-r·tau)·(X·Phi(d1) - K·Phi(d2)) with d1 and d2 as at lines 297-298; no contract of its own: Pricing.FutureBlackScholesParity states the parity it meets |
| Pricing.FutureCallBachelier | Mako_Global/MakoInterviewPack/solution.py:319-332 | the undiscounted Bachelier future call (X - K)·Phi(d) + sigma·sqrt(tau)·phi(d) with d = (X - K) / (sigma·sqrt(tau)); Pricing.FutureBachelierParity states the parity it meets |
| Pricing.CallPrice | Mako_Global/MakoInterviewPack/solution.py:220-332 | each (product, model) pair selects its own call formula: the stock or the future class, then Black-Scholes or Bachelier |
| Pricing.PutPrice | Mako_Global/MakoInterviewPack/solution.py:236-342 | for every product and model, put minus call is the stored offset, as the four put methods at lines 243, 276, 314 and 342 build it |
| Pricing.Price | Mako_Global/MakoInterviewPack/solution.py:197 | the price method a (model, side) selection stands for: the call formula for a call, the put for a put |
| Pricing.DayCountOffset | Mako_Global/MakoInterviewPack/solution.py:217 | the offset the constructors store, as written: K·exp(-r·days) - X for a stock (line 217) and (K - X)·exp(-r·days) for a future (line 287); no contract of its own: Pricing.DayCountOffsetDisagrees and Pricing.DayCountPutMissesClosedForm state how it differs from the intended one |
| Pricing.PutCallParity | Mako_Global/MakoInterviewPack/solution.py:236-243 | for all four formulas, put minus call is the stored offset at every sigma, so it is the same at any two sigmas |
| Pricing.StockBlackScholesParity | Mako_Global/MakoInterviewPack/solution.py:227-230 | with a symmetric normal CDF, the Black-Scholes stock call plus K·exp(-r·tau) - X is the closed-form put K·exp(-r·tau)·Phi(-d2) - X·Phi(-d1) |
| Pricing.StockBachelierParity | Mako_Global/MakoInterviewPack/solution.py:257-262 | the Bachelier stock call plus K* - X is the closed-form put (K* - X)·Phi(-d) + v·phi(d) |
| Pricing.FutureBlackScholesParity | Mako_Global/MakoInterviewPack/solution.py:297-300 | the Black-76 call plus (K - X)·exp(-r·tau) is the closed-form Black-76 put |
| Pricing.FutureBachelierParity | Mako_Global/MakoInterviewPack/solution.py:328-330 | the undiscounted Bachelier future call plus K - X is the closed-form put (K - X)·Phi(-d) + sigma·sqrt(tau)·phi(d) |
| Pricing.IntendedParityIsClosedForm | Mako_Global/MakoInterviewPack/solution.py:243 | for every product and model, the call plus the offset taken over the stored year fraction is the closed-form put |
| Pricing.DayCountDiscountDiffers | Mako_Global/MakoInterviewPack/solution.py:217 | under a strictly increasing exp with exp(0) = 1, a non-zero rate and a non-zero day count, exp(-r·days) is neither exp(-r·days/365) nor 1 |
| Pricing.DayCountOffsetDisagrees | Mako_Global/MakoInterviewPack/solution.py:287 | given exp strictly increasing with exp(0) = 1, a non-zero rate and a non-zero day count, the offset the constructors store from the day count differs from the intended offset at the stored year fraction whenever the discounted term does not vanish (K != 0 for a stock, K != X for a future); at r = 0 the two agree |
| Pricing.DayCountPutMissesClosedForm | Mako_Global/MakoInterviewPack/solution.py:217 | so, for every product and model, the put built from the stored offset is not the closed-form put |
| Pricing.DiscountedFutureOffsetMissesBachelier | Mako_Global/MakoInterviewPack/solution.py:342 | even over the year fraction, the discounted future offset (K - X)·exp(-r·tau) added to the undiscounted Bachelier call misses the closed-form put when r·tau != 0 and K != X |
| Options.ModelNamed | Mako_Global/MakoInterviewPack/solution.py:165-176 | "BlackScholes" and "Bachelier" are the two model names, each recognised if and only if it is the name given |
| Options.SideNamed | Mako_Global/MakoInterviewPack/solution.py:167-170 | "Call" and "Put" are the two sides, each recognised if and only if it is the name given |
| Options.ProductNamed | Mako_Global/MakoInterviewPack/solution.py:206-207 | "Stock" and "Future" are the two factory keys, each recognised if and only if it is the key given |
| Options.Option.constructor | Mako_Global/MakoInterviewPack/solution.py:118-130 | the inputs are stored as given except tau, which becomes days / 365; the offset is set to the product's day-count offset (K·exp(-r·days) - X for a stock, (K - X)·exp(-r·days) for a future) |
| Options.Option.SetPutCallParityOffset | Mako_Global/MakoInterviewPack/solution.py:141-142 | the offset becomes the value given |
| Options.Option.Mispricing | Mako_Global/MakoInterviewPack/solution.py:197 | the option's mispricing for the price method pr, as a function of sigma: at every sigma it plus the market price is the selected price, read from the option's inputs and its stored offset |
| Options.Mispriced | Mako_Global/MakoInterviewPack/solution.py:197 | the mispricing built from explicit inputs, the closure handed to the root finder: at every sigma it plus the market price is the selected price |
| Options.Option.SolveMispricing | Mako_Global/MakoInterviewPack/solution.py:197-199 | with a method selected and a valid dispatch, the outcomes of RootFinding.RootFinder.Solve on [0, 100] restated over the option's mispricing: the sentinel iff the mispricing has the same strict sign at 0 and 100, the bisection UnboundLocalError iff, the Dekker run on the mispricing, under bisection with a sign change the RootFinding.BisectRun run on the mispricing from [0, 100], and only UnboundLocalError raised |
| Options.Option.GetOptionPrice | Mako_Global/MakoInterviewPack/solution.py:160-188 | the model type is checked first: the four valid (model, side) pairs select their price method and only they do; an unknown model raises NameError("Model Type not supported") whatever the side; an unknown side under a known model raises NameError("Option Type not recognized") |
| Options.Option.ImpliedVol | Mako_Global/MakoInterviewPack/solution.py:190-199 | an unset finder raises TypeError if and only if none is selected; a dispatch error is raised as is; otherwise the sentinel comes back if and only if the mispricing price(sigma) - V_mkt has the same strict sign at 0 and 100, and a root lies in [0, 100] with a sign change of the mispricing against a point `partner` of [0, 100]; under bisection it is within the accuracy of `partner`, under Dekker's method the outcome and `previous` are those of RootFinding.DekkerRun on the mispricing, so the root is within the accuracy of the previous iterate in [0, 100]; under bisection with a sign change the outcome is that of RootFinding.BisectRun on the mispricing from [0, 100], and UnboundLocalError("c") is raised if and only if the mispricing does not have the same strict sign at 0 and 100 and 100 <= accuracy; `OutOfFuel` and `Indeterminate` come only from Dekker's method; the only errors raised are the TypeError, that UnboundLocalError and the dispatch NameError |
| Options.GetProduct | Mako_Global/MakoInterviewPack/solution.py:201-209 | raises KeyError(key) if and only if the key is neither "Stock" nor "Future"; otherwise returns a freshly built option of that product whose inputs and offset are those the constructor stores |

## Left out

- The numerical values of log, exp, sqrt, the normal CDF and PDF are left out. They stay uninterpreted, so vega, monotonicity of price in sigma and recovering sigma within the tolerance are not stated.
- IEEE floating point is left out: arithmetic is exact over `real`, and NaN comparison semantics are not modelled. A division by zero in a formula yields an uninterpreted value (`Numerics.overZero`) in place of numpy's inf or nan.
- Pricing.StockCallBachelier: requires r != 0, because the integrated volatility divides by the rate; numpy's inf/nan at r = 0 is not modelled. Options.Option.ImpliedVol carries the same precondition for a Bachelier option on a stock.
- RootFinding.RootFinder.BisectionMethod: requires accuracy > 0, which the loop needs to end. With a non-positive accuracy the source loop may never stop; that case is not modelled. RootFinding.RootFinder.Solve and Options.Option.ImpliedVol carry the same precondition when bisection is selected.
- RootFinding.RootFinder.DekkersMethod:
  - takes a fuel bound and returns `OutOfFuel` when the bound is used up, because the source loop has no cap and convergence is not proved;
  - accepting the secant step with q = 0 (so p = 0) returns `Indeterminate`. In the source, 0/0 at line 107 raises ZeroDivisionError when f returns plain Python floats; when f returns numpy floats, as the price formulas do, b becomes nan, the loop test at line 80 is false, and nan is returned, the same value as the no-sign-change sentinel. The model keeps the two outcomes apart and does not model the ZeroDivisionError.
- The methods that getRootFindMethod and getOptionPrice return are modelled as tags: `Method`, and `Pricer` applied through `Pricing.Price`. They are not Python bound methods.
- The base class's abstract price methods, which raise NameError, are left out: every modelled option is a stock or a future option.
- The offset is None only between the base and the subclass constructors; that window is not modelled.
- The getters getOptionType, getModelType and getPutCallParityOffset are left out; the fields are read directly.
- Options.GetProduct: takes every constructor argument explicitly. The Python default product "Stock", with no further arguments, would fail to construct either option; that path is not modelled.
- Options.Option.constructor: keeps the offset the source computes over the raw day count, not the corrected one (see Findings), so the model matches the code.
- The docstrings at lines 32 and 64 give 1 as the default upper bound, and the one at line 33 says invalid guesses raise an exception; the code defaults to 100 and returns np.nan (lines 40-41 and 70-71). The model follows the code.
- The `__main__` block (CSV input and output with pandas) is left out.
- The other scripts in the repository are not part of this model.

## Findings

| source | as written | input that shows it | evidently intended | confidence | as-written member | corrected member |
|---|---|---|---|---|---|---|
| Mako_Global/MakoInterviewPack/solution.py:217 | the stock parity offset K·exp(-r·tau) - X discounts over the raw day count, while the price formulas use tau / 365 | stock option, X = K = 100, r = 0.05, 365 days: the offset uses exp(-18.25) instead of exp(-0.05) | K·exp(-r·tau/365) - X, so that the derived put is the closed-form put | high, not executed | Pricing.DayCountPutMissesClosedForm | Pricing.IntendedParityIsClosedForm |
| Mako_Global/MakoInterviewPack/solution.py:287 | the future parity offset (K - X)·exp(-r·tau) also discounts over the raw day count | Black-76 future option, X = 100, K = 110, r = 0.05, 365 days | (K - X)·exp(-r·tau/365) | high, not executed | Pricing.DayCountPutMissesClosedForm | Pricing.IntendedParityIsClosedForm |
| Mako_Global/MakoInterviewPack/solution.py:342 | the Bachelier future put adds the discounted offset to an undiscounted call (line 330) | Bachelier future option, X = 100, K = 110, r = 0.05, any non-zero expiry | K - X, the parity of the undiscounted formula | medium, not executed | Pricing.DiscountedFutureOffsetMissesBachelier | Pricing.IntendedParityIsClosedForm |
