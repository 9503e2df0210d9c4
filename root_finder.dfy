/** The bracketing root finder of the implied-volatility calculator:
    bisection and Dekker's method over an arbitrary objective f, and the
    name-keyed choice between them. Arithmetic is exact over `real`. */
module RootFinding {
  import opened Common

  /** What one call of a root-finding method produces. */
  datatype Outcome =
    | Root(x: real)          // the approximate root that is returned
    | NoSignChange           // the np.nan sentinel: f(a) * f(b) > 0
    | Indeterminate          // Dekker accepted a secant step p / q with p == q == 0
    | Raised(error: PyError) // the call raised instead of returning
    | OutOfFuel              // Dekker's loop used up the iteration budget of the model

  /** The two methods the finder can be set to. */
  datatype Method = Dekkers | Bisection

  /** The table of available methods, keyed by name. */
  function MethodNamed(name: string): (m: Maybe<Method>)
    ensures m == Some(Dekkers) <==> name == "dekkers"
    ensures m == Some(Bisection) <==> name == "bisection"
    ensures m == None <==> name != "dekkers" && name != "bisection"
  {
    if name == "dekkers" then Some(Dekkers)
    else if name == "bisection" then Some(Bisection)
    else None
  }

  /** u and v have the same strict sign: the test `f(a) * f(b) > 0` of both
      root finders, stated without the product. */
  predicate SameSign(u: real, v: real)
  {
    (u > 0.0 && v > 0.0) || (u < 0.0 && v < 0.0)
  }

  lemma ProductSign(u: real, v: real)
    ensures u * v > 0.0 <==> SameSign(u, v)
  {
    if u > 0.0 && v < 0.0 {
      assert u * v < 0.0;
    } else if u < 0.0 && v > 0.0 {
      assert u * v < 0.0;
    }
  }

  /** 2^n as a real. */
  function Pow2(n: nat): (p: real)
    ensures p >= 1.0
  {
    if n == 0 then 1.0 else 2.0 * Pow2(n - 1)
  }

  lemma {:induction false} Pow2AtLeast(n: nat)
    ensures Pow2(n) >= n as real
  {
    if n > 0 {
      Pow2AtLeast(n - 1);
    }
  }

  /** The width w halved k times. */
  function Halved(w: real, k: nat): real
  {
    if k == 0 then w else 0.5 * Halved(w, k - 1)
  }

  /** Halving k times is dividing by 2^k. */
  lemma {:induction false} HalvedIsDivision(w: real, k: nat)
    ensures Halved(w, k) * Pow2(k) == w
  {
    if k > 0 {
      HalvedIsDivision(w, k - 1);
      assert Halved(w, k) * Pow2(k) == Halved(w, k - 1) * Pow2(k - 1);
    }
  }

  /** Further halvings never widen. */
  lemma {:induction false} HalvedShrinks(w: real, m: nat, n: nat)
    ensures m <= n ==> Abs(Halved(w, n)) <= Abs(Halved(w, m))
  {
    if m < n {
      HalvedShrinks(w, m, n - 1);
    }
  }

  /** A number of halvings that brings the width w within the accuracy
      acc > 0: one more than abs(w) / acc, rounded down. */
  function HalvingsNeeded(w: real, acc: real): (n: nat)
    requires acc > 0.0
    ensures n >= 1 && n as real > Abs(w) / acc
  {
    var q := Abs(w) / acc;
    assert q >= 0.0;
    q.Floor + 1
  }

  /** Enough halvings bring any width w within the accuracy acc > 0. */
  lemma EnoughHalvings(w: real, acc: real)
    requires acc > 0.0
    ensures Abs(Halved(w, HalvingsNeeded(w, acc))) <= acc
  {
    var n := HalvingsNeeded(w, acc);
    Pow2AtLeast(n);
    ScaledBound(Abs(w), acc, n as real, Pow2(n));
    HalvedIsDivision(w, n);
    DivideOut(Halved(w, n), Pow2(n), w, acc);
  }

  lemma ScaledBound(w: real, acc: real, m: real, p: real)
    requires acc > 0.0 && w / acc <= m && m <= p
    ensures w <= acc * p
  {
    assert w == acc * (w / acc);
    assert acc * (w / acc) <= acc * m;
    assert acc * m <= acc * p;
  }

  lemma DivideOut(h: real, p: real, w: real, acc: real)
    requires p >= 1.0 && h * p == w && Abs(w) <= acc * p
    ensures Abs(h) <= acc
  {
    assert Abs(w) == Abs(h) * p;
  }

  /** If u and v do not have the same strict sign, a third value w cannot
      have the same strict sign as both of them. */
  lemma SignSplit(u: real, v: real, w: real)
    requires !SameSign(u, v)
    ensures !SameSign(u, w) || !SameSign(w, v)
  {
  }

  /** The bisection loop from the bracket [a, b] with last midpoint c and
      at most n halvings left: once the width is within the accuracy the
      last midpoint is returned, and its absence raises; otherwise the
      midpoint is returned when it is an exact zero, and else the half whose
      ends do not share a strict sign with a is kept. */
  function BisectRun(f: real -> real, accuracy: real, a: real, b: real, c: Maybe<real>, n: nat): Outcome
    decreases n
  {
    if Abs(b - a) <= accuracy then
      match c
      case None => Raised(UnboundLocalError("c"))
      case Some(x) => Root(x)
    else if n == 0 then OutOfFuel
    else
      var mid := 0.5 * (a + b);
      if f(mid) == 0.0 then Root(mid)
      else if SameSign(f(a), f(mid)) then BisectRun(f, accuracy, mid, b, Some(mid), n - 1)
      else BisectRun(f, accuracy, a, mid, Some(mid), n - 1)
  }

  /** One step of a bisection run on a bracket wider than the accuracy. */
  lemma BisectRunStep(f: real -> real, accuracy: real, a: real, b: real, c: Maybe<real>, n: nat)
    requires Abs(b - a) > accuracy && n > 0
    ensures BisectRun(f, accuracy, a, b, c, n) ==
      if f(0.5 * (a + b)) == 0.0 then Root(0.5 * (a + b))
      else if SameSign(f(a), f(0.5 * (a + b))) then BisectRun(f, accuracy, 0.5 * (a + b), b, Some(0.5 * (a + b)), n - 1)
      else BisectRun(f, accuracy, a, 0.5 * (a + b), Some(0.5 * (a + b)), n - 1)
  {
  }

  /** Bisection picks its root by the rule above: on [0, 100] the cubic
      with roots 10, 50 and 90 has an exact zero at the first midpoint, so
      50 is returned whatever the accuracy. */
  lemma BisectRunFirstMidpoint(accuracy: real, n: nat)
    requires 0.0 < accuracy < 100.0 && n > 0
    ensures BisectRun(x => (x - 10.0) * (x - 50.0) * (x - 90.0), accuracy, 0.0, 100.0, None, n) == Root(50.0)
  {
  }

  /** The state the bisection loop keeps, k halvings into the run from
      [a0, b0]: a sign change between a and b, the initial width halved k
      times, both ends inside the initial bracket, and a last midpoint c
      that exists exactly after the first halving and is one of the ends. */
  predicate BisectState(f: real -> real, accuracy: real, a0: real, b0: real, a: real, b: real, c: Maybe<real>, k: nat)
  {
    !SameSign(f(a), f(b)) && b - a == Halved(b0 - a0, k) && Within(a, a0, b0) && Within(b, a0, b0) &&
    (c == None <==> k == 0) && (k == 0 ==> a == a0 && b == b0) && (k > 0 ==> Abs(b0 - a0) > accuracy) &&
    (c.Some? ==> c.value == a || c.value == b)
  }

  /** What bisection may return from [a0, b0]: a root or the unbound
      midpoint. A root is either an exact zero at the midpoint of a bracket
      [lo, hi] wider than the accuracy, or an end of a final bracket [lo, hi]
      within the accuracy; either way [lo, hi] keeps a sign change, lies
      inside [a0, b0] and is the initial bracket halved `halvings` times. */
  predicate SoundBisection(f: real -> real, accuracy: real, a0: real, b0: real,
                           r: Outcome, lo: real, hi: real, halvings: nat)
  {
    (r.Root? || r == Raised(UnboundLocalError("c"))) &&
    (r.Root? ==>
       Within(r.x, a0, b0) && Within(lo, a0, b0) && Within(hi, a0, b0) &&
       !SameSign(f(lo), f(hi)) && hi - lo == Halved(b0 - a0, halvings) &&
       ((f(r.x) == 0.0 && r.x == 0.5 * (lo + hi) && Abs(hi - lo) > accuracy) ||
        ((r.x == lo || r.x == hi) && Abs(hi - lo) <= accuracy && halvings > 0)))
  }

  /** A bisection run from a loop state, with halvings enough to reach the
      accuracy, is sound, and raises exactly when the initial bracket is
      within the accuracy, so that no midpoint was ever taken. */
  lemma {:induction false} BisectRunSound(f: real -> real, accuracy: real, a0: real, b0: real,
                                          a: real, b: real, c: Maybe<real>, k: nat, n: nat)
    returns (lo: real, hi: real, halvings: nat)
    requires BisectState(f, accuracy, a0, b0, a, b, c, k)
    requires Abs(Halved(b0 - a0, k + n)) <= accuracy
    ensures SoundBisection(f, accuracy, a0, b0, BisectRun(f, accuracy, a, b, c, n), lo, hi, halvings)
    ensures BisectRun(f, accuracy, a, b, c, n) == Raised(UnboundLocalError("c")) <==> k == 0 && Abs(b0 - a0) <= accuracy
    decreases n
  {
    lo, hi, halvings := a, b, k;
    if Abs(b - a) <= accuracy {
    } else if n == 0 {
      assert false;
    } else {
      var mid := 0.5 * (a + b);
      if f(mid) != 0.0 {
        if SameSign(f(a), f(mid)) {
          lo, hi, halvings := BisectRunSound(f, accuracy, a0, b0, mid, b, Some(mid), k + 1, n - 1);
        } else {
          lo, hi, halvings := BisectRunSound(f, accuracy, a0, b0, a, mid, Some(mid), k + 1, n - 1);
        }
      }
    }
  }

  /** The three points Dekker's method carries, with their function values:
      a the previous iterate, b the current estimate, c the contrapoint. */
  datatype Points = Points(a: real, fa: real, b: real, fb: real, c: real, fc: real)

  /** (x, fx) is one of the pairs s carries. */
  predicate Carries(s: Points, x: real, fx: real)
  {
    (x == s.a && fx == s.fa) || (x == s.b && fx == s.fb) || (x == s.c && fx == s.fc)
  }

  /** The sign reset and the swap at the top of each Dekker iteration:
      c becomes a when f(b) and f(c) share a sign, then the roles of b and c
      are exchanged when c is the better estimate. A sign change is kept
      between b and c, b ends up the better estimate, and no new point is
      introduced. */
  function Rebracket(s: Points): (t: Points)
    requires !SameSign(s.fa, s.fb) || !SameSign(s.fb, s.fc)
    ensures !SameSign(t.fb, t.fc) && Abs(t.fb) <= Abs(t.fc)
    ensures Abs(t.fb) <= Abs(s.fb)
    ensures Carries(s, t.a, t.fa) && Carries(s, t.b, t.fb) && Carries(s, t.c, t.fc)
  {
    ProductSign(s.fb, s.fc);
    var s1 := if s.fb * s.fc > 0.0 then s.(c := s.a, fc := s.fa) else s;
    if Abs(s1.fc) < Abs(s1.fb) then
      Points(s1.b, s1.fb, s1.c, s1.fc, s1.b, s1.fb)
    else
      s1
  }

  /** How Dekker's method chooses the next estimate. */
  datatype Step =
    | Secant(x: real)   // the secant step b + p / q was accepted
    | Bisect(x: real)   // the midpoint m of b and c was taken
    | ZeroOverZero      // the secant step was accepted with p == q == 0

  /** The step of one Dekker iteration, once b and c bracket: the sign of p
      is normalised to p >= 0 and the secant step through (a, fa), (b, fb) is
      accepted when p <= (m - b) * q, else the midpoint is taken. An
      accepted secant point lies between b and the midpoint, and is where
      the secant line through (a, fa) and (b, fb) vanishes. */
  function NextIterate(s: Points): (st: Step)
    ensures st.Secant? ==> Within(st.x, s.b, 0.5 * (s.b + s.c))
    ensures st.Secant? ==> (st.x - s.b) * (s.fb - s.fa) == (s.a - s.b) * s.fb
    ensures st.Bisect? ==> st.x == 0.5 * (s.b + s.c)
    ensures st.ZeroOverZero? ==> s.fa == s.fb && (s.b - s.a) * s.fb == 0.0
  {
    var m := 0.5 * (s.b + s.c);
    var p0 := (s.b - s.a) * s.fb;
    var p := if p0 >= 0.0 then p0 else -p0;
    var q := if p0 >= 0.0 then s.fa - s.fb else s.fb - s.fa;
    assert p >= 0.0;
    if p <= (m - s.b) * q then
      if q == 0.0 then
        ZeroOverZero
      else
        SecantBetween(p, q, m - s.b);
        Secant(s.b + p / q)
    else
      Bisect(m)
  }

  /** An accepted step p / q with p >= 0 lies between 0 and d. */
  lemma SecantBetween(p: real, q: real, d: real)
    requires p >= 0.0 && q != 0.0 && p <= d * q
    ensures Within(p / q, 0.0, d)
  {
    var t := p / q;
    assert p == t * q;
    if q > 0.0 {
      assert t >= 0.0;
      assert t * q <= d * q;
    } else {
      assert t <= 0.0;
      assert t * q <= d * q;
    }
  }

  /** The iterates of Dekker's method carry their own function values. */
  predicate Evaluated(f: real -> real, s: Points)
  {
    s.fa == f(s.a) && s.fb == f(s.b) && s.fc == f(s.c)
  }

  /** Every point of s lies in the hull of the initial bracket [a0, b0]. */
  predicate Inside(s: Points, a0: real, b0: real)
  {
    Within(s.a, a0, b0) && Within(s.b, a0, b0) && Within(s.c, a0, b0)
  }

  /** The sign reset and swap keep the points evaluated and inside the
      initial bracket. */
  lemma RebracketInside(f: real -> real, s: Points, a0: real, b0: real)
    requires !SameSign(s.fa, s.fb) || !SameSign(s.fb, s.fc)
    requires Evaluated(f, s) && Inside(s, a0, b0)
    ensures Evaluated(f, Rebracket(s)) && Inside(Rebracket(s), a0, b0)
  {
    var t := Rebracket(s);
    assert Carries(s, t.a, t.fa) && Carries(s, t.b, t.fb) && Carries(s, t.c, t.fc);
  }

  /** A point between b and the midpoint of b and c stays inside any
      interval holding b and c. */
  lemma StepInside(s: Points, x: real, a0: real, b0: real)
    requires Within(s.b, a0, b0) && Within(s.c, a0, b0)
    requires Within(x, s.b, 0.5 * (s.b + s.c))
    ensures Within(x, a0, b0)
  {
  }

  /** The state Dekker's method starts from on [a0, b0]: the contrapoint c
      starts at a. */
  function DekkerStart(f: real -> real, a0: real, b0: real): Points
  {
    Points(a0, f(a0), b0, f(b0), a0, f(a0))
  }

  /** The state after a step to x: the current estimate becomes the
      previous iterate a, x becomes the estimate b, and c is kept. */
  function Advance(f: real -> real, t: Points, x: real): Points
  {
    Points(t.b, t.fb, x, f(x), t.c, t.fc)
  }

  /** Dekker's iteration from state s with at most `fuel` iterations left:
      the outcome and the last value of the previous iterate a. It stops
      with the estimate b once |b - a| is within the accuracy. */
  function DekkerRun(f: real -> real, accuracy: real, s: Points, fuel: nat): (Outcome, real)
    requires !SameSign(s.fa, s.fb) || !SameSign(s.fb, s.fc)
    decreases fuel
  {
    if Abs(s.b - s.a) <= accuracy then (Root(s.b), s.a)
    else if fuel == 0 then (OutOfFuel, s.a)
    else
      var t := Rebracket(s);
      var st := NextIterate(t);
      if st.ZeroOverZero? then (Indeterminate, t.a)
      else
        SignSplit(t.fb, t.fc, f(st.x));
        DekkerRun(f, accuracy, Advance(f, t, st.x), fuel - 1)
  }

  /** What a run may return from a state inside [a0, b0]: never the
      sentinel nor an exception, and a root that lies in [a0, b0] within the
      accuracy of the previous iterate (also in [a0, b0]) and keeps a sign
      change against the point `partner` of [a0, b0]. */
  predicate SoundRun(f: real -> real, accuracy: real, run: (Outcome, real), partner: real, a0: real, b0: real)
  {
    !run.0.NoSignChange? && !run.0.Raised? &&
    (run.0.Root? ==>
       Within(run.0.x, a0, b0) && Within(run.1, a0, b0) && Abs(run.0.x - run.1) <= accuracy &&
       Within(partner, a0, b0) && !SameSign(f(run.0.x), f(partner)))
  }

  /** Every run of Dekker's iteration from an evaluated state inside
      [a0, b0] is sound, with some partner. */
  lemma {:induction false} DekkerRunSound(f: real -> real, accuracy: real, s: Points, fuel: nat, a0: real, b0: real)
    returns (partner: real)
    requires !SameSign(s.fa, s.fb) || !SameSign(s.fb, s.fc)
    requires Evaluated(f, s) && Inside(s, a0, b0)
    ensures SoundRun(f, accuracy, DekkerRun(f, accuracy, s, fuel), partner, a0, b0)
    decreases fuel
  {
    if Abs(s.b - s.a) <= accuracy {
      partner := if !SameSign(s.fa, s.fb) then s.a else s.c;
    } else if fuel == 0 {
      partner := a0;
    } else {
      var t := Rebracket(s);
      RebracketInside(f, s, a0, b0);
      var st := NextIterate(t);
      if st.ZeroOverZero? {
        partner := a0;
      } else {
        StepInside(t, st.x, a0, b0);
        SignSplit(t.fb, t.fc, f(st.x));
        assert DekkerRun(f, accuracy, s, fuel) == DekkerRun(f, accuracy, Advance(f, t, st.x), fuel - 1);
        partner := DekkerRunSound(f, accuracy, Advance(f, t, st.x), fuel - 1, a0, b0);
      }
    }
  }

  /** The root finder: a tolerance and the method currently selected,
      which is None until one is set. */
  class RootFinder {
    const accuracy: real
    var rootFindMethod: Maybe<Method>

    constructor (accuracy: real := 0.00000001)
      ensures this.accuracy == accuracy
      ensures rootFindMethod == None
    {
      this.accuracy := accuracy;
      rootFindMethod := None;
    }

    /** The method currently selected, None before any is set. */
    function GetRootFindMethod(): (m: Maybe<Method>)
      reads this
      ensures m == rootFindMethod
    {
      rootFindMethod
    }

    /** Selects the method called name; an unknown name raises NameError and
        leaves the selection as it was. */
    method SetRootFindMethod(name: string := "dekkers") returns (raised: Maybe<PyError>)
      modifies this
      ensures MethodNamed(name).Some? ==> rootFindMethod == MethodNamed(name) && raised == None
      ensures MethodNamed(name) == None ==>
        rootFindMethod == old(rootFindMethod) && raised == Some(NameError("root finder method not available"))
    {
      var found := MethodNamed(name);
      if found.Some? {
        rootFindMethod := found;
        raised := None;
      } else {
        raised := Some(NameError("root finder method not available"));
      }
    }

    /** Bisection on [a0, b0]. With no sign change it returns the sentinel;
        if the loop never runs, returning the unbound midpoint raises.
        Otherwise the result is the run of `BisectRun` from [a0, b0] with
        halvings enough to reach the accuracy: an exact zero at a midpoint is
        returned at once, and else the last midpoint once the width is within
        the accuracy. [lo, hi] is the last bracket: it keeps a sign change,
        lies in the initial bracket and is the initial one halved `halvings`
        times, and the result is either an exact zero at its midpoint or one
        of its ends. */
    method BisectionMethod(f: real -> real, a0: real := 0.0, b0: real := 100.0)
      returns (r: Outcome, ghost lo: real, ghost hi: real, ghost halvings: nat)
      requires accuracy > 0.0
      ensures r == NoSignChange <==> f(a0) * f(b0) > 0.0
      ensures r == Raised(UnboundLocalError("c")) <==> f(a0) * f(b0) <= 0.0 && Abs(b0 - a0) <= accuracy
      ensures !SameSign(f(a0), f(b0)) ==> SoundBisection(f, accuracy, a0, b0, r, lo, hi, halvings)
      ensures !SameSign(f(a0), f(b0)) ==> r == BisectRun(f, accuracy, a0, b0, None, HalvingsNeeded(b0 - a0, accuracy))
    {
      ProductSign(f(a0), f(b0));
      if f(a0) * f(b0) > 0.0 {
        return NoSignChange, a0, b0, 0;
      }
      ghost var enough := HalvingsNeeded(b0 - a0, accuracy);
      EnoughHalvings(b0 - a0, accuracy);
      lo, hi, halvings := BisectRunSound(f, accuracy, a0, b0, a0, b0, None, 0, enough);
      ghost var run := BisectRun(f, accuracy, a0, b0, None, enough);
      var a, b := a0, b0;
      var c: Maybe<real> := None;
      ghost var rest: nat := enough;
      while Abs(b - a) > accuracy
        invariant BisectRun(f, accuracy, a, b, c, rest) == run
        decreases rest
      {
        // the run never runs out of fuel, so fuel is left for this step
        assert rest > 0 by { assert !run.OutOfFuel?; }
        var mid := 0.5 * (a + b);
        ProductSign(f(a), f(mid));
        BisectRunStep(f, accuracy, a, b, c, rest);
        if f(mid) == 0.0 {
          assert run == Root(mid);
          return Root(mid), lo, hi, halvings;
        } else if f(a) * f(mid) > 0.0 {
          a := mid;
        } else {
          b := mid;
        }
        c := Some(mid);
        rest := rest - 1;
      }
      match c {
        case None =>
          r := Raised(UnboundLocalError("c"));
        case Some(x) =>
          r := Root(x);
      }
      assert r == run;
    }

    /** Dekker's method on [a0, b0] with at most `fuel` iterations. With no
        sign change it returns the sentinel; otherwise it is the run of
        `DekkerRun` from the initial state, with `previous` the last previous
        iterate: on a bracket already within the accuracy it returns b0 at
        once. A returned root lies in the initial bracket, keeps a sign change
        against a point `partner` of that bracket, and is within the accuracy
        of the previous iterate. */
    method DekkersMethod(f: real -> real, fuel: nat, a0: real := 0.0, b0: real := 100.0)
      returns (r: Outcome, ghost previous: real, ghost partner: real)
      ensures r == NoSignChange <==> f(a0) * f(b0) > 0.0
      ensures !SameSign(f(a0), f(b0)) ==> (r, previous) == DekkerRun(f, accuracy, DekkerStart(f, a0, b0), fuel)
      ensures !SameSign(f(a0), f(b0)) && Abs(b0 - a0) <= accuracy ==> r == Root(b0) && previous == a0
      ensures r.OutOfFuel? || r.Indeterminate? ==> Abs(b0 - a0) > accuracy
      ensures !r.Raised?
      ensures r.Root? ==> Within(r.x, a0, b0) && Within(previous, a0, b0) && Within(partner, a0, b0)
      ensures r.Root? ==> Abs(r.x - previous) <= accuracy && !SameSign(f(r.x), f(partner))
    {
      ProductSign(f(a0), f(b0));
      if f(a0) * f(b0) > 0.0 {
        return NoSignChange, a0, b0;
      }
      var s := DekkerStart(f, a0, b0);
      partner := DekkerRunSound(f, accuracy, s, fuel, a0, b0);
      var n: nat := fuel;
      while Abs(s.b - s.a) > accuracy
        invariant !SameSign(s.fa, s.fb) || !SameSign(s.fb, s.fc)
        invariant DekkerRun(f, accuracy, s, n) == DekkerRun(f, accuracy, DekkerStart(f, a0, b0), fuel)
        decreases n
      {
        if n == 0 {
          return OutOfFuel, s.a, partner;
        }
        ghost var s0 := s;
        n := n - 1;
        s := Rebracket(s);
        var x;
        match NextIterate(s) {
          case ZeroOverZero =>
            return Indeterminate, s.a, partner;
          case Secant(y) =>
            x := y;
          case Bisect(y) =>
            x := y;
        }
        SignSplit(s.fb, s.fc, f(x));
        assert DekkerRun(f, accuracy, s0, n + 1) == DekkerRun(f, accuracy, Advance(f, s, x), n);
        s := Advance(f, s, x);
      }
      r, previous := Root(s.b), s.a;
    }

    /** Calls the selected method on f with the default bracket [a, b];
        calling the unset method (None) raises TypeError. Each method's own
        outcomes are passed on: under bisection a root is within the accuracy
        of the sign-change partner, and the unbound midpoint is raised exactly
        when the bracket starts within the accuracy; under Dekker's method the
        outcome and the previous iterate are those of `DekkerRun`. */
    method Solve(f: real -> real, fuel: nat, a: real := 0.0, b: real := 100.0)
      returns (r: Outcome, ghost partner: real, ghost previous: real)
      requires rootFindMethod == Some(Bisection) ==> accuracy > 0.0
      ensures rootFindMethod == None <==> r == Raised(TypeError("'NoneType' object is not callable"))
      ensures rootFindMethod != None ==> (r == NoSignChange <==> f(a) * f(b) > 0.0)
      ensures r.Root? ==> Within(r.x, a, b) && Within(partner, a, b) && !SameSign(f(r.x), f(partner))
      ensures r.Root? && rootFindMethod == Some(Bisection) ==> Abs(r.x - partner) <= accuracy
      ensures r.Root? && rootFindMethod == Some(Dekkers) ==> Within(previous, a, b) && Abs(r.x - previous) <= accuracy
      ensures rootFindMethod == Some(Dekkers) && !SameSign(f(a), f(b)) ==>
        (r, previous) == DekkerRun(f, accuracy, DekkerStart(f, a, b), fuel)
      ensures rootFindMethod == Some(Bisection) && !SameSign(f(a), f(b)) ==>
        r == BisectRun(f, accuracy, a, b, None, HalvingsNeeded(b - a, accuracy))
      ensures rootFindMethod == Some(Bisection) ==>
        (r == Raised(UnboundLocalError("c")) <==> !SameSign(f(a), f(b)) && Abs(b - a) <= accuracy)
      ensures rootFindMethod == Some(Bisection) ==> r.Root? || r.NoSignChange? || r == Raised(UnboundLocalError("c"))
      ensures r.OutOfFuel? || r.Indeterminate? ==> rootFindMethod == Some(Dekkers)
      ensures r == Raised(UnboundLocalError("c")) ==> rootFindMethod == Some(Bisection)
      ensures r.Raised? ==> r.error == TypeError("'NoneType' object is not callable") || r.error == UnboundLocalError("c")
    {
      match GetRootFindMethod()
      case None =>
        r, partner, previous := Raised(TypeError("'NoneType' object is not callable")), a, a;
      case Some(Bisection) =>
        ghost var lo, hi, k;
        ProductSign(f(a), f(b));
        r, lo, hi, k := BisectionMethod(f, a, b);
        partner := if r.Root? && f(r.x) == 0.0 then r.x else if r.Root? && r.x == lo then hi else lo;
        previous := partner;
      case Some(Dekkers) =>
        r, previous, partner := DekkersMethod(f, fuel, a, b);
    }
  }
}
