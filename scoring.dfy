/** get_score (src/valuation.py): a fixed-rate repayment mortgage on the part of the price
    the deposit does not cover, and the return on the cash put in. Arithmetic is over
    `real`; math.pow with an integer exponent is written out, and round(x, 2) is exact
    round-half-to-even at two decimal places. */
module Scoring {
  import opened Common
  import opened Text

  /** The investor's terms. Amounts are whole pounds, the rate is a yearly percentage and
      the length is in years. */
  datatype ValuationParameters = ValuationParameters(
    minDeposit: int, maxDeposit: int, mortgageLength: int, mortgageInterestRate: real,
    investmentIncrease: int, investmentDeduction: int, rentIncrease: int, rentDeduction: int)
  {
    /** ValuationParameters.__repr__, which is part of the valuation cache key: the class
        name, then every field as name=value separated by ", ". The rate is printed by
        `realText`, Python's float formatting. */
    function Repr(realText: real -> string): string
    {
      "ValuationParameters(" + Join(ReprParts(realText), ", ") + ")"
    }

    function ReprParts(realText: real -> string): seq<string>
    {
      [ "min_deposit=" + IntToString(minDeposit),
        "max_deposit=" + IntToString(maxDeposit),
        "mortgage_length=" + IntToString(mortgageLength),
        "mortgage_interest_rate=" + realText(mortgageInterestRate),
        "investment_increase=" + IntToString(investmentIncrease),
        "investment_deduction=" + IntToString(investmentDeduction),
        "rent_increase=" + IntToString(rentIncrease),
        "rent_deduction=" + IntToString(rentDeduction) ]
    }
  }

  /** The repr names every parameter: as long as float formatting tells different rates
      apart and writes no comma, different parameters have different reprs, so the cache
      key never confuses two sets of terms. */
  lemma ReprInjective(a: ValuationParameters, b: ValuationParameters, realText: real -> string)
    requires forall x, y :: realText(x) == realText(y) ==> x == y
    requires forall x :: Excludes(realText(x), ',')
    requires a.Repr(realText) == b.Repr(realText)
    ensures a == b
  {
    var pa, pb := a.ReprParts(realText), b.ReprParts(realText);
    var ja, jb := Join(pa, ", "), Join(pb, ", ");
    assert a.Repr(realText) == "ValuationParameters(" + (ja + ")");
    assert b.Repr(realText) == "ValuationParameters(" + (jb + ")");
    CancelLeft("ValuationParameters(", ja + ")", jb + ")");
    assert ja == (ja + ")")[..|ja|] && jb == (jb + ")")[..|jb|];
    ReprPartsExclude(a, realText);
    ReprPartsExclude(b, realText);
    JoinInjective(pa, pb, ", ");
    CancelLeft("min_deposit=", IntToString(a.minDeposit), IntToString(b.minDeposit));
    IntToStringInjective(a.minDeposit, b.minDeposit);
    CancelLeft("max_deposit=", IntToString(a.maxDeposit), IntToString(b.maxDeposit));
    IntToStringInjective(a.maxDeposit, b.maxDeposit);
    CancelLeft("mortgage_length=", IntToString(a.mortgageLength), IntToString(b.mortgageLength));
    IntToStringInjective(a.mortgageLength, b.mortgageLength);
    CancelLeft("mortgage_interest_rate=", realText(a.mortgageInterestRate), realText(b.mortgageInterestRate));
    CancelLeft("investment_increase=", IntToString(a.investmentIncrease), IntToString(b.investmentIncrease));
    IntToStringInjective(a.investmentIncrease, b.investmentIncrease);
    CancelLeft("investment_deduction=", IntToString(a.investmentDeduction), IntToString(b.investmentDeduction));
    IntToStringInjective(a.investmentDeduction, b.investmentDeduction);
    CancelLeft("rent_increase=", IntToString(a.rentIncrease), IntToString(b.rentIncrease));
    IntToStringInjective(a.rentIncrease, b.rentIncrease);
    CancelLeft("rent_deduction=", IntToString(a.rentDeduction), IntToString(b.rentDeduction));
    IntToStringInjective(a.rentDeduction, b.rentDeduction);
  }

  /** No part of the repr holds a comma: the names have none, and neither do the numbers. */
  lemma ReprPartsExclude(vp: ValuationParameters, realText: real -> string)
    requires forall x :: Excludes(realText(x), ',')
    ensures forall i :: 0 <= i < |vp.ReprParts(realText)| ==> Excludes(vp.ReprParts(realText)[i], ',')
  {
    var parts := vp.ReprParts(realText);
    forall i | 0 <= i < |parts|
      ensures Excludes(parts[i], ',')
    {
      if i == 0 {
        NamedNumberExcludes("min_deposit=", vp.minDeposit);
      } else if i == 1 {
        NamedNumberExcludes("max_deposit=", vp.maxDeposit);
      } else if i == 2 {
        NamedNumberExcludes("mortgage_length=", vp.mortgageLength);
      } else if i == 3 {
        NamedTextExcludes("mortgage_interest_rate=", realText(vp.mortgageInterestRate));
      } else if i == 4 {
        NamedNumberExcludes("investment_increase=", vp.investmentIncrease);
      } else if i == 5 {
        NamedNumberExcludes("investment_deduction=", vp.investmentDeduction);
      } else if i == 6 {
        NamedNumberExcludes("rent_increase=", vp.rentIncrease);
      } else {
        NamedNumberExcludes("rent_deduction=", vp.rentDeduction);
      }
    }
  }

  lemma NamedTextExcludes(name: string, value: string)
    requires Excludes(name, ',') && Excludes(value, ',')
    ensures Excludes(name + value, ',')
  {
  }

  lemma NamedNumberExcludes(name: string, i: int)
    requires Excludes(name, ',')
    ensures Excludes(name + IntToString(i), ',')
  {
    IntToStringChars(i);
    NamedTextExcludes(name, IntToString(i));
  }

  /** Why scoring a property raised. All but DivisionByZero are ValueErrors, which the
      valuation loop catches; a ZeroDivisionError escapes it. */
  datatype ScoreError = RateIsZero | PowDomain | DivisionByZero | CostIsZero

  predicate IsValueError(e: ScoreError)
  {
    e != DivisionByZero
  }

  function Power(b: real, n: nat): real
  {
    if n == 0 then 1.0 else b * Power(b, n - 1)
  }

  lemma {:induction false} PowerNonZero(b: real, n: nat)
    requires b != 0.0
    ensures Power(b, n) != 0.0
  {
    if n > 0 {
      PowerNonZero(b, n - 1);
    }
  }

  /** math.pow(b, n) for an integer n: zero to a negative power is a domain error. */
  function PowInt(b: real, n: int): (r: Result<real, ScoreError>)
    ensures r.Failure? <==> b == 0.0 && n < 0
    ensures r.Failure? ==> r.error == PowDomain
    ensures r.Success? && n >= 0 ==> r.value == Power(b, n)
    ensures r.Success? && n < 0 ==> r.value * Power(b, -n) == 1.0
  {
    if n >= 0 then Success(Power(b, n))
    else if b == 0.0 then Failure(PowDomain)
    else
      PowerNonZero(b, -n);
      Success(1.0 / Power(b, -n))
  }

  function MonthlyRate(vp: ValuationParameters): real
  {
    vp.mortgageInterestRate / (12.0 * 100.0)
  }

  function Months(vp: ValuationParameters): int
  {
    vp.mortgageLength * 12
  }

  /** The borrowed amount: the price above the maximum deposit, never negative. */
  function Principal(price: real, vp: ValuationParameters): (p: real)
    ensures p >= 0.0 && p >= price - vp.maxDeposit as real
    ensures p == 0.0 || p == price - vp.maxDeposit as real
  {
    if price - vp.maxDeposit as real > 0.0 then price - vp.maxDeposit as real else 0.0
  }

  /** The cash put in: the maximum deposit plus the net investment adjustments. */
  function Cost(vp: ValuationParameters): int
  {
    vp.maxDeposit + (vp.investmentIncrease - vp.investmentDeduction)
  }

  /** The annuity payment p * r * g / (g - 1), where g is (1 + r) to the number of months. */
  function MonthlyPayment(p: real, r: real, g: real): real
    requires g != 1.0
  {
    p * r * g / (g - 1.0)
  }

  /** The first of get_score's failures, in the order the Python implementation meets them; they depend
      on the parameters only. */
  function Degeneracy(vp: ValuationParameters): (e: Option<ScoreError>)
    ensures MonthlyRate(vp) == 0.0 ==> e == Some(RateIsZero)
    ensures MonthlyRate(vp) != 0.0 && Cost(vp) == 0 ==> e.Some?
    ensures e.None? ==> MonthlyRate(vp) != 0.0 && Cost(vp) != 0
  {
    var r := MonthlyRate(vp);
    if r == 0.0 then Some(RateIsZero)
    else match PowInt(1.0 + r, Months(vp))
      case Failure(err) => Some(err)
      case Success(g) =>
        if g - 1.0 == 0.0 then Some(DivisionByZero)
        else if Cost(vp) == 0 then Some(CostIsZero)
        else None
  }

  /** round(x, 2), rounding a tie to the even hundredth. */
  function Round2(x: real): (y: real)
    ensures -1.0 / 200.0 <= y - x <= 1.0 / 200.0
    ensures (y * 100.0).Floor as real == y * 100.0
  {
    var scaled := x * 100.0;
    var f := scaled.Floor;
    var d := scaled - f as real;
    var k := if d < 0.5 then f else if d > 0.5 then f + 1 else if f % 2 == 0 then f else f + 1;
    assert -0.5 <= k as real - scaled <= 0.5;
    k as real / 100.0
  }

  /** Rounding leaves an amount already in whole hundredths unchanged. */
  lemma Round2Exact(k: int)
    ensures Round2(k as real / 100.0) == k as real / 100.0
  {
    var scaled := (k as real / 100.0) * 100.0;
    assert scaled == k as real;
    assert scaled.Floor == k;
  }

  /** get_score(property, vp) for a property of price `price` whose estimated monthly rent
      is `rent`. */
  function Score(price: real, rent: real, vp: ValuationParameters): (r: Result<real, ScoreError>)
    ensures r.Failure? <==> Degeneracy(vp).Some?
    ensures r.Failure? ==> r.error == Degeneracy(vp).value
    ensures r.Success? ==>
              PowInt(1.0 + MonthlyRate(vp), Months(vp)).Success?
              && PowInt(1.0 + MonthlyRate(vp), Months(vp)).value != 1.0
              && Cost(vp) != 0
              && var g := PowInt(1.0 + MonthlyRate(vp), Months(vp)).value;
                 var payment := MonthlyPayment(Principal(price, vp), MonthlyRate(vp), g);
                 -1.0 / 200.0 <= r.value - 100.0 * ((rent + (vp.rentIncrease - vp.rentDeduction) as real - payment) * 12.0) / Cost(vp) as real <= 1.0 / 200.0
  {
    var r := MonthlyRate(vp);
    var p := Principal(price, vp);
    if r == 0.0 then Failure(RateIsZero)
    else match PowInt(1.0 + r, Months(vp))
      case Failure(err) => Failure(err)
      case Success(g) =>
        if g - 1.0 == 0.0 then Failure(DivisionByZero)
        else
          var monthlyMortgage := MonthlyPayment(p, r, g);
          var netAnnualIncome := (rent + (vp.rentIncrease - vp.rentDeduction) as real - monthlyMortgage) * 12.0;
          var cost := Cost(vp);
          if cost == 0 then Failure(CostIsZero)
          else Success(Round2(100.0 * netAnnualIncome / cost as real))
  }

  /** Whether a property can be scored does not depend on the property: the same
      parameters fail for every price and rent, with the same error. */
  lemma ScoreFailureIndependent(price1: real, rent1: real, price2: real, rent2: real, vp: ValuationParameters)
    ensures Score(price1, rent1, vp).Failure? <==> Score(price2, rent2, vp).Failure?
    ensures Score(price1, rent1, vp).Failure? ==> Score(price1, rent1, vp).error == Score(price2, rent2, vp).error
  {
  }

  /** The minimum deposit plays no part in the score. */
  lemma ScoreIgnoresMinDeposit(price: real, rent: real, vp: ValuationParameters, d: int)
    ensures Score(price, rent, vp.(minDeposit := d)) == Score(price, rent, vp)
  {
  }

  /** A mortgage of length zero makes the annuity divide by zero: get_score raises
      ZeroDivisionError, which no caller catches. */
  lemma ZeroLengthIsFatal(vp: ValuationParameters)
    requires MonthlyRate(vp) != 0.0 && vp.mortgageLength == 0
    ensures Degeneracy(vp) == Some(DivisionByZero)
  {
  }

  // ---------------------------------------------------------------------------
  // The payment repays the loan

  /** The balance owed after `k` monthly payments of `payment` on a loan `p` at monthly rate `r`. */
  function Balance(p: real, r: real, payment: real, k: nat): real
  {
    if k == 0 then p else Balance(p, r, payment, k - 1) * (1.0 + r) - payment
  }

  /** One month of the closed form: the identity behind the induction step. */
  lemma BalanceStep(b: real, p: real, r: real, payment: real, x: real, b': real, x': real)
    requires b * r == p * r * x - payment * (x - 1.0)
    requires b' == b * (1.0 + r) - payment && x' == (1.0 + r) * x
    ensures b' * r == p * r * x' - payment * (x' - 1.0)
  {
    var q := 1.0 + r;
    assert b' * r == (b * r) * q - payment * r;
    assert (p * r * x - payment * (x - 1.0)) * q == p * r * (q * x) - payment * (q * x - q);
    assert payment * (q * x - q) + payment * r == payment * (q * x - 1.0);
  }

  /** Closed form of the balance, scaled by r to stay free of division. */
  lemma {:induction false} BalanceClosedForm(p: real, r: real, payment: real, k: nat)
    ensures Balance(p, r, payment, k) * r == p * r * Power(1.0 + r, k) - payment * (Power(1.0 + r, k) - 1.0)
  {
    if k > 0 {
      BalanceClosedForm(p, r, payment, k - 1);
      BalanceMonth(p, r, payment, k);
    }
  }

  /** The induction step of BalanceClosedForm: the closed form for k - 1 months gives it for k. */
  lemma BalanceMonth(p: real, r: real, payment: real, k: nat)
    requires k > 0
    requires Balance(p, r, payment, k - 1) * r == p * r * Power(1.0 + r, k - 1) - payment * (Power(1.0 + r, k - 1) - 1.0)
    ensures Balance(p, r, payment, k) * r == p * r * Power(1.0 + r, k) - payment * (Power(1.0 + r, k) - 1.0)
  {
    var b := Balance(p, r, payment, k - 1);
    var x := Power(1.0 + r, k - 1);
    var b' := Balance(p, r, payment, k);
    var x' := Power(1.0 + r, k);
    assert b' == b * (1.0 + r) - payment;
    assert x' == (1.0 + r) * x;
    BalanceStep(b, p, r, payment, x, b', x');
  }

  /** For a positive number of months and a non-zero rate, paying MonthlyPayment every
      month leaves nothing owed at the end of the term. */
  lemma PaymentRepaysLoan(p: real, r: real, n: nat)
    requires n > 0 && r != 0.0 && Power(1.0 + r, n) != 1.0
    ensures Balance(p, r, MonthlyPayment(p, r, Power(1.0 + r, n)), n) == 0.0
  {
    var g := Power(1.0 + r, n);
    var payment := MonthlyPayment(p, r, g);
    BalanceClosedForm(p, r, payment, n);
    assert payment * (g - 1.0) == p * r * g;
    assert Balance(p, r, payment, n) * r == 0.0;
  }
}
