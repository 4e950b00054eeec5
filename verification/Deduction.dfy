/** How much data one promo event takes: promo-collection's deduction formula
    min(M*P, L*C) and the full / partial / skip decision made from it. */
module Deduction {
  import opened Numbers

  datatype Kind = Full | Partial

  /** What DataToBeDeductedCalculation does with an event. */
  datatype Decision =
    | Take(kind: Kind, data: real, amount: real)
    | BelowMinimum   // the in-progress entry is deleted, nothing is published
    | Unsendable     // amount / 0 is Inf or NaN, which the JSON encoder refuses
    | Nothing        // the default branch of the switch

  function ComputeMaxDeductibleAmount(maxPercent: real, wallet: real, balance: real, rate: real): (d: real)
    ensures d <= maxPercent * wallet && d <= balance * rate
    ensures d == maxPercent * wallet || d == balance * rate
  {
    if maxPercent * wallet <= balance * rate then maxPercent * wallet else balance * rate
  }

  /** buildPubSubMsg divides by the rate of the loan document, whatever rate was used before. */
  function Send(kind: Kind, data: real, loanRate: real): Decision {
    if loanRate == 0.0 then Unsendable else Take(kind, data, data / loanRate)
  }

  /** The switch of DataToBeDeductedCalculation.  `rate` is what getConversionRate
      returned, `loanRate` the field of the loan document.  With rate 0 the source's
      quotient is -Inf, which is below every minimum. */
  function Choose(deductible: real, outstanding: real, minAmount: real, loanRate: real, rate: real): Decision {
    if deductible == outstanding then
      Send(Full, deductible, loanRate)
    else if deductible < outstanding then
      if rate != 0.0 && deductible / rate >= minAmount then
        Send(Partial, (deductible / rate).Floor as real * rate, loanRate)
      else
        BelowMinimum
    else
      Nothing
  }

  /** From the formula to the decision. */
  function Decide(maxPercent: real, wallet: real, minAmount: real,
                  balance: real, loanRate: real, rate: real): Decision
  {
    Choose(ComputeMaxDeductibleAmount(maxPercent, wallet, balance, rate), balance * rate, minAmount, loanRate, rate)
  }

  lemma QuotientOrder(x: real, y: real, c: real)
    requires c > 0.0
    ensures x <= y * c <==> x / c <= y
    ensures x < y * c <==> x / c < y
    ensures (x / c) * c == x
    ensures (y * c) / c == y
  {
    var q := x / c;
    assert q * c == x;
    if q <= y { assert q * c <= y * c by { MulOrder(q, y, c); } }
    if q > y { assert q * c > y * c by { MulOrder(y, q, c); } }
    if q < y { MulOrder(q, y, c); }
    var r := (y * c) / c;
    assert r * c == y * c;
    if r < y { MulOrder(r, y, c); }
    if r > y { MulOrder(y, r, c); }
  }

  lemma MulOrder(a: real, b: real, c: real)
    requires c > 0.0
    ensures a <= b ==> a * c <= b * c
    ensures a < b ==> a * c < b * c
  {
    assert (b - a) * c == b * c - a * c;
    if a < b { assert (b - a) * c > 0.0; }
  }

  /** With a positive rate on the loan: the event is a full collection exactly when the
      allowance covers the debt and then takes exactly the debt; otherwise it is a partial
      one exactly when the allowance reaches the minimum, and then takes the greatest whole
      number of pesos the allowance pays for, strictly below the debt.  Never more data than
      M*P is taken, and the default branch and the encoding error are unreachable. */
  lemma DeductionIsOptimal(maxPercent: real, wallet: real, minAmount: real, balance: real, rate: real)
    requires rate > 0.0
    ensures Optimal(Decide(maxPercent, wallet, minAmount, balance, rate, rate),
                    maxPercent * wallet, balance * rate, balance, rate, minAmount)
  {
    hide Decide, Optimal;
    DecideIsOptimal(maxPercent, wallet, minAmount, balance, rate, maxPercent * wallet, balance * rate);
  }

  /** The same with the two products named. */
  lemma DecideIsOptimal(maxPercent: real, wallet: real, minAmount: real, balance: real, rate: real,
                        cap: real, debt: real)
    requires rate > 0.0 && cap == maxPercent * wallet && debt == balance * rate
    ensures Optimal(Decide(maxPercent, wallet, minAmount, balance, rate, rate), cap, debt, balance, rate, minAmount)
  {
    hide Choose, Optimal;
    ChoiceIsOptimal(if cap <= debt then cap else debt, cap, debt, balance, rate, minAmount);
  }

  lemma ChoiceIsOptimal(deductible: real, cap: real, debt: real, balance: real, rate: real, minAmount: real)
    requires rate > 0.0 && debt == balance * rate
    requires deductible <= cap && deductible <= debt && (deductible == cap || deductible == debt)
    ensures Optimal(Choose(deductible, debt, minAmount, rate, rate), cap, debt, balance, rate, minAmount)
  {
    hide Optimal, Choose;
    if cap >= debt {
      FullTake(cap, debt, balance, rate, minAmount);
    } else {
      PartialTake(cap, debt, balance, rate, minAmount);
    }
  }

  /** What a decision should be for an allowance `cap` and a debt of `debt` MB. */
  ghost predicate Optimal(d: Decision, cap: real, debt: real, balance: real, rate: real, minAmount: real)
    requires rate != 0.0
  {
    && (d.Take? && d.kind == Full <==> cap >= debt)
    && (d.Take? && d.kind == Partial <==> cap < debt && cap / rate >= minAmount)
    && (d.Take? ==> d.data <= cap && d.data == d.amount * rate)
    && (d.Take? && d.kind == Full ==> d.amount == balance)
    && (d.Take? && d.kind == Partial ==>
          && Whole(d.amount) && d.amount < balance
          && minAmount.Floor as real <= d.amount
          && forall k: int :: Affordable(k, rate, cap) ==> k as real <= d.amount)
    && !d.Nothing? && !d.Unsendable?
  }

  lemma FullTake(cap: real, debt: real, balance: real, rate: real, minAmount: real)
    requires rate > 0.0 && debt == balance * rate && cap >= debt
    ensures Optimal(Choose(debt, debt, minAmount, rate, rate), cap, debt, balance, rate, minAmount)
  {
    hide Affordable, Whole;
    QuotientOrder(debt, balance, rate);
  }

  lemma PartialTake(cap: real, debt: real, balance: real, rate: real, minAmount: real)
    requires rate > 0.0 && debt == balance * rate && cap < debt
    ensures Optimal(Choose(cap, debt, minAmount, rate, rate), cap, debt, balance, rate, minAmount)
  {
    if cap / rate >= minAmount {
      var pesos := (cap / rate).Floor;
      QuotientOrder(cap, balance, rate);
      GreatestWholeAmount(cap, rate);
      WholePesos(pesos);
      FloorMonotone(minAmount, cap / rate);
    }
  }

  /** k pesos of debt cost no more data than the cap. */
  predicate Affordable(k: int, rate: real, cap: real) {
    k as real * rate <= cap
  }

  lemma WholePesos(k: int)
    ensures Whole(k as real)
  {
    FloorOf(k as real, k);
  }

  lemma GreatestWholeAmount(cap: real, rate: real)
    requires rate > 0.0
    ensures var pesos := (cap / rate).Floor;
            && Affordable(pesos, rate, cap)
            && (pesos as real * rate) / rate == pesos as real
            && forall k: int :: Affordable(k, rate, cap) ==> k <= pesos
  {
    var quotient := cap / rate;
    var pesos := quotient.Floor;
    QuotientOrder(cap, pesos as real, rate);
    MulOrder(pesos as real, quotient, rate);
    forall k: int | Affordable(k, rate, cap)
      ensures k <= pesos
    {
      QuotientOrder(cap, k as real, rate);
      MulOrder(quotient, k as real, rate);
    }
  }

  lemma FloorMonotone(x: real, y: real)
    requires x <= y
    ensures x.Floor <= y.Floor
  {
  }

  /** Where the rate came from the system matrix (the loan document holds 0), no event is
      ever published: it is Unsendable exactly when it would have been a collection. */
  lemma NoLoanRateNeverPublishes(maxPercent: real, wallet: real, minAmount: real, balance: real, matrixRate: real)
    requires matrixRate > 0.0
    ensures var d := Decide(maxPercent, wallet, minAmount, balance, 0.0, matrixRate);
            && (d.Unsendable? <==> Decide(maxPercent, wallet, minAmount, balance, matrixRate, matrixRate).Take?)
            && (d.Unsendable? || d.BelowMinimum?)
  {
    DeductionIsOptimal(maxPercent, wallet, minAmount, balance, matrixRate);
  }
}
