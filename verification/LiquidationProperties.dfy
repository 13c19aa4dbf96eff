/** The terms of one liquidation, for every position and every pool. */
module LiquidationProperties {
  import opened Base
  import opened Constants
  import opened TorchMath
  import opened Accounts
  import opened Lending
  import FloorDivision

  /** Collateral the liquidator asks for: the slice plus its bonus at the pool's price. */
  function Wanted(l: Loan, poolSol: u64, poolTok: u64): (r: Option<u64>) {
    CalcCollateralToSeize(Min(Debt(l) / 2, U64_MAX), poolTok, poolSol)
  }

  function Value(l: Loan, poolSol: u64, poolTok: u64): (r: Option<u64>) {
    CalcCollateralValue(l.collateral, poolSol, poolTok)
  }

  /** Which positions can be liquidated, and the two shapes a liquidation takes. */
  lemma SeizureShape(l: Loan, poolSol: u64, poolTok: u64)
    requires Seizable(l, poolSol, poolTok)
    ensures Seize(l, poolSol, poolTok).Ok?
    ensures var cut := Seize(l, poolSol, poolTok).value;
      && Debt(l) <= U64_MAX && 0 < poolSol && 0 < poolTok
      && Wanted(l, poolSol, poolTok).Some? && Value(l, poolSol, poolTok).Some?
      && cut.slice == Debt(l) / 2
      && cut.badDebt == Max(cut.slice - cut.covered, 0)
      && var wanted := Wanted(l, poolSol, poolTok).value;
         if wanted > l.collateral then cut.seized == l.collateral && cut.covered == Value(l, poolSol, poolTok).value
         else cut.seized == wanted && cut.covered == cut.slice
  {
    SeizeSucceedsIff(l, poolSol, poolTok);
  }

  // ---------- Which positions can be liquidated ----------

  /**
   What a liquidation needs of the position and the pool: a live pool, debt at 65.01% of the
   collateral's value or more, and every quantity the handler computes within its machine integer.
   */
  predicate Seizable(l: Loan, poolSol: u64, poolTok: u64) {
    && 0 < poolSol && 0 < poolTok && Debt(l) <= U64_MAX
    && var value, wanted := PoolValue(l.collateral, poolSol, poolTok), Grossed(Debt(l) / 2, poolSol, poolTok);
       && value <= U64_MAX
       && 6501 * value <= Debt(l) * 10_000
       && (0 < value ==> Debt(l) * 10_000 < (U64_MAX + 1) * value)
       && Debt(l) / 2 * 11_000 * poolTok <= U128_MAX && wanted <= U64_MAX
       && (l.collateral < wanted ==> value + Debt(l) - Debt(l) / 2 <= U64_MAX)
  }

  /** The collateral's value at the pool's price, before it is narrowed to 64 bits. */
  function PoolValue(collateral: nat, poolSol: nat, poolTok: nat): nat
    requires 0 < poolTok
  {
    FloorDivision.NonNegative(collateral, poolSol);
    FloorDivision.Bounds(collateral * poolSol, poolTok);
    collateral * poolSol / poolTok
  }

  /** The collateral that covers a debt and the bonus, before it is narrowed to 64 bits. */
  function Grossed(debt: nat, poolSol: nat, poolTok: nat): nat
    requires 0 < poolSol
  {
    FloorDivision.NonNegative(debt * 11_000, poolTok);
    FloorDivision.Bounds(debt * 11_000 * poolTok, 10_000 * poolSol);
    debt * 11_000 * poolTok / (10_000 * poolSol)
  }

  /** These needs are exactly what a liquidation is refused without. */
  lemma SeizeSucceedsIff(l: Loan, poolSol: u64, poolTok: u64)
    ensures Seize(l, poolSol, poolTok).Ok? <==> Seizable(l, poolSol, poolTok)
    ensures Seizable(l, poolSol, poolTok) ==>
      Seize(l, poolSol, poolTok).value.covered == Payment(l, poolSol, poolTok)
  {
    if 0 < poolSol && 0 < poolTok {
      var value := PoolValue(l.collateral, poolSol, poolTok);
      ValueIsNarrowed(l.collateral, poolSol, poolTok);
      if Debt(l) <= U64_MAX {
        GrossIsNarrowed(Debt(l) / 2, poolSol, poolTok);
        if 0 < value {
          FloorDivision.LowerIff(6501, Debt(l) * 10_000, value);
          FloorDivision.LowerIff(U64_MAX + 1, Debt(l) * 10_000, value);
        }
      }
      hide TorchMath.CalcCollateralToSeize, TorchMath.CalcCollateralValue, PoolValue, Grossed;
    }
  }

  lemma ValueIsNarrowed(collateral: u64, poolSol: u64, poolTok: u64)
    requires 0 < poolTok
    ensures var value := PoolValue(collateral, poolSol, poolTok);
      CalcCollateralValue(collateral, poolSol, poolTok) == if value <= U64_MAX then Some(value) else None
  {
  }

  lemma GrossIsNarrowed(debt: u64, poolSol: u64, poolTok: u64)
    requires 0 < poolSol
    ensures var wanted := Grossed(debt, poolSol, poolTok);
      CalcCollateralToSeize(debt, poolTok, poolSol)
        == if debt * 11_000 * poolTok <= U128_MAX && wanted <= U64_MAX then Some(wanted) else None
  {
  }

  /** What the liquidator pays: the slice, or the pool value of all the collateral if that is less than asked for. */
  function Payment(l: Loan, poolSol: nat, poolTok: nat): nat
    requires 0 < poolSol && 0 < poolTok
  {
    if l.collateral < Grossed(Debt(l) / 2, poolSol, poolTok) then PoolValue(l.collateral, poolSol, poolTok)
      else Debt(l) / 2
  }

  lemma WantedBounds(slice: u64, poolSol: u64, poolTok: u64)
    requires CalcCollateralToSeize(slice, poolTok, poolSol).Some?
    ensures var wanted := CalcCollateralToSeize(slice, poolTok, poolSol).value;
      10 * (wanted * poolSol) <= 11 * (slice * poolTok) < 10 * (wanted * poolSol) + 10 * poolSol
  {
    var wanted := CalcCollateralToSeize(slice, poolTok, poolSol).value;
    assert slice * 11_000 * poolTok == 11_000 * (slice * poolTok);
    FloorDivision.NonNegative(slice, poolTok);
    FloorDivision.Bounds(11_000 * (slice * poolTok), 10_000 * poolSol);
    assert wanted * (10_000 * poolSol) == 10_000 * (wanted * poolSol);
    assert (wanted + 1) * (10_000 * poolSol) == 10_000 * (wanted * poolSol) + 10_000 * poolSol;
  }

  lemma ValueBounds(collateral: u64, poolSol: u64, poolTok: u64)
    requires CalcCollateralValue(collateral, poolSol, poolTok).Some?
    ensures var value := CalcCollateralValue(collateral, poolSol, poolTok).value;
      value * poolTok <= collateral * poolSol < value * poolTok + poolTok
  {
    FloorDivision.NonNegative(collateral, poolSol);
    FloorDivision.Bounds(collateral * poolSol, poolTok);
  }

  /**
   The liquidator's terms: the payment is at most 1.1 times the slice, so never the whole debt,
   and what is seized is worth at most 1.1 times the payment, give or take one lamport.
   */
  lemma LiquidatorTerms(l: Loan, poolSol: u64, poolTok: u64)
    requires Seizable(l, poolSol, poolTok)
    ensures Seize(l, poolSol, poolTok).Ok?
    ensures var cut := Seize(l, poolSol, poolTok).value;
      && 10 * cut.covered <= 11 * cut.slice
      && cut.covered <= Debt(l)
      && (Debt(l) > 0 ==> cut.covered < Debt(l))
      && 10 * (cut.seized * poolSol) <= 11 * ((cut.covered + 1) * poolTok)
  {
    SeizeSucceedsIff(l, poolSol, poolTok);
    SeizureShape(l, poolSol, poolTok);
    hide Lending.Seize, TorchMath.CalcCollateralToSeize, TorchMath.CalcCollateralValue;
    var cut := Seize(l, poolSol, poolTok).value;
    WantedBounds(cut.slice, poolSol, poolTok);
    if Wanted(l, poolSol, poolTok).value > l.collateral {
      ValueBounds(l.collateral, poolSol, poolTok);
      PaymentForEverything(l.collateral, Wanted(l, poolSol, poolTok).value, cut.covered, cut.slice, poolSol, poolTok);
    } else {
      PaymentForSlice(cut.seized, cut.slice, poolSol, poolTok);
    }
  }

  /** Paying the whole slice leaves at least as much room as the rounded bonus needs. */
  lemma PaymentForSlice(wanted: nat, slice: nat, poolSol: nat, poolTok: nat)
    requires 10 * (wanted * poolSol) <= 11 * (slice * poolTok)
    ensures 10 * (wanted * poolSol) <= 11 * ((slice + 1) * poolTok)
  {
    assert (slice + 1) * poolTok == slice * poolTok + poolTok;
  }

  /** Buying all the collateral at pool value costs at most 1.1 times the slice. */
  lemma PaymentForEverything(collateral: nat, wanted: nat, value: nat, slice: nat, poolSol: nat, poolTok: nat)
    requires 0 < poolTok && collateral < wanted
    requires 10 * (wanted * poolSol) <= 11 * (slice * poolTok)
    requires value * poolTok <= collateral * poolSol < value * poolTok + poolTok
    ensures 10 * value <= 11 * slice
    ensures 10 * (collateral * poolSol) <= 11 * ((value + 1) * poolTok)
  {
    FloorDivision.MulLe(collateral, wanted, poolSol);
    FloorDivision.NonNegative(collateral, poolSol);
    if 10 * value > 11 * slice {
      FloorDivision.MulLt(11 * slice, 10 * value, poolTok);
    }
  }

  /**
   What a liquidation leaves, from position and pool alone. The payment covers interest first. The collateral
   shrinks by what was asked for, or to nothing; what it did not pay of the slice is written off the principal,
   and the interest with it. The clock stays.
   */
  lemma LiquidationLeaves(l: Loan, poolSol: u64, poolTok: u64)
    requires Seizable(l, poolSol, poolTok)
    ensures Seize(l, poolSol, poolTok).Ok?
    ensures var after := AfterLiquidation(l, Seize(l, poolSol, poolTok).value);
      var slice, wanted, paid := Debt(l) / 2, Grossed(Debt(l) / 2, poolSol, poolTok), Payment(l, poolSol, poolTok);
      var unpaid := Max(slice - paid, 0);
      && after.collateral == Max(l.collateral - wanted, 0)
      && after.borrowed == Max(l.borrowed - (paid - Min(paid, l.accrued)) - unpaid, 0)
      && after.accrued == (if 0 < unpaid then 0 else Max(l.accrued - paid, 0))
      && after.lastSlot == l.lastSlot
  {
    SeizeSucceedsIff(l, poolSol, poolTok);
    SeizureShape(l, poolSol, poolTok);
    LiquidatorTerms(l, poolSol, poolTok);
    GrossIsNarrowed(Debt(l) / 2, poolSol, poolTok);
    hide Lending.Seize, TorchMath.CalcCollateralToSeize, TorchMath.CalcCollateralValue, Seizable, PoolValue, Grossed;
  }

  /** Debt is written off exactly when everything is seized and is worth less than the slice. */
  lemma BadDebtMeansUnderwater(l: Loan, poolSol: u64, poolTok: u64)
    requires Seizable(l, poolSol, poolTok)
    ensures Seize(l, poolSol, poolTok).Ok?
    ensures var cut := Seize(l, poolSol, poolTok).value; var value := Value(l, poolSol, poolTok).value;
      && (cut.badDebt > 0 <==> Wanted(l, poolSol, poolTok).value > l.collateral && value < cut.slice)
      && (cut.badDebt > 0 ==> AfterLiquidation(l, cut).collateral == 0 && cut.badDebt == cut.slice - value)
  {
    SeizeSucceedsIff(l, poolSol, poolTok);
    SeizureShape(l, poolSol, poolTok);
  }

  /** In every branch a liquidation clears at least half of the debt, rounded down. */
  lemma DebtAtLeastHalves(l: Loan, poolSol: u64, poolTok: u64)
    requires Seizable(l, poolSol, poolTok)
    ensures Seize(l, poolSol, poolTok).Ok?
    ensures Debt(AfterLiquidation(l, Seize(l, poolSol, poolTok).value)) <= Debt(l) - Debt(l) / 2
  {
    SeizeSucceedsIff(l, poolSol, poolTok);
    SeizureShape(l, poolSol, poolTok);
    LiquidatorTerms(l, poolSol, poolTok);
  }

  /** More debt per token of collateral. */
  ghost predicate LessHealthy(before: Loan, after: Loan) {
    Debt(after) * before.collateral > Debt(before) * after.collateral
  }

  /** Health does not worsen while the collateral is worth at least 1.1 times the debt. */
  lemma HealthIsKept(l: Loan, poolSol: u64, poolTok: u64)
    requires Seizable(l, poolSol, poolTok) && 0 < Debt(l)
    requires 11 * (Debt(l) * poolTok) <= 10 * (l.collateral * poolSol)
    ensures Seize(l, poolSol, poolTok).Ok?
    ensures !LessHealthy(l, AfterLiquidation(l, Seize(l, poolSol, poolTok).value))
  {
    SeizeSucceedsIff(l, poolSol, poolTok);
    SeizureShape(l, poolSol, poolTok);
    hide Seizable, Lending.Seize, TorchMath.CalcCollateralToSeize, TorchMath.CalcCollateralValue;
    var slice, wanted, debt := Debt(l) / 2, Wanted(l, poolSol, poolTok).value, Debt(l);
    WantedBounds(slice, poolSol, poolTok);
    SeizedShare(debt, slice, wanted, l.collateral, poolSol, poolTok);
    EnoughCollateral(debt, slice, wanted, l.collateral);
    Rebalanced(debt, slice, wanted, l.collateral);
  }

  /**
   The positions whose health a liquidation keeps: the share of collateral asked for is at most the
   share of debt cleared, or there is no collateral, or what the collateral cannot pay for is
   written off to the last unit.
   */
  predicate KeepsHealth(l: Loan, poolSol: u64, poolTok: u64)
    requires 0 < poolSol && 0 < poolTok
  {
    var slice, wanted, value := Debt(l) / 2, Grossed(Debt(l) / 2, poolSol, poolTok),
      PoolValue(l.collateral, poolSol, poolTok);
    || Debt(l) * wanted <= slice * l.collateral
    || l.collateral == 0
    || (l.collateral < wanted && value < slice && l.borrowed + Min(value, l.accrued) <= slice)
  }

  /** Exactly when health is kept, in every branch of every liquidation. */
  lemma HealthIsKeptIff(l: Loan, poolSol: u64, poolTok: u64)
    requires Seizable(l, poolSol, poolTok)
    ensures Seize(l, poolSol, poolTok).Ok?
    ensures !LessHealthy(l, AfterLiquidation(l, Seize(l, poolSol, poolTok).value)) <==> KeepsHealth(l, poolSol, poolTok)
  {
    SeizeSucceedsIff(l, poolSol, poolTok);
    SeizureShape(l, poolSol, poolTok);
    LiquidatorTerms(l, poolSol, poolTok);
    ValueIsNarrowed(l.collateral, poolSol, poolTok);
    GrossIsNarrowed(Debt(l) / 2, poolSol, poolTok);
    hide Lending.Seize, TorchMath.CalcCollateralToSeize, TorchMath.CalcCollateralValue, Seizable, PoolValue, Grossed,
      AfterLiquidation;
    var cut, wanted := Seize(l, poolSol, poolTok).value, Grossed(Debt(l) / 2, poolSol, poolTok);
    if wanted <= l.collateral {
      ClearedSlice(l, cut);
      Rebalanced(Debt(l), Debt(l) / 2, wanted, l.collateral);
      if l.collateral == 0 {
        NothingToLose(Debt(l), Debt(l) / 2, wanted, l.collateral);
      }
    } else {
      WipedOutIff(l, cut);
      TooMuchWanted(Debt(l), Debt(l) / 2, wanted, l.collateral);
      AllOrNothing(Debt(AfterLiquidation(l, cut)), l.collateral, Debt(l));
    }
  }

  lemma NothingToLose(debt: nat, slice: nat, wanted: nat, collateral: nat)
    requires wanted <= collateral == 0
    ensures debt * wanted <= slice * collateral
  {
  }

  lemma AllOrNothing(left: nat, collateral: nat, debt: nat)
    ensures left * collateral <= debt * 0 <==> left == 0 || collateral == 0
  {
    if 0 < left && 0 < collateral {
      FloorDivision.MulLt(0, left, collateral);
    }
  }

  /** With enough collateral the whole slice is cleared. */
  lemma ClearedSlice(l: Loan, cut: Seizure)
    requires cut.seized <= l.collateral && cut.covered == cut.slice == Debt(l) / 2 && cut.badDebt == 0
    ensures var after := AfterLiquidation(l, cut);
      Debt(after) == Debt(l) - Debt(l) / 2 && after.collateral == l.collateral - cut.seized
  {
  }

  /** After seizing everything, no debt is left exactly when the write-off reaches past the principal. */
  lemma WipedOutIff(l: Loan, cut: Seizure)
    requires cut.seized <= l.collateral && (if Debt(l) == 0 then cut.covered == 0 else cut.covered < Debt(l))
    requires cut.slice == Debt(l) / 2 && cut.badDebt == Max(cut.slice - cut.covered, 0)
    ensures AfterLiquidation(l, cut).collateral == l.collateral - cut.seized
    ensures Debt(AfterLiquidation(l, cut)) == 0 <==>
      Debt(l) == 0 || (cut.covered < cut.slice && l.borrowed + Min(cut.covered, l.accrued) <= cut.slice)
  {
  }

  lemma TooMuchWanted(debt: nat, slice: nat, wanted: nat, collateral: nat)
    requires collateral < wanted && slice <= debt
    ensures debt * wanted <= slice * collateral <==> debt == 0
  {
    FloorDivision.MulLe(slice, debt, collateral);
    if 0 < debt {
      FloorDivision.MulLt(collateral, wanted, debt);
    }
  }

  /** The cleared share being at least the seized share, the collateral suffices. */
  lemma EnoughCollateral(debt: nat, slice: nat, wanted: nat, collateral: nat)
    requires 0 < debt && slice <= debt && debt * wanted <= slice * collateral
    ensures wanted <= collateral
  {
    FloorDivision.MulLe(slice, debt, collateral);
    if wanted > collateral {
      FloorDivision.MulLt(collateral, wanted, debt);
    }
  }

  /** Comparing the seized and the cleared share is comparing health before and after. */
  lemma Rebalanced(debt: nat, slice: nat, wanted: nat, collateral: nat)
    ensures debt * wanted <= slice * collateral <==> (debt - slice) * collateral <= debt * (collateral - wanted)
  {
    assert (debt - slice) * collateral == debt * collateral - slice * collateral;
    assert debt * (collateral - wanted) == debt * collateral - debt * wanted;
  }

  /** At 1.1 times cover, the share of collateral taken is at most the share of debt cleared. */
  lemma SeizedShare(debt: nat, slice: nat, wanted: nat, collateral: nat, poolSol: nat, poolTok: nat)
    requires 0 < poolSol
    requires 10 * (wanted * poolSol) <= 11 * (slice * poolTok)
    requires 11 * (debt * poolTok) <= 10 * (collateral * poolSol)
    ensures debt * wanted <= slice * collateral
  {
    FloorDivision.MulLe(10 * (wanted * poolSol), 11 * (slice * poolTok), debt);
    FloorDivision.MulLe(11 * (debt * poolTok), 10 * (collateral * poolSol), slice);
    assert wanted * poolSol * debt == debt * wanted * poolSol;
    assert slice * poolTok * debt == debt * poolTok * slice;
    assert collateral * poolSol * slice == slice * collateral * poolSol;
    assert 10 * (debt * wanted * poolSol) <= 10 * (slice * collateral * poolSol);
    if debt * wanted > slice * collateral {
      FloorDivision.MulLt(slice * collateral, debt * wanted, poolSol);
    }
  }

  /**
   The bound is sharp: once the shortfall below 1.1 times cover outweighs one unit of rounding, a
   liquidation makes health strictly worse exactly when there was collateral and debt is left.
   */
  lemma HealthWorsensBelowCover(l: Loan, poolSol: u64, poolTok: u64)
    requires Seizable(l, poolSol, poolTok)
    requires 0 < Debt(l)
    requires (Debt(l) / 2) * (11 * (Debt(l) * poolTok) - 10 * (l.collateral * poolSol)) >= 10 * (Debt(l) * poolSol)
    ensures Seize(l, poolSol, poolTok).Ok?
    ensures var after := AfterLiquidation(l, Seize(l, poolSol, poolTok).value);
      LessHealthy(l, after) <==> 0 < l.collateral && 0 < Debt(after)
  {
    SeizeSucceedsIff(l, poolSol, poolTok);
    SeizureShape(l, poolSol, poolTok);
    LiquidatorTerms(l, poolSol, poolTok);
    hide Seizable, Lending.Seize, TorchMath.CalcCollateralToSeize, TorchMath.CalcCollateralValue, AfterLiquidation;
    var cut, slice, wanted, debt := Seize(l, poolSol, poolTok).value, Debt(l) / 2, Wanted(l, poolSol, poolTok).value,
      Debt(l);
    WantedBounds(slice, poolSol, poolTok);
    SeizedMore(debt, slice, wanted, l.collateral, poolSol, poolTok);
    if wanted <= l.collateral {
      ClearedSlice(l, cut);
      Rebalanced(debt, slice, wanted, l.collateral);
      NothingWanted(debt, slice, wanted);
    } else {
      WipedOutIff(l, cut);
      AllOrNothing(Debt(AfterLiquidation(l, cut)), l.collateral, debt);
    }
  }

  lemma NothingWanted(debt: nat, slice: nat, wanted: nat)
    ensures wanted == 0 ==> !(debt * wanted > slice * 0)
  {
  }

  lemma SeizedMore(debt: nat, slice: nat, wanted: nat, collateral: nat, poolSol: nat, poolTok: nat)
    requires 0 < poolSol && 0 < debt
    requires 11 * (slice * poolTok) < 10 * (wanted * poolSol) + 10 * poolSol
    requires slice * (11 * (debt * poolTok) - 10 * (collateral * poolSol)) >= 10 * (debt * poolSol)
    ensures debt * wanted > slice * collateral
  {
    FloorDivision.MulLt(11 * (slice * poolTok), 10 * (wanted * poolSol) + 10 * poolSol, debt);
    assert slice * poolTok * debt == slice * (debt * poolTok);
    assert wanted * poolSol * debt == debt * wanted * poolSol;
    assert slice * (11 * (debt * poolTok) - 10 * (collateral * poolSol))
        == 11 * (slice * (debt * poolTok)) - 10 * (slice * collateral * poolSol);
    if debt * wanted <= slice * collateral {
      FloorDivision.MulLe(debt * wanted, slice * collateral, poolSol);
    }
  }

  // ---------- What a liquidation does to the aggregate principal ----------

  /** The principal a liquidation removes from the treasury's total fits in the loan's own principal. */
  ghost predicate LossFits(l: Loan, cut: Seizure) {
    PrincipalPart(l, cut) + cut.badDebt <= l.borrowed
  }

  /**
   It fits exactly when the collateral suffices, or half the debt is at most the principal plus the
   collateral's value.
   */
  lemma LossFitsIff(l: Loan, poolSol: u64, poolTok: u64)
    requires Seizable(l, poolSol, poolTok)
    ensures Seize(l, poolSol, poolTok).Ok?
    ensures LossFits(l, Seize(l, poolSol, poolTok).value) <==>
      || Grossed(Debt(l) / 2, poolSol, poolTok) <= l.collateral
      || Debt(l) / 2 <= l.borrowed + PoolValue(l.collateral, poolSol, poolTok)
  {
    SeizeSucceedsIff(l, poolSol, poolTok);
    SeizureShape(l, poolSol, poolTok);
    LiquidatorTerms(l, poolSol, poolTok);
    ValueIsNarrowed(l.collateral, poolSol, poolTok);
    GrossIsNarrowed(Debt(l) / 2, poolSol, poolTok);
    hide Lending.Seize, TorchMath.CalcCollateralToSeize, TorchMath.CalcCollateralValue, Seizable, PoolValue, Grossed;
  }

  /** In particular it fits whenever interest has not outgrown principal. */
  lemma LossFitsWhileInterestIsSmall(l: Loan, poolSol: u64, poolTok: u64)
    requires Seizable(l, poolSol, poolTok) && l.accrued <= l.borrowed + 1
    ensures Seize(l, poolSol, poolTok).Ok?
    ensures LossFits(l, Seize(l, poolSol, poolTok).value)
  {
    SeizeSucceedsIff(l, poolSol, poolTok);
    LossFitsIff(l, poolSol, poolTok);
  }
}
