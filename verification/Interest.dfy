/** The interest a loan is charged, and the clock it is charged by. */
module Interest {
  import opened Base
  import opened Constants
  import opened TorchMath
  import opened TokenLedger
  import opened Accounts
  import opened Lending
  import opened Program
  import opened Exchanges
  import opened LiquidationProperties
  import opened LoanBook
  import FloorDivision
  import Wallets

  /** Two percent of the principal a week of 1_512_000 slots, pro rata, rounded down. */
  function InterestFor(principal: nat, slots: nat): (interest: nat) {
    FloorDivision.NonNegative(principal, slots);
    FloorDivision.Bounds(principal * slots, 75_600_000);
    principal * slots / 75_600_000
  }

  lemma InterestIsCharged(principal: u64, slots: u64)
    ensures CalcInterest(principal, slots).Some? <==>
      principal * slots * 200 <= U128_MAX && InterestFor(principal, slots) <= U64_MAX
    ensures CalcInterest(principal, slots).Some? ==>
      CalcInterest(principal, slots).value == InterestFor(principal, slots)
  {
    var product, interest := principal * slots, InterestFor(principal, slots);
    FloorDivision.NonNegative(principal, slots);
    FloorDivision.Bounds(product, 75_600_000);
    FloorDivision.LowerIff(interest, product * 200, 15_120_000_000);
    FloorDivision.LowerIff(interest + 1, product * 200, 15_120_000_000);
  }

  /** A full week on any principal costs a fiftieth of it. */
  lemma AWeekIsAFiftieth(principal: u64, weeks: nat)
    ensures InterestFor(principal, weeks * 1_512_000) == principal * weeks / 50
  {
    var product := principal * weeks;
    FloorDivision.NonNegative(principal, weeks);
    assert principal * (weeks * 1_512_000) == product * 1_512_000;
    FloorDivision.Bounds(product, 50);
    FloorDivision.LowerIff(product / 50, product * 1_512_000, 75_600_000);
    FloorDivision.LowerIff(product / 50 + 1, product * 1_512_000, 75_600_000);
  }

  /** The slots interest is still due for; none without open principal, or when the clock is ahead. */
  function Elapsed(l: Loan, slot: u64): nat {
    if l.borrowed == 0 then 0 else Max(slot - l.lastSlot, 0)
  }

  /** Accrual fails exactly when the product or the sum does not fit. */
  lemma AccrualSucceedsIff(l: Loan, slot: u64)
    ensures Accrue(l, slot).Ok? <==>
      l.borrowed * Elapsed(l, slot) * 200 <= U128_MAX
        && l.accrued + InterestFor(l.borrowed, Elapsed(l, slot)) <= U64_MAX
  {
    if 0 < Elapsed(l, slot) {
      InterestIsCharged(l.borrowed, Elapsed(l, slot));
    } else {
      NoTimeNoInterest(l.borrowed);
    }
    hide TorchMath.CalcInterest, InterestFor;
  }

  lemma NoTimeNoInterest(principal: nat)
    ensures InterestFor(principal, 0) == 0
  {
  }

  /** It adds exactly the interest for the elapsed slots and moves the clock on; principal and collateral stay. */
  lemma AccrualTerms(l: Loan, slot: u64)
    requires Accrue(l, slot).Ok?
    ensures Accrue(l, slot).value
      == l.(accrued := l.accrued + InterestFor(l.borrowed, Elapsed(l, slot)),
            lastSlot := if 0 < Elapsed(l, slot) then slot else l.lastSlot)
  {
    if 0 < Elapsed(l, slot) {
      InterestIsCharged(l.borrowed, Elapsed(l, slot));
    } else {
      NoTimeNoInterest(l.borrowed);
    }
    hide TorchMath.CalcInterest, InterestFor;
  }

  // ---------- After a repayment and after a liquidation ----------

  /**
   A partial repayment leaves the clock at its slot, or ahead of it, and no interest for time before: interest
   is due from there on and on what is still open only.
   */
  lemma RepaymentSetsClock(w: World, s: Step, later: u64)
    requires s.Repay? && HandleRepay(w, s).Ok? && s.user in HandleRepay(w, s).value.loans
    requires Accrue(HandleRepay(w, s).value.loans[s.user], later).Ok?
    ensures var l, l' := w.loans[s.user], HandleRepay(w, s).value.loans[s.user];
      && l'.lastSlot == Max(l.lastSlot, s.slot)
      && Debt(l') + s.sol == Debt(l) + InterestFor(l.borrowed, Elapsed(l, s.slot))
      && Accrue(l', later).value.accrued == l'.accrued + InterestFor(l'.borrowed, Elapsed(l', later))
  {
    hide SettleRepayment, InterestFor, Accrue;
    var l := w.loans[s.user];
    var loan := Accrue(l, s.slot).value;
    AccrualTerms(l, s.slot);
    RepayExchange(w, s, loan, Wallets.Wallet(s.user), UserAta(s.user));
    AccrualTerms(HandleRepay(w, s).value.loans[s.user], later);
  }

  /** A liquidation, too, leaves the clock at its slot, or ahead of it, with all interest up to it charged. */
  lemma LiquidationSetsClock(w: World, s: Step)
    requires s.Liquidate? && HandleLiquidate(w, s).Ok?
    ensures s.borrower in w.loans && s.borrower in HandleLiquidate(w, s).value.loans
    ensures HandleLiquidate(w, s).value.loans[s.borrower].lastSlot == Max(w.loans[s.borrower].lastSlot, s.slot)
  {
    hide SettleLiquidation, Lending.Seize, Accrue;
    var l := w.loans[s.borrower];
    var loan := Accrue(l, s.slot).value;
    AccrualTerms(l, s.slot);
    LiquidationBooks(w, s, loan, Lending.Seize(loan, s.poolSol, s.poolTok).value);
  }
}
