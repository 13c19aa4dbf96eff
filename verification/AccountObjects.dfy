/**
 The program's accounts as objects whose fields the handlers update one at a time. Each method is
 proved against the function on account values that says what the update is for.
 */
module AccountObjects {
  import opened Base
  import opened Constants
  import opened Accounts
  import opened BondingCurve
  import opened Lending
  import opened Program

  /** What an in-place update owes its specification: the same error, or exactly the new value. */
  ghost predicate Meets<T>(spec: Result<T>, r: Result<()>, after: T) {
    match spec
    case Ok(v) => r.Ok? && after == v
    case Err(e) => r == Err(e)
  }

  class CurveAccount {
    var vsol: u64
    var vtok: u64
    var rsol: u64
    var rtok: u64
    var complete: bool
    var completeSlot: u64
    var migrated: bool
    var reclaimed: bool
    var lastActivity: u64
    var lamports: u64
    const target: u64

    constructor (target: u64, slot: u64, rent: u64)
      ensures View() == Curve(InitialVirtualReserves(target).0, InitialVirtualReserves(target).1, 0, CURVE_SUPPLY,
                              false, 0, false, false, slot, target, rent)
    {
      this.target := target;
      vsol, vtok := InitialVirtualReserves(target).0, InitialVirtualReserves(target).1;
      rsol, rtok := 0, CURVE_SUPPLY;
      complete, completeSlot, migrated, reclaimed := false, 0, false, false;
      lastActivity := slot;
      lamports := rent;
    }

    function View(): Curve
      reads this
    {
      Curve(vsol, vtok, rsol, rtok, complete, completeSlot, migrated, reclaimed, lastActivity, target, lamports)
    }

    method Restore(c: Curve)
      requires c.target == target
      modifies this
      ensures View() == c
    {
      vsol, vtok, rsol, rtok := c.vsol, c.vtok, c.rsol, c.rtok;
      complete, completeSlot, migrated, reclaimed := c.complete, c.completeSlot, c.migrated, c.reclaimed;
      lastActivity, lamports := c.lastActivity, c.lamports;
    }

    /** SOL has entered and tokens have left. */
    method Bought(sol: u64, tokens: u64, slot: u64) returns (r: Result<()>)
      modifies this
      ensures Meets(AfterBuy(old(View()), sol, tokens, slot), r, View())
      ensures r.Ok? ==> lamports == old(lamports) + sol && rsol == old(rsol) + sol && vsol == old(vsol) + sol
      ensures r.Ok? ==> rtok + tokens == old(rtok) && vtok + tokens == old(vtok) && lastActivity == slot
    {
      lamports :- CheckedAdd(lamports, sol);
      vsol :- CheckedAdd(vsol, sol);
      vtok :- CheckedSub(vtok, tokens);
      rsol :- CheckedAdd(rsol, sol);
      rtok :- CheckedSub(rtok, tokens);
      if ResolvedTarget(target) <= rsol {
        complete := true;
        completeSlot := slot;
      }
      lastActivity := slot;
      r := Ok(());
    }

    /** Tokens have come back and SOL has been paid out. */
    method Sold(sol: u64, tokens: u64, slot: u64) returns (r: Result<()>)
      modifies this
      ensures Meets(AfterSell(old(View()), sol, tokens, slot), r, View())
      ensures r.Ok? ==> lamports + sol == old(lamports) && rsol + sol == old(rsol) && vsol + sol == old(vsol)
      ensures r.Ok? ==> rtok == old(rtok) + tokens && vtok == old(vtok) + tokens && lastActivity == slot
    {
      lamports :- CheckedSub(lamports, sol);
      vsol :- CheckedSub(vsol, sol);
      vtok :- CheckedAdd(vtok, tokens);
      rsol :- CheckedSub(rsol, sol);
      rtok :- CheckedAdd(rtok, tokens);
      lastActivity := slot;
      r := Ok(());
    }

    /** The real SOL leaves for the DEX pool and the curve is closed. */
    method HandOver() returns (r: Result<()>)
      modifies this
      ensures r.Ok? <==> old(View()).rsol <= old(View()).lamports
      ensures r.Ok? ==>
        View() == old(View()).(lamports := old(View()).lamports - old(View()).rsol, migrated := true, rsol := 0,
                               rtok := 0)
      ensures r.Err? ==> r == Err(MathOverflow)
    {
      lamports :- CheckedSub(lamports, rsol);
      migrated := true;
      rsol := 0;
      rtok := 0;
      r := Ok(());
    }

    /** The real SOL is reclaimed; the virtual reserves stay. */
    method GiveUp() returns (r: Result<()>)
      modifies this
      ensures r.Ok? <==> old(View()).rsol <= old(View()).lamports
      ensures r.Ok? ==>
        View() == old(View()).(lamports := old(View()).lamports - old(View()).rsol, rsol := 0, reclaimed := true)
      ensures r.Err? ==> r == Err(MathOverflow)
    {
      lamports :- CheckedSub(lamports, rsol);
      rsol := 0;
      reclaimed := true;
      r := Ok(());
    }
  }

  class TreasuryAccount {
    var sol: u64
    var starSol: u64
    var stars: u64
    var paidOut: bool
    var lent: u64
    var locked: u64
    var activeLoans: u64
    var interest: u64
    var shortReserved: u64
    var baselineSol: u64
    var baselineTok: u64
    var baselineSet: bool
    var lamports: u64
    const shortsEnabled: bool
    const community: bool

    constructor (shortsEnabled: bool, community: bool, rent: u64)
      ensures View() == Treasury(0, 0, 0, false, 0, 0, 0, 0, 0, shortsEnabled, community, 0, 0, false, rent)
    {
      this.shortsEnabled, this.community := shortsEnabled, community;
      sol, starSol, stars, paidOut := 0, 0, 0, false;
      lent, locked, activeLoans, interest, shortReserved := 0, 0, 0, 0, 0;
      baselineSol, baselineTok, baselineSet := 0, 0, false;
      lamports := rent;
    }

    function View(): Treasury
      reads this
    {
      Treasury(sol, starSol, stars, paidOut, lent, locked, activeLoans, interest, shortReserved, shortsEnabled,
               community,
               baselineSol, baselineTok, baselineSet, lamports)
    }

    method Restore(t: Treasury)
      requires t.shortsEnabled == shortsEnabled && t.community == community
      modifies this
      ensures View() == t
    {
      sol, starSol, stars, paidOut := t.sol, t.starSol, t.stars, t.paidOut;
      lent, locked, activeLoans, interest, shortReserved := t.lent, t.locked, t.activeLoans, t.interest,
        t.shortReserved;
      baselineSol, baselineTok, baselineSet, lamports := t.baselineSol, t.baselineTok, t.baselineSet, t.lamports;
    }

    /** A trading fee or short collateral arrives. */
    method Receive(amount: u64) returns (r: Result<()>)
      modifies this`lamports, this`sol
      ensures r.Ok? <==> old(View()).lamports + amount <= U64_MAX && old(View()).sol + amount <= U64_MAX
      ensures r.Ok? ==>
        View() == old(View()).(lamports := old(View()).lamports + amount, sol := old(View()).sol + amount)
      ensures r.Err? ==> r == Err(MathOverflow)
    {
      lamports :- CheckedAdd(lamports, amount);
      sol :- CheckedAdd(sol, amount);
      r := Ok(());
    }

    /** A short's collateral leaves the account, */
    method PaysOut(amount: u64) returns (r: Result<()>)
      modifies this`lamports
      ensures r.Ok? <==> amount <= old(View()).lamports
      ensures r.Ok? ==> View() == old(View()).(lamports := old(View()).lamports - amount)
      ensures r.Err? ==> r == Err(MathOverflow)
    {
      lamports :- CheckedSub(lamports, amount);
      r := Ok(());
    }

    /** and then the ledger and the reserve. */
    method FreesShort(amount: u64) returns (r: Result<()>)
      modifies this`sol, this`shortReserved
      ensures r.Ok? <==> amount <= old(View()).sol
      ensures r.Ok? ==> View() == old(View()).(sol := old(View()).sol - amount,
                                               shortReserved := SaturatingSub(old(View()).shortReserved, amount))
      ensures r.Err? ==> r == Err(MathOverflow)
    {
      sol :- CheckedSub(sol, amount);
      shortReserved := SaturatingSub(shortReserved, amount);
      r := Ok(());
    }

    /** Lends against a position, inside the utilisation cap and the borrower's share of it. */
    method Lends(loan: Loan, collateral: u64, amount: u64) returns (r: Result<()>)
      modifies this
      ensures Meets(Lend(old(View()), loan, collateral, amount), r, View())
    {
      hide UserBorrowCap;
      if 0 < amount {
        var newLent :- CheckedAdd(lent, amount);
        var reserved := if shortsEnabled then shortReserved else 0;
        var available := SaturatingSub(sol, reserved);
        var maxLendable := available * LENDING_UTILIZATION_CAP_BPS / 10_000;
        if maxLendable < newLent { return Err(LendingCapExceeded); }
        var userTotal :- CheckedAdd(loan.borrowed, amount);
        var userCap :- UserBorrowCap(maxLendable, collateral);
        if userCap < userTotal { return Err(UserBorrowCapExceeded); }
        lamports :- CheckedSub(lamports, amount, InsufficientTreasury);
        sol := sol - amount;
        lent := newLent;
      }
      r := Ok(());
    }

    /** A star's price arrives; the star that reaches the threshold releases the whole pot, once. */
    method ReceivesStar() returns (r: Result<u64>)
      modifies this
      ensures var t := old(View());
        var pot := if CREATOR_REWARD_THRESHOLD <= t.stars + 1 && !t.paidOut then t.starSol + STAR_COST_LAMPORTS else 0;
        && (r.Ok? <==> t.lamports + STAR_COST_LAMPORTS <= U64_MAX && t.starSol + STAR_COST_LAMPORTS <= U64_MAX
                       && t.stars + 1 <= U64_MAX && pot <= t.lamports + STAR_COST_LAMPORTS)
        && (r.Ok? ==> r.value == pot
                      && View() == t.(lamports := t.lamports + STAR_COST_LAMPORTS - pot,
                                      starSol := t.starSol + STAR_COST_LAMPORTS - pot,
                                      stars := t.stars + 1, paidOut := t.paidOut || 0 < pot))
      ensures r.Err? ==> r == Err(MathOverflow)
    {
      lamports :- CheckedAdd(lamports, STAR_COST_LAMPORTS);
      starSol :- CheckedAdd(starSol, STAR_COST_LAMPORTS);
      stars :- CheckedAdd(stars, 1);
      var payout := 0;
      if CREATOR_REWARD_THRESHOLD <= stars && !paidOut {
        payout := starSol;
        lamports :- CheckedSub(lamports, payout);
        paidOut := true;
        starSol := 0;
      }
      r := Ok(payout);
    }

    /** Collateral has arrived, for a new position or an existing one. */
    method Locks(amount: u64, isNew: bool) returns (r: Result<()>)
      modifies this
      ensures var t := old(View());
        && (r.Ok? <==> t.locked + amount <= U64_MAX && t.activeLoans + (if isNew then 1 else 0) <= U64_MAX)
        && (r.Ok? ==>
            View() == t.(locked := t.locked + amount, activeLoans := t.activeLoans + (if isNew then 1 else 0)))
      ensures r.Err? ==> r == Err(MathOverflow)
    {
      locked :- CheckedAdd(locked, amount);
      if isNew {
        activeLoans :- CheckedAdd(activeLoans, 1);
      }
      r := Ok(());
    }

    /** The migration's payer is reimbursed. */
    method Reimburses(cost: u64) returns (r: Result<()>)
      modifies this
      ensures r.Ok? <==> cost <= old(View()).lamports && cost <= old(View()).sol
      ensures r.Ok? ==> View() == old(View()).(lamports := old(View()).lamports - cost, sol := old(View()).sol - cost)
      ensures r.Err? ==> r == Err(InsufficientMigrationFee)
    {
      lamports :- CheckedSub(lamports, cost, InsufficientMigrationFee);
      sol :- CheckedSub(sol, cost, InsufficientMigrationFee);
      r := Ok(());
    }

    /** Records what the DEX pool was seeded with. */
    method RecordBaseline(solAmount: u64, tokAmount: u64)
      modifies this
      ensures View() == old(View()).(baselineSol := solAmount, baselineTok := tokAmount, baselineSet := true)
    {
      baselineSol := solAmount;
      baselineTok := tokAmount;
      baselineSet := true;
    }

    /** The whole balance is reclaimed. */
    method GiveUp() returns (r: Result<()>)
      modifies this
      ensures r.Ok? <==> old(View()).sol <= old(View()).lamports
      ensures r.Ok? ==> View() == old(View()).(lamports := old(View()).lamports - old(View()).sol, sol := 0)
      ensures r.Err? ==> r == Err(MathOverflow)
    {
      lamports :- CheckedSub(lamports, sol);
      sol := 0;
      r := Ok(());
    }

    /** A repayment or a liquidator's payment arrives and the book shrinks. */
    method Collects(paid: u64, interestPart: nat, principalLoss: nat, unlocked: nat, closed: bool)
      returns (r: Result<()>)
      modifies this
      ensures Meets(Collect(old(View()), paid, interestPart, principalLoss, unlocked, closed), r, View())
    {
      lamports :- CheckedAdd(lamports, paid);
      sol :- CheckedAdd(sol, paid);
      lent := SaturatingSub(lent, principalLoss);
      interest :- CheckedAdd(interest, interestPart);
      locked := SaturatingSub(locked, unlocked);
      if closed {
        activeLoans := SaturatingSub(activeLoans, 1);
      }
      r := Ok(());
    }
  }

  class ProtocolAccount {
    var balance: u64
    var feesReceived: u64
    var distributed: u64
    var epoch: u64
    var lastEpochTs: i64
    var volumeCurrent: u64
    var volumePrevious: u64
    var distributable: u64
    var lamports: u64
    const floor: u64

    constructor (now: i64, lamports: u64)
      ensures View() == Protocol(0, PROTOCOL_TREASURY_RESERVE_FLOOR, 0, 0, 0, now, 0, 0, 0, lamports)
    {
      floor := PROTOCOL_TREASURY_RESERVE_FLOOR;
      balance, feesReceived, distributed, epoch, lastEpochTs := 0, 0, 0, 0, now;
      volumeCurrent, volumePrevious, distributable := 0, 0, 0;
      this.lamports := lamports;
    }

    function View(): Protocol
      reads this
    {
      Protocol(balance, floor, feesReceived, distributed, epoch, lastEpochTs, volumeCurrent, volumePrevious,
               distributable, lamports)
    }

    method Restore(p: Protocol)
      requires p.floor == floor
      modifies this
      ensures View() == p
    {
      balance, feesReceived, distributed, epoch, lastEpochTs := p.balance, p.feesReceived, p.distributed, p.epoch,
        p.lastEpochTs;
      volumeCurrent, volumePrevious, distributable := p.volumeCurrent, p.volumePrevious, p.distributable;
      lamports := p.lamports;
    }

    /** A trade is counted into the running epoch. */
    method CountVolume(amount: u64) returns (r: Result<()>)
      modifies this`volumeCurrent
      ensures r.Ok? <==> old(View()).volumeCurrent + amount <= U64_MAX
      ensures r.Ok? ==> View() == old(View()).(volumeCurrent := old(View()).volumeCurrent + amount)
      ensures r.Err? ==> r == Err(MathOverflow)
    {
      volumeCurrent :- CheckedAdd(volumeCurrent, amount);
      r := Ok(());
    }

    /** Fees or reclaimed SOL arrive. */
    method Receive(amount: u64) returns (r: Result<()>)
      modifies this`lamports, this`feesReceived
      ensures r.Ok? <==> old(View()).lamports + amount <= U64_MAX && old(View()).feesReceived + amount <= U64_MAX
      ensures r.Ok? ==> View() == old(View()).(lamports := old(View()).lamports + amount,
                                               feesReceived := old(View()).feesReceived + amount)
      ensures r.Err? ==> r == Err(MathOverflow)
    {
      lamports :- CheckedAdd(lamports, amount);
      feesReceived :- CheckedAdd(feesReceived, amount);
      r := Ok(());
    }
  }
}
