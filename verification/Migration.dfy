/** What a migration moves, whom it charges, and when it goes through. */
module Migration {
  import opened Base
  import opened Constants
  import opened MapSum
  import opened TorchMath
  import opened TokenLedger
  import opened Accounts
  import opened Program
  import opened Frames
  import opened CurveProperties
  import opened ReachableStates
  import CashProperties
  import LoanBook
  import RewardProperties
  import FloorDivision

  /** The most tokens whose price in the pool is not above the curve's last price, or all there are. */
  ghost predicate PricedSeed(seeded: nat, rsol: nat, vtok: nat, vsol: nat, account: nat) {
    && seeded <= account && seeded * vsol <= rsol * vtok
    && (seeded == account || rsol * vtok < (seeded + 1) * vsol)
  }

  /**
   The pool is never seeded below the curve's last price; it is seeded at that price, to within one base
   unit, unless the account holds fewer tokens. Seeded and burned tokens are the whole account, and the
   recorded baseline is what the pool received.
   */
  lemma SeedingTerms(w: World, s: Step)
    requires SupplyKept(w) && s.Migrate? && HandleMigrate(w, s).Ok?
    ensures var w' := HandleMigrate(w, s).value;
      var seeded := w.tokens.curveVault - w'.tokens.burned;
      && 0 <= seeded && PricedSeed(seeded, w.curve.rsol, w.curve.vtok, w.curve.vsol, w.tokens.curveVault)
      && w'.tokens.curveVault == 0
      && w'.treasury.baselineTok == Get(w'.tokens.held, DexPool) == Net(Net(seeded))
      && w'.treasury.baselineSol == w.curve.rsol && w'.treasury.baselineSet
  {
    hide MapSum.Sum, TorchMath.CalcTransferFee, TorchMath.CalcTokensForPool, PricedSeed;
    var matched := CalcTokensForPool(w.curve.rsol, w.curve.vtok, w.curve.vsol).value;
    SeedIsPriced(matched, w.curve.rsol, w.curve.vtok, w.curve.vsol, w.tokens.curveVault);
  }

  lemma SeedIsPriced(matched: u64, rsol: u64, vtok: u64, vsol: u64, account: nat)
    requires CalcTokensForPool(rsol, vtok, vsol) == Some(matched)
    ensures PricedSeed(Min(matched, account), rsol, vtok, vsol, account)
  {
    FloorDivision.NonNegative(rsol, vtok);
    FloorDivision.Bounds(rsol * vtok, vsol);
    FloorDivision.MulLe(Min(matched, account), matched, vsol);
  }

  /**
   The treasury pays exactly the cost, whatever it is, and the curve hands over exactly its real SOL; nobody
   else pays.
   */
  lemma MigrationTerms(w: World, s: Step)
    requires s.Migrate? && HandleMigrate(w, s).Ok?
    ensures var w' := HandleMigrate(w, s).value;
      && w'.treasury.sol + s.cost == w.treasury.sol && w'.treasury.lamports + s.cost == w.treasury.lamports
      && w'.curve.lamports + w.curve.rsol == w.curve.lamports
      && w'.outside == w.outside + w.curve.rsol + s.cost
      && w'.curve.rsol == w'.curve.rtok == 0 && w'.curve.migrated
      && w'.treasury.starSol == w.treasury.starSol
      && w'.funds == w.funds && w'.protocol == w.protocol && w'.loans == w.loans
  {
    hide TorchMath.CalcTokensForPool, TokenLedger.SeedPool, Net;
  }

  /**
   In any world a migration goes through exactly when the curve is complete, the treasury can pay, and the
   match fits.
   */
  lemma MigrationSucceedsIff(w: World, s: Step)
    requires s.Migrate?
    ensures HandleMigrate(w, s).Ok? <==>
      && w.curve.complete && !w.curve.migrated && 1_500_000_000 <= w.treasury.sol
      && w.curve.rsol <= w.curve.lamports && s.cost <= w.treasury.sol && s.cost <= w.treasury.lamports
      && w.curve.rsol * w.curve.vtok < U64_MODULUS * w.curve.vsol
  {
    MatchFitsIff(w.curve.rsol, w.curve.vtok, w.curve.vsol);
    hide TorchMath.CalcTokensForPool, TokenLedger.SeedPool, Net;
  }

  lemma MatchFitsIff(rsol: u64, vtok: u64, vsol: u64)
    ensures CalcTokensForPool(rsol, vtok, vsol).Some? <==> rsol * vtok < U64_MODULUS * vsol
  {
    FloorDivision.NonNegative(rsol, vtok);
    if 0 < vsol {
      FloorDivision.LowerIff(U64_MODULUS, rsol * vtok, vsol);
    }
  }

  /**
   In every reachable state: exactly when bonding is complete, the treasury has 1.5 SOL and the cost, and the
   match fits.
   */
  lemma MigrationsSucceedIff(w: World, s: Step)
    requires Reached(w) && s.Migrate?
    ensures HandleMigrate(w, s).Ok? <==>
      && w.curve.complete && !w.curve.migrated && 1_500_000_000 <= w.treasury.sol && s.cost <= w.treasury.sol
      && w.curve.rsol * w.curve.vtok < U64_MODULUS * w.curve.vsol
  {
    hide Reached, HandleMigrate, LoanBook.BookSound, RewardProperties.PoolSound, SupplyKept;
    EveryReachedStateIsSound(w);
    MigrationSucceedsIff(w, s);
  }

  /** A token migrates once: whatever happens afterwards, every further attempt is refused. */
  lemma {:induction false} NoSecondMigration(w: World, steps: seq<Step>, s: Step)
    requires w.curve.migrated && s.Migrate?
    ensures Run(w, steps).curve.migrated && HandleMigrate(Run(w, steps), s).Err?
    decreases |steps|
  {
    hide Apply, MoveLiquidity;
    if steps != [] {
      StaysMigrated(w, steps[0]);
      NoSecondMigration(Apply(w, steps[0]), steps[1..], s);
    }
  }

  lemma StaysMigrated(w: World, s: Step)
    requires w.curve.migrated
    ensures Apply(w, s).curve.migrated
  {
    if s.Migrate? {
      hide MoveLiquidity;
    } else {
      hide Apply;
      StepFrame(w, s);
    }
  }
}
