/** The epoch reward pool: what claims can take, how often, and that the pool can pay. */
module RewardProperties {
  import opened Base
  import opened Constants
  import opened MapSum
  import opened TorchMath
  import opened Accounts
  import opened Program
  import opened Frames
  import opened Exchanges
  import BondingCurve
  import Lending
  import TokenLedger
  import Wallets
  import FloorDivision

  ghost function Claimed(stats: map<Key, Stats>): map<Key, nat> {
    map k | k in stats :: stats[k].claimed
  }

  lemma SetStats(stats: map<Key, Stats>, k: Key, s: Stats)
    ensures Sum(Claimed(stats[k := s])) + (if k in stats then stats[k].claimed else 0) == Sum(Claimed(stats))
      + s.claimed
  {
    assert Claimed(stats[k := s]) == Claimed(stats)[k := s.claimed];
    MapSum.Set(Claimed(stats), k, s.claimed);
  }

  /**
   The users' claims add up to what was distributed, no one has claimed the running epoch or a
   later one, and what is still distributable is in the account above its rent and reserve.
   */
  ghost predicate PoolSound(w: World) {
    && w.protocol.distributed == Sum(Claimed(w.stats))
    && (forall k :: k in w.stats ==> w.stats[k].lastClaimed == 0 || w.stats[k].lastClaimed < w.protocol.epoch)
    && (w.protocol.distributable > 0 ==>
          w.config.protocolRent + w.protocol.floor + w.protocol.distributable <= w.protocol.lamports)
  }

  lemma BuyKeepsPool(w: World, s: Step)
    requires PoolSound(w) && s.Buy? && HandleBuy(w, s).Ok?
    ensures PoolSound(HandleBuy(w, s).value)
  {
    hide Claimed, MapSum.Sum, PayForBuy, RecordVolume, BondingCurve.QuoteBuy, BondingCurve.AfterBuy,
      TokenLedger.FromCurve, TokenLedger.Supply, Wallets.Total, Wallets.AllBooks;
    var stats := HandleBuy(w, s).value.stats;
    SetStats(w.stats, s.buyer, if s.buyer in stats then stats[s.buyer] else NO_STATS);
  }

  lemma SellKeepsPool(w: World, s: Step)
    requires PoolSound(w) && s.Sell? && HandleSell(w, s).Ok?
    ensures PoolSound(HandleSell(w, s).value)
  {
    hide Claimed, MapSum.Sum, RecordVolume, BondingCurve.QuoteSell, BondingCurve.AfterSell, TokenLedger.ToCurve,
      TokenLedger.Supply, Wallets.PayOut, Wallets.Total, Wallets.AllBooks;
    var stats := HandleSell(w, s).value.stats;
    SetStats(w.stats, s.seller, if s.seller in stats then stats[s.seller] else NO_STATS);
  }

  lemma ClaimKeepsPool(w: World, s: Step)
    requires PoolSound(w) && s.Claim? && HandleClaim(w, s).Ok?
    ensures PoolSound(HandleClaim(w, s).value)
  {
    hide Claimed, MapSum.Sum, Wallets.PayOut, Wallets.Total, Wallets.AllBooks, TorchMath.CalcUserShare;
    SetStats(w.stats, s.user, HandleClaim(w, s).value.stats[s.user]);
  }

  lemma BuyElsewhereKeepsPool(w: World, s: Step)
    requires PoolSound(w) && s.BuyElsewhere? && HandleBuyElsewhere(w, s).Ok?
    ensures PoolSound(HandleBuyElsewhere(w, s).value)
  {
    hide Claimed, MapSum.Sum, Wallets.Pay, Wallets.Credit, Wallets.Total, Wallets.AllBooks, RecordVolume;
    var stats := HandleBuyElsewhere(w, s).value.stats;
    SetStats(w.stats, s.buyer, if s.buyer in stats then stats[s.buyer] else NO_STATS);
  }

  lemma SellElsewhereKeepsPool(w: World, s: Step)
    requires PoolSound(w) && s.SellElsewhere? && HandleSellElsewhere(w, s).Ok?
    ensures PoolSound(HandleSellElsewhere(w, s).value)
  {
    hide Claimed, MapSum.Sum, Wallets.PayOut, Wallets.Total, Wallets.AllBooks, RecordVolume;
    var stats := HandleSellElsewhere(w, s).value.stats;
    SetStats(w.stats, s.seller, if s.seller in stats then stats[s.seller] else NO_STATS);
  }

  /** Trading and reclaiming other tokens only adds to the pool and counts volume. */
  lemma ElsewhereKeepsPool(w: World, s: Step)
    requires PoolSound(w) && IsElsewhere(s) && Handle(w, s).Ok?
    ensures PoolSound(Apply(w, s))
  {
    hide HandleBuyElsewhere, HandleSellElsewhere, Claimed, MapSum.Sum;
    match s
    case BuyElsewhere(_, _, _, _, _, _, _, _) => BuyElsewhereKeepsPool(w, s);
    case SellElsewhere(_, _, _, _, _) => SellElsewhereKeepsPool(w, s);
    case ReclaimElsewhere(_) =>
  }

  /** Of the other instructions only reclaims and rollovers touch the pool. */
  lemma OthersKeepPool(w: World, s: Step)
    requires PoolSound(w) && !s.Buy? && !s.Sell? && !s.Claim? && !IsElsewhere(s)
    ensures PoolSound(Apply(w, s))
  {
    hide Claimed, MapSum.Sum;
    if !s.Reclaim? && !s.AdvanceEpoch? {
      hide Apply;
      StepFrame(w, s);
    }
  }

  lemma StepKeepsPool(w: World, s: Step)
    requires PoolSound(w)
    ensures PoolSound(Apply(w, s))
  {
    hide PoolSound, HandleBuy, HandleSell, HandleBuyElsewhere, HandleSellElsewhere, HandleReclaimElsewhere;
    if s.Buy? && HandleBuy(w, s).Ok? {
      BuyKeepsPool(w, s);
    } else if s.Sell? && HandleSell(w, s).Ok? {
      SellKeepsPool(w, s);
    } else if s.Claim? && HandleClaim(w, s).Ok? {
      ClaimKeepsPool(w, s);
    } else if IsElsewhere(s) && Handle(w, s).Ok? {
      ElsewhereKeepsPool(w, s);
    } else if !s.Buy? && !s.Sell? && !s.Claim? && !IsElsewhere(s) {
      OthersKeepPool(w, s);
    }
  }

  lemma {:induction false} RunKeepsPool(w: World, steps: seq<Step>)
    requires PoolSound(w)
    ensures PoolSound(Run(w, steps))
    decreases |steps|
  {
    hide Apply, PoolSound;
    if steps != [] {
      StepKeepsPool(w, steps[0]);
      RunKeepsPool(Apply(w, steps[0]), steps[1..]);
    }
  }

  /**
   A rollover makes distributable exactly what the account holds above rent and floor, and starts a week-long
   epoch.
   */
  lemma RolloverTerms(w: World, s: Step, again: i64)
    requires s.AdvanceEpoch? && HandleAdvanceEpoch(w, s).Ok?
    ensures var w' := HandleAdvanceEpoch(w, s).value; var p := w'.protocol;
      && p.lamports == w.protocol.lamports
      && p.floor == w.protocol.floor && p.balance == Max(p.lamports - w.config.protocolRent, 0)
      && p.distributable == Max(p.lamports - w.config.protocolRent - p.floor, 0)
      && p.distributed == w.protocol.distributed && p.feesReceived == w.protocol.feesReceived
      && p.epoch == w.protocol.epoch + 1 && p.volumePrevious == w.protocol.volumeCurrent && p.volumeCurrent == 0
      && (s.now <= again < s.now + EPOCH_DURATION_SECONDS ==>
          HandleAdvanceEpoch(w', AdvanceEpoch(again)) == Err(EpochNotComplete))
  {
  }

  /**
   It goes through exactly when a week has passed, by a difference of times that fits 64 bits, and epochs are
   left.
   */
  lemma RolloverSucceedsIff(w: World, s: Step)
    requires s.AdvanceEpoch?
    ensures HandleAdvanceEpoch(w, s).Ok? <==>
      604_800 <= s.now - w.protocol.lastEpochTs <= 0x7FFF_FFFF_FFFF_FFFF && w.protocol.epoch < U64_MAX
  {
  }

  // ---------- One claim ----------

  /** No claim succeeds before epoch 2: the epoch claimed for must be later than the initial mark of zero. */
  lemma NoClaimBeforeEpochTwo(w: World, s: Step)
    requires s.Claim? && HandleClaim(w, s).Ok?
    ensures 2 <= w.protocol.epoch
  {
    hide Wallets.PayOut, Wallets.Total, Wallets.AllBooks, TorchMath.CalcClaimWithCap;
  }

  /** What is due: the pro-rata share or a tenth of what is distributable, whichever is less, rounded down. */
  function Due(volume: nat, distributable: nat, total: nat): (due: nat)
    requires 0 < total
  {
    FloorDivision.NonNegative(volume, distributable);
    FloorDivision.Bounds(volume * distributable, total);
    Min(volume * distributable / total, distributable / 10)
  }

  lemma ClaimIsDue(volume: u64, distributable: u64, total: u64)
    requires 0 < total
    ensures CalcClaimWithCap(volume, distributable, total).Some? <==>
      volume * distributable < U64_MODULUS * total && distributable * 1000 <= U64_MAX
    ensures CalcClaimWithCap(volume, distributable, total).Some? ==>
      CalcClaimWithCap(volume, distributable, total).value == Due(volume, distributable, total)
  {
    FloorDivision.NonNegative(volume, distributable);
    FloorDivision.LowerIff(U64_MODULUS, volume * distributable, total);
  }

  /** The volume a claim is paid for: the current one if no trade has rolled it over yet, or else the previous one. */
  function Claimable(w: World, user: Key): u64 {
    if user !in w.stats then 0
    else if w.stats[user].lastVolumeEpoch < w.protocol.epoch && 0 < w.stats[user].volumeCurrent
      then w.stats[user].volumeCurrent
    else w.stats[user].volumePrevious
  }

  /** A claim pays exactly what is due, at least the minimum, and leaves the rest claimable, nine tenths or more. */
  lemma ClaimTerms(w: World, s: Step)
    requires s.Claim? && HandleClaim(w, s).Ok?
    ensures var w' := HandleClaim(w, s).value; var paid := w.protocol.lamports - w'.protocol.lamports;
      && 0 < w.protocol.volumePrevious
      && paid == Due(Claimable(w, s.user), w.protocol.distributable, w.protocol.volumePrevious)
      && 100_000_000 <= paid && 2_000_000_000 <= Claimable(w, s.user)
      && w'.protocol.distributable == w.protocol.distributable - paid
      && w'.protocol.balance == SaturatingSub(w.protocol.balance, paid)
      && 9 * w.protocol.distributable <= 10 * w'.protocol.distributable
  {
    hide Wallets.PayOut, Wallets.Total, Wallets.AllBooks, TorchMath.CalcClaimWithCap, Due;
    ClaimIsDue(Claimable(w, s.user), w.protocol.distributable, w.protocol.volumePrevious);
    DueIsATenth(Claimable(w, s.user), w.protocol.distributable, w.protocol.volumePrevious);
  }

  lemma DueIsATenth(volume: nat, distributable: nat, total: nat)
    requires 0 < total
    ensures 10 * Due(volume, distributable, total) <= distributable
    ensures Due(volume, distributable, total) * total <= volume * distributable
  {
    FloorDivision.NonNegative(volume, distributable);
    FloorDivision.Bounds(volume * distributable, total);
    FloorDivision.MulLe(Due(volume, distributable, total), volume * distributable / total, total);
  }

  /**
   In any world a claim goes through exactly when it is the user's first for the epoch, the volume is
   eligible, and what is due can be paid.
   */
  lemma ClaimSucceedsIff(w: World, s: Step)
    requires s.Claim?
    ensures HandleClaim(w, s).Ok? <==>
      && s.user in w.stats && w.stats[s.user].lastClaimed + 1 < w.protocol.epoch
      && 2_000_000_000 <= Claimable(w, s.user) && 0 < w.protocol.volumePrevious
      && Claimable(w, s.user) * w.protocol.distributable < U64_MODULUS * w.protocol.volumePrevious
      && w.protocol.distributable * 1000 <= U64_MAX
      && var due := Due(Claimable(w, s.user), w.protocol.distributable, w.protocol.volumePrevious);
         && 100_000_000 <= due <= w.protocol.lamports
         && CanReceive(w.funds, PurseOf(s.user, s.route), due)
         && w.protocol.distributed + due <= U64_MAX && w.stats[s.user].claimed + due <= U64_MAX
  {
    hide PayClaim, TorchMath.CalcClaimWithCap, Due, CanReceive;
    if s.user in w.stats && 0 < w.protocol.volumePrevious && 0 < w.protocol.epoch {
      var volume, p := Claimable(w, s.user), w.protocol;
      ClaimIsDue(volume, p.distributable, p.volumePrevious);
      DueIsATenth(volume, p.distributable, p.volumePrevious);
      if CalcClaimWithCap(volume, p.distributable, p.volumePrevious).Some? {
        PayingSucceedsIff(w, s, RolledForClaim(w.stats[s.user], p.epoch),
                          Due(volume, p.distributable, p.volumePrevious));
      }
    }
  }

  lemma PayingSucceedsIff(w: World, s: Step, stats: Stats, amount: u64)
    requires s.Claim? && 0 < w.protocol.epoch
    ensures PayClaim(w, s, stats, amount).Ok? <==>
      && amount <= w.protocol.lamports && CanReceive(w.funds, PurseOf(s.user, s.route), amount)
      && w.protocol.distributed + amount <= U64_MAX && stats.claimed + amount <= U64_MAX
  {
    hide Wallets.PayOut, CanReceive, Wallets.Total, Wallets.AllBooks;
    PayOutSucceedsIff(w.funds, PurseOf(s.user, s.route), amount);
  }

  // ---------- All the claims of one epoch ----------

  ghost predicate WithinEpoch(steps: seq<Step>) {
    forall s :: s in steps ==> !s.AdvanceEpoch?
  }

  /** What a step takes out of the distributable amount. */
  ghost function Taken(w: World, s: Step): int {
    if s.Claim? then w.protocol.lamports - Apply(w, s).protocol.lamports else 0
  }

  ghost function TakenBy(w: World, steps: seq<Step>): int
    decreases |steps|
  {
    if steps == [] then 0 else Taken(w, steps[0]) + TakenBy(Apply(w, steps[0]), steps[1..])
  }

  ghost predicate Succeeds(w: World, s: Step) {
    s.Claim? && HandleClaim(w, s).Ok?
  }

  ghost function ClaimCount(w: World, steps: seq<Step>): nat
    decreases |steps|
  {
    if steps == [] then 0
    else (if Succeeds(w, steps[0]) then 1 else 0) + ClaimCount(Apply(w, steps[0]), steps[1..])
  }

  ghost function ClaimCountOf(w: World, steps: seq<Step>, user: Key): nat
    decreases |steps|
  {
    if steps == [] then 0
    else
      var one := if Succeeds(w, steps[0]) && steps[0].user == user then 1 else 0;
      one + ClaimCountOf(Apply(w, steps[0]), steps[1..], user)
  }

  function Pow(b: nat, e: nat): nat {
    if e == 0 then 1 else b * Pow(b, e - 1)
  }

  lemma StepWithinEpoch(w: World, s: Step)
    requires !s.AdvanceEpoch?
    ensures Apply(w, s).protocol.epoch == w.protocol.epoch
    ensures Apply(w, s).protocol.distributable == w.protocol.distributable - Taken(w, s)
    ensures if Succeeds(w, s) then 9 * w.protocol.distributable <= 10 * Apply(w, s).protocol.distributable
            else Apply(w, s).protocol.distributable == w.protocol.distributable
  {
    StepFrame(w, s);
    if s.Claim? && HandleClaim(w, s).Ok? {
      ClaimTerms(w, s);
      hide HandleClaim;
    } else if s.Claim? {
      hide HandleClaim;
    } else {
      hide Apply;
    }
  }

  lemma OneMoreClaim(nines: nat, tens: nat, first: nat, next: nat, last: nat)
    requires 9 * first <= 10 * next && nines * next <= tens * last
    ensures 9 * nines * first <= 10 * tens * last
  {
    FloorDivision.MulLe(9 * first, 10 * next, nines);
  }

  /** Claims within one epoch take at most what was distributable, and n of them leave at least (9/10)^n of it. */
  lemma {:induction false} EpochIsNeverOverdrawn(w: World, steps: seq<Step>)
    requires WithinEpoch(steps)
    ensures TakenBy(w, steps) + Run(w, steps).protocol.distributable == w.protocol.distributable
    ensures Pow(9, ClaimCount(w, steps)) * w.protocol.distributable
         <= Pow(10, ClaimCount(w, steps)) * Run(w, steps).protocol.distributable
    decreases |steps|
  {
    hide Apply, Taken, Succeeds;
    if steps != [] {
      assert steps[0] in steps;
      var w1 := Apply(w, steps[0]);
      var n, last := ClaimCount(w1, steps[1..]), Run(w, steps).protocol.distributable;
      StepWithinEpoch(w, steps[0]);
      EpochIsNeverOverdrawn(w1, steps[1..]);
      if Succeeds(w, steps[0]) {
        OneMoreClaim(Pow(9, n), Pow(10, n), w.protocol.distributable, w1.protocol.distributable, last);
      }
    }
  }

  /** A user who has claimed for this epoch stays so marked until the epoch advances. */
  lemma MarkStays(w: World, s: Step, user: Key)
    requires !s.AdvanceEpoch?
    ensures user in w.stats ==>
      user in Apply(w, s).stats && w.stats[user].lastClaimed <= Apply(w, s).stats[user].lastClaimed
    ensures Succeeds(w, s) && s.user == user ==>
      user in Apply(w, s).stats && Apply(w, s).stats[user].lastClaimed == w.protocol.epoch - 1
  {
    hide HandleClaim, Apply;
    if s.Claim? {
      ClaimMarks(w, s, user);
    } else if user in w.stats {
      OthersKeepMark(w, s, user);
    }
  }

  /** The epoch a user last claimed for. */
  ghost function Mark(w: World, user: Key): Option<nat> {
    if user in w.stats then Some(w.stats[user].lastClaimed) else None
  }

  lemma BuyKeepsMark(w: World, s: Step, user: Key)
    requires s.Buy? && HandleBuy(w, s).Ok? && user in w.stats
    ensures Mark(HandleBuy(w, s).value, user) == Mark(w, user)
  {
    hide PayForBuy, RecordVolume, BondingCurve.QuoteBuy, BondingCurve.AfterBuy, TokenLedger.FromCurve,
      TokenLedger.Supply, Wallets.Total, Wallets.AllBooks;
  }

  lemma SaleKeepsMark(w: World, s: Step, user: Key)
    requires s.Sell? && HandleSell(w, s).Ok? && user in w.stats
    ensures Mark(HandleSell(w, s).value, user) == Mark(w, user)
  {
    hide RecordVolume, BondingCurve.QuoteSell, BondingCurve.AfterSell, TokenLedger.ToCurve, TokenLedger.Supply,
      Wallets.PayOut, Wallets.Total, Wallets.AllBooks;
  }

  lemma ElsewhereKeepsMark(w: World, s: Step, user: Key)
    requires IsElsewhere(s) && user in w.stats
    ensures s.BuyElsewhere? && HandleBuyElsewhere(w, s).Ok? ==>
      Mark(HandleBuyElsewhere(w, s).value, user) == Mark(w, user)
    ensures s.SellElsewhere? && HandleSellElsewhere(w, s).Ok? ==>
      Mark(HandleSellElsewhere(w, s).value, user) == Mark(w, user)
    ensures s.ReclaimElsewhere? && HandleReclaimElsewhere(w, s).Ok? ==>
      Mark(HandleReclaimElsewhere(w, s).value, user) == Mark(w, user)
  {
    hide RecordVolume, Wallets.Pay, Wallets.Credit, Wallets.PayOut, Wallets.Total, Wallets.AllBooks;
  }

  /** Only a claim moves it. */
  lemma OthersKeepMark(w: World, s: Step, user: Key)
    requires !s.Claim? && user in w.stats
    ensures Mark(Apply(w, s), user) == Mark(w, user)
  {
    hide HandleBuy, HandleSell, HandleBuyElsewhere, HandleSellElsewhere, HandleReclaimElsewhere;
    if !MayTouchStats(s) {
      hide Apply;
      StepFrame(w, s);
    } else if Handle(w, s).Ok? {
      if s.Buy? {
        BuyKeepsMark(w, s, user);
      } else if s.Sell? {
        SaleKeepsMark(w, s, user);
      } else {
        ElsewhereKeepsMark(w, s, user);
      }
    }
  }

  lemma ClaimMarks(w: World, s: Step, user: Key)
    requires s.Claim?
    ensures user in w.stats ==>
      user in Apply(w, s).stats && w.stats[user].lastClaimed <= Apply(w, s).stats[user].lastClaimed
    ensures HandleClaim(w, s).Ok? && s.user == user ==>
      && user in w.stats && w.stats[user].lastClaimed < w.protocol.epoch - 1
      && user in Apply(w, s).stats && Apply(w, s).stats[user].lastClaimed == w.protocol.epoch - 1
  {
    hide Wallets.PayOut, Wallets.Total, Wallets.AllBooks, TorchMath.CalcClaimWithCap;
  }

  lemma {:induction false} NoSecondClaim(w: World, steps: seq<Step>, user: Key)
    requires WithinEpoch(steps)
    requires user in w.stats && w.protocol.epoch <= w.stats[user].lastClaimed + 1
    ensures ClaimCountOf(w, steps, user) == 0
    decreases |steps|
  {
    hide Apply, HandleClaim;
    if steps != [] {
      assert steps[0] in steps;
      StepWithinEpoch(w, steps[0]);
      MarkStays(w, steps[0], user);
      if steps[0].Claim? {
        ClaimMarks(w, steps[0], user);
      }
      NoSecondClaim(Apply(w, steps[0]), steps[1..], user);
    }
  }

  /** Within one epoch each user claims at most once, whatever else happens in between. */
  lemma {:induction false} ClaimsOncePerEpoch(w: World, steps: seq<Step>, user: Key)
    requires WithinEpoch(steps)
    ensures ClaimCountOf(w, steps, user) <= 1
    decreases |steps|
  {
    hide Apply, HandleClaim;
    if steps != [] {
      assert steps[0] in steps;
      StepWithinEpoch(w, steps[0]);
      MarkStays(w, steps[0], user);
      if Succeeds(w, steps[0]) && steps[0].user == user {
        NoSecondClaim(Apply(w, steps[0]), steps[1..], user);
      } else {
        ClaimsOncePerEpoch(Apply(w, steps[0]), steps[1..], user);
      }
    }
  }
}
