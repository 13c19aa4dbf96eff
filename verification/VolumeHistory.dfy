/** Which epoch's trading a reward is paid for, on every run. */
module VolumeHistory {
  import opened Base
  import opened Constants
  import opened TorchMath
  import opened Accounts
  import opened BondingCurve
  import opened Program
  import opened Frames
  import opened CurveGuarantees
  import opened Exchanges
  import Wallets
  import TokenLedger
  import MapSum
  import RewardProperties

  // ---------- One user's volume by epoch ----------

  /** The epoch-by-epoch volumes after one more step: a counted trade adds to the running epoch. */
  ghost function Recorded(w: World, s: Step, user: Key, volumes: map<nat, nat>): map<nat, nat> {
    if Counted(w, s, user) then volumes[w.protocol.epoch := Get(volumes, w.protocol.epoch) + Traded(w, s)] else volumes
  }

  /** A successful trade by the user, of this token or another, that names the user's statistics account. */
  ghost predicate Counted(w: World, s: Step, user: Key) {
    || (s.Buy? && s.tracked && s.buyer == user && HandleBuy(w, s).Ok?)
    || (s.Sell? && s.tracked && s.withProtocol && s.seller == user && HandleSell(w, s).Ok?)
    || (s.BuyElsewhere? && s.tracked && s.buyer == user && HandleBuyElsewhere(w, s).Ok?)
    || (s.SellElsewhere? && s.tracked && s.withProtocol && s.seller == user && HandleSellElsewhere(w, s).Ok?)
  }

  /** A trade's volume: what a buyer pays, or what a seller's tokens fetch. */
  ghost function Traded(w: World, s: Step): nat
    requires s.Buy? || s.BuyElsewhere? || s.SellElsewhere? || (s.Sell? && HandleSell(w, s).Ok?)
  {
    if !s.Sell? then s.sol else QuoteSell(w.curve, s.amount).value
  }

  ghost function History(w: World, steps: seq<Step>, user: Key, volumes: map<nat, nat>): map<nat, nat>
    decreases |steps|
  {
    if steps == [] then volumes else History(Apply(w, steps[0]), steps[1..], user, Recorded(w, steps[0], user, volumes))
  }

  /** The volume of the last epoch before `epoch` in which there was any. */
  ghost function LastActive(volumes: map<nat, nat>, epoch: nat): nat {
    if epoch == 0 then 0
    else if 0 < Get(volumes, epoch - 1) then Get(volumes, epoch - 1)
    else LastActive(volumes, epoch - 1)
  }

  /** Epochs without volume do not matter. */
  lemma {:induction false} QuietEpochs(volumes: map<nat, nat>, first: nat, next: nat)
    requires first <= next && forall e :: first <= e < next ==> Get(volumes, e) == 0
    ensures LastActive(volumes, next) == LastActive(volumes, first)
    decreases next
  {
    if first < next {
      assert Get(volumes, next - 1) == 0;
      QuietEpochs(volumes, first, next - 1);
    }
  }

  /** Nor does what happens in later epochs. */
  lemma {:induction false} LaterEpochs(volumes: map<nat, nat>, later: nat, v: nat, epoch: nat)
    requires epoch <= later
    ensures LastActive(volumes[later := v], epoch) == LastActive(volumes, epoch)
  {
    if epoch > 0 {
      LaterEpochs(volumes, later, v, epoch - 1);
    }
  }

  // ---------- The counters against the history ----------

  /**
   The current counter is the volume of the last epoch traded in, and the previous counter, unless
   a claim has used it up, that of the last active epoch before. The lifetime counter is the sum of all.
   */
  ghost predicate Tallied(stats: Stats, epoch: nat, volumes: map<nat, nat>) {
    && stats.lastVolumeEpoch <= epoch
    && stats.volumeCurrent == Get(volumes, stats.lastVolumeEpoch)
    && (forall e :: e in volumes ==> e <= stats.lastVolumeEpoch)
    && (stats.volumePrevious == 0 || stats.volumePrevious == LastActive(volumes, stats.lastVolumeEpoch))
    && stats.totalVolume == MapSum.Sum(volumes)
  }

  lemma RecordingKeepsTally(stats: Stats, epoch: u64, volumes: map<nat, nat>, amount: u64)
    requires Tallied(stats, epoch, volumes) && RecordVolume(stats, amount, epoch).Ok?
    ensures Tallied(RecordVolume(stats, amount, epoch).value, epoch, volumes[epoch := Get(volumes, epoch) + amount])
  {
    LaterEpochs(volumes, epoch, Get(volumes, epoch) + amount, epoch);
    MapSum.Set<nat>(volumes, epoch, Get(volumes, epoch) + amount);
    if stats.lastVolumeEpoch < epoch && 0 < stats.volumeCurrent {
      QuietEpochs(volumes, stats.lastVolumeEpoch + 1, epoch);
    }
  }

  /** What a claim is computed from, and that claiming keeps the tally. */
  lemma ClaimingKeepsTally(stats: Stats, epoch: u64, volumes: map<nat, nat>, after: Stats)
    requires Tallied(stats, epoch, volumes)
    requires var rolled := RolledForClaim(stats, epoch);
      after == rolled.(lastClaimed := after.lastClaimed, claimed := after.claimed, volumePrevious := 0)
    ensures Tallied(after, epoch, volumes)
    ensures var used := RolledForClaim(stats, epoch).volumePrevious;
      0 < used ==> used == LastActive(volumes, epoch)
  {
    if stats.lastVolumeEpoch < epoch {
      if 0 < stats.volumeCurrent {
        QuietEpochs(volumes, stats.lastVolumeEpoch + 1, epoch);
      } else {
        QuietEpochs(volumes, stats.lastVolumeEpoch, epoch);
      }
    }
  }

  lemma BuyRecords(w: World, s: Step, user: Key)
    requires s.Buy? && HandleBuy(w, s).Ok?
    ensures var w' := HandleBuy(w, s).value;
      && w'.protocol.epoch == w.protocol.epoch
      && if s.tracked && s.buyer == user
         then Ok(StatsOf(w', user)) == RecordVolume(StatsOf(w, user), s.sol, w.protocol.epoch)
         else StatsOf(w', user) == StatsOf(w, user)
  {
    hide PayForBuy, RecordVolume, QuoteBuy, AfterBuy, Wallets.Total, Wallets.AllBooks, TokenLedger.Supply;
  }

  lemma SaleRecords(w: World, s: Step, user: Key)
    requires s.Sell? && HandleSell(w, s).Ok?
    ensures var w' := HandleSell(w, s).value; var out := QuoteSell(w.curve, s.amount);
      && out.Ok? && w'.protocol.epoch == w.protocol.epoch
      && if s.tracked && s.withProtocol && s.seller == user
         then Ok(StatsOf(w', user)) == RecordVolume(StatsOf(w, user), out.value, w.protocol.epoch)
         else StatsOf(w', user) == StatsOf(w, user)
  {
    hide RecordVolume, QuoteSell, AfterSell, Wallets.PayOut, Wallets.Total, Wallets.AllBooks, TokenLedger.Supply;
  }

  lemma ElsewhereRecords(w: World, s: Step, user: Key)
    requires IsElsewhere(s) && Handle(w, s).Ok?
    ensures var w' := Apply(w, s);
      && w'.protocol.epoch == w.protocol.epoch
      && if Counted(w, s, user) then Ok(StatsOf(w', user)) == RecordVolume(StatsOf(w, user), s.sol, w.protocol.epoch)
         else StatsOf(w', user) == StatsOf(w, user)
  {
    hide HandleBuyElsewhere, HandleSellElsewhere, RecordVolume, StatsOf;
    match s
    case BuyElsewhere(_, _, _, _, _, _, _, _) => BuyElsewhereRecords(w, s, user);
    case SellElsewhere(_, _, _, _, _) => SellElsewhereRecords(w, s, user);
    case ReclaimElsewhere(_) => ReclaimElsewhereRecords(w, s, user);
  }

  lemma BuyElsewhereRecords(w: World, s: Step, user: Key)
    requires s.BuyElsewhere? && HandleBuyElsewhere(w, s).Ok?
    ensures var w' := HandleBuyElsewhere(w, s).value;
      && w'.protocol.epoch == w.protocol.epoch
      && if s.tracked && s.buyer == user
         then Ok(StatsOf(w', user)) == RecordVolume(StatsOf(w, user), s.sol, w.protocol.epoch)
         else StatsOf(w', user) == StatsOf(w, user)
  {
    hide Wallets.Pay, Wallets.Credit, Wallets.Total, Wallets.AllBooks, RecordVolume;
  }

  lemma SellElsewhereRecords(w: World, s: Step, user: Key)
    requires s.SellElsewhere? && HandleSellElsewhere(w, s).Ok?
    ensures var w' := HandleSellElsewhere(w, s).value;
      && w'.protocol.epoch == w.protocol.epoch
      && if s.tracked && s.withProtocol && s.seller == user
         then Ok(StatsOf(w', user)) == RecordVolume(StatsOf(w, user), s.sol, w.protocol.epoch)
         else StatsOf(w', user) == StatsOf(w, user)
  {
    hide Wallets.PayOut, Wallets.Total, Wallets.AllBooks, RecordVolume;
  }

  lemma ReclaimElsewhereRecords(w: World, s: Step, user: Key)
    requires s.ReclaimElsewhere? && HandleReclaimElsewhere(w, s).Ok?
    ensures var w' := HandleReclaimElsewhere(w, s).value;
      w'.protocol.epoch == w.protocol.epoch && StatsOf(w', user) == StatsOf(w, user)
  {
  }

  lemma ClaimRecords(w: World, s: Step, user: Key)
    requires s.Claim? && HandleClaim(w, s).Ok?
    ensures var w', rolled := HandleClaim(w, s).value, RolledForClaim(StatsOf(w, s.user), w.protocol.epoch);
      && w'.protocol.epoch == w.protocol.epoch && 0 < rolled.volumePrevious
      && StatsOf(w', s.user) == rolled.(lastClaimed := StatsOf(w', s.user).lastClaimed,
                                        claimed := StatsOf(w', s.user).claimed, volumePrevious := 0)
      && (user != s.user ==> StatsOf(w', user) == StatsOf(w, user))
  {
    hide Wallets.PayOut, TorchMath.CalcClaimWithCap, RolledForClaim, Wallets.Total, Wallets.AllBooks;
  }

  lemma OthersRecordNothing(w: World, s: Step, user: Key)
    requires !s.Buy? && !s.Sell? && !s.Claim? && !IsElsewhere(s)
    ensures StatsOf(Apply(w, s), user) == StatsOf(w, user) && w.protocol.epoch <= Apply(w, s).protocol.epoch
  {
    if s.AdvanceEpoch? {
      hide StatsOf;
    } else {
      hide Apply;
      StepFrame(w, s);
    }
  }

  /** A trade either adds to the user's volume or leaves the user's counters alone. */
  lemma TradeKeepsTally(w: World, s: Step, user: Key, volumes: map<nat, nat>)
    requires Tallied(StatsOf(w, user), w.protocol.epoch, volumes)
    requires (IsTrade(s) || IsElsewhere(s)) && Handle(w, s).Ok?
    ensures Tallied(StatsOf(Apply(w, s), user), Apply(w, s).protocol.epoch, Recorded(w, s, user, volumes))
  {
    hide HandleBuy, HandleSell, HandleBuyElsewhere, HandleSellElsewhere, HandleReclaimElsewhere, QuoteSell,
      RecordVolume, StatsOf, Tallied;
    if s.Buy? {
      BuyRecords(w, s, user);
    } else if s.Sell? {
      SaleRecords(w, s, user);
    } else {
      ElsewhereRecords(w, s, user);
    }
    if Counted(w, s, user) {
      RecordingKeepsTally(StatsOf(w, user), w.protocol.epoch, volumes, Traded(w, s));
    }
  }

  lemma ClaimKeepsTally(w: World, s: Step, user: Key, volumes: map<nat, nat>)
    requires Tallied(StatsOf(w, user), w.protocol.epoch, volumes)
    requires s.Claim? && HandleClaim(w, s).Ok?
    ensures Tallied(StatsOf(HandleClaim(w, s).value, user), HandleClaim(w, s).value.protocol.epoch, volumes)
  {
    hide HandleClaim, RolledForClaim, StatsOf, Tallied;
    ClaimRecords(w, s, user);
    if s.user == user {
      ClaimingKeepsTally(StatsOf(w, user), w.protocol.epoch, volumes, StatsOf(HandleClaim(w, s).value, user));
    }
  }

  lemma StepKeepsTally(w: World, s: Step, user: Key, volumes: map<nat, nat>)
    requires Tallied(StatsOf(w, user), w.protocol.epoch, volumes)
    ensures Tallied(StatsOf(Apply(w, s), user), Apply(w, s).protocol.epoch, Recorded(w, s, user, volumes))
  {
    hide HandleBuy, HandleSell, HandleClaim, HandleBuyElsewhere, HandleSellElsewhere, HandleReclaimElsewhere, StatsOf;
    if !IsTrade(s) && !s.Claim? && !IsElsewhere(s) {
      hide Apply;
      OthersRecordNothing(w, s, user);
    } else if Handle(w, s).Ok? {
      hide Tallied;
      if s.Claim? {
        ClaimKeepsTally(w, s, user, volumes);
      } else {
        TradeKeepsTally(w, s, user, volumes);
      }
    }
  }

  /** On every run each user's counters agree with the trades the user has made, epoch by epoch. */
  lemma {:induction false} RunKeepsTally(w: World, steps: seq<Step>, user: Key, volumes: map<nat, nat>)
    requires Tallied(StatsOf(w, user), w.protocol.epoch, volumes)
    ensures Tallied(StatsOf(Run(w, steps), user), Run(w, steps).protocol.epoch, History(w, steps, user, volumes))
    decreases |steps|
  {
    hide Tallied, Apply, Recorded, StatsOf;
    if steps != [] {
      StepKeepsTally(w, steps[0], user, volumes);
      RunKeepsTally(Apply(w, steps[0]), steps[1..], user, Recorded(w, steps[0], user, volumes));
    }
  }

  // ---------- What a claim is paid for ----------

  /**
   A reward is computed from the claimant's last active epoch before the running one, however long
   ago that was. It is the previous epoch's volume if and only if the claimant traded in that epoch.
   */
  lemma ClaimsUseLastActiveEpoch(w0: World, steps: seq<Step>, s: Step)
    requires IsGenesis(w0) && s.Claim? && HandleClaim(Run(w0, steps), s).Ok?
    ensures var w := Run(w0, steps);
      var volumes, used := History(w0, steps, s.user, map[]),
        RolledForClaim(StatsOf(w, s.user), w.protocol.epoch).volumePrevious;
      && 0 < used == LastActive(volumes, w.protocol.epoch)
      && 0 < w.protocol.epoch
      && (used == Get(volumes, w.protocol.epoch - 1) <==> 0 < Get(volumes, w.protocol.epoch - 1))
  {
    assert Tallied(StatsOf(w0, s.user), w0.protocol.epoch, map[]);
    RunKeepsTally(w0, steps, s.user, map[]);
    var w := Run(w0, steps);
    ClaimRecords(w, s, s.user);
    hide IsGenesis, HandleClaim, Run, Tallied, History, StatsOf, RolledForClaim;
    ClaimingKeepsTally(StatsOf(w, s.user), w.protocol.epoch, History(w0, steps, s.user, map[]),
                       StatsOf(HandleClaim(w, s).value, s.user));
  }

  /** From creation on a user's lifetime volume is that of all counted trades of the run, over all epochs. */
  lemma LifetimeVolume(w0: World, steps: seq<Step>, user: Key)
    requires IsGenesis(w0)
    ensures StatsOf(Run(w0, steps), user).totalVolume == MapSum.Sum(History(w0, steps, user, map[]))
  {
    assert Tallied(StatsOf(w0, user), w0.protocol.epoch, map[]);
    hide IsGenesis, Run, History, StatsOf, Apply;
    RunKeepsTally(w0, steps, user, map[]);
  }

  // ---------- A claim on old volume ----------

  /** Two traders with ten SOL each, and ten SOL in the pool. */
  ghost function Market(): World {
    Genesis(Config(1, 2, 0, 0, 0, 0), BONDING_TARGET_TORCH, false, true, 0,
            map[7 := 10_000_000_000, 9 := 10_000_000_000],
            10_000_000_000, 0)
  }

  ghost function Week(n: nat): i64
    requires n <= 4
  {
    604_800 * n
  }

  ghost function FiveSolElsewhere(buyer: Key): Step {
    BuyElsewhere(buyer, 5_000_000_000, 12_500_000, 12_500_000, 3, 10_000_000, Direct, true)
  }

  /** The one buys in epoch 1 and is idle from then on; the other buys in epoch 3. */
  ghost function Quiet(): seq<Step> {
    [AdvanceEpoch(Week(1)), FiveSolElsewhere(7), AdvanceEpoch(Week(2)),
     AdvanceEpoch(Week(3)), FiveSolElsewhere(9), AdvanceEpoch(Week(4))]
  }

  lemma OneStep(w: World, steps: seq<Step>, user: Key, volumes: map<nat, nat>)
    requires steps != []
    ensures Run(w, steps) == Run(Apply(w, steps[0]), steps[1..])
    ensures History(w, steps, user, volumes)
      == History(Apply(w, steps[0]), steps[1..], user, Recorded(w, steps[0], user, volumes))
  {
    hide Apply, Recorded;
  }

  lemma Rollover(w: World, n: nat)
    requires 0 < n <= 4 && w.protocol.lastEpochTs == Week(n - 1) && w.protocol.epoch == n - 1
    requires w.protocol.floor == 0 && w.config.protocolRent == 0
    ensures Apply(w, AdvanceEpoch(Week(n))) == w.(protocol := w.protocol.(volumePrevious := w.protocol.volumeCurrent,
      balance := w.protocol.lamports, distributable := w.protocol.lamports, volumeCurrent := 0, epoch := n,
        lastEpochTs := Week(n)))
  {
  }

  /** What a purchase of another token for five SOL changes: the pool, the statistics and three wallets. */
  lemma BuyElsewhereOutcome(w: World, buyer: Key)
    requires Get(w.funds.wallets, buyer) == 10_000_000_000 && buyer !in w.stats && buyer != 2 && buyer != 3
    requires w.config.dev == 2 && Get(w.funds.wallets, 2) <= 100_000_000 && Get(w.funds.wallets, 3) <= 100_000_000
    requires w.protocol.lamports <= 20_000_000_000 && w.protocol.feesReceived <= 20_000_000_000
    requires w.protocol.volumeCurrent == 0 && 0 < w.protocol.epoch
    ensures HandleBuyElsewhere(w, FiveSolElsewhere(buyer)).Ok?
    ensures var w' := Apply(w, FiveSolElsewhere(buyer));
      && w'.protocol == w.protocol.(lamports := w.protocol.lamports + 12_500_000,
                                    feesReceived := w.protocol.feesReceived + 12_500_000,
                                    volumeCurrent := 5_000_000_000)
      && w'.stats == w.stats[buyer := Stats(5_000_000_000, 5_000_000_000, 0, 0, 0, w.protocol.epoch)]
      && w'.config == w.config
      && forall k :: Get(w'.funds.wallets, k) == Get(w.funds.wallets, k) - For(k, buyer, 5_000_000_000)
                                                 + For(k, 2, 12_500_000) + For(k, 3, 10_000_000)
  {
    hide Wallets.Total, Wallets.AllBooks;
  }

  /** The trader who will claim has bought in epoch 1, and epoch 2 has begun. */
  ghost predicate BeforeWeekThree(w: World) {
    && w.config == Config(1, 2, 0, 0, 0, 0)
    && w.protocol
      == Protocol(10_012_500_000, 0, 12_500_000, 0, 2, Week(2), 0, 5_000_000_000, 10_012_500_000, 10_012_500_000)
    && w.stats == map[7 := Stats(5_000_000_000, 5_000_000_000, 0, 0, 0, 1)]
    && Get(w.funds.wallets, 7) == 5_000_000_000 && Get(w.funds.wallets, 9) == 10_000_000_000
    && Get(w.funds.wallets, 2) == 12_500_000 && Get(w.funds.wallets, 3) == 10_000_000
  }

  /** The other trader has bought in epoch 3, and epoch 4 has begun. */
  ghost predicate InWeekFour(w: World) {
    && w.protocol.epoch == 4 && w.protocol.distributable == w.protocol.lamports == 10_025_000_000
    && w.protocol.volumePrevious == 5_000_000_000 && w.protocol.distributed == 0
    && 7 in w.stats && w.stats[7] == Stats(5_000_000_000, 5_000_000_000, 0, 0, 0, 1)
    && Get(w.funds.wallets, 7) == 5_000_000_000
  }

  /** The first half of the run: the trader who will claim buys in epoch 1. */
  lemma FirstWeeks(w0: World, steps: seq<Step>) returns (w: World)
    requires w0 == Market() && steps == Quiet()
    ensures Run(w0, steps) == Run(w, steps[3..])
      && History(w0, steps, 7, map[]) == History(w, steps[3..], 7, map[1 := 5_000_000_000])
    ensures BeforeWeekThree(w)
  {
    hide Apply, HandleBuyElsewhere, Run, History;
    OneStep(w0, steps, 7, map[]);
    Rollover(w0, 1);
    var w1 := Apply(w0, steps[0]);
    OneStep(w1, steps[1..], 7, map[]);
    BuyElsewhereOutcome(w1, 7);
    var w2 := Apply(w1, steps[1]);
    assert Recorded(w1, steps[1], 7, map[]) == map[1 := 5_000_000_000];
    assert steps[1..][1..] == steps[2..] && steps[2..][1..] == steps[3..];
    OneStep(w2, steps[2..], 7, map[1 := 5_000_000_000]);
    Rollover(w2, 2);
    w := Apply(w2, steps[2]);
  }

  /** The second half: the other one buys in epoch 3, and epoch 4 begins. */
  lemma QuietRun(w0: World, steps: seq<Step>)
    requires w0 == Market() && steps == Quiet()
    ensures InWeekFour(Run(w0, steps)) && History(w0, steps, 7, map[]) == map[1 := 5_000_000_000]
  {
    hide Apply, HandleBuyElsewhere, Run, History, Market;
    var w3 := FirstWeeks(w0, steps);
    LastWeeks(w3, steps[3..]);
  }

  lemma LastWeeks(w3: World, steps: seq<Step>)
    requires steps == [AdvanceEpoch(Week(3)), FiveSolElsewhere(9), AdvanceEpoch(Week(4))]
    requires BeforeWeekThree(w3)
    ensures InWeekFour(Run(w3, steps)) && History(w3, steps, 7, map[1 := 5_000_000_000]) == map[1 := 5_000_000_000]
  {
    hide Apply, HandleBuyElsewhere, Run, History;
    var volumes := map[1 := 5_000_000_000];
    OneStep(w3, steps, 7, volumes);
    Rollover(w3, 3);
    var w4 := Apply(w3, steps[0]);
    assert steps[1..][1..] == steps[2..] && steps[2..][1..] == [];
    OneStep(w4, steps[1..], 7, volumes);
    BuyElsewhereOutcome(w4, 9);
    var w5 := Apply(w4, steps[1]);
    OneStep(w5, steps[2..], 7, volumes);
    Rollover(w5, 4);
    NoStep(Apply(w5, steps[2]), 7, volumes);
  }

  lemma NoStep(w: World, user: Key, volumes: map<nat, nat>)
    ensures Run(w, []) == w && History(w, [], user, volumes) == volumes
  {
  }

  /**
   A run from creation after which a claim in epoch 4 is paid for volume of epoch 1, though the claimant was
   idle in epoch 3.
   */
  lemma StaleVolumeExample() returns (w0: World, steps: seq<Step>, s: Step)
    ensures IsGenesis(w0) && Run(w0, steps).protocol.epoch == 4
    ensures s.Claim? && HandleClaim(Run(w0, steps), s).Ok?
    ensures var volumes := History(w0, steps, s.user, map[]);
      Get(volumes, 3) == 0 && RolledForClaim(StatsOf(Run(w0, steps), s.user), 4).volumePrevious == Get(volumes, 1) > 0
  {
    w0, steps, s := Market(), Quiet(), Claim(7, Direct);
    assert IsGenesis(w0);
    QuietRun(w0, steps);
    hide Run, History, IsGenesis, Market, Quiet, HandleClaim;
    ClaimIsPaid(Run(w0, steps));
  }

  lemma ClaimIsPaid(w: World)
    requires InWeekFour(w)
    ensures HandleClaim(w, Claim(7, Direct)).Ok?
  {
    assert CalcClaimWithCap(5_000_000_000, 10_025_000_000, 5_000_000_000) == Some(1_002_500_000);
    hide TorchMath.CalcClaimWithCap, Wallets.Total, Wallets.AllBooks;
  }
}
