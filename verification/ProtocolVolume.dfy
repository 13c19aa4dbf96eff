/** The protocol's volume counters, which every claim is divided by, against the trades and the users' own volumes. */
module ProtocolVolume {
  import opened Base
  import opened MapSum
  import opened Accounts
  import opened BondingCurve
  import opened Program
  import opened Frames
  import opened CurveGuarantees
  import opened VolumeHistory
  import TokenLedger
  import Wallets

  // ---------- What counts ----------

  /** A successful trade, of this token or another, that names the protocol treasury; a purchase always does. */
  ghost predicate Volumed(w: World, s: Step) {
    || (s.Buy? && HandleBuy(w, s).Ok?)
    || (s.Sell? && s.withProtocol && HandleSell(w, s).Ok?)
    || (s.BuyElsewhere? && HandleBuyElsewhere(w, s).Ok?)
    || (s.SellElsewhere? && s.withProtocol && HandleSellElsewhere(w, s).Ok?)
  }

  function Trader(s: Step): Key
    requires IsTrade(s) || s.BuyElsewhere? || s.SellElsewhere?
  {
    if s.Buy? || s.BuyElsewhere? then s.buyer else s.seller
  }

  /** Of those, the ones that name the trader's statistics too. */
  ghost predicate Tracked(w: World, s: Step) {
    Volumed(w, s) && s.tracked
  }

  lemma CountedIffTracked(w: World, s: Step, user: Key)
    ensures Counted(w, s, user) <==> Tracked(w, s) && Trader(s) == user
  {
    hide HandleBuy, HandleSell, HandleBuyElsewhere, HandleSellElsewhere;
  }

  ghost function Added(w: World, s: Step): nat {
    if Volumed(w, s) then Traded(w, s) else 0
  }

  // ---------- The counters over one step ----------

  /** A counted trade adds its volume; a rollover moves the sum into the previous slot; nothing else changes either. */
  ghost predicate Counts(w: World, s: Step, w': World) {
    var p, p' := w.protocol, w'.protocol;
    if s.AdvanceEpoch? && HandleAdvanceEpoch(w, s).Ok?
      then p'.volumeCurrent == 0 && p'.volumePrevious == p.volumeCurrent && p'.epoch == p.epoch + 1
    else
      && p'.volumeCurrent == p.volumeCurrent + Added(w, s)
      && p'.volumePrevious == p.volumePrevious && p'.epoch == p.epoch
  }

  lemma BuyAdds(w: World, s: Step)
    requires s.Buy? && HandleBuy(w, s).Ok?
    ensures Counts(w, s, HandleBuy(w, s).value)
  {
    hide QuoteBuy, AfterBuy, PayForBuy, RecordVolume, TokenLedger.FromCurve, TokenLedger.Supply, Wallets.Total,
      Wallets.AllBooks;
  }

  lemma SaleAdds(w: World, s: Step)
    requires s.Sell? && HandleSell(w, s).Ok?
    ensures Counts(w, s, HandleSell(w, s).value)
  {
    hide QuoteSell, AfterSell, RecordVolume, TokenLedger.ToCurve, TokenLedger.Supply, Wallets.PayOut, Wallets.Total,
      Wallets.AllBooks;
  }

  lemma BuyElsewhereAdds(w: World, s: Step)
    requires s.BuyElsewhere? && HandleBuyElsewhere(w, s).Ok?
    ensures Counts(w, s, HandleBuyElsewhere(w, s).value)
  {
    hide RecordVolume, Wallets.Pay, Wallets.Credit, Wallets.Total, Wallets.AllBooks;
  }

  lemma OtherElsewhereAdds(w: World, s: Step)
    requires s.SellElsewhere? || s.ReclaimElsewhere?
    ensures s.SellElsewhere? && HandleSellElsewhere(w, s).Ok? ==> Counts(w, s, HandleSellElsewhere(w, s).value)
    ensures s.ReclaimElsewhere? && HandleReclaimElsewhere(w, s).Ok? ==> Counts(w, s, HandleReclaimElsewhere(w, s).value)
  {
    hide RecordVolume, Wallets.PayOut, Wallets.Total, Wallets.AllBooks;
  }

  lemma OthersAddNothing(w: World, s: Step)
    requires s.Claim? || s.Reclaim? || s.AdvanceEpoch?
    ensures s.Claim? && HandleClaim(w, s).Ok? ==> Counts(w, s, HandleClaim(w, s).value)
    ensures s.Reclaim? && HandleReclaim(w, s).Ok? ==> Counts(w, s, HandleReclaim(w, s).value)
    ensures s.AdvanceEpoch? && HandleAdvanceEpoch(w, s).Ok? ==> Counts(w, s, HandleAdvanceEpoch(w, s).value)
  {
    hide RolledForClaim, Wallets.PayOut, Wallets.Total, Wallets.AllBooks;
  }

  lemma QuietStepCounts(w: World, s: Step)
    requires !MayTouchPool(s)
    ensures Counts(w, s, Apply(w, s))
  {
    hide Apply, HandleAdvanceEpoch;
    StepFrame(w, s);
  }

  lemma FailedStepCounts(w: World, s: Step)
    requires Handle(w, s).Err?
    ensures Counts(w, s, w)
  {
    hide HandleBuy, HandleSell, HandleBuyElsewhere, HandleSellElsewhere, HandleAdvanceEpoch;
  }

  lemma PoolStepCounts(w: World, s: Step)
    requires MayTouchPool(s) && Handle(w, s).Ok?
    ensures Counts(w, s, Handle(w, s).value)
  {
    hide HandleBuy, HandleSell, HandleBuyElsewhere, HandleSellElsewhere, HandleReclaimElsewhere, HandleClaim,
      HandleReclaim, HandleAdvanceEpoch, Counts;
    match s
    case Buy(_, _, _, _, _, _, _) => BuyAdds(w, s);
    case Sell(_, _, _, _, _, _, _) => SaleAdds(w, s);
    case BuyElsewhere(_, _, _, _, _, _, _, _) => BuyElsewhereAdds(w, s);
    case SellElsewhere(_, _, _, _, _) => OtherElsewhereAdds(w, s);
    case ReclaimElsewhere(_) => OtherElsewhereAdds(w, s);
    case Claim(_, _) => OthersAddNothing(w, s);
    case Reclaim(_) => OthersAddNothing(w, s);
    case AdvanceEpoch(_) => OthersAddNothing(w, s);
  }

  lemma StepCounts(w: World, s: Step)
    ensures Counts(w, s, Apply(w, s))
  {
    hide Handle, Counts;
    if !MayTouchPool(s) {
      hide Apply;
      QuietStepCounts(w, s);
    } else if Handle(w, s).Err? {
      FailedStepCounts(w, s);
    } else {
      PoolStepCounts(w, s);
    }
  }

  // ---------- Over a run ----------

  /** The volume traded in each epoch, after one more step. */
  ghost function AddedTo(w: World, s: Step, totals: map<nat, nat>): map<nat, nat> {
    if Volumed(w, s) then totals[w.protocol.epoch := Get(totals, w.protocol.epoch) + Traded(w, s)] else totals
  }

  ghost function Totals(w: World, steps: seq<Step>, totals: map<nat, nat>): map<nat, nat>
    decreases |steps|
  {
    if steps == [] then totals else Totals(Apply(w, steps[0]), steps[1..], AddedTo(w, steps[0], totals))
  }

  /** The two counters are the volumes of the running epoch and of the one before. */
  ghost predicate CountersMatch(w: World, totals: map<nat, nat>) {
    && w.protocol.volumeCurrent == Get(totals, w.protocol.epoch)
    && w.protocol.volumePrevious == (if w.protocol.epoch == 0 then 0 else Get(totals, w.protocol.epoch - 1))
    && forall e :: e in totals ==> e <= w.protocol.epoch
  }

  lemma StepKeepsCounters(w: World, s: Step, totals: map<nat, nat>)
    requires CountersMatch(w, totals)
    ensures CountersMatch(Apply(w, s), AddedTo(w, s, totals))
  {
    hide Apply, HandleBuy, HandleSell, HandleBuyElsewhere, HandleSellElsewhere, HandleAdvanceEpoch, QuoteSell;
    StepCounts(w, s);
  }

  lemma {:induction false} RunKeepsCounters(w: World, steps: seq<Step>, totals: map<nat, nat>)
    requires CountersMatch(w, totals)
    ensures CountersMatch(Run(w, steps), Totals(w, steps, totals))
    decreases |steps|
  {
    hide Apply, AddedTo, CountersMatch;
    if steps != [] {
      StepKeepsCounters(w, steps[0], totals);
      RunKeepsCounters(Apply(w, steps[0]), steps[1..], AddedTo(w, steps[0], totals));
    }
  }

  /** From creation on, what a claim is divided by is the volume of all counted trades of the epoch before. */
  lemma CountersAreTheTrades(w0: World, steps: seq<Step>)
    requires IsGenesis(w0)
    ensures var p, totals := Run(w0, steps).protocol, Totals(w0, steps, map[]);
      && p.volumeCurrent == Get(totals, p.epoch)
      && p.volumePrevious == (if p.epoch == 0 then 0 else Get(totals, p.epoch - 1))
  {
    assert CountersMatch(w0, map[]);
    hide IsGenesis, Run, Totals;
    RunKeepsCounters(w0, steps, map[]);
  }

  // ---------- The users' volumes ----------

  /** Every user's volume in one epoch, after one more step. */
  ghost function AddedToUser(w: World, s: Step, epoch: nat, users: map<Key, nat>): map<Key, nat> {
    if Tracked(w, s) && w.protocol.epoch == epoch
    then users[Trader(s) := Get(users, Trader(s)) + Traded(w, s)]
    else users
  }

  ghost function UserVolumes(w: World, steps: seq<Step>, epoch: nat, users: map<Key, nat>): map<Key, nat>
    decreases |steps|
  {
    if steps == [] then users
    else UserVolumes(Apply(w, steps[0]), steps[1..], epoch, AddedToUser(w, steps[0], epoch, users))
  }

  /** They are the volumes a claim is computed from. */
  lemma {:induction false} UserVolumesAreHistories(w: World, steps: seq<Step>, epoch: nat, users: map<Key, nat>,
                                                   user: Key, volumes: map<nat, nat>)
    requires Get(users, user) == Get(volumes, epoch)
    ensures Get(UserVolumes(w, steps, epoch, users), user) == Get(History(w, steps, user, volumes), epoch)
    decreases |steps|
  {
    hide Apply, HandleSell, HandleBuy, HandleBuyElsewhere, HandleSellElsewhere, Traded;
    if steps != [] {
      CountedIffTracked(w, steps[0], user);
      UserVolumesAreHistories(Apply(w, steps[0]), steps[1..], epoch, AddedToUser(w, steps[0], epoch, users), user,
                              Recorded(w, steps[0], user, volumes));
    }
  }

  /** Every counted trade of the run names its trader's statistics. */
  ghost predicate AllTracked(w: World, steps: seq<Step>)
    decreases |steps|
  {
    steps == [] || ((Volumed(w, steps[0]) ==> steps[0].tracked) && AllTracked(Apply(w, steps[0]), steps[1..]))
  }

  lemma OneMoreTrade(w: World, s: Step, epoch: nat, users: map<Key, nat>, totals: map<nat, nat>)
    requires Sum(users) <= Get(totals, epoch)
    ensures Sum(AddedToUser(w, s, epoch, users)) <= Get(AddedTo(w, s, totals), epoch)
    ensures Sum(users) == Get(totals, epoch) && (Volumed(w, s) ==> s.tracked) ==>
      Sum(AddedToUser(w, s, epoch, users)) == Get(AddedTo(w, s, totals), epoch)
  {
    hide HandleSell, HandleBuy, HandleBuyElsewhere, HandleSellElsewhere, Traded, MapSum.Sum;
    if Tracked(w, s) {
      MapSum.Set(users, Trader(s), Get(users, Trader(s)) + Traded(w, s));
    }
  }

  /**
   In every epoch of every run the users' volumes together are at most the protocol's, and equal to it if
   every counted trade names its trader's statistics. So the shares of one epoch's volume add up to no more
   than the whole.
   */
  lemma {:induction false} UsersAddUp(w: World, steps: seq<Step>, epoch: nat, users: map<Key, nat>, totals: map<nat,
                                      nat>)
    requires Sum(users) <= Get(totals, epoch)
    ensures Sum(UserVolumes(w, steps, epoch, users)) <= Get(Totals(w, steps, totals), epoch)
    ensures Sum(users) == Get(totals, epoch) && AllTracked(w, steps) ==>
      Sum(UserVolumes(w, steps, epoch, users)) == Get(Totals(w, steps, totals), epoch)
    decreases |steps|
  {
    hide Apply, Volumed, AddedToUser, AddedTo, MapSum.Sum;
    if steps != [] {
      OneMoreTrade(w, steps[0], epoch, users, totals);
      UsersAddUp(Apply(w, steps[0]), steps[1..], epoch, AddedToUser(w, steps[0], epoch, users),
                 AddedTo(w, steps[0], totals));
    }
  }

  /** A claim on the previous epoch's own volume is on at most the whole of it. */
  lemma FreshVolumeIsAPart(w0: World, steps: seq<Step>, user: Key)
    requires IsGenesis(w0) && 0 < Run(w0, steps).protocol.epoch
    ensures var p := Run(w0, steps).protocol;
      Get(History(w0, steps, user, map[]), p.epoch - 1) <= p.volumePrevious
  {
    var epoch := Run(w0, steps).protocol.epoch - 1;
    hide IsGenesis, Run, Totals, History, UserVolumes, MapSum.Sum;
    CountersAreTheTrades(w0, steps);
    UserVolumesAreHistories(w0, steps, epoch, map[], user, map[]);
    var nobody: map<Key, nat> := map[];
    NobodyTraded(nobody);
    UsersAddUp(w0, steps, epoch, nobody, map[]);
    MapSum.Member(UserVolumes(w0, steps, epoch, nobody), user);
  }

  lemma NobodyTraded(users: map<Key, nat>)
    requires users == map[]
    ensures Sum(users) == 0
  {
  }
}
