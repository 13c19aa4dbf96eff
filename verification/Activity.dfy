/** When a token counts as idle: no reclaim within a period of the last trade or revival. */
module Activity {
  import opened Base
  import opened Constants
  import opened Accounts
  import opened BondingCurve
  import opened Program
  import opened Frames
  import opened CurveProperties
  import opened CurveGuarantees
  import opened ReachableStates
  import CashProperties
  import LoanBook
  import RewardProperties
  import TorchMath
  import Wallets

  /** A successful purchase or sale, or the contribution that completes a revival. */
  ghost predicate IsActivity(w: World, s: Step) {
    || (s.Buy? && HandleBuy(w, s).Ok?)
    || (s.Sell? && HandleSell(w, s).Ok?)
    || (s.Revive? && HandleRevive(w, s).Ok? && InitialVirtualReserves(w.curve.target).0 <= w.curve.rsol + s.sol)
  }

  // ---------- One step ----------

  lemma TradeSetsClock(w: World, s: Step)
    requires IsTrade(s) && Handle(w, s).Ok?
    ensures Apply(w, s).curve.lastActivity == s.slot
  {
    hide QuoteBuy, TorchMath.CalcSolOut;
    if s.Buy? {
      BuyReserves(w, s);
    } else {
      SellReserves(w, s);
    }
    hide Handle, Apply;
  }

  lemma ClosingKeepsClock(w: World, s: Step)
    requires (s.Migrate? || s.Reclaim? || s.Revive?) && Handle(w, s).Ok?
    ensures Handle(w, s).value.curve.lastActivity == if IsActivity(w, s) then s.slot else w.curve.lastActivity
  {
    hide TorchMath.CalcTokensForPool, Wallets.Debit, Wallets.Total;
  }

  /** The clock shows the slot of the step if that was activity, and is left alone by everything else. */
  lemma StepClock(w: World, s: Step)
    ensures Apply(w, s).curve.lastActivity == if IsActivity(w, s) then s.slot else w.curve.lastActivity
  {
    hide HandleBuy, HandleSell, HandleMigrate, HandleReclaim, HandleRevive;
    if !MayTouchCurve(s) {
      hide Apply;
      StepFrame(w, s);
    } else if Handle(w, s).Ok? {
      if IsTrade(s) {
        TradeSetsClock(w, s);
      } else {
        ClosingKeepsClock(w, s);
      }
    }
  }

  // ---------- Over a run ----------

  /** The slot of the last activity of a run, or `start` if there was none. */
  ghost function LastActive(w: World, steps: seq<Step>, start: u64): u64
    decreases |steps|
  {
    if steps == [] then start
    else LastActive(Apply(w, steps[0]), steps[1..], if IsActivity(w, steps[0]) then steps[0].slot else start)
  }

  lemma {:induction false} RunClock(w: World, steps: seq<Step>)
    ensures Run(w, steps).curve.lastActivity == LastActive(w, steps, w.curve.lastActivity)
    decreases |steps|
  {
    hide Apply, IsActivity;
    if steps != [] {
      StepClock(w, steps[0]);
      RunClock(Apply(w, steps[0]), steps[1..]);
    }
  }

  /** Slots do not run backwards from one trade or contribution to a later one. */
  ghost predicate SlotsAscend(steps: seq<Step>) {
    forall i, j :: 0 <= i < j < |steps| && HasClock(steps[i]) && HasClock(steps[j]) ==> steps[i].slot <= steps[j].slot
  }

  predicate HasClock(s: Step) {
    s.Buy? || s.Sell? || s.Revive?
  }

  lemma {:induction false} ClockNeverFallsBelow(w: World, steps: seq<Step>, slot: u64)
    requires slot <= w.curve.lastActivity && forall s :: s in steps && HasClock(s) ==> slot <= s.slot
    ensures slot <= Run(w, steps).curve.lastActivity
    decreases |steps|
  {
    hide Apply, HandleBuy, HandleSell, HandleRevive;
    if steps != [] {
      StepClock(w, steps[0]);
      assert steps[0] in steps;
      ClockNeverFallsBelow(Apply(w, steps[0]), steps[1..], slot);
    }
  }

  lemma {:induction false} RunInParts(w: World, steps: seq<Step>, k: nat)
    requires k <= |steps|
    ensures Run(w, steps) == Run(Run(w, steps[..k]), steps[k..])
    decreases |steps|
  {
    hide Apply;
    if k == 0 {
      assert steps[..0] == [] && steps[0..] == steps;
    } else {
      assert steps[..k][0] == steps[0] && steps[..k][1..] == steps[1..][..k - 1] && steps[1..][k - 1..] == steps[k..];
      RunInParts(Apply(w, steps[0]), steps[1..], k - 1);
    }
  }

  /** No reclaim right after activity, for a whole period of slots. */
  lemma ActiveTokenIsNotReclaimed(w: World, s: Step, r: Step)
    requires IsActivity(w, s) && r.Reclaim? && r.slot < s.slot + 1_512_000
    ensures HandleReclaim(Apply(w, s), r).Err?
  {
    StepClock(w, s);
    hide Apply, IsActivity;
  }

  /**
   Whoever traded on a token, or completed its revival, at any point of a run knows that it is not
   reclaimed within 1_512_000 slots of that.
   */
  lemma ReclaimedTokensWereIdle(w0: World, steps: seq<Step>, k: nat, r: Step)
    requires SlotsAscend(steps) && k < |steps| && IsActivity(Run(w0, steps[..k]), steps[k])
    requires r.Reclaim? && HandleReclaim(Run(w0, steps), r).Ok?
    ensures steps[k].slot + 1_512_000 <= r.slot
  {
    hide Apply, Run, IsActivity;
    var w, s, later := Run(w0, steps[..k]), steps[k], steps[k + 1..];
    RunInParts(w0, steps, k);
    assert steps[k..][0] == s && steps[k..][1..] == later;
    assert Run(w, steps[k..]) == Run(Apply(w, s), later) by {
      FirstStep(w, steps[k..]);
    }
    StepClock(w, s);
    assert HasClock(s) by {
      ActivityHasClock(w, s);
    }
    forall q | q in later && HasClock(q)
      ensures s.slot <= q.slot
    {
      var i :| 0 <= i < |later| && later[i] == q;
      assert steps[k + 1 + i] == q;
    }
    ClockNeverFallsBelow(Apply(w, s), later, s.slot);
    ReclaimSucceedsIff(Run(w0, steps), r);
    hide HandleReclaim;
  }

  lemma ActivityHasClock(w: World, s: Step)
    requires IsActivity(w, s)
    ensures HasClock(s)
  {
  }

  lemma FirstStep(w: World, steps: seq<Step>)
    requires steps != []
    ensures Run(w, steps) == Run(Apply(w, steps[0]), steps[1..])
  {
  }

  // ---------- When a reclaim and a contribution go through ----------

  /** In any world a token is reclaimed exactly when it is open, idle, worth it, and the counters have room. */
  lemma ReclaimSucceedsIff(w: World, s: Step)
    requires s.Reclaim?
    ensures HandleReclaim(w, s).Ok? <==>
      && !w.curve.complete && !w.curve.reclaimed && w.curve.lastActivity + 1_512_000 <= s.slot
      && 10_000_000 <= w.curve.rsol + w.treasury.sol <= U64_MAX
      && w.curve.rsol <= w.curve.lamports && w.treasury.sol <= w.treasury.lamports
      && w.protocol.lamports + w.curve.rsol + w.treasury.sol <= U64_MAX
      && w.protocol.feesReceived + w.curve.rsol + w.treasury.sol <= U64_MAX
  {
  }

  /** From creation on, told from the steps alone: the last activity lies a whole period back. */
  lemma ReclaimsSucceedIff(w0: World, steps: seq<Step>, s: Step)
    requires IsGenesis(w0) && s.Reclaim?
    ensures var w, total := Run(w0, steps), Run(w0, steps).curve.rsol + Run(w0, steps).treasury.sol;
      HandleReclaim(w, s).Ok? <==>
        && !w.curve.complete && !w.curve.reclaimed
        && LastActive(w0, steps, w0.curve.lastActivity) + 1_512_000 <= s.slot
        && 10_000_000 <= total && w.protocol.lamports + total <= U64_MAX && w.protocol.feesReceived + total <= U64_MAX
  {
    hide Reached, Run, HandleReclaim, LastActive, LoanBook.BookSound, RewardProperties.PoolSound, SupplyKept, IsGenesis;
    RunClock(w0, steps);
    RunIsReached(w0, steps);
    EveryReachedStateIsSound(Run(w0, steps));
    ReclaimSucceedsIff(Run(w0, steps), s);
  }

  /**
   A contribution goes through exactly when the token is reclaimed, it is not too small, and it can be paid
   and booked.
   */
  lemma RevivalSucceedsIff(w: World, s: Step)
    requires s.Revive?
    ensures HandleRevive(w, s).Ok? <==>
      && w.curve.reclaimed && 1_000_000 <= s.sol <= Get(w.funds.wallets, s.contributor)
      && w.curve.lamports + s.sol <= U64_MAX && w.curve.rsol + s.sol <= U64_MAX
  {
    hide Wallets.Total;
  }

  /** A reclaimed token is not traded, bought or sold, until a revival is complete. */
  lemma ReclaimedTokensAreNotTraded(w: World, s: Step)
    requires w.curve.reclaimed && IsTrade(s)
    ensures Handle(w, s).Err?
  {
    hide QuoteBuy, SettleBuy, QuoteSell, SettleSell;
  }
}
