/** Stars: who may give one, how often, and how they are counted. */
module Stars {
  import opened Base
  import opened Constants
  import opened Wallets
  import opened Accounts
  import opened Program
  import opened Frames
  import opened Exchanges
  import opened CurveGuarantees
  import opened ReachableStates
  import CashProperties
  import CurveProperties
  import LoanBook
  import RewardProperties

  /**
   What the creator is paid by the next star: the whole pot, if the star reaches the threshold and nothing was
   paid yet.
   */
  function Pot(t: Treasury): nat {
    if 2000 <= t.stars + 1 && !t.paidOut then t.starSol + 20_000_000 else 0
  }

  /**
   In any world a star goes through exactly when it is the user's first, not the creator's own, and can be
   paid and booked.
   */
  lemma StarSucceedsIff(w: World, s: Step)
    requires s.Star?
    ensures HandleStar(w, s).Ok? <==>
      && s.user != w.config.creator && s.user !in w.starred
      && CanPay(w.funds, PurseOf(s.user, s.route), 20_000_000)
      && w.treasury.lamports + 20_000_000 <= U64_MAX && w.treasury.starSol + 20_000_000 <= U64_MAX
      && w.treasury.stars < U64_MAX && Pot(w.treasury) <= w.treasury.lamports + 20_000_000
      && (0 < Pot(w.treasury) ==> Get(w.funds.wallets, w.config.creator) + Pot(w.treasury) <= U64_MAX)
  {
    hide Wallets.Pay, CanPay, Wallets.Total, Wallets.AllBooks;
    PaySucceedsIff(w.funds, PurseOf(s.user, s.route), STAR_COST_LAMPORTS);
    if CanPay(w.funds, PurseOf(s.user, s.route), STAR_COST_LAMPORTS) && s.user != w.config.creator {
      CreatorIsNotCharged(w.funds, s, w.config.creator);
    }
  }

  lemma CreatorIsNotCharged(f: Funds, s: Step, creator: Key)
    requires s.Star? && s.user != creator && Pay(f, PurseOf(s.user, s.route), STAR_COST_LAMPORTS).Ok?
    ensures Get(Pay(f, PurseOf(s.user, s.route), STAR_COST_LAMPORTS).value.wallets, creator) == Get(f.wallets, creator)
  {
    hide Wallets.Total, Wallets.AllBooks;
  }

  /** A successful star is recorded for its user and counted. */
  lemma StarIsRecorded(w: World, s: Step)
    requires s.Star? && HandleStar(w, s).Ok?
    ensures var w' := HandleStar(w, s).value;
      && s.user !in w.starred && w'.starred == w.starred + {s.user} && s.user != w.config.creator
      && w'.treasury.stars == w.treasury.stars + 1
  {
    hide Wallets.Pay, Wallets.Credit, Wallets.Total, Wallets.AllBooks;
  }

  /** The stars are as many as the users who gave one, and the creator is not among them. */
  ghost predicate Tallied(w: World) {
    w.treasury.stars == |w.starred| && w.config.creator !in w.starred
  }

  lemma StepKeepsStars(w: World, s: Step)
    ensures w.starred <= Apply(w, s).starred
    ensures Tallied(w) ==> Tallied(Apply(w, s))
  {
    hide HandleStar;
    StepFrame(w, s);
    if s.Star? && HandleStar(w, s).Ok? {
      StarIsRecorded(w, s);
    } else if !s.Star? {
      hide Apply;
    }
  }

  lemma {:induction false} RunKeepsStars(w: World, steps: seq<Step>)
    ensures w.starred <= Run(w, steps).starred
    ensures Tallied(w) ==> Tallied(Run(w, steps))
    decreases |steps|
  {
    hide Apply, Tallied;
    if steps != [] {
      StepKeepsStars(w, steps[0]);
      RunKeepsStars(Apply(w, steps[0]), steps[1..]);
    }
  }

  /** From creation on, the star counter is the number of different users who starred, never the creator. */
  lemma StarsAreUsers(w0: World, steps: seq<Step>)
    requires IsGenesis(w0)
    ensures Run(w0, steps).treasury.stars == |Run(w0, steps).starred|
    ensures w0.config.creator !in Run(w0, steps).starred
  {
    assert Tallied(w0);
    RunKeepsStars(w0, steps);
    hide Run, IsGenesis;
    ConfigStays(w0, steps);
  }

  lemma {:induction false} ConfigStays(w: World, steps: seq<Step>)
    ensures Run(w, steps).config == w.config
    decreases |steps|
  {
    hide Apply;
    if steps != [] {
      StepFrame(w, steps[0]);
      ConfigStays(Apply(w, steps[0]), steps[1..]);
    }
  }

  /** After a successful star the same user's next one is refused, whatever happens in between. */
  lemma NoSecondStar(w: World, s: Step, steps: seq<Step>, again: Step)
    requires s.Star? && HandleStar(w, s).Ok? && again.Star? && again.user == s.user
    ensures HandleStar(Run(Apply(w, s), steps), again).Err?
  {
    StarIsRecorded(w, s);
    assert s.user in Apply(w, s).starred by {
      hide HandleStar;
    }
    hide Run, Apply, HandleStar;
    RunKeepsStars(Apply(w, s), steps);
    StarSucceedsIff(Run(Apply(w, s), steps), again);
  }

  /**
   In every reachable state, so, a user other than the creator who has not starred yet needs only the price
   and the room for it.
   */
  lemma StarsSucceedIff(w: World, s: Step)
    requires Reached(w) && s.Star?
    ensures HandleStar(w, s).Ok? <==>
      && s.user != w.config.creator && s.user !in w.starred
      && CanPay(w.funds, PurseOf(s.user, s.route), 20_000_000)
      && w.treasury.lamports + 20_000_000 <= U64_MAX && w.treasury.stars < U64_MAX
      && (0 < Pot(w.treasury) ==> Get(w.funds.wallets, w.config.creator) + Pot(w.treasury) <= U64_MAX)
  {
    hide Reached, HandleStar, CanPay, LoanBook.BookSound, RewardProperties.PoolSound, CurveProperties.SupplyKept;
    EveryReachedStateIsSound(w);
    StarSucceedsIff(w, s);
  }
}
