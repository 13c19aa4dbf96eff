/** Buying in pieces: what it changes on the curve, and what it changes in the fees. */
module OrderSplitting {
  import opened Base
  import opened Constants
  import opened TorchMath
  import opened Accounts
  import opened BondingCurve
  import FloorDivision

  // ---------- On the curve alone ----------

  /** Tokens from buying with each of the pieces in turn, on the curve alone. */
  function SplitPurchase(vtok: u64, vsol: u64, pieces: seq<nat>): (tokens: nat)
    requires 0 < vsol
    requires vsol + SumSeq(pieces) <= U64_MAX
    ensures tokens <= vtok
    decreases |pieces|
  {
    if pieces == [] then 0
    else
      var out := CalcTokensOut(vtok, vsol, pieces[0]).value;
      out + SplitPurchase(vtok - out, vsol + pieces[0], pieces[1..])
  }

  function SumSeq(xs: seq<nat>): nat {
    if xs == [] then 0 else xs[0] + SumSeq(xs[1..])
  }

  /** The product after n pieces exceeds the product before by less than n times the final SOL. */
  lemma {:induction false} SplitProduct(vtok: u64, vsol: u64, pieces: seq<nat>)
    requires 0 < vsol && vsol + SumSeq(pieces) <= U64_MAX
    ensures var left := vtok - SplitPurchase(vtok, vsol, pieces);
      vsol * vtok <= (vsol + SumSeq(pieces)) * left <= vsol * vtok + |pieces| * (vsol + SumSeq(pieces) - 1)
    decreases |pieces|
  {
    hide TorchMath.CalcTokensOut;
    if pieces != [] {
      var out := CalcTokensOut(vtok, vsol, pieces[0]).value;
      var end, left := vsol + SumSeq(pieces), vtok - SplitPurchase(vtok, vsol, pieces);
      assert SplitPurchase(vtok, vsol, pieces) == out + SplitPurchase(vtok - out, vsol + pieces[0], pieces[1..]);
      OnePiece(vtok, vsol, pieces[0]);
      SplitProduct(vtok - out, vsol + pieces[0], pieces[1..]);
      hide SplitPurchase, SumSeq;
      OneMore(vsol * vtok, (vsol + pieces[0]) * (vtok - out), end * left, |pieces[1..]|, vsol + pieces[0], end);
    }
  }

  lemma OneMore(first: nat, next: nat, last: nat, n: nat, mid: nat, end: nat)
    requires 0 < mid <= end
    requires first <= next <= first + mid - 1 && next <= last <= next + n * (end - 1)
    ensures first <= last <= first + (n + 1) * (end - 1)
  {
    assert (n + 1) * (end - 1) == n * (end - 1) + (end - 1);
  }

  lemma OnePiece(vtok: u64, vsol: u64, sol: u64)
    requires 0 < vsol && vsol + sol <= U64_MAX
    ensures var out := CalcTokensOut(vtok, vsol, sol).value;
      vsol * vtok <= (vsol + sol) * (vtok - out) <= vsol * vtok + vsol + sol - 1
  {
    var out := CalcTokensOut(vtok, vsol, sol).value;
    FloorDivision.NonNegative(vtok, sol);
    FloorDivision.Bounds(vtok * sol, vsol + sol);
    assert (vsol + sol) * (vtok - out) == vsol * vtok + vtok * sol - out * (vsol + sol);
  }

  /**
   Buying with n pieces instead of their sum yields at most as many tokens, and at most n - 1
   base units fewer.
   */
  lemma SplittingGainsNothing(vtok: u64, vsol: u64, pieces: seq<nat>)
    requires 0 < vsol && vsol + SumSeq(pieces) <= U64_MAX && pieces != []
    ensures var whole := CalcTokensOut(vtok, vsol, SumSeq(pieces)).value;
      SplitPurchase(vtok, vsol, pieces) <= whole <= SplitPurchase(vtok, vsol, pieces) + |pieces| - 1
  {
    SplitProduct(vtok, vsol, pieces);
    OnePiece(vtok, vsol, SumSeq(pieces));
    hide TorchMath.CalcTokensOut, SplitPurchase;
    var split, whole := SplitPurchase(vtok, vsol, pieces), CalcTokensOut(vtok, vsol, SumSeq(pieces)).value;
    NearestQuotients(vsol * vtok, vsol + SumSeq(pieces), vtok - split, vtok - whole, |pieces|);
  }

  /** Two quotients of one product, one exact and one off by at most n roundings. */
  lemma NearestQuotients(product: nat, end: nat, split: int, whole: int, n: nat)
    requires 0 < end
    requires product <= end * split <= product + n * (end - 1)
    requires product <= end * whole <= product + end - 1
    ensures whole <= split && (0 < n ==> split <= whole + n - 1)
  {
    if split < whole {
      FloorDivision.MulLe(split + 1, whole, end);
    }
    assert n * (end - 1) == n * end - n;
    if 0 < n && whole + n <= split {
      FloorDivision.MulLe(whole + n, split, end);
    }
  }

  // ---------- With the fees ----------

  /** What is left of a payment after the protocol fee. */
  function AfterFees(sol: nat): (r: nat)
    ensures r <= sol
  {
    sol - sol * PROTOCOL_FEE_BPS / 10_000
  }

  /** The treasury's rate, in basis points. */
  function Rate(rsol: u64, target: u64): (r: nat)
    requires 0 < target
    ensures 250 <= r <= 1750
  {
    CalcTreasuryRateBps(rsol, target).value
  }

  function KeptAt(amount: nat, rate: nat): (r: nat)
    requires rate <= 10_000
    ensures r <= amount
  {
    FloorDivision.Share(amount, rate, 10_000);
    amount - amount * rate / 10_000
  }

  /** The part of a payment that reaches the curve. */
  function Kept(rsol: u64, target: u64, sol: nat): (r: nat)
    requires 0 < target
    ensures r <= sol
  {
    KeptAt(AfterFees(sol), Rate(rsol, target))
  }

  /** The parts that reach the curve when the pieces are paid in turn. */
  function KeptParts(rsol: u64, target: u64, sols: seq<nat>): (parts: seq<nat>)
    requires 0 < target && rsol + SumSeq(sols) <= U64_MAX
    ensures |parts| == |sols| && SumSeq(parts) <= SumSeq(sols)
    decreases |sols|
  {
    if sols == [] then []
    else
      var first := Kept(rsol, target, sols[0]);
      [first] + KeptParts(rsol + first, target, sols[1..])
  }

  lemma KeptIsQuoted(c: Curve, community: bool, sol: u64)
    requires QuoteBuy(c, community, sol).Ok?
    ensures QuoteBuy(c, community, sol).value.toCurve == Kept(c.rsol, ResolvedTarget(c.target), sol)
  {
    hide TorchMath.CalcTreasuryRateBps, TorchMath.CalcCreatorRateBps, TorchMath.CalcTokensOut;
  }

  /** Buys of the given amounts, one after the other, and the tokens they deliver together. */
  function InTurn(c: Curve, community: bool, sols: seq<u64>): Result<nat>
    decreases |sols|
  {
    if sols == [] then Ok(0)
    else
      var _ :- Require(!c.complete, BondingComplete);
      var q :- QuoteBuy(c, community, sols[0]);
      var next :- AfterBuy(c, q.toCurve, q.tokensOut, c.lastActivity);
      var rest :- InTurn(next, community, sols[1..]);
      Ok(q.tokensOut + rest)
  }

  lemma {:induction false} InTurnIsSplit(c: Curve, community: bool, sols: seq<u64>)
    requires 0 < c.vsol && c.vsol + SumSeq(sols) <= U64_MAX && c.rsol + SumSeq(sols) <= U64_MAX
    requires InTurn(c, community, sols).Ok?
    ensures InTurn(c, community, sols).value
         == SplitPurchase(c.vtok, c.vsol, KeptParts(c.rsol, ResolvedTarget(c.target), sols))
    decreases |sols|
  {
    hide QuoteBuy, Kept, AfterBuy, ResolvedTarget, TorchMath.CalcTokensOut;
    if sols != [] {
      KeptIsQuoted(c, community, sols[0]);
      QuotedTokens(c, community, sols[0]);
      var q := QuoteBuy(c, community, sols[0]).value;
      var next := NextCurve(c, q.toCurve, q.tokensOut);
      InTurnIsSplit(next, community, sols[1..]);
      var rest := KeptParts(next.rsol, ResolvedTarget(c.target), sols[1..]);
      assert KeptParts(c.rsol, ResolvedTarget(c.target), sols) == [q.toCurve] + rest;
      assert ([q.toCurve] + rest)[1..] == rest;
    }
  }

  lemma NextCurve(c: Curve, sol: u64, tokens: u64) returns (next: Curve)
    requires AfterBuy(c, sol, tokens, c.lastActivity).Ok?
    ensures AfterBuy(c, sol, tokens, c.lastActivity) == Ok(next)
    ensures next.vsol == c.vsol + sol && next.vtok == c.vtok - tokens && next.rsol == c.rsol + sol
      && next.target == c.target
  {
    next := AfterBuy(c, sol, tokens, c.lastActivity).value;
  }

  // ---------- The treasury's rate falls between the pieces ----------

  /** How far the rate has fallen from its start. */
  function Decay(rsol: nat, target: u64): (r: nat)
    requires 0 < target
  {
    FloorDivision.Bounds(rsol * 1500, target);
    rsol * 1500 / target
  }

  lemma RateFromDecay(rsol: u64, target: u64)
    requires 0 < target
    ensures Rate(rsol, target) == Max(1750 - Decay(rsol, target), 250)
  {
  }

  /** The rate never rises, and falls by at most its slope, to within a basis point. */
  lemma RateFalls(rsol: u64, more: u64, target: u64)
    requires 0 < target && rsol <= more
    ensures Rate(more, target) <= Rate(rsol, target) <= Rate(more, target) + Decay(more - rsol, target) + 1
  {
    RateFromDecay(rsol, target);
    RateFromDecay(more, target);
    FloorDivision.SumOfFloors(rsol * 1500, (more - rsol) * 1500, target);
    assert Decay(rsol, target) + Decay(more - rsol, target) <= Decay(more, target)
        <= Decay(rsol, target) + Decay(more - rsol, target) + 1;
    hide Rate, Decay;
  }

  /** More is kept at a lower rate, and more of a larger amount. */
  lemma KeptMore(a: nat, b: nat, low: nat, high: nat)
    requires a <= b && low <= high <= 10_000
    ensures KeptAt(a, high) <= KeptAt(b, low)
  {
    FloorDivision.MulLe(low, high, b);
    FloorDivision.MulLe(high, 10_000, b - a);
    assert b * high == a * high + (b - a) * high;
    FloorDivision.NonNegative(a, high);
    FloorDivision.NonNegative(b, low);
  }

  /** Floors of two pieces against the floor of both: keeping in pieces loses nothing and gains at most a lamport. */
  lemma KeptInTwo(a: nat, b: nat, rate: nat)
    requires rate <= 10_000
    ensures KeptAt(a + b, rate) <= KeptAt(a, rate) + KeptAt(b, rate) <= KeptAt(a + b, rate) + 1
  {
    FloorDivision.NonNegative(a, rate);
    FloorDivision.NonNegative(b, rate);
    assert (a + b) * rate == a * rate + b * rate;
    FloorDivision.SumOfFloors(a * rate, b * rate, 10_000);
  }

  lemma AfterFeesInTwo(a: nat, b: nat)
    ensures AfterFees(a + b) <= AfterFees(a) + AfterFees(b) <= AfterFees(a + b) + 1
  {
    FloorDivision.SumOfFloors(a * PROTOCOL_FEE_BPS, b * PROTOCOL_FEE_BPS, 10_000);
  }

  lemma OneUnitMore(a: nat, rate: nat)
    requires rate <= 10_000
    ensures KeptAt(a + 1, rate) <= KeptAt(a, rate) + 1
  {
    FloorDivision.NonNegative(a, rate);
    assert (a + 1) * rate == a * rate + rate;
    FloorDivision.Monotone(a * rate, a * rate + rate, 10_000);
  }

  /** In pieces at least as much is kept as at once at the first piece's rate, or a higher one. */
  lemma {:induction false} PiecesKeepAtLeast(rsol: u64, target: u64, sols: seq<nat>, high: nat)
    requires 0 < target && rsol + SumSeq(sols) <= U64_MAX && Rate(rsol, target) <= high <= 10_000
    ensures KeptAt(AfterFees(SumSeq(sols)), high) <= SumSeq(KeptParts(rsol, target, sols))
    decreases |sols|
  {
    hide Rate, KeptAt, AfterFees;
    if sols != [] {
      var s, rest, first := sols[0], sols[1..], Kept(rsol, target, sols[0]);
      RateFalls(rsol, rsol + first, target);
      PiecesKeepAtLeast(rsol + first, target, rest, high);
      KeptMore(AfterFees(s), AfterFees(s), Rate(rsol, target), high);
      KeptInTwo(AfterFees(s), AfterFees(SumSeq(rest)), high);
      AfterFeesInTwo(s, SumSeq(rest));
      KeptMore(AfterFees(SumSeq(sols)), AfterFees(s) + AfterFees(SumSeq(rest)), high, high);
      SumOfParts(first, KeptParts(rsol + first, target, rest));
    } else {
      NothingKept(high);
    }
  }

  lemma SumOfParts(first: nat, rest: seq<nat>)
    ensures SumSeq([first] + rest) == first + SumSeq(rest)
  {
    assert ([first] + rest)[1..] == rest;
  }

  lemma NothingKept(rate: nat)
    requires rate <= 10_000
    ensures AfterFees(0) == KeptAt(0, rate) == 0
  {
  }

  /** And at most as much as at once at the last rate reached, but for two roundings a cut. */
  lemma {:induction false} PiecesKeepAtMost(rsol: u64, target: u64, sols: seq<nat>, low: nat)
    requires 0 < target && rsol + SumSeq(sols) <= U64_MAX && low <= Rate(rsol + SumSeq(sols), target) && sols != []
    ensures SumSeq(KeptParts(rsol, target, sols)) <= KeptAt(AfterFees(SumSeq(sols)), low) + 2 * (|sols| - 1)
    decreases |sols|
  {
    hide Rate, KeptAt, AfterFees;
    var s, rest, first := sols[0], sols[1..], Kept(rsol, target, sols[0]);
    RateFalls(rsol, rsol + SumSeq(sols), target);
    KeptMore(AfterFees(s), AfterFees(s), low, Rate(rsol, target));
    SumOfParts(first, KeptParts(rsol + first, target, rest));
    if rest != [] {
      RateFalls(rsol + first + SumSeq(rest), rsol + SumSeq(sols), target);
      PiecesKeepAtMost(rsol + first, target, rest, low);
      KeptInTwo(AfterFees(s), AfterFees(SumSeq(rest)), low);
      AfterFeesInTwo(s, SumSeq(rest));
      KeptMore(AfterFees(s) + AfterFees(SumSeq(rest)), AfterFees(SumSeq(sols)) + 1, low, low);
      OneUnitMore(AfterFees(SumSeq(sols)), low);
    }
  }

  /** What a fall of the rate by at most `fall` is worth on an amount of at most `total`. */
  lemma RateGap(amount: nat, low: nat, high: nat, total: nat, fall: nat)
    requires low <= high <= 10_000 && high - low <= fall && amount <= total
    ensures 10_000 * (KeptAt(amount, low) - KeptAt(amount, high)) <= total * fall + 10_000
  {
    FloorDivision.MulLe(high - low, fall, amount);
    FloorDivision.MulLe(amount, total, fall);
    FloorDivision.NonNegative(amount, low);
    FloorDivision.NonNegative(amount, high);
    assert amount * high == amount * low + amount * (high - low);
    FloorDivision.Bounds(amount * high, 10_000);
    FloorDivision.Bounds(amount * low, 10_000);
  }

  /**
   Paid in n pieces, a purchase never brings the curve fewer lamports than paid at once, and at most
   those the fall of the treasury's rate on the way is worth, but for two roundings a piece.
   */
  lemma SplitPaymentKeeps(rsol: u64, target: u64, sols: seq<nat>)
    requires 0 < target && rsol + SumSeq(sols) <= U64_MAX && sols != []
    ensures var whole, split, total := Kept(rsol, target, SumSeq(sols)), SumSeq(KeptParts(rsol, target, sols)),
      SumSeq(sols);
      && whole <= split
      && 10_000 * (split - whole) <= total * (Decay(total, target) + 1) + 20_000 * |sols| - 10_000
  {
    hide Rate, KeptAt, AfterFees, Decay;
    var total, high, low := SumSeq(sols), Rate(rsol, target), Rate(rsol + SumSeq(sols), target);
    PiecesKeepAtLeast(rsol, target, sols, high);
    PiecesKeepAtMost(rsol, target, sols, low);
    RateFalls(rsol, rsol + total, target);
    RateGap(AfterFees(total), low, high, total, Decay(total, target) + 1);
  }

  /**
   So n buys in turn deliver at most n - 1 base units fewer than one buy of their sum, and at most
   what that buy would deliver if the gained lamports were added to its part for the curve.
   */
  lemma SplittingABuy(c: Curve, community: bool, sols: seq<u64>)
    requires sols != [] && 0 < c.vsol && c.vsol + SumSeq(sols) <= U64_MAX && c.rsol + SumSeq(sols) <= U64_MAX
    requires InTurn(c, community, sols).Ok? && QuoteBuy(c, community, SumSeq(sols)).Ok?
    ensures var target, total, split := ResolvedTarget(c.target), SumSeq(sols), InTurn(c, community, sols).value;
      var q := QuoteBuy(c, community, total).value;
      var gain := SumSeq(KeptParts(c.rsol, target, sols)) - q.toCurve;
      && 0 <= gain && 10_000 * gain <= total * (Decay(total, target) + 1) + 20_000 * |sols| - 10_000
      && q.tokensOut - (|sols| - 1) <= split
      && split <= CalcTokensOut(c.vtok, c.vsol, q.toCurve + gain).value
  {
    hide QuoteBuy, InTurn, Kept, Decay, SplitPurchase, TorchMath.CalcTokensOut;
    var target, total := ResolvedTarget(c.target), SumSeq(sols);
    var parts := KeptParts(c.rsol, target, sols);
    KeptIsQuoted(c, community, total);
    QuotedTokens(c, community, total);
    SplitPaymentKeeps(c.rsol, target, sols);
    InTurnIsSplit(c, community, sols);
    SplittingGainsNothing(c.vtok, c.vsol, parts);
    MoreTokensForMore(c.vtok, c.vsol, QuoteBuy(c, community, total).value.toCurve, SumSeq(parts));
  }

  lemma MoreTokensForMore(vtok: u64, vsol: u64, a: u64, b: u64)
    requires a <= b && 0 < vsol
    ensures CalcTokensOut(vtok, vsol, a).value <= CalcTokensOut(vtok, vsol, b).value
  {
    SwapIsMonotone(vtok, vsol, a, b);
  }
}
