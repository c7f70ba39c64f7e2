/**
  The card counter: a running count and a count of cards seen for one shoe,
  updated card by card, and everything derived from them — decks remaining,
  true count, player advantage, Kelly-based bet advice, count-based index
  plays, statistics and the wong-out signal.  Python floats are modelled as
  exact reals.
*/
module Counting {
  import opened Options
  import opened Ranks
  import Strategy

  datatype CountingSystem = HiLo | KO | OmegaII | Halves

  /** The enum value the source reports for a system. */
  function SystemValue(s: CountingSystem): string
  {
    match s
    case HiLo => "hi_lo"
    case KO => "ko"
    case OmegaII => "omega_ii"
    case Halves => "halves"
  }

  /**
    CardCounter.SYSTEMS: the weight each system gives each rank string.
  */
  function Weights(s: CountingSystem): map<string, real>
  {
    match s
    case HiLo =>
      map["2" := 1.0, "3" := 1.0, "4" := 1.0, "5" := 1.0, "6" := 1.0,
          "7" := 0.0, "8" := 0.0, "9" := 0.0,
          "10" := -1.0, "J" := -1.0, "Q" := -1.0, "K" := -1.0, "A" := -1.0]
    case KO =>
      map["2" := 1.0, "3" := 1.0, "4" := 1.0, "5" := 1.0, "6" := 1.0, "7" := 1.0,
          "8" := 0.0, "9" := 0.0,
          "10" := -1.0, "J" := -1.0, "Q" := -1.0, "K" := -1.0, "A" := -1.0]
    case OmegaII =>
      map["2" := 1.0, "3" := 1.0, "4" := 2.0, "5" := 2.0, "6" := 2.0, "7" := 1.0,
          "8" := 0.0, "9" := -1.0,
          "10" := -2.0, "J" := -2.0, "Q" := -2.0, "K" := -2.0, "A" := 0.0]
    case Halves =>
      map["2" := 0.5, "3" := 1.0, "4" := 1.0, "5" := 1.5, "6" := 1.0,
          "7" := 0.5, "8" := 0.0, "9" := -0.5,
          "10" := -1.0, "J" := -1.0, "Q" := -1.0, "K" := -1.0, "A" := -1.0]
  }

  /** Every system weighs exactly the thirteen rank strings, and J, Q, K like 10. */
  lemma WeightsCoverRanks(s: CountingSystem, card: string)
    ensures card in Weights(s) <==> card in RankSymbols
    ensures Weights(s)["J"] == Weights(s)["Q"] == Weights(s)["K"] == Weights(s)["10"]
  {
  }

  /** One card of each of the thirteen ranks. */
  const OneSuit: seq<string> := ["A", "2", "3", "4", "5", "6", "7", "8", "9", "10", "J", "Q", "K"]

  /**
    Hi-Lo, Omega II and Halves are balanced: a full suit, and so a full shoe,
    counts to 0.  KO is unbalanced and counts 1 per suit.
  */
  lemma BalancedSystems(s: CountingSystem)
    ensures WeightSum(Weights(s), OneSuit) == (if s == KO then 1.0 else 0.0)
    ensures KnownCount(Weights(s), OneSuit) == 13
  {
    var w := Weights(s);
    assert forall c :: c in OneSuit ==> c in RankSymbols;
    assert forall c :: c in RankSymbols ==> c in w;
    SuitSum(w);
  }

  /** A suit whose cards are all known adds up card by card. */
  lemma SuitSum(w: map<string, real>)
    requires forall c :: c in OneSuit ==> c in w
    ensures KnownCount(w, OneSuit) == 13
    ensures WeightSum(w, OneSuit)
            == w["A"] + w["2"] + w["3"] + w["4"] + w["5"] + w["6"] + w["7"] + w["8"] + w["9"]
               + w["10"] + w["J"] + w["Q"] + w["K"]
  {
    var t := OneSuit;
    var k := 13;
    assert t[13..] == [];
    while k > 0
      invariant 0 <= k <= 13
      invariant KnownCount(w, t[k..]) == 13 - k
      invariant WeightSum(w, t[k..]) == SuffixWeight(w, k)
    {
      assert t[k - 1..][1..] == t[k..];
      k := k - 1;
    }
    assert t[0..] == t;
  }

  /** The weights of the last 13 - k cards of OneSuit, written out. */
  function SuffixWeight(w: map<string, real>, k: nat): real
    requires forall c :: c in OneSuit ==> c in w
    decreases 13 - k
  {
    if k >= 13 then 0.0 else w[OneSuit[k]] + SuffixWeight(w, k + 1)
  }

  // ---------------------------------------------------------------------
  // Counting cards
  // ---------------------------------------------------------------------

  /** The mutable part of a counter: running count and cards seen. */
  datatype Tally = Tally(runningCount: real, cardsSeen: nat)

  /** One count_card: a known card adds its weight and one card; others change nothing. */
  function Step(values: map<string, real>, t: Tally, card: string): Tally
  {
    if card in values then Tally(t.runningCount + values[card], t.cardsSeen + 1) else t
  }

  /**
    A single count changes cards seen by one exactly for a known card, and an
    unknown string leaves the tally as it was.
  */
  lemma StepCountsKnownCards(values: map<string, real>, t: Tally, card: string)
    ensures Step(values, t, card).cardsSeen == t.cardsSeen + 1 <==> card in values
    ensures card !in values ==> Step(values, t, card) == t
    ensures card in values ==> Step(values, t, card).runningCount == t.runningCount + values[card]
  {
  }

  /** count_card applied to each card in turn. */
  function Fold(values: map<string, real>, t: Tally, cards: seq<string>): Tally
  {
    if cards == [] then t
    else Step(values, Fold(values, t, cards[..|cards| - 1]), cards[|cards| - 1])
  }

  /** Independent reading: the summed weight of the known cards ... */
  function WeightSum(values: map<string, real>, cards: seq<string>): real
  {
    if cards == [] then 0.0
    else (if cards[0] in values then values[cards[0]] else 0.0) + WeightSum(values, cards[1..])
  }

  /** ... and how many of the cards are known. */
  function KnownCount(values: map<string, real>, cards: seq<string>): nat
  {
    if cards == [] then 0
    else (if cards[0] in values then 1 else 0) + KnownCount(values, cards[1..])
  }

  lemma {:induction false} SumsSnoc(values: map<string, real>, cards: seq<string>, c: string)
    ensures WeightSum(values, cards + [c])
            == WeightSum(values, cards) + (if c in values then values[c] else 0.0)
    ensures KnownCount(values, cards + [c])
            == KnownCount(values, cards) + (if c in values then 1 else 0)
  {
    if cards != [] {
      assert (cards + [c])[1..] == cards[1..] + [c];
      SumsSnoc(values, cards[1..], c);
    }
  }

  /**
    Counting a list adds the summed weight of its known cards to the running
    count and the number of known cards to cards seen; unknown strings are
    skipped.
  */
  lemma {:induction false} FoldClosedForm(values: map<string, real>, t: Tally, cards: seq<string>)
    ensures Fold(values, t, cards)
            == Tally(t.runningCount + WeightSum(values, cards), t.cardsSeen + KnownCount(values, cards))
  {
    if cards != [] {
      var init, last := cards[..|cards| - 1], cards[|cards| - 1];
      FoldClosedForm(values, t, init);
      assert init + [last] == cards;
      SumsSnoc(values, init, last);
    }
  }

  /** Counting two lists one after the other is counting their concatenation. */
  lemma {:induction false} FoldAppend(values: map<string, real>, t: Tally, a: seq<string>, b: seq<string>)
    ensures Fold(values, t, a + b) == Fold(values, Fold(values, t, a), b)
  {
    if b != [] {
      assert (a + b)[..|a + b| - 1] == a + b[..|b| - 1];
      assert (a + b)[|a + b| - 1] == b[|b| - 1];
      FoldAppend(values, t, a, b[..|b| - 1]);
    } else {
      assert a + b == a;
    }
  }

  /** The 20 cards of the worked Hi-Lo example, in four groups of five. */
  const ExampleCards0: seq<string> := ["K", "5", "10", "6", "2"]
  const ExampleCards1: seq<string> := ["A", "7", "9", "4", "3"]
  const ExampleCards2: seq<string> := ["Q", "8", "5", "10", "J"]
  const ExampleCards3: seq<string> := ["6", "2", "3", "K", "A"]
  const ExampleShoe: seq<string> := ExampleCards0 + ExampleCards1 + ExampleCards2 + ExampleCards3

  /** Under Hi-Lo those 20 cards give a running count of 1 from a fresh count. */
  lemma ExampleShoeCount()
    ensures Fold(Weights(HiLo), Tally(0.0, 0), ExampleShoe) == Tally(1.0, 20)
  {
    FoldFour(Weights(HiLo), Tally(0.0, 0), ExampleCards0, ExampleCards1, ExampleCards2, ExampleCards3);
    HiLoChunk(Tally(0.0, 0), ExampleCards0, 1.0);
    HiLoChunk(Tally(1.0, 5), ExampleCards1, 1.0);
    HiLoChunk(Tally(2.0, 10), ExampleCards2, -2.0);
    HiLoChunk(Tally(0.0, 15), ExampleCards3, 1.0);
  }

  /** Counting four lists in a row is counting their concatenation. */
  lemma FoldFour(values: map<string, real>, t: Tally, a: seq<string>, b: seq<string>,
                 c: seq<string>, d: seq<string>)
    ensures Fold(values, t, a + b + c + d)
            == Fold(values, Fold(values, Fold(values, Fold(values, t, a), b), c), d)
  {
    FoldAppend(values, t, a, b);
    FoldAppend(values, t, a + b, c);
    FoldAppend(values, t, a + b + c, d);
  }

  /** Counting five known Hi-Lo cards adds their weights and five cards. */
  lemma HiLoChunk(t: Tally, cards: seq<string>, sum: real)
    requires |cards| == 5 && forall i :: 0 <= i < 5 ==> cards[i] in Weights(HiLo)
    requires sum == Weights(HiLo)[cards[0]] + Weights(HiLo)[cards[1]] + Weights(HiLo)[cards[2]]
                    + Weights(HiLo)[cards[3]] + Weights(HiLo)[cards[4]]
    ensures Fold(Weights(HiLo), t, cards) == Tally(t.runningCount + sum, t.cardsSeen + 5)
  {
    var values := Weights(HiLo);
    FoldClosedForm(values, t, cards);
    assert cards[4..][1..] == [];
    assert WeightSum(values, cards[4..]) == values[cards[4]];
    assert KnownCount(values, cards[4..]) == 1;
    assert cards[3..][1..] == cards[4..];
    assert WeightSum(values, cards[3..]) == values[cards[3]] + values[cards[4]];
    assert KnownCount(values, cards[3..]) == 2;
    assert cards[2..][1..] == cards[3..];
    assert WeightSum(values, cards[2..]) == values[cards[2]] + values[cards[3]] + values[cards[4]];
    assert KnownCount(values, cards[2..]) == 3;
    assert cards[1..][1..] == cards[2..];
    assert KnownCount(values, cards[1..]) == 4;
    assert cards[0..] == cards;
  }

  // ---------------------------------------------------------------------
  // Derived quantities as functions of the true count
  // ---------------------------------------------------------------------

  const HouseEdge: real := 0.005
  const AdvantagePerCount: real := 0.005
  /** The fixed bet variance of the Kelly formula. */
  const Variance: real := 1.3

  /** The linear advantage model: 0.5% per true-count point less a 0.5% house edge. */
  function AdvantageOf(tc: real): (a: real)
    ensures a <= 0.0 <==> tc <= 1.0
    ensures a == (tc - 1.0) / 200.0
  {
    tc * AdvantagePerCount - HouseEdge
  }

  lemma AdvantageMonotone(tc1: real, tc2: real)
    requires tc1 <= tc2
    ensures AdvantageOf(tc1) <= AdvantageOf(tc2)
  {
  }

  /** Python's round(): to the nearest integer, halves to the even neighbour. */
  function RoundHalfEven(x: real): (n: int)
    ensures -0.5 <= n as real - x <= 0.5
    ensures (n as real - x == 0.5 || x - n as real == 0.5) ==> n % 2 == 0
  {
    var f := x.Floor;
    var d := x - f as real;
    if d < 0.5 then f
    else if d > 0.5 then f + 1
    else if f % 2 == 0 then f
    else f + 1
  }

  /** The two properties of RoundHalfEven single out its result. */
  lemma RoundHalfEvenUnique(x: real, m: int)
    requires -0.5 <= m as real - x <= 0.5
    requires (m as real - x == 0.5 || x - m as real == 0.5) ==> m % 2 == 0
    ensures m == RoundHalfEven(x)
  {
  }

  lemma RoundHalfEvenMonotone(x: real, y: real)
    requires x <= y
    ensures RoundHalfEven(x) <= RoundHalfEven(y)
  {
  }

  /** Dividing by at least one keeps the sign and does not grow the magnitude. */
  lemma QuotientBounds(x: real, d: real)
    requires d >= 1.0
    ensures (x / d) * d == x
    ensures x >= 0.0 ==> 0.0 <= x / d <= x
    ensures x <= 0.0 ==> x <= x / d <= 0.0
  {
    var q := x / d;
    assert q * d == x;
    if q > 0.0 {
      assert q * d >= q * 1.0;
    } else if q < 0.0 {
      assert q * d <= q * 1.0;
    }
  }

  function Max(a: int, b: int): int
  {
    if a >= b then a else b
  }

  function RealMin(a: real, b: real): real
  {
    if a <= b then a else b
  }

  datatype BetAction = BetMin | BetSmall | BetMedium | BetLarge

  /** The numeric part of the betting advice; the reason text is left out. */
  datatype BetAdvice = BetAdvice(bet: real, units: int, trueCount: real,
                                 advantage: real, action: BetAction)

  /** The fractional Kelly stake: bankroll times advantage over variance times the fraction. */
  function KellyBet(tc: real, bankroll: real, kellyFraction: real): real
  {
    bankroll * (AdvantageOf(tc) / Variance) * kellyFraction
  }

  /** The Kelly stake in whole minimum-bet units, at least one. */
  function KellyUnits(tc: real, minBet: real, bankroll: real, kellyFraction: real): (k: int)
    requires minBet != 0.0
    ensures k >= 1
  {
    Max(1, RoundHalfEven(KellyBet(tc, bankroll, kellyFraction) / minBet))
  }

  /**
    CardCounter.get_betting_advice at true count tc.  None stands for the
    division by a zero minimum bet that the source raises once it has an
    advantage.
  */
  function Advise(tc: real, minBet: real, maxBet: real, bankroll: real, kellyFraction: real)
    : (r: Option<BetAdvice>)
    ensures r.None? <==> AdvantageOf(tc) > 0.0 && minBet == 0.0
    ensures r.Some? ==> r.value.trueCount == tc && r.value.advantage == AdvantageOf(tc) * 100.0
    ensures r.Some? ==> (r.value.action == BetMin <==> tc <= 1.0)
    ensures r.Some? && tc <= 1.0 ==> r.value.bet == minBet && r.value.units == 1
  {
    var advantage := AdvantageOf(tc);
    if advantage <= 0.0 then
      Some(BetAdvice(minBet, 1, tc, advantage * 100.0, BetMin))
    else if minBet == 0.0 then
      None
    else
      var units := KellyUnits(tc, minBet, bankroll, kellyFraction);
      var recommended := RealMin(units as real * minBet, maxBet);
      if tc < 1.0 then
        Some(BetAdvice(minBet, 1, tc, advantage * 100.0, BetMin))
      else if tc >= 1.0 && tc < 2.0 then
        var u := Strategy.Min(2, units);
        Some(BetAdvice(u as real * minBet, u, tc, advantage * 100.0, BetSmall))
      else if tc >= 2.0 && tc < 3.0 then
        var u := Strategy.Min(4, units);
        Some(BetAdvice(u as real * minBet, u, tc, advantage * 100.0, BetMedium))
      else if tc >= 3.0 then
        var b := RealMin(recommended, maxBet);
        Some(BetAdvice(b, RoundHalfEven(b / minBet), tc, advantage * 100.0, BetLarge))
      else
        Some(BetAdvice(minBet, 1, tc, advantage * 100.0, BetMin))
  }

  /**
    With an advantage the true count is above 1, so only three bands are
    reached; the small and medium bands cap the Kelly units at 2 and 4 and
    only the large band clamps the amount to the table maximum.
  */
  lemma AdviseBands(tc: real, minBet: real, maxBet: real, bankroll: real, kellyFraction: real)
    requires AdvantageOf(tc) > 0.0 && minBet != 0.0
    ensures var r := Advise(tc, minBet, maxBet, bankroll, kellyFraction);
            var k := KellyUnits(tc, minBet, bankroll, kellyFraction);
            && r.Some?
            && (tc < 2.0 ==>
                  && r.value.action == BetSmall && r.value.units == Strategy.Min(2, k)
                  && r.value.bet == r.value.units as real * minBet)
            && (2.0 <= tc < 3.0 ==>
                  && r.value.action == BetMedium && r.value.units == Strategy.Min(4, k)
                  && r.value.bet == r.value.units as real * minBet)
            && (3.0 <= tc ==>
                  && r.value.action == BetLarge
                  && r.value.bet == RealMin(k as real * minBet, maxBet)
                  && r.value.units == RoundHalfEven(r.value.bet / minBet))
  {
  }

  /** a <= b scaled by a non-negative factor stays ordered. */
  lemma ScaleMonotone(a: real, b: real, c: real)
    requires a <= b && c >= 0.0
    ensures a * c <= b * c
  {
  }

  lemma DivideMonotone(a: real, b: real, c: real)
    requires a <= b && c > 0.0
    ensures a / c <= b / c
  {
  }

  lemma KellyBetMonotone(tc1: real, tc2: real, bankroll: real, kellyFraction: real)
    requires tc1 <= tc2 && bankroll >= 0.0 && kellyFraction >= 0.0
    ensures KellyBet(tc1, bankroll, kellyFraction) <= KellyBet(tc2, bankroll, kellyFraction)
  {
    var a1, a2 := AdvantageOf(tc1) / Variance, AdvantageOf(tc2) / Variance;
    ScaleMonotone(a1, a2, bankroll);
    var b1, b2 := bankroll * a1, bankroll * a2;
    assert b1 <= b2;
    ScaleMonotone(b1, b2, kellyFraction);
  }

  lemma KellyUnitsMonotone(tc1: real, tc2: real, minBet: real, bankroll: real, kellyFraction: real)
    requires tc1 <= tc2 && minBet > 0.0 && bankroll >= 0.0 && kellyFraction >= 0.0
    ensures KellyUnits(tc1, minBet, bankroll, kellyFraction)
            <= KellyUnits(tc2, minBet, bankroll, kellyFraction)
  {
    KellyBetMonotone(tc1, tc2, bankroll, kellyFraction);
    DivideMonotone(KellyBet(tc1, bankroll, kellyFraction), KellyBet(tc2, bankroll, kellyFraction), minBet);
    RoundHalfEvenMonotone(KellyBet(tc1, bankroll, kellyFraction) / minBet,
                          KellyBet(tc2, bankroll, kellyFraction) / minBet);
  }

  /**
    With a table maximum of at least four minimum bets the advice always lies
    between the two limits, and it never decreases as the true count rises.
  */
  lemma AdviseWithinLimits(tc: real, minBet: real, maxBet: real, bankroll: real, kellyFraction: real)
    requires minBet > 0.0 && maxBet >= 4.0 * minBet
    ensures var r := Advise(tc, minBet, maxBet, bankroll, kellyFraction);
            r.Some? && minBet <= r.value.bet <= maxBet
  {
    if minBet != 0.0 {
      AdviseBet(tc, minBet, maxBet, bankroll, kellyFraction);
      if AdvantageOf(tc) > 0.0 {
        BandBetWithin(tc, KellyUnits(tc, minBet, bankroll, kellyFraction), minBet, maxBet);
      }
    }
  }

  /** The amount each band advises once there is an advantage, from the Kelly units k. */
  function BandBet(tc: real, k: int, minBet: real, maxBet: real): real
  {
    if tc < 2.0 then Strategy.Min(2, k) as real * minBet
    else if tc < 3.0 then Strategy.Min(4, k) as real * minBet
    else RealMin(k as real * minBet, maxBet)
  }

  lemma AdviseBet(tc: real, minBet: real, maxBet: real, bankroll: real, kellyFraction: real)
    requires minBet != 0.0
    ensures Advise(tc, minBet, maxBet, bankroll, kellyFraction).value.bet
            == if AdvantageOf(tc) <= 0.0 then minBet
               else BandBet(tc, KellyUnits(tc, minBet, bankroll, kellyFraction), minBet, maxBet)
  {
  }

  /** Kelly units capped as the small (2) and medium (4) bands cap them. */
  function CappedUnits(tc: real, k: int): int
  {
    if tc < 2.0 then Strategy.Min(2, k) else Strategy.Min(4, k)
  }

  lemma CappedUnitsMonotone(tc1: real, tc2: real, k1: int, k2: int)
    requires tc1 <= tc2 && k1 <= k2
    ensures CappedUnits(tc1, k1) <= CappedUnits(tc2, k2) && CappedUnits(tc1, k1) <= k2
    ensures CappedUnits(tc1, k1) <= 4
  {
  }

  /** Below the large band the amount is the capped units times the minimum bet. */
  lemma LowBandBet(tc: real, k: int, minBet: real, maxBet: real)
    requires tc < 3.0
    ensures BandBet(tc, k, minBet, maxBet) == CappedUnits(tc, k) as real * minBet
  {
  }

  lemma BandBetMonotone(tc1: real, tc2: real, k1: int, k2: int, minBet: real, maxBet: real)
    requires tc1 <= tc2 && 1 <= k1 <= k2 && minBet > 0.0 && maxBet >= 4.0 * minBet
    ensures BandBet(tc1, k1, minBet, maxBet) <= BandBet(tc2, k2, minBet, maxBet)
  {
    if tc2 < 3.0 {
      LowBandBet(tc1, k1, minBet, maxBet);
      LowBandBet(tc2, k2, minBet, maxBet);
      CappedUnitsMonotone(tc1, tc2, k1, k2);
      ScaleMonotone(CappedUnits(tc1, k1) as real, CappedUnits(tc2, k2) as real, minBet);
    } else if tc1 < 3.0 {
      LowToLargeBand(tc1, k1, k2, minBet, maxBet);
    } else {
      ScaleMonotone(k1 as real, k2 as real, minBet);
      ClampMonotone(k1 as real * minBet, k2 as real * minBet, maxBet);
    }
  }

  /** Any capped amount lies under both the large band's amount and a wide enough maximum. */
  lemma LowToLargeBand(tc: real, k1: int, k2: int, minBet: real, maxBet: real)
    requires tc < 3.0 && k1 <= k2 && minBet > 0.0 && maxBet >= 4.0 * minBet
    ensures BandBet(tc, k1, minBet, maxBet) <= RealMin(k2 as real * minBet, maxBet)
  {
    LowBandBet(tc, k1, minBet, maxBet);
    CappedUnitsMonotone(tc, tc, k1, k2);
    var u := CappedUnits(tc, k1) as real;
    ScaleMonotone(u, 4.0, minBet);
    ScaleMonotone(u, k2 as real, minBet);
    BelowClamp(u * minBet, k2 as real * minBet, maxBet);
  }

  lemma BelowClamp(x: real, y: real, maxBet: real)
    requires x <= y && x <= maxBet
    ensures x <= RealMin(y, maxBet)
  {
  }

  lemma ClampMonotone(x1: real, x2: real, maxBet: real)
    requires x1 <= x2
    ensures RealMin(x1, maxBet) <= RealMin(x2, maxBet)
  {
  }

  /** Each band's amount lies between the minimum bet and a wide enough maximum. */
  lemma BandBetWithin(tc: real, k: int, minBet: real, maxBet: real)
    requires 1 <= k && minBet > 0.0 && maxBet >= 4.0 * minBet
    ensures minBet <= BandBet(tc, k, minBet, maxBet) <= maxBet
  {
    ScaleMonotone(1.0, k as real, minBet);
    ScaleMonotone(1.0, Strategy.Min(2, k) as real, minBet);
    ScaleMonotone(1.0, Strategy.Min(4, k) as real, minBet);
    ScaleMonotone(Strategy.Min(2, k) as real, 4.0, minBet);
    ScaleMonotone(Strategy.Min(4, k) as real, 4.0, minBet);
  }

  lemma AdviseMonotone(tc1: real, tc2: real, minBet: real, maxBet: real,
                       bankroll: real, kellyFraction: real)
    requires tc1 <= tc2
    requires minBet > 0.0 && maxBet >= 4.0 * minBet && bankroll >= 0.0 && kellyFraction >= 0.0
    ensures Advise(tc1, minBet, maxBet, bankroll, kellyFraction).value.bet
            <= Advise(tc2, minBet, maxBet, bankroll, kellyFraction).value.bet
  {
    AdviseBet(tc1, minBet, maxBet, bankroll, kellyFraction);
    AdviseBet(tc2, minBet, maxBet, bankroll, kellyFraction);
    if AdvantageOf(tc1) <= 0.0 {
      AdviseWithinLimits(tc2, minBet, maxBet, bankroll, kellyFraction);
    } else {
      AdvantageMonotone(tc1, tc2);
      KellyUnitsMonotone(tc1, tc2, minBet, bankroll, kellyFraction);
      BandBetMonotone(tc1, tc2, KellyUnits(tc1, minBet, bankroll, kellyFraction),
                      KellyUnits(tc2, minBet, bankroll, kellyFraction), minBet, maxBet);
    }
  }

  /**
    The bounds need the wide table limit: with a maximum of 15 on a minimum of
    10, a true count of 1.5 already advises two units, 20, above the maximum.
  */
  lemma SmallBandIgnoresMaximum()
    ensures Advise(1.5, 10.0, 15.0, 100000.0, 1.0)
            == Some(BetAdvice(20.0, 2, 1.5, AdvantageOf(1.5) * 100.0, BetSmall))
  {
    assert 100000.0 * (AdvantageOf(1.5) / Variance) * 1.0 / 10.0 == 250.0 / 13.0;
    assert (250.0 / 13.0).Floor == 19;
  }

  /**
    In the large band the clamped amount need not be a whole number of units,
    and the unit count is rounded half to even: 25 on a minimum of 10 is 2 units.
  */
  lemma LargeBandRoundsUnitsHalfToEven()
    ensures Advise(3.0, 10.0, 25.0, 100000.0, 1.0)
            == Some(BetAdvice(25.0, 2, 3.0, AdvantageOf(3.0) * 100.0, BetLarge))
  {
    assert 100000.0 * (AdvantageOf(3.0) / Variance) * 1.0 / 10.0 == 1000.0 / 13.0;
    assert (1000.0 / 13.0).Floor == 76;
    assert (25.0 / 10.0).Floor == 2;
  }

  // ---------------------------------------------------------------------
  // Index plays
  // ---------------------------------------------------------------------

  /** The index plays, in the order the source checks them. */
  datatype Deviation =
    | StandSixteenVsTen
    | StandFifteenVsTen
    | SplitTensVsFiveOrSix
    | DoubleTenVsTenOrAce
    | StandTwelveVsTwoOrThree
    | DoubleNineVsTwo
    | StandSixteenVsNine
    | TakeInsurance

  /** The advice text of each play. */
  function Message(d: Deviation): string
  {
    match d
    case StandSixteenVsTen => "STAND on 16 vs 10 (TC >= 0)"
    case StandFifteenVsTen => "STAND on 15 vs 10 (TC >= 4)"
    case SplitTensVsFiveOrSix => "Consider SPLITTING 10,10 vs 5 or 6 (TC >= 5)"
    case DoubleTenVsTenOrAce => "DOUBLE 10 vs 10 or A (TC >= 4)"
    case StandTwelveVsTwoOrThree => "STAND on 12 vs 2 or 3 (TC >= 3)"
    case DoubleNineVsTwo => "DOUBLE 9 vs 2 (TC >= 1)"
    case StandSixteenVsNine => "STAND on 16 vs 9 (TC >= 5)"
    case TakeInsurance => "TAKE INSURANCE (TC >= 3)"
  }

  /** The texts of a list of plays, in the same order. */
  function Messages(ds: seq<Deviation>): (ms: seq<string>)
    ensures |ms| == |ds|
    ensures forall i :: 0 <= i < |ds| ==> ms[i] == Message(ds[i])
  {
    if ds == [] then [] else [Message(ds[0])] + Messages(ds[1..])
  }

  /** Each play has its own text, so a list of texts names its plays unambiguously. */
  lemma MessageInjective(d1: Deviation, d2: Deviation)
    ensures Message(d1) == Message(d2) ==> d1 == d2
  {
  }

  /** Position of each play in the source's list of checks. */
  function Order(d: Deviation): nat
  {
    match d
    case StandSixteenVsTen => 0
    case StandFifteenVsTen => 1
    case SplitTensVsFiveOrSix => 2
    case DoubleTenVsTenOrAce => 3
    case StandTwelveVsTwoOrThree => 4
    case DoubleNineVsTwo => 5
    case StandSixteenVsNine => 6
    case TakeInsurance => 7
  }

  /**
    When each play applies, rule by rule; the dealer card is compared as a
    string.  No play applies at a negative true count.
  */
  predicate Fires(d: Deviation, playerValue: int, dealerCard: string, tc: real)
    ensures Fires(d, playerValue, dealerCard, tc) ==> tc >= 0.0
  {
    match d
    case StandSixteenVsTen => playerValue == 16 && dealerCard == "10" && tc >= 0.0
    case StandFifteenVsTen => playerValue == 15 && dealerCard == "10" && tc >= 4.0
    case SplitTensVsFiveOrSix =>
      playerValue == 20 && (dealerCard == "5" || dealerCard == "6") && tc >= 5.0
    case DoubleTenVsTenOrAce =>
      playerValue == 10 && (dealerCard == "10" || dealerCard == "A") && tc >= 4.0
    case StandTwelveVsTwoOrThree =>
      playerValue == 12 && (dealerCard == "2" || dealerCard == "3") && tc >= 3.0
    case DoubleNineVsTwo => playerValue == 9 && dealerCard == "2" && tc >= 1.0
    case StandSixteenVsNine => playerValue == 16 && dealerCard == "9" && tc >= 5.0
    case TakeInsurance => dealerCard == "A" && tc >= 3.0
  }

  datatype DeviationAdvice = DeviationAdvice(hasDeviations: bool, deviations: seq<Deviation>,
                                             trueCount: real)

  /**
    CardCounter.get_deviation_plays at true count tc: every play whose rule
    holds, each once, in declaration order.
  */
  function Deviations(tc: real, playerValue: int, dealerCard: string): (r: DeviationAdvice)
    ensures r.hasDeviations <==> |r.deviations| > 0
    ensures forall d :: d in r.deviations <==> Fires(d, playerValue, dealerCard, tc)
    ensures forall i, j :: 0 <= i < j < |r.deviations| ==>
              Order(r.deviations[i]) < Order(r.deviations[j])
    ensures r.trueCount == tc
  {
    var devs :=
      (if playerValue == 16 && dealerCard == "10" && tc >= 0.0 then [StandSixteenVsTen] else [])
      + (if playerValue == 15 && dealerCard == "10" && tc >= 4.0 then [StandFifteenVsTen] else [])
      + (if playerValue == 20 && (dealerCard == "5" || dealerCard == "6") && tc >= 5.0
         then [SplitTensVsFiveOrSix] else [])
      + (if playerValue == 10 && (dealerCard == "10" || dealerCard == "A") && tc >= 4.0
         then [DoubleTenVsTenOrAce] else [])
      + (if playerValue == 12 && (dealerCard == "2" || dealerCard == "3") && tc >= 3.0
         then [StandTwelveVsTwoOrThree] else [])
      + (if playerValue == 9 && dealerCard == "2" && tc >= 1.0 then [DoubleNineVsTwo] else [])
      + (if playerValue == 16 && dealerCard == "9" && tc >= 5.0 then [StandSixteenVsNine] else [])
      + (if dealerCard == "A" && tc >= 3.0 then [TakeInsurance] else []);
    DeviationAdvice(|devs| > 0, devs, tc)
  }

  /** J, Q and K are not "10" here, so a face up-card triggers no play. */
  lemma FaceUpCardsTriggerNothing(tc: real, playerValue: int, dealerCard: string)
    requires dealerCard in {"J", "Q", "K"}
    ensures Deviations(tc, playerValue, dealerCard).deviations == []
  {
  }

  /** The insurance index play and the engine's insurance decision agree. */
  lemma InsuranceAgrees(h: Strategy.Hand, up: Rank, tc: real, playerValue: int)
    ensures Strategy.InsuranceDecision(h, up, tc)
            <==> TakeInsurance in Deviations(tc, playerValue, Symbol(up)).deviations
  {
    SymbolInjective(up, Ace);
  }

  /** A play that applies at a true count still applies at any higher one. */
  lemma FiresMonotone(d: Deviation, playerValue: int, dealerCard: string, tc1: real, tc2: real)
    requires tc1 <= tc2 && Fires(d, playerValue, dealerCard, tc1)
    ensures Fires(d, playerValue, dealerCard, tc2)
  {
  }

  // ---------------------------------------------------------------------
  // The counter object
  // ---------------------------------------------------------------------

  datatype Stats = Stats(runningCount: real, trueCount: real, cardsSeen: nat,
                         decksRemaining: real, playerAdvantage: real, penetration: real,
                         system: string)

  /** A share of a positive whole, in percent, lies within 0..100. */
  lemma PenetrationBounds(seen: real, total: real)
    ensures 0.0 <= seen <= total && total > 0.0 ==> 0.0 <= (seen / total) * 100.0 <= 100.0
  {
    if 0.0 <= seen <= total && total > 0.0 {
      DivideMonotone(seen, total, total);
      DivideMonotone(0.0, seen, total);
    }
  }

  class CardCounter {
    const system: CountingSystem
    const numDecks: int
    const totalCards: int
    const cardValues: map<string, real>
    var runningCount: real
    var cardsSeen: nat

    /** The system defaults to Hi-Lo and the shoe to six decks. */
    constructor (system: CountingSystem := HiLo, numDecks: int := 6)
      ensures this.system == system && this.numDecks == numDecks
      ensures totalCards == numDecks * 52 && cardValues == Weights(system)
      ensures runningCount == 0.0 && cardsSeen == 0
    {
      this.system := system;
      this.numDecks := numDecks;
      runningCount := 0.0;
      cardsSeen := 0;
      totalCards := numDecks * 52;
      cardValues := Weights(system);
    }

    function State(): Tally
      reads this
    {
      Tally(runningCount, cardsSeen)
    }

    /** New shoe: both counts go back to zero; the configuration is constant. */
    method Reset()
      modifies this
      ensures runningCount == 0.0 && cardsSeen == 0
    {
      runningCount := 0.0;
      cardsSeen := 0;
    }

    /** A card in the active table adds its weight and one card; any other string is ignored. */
    method CountCard(card: string)
      modifies this
      ensures card in cardValues ==>
                runningCount == old(runningCount) + cardValues[card]
                && cardsSeen == old(cardsSeen) + 1
      ensures card !in cardValues ==>
                runningCount == old(runningCount) && cardsSeen == old(cardsSeen)
      ensures State() == Step(cardValues, old(State()), card)
    {
      if card in cardValues {
        runningCount := runningCount + cardValues[card];
        cardsSeen := cardsSeen + 1;
      }
    }

    /** count_card on each card in turn. */
    method CountCards(cards: seq<string>)
      modifies this
      ensures State() == Fold(cardValues, old(State()), cards)
      ensures runningCount == old(runningCount) + WeightSum(cardValues, cards)
      ensures cardsSeen == old(cardsSeen) + KnownCount(cardValues, cards)
    {
      for i := 0 to |cards|
        invariant State() == Fold(cardValues, old(State()), cards[..i])
      {
        assert cards[..i + 1][..i] == cards[..i];
        CountCard(cards[i]);
      }
      assert cards[..|cards|] == cards;
      FoldClosedForm(cardValues, old(State()), cards);
    }

    /** Decks left in the shoe, never below one. */
    function DecksRemaining(): (d: real)
      reads this
      ensures d >= 1.0
      ensures d >= (totalCards - cardsSeen) as real / 52.0
      ensures d == 1.0 || d == (totalCards - cardsSeen) as real / 52.0
    {
      var decks := (totalCards - cardsSeen) as real / 52.0;
      if 1.0 >= decks then 1.0 else decks
    }

    /** Running count per remaining deck; the divisor is never zero. */
    function TrueCount(): (tc: real)
      reads this
      ensures tc * DecksRemaining() == runningCount
      ensures runningCount >= 0.0 ==> 0.0 <= tc <= runningCount
      ensures runningCount <= 0.0 ==> runningCount <= tc <= 0.0
    {
      QuotientBounds(runningCount, DecksRemaining());
      runningCount / DecksRemaining()
    }

    function PlayerAdvantage(): (a: real)
      reads this
      ensures a == AdvantageOf(TrueCount())
      ensures a <= 0.0 <==> TrueCount() <= 1.0
    {
      AdvantageOf(TrueCount())
    }

    function GetBettingAdvice(minBet: real, maxBet: real, bankroll: real,
                              kellyFraction: real := 0.5): (r: Option<BetAdvice>)
      reads this
      ensures r == Advise(TrueCount(), minBet, maxBet, bankroll, kellyFraction)
      ensures r.Some? && PlayerAdvantage() <= 0.0 ==>
                r.value.bet == minBet && r.value.units == 1 && r.value.action == BetMin
    {
      Advise(TrueCount(), minBet, maxBet, bankroll, kellyFraction)
    }

    function GetDeviationPlays(playerValue: int, dealerCard: string): (r: DeviationAdvice)
      reads this
      ensures r == Deviations(TrueCount(), playerValue, dealerCard)
      ensures forall m :: m in Messages(r.deviations)
                <==> exists d :: Fires(d, playerValue, dealerCard, TrueCount()) && m == Message(d)
    {
      Deviations(TrueCount(), playerValue, dealerCard)
    }

    /**
      The statistics report, read without changing the counter.  None stands
      for the division by zero total cards that the source raises.
    */
    function GetStats(): (r: Option<Stats>)
      reads this
      ensures r.Some? <==> totalCards != 0
      ensures r.Some? ==>
                && r.value.runningCount == runningCount
                && r.value.cardsSeen == cardsSeen
                && r.value.trueCount == TrueCount()
                && r.value.decksRemaining == DecksRemaining()
                && r.value.playerAdvantage == PlayerAdvantage() * 100.0
                && r.value.penetration * totalCards as real == cardsSeen as real * 100.0
                && r.value.system == SystemValue(system)
      ensures r.Some? && cardsSeen <= totalCards ==> 0.0 <= r.value.penetration <= 100.0
    {
      if totalCards == 0 then None
      else
        PenetrationBounds(cardsSeen as real, totalCards as real);
        Some(Stats(runningCount, TrueCount(), cardsSeen, DecksRemaining(),
                   PlayerAdvantage() * 100.0,
                   (cardsSeen as real / totalCards as real) * 100.0,
                   SystemValue(system)))
    }

    /** Leave the table when the true count is at or below the threshold (default -1). */
    function ShouldWongOut(threshold: real := -1.0): (b: bool)
      reads this
      ensures b <==> TrueCount() <= threshold
      ensures b ==> PlayerAdvantage() <= AdvantageOf(threshold)
    {
      TrueCount() <= threshold
    }
  }

  /**
    The worked Hi-Lo example: a fresh six-deck counter that sees the 20
    example cards has running count 1, 20 cards seen and 292 cards left.
  */
  method ExampleCount() returns (runningCount: real, cardsSeen: nat, decksRemaining: real)
    ensures runningCount == 1.0 && cardsSeen == 20
    ensures decksRemaining == 292.0 / 52.0
  {
    var counter := new CardCounter();
    counter.CountCards(ExampleShoe);
    ExampleShoeCount();
    runningCount, cardsSeen := counter.runningCount, counter.cardsSeen;
    decksRemaining := counter.DecksRemaining();
  }
}
