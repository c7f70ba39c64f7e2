/**
  Basic-strategy engine: valuing a hand (aces as 11, reduced by 10 while the
  total exceeds 21), softness and pair status, the fixed decision tables and
  the first-match cascade that picks an action, and the insurance rule.
*/
module Strategy {
  import opened Options
  import opened Ranks

  datatype Action = Hit | Stand | Double | Split | Surrender

  /** A hand is the list of ranks dealt to one party; it is never changed. */
  datatype Hand = Hand(cards: seq<Rank>)

  predicate IsFace(r: Rank)
  {
    r == Jack || r == Queen || r == King
  }

  /** What a card other than an ace adds to a total: 10 for faces, else its number. */
  function Points(r: Rank): (p: nat)
    requires r != Ace
    ensures 2 <= p <= 10
    ensures p == 10 <==> r == Ten || IsFace(r)
  {
    match r
    case Two => 2
    case Three => 3
    case Four => 4
    case Five => 5
    case Six => 6
    case Seven => 7
    case Eight => 8
    case Nine => 9
    case Ten => 10
    case Jack => 10
    case Queen => 10
    case King => 10
  }

  // ---------------------------------------------------------------------
  // Hand value
  // ---------------------------------------------------------------------

  /** Sum of the cards that are not aces. */
  function NonAceTotal(cards: seq<Rank>): nat
  {
    if cards == [] then 0
    else NonAceTotal(cards[..|cards| - 1])
         + (var c := cards[|cards| - 1]; if c == Ace then 0 else Points(c))
  }

  /** Number of aces in the cards. */
  function AceCount(cards: seq<Rank>): nat
  {
    if cards == [] then 0
    else AceCount(cards[..|cards| - 1]) + (if cards[|cards| - 1] == Ace then 1 else 0)
  }

  /** The total with every ace counted as 1. */
  function Ones(h: Hand): nat
  {
    NonAceTotal(h.cards) + AceCount(h.cards)
  }

  /**
    The reduction step of the source: take 10 off per ace while over 21.  It
    takes off a multiple of 10, at most once per ace, and a total still over
    21 has used up every ace.
  */
  function Reduce(total: int, aces: nat): (r: int)
    ensures total - 10 * aces <= r <= total
    ensures (total - r) % 10 == 0
    ensures r > 21 ==> r == total - 10 * aces
  {
    if total > 21 && aces > 0 then Reduce(total - 10, aces - 1) else total
  }

  /**
    Hand value: every ace starts at 11, then the reduction is applied.  The
    value never drops below the all-ones total, and a value over 21 counts
    every ace as 1.
  */
  function Value(h: Hand): (v: int)
    ensures Ones(h) <= v <= Ones(h) + 10 * AceCount(h.cards)
    ensures v > 21 ==> v == Ones(h)
  {
    Reduce(NonAceTotal(h.cards) + 11 * AceCount(h.cards), AceCount(h.cards))
  }

  function Min(a: int, b: int): int
  {
    if a <= b then a else b
  }

  /**
    Independent reading of the hand value: starting from the all-ones total,
    count as many aces as 11 as fit under 21; a total already over 21 stays.
  */
  function BestTotal(ones: int, aces: nat): int
  {
    if ones > 21 then ones else ones + 10 * Min(aces, (21 - ones) / 10)
  }

  lemma {:induction false} ReduceClosedForm(ones: int, aces: nat)
    ensures Reduce(ones + 10 * aces, aces) == BestTotal(ones, aces)
  {
    if ones + 10 * aces > 21 && aces > 0 {
      ReduceClosedForm(ones, aces - 1);
      assert ones + 10 * aces - 10 == ones + 10 * (aces - 1);
      if ones <= 21 {
        var m := (21 - ones) / 10;
        assert 10 * m <= 21 - ones;
        assert m < aces;
      }
    } else if ones <= 21 {
      var m := (21 - ones) / 10;
      assert 0 <= m;
      if aces > 0 {
        assert 10 * aces <= 21 - ones;
        assert aces <= m;
      }
    }
  }

  /** Hand value equals the best all-ones-plus-tens total. */
  lemma ValueClosedForm(h: Hand)
    ensures Value(h) == BestTotal(Ones(h), AceCount(h.cards))
  {
    var n, a := NonAceTotal(h.cards), AceCount(h.cards);
    assert n + 11 * a == (n + a) + 10 * a;
    ReduceClosedForm(n + a, a);
  }

  /**
    The value is at most 21 whenever the all-aces-as-1 total is; otherwise it
    is that all-ones total.  It never goes below the all-ones total, never
    exceeds it by more than 10 per ace, and stops reducing as soon as another
    ace as 11 would bust.
  */
  lemma ValueBounds(h: Hand)
    ensures Ones(h) <= 21 ==> Value(h) <= 21
    ensures Ones(h) > 21 ==> Value(h) == Ones(h)
    ensures Ones(h) <= Value(h) <= Ones(h) + 10 * AceCount(h.cards)
    ensures (Value(h) - Ones(h)) % 10 == 0
    ensures Ones(h) <= 21 && Value(h) < Ones(h) + 10 * AceCount(h.cards) ==> Value(h) + 10 > 21
  {
    ValueClosedForm(h);
  }

  /** Hand.value: one pass adding up cards and aces, then the reduction loop. */
  method ComputeValue(h: Hand) returns (total: int)
    ensures total == Value(h)
  {
    var cards := h.cards;
    total := 0;
    var aces := 0;
    for i := 0 to |cards|
      invariant total == NonAceTotal(cards[..i]) + 11 * AceCount(cards[..i])
      invariant aces == AceCount(cards[..i])
    {
      assert cards[..i + 1][..i] == cards[..i];
      var card := cards[i];
      if IsFace(card) {
        total := total + 10;
      } else if card == Ace {
        aces := aces + 1;
        total := total + 11;
      } else {
        total := total + Points(card);
      }
    }
    assert cards[..|cards|] == cards;
    while total > 21 && aces > 0
      invariant aces >= 0
      invariant Reduce(total, aces) == Value(h)
    {
      total := total - 10;
      aces := aces - 1;
    }
  }

  // ---------------------------------------------------------------------
  // Softness and pairs
  // ---------------------------------------------------------------------

  /**
    A hand is soft when it has an ace and one ace can be 11 with the rest as
    1; the all-ones total of a soft hand is then at most 11.
  */
  predicate IsSoft(h: Hand)
    ensures IsSoft(h) ==> AceCount(h.cards) > 0 && Ones(h) <= 11
  {
    AceCount(h.cards) > 0 && NonAceTotal(h.cards) + 11 + (AceCount(h.cards) - 1) <= 21
  }

  /**
    Softness means exactly that the hand value counts one ace as 11: a soft
    hand's value is its non-ace total plus 11 plus one per further ace, and a
    hand with aces that is not soft has its all-ones value.
  */
  lemma SoftMeansAceAsEleven(h: Hand)
    ensures IsSoft(h) <==> AceCount(h.cards) > 0 && Value(h) == Ones(h) + 10
    ensures IsSoft(h) ==> Value(h) == NonAceTotal(h.cards) + 11 + (AceCount(h.cards) - 1)
    ensures IsSoft(h) ==> 11 <= Value(h) <= 21
    ensures !IsSoft(h) ==> Value(h) == Ones(h) || AceCount(h.cards) == 0
  {
    ValueClosedForm(h);
    var ones, a := Ones(h), AceCount(h.cards);
    if a > 0 && ones + 10 <= 21 {
      var m := (21 - ones) / 10;
      assert 1 <= m;
      if a >= 2 {
        assert ones >= 2;
        assert m <= 1;
      }
    }
  }

  /** Hand.is_soft: one pass adding up the non-ace cards and counting aces. */
  method ComputeIsSoft(h: Hand) returns (soft: bool)
    ensures soft == IsSoft(h)
  {
    var cards := h.cards;
    var total := 0;
    var aces := 0;
    for i := 0 to |cards|
      invariant total == NonAceTotal(cards[..i])
      invariant aces == AceCount(cards[..i])
    {
      assert cards[..i + 1][..i] == cards[..i];
      var card := cards[i];
      if IsFace(card) {
        total := total + 10;
      } else if card == Ace {
        aces := aces + 1;
      } else {
        total := total + Points(card);
      }
    }
    assert cards[..|cards|] == cards;
    soft := false;
    if aces > 0 {
      if total + 11 + (aces - 1) <= 21 {
        soft := true;
      }
    }
  }

  /** The rank used for pair matching: J, Q and K all read as 10. */
  function PairRank(r: Rank): (n: Rank)
    ensures !IsFace(n)
    ensures n == r <==> !IsFace(r)
    ensures n == Ace <==> r == Ace
    ensures r != Ace ==> Points(n) == Points(r)
  {
    if IsFace(r) then Ten else r
  }

  /**
    Exactly two cards whose ranks agree once faces read as 10: that is, two
    cards worth the same, an ace being worth 11.
  */
  predicate IsPair(h: Hand)
    ensures IsPair(h) <==> |h.cards| == 2 && DealerValue(h.cards[0]) == DealerValue(h.cards[1])
  {
    |h.cards| == 2 && PairRank(h.cards[0]) == PairRank(h.cards[1])
  }

  /** Hand.pair_card: the normalised rank of a pair, None for anything else. */
  function PairCard(h: Hand): (r: Option<Rank>)
    ensures r.Some? <==> IsPair(h)
    ensures r.Some? ==> !IsFace(r.value)
    ensures r.Some? ==> r.value == PairRank(h.cards[0]) == PairRank(h.cards[1])
  {
    if !IsPair(h) then None else Some(PairRank(h.cards[0]))
  }

  /** A pair's value is twice one card's points (aces: 12). */
  lemma PairValue(h: Hand)
    requires IsPair(h)
    ensures h.cards[0] == Ace ==> Value(h) == 12 && IsSoft(h)
    ensures h.cards[0] != Ace ==> Value(h) == 2 * Points(h.cards[0]) && !IsSoft(h)
    ensures Value(h) <= 20
  {
    assert h.cards == [h.cards[0], h.cards[1]];
    TwoCards(h.cards[0], h.cards[1]);
    assert Reduce(22, 2) == Reduce(12, 1) == 12;
  }

  // ---------------------------------------------------------------------
  // The engine and its tables
  // ---------------------------------------------------------------------

  /**
    The engine's rule flags.  Only surrenderAllowed is read by GetAction; the
    other two are stored and never consulted.
  */
  datatype StrategyEngine = StrategyEngine(dealerHitsSoft17: bool,
                                           doubleAfterSplit: bool,
                                           surrenderAllowed: bool)

  /** The engine built with the source's default arguments. */
  const DefaultEngine := StrategyEngine(true, true, false)

  /** The dealer up-card as a table key: A is 11, faces are 10. */
  function DealerValue(r: Rank): (d: int)
    ensures 2 <= d <= 11
    ensures d == 11 <==> r == Ace
    ensures d == 10 <==> r == Ten || IsFace(r)
  {
    if r == Ace then 11 else if IsFace(r) then 10 else Points(r)
  }

  /**
    A table row: the actions against dealer values 2..11, in that order.  Every
    row of the source's tables has exactly these ten keys.
  */
  type Row = r: seq<Action> | |r| == 10
    witness [Hit, Hit, Hit, Hit, Hit, Hit, Hit, Hit, Hit, Hit]

  /** A row that gives the same action against every dealer card 2..11. */
  function Uniform(a: Action): (r: Row)
    ensures forall i :: 0 <= i < 10 ==> r[i] == a
  {
    [a, a, a, a, a, a, a, a, a, a]
  }

  /** dict.get on a row: the entry for a dealer value, or the default. */
  function RowGet(row: Row, dealerValue: int, default: Action): Action
  {
    if 2 <= dealerValue <= 11 then row[dealerValue - 2] else default
  }

  /**
    The rows of the hard table that are keyed by a player total: 9..21.
    Only 9, 10 and 11 ever double, and 17 or more always stands.
  */
  function HardRow(total: int): (r: Option<Row>)
    ensures r.Some? <==> 9 <= total <= 21
    ensures r.Some? && total >= 12 ==> Double !in r.value
    ensures r.Some? && total >= 17 ==> r.value == Uniform(Stand)
    ensures total == 11 ==> r == Some(Uniform(Double))
  {
    match total
    case 9 => Some([Hit, Double, Double, Double, Double, Hit, Hit, Hit, Hit, Hit])
    case 10 => Some([Double, Double, Double, Double, Double, Double, Double, Double, Hit, Hit])
    case 11 => Some(Uniform(Double))
    case 12 => Some([Hit, Hit, Stand, Stand, Stand, Hit, Hit, Hit, Hit, Hit])
    case _ =>
      if 13 <= total < 17 then Some([Stand, Stand, Stand, Stand, Stand, Hit, Hit, Hit, Hit, Hit])
      else if 17 <= total < 22 then Some(Uniform(Stand))
      else None
  }

  /**
    The hard-table entries for totals 5..8.  In the source they sit in the
    same dictionary as the rows of HardRow but under (total, dealer) pair
    keys, so a lookup by the player total alone never finds them; they are
    kept apart here for exactly that reason.
  */
  function HardTupleCell(total: int, dealerValue: int): (r: Option<Action>)
    ensures r.Some? <==> 5 <= total <= 8 && 2 <= dealerValue <= 11
    ensures r.Some? ==> r.value == Hit
  {
    if 5 <= total < 9 && 2 <= dealerValue < 12 then Some(Hit) else None
  }

  /**
    The soft table, keyed by totals 13..21: soft 13 to 18 double against some
    dealer card, soft 19 to 21 always stand.
  */
  function SoftRow(total: int): (r: Option<Row>)
    ensures r.Some? <==> 13 <= total <= 21
    ensures r.Some? ==> (Double in r.value <==> total <= 18)
    ensures r.Some? && total >= 19 ==> r.value == Uniform(Stand)
  {
    match total
    case 13 => Some([Hit, Hit, Hit, Double, Double, Hit, Hit, Hit, Hit, Hit])
    case 14 => Some([Hit, Hit, Hit, Double, Double, Hit, Hit, Hit, Hit, Hit])
    case 15 => Some([Hit, Hit, Double, Double, Double, Hit, Hit, Hit, Hit, Hit])
    case 16 => Some([Hit, Hit, Double, Double, Double, Hit, Hit, Hit, Hit, Hit])
    case 17 => Some([Hit, Double, Double, Double, Double, Hit, Hit, Hit, Hit, Hit])
    case 18 => Some([Stand, Double, Double, Double, Double, Stand, Stand, Hit, Hit, Hit])
    case 19 => Some(Uniform(Stand))
    case 20 => Some(Uniform(Stand))
    case 21 => Some(Uniform(Stand))
    case _ => None
  }

  /**
    The pair table, keyed by the normalised pair rank (there is no J, Q or K
    key).  Aces and eights always split; tens and fives never do.
  */
  function PairRow(r: Rank): (row: Option<Row>)
    ensures row.Some? <==> !IsFace(r)
    ensures r == Ace || r == Eight ==> row == Some(Uniform(Split))
    ensures r == Ten || r == Five ==> row.Some? && Split !in row.value
  {
    match r
    case Two => Some([Split, Split, Split, Split, Split, Split, Hit, Hit, Hit, Hit])
    case Three => Some([Split, Split, Split, Split, Split, Split, Hit, Hit, Hit, Hit])
    case Four => Some([Hit, Hit, Hit, Split, Split, Hit, Hit, Hit, Hit, Hit])
    case Five => Some(Uniform(Hit))
    case Six => Some([Split, Split, Split, Split, Split, Hit, Hit, Hit, Hit, Hit])
    case Seven => Some([Split, Split, Split, Split, Split, Split, Hit, Hit, Hit, Hit])
    case Eight => Some(Uniform(Split))
    case Nine => Some([Split, Split, Split, Split, Split, Stand, Split, Split, Stand, Stand])
    case Ten => Some(Uniform(Stand))
    case Ace => Some(Uniform(Split))
    case _ => None
  }

  /** Late surrender: 16 against 9, 10 and A; 15 against 10. */
  const SurrenderStrategy: map<int, map<int, bool>> :=
    map[16 := map[9 := true, 10 := true, 11 := true], 15 := map[10 := true]]

  /** A table's DOUBLE becomes HIT when doubling is not allowed. */
  function Downgrade(a: Action, canDouble: bool): (r: Action)
    ensures r != Double || canDouble
    ensures canDouble ==> r == a
    ensures r == a || (a == Double && r == Hit)
  {
    if a == Double && !canDouble then Hit else a
  }

  /**
    True when the surrender table holds a true entry for this (total, dealer):
    16 against 9, 10 or A, or 15 against 10.
  */
  predicate InSurrenderTable(value: int, dealerValue: int)
    ensures InSurrenderTable(value, dealerValue) <==> SurrenderCase(value, dealerValue)
  {
    value in SurrenderStrategy && dealerValue in SurrenderStrategy[value]
    && SurrenderStrategy[value][dealerValue]
  }

  /** True when the pair table says to split this pair against this dealer value. */
  predicate PairSaysSplit(h: Hand, dealerValue: int)
    requires IsPair(h)
  {
    PairRow(PairCard(h).value).Some?
    && RowGet(PairRow(PairCard(h).value).value, dealerValue, Hit) == Split
  }

  /**
    StrategyEngine.get_action: surrender first, then the pair table (only its
    SPLIT is taken), then the soft table, then the hard rows, then the default
    of standing on 17 or more.  All three permissions default to allowed.
  */
  function GetAction(e: StrategyEngine, h: Hand, dealerUpCard: Rank,
                     canDouble: bool := true, canSplit: bool := true,
                     canSurrender: bool := true): (a: Action)
    ensures a == Double ==> canDouble
  {
    var dealerValue := DealerValue(dealerUpCard);
    var value := Value(h);
    if canSurrender && e.surrenderAllowed && InSurrenderTable(value, dealerValue) then
      Surrender
    else if canSplit && IsPair(h) && PairSaysSplit(h, dealerValue) then
      Split
    else if IsSoft(h) && SoftRow(value).Some? then
      Downgrade(RowGet(SoftRow(value).value, dealerValue, Stand), canDouble)
    else if HardRow(value).Some? then
      Downgrade(RowGet(HardRow(value).value, dealerValue, Stand), canDouble)
    else if value >= 17 then
      Stand
    else
      Hit
  }

  // ---------------------------------------------------------------------
  // Properties of the tables and of GetAction
  // ---------------------------------------------------------------------

  /**
    The soft table covers totals 13..21 and the hard rows 9..21; neither ever
    says SPLIT or SURRENDER.
  */
  lemma TableShape(v: int, i: int)
    requires 0 <= i < 10
    ensures SoftRow(v).Some? <==> 13 <= v <= 21
    ensures HardRow(v).Some? <==> 9 <= v <= 21
    ensures SoftRow(v).Some? ==> SoftRow(v).value[i] in {Hit, Stand, Double}
    ensures HardRow(v).Some? ==> HardRow(v).value[i] in {Hit, Stand, Double}
  {
  }

  /** The surrender rule as the chart states it. */
  predicate SurrenderCase(value: int, dealerValue: int)
  {
    (value == 16 && 9 <= dealerValue <= 11) || (value == 15 && dealerValue == 10)
  }

  /**
    SURRENDER is chosen exactly when surrender is both requested and allowed
    and the hand is 16 against 9, 10 or A or 15 against 10, soft or not.
  */
  lemma SurrenderExactly(e: StrategyEngine, h: Hand, d: Rank,
                         canDouble: bool, canSplit: bool, canSurrender: bool)
    ensures GetAction(e, h, d, canDouble, canSplit, canSurrender) == Surrender
            <==> canSurrender && e.surrenderAllowed && SurrenderCase(Value(h), DealerValue(d))
  {
    TableShape(Value(h), DealerValue(d) - 2);
  }

  /** SPLIT only comes from the pair table, so only for a pair that may be split. */
  lemma SplitOnlyForPairs(e: StrategyEngine, h: Hand, d: Rank,
                          canDouble: bool, canSplit: bool, canSurrender: bool)
    ensures GetAction(e, h, d, canDouble, canSplit, canSurrender) == Split
            ==> canSplit && IsPair(h) && PairSaysSplit(h, DealerValue(d))
  {
    TableShape(Value(h), DealerValue(d) - 2);
  }

  /** The surrender step of the cascade fires. */
  predicate Surrenders(e: StrategyEngine, h: Hand, d: Rank, canSurrender: bool)
  {
    canSurrender && e.surrenderAllowed && InSurrenderTable(Value(h), DealerValue(d))
  }

  /** The pair step of the cascade fires. */
  predicate Splits(h: Hand, d: Rank, canSplit: bool)
  {
    canSplit && IsPair(h) && PairSaysSplit(h, DealerValue(d))
  }

  /**
    SPLIT is chosen exactly when the surrender step does not fire and the
    hand is a pair that may be split and that the pair table splits.
  */
  lemma SplitExactly(e: StrategyEngine, h: Hand, d: Rank,
                     canDouble: bool, canSplit: bool, canSurrender: bool)
    ensures GetAction(e, h, d, canDouble, canSplit, canSurrender) == Split
            <==> !Surrenders(e, h, d, canSurrender) && Splits(h, d, canSplit)
  {
    TableShape(Value(h), DealerValue(d) - 2);
  }

  /**
    Past surrender and splitting, a soft hand of 13..21 is played from its
    soft row (dealer values are always keys, so the STAND default is never
    used), with DOUBLE turned into HIT when doubling is not allowed.
  */
  lemma SoftLookup(e: StrategyEngine, h: Hand, d: Rank,
                   canDouble: bool, canSplit: bool, canSurrender: bool)
    requires !Surrenders(e, h, d, canSurrender) && !Splits(h, d, canSplit)
    requires IsSoft(h) && 13 <= Value(h) <= 21
    ensures GetAction(e, h, d, canDouble, canSplit, canSurrender)
            == Downgrade(SoftRow(Value(h)).value[DealerValue(d) - 2], canDouble)
  {
    TableShape(Value(h), DealerValue(d) - 2);
  }

  /**
    Past surrender, splitting and the soft table, a total of 9..21 is played
    from its hard row, with DOUBLE turned into HIT when doubling is not allowed.
  */
  lemma HardLookup(e: StrategyEngine, h: Hand, d: Rank,
                   canDouble: bool, canSplit: bool, canSurrender: bool)
    requires !Surrenders(e, h, d, canSurrender) && !Splits(h, d, canSplit)
    requires !(IsSoft(h) && 13 <= Value(h) <= 21)
    requires 9 <= Value(h) <= 21
    ensures GetAction(e, h, d, canDouble, canSplit, canSurrender)
            == Downgrade(HardRow(Value(h)).value[DealerValue(d) - 2], canDouble)
  {
    TableShape(Value(h), DealerValue(d) - 2);
  }

  /**
    Forbidding doubling changes nothing but a DOUBLE, which becomes HIT: the
    action without doubling is the downgraded action with doubling.
  */
  lemma DoublingOnlyDowngrades(e: StrategyEngine, h: Hand, d: Rank,
                               canSplit: bool, canSurrender: bool)
    ensures GetAction(e, h, d, false, canSplit, canSurrender)
            == Downgrade(GetAction(e, h, d, true, canSplit, canSurrender), false)
  {
  }

  /**
    Hard totals of 8 or less have no row keyed by their total, so unless the
    pair table splits them they reach the default, which is HIT.
  */
  lemma LowTotalsFallThrough(e: StrategyEngine, h: Hand, d: Rank,
                             canDouble: bool, canSplit: bool, canSurrender: bool)
    requires Value(h) <= 8
    ensures HardRow(Value(h)).None? && !IsSoft(h)
    ensures GetAction(e, h, d, canDouble, canSplit, canSurrender)
            == (if canSplit && IsPair(h) && PairSaysSplit(h, DealerValue(d)) then Split else Hit)
  {
    SoftMeansAceAsEleven(h);
  }

  /** The pair-keyed cells for 5..8 say what the default they fall through to says. */
  lemma TupleCellsMatchDefault(total: int, dealerValue: int)
    requires HardTupleCell(total, dealerValue).Some?
    ensures HardRow(total).None?
    ensures HardTupleCell(total, dealerValue).value == (if total >= 17 then Stand else Hit)
  {
  }

  /** A busted hand is in no table and reaches the default, STAND. */
  lemma BustStands(e: StrategyEngine, h: Hand, d: Rank,
                   canDouble: bool, canSplit: bool, canSurrender: bool)
    requires Value(h) > 21
    ensures GetAction(e, h, d, canDouble, canSplit, canSurrender) == Stand
  {
    SoftMeansAceAsEleven(h);
    if IsPair(h) {
      PairValue(h);
    }
  }

  /**
    Soft 12 (two aces) is not in the soft table: when it is not split it is
    played from hard row 12.
  */
  lemma SoftTwelveUsesHardRow(e: StrategyEngine, h: Hand, d: Rank,
                              canDouble: bool, canSplit: bool, canSurrender: bool)
    requires IsSoft(h) && Value(h) == 12
    requires !(canSplit && IsPair(h) && PairSaysSplit(h, DealerValue(d)))
    ensures GetAction(e, h, d, canDouble, canSplit, canSurrender)
            == HardRow(12).value[DealerValue(d) - 2]
  {
  }

  /** Soft 19, 20 and 21 stand against every dealer card. */
  lemma SoftNineteenPlusStands(e: StrategyEngine, h: Hand, d: Rank,
                               canDouble: bool, canSplit: bool, canSurrender: bool)
    requires IsSoft(h) && Value(h) >= 19
    ensures GetAction(e, h, d, canDouble, canSplit, canSurrender) == Stand
  {
    SoftMeansAceAsEleven(h);
    if IsPair(h) {
      PairValue(h);
    }
  }

  /** The two stored rule flags other than surrender never change the action. */
  lemma UnreadFlags(h17: bool, das: bool, h17': bool, das': bool, surrender: bool,
                    h: Hand, d: Rank, canDouble: bool, canSplit: bool, canSurrender: bool)
    ensures GetAction(StrategyEngine(h17, das, surrender), h, d, canDouble, canSplit, canSurrender)
         == GetAction(StrategyEngine(h17', das', surrender), h, d, canDouble, canSplit, canSurrender)
  {
  }

  /** Totals and ace counts of a two-card hand. */
  lemma TwoCards(a: Rank, b: Rank)
    ensures NonAceTotal([a, b]) == (if a == Ace then 0 else Points(a)) + (if b == Ace then 0 else Points(b))
    ensures AceCount([a, b]) == (if a == Ace then 1 else 0) + (if b == Ace then 1 else 0)
  {
    assert [a, b][..1] == [a] && [a][..0] == [];
    assert NonAceTotal([a]) == (if a == Ace then 0 else Points(a));
    assert AceCount([a]) == (if a == Ace then 1 else 0);
  }

  /**
    The worked hands: 10,6 v 10; A,7 v 9; 8,8 v 10; 6,5 v 6 with and without
    doubling.  The first four use the default permissions.
  */
  lemma ExampleHands()
    ensures GetAction(DefaultEngine, Hand([Ten, Six]), Ten) == Hit
    ensures GetAction(DefaultEngine, Hand([Ace, Seven]), Nine) == Hit
    ensures GetAction(DefaultEngine, Hand([Eight, Eight]), Ten) == Split
    ensures GetAction(DefaultEngine, Hand([Six, Five]), Six) == Double
    ensures GetAction(DefaultEngine, Hand([Six, Five]), Six, false, true, true) == Hit
  {
    TwoCards(Ten, Six);
    TwoCards(Ace, Seven);
    TwoCards(Eight, Eight);
    TwoCards(Six, Five);
  }

  /** The hand values and softness quoted for the engine. */
  lemma ExampleValues()
    ensures Value(Hand([Ace, Six])) == 17 && IsSoft(Hand([Ace, Six]))
    ensures Value(Hand([Ace, Six, King])) == 17
    ensures !IsSoft(Hand([Ace, Six, Five])) && Value(Hand([Ace, Six, Five])) == 12
    ensures IsPair(Hand([Eight, Eight])) && IsPair(Hand([King, Queen]))
    ensures !IsPair(Hand([Eight, Eight, Eight]))
  {
    TwoCards(Ace, Six);
    assert [Ace, Six, King][..2] == [Ace, Six];
    assert [Ace, Six, Five][..2] == [Ace, Six];
  }

  // ---------------------------------------------------------------------
  // Insurance
  // ---------------------------------------------------------------------

  /**
    StrategyEngine.get_insurance_decision: the player hand plays no part; the
    true count defaults to 0.
  */
  function InsuranceDecision(h: Hand, dealerUpCard: Rank, trueCount: real := 0.0): (take: bool)
    ensures take ==> dealerUpCard == Ace
    ensures dealerUpCard == Ace ==> (take <==> trueCount >= 3.0)
  {
    if dealerUpCard != Ace then false else trueCount >= 3.0
  }

  lemma InsuranceIgnoresHand(h1: Hand, h2: Hand, d: Rank, tc: real)
    ensures InsuranceDecision(h1, d, tc) == InsuranceDecision(h2, d, tc)
  {
  }

  lemma InsuranceExamples(h: Hand)
    ensures !InsuranceDecision(h, Ace, 2.9)
    ensures InsuranceDecision(h, Ace, 3.0)
    ensures !InsuranceDecision(h, Ace)
  {
  }
}
