# Blackjack decision core in Dafny

This project models the decision core of a blackjack assistant bot. It has three parts:

- **Basic strategy** (`strategy_engine.dfy`, module `Strategy`):
  - hand valuation: aces count as 11, then 10 comes off per ace while the total is over 21;
  - softness and pair detection;
  - the fixed hard, soft, pair and surrender tables;
  - the first-match cascade that picks an action (surrender, split, soft table, hard table, then stand on 17 or more);
  - the insurance rule.

  `Hand.value` and `Hand.is_soft` are loops in the source. Here they are the methods `ComputeValue` and `ComputeIsSoft`, proved against the functions `Value` and `IsSoft`. The cascade and the tables are functions.
- **Card counting** (`card_counter.dfy`, module `Counting`):
  - the four counting systems and their weight tables;
  - the `CardCounter` object. Its running count and cards seen are updated in place by `Reset`, `CountCard` and `CountCards`;
  - the quantities derived from the counter: decks remaining, true count, player advantage, Kelly-based bet advice, index plays, statistics and the leave-the-table rule.

  The bet advice and the index plays are functions of the true count (`Advise`, `Deviations`). The class methods apply them to the counter's own true count.
- **OCR text parsing** (`screen_reader.dfy`, module `ScreenReader`):
  - `parse_cards`: the noise substitution, the substring pass over `CARD_PATTERNS` in dictionary order, and the word-bounded numeric pass that skips duplicates;
  - the split/double/surrender eligibility derived from the player's cards.

`ranks.dfy` gives the thirteen rank strings as a datatype (`Ranks.Rank`) with a round trip to and from the strings. `options.dfy` holds the `Option` type. Python floats are modelled as `real`. Python's `round` is modelled as round-half-to-even. A division that the source would let raise is an `Option` result: a zero minimum bet once there is an advantage, and a zero-card shoe in the statistics.

The model follows the code in two places where one might expect otherwise:

- An empty hand is not rejected. `Hand` in `blackjack_bot/strategy_engine.py:15-20` accepts any list, so an empty hand is valued 0, and the model allows it.
- The advised bet can exceed the table maximum. The code clamps to `max_bet` only in the large band (`blackjack_bot/card_counter.py:164`), so a table whose maximum is under four minimum bets can be advised more than its maximum. `Counting.SmallBandIgnoresMaximum` exhibits such an input. `Counting.AdviseWithinLimits` proves the bounds whenever the maximum is at least four minimum bets.

Default arguments are kept: `GetAction` allows doubling, splitting and surrender unless told otherwise, `InsuranceDecision` takes a true count of 0, and a `CardCounter` is Hi-Lo over six decks.

## Model

| member | source | states |
|---|---|---|
| Ranks.ParseRank | blackjack_bot/screen_reader.py:30-44 | a string reads as a rank exactly when it is one of the thirteen rank strings, and the rank reads back as that string |
| Ranks.ParseSymbol | blackjack_bot/card_counter.py:18-23 | every rank's string is a rank string and parses back to the same rank |
| Ranks.SymbolInjective | blackjack_bot/strategy_engine.py:69-73 | two ranks have the same string only when they are the same rank, so string comparison of cards is rank comparison |
| Ranks.Symbols | blackjack_bot/strategy_engine.py:18-20 | a hand's string form has one string per card, in order |
| Strategy.Points | blackjack_bot/strategy_engine.py:27-34 | a non-ace card is worth 2..10, and 10 exactly for 10, J, Q and K |
| Strategy.Reduce | blackjack_bot/strategy_engine.py:37-39 | the reduction loop takes off a multiple of 10, at most once per ace, and a total still over 21 has used up every ace |
| Strategy.Value | blackjack_bot/strategy_engine.py:22-41 | the hand value is never below the all-ones total nor above it by more than 10 per ace, and a value over 21 counts every ace as 1 |
| Strategy.ReduceClosedForm | blackjack_bot/strategy_engine.py:37-39 | the reduction loop ends at the all-ones total plus 10 for as many aces as fit under 21, or at the all-ones total if that already busts |
| Strategy.ValueClosedForm | blackjack_bot/strategy_engine.py:22-41 | the hand value is the best total that counts aces as 1 or 11 |
| Strategy.ValueBounds | blackjack_bot/strategy_engine.py:22-41 | value is at most 21 whenever the all-ones total is; otherwise it equals the all-ones total; it lies between the all-ones total and that total plus 10 per ace, in steps of 10, and reduction stops as soon as another ace as 11 would bust |
| Strategy.ComputeValue | blackjack_bot/strategy_engine.py:22-41 | the counting loop and the reduction loop compute exactly the hand value |
| Strategy.IsSoft | blackjack_bot/strategy_engine.py:44-61 | a soft hand has an ace and an all-ones total of at most 11 |
| Strategy.SoftMeansAceAsEleven | blackjack_bot/strategy_engine.py:44-61 | a hand is soft exactly when it has an ace and its value counts one ace as 11; then the value is non-ace total + 11 + further aces, between 11 and 21 |
| Strategy.ComputeIsSoft | blackjack_bot/strategy_engine.py:44-61 | the loop decides softness exactly: an ace is present and non-ace total + 11 + (aces − 1) ≤ 21 |
| Strategy.PairRank | blackjack_bot/strategy_engine.py:69-71 | J, Q and K normalise to 10 and every other rank to itself, keeping the card's points |
| Strategy.IsPair | blackjack_bot/strategy_engine.py:64-73 | a hand is a pair exactly when it has two cards worth the same, an ace being worth 11 |
| Strategy.PairCard | blackjack_bot/strategy_engine.py:75-81 | a normalised rank exists exactly for a pair, and it is the normalised rank of both cards |
| Strategy.PairValue | blackjack_bot/strategy_engine.py:64-73 | a pair of aces is soft 12; any other pair is hard and worth twice one card; no pair exceeds 20 |
| Strategy.DealerValue | blackjack_bot/strategy_engine.py:213-218 | the dealer card reads as 2..11, with 11 exactly for an ace and 10 exactly for 10, J, Q and K |
| Strategy.Uniform | blackjack_bot/strategy_engine.py:129 | a uniform row gives the same action against every dealer card |
| Strategy.HardRow | blackjack_bot/strategy_engine.py:98-130 | the hard table has a row for each total 9..21; only 9, 10 and 11 double, 11 doubles against every card, and 17 or more always stands |
| Strategy.HardTupleCell | blackjack_bot/strategy_engine.py:100 | the pair-keyed hard cells cover totals 5..8 against dealer 2..11 and all say HIT |
| Strategy.SoftRow | blackjack_bot/strategy_engine.py:133-162 | the soft table has a row for each total 13..21; a row doubles somewhere exactly for soft 13..18, and soft 19..21 always stand |
| Strategy.PairRow | blackjack_bot/strategy_engine.py:165-188 | the pair table has a row for every rank but J, Q and K; aces and eights always split, fives and tens never do |
| Strategy.InSurrenderTable | blackjack_bot/strategy_engine.py:191-194 | the surrender table holds a true entry exactly for 16 against 9, 10 or A and 15 against 10 |
| Strategy.Downgrade | blackjack_bot/strategy_engine.py:240-241 | DOUBLE becomes HIT when doubling is not allowed; with doubling allowed the action is kept, and every action but DOUBLE is always kept |
| Strategy.GetAction | blackjack_bot/strategy_engine.py:196-253 | the cascade never answers DOUBLE when doubling is not allowed |
| Strategy.TableShape | blackjack_bot/strategy_engine.py:98-162 | the soft table covers totals 13..21 and the integer-keyed hard rows cover 9..21; neither holds SPLIT or SURRENDER |
| Strategy.SurrenderExactly | blackjack_bot/strategy_engine.py:190-225 | SURRENDER is chosen exactly when surrender is requested and allowed and the hand is 16 against 9, 10 or A or 15 against 10, whatever its softness |
| Strategy.SplitOnlyForPairs | blackjack_bot/strategy_engine.py:228-233 | SPLIT is chosen only when splitting is allowed, the hand is a pair and the pair table says split |
| Strategy.SplitExactly | blackjack_bot/strategy_engine.py:219-233 | SPLIT is chosen exactly when the surrender step does not fire and the hand is a pair that may be split and that the pair table splits |
| Strategy.SoftLookup | blackjack_bot/strategy_engine.py:235-242 | past surrender and splitting, a soft 13..21 is played from its soft row, DOUBLE becoming HIT without doubling |
| Strategy.HardLookup | blackjack_bot/strategy_engine.py:244-250 | past surrender, splitting and the soft table, a total of 9..21 is played from its hard row, DOUBLE becoming HIT without doubling |
| Strategy.DoublingOnlyDowngrades | blackjack_bot/strategy_engine.py:196-253 | the action without doubling is the action with doubling, a DOUBLE turned into HIT |
| Strategy.LowTotalsFallThrough | blackjack_bot/strategy_engine.py:245-253 | a total of 8 or less is hard, has no integer-keyed row and gets HIT unless the pair table splits it |
| Strategy.TupleCellsMatchDefault | blackjack_bot/strategy_engine.py:100 | the pair-keyed cells for totals 5..8 are unreachable by integer lookup and say HIT, the same as the default |
| Strategy.BustStands | blackjack_bot/strategy_engine.py:244-253 | a hand over 21 is in no table and gets STAND |
| Strategy.SoftTwelveUsesHardRow | blackjack_bot/strategy_engine.py:236-250 | soft 12 is not in the soft table and, unless split, is played from hard row 12 |
| Strategy.SoftNineteenPlusStands | blackjack_bot/strategy_engine.py:158-161 | soft 19, 20 and 21 stand against every dealer card |
| Strategy.UnreadFlags | blackjack_bot/strategy_engine.py:87-93 | the dealer-hits-soft-17 and double-after-split flags never change the action |
| Strategy.TwoCards | blackjack_bot/strategy_engine.py:27-34 | a two-card hand's non-ace total and ace count are those of its two cards |
| Strategy.ExampleHands | blackjack_bot/examples.py:17-42 | hard 16 v 10 is HIT, soft 18 v 9 is HIT, 8,8 v 10 is SPLIT, 6,5 v 6 is DOUBLE or HIT when doubling is not allowed |
| Strategy.ExampleValues | blackjack_bot/strategy_engine.py:22-81 | A,6 is soft 17; A,6,K is 17; A,6,5 is hard 12; 8,8 and K,Q are pairs, three eights are not |
| Strategy.InsuranceDecision | blackjack_bot/strategy_engine.py:255-267 | insurance is taken exactly when the dealer shows an ace and the true count is at least 3 |
| Strategy.InsuranceIgnoresHand | blackjack_bot/strategy_engine.py:255-267 | the player's hand plays no part in the insurance decision |
| Strategy.InsuranceExamples | blackjack_bot/strategy_engine.py:255-267 | against an ace, true count 2.9 declines, 3.0 takes insurance, and the default true count of 0 declines |
| Counting.WeightsCoverRanks | blackjack_bot/card_counter.py:18-39 | every system weighs exactly the thirteen rank strings, and J, Q and K like 10 |
| Counting.BalancedSystems | blackjack_bot/card_counter.py:18-39 | a full suit counts to 0 under Hi-Lo, Omega II and Halves and to 1 under KO, and all thirteen cards are known |
| Counting.StepCountsKnownCards | blackjack_bot/card_counter.py:55-64 | one count adds one card seen exactly for a known card, with its weight; an unknown string leaves the tally as it was |
| Counting.SumsSnoc | blackjack_bot/card_counter.py:66-74 | adding a card at the end adds its weight, or nothing for an unknown string, and counts it once if known |
| Counting.FoldClosedForm | blackjack_bot/card_counter.py:66-74 | counting a list adds the total weight of its known cards and their number |
| Counting.FoldAppend | blackjack_bot/card_counter.py:66-74 | counting two lists one after the other equals counting their concatenation |
| Counting.ExampleShoeCount | blackjack_bot/examples.py:55-56 | the 20 example cards under Hi-Lo give running count 1 and 20 cards seen |
| Counting.AdvantageOf | blackjack_bot/card_counter.py:93-104 | the advantage is (tc − 1)/200 and is at most 0 exactly when the true count is at most 1 |
| Counting.AdvantageMonotone | blackjack_bot/card_counter.py:93-104 | a higher true count never gives a lower advantage |
| Counting.RoundHalfEven | blackjack_bot/card_counter.py:143 | the result is within one half of the input, and on a tie it is even |
| Counting.RoundHalfEvenUnique | blackjack_bot/card_counter.py:143 | the two rounding properties single out the result |
| Counting.RoundHalfEvenMonotone | blackjack_bot/card_counter.py:143 | rounding preserves order |
| Counting.QuotientBounds | blackjack_bot/card_counter.py:82-91 | dividing by at least one keeps the sign and does not grow the magnitude |
| Counting.KellyUnits | blackjack_bot/card_counter.py:139-143 | the Kelly unit count is at least one |
| Counting.Advise | blackjack_bot/card_counter.py:106-180 | the advice is missing exactly when there is an advantage and a zero minimum bet; it reports the true count and the advantage in percent; it is bet_min exactly when the true count is at most 1, and then it is the minimum bet in one unit |
| Counting.AdviseBands | blackjack_bot/card_counter.py:137-166 | with an advantage only the small, medium and large bands are reached: units min(2,k) and min(4,k) times the minimum bet, then min(k·minimum, maximum) with units rounded from the bet |
| Counting.KellyBetMonotone | blackjack_bot/card_counter.py:139-140 | the Kelly stake does not fall as the true count rises |
| Counting.KellyUnitsMonotone | blackjack_bot/card_counter.py:139-143 | the Kelly unit count does not fall as the true count rises |
| Counting.AdviseWithinLimits | blackjack_bot/card_counter.py:106-180 | with a positive minimum and a maximum of at least four minimum bets the advised bet lies between the two |
| Counting.AdviseBet | blackjack_bot/card_counter.py:127-166 | the advised bet is the minimum without an advantage and the band amount otherwise |
| Counting.CappedUnitsMonotone | blackjack_bot/card_counter.py:152-160 | the capped unit counts of the small and medium bands rise with the true count and the Kelly units and never exceed 4 |
| Counting.LowBandBet | blackjack_bot/card_counter.py:152-160 | below the large band the amount is the capped units times the minimum bet |
| Counting.BandBetMonotone | blackjack_bot/card_counter.py:152-165 | the band amount does not fall as the true count and the Kelly units rise |
| Counting.LowToLargeBand | blackjack_bot/card_counter.py:152-165 | an amount from the small or medium band is at most the large band's amount for any larger Kelly units |
| Counting.BandBetWithin | blackjack_bot/card_counter.py:152-165 | each band's amount lies between the minimum bet and a maximum of at least four minimum bets |
| Counting.AdviseMonotone | blackjack_bot/card_counter.py:106-180 | with such a maximum the advised bet never falls as the true count rises |
| Counting.SmallBandIgnoresMaximum | blackjack_bot/card_counter.py:152-155 | a maximum of 15 on a minimum of 10 at true count 1.5 is advised two units, 20, above the maximum |
| Counting.LargeBandRoundsUnitsHalfToEven | blackjack_bot/card_counter.py:162-165 | a clamped bet of 25 on a minimum of 10 reports 2 units, rounding the half to even |
| Counting.Fires | blackjack_bot/card_counter.py:195-225 | no index play applies at a negative true count |
| Counting.FiresMonotone | blackjack_bot/card_counter.py:195-225 | a play that applies at a true count still applies at any higher one |
| Counting.Deviations | blackjack_bot/card_counter.py:182-231 | a play is listed exactly when its rule holds, each once, in the order the rules are checked; the flag says the list is non-empty |
| Counting.MessageInjective | blackjack_bot/card_counter.py:195-225 | each index play has its own text, so the list of texts names the plays unambiguously |
| Counting.FaceUpCardsTriggerNothing | blackjack_bot/card_counter.py:195-225 | J, Q and K are compared as strings, so they trigger no play |
| Counting.InsuranceAgrees | blackjack_bot/card_counter.py:224-225 | the insurance index play fires exactly when the strategy engine takes insurance |
| Counting.PenetrationBounds | blackjack_bot/card_counter.py:241 | cards seen over total cards, in percent, lies within 0..100 while no more cards are seen than the shoe holds |
| Counting.CardCounter.constructor | blackjack_bot/card_counter.py:41-48 | a new counter has its system (Hi-Lo by default), decks (six by default), 52 cards per deck, the system's weights and zero counts |
| Counting.CardCounter.Reset | blackjack_bot/card_counter.py:50-53 | both counts go back to zero; the configuration cannot change |
| Counting.CardCounter.CountCard | blackjack_bot/card_counter.py:55-64 | a known card adds its weight and one card seen; any other string leaves both counts unchanged |
| Counting.CardCounter.CountCards | blackjack_bot/card_counter.py:66-74 | counting a list is the fold of single counts: the total weight of its known cards and their number are added |
| Counting.CardCounter.DecksRemaining | blackjack_bot/card_counter.py:76-80 | decks remaining is the unseen cards over 52, but never below one |
| Counting.CardCounter.TrueCount | blackjack_bot/card_counter.py:82-91 | the true count times decks remaining is the running count, with the same sign and no larger magnitude |
| Counting.CardCounter.PlayerAdvantage | blackjack_bot/card_counter.py:93-104 | the advantage follows the linear model and is at most 0 exactly when the true count is at most 1 |
| Counting.CardCounter.GetBettingAdvice | blackjack_bot/card_counter.py:106-180 | the advice is that of the counter's true count; without an advantage it is the minimum bet in one unit |
| Counting.CardCounter.GetDeviationPlays | blackjack_bot/card_counter.py:182-231 | the plays are those of the counter's true count, and a text is in the returned list exactly when it is the text of a play whose rule holds |
| Counting.CardCounter.GetStats | blackjack_bot/card_counter.py:233-243 | the report exists exactly for a shoe whose card total is not zero (a negative deck count, which the constructor accepts, also gets one); it repeats the counts, true count, decks remaining, advantage in percent and system name; penetration is cards seen over total cards in percent, within 0..100 while the shoe is not over-dealt |
| Counting.CardCounter.ShouldWongOut | blackjack_bot/card_counter.py:245-255 | leave exactly when the true count is at or below the threshold, and then the advantage is at most the threshold's |
| Counting.ExampleCount | blackjack_bot/examples.py:50-60 | a fresh six-deck Hi-Lo counter that sees the 20 example cards has running count 1, 20 cards seen and 292/52 decks remaining |
| ScreenReader.Replace | blackjack_bot/screen_reader.py:147 | replacement keeps the length and changes exactly the occurrences of one character |
| ScreenReader.Denoise | blackjack_bot/screen_reader.py:147 | the three replacements act on each character on its own, keeping the length |
| ScreenReader.DenoiseRemovesNoise | blackjack_bot/screen_reader.py:147 | after clean-up no '\|', 'l' or 'o' is left and every other character is kept |
| ScreenReader.Contains | blackjack_bot/screen_reader.py:152 | the empty pattern is in every text |
| ScreenReader.ContainsOccurs | blackjack_bot/screen_reader.py:152 | substring search succeeds exactly when the pattern occurs at some offset |
| ScreenReader.ContainsChars | blackjack_bot/screen_reader.py:152 | a pattern found in the text has all its characters in the text |
| ScreenReader.CardPatternKeys | blackjack_bot/screen_reader.py:30-44 | the keys of the pattern table are rank strings and only the first is "A" |
| ScreenReader.EntryHits | blackjack_bot/screen_reader.py:151-153 | one rank's patterns add only that rank, once per pattern found in the text |
| ScreenReader.EntryHitsFound | blackjack_bot/screen_reader.py:151-153 | the rank comes out of its inner loop exactly when one of its patterns is in the text |
| ScreenReader.PatternHits | blackjack_bot/screen_reader.py:150-153 | only keys of the entries come out of the pattern pass |
| ScreenReader.PatternHitsSound | blackjack_bot/screen_reader.py:150-153 | a string out of the pattern pass keys an entry one of whose patterns is in the text |
| ScreenReader.PatternHitsComplete | blackjack_bot/screen_reader.py:150-153 | an entry one of whose patterns is in the text puts its key into the pattern pass |
| ScreenReader.PatternHitsFound | blackjack_bot/screen_reader.py:150-153 | a string comes out of the pattern pass exactly when it keys an entry one of whose patterns is in the text |
| ScreenReader.PatternHitsAppend | blackjack_bot/screen_reader.py:150-153 | the pattern pass over two lists of entries is the two passes concatenated |
| ScreenReader.PatternHitsKeys | blackjack_bot/screen_reader.py:150-153 | each string out of the pattern pass is the key of some entry, found by position |
| ScreenReader.MatchAt | blackjack_bot/screen_reader.py:156 | a match is found at a position exactly when a digit 2..9 or "10" framed by word boundaries starts there, and it has that token's length |
| ScreenReader.ScanFrom | blackjack_bot/screen_reader.py:156 | every numeric match is a digit 2..9 or "10" |
| ScreenReader.NoTokenInsideTen | blackjack_bot/screen_reader.py:156 | no bounded token starts on the "0" of a "10", so matches never hide one another |
| ScreenReader.ScanFindsAllTokens | blackjack_bot/screen_reader.py:156 | findall's scan, which skips past each match, returns exactly the bounded tokens found by looking at every position, in text order |
| ScreenReader.TokensFromHas | blackjack_bot/screen_reader.py:156 | every bounded token at or after a position is among the tokens read from there |
| ScreenReader.ScanFindsToken | blackjack_bot/screen_reader.py:156 | the scan returns every word-bounded number token at or after its start |
| ScreenReader.NumberMatches | blackjack_bot/screen_reader.py:156 | the numeric matches of a text are its bounded tokens at each position, left to right |
| ScreenReader.NumberTokenIsRank | blackjack_bot/screen_reader.py:156 | every numeric match is a rank string |
| ScreenReader.NumberMatchExamples | blackjack_bot/screen_reader.py:156 | "10 9" gives "10" then "9"; "23", "k7" and "1" give nothing |
| ScreenReader.AppendNew | blackjack_bot/screen_reader.py:157-159 | the numeric loop keeps the list as a prefix, appends only matches not already present, each at most once and in the order of their first occurrence among the matches, and ends holding every match |
| ScreenReader.AppendNewAtMostOnce | blackjack_bot/screen_reader.py:157-159 | a string absent before the numeric loop occurs at most once after it |
| ScreenReader.PatternPass | blackjack_bot/screen_reader.py:150-153 | the nested loops collect the pattern pass |
| ScreenReader.NumericPass | blackjack_bot/screen_reader.py:157-159 | the guarded append loop computes the numeric pass |
| ScreenReader.Parsed | blackjack_bot/screen_reader.py:134-161 | parse_cards returns the pattern hits first and then holds every numeric match of the cleaned text |
| ScreenReader.ParseCards | blackjack_bot/screen_reader.py:134-161 | the result is the numeric pass appended to the pattern pass of the cleaned text, and every element is a rank string |
| ScreenReader.ParsedRanks | blackjack_bot/screen_reader.py:30-44 | every string that parse_cards returns is one of the thirteen rank strings |
| ScreenReader.ParsedFindsPattern | blackjack_bot/screen_reader.py:146-153 | a rank one of whose patterns is in the cleaned text is among the parsed cards |
| ScreenReader.ParsedLetterRanks | blackjack_bot/screen_reader.py:146-159 | A, J, Q or K is parsed exactly when one of its patterns is in the cleaned text, since the numeric pass adds only 2..10 |
| ScreenReader.ReadsKing | blackjack_bot/screen_reader.py:43 | a cleaned text that holds "k" yields "K" |
| ScreenReader.SpelledTwoAndFourNeverMatch | blackjack_bot/screen_reader.py:147 | after clean-up "two" and "four" can never be found |
| ScreenReader.EmptyTextNoCards | blackjack_bot/screen_reader.py:134-161 | empty text gives no cards |
| ScreenReader.EmptyHasNoHits | blackjack_bot/screen_reader.py:150-153 | no non-empty pattern is found in empty text |
| ScreenReader.EmptyEntryHits | blackjack_bot/screen_reader.py:151-153 | one rank's non-empty patterns find nothing in empty text |
| ScreenReader.AceCountsTwice | blackjack_bot/screen_reader.py:31 | a text that reads "ace" yields "A" exactly twice |
| ScreenReader.AceEntry | blackjack_bot/screen_reader.py:31 | the ace entry hits once for "ace" and once for its "a" |
| ScreenReader.OnlyFirstEntryIsAce | blackjack_bot/screen_reader.py:30-44 | no later entry adds "A" |
| ScreenReader.NumbersAddNoAce | blackjack_bot/screen_reader.py:156-159 | the numeric pass never adds "A" |
| ScreenReader.EligibilityOf | blackjack_bot/screen_reader.py:283-289 | doubling and surrender are allowed exactly with two cards, and splitting needs them too |
| ScreenReader.SplitMeansPair | blackjack_bot/screen_reader.py:283-286 | on rank strings the split rule agrees with the strategy engine's pair test |
| ScreenReader.TenValuedSymbol | blackjack_bot/screen_reader.py:285-286 | a rank's string is J, Q, K or 10 exactly when the rank counts as ten for pairs |

## Left out

- Screen capture, image preprocessing, OCR, region reading and shuffle detection: these are calls into image and OCR libraries. The OCR text is the input to `ScreenReader.ParseCards`.
- `parse_currency`: it depends on float parsing of the matched text.
- The graphical interface, the overlay, the configuration file manager, the web application and the demo script: presentation, file and network glue. The demo script's cases appear only as example lemmas.
- The reason strings of the bet advice and the message strings' float formatting. The advice keeps its numbers and its action. Each index play is a constructor, `Counting.Message` gives its fixed text, and `Counting.Messages` turns the list of plays into the list of texts the source returns.
- Floating point: every float is an exact `real`, so rounding error in the Kelly stake and in the true count is not modelled.
- The word-boundary test of the numeric pattern treats only ASCII letters, digits and `_` as word characters. Python's Unicode word characters beyond ASCII are not modelled.
- `Hand` is built from `Ranks.Rank`, not from arbitrary strings. In the system, hands are built only from the output of `parse_cards`, and `ScreenReader.ParsedRanks` proves that output consists of rank strings. What `int(card)` does with any other string (for example `'1'`, which it would count as 1) is not modelled. The strategy engine and the insurance rule likewise take the dealer card as a rank.
- The counter's `system`, `num_decks`, `total_cards` and `card_values` are constants of the class. `Counting.CardCounter.Reset` therefore leaves them unchanged by construction.
- `get_stats` is a function of the counter state, so it changes no state by construction.
- `Counting.AdviseWithinLimits`: the bounds are proved only when the maximum is at least four minimum bets, because the small and medium bands are not clamped to the maximum.
- `Counting.AdviseMonotone`: monotonicity is proved under the same condition, with a non-negative bankroll and Kelly fraction.
- `Strategy.GetAction`: its own contract states only the doubling guard. Each step of the cascade is stated by a lemma that follows it: `SurrenderExactly`, `SplitExactly`, `SoftLookup`, `HardLookup`, `LowTotalsFallThrough` and `BustStands`, with `DoublingOnlyDowngrades` for the doubling permission.
