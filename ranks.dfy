/**
  Card ranks as the bot writes them: the thirteen strings "2".."10", "J",
  "Q", "K" and "A".  The strategy engine works on ranks; the counter and the
  screen reader keep the strings, so the two views are bridged here.
*/
module Ranks {
  import opened Options

  datatype Rank = Two | Three | Four | Five | Six | Seven | Eight | Nine | Ten
                | Jack | Queen | King | Ace

  /** The string the source uses for a rank. */
  function Symbol(r: Rank): string
  {
    match r
    case Two => "2"
    case Three => "3"
    case Four => "4"
    case Five => "5"
    case Six => "6"
    case Seven => "7"
    case Eight => "8"
    case Nine => "9"
    case Ten => "10"
    case Jack => "J"
    case Queen => "Q"
    case King => "K"
    case Ace => "A"
  }

  /** The thirteen rank strings. */
  const RankSymbols: set<string> :=
    {"2", "3", "4", "5", "6", "7", "8", "9", "10", "J", "Q", "K", "A"}

  /** Reads a rank string; anything else is None. */
  function ParseRank(s: string): (r: Option<Rank>)
    ensures r.Some? <==> s in RankSymbols
    ensures r.Some? ==> Symbol(r.value) == s
  {
    if s == "2" then Some(Two)
    else if s == "3" then Some(Three)
    else if s == "4" then Some(Four)
    else if s == "5" then Some(Five)
    else if s == "6" then Some(Six)
    else if s == "7" then Some(Seven)
    else if s == "8" then Some(Eight)
    else if s == "9" then Some(Nine)
    else if s == "10" then Some(Ten)
    else if s == "J" then Some(Jack)
    else if s == "Q" then Some(Queen)
    else if s == "K" then Some(King)
    else if s == "A" then Some(Ace)
    else None
  }

  /** Reading a rank's string gives the rank back, so Symbol is injective. */
  lemma ParseSymbol(r: Rank)
    ensures Symbol(r) in RankSymbols
    ensures ParseRank(Symbol(r)) == Some(r)
  {
  }

  lemma SymbolInjective(r1: Rank, r2: Rank)
    ensures Symbol(r1) == Symbol(r2) <==> r1 == r2
  {
    ParseSymbol(r1);
    ParseSymbol(r2);
  }

  /** The string form of a whole hand. */
  function Symbols(rs: seq<Rank>): (ss: seq<string>)
    ensures |ss| == |rs|
    ensures forall i :: 0 <= i < |rs| ==> ss[i] == Symbol(rs[i])
  {
    seq(|rs|, i requires 0 <= i < |rs| => Symbol(rs[i]))
  }
}
