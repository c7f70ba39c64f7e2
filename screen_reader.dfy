/**
  The text side of the screen reader: turning OCR text into rank strings
  (ScreenReader.parse_cards with CARD_PATTERNS) and deriving which moves the
  player's cards allow (the can_split / can_double / can_surrender part of
  read_game_state).  Capturing and recognising the image is not modelled;
  the OCR text is the input.
*/
module ScreenReader {
  import opened Ranks
  import Strategy

  // ---------------------------------------------------------------------
  // Noise substitution
  // ---------------------------------------------------------------------

  /** str.replace for a single character: every occurrence of a becomes b. */
  function Replace(s: string, a: char, b: char): (r: string)
    ensures |r| == |s|
    ensures forall i :: 0 <= i < |s| ==> r[i] == (if s[i] == a then b else s[i])
  {
    if s == [] then [] else [if s[0] == a then b else s[0]] + Replace(s[1..], a, b)
  }

  /** How the clean-up reads one character. */
  function CleanChar(c: char): char
  {
    if c == '|' || c == 'l' then '1' else if c == 'o' then '0' else c
  }

  /**
    The OCR clean-up: '|' and 'l' read as '1', 'o' reads as '0'.  The three
    replacements in a row act on each character on its own.
  */
  function Denoise(text: string): (r: string)
    ensures |r| == |text|
    ensures forall i :: 0 <= i < |text| ==> r[i] == CleanChar(text[i])
  {
    Replace(Replace(Replace(text, '|', '1'), 'l', '1'), 'o', '0')
  }

  /** After clean-up no '|', 'l' or 'o' is left, and every other character is kept. */
  lemma DenoiseRemovesNoise(text: string)
    ensures |Denoise(text)| == |text|
    ensures '|' !in Denoise(text) && 'l' !in Denoise(text) && 'o' !in Denoise(text)
    ensures forall i :: 0 <= i < |text| && text[i] !in {'|', 'l', 'o'} ==> Denoise(text)[i] == text[i]
  {
    var t := Denoise(text);
    forall i | 0 <= i < |t|
      ensures t[i] != '|' && t[i] != 'l' && t[i] != 'o'
    {
    }
  }

  // ---------------------------------------------------------------------
  // Substring patterns
  // ---------------------------------------------------------------------

  /** Python's `pat in text` on strings; the empty pattern is in every text. */
  predicate Contains(text: string, pat: string)
    ensures pat == [] ==> Contains(text, pat)
    decreases |text|
  {
    (|pat| <= |text| && text[..|pat|] == pat) || (text != [] && Contains(text[1..], pat))
  }

  /** pat occurs in text at offset i. */
  predicate OccursAt(text: string, pat: string, i: int)
  {
    0 <= i && i + |pat| <= |text| && text[i..i + |pat|] == pat
  }

  /** Contains means pat occurs at some offset of text. */
  lemma {:induction false} ContainsOccurs(text: string, pat: string)
    ensures Contains(text, pat) <==> exists i :: OccursAt(text, pat, i)
    decreases |text|
  {
    if |pat| <= |text| && text[..|pat|] == pat {
      assert OccursAt(text, pat, 0);
    } else if text == [] {
    } else {
      ContainsOccurs(text[1..], pat);
      if exists i :: OccursAt(text, pat, i) {
        var i :| OccursAt(text, pat, i);
        assert i != 0;
        assert text[1..][i - 1..i - 1 + |pat|] == text[i..i + |pat|];
        assert OccursAt(text[1..], pat, i - 1);
      }
      if exists i :: OccursAt(text[1..], pat, i) {
        var i :| OccursAt(text[1..], pat, i);
        assert text[i + 1..i + 1 + |pat|] == text[1..][i..i + |pat|];
        assert OccursAt(text, pat, i + 1);
      }
    }
  }

  /** Every character of a pattern that occurs in text occurs in text. */
  lemma {:induction false} ContainsChars(text: string, pat: string, c: char)
    requires Contains(text, pat) && c in pat
    ensures c in text
    decreases |text|
  {
    if |pat| <= |text| && text[..|pat|] == pat {
      var j :| 0 <= j < |pat| && pat[j] == c;
      assert text[j] == c;
    } else {
      ContainsChars(text[1..], pat, c);
    }
  }

  /** CARD_PATTERNS, in the dictionary's order: each rank string and its patterns. */
  const CardPatterns: seq<(string, seq<string>)> :=
    [("A", ["ace", "a"]),
     ("2", ["2", "two"]),
     ("3", ["3", "three"]),
     ("4", ["4", "four"]),
     ("5", ["5", "five"]),
     ("6", ["6", "six"]),
     ("7", ["7", "seven"]),
     ("8", ["8", "eight"]),
     ("9", ["9", "nine"]),
     ("10", ["10", "ten"]),
     ("J", ["j", "jack"]),
     ("Q", ["q", "queen"]),
     ("K", ["k", "king"])]

  /** The keys of CARD_PATTERNS are the thirteen rank strings. */
  lemma CardPatternKeys()
    ensures forall i :: 0 <= i < |CardPatterns| ==> CardPatterns[i].0 in RankSymbols
    ensures forall i :: 1 <= i < |CardPatterns| ==> CardPatterns[i].0 != "A"
  {
  }

  /** The positions of the patterns that occur in text. */
  function FoundPatterns(patterns: seq<string>, text: string): set<int>
  {
    set j | 0 <= j < |patterns| && Contains(text, patterns[j])
  }

  /**
    One rank's inner loop: the rank once for each of its patterns found in
    text, and nothing else.
  */
  function EntryHits(rank: string, patterns: seq<string>, text: string): (r: seq<string>)
    ensures |r| == |FoundPatterns(patterns, text)|
    ensures forall x :: x in r ==> x == rank
  {
    if patterns == [] then
      assert FoundPatterns(patterns, text) == {};
      []
    else
      var n := |patterns|;
      var found := Contains(text, patterns[n - 1]);
      assert FoundPatterns(patterns, text)
          == FoundPatterns(patterns[..n - 1], text) + (if found then {n - 1} else {});
      EntryHits(rank, patterns[..n - 1], text) + (if found then [rank] else [])
  }

  /** The ranks that key a list of entries. */
  function KeysOf(entries: seq<(string, seq<string>)>): set<string>
  {
    set e | e in entries :: e.0
  }

  /** A rank comes out of its inner loop exactly when one of its patterns is in text. */
  lemma EntryHitsFound(rank: string, patterns: seq<string>, text: string)
    ensures rank in EntryHits(rank, patterns, text)
            <==> exists j :: 0 <= j < |patterns| && Contains(text, patterns[j])
  {
    var r := EntryHits(rank, patterns, text);
    if rank in r {
      assert |FoundPatterns(patterns, text)| != 0;
      var j :| j in FoundPatterns(patterns, text);
    }
    if exists j :: 0 <= j < |patterns| && Contains(text, patterns[j]) {
      var j :| 0 <= j < |patterns| && Contains(text, patterns[j]);
      assert j in FoundPatterns(patterns, text);
      assert r[0] in r;
    }
  }

  /** The pattern pass: the entries' hits one after the other; only their keys come out. */
  function PatternHits(entries: seq<(string, seq<string>)>, text: string): (r: seq<string>)
    ensures forall x :: x in r ==> x in KeysOf(entries)
  {
    if entries == [] then []
    else PatternHits(entries[..|entries| - 1], text)
         + EntryHits(entries[|entries| - 1].0, entries[|entries| - 1].1, text)
  }

  /** Every string out of the pattern pass keys an entry one of whose patterns is in text. */
  lemma {:induction false} PatternHitsSound(entries: seq<(string, seq<string>)>, text: string, x: string)
    requires x in PatternHits(entries, text)
    ensures exists i, j :: 0 <= i < |entries| && 0 <= j < |entries[i].1|
                           && entries[i].0 == x && Contains(text, entries[i].1[j])
  {
    var n := |entries|;
    var init, last := entries[..n - 1], entries[n - 1];
    if x in PatternHits(init, text) {
      PatternHitsSound(init, text, x);
      var i, j :| 0 <= i < |init| && 0 <= j < |init[i].1| && init[i].0 == x && Contains(text, init[i].1[j]);
      assert entries[i] == init[i];
    } else {
      EntryHitsFound(last.0, last.1, text);
      var j :| 0 <= j < |last.1| && Contains(text, last.1[j]);
      assert entries[n - 1].0 == x && entries[n - 1].1[j] == last.1[j];
    }
  }

  /** An entry one of whose patterns is in text puts its key into the pattern pass. */
  lemma {:induction false} PatternHitsComplete(entries: seq<(string, seq<string>)>, text: string, i: int, j: int)
    requires 0 <= i < |entries| && 0 <= j < |entries[i].1|
    requires Contains(text, entries[i].1[j])
    ensures entries[i].0 in PatternHits(entries, text)
  {
    var n := |entries|;
    if i < n - 1 {
      assert entries[..n - 1][i] == entries[i];
      PatternHitsComplete(entries[..n - 1], text, i, j);
    } else {
      EntryHitsFound(entries[i].0, entries[i].1, text);
    }
  }

  /**
    A string comes out of the pattern pass exactly when it keys an entry one
    of whose patterns is in text.
  */
  lemma PatternHitsFound(entries: seq<(string, seq<string>)>, text: string, x: string)
    ensures x in PatternHits(entries, text) <==>
              exists i, j :: 0 <= i < |entries| && 0 <= j < |entries[i].1|
                             && entries[i].0 == x && Contains(text, entries[i].1[j])
  {
    if x in PatternHits(entries, text) {
      PatternHitsSound(entries, text, x);
    }
    if exists i, j :: 0 <= i < |entries| && 0 <= j < |entries[i].1|
                      && entries[i].0 == x && Contains(text, entries[i].1[j]) {
      var i, j :| 0 <= i < |entries| && 0 <= j < |entries[i].1|
                  && entries[i].0 == x && Contains(text, entries[i].1[j]);
      PatternHitsComplete(entries, text, i, j);
    }
  }

  /** The pattern pass over two lists of entries is the two passes concatenated. */
  lemma {:induction false} PatternHitsAppend(a: seq<(string, seq<string>)>, b: seq<(string, seq<string>)>, text: string)
    ensures PatternHits(a + b, text) == PatternHits(a, text) + PatternHits(b, text)
  {
    if b == [] {
      assert a + b == a;
    } else {
      assert (a + b)[..|a + b| - 1] == a + b[..|b| - 1];
      assert (a + b)[|a + b| - 1] == b[|b| - 1];
      PatternHitsAppend(a, b[..|b| - 1], text);
    }
  }

  /** Only the keys of the entries can come out of the pattern pass. */
  lemma {:induction false} PatternHitsKeys(entries: seq<(string, seq<string>)>, text: string, x: string)
    ensures x in PatternHits(entries, text) ==> exists i :: 0 <= i < |entries| && entries[i].0 == x
  {
    if entries == [] {
      return;
    }
    var n := |entries|;
    var last := entries[n - 1];
    if x in PatternHits(entries[..n - 1], text) {
      PatternHitsKeys(entries[..n - 1], text, x);
      var i :| 0 <= i < n - 1 && entries[..n - 1][i].0 == x;
      assert entries[i].0 == x;
    } else if x in EntryHits(last.0, last.1, text) {
      assert entries[n - 1].0 == x;
    }
  }

  // ---------------------------------------------------------------------
  // The numeric pass: re.findall(r'\b([2-9]|10)\b', text)
  // ---------------------------------------------------------------------

  /** A regular-expression word character: an ASCII letter, digit or underscore. */
  predicate IsWordChar(c: char)
  {
    ('a' <= c <= 'z') || ('A' <= c <= 'Z') || ('0' <= c <= '9') || c == '_'
  }

  /** Whether position k of text holds a word character (outside the text: no). */
  predicate WordAt(text: string, k: int)
  {
    0 <= k < |text| && IsWordChar(text[k])
  }

  /** \b at position i: a word character on exactly one side. */
  predicate WordBoundary(text: string, i: int)
  {
    WordAt(text, i - 1) != WordAt(text, i)
  }

  /** The strings the numeric pattern can match: one digit 2..9, or "10". */
  predicate IsNumberToken(s: string)
  {
    (|s| == 1 && '2' <= s[0] <= '9') || s == "10"
  }

  /** A number token of length m at position j, framed by word boundaries. */
  predicate TokenAt(text: string, j: int, m: int)
  {
    0 <= j && j + m <= |text| && (m == 1 || m == 2) && IsNumberToken(text[j..j + m])
    && WordBoundary(text, j) && WordBoundary(text, j + m)
  }

  /**
    The length of the match starting at i, 0 for none: the regex tries [2-9]
    first and then "10", each framed by word boundaries.  A match is found
    exactly when a bounded token starts at i.
  */
  function MatchAt(text: string, i: nat): (n: nat)
    requires i <= |text|
    ensures n <= |text| - i
    ensures n != 0 ==> IsNumberToken(text[i..i + n])
    ensures n != 0 ==> WordBoundary(text, i) && WordBoundary(text, i + n)
    ensures n != 0 ==> TokenAt(text, i, n)
    ensures forall m :: TokenAt(text, i, m) ==> n == m
  {
    if !WordBoundary(text, i) then 0
    else if i < |text| && '2' <= text[i] <= '9' && WordBoundary(text, i + 1) then 1
    else if i + 2 <= |text| && text[i] == '1' && text[i + 1] == '0' && WordBoundary(text, i + 2) then
      assert text[i..i + 2] == "10";
      2
    else 0
  }

  /** findall from position i on: matches do not overlap; a failed position moves on by one. */
  function ScanFrom(text: string, i: nat): (ms: seq<string>)
    requires i <= |text|
    ensures forall k :: 0 <= k < |ms| ==> IsNumberToken(ms[k])
    decreases |text| - i
  {
    if i == |text| then []
    else
      var n := MatchAt(text, i);
      if n == 0 then ScanFrom(text, i + 1) else [text[i..i + n]] + ScanFrom(text, i + n)
  }

  /**
    Independent reading of findall from position i on: look at every
    position, left to right, and take the bounded token that starts there.
  */
  function TokensFrom(text: string, i: nat): seq<string>
    decreases |text| - i
  {
    if i >= |text| then []
    else
      (if TokenAt(text, i, 1) then [text[i..i + 1]]
       else if TokenAt(text, i, 2) then [text[i..i + 2]]
       else [])
      + TokensFrom(text, i + 1)
  }

  /** No bounded token starts on the "0" of a "10". */
  lemma NoTokenInsideTen(text: string, i: nat)
    requires i + 2 <= |text| && text[i] == '1' && text[i + 1] == '0'
    ensures !TokenAt(text, i + 1, 1) && !TokenAt(text, i + 1, 2)
  {
  }

  /**
    Scanning with skips over matches finds exactly the bounded tokens at every
    position, in order: a match never hides another token, because no token
    starts inside one.
  */
  lemma {:induction false} ScanFindsAllTokens(text: string, i: nat)
    requires i <= |text|
    ensures ScanFrom(text, i) == TokensFrom(text, i)
    decreases |text| - i
  {
    if i < |text| {
      var n := MatchAt(text, i);
      if n == 2 {
        assert text[i..i + 2][0] == text[i] && text[i..i + 2][1] == text[i + 1];
        NoTokenInsideTen(text, i);
        assert TokensFrom(text, i + 1) == TokensFrom(text, i + 2);
        ScanFindsAllTokens(text, i + 2);
      } else {
        ScanFindsAllTokens(text, i + 1);
      }
    }
  }

  /** Every bounded token at or after i is among the tokens from i. */
  lemma {:induction false} TokensFromHas(text: string, i: nat, j: nat, m: int)
    requires i <= j && TokenAt(text, j, m)
    ensures text[j..j + m] in TokensFrom(text, i)
    decreases j - i
  {
    if i < j {
      TokensFromHas(text, i + 1, j, m);
    } else if m == 2 {
      assert text[j..j + 2][0] == text[j] && text[j..j + 2] == "10";
      assert !IsNumberToken(text[j..j + 1]);
    }
  }

  /** The scan from i returns every word-bounded number token at or after i. */
  lemma ScanFindsToken(text: string, i: nat, j: nat, m: int)
    requires i <= j && TokenAt(text, j, m)
    ensures text[j..j + m] in ScanFrom(text, i)
  {
    ScanFindsAllTokens(text, i);
    TokensFromHas(text, i, j, m);
  }

  /** All numeric matches of the text: the bounded tokens at each position, left to right. */
  function NumberMatches(text: string): (ms: seq<string>)
    ensures ms == TokensFrom(text, 0)
  {
    ScanFindsAllTokens(text, 0);
    ScanFrom(text, 0)
  }

  /** Every number token is a rank string. */
  lemma NumberTokenIsRank(s: string)
    requires IsNumberToken(s)
    ensures s in RankSymbols
  {
    if |s| == 1 {
      var c := s[0];
      assert s == [c];
      if c == '2' { assert s == "2"; }
      else if c == '3' { assert s == "3"; }
      else if c == '4' { assert s == "4"; }
      else if c == '5' { assert s == "5"; }
      else if c == '6' { assert s == "6"; }
      else if c == '7' { assert s == "7"; }
      else if c == '8' { assert s == "8"; }
      else { assert s == "9"; }
    }
  }

  /** Numbers must stand alone: "10" and "9" apart are found, digits inside words or longer numbers are not. */
  lemma NumberMatchExamples()
    ensures NumberMatches("10 9") == ["10", "9"]
    ensures NumberMatches("23") == []
    ensures NumberMatches("k7") == []
    ensures NumberMatches("1") == []
  {
    var t := "10 9";
    assert MatchAt(t, 0) == 2;
    assert t[0..2] == "10";
    assert MatchAt(t, 2) == 0;
    assert MatchAt(t, 3) == 1;
    assert t[3..4] == "9";
    assert ScanFrom(t, 3) == ["9"];
    var u := "23";
    assert MatchAt(u, 0) == 0;
    assert MatchAt(u, 1) == 0;
    var v := "k7";
    assert MatchAt(v, 0) == 0;
    assert MatchAt(v, 1) == 0;
    assert MatchAt("1", 0) == 0;
  }

  // ---------------------------------------------------------------------
  // Appending the numeric matches
  // ---------------------------------------------------------------------

  /** The position of the first occurrence of x in s. */
  function FirstIndex(x: string, s: seq<string>): (k: nat)
    requires x in s
    ensures k < |s| && s[k] == x && x !in s[..k]
  {
    if s[0] == x then 0
    else
      var k := 1 + FirstIndex(x, s[1..]);
      assert s[..k] == [s[0]] + s[1..][..k - 1];
      k
  }

  /** The first occurrence is the only position with x and no x before it. */
  lemma FirstIndexUnique(x: string, s: seq<string>, k: nat)
    requires k < |s| && s[k] == x && x !in s[..k]
    ensures FirstIndex(x, s) == k
  {
  }

  /** Appending to s moves no first occurrence of an element of s ... */
  lemma FirstIndexSnoc(s: seq<string>, z: string)
    ensures forall x :: x in s ==> FirstIndex(x, s + [z]) == FirstIndex(x, s)
    ensures z !in s ==> FirstIndex(z, s + [z]) == |s|
  {
    forall x | x in s
      ensures FirstIndex(x, s + [z]) == FirstIndex(x, s)
    {
      var k := FirstIndex(x, s);
      assert (s + [z])[..k] == s[..k];
      FirstIndexUnique(x, s + [z], k);
    }
    if z !in s {
      assert (s + [z])[..|s|] == s;
      FirstIndexUnique(z, s + [z], |s|);
    }
  }

  /**
    The numeric loop: each match is appended unless the list already holds
    it.  The list grows only at its end, by new and pairwise different
    elements, in the order of their first occurrence among the matches, and
    ends up holding every match.
  */
  function AppendNew(acc: seq<string>, nums: seq<string>): (r: seq<string>)
    ensures |acc| <= |r| && r[..|acc|] == acc
    ensures forall i :: |acc| <= i < |r| ==> r[i] !in acc && r[i] in nums
    ensures forall i, j :: |acc| <= i < j < |r| ==> r[i] != r[j]
    ensures forall i, j :: |acc| <= i < j < |r| ==> FirstIndex(r[i], nums) < FirstIndex(r[j], nums)
    ensures forall x :: x in nums ==> x in r
  {
    if nums == [] then acc
    else
      var init := nums[..|nums| - 1];
      var prev := AppendNew(acc, init);
      var x := nums[|nums| - 1];
      assert nums == init + [x];
      assert forall y :: y in nums ==> y in init || y == x;
      FirstIndexSnoc(init, x);
      if x in prev then prev else prev + [x]
  }

  /** After the numeric loop a string that was not there before occurs at most once. */
  lemma AppendNewAtMostOnce(acc: seq<string>, nums: seq<string>, x: string, i: int, j: int)
    requires x !in acc
    requires 0 <= i < j < |AppendNew(acc, nums)|
    ensures AppendNew(acc, nums)[i] != x || AppendNew(acc, nums)[j] != x
  {
    var r := AppendNew(acc, nums);
    if i < |acc| {
      assert r[i] == r[..|acc|][i];
    }
  }

  // ---------------------------------------------------------------------
  // parse_cards
  // ---------------------------------------------------------------------

  /**
    What parse_cards returns for the OCR text: the pattern hits first, then
    every numeric match that is not among them yet.
  */
  function Parsed(text: string): (r: seq<string>)
    ensures var hits := PatternHits(CardPatterns, Denoise(text));
            |hits| <= |r| && r[..|hits|] == hits
    ensures forall x :: x in NumberMatches(Denoise(text)) ==> x in r
  {
    var t := Denoise(text);
    AppendNew(PatternHits(CardPatterns, t), NumberMatches(t))
  }

  /** The nested pattern loop of parse_cards over the entries in order. */
  method PatternPass(entries: seq<(string, seq<string>)>, t: string) returns (cards: seq<string>)
    ensures cards == PatternHits(entries, t)
  {
    cards := [];
    var i := 0;
    while i < |entries|
      invariant 0 <= i <= |entries|
      invariant cards == PatternHits(entries[..i], t)
    {
      var rank, patterns := entries[i].0, entries[i].1;
      var j := 0;
      while j < |patterns|
        invariant 0 <= j <= |patterns|
        invariant cards == PatternHits(entries[..i], t) + EntryHits(rank, patterns[..j], t)
      {
        assert patterns[..j + 1][..j] == patterns[..j];
        assert EntryHits(rank, patterns[..j + 1], t)
            == EntryHits(rank, patterns[..j], t) + (if Contains(t, patterns[j]) then [rank] else []);
        if Contains(t, patterns[j]) {
          cards := cards + [rank];
        }
        j := j + 1;
      }
      assert patterns[..j] == patterns;
      assert entries[..i + 1][..i] == entries[..i];
      assert PatternHits(entries[..i + 1], t) == PatternHits(entries[..i], t) + EntryHits(rank, patterns, t);
      i := i + 1;
    }
    assert entries[..i] == entries;
  }

  /** The numeric loop of parse_cards: append each match the list does not hold yet. */
  method NumericPass(found: seq<string>, numbers: seq<string>) returns (cards: seq<string>)
    ensures cards == AppendNew(found, numbers)
  {
    cards := found;
    var k := 0;
    while k < |numbers|
      invariant 0 <= k <= |numbers|
      invariant cards == AppendNew(found, numbers[..k])
    {
      if numbers[k] !in cards {
        cards := cards + [numbers[k]];
      }
      assert numbers[..k + 1][..k] == numbers[..k];
      k := k + 1;
    }
    assert numbers[..k] == numbers;
  }

  /** ScreenReader.parse_cards: clean the text, run the pattern pass, then the numeric pass. */
  method ParseCards(text: string) returns (cards: seq<string>)
    ensures cards == Parsed(text)
    ensures forall c :: c in cards ==> c in RankSymbols
  {
    var t := Replace(text, '|', '1');
    t := Replace(t, 'l', '1');
    t := Replace(t, 'o', '0');
    cards := PatternPass(CardPatterns, t);
    cards := NumericPass(cards, NumberMatches(t));
    ParsedRanks(text);
  }

  /** Every string parse_cards returns is one of the thirteen rank strings. */
  lemma ParsedRanks(text: string)
    ensures forall c :: c in Parsed(text) ==> c in RankSymbols
  {
    var t := Denoise(text);
    var hits, nums := PatternHits(CardPatterns, t), NumberMatches(t);
    CardPatternKeys();
    forall c | c in Parsed(text)
      ensures c in RankSymbols
    {
      var r := AppendNew(hits, nums);
      var k :| 0 <= k < |r| && r[k] == c;
      if k < |hits| {
        assert r[..|hits|][k] == c;
        PatternHitsKeys(CardPatterns, t, c);
      } else {
        var m :| 0 <= m < |nums| && nums[m] == c;
        NumberTokenIsRank(c);
      }
    }
  }

  /** A rank one of whose patterns is in the cleaned text is among the parsed cards. */
  lemma ParsedFindsPattern(text: string, i: int, j: int)
    requires 0 <= i < |CardPatterns| && 0 <= j < |CardPatterns[i].1|
    requires Contains(Denoise(text), CardPatterns[i].1[j])
    ensures CardPatterns[i].0 in Parsed(text)
  {
    var t := Denoise(text);
    var hits := PatternHits(CardPatterns, t);
    PatternHitsFound(CardPatterns, t, CardPatterns[i].0);
    var k :| 0 <= k < |hits| && hits[k] == CardPatterns[i].0;
    assert Parsed(text)[..|hits|][k] == Parsed(text)[k];
  }

  /**
    A card string that is no number token (A, J, Q or K) is parsed exactly
    when one of its patterns is in the cleaned text.
  */
  lemma ParsedLetterRanks(text: string, x: string)
    requires !IsNumberToken(x)
    ensures x in Parsed(text) <==>
              exists i, j :: 0 <= i < |CardPatterns| && 0 <= j < |CardPatterns[i].1|
                             && CardPatterns[i].0 == x && Contains(Denoise(text), CardPatterns[i].1[j])
  {
    var t := Denoise(text);
    var hits, nums := PatternHits(CardPatterns, t), NumberMatches(t);
    var r := Parsed(text);
    PatternHitsFound(CardPatterns, t, x);
    assert x !in nums;
    if x in r {
      var k :| 0 <= k < |r| && r[k] == x;
      assert r[..|hits|][k] == x;
    }
    if x in hits {
      var k :| 0 <= k < |hits| && hits[k] == x;
      assert r[..|hits|][k] == x;
    }
  }

  /** "K" is parsed from any text whose cleaned form holds a "k", the rank's short pattern. */
  lemma ReadsKing(text: string)
    requires Contains(Denoise(text), "k")
    ensures "K" in Parsed(text)
  {
    assert CardPatterns[12].1[0] == "k";
    ParsedFindsPattern(text, 12, 0);
  }

  /** The noise substitution turns "two" into "tw0" and "four" into "f0ur", so they never match. */
  lemma SpelledTwoAndFourNeverMatch(text: string)
    ensures !Contains(Denoise(text), "two") && !Contains(Denoise(text), "four")
  {
    DenoiseRemovesNoise(text);
    if Contains(Denoise(text), "two") {
      ContainsChars(Denoise(text), "two", 'o');
    }
    if Contains(Denoise(text), "four") {
      ContainsChars(Denoise(text), "four", 'o');
    }
  }

  /** Empty text gives no cards. */
  lemma EmptyTextNoCards()
    ensures Parsed("") == []
  {
    EmptyHasNoHits(CardPatterns, "");
    assert NumberMatches("") == [];
  }

  /** Only the empty pattern occurs in the empty text, and no entry has one. */
  lemma {:induction false} EmptyHasNoHits(entries: seq<(string, seq<string>)>, text: string)
    requires text == []
    requires forall i, j :: 0 <= i < |entries| && 0 <= j < |entries[i].1| ==> entries[i].1[j] != []
    ensures PatternHits(entries, text) == []
  {
    if entries != [] {
      EmptyHasNoHits(entries[..|entries| - 1], text);
      EmptyEntryHits(entries[|entries| - 1].0, entries[|entries| - 1].1, text);
    }
  }

  lemma {:induction false} EmptyEntryHits(rank: string, patterns: seq<string>, text: string)
    requires text == []
    requires forall j :: 0 <= j < |patterns| ==> patterns[j] != []
    ensures EntryHits(rank, patterns, text) == []
  {
    if patterns != [] {
      EmptyEntryHits(rank, patterns[..|patterns| - 1], text);
    }
  }

  /** A text that reads "ace" gives "A" twice: once for "ace" and once for its "a". */
  lemma AceCountsTwice(text: string)
    requires Contains(Denoise(text), "ace")
    ensures multiset(Parsed(text))["A"] == 2
  {
    var t := Denoise(text);
    assert CardPatterns == CardPatterns[..1] + CardPatterns[1..];
    PatternHitsAppend(CardPatterns[..1], CardPatterns[1..], t);
    AceEntry(t);
    OnlyFirstEntryIsAce(t);
    var hits := PatternHits(CardPatterns, t);
    assert multiset(hits)["A"] == 2;
    NumbersAddNoAce(hits, NumberMatches(t));
  }

  /** The first entry of CARD_PATTERNS hits twice on a text that reads "ace". */
  lemma AceEntry(t: string)
    requires Contains(t, "ace")
    ensures PatternHits(CardPatterns[..1], t) == ["A", "A"]
  {
    ContainsOccurs(t, "ace");
    var i :| OccursAt(t, "ace", i);
    assert t[i..i + 1] == t[i..i + 3][..1];
    assert OccursAt(t, "a", i);
    ContainsOccurs(t, "a");
    var entries := CardPatterns[..1];
    assert entries == [("A", ["ace", "a"])];
    assert entries[..0] == [];
    var pats := ["ace", "a"];
    assert Contains(t, pats[1]) && Contains(t, pats[..1][0]);
    assert pats[..1] == ["ace"] && pats[..1][..0] == [];
    assert EntryHits("A", pats[..1], t) == ["A"];
    assert EntryHits("A", pats, t) == ["A", "A"];
  }

  /** No entry after the first has "A" as its rank. */
  lemma OnlyFirstEntryIsAce(t: string)
    ensures "A" !in PatternHits(CardPatterns[1..], t)
  {
    PatternHitsKeys(CardPatterns[1..], t, "A");
    CardPatternKeys();
    assert forall k :: 0 <= k < |CardPatterns[1..]| ==> CardPatterns[1..][k].0 == CardPatterns[k + 1].0;
  }

  /** The numeric pass never adds "A". */
  lemma NumbersAddNoAce(hits: seq<string>, nums: seq<string>)
    requires forall k :: 0 <= k < |nums| ==> IsNumberToken(nums[k])
    ensures multiset(AppendNew(hits, nums))["A"] == multiset(hits)["A"]
  {
    var r := AppendNew(hits, nums);
    assert r == hits + r[|hits|..];
    forall m | |hits| <= m < |r|
      ensures r[m] != "A"
    {
      var n :| 0 <= n < |nums| && nums[n] == r[m];
      assert IsNumberToken(nums[n]);
      assert "A"[0] == 'A';
    }
    assert "A" !in r[|hits|..];
  }

  // ---------------------------------------------------------------------
  // Move eligibility in read_game_state
  // ---------------------------------------------------------------------

  /** The moves the player's cards allow. */
  datatype Eligibility = Eligibility(canSplit: bool, canDouble: bool, canSurrender: bool)

  /**
    Splitting takes two equal strings or two ten-valued ones; doubling and
    surrender take exactly two cards, so they are allowed together and
    splitting implies both.
  */
  function EligibilityOf(playerCards: seq<string>): (r: Eligibility)
    ensures r.canDouble <==> |playerCards| == 2
    ensures r.canSurrender == r.canDouble
    ensures r.canSplit ==> r.canDouble
  {
    var two := |playerCards| == 2;
    var tens := {"J", "Q", "K", "10"};
    Eligibility(
      two && (playerCards[0] == playerCards[1]
              || (playerCards[0] in tens && playerCards[1] in tens)),
      two,
      two)
  }

  /** On rank strings, the split rule is the strategy engine's pair test. */
  lemma SplitMeansPair(rs: seq<Rank>)
    ensures EligibilityOf(Symbols(rs)).canSplit <==> Strategy.IsPair(Strategy.Hand(rs))
  {
    if |rs| == 2 {
      var a, b := rs[0], rs[1];
      SymbolInjective(a, b);
      TenValuedSymbol(a);
      TenValuedSymbol(b);
    }
  }

  /** A rank's string is one of J, Q, K, 10 exactly when the rank counts as ten for pairs. */
  lemma TenValuedSymbol(r: Rank)
    ensures Symbol(r) in {"J", "Q", "K", "10"} <==> Strategy.PairRank(r) == Ten
  {
  }
}
