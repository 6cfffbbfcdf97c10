/** The browser's side of a match (src/webpages/Game.js): the preview
    calculator that shows what every category would score on the dice on the
    table, the per-die "roll again" flags, the index list a roll request
    carries, and the totals and bonus flag shown under each score sheet.
    Unlike the server's update_total, these totals skip the -1 entries. */
module ClientGame {
  import opened Scoring

  /** Some face below n shows between lo and hi dice. */
  ghost predicate ShowsBelow(count: map<int, int>, n: int, lo: int, hi: int) {
    exists f :: 1 <= f < n && f in count && lo <= count[f] <= hi
  }

  /** Every face from lo to hi is shown by at least one die. */
  ghost predicate Covers(count: map<int, int>, lo: int, hi: int) {
    forall f :: lo <= f <= hi ==> f in count && count[f] >= 1
  }

  /** The counting loop of calculator: a table of zeros for faces 1..6, then
      one more for each die. */
  method CountFaces(dice: seq<int>) returns (count: map<int, int>)
    requires AllFaces(dice)
    ensures count == CountTable(dice)
  {
    count := map[1 := 0, 2 := 0, 3 := 0, 4 := 0, 5 := 0, 6 := 0];
    assert count == CountTable([]);
    for i := 0 to |dice|
      invariant count == CountTable(dice[..i])
    {
      assert dice[..i + 1] == dice[..i] + [dice[i]];
      CountTableSnoc(dice[..i], dice[i]);
      count := count[dice[i] := count[dice[i]] + 1];
    }
    assert dice[..|dice|] == dice;
  }

  /** The reduce of calculator: the pips added from the first die on. */
  method SumDice(dice: seq<int>) returns (sum: int)
    ensures sum == Sum(dice)
  {
    sum := 0;
    for i := 0 to |dice|
      invariant sum == Sum(dice[..i])
    {
      assert dice[..i + 1][..i] == dice[..i];
      sum := sum + dice[i];
    }
    assert dice[..|dice|] == dice;
  }

  /** The upper-section loop of calculator: face n previews n times the
      number of dice showing n. */
  method UpperPreview(count: map<int, int>) returns (upper: map<Category, int>)
    requires forall f :: IsFace(f) ==> f in count
    ensures upper.Keys == UpperKeys
    ensures forall c: Category :: c.IsUpper() ==> upper[c] == c.Face() * count[c.Face()]
  {
    upper := map[Ones := 0, Twos := 0, Threes := 0, Fours := 0, Fives := 0, Sixes := 0];
    for num := 1 to 7
      invariant upper.Keys == UpperKeys
      invariant forall c: Category :: c.IsUpper() && c.Face() < num ==> upper[c] == c.Face() * count[c.Face()]
    {
      upper := upper[UpperCategory(num) := num * count[num]];
    }
  }

  /** The lower-section part of calculator, on the count table and the sum:
      3-of-a-kind is the sum when some face shows 3, 4 or 5 times, 4-of-a-kind
      when some face shows 4 or 5 times, full house 25 when one face shows
      exactly 3 times and one exactly twice, Yahtzee 50 when one face shows
      5 times, the straights 30 and 40 for their windows of faces, and chance
      the sum. */
  method LowerPreview(count: map<int, int>, sum: int) returns (lower: map<Category, int>)
    requires forall f :: IsFace(f) ==> f in count
    ensures lower.Keys == LowerKeys
    ensures LowerPreviewed(count, sum, lower)
  {
    lower := OfAKindPreview(count, sum);
    if count[1] >= 1 && count[2] >= 1 && count[3] >= 1 && count[4] >= 1 {
      lower := lower[SmallStraight := 30];
    }
    if count[2] >= 1 && count[3] >= 1 && count[4] >= 1 && count[5] >= 1 {
      lower := lower[SmallStraight := 30];
    }
    if count[3] >= 1 && count[4] >= 1 && count[5] >= 1 && count[6] >= 1 {
      lower := lower[SmallStraight := 30];
    }
    if count[1] >= 1 && count[2] >= 1 && count[3] >= 1 && count[4] >= 1 && count[5] >= 1 {
      lower := lower[LargeStraight := 40];
    }
    if count[2] >= 1 && count[3] >= 1 && count[4] >= 1 && count[5] >= 1 && count[6] >= 1 {
      lower := lower[LargeStraight := 40];
    }
    lower := lower[Chance := sum];
  }

  /** The loop of calculator over the faces that fills 3-of-a-kind,
      4-of-a-kind, full house and Yahtzee; the other lower entries stay 0. */
  method OfAKindPreview(count: map<int, int>, sum: int) returns (lower: map<Category, int>)
    requires forall f :: IsFace(f) ==> f in count
    ensures lower.Keys == LowerKeys
    ensures lower[ThreeOfAKind] == if Shows(count, 3, 5) then sum else 0
    ensures lower[FourOfAKind] == if Shows(count, 4, 5) then sum else 0
    ensures lower[FullHouse] == if Shows(count, 3, 3) && Shows(count, 2, 2) then 25 else 0
    ensures lower[Yahtzee] == if Shows(count, 5, 5) then 50 else 0
    ensures lower[SmallStraight] == 0 && lower[LargeStraight] == 0 && lower[Chance] == 0
  {
    lower := map[ThreeOfAKind := 0, FourOfAKind := 0, FullHouse := 0, SmallStraight := 0,
                 LargeStraight := 0, Yahtzee := 0, Chance := 0];
    for k := 1 to 7
      invariant lower.Keys == LowerKeys
      invariant lower[ThreeOfAKind] == if ShowsBelow(count, k, 3, 5) then sum else 0
      invariant lower[FourOfAKind] == if ShowsBelow(count, k, 4, 5) then sum else 0
      invariant lower[FullHouse] == if ShowsBelow(count, k, 3, 3) && Shows(count, 2, 2) then 25 else 0
      invariant lower[Yahtzee] == if ShowsBelow(count, k, 5, 5) then 50 else 0
      invariant lower[SmallStraight] == 0 && lower[LargeStraight] == 0 && lower[Chance] == 0
    {
      if count[k] == 3 {
        lower := lower[ThreeOfAKind := sum];
        var pair := HasPair(count);
        if pair {
          lower := lower[FullHouse := 25];
        }
      } else if count[k] == 4 {
        lower := lower[ThreeOfAKind := sum][FourOfAKind := sum];
      } else if count[k] == 5 {
        lower := lower[ThreeOfAKind := sum][FourOfAKind := sum][Yahtzee := 50];
      }
      assert ShowsBelow(count, k + 1, 3, 5) <==> ShowsBelow(count, k, 3, 5) || 3 <= count[k] <= 5;
      assert ShowsBelow(count, k + 1, 4, 5) <==> ShowsBelow(count, k, 4, 5) || 4 <= count[k] <= 5;
      assert ShowsBelow(count, k + 1, 3, 3) <==> ShowsBelow(count, k, 3, 3) || count[k] == 3;
      assert ShowsBelow(count, k + 1, 5, 5) <==> ShowsBelow(count, k, 5, 5) || count[k] == 5;
    }
    assert forall lo, hi :: ShowsBelow(count, 7, lo, hi) == Shows(count, lo, hi);
  }

  /** The inner loop of calculator's full-house test: whether some face
      shows exactly twice. */
  method HasPair(count: map<int, int>) returns (found: bool)
    requires forall f :: IsFace(f) ==> f in count
    ensures found <==> Shows(count, 2, 2)
  {
    found := false;
    for kPair := 1 to 7
      invariant found <==> ShowsBelow(count, kPair, 2, 2)
    {
      if count[kPair] == 2 {
        found := true;
      }
    }
  }

  /** A face shows between lo and hi times in the count table exactly when
      that many dice show it. */
  lemma ShowsCounts(dice: seq<int>, count: map<int, int>, lo: int, hi: int)
    requires count == CountTable(dice)
    ensures Shows(count, lo, hi) <==> exists f :: IsFace(f) && lo <= Count(dice, f) <= hi
  {
    if exists f :: IsFace(f) && lo <= Count(dice, f) <= hi {
      var f :| IsFace(f) && lo <= Count(dice, f) <= hi;
      assert f in count && count[f] == Count(dice, f);
    }
  }

  /** The preview's full-house test (some face exactly 3 times, some face
      exactly twice) is the full-house rule on the dice. */
  lemma FullHouseRule(dice: seq<int>, count: map<int, int>)
    requires count == CountTable(dice)
    ensures Shows(count, 3, 3) && Shows(count, 2, 2) <==>
      exists f, g :: 1 <= f <= 6 && 1 <= g <= 6 && f != g && Count(dice, f) == 3 && Count(dice, g) == 2
  {
    ShowsCounts(dice, count, 3, 3);
    ShowsCounts(dice, count, 2, 2);
    if Shows(count, 3, 3) && Shows(count, 2, 2) {
      var f :| IsFace(f) && Count(dice, f) == 3;
      var g :| IsFace(g) && Count(dice, g) == 2;
      assert f != g;
    }
  }

  /** The preview's straight windows are the straight rules on the dice. */
  lemma CoversPresent(dice: seq<int>, count: map<int, int>, lo: int, hi: int)
    requires count == CountTable(dice) && 1 <= lo && hi <= 6
    ensures Covers(count, lo, hi) <==> AllPresent(dice, lo, hi)
  {
  }

  /** calculator: the thirteen previews, one per category, each as the
      Yahtzee rules score the five dice on the table. */
  method Calculator(dice: seq<int>) returns (table: map<Category, int>)
    requires |dice| == DiceCount && AllFaces(dice)
    ensures forall c :: c in table
    ensures forall c :: table[c] == Score(dice, c)
  {
    var count := CountFaces(dice);
    var sum := SumDice(dice);
    var upper := UpperPreview(count);
    var lower := LowerPreview(count, sum);
    table := upper + lower;
    PreviewIsScore(dice, count, sum, upper, lower);
  }

  /** The upper and lower previews, merged, give every category its score. */
  lemma PreviewIsScore(dice: seq<int>, count: map<int, int>, sum: int,
                       upper: map<Category, int>, lower: map<Category, int>)
    requires |dice| == DiceCount && count == CountTable(dice) && sum == Sum(dice)
    requires upper.Keys == UpperKeys && lower.Keys == LowerKeys
    requires forall c: Category :: c.IsUpper() ==> upper[c] == c.Face() * count[c.Face()]
    requires LowerPreviewed(count, sum, lower)
    ensures forall c :: c in upper + lower
    ensures forall c :: (upper + lower)[c] == Score(dice, c)
  {
    var table := upper + lower;
    forall c
      ensures c in table && table[c] == Score(dice, c)
    {
      SectionOf(c);
      if c.IsUpper() {
        UpperEntryIsScore(dice, count, c);
      } else {
        LowerEntryIsScore(dice, count, sum, lower, c);
      }
    }
  }

  /** The lower-section previews as calculator leaves them. */
  ghost predicate LowerPreviewed(count: map<int, int>, sum: int, lower: map<Category, int>)
    requires lower.Keys == LowerKeys
  {
    && lower[ThreeOfAKind] == (if Shows(count, 3, 5) then sum else 0)
    && lower[FourOfAKind] == (if Shows(count, 4, 5) then sum else 0)
    && lower[FullHouse] == (if Shows(count, 3, 3) && Shows(count, 2, 2) then 25 else 0)
    && lower[Yahtzee] == (if Shows(count, 5, 5) then 50 else 0)
    && lower[SmallStraight] == (if Covers(count, 1, 4) || Covers(count, 2, 5) || Covers(count, 3, 6) then 30 else 0)
    && lower[LargeStraight] == (if Covers(count, 1, 5) || Covers(count, 2, 6) then 40 else 0)
    && lower[Chance] == sum
  }

  /** Face n's preview, n times the count of n, is the upper rule. */
  lemma UpperEntryIsScore(dice: seq<int>, count: map<int, int>, c: Category)
    requires count == CountTable(dice) && c.IsUpper()
    ensures c.Face() * count[c.Face()] == Score(dice, c)
  {
  }

  /** Each lower preview is its rule's score. */
  lemma LowerEntryIsScore(dice: seq<int>, count: map<int, int>, sum: int, lower: map<Category, int>, c: Category)
    requires |dice| == DiceCount && count == CountTable(dice) && sum == Sum(dice)
    requires lower.Keys == LowerKeys && LowerPreviewed(count, sum, lower)
    requires !c.IsUpper()
    ensures lower[c] == Score(dice, c)
  {
    match c
    case ThreeOfAKind => ShowsCounts(dice, count, 3, 5);
    case FourOfAKind => ShowsCounts(dice, count, 4, 5);
    case FullHouse => FullHouseRule(dice, count);
    case SmallStraight =>
      CoversPresent(dice, count, 1, 4);
      CoversPresent(dice, count, 2, 5);
      CoversPresent(dice, count, 3, 6);
    case LargeStraight =>
      CoversPresent(dice, count, 1, 5);
      CoversPresent(dice, count, 2, 6);
    case Yahtzee => ShowsCounts(dice, count, 5, 5);
    case Chance =>
  }

  /** toggleDie: flips whether die i is rolled again, only while the player
      is active and has already rolled this turn; otherwise nothing changes. */
  function ToggleDie(toRoll: seq<bool>, i: int, isActive: bool, iRoll: int): (r: seq<bool>)
    requires 0 <= i < |toRoll|
    ensures |r| == |toRoll|
    ensures forall j :: 0 <= j < |r| && j != i ==> r[j] == toRoll[j]
    ensures r[i] != toRoll[i] <==> isActive && iRoll != 0
  {
    if isActive && iRoll != 0 then toRoll[i := !toRoll[i]] else toRoll
  }

  /** Toggling the same die twice restores the flags. */
  lemma ToggleTwice(toRoll: seq<bool>, i: int, isActive: bool, iRoll: int)
    requires 0 <= i < |toRoll|
    ensures ToggleDie(ToggleDie(toRoll, i, isActive, iRoll), i, isActive, iRoll) == toRoll
  {
    var once := ToggleDie(toRoll, i, isActive, iRoll);
    assert forall j :: 0 <= j < |toRoll| ==> ToggleDie(once, i, isActive, iRoll)[j] == toRoll[j];
  }

  /** The index list roll sends: all five dice on the turn's first roll,
      otherwise the dice whose flag is set, in increasing order, each in 0..4. */
  method RollIndices(toRoll: seq<bool>, iRoll: int) returns (idx: seq<int>)
    requires |toRoll| == DiceCount
    ensures iRoll == 0 ==> idx == [0, 1, 2, 3, 4]
    ensures iRoll != 0 ==> forall j :: j in idx <==> 0 <= j < DiceCount && toRoll[j]
    ensures forall a, b :: 0 <= a < b < |idx| ==> idx[a] < idx[b]
    ensures forall a :: 0 <= a < |idx| ==> 0 <= idx[a] < DiceCount
  {
    if iRoll != 0 {
      idx := [];
      for i := 0 to DiceCount
        invariant forall j :: j in idx <==> 0 <= j < i && toRoll[j]
        invariant forall a, b :: 0 <= a < b < |idx| ==> idx[a] < idx[b]
        invariant forall a :: 0 <= a < |idx| ==> 0 <= idx[a] < i
      {
        if toRoll[i] {
          idx := idx + [i];
        }
      }
    } else {
      idx := [0, 1, 2, 3, 4];
    }
  }

  /** totalUpperSelf / totalUpperOppo: the filled upper entries added up,
      skipping the -1 ones. */
  method TotalUpper(score: map<Category, int>) returns (total: int)
    requires forall c :: c in score
    ensures total == FilledSum(score, UpperOrder)
  {
    total := 0;
    if score[Ones] != Unfilled { total := total + score[Ones]; }
    if score[Twos] != Unfilled { total := total + score[Twos]; }
    if score[Threes] != Unfilled { total := total + score[Threes]; }
    if score[Fours] != Unfilled { total := total + score[Fours]; }
    if score[Fives] != Unfilled { total := total + score[Fives]; }
    if score[Sixes] != Unfilled { total := total + score[Sixes]; }
    UpperSumUnrolled(score);
  }

  /** The sum over the six upper keys, written out. */
  lemma UpperSumUnrolled(m: map<Category, int>)
    ensures FilledSum(m, UpperOrder) ==
      Filled(EntryAt(m, Ones)) + Filled(EntryAt(m, Twos)) + Filled(EntryAt(m, Threes))
      + Filled(EntryAt(m, Fours)) + Filled(EntryAt(m, Fives)) + Filled(EntryAt(m, Sixes))
  {
    var s1, s2, s3 := [Ones], [Ones, Twos], [Ones, Twos, Threes];
    var s4, s5 := [Ones, Twos, Threes, Fours], [Ones, Twos, Threes, Fours, Fives];
    assert s1[..0] == [] && s2[..1] == s1 && s3[..2] == s2 && s4[..3] == s3 && s5[..4] == s4;
    assert UpperOrder[..5] == s5;
    assert FilledSum(m, s1) == Filled(EntryAt(m, Ones));
    assert FilledSum(m, s2) == FilledSum(m, s1) + Filled(EntryAt(m, Twos));
    assert FilledSum(m, s3) == FilledSum(m, s2) + Filled(EntryAt(m, Threes));
    assert FilledSum(m, s4) == FilledSum(m, s3) + Filled(EntryAt(m, Fours));
    assert FilledSum(m, s5) == FilledSum(m, s4) + Filled(EntryAt(m, Fives));
  }

  /** totalSelf / totalOppo: every filled entry of the 13 added up, skipping
      the -1 ones, plus 35 exactly when the bonus flag is set. */
  method Total(score: map<Category, int>, bonus: bool) returns (total: int)
    requires forall c :: c in score
    ensures total == FilledSum(score, Order) + (if bonus then Bonus else 0)
  {
    total := 0;
    for i := 0 to |Order|
      invariant total == FilledSum(score, Order[..i])
    {
      assert Order[..i + 1][..i] == Order[..i];
      if score[Order[i]] != Unfilled {
        total := total + score[Order[i]];
      }
    }
    assert Order[..|Order|] == Order;
    if bonus {
      total := total + Bonus;
    }
  }

  /** updateBonusSelf / updateBonusOppo: the flag becomes true once the upper
      total reaches 63 and is never cleared. */
  method UpdateBonus(score: map<Category, int>, bonus: bool) returns (b: bool)
    requires forall c :: c in score
    ensures b <==> bonus || FilledSum(score, UpperOrder) >= BonusThreshold
  {
    b := bonus;
    var upper := TotalUpper(score);
    if upper >= BonusThreshold {
      b := true;
    }
  }

  /** Writing a score v >= 0 into an unfilled entry never lowers the sum of
      the filled entries. */
  lemma {:induction false} FillRaises(m: map<Category, int>, keys: seq<Category>, c: Category, v: int)
    requires EntryAt(m, c) == Unfilled && v >= 0
    ensures FilledSum(m[c := v], keys) >= FilledSum(m, keys)
  {
    if keys != [] {
      FillRaises(m, keys[..|keys| - 1], c, v);
    }
  }

  /** The flag tracks the upper total: when it says whether the upper total
      has reached 63 and an unfilled entry is then filled, the updated flag
      says so of the new sheet, because that total only grows. */
  lemma BonusFlagTracks(m: map<Category, int>, bonus: bool, c: Category, v: int)
    requires bonus <==> FilledSum(m, UpperOrder) >= BonusThreshold
    requires EntryAt(m, c) == Unfilled && v >= 0
    ensures (bonus || FilledSum(m[c := v], UpperOrder) >= BonusThreshold)
      <==> FilledSum(m[c := v], UpperOrder) >= BonusThreshold
  {
    FillRaises(m, UpperOrder, c, v);
  }

  /** With a flag that tracks the upper total, the grand total shown is the
      sheet's final score. */
  lemma TotalIsFinalScore(m: map<Category, int>, bonus: bool)
    requires bonus <==> FilledSum(m, UpperOrder) >= BonusThreshold
    ensures FilledSum(m, Order) + (if bonus then Bonus else 0) == FinalScore(m)
  {
  }
}
