/** How the server's stored totals relate to the totals the browser shows.
    The server's update_total adds the -1 of every unfilled entry, the
    browser skips them; the two agree once a sheet is full, so the winner the
    server announces is the one the final scores give. */
module Agreement {
  import opened Scoring
  import opened ServerGame
  import ClientGame

  lemma {:induction false} FilledSumConcat(m: map<Category, int>, a: seq<Category>, b: seq<Category>)
    ensures FilledSum(m, a + b) == FilledSum(m, a) + FilledSum(m, b)
  {
    if b == [] {
      assert a + b == a;
    } else {
      assert (a + b)[..|a + b| - 1] == a + b[..|b| - 1];
      FilledSumConcat(m, a, b[..|b| - 1]);
    }
  }

  /** Two sheets with the same entries under keys have the same filled sum there. */
  lemma {:induction false} FilledSumOn(m1: map<Category, int>, m2: map<Category, int>, keys: seq<Category>)
    requires forall i :: 0 <= i < |keys| ==> EntryAt(m1, keys[i]) == EntryAt(m2, keys[i])
    ensures FilledSum(m1, keys) == FilledSum(m2, keys)
  {
    if keys != [] {
      FilledSumOn(m1, m2, keys[..|keys| - 1]);
    }
  }

  /** The merged 13-entry sheet adds up to its two sections. */
  lemma MergedSums(u: map<Category, int>, l: map<Category, int>)
    requires Section(u, true) && Section(l, false)
    ensures FilledSum(u + l, UpperOrder) == FilledSum(u, UpperOrder)
    ensures FilledSum(u + l, Order) == FilledSum(u, UpperOrder) + FilledSum(l, LowerOrder)
  {
    OrderFacts();
    forall i | 0 <= i < |UpperOrder|
      ensures EntryAt(u + l, UpperOrder[i]) == EntryAt(u, UpperOrder[i])
    {
      SectionOf(UpperOrder[i]);
    }
    forall i | 0 <= i < |LowerOrder|
      ensures EntryAt(u + l, LowerOrder[i]) == EntryAt(l, LowerOrder[i])
    {
      SectionOf(LowerOrder[i]);
    }
    FilledSumOn(u + l, u, UpperOrder);
    FilledSumOn(u + l, l, LowerOrder);
    FilledSumConcat(u + l, UpperOrder, LowerOrder);
  }

  /** Mid-match, the server's stored upper total is the browser's upper total
      less one for each unfilled upper entry, and its grand total is the
      browser's sum of filled entries less one for each unfilled entry, plus
      the stored bonus. A bonus the server has stored is one the browser
      shows too. */
  lemma ServerTotalsGap(u: map<Category, int>, l: map<Category, int>, upperTotal: int, bonus: int, total: int)
    requires Section(u, true) && Section(l, false)
    requires TotalsKept(u, l, upperTotal, bonus, total) && FilledIn(u, l) > 0
    ensures upperTotal == FilledSum(u + l, UpperOrder) - (|UpperOrder| - FilledCount(u, UpperOrder))
    ensures total == FilledSum(u + l, Order) - (|Order| - FilledIn(u, l)) + bonus
    ensures bonus == Bonus ==> FilledSum(u + l, UpperOrder) >= BonusThreshold
  {
    OrderFacts();
    SheetSumGap(u, UpperOrder);
    SheetSumGap(l, LowerOrder);
    MergedSums(u, l);
  }

  /** A full sheet's stored totals are the browser's: the upper total is the
      sum of the upper entries, the bonus is 35 exactly when that reaches 63,
      and the total is the sheet's final score. */
  lemma FullSheetTotals(u: map<Category, int>, l: map<Category, int>, upperTotal: int, bonus: int, total: int)
    requires Section(u, true) && Section(l, false)
    requires TotalsKept(u, l, upperTotal, bonus, total) && FilledIn(u, l) == |Order|
    ensures upperTotal == FilledSum(u + l, UpperOrder)
    ensures bonus == Bonus <==> FilledSum(u + l, UpperOrder) >= BonusThreshold
    ensures total == FinalScore(u + l)
  {
    OrderFacts();
    ServerTotalsGap(u, l, upperTotal, bonus, total);
  }

  /** A player whose sheet is full has their final score as stored total. */
  lemma FinalTotal(g: Game, p: int)
    requires g.Valid() && 0 <= p < NPlayer && FilledIn(g.upperSec[p], g.lowerSec[p]) == |Order|
    ensures g.total[p] == FinalScore(g.GetScore(p))
  {
    var u, l := g.upperSec[p], g.lowerSec[p];
    assert Section(u, true) && Section(l, false);
    assert TotalsKept(u, l, g.upperSecTotal[p], g.bonus[p], g.total[p]);
    FullSheetTotals(u, l, g.upperSecTotal[p], g.bonus[p], g.total[p]);
  }

  /** When both sheets are full, each stored total is that player's final
      score and get_winner names the player with the larger final score. */
  lemma FinalResult(g: Game)
    requires g.Valid() && g.GameOver()
    ensures g.total[0] == FinalScore(g.GetScore(0)) && g.total[1] == FinalScore(g.GetScore(1))
    ensures g.GetWinner() ==
      var s0, s1 := FinalScore(g.GetScore(0)), FinalScore(g.GetScore(1));
      if s0 > s1 then 1 else if s1 > s0 then 2 else 0
  {
    FinalTotal(g, 0);
    FinalTotal(g, 1);
  }

  /** Whenever the server's count table and sum describe its dice, which a
      successful roll guarantees, the value each server calculator returns
      is the one the browser's preview shows for the same dice. Before the
      first roll and after a roll that raised, fill scores the stale table. */
  lemma PreviewMatchesServer(g: Game, preview: map<Category, int>)
    requires g.Sound() && g.CountsCurrent()
    requires forall c: Category :: c in preview && preview[c] == Score(g.dice, c)
    ensures forall c: Category :: g.Calculated(c) == preview[c]
  {
  }

  /** An index list whose every index lies in 0..4, as the browser's roll
      sends, never makes the server's roll raise ValueError. */
  lemma IndicesAccepted(idx: seq<int>)
    requires forall a :: 0 <= a < |idx| ==> 0 <= idx[a] < DiceCount
    ensures FirstOutside(idx, 0, DiceCount - 1) == |idx|
  {
  }

  /** An upper section that the browser already rewards with the bonus while
      the server does not: ones unfilled, one two, one three, two fours, four
      fives and five sixes fill 63 points, but the server's sum counts the
      unfilled ones as -1 and stays at 62 until another upper entry is filled. */
  lemma BonusLag()
    ensures var u := map[Ones := Unfilled, Twos := 2, Threes := 3, Fours := 8, Fives := 20, Sixes := 30];
      && Section(u, true)
      && FilledSum(u, UpperOrder) == 63 >= BonusThreshold
      && SheetSum(u, UpperOrder) == 62 < BonusThreshold
  {
    var u := map[Ones := Unfilled, Twos := 2, Threes := 3, Fours := 8, Fives := 20, Sixes := 30];
    ClientGame.UpperSumUnrolled(u);
    var s1, s2, s3 := [Ones], [Ones, Twos], [Ones, Twos, Threes];
    var s4, s5 := [Ones, Twos, Threes, Fours], [Ones, Twos, Threes, Fours, Fives];
    assert s1[..0] == [] && s2[..1] == s1 && s3[..2] == s2 && s4[..3] == s3 && s5[..4] == s4;
    assert UpperOrder[..5] == s5;
    assert SheetSum(u, s1) == -1;
    assert SheetSum(u, s2) == 1;
    assert SheetSum(u, s3) == 4;
    assert SheetSum(u, s4) == 12;
    assert SheetSum(u, s5) == 32;
  }
}
