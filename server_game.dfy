/** The authoritative game engine that the server keeps for every match
    (class Game of src/server/app/Game.py): two score sheets that use -1 for
    "not filled yet", five dice with their face-count table and sum, and the
    round, active player and roll counter. */
module ServerGame {
  import opened Scoring

  /** The exceptions the engine raises. */
  datatype Error = ValueError | KeyError

  datatype Result<T> = Ok(value: T) | Err(error: Error)

  const NPlayer := 2
  const LastRound := 13

  /** A die that has not been rolled yet shows -1. */
  const Unrolled := -1

  /** Index of the first element of `s` outside lo..hi, or |s| when there is none. */
  function FirstOutside(s: seq<int>, lo: int, hi: int): (n: nat)
    ensures n <= |s|
    ensures forall i :: 0 <= i < n ==> lo <= s[i] <= hi
    ensures n < |s| ==> !(lo <= s[n] <= hi)
  {
    if s == [] || !(lo <= s[0] <= hi) then 0 else 1 + FirstOutside(s[1..], lo, hi)
  }

  /** Sum of a section's entries with the -1 sentinels included, which is how
      update_total adds them up. */
  function SheetSum(m: map<Category, int>, keys: seq<Category>): int
  {
    if keys == [] then 0 else SheetSum(m, keys[..|keys| - 1]) + EntryAt(m, keys[|keys| - 1])
  }

  predicate NoDup(keys: seq<Category>) {
    forall i, j :: 0 <= i < j < |keys| ==> keys[i] != keys[j]
  }

  /** The shape of one section of a sheet: exactly the keys of that section. */
  ghost predicate Section(m: map<Category, int>, upper: bool) {
    m.Keys == if upper then UpperKeys else LowerKeys
  }

  /** One section of a new score sheet: every key of the section unfilled. */
  function FreshSection(upper: bool): (m: map<Category, int>)
    ensures Section(m, upper)
    ensures forall c :: c in m ==> m[c] == Unfilled
  {
    if upper then
      map[Ones := Unfilled, Twos := Unfilled, Threes := Unfilled,
          Fours := Unfilled, Fives := Unfilled, Sixes := Unfilled]
    else
      map[ThreeOfAKind := Unfilled, FourOfAKind := Unfilled, FullHouse := Unfilled,
          SmallStraight := Unfilled, LargeStraight := Unfilled, Yahtzee := Unfilled,
          Chance := Unfilled]
  }

  /** Every -1 makes the sentinel-including sum one less than the sum of the
      filled entries. */
  lemma {:induction false} SheetSumGap(m: map<Category, int>, keys: seq<Category>)
    ensures SheetSum(m, keys) == FilledSum(m, keys) - (|keys| - FilledCount(m, keys))
  {
    if keys != [] {
      SheetSumGap(m, keys[..|keys| - 1]);
    }
  }

  /** Filling the unfilled entry `c` with `v >= 0` adds one filled entry and
      raises the sentinel-including sum by v + 1; other sections are untouched. */
  lemma {:induction false} FillEntry(m: map<Category, int>, keys: seq<Category>, c: Category, v: int)
    requires NoDup(keys) && c in m && m[c] == Unfilled && v >= 0
    ensures FilledCount(m[c := v], keys) == FilledCount(m, keys) + (if c in keys then 1 else 0)
    ensures SheetSum(m[c := v], keys) == SheetSum(m, keys) + (if c in keys then v + 1 else 0)
  {
    if keys != [] {
      var init := keys[..|keys| - 1];
      assert NoDup(init);
      assert c in keys <==> c in init || c == keys[|keys| - 1];
      assert c == keys[|keys| - 1] ==> c !in init;
      FillEntry(m, init, c, v);
    }
  }

  /** Entry c of the sheet made of these two sections, looked up in c's own
      section. */
  function SectionEntry(upper: map<Category, int>, lower: map<Category, int>, c: Category): int {
    if c.IsUpper() then EntryAt(upper, c) else EntryAt(lower, c)
  }

  /** Number of categories filled on the sheet made of these two sections. */
  ghost function FilledIn(upper: map<Category, int>, lower: map<Category, int>): (n: nat)
    ensures n <= |Order|
  {
    FilledCount(upper, UpperOrder) + FilledCount(lower, LowerOrder)
  }

  /** A player's stored totals: either never computed (all zero, nothing
      filled) or as update_total last left them; the bonus is 35 exactly
      when the stored upper total has reached 63. */
  ghost predicate TotalsKept(upper: map<Category, int>, lower: map<Category, int>,
                             upperTotal: int, bonus: int, total: int)
  {
    && bonus == (if upperTotal >= BonusThreshold then Bonus else 0)
    && ((upperTotal == 0 && total == 0 && FilledIn(upper, lower) == 0)
        || (&& upperTotal == SheetSum(upper, UpperOrder)
            && total == upperTotal + SheetSum(lower, LowerOrder) + bonus))
  }

  /** Setting the unfilled entry c of a sheet to a score v >= 0 keeps both
      sections' shape, fills one more category and never lowers the upper sum. */
  lemma FillSheet(u: map<Category, int>, l: map<Category, int>, c: Category, v: int)
    requires Section(u, true) && Section(l, false) && v >= 0
    requires SectionEntry(u, l, c) == Unfilled
    ensures var u', l' := if c.IsUpper() then u[c := v] else u, if c.IsUpper() then l else l[c := v];
      && Section(u', true) && Section(l', false)
      && FilledIn(u', l') == FilledIn(u, l) + 1
      && SheetSum(u', UpperOrder) >= SheetSum(u, UpperOrder)
  {
    OrderFacts();
    if c.IsUpper() {
      FillEntry(u, UpperOrder, c, v);
    } else {
      FillEntry(l, LowerOrder, c, v);
    }
  }

  /** After a fill, update_total leaves the filling player's totals as kept:
      the bonus stays 35 once earned because the sentinel-including upper
      sum only grows. */
  lemma TotalsAfterFill(u: map<Category, int>, l: map<Category, int>,
                        upperTotal: int, bonus: int, total: int, c: Category, v: int)
    requires Section(u, true) && Section(l, false) && v >= 0
    requires SectionEntry(u, l, c) == Unfilled
    requires TotalsKept(u, l, upperTotal, bonus, total)
    ensures var u', l' := if c.IsUpper() then u[c := v] else u, if c.IsUpper() then l else l[c := v];
      var su := SheetSum(u', UpperOrder);
      var b := if su >= BonusThreshold then Bonus else bonus;
      && Section(u', true) && Section(l', false)
      && TotalsKept(u', l', su, b, su + SheetSum(l', LowerOrder) + b)
      && (bonus == Bonus ==> b == Bonus)
  {
    FillSheet(u, l, c, v);
  }

  /** Both players have filled all thirteen categories. */
  ghost predicate SheetsFull(U: seq<map<Category, int>>, L: seq<map<Category, int>>)
    requires |U| == |L| == NPlayer
  {
    FilledIn(U[0], L[0]) == |Order| && FilledIn(U[1], L[1]) == |Order|
  }

  /** How far a match has come: player 0 has filled one category per
      finished turn of this and earlier rounds, player 1 one per earlier
      round; after the last turn both sheets are full. */
  ghost predicate Progressed(U: seq<map<Category, int>>, L: seq<map<Category, int>>, round: int, active: int)
    requires |U| == |L| == NPlayer
  {
    || (FilledIn(U[0], L[0]) == round - 1 + active && FilledIn(U[1], L[1]) == round - 1)
    || (SheetsFull(U, L) && round == LastRound && active == 0)
  }

  /** hand_over from player a0 in round r0 leaves player a1 in round r1:
      player 0 passes to player 1 in the same round, player 1 to player 0 in
      the next round, and after round 13 the match is over (more is false). */
  ghost predicate Passed(a0: int, r0: int, a1: int, r1: int, more: bool) {
    if a0 < NPlayer - 1 then a1 == a0 + 1 && r1 == r0 && more
    else if r0 < LastRound then a1 == 0 && r1 == r0 + 1 && more
    else a1 == 0 && r1 == r0 && !more
  }

  /** Both players' sheets and stored totals have the engine's shape. */
  ghost predicate SheetsShape(upper: seq<map<Category, int>>, lower: seq<map<Category, int>>,
                              upperTotal: seq<int>, bonus: seq<int>, total: seq<int>)
  {
    && |upper| == NPlayer && |lower| == NPlayer
    && |upperTotal| == NPlayer && |bonus| == NPlayer && |total| == NPlayer
    && forall p :: 0 <= p < NPlayer ==> Section(upper[p], true) && Section(lower[p], false)
  }

  /** Every player's stored totals are as update_total keeps them. */
  ghost predicate AllTotalsKept(upper: seq<map<Category, int>>, lower: seq<map<Category, int>>,
                                upperTotal: seq<int>, bonus: seq<int>, total: seq<int>)
    requires |upper| == |lower| == |upperTotal| == |bonus| == |total| == NPlayer
  {
    forall p :: 0 <= p < NPlayer ==> TotalsKept(upper[p], lower[p], upperTotal[p], bonus[p], total[p])
  }

  /** Filling the unfilled entry c of player a with v >= 0 (sheets U, L
      become U', L') and then recomputing a's totals as update_total does
      (UT, B, T become UT', B', T') keeps both sheets' shape and every
      player's stored totals as kept, fills one more of a's categories and
      keeps an earned bonus. */
  lemma FillTotals(U: seq<map<Category, int>>, L: seq<map<Category, int>>,
                   UT: seq<int>, B: seq<int>, T: seq<int>,
                   U': seq<map<Category, int>>, L': seq<map<Category, int>>,
                   UT': seq<int>, B': seq<int>, T': seq<int>, a: int, c: Category, v: int)
    requires SheetsShape(U, L, UT, B, T) && AllTotalsKept(U, L, UT, B, T)
    requires 0 <= a < NPlayer && v >= 0
    requires SectionEntry(U[a], L[a], c) == Unfilled
    requires U' == U[a := if c.IsUpper() then U[a][c := v] else U[a]]
    requires L' == L[a := if c.IsUpper() then L[a] else L[a][c := v]]
    requires var su := SheetSum(U'[a], UpperOrder);
      && UT' == UT[a := su]
      && B' == B[a := if su >= BonusThreshold then Bonus else B[a]]
      && T' == T[a := su + SheetSum(L'[a], LowerOrder) + B'[a]]
    ensures SheetsShape(U', L', UT', B', T') && AllTotalsKept(U', L', UT', B', T')
    ensures forall p :: 0 <= p < NPlayer ==>
      FilledIn(U'[p], L'[p]) == FilledIn(U[p], L[p]) + (if p == a then 1 else 0)
    ensures forall q :: 0 <= q < NPlayer && B[q] == Bonus ==> B'[q] == Bonus
  {
    FillSheet(U[a], L[a], c, v);
    TotalsAfterFill(U[a], L[a], UT[a], B[a], T[a], c, v);
  }

  /** One more category filled by player a, followed by hand_over, keeps
      the match's progress. */
  lemma ProgressAfterFill(U: seq<map<Category, int>>, L: seq<map<Category, int>>,
                          U': seq<map<Category, int>>, L': seq<map<Category, int>>,
                          a: int, r0: int, a1: int, r1: int, more: bool)
    requires |U| == |L| == |U'| == |L'| == NPlayer
    requires 0 <= a < NPlayer && 1 <= r0 <= LastRound
    requires forall p :: 0 <= p < NPlayer ==>
      FilledIn(U'[p], L'[p]) == FilledIn(U[p], L[p]) + (if p == a then 1 else 0)
    requires Passed(a, r0, a1, r1, more)
    ensures Progressed(U, L, r0, a) ==> Progressed(U', L', r1, a1) && (more <==> !SheetsFull(U', L'))
  {
    assert FilledIn(U'[0], L'[0]) == FilledIn(U[0], L[0]) + (if a == 0 then 1 else 0);
    assert FilledIn(U'[1], L'[1]) == FilledIn(U[1], L[1]) + (if a == 1 then 1 else 0);
  }

  /** The sheets of a new match have the engine's shape, nothing filled and
      totals of zero that are kept. */
  lemma NewSheets()
    ensures var U, L := [FreshSection(true), FreshSection(true)], [FreshSection(false), FreshSection(false)];
      && SheetsShape(U, L, [0, 0], [0, 0], [0, 0])
      && AllTotalsKept(U, L, [0, 0], [0, 0], [0, 0])
      && FilledIn(U[0], L[0]) == 0 && FilledIn(U[1], L[1]) == 0
  {
    NothingFilled(FreshSection(true), UpperOrder);
    NothingFilled(FreshSection(false), LowerOrder);
  }

  /** Five dice, each -1 or a face; a count for each face; a sum. */
  ghost predicate DiceShape(dice: seq<int>, count: map<int, int>, sum: int) {
    && |dice| == DiceCount
    && DiceValues(dice)
    && (forall f :: f in count <==> IsFace(f))
    && (forall f :: f in count ==> count[f] >= 0)
    && sum >= 0
  }

  /** Every die shows a face, and the table and the sum describe them. */
  ghost predicate CountsMatch(dice: seq<int>, count: map<int, int>, sum: int) {
    && AllFaces(dice)
    && count == CountTable(dice)
    && sum == Sum(dice)
  }

  class Game {
    var upperSec: seq<map<Category, int>>
    var lowerSec: seq<map<Category, int>>
    var upperSecTotal: seq<int>
    var bonus: seq<int>
    var total: seq<int>

    var dice: seq<int>
    var diceCount: map<int, int>
    var diceSum: int

    var round: int
    var activePlayer: int
    var iRoll: int

    /** The shape of the sheets and of the turn counters. */
    ghost predicate SheetsOk()
      reads this
    {
      && SheetsShape(upperSec, lowerSec, upperSecTotal, bonus, total)
      && 1 <= round <= LastRound
      && 0 <= activePlayer < NPlayer
      && iRoll >= 0
    }

    /** The shape of the dice, their face-count table and their sum. */
    ghost predicate DiceOk()
      reads this
    {
      DiceShape(dice, diceCount, diceSum)
    }

    /** The shape every Game keeps. */
    ghost predicate Sound()
      reads this
    {
      SheetsOk() && DiceOk()
    }

    ghost predicate Valid()
      reads this
    {
      Sound() && AllTotalsKept(upperSec, lowerSec, upperSecTotal, bonus, total)
    }

    ghost predicate GameOver()
      reads this
      requires |upperSec| == |lowerSec| == NPlayer
    {
      SheetsFull(upperSec, lowerSec)
    }

    /** How far the match has come, as Progressed states it. */
    ghost predicate Progress()
      reads this
      requires |upperSec| == |lowerSec| == NPlayer
    {
      Progressed(upperSec, lowerSec, round, activePlayer)
    }

    /** The count table and the sum describe the dice on the table. */
    ghost predicate CountsCurrent()
      reads this
      requires Sound()
    {
      CountsMatch(dice, diceCount, diceSum)
    }

    /** The state hand_over leaves, from active player a0 in round r0. */
    ghost predicate TurnPassed(a0: int, r0: int, more: bool)
      reads this
    {
      iRoll == 0 && Passed(a0, r0, activePlayer, round, more)
    }

    constructor ()
      ensures Valid() && Progress()
      ensures upperSec == [FreshSection(true), FreshSection(true)]
      ensures lowerSec == [FreshSection(false), FreshSection(false)]
      ensures upperSecTotal == [0, 0] && bonus == [0, 0] && total == [0, 0]
      ensures dice == [Unrolled, Unrolled, Unrolled, Unrolled, Unrolled]
      ensures diceCount == CountTable([]) && diceSum == 0
      ensures round == 1 && activePlayer == 0 && iRoll == 0
    {
      NewSheets();
      upperSec := [FreshSection(true), FreshSection(true)];
      lowerSec := [FreshSection(false), FreshSection(false)];
      upperSecTotal := [0, 0];
      bonus := [0, 0];
      total := [0, 0];
      dice := [Unrolled, Unrolled, Unrolled, Unrolled, Unrolled];
      diceCount := map[1 := 0, 2 := 0, 3 := 0, 4 := 0, 5 := 0, 6 := 0];
      diceSum := 0;
      round := 1;
      activePlayer := 0;
      iRoll := 0;
    }

    /** Player p's entry for category c, looked up in its own section. */
    function EntryOf(p: int, c: Category): int
      reads this
      requires SheetsOk() && 0 <= p < NPlayer
    {
      SectionEntry(upperSec[p], lowerSec[p], c)
    }

    /** The 13-entry dictionary of player p: both sections merged. */
    function GetScore(p: int): (m: map<Category, int>)
      reads this
      requires SheetsOk() && 0 <= p < NPlayer
      ensures m.Keys == UpperKeys + LowerKeys
      ensures forall c :: c in m ==> m[c] == EntryOf(p, c)
    {
      upperSec[p] + lowerSec[p]
    }

    /** Rerolls the dice at the positions in idx, then recounts the faces and
        the sum. A position outside 0..4 raises ValueError after the earlier
        positions have already been rerolled; a die still showing -1 when the
        faces are recounted raises KeyError. */
    method Roll(idx: seq<int>) returns (r: Result<()>)
      requires Valid()
      modifies this
      ensures Valid()
      ensures Rerolled(old(dice), dice, idx[..FirstOutside(idx, 0, DiceCount - 1)])
      ensures FirstOutside(idx, 0, DiceCount - 1) < |idx| ==>
        && r == Err(ValueError)
        && iRoll == old(iRoll) && diceCount == old(diceCount) && diceSum == old(diceSum)
      ensures FirstOutside(idx, 0, DiceCount - 1) == |idx| ==>
        && iRoll == old(iRoll) + 1
        && diceCount == CountTable(dice[..FirstOutside(dice, 1, 6)])
        && (r == Ok(()) <==> RolledOutside(old(dice), idx))
        && (r == Ok(()) ==> CountsCurrent())
        && (r != Ok(()) ==> r == Err(KeyError) && diceSum == old(diceSum))
      ensures upperSec == old(upperSec) && lowerSec == old(lowerSec)
      ensures upperSecTotal == old(upperSecTotal) && bonus == old(bonus) && total == old(total)
      ensures round == old(round) && activePlayer == old(activePlayer)
    {
      var rerolled, bad := Reroll(dice, idx);
      dice := rerolled;
      if bad {
        r := Err(ValueError);
      } else {
        var counts, ok := Recount(diceCount, rerolled);
        iRoll, diceCount := iRoll + 1, counts;
        if ok {
          diceSum := Sum(rerolled);
          r := Ok(());
        } else {
          r := Err(KeyError);
        }
      }
    }

    /** calculate_1s .. calculate_6s: n times the number of dice showing n. */
    function CalculateUpper(n: int): (r: int)
      reads this
      requires Sound() && IsFace(n)
      ensures r >= 0
      ensures CountsCurrent() ==> r == Score(dice, UpperCategory(n))
    {
      n * diceCount[n]
    }

    /** calculate_3_of_a_kind (k = 3) and calculate_4_of_a_kind (k = 4). */
    method CalculateOfAKind(k: int) returns (r: int)
      requires Sound() && (k == 3 || k == 4)
      ensures r == if ShowsAtLeast(diceCount, k) then diceSum else 0
      ensures CountsCurrent() ==> r == Score(dice, if k == 3 then ThreeOfAKind else FourOfAKind)
    {
      var f := 1;
      while f <= 6
        invariant 1 <= f <= 7
        invariant forall g :: 1 <= g < f ==> diceCount[g] < k
      {
        if diceCount[f] >= k {
          return diceSum;
        }
        f := f + 1;
      }
      return 0;
    }

    method CalculateFullHouse() returns (r: int)
      requires Sound()
      ensures r == if Shows(diceCount, 3, 3) && Shows(diceCount, 2, 2) then 25 else 0
      ensures CountsCurrent() ==> r == Score(dice, FullHouse)
    {
      var f := 1;
      while f <= 6
        invariant 1 <= f <= 7
        invariant forall g :: 1 <= g < f ==> diceCount[g] != 3 || !Shows(diceCount, 2, 2)
      {
        if diceCount[f] == 3 {
          var g := 1;
          while g <= 6
            invariant 1 <= g <= 7
            invariant forall h :: 1 <= h < g ==> diceCount[h] != 2
          {
            if diceCount[g] == 2 {
              return 25;
            }
            g := g + 1;
          }
        }
        f := f + 1;
      }
      return 0;
    }

    function CalculateSmallStraight(): (r: int)
      reads this
      requires Sound()
      ensures r == 0 || r == 30
      ensures CountsCurrent() ==> r == Score(dice, SmallStraight)
    {
      if diceCount[1] >= 1 && diceCount[2] >= 1 && diceCount[3] >= 1 && diceCount[4] >= 1 then 30
      else if diceCount[2] >= 1 && diceCount[3] >= 1 && diceCount[4] >= 1 && diceCount[5] >= 1 then 30
      else if diceCount[3] >= 1 && diceCount[4] >= 1 && diceCount[5] >= 1 && diceCount[6] >= 1 then 30
      else 0
    }

    /** calculate_large_staright: every face of the window shown exactly once. */
    function CalculateLargeStraight(): (r: int)
      reads this
      requires Sound()
      ensures r == 0 || r == 40
      ensures CountsCurrent() ==> r == Score(dice, LargeStraight)
    {
      LargeStraightByExactCounts(dice);
      if diceCount[1] == 1 && diceCount[2] == 1 && diceCount[3] == 1 && diceCount[4] == 1 && diceCount[5] == 1 then 40
      else if diceCount[2] == 1 && diceCount[3] == 1 && diceCount[4] == 1 && diceCount[5] == 1 && diceCount[6] == 1 then 40
      else 0
    }

    method CalculateYahtzee() returns (r: int)
      requires Sound()
      ensures r == if Shows(diceCount, 5, 5) then 50 else 0
      ensures CountsCurrent() ==> r == Score(dice, Yahtzee)
    {
      var f := 1;
      while f <= 6
        invariant 1 <= f <= 7
        invariant forall g :: 1 <= g < f ==> diceCount[g] != 5
      {
        if diceCount[f] == 5 {
          return 50;
        }
        f := f + 1;
      }
      return 0;
    }

    function CalculateChance(): (r: int)
      reads this
      requires Sound()
      ensures r >= 0
      ensures CountsCurrent() ==> r == Score(dice, Chance)
    {
      diceSum
    }

    /** What calculate_score(key) returns for category c on the current table. */
    ghost function Calculated(c: Category): (r: int)
      reads this
      requires Sound()
      ensures r >= 0
      ensures CountsCurrent() ==> r == Score(dice, c)
    {
      match c
      case ThreeOfAKind => if ShowsAtLeast(diceCount, 3) then diceSum else 0
      case FourOfAKind => if ShowsAtLeast(diceCount, 4) then diceSum else 0
      case FullHouse => if Shows(diceCount, 3, 3) && Shows(diceCount, 2, 2) then 25 else 0
      case SmallStraight => CalculateSmallStraight()
      case LargeStraight => CalculateLargeStraight()
      case Yahtzee => if Shows(diceCount, 5, 5) then 50 else 0
      case Chance => CalculateChance()
      case _ => CalculateUpper(c.Face())
    }

    /** calculate_score: dispatch to the category's calculator. */
    method CalculateScore(c: Category) returns (r: int)
      requires Sound()
      ensures r == Calculated(c)
      ensures r >= 0
      ensures CountsCurrent() ==> r == Score(dice, c)
    {
      match c
      case ThreeOfAKind => r := CalculateOfAKind(3);
      case FourOfAKind => r := CalculateOfAKind(4);
      case FullHouse => r := CalculateFullHouse();
      case SmallStraight => r := CalculateSmallStraight();
      case LargeStraight => r := CalculateLargeStraight();
      case Yahtzee => r := CalculateYahtzee();
      case Chance => r := CalculateChance();
      case _ => r := CalculateUpper(c.Face());
    }

    /** Commits category `key` for the active player, recomputes that
        player's totals and bonus, and hands the turn over. Returns whether
        the match goes on. */
    method Fill(key: string) returns (r: Result<bool>)
      requires Valid()
      modifies this
      ensures Valid()
      ensures dice == old(dice) && diceCount == old(diceCount) && diceSum == old(diceSum)
      ensures ParseKey(key).None? ==> r == Err(KeyError) && unchanged(this)
      ensures ParseKey(key).Some? && old(EntryOf(activePlayer, ParseKey(key).value)) != Unfilled ==>
        r == Err(ValueError) && unchanged(this)
      ensures ParseKey(key).Some? && old(EntryOf(activePlayer, ParseKey(key).value)) == Unfilled ==>
        var c, a, v := ParseKey(key).value, old(activePlayer), old(Calculated(ParseKey(key).value));
        && r.Ok?
        && upperSec == old(upperSec)[a := if c.IsUpper() then old(upperSec[a])[c := v] else old(upperSec[a])]
        && lowerSec == old(lowerSec)[a := if c.IsUpper() then old(lowerSec[a]) else old(lowerSec[a])[c := v]]
        && upperSecTotal[1 - a] == old(upperSecTotal[1 - a])
        && bonus[1 - a] == old(bonus[1 - a]) && total[1 - a] == old(total[1 - a])
        && TurnPassed(a, old(round), r.value)
      ensures forall q :: 0 <= q < NPlayer && old(bonus[q]) == Bonus ==> bonus[q] == Bonus
      ensures old(Progress()) ==> Progress()
      ensures old(Progress()) && r.Ok? ==> (r.value <==> !GameOver())
    {
      var parsed := ParseKey(key);
      if parsed.None? {
        return Err(KeyError);
      }
      var c := parsed.value;
      ghost var U, L := upperSec, lowerSec;
      var ok, score := Enter(c);
      if !ok {
        return Err(ValueError);
      }
      var more := Settle(U, L, c, score);
      r := Ok(more);
    }

    /** The second half of fill, after entry c of the active player was
        filled with v (the sheets were U and L before): update_total, then
        hand_over. */
    method Settle(ghost U: seq<map<Category, int>>, ghost L: seq<map<Category, int>>,
                  ghost c: Category, ghost v: int) returns (more: bool)
      requires 1 <= round <= LastRound && 0 <= activePlayer < NPlayer && iRoll >= 0
      requires SheetsShape(U, L, upperSecTotal, bonus, total) && AllTotalsKept(U, L, upperSecTotal, bonus, total)
      requires v >= 0 && SectionEntry(U[activePlayer], L[activePlayer], c) == Unfilled
      requires upperSec == U[activePlayer := if c.IsUpper() then U[activePlayer][c := v] else U[activePlayer]]
      requires lowerSec == L[activePlayer := if c.IsUpper() then L[activePlayer] else L[activePlayer][c := v]]
      modifies this
      ensures SheetsOk() && AllTotalsKept(upperSec, lowerSec, upperSecTotal, bonus, total)
      ensures upperSec == old(upperSec) && lowerSec == old(lowerSec)
      ensures dice == old(dice) && diceCount == old(diceCount) && diceSum == old(diceSum)
      ensures var a := old(activePlayer);
        && upperSecTotal[1 - a] == old(upperSecTotal[1 - a])
        && bonus[1 - a] == old(bonus[1 - a]) && total[1 - a] == old(total[1 - a])
      ensures TurnPassed(old(activePlayer), old(round), more)
      ensures forall q :: 0 <= q < NPlayer && old(bonus[q]) == Bonus ==> bonus[q] == Bonus
      ensures Progressed(U, L, old(round), old(activePlayer)) ==> Progress() && (more <==> !GameOver())
    {
      ghost var r0, a0 := round, activePlayer;
      Retotal(U, L, c, v);
      more := HandOver();
      ProgressAfterFill(U, L, upperSec, lowerSec, a0, r0, activePlayer, round, more);
    }

    /** update_total after entry c of the active player was filled with v
        (the sheets were U and L before): every player's stored totals stay
        as update_total keeps them, the filling player has one more category
        filled, and the other player's totals and any earned bonus stay. */
    method Retotal(ghost U: seq<map<Category, int>>, ghost L: seq<map<Category, int>>,
                   ghost c: Category, ghost v: int)
      requires 0 <= activePlayer < NPlayer
      requires SheetsShape(U, L, upperSecTotal, bonus, total) && AllTotalsKept(U, L, upperSecTotal, bonus, total)
      requires v >= 0 && SectionEntry(U[activePlayer], L[activePlayer], c) == Unfilled
      requires upperSec == U[activePlayer := if c.IsUpper() then U[activePlayer][c := v] else U[activePlayer]]
      requires lowerSec == L[activePlayer := if c.IsUpper() then L[activePlayer] else L[activePlayer][c := v]]
      modifies this
      ensures SheetsShape(upperSec, lowerSec, upperSecTotal, bonus, total)
      ensures AllTotalsKept(upperSec, lowerSec, upperSecTotal, bonus, total)
      ensures upperSec == old(upperSec) && lowerSec == old(lowerSec)
      ensures dice == old(dice) && diceCount == old(diceCount) && diceSum == old(diceSum)
      ensures round == old(round) && activePlayer == old(activePlayer) && iRoll == old(iRoll)
      ensures var a := activePlayer;
        && upperSecTotal[1 - a] == old(upperSecTotal[1 - a])
        && bonus[1 - a] == old(bonus[1 - a]) && total[1 - a] == old(total[1 - a])
      ensures forall q :: 0 <= q < NPlayer && old(bonus[q]) == Bonus ==> bonus[q] == Bonus
      ensures forall p :: 0 <= p < NPlayer ==>
        FilledIn(upperSec[p], lowerSec[p]) == FilledIn(U[p], L[p]) + (if p == activePlayer then 1 else 0)
    {
      ghost var UT, B, T, a := upperSecTotal, bonus, total, activePlayer;
      FillSheet(U[a], L[a], c, v);
      UpdateTotal();
      FillTotals(U, L, UT, B, T, upperSec, lowerSec, upperSecTotal, bonus, total, a, c, v);
    }

    /** The first half of fill: when the active player's entry for c is
        still -1, writes calculate_score(c) into it; otherwise changes
        nothing. */
    method Enter(c: Category) returns (ok: bool, score: int)
      requires Sound()
      modifies this`upperSec, this`lowerSec
      ensures ok <==> old(EntryOf(activePlayer, c)) == Unfilled
      ensures !ok ==> unchanged(this)
      ensures ok ==> && score == old(Calculated(c)) && score >= 0
                     && upperSec == old(upperSec)[activePlayer := if c.IsUpper() then old(upperSec[activePlayer])[c := score] else old(upperSec[activePlayer])]
                     && lowerSec == old(lowerSec)[activePlayer := if c.IsUpper() then old(lowerSec[activePlayer]) else old(lowerSec[activePlayer])[c := score]]
    {
      var a := activePlayer;
      if c.IsUpper() {
        if upperSec[a][c] == Unfilled {
          score := CalculateScore(c);
          upperSec := upperSec[a := upperSec[a][c := score]];
        } else {
          return false, 0;
        }
      } else {
        if lowerSec[a][c] == Unfilled {
          score := CalculateScore(c);
          lowerSec := lowerSec[a := lowerSec[a][c := score]];
        } else {
          return false, 0;
        }
      }
      return true, score;
    }

    /** update_total for the active player: sums each section including the
        -1 sentinels, sets the bonus to 35 once the upper sum reaches 63
        (never back), and stores upper + lower + bonus as the total. */
    method UpdateTotal()
      requires |upperSec| == |lowerSec| == |upperSecTotal| == |bonus| == |total| == NPlayer
      requires 0 <= activePlayer < NPlayer
      requires Section(upperSec[activePlayer], true) && Section(lowerSec[activePlayer], false)
      modifies this
      ensures upperSec == old(upperSec) && lowerSec == old(lowerSec)
      ensures dice == old(dice) && diceCount == old(diceCount) && diceSum == old(diceSum)
      ensures round == old(round) && activePlayer == old(activePlayer) && iRoll == old(iRoll)
      ensures var a, upper := activePlayer, SheetSum(upperSec[activePlayer], UpperOrder);
        && upperSecTotal == old(upperSecTotal)[a := upper]
        && bonus == old(bonus)[a := if upper >= BonusThreshold then Bonus else old(bonus[a])]
        && total == old(total)[a := upper + SheetSum(lowerSec[a], LowerOrder) + bonus[a]]
    {
      var a := activePlayer;
      var sumUpper := SectionSum(upperSec[a], UpperOrder);
      upperSecTotal := upperSecTotal[a := sumUpper];
      if sumUpper >= BonusThreshold {
        bonus := bonus[a := Bonus];
      }
      var sumLower := SectionSum(lowerSec[a], LowerOrder);
      total := total[a := sumUpper + sumLower + bonus[a]];
    }

    /** hand_over: player 0 passes to player 1 in the same round; player 1
        passes to player 0 in the next round, or ends the match in round 13. */
    method HandOver() returns (more: bool)
      requires SheetsOk()
      modifies this
      ensures SheetsOk()
      ensures TurnPassed(old(activePlayer), old(round), more)
      ensures upperSec == old(upperSec) && lowerSec == old(lowerSec)
      ensures upperSecTotal == old(upperSecTotal) && bonus == old(bonus) && total == old(total)
      ensures dice == old(dice) && diceCount == old(diceCount) && diceSum == old(diceSum)
    {
      if activePlayer < NPlayer - 1 {
        activePlayer := activePlayer + 1;
        iRoll := 0;
        return true;
      } else {
        if round < LastRound {
          round := round + 1;
          activePlayer := 0;
          iRoll := 0;
          return true;
        } else {
          activePlayer := 0;
          iRoll := 0;
          return false;
        }
      }
    }

    /** get_winner: 0 for a tie, 1 when player 1 (index 0) has the larger
        total, 2 when player 2 has. */
    function GetWinner(): (w: int)
      reads this
      requires Sound()
      ensures w == 0 <==> total[0] == total[1]
      ensures w == 1 <==> total[0] > total[1]
      ensures w == 2 <==> total[1] > total[0]
    {
      if total[0] > total[1] then 1
      else if total[1] > total[0] then 2
      else 0
    }
  }

  /** Every die shows a face or has not been rolled yet. */
  ghost predicate DiceValues(d: seq<int>) {
    forall j :: 0 <= j < |d| ==> d[j] == Unrolled || IsFace(d[j])
  }

  /** d' is d with the dice at `positions` rerolled: each of those positions
      is a valid index and its die shows a face; every other die is as in d. */
  ghost predicate Rerolled(d: seq<int>, d': seq<int>, positions: seq<int>) {
    && |d'| == |d|
    && (forall j :: 0 <= j < |d| && j !in positions ==> d'[j] == d[j])
    && (forall j :: j in positions ==> 0 <= j < |d| && IsFace(d'[j]))
  }

  /** Every die of d at a position that is not in idx has been rolled. */
  ghost predicate RolledOutside(d: seq<int>, idx: seq<int>) {
    forall j :: 0 <= j < |d| && j !in idx ==> d[j] != Unrolled
  }

  /** The loop of roll: rerolls the dice at the positions of idx in order,
      each to some face 1..6, and stops at the first position outside 0..4
      (bad), keeping the dice rerolled before it. */
  method Reroll(d: seq<int>, idx: seq<int>) returns (d': seq<int>, bad: bool)
    requires |d| == DiceCount && DiceValues(d)
    ensures DiceValues(d')
    ensures bad <==> FirstOutside(idx, 0, DiceCount - 1) < |idx|
    ensures Rerolled(d, d', idx[..FirstOutside(idx, 0, DiceCount - 1)])
    ensures !bad ==> (AllFaces(d') <==> RolledOutside(d, idx))
  {
    d' := d;
    var k := 0;
    while k < |idx|
      invariant 0 <= k <= |idx|
      invariant forall i :: 0 <= i < k ==> 0 <= idx[i] < DiceCount
      invariant Rerolled(d, d', idx[..k])
    {
      var i := idx[k];
      if i < 0 || i > DiceCount - 1 {
        assert FirstOutside(idx, 0, DiceCount - 1) == k;
        return d', true;
      }
      var v :| 1 <= v <= 6;
      d' := d'[i := v];
      assert idx[..k + 1] == idx[..k] + [i];
      k := k + 1;
    }
    assert idx[..k] == idx;
    bad := false;
  }

  /** The recount of roll: zeroes every entry of the face-count table, then
      adds one for each die in order; a die that is not a face has no entry,
      and the count stops there (ok false) with the dice before it counted. */
  method Recount(table: map<int, int>, d: seq<int>) returns (counts: map<int, int>, ok: bool)
    requires forall f :: f in table <==> IsFace(f)
    ensures counts == CountTable(d[..FirstOutside(d, 1, 6)])
    ensures ok <==> AllFaces(d)
    ensures ok ==> counts == CountTable(d)
  {
    counts := ZeroCounts(table);

    var j := 0;
    while j < |d|
      invariant 0 <= j <= |d|
      invariant forall i :: 0 <= i < j ==> IsFace(d[i])
      invariant counts == CountTable(d[..j])
    {
      var num := d[j];
      if num !in counts {
        assert FirstOutside(d, 1, 6) == j;
        return counts, false;
      }
      assert d[..j + 1] == d[..j] + [num];
      CountTableSnoc(d[..j], num);
      counts := counts[num := counts[num] + 1];
      j := j + 1;
    }
    assert d[..j] == d;
    ok := true;
  }

  /** The first loop of roll's recount: every entry of the face-count
      table set to 0. */
  method ZeroCounts(table: map<int, int>) returns (counts: map<int, int>)
    requires forall f :: f in table <==> IsFace(f)
    ensures counts == CountTable([])
  {
    counts := table;
    for f := 1 to 7
      invariant forall g :: g in counts <==> IsFace(g)
      invariant forall g :: 1 <= g < f ==> counts[g] == 0
    {
      counts := counts[f := 0];
    }
  }

  /** Adds up a section's entries in key order, -1 sentinels included. */
  method SectionSum(m: map<Category, int>, keys: seq<Category>) returns (sum: int)
    requires forall k :: k in keys ==> k in m
    ensures sum == SheetSum(m, keys)
  {
    sum := 0;
    for i := 0 to |keys|
      invariant sum == SheetSum(m, keys[..i])
    {
      assert keys[..i + 1][..i] == keys[..i];
      sum := sum + m[keys[i]];
    }
    assert keys[..|keys|] == keys;
  }

  lemma {:induction false} NothingFilled(m: map<Category, int>, keys: seq<Category>)
    requires forall k :: k in keys ==> k in m && m[k] == Unfilled
    ensures FilledCount(m, keys) == 0
  {
    if keys != [] {
      NothingFilled(m, keys[..|keys| - 1]);
    }
  }
}
