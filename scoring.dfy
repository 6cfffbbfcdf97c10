/** Dice, scoring categories and the Yahtzee scoring rules, shared by the
    server engine (ServerGame) and the browser's preview (ClientGame).

    `Score` is the reference statement of the thirteen rules, written on the
    number of dice showing each face; both calculators are proved equal to it. */
module Scoring {

  datatype Option<T> = None | Some(value: T)

  /** Every match is played with five dice. */
  const DiceCount := 5

  /** The value the score sheets use for "not filled yet". */
  const Unfilled := -1

  predicate IsFace(v: int) { 1 <= v <= 6 }

  datatype Category =
    | Ones | Twos | Threes | Fours | Fives | Sixes
    | ThreeOfAKind | FourOfAKind | FullHouse | SmallStraight | LargeStraight | Yahtzee | Chance
  {
    /** The upper section: ones .. sixes. */
    predicate IsUpper() {
      Ones? || Twos? || Threes? || Fours? || Fives? || Sixes?
    }

    /** The face an upper category counts. */
    function Face(): (n: int)
      requires IsUpper()
      ensures IsFace(n)
    {
      match this
      case Ones => 1
      case Twos => 2
      case Threes => 3
      case Fours => 4
      case Fives => 5
      case Sixes => 6
    }
  }

  function UpperCategory(n: int): (c: Category)
    requires IsFace(n)
    ensures c.IsUpper() && c.Face() == n
  {
    match n
    case 1 => Ones
    case 2 => Twos
    case 3 => Threes
    case 4 => Fours
    case 5 => Fives
    case _ => Sixes
  }

  /** Key order of the upper and lower score dictionaries. */
  const UpperOrder: seq<Category> := [Ones, Twos, Threes, Fours, Fives, Sixes]
  const LowerOrder: seq<Category> :=
    [ThreeOfAKind, FourOfAKind, FullHouse, SmallStraight, LargeStraight, Yahtzee, Chance]
  /** Key order of a merged 13-entry score sheet. */
  const Order: seq<Category> := UpperOrder + LowerOrder

  lemma OrderFacts()
    ensures |UpperOrder| == 6 && |LowerOrder| == 7 && |Order| == 13
    ensures forall c: Category :: c in UpperOrder <==> c.IsUpper()
    ensures forall c: Category :: c in LowerOrder <==> !c.IsUpper()
    ensures forall c: Category :: c in Order
    ensures forall i, j :: 0 <= i < j < |UpperOrder| ==> UpperOrder[i] != UpperOrder[j]
    ensures forall i, j :: 0 <= i < j < |LowerOrder| ==> LowerOrder[i] != LowerOrder[j]
  {
  }

  /** The upper section earns a bonus of 35 once its entries add up to 63. */
  const BonusThreshold := 63
  const Bonus := 35

  /** The key sets of the upper and lower score dictionaries. */
  const UpperKeys: set<Category> := {Ones, Twos, Threes, Fours, Fives, Sixes}
  const LowerKeys: set<Category> :=
    {ThreeOfAKind, FourOfAKind, FullHouse, SmallStraight, LargeStraight, Yahtzee, Chance}

  /** Every category belongs to exactly one section's key set. */
  lemma SectionOf(c: Category)
    ensures c in UpperKeys <==> c.IsUpper()
    ensures c in LowerKeys <==> !c.IsUpper()
  {
    match c
    case Ones => case Twos => case Threes => case Fours => case Fives => case Sixes =>
    case _ =>
  }

  /** The key a category has on the wire and in the score dictionaries. */
  function Key(c: Category): string
  {
    match c
    case Ones => "1s"
    case Twos => "2s"
    case Threes => "3s"
    case Fours => "4s"
    case Fives => "5s"
    case Sixes => "6s"
    case ThreeOfAKind => "3-of-a-kind"
    case FourOfAKind => "4-of-a-kind"
    case FullHouse => "full-house"
    case SmallStraight => "small-straight"
    case LargeStraight => "large-straight"
    case Yahtzee => "yahtzee"
    case Chance => "chance"
  }

  /** The category a wire key names, or None for a key that is in neither
      section's key set. */
  function ParseKey(key: string): (r: Option<Category>)
    ensures r.Some? ==> Key(r.value) == key
  {
    if key == "1s" then Some(Ones)
    else if key == "2s" then Some(Twos)
    else if key == "3s" then Some(Threes)
    else if key == "4s" then Some(Fours)
    else if key == "5s" then Some(Fives)
    else if key == "6s" then Some(Sixes)
    else if key == "3-of-a-kind" then Some(ThreeOfAKind)
    else if key == "4-of-a-kind" then Some(FourOfAKind)
    else if key == "full-house" then Some(FullHouse)
    else if key == "small-straight" then Some(SmallStraight)
    else if key == "large-straight" then Some(LargeStraight)
    else if key == "yahtzee" then Some(Yahtzee)
    else if key == "chance" then Some(Chance)
    else None
  }

  /** Parsing a key and printing a category are inverse to each other. */
  lemma {:induction false} ParseKeyIsInverse(c: Category, key: string)
    ensures ParseKey(key) == Some(c) <==> Key(c) == key
  {
    if Key(c) == key {
      match c
      case Ones =>
      case Twos => assert key[0] == '2';
      case Threes => assert key[0] == '3' && |key| == 2;
      case Fours => assert key[0] == '4' && |key| == 2;
      case Fives => assert key[0] == '5';
      case Sixes => assert key[0] == '6';
      case ThreeOfAKind => assert key[0] == '3' && |key| != 2;
      case FourOfAKind => assert key[0] == '4' && |key| != 2;
      case FullHouse => assert key[0] == 'f';
      case SmallStraight => assert key[0] == 's' && key[1] == 'm';
      case LargeStraight => assert key[0] == 'l';
      case Yahtzee => assert key[0] == 'y';
      case Chance => assert key[0] == 'c';
    }
  }

  /** Number of dice in `s` that show face `f`. */
  function Count(s: seq<int>, f: int): (n: nat)
    ensures n <= |s|
  {
    if s == [] then 0
    else Count(s[..|s| - 1], f) + (if s[|s| - 1] == f then 1 else 0)
  }

  /** Sum of the pips in `s`. */
  function Sum(s: seq<int>): (r: int)
    ensures (forall i :: 0 <= i < |s| ==> IsFace(s[i])) ==> |s| <= r <= 6 * |s|
  {
    if s == [] then 0 else Sum(s[..|s| - 1]) + s[|s| - 1]
  }

  /** The face-count table of `s`: face -> number of dice showing it. */
  function CountTable(s: seq<int>): (t: map<int, int>)
    ensures forall f :: f in t <==> IsFace(f)
    ensures forall f :: f in t ==> t[f] == Count(s, f)
  {
    map f | 1 <= f <= 6 :: Count(s, f)
  }

  /** One more die showing face x adds one to x's entry of the table. */
  lemma CountTableSnoc(s: seq<int>, x: int)
    requires IsFace(x)
    ensures CountTable(s + [x]) == CountTable(s)[x := CountTable(s)[x] + 1]
  {
    assert (s + [x])[..|s|] == s;
  }

  /** Every die shows a face. */
  ghost predicate AllFaces(d: seq<int>) {
    forall j :: 0 <= j < |d| ==> IsFace(d[j])
  }

  /** Some face shows between lo and hi dice. */
  ghost predicate Shows(count: map<int, int>, lo: int, hi: int) {
    exists f :: IsFace(f) && f in count && lo <= count[f] <= hi
  }

  /** Some face shows at least k dice. */
  ghost predicate ShowsAtLeast(count: map<int, int>, k: int) {
    exists f :: IsFace(f) && f in count && count[f] >= k
  }

  predicate SomeCountIs(s: seq<int>, k: int) {
    exists f :: 1 <= f <= 6 && Count(s, f) == k
  }

  predicate SomeCountAtLeast(s: seq<int>, k: int) {
    exists f :: 1 <= f <= 6 && Count(s, f) >= k
  }

  /** Every face from `lo` to `hi` is shown by at least one die. */
  predicate AllPresent(s: seq<int>, lo: int, hi: int) {
    forall f :: lo <= f <= hi ==> Count(s, f) >= 1
  }

  /** The thirteen Yahtzee rules, stated on the dice. */
  function Score(dice: seq<int>, c: Category): int
  {
    match c
    case ThreeOfAKind => if SomeCountAtLeast(dice, 3) then Sum(dice) else 0
    case FourOfAKind => if SomeCountAtLeast(dice, 4) then Sum(dice) else 0
    case FullHouse =>
      if exists f, g :: 1 <= f <= 6 && 1 <= g <= 6 && f != g && Count(dice, f) == 3 && Count(dice, g) == 2
      then 25 else 0
    case SmallStraight =>
      if AllPresent(dice, 1, 4) || AllPresent(dice, 2, 5) || AllPresent(dice, 3, 6) then 30 else 0
    case LargeStraight => if AllPresent(dice, 1, 5) || AllPresent(dice, 2, 6) then 40 else 0
    case Yahtzee => if SomeCountIs(dice, 5) then 50 else 0
    case Chance => Sum(dice)
    case _ => c.Face() * Count(dice, c.Face())
  }

  /** Number of dice whose value lies in lo..hi. */
  function CountBetween(s: seq<int>, lo: int, hi: int): (n: nat)
    ensures n <= |s|
  {
    if s == [] then 0
    else CountBetween(s[..|s| - 1], lo, hi) + (if lo <= s[|s| - 1] <= hi then 1 else 0)
  }

  lemma {:induction false} CountBetweenSplit(s: seq<int>, lo: int, hi: int)
    requires lo <= hi
    ensures CountBetween(s, lo, hi) == Count(s, lo) + CountBetween(s, lo + 1, hi)
  {
    if s != [] {
      CountBetweenSplit(s[..|s| - 1], lo, hi);
    }
  }

  /** Two different faces share the dice: their counts add up to at most |s|. */
  lemma {:induction false} TwoFacesShareDice(s: seq<int>, f: int, g: int)
    requires f != g
    ensures Count(s, f) + Count(s, g) <= |s|
  {
    if s != [] {
      TwoFacesShareDice(s[..|s| - 1], f, g);
    }
  }

  /** Five dice that show five consecutive faces show each of them exactly once.
      This is why a large straight may be tested with "== 1" or ">= 1". */
  lemma WindowExact(s: seq<int>, lo: int)
    requires |s| == DiceCount
    requires AllPresent(s, lo, lo + 4)
    ensures forall f :: lo <= f <= lo + 4 ==> Count(s, f) == 1
  {
    CountBetweenSplit(s, lo, lo + 4);
    CountBetweenSplit(s, lo + 1, lo + 4);
    CountBetweenSplit(s, lo + 2, lo + 4);
    CountBetweenSplit(s, lo + 3, lo + 4);
    CountBetweenSplit(s, lo + 4, lo + 4);
    assert CountBetween(s, lo + 5, lo + 4) >= 0;
  }

  /** The large-straight rule may be decided by testing that each face of a
      window is shown exactly once. */
  lemma LargeStraightByExactCounts(s: seq<int>)
    requires |s| == DiceCount
    ensures Score(s, LargeStraight) ==
      if (Count(s, 1) == 1 && Count(s, 2) == 1 && Count(s, 3) == 1 && Count(s, 4) == 1 && Count(s, 5) == 1)
         || (Count(s, 2) == 1 && Count(s, 3) == 1 && Count(s, 4) == 1 && Count(s, 5) == 1 && Count(s, 6) == 1)
      then 40 else 0
  {
    if AllPresent(s, 1, 5) {
      WindowExact(s, 1);
    }
    if AllPresent(s, 2, 6) {
      WindowExact(s, 2);
    }
  }

  /** Five of a kind is a Yahtzee and never a full house. */
  lemma FiveOfAKindIsNotFullHouse(s: seq<int>)
    requires |s| == DiceCount
    requires SomeCountIs(s, 5)
    ensures Score(s, Yahtzee) == 50
    ensures Score(s, FullHouse) == 0
    ensures Score(s, ThreeOfAKind) == Sum(s) && Score(s, FourOfAKind) == Sum(s)
  {
    var f :| IsFace(f) && Count(s, f) == 5;
    forall g | g != f
      ensures Count(s, g) == 0
    {
      TwoFacesShareDice(s, f, g);
    }
  }

  /** With five faces every category scores between 0 and 50. */
  lemma ScoreRange(s: seq<int>, c: Category)
    requires |s| == DiceCount
    requires forall i :: 0 <= i < |s| ==> IsFace(s[i])
    ensures 0 <= Score(s, c) <= 50
  {
    if c.IsUpper() {
      assert Count(s, c.Face()) <= 5;
    }
  }

  /** A sheet entry's contribution when unfilled entries are skipped. */
  function Filled(v: int): int { if v != Unfilled then v else 0 }

  /** The entry of `m` under `k`, counted as unfilled when `k` is missing. */
  function EntryAt(m: map<Category, int>, k: Category): int {
    if k in m then m[k] else Unfilled
  }

  /** Sum of the filled entries of `m` under `keys`: unfilled ones add nothing. */
  function FilledSum(m: map<Category, int>, keys: seq<Category>): int
  {
    if keys == [] then 0
    else FilledSum(m, keys[..|keys| - 1]) + Filled(EntryAt(m, keys[|keys| - 1]))
  }

  /** Number of entries of `m` under `keys` that have been filled. */
  function FilledCount(m: map<Category, int>, keys: seq<Category>): (n: nat)
    ensures n <= |keys|
  {
    if keys == [] then 0
    else FilledCount(m, keys[..|keys| - 1]) + (if EntryAt(m, keys[|keys| - 1]) != Unfilled then 1 else 0)
  }

  /** A player's final score: the filled entries, plus 35 when the upper
      section adds up to at least 63. */
  function FinalScore(sheet: map<Category, int>): int
  {
    FilledSum(sheet, Order) + (if FilledSum(sheet, UpperOrder) >= BonusThreshold then Bonus else 0)
  }
}
