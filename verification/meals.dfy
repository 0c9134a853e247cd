/** The meal journal (`src/pages/MealsScreen.tsx`): the score of a logged
    meal, the colour class of its score bar, its badge, and the choice
    between the meal cards and the empty placeholder. */
module Meals {

  import Digits
  import opened PlateMethod

  /** `MealLog`; the timestamp is in milliseconds since the epoch. */
  datatype MealLog = MealLog(id: string, timestamp: int, checks: PlateCheck)

  /** `Object.values(checks)`, in the order the fields are declared. */
  function Values(c: PlateCheck): (vs: seq<bool>)
    ensures |vs| == 3
    ensures vs[0] == Flag(c, HalfVeggies) && vs[1] == Flag(c, DrankWater) && vs[2] == Flag(c, NoSeconds)
  {
    [c.halfVeggies, c.drankWater, c.noSeconds]
  }

  /** `filter(Boolean).length`: how many entries are true. */
  function CountTrue(vs: seq<bool>): (n: nat)
    ensures n == multiset(vs)[true]
    ensures n <= |vs|
    ensures n == |vs| <==> forall i :: 0 <= i < |vs| ==> vs[i]
    ensures n == 0 <==> forall i :: 0 <= i < |vs| ==> !vs[i]
  {
    if vs == [] then 0
    else
      var rest := CountTrue(vs[1..]);
      assert forall i :: 1 <= i < |vs| ==> vs[i] == vs[1..][i - 1];
      assert vs == [vs[0]] + vs[1..];
      assert multiset(vs) == multiset{vs[0]} + multiset(vs[1..]);
      (if vs[0] then 1 else 0) + rest
  }

  /** 1 for a habit followed, 0 otherwise. */
  function Indicator(b: bool): nat
  {
    if b then 1 else 0
  }

  /** `getScore`: the number of habits the meal followed. */
  function Score(c: PlateCheck): (score: nat)
    ensures score == Indicator(c.halfVeggies) + Indicator(c.drankWater) + Indicator(c.noSeconds)
    ensures score <= 3
    ensures score == 3 <==> AllChecked(c)
    ensures score == 0 <==> forall item :: !Flag(c, item)
  {
    var vs := Values(c);
    assert vs[1..][1..][1..] == [];
    assert forall item :: Flag(c, item) == vs[0] || Flag(c, item) == vs[1] || Flag(c, item) == vs[2];
    CountTrue(vs)
  }

  /** `isPerfect`: the score is full. */
  function IsPerfect(c: PlateCheck): (perfect: bool)
    ensures perfect <==> c.halfVeggies && c.drankWater && c.noSeconds
  {
    Score(c) == 3
  }

  /** The three colours of the score bar. */
  datatype BarClass = Perfect | Partial | Zero

  /** The score bar: perfect, otherwise partial when at least one habit was
      followed, otherwise zero. */
  function Bar(c: PlateCheck): (b: BarClass)
    ensures b == Perfect <==> forall item :: Flag(c, item)
    ensures b == Zero <==> forall item :: !Flag(c, item)
    ensures b == Partial <==> (exists item :: Flag(c, item)) && (exists item :: !Flag(c, item))
  {
    var score := Score(c);
    if score == 3 then Perfect else if score >= 1 then Partial else Zero
  }

  /** The badge text `{score} / 3`. */
  function Badge(c: PlateCheck): (text: string)
    ensures |text| == 5 && text[1..] == " / 3"
    ensures Digits.DigitOf(text[0], 10) == Score(c)
  {
    Digits.Show(Score(c)) + " / 3"
  }

  /** One meal card as the journal shows it. */
  datatype Card = Card(id: string, bar: BarClass, badge: string, perfect: bool)

  /** The list of logs: the placeholder when there is none, otherwise one
      card per meal in the order of the logs. */
  datatype Journal = Placeholder | Cards(cards: seq<Card>)

  function CardOf(m: MealLog): Card
  {
    Card(m.id, Bar(m.checks), Badge(m.checks), IsPerfect(m.checks))
  }

  /** The journal for a list of logs. */
  function JournalOf(meals: seq<MealLog>): (j: Journal)
    ensures j == Placeholder <==> |meals| == 0
    ensures j.Cards? ==> |j.cards| == |meals|
    ensures j.Cards? ==> forall i :: 0 <= i < |meals| ==>
      && j.cards[i].id == meals[i].id
      && j.cards[i].bar == Bar(meals[i].checks)
      && j.cards[i].badge == Badge(meals[i].checks)
      && (j.cards[i].perfect <==> j.cards[i].bar == Perfect)
      && (j.cards[i].perfect <==> AllChecked(meals[i].checks))
  {
    if |meals| == 0 then Placeholder else Cards(seq(|meals|, i requires 0 <= i < |meals| => CardOf(meals[i])))
  }
}
