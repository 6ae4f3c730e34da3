/**
 * The scoring engine: `calculatePoints` turns a receipt into a point total,
 * the sum of seven independent rules.
 *
 * Amounts are held as whole cents, of either sign, as the validator's
 * `Joi.number()` admits. Each rule on an amount is stated against the
 * exact real-valued expression the source evaluates on `parseFloat` of the
 * decimal string (`total % 1`, `total % 0.25`, `Math.ceil(price * 0.2)`,
 * `Math.floor(n / 2)`), and proved equal to its integer-cents computation.
 */
module Points {
  import opened Text

  type Hour = h: nat | h < 24
  type Minute = m: nat | m < 60
  /** The day of the month as the validator's ISO date pattern admits it. */
  type Day = d: nat | 1 <= d <= 31 witness 1

  /** A calendar date taken literally, with no time-zone shift. */
  datatype Date = Date(year: int, month: nat, day: Day)

  /** A 24-hour clock time `HH:MM`; the ranges are the validator's. */
  datatype Time = Time(hour: Hour, minute: Minute)

  /** A line item; `price` is in cents. */
  datatype Item = Item(shortDescription: string, price: int)

  /** A receipt; `total` is in cents. */
  datatype Receipt = Receipt(
    retailer: string,
    purchaseDate: Date,
    purchaseTime: Time,
    items: seq<Item>,
    total: int)

  /** The amount in dollars of a number of cents, as an exact real. */
  function Dollars(cents: int): real {
    cents as real / 100.0
  }

  /**
   * `x % 1 === 0`: `x` has no fractional part. JavaScript's `%` truncates
   * toward zero, but its remainder is zero exactly when `x` is an integer, of
   * either sign.
   */
  predicate IsWhole(x: real) {
    x.Floor as real == x
  }

  /** `r` is `Math.ceil(x)`: the least integer not below `x`. */
  predicate IsCeiling(r: int, x: real) {
    x <= r as real < x + 1.0
  }

  /** An integer lying within one below a real is that real's floor. */
  lemma {:induction false} FloorIs(x: real, q: int)
    requires q as real <= x < q as real + 1.0
    ensures x.Floor == q
  {
  }

  /** Dividing an integer by a constant divisor: the real quotient floors to the (Euclidean) integer one. */
  lemma {:induction false} FloorOfRatio(n: int, d: nat)
    requires d in {2, 25, 100, 500}
    ensures (n as real / d as real).Floor == n / d
    ensures IsWhole(n as real / d as real) <==> n % d == 0
  {
    var q, rem := n / d, n % d;
    var x := n as real / d as real;
    if d == 2 {
      assert n == 2 * q + rem;
      assert x == q as real + rem as real / 2.0;
    } else if d == 25 {
      assert n == 25 * q + rem;
      assert x == q as real + rem as real / 25.0;
    } else if d == 100 {
      assert n == 100 * q + rem;
      assert x == q as real + rem as real / 100.0;
    } else {
      assert n == 500 * q + rem;
      assert x == q as real + rem as real / 500.0;
    }
    FloorIs(x, q);
  }

  // Rule 1 (src/points.js:6): one point per letter or digit of the retailer name.
  function RetailerPoints(retailer: string): nat {
    |KeepAlnum(retailer)|
  }

  /** The retailer rule scores every letter and digit and nothing else. */
  lemma {:induction false} RetailerPointsCounts(retailer: string)
    ensures RetailerPoints(retailer) <= |retailer|
    ensures RetailerPoints(retailer) == |retailer| <==>
      forall k :: 0 <= k < |retailer| ==> IsAsciiAlnum(retailer[k])
    ensures RetailerPoints(retailer) == 0 <==>
      forall k :: 0 <= k < |retailer| ==> !IsAsciiAlnum(retailer[k])
  {
    if retailer != [] {
      var init := retailer[..|retailer| - 1];
      RetailerPointsCounts(init);
      assert forall k :: 0 <= k < |init| ==> retailer[k] == init[k];
    }
  }

  /** The retailer points of a name are the sum over its parts. */
  lemma {:induction false} RetailerPointsAdditive(a: string, b: string)
    ensures RetailerPoints(a + b) == RetailerPoints(a) + RetailerPoints(b)
  {
    KeepAlnumAppend(a, b);
  }

  // Rule 2 (src/points.js:9-10): 50 points when the total is a whole number of dollars.
  function RoundDollarBonus(total: int): nat {
    if total % 100 == 0 then 50 else 0
  }

  /** The round-dollar rule fires exactly when `total % 1 === 0` holds of the amount in dollars. */
  lemma {:induction false} RoundDollarMeansWhole(total: int)
    ensures RoundDollarBonus(total) == (if IsWhole(Dollars(total)) then 50 else 0)
  {
    FloorOfRatio(total, 100);
  }

  // Rule 3 (src/points.js:12): 25 points when the total is a multiple of 0.25.
  function QuarterBonus(total: int): nat {
    if total % 25 == 0 then 25 else 0
  }

  /** The quarter rule fires exactly when `total % 0.25 === 0` holds of the amount in dollars. */
  lemma {:induction false} QuarterMeansMultiple(total: int)
    ensures QuarterBonus(total) == (if IsWhole(Dollars(total) / 0.25) then 25 else 0)
  {
    assert Dollars(total) / 0.25 == total as real / 25.0;
    FloorOfRatio(total, 25);
  }

  /** A whole-dollar total earns both amount bonuses, 75 points together. */
  lemma {:induction false} WholeDollarsStack(total: int)
    requires IsWhole(Dollars(total))
    ensures RoundDollarBonus(total) + QuarterBonus(total) == 75
  {
    RoundDollarMeansWhole(total);
    assert total % 25 == 0;
  }

  // Rule 4 (src/points.js:14-15): 5 points for every two items.
  function PairBonus(itemCount: nat): nat {
    (itemCount / 2) * 5
  }

  /** The pair rule is `Math.floor(itemCount / 2) * 5` over exact division. */
  lemma {:induction false} PairBonusFloors(itemCount: nat)
    ensures PairBonus(itemCount) == (itemCount as real / 2.0).Floor * 5
  {
    FloorOfRatio(itemCount, 2);
  }

  /**
   * `Math.ceil(price * 0.2)` on a price of whole cents. Dafny's `/` by a
   * positive constant floors, so adding one when there is a remainder rounds
   * up for negative prices too.
   */
  function FifthRoundedUp(price: int): int {
    if price % 500 == 0 then price / 500 else price / 500 + 1
  }

  /** The rounded-up fifth is negative exactly from -5.00 down. */
  lemma {:induction false} FifthRoundedUpSign(price: int)
    ensures FifthRoundedUp(price) >= 0 <==> price > -500
  {
    if price <= -500 {
      assert price / 500 <= -1;
    }
  }

  /** A fifth of the price in whole cents, rounded up, is the ceiling of the exact product. */
  lemma {:induction false} FifthRoundedUpIsCeiling(price: int)
    ensures IsCeiling(FifthRoundedUp(price), Dollars(price) * 0.2)
  {
    assert Dollars(price) * 0.2 == price as real / 500.0;
    FloorOfRatio(price, 500);
  }

  // Rule 5, one item (src/points.js:19-22): a fifth of the price, rounded up, when the
  // trimmed description's length is a multiple of three (zero included).
  function ItemBonus(item: Item): int {
    if |Trim(item.shortDescription)| % 3 == 0 then FifthRoundedUp(item.price) else 0
  }

  /** The item rule pays `Math.ceil(price * 0.2)` exactly when the trimmed length is divisible by three. */
  lemma {:induction false} ItemBonusRounding(item: Item)
    ensures |Trim(item.shortDescription)| % 3 == 0 ==> IsCeiling(ItemBonus(item), Dollars(item.price) * 0.2)
    ensures |Trim(item.shortDescription)| % 3 != 0 ==> ItemBonus(item) == 0
  {
    FifthRoundedUpIsCeiling(item.price);
  }

  /** Surrounding whitespace in a description never changes the item rule. */
  lemma {:induction false} ItemBonusIgnoresPadding(pre: string, core: string, post: string, price: int)
    requires forall k :: 0 <= k < |pre| ==> IsWhitespace(pre[k])
    requires forall k :: 0 <= k < |post| ==> IsWhitespace(post[k])
    requires core != [] ==> !IsWhitespace(core[0]) && !IsWhitespace(core[|core| - 1])
    ensures ItemBonus(Item(pre + core + post, price)) == ItemBonus(Item(core, price))
  {
    TrimPadded(pre, core, post);
    var e: string := [];
    assert e + core + e == core;
    TrimPadded(e, core, e);
  }

  // Rule 5, all items (src/points.js:17-25): the sum of the item bonuses.
  function ItemsBonus(items: seq<Item>): int {
    if items == [] then 0 else ItemsBonus(items[..|items| - 1]) + ItemBonus(items[|items| - 1])
  }

  /** The items rule is additive over concatenation of item lists. */
  lemma {:induction false} ItemsBonusAppend(a: seq<Item>, b: seq<Item>)
    ensures ItemsBonus(a + b) == ItemsBonus(a) + ItemsBonus(b)
  {
    if b == [] {
      assert a + b == a;
    } else {
      var ab := a + b;
      assert ab[|ab| - 1] == b[|b| - 1];
      assert ab[..|ab| - 1] == a + b[..|b| - 1];
      ItemsBonusAppend(a, b[..|b| - 1]);
    }
  }

  /** The item bonus of a one-item list is that item's bonus. */
  lemma {:induction false} ItemsBonusSingle(x: Item)
    ensures ItemsBonus([x]) == ItemBonus(x)
  {
    assert [x][..0] == [];
  }

  /** Exchanging two neighbouring items leaves the items rule unchanged. */
  lemma {:induction false} ItemsBonusSwap(a: seq<Item>, x: Item, y: Item, b: seq<Item>)
    ensures ItemsBonus(a + [x, y] + b) == ItemsBonus(a + [y, x] + b)
  {
    ItemsBonusAppend(a + [x, y], b);
    ItemsBonusAppend(a + [y, x], b);
    ItemsBonusAppend(a, [x, y]);
    ItemsBonusAppend(a, [y, x]);
    ItemsBonusAppend([x], [y]);
    ItemsBonusAppend([y], [x]);
    ItemsBonusSingle(x);
    ItemsBonusSingle(y);
    assert [x, y] == [x] + [y];
    assert [y, x] == [y] + [x];
  }

  /** Taking the item at `j` out of a list takes exactly its points out of the items rule. */
  lemma {:induction false} ItemsBonusRemove(items: seq<Item>, j: nat)
    requires j < |items|
    ensures ItemsBonus(items) == ItemsBonus(items[..j] + items[j + 1..]) + ItemBonus(items[j])
  {
    var before, after := items[..j], items[j + 1..];
    assert items == before + [items[j]] + after;
    ItemsBonusAppend(before + [items[j]], after);
    ItemsBonusAppend(before, [items[j]]);
    ItemsBonusAppend(before, after);
    ItemsBonusSingle(items[j]);
  }

  /** Two lists with the same items stay so once one copy of `x` leaves each. */
  lemma {:induction false} MultisetRemove(init: seq<Item>, x: Item, items: seq<Item>, j: nat)
    requires j < |items| && items[j] == x
    requires multiset(init + [x]) == multiset(items)
    ensures multiset(init) == multiset(items[..j] + items[j + 1..])
  {
    assert items == items[..j] + [x] + items[j + 1..];
    calc {
      multiset(init);
      (multiset(init) + multiset{x}) - multiset{x};
      multiset(init + [x]) - multiset{x};
      multiset(items[..j] + [x] + items[j + 1..]) - multiset{x};
      (multiset(items[..j] + items[j + 1..]) + multiset{x}) - multiset{x};
      multiset(items[..j] + items[j + 1..]);
    }
  }

  /**
   * The items rule does not depend on the order of the items: two lists
   * holding the same items, each as often, earn the same item points.
   */
  lemma {:induction false} ItemsBonusPermutation(a: seq<Item>, b: seq<Item>)
    requires multiset(a) == multiset(b)
    ensures ItemsBonus(a) == ItemsBonus(b)
    decreases |a|
  {
    if a != [] {
      var init, x := a[..|a| - 1], a[|a| - 1];
      assert a == init + [x];
      assert x in multiset(b);
      var j :| 0 <= j < |b| && b[j] == x;
      MultisetRemove(init, x, b, j);
      ItemsBonusPermutation(init, b[..j] + b[j + 1..]);
      ItemsBonusRemove(b, j);
    }
  }

  // Rule 6 (src/points.js:27-29): 6 points when the day of the month is odd.
  function OddDayBonus(date: Date): (r: nat)
    ensures r == 6 <==> date.day % 2 == 1
    ensures r == 0 <==> date.day % 2 == 0
  {
    if date.day % 2 != 0 then 6 else 0
  }

  /** Of two consecutive days of a month exactly one earns the odd-day bonus. */
  lemma {:induction false} OddDayAlternates(date: Date)
    requires date.day < 31
    ensures OddDayBonus(date) + OddDayBonus(date.(day := date.day + 1)) == 6
  {
  }

  /** Minutes since midnight. */
  function MinuteOfDay(t: Time): nat {
    t.hour * 60 + t.minute
  }

  // Rule 7 (src/points.js:31-37): 10 points strictly after 14:00 and strictly before 16:00.
  function AfternoonBonus(t: Time): (r: nat)
    ensures r == 10 <==> (t.hour == 14 && t.minute > 0) || t.hour == 15
    ensures r == 0 <==> !((t.hour == 14 && t.minute > 0) || t.hour == 15)
  {
    if 14 * 60 < MinuteOfDay(t) && MinuteOfDay(t) < 16 * 60 then 10 else 0
  }

  /** The total of `calculatePoints`: the sum of the seven rules. */
  function Score(receipt: Receipt): int {
    RetailerPoints(receipt.retailer)
      + RoundDollarBonus(receipt.total)
      + QuarterBonus(receipt.total)
      + PairBonus(|receipt.items|)
      + ItemsBonus(receipt.items)
      + OddDayBonus(receipt.purchaseDate)
      + AfternoonBonus(receipt.purchaseTime)
  }

  /** No item is priced at -5.00 or below. */
  predicate PricesAboveMinusFive(items: seq<Item>) {
    forall i :: 0 <= i < |items| ==> items[i].price > -500
  }

  /** The item points are never negative while every price stays above -5.00. */
  lemma {:induction false} ItemsBonusNonNegative(items: seq<Item>)
    requires PricesAboveMinusFive(items)
    ensures ItemsBonus(items) >= 0
  {
    if items != [] {
      var init := items[..|items| - 1];
      assert forall i :: 0 <= i < |init| ==> init[i] == items[i];
      ItemsBonusNonNegative(init);
      FifthRoundedUpSign(items[|items| - 1].price);
    }
  }

  /**
   * The score is a non-negative integer for every receipt whose prices stay
   * above -5.00; in particular for every receipt without negative amounts.
   */
  lemma {:induction false} ScoreNonNegative(receipt: Receipt)
    requires PricesAboveMinusFive(receipt.items)
    ensures Score(receipt) >= 0
  {
    ItemsBonusNonNegative(receipt.items);
  }

  /**
   * The `forEach` over the items: each item whose trimmed description has a
   * length divisible by three adds a fifth of its price, rounded up.
   */
  method SumItemPoints(items: seq<Item>) returns (itemPoints: int)
    ensures itemPoints == ItemsBonus(items)
  {
    itemPoints := 0;
    var i := 0;
    while i < |items|
      invariant 0 <= i <= |items|
      invariant itemPoints == ItemsBonus(items[..i])
    {
      var item := items[i];
      var descriptionLength := |Trim(item.shortDescription)|;
      if descriptionLength % 3 == 0 {
        itemPoints := itemPoints + FifthRoundedUp(item.price);
      }
      assert items[..i + 1][..i] == items[..i];
      i := i + 1;
    }
    assert items[..i] == items;
  }

  /**
   * `calculatePoints` as the source runs it: an accumulator that each rule adds
   * to in turn.
   */
  method CalculatePoints(receipt: Receipt) returns (points: int)
    ensures points == Score(receipt)
  {
    points := 0;

    var retailerPoints := |KeepAlnum(receipt.retailer)|;
    points := points + retailerPoints;

    if receipt.total % 100 == 0 {
      points := points + 50;
    }
    if receipt.total % 25 == 0 {
      points := points + 25;
    }

    var pairPoints := (|receipt.items| / 2) * 5;
    points := points + pairPoints;

    var itemPoints := SumItemPoints(receipt.items);
    points := points + itemPoints;

    if receipt.purchaseDate.day % 2 != 0 {
      points := points + 6;
    }

    var time := MinuteOfDay(receipt.purchaseTime);
    if 14 * 60 < time && time < 16 * 60 {
      points := points + 10;
    }
  }

  /**
   * An empty item list is scored, not rejected: the pair and item rules add
   * nothing and the other five still apply.
   */
  lemma {:induction false} EmptyItemsScore(receipt: Receipt)
    requires receipt.items == []
    ensures Score(receipt) == RetailerPoints(receipt.retailer)
      + RoundDollarBonus(receipt.total) + QuarterBonus(receipt.total)
      + OddDayBonus(receipt.purchaseDate) + AfternoonBonus(receipt.purchaseTime)
  {
  }

  /** Adding one item changes the total only through the pair and item rules. */
  lemma {:induction false} ScoreWithAddedItem(receipt: Receipt, item: Item)
    ensures Score(receipt.(items := receipt.items + [item]))
      == Score(receipt) - PairBonus(|receipt.items|) + PairBonus(|receipt.items| + 1) + ItemBonus(item)
  {
    var extended := receipt.(items := receipt.items + [item]);
    var items := extended.items;
    assert items[..|items| - 1] == receipt.items;
    assert ItemsBonus(items) == ItemsBonus(receipt.items) + ItemBonus(item);
    assert Score(extended) == RetailerPoints(receipt.retailer)
      + RoundDollarBonus(receipt.total) + QuarterBonus(receipt.total)
      + PairBonus(|items|) + ItemsBonus(items)
      + OddDayBonus(receipt.purchaseDate) + AfternoonBonus(receipt.purchaseTime);
  }

  /** Changing only the retailer changes the total by the difference of the retailer rule. */
  lemma {:induction false} ScoreWithRetailer(receipt: Receipt, retailer: string)
    ensures Score(receipt.(retailer := retailer)) - RetailerPoints(retailer)
      == Score(receipt) - RetailerPoints(receipt.retailer)
  {
  }
}
