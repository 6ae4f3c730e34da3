/** The receipts of the scoring unit tests and the totals the scoring gives them. */
module PointsScenarios {
  import opened Text
  import opened Points
  import opened Wrappers
  import Storage

  /**
   * The score of a receipt is the sum of its seven rule values; once each
   * rule's value is known, so is the score.
   */
  lemma {:induction false} ScoreFromRules(receipt: Receipt, name: nat, amount: nat, pairs: nat,
                                          items: int, day: nat, time: nat)
    requires RetailerPoints(receipt.retailer) == name
    requires RoundDollarBonus(receipt.total) + QuarterBonus(receipt.total) == amount
    requires PairBonus(|receipt.items|) == pairs
    requires ItemsBonus(receipt.items) == items
    requires OddDayBonus(receipt.purchaseDate) == day
    requires AfternoonBonus(receipt.purchaseTime) == time
    ensures Score(receipt) == name + amount + pairs + items + day + time
  {
  }

  /** A description without surrounding blanks counts at its full length. */
  lemma {:induction false} UnpaddedItemBonus(description: string, price: int)
    requires description != []
    requires !IsWhitespace(description[0]) && !IsWhitespace(description[|description| - 1])
    ensures ItemBonus(Item(description, price))
      == if |description| % 3 == 0 then FifthRoundedUp(price) else 0
  {
    TrimUnpadded(description);
  }

  /** A two-item list scores its items' bonuses. */
  lemma {:induction false} ItemsBonusOfTwo(a: Item, b: Item)
    ensures ItemsBonus([a, b]) == ItemBonus(a) + ItemBonus(b)
  {
    assert [a, b][..1] == [a];
    ItemsBonusSingle(a);
  }

  /** A four-item list scores its items' bonuses. */
  lemma {:induction false} ItemsBonusOfFour(a: Item, b: Item, c: Item, d: Item)
    ensures ItemsBonus([a, b, c, d]) == ItemBonus(a) + ItemBonus(b) + ItemBonus(c) + ItemBonus(d)
  {
    assert [a, b, c, d][..3] == [a, b, c];
    assert [a, b, c][..2] == [a, b];
    ItemsBonusOfTwo(a, b);
  }

  /** A five-item list scores its items' bonuses. */
  lemma {:induction false} ItemsBonusOfFive(a: Item, b: Item, c: Item, d: Item, e: Item)
    ensures ItemsBonus([a, b, c, d, e])
      == ItemBonus(a) + ItemBonus(b) + ItemBonus(c) + ItemBonus(d) + ItemBonus(e)
  {
    assert [a, b, c, d, e][..4] == [a, b, c, d];
    ItemsBonusOfFour(a, b, c, d);
  }

  /** Only "Emils Cheese Pizza" (18 characters) of the four unpadded Target descriptions scores: 3. */
  lemma {:induction false} TargetPlainItemsScore()
    ensures ItemBonus(Item("Mountain Dew 12PK", 649)) == 0
    ensures ItemBonus(Item("Emils Cheese Pizza", 1225)) == 3
    ensures ItemBonus(Item("Knorr Creamy Chicken", 126)) == 0
    ensures ItemBonus(Item("Doritos Nacho Cheese", 335)) == 0
  {
    UnpaddedItemBonus("Mountain Dew 12PK", 649);
    UnpaddedItemBonus("Emils Cheese Pizza", 1225);
    UnpaddedItemBonus("Knorr Creamy Chicken", 126);
    UnpaddedItemBonus("Doritos Nacho Cheese", 335);
  }

  /**
   * The Klarbrunn pack counts at 24 characters once its three leading and two
   * trailing blanks are trimmed, so it scores a fifth of 12.00, rounded up: 3.
   * The padded description is written as the concatenation of its blanks and
   * its text.
   */
  lemma {:induction false} KlarbrunnScoresThree()
    ensures ItemBonus(Item("   " + "Klarbrunn 12-PK 12 FL OZ" + "  ", 1200)) == 3
  {
    TrimPadded("   ", "Klarbrunn 12-PK 12 FL OZ", "  ");
  }

  /** Of the five Target items, the pizza and the Klarbrunn pack score 3 each. */
  lemma {:induction false} TargetItemsScoreSix()
    ensures ItemsBonus([Item("Mountain Dew 12PK", 649), Item("Emils Cheese Pizza", 1225),
       Item("Knorr Creamy Chicken", 126), Item("Doritos Nacho Cheese", 335),
       Item("   " + "Klarbrunn 12-PK 12 FL OZ" + "  ", 1200)]) == 6
  {
    TargetPlainItemsScore();
    KlarbrunnScoresThree();
    ItemsBonusOfFive(Item("Mountain Dew 12PK", 649), Item("Emils Cheese Pizza", 1225),
       Item("Knorr Creamy Chicken", 126), Item("Doritos Nacho Cheese", 335),
       Item("   " + "Klarbrunn 12-PK 12 FL OZ" + "  ", 1200));
  }

  /** Mixed conditions: name 6, five items make two pairs 10, items 6, odd day 6. */
  lemma {:induction false} TargetScoresTwentyEight()
    ensures Score(Receipt("Target", Date(2022, 1, 1), Time(13, 1),
      [Item("Mountain Dew 12PK", 649), Item("Emils Cheese Pizza", 1225),
       Item("Knorr Creamy Chicken", 126), Item("Doritos Nacho Cheese", 335),
       Item("   " + "Klarbrunn 12-PK 12 FL OZ" + "  ", 1200)], 3535)) == 28
  {
    KeepAlnumAllAlnum("Target");
    TargetItemsScoreSix();
    ScoreFromRules(Receipt("Target", Date(2022, 1, 1), Time(13, 1),
      [Item("Mountain Dew 12PK", 649), Item("Emils Cheese Pizza", 1225),
       Item("Knorr Creamy Chicken", 126), Item("Doritos Nacho Cheese", 335),
       Item("   " + "Klarbrunn 12-PK 12 FL OZ" + "  ", 1200)], 3535), 6, 0, 10, 6, 6, 0);
  }

  /** Whole total 75, odd day 6, 15:30 earns 10, name 7. */
  lemma {:induction false} WalmartScoresNinetyEight()
    ensures Score(Receipt("Walmart", Date(2022, 3, 15), Time(15, 30),
      [Item("Large Bath Towels", 10000)], 10000)) == 98
  {
    KeepAlnumAllAlnum("Walmart");
    TrimUnpadded("Large Bath Towels");
    ItemsBonusSingle(Item("Large Bath Towels", 10000));
    ScoreFromRules(Receipt("Walmart", Date(2022, 3, 15), Time(15, 30),
      [Item("Large Bath Towels", 10000)], 10000), 7, 75, 0, 0, 6, 10);
  }

  /** Whole total 75, one pair 5, "Egg" earns 1, name 8. */
  lemma {:induction false} StoreScoresEightyNine()
    ensures Score(Receipt("Store123", Date(2022, 6, 10), Time(10, 45),
      [Item("Triple Milk", 300), Item("Egg", 200)], 500)) == 89
  {
    KeepAlnumAllAlnum("Store123");
    TrimUnpadded("Triple Milk");
    TrimUnpadded("Egg");
    ItemsBonusOfTwo(Item("Triple Milk", 300), Item("Egg", 200));
    ScoreFromRules(Receipt("Store123", Date(2022, 6, 10), Time(10, 45),
      [Item("Triple Milk", 300), Item("Egg", 200)], 500), 8, 75, 5, 1, 0, 0);
  }

  /** An empty item list yields a score instead of an error: name 10, zero total 75. */
  lemma {:induction false} EmptyStoreScoresEightyFive()
    ensures Score(Receipt("EmptyStore", Date(2022, 2, 2), Time(8, 0), [], 0)) == 85
  {
    KeepAlnumAllAlnum("EmptyStore");
    ScoreFromRules(Receipt("EmptyStore", Date(2022, 2, 2), Time(8, 0), [], 0), 10, 75, 0, 0, 0, 0);
  }

  /** The blank between the two words of "Afternoon Mart" earns nothing: 13. */
  lemma {:induction false} AfternoonMartNameScoresThirteen()
    ensures RetailerPoints("Afternoon" + " " + "Mart") == 13
  {
    RetailerPointsAdditive("Afternoon" + " ", "Mart");
    RetailerPointsAdditive("Afternoon", " ");
    KeepAlnumAllAlnum("Afternoon");
    KeepAlnumNoAlnum(" ");
    KeepAlnumAllAlnum("Mart");
  }

  /** Whole total 75, odd day 6, 14:15 earns 10, name 13. */
  lemma {:induction false} AfternoonMartScoresOneHundredFour()
    ensures Score(Receipt("Afternoon" + " " + "Mart", Date(2022, 4, 1), Time(14, 15),
      [Item("Afternoon Cookies", 2500)], 2500)) == 104
  {
    AfternoonMartNameScoresThirteen();
    TrimUnpadded("Afternoon Cookies");
    ItemsBonusSingle(Item("Afternoon Cookies", 2500));
    ScoreFromRules(Receipt("Afternoon" + " " + "Mart", Date(2022, 4, 1), Time(14, 15),
      [Item("Afternoon Cookies", 2500)], 2500), 13, 75, 0, 0, 6, 10);
  }

  /** The two blanks of "Odd Day Mart" earn nothing: 10. */
  lemma {:induction false} OddDayMartNameScoresTen()
    ensures RetailerPoints("Odd" + " " + "Day" + " " + "Mart") == 10
  {
    RetailerPointsAdditive("Odd" + " " + "Day" + " ", "Mart");
    RetailerPointsAdditive("Odd" + " " + "Day", " ");
    RetailerPointsAdditive("Odd" + " ", "Day");
    RetailerPointsAdditive("Odd", " ");
    KeepAlnumAllAlnum("Odd");
    KeepAlnumNoAlnum(" ");
    KeepAlnumAllAlnum("Day");
    KeepAlnumAllAlnum("Mart");
  }

  /** Quarter total 25 without the round-dollar 50, odd day 6, name 10. */
  lemma {:induction false} OddDayMartScoresFortyOne()
    ensures Score(Receipt("Odd" + " " + "Day" + " " + "Mart", Date(2023, 6, 3), Time(13, 25),
      [Item("Bubble Gum", 250)], 250)) == 41
  {
    OddDayMartNameScoresTen();
    TrimUnpadded("Bubble Gum");
    ItemsBonusSingle(Item("Bubble Gum", 250));
    ScoreFromRules(Receipt("Odd" + " " + "Day" + " " + "Mart", Date(2023, 6, 3), Time(13, 25),
      [Item("Bubble Gum", 250)], 250), 10, 25, 0, 0, 6, 0);
  }

  /** Quarter total 25 without the round-dollar 50, "Egg" earns 1, name 11. */
  lemma {:induction false} QuarterMartScoresThirtySeven()
    ensures Score(Receipt("QuarterMart", Date(2022, 5, 10), Time(9, 0),
      [Item("Egg", 75)], 75)) == 37
  {
    KeepAlnumAllAlnum("QuarterMart");
    TrimUnpadded("Egg");
    ItemsBonusSingle(Item("Egg", 75));
    ScoreFromRules(Receipt("QuarterMart", Date(2022, 5, 10), Time(9, 0),
      [Item("Egg", 75)], 75), 11, 25, 0, 1, 0, 0);
  }

  /** None of the four PairStore descriptions (11, 11, 11 and 14 characters) earns a bonus. */
  lemma {:induction false} PairStoreItemsScoreNothing()
    ensures ItemsBonus([Item("Granola Bar", 100), Item("Fruit Salad", 200),
       Item("Apple Juice", 300), Item("Chocolate Cake", 400)]) == 0
  {
    UnpaddedItemBonus("Granola Bar", 100);
    UnpaddedItemBonus("Fruit Salad", 200);
    UnpaddedItemBonus("Apple Juice", 300);
    UnpaddedItemBonus("Chocolate Cake", 400);
    ItemsBonusOfFour(Item("Granola Bar", 100), Item("Fruit Salad", 200),
      Item("Apple Juice", 300), Item("Chocolate Cake", 400));
  }

  /** Whole total 75, two pairs 10, name 9. */
  lemma {:induction false} PairStoreScoresNinetyFour()
    ensures Score(Receipt("PairStore", Date(2022, 8, 20), Time(11, 0),
      [Item("Granola Bar", 100), Item("Fruit Salad", 200),
       Item("Apple Juice", 300), Item("Chocolate Cake", 400)], 1000)) == 94
  {
    KeepAlnumAllAlnum("PairStore");
    PairStoreItemsScoreNothing();
    ScoreFromRules(Receipt("PairStore", Date(2022, 8, 20), Time(11, 0),
      [Item("Granola Bar", 100), Item("Fruit Salad", 200),
       Item("Apple Juice", 300), Item("Chocolate Cake", 400)], 1000), 9, 75, 10, 0, 0, 0);
  }

  /** No rule but the name fires: 13. */
  lemma {:induction false} JustAStoreScoresThirteen()
    ensures Score(Receipt("JustAStore123", Date(2022, 8, 2), Time(0, 1),
      [Item("TestItem", 110)], 110)) == 13
  {
    KeepAlnumAllAlnum("JustAStore123");
    TrimUnpadded("TestItem");
    ItemsBonusSingle(Item("TestItem", 110));
    ScoreFromRules(Receipt("JustAStore123", Date(2022, 8, 2), Time(0, 1),
      [Item("TestItem", 110)], 110), 13, 0, 0, 0, 0, 0);
  }

  /**
   * A receipt the validator accepts can score 0: a name with no letter or
   * digit, an odd number of cents, one item whose description is one
   * character, an even day and a morning time.
   */
  lemma {:induction false} DashStoreScoresZero()
    ensures Score(Receipt("-", Date(2022, 1, 2), Time(10, 0), [Item("A", 101)], 101)) == 0
  {
    KeepAlnumNoAlnum("-");
    UnpaddedItemBonus("A", 101);
    ItemsBonusSingle(Item("A", 101));
    ScoreFromRules(Receipt("-", Date(2022, 1, 2), Time(10, 0), [Item("A", 101)], 101), 0, 0, 0, 0, 0, 0);
  }

  /** Once stored, that receipt's points read back as missing, like an unknown id. */
  lemma {:induction false} ZeroScoredReceiptReadsAsMissing(receipts: map<string, int>, id: string)
    ensures Storage.Lookup(receipts[id := Score(Receipt("-", Date(2022, 1, 2), Time(10, 0),
      [Item("A", 101)], 101))], id) == None
  {
    DashStoreScoresZero();
    Storage.ZeroReadsAsMissing(receipts, id);
  }

  /**
   * Negative amounts pass the validator and are scored as written: a
   * three-character item priced -10.01 adds `Math.ceil(-2.002)`, that is -2,
   * and nothing else fires, so the receipt scores -2.
   */
  lemma {:induction false} RefundScoresMinusTwo()
    ensures Score(Receipt("-", Date(2022, 1, 2), Time(10, 0), [Item("Egg", -1001)], -1001)) == -2
  {
    KeepAlnumNoAlnum("-");
    UnpaddedItemBonus("Egg", -1001);
    ItemsBonusSingle(Item("Egg", -1001));
    ScoreFromRules(Receipt("-", Date(2022, 1, 2), Time(10, 0), [Item("Egg", -1001)], -1001), 0, 0, 0, -2, 0, 0);
  }

  /** A negative score is truthy, so unlike 0 it reads back as stored. */
  lemma {:induction false} NegativeScoreReadsBack(receipts: map<string, int>, id: string)
    ensures Storage.Lookup(receipts[id := Score(Receipt("-", Date(2022, 1, 2), Time(10, 0),
      [Item("Egg", -1001)], -1001))], id) == Some(-2)
  {
    RefundScoresMinusTwo();
    Storage.LookupAfterSave(receipts, id, -2);
  }

  /** Window edges: 14:00 and 16:00 earn nothing, the minute inside each edge does. */
  lemma {:induction false} AfternoonWindowEdges()
    ensures AfternoonBonus(Time(14, 0)) == 0 && AfternoonBonus(Time(14, 1)) == 10
    ensures AfternoonBonus(Time(15, 59)) == 10 && AfternoonBonus(Time(16, 0)) == 0
    ensures AfternoonBonus(Time(13, 1)) == 0 && AfternoonBonus(Time(0, 1)) == 0
  {
  }

  /** 100.00 earns both amount bonuses; 0.75 and 2.50 earn only the quarter bonus. */
  lemma {:induction false} AmountBonusExamples()
    ensures RoundDollarBonus(10000) + QuarterBonus(10000) == 75
    ensures RoundDollarBonus(75) == 0 && QuarterBonus(75) == 25
    ensures RoundDollarBonus(250) == 0 && QuarterBonus(250) == 25
  {
  }
}
