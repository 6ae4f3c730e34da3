# Receipt points: a Dafny model

The receipt processor is a small web service. A client posts a receipt
(retailer, purchase date and time, line items, total). The service scores the
receipt, keeps the score in memory under a fresh id, and returns the score when
that id is queried.

This project models the two pieces that do the work:

- **the scoring** (`calculatePoints`): the seven rules and the accumulator
  loop that adds them up;
- **the in-memory store** (`saveReceipt` and `getReceiptPoints`): a table from
  id to points, and the `|| null` on reads, which makes a stored 0 look
  like a missing receipt.

Files:

- `wrappers.dfy` holds `Option`, which stands for the source's `null`.
- `text.dfy` (module `Text`) holds the two string operations the rules use:
  - the `[^a-zA-Z0-9]` filter on the retailer name;
  - `String.prototype.trim` on item descriptions. `IsWhitespace` is
    ECMAScript's WhiteSpace and LineTerminator set.
- `points.dfy` (module `Points`) holds the rules as functions, their sum
  `Score`, and the source's accumulator.
  - `CalculatePoints` is a method proved equal to `Score`, and its `forEach`
    loop `SumItemPoints` a method proved equal to `ItemsBonus`.
  - Amounts are whole cents of either sign, since the validator's
    `Joi.number()` admits negative totals and prices. Each amount rule is proved equal to the
    exact-real expression the source evaluates: `total % 1`, `total % 0.25`,
    `Math.floor(n / 2)` and `Math.ceil(price * 0.2)`.
- `storage.dfy` (module `Storage`) holds `ReceiptStore`, a class whose
  `receipts` map is the module-level `Map`. `Lookup` is the read rule, and
  lemmas state what a read returns after saves.
- `points_scenarios.dfy` (module `PointsScenarios`) holds:
  - the scores the scoring unit tests expect;
  - a receipt the validator accepts that scores 0, which therefore reads back
    as "not found".

The validator's ranges are encoded in the types `Hour` (< 24) and `Minute`
(< 60), from the `HH:MM` pattern, and `Day` (1 to 31), from the ISO date.
These are the only restrictions on the receipts scored. Beyond them the
scoring has no precondition: like the source, it scores any receipt it is
given, including one with no items and one with negative amounts. The score
is a non-negative integer whenever every price is above -5.00
(`ScoreNonNegative`), and only a price of -5.00 or less can make it negative.

## Model

| member | source | states |
|---|---|---|
| Text.KeepAlnumShape | src/points.js:6 | the name filter never lengthens the name and keeps only `[a-zA-Z0-9]` characters |
| Text.KeepAlnumOccurrences | src/points.js:6 | the filter keeps every occurrence of every letter and digit and drops every other character |
| Text.KeepAlnumAppend | src/points.js:6 | filtering a concatenation is concatenating the filtered parts (the `g` flag: every match is removed) |
| Text.KeepAlnumAllAlnum | src/points.js:6 | a name made only of letters and digits passes the filter unchanged |
| Text.KeepAlnumNoAlnum | src/points.js:6 | a name with no letter or digit filters to the empty string |
| Text.TrimStartShape | src/points.js:19 | the leading-trim result is a suffix of the input, what it removed is all whitespace, and it starts with a non-whitespace character |
| Text.TrimEndShape | src/points.js:19 | the trailing-trim result is a prefix of the input, what it removed is all whitespace, and it ends with a non-whitespace character |
| Text.TrimShape | src/points.js:19 | `trim` returns a contiguous slice of the input, with only whitespace removed on each side and no whitespace at either end |
| Text.TrimStartPadded | src/points.js:19 | leading whitespace before text that starts with a non-whitespace character is exactly what the leading trim removes |
| Text.TrimEndPadded | src/points.js:19 | trailing whitespace after text that ends with a non-whitespace character is exactly what the trailing trim removes |
| Text.TrimPadded | src/points.js:19 | `trim` of whitespace + text + whitespace is the text, when the text has no whitespace at either end |
| Text.TrimStartAllWhitespace | src/points.js:19 | an all-whitespace string trims to empty |
| Text.TrimUnpadded | src/points.js:19 | a string with no whitespace at either end is its own trim |
| Text.TrimIdempotent | src/points.js:19 | trimming twice is the same as trimming once |
| Points.RetailerPointsCounts | src/points.js:6-7 | the retailer rule is at most the name's length; it equals the length exactly when every character is a letter or digit, and is 0 exactly when none is |
| Points.RetailerPointsAdditive | src/points.js:6-7 | the retailer rule on a concatenated name is the sum over the parts |
| Points.RoundDollarMeansWhole | src/points.js:9-10 | the 50-point rule on integer cents of either sign fires exactly when the dollar amount has no fractional part (`total % 1 === 0`) |
| Points.QuarterMeansMultiple | src/points.js:12 | the 25-point rule on integer cents of either sign fires exactly when the dollar amount divided by 0.25 is whole (`total % 0.25 === 0`) |
| Points.WholeDollarsStack | src/points.js:9-12 | a whole-dollar total earns both amount rules, 75 points together |
| Points.PairBonusFloors | src/points.js:14-15 | the pair rule is `Math.floor(length / 2) * 5` over exact division |
| Points.FifthRoundedUpIsCeiling | src/points.js:21 | for any price in cents, negative included, the integer computation is the ceiling of the exact product `price * 0.2` in dollars |
| Points.FifthRoundedUpSign | src/points.js:21 | `Math.ceil(price * 0.2)` is non-negative exactly when the price is above -5.00 |
| Points.ItemBonusRounding | src/points.js:19-22 | an item whose trimmed description length is a multiple of 3 earns `Math.ceil(price * 0.2)`, and any other item earns 0 |
| Points.ItemBonusIgnoresPadding | src/points.js:19-22 | whitespace around a description never changes what the item earns |
| Points.ItemsBonusAppend | src/points.js:17-25 | the item points of a concatenated list are the sum over the two parts |
| Points.ItemsBonusSingle | src/points.js:17-25 | a one-item list earns that item's points |
| Points.ItemsBonusSwap | src/points.js:17-25 | swapping two adjacent items leaves the item points unchanged |
| Points.ItemsBonusRemove | src/points.js:17-25 | taking one item out of the list, at any position, takes exactly that item's points out of the item points |
| Points.ItemsBonusPermutation | src/points.js:17-25 | any reordering of the item list (same multiset of items) leaves the item points unchanged, so the `forEach` order does not matter |
| Points.ItemsBonusNonNegative | src/points.js:17-25 | the item points are never negative while every price is above -5.00 |
| Points.OddDayBonus | src/points.js:27-29 | 6 points exactly when the day of the month is odd, 0 exactly when it is even |
| Points.OddDayAlternates | src/points.js:27-29 | of two consecutive days of a month exactly one earns the 6 points |
| Points.AfternoonBonus | src/points.js:31-37 | 10 points exactly for times strictly after 14:00 and strictly before 16:00 (14:01 to 15:59), 0 otherwise |
| Points.SumItemPoints | src/points.js:17-25 | the `forEach` accumulation returns the item points of the whole list |
| Points.CalculatePoints | src/points.js:3-40 | the accumulator that adds the seven rules in turn returns the rule sum `Score` |
| Points.ScoreNonNegative | src/points.js:3-40 | the score is a non-negative integer for every receipt whose prices are all above -5.00, so in particular for every receipt without negative amounts |
| Points.EmptyItemsScore | src/points.js:14-25 | an empty item list is scored, not rejected: the pair and item rules add nothing and the other five apply |
| Points.ScoreWithAddedItem | src/points.js:14-25 | adding an item changes the score only through the pair rule and that item's own points |
| Points.ScoreWithRetailer | src/points.js:6-7 | changing only the retailer changes the score only by the difference in the retailer rule |
| Storage.LookupFinds | src/storage.js:7-9 | a read returns `p` exactly when the id is stored with points `p` and `p` is not 0 |
| Storage.LookupAfterSave | src/storage.js:3-9 | after saving non-zero points under an id, a read of that id returns them |
| Storage.LookupNeverSaved | src/storage.js:8 | an id never saved reads as null |
| Storage.SaveLeavesOthers | src/storage.js:4 | saving under one id leaves every other id's read unchanged |
| Storage.LastWriteWins | src/storage.js:4 | saving twice under an id reads, for every id, like saving only the second value |
| Storage.ZeroReadsAsMissing | src/storage.js:8 | stored zero points read as null, the same as an id that is not in the table |
| Storage.ReceiptStore.constructor | src/storage.js:1 | the store starts empty |
| Storage.ReceiptStore.Save | src/storage.js:3-5 | the table afterwards is the old table with the id set to the points, and nothing else changed |
| Storage.ReceiptStore.Get | src/storage.js:7-9 | the read finds a value exactly when the id is stored with non-zero points, and the value found is the stored one |
| PointsScenarios.TargetPlainItemsScore | tests/points.test.js:10-13 | of the four unpadded Target descriptions only the 18-character one earns points: 3 |
| PointsScenarios.KlarbrunnScoresThree | tests/points.test.js:14 | the padded Klarbrunn description counts at its trimmed length of 24 and earns 3 |
| PointsScenarios.TargetItemsScoreSix | tests/points.test.js:9-15 | the five Target items earn 6 points in all |
| PointsScenarios.TargetScoresTwentyEight | tests/points.test.js:4-21 | the mixed-conditions receipt scores 28 |
| PointsScenarios.WalmartScoresNinetyEight | tests/points.test.js:23-36 | the round-dollar receipt scores 98 |
| PointsScenarios.StoreScoresEightyNine | tests/points.test.js:38-52 | the description-length receipt scores 89 |
| PointsScenarios.EmptyStoreScoresEightyFive | tests/points.test.js:54-64 | the empty-items receipt scores 85 and is not rejected |
| PointsScenarios.AfternoonMartNameScoresThirteen | tests/points.test.js:68 | the space in "Afternoon Mart" earns nothing: 13 |
| PointsScenarios.AfternoonMartScoresOneHundredFour | tests/points.test.js:66-79 | the 14:15 receipt scores 104 |
| PointsScenarios.OddDayMartNameScoresTen | tests/points.test.js:83 | the spaces in "Odd Day Mart" earn nothing: 10 |
| PointsScenarios.OddDayMartScoresFortyOne | tests/points.test.js:81-92 | the odd-day receipt scores 41 |
| PointsScenarios.QuarterMartScoresThirtySeven | tests/points.test.js:94-107 | a 0.75 total earns the quarter rule but not the round-dollar rule: 37 |
| PointsScenarios.PairStoreItemsScoreNothing | tests/points.test.js:115-118 | none of the four PairStore descriptions earns item points |
| PointsScenarios.PairStoreScoresNinetyFour | tests/points.test.js:109-125 | four items earn two pairs: the receipt scores 94 |
| PointsScenarios.JustAStoreScoresThirteen | tests/points.test.js:127-138 | when no other rule applies the score is the retailer rule alone: 13 |
| PointsScenarios.DashStoreScoresZero | src/points.js:3-40 | a receipt the validator accepts can score 0 |
| PointsScenarios.ZeroScoredReceiptReadsAsMissing | src/storage.js:8 | once stored, that receipt's 0 points read as null, as if it were never saved |
| PointsScenarios.RefundScoresMinusTwo | src/points.js:19-25 | a three-character item priced -10.01 adds `Math.ceil(-2.002)` = -2, and the receipt scores -2 |
| PointsScenarios.NegativeScoreReadsBack | src/storage.js:8 | a negative score is truthy, so once stored it reads back unchanged |
| PointsScenarios.AfternoonWindowEdges | src/points.js:31-37 | 14:00 and 16:00 earn nothing, while 14:01 and 15:59 earn 10 |
| PointsScenarios.AmountBonusExamples | src/points.js:9-12 | 100.00 earns both amount rules, while 0.75 and 2.50 earn only the quarter rule |

## Left out

- Floating point: totals and prices are modelled as whole cents, positive, zero or negative. The amount rules are proved against exact real arithmetic, not IEEE-754 doubles. Amounts with more than two decimals, which `Joi.number()` admits, are not modelled.
- `parseFloat` of the decimal strings is not modelled; the model starts from the amount in cents.
- Date and time parsing by `dayjs` is not modelled. The odd-day rule reads the day of the month straight from the date. The afternoon rule compares clock minutes within the purchase day, which is what `isAfter`/`isBefore` decide for the same date. An invalid date, for which `dayjs` yields `NaN`, is not modelled: the validator's `isoDate` rejects it first. A day past the end of its month that the ISO date pattern still admits (such as "2024-02-30") is read as written, so day 30 scores 0. The model does not roll it over into the next month as JavaScript's `Date` constructor may.
- The model scores the receipt fields as written. It does not model the value the validator converts them to before scoring.
- String lengths count Unicode scalar values, while JavaScript's `.length` counts UTF-16 code units. A description containing characters outside the Basic Multilingual Plane would count differently. The retailer filter keeps only ASCII, so its length is exact.
- The request validator (`src/schema.js`) is not part of this model. The only parts carried over are the `HH:MM` ranges in `Hour` and `Minute`, and the ISO date's day range in `Day`. Neither the `items` minimum of 1 nor the HTML sanitising is modelled.
- The HTTP layer (`src/index.js`) is not part of this model: routing, rate limiting, id generation with `uuid`, and the 404 response for a null read.
- Concurrency: the store is modelled as one object changed by one caller at a time.
- Empty item list: the unit test at tests/points.test.js:54-64 expects `calculatePoints` to throw. The code as written scores the receipt instead, 85 points for that test's receipt. The model follows the code (`EmptyStoreScoresEightyFive`). In the service the validator's `min(1)` keeps such a receipt from being scored.
- The padded Klarbrunn description in the scenarios is written as the concatenation `"   " + "Klarbrunn 12-PK 12 FL OZ" + "  "`. This is the same string as the test's literal. Likewise, the two spaced retailer names are written as concatenations of their words and blanks.
