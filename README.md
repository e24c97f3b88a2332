# Gilded Rose daily update, modelled in Dafny

This project models the Gilded Rose inventory updater. `GildedRose.UpdateQuality` is one simulated day. For every item of the list the shop holds, it lowers the sell-in by one, except for Sulfuras. It then changes the quality by the rule the item's name selects:

- Backstage passes gain 3, 2 or 1 as the concert nears, and drop to 0 once it has passed.
- Aged Brie gains 1, or 2 after its sell-by date.
- Conjured items lose twice what ordinary items lose.
- Ordinary items lose 1, or 2 after the sell-by date.

Increases are capped at 50 and decreases are floored at 0.

Files:

- `gilded_rose.dfy`, module `GildedRoseKata`. It holds:
  - the `Item` class;
  - the pure per-item rule `Next`, and `Days` (the rule applied repeatedly);
  - the `GildedRose` class, whose methods change items in place. `UpdateItem` (the loop body) is proved against `Next`, and the `UpdateQuality` loop against `Next` and `Days`. The helpers `ReduceSellIn`, `ReduceQuality` and `IncreaseQuality` are proved against a sell-in one less, `ReducedQuality` and `IncreasedQuality`.
- `properties.dfy`, module `GildedRoseProperties`: lemmas about `Next` and `Days`. These lemmas cover:
  - the category rules;
  - the quality bounds;
  - Sulfuras being left alone;
  - the sell-in countdown;
  - behaviour over many days;
  - the unit tests' scenarios.

A list may hold the same `Item` object more than once. The C# loop then updates that object once per occurrence. `UpdateQuality` states exactly that: each item ends in the state `Days` gives for the number of times it occurs in the list. When the items are pairwise distinct, this reduces to one application of `Next` per item.

## Model

| member | source | states |
|---|---|---|
| `GildedRoseKata.GildedRose.constructor` | csharp.xUnit/GildedRose/GildedRose.cs:15-18 | The shop keeps the caller's list itself, not a copy. |
| `GildedRoseKata.GildedRose.UpdateQuality` | csharp.xUnit/GildedRose/GildedRose.cs:20-60 | Names are never changed. Every item object ends in the state given by applying the daily rule once per occurrence in the list. For a list of distinct items, each item ends in exactly `Next` of its own old state. Nothing outside the listed items is modified, and the list keeps its length and order. |
| `GildedRoseKata.GildedRose.UpdateItem` | csharp.xUnit/GildedRose/GildedRose.cs:26-58 | The loop body for one item. It changes only that item's sell-in and quality, and the new state is `Next(name, old state)`. |
| `GildedRoseKata.GildedRose.ReduceSellIn` | csharp.xUnit/GildedRose/GildedRose.cs:66-69 | Sell-in becomes one less. Only that field changes. |
| `GildedRoseKata.GildedRose.ReduceQuality` | csharp.xUnit/GildedRose/GildedRose.cs:76-79 | Quality becomes `max(0, quality - quantity)`. Only that field changes. |
| `GildedRoseKata.GildedRose.IncreaseQuality` | csharp.xUnit/GildedRose/GildedRose.cs:86-89 | Quality becomes `min(50, quality + quantity)`. Only that field changes. |
| `GildedRoseKata.IncreasedQuality` | csharp.xUnit/GildedRose/GildedRose.cs:88 | The increased quality is never above 50 or above `quality + quantity`, and equals one of the two. |
| `GildedRoseKata.ReducedQuality` | csharp.xUnit/GildedRose/GildedRose.cs:78 | The reduced quality is never below 0 or below `quality - quantity`, and equals one of the two. |
| `GildedRoseKata.ComputeBackstageIncreaser` | csharp.xUnit/GildedRose/GildedRose.cs:101-114 | The result is -1 exactly when sell-in < 0. It is 3 for 0 ≤ sell-in < 5, 2 for 5 ≤ sell-in < 10, and 1 from 10 on. |
| `GildedRoseKata.CategoryOf` | csharp.xUnit/GildedRose/GildedRose.cs:10-13 | Each of the four special categories is selected exactly when the name equals its string. Every other name is ordinary. |
| `GildedRoseKata.DistinctOccursOnce` | csharp.xUnit/GildedRose/GildedRose.cs:24 | In a list without repeated objects, each object occurs once, so the loop visits it exactly once. |
| `GildedRoseKata.RunOneDay` | csharp.xUnit/GildedRoseTests/GildedRoseTest.cs:15-18 | Building a one-item list, a shop over it and running one day gives exactly `Next` of the item's starting state. |
| `GildedRoseProperties.SulfurasUntouched` | csharp.xUnit/GildedRose/GildedRose.cs:27-30 | Sulfuras keeps both its sell-in and its quality for the day. |
| `GildedRoseProperties.SulfurasUntouchedForever` | csharp.xUnit/GildedRose/GildedRose.cs:27-30 | Sulfuras is unchanged after any number of days. |
| `GildedRoseProperties.SellInDecrements` | csharp.xUnit/GildedRose/GildedRose.cs:31 | Every item other than Sulfuras loses exactly one day of sell-in, with no floor. |
| `GildedRoseProperties.SellInAfterDays` | csharp.xUnit/GildedRose/GildedRose.cs:66-69 | After n days, a non-Sulfuras item's sell-in is exactly n lower. |
| `GildedRoseProperties.BackstageIncreaserGrowsNearConcert` | csharp.xUnit/GildedRose/GildedRose.cs:103-113 | Before the concert, a nearer date never gives a smaller daily increase. |
| `GildedRoseProperties.BackstageRule` | csharp.xUnit/GildedRose/GildedRose.cs:34-44 | A backstage pass, judged on the decremented sell-in, becomes exactly 0 if that is negative, whatever its old quality. Otherwise it becomes `min(50, q+3)`, `min(50, q+2)` or `min(50, q+1)` for below 5, below 10, or from 10 on. |
| `GildedRoseProperties.AgedBrieRule` | csharp.xUnit/GildedRose/GildedRose.cs:45-48 | Aged Brie becomes `min(50, q + k)`. Here k is 2 when the decremented sell-in is negative and 1 otherwise. |
| `GildedRoseProperties.DegradingRule` | csharp.xUnit/GildedRose/GildedRose.cs:49-57 | Ordinary and Conjured items become `max(0, q - r)`. Here r is 1, or 2 when the decremented sell-in is negative, and is doubled for "Conjured". |
| `GildedRoseProperties.ConjuredTwiceAsFast` | csharp.xUnit/GildedRose/GildedRose.cs:51-55 | While the floor is not reached (quality at least the Conjured loss of 2, or 4 once the decremented sell-in is negative), a Conjured item loses twice what an ordinary item with the same state loses. |
| `GildedRoseProperties.QualityStaysInRange` | csharp.xUnit/GildedRose/GildedRose.cs:34-57 | A non-Sulfuras item whose quality is in [0, 50] still has quality in [0, 50] after the day. |
| `GildedRoseProperties.QualityStaysInRangeForDays` | csharp.xUnit/GildedRose/GildedRose.cs:34-57 | The same bound holds after any number of days. |
| `GildedRoseProperties.RangeNeedsPrecondition` | csharp.xUnit/GildedRose/GildedRose.cs:78 | The bound is kept but not restored: an ordinary item can start above 50 and still be above 50 after the day. |
| `GildedRoseProperties.BackstageWorthlessAfterConcert` | csharp.xUnit/GildedRose/GildedRose.cs:36-39 | After more days than its sell-in, and at least one day, a backstage pass has quality 0. |
| `GildedRoseProperties.AgedBrieNeverLosesQuality` | csharp.xUnit/GildedRose/GildedRose.cs:45-48 | Aged Brie starting at most 50 never drops below its starting quality and never exceeds 50, over any number of days. |
| `GildedRoseProperties.DegradingLosesDaily` | csharp.xUnit/GildedRose/GildedRose.cs:49-57 | After n ≥ 1 days, an ordinary or Conjured item's quality is between 0 and `max(0, q - n)`. |
| `GildedRoseProperties.DegradingEventuallyWorthless` | csharp.xUnit/GildedRose/GildedRose.cs:49-57 | After at least as many days as its quality, and at least one day, such an item has quality 0. |
| `GildedRoseProperties.UnitTestScenarios` | csharp.xUnit/GildedRoseTests/GildedRoseTest.cs:12-165 | Each of the twelve unit-test scenarios gives the asserted sell-in and quality after one day. |

## Left out

- Integer width: the model uses unbounded integers. C#'s 32-bit `int` wraps in `SellIn - 1` at `int.MinValue` (line 68) and in `Quality + quantity` or `Quality - quantity` near the ends of the range (lines 78 and 88). The model does not capture this.
- `Item`: its C# source is not part of this model. It is a plain class with `name`, `sellIn` and `quality` fields. C# property semantics are not modelled.
- `IList<Item>` is modelled as a Dafny `array<Item>`. `Math.Min` and `Math.Max` are plain integer min and max.
- `GildedRoseKata.GildedRose.UpdateItem`: the body of the `for` loop (lines 26-58) is written as a method of its own. The loop calls it once per index. The C# locals `increaser` and `reducer` are declared before the loop, but they are always assigned before being read, so their scope has no effect. The model declares them inside the per-item method.
- `GildedRoseKata.ComputeBackstageIncreaser` takes the item's sell-in instead of the `Item`. The C# method reads nothing else from the item.
- Nothing in the model covers the xUnit harness (`[Fact]`, `Assert`). Its scenarios are restated as `UnitTestScenarios` about `Next`, and its setup pattern as `RunOneDay`.
- Concurrent calls on one list are not modelled. The source gives no guarantee for them.
