/**
 * What the daily rule promises, stated about the pure rule Next (one day)
 * and Days (any number of days). Through the postcondition of
 * GildedRose.UpdateQuality these facts hold of the items the shop updates.
 */
module GildedRoseProperties {
  import opened GildedRoseKata

  /** An item is ordinary or conjured: its quality only ever decreases. */
  predicate Degrades(name: string)
  {
    CategoryOf(name) == Ordinary || CategoryOf(name) == Conjured
  }

  // ---- Sell-in ----

  lemma SulfurasUntouched(before: ItemState)
    ensures Next(SulfurasName, before) == before
  {
  }

  lemma {:induction false} SulfurasUntouchedForever(before: ItemState, days: nat)
    ensures Days(SulfurasName, before, days) == before
  {
    if days > 0 {
      SulfurasUntouchedForever(before, days - 1);
    }
  }

  lemma SellInDecrements(name: string, before: ItemState)
    requires name != SulfurasName
    ensures Next(name, before).sellIn == before.sellIn - 1
  {
  }

  lemma {:induction false} SellInAfterDays(name: string, before: ItemState, days: nat)
    requires name != SulfurasName
    ensures Days(name, before, days).sellIn == before.sellIn - days
  {
    if days > 0 {
      SellInAfterDays(name, before, days - 1);
    }
  }

  // ---- One day, category by category ----

  /** The nearer the concert, the larger the daily increase of a pass. */
  lemma BackstageIncreaserGrowsNearConcert(near: int, far: int)
    requires 0 <= near <= far
    ensures ComputeBackstageIncreaser(near) >= ComputeBackstageIncreaser(far)
  {
  }

  /**
   * A pass gains 3, 2 or 1 (capped at MaxQuality) when the decremented
   * sell-in is below 5, below 10 or beyond; after the concert it is worth
   * exactly 0, whatever its quality was.
   */
  lemma BackstageRule(before: ItemState)
    ensures var sellIn, after := before.sellIn - 1, Next(BackstagePassesName, before);
      after.sellIn == sellIn &&
      after.quality ==
        if sellIn < 0 then 0
        else if sellIn < 5 then Min(MaxQuality, before.quality + 3)
        else if sellIn < 10 then Min(MaxQuality, before.quality + 2)
        else Min(MaxQuality, before.quality + 1)
  {
  }

  /** Aged Brie gains 1, or 2 once the decremented sell-in is negative, capped at MaxQuality. */
  lemma AgedBrieRule(before: ItemState)
    ensures var sellIn, after := before.sellIn - 1, Next(AgedBrieName, before);
      after.sellIn == sellIn &&
      after.quality == Min(MaxQuality, before.quality + if sellIn < 0 then 2 else 1)
  {
  }

  /**
   * Every other item loses 1, or 2 once the decremented sell-in is negative,
   * twice that when it is conjured, floored at MinQuality.
   */
  lemma DegradingRule(name: string, before: ItemState)
    requires Degrades(name)
    ensures var sellIn, after := before.sellIn - 1, Next(name, before);
      var loss := (if sellIn < 0 then 2 else 1) * (if name == ConjuredName then 2 else 1);
      after.sellIn == sellIn &&
      after.quality == Max(MinQuality, before.quality - loss)
  {
  }

  /** Away from the floor, a conjured item loses twice what an ordinary one does. */
  lemma ConjuredTwiceAsFast(ordinary: string, before: ItemState)
    requires CategoryOf(ordinary) == Ordinary
    requires before.quality >= 2 * (if before.sellIn - 1 < 0 then 2 else 1)
    ensures before.quality - Next(ConjuredName, before).quality
         == 2 * (before.quality - Next(ordinary, before).quality)
  {
  }

  // ---- Quality bounds ----

  lemma QualityStaysInRange(name: string, before: ItemState)
    requires name != SulfurasName
    requires MinQuality <= before.quality <= MaxQuality
    ensures MinQuality <= Next(name, before).quality <= MaxQuality
  {
  }

  lemma {:induction false} QualityStaysInRangeForDays(name: string, before: ItemState, days: nat)
    requires name != SulfurasName
    requires MinQuality <= before.quality <= MaxQuality
    ensures MinQuality <= Days(name, before, days).quality <= MaxQuality
  {
    if days > 0 {
      QualityStaysInRangeForDays(name, before, days - 1);
      QualityStaysInRange(name, Days(name, before, days - 1));
    }
  }

  /** The range is kept, not restored: an ordinary item above the cap stays above it. */
  lemma RangeNeedsPrecondition()
    ensures exists quality :: Next("foo", ItemState(10, quality)).quality > MaxQuality
  {
    assert Next("foo", ItemState(10, 60)).quality == 59;
  }

  // ---- Many days ----

  /** Once its concert has passed, a backstage pass is worth nothing. */
  lemma BackstageWorthlessAfterConcert(before: ItemState, days: nat)
    requires days >= 1 && days > before.sellIn
    ensures Days(BackstagePassesName, before, days).quality == 0
  {
    SellInAfterDays(BackstagePassesName, before, days - 1);
  }

  /** Aged Brie within the cap never loses quality, however many days pass. */
  lemma {:induction false} AgedBrieNeverLosesQuality(before: ItemState, days: nat)
    requires before.quality <= MaxQuality
    ensures before.quality <= Days(AgedBrieName, before, days).quality <= MaxQuality
  {
    if days > 0 {
      AgedBrieNeverLosesQuality(before, days - 1);
    }
  }

  /** A degrading item loses at least one point a day until it reaches the floor. */
  lemma {:induction false} DegradingLosesDaily(name: string, before: ItemState, days: nat)
    requires Degrades(name)
    requires days >= 1
    ensures MinQuality <= Days(name, before, days).quality <= Max(MinQuality, before.quality - days)
  {
    if days > 1 {
      DegradingLosesDaily(name, before, days - 1);
    }
  }

  /** After as many days as it had quality points, a degrading item is worth nothing. */
  lemma DegradingEventuallyWorthless(name: string, before: ItemState, days: nat)
    requires Degrades(name)
    requires days >= 1 && days >= before.quality
    ensures Days(name, before, days).quality == MinQuality
  {
    DegradingLosesDaily(name, before, days);
  }

  // ---- The unit tests' scenarios ----

  lemma UnitTestScenarios()
    ensures Next("foo", ItemState(0, 0)) == ItemState(-1, 0)
    ensures Next(AgedBrieName, ItemState(20, 50)).quality == 50
    ensures Next(BackstagePassesName, ItemState(20, 50)).quality == 50
    ensures Next(BackstagePassesName, ItemState(15, 30)) == ItemState(14, 31)
    ensures Next(BackstagePassesName, ItemState(10, 30)) == ItemState(9, 32)
    ensures Next(BackstagePassesName, ItemState(5, 30)) == ItemState(4, 33)
    ensures Next(BackstagePassesName, ItemState(0, 50)) == ItemState(-1, 0)
    ensures Next(AgedBrieName, ItemState(10, 40)) == ItemState(9, 41)
    ensures Next(AgedBrieName, ItemState(0, 40)) == ItemState(-1, 42)
    ensures Next(ConjuredName, ItemState(20, 30)) == ItemState(19, 28)
    ensures Next(ConjuredName, ItemState(0, 30)) == ItemState(-1, 26)
    ensures Next(SulfurasName, ItemState(10, 80)) == ItemState(10, 80)
  {
  }
}
