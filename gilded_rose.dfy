/**
 * The daily update of the Gilded Rose inventory: one call to
 * GildedRose.UpdateQuality is one simulated day for every item of the
 * list the shop was built with. Each item's sell-in and quality are
 * changed in place according to the category its name selects.
 *
 * The imperative code of the class GildedRose is proved against the pure
 * rule Next, which gives one item's state after one day, and Days, which
 * applies Next repeatedly: UpdateItem against Next, UpdateQuality against
 * Days. Its helpers are proved against IncreasedQuality, ReducedQuality
 * and a sell-in one less.
 */
module GildedRoseKata {

  // The four names the rules single out; any other name is an ordinary item.
  const AgedBrieName := "Aged Brie"
  const BackstagePassesName := "Backstage passes to a TAFKAL80ETC concert"
  const SulfurasName := "Sulfuras, Hand of Ragnaros"
  const ConjuredName := "Conjured"

  // Quality increases stop at MaxQuality, decreases stop at MinQuality.
  const MaxQuality := 50
  const MinQuality := 0

  /** An item of the inventory; the updater changes sellIn and quality in place. */
  class Item {
    var name: string
    var sellIn: int
    var quality: int

    constructor (name: string, sellIn: int, quality: int)
      ensures this.name == name && this.sellIn == sellIn && this.quality == quality
    {
      this.name := name;
      this.sellIn := sellIn;
      this.quality := quality;
    }

    /** The part of the item the daily update changes. */
    function State(): ItemState
      reads this
    {
      ItemState(sellIn, quality)
    }
  }

  datatype ItemState = ItemState(sellIn: int, quality: int)

  /** The rule an item follows, selected by exact match on its name. */
  datatype Category = Sulfuras | BackstagePasses | AgedBrie | Conjured | Ordinary

  function CategoryOf(name: string): (c: Category)
    ensures c == Sulfuras <==> name == SulfurasName
    ensures c == BackstagePasses <==> name == BackstagePassesName
    ensures c == AgedBrie <==> name == AgedBrieName
    ensures c == Conjured <==> name == ConjuredName
  {
    if name == SulfurasName then Sulfuras
    else if name == BackstagePassesName then BackstagePasses
    else if name == AgedBrieName then AgedBrie
    else if name == ConjuredName then Conjured
    else Ordinary
  }

  function Min(a: int, b: int): int { if a <= b then a else b }

  function Max(a: int, b: int): int { if a <= b then b else a }

  /** Quality after an increase by quantity, capped at MaxQuality. */
  function IncreasedQuality(quality: int, quantity: int): (r: int)
    ensures r <= MaxQuality
    ensures r <= quality + quantity
    ensures r == quality + quantity || r == MaxQuality
  {
    Min(MaxQuality, quality + quantity)
  }

  /** Quality after a decrease by quantity, floored at MinQuality. */
  function ReducedQuality(quality: int, quantity: int): (r: int)
    ensures r >= MinQuality
    ensures r >= quality - quantity
    ensures r == quality - quantity || r == MinQuality
  {
    Max(MinQuality, quality - quantity)
  }

  /**
   * The daily quality increase of a backstage pass, read from its sell-in
   * after the decrement: -1 means the concert is over and the quality
   * drops to zero.
   */
  function ComputeBackstageIncreaser(sellIn: int): (r: int)
    ensures r == -1 <==> sellIn < 0
    ensures 0 <= sellIn < 5 ==> r == 3
    ensures 5 <= sellIn < 10 ==> r == 2
    ensures 10 <= sellIn ==> r == 1
  {
    if sellIn < 0 then -1
    else if sellIn < 5 then 3
    else if sellIn < 10 then 2
    else 1
  }

  /** One item's state after one day, following the rule of its name. */
  function Next(name: string, before: ItemState): ItemState
  {
    match CategoryOf(name)
    case Sulfuras => before
    case BackstagePasses =>
      var sellIn := before.sellIn - 1;
      var increaser := ComputeBackstageIncreaser(sellIn);
      ItemState(sellIn, if increaser < 0 then 0 else IncreasedQuality(before.quality, increaser))
    case AgedBrie =>
      var sellIn := before.sellIn - 1;
      ItemState(sellIn, IncreasedQuality(before.quality, if sellIn < 0 then 2 else 1))
    case _ =>
      var sellIn := before.sellIn - 1;
      var reducer := if sellIn < 0 then 2 else 1;
      var reducer' := if name == ConjuredName then reducer * 2 else reducer;
      ItemState(sellIn, ReducedQuality(before.quality, reducer'))
  }

  /** One item's state after `days` days. */
  function Days(name: string, start: ItemState, days: nat): ItemState
  {
    if days == 0 then start else Next(name, Days(name, start, days - 1))
  }

  ghost predicate Distinct<T>(s: seq<T>)
  {
    forall i, j :: 0 <= i < j < |s| ==> s[i] != s[j]
  }

  /** In a sequence without repetitions every element occurs exactly once. */
  lemma {:induction false} DistinctOccursOnce<T>(s: seq<T>, k: int)
    requires Distinct(s)
    requires 0 <= k < |s|
    ensures multiset(s)[s[k]] == 1
  {
    var last := |s| - 1;
    assert s == s[..last] + [s[last]];
    assert Distinct(s[..last]);
    if k < last {
      DistinctOccursOnce(s[..last], k);
      assert s[k] != s[last];
    } else {
      assert s[last] !in s[..last];
    }
  }

  /** The shop; it keeps the caller's list and updates its items in place. */
  class GildedRose {
    var items: array<Item>

    constructor (items: array<Item>)
      ensures this.items == items
    {
      this.items := items;
    }

    /**
     * One day for every item of the list, in list order. An item object
     * that sits in the list k times is updated k times; names never change.
     */
    method UpdateQuality()
      modifies items[..]
      ensures forall j :: 0 <= j < items.Length ==> items[j].name == old(items[j].name)
      ensures forall j :: 0 <= j < items.Length ==>
        items[j].State() == Days(items[j].name, old(items[j].State()), multiset(items[..])[items[j]])
      ensures Distinct(items[..]) ==> forall j :: 0 <= j < items.Length ==>
        items[j].State() == Next(items[j].name, old(items[j].State()))
    {
      for i := 0 to items.Length
        invariant forall j :: 0 <= j < items.Length ==> items[j].name == old(items[j].name)
        invariant forall j :: 0 <= j < items.Length ==>
          items[j].State() == Days(items[j].name, old(items[j].State()), multiset(items[..i])[items[j]])
      {
        assert items[..i + 1] == items[..i] + [items[i]];
        UpdateItem(items[i]);
      }
      assert items[..items.Length] == items[..];
      if Distinct(items[..]) {
        forall j | 0 <= j < items.Length
          ensures items[j].State() == Next(items[j].name, old(items[j].State()))
        {
          DistinctOccursOnce(items[..], j);
        }
      }
    }

    /** The body of the daily loop: one day for one item. */
    method UpdateItem(item: Item)
      modifies item`sellIn, item`quality
      ensures item.State() == Next(item.name, old(item.State()))
    {
      var increaser := 0;
      var reducer := 0;
      if item.name == SulfurasName {
        return;
      }
      ReduceSellIn(item);
      if item.name == BackstagePassesName {
        increaser := ComputeBackstageIncreaser(item.sellIn);
        if increaser < 0 {
          item.quality := 0;
        } else {
          IncreaseQuality(item, increaser);
        }
      } else if item.name == AgedBrieName {
        increaser := if item.sellIn < 0 then 2 else 1;
        IncreaseQuality(item, increaser);
      } else {
        reducer := if item.sellIn < 0 then 2 else 1;
        if item.name == ConjuredName {
          reducer := reducer * 2;
        }
        ReduceQuality(item, reducer);
      }
    }

    method ReduceSellIn(item: Item)
      modifies item`sellIn
      ensures item.sellIn == old(item.sellIn) - 1
    {
      item.sellIn := item.sellIn - 1;
    }

    method ReduceQuality(item: Item, quantity: int)
      modifies item`quality
      ensures item.quality == ReducedQuality(old(item.quality), quantity)
    {
      item.quality := Max(MinQuality, item.quality - quantity);
    }

    method IncreaseQuality(item: Item, quantity: int)
      modifies item`quality
      ensures item.quality == IncreasedQuality(old(item.quality), quantity)
    {
      item.quality := Min(MaxQuality, item.quality + quantity);
    }
  }

  /**
   * The unit tests' pattern: a one-item list, a shop over it, one day.
   * Returns the item's sell-in and quality afterwards.
   */
  method RunOneDay(name: string, sellIn: int, quality: int) returns (after: ItemState)
    ensures after == Next(name, ItemState(sellIn, quality))
  {
    var item := new Item(name, sellIn, quality);
    var items := new Item[1] [item];
    var app := new GildedRose(items);
    app.UpdateQuality();
    after := items[0].State();
  }
}
