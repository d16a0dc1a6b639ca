/**
 * The watchlist enricher: fills in the price-derived fields of each tracked
 * symbol, measured against one unit bought at the price when it was added.
 */
module Watchlist {
  import opened Types
  import opened Metrics

  /** The fields of a watchlist entry that enrichment never writes. */
  predicate SameBase(item: WatchlistItem, item': WatchlistItem)
  {
    && item'.symbol == item.symbol
    && item'.name == item.name
    && item'.dateAdded == item.dateAdded
    && item'.priceWhenAdded == item.priceWhenAdded
    && item'.exchange == item.exchange
  }

  /**
   * The fields of a watchlist entry with a quote: gain since added against
   * the price when added, day gain against the previous close, and the day
   * gain percent zero unless the previous close is positive.
   */
  predicate QuotedFields(item: WatchlistItem, q: Quote)
  {
    && item.currentPrice == q.price
    && item.gainSinceAdded == q.price - item.priceWhenAdded
    && item.priceWhenAdded != 0.0
    && item.gainSinceAddedPercent == item.gainSinceAdded / item.priceWhenAdded * 100.0
    && item.dayGain == q.price - q.previousClose
    && (q.previousClose <= 0.0 ==> item.dayGainPercent == 0.0)
    && (q.previousClose > 0.0 ==> item.dayGainPercent == item.dayGain / q.previousClose * 100.0)
  }

  /** Every quoted entry has a nonzero price when added. */
  predicate Enrichable(items: seq<WatchlistItem>, prices: Prices)
  {
    forall i :: 0 <= i < |items| && items[i].symbol in prices ==> items[i].priceWhenAdded != 0.0
  }

  /**
   * One entry after enrichment: with a quote, its derived fields are
   * recomputed from the quote, the price when added and the date added;
   * without one, it is returned as it was.
   */
  function EnrichItem(item: WatchlistItem, prices: Prices, now: int, pow: Pow): (r: WatchlistItem)
    requires item.symbol in prices ==> item.priceWhenAdded != 0.0
    ensures SameBase(item, r)
    ensures item.symbol !in prices ==> r == item
    ensures item.symbol in prices ==> QuotedFields(r, prices[item.symbol])
    ensures item.symbol in prices ==>
      r.annualizedGainPercent ==
        CalculateAnnualizedGain(item.priceWhenAdded, prices[item.symbol].price, DaysBetween(item.dateAdded, now), pow)
  {
    if item.symbol !in prices then item
    else
      var q := prices[item.symbol];
      var gainSinceAdded := q.price - item.priceWhenAdded;
      var dayGain := q.price - q.previousClose;
      item.(
        currentPrice := q.price,
        gainSinceAdded := gainSinceAdded,
        gainSinceAddedPercent := gainSinceAdded / item.priceWhenAdded * 100.0,
        dayGain := dayGain,
        dayGainPercent := if q.previousClose > 0.0 then dayGain / q.previousClose * 100.0 else 0.0,
        annualizedGainPercent :=
          CalculateAnnualizedGain(item.priceWhenAdded, q.price, DaysBetween(item.dateAdded, now), pow))
  }

  /** The whole watchlist after enrichment, entry by entry, in the same order. */
  function EnrichedItems(items: seq<WatchlistItem>, prices: Prices, now: int, pow: Pow): (r: seq<WatchlistItem>)
    requires Enrichable(items, prices)
    ensures |r| == |items|
    ensures forall i :: 0 <= i < |r| ==> r[i] == EnrichItem(items[i], prices, now, pow)
  {
    seq(|items|, i requires 0 <= i < |items| => EnrichItem(items[i], prices, now, pow))
  }

  /**
   * Enriching an entry a second time with the same quotes changes nothing:
   * every field it writes is computed from fields it does not write.
   */
  lemma EnrichItemIdempotent(item: WatchlistItem, prices: Prices, now: int, pow: Pow)
    requires item.symbol in prices ==> item.priceWhenAdded != 0.0
    ensures EnrichItem(EnrichItem(item, prices, now, pow), prices, now, pow) == EnrichItem(item, prices, now, pow)
  {
    var once := EnrichItem(item, prices, now, pow);
    assert SameBase(item, once);
  }

  /** Enriching the watchlist twice with the same quotes gives the same list. */
  lemma EnrichedItemsIdempotent(items: seq<WatchlistItem>, prices: Prices, now: int, pow: Pow)
    requires Enrichable(items, prices)
    ensures Enrichable(EnrichedItems(items, prices, now, pow), prices)
    ensures EnrichedItems(EnrichedItems(items, prices, now, pow), prices, now, pow)
         == EnrichedItems(items, prices, now, pow)
  {
    var once := EnrichedItems(items, prices, now, pow);
    forall i | 0 <= i < |once| ensures EnrichItem(once[i], prices, now, pow) == once[i] {
      EnrichItemIdempotent(items[i], prices, now, pow);
    }
  }

  /**
   * Enriches every watchlist entry in place from the quote feed and returns
   * the list: same length and order, unquoted entries untouched.
   */
  method EnrichWatchlist(watchlist: array<WatchlistItem>, currentPrices: Prices, now: int, pow: Pow)
    returns (enriched: seq<WatchlistItem>)
    requires Enrichable(watchlist[..], currentPrices)
    modifies watchlist
    ensures watchlist[..] == EnrichedItems(old(watchlist[..]), currentPrices, now, pow)
    ensures enriched == watchlist[..]
  {
    for i := 0 to watchlist.Length
      invariant forall k :: 0 <= k < i ==> watchlist[k] == EnrichItem(old(watchlist[k]), currentPrices, now, pow)
      invariant forall k :: i <= k < watchlist.Length ==> watchlist[k] == old(watchlist[k])
    {
      var item := watchlist[i];
      if item.symbol in currentPrices {
        var priceData := currentPrices[item.symbol];
        var gainSinceAdded := priceData.price - item.priceWhenAdded;
        var dayGain := priceData.price - priceData.previousClose;
        var days := DaysBetween(item.dateAdded, now);
        item := item.(
          currentPrice := priceData.price,
          gainSinceAdded := gainSinceAdded,
          gainSinceAddedPercent := gainSinceAdded / item.priceWhenAdded * 100.0,
          dayGain := dayGain,
          dayGainPercent :=
            if priceData.previousClose > 0.0 then dayGain / priceData.previousClose * 100.0 else 0.0,
          annualizedGainPercent := CalculateAnnualizedGain(item.priceWhenAdded, priceData.price, days, pow));
      }
      watchlist[i] := item;
    }
    enriched := watchlist[..];
  }
}
