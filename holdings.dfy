/**
 * The holdings builder: folds the ordered transaction log into one position
 * per symbol (weighted-average cost basis), enriches every surviving
 * position from the quote feed, and returns the positions by current value,
 * largest first.
 */
module Holdings {
  import opened Types
  import opened Metrics
  import opened Ordering

  // ---------------------------------------------------------------------
  // Input assumptions
  // ---------------------------------------------------------------------

  /**
   * A transaction the fold accepts: a BUY with a positive quantity and a
   * positive total cost. A BUY of nothing, or at no cost, would open a
   * position without units or cost, and a later SELL of it would divide by
   * zero. A SELL may carry any quantity: one of zero or less leaves units,
   * so every divisor stays positive.
   */
  predicate WellFormed(t: Transaction)
  {
    t.kind == Buy ==> t.quantity > 0.0 && t.totalCost > 0.0
  }

  predicate AllWellFormed(txns: seq<Transaction>)
  {
    forall i :: 0 <= i < |txns| ==> WellFormed(txns[i])
  }

  // ---------------------------------------------------------------------
  // The working map: symbols in insertion order, and the position of each
  // ---------------------------------------------------------------------

  /**
   * The in-progress holdings map. `order` is the order in which the
   * surviving symbols were (last) inserted, which is the order the map
   * yields its values in.
   */
  datatype Ledger = Ledger(order: seq<string>, entries: map<string, Holding>)

  const EmptyLedger: Ledger := Ledger([], map[])

  predicate Distinct(s: seq<string>)
  {
    forall i, j :: 0 <= i < j < |s| ==> s[i] != s[j]
  }

  /**
   * The invariant of the working map: each symbol appears once in the
   * order, keys and order agree, every position is filed under its own
   * symbol, holds a positive quantity at a positive book cost, and has not
   * been priced yet.
   */
  ghost predicate ValidLedger(l: Ledger)
  {
    && Distinct(l.order)
    && (forall k :: k in l.order <==> k in l.entries)
    && (forall k :: k in l.entries ==>
          && l.entries[k].symbol == k
          && l.entries[k].quantity > 0.0
          && l.entries[k].bookCost > 0.0
          && LiveFieldsZero(l.entries[k]))
  }

  /** `s` without the element `x`. */
  function Remove(s: seq<string>, x: string): (r: seq<string>)
    ensures forall k :: k in r <==> k in s && k != x
  {
    if s == [] then []
    else if s[0] == x then Remove(s[1..], x)
    else [s[0]] + Remove(s[1..], x)
  }

  /** The tail of a sequence without repeats has no repeats and lacks the head. */
  lemma DistinctTail(s: seq<string>)
    requires s != [] && Distinct(s)
    ensures Distinct(s[1..]) && s[0] !in s[1..]
  {
    var tail := s[1..];
    forall i, j | 0 <= i < j < |tail| ensures tail[i] != tail[j] {
      assert tail[i] == s[i + 1] && tail[j] == s[j + 1];
    }
    forall j | 0 <= j < |tail| ensures tail[j] != s[0] {
      assert tail[j] == s[j + 1];
    }
  }

  /** Putting a new element in front of a sequence without repeats keeps it so. */
  lemma DistinctCons(a: string, t: seq<string>)
    requires Distinct(t) && a !in t
    ensures Distinct([a] + t)
  {
    var r := [a] + t;
    forall i, j | 0 <= i < j < |r| ensures r[i] != r[j] {
      assert r[j] == t[j - 1];
      if i > 0 {
        assert r[i] == t[i - 1];
      }
    }
  }

  /** Removing an element keeps a sequence free of repeats. */
  lemma {:induction false} RemoveKeepsDistinct(s: seq<string>, x: string)
    requires Distinct(s)
    ensures Distinct(Remove(s, x))
  {
    if s != [] {
      DistinctTail(s);
      RemoveKeepsDistinct(s[1..], x);
      if s[0] != x {
        DistinctCons(s[0], Remove(s[1..], x));
      }
    }
  }

  /** The position a first BUY opens, with every live field at zero. */
  function NewHolding(t: Transaction): (h: Holding)
    ensures h.symbol == t.symbol && h.quantity == t.quantity && h.bookCost == t.totalCost
    ensures h.averageCostPerShare == t.pricePerShare && h.firstPurchaseDate == t.date
    ensures LiveFieldsZero(h)
  {
    Holding(
      symbol := t.symbol,
      name := t.name,
      quantity := t.quantity,
      bookCost := t.totalCost,
      averageCostPerShare := t.pricePerShare,
      currentPricePerShare := 0.0,
      currentValue := 0.0,
      gain := 0.0,
      gainPercent := 0.0,
      dayGain := 0.0,
      dayGainPercent := 0.0,
      annualizedGainPercent := 0.0,
      firstPurchaseDate := t.date,
      exchange := t.exchange)
  }

  /** A BUY added to an existing position. */
  function AddToHolding(h: Holding, t: Transaction): Holding
    requires h.quantity + t.quantity != 0.0
  {
    var quantity := h.quantity + t.quantity;
    var bookCost := h.bookCost + t.totalCost;
    h.(quantity := quantity,
       bookCost := bookCost,
       averageCostPerShare := bookCost / quantity,
       firstPurchaseDate := if t.date < h.firstPurchaseDate then t.date else h.firstPurchaseDate)
  }

  /** Book cost after selling `sold` of `held` units: reduced by the fraction sold. */
  function ReducedBookCost(bookCost: real, held: real, sold: real): real
    requires held != 0.0
  {
    bookCost - bookCost * (sold / held)
  }

  /** A partial SELL that leaves `held - sold > 0` units. */
  function ReduceHolding(h: Holding, t: Transaction): Holding
    requires h.quantity - t.quantity > 0.0 && h.quantity != 0.0
  {
    var bookCost := ReducedBookCost(h.bookCost, h.quantity, t.quantity);
    var quantity := h.quantity - t.quantity;
    h.(quantity := quantity, bookCost := bookCost, averageCostPerShare := bookCost / quantity)
  }

  /** Proportional reduction keeps the book cost positive while units remain. */
  lemma ReducedBookCostPositive(bookCost: real, held: real, sold: real)
    requires bookCost > 0.0 && held > 0.0 && held - sold > 0.0
    ensures ReducedBookCost(bookCost, held, sold) > 0.0
    ensures ReducedBookCost(bookCost, held, sold) * held == bookCost * (held - sold)
  {
    var r := ReducedBookCost(bookCost, held, sold);
    assert (sold / held) * held == sold;
    assert r * held == bookCost * held - bookCost * (sold / held) * held;
    assert r * held == bookCost * (held - sold);
    assert bookCost * (held - sold) > 0.0;
  }

  /** Two fractions with equal cross products are equal. */
  lemma CrossMultiplied(a: real, b: real, c: real, d: real)
    requires b != 0.0 && d != 0.0 && a * d == c * b
    ensures a / b == c / d
  {
    var x, y := a / b, c / d;
    assert x * b == a && y * d == c;
    assert x * (b * d) == y * (b * d) by {
      assert x * (b * d) == a * d;
      assert y * (b * d) == c * b;
    }
    assert (x - y) * (b * d) == 0.0;
    assert b * d != 0.0;
  }

  /** One step of the fold: the effect of a single transaction on the map. */
  function ApplyTxn(l: Ledger, t: Transaction): (r: Ledger)
    requires ValidLedger(l) && WellFormed(t)
    ensures ValidLedger(r)
  {
    if t.kind == Buy then
      if t.symbol in l.entries then
        Ledger(l.order, l.entries[t.symbol := AddToHolding(l.entries[t.symbol], t)])
      else
        Ledger(l.order + [t.symbol], l.entries[t.symbol := NewHolding(t)])
    else if t.symbol in l.entries then
      var h := l.entries[t.symbol];
      if h.quantity - t.quantity <= 0.0 then
        RemoveKeepsDistinct(l.order, t.symbol);
        Ledger(Remove(l.order, t.symbol), l.entries - {t.symbol})
      else
        ReducedBookCostPositive(h.bookCost, h.quantity, t.quantity);
        Ledger(l.order, l.entries[t.symbol := ReduceHolding(h, t)])
    else
      l
  }

  /** The working map after processing the log in order. */
  function Fold(txns: seq<Transaction>): (r: Ledger)
    requires AllWellFormed(txns)
    ensures ValidLedger(r)
  {
    if txns == [] then EmptyLedger
    else ApplyTxn(Fold(txns[..|txns| - 1]), txns[|txns| - 1])
  }

  // ---------------------------------------------------------------------
  // Properties of the fold
  // ---------------------------------------------------------------------

  /** The descriptive fields a transaction never changes. */
  predicate SameIdentity(h: Holding, h': Holding)
  {
    h'.symbol == h.symbol && h'.name == h.name && h'.exchange == h.exchange
  }

  /**
   * A BUY of a symbol not held opens a new position for it, from that
   * transaction alone, and appends the symbol at the end of the order.
   */
  lemma BuyOfNewSymbol(l: Ledger, t: Transaction)
    requires ValidLedger(l) && WellFormed(t)
    requires t.kind == Buy && t.symbol !in l.entries
    ensures ApplyTxn(l, t).order == l.order + [t.symbol]
    ensures ApplyTxn(l, t).entries == l.entries[t.symbol := NewHolding(t)]
  {
  }

  /**
   * The effect of a BUY into an existing position: quantity and book cost
   * grow by the amounts bought, the average cost is book cost over
   * quantity, and the first purchase date becomes the earlier of the two.
   */
  ghost predicate BuyEffect(h: Holding, h': Holding, t: Transaction)
  {
    && SameIdentity(h, h')
    && h'.quantity == h.quantity + t.quantity
    && h'.bookCost == h.bookCost + t.totalCost
    && h'.quantity > 0.0
    && h'.averageCostPerShare == h'.bookCost / h'.quantity
    && h'.firstPurchaseDate <= h.firstPurchaseDate
    && h'.firstPurchaseDate <= t.date
    && (h'.firstPurchaseDate == h.firstPurchaseDate || h'.firstPurchaseDate == t.date)
  }

  /** A BUY into an existing position keeps the order, with the effect above. */
  lemma BuyIntoExisting(l: Ledger, t: Transaction)
    requires ValidLedger(l) && WellFormed(t)
    requires t.kind == Buy && t.symbol in l.entries
    ensures ApplyTxn(l, t).order == l.order
    ensures t.symbol in ApplyTxn(l, t).entries
    ensures BuyEffect(l.entries[t.symbol], ApplyTxn(l, t).entries[t.symbol], t)
  {
    var h := l.entries[t.symbol];
    assert ApplyTxn(l, t).entries[t.symbol] == AddToHolding(h, t);
    assert BuyEffect(h, AddToHolding(h, t), t);
  }

  /**
   * The effect of a SELL of `t.quantity` units that leaves some: the
   * quantity drops by the amount sold, the book cost is scaled by the
   * fraction kept, and the average cost becomes the old book cost per unit,
   * so book cost per unit does not change.
   */
  ghost predicate PartialSellEffect(h: Holding, h': Holding, t: Transaction)
    requires h.quantity != 0.0 && h.quantity - t.quantity != 0.0
  {
    && SameIdentity(h, h')
    && h'.quantity == h.quantity - t.quantity
    && h'.bookCost * h.quantity == h.bookCost * (h.quantity - t.quantity)
    && h'.bookCost / (h.quantity - t.quantity) == h.bookCost / h.quantity
    && h'.averageCostPerShare == h.bookCost / h.quantity
    && h'.firstPurchaseDate == h.firstPurchaseDate
  }

  /** A SELL that leaves units keeps the position, with the effect above. */
  lemma PartialSell(l: Ledger, t: Transaction)
    requires ValidLedger(l) && WellFormed(t)
    requires t.kind == Sell && t.symbol in l.entries
    requires l.entries[t.symbol].quantity - t.quantity > 0.0
    ensures ApplyTxn(l, t).order == l.order
    ensures t.symbol in ApplyTxn(l, t).entries
    ensures PartialSellEffect(l.entries[t.symbol], ApplyTxn(l, t).entries[t.symbol], t)
  {
    var h := l.entries[t.symbol];
    assert ApplyTxn(l, t).entries[t.symbol] == ReduceHolding(h, t);
    ReduceHoldingKeepsCostPerUnit(h, t);
  }

  /**
   * A SELL of zero units keeps the position's quantity and book cost, and
   * resets its average cost to book cost over quantity.
   */
  lemma SellOfNothing(l: Ledger, t: Transaction)
    requires ValidLedger(l)
    requires t.kind == Sell && t.symbol in l.entries && t.quantity == 0.0
    ensures ApplyTxn(l, t).order == l.order
    ensures t.symbol in ApplyTxn(l, t).entries
    ensures var h := l.entries[t.symbol];
      ApplyTxn(l, t).entries[t.symbol] == h.(averageCostPerShare := h.bookCost / h.quantity)
  {
    var h := l.entries[t.symbol];
    assert ReducedBookCost(h.bookCost, h.quantity, 0.0) == h.bookCost;
  }

  /** The record-level effect of a partial SELL. */
  lemma ReduceHoldingKeepsCostPerUnit(h: Holding, t: Transaction)
    requires h.bookCost > 0.0 && h.quantity > 0.0 && h.quantity - t.quantity > 0.0
    ensures PartialSellEffect(h, ReduceHolding(h, t), t)
  {
    SellKeepsCostPerUnit(h.bookCost, h.quantity, t.quantity);
  }

  /** Proportional reduction leaves the book cost per unit as it was. */
  lemma SellKeepsCostPerUnit(bookCost: real, held: real, sold: real)
    requires bookCost > 0.0 && held > 0.0 && held - sold > 0.0
    ensures ReducedBookCost(bookCost, held, sold) * held == bookCost * (held - sold)
    ensures ReducedBookCost(bookCost, held, sold) / (held - sold) == bookCost / held
  {
    ReducedBookCostPositive(bookCost, held, sold);
    CrossMultiplied(ReducedBookCost(bookCost, held, sold), held - sold, bookCost, held);
  }

  /**
   * A SELL that takes the quantity to zero or below closes the position:
   * the symbol leaves both the map and the order.
   */
  lemma SellToZeroRemoves(l: Ledger, t: Transaction)
    requires ValidLedger(l) && WellFormed(t)
    requires t.kind == Sell && t.symbol in l.entries
    requires l.entries[t.symbol].quantity - t.quantity <= 0.0
    ensures ApplyTxn(l, t).entries == l.entries - {t.symbol}
    ensures ApplyTxn(l, t).order == Remove(l.order, t.symbol)
    ensures t.symbol !in ApplyTxn(l, t).order
  {
  }

  /** A SELL of a symbol that is not held changes nothing. */
  lemma SellOfUnknownIgnored(l: Ledger, t: Transaction)
    requires ValidLedger(l) && WellFormed(t)
    requires t.kind == Sell && t.symbol !in l.entries
    ensures ApplyTxn(l, t) == l
  {
  }

  /**
   * A transaction on another symbol leaves a held position in the map, as
   * it was; and no transaction moves the first purchase date of a position
   * that stays held later.
   */
  lemma OtherPositionsUntouched(l: Ledger, t: Transaction, s: string)
    requires ValidLedger(l) && WellFormed(t)
    requires s in l.entries
    ensures s != t.symbol ==> s in ApplyTxn(l, t).entries && ApplyTxn(l, t).entries[s] == l.entries[s]
    ensures s in ApplyTxn(l, t).entries ==>
      ApplyTxn(l, t).entries[s].firstPurchaseDate <= l.entries[s].firstPurchaseDate
  {
  }

  /** Total quantity bought across a log. */
  function SumQuantity(txns: seq<Transaction>): real
  {
    if txns == [] then 0.0 else SumQuantity(txns[..|txns| - 1]) + txns[|txns| - 1].quantity
  }

  /** Total cost paid across a log. */
  function SumTotalCost(txns: seq<Transaction>): real
  {
    if txns == [] then 0.0 else SumTotalCost(txns[..|txns| - 1]) + txns[|txns| - 1].totalCost
  }

  /** The earliest date in a non-empty log. */
  function EarliestDate(txns: seq<Transaction>): int
    requires txns != []
  {
    if |txns| == 1 then txns[0].date
    else
      var d := EarliestDate(txns[..|txns| - 1]);
      if txns[|txns| - 1].date < d then txns[|txns| - 1].date else d
  }

  predicate AllBuysOf(txns: seq<Transaction>, s: string)
  {
    forall i :: 0 <= i < |txns| ==> txns[i].kind == Buy && txns[i].symbol == s
  }

  /**
   * A BUY into a ledger that holds only its own symbol keeps that single
   * position, adding the quantity and cost and keeping the earlier date.
   */
  lemma BuyIntoSolePosition(l: Ledger, t: Transaction)
    requires ValidLedger(l) && WellFormed(t) && t.kind == Buy && l.order == [t.symbol]
    ensures t.symbol in l.entries
    ensures ApplyTxn(l, t).order == [t.symbol] && t.symbol in ApplyTxn(l, t).entries
    ensures ApplyTxn(l, t).entries[t.symbol].quantity == l.entries[t.symbol].quantity + t.quantity
    ensures ApplyTxn(l, t).entries[t.symbol].bookCost == l.entries[t.symbol].bookCost + t.totalCost
    ensures ApplyTxn(l, t).entries[t.symbol].firstPurchaseDate
         == if t.date < l.entries[t.symbol].firstPurchaseDate then t.date else l.entries[t.symbol].firstPurchaseDate
  {
    assert t.symbol in l.order;
    BuyIntoExisting(l, t);
  }

  /**
   * A log made only of BUYs of one symbol yields exactly one position, whose
   * quantity is the total bought, whose book cost is the total paid, and
   * whose first purchase date is the earliest BUY date.
   */
  lemma {:induction false} BuysOfOneSymbol(txns: seq<Transaction>, s: string)
    requires txns != [] && AllWellFormed(txns) && AllBuysOf(txns, s)
    ensures Fold(txns).order == [s]
    ensures s in Fold(txns).entries
    ensures Fold(txns).entries[s].quantity == SumQuantity(txns)
    ensures Fold(txns).entries[s].bookCost == SumTotalCost(txns)
    ensures Fold(txns).entries[s].firstPurchaseDate == EarliestDate(txns)
  {
    var n := |txns|;
    var prefix, t := txns[..n - 1], txns[n - 1];
    assert t.symbol == s && t.kind == Buy && WellFormed(t);
    if n == 1 {
      assert prefix == [];
      assert Fold(txns) == ApplyTxn(EmptyLedger, t);
      assert Fold(txns).entries[s] == NewHolding(t);
    } else {
      assert AllWellFormed(prefix) && AllBuysOf(prefix, s) by {
        forall i | 0 <= i < |prefix| ensures prefix[i] == txns[i] { }
      }
      BuysOfOneSymbol(prefix, s);
      assert Fold(txns) == ApplyTxn(Fold(prefix), t);
      BuyIntoSolePosition(Fold(prefix), t);
      assert SumQuantity(txns) == SumQuantity(prefix) + t.quantity;
      assert SumTotalCost(txns) == SumTotalCost(prefix) + t.totalCost;
    }
  }

  // ---------------------------------------------------------------------
  // Enrichment from the quote feed
  // ---------------------------------------------------------------------

  /**
   * The live fields of a priced position: value at the quoted price, gain
   * against book cost, day gain against the previous close, and the day
   * gain percent zero unless the previous value is positive.
   */
  predicate PricedFields(h: Holding, q: Quote)
  {
    && h.currentPricePerShare == q.price
    && h.currentValue == h.quantity * q.price
    && h.gain == h.currentValue - h.bookCost
    && h.bookCost != 0.0
    && h.gainPercent == h.gain / h.bookCost * 100.0
    && h.dayGain == h.currentValue - h.quantity * q.previousClose
    && (h.quantity * q.previousClose <= 0.0 ==> h.dayGainPercent == 0.0)
    && (h.quantity * q.previousClose > 0.0 ==>
          h.dayGainPercent == h.dayGain / (h.quantity * q.previousClose) * 100.0)
  }

  /** True when `h'` is `h` with only its live fields changed. */
  predicate SamePosition(h: Holding, h': Holding)
  {
    && h'.symbol == h.symbol
    && h'.name == h.name
    && h'.quantity == h.quantity
    && h'.bookCost == h.bookCost
    && h'.averageCostPerShare == h.averageCostPerShare
    && h'.firstPurchaseDate == h.firstPurchaseDate
    && h'.exchange == h.exchange
  }

  /**
   * A position with its live fields filled in from the quote feed; without
   * a quote it is returned as it was.
   */
  function EnrichHolding(h: Holding, prices: Prices, now: int, pow: Pow): (r: Holding)
    requires h.symbol in prices ==> h.bookCost != 0.0
    ensures SamePosition(h, r)
    ensures h.symbol !in prices ==> r == h
    ensures h.symbol in prices ==> PricedFields(r, prices[h.symbol])
    ensures h.symbol in prices ==>
      r.annualizedGainPercent ==
        CalculateAnnualizedGain(h.bookCost, r.currentValue, DaysBetween(h.firstPurchaseDate, now), pow)
  {
    if h.symbol !in prices then h
    else
      var q := prices[h.symbol];
      var currentValue := h.quantity * q.price;
      var gain := currentValue - h.bookCost;
      var previousValue := h.quantity * q.previousClose;
      var dayGain := currentValue - previousValue;
      h.(currentPricePerShare := q.price,
         currentValue := currentValue,
         gain := gain,
         gainPercent := gain / h.bookCost * 100.0,
         dayGain := dayGain,
         dayGainPercent := if previousValue > 0.0 then dayGain / previousValue * 100.0 else 0.0,
         annualizedGainPercent :=
           CalculateAnnualizedGain(h.bookCost, currentValue, DaysBetween(h.firstPurchaseDate, now), pow))
  }

  /** The surviving positions, in map order, each enriched from the quote feed. */
  function EnrichedSurvivors(l: Ledger, prices: Prices, now: int, pow: Pow): (r: seq<Holding>)
    requires ValidLedger(l)
    ensures |r| == |l.order|
    ensures forall i :: 0 <= i < |r| ==> r[i] == EnrichHolding(l.entries[l.order[i]], prices, now, pow)
  {
    seq(|l.order|, i requires 0 <= i < |l.order| => EnrichHolding(l.entries[l.order[i]], prices, now, pow))
  }

  /**
   * A worked example: 10 units bought for 50 in total, quoted at 6 with a
   * previous close of 5.5, give a value of 60, a gain of 10 (20 percent) and
   * a day gain of 5 against a previous value of 55.
   */
  lemma SingleBuyExample(t: Transaction, prices: Prices, now: int, pow: Pow)
    requires t.kind == Buy && t.quantity == 10.0 && t.pricePerShare == 5.0 && t.totalCost == 50.0
    requires prices == map[t.symbol := Quote(6.0, 5.5)]
    ensures Fold([t]).order == [t.symbol]
    ensures var h := EnrichHolding(Fold([t]).entries[t.symbol], prices, now, pow);
      && h.quantity == 10.0 && h.bookCost == 50.0 && h.averageCostPerShare == 5.0
      && h.currentValue == 60.0 && h.gain == 10.0 && h.gainPercent == 20.0
      && h.dayGain == 5.0 && h.dayGainPercent == 5.0 / 55.0 * 100.0
  {
    assert [t][..0] == [];
  }

  // ---------------------------------------------------------------------
  // Ordering of the result
  // ---------------------------------------------------------------------

  /** Exchanges two neighbouring positions of the array. */
  method SwapWithPrevious(a: array<Holding>, j: int)
    requires 0 < j < a.Length
    modifies a
    ensures a[..] == Swapped(old(a[..]), j)
    ensures multiset(a[..]) == multiset(old(a[..]))
  {
    a[j - 1], a[j] := a[j], a[j - 1];
  }

  /**
   * Moves the element at position `j` up past every smaller value before
   * it, one neighbour at a time; equal values are never passed.
   */
  method Sink(a: array<Holding>, i: int, j: int, ghost orig: seq<Holding>, ghost from: seq<int>)
    returns (ghost from': seq<int>)
    requires Inserting(a[..], orig, from, i, j)
    modifies a
    ensures SortedPrefix(a[..], orig, from', i + 1)
    ensures multiset(a[..]) == multiset(old(a[..]))
    decreases j
  {
    ghost var cur := a[..];
    if j > 0 && a[j - 1].currentValue < a[j].currentValue {
      InsertStep(cur, orig, from, i, j);
      SwapWithPrevious(a, j);
      from' := Sink(a, i, j - 1, orig, Swapped(from, j));
    } else {
      FinishInsert(cur, orig, from, i, j);
      from' := from;
    }
  }

  /**
   * Sorts the positions by current value, largest first, in place. Equal
   * values are never swapped, so the sort is stable: `from` tells where
   * each position stood before.
   */
  method SortByValueDesc(a: array<Holding>) returns (ghost from: seq<int>)
    modifies a
    ensures SortedByValueDesc(a[..])
    ensures multiset(a[..]) == multiset(old(a[..]))
    ensures StablyRearranged(a[..], old(a[..]), from)
  {
    ghost var orig := a[..];
    from := seq(a.Length, k => k);
    StartSort(orig);
    var i := 0;
    while i < a.Length
      invariant SortedPrefix(a[..], orig, from, i)
      invariant multiset(a[..]) == multiset(orig)
    {
      StartInsert(a[..], orig, from, i);
      from := Sink(a, i, i, orig, from);
      i := i + 1;
    }
    FinishSort(a[..], orig, from);
  }

  // ---------------------------------------------------------------------
  // The builder
  // ---------------------------------------------------------------------

  function Symbols(s: seq<Holding>): set<string>
  {
    set h | h in s :: h.symbol
  }

  /** A sequence of distinct symbols is as long as the set it enumerates. */
  lemma {:induction false} DistinctLength(s: seq<string>, keys: set<string>)
    requires Distinct(s)
    requires forall k :: k in s <==> k in keys
    ensures |s| == |keys|
  {
    if s != [] {
      var last := s[|s| - 1];
      var init := s[..|s| - 1];
      assert forall k :: k in init <==> k in keys - {last} by {
        forall k ensures k in init <==> k in keys - {last} {
          if k in init {
            var j :| 0 <= j < |init| && init[j] == k;
            assert s[j] == k;
          }
          assert k in s && k != last ==> k in init by {
            if k in s && k != last {
              var j :| 0 <= j < |s| && s[j] == k;
              assert j != |s| - 1;
              assert init[j] == k;
            }
          }
        }
      }
      DistinctLength(init, keys - {last});
    }
  }

  /** Facts about the enriched survivors that the builder's result inherits. */
  lemma EnrichedSurvivorsFacts(l: Ledger, prices: Prices, now: int, pow: Pow)
    requires ValidLedger(l)
    ensures var e := EnrichedSurvivors(l, prices, now, pow);
      && |e| == |l.entries|
      && Symbols(e) == l.entries.Keys
      && (forall h :: h in e ==> h.symbol in l.entries && h == EnrichHolding(l.entries[h.symbol], prices, now, pow))
  {
    var e := EnrichedSurvivors(l, prices, now, pow);
    DistinctLength(l.order, l.entries.Keys);
    forall k | k in l.entries ensures k in Symbols(e) {
      assert k in l.order;
      var i :| 0 <= i < |l.order| && l.order[i] == k;
      assert e[i].symbol == k;
    }
  }

  /** Two sequences with the same multiset have the same length and elements. */
  lemma SameElements(a: seq<Holding>, b: seq<Holding>)
    requires multiset(a) == multiset(b)
    ensures |a| == |b|
    ensures forall h :: h in a <==> h in b
  {
    assert |a| == |multiset(a)| == |multiset(b)| == |b|;
    forall h ensures h in a <==> h in b {
      assert h in a <==> h in multiset(a);
      assert h in b <==> h in multiset(b);
    }
  }

  /**
   * Any rearrangement of the enriched survivors holds exactly one enriched
   * copy of every surviving position.
   */
  lemma PermutationOfSurvivors(holdings: seq<Holding>, l: Ledger, prices: Prices, now: int, pow: Pow)
    requires ValidLedger(l)
    requires multiset(holdings) == multiset(EnrichedSurvivors(l, prices, now, pow))
    ensures |holdings| == |l.entries|
    ensures Symbols(holdings) == l.entries.Keys
    ensures forall h :: h in holdings ==>
      h.symbol in l.entries && h == EnrichHolding(l.entries[h.symbol], prices, now, pow)
  {
    var e := EnrichedSurvivors(l, prices, now, pow);
    EnrichedSurvivorsFacts(l, prices, now, pow);
    SameElements(holdings, e);
    assert Symbols(holdings) == Symbols(e);
  }

  /**
   * In a stable rearrangement of the enriched survivors, each position
   * records where its symbol stands in the map's insertion order.
   */
  lemma SurvivorsInMapOrder(holdings: seq<Holding>, l: Ledger, prices: Prices, now: int, pow: Pow, origin: seq<int>)
    requires ValidLedger(l)
    requires StablyRearranged(holdings, EnrichedSurvivors(l, prices, now, pow), origin)
    ensures forall k :: 0 <= k < |holdings| ==> l.order[origin[k]] == holdings[k].symbol
  {
    var e := EnrichedSurvivors(l, prices, now, pow);
    forall k | 0 <= k < |holdings| ensures l.order[origin[k]] == holdings[k].symbol {
      assert holdings[k] == e[origin[k]];
    }
  }

  /**
   * Enriched copies of surviving positions have a positive quantity and
   * book cost, and live fields as their quote (or its lack) says.
   */
  lemma EnrichedPositionFields(holdings: seq<Holding>, l: Ledger, prices: Prices, now: int, pow: Pow)
    requires ValidLedger(l)
    requires forall h :: h in holdings ==>
      h.symbol in l.entries && h == EnrichHolding(l.entries[h.symbol], prices, now, pow)
    ensures forall h :: h in holdings ==> h.quantity > 0.0 && h.bookCost > 0.0
    ensures forall h :: h in holdings && h.symbol !in prices ==> LiveFieldsZero(h)
    ensures forall h :: h in holdings && h.symbol in prices ==> PricedFields(h, prices[h.symbol])
  {
  }

  /**
   * One pass of the builder's first loop: returns the working map after
   * the transaction.
   */
  method ProcessTransaction(order: seq<string>, book: map<string, Holding>, txn: Transaction)
    returns (order': seq<string>, book': map<string, Holding>)
    requires ValidLedger(Ledger(order, book)) && WellFormed(txn)
    ensures Ledger(order', book') == ApplyTxn(Ledger(order, book), txn)
  {
    order', book' := order, book;
    if txn.kind == Buy {
      if txn.symbol in book {
        // Add to the existing position.
        var existing := book[txn.symbol];
        var quantity := existing.quantity + txn.quantity;
        var bookCost := existing.bookCost + txn.totalCost;
        var firstPurchaseDate := existing.firstPurchaseDate;
        if txn.date < existing.firstPurchaseDate {
          firstPurchaseDate := txn.date;
        }
        existing := existing.(quantity := quantity, bookCost := bookCost,
                              averageCostPerShare := bookCost / quantity,
                              firstPurchaseDate := firstPurchaseDate);
        assert existing == AddToHolding(book[txn.symbol], txn);
        book' := book[txn.symbol := existing];
      } else {
        // Open a new position.
        book' := book[txn.symbol := NewHolding(txn)];
        order' := order + [txn.symbol];
      }
    } else if txn.symbol in book {
      // Reduce the position by the fraction sold.
      var existing := book[txn.symbol];
      var sellRatio := txn.quantity / existing.quantity;
      var quantity := existing.quantity - txn.quantity;
      var bookCost := existing.bookCost - existing.bookCost * sellRatio;
      if quantity <= 0.0 {
        book' := book - {txn.symbol};
        order' := Remove(order, txn.symbol);
      } else {
        existing := existing.(quantity := quantity, bookCost := bookCost,
                              averageCostPerShare := bookCost / quantity);
        assert existing == ReduceHolding(book[txn.symbol], txn);
        book' := book[txn.symbol := existing];
      }
    }
  }

  /**
   * One pass of the builder's second loop: fills in the live fields of a
   * position from its quote, if there is one, one field after another,
   * each computed from the fields already filled in.
   */
  method PriceHolding(holding: Holding, currentPrices: Prices, now: int, pow: Pow) returns (priced: Holding)
    requires holding.symbol in currentPrices ==> holding.bookCost != 0.0
    ensures priced == EnrichHolding(holding, currentPrices, now, pow)
  {
    priced := holding;
    if holding.symbol in currentPrices {
      var priceData := currentPrices[holding.symbol];
      priced := priced.(currentPricePerShare := priceData.price);
      priced := priced.(currentValue := priced.quantity * priceData.price);
      priced := priced.(gain := priced.currentValue - priced.bookCost);
      priced := priced.(gainPercent := priced.gain / priced.bookCost * 100.0);
      // Day gain
      var previousValue := priced.quantity * priceData.previousClose;
      priced := priced.(dayGain := priced.currentValue - previousValue);
      priced := priced.(dayGainPercent :=
        if previousValue > 0.0 then priced.dayGain / previousValue * 100.0 else 0.0);
      // Annualized gain
      var days := DaysBetween(priced.firstPurchaseDate, now);
      priced := priced.(annualizedGainPercent :=
        CalculateAnnualizedGain(priced.bookCost, priced.currentValue, days, pow));
    }
  }

  /** The builder's first loop: processes the log in order into the working map. */
  method BuildLedger(transactions: seq<Transaction>) returns (order: seq<string>, book: map<string, Holding>)
    requires AllWellFormed(transactions)
    ensures Ledger(order, book) == Fold(transactions)
  {
    order, book := [], map[];
    for i := 0 to |transactions|
      invariant AllWellFormed(transactions[..i])
      invariant Ledger(order, book) == Fold(transactions[..i])
    {
      assert transactions[..i + 1][..i] == transactions[..i];
      order, book := ProcessTransaction(order, book, transactions[i]);
    }
    assert transactions[..|transactions|] == transactions;
  }

  /** The builder's second loop: prices every surviving position, in map order, into a new array. */
  method PriceAll(order: seq<string>, book: map<string, Holding>, currentPrices: Prices, now: int, pow: Pow)
    returns (list: array<Holding>)
    requires ValidLedger(Ledger(order, book))
    ensures fresh(list)
    ensures list[..] == EnrichedSurvivors(Ledger(order, book), currentPrices, now, pow)
  {
    ghost var priced := EnrichedSurvivors(Ledger(order, book), currentPrices, now, pow);
    list := new Holding[|order|];
    for j := 0 to |order|
      invariant list[..j] == priced[..j]
    {
      var holding := PriceHolding(book[order[j]], currentPrices, now, pow);
      assert holding == priced[j];
      list[j] := holding;
      assert list[..j + 1] == list[..j] + [holding];
    }
    assert list[..] == list[..|order|] && priced[..|order|] == priced;
  }

  /**
   * Folds the transaction log into positions, prices every surviving
   * position, and returns them sorted by current value, largest first,
   * positions of equal value in map order. Every returned position has a
   * positive quantity and book cost; a position without a quote keeps its
   * live fields at zero.
   */
  method BuildHoldings(transactions: seq<Transaction>, currentPrices: Prices, now: int, pow: Pow)
    returns (holdings: seq<Holding>, ghost origin: seq<int>)
    requires AllWellFormed(transactions)
    ensures SortedByValueDesc(holdings)
    ensures StablyRearranged(holdings, EnrichedSurvivors(Fold(transactions), currentPrices, now, pow), origin)
    ensures forall k :: 0 <= k < |holdings| ==> Fold(transactions).order[origin[k]] == holdings[k].symbol
    ensures multiset(holdings) == multiset(EnrichedSurvivors(Fold(transactions), currentPrices, now, pow))
    ensures |holdings| == |Fold(transactions).entries|
    ensures Symbols(holdings) == Fold(transactions).entries.Keys
    ensures forall h :: h in holdings ==>
      h.symbol in Fold(transactions).entries &&
      h == EnrichHolding(Fold(transactions).entries[h.symbol], currentPrices, now, pow)
    ensures forall h :: h in holdings ==> h.quantity > 0.0 && h.bookCost > 0.0
    ensures forall h :: h in holdings && h.symbol !in currentPrices ==> LiveFieldsZero(h)
    ensures forall h :: h in holdings && h.symbol in currentPrices ==> PricedFields(h, currentPrices[h.symbol])
  {
    var order, book := BuildLedger(transactions);
    ghost var ledger := Ledger(order, book);
    var list := PriceAll(order, book, currentPrices, now, pow);
    origin := SortByValueDesc(list);
    holdings := list[..];
    PermutationOfSurvivors(holdings, ledger, currentPrices, now, pow);
    SurvivorsInMapOrder(holdings, ledger, currentPrices, now, pow, origin);
    EnrichedPositionFields(holdings, ledger, currentPrices, now, pow);
  }
}
