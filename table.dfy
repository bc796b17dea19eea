/** The pure rules behind the pairs table of market_scan_app.py: the sort order
    of `NumericSortProxy`, the row filter of `PairFilterProxy`, the label of a
    filter button, the difference column, and the selection of the pairs to
    scan (`FiltersPanel.filter_pairs_for_scan`). */
module Table {
  import opened Wrappers
  import opened Text
  import opened Catalog
  import opened Models

  /** The sort data of a cell (`UserRole`): a number, or anything else the base
      class compares. */
  datatype SortKey = Number(x: real) | Other(text: string)

  /** `NumericSortProxy.lessThan`. `fallback` is what the base class's
      `lessThan` answers for the two cells. Empty cells sort after every
      filled one. */
  function SortLess(left: Option<SortKey>, right: Option<SortKey>, fallback: bool): bool {
    if left.None? then false
    else if right.None? then true
    else if left.value.Number? && right.value.Number? then left.value.x < right.value.x
    else fallback
  }

  /** An empty cell is never before any cell, and every filled cell is before
      an empty one. */
  lemma EmptyCellsSortLast(key: SortKey, other: Option<SortKey>, fallback: bool)
    ensures SortLess(Some(key), None, fallback)
    ensures !SortLess(None, other, fallback)
  {
  }

  /** A cell holding a number or nothing. */
  predicate NumericOrEmpty(v: Option<SortKey>) {
    v.None? || v.value.Number?
  }

  /** On cells holding numbers or nothing the order is a strict total order:
      irreflexive, transitive, and any two different cells are ordered one way
      round. The base class is never asked. */
  lemma NumericSortIsStrictTotalOrder(a: Option<SortKey>, b: Option<SortKey>, c: Option<SortKey>, fallback: bool)
    requires NumericOrEmpty(a) && NumericOrEmpty(b) && NumericOrEmpty(c)
    ensures !SortLess(a, a, fallback)
    ensures SortLess(a, b, fallback) && SortLess(b, c, fallback) ==> SortLess(a, c, fallback)
    ensures a != b ==> (SortLess(a, b, fallback) <==> !SortLess(b, a, fallback))
  {
  }

  /** The filter settings of `PairFilterProxy` (`update_filters`). */
  datatype Filters = Filters(pricedOnly: bool, minPrice: real, maxPrice: real, rarities: set<string>, crates: set<string>)

  /** The settings the proxy starts with. */
  const DefaultFilters := Filters(false, 0.03, 90000.0, {}, {})

  /** What `filterAcceptsRow` reads of a row: the two buy prices, the rarity
      (`""` when absent) and the set of crates. */
  datatype Row = Row(slabPrice: Option<real>, stickerPrice: Option<real>, rarity: string, crates: set<string>)

  /** The rarity and crate part of the filters: an empty selection lets every
      row through; otherwise the rarity must be selected and some crate must
      be. */
  predicate MatchesSelection(rarities: set<string>, crates: set<string>, rarity: string, rowCrates: set<string>) {
    (rarities == {} || rarity in rarities) && (crates == {} || rowCrates * crates != {})
  }

  /** A known price between the two bounds, both included (`_within`). */
  predicate Within(f: Filters, price: Option<real>) {
    price.Some? && f.minPrice <= price.value <= f.maxPrice
  }

  /** `PairFilterProxy.filterAcceptsRow`. */
  function AcceptsRow(f: Filters, row: Row): bool {
    if f.rarities != {} && row.rarity !in f.rarities then false
    else if f.crates != {} && row.crates * f.crates == {} then false
    else if f.pricedOnly && !(row.slabPrice.Some? && row.stickerPrice.Some?) then false
    else if row.slabPrice.None? && row.stickerPrice.None? then true
    else Within(f, row.slabPrice) || Within(f, row.stickerPrice)
  }

  /** Every accepted row matches the rarity and crate selection. */
  lemma AcceptedRowMatchesSelection(f: Filters, row: Row)
    requires AcceptsRow(f, row)
    ensures MatchesSelection(f.rarities, f.crates, row.rarity, row.crates)
  {
  }

  /** A row with no price yet is shown exactly when it matches the selection
      and only priced rows are not asked for: the price bounds do not apply. */
  lemma UnpricedRowAccepted(f: Filters, rarity: string, crates: set<string>)
    ensures AcceptsRow(f, Row(None, None, rarity, crates)) <==>
            MatchesSelection(f.rarities, f.crates, rarity, crates) && !f.pricedOnly
  {
  }

  /** A row with some price is shown only when one of its known prices lies
      between the bounds; with "priced only", only when both prices are known. */
  lemma PricedRowNeedsPriceInRange(f: Filters, row: Row)
    requires AcceptsRow(f, row)
    ensures row.slabPrice.Some? || row.stickerPrice.Some? ==> Within(f, row.slabPrice) || Within(f, row.stickerPrice)
    ensures f.pricedOnly ==> row.slabPrice.Some? && row.stickerPrice.Some?
  {
  }

  /** `wide` lets through at least what `narrow` does. */
  predicate Wider(wide: Filters, narrow: Filters) {
    (!wide.pricedOnly || narrow.pricedOnly) &&
    wide.minPrice <= narrow.minPrice && narrow.maxPrice <= wide.maxPrice &&
    (wide.rarities == {} || (narrow.rarities != {} && narrow.rarities <= wide.rarities)) &&
    (wide.crates == {} || (narrow.crates != {} && narrow.crates <= wide.crates))
  }

  /** Widening the filters never hides a row. */
  lemma WiderFiltersAcceptMore(wide: Filters, narrow: Filters, row: Row)
    requires Wider(wide, narrow) && AcceptsRow(narrow, row)
    ensures AcceptsRow(wide, row)
  {
    if wide.crates != {} {
      var c :| c in row.crates * narrow.crates;
      assert c in row.crates * wide.crates;
    }
  }

  /** `_update_button_label`: the default text with nothing selected, the one
      selected name, or `Обрано: ` and the number selected. */
  ghost function ButtonLabel(defaultText: string, selected: set<string>): (caption: string)
    ensures |selected| == 1 ==> selected == {caption}
  {
    if selected == {} then defaultText
    else if |selected| == 1 then
      var x :| x in selected;
      assert |selected - {x}| == 0;
      x
    else "Обрано: " + IntToString(|selected|)
  }

  /** With several names selected the label ends in the decimal digits of how
      many there are, and those digits read back as that number. */
  lemma ButtonLabelCounts(defaultText: string, selected: set<string>)
    requires |selected| >= 2
    ensures var caption := ButtonLabel(defaultText, selected);
      var prefix := "Обрано: ";
      |caption| > |prefix| && caption[..|prefix|] == prefix &&
      AllDigits(caption[|prefix|..]) && DigitsValue(caption[|prefix|..]) == |selected|
  {
    var prefix := "Обрано: ";
    var digits := NatToString(|selected|);
    assert IntToString(|selected|) == digits;
    var caption := prefix + digits;
    assert caption[|prefix|..] == digits;
    DigitsValueOfNatToString(|selected|);
  }

  /** The difference column: waiting for data, or the slab price minus the
      sticker price. */
  datatype DiffCell = Waiting | Difference(diff: real)

  /** The prices a row has received (`_row_prices`): a failed side is `None`. */
  datatype RowPrices = RowPrices(slab: Option<real>, sticker: Option<real>)

  const NoPrices := RowPrices(None, None)

  /** What `_handle_price_update` and `_handle_price_failed` record for a side. */
  function RecordSide(prices: RowPrices, isSlab: bool, price: Option<real>): (r: RowPrices)
    ensures isSlab ==> r.slab == price && r.sticker == prices.sticker
    ensures !isSlab ==> r.sticker == price && r.slab == prices.slab
  {
    if isSlab then prices.(slab := price) else prices.(sticker := price)
  }

  /** `_update_difference_cell`. */
  function DifferenceCell(prices: RowPrices): DiffCell {
    match PriceDiff(prices.slab, prices.sticker)
    case Some(d) => Difference(d)
    case None => Waiting
  }

  /** Both sides priced, in whatever order, show slab minus sticker; a failed
      side, reported last, leaves the cell waiting. */
  lemma DifferenceAfterBothSides(prices: RowPrices, slab: real, sticker: real)
    ensures DifferenceCell(RecordSide(RecordSide(prices, false, Some(sticker)), true, Some(slab))) == Difference(slab - sticker)
    ensures DifferenceCell(RecordSide(RecordSide(prices, true, Some(slab)), false, Some(sticker))) == Difference(slab - sticker)
    ensures forall isSlab :: DifferenceCell(RecordSide(prices, isSlab, None)) == Waiting
  {
  }

  /** The test `filter_pairs_for_scan` applies to each pair. */
  predicate SelectedForScan(rarities: set<string>, crates: set<string>, pair: ItemPair) {
    (rarities == {} || pair.rarityName in rarities) &&
    (crates == {} || exists c :: c in pair.crates && c in crates)
  }

  /** The pairs of `pairs` that pass the test, in their order. */
  function ScanSelection(pairs: seq<ItemPair>, rarities: set<string>, crates: set<string>): seq<ItemPair> {
    if pairs == [] then []
    else
      var last := pairs[|pairs| - 1];
      ScanSelection(pairs[..|pairs| - 1], rarities, crates) + (if SelectedForScan(rarities, crates, last) then [last] else [])
  }

  /** `FiltersPanel.filter_pairs_for_scan`. */
  method FilterPairsForScan(pairs: seq<ItemPair>, rarities: set<string>, crates: set<string>) returns (filtered: seq<ItemPair>)
    ensures filtered == ScanSelection(pairs, rarities, crates)
  {
    if rarities == {} && crates == {} {
      ScanSelectionWithoutFilters(pairs);
      return pairs;
    }
    filtered := [];
    var i := 0;
    while i < |pairs|
      invariant i <= |pairs|
      invariant filtered == ScanSelection(pairs[..i], rarities, crates)
    {
      var pair := pairs[i];
      assert pairs[..i + 1][..i] == pairs[..i];
      i := i + 1;
      if rarities != {} && pair.rarityName !in rarities {
        continue;
      }
      if crates != {} && !(exists c :: c in pair.crates && c in crates) {
        continue;
      }
      filtered := filtered + [pair];
    }
    assert pairs[..i] == pairs;
  }

  /** With nothing selected every pair is scanned. */
  lemma {:induction false} ScanSelectionWithoutFilters(pairs: seq<ItemPair>)
    ensures ScanSelection(pairs, {}, {}) == pairs
  {
    if pairs != [] {
      ScanSelectionWithoutFilters(pairs[..|pairs| - 1]);
    }
  }

  /** A pair is scanned exactly when it is one of the pairs and passes the
      test; the selection is never longer than the list. */
  lemma {:induction false} ScanSelectionMembers(pairs: seq<ItemPair>, rarities: set<string>, crates: set<string>, pair: ItemPair)
    ensures pair in ScanSelection(pairs, rarities, crates) <==> pair in pairs && SelectedForScan(rarities, crates, pair)
    ensures |ScanSelection(pairs, rarities, crates)| <= |pairs|
  {
    if pairs != [] {
      var init := pairs[..|pairs| - 1];
      ScanSelectionMembers(init, rarities, crates, pair);
      assert pairs == init + [pairs[|pairs| - 1]];
    }
  }

  /** The table row of a pair before any price arrives. */
  function RowOf(pair: ItemPair): Row {
    Row(None, None, pair.rarityName, set c | c in pair.crates)
  }

  /** The scan takes exactly the pairs the table shows before any price is
      known, when "priced only" is off. */
  lemma ScanSelectionAgreesWithTable(f: Filters, pair: ItemPair)
    requires !f.pricedOnly
    ensures SelectedForScan(f.rarities, f.crates, pair) <==> AcceptsRow(f, RowOf(pair))
  {
    var row := RowOf(pair);
    if f.crates != {} && row.crates * f.crates != {} {
      var c :| c in row.crates * f.crates;
      assert c in pair.crates && c in f.crates;
    }
    if f.crates != {} && exists c :: c in pair.crates && c in f.crates {
      var c :| c in pair.crates && c in f.crates;
      assert c in row.crates * f.crates;
    }
  }
}
