/** The records of models.py and the price difference both the table and
    `analyze_pairs` compute. */
module Models {
  import opened Wrappers

  /** `SlabItem`: a slab found by the market search, with its sell price. */
  datatype SlabItem = SlabItem(name: string, sellPrice: real)

  /** `StickerItem`. */
  datatype StickerItem = StickerItem(name: string, bestBuyOrder: Option<real>)

  /** The two `condition_type` values `analyze_pairs` assigns:
      `"SLAB_MORE_EXPENSIVE"` and `"SLAB_CHEAPER"`. */
  datatype Condition = SlabMoreExpensive | SlabCheaper

  /** `PairResult`. */
  datatype PairResult = PairResult(
    slabName: string,
    stickerName: string,
    slabBuy: Option<real>,
    stickerBuy: Option<real>,
    diff: Option<real>,
    conditionMatched: bool,
    conditionType: Option<Condition>)

  /** The slab price minus the sticker price, when both are known. */
  function PriceDiff(slab: Option<real>, sticker: Option<real>): (d: Option<real>)
    ensures d.Some? <==> slab.Some? && sticker.Some?
    ensures d.Some? ==> sticker.value + d.value == slab.value
  {
    if slab.Some? && sticker.Some? then Some(slab.value - sticker.value) else None
  }
}
