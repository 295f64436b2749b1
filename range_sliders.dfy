/**
 * The price and guest sliders of the filter panel. Their handlers build a new
 * `filters` record that sets the slider's bounds and keeps every other key,
 * and the displayed values fall back to fixed defaults through `??`.
 */
module RangeSliders {
  import opened JsValue
  import AmenityFilter

  /** Slider configuration: price 0..10000 in steps of 100, guests 1..100 in steps of 1. */
  const PriceMin := 0
  const PriceMax := 10000
  const PriceStep := 100
  const GuestsMin := 1
  const GuestsMax := 100
  const GuestsStep := 1

  /** A value a slider with this configuration can report. */
  predicate OnSlider(v: int, min: int, max: int, step: int)
    requires step > 0
  {
    min <= v <= max && (v - min) % step == 0
  }

  /** The values the two-thumb price slider hands to its onChange. */
  predicate PriceSliderValues(values: seq<int>) {
    |values| == 2 && OnSlider(values[0], PriceMin, PriceMax, PriceStep) && OnSlider(values[1], PriceMin, PriceMax, PriceStep)
  }

  /** The values the one-thumb guests slider hands to its onChange. */
  predicate GuestsSliderValues(values: seq<int>) {
    |values| == 1 && OnSlider(values[0], GuestsMin, GuestsMax, GuestsStep)
  }

  /**
   * handlePriceChange(values): `minPrice` and `maxPrice` take the first two
   * values (`undefined` past the end of the array), every other key, amenities
   * and `minGuests` included, reads as before.
   */
  function HandlePriceChange(filters: Record, values: seq<int>): (r: Record)
    ensures r.Keys == filters.Keys + {"minPrice", "maxPrice"}
    ensures Get(r, "minPrice") == At(values, 0)
    ensures Get(r, "maxPrice") == At(values, 1)
    ensures forall k :: k != "minPrice" && k != "maxPrice" ==> Get(r, k) == Get(filters, k)
  {
    filters["minPrice" := At(values, 0)]["maxPrice" := At(values, 1)]
  }

  /** handleGuestsChange(values): `minGuests` takes the first value; every other key, the price bounds included, reads as before. */
  function HandleGuestsChange(filters: Record, values: seq<int>): (r: Record)
    ensures r.Keys == filters.Keys + {"minGuests"}
    ensures Get(r, "minGuests") == At(values, 0)
    ensures forall k :: k != "minGuests" ==> Get(r, k) == Get(filters, k)
  {
    filters["minGuests" := At(values, 0)]
  }

  /** The two sliders write disjoint keys, so their updates commute. */
  lemma SliderUpdatesCommute(filters: Record, price: seq<int>, guests: seq<int>)
    ensures HandlePriceChange(HandleGuestsChange(filters, guests), price) == HandleGuestsChange(HandlePriceChange(filters, price), guests)
  {
    var a := HandlePriceChange(HandleGuestsChange(filters, guests), price);
    var b := HandleGuestsChange(HandlePriceChange(filters, price), guests);
    assert a.Keys == b.Keys;
    forall k | k in a ensures a[k] == b[k] {
      assert Get(a, k) == Get(b, k);
    }
  }

  /** `filters.minPrice ?? 0`, as shown on the slider and under it. */
  function ShownMinPrice(filters: Record): (v: Value)
    ensures IsNullish(Get(filters, "minPrice")) ==> v == Num(PriceMin)
    ensures !IsNullish(Get(filters, "minPrice")) ==> v == Get(filters, "minPrice")
  {
    Coalesce(Get(filters, "minPrice"), Num(PriceMin))
  }

  /** `filters.maxPrice ?? 10000` */
  function ShownMaxPrice(filters: Record): (v: Value)
    ensures IsNullish(Get(filters, "maxPrice")) ==> v == Num(PriceMax)
    ensures !IsNullish(Get(filters, "maxPrice")) ==> v == Get(filters, "maxPrice")
  {
    Coalesce(Get(filters, "maxPrice"), Num(PriceMax))
  }

  /** `filters.minGuests ?? 1` */
  function ShownMinGuests(filters: Record): (v: Value)
    ensures IsNullish(Get(filters, "minGuests")) ==> v == Num(GuestsMin)
    ensures !IsNullish(Get(filters, "minGuests")) ==> v == Get(filters, "minGuests")
  {
    Coalesce(Get(filters, "minGuests"), Num(GuestsMin))
  }

  /**
   * A bound set to 0 is shown as 0 (`??`), where `||` would have shown the
   * default instead.
   */
  lemma ZeroShownAsZero(filters: Record)
    requires Get(filters, "minPrice") == Num(0) && Get(filters, "maxPrice") == Num(0)
    ensures ShownMinPrice(filters) == Num(0) && ShownMaxPrice(filters) == Num(0)
    ensures Or(Get(filters, "maxPrice"), Num(PriceMax)) == Num(PriceMax)
  {
  }

  /** Every slider key is either unset or holds a value its slider can produce. */
  predicate SlidersInRange(filters: Record) {
    && (IsNullish(Get(filters, "minPrice")) || (Get(filters, "minPrice").Num? && OnSlider(Get(filters, "minPrice").n, PriceMin, PriceMax, PriceStep)))
    && (IsNullish(Get(filters, "maxPrice")) || (Get(filters, "maxPrice").Num? && OnSlider(Get(filters, "maxPrice").n, PriceMin, PriceMax, PriceStep)))
    && (IsNullish(Get(filters, "minGuests")) || (Get(filters, "minGuests").Num? && OnSlider(Get(filters, "minGuests").n, GuestsMin, GuestsMax, GuestsStep)))
  }

  /** While the slider keys are in range, each displayed value is a number its slider can show. */
  lemma ShownValuesOnSlider(filters: Record)
    requires SlidersInRange(filters)
    ensures ShownMinPrice(filters).Num? && OnSlider(ShownMinPrice(filters).n, PriceMin, PriceMax, PriceStep)
    ensures ShownMaxPrice(filters).Num? && OnSlider(ShownMaxPrice(filters).n, PriceMin, PriceMax, PriceStep)
    ensures ShownMinGuests(filters).Num? && OnSlider(ShownMinGuests(filters).n, GuestsMin, GuestsMax, GuestsStep)
  {
  }

  /**
   * The slider handlers, fed what their sliders report, and the amenity
   * buttons keep the slider keys in range.
   */
  lemma HandlersKeepSlidersInRange(filters: Record, price: seq<int>, guests: seq<int>, buttons: seq<nat>)
    requires SlidersInRange(filters)
    requires PriceSliderValues(price) && GuestsSliderValues(guests)
    requires forall i :: 0 <= i < |buttons| ==> buttons[i] < |AmenityFilter.FilterOptions|
    ensures SlidersInRange(HandlePriceChange(filters, price))
    ensures SlidersInRange(HandleGuestsChange(filters, guests))
    ensures SlidersInRange(AmenityFilter.PressAll(filters, buttons))
  {
    var r := AmenityFilter.PressAll(filters, buttons);
    assert Get(r, "minPrice") == Get(filters, "minPrice");
    assert Get(r, "maxPrice") == Get(filters, "maxPrice");
    assert Get(r, "minGuests") == Get(filters, "minGuests");
  }
}
