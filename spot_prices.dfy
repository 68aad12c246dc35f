/**
 * The spot-price series. A price document (EUR/MWh prices and Unix seconds, two
 * parallel arrays) is persisted in a cache file; loading it derives prices in
 * ct/kWh, dates in milliseconds, the first and last date and the index of the
 * first cheapest and first dearest price.
 *
 * Prices are kept in integer tenths of ct/kWh: the source stores `Math.round(p) / 10`,
 * and the division by ten is left symbolic, which keeps every comparison exact.
 */
module SpotPrices {
  import opened Wrappers
  import opened JsSemantics
  import opened Persistence

  /** The price document: what the feed returns and the cache file holds; an absent array is `None`. */
  datatype Document = Document(
    price: Option<seq<real>>,
    unixSeconds: Option<seq<int>>,
    updateTimestamp: Option<int>)

  /** A JavaScript `Date`: an instant in milliseconds, or the Invalid Date. */
  datatype Instant = At(ms: int) | InvalidDate

  /** The unit every loaded series is labelled with. */
  const Unit := "ct / kWh"

  /** Each price rounded to the nearest whole unit of the feed, which is a tenth of a ct/kWh. */
  function ToTenths(price: seq<real>): (r: seq<int>)
    ensures |r| == |price|
    ensures forall i :: 0 <= i < |price| ==> r[i] == Round(price[i])
  {
    if price == [] then [] else [Round(price[0])] + ToTenths(price[1..])
  }

  /** Each timestamp converted from seconds to milliseconds since the epoch. */
  function ToMillis(seconds: seq<int>): (r: seq<int>)
    ensures |r| == |seconds|
    ensures forall i :: 0 <= i < |seconds| ==> r[i] == seconds[i] * 1000
  {
    if seconds == [] then [] else [seconds[0] * 1000] + ToMillis(seconds[1..])
  }

  /** The smallest element of a non-empty list. */
  function Minimum(s: seq<int>): (m: int)
    requires |s| > 0
    ensures exists i :: 0 <= i < |s| && s[i] == m
    ensures forall i :: 0 <= i < |s| ==> m <= s[i]
  {
    if |s| == 1 then s[0]
    else
      var rest := Minimum(s[1..]);
      assert forall i :: 1 <= i < |s| ==> s[i] == s[1..][i - 1];
      if s[0] <= rest then s[0] else rest
  }

  /** The largest element of a non-empty list. */
  function Maximum(s: seq<int>): (m: int)
    requires |s| > 0
    ensures exists i :: 0 <= i < |s| && s[i] == m
    ensures forall i :: 0 <= i < |s| ==> s[i] <= m
  {
    if |s| == 1 then s[0]
    else
      var rest := Maximum(s[1..]);
      assert forall i :: 1 <= i < |s| ==> s[i] == s[1..][i - 1];
      if s[0] >= rest then s[0] else rest
  }

  /** The earliest of the dates; with no dates at all the minimum is Infinity, an invalid date. */
  function MinDate(dates: seq<int>): Instant {
    if dates == [] then InvalidDate else At(Minimum(dates))
  }

  /** The latest of the dates; with no dates at all the maximum is -Infinity, an invalid date. */
  function MaxDate(dates: seq<int>): Instant {
    if dates == [] then InvalidDate else At(Maximum(dates))
  }

  /**
   * The index the minimum search holds after the first `n` elements: it starts at 0
   * and moves to an element only when that element is strictly smaller.
   */
  function ReduceMin(arr: seq<int>, n: nat): (best: nat)
    requires n <= |arr|
    ensures n == 0 ==> best == 0
    ensures n > 0 ==> (best < n
      && (forall j :: 0 <= j < n ==> arr[best] <= arr[j])
      && (forall j :: 0 <= j < best ==> arr[j] > arr[best]))
  {
    if n == 0 then 0
    else
      var b := ReduceMin(arr, n - 1);
      if arr[n - 1] < arr[b] then n - 1 else b
  }

  /** The same search for the maximum: it moves only to a strictly larger element. */
  function ReduceMax(arr: seq<int>, n: nat): (best: nat)
    requires n <= |arr|
    ensures n == 0 ==> best == 0
    ensures n > 0 ==> (best < n
      && (forall j :: 0 <= j < n ==> arr[best] >= arr[j])
      && (forall j :: 0 <= j < best ==> arr[j] < arr[best]))
  {
    if n == 0 then 0
    else
      var b := ReduceMax(arr, n - 1);
      if arr[n - 1] > arr[b] then n - 1 else b
  }

  /** `#findIndexOfMinValue`: the index of the first minimal value, and 0 for an empty array. */
  function IndexOfMin(arr: seq<int>): (i: nat)
    ensures |arr| == 0 ==> i == 0
    ensures |arr| > 0 ==> (i < |arr|
      && (forall j :: 0 <= j < |arr| ==> arr[i] <= arr[j])
      && (forall j :: 0 <= j < i ==> arr[j] > arr[i]))
  {
    ReduceMin(arr, |arr|)
  }

  /** `#findIndexOfMaxValue`: the index of the first maximal value, and 0 for an empty array. */
  function IndexOfMax(arr: seq<int>): (i: nat)
    ensures |arr| == 0 ==> i == 0
    ensures |arr| > 0 ==> (i < |arr|
      && (forall j :: 0 <= j < |arr| ==> arr[i] >= arr[j])
      && (forall j :: 0 <= j < i ==> arr[j] < arr[i]))
  {
    ReduceMax(arr, |arr|)
  }

  /** The private fields of a `SpotPrices` object; `None` is `undefined`. */
  datatype View = View(
    spotPriceData: Option<Document>,
    updateTimestamp: Option<int>,
    prices: Option<seq<int>>,
    dates: Option<seq<int>>,
    unit: Option<string>,
    minDate: Option<Instant>,
    maxDate: Option<Instant>,
    minPriceIndex: Option<nat>,
    maxPriceIndex: Option<nat>)

  /** A new object's fields, before its constructor reads the cache. */
  const Blank := View(None, None, None, None, None, None, None, None, None)

  /** `hasPrices`: a document has been parsed from the cache. */
  predicate HasPrices(v: View) {
    v.spotPriceData.Some?
  }

  /** Every derived field holds what loading `doc` computes. */
  predicate LoadedFrom(v: View, doc: Document) {
    doc.price.Some? && doc.unixSeconds.Some?
    && v.spotPriceData == Some(doc)
    && v.prices == Some(ToTenths(doc.price.value))
    && v.unit == Some(Unit)
    && v.dates == Some(ToMillis(doc.unixSeconds.value))
    && v.minDate == Some(MinDate(v.dates.value))
    && v.maxDate == Some(MaxDate(v.dates.value))
    && v.minPriceIndex == Some(IndexOfMin(v.prices.value))
    && v.maxPriceIndex == Some(IndexOfMax(v.prices.value))
    && v.updateTimestamp == doc.updateTimestamp
  }

  /**
   * `#readCachedPrices` on the fields `v` and the cache file `f`, with the result it
   * returns. The assignments happen in the source's order, so an exception part way
   * (`.map` of a missing array) leaves the earlier assignments in place.
   */
  function ReadCached(v: View, f: Contents<Document>): (r: (View, bool))
    ensures !f.Parsed? ==> r == (v, false)
    ensures f.Parsed? ==> r.0.spotPriceData == Some(f.value)
    ensures r.1 <==> f.Parsed? && f.value.price.Some? && f.value.unixSeconds.Some?
    ensures r.1 ==> LoadedFrom(r.0, f.value)
    ensures f.Parsed? && f.value.price.None? ==> r.0 == v.(spotPriceData := Some(f.value))
    ensures f.Parsed? && f.value.price.Some? && f.value.unixSeconds.None? ==>
      r.0 == v.(spotPriceData := Some(f.value), prices := Some(ToTenths(f.value.price.value)), unit := Some(Unit))
    ensures HasPrices(r.0) <==> HasPrices(v) || f.Parsed?
  {
    if !f.Parsed? then (v, false)
    else
      var data := f.value;
      var v1 := v.(spotPriceData := Some(data));
      if data.price.None? then (v1, false)
      else
        var v2 := WithPrices(v1, data.price.value);
        if data.unixSeconds.None? then (v2, false)
        else (WithDates(v2, data.unixSeconds.value, data.updateTimestamp), true)
  }

  /** The first stage of a load: converted prices and the unit. */
  function WithPrices(v: View, price: seq<real>): View {
    v.(prices := Some(ToTenths(price)), unit := Some(Unit))
  }

  /** The second stage: dates, their range, the extreme indices and the stamp. */
  function WithDates(v: View, seconds: seq<int>, stamp: Option<int>): View
    requires v.prices.Some?
  {
    var dates := ToMillis(seconds);
    v.(dates := Some(dates), minDate := Some(MinDate(dates)), maxDate := Some(MaxDate(dates)),
       minPriceIndex := Some(IndexOfMin(v.prices.value)),
       maxPriceIndex := Some(IndexOfMax(v.prices.value)),
       updateTimestamp := stamp)
  }

  /** A successful load does not depend on what the object held before: any object
      loading the same file ends in the same state. */
  lemma LoadForgetsPriorState(v: View, w: View, f: Contents<Document>)
    requires ReadCached(v, f).1
    ensures ReadCached(w, f) == ReadCached(v, f)
  {
  }

  /**
   * What reading a getter gives: a TypeError when the array it indexes is itself
   * undefined, `undefined` when the index is unset or outside the array, or a number.
   */
  datatype Read = TypeError | Undefined | Value(value: int)

  /** The getter `minPrice`: the price at the minimum's index. */
  function MinPrice(v: View): (r: Read)
    ensures r.TypeError? <==> v.prices.None?
    ensures r.Undefined? <==>
      v.prices.Some? && (v.minPriceIndex.None? || v.minPriceIndex.value >= |v.prices.value|)
    ensures r.Value? ==> r.value in v.prices.value
  {
    if v.prices.None? then TypeError
    else if v.minPriceIndex.Some? && v.minPriceIndex.value < |v.prices.value|
    then Value(v.prices.value[v.minPriceIndex.value]) else Undefined
  }

  /** The getter `maxPrice`: the price at the maximum's index. */
  function MaxPrice(v: View): (r: Read)
    ensures r.TypeError? <==> v.prices.None?
    ensures r.Undefined? <==>
      v.prices.Some? && (v.maxPriceIndex.None? || v.maxPriceIndex.value >= |v.prices.value|)
    ensures r.Value? ==> r.value in v.prices.value
  {
    if v.prices.None? then TypeError
    else if v.maxPriceIndex.Some? && v.maxPriceIndex.value < |v.prices.value|
    then Value(v.prices.value[v.maxPriceIndex.value]) else Undefined
  }

  /** The getter `minPriceDate`: the date at the minimum's index. */
  function MinPriceDate(v: View): (r: Read)
    ensures r.TypeError? <==> v.dates.None?
    ensures r.Undefined? <==>
      v.dates.Some? && (v.minPriceIndex.None? || v.minPriceIndex.value >= |v.dates.value|)
    ensures r.Value? ==> r.value in v.dates.value
  {
    if v.dates.None? then TypeError
    else if v.minPriceIndex.Some? && v.minPriceIndex.value < |v.dates.value|
    then Value(v.dates.value[v.minPriceIndex.value]) else Undefined
  }

  /** The getter `maxPriceDate`: the date at the maximum's index. */
  function MaxPriceDate(v: View): (r: Read)
    ensures r.TypeError? <==> v.dates.None?
    ensures r.Undefined? <==>
      v.dates.Some? && (v.maxPriceIndex.None? || v.maxPriceIndex.value >= |v.dates.value|)
    ensures r.Value? ==> r.value in v.dates.value
  {
    if v.dates.None? then TypeError
    else if v.maxPriceIndex.Some? && v.maxPriceIndex.value < |v.dates.value|
    then Value(v.dates.value[v.maxPriceIndex.value]) else Undefined
  }

  /**
   * A new object whose cache is missing, unreadable or without prices has no price
   * array, so reading `minPrice` or `maxPrice` throws; without dates the date getters
   * throw as well.
   */
  lemma GettersThrowWithoutLoad(f: Contents<Document>)
    requires !f.Parsed? || f.value.price.None?
    ensures MinPrice(ReadCached(Blank, f).0).TypeError? && MaxPrice(ReadCached(Blank, f).0).TypeError?
    ensures MinPriceDate(ReadCached(Blank, f).0).TypeError? && MaxPriceDate(ReadCached(Blank, f).0).TypeError?
  {
  }

  /**
   * After loading a document with prices: every price lies between `minPrice` and
   * `maxPrice`, each is the converted price of its own index, and when the two arrays
   * have the same length the extreme's date is the date at that same index.
   */
  lemma LoadedExtremes(v: View, doc: Document)
    requires LoadedFrom(v, doc) && |doc.price.value| > 0
    ensures MinPrice(v).Value? && MaxPrice(v).Value?
    ensures forall i :: 0 <= i < |v.prices.value| ==> MinPrice(v).value <= v.prices.value[i] <= MaxPrice(v).value
    ensures exists i :: (0 <= i < |doc.price.value| && MinPrice(v).value == Round(doc.price.value[i])
      && forall j :: 0 <= j < i ==> Round(doc.price.value[j]) > MinPrice(v).value)
    ensures exists i :: (0 <= i < |doc.price.value| && MaxPrice(v).value == Round(doc.price.value[i])
      && forall j :: 0 <= j < i ==> Round(doc.price.value[j]) < MaxPrice(v).value)
    ensures |doc.unixSeconds.value| == |doc.price.value| ==>
      MinPriceDate(v) == Value(doc.unixSeconds.value[v.minPriceIndex.value] * 1000)
      && MaxPriceDate(v) == Value(doc.unixSeconds.value[v.maxPriceIndex.value] * 1000)
  {
    var prices := v.prices.value;
    var i, k := v.minPriceIndex.value, v.maxPriceIndex.value;
    assert i < |prices| && k < |prices|;
    assert MinPrice(v).value == prices[i] && MaxPrice(v).value == prices[k];
    assert forall j :: 0 <= j < |prices| ==> prices[i] <= prices[j] <= prices[k];
  }

  /** `minDate` and `maxDate` bound every date of a loaded series and are among them. */
  lemma LoadedDateRange(v: View, doc: Document)
    requires LoadedFrom(v, doc) && |doc.unixSeconds.value| > 0
    ensures v.minDate.value.At? && v.maxDate.value.At?
    ensures forall i :: 0 <= i < |v.dates.value| ==>
      v.minDate.value.ms <= v.dates.value[i] <= v.maxDate.value.ms
    ensures exists i :: 0 <= i < |v.dates.value| && v.dates.value[i] == v.minDate.value.ms
    ensures exists i :: 0 <= i < |v.dates.value| && v.dates.value[i] == v.maxDate.value.ms
  {
  }

  /** Why `updateSpotPrices` rejected. */
  datatype UpdateError = FetchFailed(message: string) | WriteFailed

  /** The fetched document, stamped with the time of the update before it is written. */
  function Stamp(doc: Document, now: int): Document {
    doc.(updateTimestamp := Some(now))
  }

  /** The spot-price object over its cache file. */
  class SpotPrices {
    /** The file `spotPricesCache.json`. */
    const cache: FileStore<Document>

    var spotPriceData: Option<Document>
    var updateTimestamp: Option<int>
    var prices: Option<seq<int>>
    var dates: Option<seq<int>>
    var unit: Option<string>
    var minDate: Option<Instant>
    var maxDate: Option<Instant>
    var minPriceIndex: Option<nat>
    var maxPriceIndex: Option<nat>

    function ViewOf(): View
      reads this
    {
      View(spotPriceData, updateTimestamp, prices, dates, unit, minDate, maxDate, minPriceIndex, maxPriceIndex)
    }

    /** Creates the object and loads the cache file once. */
    constructor (cache: FileStore<Document>)
      ensures this.cache == cache
      ensures ViewOf() == ReadCached(Blank, cache.contents).0
    {
      this.cache := cache;
      spotPriceData, updateTimestamp, prices, dates, unit := None, None, None, None, None;
      minDate, maxDate, minPriceIndex, maxPriceIndex := None, None, None, None;
      new;
      var _ := ReadCachedPrices();
    }

    /** Loads the cache file into the fields; true when every field was derived. */
    method ReadCachedPrices() returns (loaded: bool)
      modifies this
      ensures (ViewOf(), loaded) == ReadCached(old(ViewOf()), cache.contents)
    {
      if !cache.contents.Parsed? {
        return false;
      }
      var data := cache.contents.value;
      spotPriceData := Some(data);

      if data.price.None? {
        return false;
      }
      SetPrices(data.price.value);

      if data.unixSeconds.None? {
        return false;
      }
      SetDates(data.unixSeconds.value, data.updateTimestamp);
      return true;
    }

    /** Converts the prices and sets the unit. */
    method SetPrices(price: seq<real>)
      modifies this
      ensures ViewOf() == WithPrices(old(ViewOf()), price)
    {
      prices := Some(ToTenths(price));
      unit := Some(Unit);
    }

    /** Converts the dates, then derives their range, the extreme price indices and the stamp. */
    method SetDates(seconds: seq<int>, stamp: Option<int>)
      requires prices.Some?
      modifies this
      ensures ViewOf() == WithDates(old(ViewOf()), seconds, stamp)
    {
      dates := Some(ToMillis(seconds));
      minDate := Some(MinDate(dates.value));
      maxDate := Some(MaxDate(dates.value));
      minPriceIndex := Some(IndexOfMin(prices.value));
      maxPriceIndex := Some(IndexOfMax(prices.value));
      updateTimestamp := stamp;
    }

    /**
     * `updateSpotPrices`, given what the feed returned: stamp the document with `now`,
     * write it to the cache file, then reload the object from what was written. A
     * failed fetch or write is passed on and changes nothing.
     */
    method UpdateSpotPrices(fetched: Result<Document, string>, now: int) returns (r: Result<(), UpdateError>)
      modifies this, cache
      ensures fetched.Failure? ==>
        r == Failure(FetchFailed(fetched.error)) && unchanged(this) && unchanged(cache)
      ensures fetched.Success? && !old(cache.writable) ==>
        r == Failure(WriteFailed) && unchanged(this) && unchanged(cache)
      ensures fetched.Success? && old(cache.writable) ==>
        r.Success?
        && cache.contents == Parsed(Stamp(fetched.value, now))
        && cache.writable
        && ViewOf() == ReadCached(old(ViewOf()), Parsed(Stamp(fetched.value, now))).0
    {
      if fetched.Failure? {
        return Failure(FetchFailed(fetched.error));
      }
      var data := Stamp(fetched.value, now);
      if !cache.writable {
        return Failure(WriteFailed);
      }
      cache.contents := Parsed(data);
      var _ := ReadCachedPrices();
      r := Success(());
    }
  }

  /**
   * After a successful update with a complete document, the object holds exactly
   * what loading the written document gives, stamped with the update time.
   */
  lemma UpdateLoadsWrittenDocument(v: View, doc: Document, now: int)
    requires doc.price.Some? && doc.unixSeconds.Some?
    ensures LoadedFrom(ReadCached(v, Parsed(Stamp(doc, now))).0, Stamp(doc, now))
    ensures ReadCached(v, Parsed(Stamp(doc, now))).0.updateTimestamp == Some(now)
    ensures HasPrices(ReadCached(v, Parsed(Stamp(doc, now))).0)
  {
  }
}
