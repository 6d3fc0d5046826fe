/** The valuation engine (src/valuation.py): estimate each purchase's rent from the rentals
    nearby, score it, rank the scored purchases, and keep the ranking in the cache.

    scipy's griddata is the input `griddata`: it answers the linear interpolation of the
    sample surface at a point, or None where it raises ValueError or gives NaN. The search
    for listings is the input `find`; Python's float formatting is the input `realText`. */
module Valuations {
  import opened Common
  import opened Text
  import opened Payload
  import opened KeyValueCache
  import opened Search
  import opened Outliers
  import opened Scoring
  import opened Ranking

  /** A purchase listing with its estimated monthly rent and its return on investment. */
  datatype Valuation = Valuation(property: Property, estimatedRentalIncome: real, returnOnInvestment: real)

  function ReturnOf(v: Valuation): real
  {
    v.returnOnInvestment
  }

  // ---------------------------------------------------------------------------
  // Payload codec

  function ValuationFields(v: Valuation): map<string, Json>
  {
    ListingFields(v.property)["estimated_rental_income" := JNum(v.estimatedRentalIncome)]
                             ["return_on_investment" := JNum(v.returnOnInvestment)]
  }

  function ValuationToJson(v: Valuation): Json
  {
    JObj(ValuationFields(v))
  }

  /** The keys _convert_payload_to_valuations checks after the coordinates, in its order. */
  const TrailingValuationKeys: seq<string> :=
    ["purchase_category", "estimated_rental_income", "return_on_investment", "image_url"]

  /** One element of _convert_payload_to_valuations. */
  function ValuationFromJson(j: Json): (r: Result<Valuation, DecodeError>)
    ensures !j.JObj? ==> r == Failure(NotAnObject)
    ensures j.JObj? && ListingKeysError(j.fields, TrailingValuationKeys).Some? ==>
              r == Failure(ListingKeysError(j.fields, TrailingValuationKeys).value)
  {
    if !j.JObj? then Failure(NotAnObject)
    else match ListingKeysError(j.fields, TrailingValuationKeys)
      case Some(e) => Failure(e)
      case None =>
        match ListingFromFields(j.fields)
        case Failure(e) => Failure(e)
        case Success(p) =>
          match GetNumber(j.fields, "estimated_rental_income")
          case Failure(e) => Failure(e)
          case Success(rent) =>
            match GetNumber(j.fields, "return_on_investment")
            case Failure(e) => Failure(e)
            case Success(roi) => Success(Valuation(p, rent, roi))
  }

  lemma ValuationRoundTrip(v: Valuation)
    ensures ValuationFromJson(ValuationToJson(v)) == Success(v)
  {
    var f := ValuationFields(v);
    ValuationFieldsExtendListing(v);
    ListingFieldsComplete(v.property, f, TrailingValuationKeys);
    ListingFieldsDecode(v.property, f);
    assert GetNumber(f, "estimated_rental_income") == Success(v.estimatedRentalIncome);
    assert GetNumber(f, "return_on_investment") == Success(v.returnOnInvestment);
  }

  /** A serialised valuation is its listing's serialised fields plus the two figures. */
  lemma ValuationFieldsExtendListing(v: Valuation)
    ensures forall k :: k in ListingFields(v.property) ==>
              k in ValuationFields(v) && ValuationFields(v)[k] == ListingFields(v.property)[k]
    ensures forall k :: k in TrailingValuationKeys ==> k in ValuationFields(v)
  {
    var l := ListingFields(v.property);
    assert "purchase_category" in l && "image_url" in l;
  }

  /** Deserialising serialised valuations gives back the same list. */
  lemma {:induction false} ValuationsPayloadRoundTrip(vs: seq<Valuation>)
    ensures DecodeList(JArr(EncodeAll(vs, ValuationToJson)), ValuationFromJson) == Success(vs)
  {
    forall v: Valuation ensures ValuationFromJson(ValuationToJson(v)) == Success(v) {
      ValuationRoundTrip(v);
    }
    DecodeEncodeList(vs, ValuationToJson, ValuationFromJson);
  }

  // ---------------------------------------------------------------------------
  // The sample surface

  /** The default threshold of remove_outliers, the one _get_valuation uses. */
  const OutlierThreshold: real := 1.5

  function Prices(ps: seq<Property>): (r: seq<real>)
    ensures |r| == |ps|
    ensures forall i :: 0 <= i < |ps| ==> r[i] == ps[i].price
  {
    seq(|ps|, i requires 0 <= i < |ps| => ps[i].price)
  }

  /** The listings whose price is among `survivors`, in their original order. */
  function PricedAmong(ps: seq<Property>, survivors: seq<real>): (r: seq<Property>)
    ensures |r| <= |ps|
    ensures forall p :: p in r <==> p in ps && p.price in survivors
  {
    if |ps| == 0 then []
    else
      assert ps == [ps[0]] + ps[1..];
      var rest := PricedAmong(ps[1..], survivors);
      if ps[0].price in survivors then [ps[0]] + rest else rest
  }

  /** Some rental survives the outlier filter of all the rental prices. */
  lemma SomeRentalKept(rentals: seq<Property>)
    requires |rentals| > 0
    ensures |PricedAmong(rentals, RemoveOutliers(Prices(rentals), OutlierThreshold))| > 0
  {
    var prices := Prices(rentals);
    SomeValueSurvives(prices, OutlierThreshold);
    var survivors := RemoveOutliers(prices, OutlierThreshold);
    var x := survivors[0];
    assert x in survivors && x in prices;
    var i :| 0 <= i < |prices| && prices[i] == x;
    assert rentals[i] in PricedAmong(rentals, survivors);
  }

  /** The rentals _get_valuation keeps: those whose price survived the outlier filter.
      There is always at least one, so the mean and the bounding box below are defined. */
  function KeptRentals(rentals: seq<Property>): (kept: seq<Property>)
    requires |rentals| > 0
    ensures 0 < |kept| <= |rentals|
  {
    SomeRentalKept(rentals);
    PricedAmong(rentals, RemoveOutliers(Prices(rentals), OutlierThreshold))
  }

  /** A rental is kept exactly when its price lies within the outlier bounds of all the
      rental prices. */
  lemma KeptRentalsWithinBounds(rentals: seq<Property>)
    requires |rentals| > 0
    ensures var s := SortAsc(Prices(rentals));
            forall p :: p in KeptRentals(rentals) <==>
              p in rentals && Lower(s, OutlierThreshold) <= p.price <= Upper(s, OutlierThreshold)
  {
    var prices := Prices(rentals);
    forall p | p in rentals ensures p.price in prices {
      var i :| 0 <= i < |rentals| && rentals[i] == p;
      assert prices[i] == p.price;
    }
  }

  function Sum(xs: seq<real>): real
  {
    if |xs| == 0 then 0.0 else xs[0] + Sum(xs[1..])
  }

  function MinOf(xs: seq<real>): (m: real)
    requires |xs| > 0
    ensures m in xs && forall x :: x in xs ==> m <= x
  {
    if |xs| == 1 then xs[0]
    else
      assert xs == [xs[0]] + xs[1..];
      var rest := MinOf(xs[1..]);
      if xs[0] <= rest then xs[0] else rest
  }

  function MaxOf(xs: seq<real>): (m: real)
    requires |xs| > 0
    ensures m in xs && forall x :: x in xs ==> x <= m
  {
    if |xs| == 1 then xs[0]
    else
      assert xs == [xs[0]] + xs[1..];
      var rest := MaxOf(xs[1..]);
      if xs[0] >= rest then xs[0] else rest
  }

  /** sum(xs) / len(xs) */
  function Mean(xs: seq<real>): real
    requires |xs| > 0
  {
    Sum(xs) / |xs| as real
  }

  lemma {:induction false} SumBounds(xs: seq<real>, lo: real, hi: real)
    requires forall x :: x in xs ==> lo <= x <= hi
    ensures |xs| as real * lo <= Sum(xs) <= |xs| as real * hi
  {
    if |xs| > 0 {
      assert xs[0] in xs;
      assert forall x :: x in xs[1..] ==> x in xs;
      SumBounds(xs[1..], lo, hi);
    }
  }

  lemma DivideBounds(a: real, n: real, lo: real, hi: real)
    requires n > 0.0 && n * lo <= a <= n * hi
    ensures lo <= a / n <= hi
  {
    var q := a / n;
    assert a == n * q;
    assert n * (q - lo) >= 0.0;
    assert n * (hi - q) >= 0.0;
  }

  lemma MeanBetween(xs: seq<real>, lo: real, hi: real)
    requires |xs| > 0 && forall x :: x in xs ==> lo <= x <= hi
    ensures lo <= Mean(xs) <= hi
  {
    SumBounds(xs, lo, hi);
    DivideBounds(Sum(xs), |xs| as real, lo, hi);
  }

  /** The mean of the samples lies between their smallest and largest value. */
  lemma MeanWithinRange(xs: seq<real>)
    requires |xs| > 0
    ensures MinOf(xs) <= Mean(xs) <= MaxOf(xs)
  {
    MeanBetween(xs, MinOf(xs), MaxOf(xs));
  }

  function Longitudes(ps: seq<Property>): (r: seq<real>)
    ensures |r| == |ps|
  {
    seq(|ps|, i requires 0 <= i < |ps| => ps[i].geoLocation.longitude)
  }

  function Latitudes(ps: seq<Property>): (r: seq<real>)
    ensures |r| == |ps|
  {
    seq(|ps|, i requires 0 <= i < |ps| => ps[i].geoLocation.latitude)
  }

  /** The interpolation samples: (longitude, latitude) per listing, then the four corners of
      the bounding box; the listing prices, then the mean price once per corner. */
  datatype Surface = Surface(points: seq<(real, real)>, values: seq<real>, averagePrice: real)

  function SurfaceOf(kept: seq<Property>): (s: Surface)
    requires |kept| > 0
    ensures |s.points| == |s.values| == |kept| + 4
  {
    var lons := Longitudes(kept);
    var lats := Latitudes(kept);
    var minLon := MinOf(lons);
    var maxLon := MaxOf(lons);
    var minLat := MinOf(lats);
    var maxLat := MaxOf(lats);
    var average := Mean(Prices(kept));
    Surface(seq(|kept|, i requires 0 <= i < |kept| => (lons[i], lats[i]))
              + [(minLon, minLat), (maxLon, minLat), (minLon, maxLat), (maxLon, maxLat)],
            Prices(kept) + [average, average, average, average],
            average)
  }

  /** Each listing contributes its coordinates and price in order; the last four points are
      the bounding-box corners of the listings, which enclose every listing, each valued at
      their mean price, which lies between the cheapest and the dearest of them. */
  lemma SurfaceShape(kept: seq<Property>)
    requires |kept| > 0
    ensures var s := SurfaceOf(kept);
            forall i :: 0 <= i < |kept| ==>
              s.points[i] == (kept[i].geoLocation.longitude, kept[i].geoLocation.latitude)
              && s.values[i] == kept[i].price
    ensures var s := SurfaceOf(kept);
            && s.points[|kept|..] == [(MinOf(Longitudes(kept)), MinOf(Latitudes(kept))),
                                      (MaxOf(Longitudes(kept)), MinOf(Latitudes(kept))),
                                      (MinOf(Longitudes(kept)), MaxOf(Latitudes(kept))),
                                      (MaxOf(Longitudes(kept)), MaxOf(Latitudes(kept)))]
            && s.values[|kept|..] == [s.averagePrice, s.averagePrice, s.averagePrice, s.averagePrice]
    ensures forall p :: p in kept ==>
              && MinOf(Longitudes(kept)) <= p.geoLocation.longitude <= MaxOf(Longitudes(kept))
              && MinOf(Latitudes(kept)) <= p.geoLocation.latitude <= MaxOf(Latitudes(kept))
    ensures MinOf(Prices(kept)) <= SurfaceOf(kept).averagePrice <= MaxOf(Prices(kept))
  {
    SurfaceSamples(kept);
    CornersEnclose(kept);
    MeanWithinRange(Prices(kept));
  }

  lemma SurfaceSamples(kept: seq<Property>)
    requires |kept| > 0
    ensures var s := SurfaceOf(kept);
            forall i :: 0 <= i < |kept| ==>
              s.points[i] == (kept[i].geoLocation.longitude, kept[i].geoLocation.latitude)
              && s.values[i] == kept[i].price
    ensures var s := SurfaceOf(kept);
            && s.points[|kept|..] == [(MinOf(Longitudes(kept)), MinOf(Latitudes(kept))),
                                      (MaxOf(Longitudes(kept)), MinOf(Latitudes(kept))),
                                      (MinOf(Longitudes(kept)), MaxOf(Latitudes(kept))),
                                      (MaxOf(Longitudes(kept)), MaxOf(Latitudes(kept)))]
            && s.values[|kept|..] == [s.averagePrice, s.averagePrice, s.averagePrice, s.averagePrice]
  {
  }

  lemma CornersEnclose(kept: seq<Property>)
    requires |kept| > 0
    ensures forall p :: p in kept ==>
              && MinOf(Longitudes(kept)) <= p.geoLocation.longitude <= MaxOf(Longitudes(kept))
              && MinOf(Latitudes(kept)) <= p.geoLocation.latitude <= MaxOf(Latitudes(kept))
  {
    var lons := Longitudes(kept);
    var lats := Latitudes(kept);
    forall p | p in kept
      ensures MinOf(lons) <= p.geoLocation.longitude <= MaxOf(lons)
      ensures MinOf(lats) <= p.geoLocation.latitude <= MaxOf(lats)
    {
      var i :| 0 <= i < |kept| && kept[i] == p;
      assert lons[i] == p.geoLocation.longitude && lons[i] in lons;
      assert lats[i] == p.geoLocation.latitude && lats[i] in lats;
    }
  }

  /** The samples the engine interpolates between: None when griddata raises ValueError or
      answers NaN. */
  type Interpolator = (seq<(real, real)>, seq<real>, real, real) -> Option<real>

  /** get_height(x, y): the interpolated rent, or the mean rent where there is none. */
  function EstimateRent(s: Surface, griddata: Interpolator, x: real, y: real): (h: real)
    ensures griddata(s.points, s.values, x, y).Some? ==> h == griddata(s.points, s.values, x, y).value
    ensures griddata(s.points, s.values, x, y).None? ==> h == s.averagePrice
  {
    match griddata(s.points, s.values, x, y)
    case Some(v) => v
    case None => s.averagePrice
  }

  /** A single rental: it survives the outlier filter, and the surface is five samples at its
      own location, all valued at its price, so the estimate is that price wherever griddata
      gives no answer. */
  lemma SingleRentalSurface(p: Property, griddata: Interpolator, x: real, y: real)
    ensures KeptRentals([p]) == [p]
    ensures var s := SurfaceOf([p]);
            && s.averagePrice == p.price
            && (forall i :: 0 <= i < |s.values| ==> s.values[i] == p.price)
            && (forall i :: 0 <= i < |s.points| ==> s.points[i] == (p.geoLocation.longitude, p.geoLocation.latitude))
            && (griddata(s.points, s.values, x, y).None? ==> EstimateRent(s, griddata, x, y) == p.price)
  {
    var kept := KeptRentals([p]);
    assert kept[0] in kept;
    assert kept == [p];
    assert Sum(Prices([p])) == p.price + Sum([]);
    assert Longitudes([p]) == [p.geoLocation.longitude] && Latitudes([p]) == [p.geoLocation.latitude];
  }

  // ---------------------------------------------------------------------------
  // Appraisal

  /** The valuation of one purchase, or why scoring it raised. */
  function Appraisal(p: Property, s: Surface, griddata: Interpolator, vp: ValuationParameters)
    : Result<Valuation, ScoreError>
  {
    var rent := EstimateRent(s, griddata, p.geoLocation.longitude, p.geoLocation.latitude);
    match Score(p.price, rent, vp)
    case Failure(e) => Failure(e)
    case Success(roi) => Success(Valuation(p, rent, roi))
  }

  /** The valuation loop: purchases whose scoring raises a ValueError are skipped, and a
      ZeroDivisionError ends the whole valuation. */
  function Appraise(buys: seq<Property>, s: Surface, griddata: Interpolator, vp: ValuationParameters)
    : (r: Result<seq<Valuation>, ScoreError>)
    ensures r.Failure? ==> r.error == DivisionByZero
  {
    if |buys| == 0 then Success([])
    else match Appraisal(buys[0], s, griddata, vp)
      case Failure(e) =>
        if IsValueError(e) then Appraise(buys[1..], s, griddata, vp) else Failure(e)
      case Success(v) => Prefixed([v], Appraise(buys[1..], s, griddata, vp))
  }

  /** Since scoring fails on the parameters alone, the loop values every purchase, skips
      every purchase, or raises (on any purchase at all). */
  lemma {:induction false} AppraiseOutcome(buys: seq<Property>, s: Surface, griddata: Interpolator, vp: ValuationParameters)
    ensures Degeneracy(vp).None? ==>
              Appraise(buys, s, griddata, vp).Success?
              && |Appraise(buys, s, griddata, vp).value| == |buys|
              && forall i :: 0 <= i < |buys| ==>
                   Appraise(buys, s, griddata, vp).value[i].property == buys[i]
                   && Appraisal(buys[i], s, griddata, vp) == Success(Appraise(buys, s, griddata, vp).value[i])
    ensures Degeneracy(vp).Some? && IsValueError(Degeneracy(vp).value) ==>
              Appraise(buys, s, griddata, vp) == Success([])
    ensures Degeneracy(vp) == Some(DivisionByZero) && |buys| > 0 ==>
              Appraise(buys, s, griddata, vp) == Failure(DivisionByZero)
  {
    if |buys| > 0 {
      AppraiseOutcome(buys[1..], s, griddata, vp);
    }
  }

  /** _get_valuation as a value: nothing without rentals or purchases; otherwise the
      appraised purchases, highest return first. */
  function Valuate(rentals: seq<Property>, buys: seq<Property>, griddata: Interpolator, vp: ValuationParameters)
    : (r: Result<seq<Valuation>, ScoreError>)
    ensures |rentals| == 0 || |buys| == 0 ==> r == Success([])
    ensures r.Success? ==> SortedDesc(r.value, ReturnOf)
    ensures r.Failure? ==> r.error == DivisionByZero
  {
    if |rentals| == 0 || |buys| == 0 then Success([])
    else match Appraise(buys, SurfaceOf(KeptRentals(rentals)), griddata, vp)
      case Failure(e) => Failure(e)
      case Success(vs) => Success(SortDesc(vs, ReturnOf))
  }

  /** The ranking holds exactly the appraised purchases, and purchases with equal returns
      stay in listing order. */
  lemma ValuateRanksAppraisals(rentals: seq<Property>, buys: seq<Property>, griddata: Interpolator,
                               vp: ValuationParameters, roi: real)
    requires |rentals| > 0 && |buys| > 0
    requires Appraise(buys, SurfaceOf(KeptRentals(rentals)), griddata, vp).Success?
    ensures var vs := Appraise(buys, SurfaceOf(KeptRentals(rentals)), griddata, vp).value;
            && multiset(Valuate(rentals, buys, griddata, vp).value) == multiset(vs)
            && WithKey(Valuate(rentals, buys, griddata, vp).value, ReturnOf, roi) == WithKey(vs, ReturnOf, roi)
  {
    SortDescStable(Appraise(buys, SurfaceOf(KeptRentals(rentals)), griddata, vp).value, ReturnOf, roi);
  }

  /** The cache key of rank_properties: the search's for-sale URL and the parameters' repr. */
  function ValuationKey(st: SearchState, vp: ValuationParameters, realText: real -> string): string
  {
    "valuation:" + SaleUrlText(st.(category := Buy), realText) + "-" + vp.Repr(realText)
  }

  /** The key opens with "valuation:" and the search's for-sale URL, whatever its category. */
  lemma ValuationKeyPrefix(st: SearchState, vp: ValuationParameters, realText: real -> string)
    ensures IsPrefix("valuation:" + SaleUrlText(st, realText) + "-", ValuationKey(st, vp, realText))
  {
    var head := "valuation:" + SaleUrlText(st, realText) + "-";
    var key := ValuationKey(st, vp, realText);
    SaleUrlIgnoresCategory(st, realText);
    assert SaleUrlText(st.(category := Buy), realText) == SaleUrlText(st, realText) by {
      if st.category == Rent {
        assert st.(category := Rent) == st;
      } else {
        assert st.(category := Buy) == st;
      }
    }
    assert key == head + vp.Repr(realText);
    PrefixOfConcat(head, vp.Repr(realText));
  }

  /** For one search, different valuation parameters give different keys (as long as float
      formatting tells rates apart and writes no comma), so a cached ranking is never served
      for other terms. */
  lemma ValuationKeySeparatesParameters(st: SearchState, a: ValuationParameters, b: ValuationParameters,
                                        realText: real -> string)
    requires forall x, y :: realText(x) == realText(y) ==> x == y
    requires forall x :: Excludes(realText(x), ',')
    requires ValuationKey(st, a, realText) == ValuationKey(st, b, realText)
    ensures a == b
  {
    CancelLeft("valuation:" + SaleUrlText(st.(category := Buy), realText) + "-", a.Repr(realText), b.Repr(realText));
    ReprInjective(a, b, realText);
  }

  /** The key does not depend on which way the search was last toggled. */
  lemma ValuationKeyIgnoresCategory(st: SearchState, vp: ValuationParameters, realText: real -> string)
    ensures ValuationKey(st.(category := Rent), vp, realText) == ValuationKey(st.(category := Buy), vp, realText)
  {
  }

  /** Why rank_properties raised: a search failed, or scoring divided by zero. */
  datatype RankError = SearchFailed(fetch: FetchError) | ScoringFailed(score: ScoreError)

  class ValuationEngine {
    const cache: Cache
    var points: seq<(real, real)>
    var values: seq<real>
    var averagePrice: real

    constructor (cache: Cache)
      ensures this.cache == cache && points == [] && values == [] && averagePrice == 0.0
    {
      this.cache := cache;
      points := [];
      values := [];
      averagePrice := 0.0;
    }

    /** What _get_valuation leaves in the engine: the sample surface of the kept rentals,
        or, when it returns early, the fields as they were. */
    twostate predicate SurfaceRecorded(rentals: seq<Property>, buys: seq<Property>)
      reads this
    {
      if |rentals| > 0 && |buys| > 0 then Surface(points, values, averagePrice) == SurfaceOf(KeptRentals(rentals))
      else points == old(points) && values == old(values) && averagePrice == old(averagePrice)
    }

    twostate predicate SurfaceUnchanged()
      reads this
    {
      points == old(points) && values == old(values) && averagePrice == old(averagePrice)
    }

    /** _get_valuation: records the sample surface of the kept rentals in the engine, then
        values every purchase and ranks the valuations. */
    method GetValuation(rentals: seq<Property>, buys: seq<Property>, griddata: Interpolator,
                        vp: ValuationParameters)
      returns (r: Result<seq<Valuation>, ScoreError>)
      modifies this
      ensures r == Valuate(rentals, buys, griddata, vp)
      ensures SurfaceRecorded(rentals, buys)
    {
      if |rentals| == 0 || |buys| == 0 {
        return Success([]);
      }
      var kept := KeptRentals(rentals);
      var surface := SurfaceOf(kept);
      points := surface.points;
      values := surface.values;
      averagePrice := surface.averagePrice;
      var valuations: seq<Valuation> := [];
      assert buys[0..] == buys;
      PrefixedNil(Appraise(buys, surface, griddata, vp));
      for i := 0 to |buys|
        invariant Surface(points, values, averagePrice) == surface
        invariant Appraise(buys, surface, griddata, vp) == Prefixed(valuations, Appraise(buys[i..], surface, griddata, vp))
      {
        var property := buys[i];
        assert buys[i..][1..] == buys[i + 1..];
        var rent := EstimateRent(surface, griddata, property.geoLocation.longitude, property.geoLocation.latitude);
        var score := Score(property.price, rent, vp);
        if score.Failure? {
          if !IsValueError(score.error) {
            assert Appraise(buys[i..], surface, griddata, vp) == Failure(score.error);
            return Failure(score.error);
          }
        } else {
          PrefixedAssoc(valuations, [Valuation(property, rent, score.value)], Appraise(buys[i + 1..], surface, griddata, vp));
          valuations := valuations + [Valuation(property, rent, score.value)];
        }
      }
      assert buys[|buys|..] == [];
      assert valuations + [] == valuations;
      r := Success(SortDesc(valuations, ReturnOf));
    }

    /** The recomputation branch of rank_properties: search rentals, then purchases, value
        them, and store the ranking under `key` for 30 minutes (best effort). */
    method Recompute(params: SearchParameters, vp: ValuationParameters,
                     find: SearchState -> Result<seq<Property>, FetchError>,
                     griddata: Interpolator, key: string, now: int, faults: Faults)
      returns (r: Result<seq<Valuation>, RankError>, requests: seq<SearchState>)
      requires params.Valid()
      modifies this, cache, params`purchaseCategory
      ensures params.Valid()
      ensures var st := old(params.State());
              find(RentSearch(st)).Failure? ==>
                && requests == [RentSearch(st)] && params.State() == RentSearch(st)
                && r == Failure(SearchFailed(find(RentSearch(st)).error))
                && cache.entries == old(cache.entries) && SurfaceUnchanged()
      ensures var st := old(params.State());
              find(RentSearch(st)).Success? ==>
                && requests == [RentSearch(st), BuySearch(st)] && params.State() == BuySearch(st)
      ensures var st := old(params.State());
              find(RentSearch(st)).Success? && find(BuySearch(st)).Failure? ==>
                && r == Failure(SearchFailed(find(BuySearch(st)).error))
                && cache.entries == old(cache.entries) && SurfaceUnchanged()
      ensures var st := old(params.State());
              find(RentSearch(st)).Success? && find(BuySearch(st)).Success? ==>
                && r == Ranked(Valuate(find(RentSearch(st)).value, find(BuySearch(st)).value, griddata, vp))
                && cache.entries == StoredAfter(old(cache.entries), key, r, now, faults)
                && SurfaceRecorded(find(RentSearch(st)).value, find(BuySearch(st)).value)
    {
      var self := params.ToRent();
      var rentState := params.State();
      requests := [rentState];
      var rentals := find(rentState);
      if rentals.Failure? {
        return Failure(SearchFailed(rentals.error)), requests;
      }
      self := params.ToBuy();
      var buyState := params.State();
      requests := requests + [buyState];
      var buys := find(buyState);
      if buys.Failure? {
        return Failure(SearchFailed(buys.error)), requests;
      }
      r := ValueAndStore(rentals.value, buys.value, griddata, vp, key, now, faults);
    }

    /** The end of rank_properties: value the listings, then store a successful ranking. */
    method ValueAndStore(rentals: seq<Property>, buys: seq<Property>, griddata: Interpolator,
                         vp: ValuationParameters, key: string, now: int, faults: Faults)
      returns (r: Result<seq<Valuation>, RankError>)
      modifies this, cache
      ensures r == Ranked(Valuate(rentals, buys, griddata, vp))
      ensures cache.entries == StoredAfter(old(cache.entries), key, r, now, faults)
      ensures SurfaceRecorded(rentals, buys)
    {
      var valuations := GetValuation(rentals, buys, griddata, vp);
      if valuations.Failure? {
        return Failure(ScoringFailed(valuations.error));
      }
      var payload := EncodeList(valuations.value, ValuationToJson);
      cache.Set(key, payload, CacheTtlSeconds, now, faults.writeFails);
      r := Success(valuations.value);
    }

    /** rank_properties: answer from the cache when it holds a well-formed ranking for this
        search and these parameters; otherwise recompute it. The search object ends set to
        BUY, unless the rental search raised, which leaves it set to RENT. */
    method RankProperties(params: SearchParameters, vp: ValuationParameters,
                          find: SearchState -> Result<seq<Property>, FetchError>,
                          griddata: Interpolator, realText: real -> string, now: int, faults: Faults)
      returns (r: Result<seq<Valuation>, RankError>, requests: seq<SearchState>)
      requires params.Valid()
      modifies this, cache, params`purchaseCategory
      ensures params.Valid()
      ensures var st := old(params.State());
              var cached := CachedRanking(old(cache.entries), ValuationKey(st, vp, realText), now, faults);
              cached.Some? ==>
                && r == Success(cached.value) && requests == []
                && cache.entries == old(cache.entries) && params.State() == BuySearch(st)
                && SurfaceUnchanged()
      ensures var st := old(params.State());
              var key := ValuationKey(st, vp, realText);
              CachedRanking(old(cache.entries), key, now, faults).None? ==>
                && (find(RentSearch(st)).Failure? ==>
                      && requests == [RentSearch(st)] && params.State() == RentSearch(st)
                      && r == Failure(SearchFailed(find(RentSearch(st)).error))
                      && cache.entries == old(cache.entries) && SurfaceUnchanged())
                && (find(RentSearch(st)).Success? ==>
                      requests == [RentSearch(st), BuySearch(st)] && params.State() == BuySearch(st))
                && (find(RentSearch(st)).Success? && find(BuySearch(st)).Failure? ==>
                      && r == Failure(SearchFailed(find(BuySearch(st)).error))
                      && cache.entries == old(cache.entries) && SurfaceUnchanged())
                && (find(RentSearch(st)).Success? && find(BuySearch(st)).Success? ==>
                      && r == Ranked(Valuate(find(RentSearch(st)).value, find(BuySearch(st)).value, griddata, vp))
                      && cache.entries == StoredAfter(old(cache.entries), key, r, now, faults)
                      && SurfaceRecorded(find(RentSearch(st)).value, find(BuySearch(st)).value))
    {
      var self := params.ToBuy();
      var url := params.ToUrl(realText);
      var key := "valuation:" + url.Value(None, None) + "-" + vp.Repr(realText);
      var read := cache.Get(key, now, faults.readFails);
      if read.Hit? {
        var decoded := DecodeListLoop(read.payload, ValuationFromJson);
        if decoded.Success? {
          return Success(decoded.value), [];
        }
      }
      r, requests := Recompute(params, vp, find, griddata, key, now, faults);
    }
  }

  function RentSearch(st: SearchState): SearchState
  {
    st.(category := Rent)
  }

  function BuySearch(st: SearchState): SearchState
  {
    st.(category := Buy)
  }

  /** What rank_properties returns for the outcome of _get_valuation. */
  function Ranked(valued: Result<seq<Valuation>, ScoreError>): (r: Result<seq<Valuation>, RankError>)
    ensures r.Success? <==> valued.Success?
    ensures r.Success? ==> r.value == valued.value
    ensures r.Failure? ==> r.error == ScoringFailed(valued.error)
  {
    match valued
    case Success(vs) => Success(vs)
    case Failure(e) => Failure(ScoringFailed(e))
  }

  /** The ranking a cache read yields: a hit whose payload decodes. */
  function CachedRanking(entries: map<string, Entry>, key: string, now: int, faults: Faults): (c: Option<seq<Valuation>>)
    ensures c.Some? ==> !faults.readFails && key in entries && now < entries[key].expiresAt
    ensures c.Some? ==> DecodeList(entries[key].payload, ValuationFromJson) == Success(c.value)
  {
    CachedList(if faults.readFails then Unavailable else LookupAt(entries, key, now), ValuationFromJson)
  }

  /** The cache after storing a successful ranking, unless the write fails. */
  function StoredAfter(entries: map<string, Entry>, key: string, r: Result<seq<Valuation>, RankError>,
                       now: int, faults: Faults): (e: map<string, Entry>)
    ensures r.Failure? || faults.writeFails ==> e == entries
    ensures r.Success? && !faults.writeFails ==>
              LookupAt(e, key, now) == Hit(JArr(EncodeAll(r.value, ValuationToJson)))
  {
    if r.Failure? || faults.writeFails then entries
    else entries[key := Entry(JArr(EncodeAll(r.value, ValuationToJson)), now + CacheTtlSeconds)]
  }

  /** A stored ranking reads back as itself for the next 30 minutes. */
  lemma StoredRankingReadsBack(entries: map<string, Entry>, key: string, vs: seq<Valuation>,
                               now: int, later: int, faults: Faults)
    requires !faults.writeFails && !faults.readFails && now <= later < now + CacheTtlSeconds
    ensures CachedRanking(StoredAfter(entries, key, Success(vs), now, faults), key, later, faults) == Some(vs)
  {
    ValuationsPayloadRoundTrip(vs);
  }
}
