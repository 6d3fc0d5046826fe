/** Search parameters and listings (src/search.py): the option enums, IntRange, the
    validated SearchParameters object with its in-place category toggles and its URL
    builders, the paging of a result set, and the listing payload codec. The HTML scraping
    and the result-count request are inputs (`fetchPage`, `propertyCount`); the textual
    form of a float is the input `realText`. */
module Search {
  import opened Common
  import opened Text
  import opened Payload
  import opened Locations

  // ---------------------------------------------------------------------------
  // Option enums and their URL values

  datatype PropertyType = Flat | Detached | SemiDetached | Terrace | Bungalow | ParkHome | Land | StudentHalls
  datatype MustHave = Auction | Garden | Parking | NewHome | Retirement | SharedOwnership
  datatype DontShow = NoNewHome | NoRetirement | NoSharedOwnership
  datatype FurnishType = Furnished | PartFurnished | Unfurnished
  datatype PurchaseCategory = Buy | Rent

  function PropertyTypeValue(t: PropertyType): string
  {
    match t
    case Flat => "flat"
    case Detached => "detached"
    case SemiDetached => "semi-detached"
    case Terrace => "terraced"
    case Bungalow => "bungalow"
    case ParkHome => "park-home"
    case Land => "land"
    case StudentHalls => "private-halls"
  }

  function MustHaveValue(m: MustHave): string
  {
    match m
    case Auction => "auction"
    case Garden => "garden"
    case Parking => "parking"
    case NewHome => "newHome"
    case Retirement => "retirement"
    case SharedOwnership => "sharedOwnership"
  }

  function DontShowValue(d: DontShow): string
  {
    match d
    case NoNewHome => "newHome"
    case NoRetirement => "retirement"
    case NoSharedOwnership => "sharedOwnership"
  }

  function FurnishTypeValue(f: FurnishType): string
  {
    match f
    case Furnished => "furnished"
    case PartFurnished => "partFurnished"
    case Unfurnished => "unfurnished"
  }

  function CategoryValue(c: PurchaseCategory): string
  {
    match c
    case Buy => "buy"
    case Rent => "rent"
  }

  /** PurchaseCategory(value): the member with that value, or a ValueError. */
  function CategoryFromValue(s: string): (r: Result<PurchaseCategory, DecodeError>)
    ensures r.Success? <==> s == "buy" || s == "rent"
    ensures r.Success? ==> CategoryValue(r.value) == s
  {
    if s == "buy" then Success(Buy) else if s == "rent" then Success(Rent) else Failure(BadCategory)
  }

  // Every member of each enum, listed in ascending order of its value.
  const PropertyTypesByValue: seq<PropertyType> :=
    [Bungalow, Detached, Flat, Land, ParkHome, StudentHalls, SemiDetached, Terrace]
  const MustHavesByValue: seq<MustHave> := [Auction, Garden, NewHome, Parking, Retirement, SharedOwnership]
  const DontShowsByValue: seq<DontShow> := [NoNewHome, NoRetirement, NoSharedOwnership]
  const FurnishTypesByValue: seq<FurnishType> := [Furnished, PartFurnished, Unfurnished]

  predicate StrictlyAscending<T>(xs: seq<T>, key: T -> string)
  {
    forall i, j :: 0 <= i < j < |xs| ==> LexLess(key(xs[i]), key(xs[j]))
  }

  /** The members of `s`, in the order they have in `order`. */
  function SelectInOrder<T(==,!new)>(order: seq<T>, s: set<T>): (r: seq<T>)
    ensures forall x :: x in r <==> x in order && x in s
    ensures |r| <= |order|
  {
    if |order| == 0 then []
    else (if order[0] in s then [order[0]] else []) + SelectInOrder(order[1..], s)
  }

  /** Selecting from a strictly ascending list keeps it strictly ascending. */
  lemma {:induction false} SelectInOrderAscending<T(!new)>(order: seq<T>, s: set<T>, key: T -> string)
    requires StrictlyAscending(order, key)
    ensures StrictlyAscending(SelectInOrder(order, s), key)
  {
    if |order| > 0 {
      var rest := SelectInOrder(order[1..], s);
      assert StrictlyAscending(order[1..], key) by {
        forall i, j | 0 <= i < j < |order[1..]| ensures LexLess(key(order[1..][i]), key(order[1..][j])) {
          assert order[1..][i] == order[i + 1] && order[1..][j] == order[j + 1];
        }
      }
      SelectInOrderAscending(order[1..], s, key);
      forall x | x in rest ensures LexLess(key(order[0]), key(x)) {
        var j :| 0 <= j < |order[1..]| && order[1..][j] == x;
        assert order[j + 1] == x;
      }
    }
  }

  /** A list whose neighbours are in order is in order. */
  lemma {:induction false} AdjacentAscending<T>(xs: seq<T>, key: T -> string)
    requires forall i :: 0 <= i < |xs| - 1 ==> LexLess(key(xs[i]), key(xs[i + 1]))
    ensures StrictlyAscending(xs, key)
  {
    if |xs| > 1 {
      AdjacentAscending(xs[1..], key);
      forall j | 1 <= j < |xs| ensures LexLess(key(xs[0]), key(xs[j])) {
        if j > 1 {
          assert xs[1..][0] == xs[1] && xs[1..][j - 1] == xs[j];
          LexLessTransitive(key(xs[0]), key(xs[1]), key(xs[j]));
        }
      }
      forall i, j | 0 <= i < j < |xs| ensures LexLess(key(xs[i]), key(xs[j])) {
        if i > 0 {
          assert xs[1..][i - 1] == xs[i] && xs[1..][j - 1] == xs[j];
        }
      }
    }
  }

  lemma PropertyTypesOrdered()
    ensures StrictlyAscending(PropertyTypesByValue, PropertyTypeValue)
    ensures forall t: PropertyType :: t in PropertyTypesByValue
  {
    var xs := PropertyTypesByValue;
    assert LexLess("park-home", "private-halls") by {
      assert LexLess("ark-home", "rivate-halls");
    }
    forall i | 0 <= i < |xs| - 1 ensures LexLess(PropertyTypeValue(xs[i]), PropertyTypeValue(xs[i + 1])) {
    }
    AdjacentAscending(xs, PropertyTypeValue);
    forall t: PropertyType ensures t in xs {
      match t
      case Bungalow => assert xs[0] == t;
      case Detached => assert xs[1] == t;
      case Flat => assert xs[2] == t;
      case Land => assert xs[3] == t;
      case ParkHome => assert xs[4] == t;
      case StudentHalls => assert xs[5] == t;
      case SemiDetached => assert xs[6] == t;
      case Terrace => assert xs[7] == t;
    }
  }

  lemma MustHavesOrdered()
    ensures StrictlyAscending(MustHavesByValue, MustHaveValue)
    ensures forall m: MustHave :: m in MustHavesByValue
  {
    var xs := MustHavesByValue;
    forall i | 0 <= i < |xs| - 1 ensures LexLess(MustHaveValue(xs[i]), MustHaveValue(xs[i + 1])) {
    }
    AdjacentAscending(xs, MustHaveValue);
    forall m: MustHave ensures m in xs {
      match m
      case Auction => assert xs[0] == m;
      case Garden => assert xs[1] == m;
      case NewHome => assert xs[2] == m;
      case Parking => assert xs[3] == m;
      case Retirement => assert xs[4] == m;
      case SharedOwnership => assert xs[5] == m;
    }
  }

  lemma DontShowsOrdered()
    ensures StrictlyAscending(DontShowsByValue, DontShowValue)
    ensures forall d: DontShow :: d in DontShowsByValue
  {
    var xs := DontShowsByValue;
    forall i | 0 <= i < |xs| - 1 ensures LexLess(DontShowValue(xs[i]), DontShowValue(xs[i + 1])) {
    }
    AdjacentAscending(xs, DontShowValue);
    forall d: DontShow ensures d in xs {
      match d
      case NoNewHome => assert xs[0] == d;
      case NoRetirement => assert xs[1] == d;
      case NoSharedOwnership => assert xs[2] == d;
    }
  }

  lemma FurnishTypesOrdered()
    ensures StrictlyAscending(FurnishTypesByValue, FurnishTypeValue)
    ensures forall f: FurnishType :: f in FurnishTypesByValue
  {
    var xs := FurnishTypesByValue;
    forall i | 0 <= i < |xs| - 1 ensures LexLess(FurnishTypeValue(xs[i]), FurnishTypeValue(xs[i + 1])) {
    }
    AdjacentAscending(xs, FurnishTypeValue);
    forall f: FurnishType ensures f in xs {
      match f
      case Furnished => assert xs[0] == f;
      case PartFurnished => assert xs[1] == f;
      case Unfurnished => assert xs[2] == f;
    }
  }

  /** sorted(list(set), key=lambda x: x.value) for each option set: exactly the set's
      members, strictly ascending by value (so no duplicates, and one fixed order). */
  lemma SortedOptionLists(ts: set<PropertyType>, ms: set<MustHave>, ds: set<DontShow>, fs: set<FurnishType>)
    ensures StrictlyAscending(SelectInOrder(PropertyTypesByValue, ts), PropertyTypeValue)
    ensures forall t :: t in SelectInOrder(PropertyTypesByValue, ts) <==> t in ts
    ensures StrictlyAscending(SelectInOrder(MustHavesByValue, ms), MustHaveValue)
    ensures forall m :: m in SelectInOrder(MustHavesByValue, ms) <==> m in ms
    ensures StrictlyAscending(SelectInOrder(DontShowsByValue, ds), DontShowValue)
    ensures forall d :: d in SelectInOrder(DontShowsByValue, ds) <==> d in ds
    ensures StrictlyAscending(SelectInOrder(FurnishTypesByValue, fs), FurnishTypeValue)
    ensures forall f :: f in SelectInOrder(FurnishTypesByValue, fs) <==> f in fs
  {
    PropertyTypesOrdered();
    MustHavesOrdered();
    DontShowsOrdered();
    FurnishTypesOrdered();
    SelectInOrderAscending(PropertyTypesByValue, ts, PropertyTypeValue);
    SelectInOrderAscending(MustHavesByValue, ms, MustHaveValue);
    SelectInOrderAscending(DontShowsByValue, ds, DontShowValue);
    SelectInOrderAscending(FurnishTypesByValue, fs, FurnishTypeValue);
  }

  // ---------------------------------------------------------------------------
  // IntRange

  /** A bound range; an absent bound is no limit. */
  datatype IntRange = IntRange(min: Option<int>, max: Option<int>)
  {
    predicate Valid()
    {
      && (min.Some? ==> min.value >= 0)
      && (max.Some? ==> max.value >= 0)
      && (min.Some? && max.Some? ==> min.value <= max.value)
    }
  }

  datatype RangeError = NegativeMin | NegativeMax | MinAboveMax

  /** IntRange.__init__: the three checks in order, else the range as given. */
  function MakeIntRange(min: Option<int>, max: Option<int>): (r: Result<IntRange, RangeError>)
    ensures r.Success? <==> IntRange(min, max).Valid()
    ensures r.Success? ==> r.value == IntRange(min, max)
    ensures min.Some? && min.value < 0 ==> r == Failure(NegativeMin)
    ensures (min.None? || min.value >= 0) && max.Some? && max.value < 0 ==> r == Failure(NegativeMax)
    ensures && (min.None? || min.value >= 0) && (max.None? || max.value >= 0)
            && min.Some? && max.Some? && min.value > max.value
            ==> r == Failure(MinAboveMax)
  {
    if min.Some? && min.value < 0 then Failure(NegativeMin)
    else if max.Some? && max.value < 0 then Failure(NegativeMax)
    else if min.Some? && max.Some? && min.value > max.value then Failure(MinAboveMax)
    else Success(IntRange(min, max))
  }

  /** Every range that constructs with both bounds satisfies 0 <= min <= max. */
  lemma MadeRangeOrdered(min: int, max: int)
    requires MakeIntRange(Some(min), Some(max)).Success?
    ensures 0 <= min <= max
  {
  }

  // ---------------------------------------------------------------------------
  // URL, GeoLocation, Property

  datatype Url = Url(url: string, category: PurchaseCategory)
  {
    /** URL.value: the paging suffix when a page size is given. */
    function Value(index: Option<int>, perPage: Option<int>): (r: string)
      ensures IsPrefix(url, r)
      ensures r == url <==> perPage.None?
      ensures index.Some? && perPage.Some? ==>
                r == url + "&index=" + IntToString(index.value)
                         + "&numberOfPropertiesPerPage=" + IntToString(perPage.value)
      ensures index.None? && perPage.Some? ==>
                r == url + "&numberOfPropertiesPerPage=" + IntToString(perPage.value)
    {
      if index.Some? && perPage.Some? then
        url + "&index=" + IntToString(index.value) + "&numberOfPropertiesPerPage=" + IntToString(perPage.value)
      else if perPage.Some? && (index == Some(0) || index.None?) then
        url + "&numberOfPropertiesPerPage=" + IntToString(perPage.value)
      else url
    }
  }

  datatype GeoLocation = GeoLocation(latitude: real, longitude: real)

  const ListingBase := "https://www.rightmove.co.uk/properties/"

  datatype Property = Property(identifier: string, displayAddress: string, price: real,
                               geoLocation: GeoLocation, category: PurchaseCategory, imageUrl: string)
  {
    /** Property.href: the listing page, on the sale or the letting channel. */
    function Href(): (h: string)
      ensures IsPrefix(ListingBase + identifier, h)
      ensures IsSuffix("channel=RES_BUY", h) <==> category == Buy
      ensures IsSuffix("channel=RES_LET", h) <==> category == Rent
    {
      var channel := if category == Buy then "channel=RES_BUY" else "channel=RES_LET";
      var h := ListingBase + identifier + "#/?" + channel;
      assert h[|h| - |channel|..] == channel;
      assert category == Buy ==> h[|h| - |channel|..][12] == 'B';
      assert category == Rent ==> h[|h| - |channel|..][12] == 'L';
      assert (ListingBase + identifier + "#/?" + channel)[..|ListingBase + identifier|] == ListingBase + identifier;
      h
    }
  }

  // ---------------------------------------------------------------------------
  // SearchParameters

  datatype SearchError = NegativeRadius | NegativeMaxDays

  /** The abstract value of a SearchParameters object, as handed to the search engine. */
  datatype SearchState = SearchState(
    locationName: string, locationId: string, radius: real,
    minPrice: Option<int>, maxPrice: Option<int>, minBedrooms: Option<int>, maxBedrooms: Option<int>,
    maxDaysSinceAdded: Option<int>,
    propertyTypes: seq<PropertyType>, mustHave: seq<MustHave>, dontShow: seq<DontShow>,
    furnishTypes: seq<FurnishType>, category: PurchaseCategory)

  /** An absent bound is stored as "" and so renders as nothing. */
  function BoundText(b: Option<int>): (s: string)
    ensures s == "" <==> b.None?
  {
    if b.None? then "" else IntToString(b.value)
  }

  const SaleBase := "https://www.rightmove.co.uk/property-for-sale/find.html?"
  const RentBase := "https://www.rightmove.co.uk/property-to-rent/find.html?"

  function PropertyTypesText(ts: seq<PropertyType>): string
  {
    Join(seq(|ts|, i requires 0 <= i < |ts| => PropertyTypeValue(ts[i])), ",")
  }

  function MustHaveText(ms: seq<MustHave>): string
  {
    Join(seq(|ms|, i requires 0 <= i < |ms| => MustHaveValue(ms[i])), ",")
  }

  function DontShowText(ds: seq<DontShow>): string
  {
    Join(seq(|ds|, i requires 0 <= i < |ds| => DontShowValue(ds[i])), ",")
  }

  function FurnishTypesText(fs: seq<FurnishType>): string
  {
    Join(seq(|fs|, i requires 0 <= i < |fs| => FurnishTypeValue(fs[i])), ",")
  }

  /** The query parameters of a for-sale search, in the order the URL carries them. */
  function SaleQuery(st: SearchState, realText: real -> string): seq<(string, string)>
  {
    [("locationIdentifier", st.locationId), ("radius", realText(st.radius)),
     ("minPrice", BoundText(st.minPrice)), ("maxPrice", BoundText(st.maxPrice)),
     ("minBedrooms", BoundText(st.minBedrooms)), ("maxBedrooms", BoundText(st.maxBedrooms)),
     ("maxDaysSinceAdded", BoundText(st.maxDaysSinceAdded)),
     ("propertyTypes", PropertyTypesText(st.propertyTypes)), ("mustHave", MustHaveText(st.mustHave)),
     ("dontShow", DontShowText(st.dontShow))]
  }

  /** The query parameters of a to-rent search, in the order the URL carries them. */
  function RentQuery(st: SearchState, realText: real -> string): seq<(string, string)>
  {
    [("locationIdentifier", st.locationId), ("radius", realText(st.radius)),
     ("minBedrooms", BoundText(st.minBedrooms)), ("maxBedrooms", BoundText(st.maxBedrooms)),
     ("maxDaysSinceAdded", BoundText(st.maxDaysSinceAdded)),
     ("propertyTypes", PropertyTypesText(st.propertyTypes)), ("mustHave", MustHaveText(st.mustHave)),
     ("dontShow", DontShowText(st.dontShow)), ("furnishTypes", FurnishTypesText(st.furnishTypes))]
  }

  function Param(name: string, value: string): string
  {
    name + "=" + value + "&"
  }

  function QueryText(fields: seq<(string, string)>): string
  {
    if |fields| == 0 then "" else Param(fields[0].0, fields[0].1) + QueryText(fields[1..])
  }

  function Names(fields: seq<(string, string)>): seq<string>
  {
    seq(|fields|, i requires 0 <= i < |fields| => fields[i].0)
  }

  function SaleUrlText(st: SearchState, realText: real -> string): string
  {
    SaleBase + QueryText(SaleQuery(st, realText)) + "includeSSTC=false"
  }

  function RentUrlText(st: SearchState, realText: real -> string): string
  {
    RentBase + QueryText(RentQuery(st, realText)) + "includeLetAgreed=true"
  }

  /** A BUY search carries the price filters and no furnish filter, and ends includeSSTC=false;
      a RENT search is the same query with the two price filters removed and the furnish
      filter appended, and ends includeLetAgreed=true. So both searches share location,
      radius, bedrooms, age and type filters, with the same values. */
  lemma SaleAndRentQueries(st: SearchState, realText: real -> string)
    ensures "minPrice" in Names(SaleQuery(st, realText)) && "maxPrice" in Names(SaleQuery(st, realText))
    ensures "furnishTypes" !in Names(SaleQuery(st, realText))
    ensures "minPrice" !in Names(RentQuery(st, realText)) && "maxPrice" !in Names(RentQuery(st, realText))
    ensures "furnishTypes" in Names(RentQuery(st, realText))
    ensures RentQuery(st, realText) ==
              SaleQuery(st, realText)[..2] + SaleQuery(st, realText)[4..]
              + [("furnishTypes", FurnishTypesText(st.furnishTypes))]
    ensures IsSuffix("includeSSTC=false", SaleUrlText(st, realText))
    ensures IsSuffix("includeLetAgreed=true", RentUrlText(st, realText))
  {
    var sale := Names(SaleQuery(st, realText));
    var rent := Names(RentQuery(st, realText));
    assert sale[2] == "minPrice" && sale[3] == "maxPrice";
    assert rent[8] == "furnishTypes";
    var saleText := SaleUrlText(st, realText);
    assert saleText[|saleText| - |"includeSSTC=false"|..] == "includeSSTC=false";
    var rentText := RentUrlText(st, realText);
    assert rentText[|rentText| - |"includeLetAgreed=true"|..] == "includeLetAgreed=true";
  }

  /** Two states that differ only in their category give the same for-sale URL: the
      valuation cache key does not depend on which way the object was last toggled. */
  lemma SaleUrlIgnoresCategory(st: SearchState, realText: real -> string)
    ensures SaleUrlText(st.(category := Rent), realText) == SaleUrlText(st.(category := Buy), realText)
  {
  }

  class SearchParameters {
    var locationName: string
    var locationId: string
    var radius: real
    var minPrice: Option<int>
    var maxPrice: Option<int>
    var minBedrooms: Option<int>
    var maxBedrooms: Option<int>
    var maxDaysSinceAdded: Option<int>
    var propertyTypes: seq<PropertyType>
    var mustHave: seq<MustHave>
    var dontShow: seq<DontShow>
    var furnishTypes: seq<FurnishType>
    var purchaseCategory: PurchaseCategory

    /** What __init__ establishes and nothing afterwards breaks. */
    ghost predicate Valid()
      reads this
    {
      && radius >= 0.0
      && (maxDaysSinceAdded.Some? ==> maxDaysSinceAdded.value >= 0)
      && StrictlyAscending(propertyTypes, PropertyTypeValue)
      && StrictlyAscending(mustHave, MustHaveValue)
      && StrictlyAscending(dontShow, DontShowValue)
      && StrictlyAscending(furnishTypes, FurnishTypeValue)
    }

    function State(): SearchState
      reads this
    {
      SearchState(locationName, locationId, radius, minPrice, maxPrice, minBedrooms, maxBedrooms,
                  maxDaysSinceAdded, propertyTypes, mustHave, dontShow, furnishTypes, purchaseCategory)
    }

    /** The field assignments of __init__, once its checks have passed. */
    constructor (location: Location, radius: real, price: IntRange, bedrooms: IntRange,
                 maxDaysSinceAdded: Option<int>, propertyTypes: set<PropertyType>, mustHave: set<MustHave>,
                 dontShow: set<DontShow>, furnishTypes: set<FurnishType>, category: PurchaseCategory)
      requires radius >= 0.0
      requires maxDaysSinceAdded.Some? ==> maxDaysSinceAdded.value >= 0
      ensures Valid()
      ensures State() == SearchState(location.displayName, location.identifier, radius,
                                     price.min, price.max, bedrooms.min, bedrooms.max, maxDaysSinceAdded,
                                     SelectInOrder(PropertyTypesByValue, propertyTypes),
                                     SelectInOrder(MustHavesByValue, mustHave),
                                     SelectInOrder(DontShowsByValue, dontShow),
                                     SelectInOrder(FurnishTypesByValue, furnishTypes), category)
    {
      SortedOptionLists(propertyTypes, mustHave, dontShow, furnishTypes);
      this.locationName := location.displayName;
      this.locationId := location.identifier;
      this.radius := radius;
      this.minPrice := price.min;
      this.maxPrice := price.max;
      this.minBedrooms := bedrooms.min;
      this.maxBedrooms := bedrooms.max;
      this.maxDaysSinceAdded := maxDaysSinceAdded;
      this.propertyTypes := SelectInOrder(PropertyTypesByValue, propertyTypes);
      this.mustHave := SelectInOrder(MustHavesByValue, mustHave);
      this.dontShow := SelectInOrder(DontShowsByValue, dontShow);
      this.furnishTypes := SelectInOrder(FurnishTypesByValue, furnishTypes);
      this.purchaseCategory := category;
    }

    /** SearchParameters.__init__: a negative radius, then a negative age limit, raise. */
    static method Create(location: Location, radius: real, price: IntRange, bedrooms: IntRange,
                         maxDaysSinceAdded: Option<int>, propertyTypes: set<PropertyType>, mustHave: set<MustHave>,
                         dontShow: set<DontShow>, furnishTypes: set<FurnishType>, category: PurchaseCategory)
      returns (r: Result<SearchParameters, SearchError>)
      ensures radius < 0.0 ==> r == Failure(NegativeRadius)
      ensures radius >= 0.0 && maxDaysSinceAdded.Some? && maxDaysSinceAdded.value < 0 ==> r == Failure(NegativeMaxDays)
      ensures r.Success? <==> radius >= 0.0 && (maxDaysSinceAdded.Some? ==> maxDaysSinceAdded.value >= 0)
      ensures r.Success? ==> fresh(r.value) && r.value.Valid()
      ensures r.Success? ==> r.value.State() == SearchState(location.displayName, location.identifier, radius,
                                     price.min, price.max, bedrooms.min, bedrooms.max, maxDaysSinceAdded,
                                     SelectInOrder(PropertyTypesByValue, propertyTypes),
                                     SelectInOrder(MustHavesByValue, mustHave),
                                     SelectInOrder(DontShowsByValue, dontShow),
                                     SelectInOrder(FurnishTypesByValue, furnishTypes), category)
    {
      if radius < 0.0 {
        return Failure(NegativeRadius);
      }
      if maxDaysSinceAdded.Some? && maxDaysSinceAdded.value < 0 {
        return Failure(NegativeMaxDays);
      }
      var p := new SearchParameters(location, radius, price, bedrooms, maxDaysSinceAdded,
                                    propertyTypes, mustHave, dontShow, furnishTypes, category);
      r := Success(p);
    }

    /** to_buy: only the category changes, and the same object is returned. */
    method ToBuy() returns (self: SearchParameters)
      requires Valid()
      modifies this`purchaseCategory
      ensures self == this && Valid()
      ensures State() == old(State()).(category := Buy)
    {
      purchaseCategory := Buy;
      self := this;
    }

    /** to_rent: only the category changes, and the same object is returned. */
    method ToRent() returns (self: SearchParameters)
      requires Valid()
      modifies this`purchaseCategory
      ensures self == this && Valid()
      ensures State() == old(State()).(category := Rent)
    {
      purchaseCategory := Rent;
      self := this;
    }

    /** _url_property_for_sale: the URL grown one query parameter at a time. */
    method UrlPropertyForSale(realText: real -> string) returns (u: Url)
      ensures u.category == Buy
      ensures u.url == SaleUrlText(State(), realText)
    {
      var url := SaleBase;
      url := url + Param("locationIdentifier", locationId);
      url := url + Param("radius", realText(radius));
      url := url + Param("minPrice", BoundText(minPrice));
      url := url + Param("maxPrice", BoundText(maxPrice));
      url := url + Param("minBedrooms", BoundText(minBedrooms));
      url := url + Param("maxBedrooms", BoundText(maxBedrooms));
      url := url + Param("maxDaysSinceAdded", BoundText(maxDaysSinceAdded));
      url := url + Param("propertyTypes", PropertyTypesText(propertyTypes));
      url := url + Param("mustHave", MustHaveText(mustHave));
      url := url + Param("dontShow", DontShowText(dontShow));
      url := url + "includeSSTC=false";
      SaleUrlSpelledOut(State(), realText);
      u := Url(url, Buy);
    }

    /** _url_property_to_rent: the URL grown one query parameter at a time. */
    method UrlPropertyToRent(realText: real -> string) returns (u: Url)
      ensures u.category == Rent
      ensures u.url == RentUrlText(State(), realText)
    {
      var url := RentBase;
      url := url + Param("locationIdentifier", locationId);
      url := url + Param("radius", realText(radius));
      url := url + Param("minBedrooms", BoundText(minBedrooms));
      url := url + Param("maxBedrooms", BoundText(maxBedrooms));
      url := url + Param("maxDaysSinceAdded", BoundText(maxDaysSinceAdded));
      url := url + Param("propertyTypes", PropertyTypesText(propertyTypes));
      url := url + Param("mustHave", MustHaveText(mustHave));
      url := url + Param("dontShow", DontShowText(dontShow));
      url := url + Param("furnishTypes", FurnishTypesText(furnishTypes));
      url := url + "includeLetAgreed=true";
      RentUrlSpelledOut(State(), realText);
      u := Url(url, Rent);
    }

    /** to_url: the builder for the current category; the URL's category is the object's. */
    method ToUrl(realText: real -> string) returns (u: Url)
      ensures u.category == purchaseCategory
      ensures u.url == if purchaseCategory == Buy then SaleUrlText(State(), realText)
                       else RentUrlText(State(), realText)
    {
      if purchaseCategory == Buy {
        u := UrlPropertyForSale(realText);
      } else {
        u := UrlPropertyToRent(realText);
      }
    }
  }

  /** Appending a parameter to a query appends its text to the query's text. */
  lemma {:induction false} QueryTextSnoc(fields: seq<(string, string)>, name: string, value: string)
    ensures QueryText(fields + [(name, value)]) == QueryText(fields) + Param(name, value)
  {
    if |fields| == 0 {
      assert fields + [(name, value)] == [(name, value)];
    } else {
      assert (fields + [(name, value)])[1..] == fields[1..] + [(name, value)];
      QueryTextSnoc(fields[1..], name, value);
    }
  }

  /** One `url += f"name=value&"` step of a builder: a URL holding the first k parameters
      of a query, extended by the next one, holds the first k + 1. */
  lemma ExtendQuery(base: string, q: seq<(string, string)>, k: nat, url: string, name: string, value: string)
    requires k < |q| && q[k] == (name, value) && url == base + QueryText(q[..k])
    ensures url + Param(name, value) == base + QueryText(q[..k + 1])
  {
    assert q[..k + 1] == q[..k] + [(name, value)];
    QueryTextSnoc(q[..k], name, value);
  }

  /** The for-sale URL written out one parameter at a time, in the order the builder appends them. */
  lemma SaleUrlSpelledOut(st: SearchState, realText: real -> string)
    ensures SaleUrlText(st, realText) ==
              SaleBase
              + Param("locationIdentifier", st.locationId)
              + Param("radius", realText(st.radius))
              + Param("minPrice", BoundText(st.minPrice))
              + Param("maxPrice", BoundText(st.maxPrice))
              + Param("minBedrooms", BoundText(st.minBedrooms))
              + Param("maxBedrooms", BoundText(st.maxBedrooms))
              + Param("maxDaysSinceAdded", BoundText(st.maxDaysSinceAdded))
              + Param("propertyTypes", PropertyTypesText(st.propertyTypes))
              + Param("mustHave", MustHaveText(st.mustHave))
              + Param("dontShow", DontShowText(st.dontShow))
              + "includeSSTC=false"
  {
    var q := SaleQuery(st, realText);
    var url := SaleBase;
    assert q[..0] == [];
    ExtendQuery(SaleBase, q, 0, url, "locationIdentifier", st.locationId);
    url := url + Param("locationIdentifier", st.locationId);
    ExtendQuery(SaleBase, q, 1, url, "radius", realText(st.radius));
    url := url + Param("radius", realText(st.radius));
    ExtendQuery(SaleBase, q, 2, url, "minPrice", BoundText(st.minPrice));
    url := url + Param("minPrice", BoundText(st.minPrice));
    ExtendQuery(SaleBase, q, 3, url, "maxPrice", BoundText(st.maxPrice));
    url := url + Param("maxPrice", BoundText(st.maxPrice));
    ExtendQuery(SaleBase, q, 4, url, "minBedrooms", BoundText(st.minBedrooms));
    url := url + Param("minBedrooms", BoundText(st.minBedrooms));
    ExtendQuery(SaleBase, q, 5, url, "maxBedrooms", BoundText(st.maxBedrooms));
    url := url + Param("maxBedrooms", BoundText(st.maxBedrooms));
    ExtendQuery(SaleBase, q, 6, url, "maxDaysSinceAdded", BoundText(st.maxDaysSinceAdded));
    url := url + Param("maxDaysSinceAdded", BoundText(st.maxDaysSinceAdded));
    ExtendQuery(SaleBase, q, 7, url, "propertyTypes", PropertyTypesText(st.propertyTypes));
    url := url + Param("propertyTypes", PropertyTypesText(st.propertyTypes));
    ExtendQuery(SaleBase, q, 8, url, "mustHave", MustHaveText(st.mustHave));
    url := url + Param("mustHave", MustHaveText(st.mustHave));
    ExtendQuery(SaleBase, q, 9, url, "dontShow", DontShowText(st.dontShow));
    url := url + Param("dontShow", DontShowText(st.dontShow));
    assert q[..10] == q;
  }

  /** The to-rent URL written out one parameter at a time, in the order the builder appends them. */
  lemma RentUrlSpelledOut(st: SearchState, realText: real -> string)
    ensures RentUrlText(st, realText) ==
              RentBase
              + Param("locationIdentifier", st.locationId)
              + Param("radius", realText(st.radius))
              + Param("minBedrooms", BoundText(st.minBedrooms))
              + Param("maxBedrooms", BoundText(st.maxBedrooms))
              + Param("maxDaysSinceAdded", BoundText(st.maxDaysSinceAdded))
              + Param("propertyTypes", PropertyTypesText(st.propertyTypes))
              + Param("mustHave", MustHaveText(st.mustHave))
              + Param("dontShow", DontShowText(st.dontShow))
              + Param("furnishTypes", FurnishTypesText(st.furnishTypes))
              + "includeLetAgreed=true"
  {
    var q := RentQuery(st, realText);
    var url := RentBase;
    assert q[..0] == [];
    ExtendQuery(RentBase, q, 0, url, "locationIdentifier", st.locationId);
    url := url + Param("locationIdentifier", st.locationId);
    ExtendQuery(RentBase, q, 1, url, "radius", realText(st.radius));
    url := url + Param("radius", realText(st.radius));
    ExtendQuery(RentBase, q, 2, url, "minBedrooms", BoundText(st.minBedrooms));
    url := url + Param("minBedrooms", BoundText(st.minBedrooms));
    ExtendQuery(RentBase, q, 3, url, "maxBedrooms", BoundText(st.maxBedrooms));
    url := url + Param("maxBedrooms", BoundText(st.maxBedrooms));
    ExtendQuery(RentBase, q, 4, url, "maxDaysSinceAdded", BoundText(st.maxDaysSinceAdded));
    url := url + Param("maxDaysSinceAdded", BoundText(st.maxDaysSinceAdded));
    ExtendQuery(RentBase, q, 5, url, "propertyTypes", PropertyTypesText(st.propertyTypes));
    url := url + Param("propertyTypes", PropertyTypesText(st.propertyTypes));
    ExtendQuery(RentBase, q, 6, url, "mustHave", MustHaveText(st.mustHave));
    url := url + Param("mustHave", MustHaveText(st.mustHave));
    ExtendQuery(RentBase, q, 7, url, "dontShow", DontShowText(st.dontShow));
    url := url + Param("dontShow", DontShowText(st.dontShow));
    ExtendQuery(RentBase, q, 8, url, "furnishTypes", FurnishTypesText(st.furnishTypes));
    url := url + Param("furnishTypes", FurnishTypesText(st.furnishTypes));
    assert q[..9] == q;
  }

  // ---------------------------------------------------------------------------
  // Paging of _fetch_properties

  const MaxPropertyCount: nat := 1000
  const MaxPropertiesPerPage: nat := 499

  function Capped(count: nat): nat
  {
    if count < MaxPropertyCount then count else MaxPropertyCount
  }

  /** len(range(0, Capped(count), 499)) */
  function PageCount(count: nat): nat
  {
    (Capped(count) + MaxPropertiesPerPage - 1) / MaxPropertiesPerPage
  }

  /** The page URLs requested, one per start index 0, 499, 998, ... below the capped count. */
  function PageUrls(url: Url, count: nat): seq<string>
  {
    seq(PageCount(count), k requires 0 <= k < PageCount(count) =>
      url.Value(Some(k * MaxPropertiesPerPage), Some(MaxPropertiesPerPage)))
  }

  /** Page start indices are exactly those of range(0, min(count, 1000), 499): every page
      starts below the capped count, the next start would not, and there are at most three. */
  lemma PageCountIsCeiling(count: nat)
    ensures forall k :: 0 <= k < PageCount(count) ==> k * MaxPropertiesPerPage < Capped(count)
    ensures PageCount(count) * MaxPropertiesPerPage >= Capped(count)
    ensures PageCount(count) == 0 <==> count == 0
    ensures PageCount(count) <= 3
  {
  }

  /** The pages' listings concatenated in page order; the first failing page's error otherwise. */
  function Gather(urls: seq<string>, category: PurchaseCategory,
                  fetchPage: (string, PurchaseCategory) -> Result<seq<Property>, FetchError>)
    : Result<seq<Property>, FetchError>
  {
    if |urls| == 0 then Success([])
    else match fetchPage(urls[0], category)
      case Failure(e) => Failure(e)
      case Success(ps) => Prefixed(ps, Gather(urls[1..], category, fetchPage))
  }

  /** _fetch_properties once the result count is known: cap it at 1000 and fetch
      499-listing pages from index 0 until the count is covered. */
  method FetchProperties(url: Url, propertyCount: nat,
                         fetchPage: (string, PurchaseCategory) -> Result<seq<Property>, FetchError>)
    returns (r: Result<seq<Property>, FetchError>)
    ensures r == Gather(PageUrls(url, propertyCount), url.category, fetchPage)
  {
    var properties: seq<Property> := [];
    var count := Capped(propertyCount);
    var index := 0;
    ghost var k := 0;
    ghost var urls := PageUrls(url, propertyCount);
    PrefixedNil(Gather(urls, url.category, fetchPage));
    while index < count
      invariant index == k * MaxPropertiesPerPage && 0 <= k <= |urls|
      invariant k < |urls| <==> index < count
      invariant Gather(urls, url.category, fetchPage) == Prefixed(properties, Gather(urls[k..], url.category, fetchPage))
    {
      var page := url.Value(Some(index), Some(MaxPropertiesPerPage));
      assert urls[k..][0] == page && urls[k..][1..] == urls[k + 1..];
      var got := fetchPage(page, url.category);
      if got.Failure? {
        return Failure(got.error);
      }
      PrefixedAssoc(properties, got.value, Gather(urls[k + 1..], url.category, fetchPage));
      properties := properties + got.value;
      index := index + MaxPropertiesPerPage;
      k := k + 1;
    }
    assert urls[k..] == [];
    assert properties + [] == properties;
    r := Success(properties);
  }

  // ---------------------------------------------------------------------------
  // Listing payload codec

  function GeoToJson(g: GeoLocation): Json
  {
    JObj(map["latitude" := JNum(g.latitude), "longitude" := JNum(g.longitude)])
  }

  /** The keys of a serialised listing, as _convert_properties_to_payload writes them. */
  function ListingFields(p: Property): map<string, Json>
  {
    map["identifier" := JStr(p.identifier),
        "display_address" := JStr(p.displayAddress),
        "price" := JNum(p.price),
        "geo_location" := GeoToJson(p.geoLocation),
        "purchase_category" := JStr(CategoryValue(p.category)),
        "image_url" := JStr(p.imageUrl)]
  }

  function PropertyToJson(p: Property): Json
  {
    JObj(ListingFields(p))
  }

  const LeadingListingKeys: seq<string> := ["identifier", "display_address", "price", "geo_location"]
  const GeoKeys: seq<string> := ["latitude", "longitude"]
  const TrailingPropertyKeys: seq<string> := ["purchase_category", "image_url"]

  /** The key checks of a listing decoder, in the Python implementation's order: the leading keys, the two
      coordinates inside geo_location, then the decoder's trailing keys. A geo_location that
      is not an object cannot be indexed by key, which the Python implementation reports by raising. */
  function ListingKeysError(f: map<string, Json>, trailing: seq<string>): (e: Option<DecodeError>)
    ensures e.None? ==> (forall k :: k in LeadingListingKeys ==> k in f)
                        && f["geo_location"].JObj?
                        && (forall k :: k in GeoKeys ==> k in f["geo_location"].fields)
                        && (forall k :: k in trailing ==> k in f)
    ensures FirstMissing(f, LeadingListingKeys).Some? ==>
              e == Some(MissingKey(FirstMissing(f, LeadingListingKeys).value))
  {
    match FirstMissing(f, LeadingListingKeys)
    case Some(k) => Some(MissingKey(k))
    case None =>
      if !f["geo_location"].JObj? then Some(WrongType("geo_location"))
      else match FirstMissing(f["geo_location"].fields, GeoKeys)
        case Some(k) => Some(MissingKey(k))
        case None =>
          match FirstMissing(f, trailing)
          case Some(k) => Some(MissingKey(k))
          case None => None
  }

  /** Builds the Property once the key checks have passed. */
  function ListingFromFields(f: map<string, Json>): Result<Property, DecodeError>
    requires "geo_location" in f && f["geo_location"].JObj?
  {
    var g := f["geo_location"].fields;
    match GetString(f, "identifier")
    case Failure(e) => Failure(e)
    case Success(id) =>
      match GetString(f, "display_address")
      case Failure(e) => Failure(e)
      case Success(address) =>
        match GetNumber(f, "price")
        case Failure(e) => Failure(e)
        case Success(price) =>
          match GetNumber(g, "latitude")
          case Failure(e) => Failure(e)
          case Success(lat) =>
            match GetNumber(g, "longitude")
            case Failure(e) => Failure(e)
            case Success(lon) =>
              match GetString(f, "purchase_category")
              case Failure(e) => Failure(e)
              case Success(cat) =>
                match CategoryFromValue(cat)
                case Failure(e) => Failure(e)
                case Success(category) =>
                  match GetString(f, "image_url")
                  case Failure(e) => Failure(e)
                  case Success(image) =>
                    Success(Property(id, address, price, GeoLocation(lat, lon), category, image))
  }

  /** One element of _convert_payload_to_properties. */
  function PropertyFromJson(j: Json): (r: Result<Property, DecodeError>)
    ensures !j.JObj? ==> r == Failure(NotAnObject)
    ensures j.JObj? && ListingKeysError(j.fields, TrailingPropertyKeys).Some? ==>
              r == Failure(ListingKeysError(j.fields, TrailingPropertyKeys).value)
  {
    if !j.JObj? then Failure(NotAnObject)
    else match ListingKeysError(j.fields, TrailingPropertyKeys)
      case Some(e) => Failure(e)
      case None => ListingFromFields(j.fields)
  }

  /** An object carrying a listing's serialised fields (and perhaps more) passes every key
      check whose trailing keys it holds. */
  lemma ListingFieldsComplete(p: Property, f: map<string, Json>, trailing: seq<string>)
    requires forall k :: k in ListingFields(p) ==> k in f && f[k] == ListingFields(p)[k]
    requires forall k :: k in trailing ==> k in f
    ensures ListingKeysError(f, trailing).None?
  {
    var l := ListingFields(p);
    assert "identifier" in l && "display_address" in l && "price" in l && "geo_location" in l;
    assert FirstMissing(f, LeadingListingKeys).None?;
    assert f["geo_location"] == GeoToJson(p.geoLocation);
    assert FirstMissing(f["geo_location"].fields, GeoKeys).None?;
  }

  /** Any object carrying a listing's serialised fields (and perhaps more) decodes to that listing. */
  lemma ListingFieldsDecode(p: Property, f: map<string, Json>)
    requires forall k :: k in ListingFields(p) ==> k in f && f[k] == ListingFields(p)[k]
    ensures "geo_location" in f && f["geo_location"].JObj?
    ensures ListingFromFields(f) == Success(p)
  {
    var l := ListingFields(p);
    assert "identifier" in l && "display_address" in l && "price" in l && "geo_location" in l;
    assert "purchase_category" in l && "image_url" in l;
    assert f["geo_location"] == GeoToJson(p.geoLocation);
    assert CategoryFromValue(CategoryValue(p.category)) == Success(p.category);
  }

  lemma PropertyRoundTrip(p: Property)
    ensures PropertyFromJson(PropertyToJson(p)) == Success(p)
  {
    ListingFieldsComplete(p, ListingFields(p), TrailingPropertyKeys);
    ListingFieldsDecode(p, ListingFields(p));
  }

  /** Deserialising a serialised listing list reproduces every field of every listing. */
  lemma {:induction false} PropertiesPayloadRoundTrip(ps: seq<Property>)
    ensures DecodeList(JArr(EncodeAll(ps, PropertyToJson)), PropertyFromJson) == Success(ps)
  {
    forall p: Property ensures PropertyFromJson(PropertyToJson(p)) == Success(p) {
      PropertyRoundTrip(p);
    }
    DecodeEncodeList(ps, PropertyToJson, PropertyFromJson);
  }
}
