# Rightmove buy-to-let valuation — a Dafny model

The system searches Rightmove for homes for sale and homes to let around a location.
It estimates the monthly rent each sale listing would fetch by interpolating the asking
rents of nearby lettings, after dropping outlying rents with an interquartile-range
filter. It scores every sale listing by its return on investment under the investor's
mortgage and deposit terms, and ranks the listings, highest return first. Location
autocomplete answers and valuation rankings are kept in a Redis cache for 30 minutes.

The model covers:

- the search parameters object and its two URL builders;
- the paging loop that collects listings;
- the type-ahead URL of the location lookup;
- the JSON payload codecs of locations, listings and valuations;
- the two cache-aside flows (location lookup, ranking);
- the outlier filter, the sample surface, the rent estimate, the score and the ranking.

Modules:

- `Common` — Option, Result, the error of an outside fetch, and `Prefixed`, the result of
  putting a list in front of a list-or-error.
- `Text` — integer formatting, `Join`, lexicographic order, prefix and suffix predicates.
- `Payload` — decoded JSON values and the generic list codec loops.
- `KeyValueCache` — the cache (`Cache` class): reads, writes with expiry, and failures.
- `Locations` — src/location.py.
- `Search` — src/search.py.
- `Outliers` — remove_outliers and numpy's linear percentile.
- `Scoring` — ValuationParameters and get_score, with the amortisation behind it.
- `Ranking` — the stable descending sort.
- `Valuations` — the ValuationEngine of src/valuation.py.

Several outside pieces are inputs of the model:

- The network (`fetch`, `find`, `fetchPage`).
- scipy's griddata (`griddata: Interpolator`).
- Python's float-to-text conversion (`realText`).
- Unicode case mapping (`upper`, `lower`) and percent-encoding (`quote`).
- The clock (`now`, in seconds).
- Redis failures (`Faults`).

## Model

| member | source | states |
|---|---|---|
| KeyValueCache.Cache.Get | src/cache.py:23-32 | a read returns the stored payload while the entry is unexpired, nothing otherwise, and "unavailable" when the store raises |
| KeyValueCache.Cache.Set | src/cache.py:34-38 | a write stores the payload with expiry now + ttl under the key and changes no other key; a failed write changes nothing |
| KeyValueCache.SetThenLookup | src/cache.py:34-38 | after a write, the key reads back the payload for exactly ttl seconds, then reads as missing |
| KeyValueCache.SetLeavesOtherKeys | src/cache.py:34-38 | a write to one key leaves every read of every other key unchanged |
| KeyValueCache.CachedList | src/location.py:43-51 | the cache answers only when the read hit and the payload passed the converter's checks; anything else falls through to the fetch |
| Payload.EncodeList | src/location.py:88-96 | the to-payload loop yields a JSON list with one object per record, in record order |
| Payload.DecodeListLoop | src/location.py:67-86 | the from-payload loop gives exactly DecodeList: not-a-list fails, the first bad element's error is returned, otherwise one record per element in order |
| Payload.DecodeAllSound | src/location.py:71-86 | a successful decode has as many records as elements, each decoded from its own element |
| Payload.DecodeAllFailure | src/location.py:72-80 | decoding fails with the error of the first element that fails, whatever follows it |
| Payload.DecodeAllComplete | src/location.py:72-80 | when every element decodes, the list decodes, with one record per element |
| Payload.DecodeEncodeList | src/location.py:67-96 | given a per-record round trip, decoding an encoded list gives back the same list |
| Locations.LocationFromJson | src/location.py:72-85 | a non-object element is rejected; a missing key is reported as the first missing of display_name, identifier, normalised_name |
| Locations.LocationRoundTrip | src/location.py:67-96 | a serialised location decodes back to itself |
| Locations.LocationsPayloadRoundTrip | src/location.py:67-96 | a serialised location list decodes back to the same list |
| Locations.SplitPairs | src/location.py:109-114 | the chunking loop returns the input's consecutive two-character chunks, with a one-character chunk for an odd tail |
| Locations.PairsConcat | src/location.py:109-114 | the chunks concatenate back to the string they were cut from |
| Locations.PairsShape | src/location.py:109-114 | there are ceil(n/2) chunks; all have length 2 except the last, which has length 1 exactly when n is odd |
| Locations.ConstructUrl | src/location.py:98-120 | the URL is the type-ahead prefix followed by the encoded chunks of the upper-cased input, joined by "/" |
| Locations.ConstructUrlChunks | src/location.py:105-114 | the chunks of the upper-cased input, from which the URL is built, concatenate back to it, and there are ceil(n/2) of them |
| Locations.LocationKey | src/location.py:39 | the key starts with "location:" and the lower-cased input can be read back from it |
| Locations.SameKeyIffSameLowered | src/location.py:39 | two inputs share a cache entry if and only if their lower-cased forms are equal |
| Locations.LocationEngine.FindLocations | src/location.py:32-65 | a hit with a well-formed payload is returned and nothing is fetched or written; otherwise the fetch's answer is returned; a failed fetch leaves the cache alone; a successful one is stored for 30 minutes unless the write fails |
| Search.CategoryFromValue | src/search.py:66-68 | only "buy" and "rent" name a category, and the category found has that value |
| Search.SelectInOrder | src/search.py:181-184 | the selected list holds exactly the chosen members |
| Search.SelectInOrderAscending | src/search.py:181-184 | selecting from a list in ascending value order keeps it strictly ascending |
| Search.PropertyTypesOrdered | src/search.py:14-22 | the property types listed by value are strictly ascending and cover every type |
| Search.MustHavesOrdered | src/search.py:37-43 | the must-have features listed by value are strictly ascending and cover every feature |
| Search.DontShowsOrdered | src/search.py:46-49 | the excluded features listed by value are strictly ascending and cover every one |
| Search.FurnishTypesOrdered | src/search.py:53-56 | the furnish types listed by value are strictly ascending and cover every type |
| Search.SortedOptionLists | src/search.py:181-184 | every option list the constructor stores holds exactly the chosen set's members, strictly ascending by value |
| Search.MakeIntRange | src/search.py:77-85 | a range constructs exactly when both bounds are non-negative and min <= max; a negative min is reported first, then a negative max, then a min above the max |
| Search.MadeRangeOrdered | src/search.py:77-85 | every range that constructs with both bounds satisfies 0 <= min <= max |
| Search.Url.Value | src/search.py:99-104 | the URL comes back unchanged exactly when no page size is given; otherwise the paging parameters are appended |
| Search.Property.Href | src/search.py:143-146 | the link starts with the listing page of the identifier and ends with the sale channel if and only if the listing is for sale |
| Search.BoundText | src/search.py:176-180 | an absent bound renders as the empty string, and only an absent bound does |
| Search.SearchParameters.constructor | src/search.py:173-185 | the fields are the location's name and id, the bounds as given, and each option set as its members in value order; the object is valid |
| Search.SearchParameters.Create | src/search.py:156-185 | a negative radius raises, then a negative age limit raises; otherwise a fresh valid object with those fields |
| Search.SearchParameters.ToBuy | src/search.py:187-189 | only the category changes, to BUY, and the same object is returned |
| Search.SearchParameters.ToRent | src/search.py:191-193 | only the category changes, to RENT, and the same object is returned |
| Search.SearchParameters.UrlPropertyForSale | src/search.py:203-216 | the builder's URL is the sale base, the sale query's parameters in order, then includeSSTC=false; its category is BUY |
| Search.SearchParameters.UrlPropertyToRent | src/search.py:218-230 | the builder's URL is the letting base, the rent query's parameters in order, then includeLetAgreed=true; its category is RENT |
| Search.SearchParameters.ToUrl | src/search.py:195-201 | the URL is the one for the object's current category and carries that category |
| Search.QueryTextSnoc | src/search.py:205-214 | appending one parameter to a query appends its `name=value&` text to the query's text |
| Search.ExtendQuery | src/search.py:205-214 | a URL holding the first k parameters of a query, extended by the next one, holds the first k+1 |
| Search.SaleUrlSpelledOut | src/search.py:203-216 | the for-sale URL is the base followed, in order, by every search parameter and the fixed `includeSSTC=false` |
| Search.RentUrlSpelledOut | src/search.py:218-230 | the to-rent URL is the base followed, in order, by every search parameter the rental page takes and the fixed `includeLetAgreed=true` |
| Search.SaleAndRentQueries | src/search.py:203-230 | a sale search carries the price filters and no furnish filter; a letting search is the same query without the price filters and with the furnish filter |
| Search.SaleUrlIgnoresCategory | src/search.py:203-216 | the for-sale URL does not depend on the object's current category |
| Search.PageCountIsCeiling | src/search.py:288-292 | the page starts are those of range(0, min(count, 1000), 499): each start is below the capped count, the pages cover it, there are none for a count of 0, and at most three |
| Search.FetchProperties | src/search.py:281-295 | the paging loop returns the pages' listings concatenated in page order, or the first failing page's error |
| Search.ListingKeysError | src/search.py:434-451 | when no key is missing, every leading key, both coordinates and every trailing key are present; a missing leading key is reported first |
| Search.PropertyFromJson | src/search.py:433-451 | a non-object element is rejected, and a missing key is reported in the order the decoder checks keys |
| Search.ListingFieldsComplete | src/search.py:467-482 | a serialised listing passes all the key checks |
| Search.ListingFieldsDecode | src/search.py:452-464 | any object carrying a listing's serialised fields, and perhaps more, decodes to that listing |
| Search.PropertyRoundTrip | src/search.py:427-482 | a serialised listing decodes back to itself |
| Search.PropertiesPayloadRoundTrip | src/search.py:427-482 | a serialised listing list decodes back to the same list, every field of every listing included |
| Outliers.Percentile | src/valuation.py:287-288 | numpy's linear percentile of a sorted sample lies between its smallest and largest value |
| Outliers.PercentileBracket | src/valuation.py:287-288 | an element at or below the percentile's index is at most the percentile; one at or above it is at least the percentile |
| Outliers.QuartilesOrdered | src/valuation.py:287-289 | the lower quartile never exceeds the upper one, so the interquartile range is never negative |
| Outliers.KeepWithin | src/valuation.py:292 | the filter keeps exactly the values within the bounds, never more often than they occur |
| Outliers.KeepWithinCounts | src/valuation.py:292 | each value inside the bounds keeps all its occurrences; each value outside keeps none |
| Outliers.KeepWithinAppend | src/valuation.py:292 | filtering distributes over concatenation, so survivors keep their input order |
| Outliers.RemoveOutliers | src/valuation.py:282-292 | the output holds exactly the input values within threshold interquartile ranges outside the quartiles |
| Outliers.ElementWithinBounds | src/valuation.py:287-291 | for a threshold of at least one half, some element of the sorted sample lies within the bounds |
| Outliers.SomeValueSurvives | src/valuation.py:282-292 | for a threshold of at least one half (the default is 1.5), a non-empty sample keeps at least one value |
| Scoring.ReprInjective | src/valuation.py:36-48 | the repr names every parameter: if float formatting tells rates apart and writes no comma, equal reprs mean equal parameters |
| Scoring.PowInt | src/valuation.py:173 | math.pow with an integer exponent fails only for zero to a negative power, and then with a domain error |
| Scoring.Principal | src/valuation.py:168 | the borrowed amount is the price above the maximum deposit, and never negative |
| Scoring.Degeneracy | src/valuation.py:166-178 | a zero rate is reported first; with a non-zero rate and a zero cost there is an error; no error means rate and cost are non-zero |
| Scoring.Round2 | src/valuation.py:180 | the rounded value is within half a hundredth of the input and is a whole number of hundredths |
| Scoring.Round2Exact | src/valuation.py:180 | an amount already in whole hundredths is unchanged by rounding |
| Scoring.Score | src/valuation.py:158-181 | scoring fails exactly when the parameters are degenerate, with that error; otherwise the score is, to within half a hundredth, 100 × the yearly net income over the cash put in |
| Scoring.ScoreFailureIndependent | src/valuation.py:166-178 | whether scoring fails, and with which error, does not depend on the listing's price or rent |
| Scoring.ScoreIgnoresMinDeposit | src/valuation.py:158-181 | the minimum deposit plays no part in the score |
| Scoring.ZeroLengthIsFatal | src/valuation.py:173 | with a non-zero rate, a mortgage of length zero divides by zero |
| Scoring.BalanceClosedForm | src/valuation.py:173 | the balance after k payments follows the annuity closed form |
| Scoring.PaymentRepaysLoan | src/valuation.py:166-173 | paying the monthly mortgage every month for the whole term leaves nothing owed |
| Ranking.SortDesc | src/valuation.py:147 | the result is sorted by decreasing key and is a permutation of the input |
| Ranking.SortDescStable | src/valuation.py:147 | records with equal keys keep their input order |
| Ranking.RankingExample | src/valuation.py:147 | returns 9.1, 5.0, 9.1 rank as the first, the third, the second |
| Valuations.ValuationFromJson | src/valuation.py:189-211 | a non-object element is rejected, and a missing key is reported in the order the decoder checks keys |
| Valuations.ValuationRoundTrip | src/valuation.py:183-248 | a serialised valuation decodes back to itself |
| Valuations.ValuationsPayloadRoundTrip | src/valuation.py:183-248 | a serialised valuation list decodes back to the same list |
| Valuations.PricedAmong | src/valuation.py:122 | a rental is kept exactly when its price is among the surviving prices |
| Valuations.KeptRentals | src/valuation.py:120-123 | at least one rental is kept, and never more than there were |
| Valuations.SomeRentalKept | src/valuation.py:120-123 | filtering a non-empty rental list by its price outliers leaves some rental |
| Valuations.KeptRentalsWithinBounds | src/valuation.py:120-123 | a rental is kept if and only if its price lies within the outlier bounds of all the rental prices |
| Valuations.MinOf | src/valuation.py:129-130 | the minimum is a member and no member is below it |
| Valuations.MaxOf | src/valuation.py:129-130 | the maximum is a member and no member is above it |
| Valuations.MeanWithinRange | src/valuation.py:133 | the mean price lies between the cheapest and the dearest rental |
| Valuations.SurfaceOf | src/valuation.py:125-134 | there are four more samples than kept rentals, with a point and a value for each |
| Valuations.SurfaceShape | src/valuation.py:125-134 | each rental gives its (longitude, latitude) and price in order; the last four points are the bounding-box corners, which enclose every rental, each valued at the mean price |
| Valuations.EstimateRent | src/valuation.py:149-156 | the estimated rent is the interpolated value where there is one, the mean rent otherwise |
| Valuations.SingleRentalSurface | src/valuation.py:116-156 | a single rental survives the filter; the surface is five samples at its location valued at its price, so the estimate is that price wherever griddata gives no answer |
| Valuations.Appraise | src/valuation.py:136-145 | of get_score's errors, only the division by zero escapes the valuation loop; its ValueErrors skip the purchase |
| Valuations.AppraiseOutcome | src/valuation.py:136-145 | the loop values every purchase in order, skips every purchase, or raises, depending on the parameters alone |
| Valuations.Valuate | src/valuation.py:116-147 | no rentals or no purchases give no valuations; otherwise the valuations come highest return first, and of get_score's errors only the division by zero escapes |
| Valuations.ValuateRanksAppraisals | src/valuation.py:136-147 | the ranking holds exactly the appraised purchases, and purchases with equal returns stay in listing order |
| Valuations.ValuationKeyPrefix | src/valuation.py:84-86 | the key starts with "valuation:" and the for-sale URL of the search |
| Valuations.ValuationKeySeparatesParameters | src/valuation.py:84-86 | for one search, equal keys mean equal valuation parameters, so a cached ranking is never served for other terms |
| Valuations.ValuationKeyIgnoresCategory | src/valuation.py:85-86 | the key does not depend on the search's category before the call |
| Valuations.ValuationEngine.GetValuation | src/valuation.py:116-147 | the loop's result is Valuate; the engine records the sample surface of the kept rentals, or nothing on the early return |
| Valuations.ValuationEngine.ValueAndStore | src/valuation.py:104-114 | the ranking is returned and stored for 30 minutes unless the write fails; a scoring failure stores nothing |
| Valuations.ValuationEngine.Recompute | src/valuation.py:100-114 | the letting search runs first, then the sale search; a failed search is returned and nothing is stored; the search object ends on the category of the last search made |
| Valuations.ValuationEngine.RankProperties | src/valuation.py:78-114 | a cached, well-formed ranking is returned without searching, with the object set to BUY; otherwise both searches are made and the ranking recomputed and stored |
| Valuations.Ranked | src/valuation.py:104-114 | a ranking succeeds exactly when the valuation does, with the same list, and a scoring failure is passed on |
| Valuations.CachedRanking | src/valuation.py:90-98 | a ranking comes from the cache only if the read succeeded, the entry is unexpired and its payload decodes to that ranking |
| Valuations.StoredAfter | src/valuation.py:105-112 | a successful ranking is readable under the key after storing; a failure or a failed write leaves the cache as it was |
| Valuations.StoredRankingReadsBack | src/valuation.py:84-114 | a stored ranking is returned from the cache, unchanged, for the next 30 minutes |

## Left out

- JSON text is not modelled. Payloads are decoded JSON values (`Json`). The cache's own `json.loads` and the converters' `json.dumps`/`json.loads` are therefore not modelled, and neither is the double encoding this leads to.
- Python's `str.upper`, `str.lower`, `urllib.parse.quote` and float formatting (`str(float)` in f-strings) are inputs. Unicode case mapping and encoding are not modelled.
- scipy's `griddata` is an input returning an optional value: an answer, or none where it raises ValueError or answers NaN. Its other errors are not modelled. The main one is QhullError, a RuntimeError raised when the samples cannot be triangulated: five identical samples from a single kept rental, or collinear samples when every kept rental lies on one latitude or longitude. get_height and the valuation loop catch only ValueError, so in the Python implementation such an error ends the whole ranking. The model gives the mean rent there instead (see Valuations.SingleRentalSurface).
- The HTTP requests and page scraping are inputs: `_fetch_number_of_properties` (the count is an input of `FetchProperties`), `_fetch_property` and `_fetch_locations`. `find_properties` and its own cache-aside are the input `find` of `RankProperties`.
- `find` receives a snapshot of the search parameters, not the mutable object.
- Logging and the web application in app.py are not modelled.
- Property.set_roi and the unused getHeight plotting helper are not modelled.
- `__repr__` of IntRange, GeoLocation, Property, Valuation and Location is not modelled. Only ValuationParameters' repr, which is part of a cache key, is.
- Floating point is modelled as exact reals. Binary rounding, the representation error of `round(x, 2)`, NaN and infinities are not modelled. Nor is math.pow's OverflowError: for a large rate and length (a rate of 1200 over 100 years, say) math.pow raises instead of answering, and since the valuation loop catches only ValueError, this ends the whole ranking in the Python implementation.
- Outliers.RemoveOutliers: requires a non-empty sample; numpy raises on an empty one. The only caller checks for an empty list first.
- Scoring.Score: the contract bounds the score within half a hundredth of the unrounded formula instead of naming the rounded value. Round2 states the rounding itself.
- Decoders reject an element whose field has the wrong JSON type (WrongType). The Python implementation would build the record anyway and fail later, or not at all. A geo_location that is not an object is reported the same way. The Python implementation tests `"latitude" in` the value: for a string or a list that is a substring or membership test, and a value without it raises the missing-latitude ValueError. A number, boolean or null raises a TypeError, and so does a string or list that passes both key tests. In every case the converter fails, so the cache-aside path falls through to recomputing.
- Redis expiry is modelled as an expiry time compared with the `now` input. Eviction and the store's own clock are not modelled.
- The unreachable "invalid purchase category" branch of to_url is absent, because the category type has exactly two values.
