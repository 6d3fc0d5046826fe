/** Location autocomplete (src/location.py): the type-ahead URL built from the user's
    input in two-character chunks, the location payload codec, and the cache-aside lookup.
    Case mapping and percent-encoding are inputs (`upper`, `lower`, `quote`); the HTTP
    request and its JSON response are the input `fetch`. */
module Locations {
  import opened Common
  import opened Text
  import opened Payload
  import opened KeyValueCache

  datatype Location = Location(displayName: string, identifier: string, normalisedName: string)

  // ---------------------------------------------------------------------------
  // Payload codec

  const LocationKeys: seq<string> := ["display_name", "identifier", "normalised_name"]

  function LocationToJson(l: Location): Json
  {
    JObj(map["display_name" := JStr(l.displayName),
             "identifier" := JStr(l.identifier),
             "normalised_name" := JStr(l.normalisedName)])
  }

  /** One element of _convert_payload_to_locations: a dict holding the three keys. */
  function LocationFromJson(j: Json): (r: Result<Location, DecodeError>)
    ensures !j.JObj? ==> r == Failure(NotAnObject)
    ensures j.JObj? && FirstMissing(j.fields, LocationKeys).Some? ==>
              r == Failure(MissingKey(FirstMissing(j.fields, LocationKeys).value))
  {
    if !j.JObj? then Failure(NotAnObject)
    else
      var f := j.fields;
      match FirstMissing(f, LocationKeys)
      case Some(k) => Failure(MissingKey(k))
      case None =>
        match GetString(f, "display_name")
        case Failure(e) => Failure(e)
        case Success(name) =>
          match GetString(f, "identifier")
          case Failure(e) => Failure(e)
          case Success(id) =>
            match GetString(f, "normalised_name")
            case Failure(e) => Failure(e)
            case Success(norm) => Success(Location(name, id, norm))
  }

  lemma LocationRoundTrip(l: Location)
    ensures LocationFromJson(LocationToJson(l)) == Success(l)
  {
    var f := LocationToJson(l).fields;
    assert "display_name" in f && "identifier" in f && "normalised_name" in f;
    assert FirstMissing(f, LocationKeys).None?;
  }

  /** Deserialising serialised locations gives back the same list. */
  lemma {:induction false} LocationsPayloadRoundTrip(ls: seq<Location>)
    ensures DecodeList(JArr(EncodeAll(ls, LocationToJson)), LocationFromJson) == Success(ls)
  {
    forall l: Location ensures LocationFromJson(LocationToJson(l)) == Success(l) {
      LocationRoundTrip(l);
    }
    DecodeEncodeList(ls, LocationToJson, LocationFromJson);
  }

  // ---------------------------------------------------------------------------
  // Type-ahead URL

  const TypeAheadPrefix := "https://www.rightmove.co.uk/typeAhead/uknostreet/"

  /** The input cut into consecutive two-character chunks; an odd tail is one character. */
  function Pairs(s: string): seq<string>
  {
    if |s| == 0 then []
    else if |s| == 1 then [s]
    else [s[..2]] + Pairs(s[2..])
  }

  /** The chunks concatenate back to the string they were cut from. */
  lemma {:induction false} PairsConcat(s: string)
    ensures Concat(Pairs(s)) == s
  {
    if |s| >= 2 {
      PairsConcat(s[2..]);
      assert Pairs(s)[1..] == Pairs(s[2..]);
      assert s == s[..2] + s[2..];
    }
  }

  /** ceil(|s| / 2) chunks, all of length 2 but the last, which has length 1 exactly
      when |s| is odd. */
  lemma {:induction false} PairsShape(s: string)
    ensures |Pairs(s)| == (|s| + 1) / 2
    ensures forall k :: 0 <= k < |Pairs(s)| - 1 ==> |Pairs(s)[k]| == 2
    ensures |s| > 0 ==> |Pairs(s)[|Pairs(s)| - 1]| == if |s| % 2 == 1 then 1 else 2
  {
    if |s| >= 2 {
      PairsShape(s[2..]);
      assert Pairs(s)[1..] == Pairs(s[2..]);
    }
  }

  /** The chunking loop of _construct_url. */
  method SplitPairs(s: string) returns (pairs: seq<string>)
    ensures pairs == Pairs(s)
  {
    pairs := [];
    var i := 0;
    while i < |s|
      invariant i % 2 == 0 && i <= |s| + 1
      invariant pairs + Pairs(s[if i <= |s| then i else |s|..]) == Pairs(s)
    {
      ghost var rest := s[i..];
      if i + 1 < |s| {
        assert rest[..2] == s[i..i + 2] && rest[2..] == s[i + 2..];
        assert Pairs(rest) == [s[i..i + 2]] + Pairs(s[i + 2..]);
        pairs := pairs + [s[i..i + 2]];
      } else {
        assert rest == s[i..i + 1] && s[|s|..] == [];
        pairs := pairs + [s[i..i + 1]];
      }
      i := i + 2;
    }
    assert s[|s|..] == [];
    assert pairs + [] == pairs;
  }

  function QuoteAll(parts: seq<string>, quote: string -> string): seq<string>
  {
    seq(|parts|, k requires 0 <= k < |parts| => quote(parts[k]))
  }

  /** _construct_url: the fixed prefix, then the encoded chunks of the upper-cased input joined by '/'. */
  method ConstructUrl(input: string, upper: string -> string, quote: string -> string) returns (url: string)
    ensures url == TypeAheadPrefix + Join(QuoteAll(Pairs(upper(input)), quote), "/")
  {
    var capitalized := upper(input);
    var pairs := SplitPairs(capitalized);
    var encoded := QuoteAll(pairs, quote);
    url := TypeAheadPrefix + Join(encoded, "/");
  }

  /** The chunks the URL is built from, those of the upper-cased input, concatenate back to it,
      and there are ceil(n/2) of them. */
  lemma {:induction false} ConstructUrlChunks(input: string, upper: string -> string)
    ensures Concat(Pairs(upper(input))) == upper(input)
    ensures |Pairs(upper(input))| == (|upper(input)| + 1) / 2
  {
    PairsConcat(upper(input));
    PairsShape(upper(input));
  }

  // ---------------------------------------------------------------------------
  // Cache-aside lookup

  const LocationKeyPrefix := "location:"

  /** The cache key: the prefix, then the lower-cased input, which can be read back from it. */
  function LocationKey(input: string, lower: string -> string): (key: string)
    ensures IsPrefix(LocationKeyPrefix, key)
    ensures key[|LocationKeyPrefix|..] == lower(input)
  {
    LocationKeyPrefix + lower(input)
  }

  /** Inputs share a cache entry exactly when their lower-cased forms agree. */
  lemma SameKeyIffSameLowered(a: string, b: string, lower: string -> string)
    ensures LocationKey(a, lower) == LocationKey(b, lower) <==> lower(a) == lower(b)
  {
    if LocationKey(a, lower) == LocationKey(b, lower) {
      assert LocationKey(a, lower)[|LocationKeyPrefix|..] == LocationKey(b, lower)[|LocationKeyPrefix|..];
    }
  }

  class LocationEngine {
    const cache: Cache

    constructor (cache: Cache)
      ensures this.cache == cache
    {
      this.cache := cache;
    }

    /** find_locations: answer from the cache when it holds a well-formed entry; otherwise
        fetch, store the answer for 30 minutes (best effort) and return it. A cache failure
        never reaches the caller; a fetch failure does. */
    method FindLocations(input: string, lower: string -> string,
                         fetch: string -> Result<seq<Location>, FetchError>,
                         now: int, faults: Faults)
      returns (r: Result<seq<Location>, FetchError>, fetched: bool)
      modifies cache
      ensures var read := if faults.readFails then Unavailable
                          else LookupAt(old(cache.entries), LocationKey(input, lower), now);
              var cached := CachedList(read, LocationFromJson);
              && (cached.Some? ==> r == Success(cached.value) && !fetched && cache.entries == old(cache.entries))
              && (cached.None? ==> fetched && r == fetch(input))
              && (cached.None? && r.Failure? ==> cache.entries == old(cache.entries))
              && (cached.None? && r.Success? ==>
                    cache.entries == if faults.writeFails then old(cache.entries)
                                     else old(cache.entries)[LocationKey(input, lower) :=
                                            Entry(JArr(EncodeAll(r.value, LocationToJson)), now + CacheTtlSeconds)])
    {
      var key := LocationKey(input, lower);
      var read := cache.Get(key, now, faults.readFails);
      if read.Hit? {
        var decoded := DecodeListLoop(read.payload, LocationFromJson);
        if decoded.Success? {
          return Success(decoded.value), false;
        }
      }
      fetched := true;
      var got := fetch(input);
      if got.Failure? {
        return got, fetched;
      }
      var payload := EncodeList(got.value, LocationToJson);
      cache.Set(key, payload, CacheTtlSeconds, now, faults.writeFails);
      r := got;
    }
  }
}
