/** The JSON documents the engines store in the cache, and the list codec all three
    payload converters share: encode every record in order; decode a list record by
    record, stopping at the first record that fails its field checks. */
module Payload {
  import opened Common

  /** A decoded JSON document (json.loads output): objects are key/value maps. */
  datatype Json =
    | JNull
    | JBool(b: bool)
    | JNum(num: real)
    | JStr(str: string)
    | JArr(items: seq<Json>)
    | JObj(fields: map<string, Json>)

  /** The ValueErrors the converters raise, plus WrongType for a field whose value
      the typed model cannot hold. */
  datatype DecodeError =
    | NotAList
    | NotAnObject
    | MissingKey(key: string)
    | BadCategory
    | WrongType(key: string)

  /** Field lookups used by the record decoders. */
  function GetString(fields: map<string, Json>, key: string): Result<string, DecodeError>
  {
    if key !in fields then Failure(MissingKey(key))
    else if fields[key].JStr? then Success(fields[key].str)
    else Failure(WrongType(key))
  }

  function GetNumber(fields: map<string, Json>, key: string): Result<real, DecodeError>
  {
    if key !in fields then Failure(MissingKey(key))
    else if fields[key].JNum? then Success(fields[key].num)
    else Failure(WrongType(key))
  }

  /** The first key of `keys` (in the Python implementation's checking order) missing from `fields`. */
  function FirstMissing(fields: map<string, Json>, keys: seq<string>): (m: Option<string>)
    ensures m.None? <==> forall k :: k in keys ==> k in fields
    ensures m.Some? ==> m.value in keys && m.value !in fields
  {
    if |keys| == 0 then None
    else if keys[0] !in fields then Some(keys[0])
    else FirstMissing(fields, keys[1..])
  }

  function EncodeAll<T>(xs: seq<T>, encode: T -> Json): (items: seq<Json>)
  {
    seq(|xs|, i requires 0 <= i < |xs| => encode(xs[i]))
  }

  /** Record-by-record decoding; the first failing record's error is the result. */
  function DecodeAll<T>(items: seq<Json>, decode: Json -> Result<T, DecodeError>): Result<seq<T>, DecodeError>
  {
    if |items| == 0 then Success([])
    else match decode(items[0])
      case Failure(e) => Failure(e)
      case Success(x) => Prefixed([x], DecodeAll(items[1..], decode))
  }

  /** The whole converter: the payload must be a list, then every record must decode. */
  function DecodeList<T>(payload: Json, decode: Json -> Result<T, DecodeError>): Result<seq<T>, DecodeError>
  {
    if !payload.JArr? then Failure(NotAList) else DecodeAll(payload.items, decode)
  }

  /** The `output = []; for ...: output.append({...})` loop of the to-payload converters. */
  method EncodeList<T>(xs: seq<T>, encode: T -> Json) returns (payload: Json)
    ensures payload == JArr(EncodeAll(xs, encode))
    ensures |payload.items| == |xs|
    ensures forall i :: 0 <= i < |xs| ==> payload.items[i] == encode(xs[i])
  {
    var output: seq<Json> := [];
    for i := 0 to |xs|
      invariant |output| == i
      invariant forall j :: 0 <= j < i ==> output[j] == encode(xs[j])
    {
      output := output + [encode(xs[i])];
    }
    assert output == EncodeAll(xs, encode);
    payload := JArr(output);
  }

  /** The decoding loop of the from-payload converters. */
  method DecodeListLoop<T>(payload: Json, decode: Json -> Result<T, DecodeError>)
    returns (r: Result<seq<T>, DecodeError>)
    ensures r == DecodeList(payload, decode)
  {
    if !payload.JArr? {
      return Failure(NotAList);
    }
    var items := payload.items;
    var out: seq<T> := [];
    assert items[0..] == items;
    PrefixedNil(DecodeAll(items, decode));
    for i := 0 to |items|
      invariant DecodeAll(items, decode) == Prefixed(out, DecodeAll(items[i..], decode))
    {
      assert items[i..][1..] == items[i + 1..];
      match decode(items[i])
      case Failure(e) =>
        assert DecodeAll(items[i..], decode) == Failure(e);
        return Failure(e);
      case Success(x) =>
        PrefixedAssoc(out, [x], DecodeAll(items[i + 1..], decode));
        out := out + [x];
    }
    assert items[|items|..] == [];
    assert out + [] == out;
    r := Success(out);
  }

  /** A successful decode has one record per list element, each decoded from it. */
  lemma {:induction false} DecodeAllSound<T>(items: seq<Json>, decode: Json -> Result<T, DecodeError>)
    requires DecodeAll(items, decode).Success?
    ensures |DecodeAll(items, decode).value| == |items|
    ensures forall i :: 0 <= i < |items| ==> decode(items[i]) == Success(DecodeAll(items, decode).value[i])
  {
    if |items| > 0 {
      DecodeAllSound(items[1..], decode);
    }
  }

  /** When some record fails, decoding fails with the first failing record's error. */
  lemma {:induction false} DecodeAllFailure<T>(items: seq<Json>, decode: Json -> Result<T, DecodeError>, k: nat)
    requires k < |items| && decode(items[k]).Failure?
    requires forall j :: 0 <= j < k ==> decode(items[j]).Success?
    ensures DecodeAll(items, decode) == Failure(decode(items[k]).error)
  {
    if k > 0 {
      DecodeAllFailure(items[1..], decode, k - 1);
    }
  }

  /** When every record decodes, so does the list, one record per element. */
  lemma {:induction false} DecodeAllComplete<T>(items: seq<Json>, decode: Json -> Result<T, DecodeError>)
    requires forall j :: 0 <= j < |items| ==> decode(items[j]).Success?
    ensures DecodeAll(items, decode).Success?
    ensures |DecodeAll(items, decode).value| == |items|
  {
    if |items| > 0 {
      DecodeAllComplete(items[1..], decode);
    }
  }

  /** The list round trip, given a record round trip. */
  lemma {:induction false} DecodeEncodeList<T>(xs: seq<T>, encode: T -> Json, decode: Json -> Result<T, DecodeError>)
    requires forall x :: decode(encode(x)) == Success(x)
    ensures DecodeList(JArr(EncodeAll(xs, encode)), decode) == Success(xs)
  {
    var items := EncodeAll(xs, encode);
    if |xs| > 0 {
      assert items[1..] == EncodeAll(xs[1..], encode);
      DecodeEncodeList(xs[1..], encode, decode);
      assert xs == [xs[0]] + xs[1..];
    }
  }
}
