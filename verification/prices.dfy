/** The value objects of the client and the parsing of the response body into them.

    The dataclass annotations (`float`, `int`, `str`) are not enforced at run time, so
    each field holds the JSON value found under its key, unchanged. Only `startsAt`
    goes through a conversion: `datetime.fromisoformat`, a library parser, is the
    parameter `parseIso` (`None` where it raises `ValueError`). */
module Prices {
  import opened Wrappers
  import opened Json
  import opened Time

  /** The exceptions that can leave `fetch`. */
  datatype Error =
    | TransportError      // raised by the HTTP session itself
    | JsonDecodeError     // `r.json()` on a body that is not JSON
    | KeyError(key: string)
    | TypeError           // indexing, adding or iterating a value of the wrong kind
    | ValueError          // `fromisoformat` on a string it cannot read

  datatype MetaData = MetaData(interval: Json, intervalUnit: Json, unit: Json, tariff: Json)

  datatype PriceData = PriceData(dynamicPrice: Json, staticPrice: Json, totalPrice: Json, startsAt: DateTime)

  /** The keys `PriceData.from_json` reads, in the order it reads them. */
  ghost predicate HasPriceKeys(f: map<string, Json>) {
    "dynamic" in f && "fix" in f && "total" in f && "startsAt" in f
  }

  /** `PriceData.from_json`: copies `dynamic`, `fix` and `total` and parses `startsAt`. */
  function FromJson(item: Json, parseIso: string -> Option<DateTime>): (r: Result<PriceData, Error>)
    ensures r.Ok? <==>
      item.JObject? && HasPriceKeys(item.fields) && item.fields["startsAt"].JString?
      && parseIso(item.fields["startsAt"].s).Some?
    ensures r.Ok? ==>
      && r.value.dynamicPrice == item.fields["dynamic"]
      && r.value.staticPrice == item.fields["fix"]
      && r.value.totalPrice == item.fields["total"]
      && r.value.startsAt == parseIso(item.fields["startsAt"].s).value
    ensures item.JObject? && !HasPriceKeys(item.fields) ==> r.Err? && r.error.KeyError?
    ensures !item.JObject? ==> r == Err(TypeError)
  {
    match item
    case JObject(f) =>
      if "dynamic" !in f then Err(KeyError("dynamic"))
      else if "fix" !in f then Err(KeyError("fix"))
      else if "total" !in f then Err(KeyError("total"))
      else if "startsAt" !in f then Err(KeyError("startsAt"))
      else
        match f["startsAt"] {
          case JString(text) =>
            match parseIso(text) {
              case None => Err(ValueError)
              case Some(t) => Ok(PriceData(f["dynamic"], f["fix"], f["total"], t))
            }
          case _ => Err(TypeError)
        }
    case _ => Err(TypeError)
  }

  /** The `MetaData(...)` built from the top-level fields of the response object. */
  function ParseMeta(body: map<string, Json>): (r: Result<MetaData, Error>)
    ensures r.Ok? <==> "interval" in body && "intervalUnit" in body && "priceUnit" in body && "tariff" in body
    ensures r.Ok? ==> r.value == MetaData(body["interval"], body["intervalUnit"], body["priceUnit"], body["tariff"])
    ensures r.Err? ==> r.error.KeyError? && r.error.key !in body
  {
    if "interval" !in body then Err(KeyError("interval"))
    else if "intervalUnit" !in body then Err(KeyError("intervalUnit"))
    else if "priceUnit" !in body then Err(KeyError("priceUnit"))
    else if "tariff" !in body then Err(KeyError("tariff"))
    else Ok(MetaData(body["interval"], body["intervalUnit"], body["priceUnit"], body["tariff"]))
  }

  /** `body.get(key, [])`: the value under `key`, an empty list where the key is absent. */
  function GetOrEmpty(body: map<string, Json>, key: string): Json {
    if key in body then body[key] else JArray([])
  }

  /** The one-character strings that iterating a Python string yields. */
  function Chars(s: string): (r: seq<Json>)
    ensures |r| == |s| && forall i :: 0 <= i < |s| ==> r[i] == JString([s[i]])
  {
    seq(|s|, i requires 0 <= i < |s| => JString([s[i]]))
  }

  /** The items the comprehension iterates: `body.get("today", []) + body.get("tomorrow", [])`.
      Two lists concatenate, two strings concatenate into a string (iterated character by
      character); any other pair makes `+` or the iteration raise `TypeError`. */
  function PriceItems(body: map<string, Json>): (r: Result<seq<Json>, Error>)
    ensures GetOrEmpty(body, "today").JArray? && GetOrEmpty(body, "tomorrow").JArray? ==>
      r == Ok(GetOrEmpty(body, "today").items + GetOrEmpty(body, "tomorrow").items)
    ensures "today" !in body && "tomorrow" !in body ==> r == Ok([])
    ensures r.Err? ==> r.error == TypeError
  {
    match (GetOrEmpty(body, "today"), GetOrEmpty(body, "tomorrow"))
    case (JArray(a), JArray(b)) =>
      assert a == [] && b == [] ==> a + b == [];
      Ok(a + b)
    case (JString(a), JString(b)) => Ok(Chars(a + b))
    case _ => Err(TypeError)
  }

  /** `[PriceData.from_json(item) for item in items]`: stops at the first item that raises. */
  function ParseItems(items: seq<Json>, parseIso: string -> Option<DateTime>): (r: Result<seq<PriceData>, Error>)
    ensures r.Ok? <==> forall i :: 0 <= i < |items| ==> FromJson(items[i], parseIso).Ok?
    ensures r.Ok? ==> |r.value| == |items|
    ensures r.Ok? ==> forall i :: 0 <= i < |items| ==> FromJson(items[i], parseIso) == Ok(r.value[i])
    ensures r.Err? ==>
      exists i :: 0 <= i < |items| && FirstFailure(items, parseIso, i) && r.error == FromJson(items[i], parseIso).error
  {
    if items == [] then Ok([])
    else
      match FromJson(items[0], parseIso)
      case Err(e) =>
        assert FirstFailure(items, parseIso, 0);
        Err(e)
      case Ok(p) =>
        match ParseItems(items[1..], parseIso) {
          case Err(e) =>
            assert forall i :: 0 <= i < |items| - 1 && FirstFailure(items[1..], parseIso, i) ==> FirstFailure(items, parseIso, i + 1);
            Err(e)
          case Ok(ps) => Ok([p] + ps)
        }
  }

  /** Item `i` is the first one `from_json` rejects. */
  ghost predicate FirstFailure(items: seq<Json>, parseIso: string -> Option<DateTime>, i: int)
    requires 0 <= i < |items|
  {
    FromJson(items[i], parseIso).Err? && forall j :: 0 <= j < i ==> FromJson(items[j], parseIso).Ok?
  }
}
