/** The `EwsApi` client: a session holding the API key, and the cache `meta` / `data`
    that `fetch` fills from one GET of the data endpoint.

    The HTTP exchange is an input: `TransportFailure` where the session raises, otherwise
    the response's success flag (2xx) and its body decoded as JSON (`None` where
    `r.json()` raises). A raised exception is an `Err` result. */
module Client {
  import opened Wrappers
  import opened Json
  import opened Time
  import opened Prices

  datatype Exchange = TransportFailure | Received(isSuccess: bool, body: Option<Json>)

  /** The cached part of the client. */
  datatype ClientState = ClientState(meta: Option<MetaData>, data: seq<PriceData>)

  /** What one `fetch` returns (or raises) and the cache it leaves behind. */
  datatype FetchOutcome = FetchOutcome(result: Result<bool, Error>, state: ClientState)

  /** `EwsApi.authenticate`: a probe that reports success as a boolean and swallows
      transport errors. */
  function Authenticate(probe: Exchange): (ok: bool)
    ensures ok ==> probe.Received?
    ensures probe.Received? ==> ok == probe.isSuccess
  {
    match probe
    case TransportFailure => false
    case Received(success, _) => success
  }

  /** One `fetch` on the cache `s`. `meta` is assigned before the price list is built,
      so a price item that fails to parse leaves the new `meta` beside the old `data`. */
  function FetchStep(s: ClientState, ex: Exchange, parseIso: string -> Option<DateTime>): FetchOutcome {
    match ex
    case TransportFailure => FetchOutcome(Err(TransportError), s)
    case Received(success, body) =>
      if !success then FetchOutcome(Ok(false), s)
      else
        match body {
          case None => FetchOutcome(Err(JsonDecodeError), s)
          case Some(JObject(f)) =>
            match ParseMeta(f) {
              case Err(e) => FetchOutcome(Err(e), s)
              case Ok(m) =>
                var withMeta := s.(meta := Some(m));
                match PriceItems(f) {
                  case Err(e) => FetchOutcome(Err(e), withMeta)
                  case Ok(items) =>
                    match ParseItems(items, parseIso) {
                      case Err(e) => FetchOutcome(Err(e), withMeta)
                      case Ok(ps) => FetchOutcome(Ok(true), withMeta.(data := ps))
                    }
                }
            }
          case Some(_) => FetchOutcome(Err(TypeError), s)
        }
  }

  /** A fetch that does not get a 2xx response changes nothing: `False` for an error
      status, the session's exception for a transport failure. */
  lemma FetchFailureKeepsState(s: ClientState, ex: Exchange, parseIso: string -> Option<DateTime>)
    requires !(ex.Received? && ex.isSuccess)
    ensures FetchStep(s, ex, parseIso).state == s
    ensures FetchStep(s, ex, parseIso).result == if ex.Received? then Ok(false) else Err(TransportError)
  {
  }

  /** A 2xx response whose `today` and `tomorrow` are lists (or absent) makes `fetch`
      return `True` exactly when the four metadata keys are there and every item parses. */
  lemma FetchSucceedsIff(s: ClientState, f: map<string, Json>, parseIso: string -> Option<DateTime>)
    requires GetOrEmpty(f, "today").JArray? && GetOrEmpty(f, "tomorrow").JArray?
    ensures FetchStep(s, Received(true, Some(JObject(f))), parseIso).result == Ok(true) <==>
      && ParseMeta(f).Ok?
      && forall item :: item in GetOrEmpty(f, "today").items + GetOrEmpty(f, "tomorrow").items ==> FromJson(item, parseIso).Ok?
  {
    var items := GetOrEmpty(f, "today").items + GetOrEmpty(f, "tomorrow").items;
    assert PriceItems(f) == Ok(items);
    if forall item :: item in items ==> FromJson(item, parseIso).Ok? {
      assert ParseItems(items, parseIso).Ok?;
    } else {
      var item :| item in items && FromJson(item, parseIso).Err?;
      var i :| 0 <= i < |items| && items[i] == item;
      assert ParseItems(items, parseIso).Err?;
    }
  }

  /** After a successful fetch, `meta` is rebuilt from the top-level fields and `data`
      holds one parsed price per item, today's first, each in its original order. */
  lemma {:induction false} FetchSuccessState(s: ClientState, f: map<string, Json>, parseIso: string -> Option<DateTime>)
    requires GetOrEmpty(f, "today").JArray? && GetOrEmpty(f, "tomorrow").JArray?
    requires FetchStep(s, Received(true, Some(JObject(f))), parseIso).result == Ok(true)
    ensures FetchStep(s, Received(true, Some(JObject(f))), parseIso).state.meta
      == Some(MetaData(f["interval"], f["intervalUnit"], f["priceUnit"], f["tariff"]))
    ensures
      var data := FetchStep(s, Received(true, Some(JObject(f))), parseIso).state.data;
      var today := GetOrEmpty(f, "today").items;
      var tomorrow := GetOrEmpty(f, "tomorrow").items;
      && |data| == |today| + |tomorrow|
      && (forall i :: 0 <= i < |today| ==> FromJson(today[i], parseIso) == Ok(data[i]))
      && (forall j :: 0 <= j < |tomorrow| ==> FromJson(tomorrow[j], parseIso) == Ok(data[|today| + j]))
  {
    var today := GetOrEmpty(f, "today").items;
    var tomorrow := GetOrEmpty(f, "tomorrow").items;
    assert PriceItems(f) == Ok(today + tomorrow);
    var o := FetchStep(s, Received(true, Some(JObject(f))), parseIso);
    assert ParseItems(today + tomorrow, parseIso).Ok? && o.state.data == ParseItems(today + tomorrow, parseIso).value;
    ParsedConcat(today, tomorrow, parseIso);
  }

  /** Parsing a concatenation puts the first part's prices first, each at its own index. */
  lemma ParsedConcat(a: seq<Json>, b: seq<Json>, parseIso: string -> Option<DateTime>)
    requires ParseItems(a + b, parseIso).Ok?
    ensures
      var data := ParseItems(a + b, parseIso).value;
      && |data| == |a| + |b|
      && (forall i :: 0 <= i < |a| ==> FromJson(a[i], parseIso) == Ok(data[i]))
      && (forall j :: 0 <= j < |b| ==> FromJson(b[j], parseIso) == Ok(data[|a| + j]))
  {
    var items := a + b;
    var data := ParseItems(items, parseIso).value;
    forall i | 0 <= i < |a|
      ensures FromJson(a[i], parseIso) == Ok(data[i])
    {
      assert items[i] == a[i];
    }
    forall j | 0 <= j < |b|
      ensures FromJson(b[j], parseIso) == Ok(data[|a| + j])
    {
      assert items[|a| + j] == b[j];
    }
  }

  /** Absent `today` and `tomorrow` keys count as empty lists. */
  lemma FetchMissingDays(s: ClientState, f: map<string, Json>, parseIso: string -> Option<DateTime>)
    requires "today" !in f && "tomorrow" !in f && ParseMeta(f).Ok?
    ensures FetchStep(s, Received(true, Some(JObject(f))), parseIso) == FetchOutcome(Ok(true), ClientState(Some(ParseMeta(f).value), []))
  {
  }

  /** `fetch` is not atomic: once the metadata keys are read, a failure while building the
      price list raises with `meta` already replaced and `data` untouched. */
  lemma FetchNotAtomic(s: ClientState, f: map<string, Json>, parseIso: string -> Option<DateTime>)
    requires ParseMeta(f).Ok?
    requires PriceItems(f).Err? || ParseItems(PriceItems(f).value, parseIso).Err?
    ensures FetchStep(s, Received(true, Some(JObject(f))), parseIso).result.Err?
    ensures FetchStep(s, Received(true, Some(JObject(f))), parseIso).state == ClientState(Some(ParseMeta(f).value), s.data)
  {
  }

  /** `data` changes only when `fetch` returns `True`. */
  lemma DataChangesOnlyOnSuccess(s: ClientState, ex: Exchange, parseIso: string -> Option<DateTime>)
    requires FetchStep(s, ex, parseIso).state.data != s.data
    ensures FetchStep(s, ex, parseIso).result == Ok(true)
  {
  }

  class EwsApi {
    /** The `X-API-KEY` header of the session. */
    var apiKey: string
    var meta: Option<MetaData>
    var data: seq<PriceData>

    function State(): ClientState
      reads this
    {
      ClientState(meta, data)
    }

    /** `EwsApi(api_key)`: no network call; the cache starts empty. */
    constructor (key: string)
      ensures apiKey == key && meta == None && data == []
    {
      apiKey := key;
      meta := None;
      data := [];
    }

    /** `reauth`: probes the new key and adopts it only when the probe succeeds. */
    method Reauth(key: string, probe: Exchange) returns (r: bool)
      modifies this
      ensures r == Authenticate(probe)
      ensures apiKey == if r then key else old(apiKey)
      ensures meta == old(meta) && data == old(data)
    {
      r := Authenticate(probe);
      if r {
        apiKey := key;
      }
    }

    /** `fetch`. */
    method Fetch(ex: Exchange, parseIso: string -> Option<DateTime>) returns (r: Result<bool, Error>)
      modifies this
      ensures FetchOutcome(r, State()) == FetchStep(old(State()), ex, parseIso)
      ensures apiKey == old(apiKey)
    {
      if ex.TransportFailure? {
        return Err(TransportError);
      }
      if !ex.isSuccess {
        return Ok(false);
      }
      if ex.body.None? {
        return Err(JsonDecodeError);
      }
      var json := ex.body.value;
      if !json.JObject? {
        return Err(TypeError);
      }
      var m := ParseMeta(json.fields);
      if m.Err? {
        return Err(m.error);
      }
      meta := Some(m.value);
      var items := PriceItems(json.fields);
      if items.Err? {
        return Err(items.error);
      }
      var parsed := ParseItems(items.value, parseIso);
      if parsed.Err? {
        return Err(parsed.error);
      }
      data := parsed.value;
      return Ok(true);
    }

    /** `get`: runs `fetch`, discards its boolean and returns `data` as it then stands. */
    method Get(ex: Exchange, parseIso: string -> Option<DateTime>) returns (r: Result<seq<PriceData>, Error>)
      modifies this
      ensures State() == FetchStep(old(State()), ex, parseIso).state
      ensures apiKey == old(apiKey)
      ensures r == if FetchStep(old(State()), ex, parseIso).result.Err? then Err(FetchStep(old(State()), ex, parseIso).result.error) else Ok(data)
    {
      var fetched := Fetch(ex, parseIso);
      if fetched.Err? {
        return Err(fetched.error);
      }
      return Ok(data);
    }
  }

  /** A failed fetch on a new client leaves `meta` absent and `data` empty. */
  method HttpErrorOnNewClient(key: string, body: Option<Json>, parseIso: string -> Option<DateTime>)
    returns (r: Result<bool, Error>, meta: Option<MetaData>, data: seq<PriceData>)
    ensures r == Ok(false) && meta == None && data == []
  {
    var api := new EwsApi(key);
    r := api.Fetch(Received(false, body), parseIso);
    meta, data := api.meta, api.data;
  }

  /** `get` on a new client and a successful response returns one price per item of
      `today` and `tomorrow`; a failed response gives the same empty list a success with
      no items gives. */
  method GetOnNewClient(key: string, f: map<string, Json>, parseIso: string -> Option<DateTime>)
    returns (fromSuccess: Result<seq<PriceData>, Error>, fromFailure: Result<seq<PriceData>, Error>)
    requires GetOrEmpty(f, "today").JArray? && GetOrEmpty(f, "tomorrow").JArray? && ParseMeta(f).Ok?
    requires forall item :: item in GetOrEmpty(f, "today").items + GetOrEmpty(f, "tomorrow").items ==> FromJson(item, parseIso).Ok?
    ensures fromSuccess.Ok? && |fromSuccess.value| == |GetOrEmpty(f, "today").items| + |GetOrEmpty(f, "tomorrow").items|
    ensures fromFailure == Ok([])
  {
    var api := new EwsApi(key);
    FetchSucceedsIff(api.State(), f, parseIso);
    FetchSuccessState(api.State(), f, parseIso);
    fromSuccess := api.Get(Received(true, Some(JObject(f))), parseIso);
    var other := new EwsApi(key);
    fromFailure := other.Get(Received(false, Some(JObject(f))), parseIso);
  }
}
