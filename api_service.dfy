/**
 * The telemetry service singleton (src/services/ApiService.ts): it owns the
 * backend base URL, persisted under the storage key `apiURL`, and turns each
 * telemetry operation into one request against that base URL.
 */
module Service {
  import opened Wrappers
  import opened Strings
  import opened Storage
  import opened Transport

  const DefaultBaseURL: string := "http://localhost:8080"
  const ApiUrlKey: string := "apiURL"

  const SensorsPath: string := "/api/sensores"
  const ReadingsPath: string := "/api/readings"

  const ConnectedMessage: string := "Conex\U{E3}o estabelecida com sucesso!"
  const UnexpectedFormatMessage: string := "API respondeu, mas com formato inesperado"
  const UnknownErrorMessage: string := "Erro desconhecido na conex\U{E3}o"

  /**
   * `getBaseURL` on a storage snapshot and the field: the stored `apiURL`
   * when present and non-empty, otherwise the field.
   */
  function Resolve(items: map<string, string>, field: string): string {
    StoredOr(Lookup(items, ApiUrlKey), field)
  }

  // ---------------------------------------------------------------------------
  // Request construction

  function SensorsURL(base: string): string {
    base + SensorsPath
  }

  function ReadingsURL(base: string): string {
    base + ReadingsPath
  }

  function SensorReadingsURL(base: string, sensorId: string): string {
    base + ReadingsPath + "/" + sensorId
  }

  /** The record `createReading` posts: the caller's sensor and value, stamped with the submission time. */
  datatype NewReading = NewReading(sensorId: string, value: real, timestamp: string)

  /** The JSON object `{ sensorId, value, timestamp }` sent as the POST body. */
  function EncodeReading(r: NewReading): Json {
    JObject(map["sensorId" := JString(r.sensorId), "value" := JNumber(r.value), "timestamp" := JString(r.timestamp)])
  }

  /** The inverse of `EncodeReading`: it shows that the body carries exactly the three fields. */
  function DecodeReading(body: Json): Option<NewReading> {
    if body.JObject?
       && body.fields.Keys == {"sensorId", "value", "timestamp"}
       && body.fields["sensorId"].JString?
       && body.fields["value"].JNumber?
       && body.fields["timestamp"].JString?
    then Some(NewReading(body.fields["sensorId"].s, body.fields["value"].n, body.fields["timestamp"].s))
    else None
  }

  // ---------------------------------------------------------------------------
  // Connection test

  /** The record `testConnection` resolves to; `count` is absent unless the test succeeded. */
  datatype ConnectionResult = ConnectionResult(success: bool, message: string, count: Option<nat>)

  /**
   * The outcome mapping of `testConnection`: every response, thrown errors
   * included, becomes a result record.
   */
  function Diagnose(resp: Response): (r: ConnectionResult)
    ensures r.success <==> resp.Data? && IsArray(resp.payload)
    ensures r.count.Some? <==> r.success
    ensures r.success ==> r.count.value == |resp.payload.elems| && r.message == ConnectedMessage
    ensures resp.Data? && !IsArray(resp.payload) ==> r.message == UnexpectedFormatMessage
    ensures resp.Thrown? ==> r.message == (if resp.message != "" then resp.message else UnknownErrorMessage)
    ensures r.message != ""
  {
    match resp
    case Data(payload) =>
      if IsArray(payload) then ConnectionResult(true, ConnectedMessage, Some(|payload.elems|))
      else ConnectionResult(false, UnexpectedFormatMessage, None)
    case Thrown(msg) =>
      ConnectionResult(false, if msg != "" then msg else UnknownErrorMessage, None)
  }

  // ---------------------------------------------------------------------------
  // The service object

  class ApiService {
    var baseURL: string
    const store: KeyValueStore

    /** The singleton is created with the built-in default URL and the shared store. */
    constructor (store: KeyValueStore)
      ensures baseURL == DefaultBaseURL && this.store == store
    {
      baseURL := DefaultBaseURL;
      this.store := store;
    }

    /** The base URL every operation would use in the current state. */
    ghost function Resolved(): string
      reads this, store
    {
      Resolve(store.items, baseURL)
    }

    /** Adopts the stored URL when it is present and non-empty; otherwise keeps the field. */
    method Init()
      modifies this
      ensures baseURL == Resolve(store.items, old(baseURL))
      ensures Resolved() == old(Resolved())
    {
      var saved := store.GetItem(ApiUrlKey);
      if Truthy(saved) {
        baseURL := saved.value;
      }
    }

    /** Sets the field and the stored `apiURL` to `url`, without validating it. */
    method UpdateBaseURL(url: string)
      modifies this, store
      ensures baseURL == url
      ensures store.items == old(store.items)[ApiUrlKey := url]
      ensures Resolved() == url
    {
      baseURL := url;
      store.SetItem(ApiUrlKey, url);
    }

    /** Reads storage once and changes nothing. */
    method GetBaseURL() returns (base: string)
      ensures base == Resolve(store.items, baseURL)
      ensures Truthy(Lookup(store.items, ApiUrlKey)) ==> base == store.items[ApiUrlKey]
      ensures !Truthy(Lookup(store.items, ApiUrlKey)) ==> base == baseURL
    {
      var saved := store.GetItem(ApiUrlKey);
      base := if Truthy(saved) then saved.value else baseURL;
    }

    method GetSensores(net: Network) returns (resp: Response)
      modifies net
      ensures net.log == old(net.log) + [Get(SensorsURL(Resolved()))]
      ensures resp == net.server(old(net.log), Get(SensorsURL(Resolved())))
    {
      var base := GetBaseURL();
      resp := net.Send(Get(SensorsURL(base)));
    }

    method GetAllReadings(net: Network) returns (resp: Response)
      modifies net
      ensures net.log == old(net.log) + [Get(ReadingsURL(Resolved()))]
      ensures resp == net.server(old(net.log), Get(ReadingsURL(Resolved())))
    {
      var base := GetBaseURL();
      resp := net.Send(Get(ReadingsURL(base)));
    }

    method GetSensorReadings(net: Network, sensorId: string) returns (resp: Response)
      modifies net
      ensures net.log == old(net.log) + [Get(SensorReadingsURL(Resolved(), sensorId))]
      ensures resp == net.server(old(net.log), Get(SensorReadingsURL(Resolved(), sensorId)))
    {
      var base := GetBaseURL();
      resp := net.Send(Get(SensorReadingsURL(base, sensorId)));
    }

    /** `now` stands for the clock reading `new Date().toISOString()` at submission. */
    method CreateReading(net: Network, sensorId: string, value: real, now: string) returns (resp: Response)
      modifies net
      ensures net.log == old(net.log) + [Post(ReadingsURL(Resolved()), EncodeReading(NewReading(sensorId, value, now)))]
      ensures resp == net.server(old(net.log), Post(ReadingsURL(Resolved()), EncodeReading(NewReading(sensorId, value, now))))
    {
      var base := GetBaseURL();
      var reading := NewReading(sensorId, value, now);
      resp := net.Send(Post(ReadingsURL(base), EncodeReading(reading)));
    }

    /** Probes the sensors endpoint and never fails: every outcome becomes a result record. */
    method TestConnection(net: Network) returns (result: ConnectionResult)
      modifies net
      ensures net.log == old(net.log) + [Get(SensorsURL(Resolved()))]
      ensures result == Diagnose(net.server(old(net.log), Get(SensorsURL(Resolved()))))
    {
      var base := GetBaseURL();
      var resp := net.Send(Get(SensorsURL(base)));
      result := Diagnose(resp);
    }
  }

  // ---------------------------------------------------------------------------
  // Properties of the resolution rule

  /** After `updateBaseURL(u)` the service resolves to `u`, whatever `u` is, the empty string included. */
  lemma ResolveAfterUpdate(items: map<string, string>, u: string)
    ensures Resolve(items[ApiUrlKey := u], u) == u
  {
  }

  /** `init` caches the resolved URL in the field, so it never changes what the service resolves to. */
  lemma InitPreservesResolution(items: map<string, string>, field: string)
    ensures Resolve(items, Resolve(items, field)) == Resolve(items, field)
  {
  }

  /** Writing any key other than `apiURL` leaves the resolved URL as it was. */
  lemma ResolveIgnoresOtherKeys(items: map<string, string>, key: string, value: string, field: string)
    requires key != ApiUrlKey
    ensures Resolve(items[key := value], field) == Resolve(items, field)
  {
  }

  /** Storing a non-empty URL under `apiURL` overrides the field, whatever it holds. */
  lemma ResolveAfterStoring(items: map<string, string>, u: string, field: string)
    requires u != ""
    ensures Resolve(items[ApiUrlKey := u], field) == u
  {
  }

  // ---------------------------------------------------------------------------
  // Properties of request construction

  /** Every request URL is the base followed by its fixed path. */
  lemma URLsExtendBase(base: string, sensorId: string)
    ensures StartsWith(SensorsURL(base), base)
    ensures StartsWith(ReadingsURL(base), base)
    ensures StartsWith(SensorReadingsURL(base, sensorId), base)
  {
    assert SensorsURL(base)[..|base|] == base;
    assert ReadingsURL(base)[..|base|] == base;
    assert SensorReadingsURL(base, sensorId)[..|base|] == base;
  }

  /** For one base URL, the three endpoints are three different addresses. */
  lemma URLsDistinct(base: string, sensorId: string)
    ensures SensorsURL(base) != ReadingsURL(base)
    ensures SensorsURL(base) != SensorReadingsURL(base, sensorId)
    ensures ReadingsURL(base) != SensorReadingsURL(base, sensorId)
  {
    assert SensorsURL(base)[|base| + 5] == 's';
    assert ReadingsURL(base)[|base| + 5] == 'r';
    assert SensorReadingsURL(base, sensorId)[|base| + 5] == 'r';
    assert |ReadingsURL(base)| < |SensorReadingsURL(base, sensorId)|;
  }

  /** The per-sensor URL identifies the sensor: different ids give different addresses. */
  lemma SensorReadingsURLInjective(base: string, a: string, b: string)
    requires SensorReadingsURL(base, a) == SensorReadingsURL(base, b)
    ensures a == b
  {
    var n := |base + ReadingsPath + "/"|;
    assert SensorReadingsURL(base, a)[n..] == a;
    assert SensorReadingsURL(base, b)[n..] == b;
  }

  /** The sensors URL identifies its base URL: requests to different backends never coincide. */
  lemma SensorsURLInjective(b1: string, b2: string)
    requires SensorsURL(b1) == SensorsURL(b2)
    ensures b1 == b2
  {
    assert |b1| == |b2|;
    assert SensorsURL(b1)[..|b1|] == b1;
    assert SensorsURL(b2)[..|b2|] == b2;
  }

  /** The posted body carries exactly the caller's sensor id, value and timestamp. */
  lemma DecodeEncodeReading(r: NewReading)
    ensures DecodeReading(EncodeReading(r)) == Some(r)
  {
    var body := EncodeReading(r);
    assert body.fields.Keys == {"sensorId", "value", "timestamp"};
  }
}
