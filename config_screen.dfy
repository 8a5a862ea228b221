/**
 * The connection settings screen (src/screens/ConfigScreen.tsx): it edits the
 * backend URL, saves it under the same `apiURL` key the service reads, and
 * probes it.
 */
module Config {
  import opened Wrappers
  import opened Strings
  import opened Storage
  import opened Transport
  import Service

  const HttpPrefix: string := "http"
  const ProbePath: string := "/sensores"
  const UnknownErrorMessage: string := "Erro desconhecido"

  /** The save guard `url.startsWith('http')`: a prefix test, not a scheme check. */
  predicate AcceptsURL(url: string) {
    StartsWith(url, HttpPrefix)
  }

  /** An accepted URL is never empty, so storing it always overrides the service's field. */
  lemma AcceptedURLNonEmpty(url: string)
    requires AcceptsURL(url)
    ensures url != "" && url[..4] == "http"
  {
  }

  /** What the guard lets through and what it stops. */
  lemma AcceptsURLExamples()
    ensures AcceptsURL("http://192.168.0.10:3000") && AcceptsURL("https://x")
    ensures AcceptsURL("httpfoo")
    ensures !AcceptsURL("ftp://x") && !AcceptsURL("HTTP://x") && !AcceptsURL("htt") && !AcceptsURL("")
  {
    assert "ftp://x"[0] != 'h';
    assert "HTTP://x"[0] != 'h';
  }

  /** The storage effect of `salvar`: write `apiURL` when the guard accepts, else nothing. */
  function SaveEffect(items: map<string, string>, url: string): (after: map<string, string>)
    ensures AcceptsURL(url) ==> after == items[Service.ApiUrlKey := url]
    ensures !AcceptsURL(url) ==> after == items
  {
    if AcceptsURL(url) then items[Service.ApiUrlKey := url] else items
  }

  /** After an accepted save of `url`, the service resolves to `url` whatever its field holds. */
  lemma SaveThenServiceResolves(items: map<string, string>, url: string, field: string)
    requires AcceptsURL(url)
    ensures Service.Resolve(SaveEffect(items, url), field) == url
  {
    AcceptedURLNonEmpty(url);
  }

  /** A rejected save changes nothing the service can see. */
  lemma RejectedSaveKeepsResolution(items: map<string, string>, url: string, field: string)
    requires !AcceptsURL(url)
    ensures Service.Resolve(SaveEffect(items, url), field) == Service.Resolve(items, field)
  {
  }

  /** Reopening the screen after an accepted save shows the saved URL again. */
  lemma SaveThenLoad(items: map<string, string>, url: string, typed: string)
    requires AcceptsURL(url)
    ensures StoredOr(Lookup(SaveEffect(items, url), Service.ApiUrlKey), typed) == url
  {
    AcceptedURLNonEmpty(url);
  }

  // ---------------------------------------------------------------------------
  // The connection test

  /** The address `testarConexao` probes: `url + "/sensores"`. */
  function ProbeURL(url: string): string {
    url + ProbePath
  }

  /** The probe never hits the service's own sensors endpoint for the same URL. */
  lemma ProbeDiffersFromService(url: string)
    ensures ProbeURL(url) != Service.SensorsURL(url)
  {
    assert |ProbeURL(url)| == |url| + 9;
    assert |Service.SensorsURL(url)| == |url| + 13;
  }

  /** Typing the service's base followed by "/api" makes the probe hit the service's sensors endpoint. */
  lemma ProbeWithApiSuffix(base: string)
    ensures ProbeURL(base + "/api") == Service.SensorsURL(base)
  {
    assert base + "/api" + ProbePath == base + ("/api" + ProbePath);
  }

  /** And only that: a probe that hits the sensors endpoint of `base` was typed as `base + "/api"`. */
  lemma ProbeHitsServiceOnlyWithApiSuffix(url: string, base: string)
    requires ProbeURL(url) == Service.SensorsURL(base)
    ensures url == base + "/api"
  {
    assert |url| == |base| + 4;
    assert ProbeURL(url)[..|url|] == url;
    assert Service.SensorsURL(base)[..|base| + 4] == base + "/api";
  }

  /** The alert `testarConexao` raises, as data. */
  datatype ProbeOutcome =
    | MissingURL                // empty field: nothing is requested
    | Listed(count: nat)        // an array payload of `count` sensors
    | NotAList                  // a payload that is not an array
    | Failed(message: string)   // the request threw

  /** The three-way classification of a probe response. */
  function ClassifyProbe(resp: Response): (o: ProbeOutcome)
    ensures !o.MissingURL?
    ensures o.Listed? <==> resp.Data? && IsArray(resp.payload)
    ensures o.Listed? ==> o.count == |resp.payload.elems|
    ensures o.NotAList? <==> resp.Data? && !IsArray(resp.payload)
    ensures o.Failed? <==> resp.Thrown?
    ensures o.Failed? ==> o.message != "" && (resp.message != "" ==> o.message == resp.message)
  {
    match resp
    case Data(payload) => if IsArray(payload) then Listed(|payload.elems|) else NotAList
    case Thrown(msg) => Failed(if msg != "" then msg else UnknownErrorMessage)
  }

  /**
   * The screen's test and the service's `testConnection` classify a response
   * the same way; they differ only in the default text for an error without a message.
   */
  lemma ProbeAgreesWithService(resp: Response)
    ensures ClassifyProbe(resp).Listed? <==> Service.Diagnose(resp).success
    ensures ClassifyProbe(resp).Listed? ==> Service.Diagnose(resp).count == Some(ClassifyProbe(resp).count)
    ensures ClassifyProbe(resp).Failed? && resp.message != "" ==> Service.Diagnose(resp).message == ClassifyProbe(resp).message
    ensures resp == Thrown("") ==> ClassifyProbe(resp).message != Service.Diagnose(resp).message
  {
    assert |UnknownErrorMessage| != |Service.UnknownErrorMessage|;
  }

  /** The observable steps of a test: the spinner flag being set, and the request. */
  datatype ProbeStep = LoadingSet(on: bool) | Sent(req: Request)

  class ConfigScreen {
    var url: string
    var loading: bool
    ghost var steps: seq<ProbeStep>
    const store: KeyValueStore

    /** The field starts empty and no test is running. */
    constructor (store: KeyValueStore)
      ensures url == "" && !loading && steps == [] && this.store == store
    {
      url := "";
      loading := false;
      steps := [];
      this.store := store;
    }

    /** The mount effect: show the stored `apiURL` if it is present and non-empty. */
    method Load()
      modifies this`url
      ensures url == StoredOr(Lookup(store.items, Service.ApiUrlKey), old(url))
    {
      var saved := store.GetItem(Service.ApiUrlKey);
      if Truthy(saved) {
        url := saved.value;
      }
    }

    /** Typing into the field. */
    method Edit(text: string)
      modifies this`url
      ensures url == text
    {
      url := text;
    }

    /** `salvar`: store the field under `apiURL` when it starts with "http"; report whether it did. */
    method Save() returns (saved: bool)
      modifies store
      ensures saved <==> AcceptsURL(url)
      ensures store.items == SaveEffect(old(store.items), url)
    {
      if !StartsWith(url, HttpPrefix) {
        return false;
      }
      store.SetItem(Service.ApiUrlKey, url);
      saved := true;
    }

    /**
     * `testarConexao`: with an empty field nothing happens; otherwise the
     * spinner is on while the one probe request runs and off afterwards,
     * whatever the outcome.
     */
    method TestConnection(net: Network) returns (outcome: ProbeOutcome)
      modifies this`loading, this`steps, net
      ensures url == "" ==> outcome == MissingURL && net.log == old(net.log)
                            && loading == old(loading) && steps == old(steps)
      ensures url != "" ==> net.log == old(net.log) + [Get(ProbeURL(url))]
      ensures url != "" ==> outcome == ClassifyProbe(net.server(old(net.log), Get(ProbeURL(url))))
      ensures url != "" ==> !loading
      ensures url != "" ==> steps == old(steps) + [LoadingSet(true), Sent(Get(ProbeURL(url))), LoadingSet(false)]
    {
      if url == "" {
        return MissingURL;
      }
      loading := true;
      steps := steps + [LoadingSet(true)];
      var req := Get(ProbeURL(url));
      var resp := net.Send(req);
      steps := steps + [Sent(req)];
      outcome := ClassifyProbe(resp);
      loading := false;
      steps := steps + [LoadingSet(false)];
    }
  }
}
