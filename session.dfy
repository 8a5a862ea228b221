/**
 * The three components that share the `apiURL` setting, run together: any
 * sequence of service initialisations, service updates, and saves from the
 * two URL screens, applied to one shared store.
 */
module Session {
  import opened Storage
  import Service
  import Config
  import History

  /** The shared store and the service's in-memory field. */
  datatype System = System(items: map<string, string>, field: string)

  datatype Event =
    | ServiceInit                 // ApiService.init()
    | ServiceUpdate(url: string)  // ApiService.updateBaseURL(url)
    | ConfigSave(url: string)     // ConfigScreen's salvar with `url` in the field
    | HistorySave(url: string)    // HistoryScreen's salvar with `url` in the field

  /** Each event's effect, as the corresponding method's contract states it (see `Apply`). */
  function Step(s: System, e: Event): System {
    match e
    case ServiceInit => s.(field := Service.Resolve(s.items, s.field))
    case ServiceUpdate(u) => System(s.items[Service.ApiUrlKey := u], u)
    case ConfigSave(u) => s.(items := Config.SaveEffect(s.items, u))
    case HistorySave(u) => s.(items := History.SaveEffect(s.items, u))
  }

  function Run(s: System, events: seq<Event>): System
    decreases |events|
  {
    if events == [] then s else Step(Run(s, events[..|events| - 1]), events[|events| - 1])
  }

  /** What `getBaseURL` returns in state `s`: `Service.ApiService.Resolved()` on this snapshot of the store and the field. */
  function Resolved(s: System): string {
    Service.Resolve(s.items, s.field)
  }

  /** The events that decide the service's URL: an update, or a save the config screen accepts. */
  predicate SetsServiceURL(e: Event) {
    e.ServiceUpdate? || (e.ConfigSave? && Config.AcceptsURL(e.url))
  }

  lemma StepSetsURL(s: System, e: Event)
    requires SetsServiceURL(e)
    ensures Resolved(Step(s, e)) == e.url
  {
    if e.ConfigSave? {
      Config.SaveThenServiceResolves(s.items, e.url, s.field);
    }
  }

  lemma StepKeepsURL(s: System, e: Event)
    requires !SetsServiceURL(e)
    ensures Resolved(Step(s, e)) == Resolved(s)
  {
    match e
    case ServiceInit => Service.InitPreservesResolution(s.items, s.field);
    case ConfigSave(u) => Config.RejectedSaveKeepsResolution(s.items, u, s.field);
    case HistorySave(u) => History.SaveKeepsServiceURL(s.items, u, s.field);
  }

  /**
   * After any session, the service resolves to the URL of the last event that
   * sets it, however many initialisations and history-screen saves follow.
   */
  lemma {:induction false} LastSetterDecides(s: System, events: seq<Event>, i: nat)
    requires i < |events| && SetsServiceURL(events[i])
    requires forall j :: i < j < |events| ==> !SetsServiceURL(events[j])
    ensures Resolved(Run(s, events)) == events[i].url
    decreases |events|
  {
    var prefix := events[..|events| - 1];
    if i == |events| - 1 {
      StepSetsURL(Run(s, prefix), events[i]);
    } else {
      assert prefix[i] == events[i];
      forall j | i < j < |prefix| ensures !SetsServiceURL(prefix[j]) {
        assert prefix[j] == events[j];
      }
      LastSetterDecides(s, prefix, i);
      StepKeepsURL(Run(s, prefix), events[|events| - 1]);
    }
  }

  /** A session without a setter leaves the resolved URL as it was. */
  lemma {:induction false} NoSetterKeepsURL(s: System, events: seq<Event>)
    requires forall j :: 0 <= j < |events| ==> !SetsServiceURL(events[j])
    ensures Resolved(Run(s, events)) == Resolved(s)
    decreases |events|
  {
    if events != [] {
      var prefix := events[..|events| - 1];
      forall j | 0 <= j < |prefix| ensures !SetsServiceURL(prefix[j]) {
        assert prefix[j] == events[j];
      }
      NoSetterKeepsURL(s, prefix);
      StepKeepsURL(Run(s, prefix), events[|events| - 1]);
    }
  }

  /** From a fresh install, only the default URL is ever resolved until a setter runs. */
  lemma {:induction false} FreshInstallUsesDefault(events: seq<Event>)
    requires forall j :: 0 <= j < |events| ==> !SetsServiceURL(events[j])
    ensures Resolved(Run(System(map[], Service.DefaultBaseURL), events)) == Service.DefaultBaseURL
  {
    NoSetterKeepsURL(System(map[], Service.DefaultBaseURL), events);
  }

  // ---------------------------------------------------------------------------
  // The same facts on the objects themselves

  /** An accepted save on the config screen is what the service's next `getBaseURL` returns. */
  method ConfigSaveThenGetBaseURL(screen: Config.ConfigScreen, service: Service.ApiService)
    returns (saved: bool, base: string)
    requires screen.store == service.store
    modifies screen.store
    ensures saved <==> Config.AcceptsURL(screen.url)
    ensures !saved ==> screen.store.items == old(screen.store.items)
    ensures saved ==> base == screen.url
    ensures !saved ==> base == old(service.Resolved())
  {
    saved := screen.Save();
    base := service.GetBaseURL();
    if saved {
      Config.SaveThenServiceResolves(old(screen.store.items), screen.url, service.baseURL);
    }
  }

  /** A save on the history screen never changes what the service's next `getBaseURL` returns. */
  method HistorySaveThenGetBaseURL(screen: History.HistoryScreen, service: Service.ApiService)
    returns (saved: bool, base: string)
    requires screen.store == service.store
    modifies screen.store
    ensures base == old(service.Resolved())
  {
    saved := screen.Save();
    base := service.GetBaseURL();
    History.SaveKeepsServiceURL(old(screen.store.items), screen.url, service.baseURL);
  }

  // ---------------------------------------------------------------------------
  // `Step` and `Run` as what the objects do, on objects sharing one store

  /** The shared store and the service's field, as `Step` and `Run` see them. */
  ghost function Snapshot(service: Service.ApiService): System
    reads service, service.store
  {
    System(service.store.items, service.baseURL)
  }

  /**
   * Performs `e` on the objects: the service's `init` or `updateBaseURL`, or a
   * screen's field edited to the event's URL and then saved. The new state is
   * the one `Step` gives.
   */
  method Apply(service: Service.ApiService, cfg: Config.ConfigScreen, hist: History.HistoryScreen, e: Event)
    requires cfg.store == service.store && hist.store == service.store
    modifies service, service.store, cfg`url, hist`url
    ensures Snapshot(service) == Step(old(Snapshot(service)), e)
  {
    match e
    case ServiceInit => service.Init();
    case ServiceUpdate(u) => service.UpdateBaseURL(u);
    case ConfigSave(u) =>
      cfg.Edit(u);
      var _ := cfg.Save();
    case HistorySave(u) =>
      hist.Edit(u);
      var _ := hist.Save();
  }

  /** Performs the events in order; the new state is the one `Run` gives. */
  method ApplyAll(service: Service.ApiService, cfg: Config.ConfigScreen, hist: History.HistoryScreen, events: seq<Event>)
    requires cfg.store == service.store && hist.store == service.store
    modifies service, service.store, cfg`url, hist`url
    ensures Snapshot(service) == Run(old(Snapshot(service)), events)
    decreases |events|
  {
    if events != [] {
      ApplyAll(service, cfg, hist, events[..|events| - 1]);
      Apply(service, cfg, hist, events[|events| - 1]);
    }
  }

  /**
   * `LastSetterDecides` on the objects: after the events, the service's
   * `getBaseURL` returns the URL of the last event that sets it.
   */
  method LastSetterDecidesOnObjects(service: Service.ApiService, cfg: Config.ConfigScreen, hist: History.HistoryScreen,
                                    events: seq<Event>, i: nat)
    returns (base: string)
    requires cfg.store == service.store && hist.store == service.store
    requires i < |events| && SetsServiceURL(events[i])
    requires forall j :: i < j < |events| ==> !SetsServiceURL(events[j])
    modifies service, service.store, cfg`url, hist`url
    ensures Snapshot(service) == Run(old(Snapshot(service)), events)
    ensures base == events[i].url
  {
    ApplyAll(service, cfg, hist, events);
    base := service.GetBaseURL();
    LastSetterDecides(old(Snapshot(service)), events, i);
  }
}
