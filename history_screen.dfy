/**
 * The second URL screen (src/screens/HistoryScreen.tsx, whose component is
 * itself named ConfigScreen): the same edit-and-save logic, but under the
 * storage key `API_URL`, which nothing in the service reads.
 */
module History {
  import opened Wrappers
  import opened Strings
  import opened Storage
  import Service
  import Config

  const HistoryUrlKey: string := "API_URL"

  /** The storage effect of this screen's `salvar`: write `API_URL` when the guard accepts. */
  function SaveEffect(items: map<string, string>, url: string): (after: map<string, string>)
    ensures Config.AcceptsURL(url) ==> after == items[HistoryUrlKey := url]
    ensures !Config.AcceptsURL(url) ==> after == items
  {
    if Config.AcceptsURL(url) then items[HistoryUrlKey := url] else items
  }

  /** A save here writes `API_URL` and no other key. */
  lemma SaveTouchesOnlyItsKey(items: map<string, string>, url: string, key: string)
    requires key != HistoryUrlKey
    ensures Lookup(SaveEffect(items, url), key) == Lookup(items, key)
  {
  }

  /** The two keys differ, so a save here never changes the URL the service resolves to. */
  lemma SaveKeepsServiceURL(items: map<string, string>, url: string, field: string)
    ensures Service.Resolve(SaveEffect(items, url), field) == Service.Resolve(items, field)
  {
    assert |HistoryUrlKey| != |Service.ApiUrlKey|;
    SaveTouchesOnlyItsKey(items, url, Service.ApiUrlKey);
  }

  /** Reopening this screen after an accepted save shows the saved URL again. */
  lemma SaveThenLoad(items: map<string, string>, url: string, typed: string)
    requires Config.AcceptsURL(url)
    ensures StoredOr(Lookup(SaveEffect(items, url), HistoryUrlKey), typed) == url
  {
    Config.AcceptedURLNonEmpty(url);
  }

  class HistoryScreen {
    var url: string
    const store: KeyValueStore

    constructor (store: KeyValueStore)
      ensures url == "" && this.store == store
    {
      url := "";
      this.store := store;
    }

    /** The mount effect: show the stored `API_URL` if it is present and non-empty. */
    method Load()
      modifies this`url
      ensures url == StoredOr(Lookup(store.items, HistoryUrlKey), old(url))
    {
      var saved := store.GetItem(HistoryUrlKey);
      if Truthy(saved) {
        url := saved.value;
      }
    }

    method Edit(text: string)
      modifies this`url
      ensures url == text
    {
      url := text;
    }

    /** `salvar`: store the field under `API_URL` when it starts with "http"; report whether it did. */
    method Save() returns (saved: bool)
      modifies store
      ensures saved <==> Config.AcceptsURL(url)
      ensures store.items == SaveEffect(old(store.items), url)
    {
      if !StartsWith(url, Config.HttpPrefix) {
        return false;
      }
      store.SetItem(HistoryUrlKey, url);
      saved := true;
    }
  }
}
