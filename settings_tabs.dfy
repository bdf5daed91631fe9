/**
 * The settings page's tab state: the tab read from the URL hash, kept in step
 * with later hash changes, and written back to the hash when a tab is chosen.
 */
module SettingsTabs {
  import opened Wrappers
  import opened JsString

  const DefaultTab: string := "expense-categories"

  /** The three tab values the hash may name. */
  predicate IsTab(s: string) {
    s == "expense-categories" || s == "income-categories" || s == "labels"
  }

  /** The hash as the handlers read it: `hash.replace("#", "")`, which drops the first "#" only. */
  function HashValue(hash: string): string {
    RemoveFirst(hash, '#')
  }

  /** `getInitialTab`; `window` is None while rendering on the server. */
  function InitialTab(window: Option<string>): (r: string)
    ensures IsTab(r)
  {
    if window.Some? && IsTab(HashValue(window.value)) then HashValue(window.value) else DefaultTab
  }

  /** The active tab after `handleHashChange`: a known tab value is taken, anything else ignored. */
  function AfterHashChange(activeTab: string, hash: string): (r: string)
    ensures IsTab(activeTab) ==> IsTab(r)
  {
    if IsTab(HashValue(hash)) then HashValue(hash) else activeTab
  }

  /** The tab a hash names, if any: the one description both readers share. */
  function NamedTab(hash: string): (r: Option<string>)
    ensures r.Some? ==> IsTab(r.value)
  {
    if IsTab(HashValue(hash)) then Some(HashValue(hash)) else None
  }

  /** The initial tab is the tab a hash names, else the default; no window gives the default. */
  lemma InitialTabSpec(window: Option<string>)
    ensures window.None? ==> InitialTab(window) == DefaultTab
    ensures window.Some? && NamedTab(window.value).Some? ==> InitialTab(window) == NamedTab(window.value).value
    ensures window.Some? && NamedTab(window.value).None? ==> InitialTab(window) == DefaultTab
  {
  }

  /** A hash naming no tab leaves the active tab as it was; one naming a tab selects it. */
  lemma HashChangeSpec(activeTab: string, hash: string)
    ensures NamedTab(hash).None? ==> AfterHashChange(activeTab, hash) == activeTab
    ensures NamedTab(hash).Some? ==> AfterHashChange(activeTab, hash) == NamedTab(hash).value
  {
  }

  /** `"#" + t` names `t` for each tab, so what `handleTabChange` writes, both readers read back. */
  lemma {:induction false} WrittenHashReadsBack(t: string, activeTab: string)
    requires IsTab(t)
    ensures HashValue("#" + t) == t
    ensures NamedTab("#" + t) == Some(t)
    ensures InitialTab(Some("#" + t)) == t
    ensures AfterHashChange(activeTab, "#" + t) == t
  {
    assert ("#" + t)[0] == '#' && ("#" + t)[1..] == t;
  }

  /** The component's state: the active tab and the URL's hash. */
  class Tabs {
    var activeTab: string
    var hash: string

    predicate Valid()
      reads this
    {
      IsTab(activeTab)
    }

    /** `useState(getInitialTab)` on the client, whose hash is the window's. */
    constructor (windowHash: string)
      ensures activeTab == InitialTab(Some(windowHash)) && hash == windowHash
      ensures Valid()
    {
      activeTab := InitialTab(Some(windowHash));
      hash := windowHash;
    }

    /** `handleHashChange`, run on mount and on every `hashchange` event. */
    method HandleHashChange()
      modifies this
      ensures activeTab == AfterHashChange(old(activeTab), hash) && hash == old(hash)
      ensures old(Valid()) ==> Valid()
    {
      var value := HashValue(hash);
      if IsTab(value) {
        activeTab := value;
      }
    }

    /** A `hashchange` event: the browser's new hash, then the handler. */
    method NavigateToHash(newHash: string)
      modifies this
      ensures hash == newHash && activeTab == AfterHashChange(old(activeTab), newHash)
      ensures old(Valid()) ==> Valid()
    {
      hash := newHash;
      HandleHashChange();
    }

    /** `handleTabChange`: select the tab and write `#value` as the hash. */
    method HandleTabChange(value: string)
      modifies this
      ensures activeTab == value && hash == "#" + value
    {
      activeTab := value;
      hash := "#" + value;
    }
  }

  /** Choosing a tab and reloading the page, or re-running the hash handler, keeps that tab. */
  method TabSurvivesReload(t: string) returns (reloaded: Tabs)
    requires IsTab(t)
    ensures reloaded.activeTab == t && reloaded.hash == "#" + t
  {
    var tabs := new Tabs(DefaultTab);
    tabs.HandleTabChange(t);
    WrittenHashReadsBack(t, tabs.activeTab);
    reloaded := new Tabs(tabs.hash);
    reloaded.HandleHashChange();
  }
}
