/**
 * The persisted data model shared by the background script and the popup:
 * tab references, groups, and the `tabGroups` object mapping each group name
 * to its group.
 */
module Groups {
  import opened Wrappers
  import PropertyOrder

  /** A stored tab reference `{id, title, url, favIconUrl, added}`; `added` is a `Date.now()` timestamp. */
  datatype Tab = Tab(id: int, title: string, url: string, favIconUrl: Option<string>, added: int)

  /** The fields of a live browser tab that the extension copies into a tab reference. */
  datatype BrowserTab = BrowserTab(id: int, title: string, url: string, favIconUrl: Option<string>)

  /** A group `{name, tabs, created, color}`; `tabs` is in insertion order. */
  datatype Group = Group(name: string, tabs: seq<Tab>, created: int, color: string)

  /**
   * The `tabGroups` object: `keys` is what `Object.keys` returns for it and
   * `groups` the value stored under each key.
   */
  datatype Mapping = Mapping(keys: seq<string>, groups: map<string, Group>)

  /** What `storage.local.get('tabGroups')` delivered: the stored value (None when absent), or an error. */
  datatype LoadResult = Loaded(tabGroups: Option<Mapping>) | LoadFailed

  const Empty: Mapping := Mapping([], map[])

  /** The eight colours `getRandomColor` draws from. */
  const Palette: seq<string> := [
    "#6366f1", "#8b5cf6", "#ec4899", "#ef4444",
    "#f59e0b", "#10b981", "#06b6d4", "#3b82f6"
  ]

  /** `colors[Math.floor(Math.random() * colors.length)]`, where `roll` is the value `Math.random()` returned. */
  function RandomColor(roll: real): (color: string)
    requires 0.0 <= roll < 1.0
    ensures color in Palette
  {
    var i := (roll * |Palette| as real).Floor;
    assert 0 <= i < |Palette|;
    Palette[i]
  }

  /** The tab reference built from a live tab at time `added`. */
  function TabFrom(tab: BrowserTab, added: int): Tab {
    Tab(tab.id, tab.title, tab.url, tab.favIconUrl, added)
  }

  /** `tabs.find(tab => tab.url === url)` finds something. */
  predicate HasUrl(tabs: seq<Tab>, url: string) {
    exists i :: 0 <= i < |tabs| && tabs[i].url == url
  }

  predicate UrlsDistinct(tabs: seq<Tab>) {
    forall i, j :: 0 <= i < j < |tabs| ==> tabs[i].url != tabs[j].url
  }

  /** What every JavaScript object guarantees: its key list is in property order and lists exactly its keys. */
  predicate Valid(m: Mapping) {
    && PropertyOrder.Ordered(m.keys)
    && (forall k :: k in m.keys ==> k in m.groups)
    && (forall k :: k in m.groups ==> k in m.keys)
  }

  /** What the extension's own operations maintain: each group is stored under its own name and holds each URL once. */
  predicate WellFormed(m: Mapping) {
    && Valid(m)
    && forall k :: k in m.groups ==> m.groups[k].name == k && UrlsDistinct(m.groups[k].tabs)
  }

  predicate LoadResultValid(result: LoadResult) {
    result.Loaded? && result.tabGroups.Some? ==> Valid(result.tabGroups.value)
  }

  /** The storage value a load installs: `result.tabGroups || {}`, always a valid mapping. */
  function StoredValue(result: LoadResult): (m: Mapping)
    requires result.Loaded? && LoadResultValid(result)
    ensures Valid(m)
    ensures result.tabGroups.Some? ==> m == result.tabGroups.value
    ensures result.tabGroups.None? ==> m == Empty
  {
    result.tabGroups.GetOr(Empty)
  }
}
