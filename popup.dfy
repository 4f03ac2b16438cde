/**
 * The popup: its cached copy of the mapping, the current tab, the group-name
 * text box, and the operations its buttons trigger.
 */
module Popup {
  import opened Wrappers
  import opened Strings
  import opened Groups
  import PropertyOrder
  import Repository
  import OpenAll

  /** Which notification `createGroup` ends with. */
  datatype CreateOutcome = EmptyName | AlreadyExists | Created

  /** Which notification `addTabToGroup` ends with. */
  datatype AddOutcome = NoActiveTab | MissingGroup | TabAlreadyInGroup | TabAdded

  const MaxDomainLength: nat := 30

  /**
   * `getDomainFromUrl`, given the `hostname` that `new URL(url)` yields (None
   * when the constructor throws): the first "www." is removed, and a result
   * longer than 30 characters is cut to its first 27 followed by "...".
   */
  function DomainFromUrl(hostname: Option<string>): (domain: string)
    ensures |domain| <= MaxDomainLength
    ensures hostname.None? ==> domain == "unknown"
    ensures hostname.Some? ==>
      var d := ReplaceFirst(hostname.value, "www.", "");
      && (|d| <= MaxDomainLength ==> domain == d)
      && (|d| > MaxDomainLength ==> |domain| == MaxDomainLength && domain[..27] == d[..27] && domain[27..] == "...")
  {
    match hostname
    case None => "unknown"
    case Some(host) =>
      var d := ReplaceFirst(host, "www.", "");
      if |d| > MaxDomainLength then d[..27] + "..." else d
  }

  /** A host name beginning with "www." is shown without it when the rest fits. */
  lemma DomainDropsLeadingWww(host: string)
    requires StartsWith(host, "www.") && |host| <= MaxDomainLength + 4
    ensures DomainFromUrl(Some(host)) == host[4..]
  {
  }

  class TabGrouper {
    /** `Object.keys(this.groups)`. */
    var keys: seq<string>
    /** `this.groups`. */
    var groups: map<string, Group>
    /** `this.currentTab`: the active tab of the current window, once known. */
    var currentTab: Option<BrowserTab>
    /** The value of the group-name text box. */
    var nameInput: string
    /** Every whole-mapping write the popup has issued to `storage.local` under `tabGroups`, oldest first. */
    var saved: seq<Mapping>

    function Snapshot(): Mapping
      reads this
    {
      Mapping(keys, groups)
    }

    ghost predicate Valid()
      reads this
    {
      Groups.Valid(Snapshot())
    }

    /** A fresh popup, before `init` has loaded anything. */
    constructor ()
      ensures Valid() && Snapshot() == Empty && currentTab == None && nameInput == "" && saved == []
    {
      keys, groups, currentTab, nameInput, saved := [], map[], None, "", [];
    }

    /** `loadGroups`: the cache becomes the stored value, `{}` when absent, and `{}` when the read fails. */
    method LoadGroups(result: LoadResult)
      requires LoadResultValid(result)
      modifies this`keys, this`groups
      ensures Valid()
      ensures Snapshot() == if result.Loaded? then StoredValue(result) else Empty
    {
      var stored := if result.Loaded? then StoredValue(result) else Empty;
      keys, groups := stored.keys, stored.groups;
    }

    /** `getCurrentTab`: `queried` is the active tab list of the current window, None when the query fails. */
    method GetCurrentTab(queried: Option<seq<BrowserTab>>)
      modifies this`currentTab
      ensures queried.Some? && queried.value != [] ==> currentTab == Some(queried.value[0])
      ensures !(queried.Some? && queried.value != []) ==> currentTab == old(currentTab)
    {
      if queried.Some? && |queried.value| > 0 {
        currentTab := Some(queried.value[0]);
      }
    }

    /** `saveGroups`: the whole mapping is written. */
    method SaveGroups()
      modifies this`saved
      ensures saved == old(saved) + [Snapshot()]
    {
      saved := saved + [Snapshot()];
    }

    /**
     * `createGroup`: the text box's value, trimmed, names the new group; the
     * box is cleared on success. `created` is `Date.now()`, `roll` the
     * `Math.random()` value.
     */
    method CreateGroup(created: int, roll: real) returns (outcome: CreateOutcome)
      requires Valid() && 0.0 <= roll < 1.0
      modifies this`keys, this`groups, this`saved, this`nameInput
      ensures Valid()
      ensures var name := Trim(old(nameInput));
        && outcome == (if name == "" then EmptyName else if name in old(groups) then AlreadyExists else Created)
        && (outcome == Created) == Repository.CanCreate(old(Snapshot()), name)
        && Snapshot() == Repository.TryCreate(old(Snapshot()), name, created, RandomColor(roll))
      ensures outcome == Created ==> saved == old(saved) + [Snapshot()] && nameInput == ""
      ensures outcome != Created ==> saved == old(saved) && nameInput == old(nameInput)
    {
      var groupName := Trim(nameInput);
      if groupName == "" {
        return EmptyName;
      }
      if groupName in groups {
        return AlreadyExists;
      }
      groups := groups[groupName := Group(groupName, [], created, RandomColor(roll))];
      keys := PropertyOrder.Insert(keys, groupName);
      SaveGroups();
      nameInput := "";
      outcome := Created;
    }

    /** `addTabToGroup(groupName)`: a reference to the current tab, stamped `added`, joins the group. */
    method AddTabToGroup(groupName: string, added: int) returns (outcome: AddOutcome)
      requires Valid()
      modifies this`groups, this`saved
      ensures Valid()
      ensures currentTab.None? ==> outcome == NoActiveTab && Snapshot() == old(Snapshot())
      ensures currentTab.Some? ==>
        var tabData := TabFrom(currentTab.value, added);
        && outcome == (if groupName !in old(groups) then MissingGroup
                       else if HasUrl(old(groups)[groupName].tabs, tabData.url) then TabAlreadyInGroup
                       else TabAdded)
        && Snapshot() == Repository.TryAdd(old(Snapshot()), groupName, tabData)
      ensures outcome == TabAdded ==> saved == old(saved) + [Snapshot()]
      ensures outcome != TabAdded ==> saved == old(saved)
    {
      if currentTab.None? {
        return NoActiveTab;
      }
      if groupName !in groups {
        return MissingGroup;
      }
      var tabData := TabFrom(currentTab.value, added);
      var existingTab := HasUrl(groups[groupName].tabs, tabData.url);
      if existingTab {
        return TabAlreadyInGroup;
      }
      var group := groups[groupName];
      groups := groups[groupName := group.(tabs := group.tabs + [tabData])];
      SaveGroups();
      outcome := TabAdded;
    }

    /** `deleteGroup(groupName)`; `confirmed` is the user's answer to the confirmation dialog. */
    method DeleteGroup(groupName: string, confirmed: bool)
      requires Valid()
      modifies this`keys, this`groups, this`saved
      ensures Valid()
      ensures confirmed ==> Snapshot() == Repository.Delete(old(Snapshot()), groupName) && saved == old(saved) + [Snapshot()]
      ensures !confirmed ==> Snapshot() == old(Snapshot()) && saved == old(saved)
    {
      if confirmed {
        groups := groups - {groupName};
        keys := PropertyOrder.Remove(keys, groupName);
        SaveGroups();
      }
    }

    /** `removeTabFromGroup(groupName, tabIndex)`: `splice(tabIndex, 1)` when the group and the tab exist. */
    method RemoveTabFromGroup(groupName: string, tabIndex: int) returns (removed: bool)
      requires Valid()
      modifies this`groups, this`saved
      ensures Valid()
      ensures removed == Repository.CanRemoveTab(old(Snapshot()), groupName, tabIndex)
      ensures Snapshot() == Repository.TryRemoveTab(old(Snapshot()), groupName, tabIndex)
      ensures removed ==> saved == old(saved) + [Snapshot()]
      ensures !removed ==> saved == old(saved)
    {
      if groupName in groups && 0 <= tabIndex < |groups[groupName].tabs| {
        var group := groups[groupName];
        groups := groups[groupName := group.(tabs := group.tabs[..tabIndex] + group.tabs[tabIndex + 1..])];
        SaveGroups();
        removed := true;
      } else {
        removed := false;
      }
    }

    /** `openAllTabsInGroup(groupName)`; `isMobile` is the outcome of the browser detection. */
    method OpenAllTabsInGroup(groupName: string, isMobile: bool)
      returns (requests: seq<OpenAll.Request>, outcome: OpenAll.Outcome)
      ensures OpenAll.Plan(requests, outcome) == OpenAll.OpenAllPlan(groups, groupName, isMobile)
    {
      requests, outcome := OpenAll.OpenAllTabsInGroup(groups, groupName, isMobile);
    }
  }
}
