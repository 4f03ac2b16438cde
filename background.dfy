/**
 * The background script: its cached copy of the mapping, the repository
 * operations it performs itself, the context-menu rebuild, the message
 * switch and the menu-click handler.
 */
module Background {
  import opened Wrappers
  import opened Groups
  import PropertyOrder
  import Repository
  import Menu
  import OpenAll

  /** A runtime message: its `action` and the payload fields the handled actions read. */
  datatype Message = Message(action: string, groupName: string, tabData: Tab)

  datatype Response = GroupsResponse(groups: Mapping) | SuccessResponse | ErrorResponse(error: string)

  /** The cases of `handleMessage`'s switch. */
  datatype Action =
    | GetGroupsAction | AddTabToGroupAction | CreateGroupAction
    | OpenAllTabsAction | UpdateContextMenusAction | UnknownAction

  const UnknownActionError: string := "Unknown action"

  function ActionName(a: Action): string
    requires a != UnknownAction
  {
    match a
    case GetGroupsAction => "getGroups"
    case AddTabToGroupAction => "addTabToGroup"
    case CreateGroupAction => "createGroup"
    case OpenAllTabsAction => "openAllTabs"
    case UpdateContextMenusAction => "updateContextMenus"
  }

  /** The `switch (message.action)`: a case label selects its case, any other string the default. */
  function ParseAction(action: string): (a: Action)
    ensures a != UnknownAction ==> ActionName(a) == action
    ensures a == UnknownAction ==> forall b :: b != UnknownAction ==> ActionName(b) != action
  {
    if action == "getGroups" then GetGroupsAction
    else if action == "addTabToGroup" then AddTabToGroupAction
    else if action == "createGroup" then CreateGroupAction
    else if action == "openAllTabs" then OpenAllTabsAction
    else if action == "updateContextMenus" then UpdateContextMenusAction
    else UnknownAction
  }

  lemma ParseActionName(a: Action)
    requires a != UnknownAction
    ensures ParseAction(ActionName(a)) == a
  {
  }

  /** `changes.tabGroups` of a `storage.onChanged` event; `newValue` is absent when the key was removed. */
  datatype StorageChange = StorageChange(newValue: Option<Mapping>)

  predicate ChangeValid(change: Option<StorageChange>) {
    change.Some? && change.value.newValue.Some? ==> Groups.Valid(change.value.newValue.value)
  }

  /** The notifications the click handler shows. */
  datatype Notification = TabAddedToNewGroup(groupName: string) | TabAddedToGroup(groupName: string) | OpenNotice(outcome: OpenAll.Outcome)

  class TabGrouperBackground {
    /** `Object.keys(this.groups)`. */
    var keys: seq<string>
    /** `this.groups`. */
    var groups: map<string, Group>
    /** Every whole-mapping write this script has issued to `storage.local` under `tabGroups`, oldest first. */
    var saved: seq<Mapping>
    /** The context-menu items as last created, in creation order. */
    var menu: seq<Menu.MenuItem>

    function Snapshot(): Mapping
      reads this
    {
      Mapping(keys, groups)
    }

    ghost predicate Valid()
      reads this
    {
      Groups.Valid(Snapshot())
    }

    /**
     * Persistence keeps up with the cache: writes are only appended, an
     * operation that wrote nothing left the mapping and the menu alone, an
     * operation that left the mapping alone wrote nothing and kept the menu,
     * and if it wrote, the last write is the new mapping and the menu shows it.
     */
    twostate predicate ChangesSaved()
      reads this
    {
      && Valid()
      && old(saved) <= saved
      && (Snapshot() == old(Snapshot()) ==> saved == old(saved) && menu == old(menu))
      && (|saved| == |old(saved)| ==> Snapshot() == old(Snapshot()) && menu == old(menu))
      && (|saved| > |old(saved)| ==> saved[|saved| - 1] == Snapshot() && menu == Menu.MenuTree(Snapshot()))
    }

    /** A fresh background script: no groups, and the menu built for no groups. The first `loadGroups` is a separate call. */
    constructor ()
      ensures Valid() && Snapshot() == Empty && saved == [] && menu == Menu.MenuTree(Empty)
    {
      keys, groups, saved, menu := [], map[], [], [];
      new;
      UpdateContextMenus();
    }

    /** `saveGroups`: the whole mapping is written. */
    method SaveGroups()
      modifies this`saved
      ensures saved == old(saved) + [Snapshot()]
    {
      saved := saved + [Snapshot()];
    }

    /** `loadGroups`: the cache becomes the stored value (or `{}`) and the menu is rebuilt; a failed read changes nothing. */
    method LoadGroups(result: LoadResult)
      requires Valid() && LoadResultValid(result)
      modifies this`keys, this`groups, this`menu
      ensures Valid()
      ensures result.LoadFailed? ==> Snapshot() == old(Snapshot()) && menu == old(menu)
      ensures result.Loaded? ==> Snapshot() == StoredValue(result) && menu == Menu.MenuTree(Snapshot())
    {
      if result.Loaded? {
        var stored := StoredValue(result);
        keys, groups := stored.keys, stored.groups;
        UpdateContextMenus();
      }
    }

    /** `updateContextMenus`: after `removeAll`, the root, then the group items in key order, then the closing items. */
    method UpdateContextMenus()
      requires Valid()
      modifies this`menu
      ensures menu == Menu.MenuTree(Snapshot())
    {
      var items := [Menu.RootItem];
      var names := keys;
      if |names| == 0 {
        items := items + [Menu.CreateGroupItem(false)];
      } else {
        for i := 0 to |names|
          invariant items == [Menu.RootItem] + Menu.EntriesFor(names[..i], groups)
        {
          var group := groups[names[i]];
          assert names[..i + 1][..i] == names[..i];
          items := items + Menu.GroupEntries(names[i], |group.tabs|);
        }
        assert names[..|names|] == names;
        items := items + [Menu.SeparatorItem, Menu.CreateGroupItem(true)];
      }
      menu := items;
    }

    /** `createGroup(groupName)`, with `created` the `Date.now()` value and `roll` the `Math.random()` value. */
    method CreateGroup(groupName: string, created: int, roll: real) returns (ok: bool)
      requires Valid() && 0.0 <= roll < 1.0
      modifies this`keys, this`groups, this`saved, this`menu
      ensures Valid()
      ensures ok == Repository.CanCreate(old(Snapshot()), groupName)
      ensures Snapshot() == Repository.TryCreate(old(Snapshot()), groupName, created, RandomColor(roll))
      ensures ok ==> saved == old(saved) + [Snapshot()] && menu == Menu.MenuTree(Snapshot())
      ensures !ok ==> saved == old(saved) && menu == old(menu)
    {
      if groupName == "" || groupName in groups {
        return false;
      }
      groups := groups[groupName := Group(groupName, [], created, RandomColor(roll))];
      keys := PropertyOrder.Insert(keys, groupName);
      SaveGroups();
      UpdateContextMenus();
      ok := true;
    }

    /** `addTabToGroup(groupName, tabData)`. */
    method AddTabToGroup(groupName: string, tabData: Tab) returns (ok: bool)
      requires Valid()
      modifies this`groups, this`saved, this`menu
      ensures Valid()
      ensures ok == Repository.CanAdd(old(Snapshot()), groupName, tabData.url)
      ensures Snapshot() == Repository.TryAdd(old(Snapshot()), groupName, tabData)
      ensures ok ==> saved == old(saved) + [Snapshot()] && menu == Menu.MenuTree(Snapshot())
      ensures !ok ==> saved == old(saved) && menu == old(menu)
    {
      if groupName !in groups {
        return false;
      }
      var existingTab := HasUrl(groups[groupName].tabs, tabData.url);
      if existingTab {
        return false;
      }
      var group := groups[groupName];
      groups := groups[groupName := group.(tabs := group.tabs + [tabData])];
      SaveGroups();
      UpdateContextMenus();
      ok := true;
    }

    /** `openAllTabsInGroup(groupName)`; `isMobile` is the outcome of the browser detection. */
    method OpenAllTabsInGroup(groupName: string, isMobile: bool)
      returns (requests: seq<OpenAll.Request>, outcome: OpenAll.Outcome)
      ensures OpenAll.Plan(requests, outcome) == OpenAll.OpenAllPlan(groups, groupName, isMobile)
    {
      requests, outcome := OpenAll.OpenAllTabsInGroup(groups, groupName, isMobile);
    }

    /** The `storage.onChanged` listener: a change of `tabGroups` in the local area replaces the cache wholesale and rebuilds the menu. */
    method OnStorageChanged(areaName: string, change: Option<StorageChange>)
      requires Valid() && ChangeValid(change)
      modifies this`keys, this`groups, this`menu
      ensures Valid()
      ensures areaName == "local" && change.Some? ==>
                Snapshot() == change.value.newValue.GetOr(Empty) && menu == Menu.MenuTree(Snapshot())
      ensures !(areaName == "local" && change.Some?) ==> Snapshot() == old(Snapshot()) && menu == old(menu)
    {
      if areaName == "local" && change.Some? {
        var newValue := change.value.newValue.GetOr(Empty);
        keys, groups := newValue.keys, newValue.groups;
        UpdateContextMenus();
      }
    }

    /**
     * `handleMessage`: `loaded` is what storage returns to the reloads,
     * `created` and `roll` feed a group creation, `isMobile` an open-all.
     * Creation and adding answer success even when declined; any other
     * action string is answered with the error "Unknown action".
     */
    method HandleMessage(message: Message, loaded: LoadResult, created: int, roll: real, isMobile: bool)
      returns (response: Response, requests: seq<OpenAll.Request>, notification: Option<Notification>)
      requires Valid() && LoadResultValid(loaded) && 0.0 <= roll < 1.0
      modifies this`keys, this`groups, this`saved, this`menu
      ensures Valid()
      ensures var a := ParseAction(message.action); a != OpenAllTabsAction ==> requests == [] && notification == None
      ensures var a := ParseAction(message.action);
        a == UnknownAction ==>
          response == ErrorResponse(UnknownActionError) &&
          Snapshot() == old(Snapshot()) && saved == old(saved) && menu == old(menu)
      ensures var a := ParseAction(message.action);
        a in {GetGroupsAction, UpdateContextMenusAction} ==>
          && saved == old(saved)
          && (loaded.Loaded? ==> Snapshot() == StoredValue(loaded) && menu == Menu.MenuTree(Snapshot()))
          && (loaded.LoadFailed? ==> Snapshot() == old(Snapshot()))
      ensures ParseAction(message.action) == GetGroupsAction ==> response == GroupsResponse(Snapshot())
      ensures ParseAction(message.action) == GetGroupsAction && loaded.LoadFailed? ==> menu == old(menu)
      ensures ParseAction(message.action) == UpdateContextMenusAction ==>
                response == SuccessResponse && menu == Menu.MenuTree(Snapshot())
      ensures ParseAction(message.action) == CreateGroupAction ==>
                && response == SuccessResponse
                && Snapshot() == Repository.TryCreate(old(Snapshot()), message.groupName, created, RandomColor(roll))
      ensures ParseAction(message.action) == AddTabToGroupAction ==>
                && response == SuccessResponse
                && Snapshot() == Repository.TryAdd(old(Snapshot()), message.groupName, message.tabData)
      ensures ParseAction(message.action) == OpenAllTabsAction ==>
                && response == SuccessResponse
                && Snapshot() == old(Snapshot()) && saved == old(saved) && menu == old(menu)
                && var plan := OpenAll.OpenAllPlan(old(groups), message.groupName, isMobile);
                   requests == plan.requests && notification == Some(OpenNotice(plan.outcome))
      ensures var a := ParseAction(message.action);
        a in {CreateGroupAction, AddTabToGroupAction} ==>
          (Snapshot() == old(Snapshot()) ==> saved == old(saved) && menu == old(menu)) &&
          (Snapshot() != old(Snapshot()) ==> saved == old(saved) + [Snapshot()] && menu == Menu.MenuTree(Snapshot()))
    {
      requests, notification := [], None;
      match ParseAction(message.action)
      case GetGroupsAction =>
        LoadGroups(loaded);
        response := GroupsResponse(Snapshot());
      case AddTabToGroupAction =>
        var added := AddTabToGroup(message.groupName, message.tabData);
        response := SuccessResponse;
      case CreateGroupAction =>
        var createdOk := CreateGroup(message.groupName, created, roll);
        response := SuccessResponse;
      case OpenAllTabsAction =>
        var outcome;
        requests, outcome := OpenAllTabsInGroup(message.groupName, isMobile);
        notification := Some(OpenNotice(outcome));
        response := SuccessResponse;
      case UpdateContextMenusAction =>
        LoadGroups(loaded);
        UpdateContextMenus();
        response := SuccessResponse;
      case UnknownAction =>
        response := ErrorResponse(UnknownActionError);
    }

    /** The `createGroup` item with a non-empty prompted name: create the group, then add the clicked tab to the group of that name. */
    method CreateGroupWithTab(name: string, tabData: Tab, created: int, roll: real)
      requires Valid() && name != "" && 0.0 <= roll < 1.0
      modifies this`keys, this`groups, this`saved, this`menu
      ensures Valid()
      ensures Snapshot() == Repository.TryAdd(Repository.TryCreate(old(Snapshot()), name, created, RandomColor(roll)), name, tabData)
      ensures name in groups && HasUrl(groups[name].tabs, tabData.url)
      ensures ChangesSaved()
      ensures var c := Repository.TryCreate(old(Snapshot()), name, created, RandomColor(roll));
        saved == old(saved) + (if c != old(Snapshot()) then [c] else []) + (if Snapshot() != c then [Snapshot()] else [])
    {
      var createdOk := CreateGroup(name, created, roll);
      ghost var between, savedBetween, menuBetween := Snapshot(), saved, menu;
      var addedOk := AddTabToGroup(name, tabData);
      if addedOk {
        assert saved == savedBetween + [Snapshot()];
      } else {
        assert Snapshot() == between && saved == savedBetween && menu == menuBetween;
      }
    }

    /**
     * `handleContextMenuClick(info, tab)`: `prompted` is what
     * `promptForGroupName` returned, `created` and `added` the `Date.now()`
     * values of the new group and of the tab reference.
     */
    method HandleContextMenuClick(menuItemId: string, tab: BrowserTab, prompted: Option<string>,
                                  created: int, added: int, roll: real, isMobile: bool)
      returns (requests: seq<OpenAll.Request>, notification: Option<Notification>)
      requires Valid() && 0.0 <= roll < 1.0
      modifies this`keys, this`groups, this`saved, this`menu
      ensures Valid()
      ensures ChangesSaved()
      ensures Menu.RouteClick(menuItemId) != Menu.CreateGroupClick && !Menu.RouteClick(menuItemId).AddClick? ==>
                Snapshot() == old(Snapshot())
      ensures Menu.RouteClick(menuItemId) == Menu.CreateGroupClick ==>
                && requests == []
                && ((prompted.None? || prompted.value == "") ==> Snapshot() == old(Snapshot()) && notification == None)
                && (prompted.Some? && prompted.value != "" ==>
                      var name := prompted.value;
                      && notification == Some(TabAddedToNewGroup(name))
                      && Snapshot() == Repository.TryAdd(Repository.TryCreate(old(Snapshot()), name, created, RandomColor(roll)),
                                                         name, TabFrom(tab, added))
                      && name in groups && HasUrl(groups[name].tabs, tab.url)
                      && var c := Repository.TryCreate(old(Snapshot()), name, created, RandomColor(roll));
                         saved == old(saved) + (if c != old(Snapshot()) then [c] else []) + (if Snapshot() != c then [Snapshot()] else []))
      ensures Menu.RouteClick(menuItemId).OpenClick? ==>
                var plan := OpenAll.OpenAllPlan(old(groups), Menu.RouteClick(menuItemId).groupName, isMobile);
                requests == plan.requests && notification == Some(OpenNotice(plan.outcome))
      ensures Menu.RouteClick(menuItemId).AddClick? ==>
                var name := Menu.RouteClick(menuItemId).groupName;
                && requests == [] && notification == Some(TabAddedToGroup(name))
                && Snapshot() == Repository.TryAdd(old(Snapshot()), name, TabFrom(tab, added))
                && (Snapshot() != old(Snapshot()) ==> saved == old(saved) + [Snapshot()])
      ensures Menu.RouteClick(menuItemId) == Menu.NoClickAction ==> requests == [] && notification == None
    {
      requests, notification := [], None;
      match Menu.RouteClick(menuItemId)
      case CreateGroupClick =>
        if prompted.Some? && prompted.value != "" {
          var name := prompted.value;
          CreateGroupWithTab(name, TabFrom(tab, added), created, roll);
          notification := Some(TabAddedToNewGroup(name));
        }
      case OpenClick(name) =>
        var outcome;
        requests, outcome := OpenAllTabsInGroup(name, isMobile);
        notification := Some(OpenNotice(outcome));
      case AddClick(name) =>
        ghost var savedBefore := saved;
        var addedOk := AddTabToGroup(name, TabFrom(tab, added));
        if addedOk {
          assert saved == savedBefore + [Snapshot()];
        }
        notification := Some(TabAddedToGroup(name));
      case NoClickAction =>
    }
  }
}
