/**
 * The context-menu tree the background script rebuilds from the mapping, and
 * the routing of a click on one of its items back to a command.
 */
module Menu {
  import opened Wrappers
  import opened Strings
  import opened Groups

  /** One `contextMenus.create` call: its id, parent id, title, and whether it is a separator (contexts are always page and tab). */
  datatype MenuItem = MenuItem(id: string, parentId: Option<string>, title: Option<string>, separator: bool)

  const RootId: string := "tabGrouper"
  const CreateGroupId: string := "createGroup"
  const SeparatorId: string := "separator"
  const OpenPrefix: string := "group_open_"
  const AddPrefix: string := "group_add_"

  function ParentId(name: string): string { "group_" + name }
  function OpenId(name: string): string { OpenPrefix + name }
  function AddId(name: string): string { AddPrefix + name }

  const RootItem: MenuItem := MenuItem(RootId, None, Some("Add to Tab Group"), false)
  const SeparatorItem: MenuItem := MenuItem(SeparatorId, Some(RootId), None, true)

  /** The "create new group" leaf; its title carries a plus sign only when groups are listed above it. */
  function CreateGroupItem(hasGroups: bool): MenuItem {
    MenuItem(CreateGroupId, Some(RootId),
             Some(if hasGroups then "\U{2795} Create New Group..." else "Create New Group..."), false)
  }

  /** The parent item's title: a folder sign, the name and the tab count in parentheses. */
  function GroupTitle(name: string, count: nat): string {
    "\U{1F4C1} " + name + " (" + NatToString(count) + ")"
  }

  /** The three items created for one group. */
  function GroupEntries(name: string, count: nat): seq<MenuItem> {
    [ MenuItem(ParentId(name), Some(RootId), Some(GroupTitle(name, count)), false),
      MenuItem(OpenId(name), Some(ParentId(name)), Some("Open All Tabs"), false),
      MenuItem(AddId(name), Some(ParentId(name)), Some("Add Current Tab"), false) ]
  }

  /** The items of the `forEach` over `names`, in that order. */
  function EntriesFor(names: seq<string>, groups: map<string, Group>): seq<MenuItem>
    requires forall k :: k in names ==> k in groups
  {
    if names == [] then []
    else
      var last := names[|names| - 1];
      EntriesFor(names[..|names| - 1], groups) + GroupEntries(last, |groups[last].tabs|)
  }

  /** The whole tree `updateContextMenus` creates after `removeAll`, in creation order. */
  function MenuTree(m: Mapping): (items: seq<MenuItem>)
    requires forall k :: k in m.keys ==> k in m.groups
    ensures |items| == (if m.keys == [] then 2 else 3 * |m.keys| + 3)
    ensures items[0] == RootItem && items[|items| - 1] == CreateGroupItem(m.keys != [])
  {
    EntriesForLayout(m.keys, m.groups);
    [RootItem] +
    if m.keys == [] then [CreateGroupItem(false)]
    else EntriesFor(m.keys, m.groups) + [SeparatorItem, CreateGroupItem(true)]
  }

  lemma {:induction false} EntriesForLayout(names: seq<string>, groups: map<string, Group>)
    requires forall k :: k in names ==> k in groups
    ensures |EntriesFor(names, groups)| == 3 * |names|
    ensures forall i, j :: 0 <= i < |names| && 0 <= j < 3 ==>
              EntriesFor(names, groups)[3 * i + j] == GroupEntries(names[i], |groups[names[i]].tabs|)[j]
  {
    if names != [] {
      var init := names[..|names| - 1];
      EntriesForLayout(init, groups);
      forall i, j | 0 <= i < |names| && 0 <= j < 3
        ensures EntriesFor(names, groups)[3 * i + j] == GroupEntries(names[i], |groups[names[i]].tabs|)[j]
      {
        if i < |init| {
          assert names[i] == init[i];
        }
      }
    }
  }

  /**
   * The tree's layout: the root first; with no groups only the plain
   * "create" leaf follows (2 items); with n groups, three items per group in
   * key order, then the separator and the "create" leaf (3n + 3 items).
   */
  lemma MenuTreeLayout(m: Mapping)
    requires forall k :: k in m.keys ==> k in m.groups
    ensures var items, n := MenuTree(m), |m.keys|;
      && |items| == (if n == 0 then 2 else 3 * n + 3)
      && items[0] == RootItem
      && (n == 0 ==> items[1] == CreateGroupItem(false))
      && (n > 0 ==> items[3 * n + 1] == SeparatorItem && items[3 * n + 2] == CreateGroupItem(true))
      && (forall i, j :: 0 <= i < n && 0 <= j < 3 ==>
            items[3 * i + 1 + j] == GroupEntries(m.keys[i], |m.groups[m.keys[i]].tabs|)[j])
  {
    EntriesForLayout(m.keys, m.groups);
    var items, n, entries := MenuTree(m), |m.keys|, EntriesFor(m.keys, m.groups);
    if n > 0 {
      assert items == [RootItem] + entries + [SeparatorItem, CreateGroupItem(true)];
      forall i, j | 0 <= i < n && 0 <= j < 3
        ensures items[3 * i + 1 + j] == GroupEntries(m.keys[i], |m.groups[m.keys[i]].tabs|)[j]
      {
        assert items[3 * i + 1 + j] == entries[3 * i + j];
      }
    }
  }

  /** Every item but the root hangs under an item created before it, so every `parentId` exists when used. */
  lemma MenuTreeParentsFirst(m: Mapping)
    requires forall k :: k in m.keys ==> k in m.groups
    ensures var items := MenuTree(m);
      && items[0].parentId == None
      && forall i :: 0 < i < |items| ==>
           items[i].parentId.Some? && exists p :: 0 <= p < i && items[p].id == items[i].parentId.value
  {
    MenuTreeLayout(m);
    var items, n := MenuTree(m), |m.keys|;
    forall i | 0 < i < |items|
      ensures items[i].parentId.Some? && exists p :: 0 <= p < i && items[p].id == items[i].parentId.value
    {
      if n == 0 || i > 3 * n {
        assert items[0].id == items[i].parentId.value;
      } else {
        GroupEntryParentFirst(m, (i - 1) / 3, (i - 1) % 3);
      }
    }
  }

  /** Item `j` of group `g`'s entries hangs under the root (for the group's parent) or under the group's parent item. */
  lemma GroupEntryParentFirst(m: Mapping, g: nat, j: nat)
    requires forall k :: k in m.keys ==> k in m.groups
    requires g < |m.keys| && j < 3
    ensures var items, i := MenuTree(m), 3 * g + 1 + j;
      && |items| == 3 * |m.keys| + 3
      && items[i].parentId.Some? && exists p :: 0 <= p < i && items[p].id == items[i].parentId.value
  {
    MenuTreeLayout(m);
    var items, i := MenuTree(m), 3 * g + 1 + j;
    var e := GroupEntries(m.keys[g], |m.groups[m.keys[g]].tabs|);
    assert items[i] == e[j];
    if j == 0 {
      assert items[0].id == items[i].parentId.value;
    } else {
      assert items[3 * g + 1 + 0] == e[0];
      assert items[3 * g + 1].id == items[i].parentId.value;
    }
  }

  /** The group's title shows its tab count: the digits between the parentheses read back as the count. */
  lemma GroupTitleShowsCount(name: string, count: nat)
    ensures var digits := NatToString(count);
      GroupTitle(name, count) == "\U{1F4C1} " + name + " (" + digits + ")" && DecimalValue(digits) == count
  {
    NatToStringRoundTrip(count);
  }

  /** What a click on a menu item asks for. */
  datatype Click = CreateGroupClick | OpenClick(groupName: string) | AddClick(groupName: string) | NoClickAction

  /**
   * `handleContextMenuClick`'s tests, in order: the id `createGroup`, then the
   * `group_open_` prefix, then the `group_add_` prefix; the group name is the
   * id with the first occurrence of the prefix replaced by nothing.
   */
  function RouteClick(menuItemId: string): (c: Click)
    ensures c == CreateGroupClick <==> menuItemId == CreateGroupId
    ensures c.OpenClick? <==> StartsWith(menuItemId, OpenPrefix)
    ensures c.OpenClick? ==> OpenId(c.groupName) == menuItemId
    ensures c.AddClick? <==> !StartsWith(menuItemId, OpenPrefix) && StartsWith(menuItemId, AddPrefix)
    ensures c.AddClick? ==> AddId(c.groupName) == menuItemId
  {
    assert !StartsWith(CreateGroupId, OpenPrefix) && !StartsWith(CreateGroupId, AddPrefix) by {
      assert CreateGroupId[0] != OpenPrefix[0];
    }
    if menuItemId == CreateGroupId then CreateGroupClick
    else if StartsWith(menuItemId, OpenPrefix) then OpenClick(ReplaceFirst(menuItemId, OpenPrefix, ""))
    else if StartsWith(menuItemId, AddPrefix) then AddClick(ReplaceFirst(menuItemId, AddPrefix, ""))
    else NoClickAction
  }

  lemma RouteOpenId(name: string)
    ensures RouteClick(OpenId(name)) == OpenClick(name)
  {
    var id := OpenId(name);
    assert id[0] == 'g';
    assert StartsWith(id, OpenPrefix);
    assert id[|OpenPrefix|..] == name;
  }

  lemma RouteAddId(name: string)
    ensures RouteClick(AddId(name)) == AddClick(name)
  {
    var id := AddId(name);
    assert id[0] == 'g' && id[6] == 'a';
    assert !StartsWith(id, OpenPrefix) by {
      assert OpenPrefix[6] == 'o';
    }
    assert StartsWith(id, AddPrefix);
    assert id[|AddPrefix|..] == name;
  }

  /**
   * Clicking an item of the tree asks for what the item offers: the "open
   * all" and "add current tab" leaves of the i-th group route to that group's
   * name, the "create" leaf to group creation, the root and the separator to
   * nothing.
   */
  lemma MenuTreeRouting(m: Mapping)
    requires forall k :: k in m.keys ==> k in m.groups
    ensures var items, n := MenuTree(m), |m.keys|;
      && |items| == (if n == 0 then 2 else 3 * n + 3)
      && RouteClick(items[0].id) == NoClickAction
      && RouteClick(items[|items| - 1].id) == CreateGroupClick
      && (n > 0 ==> RouteClick(items[3 * n + 1].id) == NoClickAction)
      && forall i :: 0 <= i < n ==>
           RouteClick(items[3 * i + 2].id) == OpenClick(m.keys[i]) &&
           RouteClick(items[3 * i + 3].id) == AddClick(m.keys[i])
  {
    MenuTreeLayout(m);
    var items, n := MenuTree(m), |m.keys|;
    assert !StartsWith(RootId, OpenPrefix) && !StartsWith(RootId, AddPrefix) by {
      assert RootId[1] != OpenPrefix[1];
    }
    assert !StartsWith(SeparatorId, OpenPrefix) && !StartsWith(SeparatorId, AddPrefix) by {
      assert SeparatorId[0] != OpenPrefix[0];
    }
    forall i | 0 <= i < n
      ensures RouteClick(items[3 * i + 2].id) == OpenClick(m.keys[i])
      ensures RouteClick(items[3 * i + 3].id) == AddClick(m.keys[i])
    {
      var e := GroupEntries(m.keys[i], |m.groups[m.keys[i]].tabs|);
      assert items[3 * i + 1 + 1] == e[1] && items[3 * i + 1 + 2] == e[2];
      RouteOpenId(m.keys[i]);
      RouteAddId(m.keys[i]);
    }
  }

  /**
   * Menu ids are not unique in general: the parent item of a group named
   * "open_x" has the same id as the "open all" leaf of a group named "x".
   */
  lemma ParentIdCanClash(name: string)
    ensures ParentId("open_" + name) == OpenId(name)
  {
  }
}
