/**
 * The group repository's rules as functions on the `tabGroups` value: what
 * creating a group, adding a tab, removing a tab and deleting a group do to
 * the mapping, including when each is declined. The surfaces' methods are
 * proved to change their mapping exactly as these say.
 */
module Repository {
  import opened Groups
  import PropertyOrder
  import Strings

  /** `createGroup` goes ahead: the name is not the empty string and not already a key. */
  predicate CanCreate(m: Mapping, name: string) {
    name != "" && name !in m.groups
  }

  /** `createGroup(name)`: a new group with no tabs under a fresh non-empty name; otherwise no change. */
  function TryCreate(m: Mapping, name: string, created: int, color: string): (r: Mapping)
    requires Valid(m)
    ensures Valid(r)
    ensures !CanCreate(m, name) ==> r == m
    ensures CanCreate(m, name) ==>
      && r.groups.Keys == m.groups.Keys + {name}
      && r.groups[name] == Group(name, [], created, color)
      && (forall k :: k in m.groups ==> r.groups[k] == m.groups[k])
      && |r.keys| == |m.keys| + 1
      && (!PropertyOrder.IsArrayIndex(name) ==> r.keys == m.keys + [name])
  {
    if !CanCreate(m, name) then m
    else Mapping(PropertyOrder.Insert(m.keys, name), m.groups[name := Group(name, [], created, color)])
  }

  /** A created group is stored under its own name and holds no URL twice. */
  lemma CreateKeepsWellFormed(m: Mapping, name: string, created: int, color: string)
    requires WellFormed(m)
    ensures WellFormed(TryCreate(m, name, created, color))
  {
    var r := TryCreate(m, name, created, color);
    if CanCreate(m, name) {
      forall k | k in r.groups
        ensures r.groups[k].name == k && UrlsDistinct(r.groups[k].tabs)
      {
        if k != name {
          assert k in m.groups;
        }
      }
    }
  }

  /** Deleting the group just created gives back the mapping as it was. */
  lemma CreateThenDelete(m: Mapping, name: string, created: int, color: string)
    requires Valid(m) && CanCreate(m, name)
    ensures Delete(TryCreate(m, name, created, color), name) == m
  {
    PropertyOrder.InsertThenRemove(m.keys, name);
    var r := TryCreate(m, name, created, color);
    assert r.groups - {name} == m.groups;
  }

  /** `addTabToGroup` goes ahead: the group exists and holds no tab with this URL. */
  predicate CanAdd(m: Mapping, name: string, url: string) {
    name in m.groups && !HasUrl(m.groups[name].tabs, url)
  }

  lemma AppendKeepsUrlsDistinct(tabs: seq<Tab>, tab: Tab)
    requires UrlsDistinct(tabs) && !HasUrl(tabs, tab.url)
    ensures UrlsDistinct(tabs + [tab])
  {
    var t := tabs + [tab];
    forall i, j | 0 <= i < j < |t| ensures t[i].url != t[j].url {
      if j == |tabs| {
        assert t[i] == tabs[i];
      } else {
        assert t[i] == tabs[i] && t[j] == tabs[j];
      }
    }
  }

  /**
   * `addTabToGroup(name, tab)`: the tab goes to the end of the group's list,
   * unless the group is missing or already holds a tab with the same URL
   * (whatever its id or title), in which case nothing changes.
   */
  function TryAdd(m: Mapping, name: string, tab: Tab): (r: Mapping)
    requires Valid(m)
    ensures Valid(r) && r.keys == m.keys && r.groups.Keys == m.groups.Keys
    ensures !CanAdd(m, name, tab.url) ==> r == m
    ensures CanAdd(m, name, tab.url) ==>
      var g, g' := m.groups[name], r.groups[name];
      g'.tabs == g.tabs + [tab] && g'.name == g.name && g'.created == g.created && g'.color == g.color
    ensures forall k :: k in m.groups && k != name ==> r.groups[k] == m.groups[k]
    ensures name in m.groups ==> HasUrl(r.groups[name].tabs, tab.url)
  {
    if !CanAdd(m, name, tab.url) then m
    else
      var g := m.groups[name];
      var g' := g.(tabs := g.tabs + [tab]);
      assert g'.tabs[|g.tabs|].url == tab.url;
      Mapping(m.keys, m.groups[name := g'])
  }

  /** Adding a tab keeps every group under its own name, holding each URL once. */
  lemma AddKeepsWellFormed(m: Mapping, name: string, tab: Tab)
    requires WellFormed(m)
    ensures WellFormed(TryAdd(m, name, tab))
  {
    if CanAdd(m, name, tab.url) {
      AppendKeepsUrlsDistinct(m.groups[name].tabs, tab);
    }
  }

  /** `removeTabFromGroup` goes ahead: the group exists and `tabs[index]` is a tab. */
  predicate CanRemoveTab(m: Mapping, name: string, index: int) {
    name in m.groups && 0 <= index < |m.groups[name].tabs|
  }

  lemma RemoveKeepsUrlsDistinct(tabs: seq<Tab>, index: nat)
    requires UrlsDistinct(tabs) && index < |tabs|
    ensures UrlsDistinct(tabs[..index] + tabs[index + 1..])
  {
    var t := tabs[..index] + tabs[index + 1..];
    forall i, j | 0 <= i < j < |t| ensures t[i].url != t[j].url {
      var i', j' := if i < index then i else i + 1, if j < index then j else j + 1;
      assert t[i] == tabs[i'] && t[j] == tabs[j'] && i' < j';
    }
  }

  /**
   * `removeTabFromGroup(name, index)`: `tabs.splice(index, 1)` when the group
   * and the tab exist; the other tabs keep their order. Otherwise no change.
   */
  function TryRemoveTab(m: Mapping, name: string, index: int): (r: Mapping)
    requires Valid(m)
    ensures Valid(r) && r.keys == m.keys && r.groups.Keys == m.groups.Keys
    ensures !CanRemoveTab(m, name, index) ==> r == m
    ensures CanRemoveTab(m, name, index) ==>
      var g, g' := m.groups[name], r.groups[name];
      && |g'.tabs| == |g.tabs| - 1
      && (forall j :: 0 <= j < index ==> g'.tabs[j] == g.tabs[j])
      && (forall j :: index <= j < |g'.tabs| ==> g'.tabs[j] == g.tabs[j + 1])
      && g'.name == g.name && g'.created == g.created && g'.color == g.color
    ensures forall k :: k in m.groups && k != name ==> r.groups[k] == m.groups[k]
  {
    if !CanRemoveTab(m, name, index) then m
    else
      var g := m.groups[name];
      Mapping(m.keys, m.groups[name := g.(tabs := g.tabs[..index] + g.tabs[index + 1..])])
  }

  /** Removing a tab keeps every group under its own name, holding each URL once. */
  lemma RemoveTabKeepsWellFormed(m: Mapping, name: string, index: int)
    requires WellFormed(m)
    ensures WellFormed(TryRemoveTab(m, name, index))
  {
    if CanRemoveTab(m, name, index) {
      RemoveKeepsUrlsDistinct(m.groups[name].tabs, index);
      var g := m.groups[name];
      assert TryRemoveTab(m, name, index).groups[name].tabs == g.tabs[..index] + g.tabs[index + 1..];
    }
  }

  /** `delete groups[name]`: exactly that key goes, every other group is untouched; a missing key changes nothing. */
  function Delete(m: Mapping, name: string): (r: Mapping)
    requires Valid(m)
    ensures Valid(r)
    ensures r.groups.Keys == m.groups.Keys - {name}
    ensures forall k :: k in r.groups ==> r.groups[k] == m.groups[k]
    ensures forall k :: k in r.keys <==> k in m.keys && k != name
    ensures name in m.keys ==> exists i :: 0 <= i < |m.keys| && m.keys[i] == name && r.keys == m.keys[..i] + m.keys[i + 1..]
    ensures name !in m.groups ==> r == m
    ensures WellFormed(m) ==> WellFormed(r)
  {
    assert name !in m.groups ==> m.groups - {name} == m.groups;
    Mapping(PropertyOrder.Remove(m.keys, name), m.groups - {name})
  }

  /** A second `createGroup` with the same name is declined, so creating twice is creating once. */
  lemma CreateTwice(m: Mapping, name: string, created1: int, color1: string, created2: int, color2: string)
    requires Valid(m)
    ensures var once := TryCreate(m, name, created1, color1);
            !CanCreate(once, name) && TryCreate(once, name, created2, color2) == once
  {
  }

  /** After a tab is added, any tab with the same URL is declined, whatever its title or id. */
  lemma AddSameUrlTwice(m: Mapping, name: string, t1: Tab, t2: Tab)
    requires Valid(m) && t1.url == t2.url
    ensures var once := TryAdd(m, name, t1);
            !CanAdd(once, name, t2.url) && TryAdd(once, name, t2) == once
  {
  }

  /**
   * Starting from no groups, creating "Work" and adding a tab for
   * https://a.com leaves exactly one group, named "Work", holding that one tab.
   */
  lemma CreateThenAddScenario(created: int, color: string, tab: Tab)
    requires tab.url == "https://a.com"
    ensures var m := TryAdd(TryCreate(Empty, "Work", created, color), "Work", tab);
            && m.keys == ["Work"] && m.groups.Keys == {"Work"}
            && m.groups["Work"].name == "Work" && m.groups["Work"].tabs == [tab]
  {
    assert !PropertyOrder.IsArrayIndex("Work") by {
      assert !Strings.IsDigit("Work"[0]);
    }
    var m1 := TryCreate(Empty, "Work", created, color);
    assert m1.groups["Work"].tabs == [];
    assert CanAdd(m1, "Work", tab.url);
  }
}
