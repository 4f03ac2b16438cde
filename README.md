# Tab Grouper: a verified model of the group repository

Tab Grouper is a browser extension. It lets the user collect tabs into named
groups, keeps the groups in `storage.local` under the key `tabGroups`, and
reopens all the tabs of a group later. This project models the two surfaces
that own the groups:

- The background script's `TabGrouperBackground` (`background.dfy`). It keeps a
  cached copy of the mapping, creates groups and adds tabs, and rebuilds the
  context menu from the mapping. It also routes menu clicks, answers runtime
  messages, and replaces its cache when storage changes.
- The popup's `TabGrouper` (`popup.dfy`). It creates groups from the trimmed
  name in its text box, and adds the current tab to a group. It also deletes
  groups, removes a tab by position, opens every tab of a group, and shortens
  host names for display.

Shared definitions:

- `groups.dfy`: tab references, groups, the `tabGroups` mapping and the colour
  palette.
- `repository.dfy`: the repository rules as functions on the mapping, each with
  its decline cases. `TryCreate`, `TryAdd`, `TryRemoveTab` and `Delete` specify
  the surfaces' methods.
- `property_order.dfy`: the order in which `Object.keys` lists the group names.
  Keys that are array indices come first, in ascending numeric order. Every
  other key follows in insertion order. The model keeps this order explicitly.
  Group names therefore need not exclude names such as `"7"`.
- `menu.dfy`: the context-menu tree, its layout, and the routing of a click
  back to a command.
- `open_all.dfy`: opening every tab of a group, as the list of browser requests
  it issues.
- `strings.dfy`: the JavaScript string operations involved. These are
  `startsWith`, `replace` with a string pattern (first occurrence only),
  `trim`, and number-to-decimal conversion.

Effects are modelled as values:

- Storage writes: each surface appends the whole mapping to `saved`.
- Storage reads and change events: parameters (`LoadResult`, `StorageChange`).
- Context menu: the list of items created after `removeAll`.
- Opening tabs: a list of `Request`s.
- Notifications: the outcome datatypes naming which notification is shown.
- `Math.random()`: a parameter `roll` with `0 <= roll < 1`.
- `Date.now()`: integer parameters.
- The mobile/desktop detection: a boolean `isMobile`.
- `promptForGroupName`: an `Option<string>`.
- The `hostname` of `new URL(url)`: an `Option<string>`, where `None` means the
  constructor threw.

Facts about the code that the model keeps:

- The background's `createGroup` checks neither the length of a name nor
  trims it (background.js:215-225). The popup trims but sets no length limit
  (popup.js:57-76). The in-page prompt trims, rejects an empty name and limits
  its input to 30 characters (content.js:53-54, 106), but it is not part of
  this model. The model takes its answer `prompted` as any `Option<string>`.
  Only a runtime `createGroup` message can create a name of spaces.
- The popup's `deleteGroup` writes the mapping even when the name is not a key
  (popup.js:116-118).
- The background's message switch handles exactly five actions
  (background.js:135-160). Every other action, including the ones content.js
  handles, is answered with `Unknown action` (background.js:162-163).

Two consequences of the code that the model makes visible:

- Clicking "Create New Group..." with the name of an existing group adds the
  clicked tab to that existing group. See
  `Background.TabGrouperBackground.HandleContextMenuClick`.
- Menu item ids can clash. The parent item of a group named `open_x` has the
  id of the "open all" item of a group named `x`. See `Menu.ParentIdCanClash`.

## Model

| member | source | states |
|---|---|---|
| `Strings.ReplaceFirst` | popup.js:203 | `replace` with a string pattern changes nothing when the pattern does not occur. When it occurs, the length changes by the replacement minus the pattern. When it occurs, exactly its first occurrence is replaced and the text around it is kept. |
| `Strings.Trim` | popup.js:59 | `trim` returns a contiguous piece of the input. Only white space lies before and after it. It neither starts nor ends with white space. It is empty exactly when the input is all white space. |
| `Strings.TrimIdempotent` | popup.js:59 | Trimming a trimmed name changes nothing. |
| `Strings.NatToStringRoundTrip` | background.js:77 | The decimal text of a tab count reads back as that count. |
| `PropertyOrder.Insert` | background.js:220 | Adding a new key keeps the key list in property order, with no duplicates. The list grows by one and holds the old keys plus the new one. A key that is not an array index goes to the end. |
| `PropertyOrder.Remove` | popup.js:117 | `delete` keeps the key list in property order and drops exactly that key. The others keep their relative order. A missing key changes nothing. |
| `PropertyOrder.InsertThenRemove` | background.js:220 | Adding a key and then deleting it gives back the original key list. |
| `Groups.StoredValue` | background.js:18 | The value a load installs is always a valid mapping. It is the stored `tabGroups` when one is present, and `{}` otherwise. The popup's load at popup.js:18 is the same. |
| `Groups.TabFrom` | background.js:172-178 | The stored tab record: the live tab's id, title, URL and favicon, stamped with `Date.now()`. The popup builds the same record at popup.js:95-101. |
| `Groups.RandomColor` | background.js:294-300 | For any `Math.random()` value in [0, 1), the chosen colour is one of the eight palette entries. The popup's copy at popup.js:188-194 is identical. |
| `Repository.TryCreate` | background.js:215-225 | An empty name or an existing key leaves the mapping unchanged. Otherwise exactly one key is added. The new group has the key as its name, no tabs, and the given timestamp and colour. Every existing group is untouched. The key list grows by one and stays in `Object.keys` order. A name that is not an array index is appended at the end. |
| `Repository.CreateKeepsWellFormed` | background.js:220-225 | Creating a group keeps every group stored under its own name, holding each URL once. |
| `Repository.CreateThenDelete` | background.js:215-225 | Deleting the group just created gives back exactly the mapping as it was, keys and order included. |
| `Repository.TryAdd` | background.js:232-242 | A missing group, or a group already holding a tab with the same URL, leaves the mapping unchanged. Otherwise the tab is appended to the end and the earlier tabs keep their order. The keys and every other group are unchanged. Afterwards the URL is in the group. |
| `Repository.AddKeepsWellFormed` | background.js:237-242 | Adding a tab keeps every group under its own name, with each URL held once. |
| `Repository.TryRemoveTab` | popup.js:124-126 | When the group exists and the index is within its tabs, exactly that tab is removed. The length drops by one and the other tabs keep their order. Any other input changes nothing. Keys and other groups are unchanged. |
| `Repository.RemoveTabKeepsWellFormed` | popup.js:124-126 | Removing a tab keeps every group under its own name, with each URL held once. |
| `Repository.Delete` | popup.js:115-117 | Exactly the named key goes. Every other group is unchanged and the key order is kept. A missing name changes nothing. |
| `Repository.CreateTwice` | background.js:215-218 | A second create with the same name is declined and leaves the mapping exactly as the first create left it. |
| `Repository.AddSameUrlTwice` | background.js:237-240 | After a tab is added, any tab with the same URL is declined, whatever its id or title. |
| `Repository.AppendKeepsUrlsDistinct` | background.js:237-242 | Appending a tab whose URL is not present keeps all URLs of the group distinct. |
| `Repository.RemoveKeepsUrlsDistinct` | popup.js:125-126 | Removing one tab keeps all URLs of the group distinct. |
| `Repository.CreateThenAddScenario` | background.js:215-245 | Start with no groups, create "Work", then add a tab for `https://a.com`. The result is exactly one key, "Work", whose group holds exactly that tab. |
| `Menu.MenuTree` | background.js:50-113 | The tree has 2 items with no groups and 3n + 3 items with n groups. It starts with the root and ends with the "Create New Group..." leaf, whose title carries ➕ exactly when groups exist. |
| `Menu.EntriesForLayout` | background.js:70-96 | The `forEach` over the group names creates three items per group in key order: the parent, "Open All Tabs", then "Add Current Tab". |
| `Menu.MenuTreeLayout` | background.js:50-113 | The root item comes first. With no groups only the plain "Create New Group..." leaf follows, for 2 items. With n groups the list has, per group in key order, the parent with its title and the two leaves. Then come the separator and the "➕ Create New Group..." leaf, for 3n + 3 items. |
| `Menu.MenuTreeParentsFirst` | background.js:53-111 | Every item but the root names a parent id, and an item with that id was created before it. |
| `Menu.GroupTitleShowsCount` | background.js:77 | A group's title is its name followed by its tab count in parentheses, and the digits read back as the count. |
| `Menu.RouteClick` | background.js:167-196 | A click asks for creation exactly for the id `createGroup`. It opens a group exactly when the id starts with `group_open_`, and the group is the one whose open id was clicked. It adds to a group exactly when the id starts with `group_add_` but not `group_open_`, and the group is the one whose add id was clicked. |
| `Menu.RouteOpenId` | background.js:182-184 | A click on `group_open_<name>` opens the group `<name>`. Replacing the first occurrence of the prefix gives back the name. |
| `Menu.RouteAddId` | background.js:186-194 | A click on `group_add_<name>` adds to the group `<name>`. It never falls into the `group_open_` branch. |
| `Menu.MenuTreeRouting` | background.js:167-196 | Clicking an item of the built tree asks for what the item offers. The open and add leaves of the i-th group route to the i-th key. The last item routes to group creation. The root and the separator route to nothing. |
| `Menu.ParentIdCanClash` | background.js:75-83 | The parent id of group `open_<x>` equals the open-leaf id of group `<x>`. |
| `OpenAll.OpenAllPlan` | background.js:248-285 | "Group not found" is reported exactly when the name is not a key. Tabs are opened exactly when the group exists and has tabs, and the notice counts the group's tabs. Requests are issued only when tabs are opened. The popup's copy at popup.js:146-186 has the same logic. |
| `OpenAll.PlanShape` | background.js:248-285 | A missing group or an empty group creates no tab and no window. Desktop mode issues exactly one focused window carrying every URL in stored order. Compact mode issues one inactive tab per stored tab in stored order, then activates the last tab. |
| `OpenAll.CompactOpensUrls` | background.js:269-271 | The compact loop's requests open exactly the stored URLs in order. |
| `OpenAll.PlanOpensStoredUrls` | background.js:267-285 | Both modes open the same URLs: the stored ones, in stored order. |
| `OpenAll.OpenAllTabsInGroup` | background.js:248-292 | The loop issues exactly the planned requests and ends with the planned outcome. |
| `Background.ParseAction` | background.js:135-164 | A case label selects its action. Any other string is unknown, and no action's label equals it. |
| `Background.ParseActionName` | background.js:135-160 | Every handled action is reached from its own label. |
| `Background.TabGrouperBackground.constructor` | background.js:4-13 | A new background script starts with no groups and no writes. Its menu is the tree for no groups. |
| `Background.TabGrouperBackground.SaveGroups` | background.js:25-31 | The whole mapping is appended to the writes. |
| `Background.TabGrouperBackground.LoadGroups` | background.js:15-23 | A read installs the stored value, or `{}` when absent, and rebuilds the menu. A failed read changes nothing. |
| `Background.TabGrouperBackground.UpdateContextMenus` | background.js:50-114 | The menu becomes exactly the tree for the current mapping. |
| `Background.TabGrouperBackground.CreateGroup` | background.js:215-230 | The result is true exactly when the repository accepts the name. The mapping becomes `TryCreate` of the old one. On success it is written once and the menu is rebuilt. On decline nothing is written and the menu is kept. |
| `Background.TabGrouperBackground.AddTabToGroup` | background.js:232-246 | The result is true exactly when the repository accepts the tab. The mapping becomes `TryAdd` of the old one. It is written and the menu rebuilt only on success. |
| `Background.TabGrouperBackground.OpenAllTabsInGroup` | background.js:248-258 | The requests and the outcome are those of the open-all plan for the cached groups. |
| `Background.TabGrouperBackground.OnStorageChanged` | background.js:126-131 | A `tabGroups` change in the local area replaces the cache wholesale with the new value, or `{}`, and rebuilds the menu. Other events change nothing. |
| `Background.TabGrouperBackground.HandleMessage` | background.js:134-165 | Unknown actions answer `{error: 'Unknown action'}` and change nothing. Creation and adding answer success even when declined, and change the mapping as the repository says. They write once exactly when the mapping changed. `getGroups` and `updateContextMenus` reload, and `getGroups` answers the reloaded mapping. A `getGroups` whose read fails keeps the cache and the menu. `openAllTabs` issues the planned requests, shows the plan's notice, and changes nothing. No other action shows a notice. |
| `Background.TabGrouperBackground.CreateGroupWithTab` | background.js:168-180 | After creating the group and adding the clicked tab, the group of that name exists and holds the tab's URL, whether or not the group existed before. The writes are exactly one per step that changed the mapping: the created mapping if the create went ahead, then the final mapping if the add went ahead. The menu shows the final mapping. When neither step changes the mapping, nothing is written and the menu is kept. |
| `Background.TabGrouperBackground.HandleContextMenuClick` | background.js:167-197 | Routing checks `createGroup`, then the open prefix, then the add prefix. A create click acts only on a non-empty prompted name. Add clicks notify even when declined. Open clicks issue the planned requests. Other ids do nothing. Writes are only appended, and the last write is the final mapping. A create click with a name writes once per step that went ahead. A successful add click writes the new mapping exactly once. A click that leaves the mapping unchanged writes nothing and keeps the menu. This covers open clicks, other ids, a create click without a name, and declined adds. |
| `Popup.DomainFromUrl` | popup.js:201-208 | A failed URL parse shows `unknown`. Otherwise the host without its first `www.` is shown unchanged when it has at most 30 characters. A longer host is cut to its first 27 characters followed by `...`. The result never exceeds 30 characters. |
| `Popup.DomainDropsLeadingWww` | popup.js:203-204 | A host beginning with `www.` is shown without it when the rest fits. |
| `Popup.TabGrouper.constructor` | popup.js:2-6 | A new popup has no groups, no current tab and no writes. |
| `Popup.TabGrouper.LoadGroups` | popup.js:15-23 | A read installs the stored value, or `{}` when absent. A failed read installs `{}`. |
| `Popup.TabGrouper.GetCurrentTab` | popup.js:33-42 | The first active tab becomes the current tab. An empty or failed query keeps the old one. |
| `Popup.TabGrouper.SaveGroups` | popup.js:25-31 | The whole mapping is appended to the writes. |
| `Popup.TabGrouper.CreateGroup` | popup.js:57-82 | The trimmed text-box value is the name. An all-white-space value declines as empty, and an existing key declines as a duplicate. In both cases nothing changes. Otherwise the mapping becomes `TryCreate` of the old one, is written once, and the box is cleared. |
| `Popup.TabGrouper.AddTabToGroup` | popup.js:84-113 | With no current tab, or with a missing group, or with the URL already in the group, the add declines in that order and nothing changes. Otherwise exactly one tab built from the current tab is appended, and the mapping is written. |
| `Popup.TabGrouper.DeleteGroup` | popup.js:115-122 | When confirmed, exactly that key is removed and the mapping is written. When not confirmed, nothing changes. |
| `Popup.TabGrouper.RemoveTabFromGroup` | popup.js:124-136 | With an existing group and tab index, exactly that tab is removed and the result is written. Any other input is a no-op. |
| `Popup.TabGrouper.OpenAllTabsInGroup` | popup.js:146-186 | The requests and the outcome are those of the open-all plan for the cached groups. |

## Left out

- content.js: the in-page modal and its notifications are presentation code. Its message switch only forwards to that code.
- Rendering (`render*`, `toggleNoGroupsMessage`, `getFavicon`) and the look of notifications, in both surfaces. These are DOM and browser-notification side effects. Notifications appear only as outcome values naming which one is shown.
- `openTab` (popup.js:138-144): clicking a stored tab in the popup opens its URL with `tabs.create`. This single request is not modelled.
- Storage I/O: a read is a `LoadResult` parameter, and a write appends the whole mapping to `saved`. JSON serialisation and its round trip are not modelled.
- Asynchrony: the awaits, `sendResponse` lifetimes, the timing of `contextMenus` callbacks, the `onChanged` event a surface receives for its own write, and lost updates between surfaces. Each method runs to completion in one step.
- The mobile-vs-desktop detection heuristic (background.js:262-265, popup.js:159-162). Its result is the `isMobile` input.
- Browser calls that fail inside the open-all `try` ("Failed to open tabs"), and `tabs.query` before focusing the last tab. Compact mode ends with an abstract `ActivateLastTab` request.
- `promptForGroupName`: it sends a message to another surface, so its answer is an `Option<string>` input.
- The constructors' first `loadGroups` and `setupContextMenus` calls. The background constructor builds the empty tree directly. Loading is a separate `LoadGroups` call.
- JavaScript prototype lookups: `this.groups[name]` on a name such as `constructor` is truthy through `Object.prototype`, and assigning `__proto__` does not create a key. The model uses plain map membership.
- Message payloads with missing fields (`groupName` or `tabData` undefined). Every message carries both.
- `contexts: ['page', 'tab']` is the same on every menu item, so `MenuItem` omits it.
- Character counting: JavaScript lengths count UTF-16 code units, while Dafny characters are Unicode scalar values. The two agree on host names, which `URL` returns in ASCII. They also agree on every character `trim` removes.
