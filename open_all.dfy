/**
 * `openAllTabsInGroup`, shared by the background script and the popup, as a
 * list of browser requests in the order they are issued.
 */
module OpenAll {
  import opened Groups

  /** `tabs.create({url, active})`, `windows.create({url: urls, focused})`, or activating the last tab `tabs.query({})` lists. */
  datatype Request = CreateTab(url: string, active: bool) | CreateWindow(urls: seq<string>, focused: bool) | ActivateLastTab

  /** The notification the operation ends with (the browser faults caught by its `try` are not modelled). */
  datatype Outcome = GroupNotFound | NoTabs | Opened(count: nat)

  datatype Plan = Plan(requests: seq<Request>, outcome: Outcome)

  /** `tabs.map(tab => tab.url)`. */
  function Urls(tabs: seq<Tab>): seq<string> {
    seq(|tabs|, i requires 0 <= i < |tabs| => tabs[i].url)
  }

  /** The compact-mode loop: one inactive tab per stored tab, in stored order. */
  function CompactRequests(tabs: seq<Tab>): seq<Request> {
    seq(|tabs|, i requires 0 <= i < |tabs| => CreateTab(tabs[i].url, false))
  }

  /** What opening every tab of `groupName` asks of the browser; `isMobile` selects the compact mode. */
  function OpenAllPlan(groups: map<string, Group>, groupName: string, isMobile: bool): (plan: Plan)
    ensures plan.outcome == GroupNotFound <==> groupName !in groups
    ensures plan.outcome.Opened? <==> groupName in groups && groups[groupName].tabs != []
    ensures plan.outcome.Opened? ==> plan.outcome.count == |groups[groupName].tabs|
    ensures plan.requests == [] <==> !plan.outcome.Opened?
  {
    if groupName !in groups then Plan([], GroupNotFound)
    else
      var tabs := groups[groupName].tabs;
      if |tabs| == 0 then Plan([], NoTabs)
      else if isMobile then Plan(CompactRequests(tabs) + [ActivateLastTab], Opened(|tabs|))
      else Plan([CreateWindow(Urls(tabs), true)], Opened(|tabs|))
  }

  /** The URLs a list of requests asks the browser to open, in order. */
  function OpenedUrls(requests: seq<Request>): seq<string> {
    if requests == [] then []
    else
      OpenedUrls(requests[..|requests| - 1]) +
      match requests[|requests| - 1]
      case CreateTab(url, _) => [url]
      case CreateWindow(urls, _) => urls
      case ActivateLastTab => []
  }

  /**
   * A missing group or a group without tabs creates no tab and no window;
   * desktop mode issues exactly one focused window carrying every URL in
   * stored order; compact mode issues one inactive tab per stored tab in
   * stored order, then activates the last tab.
   */
  lemma PlanShape(groups: map<string, Group>, groupName: string, isMobile: bool)
    ensures var plan := OpenAllPlan(groups, groupName, isMobile);
      && (groupName !in groups ==> plan.requests == [] && plan.outcome == GroupNotFound)
      && (groupName in groups && groups[groupName].tabs == [] ==> plan.requests == [] && plan.outcome == NoTabs)
      && (groupName in groups && groups[groupName].tabs != [] ==>
            var tabs := groups[groupName].tabs;
            && plan.outcome == Opened(|tabs|)
            && (!isMobile ==> plan.requests == [CreateWindow(Urls(tabs), true)])
            && (isMobile ==>
                  && |plan.requests| == |tabs| + 1
                  && (forall i :: 0 <= i < |tabs| ==> plan.requests[i] == CreateTab(tabs[i].url, false))
                  && plan.requests[|tabs|] == ActivateLastTab))
  {
  }

  lemma {:induction false} CompactOpensUrls(tabs: seq<Tab>)
    ensures OpenedUrls(CompactRequests(tabs)) == Urls(tabs)
  {
    if tabs != [] {
      var init := tabs[..|tabs| - 1];
      CompactOpensUrls(init);
      assert CompactRequests(tabs)[..|tabs| - 1] == CompactRequests(init);
      assert Urls(tabs) == Urls(init) + [tabs[|tabs| - 1].url];
    }
  }

  /** Both modes open the same URLs: those of the stored tabs, in stored order. */
  lemma PlanOpensStoredUrls(groups: map<string, Group>, groupName: string, isMobile: bool)
    requires groupName in groups
    ensures OpenedUrls(OpenAllPlan(groups, groupName, isMobile).requests) == Urls(groups[groupName].tabs)
  {
    var tabs := groups[groupName].tabs;
    if tabs != [] {
      if isMobile {
        var rs := CompactRequests(tabs) + [ActivateLastTab];
        CompactOpensUrls(tabs);
        assert rs[..|rs| - 1] == CompactRequests(tabs);
      } else {
        var rs := [CreateWindow(Urls(tabs), true)];
        assert rs[..0] == [];
      }
    }
  }

  method OpenAllTabsInGroup(groups: map<string, Group>, groupName: string, isMobile: bool)
    returns (requests: seq<Request>, outcome: Outcome)
    ensures Plan(requests, outcome) == OpenAllPlan(groups, groupName, isMobile)
  {
    if groupName !in groups {
      return [], GroupNotFound;
    }
    var group := groups[groupName];
    if |group.tabs| == 0 {
      return [], NoTabs;
    }
    if isMobile {
      requests := [];
      for i := 0 to |group.tabs|
        invariant requests == CompactRequests(group.tabs[..i])
      {
        requests := requests + [CreateTab(group.tabs[i].url, false)];
      }
      assert group.tabs[..|group.tabs|] == group.tabs;
      // The group had at least one tab, so the browser lists at least one tab to focus.
      requests := requests + [ActivateLastTab];
    } else {
      requests := [CreateWindow(Urls(group.tabs), true)];
    }
    outcome := Opened(|group.tabs|);
  }
}
