/** The navigation sidebar: which groups are expanded, which entries are highlighted for the
    current path, and the groups opened automatically when the path changes. */
module Sidebar {
  import opened Wrappers
  import opened Seqs

  /** An entry of the sidebar: a link when it has an `href`, a group when it has children.
      Icons and badges are left out. */
  datatype NavItem = NavItem(title: string, href: Option<string>, children: seq<NavItem>)

  // ---------------------------------------------------------------- expand and collapse

  /** The test `item !== title` handed to `filter`. */
  function Other(title: string): string -> bool
  {
    x => x != title
  }

  /** `toggleExpanded(title)`: a title that is listed is removed, every occurrence of it, and
      the other titles keep their order; a title that is not listed is appended. */
  function Toggle(expanded: seq<string>, title: string): (r: seq<string>)
    ensures title in r <==> title !in expanded
    ensures forall t :: t != title ==> (t in r <==> t in expanded)
    ensures title in expanded ==> multiset(r) == multiset(expanded)[title := 0]
    ensures title !in expanded ==> r == expanded + [title]
  {
    if title in expanded then
      RemoveAll(expanded, title);
      FilterMember(Other(title), expanded, title);
      Filter(Other(title), expanded)
    else expanded + [title]
  }

  /** Dropping every occurrence of `t`: the multiset of what is left is the input's without
      `t`. */
  lemma {:induction false} RemoveAll(s: seq<string>, t: string)
    ensures multiset(Filter(Other(t), s)) == multiset(s)[t := 0]
    ensures forall x :: x != t ==> (x in Filter(Other(t), s) <==> x in s)
  {
    if s != [] {
      RemoveAll(s[1..], t);
      assert s == [s[0]] + s[1..];
    }
  }

  /** Toggling a title that is not listed, then toggling it again, gives back the list. */
  lemma ToggleTwice(expanded: seq<string>, title: string)
    requires title !in expanded
    ensures Toggle(Toggle(expanded, title), title) == expanded
  {
    FilterAppend(Other(title), expanded, [title]);
    FilterAll(Other(title), expanded);
  }

  /** Toggling a listed title twice leaves it listed exactly once, at the end, after the other
      titles in their order. */
  lemma ToggleTwiceListed(expanded: seq<string>, title: string)
    requires title in expanded
    ensures var r := Toggle(Toggle(expanded, title), title);
      && r[|r| - 1] == title
      && multiset(r)[title] == 1
      && r[..|r| - 1] == Toggle(expanded, title)
  {
    var once := Toggle(expanded, title);
    var r := once + [title];
    assert r[..|r| - 1] == once;
    assert multiset(r)[title] == multiset(once)[title] + 1;
  }

  // ---------------------------------------------------------------- highlighting

  /** `item.children.some((child) => pathname === child.href)`. */
  function AnyChildAt(children: seq<NavItem>, pathname: string): (r: bool)
    ensures r <==> exists i :: 0 <= i < |children| && children[i].href == Some(pathname)
  {
    if children == [] then false
    else
      assert forall i :: 1 <= i < |children| ==> children[1..][i - 1] == children[i];
      children[0].href == Some(pathname) || AnyChildAt(children[1..], pathname)
  }

  predicate HasChildren(item: NavItem)
  {
    |item.children| > 0
  }

  /** `isParentActive`: the item has children and one of them links to the current path. The
      first condition adds nothing, as no child of an item without children matches. */
  function IsParentActive(item: NavItem, pathname: string): (r: bool)
    ensures r <==> exists i :: 0 <= i < |item.children| && item.children[i].href == Some(pathname)
  {
    HasChildren(item) && AnyChildAt(item.children, pathname)
  }

  /** Whether `renderNavItem` highlights an entry: a group when a child links to the current
      path or it is expanded; a link when it links to the current path (`isActive`). */
  function Highlighted(item: NavItem, pathname: string, expanded: seq<string>): (r: bool)
    ensures HasChildren(item) ==>
      (r <==> item.title in expanded
              || exists i :: 0 <= i < |item.children| && item.children[i].href == Some(pathname))
    ensures !HasChildren(item) ==> (r <==> item.href.Some? && item.href.value == pathname)
  {
    var isActive := item.href == Some(pathname);
    var isExpanded := item.title in expanded;
    if HasChildren(item) then IsParentActive(item, pathname) || isExpanded else isActive
  }

  // ---------------------------------------------------------------- auto-expand

  /** The titles the auto-expand effect appends, in the order of `items`: each item with a
      child linking to the path whose title is not listed in `expanded`. The test reads the
      list as it was when the effect ran, not as the appends grow it. */
  function Added(items: seq<NavItem>, pathname: string, expanded: seq<string>): (r: seq<string>)
    ensures forall t :: t in r <==>
      t !in expanded && exists i :: 0 <= i < |items| && items[i].title == t && AnyChildAt(items[i].children, pathname)
  {
    if items == [] then []
    else
      var item := items[0];
      var rest := Added(items[1..], pathname, expanded);
      assert forall i :: 1 <= i < |items| ==> items[1..][i - 1] == items[i];
      if AnyChildAt(item.children, pathname) && item.title !in expanded then [item.title] + rest
      else rest
  }

  /** The effect run when the path changes: the groups holding the current page are appended to
      the expanded titles; nothing listed is removed or moved. */
  function AutoExpand(items: seq<NavItem>, pathname: string, expanded: seq<string>): (r: seq<string>)
    ensures |r| >= |expanded| && r[..|expanded|] == expanded
    ensures forall i :: 0 <= i < |items| && IsParentActive(items[i], pathname) ==> items[i].title in r
    ensures forall t :: t in r ==> t in expanded || exists i :: 0 <= i < |items| && items[i].title == t && IsParentActive(items[i], pathname)
  {
    var added := Added(items, pathname, expanded);
    expanded + added
  }

  /** A group that holds the current page is expanded after the effect, so the page's own
      link is shown. */
  lemma AutoExpandShowsPage(items: seq<NavItem>, pathname: string, expanded: seq<string>, i: nat)
    requires i < |items| && IsParentActive(items[i], pathname)
    ensures var r := AutoExpand(items, pathname, expanded);
      items[i].title in r && Highlighted(items[i], pathname, r)
  {
  }

  /** When every group that holds the page is listed, the effect appends nothing. */
  lemma {:induction false} AddedNothing(items: seq<NavItem>, pathname: string, expanded: seq<string>)
    requires forall i :: 0 <= i < |items| && AnyChildAt(items[i].children, pathname) ==> items[i].title in expanded
    ensures Added(items, pathname, expanded) == []
  {
    if items != [] {
      assert forall i :: 1 <= i < |items| ==> items[1..][i - 1] == items[i];
      AddedNothing(items[1..], pathname, expanded);
    }
  }

  /** Running the effect a second time on the same path changes nothing. */
  lemma AutoExpandIdempotent(items: seq<NavItem>, pathname: string, expanded: seq<string>)
    ensures AutoExpand(items, pathname, AutoExpand(items, pathname, expanded)) == AutoExpand(items, pathname, expanded)
  {
    var once := AutoExpand(items, pathname, expanded);
    AddedNothing(items, pathname, once);
  }

  // ---------------------------------------------------------------- the configured sidebar

  function Link(title: string, href: string): NavItem
  {
    NavItem(title, Some(href), [])
  }

  function Group(title: string, children: seq<NavItem>): NavItem
  {
    NavItem(title, None, children)
  }

  const NavigationItems: seq<NavItem> := [
    Link("仪表板", "/"),
    Group("沟通协作", [Link("聊天消息", "/communication/chat"), Link("视频会议", "/communication/meetings"),
                     Link("文档协作", "/communication/documents"), Link("通知中心", "/communication/notifications"),
                     Link("沟通概览", "/communication")]),
    Link("任务管理", "/tasks"),
    Link("客户管理", "/customers"),
    Group("目标管理", [Link("OKR管理", "/okr"), Link("KPI跟踪", "/kpi")]),
    Group("数据分析", [Link("销售分析", "/analytics/sales"), Link("客户分析", "/analytics/customers"),
                     Link("绩效分析", "/analytics/performance"), Link("数据概览", "/analytics")]),
    Group("财务管理", [Link("财务报表", "/finance/reports"), Link("发票管理", "/finance/invoices"),
                     Link("财务概览", "/finance")])]

  const SystemItems: seq<NavItem> := [
    Group("系统设置", [Link("布局设置", "/settings/layout"), Link("侧边栏设置", "/settings/sidebar"),
                     Link("权限管理", "/settings/permissions")]),
    Group("系统工具", [Link("系统测试", "/test"), Link("数据库管理", "/database"),
                     Link("系统分析", "/analysis"), Link("审计日志", "/audit")]),
    Group("帮助支持", [Link("API文档", "/docs/api"), Link("数据架构", "/docs/data-stack")])]

  /** The items the auto-expand effect walks: `navigationItems.concat(systemItems)`. */
  const AllItems: seq<NavItem> := NavigationItems + SystemItems

  /** The expanded titles the sidebar starts with, as the code writes them: an English word
      that is the title of no item. */
  const InitialExpandedAsWritten: seq<string> := ["communication"]

  /** The expanded titles the sidebar is evidently meant to start with: the communication
      group open. */
  const InitialExpanded: seq<string> := ["沟通协作"]

  /** As written, the starting list expands no item: every title is a short Chinese name, none
      of them "communication", so on a page outside every group the sidebar starts with all
      groups collapsed. */
  lemma InitialExpandedAsWrittenMatchesNothing()
    ensures forall i :: 0 <= i < |AllItems| ==> AllItems[i].title !in InitialExpandedAsWritten
    ensures forall i :: 0 <= i < |AllItems| && HasChildren(AllItems[i]) ==> !Highlighted(AllItems[i], "/", InitialExpandedAsWritten)
  {
    forall i | 0 <= i < |AllItems| ensures AllItems[i].title != "communication" {
      assert |AllItems[i].title| < 13;
    }
    NothingAtRoot();
  }

  /** No entry inside a group links to the dashboard path. */
  lemma NothingAtRoot()
    ensures forall i, j :: 0 <= i < |AllItems| && 0 <= j < |AllItems[i].children| ==> AllItems[i].children[j].href != Some("/")
    ensures forall i :: 0 <= i < |AllItems| ==> !AnyChildAt(AllItems[i].children, "/")
  {
    forall i | 0 <= i < |AllItems| ensures !AnyChildAt(AllItems[i].children, "/") {
      assert forall j :: 0 <= j < |AllItems[i].children| ==> AllItems[i].children[j].href != Some("/");
    }
  }

  /** With the intended starting list, the communication group starts expanded, and the
      effect on the dashboard path adds nothing to it. */
  lemma InitialExpandedOpensCommunication()
    ensures NavigationItems[1].title in InitialExpanded && HasChildren(NavigationItems[1])
    ensures Highlighted(NavigationItems[1], "/", InitialExpanded)
    ensures AutoExpand(AllItems, "/", InitialExpanded) == InitialExpanded
  {
    NothingAtRoot();
    AddedNothing(AllItems, "/", InitialExpanded);
  }
}
