/** The web bottom navigation bar: five fixed items, each active by a rule on the current
    pathname (`/` by equality, the others by string prefix), and the label and active dot
    that only the non-central items draw. */
module BottomNav {
  import opened Wrappers
  import opened Strings

  datatype NavItem = NavItem(href: string, tabLabel: string, isCentral: bool)

  /** `navItems`, in display order; only Create is central. */
  function NavItems(): (r: seq<NavItem>)
    ensures |r| == 5
    ensures forall i :: 0 <= i < |r| ==> (r[i].isCentral <==> r[i].tabLabel == "Create")
    ensures seq(5, i requires 0 <= i < 5 => r[i].tabLabel) == ["Home", "Events", "Create", "People", "Profile"]
    ensures seq(5, i requires 0 <= i < 5 => r[i].href) == ["/", "/events", "/events/create", "/people", "/profile"]
    ensures forall i, j :: 0 <= i < j < |r| ==> r[i].href != r[j].href
  {
    [ NavItem("/", "Home", false),
      NavItem("/events", "Events", false),
      NavItem("/events/create", "Create", true),
      NavItem("/people", "People", false),
      NavItem("/profile", "Profile", false) ]
  }

  /** `isActive`: the root item is active only on `/` itself, every other item whenever the
      pathname starts with its href. */
  predicate IsActive(item: NavItem, pathname: string) {
    (item.href == "/" && pathname == "/") || (item.href != "/" && StartsWith(pathname, item.href))
  }

  /** The labels of the active items, in display order. */
  function ActiveLabels(items: seq<NavItem>, pathname: string): (r: seq<string>)
    ensures |r| <= |items|
    ensures forall l :: l in r <==> exists i :: 0 <= i < |items| && items[i].tabLabel == l && IsActive(items[i], pathname)
    decreases |items|
  {
    if items == [] then []
    else
      var rest := ActiveLabels(items[1..], pathname);
      assert forall i :: 1 <= i < |items| ==> items[i] == items[1..][i - 1];
      assert forall i :: 0 <= i < |items[1..]| ==> items[1..][i] == items[i + 1];
      if IsActive(items[0], pathname) then [items[0].tabLabel] + rest else rest
  }

  /** Home is active exactly on `/`, and then it is the only active item. */
  lemma HomeActiveOnlyOnRoot(pathname: string)
    ensures IsActive(NavItems()[0], pathname) <==> pathname == "/"
    ensures pathname == "/" ==> ActiveLabels(NavItems(), pathname) == ["Home"]
  {
  }

  /** The prefix rule is not aware of path segments: on `/events/create` both Events and
      Create are active, and `/eventsX` activates Events. */
  lemma PrefixRuleExamples()
    ensures ActiveLabels(NavItems(), "/events/create") == ["Events", "Create"]
    ensures ActiveLabels(NavItems(), "/eventsX") == ["Events"]
    ensures ActiveLabels(NavItems(), "/people") == ["People"]
  {
    var items := NavItems();
    LabelsOfNavItems("/events/create");
    assert "/events/create"[..7] == "/events";
    assert !IsActive(items[3], "/events/create") && !IsActive(items[4], "/events/create");
    LabelsOfNavItems("/eventsX");
    assert "/eventsX"[..7] == "/events";
    assert !IsActive(items[2], "/eventsX") && !IsActive(items[3], "/eventsX");
    LabelsOfNavItems("/people");
    assert "/people"[..7] == "/people";
    assert !IsActive(items[1], "/people") && !IsActive(items[4], "/people");
  }

  /** The labels of the active items on one pathname, item by item. */
  lemma LabelsOfNavItems(pathname: string)
    ensures var items := NavItems();
      ActiveLabels(items, pathname)
      == (if IsActive(items[0], pathname) then ["Home"] else [])
       + (if IsActive(items[1], pathname) then ["Events"] else [])
       + (if IsActive(items[2], pathname) then ["Create"] else [])
       + (if IsActive(items[3], pathname) then ["People"] else [])
       + (if IsActive(items[4], pathname) then ["Profile"] else [])
  {
    var items := NavItems();
    assert ActiveLabels(items[4..], pathname) == (if IsActive(items[4], pathname) then ["Profile"] else []) + ActiveLabels(items[5..], pathname);
    assert items[4..][1..] == items[5..];
    assert items[3..][1..] == items[4..];
    assert items[2..][1..] == items[3..];
    assert items[1..][1..] == items[2..];
  }

  /** What one item draws besides its icon. */
  datatype ItemView = ItemView(caption: Option<string>, dot: bool)

  /** A non-central item shows its label and, when active, the dot below it; the central
      item shows neither, even when active. */
  function View(item: NavItem, pathname: string): (r: ItemView)
    ensures r.caption.Some? <==> !item.isCentral
    ensures r.caption.Some? ==> r.caption.value == item.tabLabel
    ensures r.dot <==> IsActive(item, pathname) && !item.isCentral
    ensures r.dot ==> r.caption.Some?
  {
    ItemView(if item.isCentral then None else Some(item.tabLabel), IsActive(item, pathname) && !item.isCentral)
  }

  /** On the create page the central item is active, but only Events draws a dot. */
  lemma CentralNeverDotted()
    ensures IsActive(NavItems()[2], "/events/create") && !View(NavItems()[2], "/events/create").dot
    ensures View(NavItems()[1], "/events/create").dot
  {
    assert "/events/create"[..7] == "/events";
  }
}
