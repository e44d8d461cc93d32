/** The navigation of `client/src/components/Sidebar.tsx`: the constant menu, the
    rule that marks an item active for the current location, and the click that
    records the chosen page in the app store. */
module Sidebar {
  import opened Common
  import opened AppStore

  datatype SubItem = SubItem(name: string, href: string, key: string)

  datatype NavItem = NavItem(name: string, href: string, key: string, subItems: seq<SubItem>)

  /** The menu: Dashboard, Customers, and Invoices with its purchase and sales entries. */
  const NavItems: seq<NavItem> := [
    NavItem("Dashboard", "/dashboard", "dashboard", []),
    NavItem("Cari (Customers)", "/customers", "customers", []),
    NavItem("Faturalar (Invoices)", "/invoices", "invoices", [
      SubItem("Alış (Purchase)", "/invoices/purchase", "invoices-purchase"),
      SubItem("Satış (Sales)", "/invoices/sales", "invoices-sales")])
  ]

  /** The menu's keys are all different, and every sub-item's path lies below its
      parent's path. */
  lemma MenuShape()
    ensures forall i, j :: 0 <= i < j < |NavItems| ==> NavItems[i].key != NavItems[j].key
    ensures forall i, k :: 0 <= i < |NavItems| && 0 <= k < |NavItems[i].subItems| ==>
      StartsWith(NavItems[i].subItems[k].href, NavItems[i].href + "/") &&
      NavItems[i].subItems[k].key != NavItems[i].key
  {
  }

  /** A top-level item is active on its own path and on every path below it. */
  predicate IsActive(location: string, href: string) {
    location == href || StartsWith(location, href + "/")
  }

  /** A sub-item is active only on its own path. */
  predicate IsSubActive(location: string, href: string) {
    location == href
  }

  /** An active item's href and the location agree on their second character. */
  lemma ActiveSharesSecondChar(location: string, href: string)
    requires |href| >= 2 && IsActive(location, href)
    ensures |location| >= 2 && location[1] == href[1]
  {
    if location != href {
      assert location[..|href| + 1] == href + "/";
      assert location[1] == (href + "/")[1];
    }
  }

  /** The root path "/" activates no top-level item, Dashboard included. */
  lemma RootActivatesNothing(i: nat)
    requires i < |NavItems|
    ensures !IsActive("/", NavItems[i].href)
  {
    if IsActive("/", NavItems[i].href) {
      ActiveSharesSecondChar("/", NavItems[i].href);
    }
  }

  /** No location activates two top-level items: their hrefs already differ in
      their second character. */
  lemma AtMostOneActive(location: string, i: nat, j: nat)
    requires i < j < |NavItems|
    ensures !(IsActive(location, NavItems[i].href) && IsActive(location, NavItems[j].href))
  {
    if IsActive(location, NavItems[i].href) && IsActive(location, NavItems[j].href) {
      ActiveSharesSecondChar(location, NavItems[i].href);
      ActiveSharesSecondChar(location, NavItems[j].href);
    }
  }

  /** An active sub-item is inside an active top-level item. */
  lemma SubActiveImpliesParentActive(location: string, i: nat, k: nat)
    requires i < |NavItems| && k < |NavItems[i].subItems|
    requires IsSubActive(location, NavItems[i].subItems[k].href)
    ensures IsActive(location, NavItems[i].href)
  {
    assert i == 2;
    assert StartsWith(location, "/invoices" + "/") by {
      assert location[..10] == "/invoices/";
    }
  }

  /** `handleNavClick(key)`: record the item's key as the current page. */
  method HandleNavClick(store: Store, key: string)
    modifies store
    ensures store.State() == old(store.State()).(currentPage := key)
  {
    store.SetCurrentPage(key);
  }
}
