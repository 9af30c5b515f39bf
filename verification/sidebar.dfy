/** The sidebar's navigation entries and which of them is highlighted for
    the current location. */
module Sidebar {
  import opened Text

  datatype NavItem = NavItem(name: string, href: string)

  const Navigation: seq<NavItem> := [
    NavItem("Dashboard", "/"),
    NavItem("Customers", "/customers"),
    NavItem("Subscription Plans", "/plans"),
    NavItem("Billing", "/billing"),
    NavItem("Analytics", "/analytics"),
    NavItem("Settings", "/settings")
  ]

  /** An entry is highlighted on its own path, and a non-root entry also on
      any location that merely starts with its href. */
  predicate IsActive(location: string, href: string) {
    location == href || (href != "/" && StartsWith(location, href))
  }

  /** The highlight flag of every entry, in menu order. */
  function ActiveFlags(location: string): (flags: seq<bool>)
    ensures |flags| == |Navigation|
    ensures forall i :: 0 <= i < |Navigation| ==> (flags[i] <==> IsActive(location, Navigation[i].href))
  {
    seq(|Navigation|, i requires 0 <= i < |Navigation| => IsActive(location, Navigation[i].href))
  }

  /** The root entry is highlighted on "/" and nowhere else. */
  lemma RootOnlyOnRoot(location: string)
    ensures IsActive(location, "/") <==> location == "/"
  {
  }

  /** Every entry is highlighted on its own path. */
  lemma OwnPathIsActive(i: int)
    requires 0 <= i < |Navigation|
    ensures ActiveFlags(Navigation[i].href)[i]
  {
  }

  /** No path-segment boundary is required: "/plansX" highlights the plans
      entry just as "/plans/3" does. */
  lemma NoSegmentBoundary()
    ensures IsActive("/plansX", "/plans") && IsActive("/plans/3", "/plans")
  {
    assert "/plansX"[..6] == "/plans";
    assert "/plans/3"[..6] == "/plans";
  }

  /** What an active entry reveals about the location: "/" itself for the
      root entry, and the href's second character otherwise. */
  lemma ActiveSignature(location: string, i: int)
    requires 0 <= i < |Navigation| && IsActive(location, Navigation[i].href)
    ensures i == 0 ==> location == "/"
    ensures i != 0 ==> |location| >= 2 && location[1] == Navigation[i].href[1]
  {
    var href := Navigation[i].href;
    if i != 0 {
      assert |href| >= 2 && href != "/";
      assert location[..|href|] == href;
      assert location[1] == location[..|href|][1];
    }
  }

  /** With these six hrefs at most one entry is highlighted at a time. */
  lemma AtMostOneActive(location: string, i: int, j: int)
    requires 0 <= i < |Navigation| && 0 <= j < |Navigation|
    requires IsActive(location, Navigation[i].href) && IsActive(location, Navigation[j].href)
    ensures i == j
  {
    ActiveSignature(location, i);
    ActiveSignature(location, j);
  }
}
