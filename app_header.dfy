/** The page title in the application header (src/components/layout/app-header.tsx): a
    chain of path-prefix tests, the first match deciding the title. */
module AppHeader {
  import opened Strings

  const DefaultTitle: string := "InsightFlow"

  /** `getPageTitle` */
  function GetPageTitle(pathname: string): string {
    if StartsWith(pathname, "/dashboard") then "Dashboard"
    else if StartsWith(pathname, "/calendar") then "Appointment Calendar"
    else if StartsWith(pathname, "/forecasting") then "AI Financial Forecasting"
    else if StartsWith(pathname, "/reports") then "Custom Reports"
    else if StartsWith(pathname, "/business-analysis") then "AI Business Analysis Report"
    else if StartsWith(pathname, "/economic-analysis") then "Economic Analysis"
    else if StartsWith(pathname, "/strategic-pricing") then "Strategic Pricing Simulator"
    else DefaultTitle
  }

  /** The routes as a table of (prefix, title) pairs, in the order they are checked. */
  const Routes: seq<(string, string)> := [
    ("/dashboard", "Dashboard"),
    ("/calendar", "Appointment Calendar"),
    ("/forecasting", "AI Financial Forecasting"),
    ("/reports", "Custom Reports"),
    ("/business-analysis", "AI Business Analysis Report"),
    ("/economic-analysis", "Economic Analysis"),
    ("/strategic-pricing", "Strategic Pricing Simulator")
  ]

  /** The title of the first route whose prefix the path starts with, or the default. */
  function FirstMatch(routes: seq<(string, string)>, pathname: string): (r: string)
    ensures (exists i :: 0 <= i < |routes| && r == routes[i].1 && StartsWith(pathname, routes[i].0)) || r == DefaultTitle
  {
    if routes == [] then DefaultTitle
    else if StartsWith(pathname, routes[0].0) then routes[0].1
    else FirstMatch(routes[1..], pathname)
  }

  /** When route `i`'s prefix is the first one the path starts with, `FirstMatch` yields
      route `i`'s title (`NoMatchGivesDefault` covers the path no prefix matches). */
  lemma {:induction false} FirstMatchSpec(routes: seq<(string, string)>, pathname: string, i: nat)
    requires i < |routes|
    requires StartsWith(pathname, routes[i].0)
    requires forall j :: 0 <= j < i ==> !StartsWith(pathname, routes[j].0)
    ensures FirstMatch(routes, pathname) == routes[i].1
  {
    if i > 0 {
      assert !StartsWith(pathname, routes[0].0);
      FirstMatchSpec(routes[1..], pathname, i - 1);
    }
  }

  lemma {:induction false} NoMatchGivesDefault(routes: seq<(string, string)>, pathname: string)
    requires forall j :: 0 <= j < |routes| ==> !StartsWith(pathname, routes[j].0)
    ensures FirstMatch(routes, pathname) == DefaultTitle
  {
    if routes != [] {
      assert !StartsWith(pathname, routes[0].0);
      NoMatchGivesDefault(routes[1..], pathname);
    }
  }

  /** The header's chain is the first-match lookup over the route table: prefixes are
      checked in the table's order and the first one the path starts with wins. */
  lemma GetPageTitleIsFirstMatch(pathname: string)
    ensures GetPageTitle(pathname) == FirstMatch(Routes, pathname)
  {
    var r := Routes;
    Unfold(r, 0, pathname);
    Unfold(r, 1, pathname);
    Unfold(r, 2, pathname);
    Unfold(r, 3, pathname);
    Unfold(r, 4, pathname);
    Unfold(r, 5, pathname);
    Unfold(r, 6, pathname);
    assert r[7..] == [];
  }

  /** One step of the lookup over the tail of the table from entry `k`. */
  lemma Unfold(routes: seq<(string, string)>, k: nat, pathname: string)
    requires k < |routes|
    ensures FirstMatch(routes[k..], pathname) == if StartsWith(pathname, routes[k].0) then routes[k].1 else FirstMatch(routes[k + 1..], pathname)
  {
    assert routes[k..][1..] == routes[k + 1..];
  }

  /** The title is always one of eight fixed titles; every path under `/dashboard`
      (sub-paths included) is titled Dashboard, and a path under none of the prefixes
      gets the application name. */
  lemma PageTitleCases(pathname: string, suffix: string)
    ensures GetPageTitle(pathname) == DefaultTitle || exists i :: 0 <= i < |Routes| && GetPageTitle(pathname) == Routes[i].1
    ensures GetPageTitle("/dashboard" + suffix) == "Dashboard"
    ensures (forall j :: 0 <= j < |Routes| ==> !StartsWith(pathname, Routes[j].0)) ==> GetPageTitle(pathname) == DefaultTitle
  {
    GetPageTitleIsFirstMatch(pathname);
    assert ("/dashboard" + suffix)[..10] == "/dashboard";
    if forall j :: 0 <= j < |Routes| ==> !StartsWith(pathname, Routes[j].0) {
      NoMatchGivesDefault(Routes, pathname);
    }
  }
}
