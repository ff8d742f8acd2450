/** The top navigation bar of the signed-in area: which links it shows and which one is highlighted. */
module Nav {
  import opened Text
  import opened Wrappers

  datatype NavItem = NavItem(href: string, caption: string)

  const DASHBOARD_HREF: string := "/app"

  const NAV_ITEMS: seq<NavItem> := [
    NavItem("/app", "Dashboard"),
    NavItem("/app/ingredients", "Ingredients"),
    NavItem("/app/recipes", "Recipes"),
    NavItem("/app/weekly-plan", "Weekly Plan"),
    NavItem("/app/reports", "Reports")
  ]

  /** The bar renders at all only inside the signed-in area. */
  predicate Visible(pathname: string) {
    StartsWith(pathname, "/app")
  }

  /** The dashboard link is highlighted on an exact match only; every other link also on any path it prefixes. */
  predicate IsActive(pathname: string, item: NavItem) {
    pathname == item.href || (item.href != DASHBOARD_HREF && StartsWith(pathname, item.href))
  }

  /** What the bar renders: nothing outside the signed-in area, else every item with its highlight flag. */
  function Render(pathname: string): (r: Option<seq<(NavItem, bool)>>)
    ensures r.Some? <==> Visible(pathname)
    ensures r.Some? ==> |r.value| == |NAV_ITEMS|
    ensures r.Some? ==> forall k :: 0 <= k < |NAV_ITEMS| ==> r.value[k] == (NAV_ITEMS[k], IsActive(pathname, NAV_ITEMS[k]))
  {
    if !Visible(pathname) then None
    else Some(seq(|NAV_ITEMS|, k requires 0 <= k < |NAV_ITEMS| => (NAV_ITEMS[k], IsActive(pathname, NAV_ITEMS[k]))))
  }

  /** The five links are distinct, all lie in the signed-in area, and no link other than the dashboard
      is a prefix of another link. */
  lemma NavItemsShape()
    ensures |NAV_ITEMS| == 5 && NAV_ITEMS[0].href == DASHBOARD_HREF
    ensures forall i, j :: 0 <= i < j < |NAV_ITEMS| ==> NAV_ITEMS[i].href != NAV_ITEMS[j].href
    ensures forall i :: 0 <= i < |NAV_ITEMS| ==> StartsWith(NAV_ITEMS[i].href, "/app")
    ensures forall i :: 0 < i < |NAV_ITEMS| ==> |NAV_ITEMS[i].href| > |DASHBOARD_HREF|
    ensures forall i, j :: 0 < i < |NAV_ITEMS| && 0 < j < |NAV_ITEMS| && i != j ==>
              !StartsWith(NAV_ITEMS[j].href, NAV_ITEMS[i].href)
  {
    forall i, j | 0 < i < |NAV_ITEMS| && 0 < j < |NAV_ITEMS| && i != j
      ensures !StartsWith(NAV_ITEMS[j].href, NAV_ITEMS[i].href)
    {
      // "/app/recipes" and "/app/reports" part at their eighth character, all other pairs at their sixth.
      var p := if {i, j} == {2, 4} then 7 else 5;
      var hi, hj := NAV_ITEMS[i].href, NAV_ITEMS[j].href;
      assert p < |hi| && p < |hj| && hi[p] != hj[p];
    }
  }

  /** A highlighted link implies the bar is shown. */
  lemma ActiveImpliesVisible(pathname: string, k: nat)
    requires k < |NAV_ITEMS| && IsActive(pathname, NAV_ITEMS[k])
    ensures Visible(pathname)
  {
    NavItemsShape();
    var h := NAV_ITEMS[k].href;
    assert StartsWith(pathname, h);
    assert pathname[..4] == h[..4];
  }

  /** At most one link is highlighted for any path. */
  lemma AtMostOneActive(pathname: string, i: nat, j: nat)
    requires i < |NAV_ITEMS| && j < |NAV_ITEMS|
    requires IsActive(pathname, NAV_ITEMS[i]) && IsActive(pathname, NAV_ITEMS[j])
    ensures i == j
  {
    NavItemsShape();
    var hi, hj := NAV_ITEMS[i].href, NAV_ITEMS[j].href;
    if i != 0 && j != 0 {
      if |hi| <= |hj| {
        PrefixesComparable(pathname, hi, hj);
      } else {
        PrefixesComparable(pathname, hj, hi);
      }
    }
  }
}
