/** The bottom navigation bar of the page-based front end: which menu item is highlighted. */
module NavBar {
  /** The menu's links, in the order shown. */
  const MenuHrefs: seq<string> := ["/canvas", "/map", "/graph", "/calendar", "/breakdown"]

  /** An item is highlighted once the bar has mounted on the client and the path is its
      link, the root path counting as the canvas. */
  predicate Highlighted(isClient: bool, pathname: string, href: string) {
    isClient && (pathname == href || (href == "/canvas" && pathname == "/"))
  }

  /** The highlight of every menu item, in menu order. */
  function Highlights(isClient: bool, pathname: string): (r: seq<bool>)
    ensures |r| == |MenuHrefs|
    ensures forall i :: 0 <= i < |r| ==> (r[i] <==> Highlighted(isClient, pathname, MenuHrefs[i]))
    ensures !isClient ==> forall i :: 0 <= i < |r| ==> !r[i]
  {
    seq(|MenuHrefs|, i requires 0 <= i < |MenuHrefs| => Highlighted(isClient, pathname, MenuHrefs[i]))
  }

  /** The links are distinct, so no path highlights two items. */
  lemma AtMostOneHighlighted(isClient: bool, pathname: string, i: nat, j: nat)
    requires i < |MenuHrefs| && j < |MenuHrefs|
    requires Highlighted(isClient, pathname, MenuHrefs[i]) && Highlighted(isClient, pathname, MenuHrefs[j])
    ensures i == j
  {
    forall k, l | 0 <= k < l < |MenuHrefs| ensures |MenuHrefs[k]| != |MenuHrefs[l]| {
    }
  }

  /** After mounting, the root path highlights the canvas item and nothing else. */
  lemma RootHighlightsCanvas(i: nat)
    requires i < |MenuHrefs|
    ensures Highlighted(true, "/", MenuHrefs[i]) <==> i == 0
  {
    assert |MenuHrefs[i]| != 1;
  }
}
