/**
 * Marking the current page in the navigation bar (public/js/navigation.js): a
 * nav link is active when its `href` names the page at the current path.
 */
module Navigation {
  import opened Common

  /** `link.getAttribute('href')`: `None` when the link has no `href`. */
  type Href = Option<string>

  /** What `includes` searches for when given the attribute: `null` is searched for as the text "null". */
  function Needle(href: Href): string {
    if href.Some? then href.value else "null"
  }

  /**
   * The four ways a link can match the current path: the same path; a
   * directory path and its `index.html`; the root and `/index.html`; or a
   * path containing the href, unless the href is the root or `/index.html`.
   */
  predicate IsActiveLink(currentPath: string, href: Href): (active: bool)
    ensures href.None? ==> (active <==> Contains(currentPath, "null"))
  {
    href == Some(currentPath) ||
    (EndsWith(currentPath, "/") && href == Some(currentPath + "index.html")) ||
    (currentPath == "/" && href == Some("/index.html")) ||
    (Contains(currentPath, Needle(href)) && href != Some("/") && href != Some("/index.html"))
  }

  /** Every link whose href is the current path is active. */
  lemma SamePathActive(currentPath: string)
    ensures IsActiveLink(currentPath, Some(currentPath))
  {
  }

  /** A directory path activates its `index.html`; in particular `/` activates `/index.html`. */
  lemma DirectoryActivatesIndex(currentPath: string)
    requires EndsWith(currentPath, "/")
    ensures IsActiveLink(currentPath, Some(currentPath + "index.html"))
    ensures currentPath == "/" ==> IsActiveLink(currentPath, Some("/index.html"))
  {
  }

  /** A link with an empty href is active on every page, since every path contains "". */
  lemma EmptyHrefAlwaysActive(currentPath: string)
    ensures IsActiveLink(currentPath, Some(""))
  {
    assert currentPath[..0] == "";
  }

  /** The home link `/` is active on the root page and nowhere else. */
  lemma RootLinkOnlyAtRoot(currentPath: string)
    ensures IsActiveLink(currentPath, Some("/")) <==> currentPath == "/"
  {
    assert |currentPath + "index.html"| >= 10;
  }

  /** The `/index.html` link is active exactly on `/index.html` and on `/`. */
  lemma IndexLinkOnlyAtHome(currentPath: string)
    ensures IsActiveLink(currentPath, Some("/index.html")) <==> currentPath == "/index.html" || currentPath == "/"
  {
    var p := currentPath + "index.html";
    if EndsWith(currentPath, "/") && "/index.html" == p {
      assert |currentPath| == 1;
      assert currentPath[0] == p[0] == '/';
      assert currentPath == "/";
    }
  }

  /** A subpage activates every link whose href it contains, other than the two home links. */
  lemma SubpageActivatesSection(currentPath: string, href: string, i: nat)
    requires i + |href| <= |currentPath| && currentPath[i..i + |href|] == href
    requires href != "/" && href != "/index.html"
    ensures IsActiveLink(currentPath, Some(href))
  {
    ContainsAt(currentPath, href, i);
  }

  /**
   * The `forEach` over the nav links: which of them get the `active` class,
   * in document order.
   */
  method MarkActiveLinks(currentPath: string, hrefs: seq<Href>) returns (active: seq<bool>)
    ensures |active| == |hrefs|
    ensures forall k | 0 <= k < |hrefs| :: active[k] <==> IsActiveLink(currentPath, hrefs[k])
  {
    active := [];
    var k := 0;
    while k < |hrefs|
      invariant 0 <= k <= |hrefs|
      invariant |active| == k
      invariant forall j | 0 <= j < k :: active[j] <==> IsActiveLink(currentPath, hrefs[j])
    {
      active := active + [IsActiveLink(currentPath, hrefs[k])];
      k := k + 1;
    }
  }
}
