/**
 * The link records the crawl service returns, and the rule that tells an HTML
 * page (which should carry a title and a description) from a static asset.
 * The same rule is written out in app/api/map/route.ts, app/api/evaluate/route.ts
 * and app/page.tsx; here it is defined once.
 */
module Links {
  import opened Wrappers
  import opened Text
  import opened Seqs

  /** A mapped link; a link without `url` is read as `link.url || ''`, i.e. the empty string. */
  datatype Link = Link(url: string, title: Option<string>, description: Option<string>)

  /** JavaScript truthiness of an optional string field: present and non-empty. */
  predicate Present(field: Option<string>) {
    field.Some? && field.value != ""
  }

  /** The twenty extensions that mark a URL as a file rather than a page. */
  const ExcludedExtensions: seq<string> := [
    ".txt", ".md", ".css", ".js", ".json", ".xml", ".csv", ".png", ".jpg", ".jpeg",
    ".gif", ".svg", ".ico", ".webp", ".mp3", ".mp4", ".pdf", ".zip", ".exe", ".bin"]

  /** The alternatives of `/\/(assets?|static|media|images?|css|js|files?|downloads?)\//i`, spelled out. */
  const AssetSegments: seq<string> := [
    "asset", "assets", "static", "media", "image", "images", "css", "js",
    "file", "files", "download", "downloads"]

  /** The lower-cased URL ends with one of the excluded extensions. */
  predicate HasExcludedExtension(url: string) {
    exists i :: 0 <= i < |ExcludedExtensions| && EndsWith(Lower(url), ExcludedExtensions[i])
  }

  /** The case-insensitive path-segment test: some `/seg/` occurs in the URL. */
  predicate IsAssetUrl(url: string) {
    exists i :: 0 <= i < |AssetSegments| && Contains(Lower(url), "/" + AssetSegments[i] + "/")
  }

  /** A link is an HTML page when neither the extension rule nor the segment rule marks it as an asset. */
  predicate IsHtmlPage(link: Link) {
    !HasExcludedExtension(link.url) && !IsAssetUrl(link.url)
  }

  /** The HTML pages among `links`, in their original order. */
  function HtmlPages(links: seq<Link>): seq<Link> {
    Filter(links, IsHtmlPage)
  }

  predicate MissingTitle(link: Link) { !Present(link.title) }
  predicate MissingDescription(link: Link) { !Present(link.description) }

  /** The four numbers the map route stores with a site map. */
  datatype MapSummary = MapSummary(totalLinks: nat, htmlPages: nat, missingTitles: nat, missingDescriptions: nat)

  /** `total_links`, `html_pages`, `missing_titles`, `missing_descriptions` of app/api/map/route.ts. */
  function Summarize(links: seq<Link>): (m: MapSummary)
    ensures m.totalLinks == |links|
    ensures m.missingTitles <= m.htmlPages <= m.totalLinks
    ensures m.missingDescriptions <= m.htmlPages
    ensures m.htmlPages == |HtmlPages(links)|
    ensures m.missingTitles == 0 <==> forall l :: l in links && IsHtmlPage(l) ==> Present(l.title)
    ensures m.missingDescriptions == 0 <==> forall l :: l in links && IsHtmlPage(l) ==> Present(l.description)
  {
    var pages := HtmlPages(links);
    var noTitle := Filter(pages, MissingTitle);
    var noDesc := Filter(pages, MissingDescription);
    assert |noTitle| == 0 <==> forall l :: l in links && IsHtmlPage(l) ==> Present(l.title) by {
      if |noTitle| > 0 { assert noTitle[0] in noTitle; }
    }
    assert |noDesc| == 0 <==> forall l :: l in links && IsHtmlPage(l) ==> Present(l.description) by {
      if |noDesc| > 0 { assert noDesc[0] in noDesc; }
    }
    MapSummary(|links|, |pages|, |noTitle|, |noDesc|)
  }

  /** The HTML pages form a sub-list: each appears in `links` as often as it does in the result at most. */
  lemma HtmlPagesSublist(links: seq<Link>)
    ensures multiset(HtmlPages(links)) <= multiset(links)
    ensures forall l :: l in HtmlPages(links) <==> l in links && IsHtmlPage(l)
  {
    FilterMultiset(links, IsHtmlPage);
  }

  /** `needsOptimization` of app/page.tsx: an HTML page that lacks a title or a description. */
  predicate NeedsOptimization(link: Link) {
    IsHtmlPage(link) && (!Present(link.title) || !Present(link.description))
  }

  /** A link whose lower-cased URL ends in a listed extension is an asset, whatever its path. */
  lemma ExtensionMakesAsset(link: Link, i: nat)
    requires i < |ExcludedExtensions| && EndsWith(Lower(link.url), ExcludedExtensions[i])
    ensures !IsHtmlPage(link) && !NeedsOptimization(link)
  {
  }

  /** The segment patterns are already lower case, so matching the lower-cased URL is case-insensitive matching. */
  lemma AssetPatternsLowerCase(i: nat)
    requires i < |AssetSegments|
    ensures Lower("/" + AssetSegments[i] + "/") == "/" + AssetSegments[i] + "/"
  {
    var seg := AssetSegments[i];
    assert IsLowerCase(seg) by {
      if i == 0 { assert seg == "asset"; } else if i == 1 { assert seg == "assets"; }
      else if i == 2 { assert seg == "static"; } else if i == 3 { assert seg == "media"; }
      else if i == 4 { assert seg == "image"; } else if i == 5 { assert seg == "images"; }
      else if i == 6 { assert seg == "css"; } else if i == 7 { assert seg == "js"; }
      else if i == 8 { assert seg == "file"; } else if i == 9 { assert seg == "files"; }
      else if i == 10 { assert seg == "download"; } else { assert seg == "downloads"; }
    }
    assert IsLowerCase("/" + seg + "/");
    LowerOfLowerCase("/" + seg + "/");
  }

  /** A link containing any spelling of a listed `/segment/` (say `/Static/` or `/IMAGES/`) is an asset. */
  lemma SegmentMakesAsset(link: Link, i: nat, spelling: string)
    requires i < |AssetSegments|
    requires Contains(link.url, spelling) && Lower(spelling) == "/" + AssetSegments[i] + "/"
    ensures !IsHtmlPage(link) && !NeedsOptimization(link)
  {
    LowerKeepsContains(link.url, spelling);
  }
}
