/**
 * The `website_maps` table (convex/websiteMaps.ts): one site map per (user, url),
 * stored with the link summary of the map route. Its save, lookup and queries
 * are those of the generic scan-result store.
 */
module WebsiteMaps {
  import opened Tables
  import opened ScanTables
  import opened Links

  /** The arguments of `saveWebsiteMap`. */
  datatype WebsiteMapArgs = WebsiteMapArgs(
    userId: string, url: string, domain: string, links: seq<Link>,
    totalLinks: int, htmlPages: int, missingTitles: int, missingDescriptions: int,
    creditsConsumed: int, scanType: string)

  function MapKey(a: WebsiteMapArgs): RowKey { RowKey(a.userId, a.url) }
  function MapDomain(a: WebsiteMapArgs): string { a.domain }

  /** A new, empty `website_maps` table keyed by (user, url) with the `by_domain` index on `domain`. */
  method NewWebsiteMaps() returns (t: ScanStore<WebsiteMapArgs>)
    ensures fresh(t) && t.Valid() && t.rows == [] && t.keyOf == MapKey && t.domainOf == MapDomain
  {
    t := new ScanStore(MapKey, MapDomain);
  }

  /** The arguments built from links and their summary. */
  function MapArgs(userId: string, url: string, domain: string, links: seq<Link>,
                   creditsConsumed: int, scanType: string): (a: WebsiteMapArgs)
    ensures a.totalLinks == |links| && 0 <= a.missingTitles <= a.htmlPages <= a.totalLinks
    ensures 0 <= a.missingDescriptions <= a.htmlPages
    ensures MapKey(a) == RowKey(userId, url)
  {
    var m := Summarize(links);
    WebsiteMapArgs(userId, url, domain, links, m.totalLinks, m.htmlPages, m.missingTitles, m.missingDescriptions,
                   creditsConsumed, scanType)
  }

  /**
   * A stored site map built from its links stays consistent across saves: the row
   * found for the key after a save holds exactly the saved summary.
   */
  lemma SavedMapIsConsistent(rows: seq<Stamped<WebsiteMapArgs>>, next: nat, userId: string, url: string,
                             domain: string, links: seq<Link>, credits: int, scanType: string, now: int)
    requires ScanInvariant(rows, MapKey, next)
    ensures var r := SavedScans(rows, MapKey, MapArgs(userId, url, domain, links, credits, scanType), now, next);
      var m := Existing(r, MapKey, RowKey(userId, url));
      && m.Some? && m.value.createdAt == now
      && m.value.args.links == links && m.value.args.totalLinks == |links|
      && m.value.args.missingTitles <= m.value.args.htmlPages <= |links|
  {
    SaveScanSemantics(rows, MapKey, MapArgs(userId, url, domain, links, credits, scanType), now, next);
  }
}
