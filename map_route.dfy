/**
 * The `/api/map` route (app/api/map/route.ts): validates the URL, asks the crawl
 * service for the site's links (the reply is an input), computes the summary
 * stored with the site map and returns the links.
 */
module MapRoute {
  import opened Wrappers
  import opened Urls
  import opened Links

  /** The crawl reply: the call threw, the reply has no `links` array, or the links. */
  datatype CrawlReply = CrawlThrew | NoLinkArray | LinkArray(links: seq<Link>)

  /** The arguments passed to `saveWebsiteMap`. */
  datatype SaveRequest = SaveRequest(url: string, domain: string, links: seq<Link>, summary: MapSummary)

  datatype MapResponse =
    | Failed(status: nat, error: string)
    | Mapped(links: seq<Link>, totalLinks: nat)

  /** The response together with the save the route attempts, if any. */
  datatype MapOutcome = MapOutcome(response: MapResponse, save: Option<SaveRequest>)

  /**
   * The handler. `userId` is `None` when authentication fails, `bodyRead` says
   * whether `request.json()` and its destructuring succeeded, `url` is the body's
   * `url` (empty when absent) and `parsed` is `new URL(url)`.
   */
  function HandleMap(userId: Option<string>, bodyRead: bool, url: string, parsed: Option<ParsedUrl>,
                     reply: CrawlReply): (o: MapOutcome)
    ensures o.response.Failed? <==> (userId.None? || !bodyRead || url == "" || parsed.None? || !reply.LinkArray?)
    ensures o.response.Failed? ==> o.save.None?
    ensures userId.None? ==> o.response == Failed(401, "Authentication required")
    ensures userId.Some? && !bodyRead ==> o.response == Failed(500, "Internal server error")
    ensures userId.Some? && bodyRead && url == "" ==> o.response == Failed(400, "URL is required")
    ensures userId.Some? && bodyRead && url != "" && parsed.None? ==> o.response == Failed(400, "Invalid URL format")
    ensures userId.Some? && bodyRead && url != "" && parsed.Some? ==>
      && (reply.CrawlThrew? ==> o.response == Failed(500, "Internal server error"))
      && (reply.NoLinkArray? ==> o.response == Failed(500, "Failed to map website"))
    ensures o.response.Mapped? ==>
      && reply.LinkArray? && o.response.links == reply.links && o.response.totalLinks == |o.response.links|
      && o.save == Some(SaveRequest(url, parsed.value.hostname, reply.links, Summarize(reply.links)))
  {
    if userId.None? then MapOutcome(Failed(401, "Authentication required"), None)
    else if !bodyRead then MapOutcome(Failed(500, "Internal server error"), None)
    else if url == "" then MapOutcome(Failed(400, "URL is required"), None)
    else if parsed.None? then MapOutcome(Failed(400, "Invalid URL format"), None)
    else match reply
      case CrawlThrew => MapOutcome(Failed(500, "Internal server error"), None)
      case NoLinkArray => MapOutcome(Failed(500, "Failed to map website"), None)
      case LinkArray(links) =>
        MapOutcome(Mapped(links, |links|), Some(SaveRequest(url, parsed.value.hostname, links, Summarize(links))))
  }

  /** What is saved with a site map is consistent: the counts are those of the saved links, and bounded by them. */
  lemma SavedSummaryConsistent(userId: Option<string>, bodyRead: bool, url: string, parsed: Option<ParsedUrl>, reply: CrawlReply)
    requires HandleMap(userId, bodyRead, url, parsed, reply).save.Some?
    ensures var s := HandleMap(userId, bodyRead, url, parsed, reply).save.value;
      && s.summary.totalLinks == |s.links| == HandleMap(userId, bodyRead, url, parsed, reply).response.totalLinks
      && s.summary.missingTitles <= s.summary.htmlPages <= s.summary.totalLinks
      && s.summary.missingDescriptions <= s.summary.htmlPages
  {
  }
}
