/**
 * The scan page (app/page.tsx): the submit handler that normalises the typed
 * URL, asks for the site map and the AI-file check, and asks for an evaluation
 * only when both returned data; and the pure view rules of the result panels
 * (score label and colour, the SEO summary over HTML pages, the per-link
 * badges). The three network calls are inputs: each is what the awaited
 * `fetch` settled to and what reading its JSON body gave.
 */
module Home {
  import opened Wrappers
  import opened Text
  import opened Urls
  import opened Links
  import CheckFiles
  import EvaluateRoute

  // ---- URL normalisation ----

  /** `url.trim()`, then `https://` in front unless it starts with `http://` or `https://`. */
  function NormalizeUrl(input: string): (r: string)
    ensures HasScheme(r)
    ensures HasScheme(Trim(input)) ==> r == Trim(input)
    ensures !HasScheme(Trim(input)) ==> r == Https + Trim(input)
  {
    WithScheme(Trim(input))
  }

  /** Putting `https://` in front of a trimmed string leaves it trimmed. */
  lemma PrefixKeepsTrimmed(t: string)
    requires IsTrimmed(t)
    ensures IsTrimmed(Https + t)
  {
    var s := Https + t;
    assert s[0] == 'h';
    if |t| > 0 {
      assert s[|s| - 1] == t[|t| - 1];
    } else {
      assert s[|s| - 1] == '/';
    }
  }

  /** A normalised URL is trimmed, and normalising it again changes nothing. */
  lemma NormalizeUrlIdempotent(input: string)
    ensures IsTrimmed(NormalizeUrl(input))
    ensures NormalizeUrl(NormalizeUrl(input)) == NormalizeUrl(input)
  {
    var t := Trim(input);
    TrimIsTrimmed(input);
    if !HasScheme(t) {
      PrefixKeepsTrimmed(t);
    }
    TrimOfTrimmed(NormalizeUrl(input));
    WithSchemeIdempotent(t);
  }

  /** Leading white space in the form field does not change the URL the page sends. */
  lemma NormalizeUrlSkipsLeadingBlanks(w: string, input: string)
    requires AllWhitespace(w)
    ensures NormalizeUrl(w + input) == NormalizeUrl(input)
  {
    TrimStartSkipsBlanks(w, input);
  }

  // ---- the submit handler ----

  /** A thrown `Error`. */
  datatype JsError = JsError(name: string, message: string)

  /** `String(e)`, by `Error.prototype.toString`: `name: message`, or only the non-empty one when the other is empty. */
  function ErrorString(e: JsError): (s: string)
    ensures e.name == "" ==> s == e.message
    ensures e.name != "" && e.message == "" ==> s == e.name
    ensures e.name != "" && e.message != "" ==> s == e.name + ": " + e.message
  {
    if e.name == "" then e.message
    else if e.message == "" then e.name
    else e.name + ": " + e.message
  }

  /** What reading a response body as JSON gave: the data, or the error `json()` threw. */
  datatype Body<T> = Json(data: T) | NotJson(failure: JsError)

  /** A response: `response.ok` and its body. */
  datatype Reply<T> = Reply(ok: bool, body: Body<T>)

  /** What a `fetch` settled to. */
  datatype Settled<T> = Fulfilled(reply: Reply<T>) | Rejected(reason: JsError)

  /** The JSON bodies the page reads: `links`/`files`/`evaluation` may be absent. */
  datatype MapData = MapData(links: Option<seq<Link>>, error: string)
  datatype FilesData = FilesData(files: Option<seq<CheckFiles.FileCheck>>, error: string)
  datatype EvalData = EvalData(evaluation: Option<EvaluateRoute.Evaluation>)

  /** The body of the `/api/evaluate` request. */
  datatype EvaluateCall = EvaluateCall(url: string, siteMap: seq<Link>, aiFiles: seq<CheckFiles.FileCheck>)

  const MapErrorPrefix := "Map error: "
  const MapFailedPrefix := "Map failed: "

  /** Reading the body of a settled call threw. */
  predicate Unreadable<T>(s: Settled<T>) {
    s.Fulfilled? && s.reply.body.NotJson?
  }

  /** The data of a call that came back `ok` with a readable body. */
  function OkData<T>(s: Settled<T>): Option<T> {
    if s.Fulfilled? && s.reply.ok && s.reply.body.Json? then Some(s.reply.body.data) else None
  }

  /** `siteMap`: the links of a successful map call. */
  function SiteMap(mapCall: Settled<MapData>): (r: Option<seq<Link>>)
    ensures r.Some? ==> mapCall.Fulfilled? && mapCall.reply.ok && !Unreadable(mapCall)
  {
    match OkData(mapCall)
    case Some(d) => d.links
    case None => None
  }

  /** `aiFiles`: the file checks of a successful files call. */
  function AiFiles(filesCall: Settled<FilesData>): (r: Option<seq<CheckFiles.FileCheck>>)
    ensures r.Some? ==> filesCall.Fulfilled? && filesCall.reply.ok && !Unreadable(filesCall)
  {
    match OkData(filesCall)
    case Some(d) => d.files
    case None => None
  }

  /** The message a failed map call sets: the route's error, or the rejection itself. */
  function MapMessage(mapCall: Settled<MapData>): (m: Option<string>)
    ensures m.Some? <==> mapCall.Rejected? || (mapCall.Fulfilled? && !mapCall.reply.ok && mapCall.reply.body.Json?)
  {
    match mapCall
    case Rejected(e) => Some(MapFailedPrefix + ErrorString(e))
    case Fulfilled(r) =>
      if !r.ok && r.body.Json? then Some(MapErrorPrefix + r.body.data.error) else None
  }

  /** The evaluation call answered `ok` and its body could be read. */
  function Delivered(evalCall: Settled<EvalData>): Option<EvaluateRoute.Evaluation> {
    match OkData(evalCall)
    case Some(d) => d.evaluation
    case None => None
  }

  /**
   * The message of the error that reached the `catch`: an unreadable map body,
   * then an unreadable files body; the evaluation call is made only when both
   * results are present, and then its rejection or an unreadable `ok` body.
   */
  function Caught(mapCall: Settled<MapData>, filesCall: Settled<FilesData>, evalCall: Settled<EvalData>): Option<string> {
    if Unreadable(mapCall) then Some(mapCall.reply.body.failure.message)
    else if Unreadable(filesCall) then Some(filesCall.reply.body.failure.message)
    else if SiteMap(mapCall).None? || AiFiles(filesCall).None? then None
    else match evalCall
      case Rejected(e) => Some(e.message)
      case Fulfilled(r) => if r.ok && r.body.NotJson? then Some(r.body.failure.message) else None
  }

  /** The error banner after a submit: a caught error wins over the map message. */
  function ShownError(mapCall: Settled<MapData>, filesCall: Settled<FilesData>, evalCall: Settled<EvalData>): Option<string> {
    if Caught(mapCall, filesCall, evalCall).Some? then Caught(mapCall, filesCall, evalCall) else MapMessage(mapCall)
  }

  /** The page state `handleSubmit` writes. */
  class ScanPage {
    var url: string
    var isLoading: bool
    var error: Option<string>
    var results: Option<seq<Link>>
    var fileChecks: Option<seq<CheckFiles.FileCheck>>
    var evaluation: Option<EvaluateRoute.Evaluation>

    /** The initial state: an empty form and nothing shown. */
    constructor()
      ensures url == "" && !isLoading && error.None? && results.None? && fileChecks.None? && evaluation.None?
    {
      url := "";
      isLoading := false;
      error := None;
      results := None;
      fileChecks := None;
      evaluation := None;
    }

    /**
     * `handleSubmit`: clears the panels, normalises the URL, sends the map and
     * files requests, shows what came back, and sends the evaluation request
     * (returned as `sent`) exactly when both came back with data.
     */
    method Submit(mapCall: Settled<MapData>, filesCall: Settled<FilesData>, evalCall: Settled<EvalData>)
        returns (sent: Option<EvaluateCall>)
      modifies this
      ensures url == old(url) && !isLoading
      ensures sent.Some? <==> SiteMap(mapCall).Some? && AiFiles(filesCall).Some?
      ensures sent.Some? ==>
        sent.value == EvaluateCall(NormalizeUrl(url), SiteMap(mapCall).value, AiFiles(filesCall).value)
      ensures results == SiteMap(mapCall)
      ensures fileChecks == (if Unreadable(mapCall) then None else AiFiles(filesCall))
      ensures evaluation == (if sent.Some? then Delivered(evalCall) else None)
      ensures error == ShownError(mapCall, filesCall, evalCall)
    {
      isLoading := true;
      error := None;
      results := None;
      fileChecks := None;
      evaluation := None;
      sent := None;

      var processedUrl := Trim(url);
      if !StartsWith(processedUrl, Http) && !StartsWith(processedUrl, Https) {
        processedUrl := Https + processedUrl;
      }

      var siteMap: Option<seq<Link>> := None;
      var aiFiles: Option<seq<CheckFiles.FileCheck>> := None;
      var caught: Option<string> := None;

      match mapCall {
        case Rejected(e) =>
          error := Some(MapFailedPrefix + ErrorString(e));
        case Fulfilled(r) =>
          match r.body {
            case NotJson(e) =>
              caught := Some(e.message);
            case Json(d) =>
              if r.ok {
                results := d.links;
                siteMap := d.links;
              } else {
                error := Some(MapErrorPrefix + d.error);
              }
          }
      }

      if caught.None? && filesCall.Fulfilled? {
        match filesCall.reply.body {
          case NotJson(e) =>
            caught := Some(e.message);
          case Json(d) =>
            if filesCall.reply.ok {
              fileChecks := d.files;
              aiFiles := d.files;
            }
        }
      }

      if caught.None? && siteMap.Some? && aiFiles.Some? {
        sent := Some(EvaluateCall(processedUrl, siteMap.value, aiFiles.value));
        match evalCall {
          case Rejected(e) =>
            caught := Some(e.message);
          case Fulfilled(r) =>
            if r.ok {
              match r.body {
                case NotJson(e) => caught := Some(e.message);
                case Json(d) => evaluation := d.evaluation;
              }
            }
        }
      }

      if caught.Some? {
        error := caught;
      }
      isLoading := false;
    }
  }

  /** An evaluation on screen means the whole flow succeeded: no error banner is shown. */
  lemma EvaluationShownWithoutError(mapCall: Settled<MapData>, filesCall: Settled<FilesData>, evalCall: Settled<EvalData>)
    requires SiteMap(mapCall).Some? && AiFiles(filesCall).Some? && Delivered(evalCall).Some?
    ensures ShownError(mapCall, filesCall, evalCall).None?
  {
  }

  /**
   * A map call that was rejected or answered with an error always leaves a
   * message, and then no evaluation is requested.
   */
  lemma FailedMapIsReported(mapCall: Settled<MapData>, filesCall: Settled<FilesData>, evalCall: Settled<EvalData>)
    requires mapCall.Rejected? || (mapCall.Fulfilled? && !mapCall.reply.ok)
    ensures ShownError(mapCall, filesCall, evalCall).Some?
    ensures SiteMap(mapCall).None?
  {
  }

  // ---- the result panels ----

  /** The label under the overall score. */
  datatype Label = Excellent | Good | NeedsWork | Poor

  function LabelText(l: Label): string {
    match l
    case Excellent => "Excellent"
    case Good => "Good"
    case NeedsWork => "Needs Work"
    case Poor => "Poor"
  }

  /** `>= 8`, `>= 6`, `>= 4`, otherwise poor. */
  function ScoreLabel(score: int): Label {
    if score >= 8 then Excellent else if score >= 6 then Good else if score >= 4 then NeedsWork else Poor
  }

  /** How good a label is, from 0 (poor) to 3 (excellent). */
  function LabelRank(l: Label): nat {
    match l
    case Poor => 0
    case NeedsWork => 1
    case Good => 2
    case Excellent => 3
  }

  /** The label is a banding of the score: each label covers one interval and a higher score never gets a worse label. */
  lemma ScoreLabelBands(score: int, other: int)
    ensures ScoreLabel(score) == Excellent <==> 8 <= score
    ensures ScoreLabel(score) == Good <==> 6 <= score < 8
    ensures ScoreLabel(score) == NeedsWork <==> 4 <= score < 6
    ensures ScoreLabel(score) == Poor <==> score < 4
    ensures score <= other ==> LabelRank(ScoreLabel(score)) <= LabelRank(ScoreLabel(other))
  {
  }

  /** The colour of the overall score. */
  datatype Tone = Green | Yellow | Red

  /** `>= 8` green, `>= 6` yellow, otherwise red. */
  function ScoreTone(score: int): Tone {
    if score >= 8 then Green else if score >= 6 then Yellow else Red
  }

  /** The colour agrees with the label: green for excellent, yellow for good, red below. */
  lemma ToneMatchesLabel(score: int)
    ensures ScoreTone(score) == Green <==> ScoreLabel(score) == Excellent
    ensures ScoreTone(score) == Yellow <==> ScoreLabel(score) == Good
    ensures ScoreTone(score) == Red <==> ScoreLabel(score) in {NeedsWork, Poor}
  {
  }

  /** The SEO summary above the link list. */
  datatype SeoNote =
    | NoHtmlPages
    | Opportunities(missingTitles: Option<nat>, missingDescriptions: Option<nat>, htmlPages: nat)
    | AllOptimized(htmlPages: nat)

  /**
   * With no HTML page an info note; otherwise the opportunities, listing each
   * non-zero missing count against the number of HTML pages, or the all-clear.
   */
  function SeoSummary(links: seq<Link>): (n: SeoNote)
    ensures n.NoHtmlPages? <==> forall l :: l in links ==> !IsHtmlPage(l)
    ensures n.AllOptimized? <==>
      (exists l :: l in links && IsHtmlPage(l)) && forall l :: l in links && IsHtmlPage(l) ==> Present(l.title) && Present(l.description)
    ensures !n.NoHtmlPages? ==> n.htmlPages == |HtmlPages(links)| > 0
    ensures n.Opportunities? ==>
      && (n.missingTitles.Some? <==> exists l :: l in links && IsHtmlPage(l) && !Present(l.title))
      && (n.missingDescriptions.Some? <==> exists l :: l in links && IsHtmlPage(l) && !Present(l.description))
      && (n.missingTitles.Some? ==> 0 < n.missingTitles.value <= n.htmlPages)
      && (n.missingDescriptions.Some? ==> 0 < n.missingDescriptions.value <= n.htmlPages)
  {
    var m := Summarize(links);
    HtmlPagesSublist(links);
    if m.htmlPages == 0 then
      NoHtmlPages
    else
      assert HtmlPages(links)[0] in HtmlPages(links);
      if m.missingTitles > 0 || m.missingDescriptions > 0 then
        Opportunities(if m.missingTitles > 0 then Some(m.missingTitles) else None,
                      if m.missingDescriptions > 0 then Some(m.missingDescriptions) else None,
                      m.htmlPages)
      else AllOptimized(m.htmlPages)
  }

  /** What one link's entry shows. */
  datatype LinkView = LinkView(
    highlighted: bool, noTitleBadge: bool, noDescriptionBadge: bool, assetBadge: bool,
    needsWorkNote: bool, optimizedNote: bool)

  /** The entry of one link. */
  function ViewLink(link: Link): LinkView {
    var isHtml := IsHtmlPage(link);
    var needs := isHtml && (!Present(link.title) || !Present(link.description));
    LinkView(needs, isHtml && needs && !Present(link.title), isHtml && needs && !Present(link.description),
             !isHtml, isHtml && needs, isHtml && !needs)
  }

  /**
   * Every entry is exactly one of asset, needing work or optimised; it is
   * highlighted exactly when it needs work, and then shows a badge for each
   * missing field.
   */
  lemma ViewLinkCases(link: Link)
    ensures var v := ViewLink(link);
      && (v.assetBadge <==> !IsHtmlPage(link))
      && (v.highlighted <==> NeedsOptimization(link))
      && (v.needsWorkNote <==> NeedsOptimization(link))
      && (v.optimizedNote <==> IsHtmlPage(link) && Present(link.title) && Present(link.description))
      && (v.highlighted <==> v.noTitleBadge || v.noDescriptionBadge)
      && (v.noTitleBadge <==> IsHtmlPage(link) && !Present(link.title))
      && (v.noDescriptionBadge <==> IsHtmlPage(link) && !Present(link.description))
      && (if v.assetBadge then 1 else 0) + (if v.needsWorkNote then 1 else 0) + (if v.optimizedNote then 1 else 0) == 1
  {
  }

  /** The summary reports opportunities exactly when some link's entry is highlighted. */
  lemma SummaryMatchesHighlights(links: seq<Link>)
    ensures SeoSummary(links).Opportunities? <==> exists l :: l in links && ViewLink(l).highlighted
  {
    if SeoSummary(links).Opportunities? {
      var l :| l in links && IsHtmlPage(l) && (!Present(l.title) || !Present(l.description));
      assert ViewLink(l).highlighted;
    }
  }
}
