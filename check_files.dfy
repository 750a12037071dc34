/**
 * The AI-discovery file prober of app/api/check-files/route.ts. Each HTTP probe
 * is an input value; what is modelled is the classification of one response
 * into a `FileCheck` and the loop that does this once per well-known path.
 */
module CheckFiles {
  import opened Wrappers
  import opened Text
  import opened Seqs
  import opened Urls

  /** The probed paths, in probing order. */
  const AiFiles: seq<string> := ["/agents.txt", "/agent.txt", "/llm.txt", "/llms.txt"]

  /** The error-page vocabulary, matched against the lower-cased body. */
  const ErrorIndicators: seq<string> := [
    "page not found", "404 error", "not found", "error 404",
    "sorry, the page you are looking for", "oops! that page can't be found",
    "the requested url was not found", "<html", "<head>", "<title>",
    "nginx", "apache", "cloudflare", "page does not exist", "file not found"]

  /** Longest body accepted as an AI file. */
  const MaxFileLength: nat := 50000

  /** The indicators that occur in `content` after lower-casing. */
  function FoundIndicators(content: string): seq<string> {
    var lower := Lower(content);
    Filter(ErrorIndicators, (indicator: string) => Contains(lower, indicator))
  }

  /** `isProbablyErrorPage`: at least two indicators occur. */
  predicate IsProbablyErrorPage(content: string) {
    |FoundIndicators(content)| >= 2
  }

  /** The heuristic fires exactly when two different entries of the vocabulary occur in the lower-cased body. */
  lemma ErrorPageIffTwoIndicators(content: string)
    ensures IsProbablyErrorPage(content) <==>
      exists i, j :: 0 <= i < j < |ErrorIndicators|
        && Contains(Lower(content), ErrorIndicators[i]) && Contains(Lower(content), ErrorIndicators[j])
  {
    var lower := Lower(content);
    FilterAtLeastTwo(ErrorIndicators, (indicator: string) => Contains(lower, indicator));
  }

  /** Indicators `i` and `j` both occurring make an error page. */
  lemma TwoIndicators(content: string, i: nat, j: nat)
    requires i < j < |ErrorIndicators|
    requires Contains(Lower(content), ErrorIndicators[i]) && Contains(Lower(content), ErrorIndicators[j])
    ensures IsProbablyErrorPage(content)
  {
    var lower := Lower(content);
    FilterKeepsTwo(ErrorIndicators, (indicator: string) => Contains(lower, indicator), i, j);
  }

  /** An indicator that contains another one counts twice: a body holding it is an error page on its own. */
  lemma NestedIndicatorIsErrorPage(content: string, i: nat, j: nat)
    requires i < |ErrorIndicators| && j < |ErrorIndicators| && i != j
    requires Contains(ErrorIndicators[i], ErrorIndicators[j])
    requires Contains(Lower(content), ErrorIndicators[i])
    ensures IsProbablyErrorPage(content)
  {
    ContainsTransitive(Lower(content), ErrorIndicators[i], ErrorIndicators[j]);
    if i < j {
      TwoIndicators(content, i, j);
    } else {
      TwoIndicators(content, j, i);
    }
  }

  /** A body that only says "page not found" is an error page, since it also holds "not found". */
  lemma PageNotFoundIsErrorPage()
    ensures IsProbablyErrorPage("page not found")
  {
    var body := "page not found";
    assert IsLowerCase(body);
    LowerOfLowerCase(body);
    assert body[0..14] == ErrorIndicators[0];
    ContainsAt(body, ErrorIndicators[0], 0);
    assert body[5..14] == ErrorIndicators[2];
    ContainsAt(body, ErrorIndicators[2], 5);
    TwoIndicators(body, 0, 2);
  }

  /** One indicator alone does not make an error page: the body `<html` is not one. */
  lemma LoneHtmlTagIsNotErrorPage()
    ensures !IsProbablyErrorPage("<html")
  {
    var body := "<html";
    assert IsLowerCase(body);
    LowerOfLowerCase(body);
    forall k | 0 <= k < |ErrorIndicators| && k != 7
      ensures !Contains(body, ErrorIndicators[k])
    {
      ContainsImplies(body, ErrorIndicators[k]);
      if k == 10 {
        assert 'n' in ErrorIndicators[k] && 'n' !in body;
      }
    }
    ErrorPageIffTwoIndicators(body);
  }

  /** Two indicators make an error page: `<html>` followed by "404 error". */
  lemma HtmlTagAnd404IsErrorPage()
    ensures IsProbablyErrorPage("<html>404 error")
  {
    var body := "<html>404 error";
    assert IsLowerCase(body);
    LowerOfLowerCase(body);
    assert body[0..5] == ErrorIndicators[7];
    ContainsAt(body, ErrorIndicators[7], 0);
    assert body[6..15] == ErrorIndicators[1];
    ContainsAt(body, ErrorIndicators[1], 6);
    TwoIndicators(body, 1, 7);
  }

  /**
   * `isLegitimateTextFile`: not served as HTML, not an error page, not blank,
   * and at most 50 000 characters long.
   */
  predicate IsLegitimateTextFile(content: string, contentType: string)
    ensures IsLegitimateTextFile(content, contentType) <==>
      && !Contains(contentType, "text/html")
      && !IsProbablyErrorPage(content)
      && !AllWhitespace(content)
      && |content| <= MaxFileLength
  {
    TrimEmptyIffBlank(content);
    if Contains(contentType, "text/html") then false
    else if IsProbablyErrorPage(content) then false
    else if |Trim(content)| == 0 then false
    else if |content| > MaxFileLength then false
    else true
  }

  /** Where indicator `k` has a lower-case letter. */
  function LetterAt(k: nat): nat {
    if k == 1 then 4 else if k == 7 || k == 8 || k == 9 then 1 else 0
  }

  lemma IndicatorHasLetter(k: nat)
    requires k < |ErrorIndicators|
    ensures LetterAt(k) < |ErrorIndicators[k]| && 'a' <= ErrorIndicators[k][LetterAt(k)] <= 'z'
  {
  }

  /** Every indicator holds a letter, so a body without ASCII letters is never an error page. */
  lemma LetterFreeBodyIsNotErrorPage(content: string)
    requires forall i :: 0 <= i < |content| ==> !('a' <= content[i] <= 'z') && !('A' <= content[i] <= 'Z')
    ensures !IsProbablyErrorPage(content)
  {
    assert IsLowerCase(content);
    LowerOfLowerCase(content);
    forall k | 0 <= k < |ErrorIndicators| ensures !Contains(content, ErrorIndicators[k]) {
      IndicatorHasLetter(k);
      ContainsImplies(content, ErrorIndicators[k]);
      assert ErrorIndicators[k][LetterAt(k)] !in content;
    }
    ErrorPageIffTwoIndicators(content);
  }

  lemma PlainIsNotHtml()
    ensures !Contains("text/plain", "text/html")
  {
    ContainsImplies("text/plain", "text/html");
    assert 'h' in "text/html" && 'h' !in "text/plain";
  }

  /**
   * A non-blank body of at most 50000 characters with no ASCII letters, served as
   * plain text, is accepted as a file.
   */
  lemma LetterFreePlainTextIsLegitimate(content: string)
    requires forall i :: 0 <= i < |content| ==> !('a' <= content[i] <= 'z') && !('A' <= content[i] <= 'Z')
    requires !AllWhitespace(content) && |content| <= MaxFileLength
    ensures IsLegitimateTextFile(content, "text/plain")
  {
    LetterFreeBodyIsNotErrorPage(content);
    PlainIsNotHtml();
  }

  /**
   * `isLegitimate404`: the trimmed body is under 100 characters, or under 500
   * characters and served as plain text.
   */
  predicate IsLegitimate404(content: string, contentType: string)
    ensures IsLegitimate404(content, contentType) ==> |Trim(content)| < 500
    ensures !Contains(contentType, "text/plain") ==> (IsLegitimate404(content, contentType) <==> |Trim(content)| < 100)
    ensures Contains(contentType, "text/plain") ==> (IsLegitimate404(content, contentType) <==> |Trim(content)| < 500)
  {
    if |Trim(content)| < 100 then true
    else if Contains(contentType, "text/plain") && |Trim(content)| < 500 then true
    else false
  }

  /** One probe: the fetch threw, or a response with its status, `content-type` (empty if absent) and body (absent if reading it threw). */
  datatype Probe = NetworkError | Response(status: nat, contentType: string, body: Option<string>)

  /** The record produced for one probed path. */
  datatype FileCheck = FileCheck(
    path: string, fileExists: bool, content: Option<string>, error: Option<string>,
    statusCode: Option<int>, contentType: Option<string>)

  const InvalidContentError := "File appears to be a generated error page or invalid content"
  const UnreadableError := "Could not read content"
  const Plain404Error := "File not found (404)"
  const ErrorPage404Error := "File not found - website error page"
  const Unexpected404Error := "File not found (unexpected 404 response)"
  const NetworkErrorMessage := "Network error"

  /** `response.ok` */
  predicate IsOk(status: nat) { 200 <= status <= 299 }

  /** The status dispatch of one loop iteration. */
  function Classify(path: string, probe: Probe): (c: FileCheck)
    ensures c.path == path
    ensures c.fileExists <==>
      probe.Response? && IsOk(probe.status) && probe.body.Some? && IsLegitimateTextFile(probe.body.value, probe.contentType)
    ensures c.fileExists ==> c.content == probe.body && c.error.None?
    ensures !c.fileExists ==> c.content.None? && c.error.Some?
    ensures probe.NetworkError? ==> c == FileCheck(path, false, None, Some(NetworkErrorMessage), Some(0), None)
    ensures probe.Response? ==> c.statusCode == Some(probe.status as int) && c.contentType == Some(probe.contentType)
    ensures probe.Response? && Contains(probe.contentType, "text/html") ==> !c.fileExists
    ensures probe.Response? && IsOk(probe.status) && probe.body.None? ==> c.error == Some(UnreadableError)
    ensures probe.Response? && IsOk(probe.status) && probe.body.Some? ==>
      c.error == (if IsLegitimateTextFile(probe.body.value, probe.contentType) then None else Some(InvalidContentError))
    ensures probe.Response? && probe.status == 404 && probe.body.None? ==> c.error == Some(Plain404Error)
    ensures probe.Response? && probe.status >= 400 && probe.status != 404 ==>
      c.error == Some("Server error (" + NatToString(probe.status) + ")")
    ensures probe.Response? && !IsOk(probe.status) && probe.status < 400 ==>
      c.error == Some("Unexpected response (" + NatToString(probe.status) + ")")
  {
    match probe
    case NetworkError => FileCheck(path, false, None, Some(NetworkErrorMessage), Some(0), None)
    case Response(status, contentType, body) =>
      var base := FileCheck(path, false, None, None, Some(status as int), Some(contentType));
      if IsOk(status) then
        if body.None? then base.(error := Some(UnreadableError))
        else if IsLegitimateTextFile(body.value, contentType) then base.(fileExists := true, content := body)
        else base.(error := Some(InvalidContentError))
      else if status == 404 then
        if body.None? then base.(error := Some(Plain404Error))
        else if IsLegitimate404(body.value, contentType) then base.(error := Some(Plain404Error))
        else if IsProbablyErrorPage(body.value) then base.(error := Some(ErrorPage404Error))
        else base.(error := Some(Unexpected404Error))
      else if status >= 400 then base.(error := Some("Server error (" + NatToString(status) + ")"))
      else base.(error := Some("Unexpected response (" + NatToString(status) + ")"))
  }

  /** In a 404 the short-body test comes first: a short body is a plain "not found" even when it looks like an error page. */
  lemma Short404IsPlainNotFound(path: string, contentType: string, body: string)
    requires IsLegitimate404(body, contentType)
    ensures Classify(path, Response(404, contentType, Some(body))).error == Some(Plain404Error)
  {
  }

  /** A long 404 body is reported as an error page exactly when the heuristic fires. */
  lemma Long404Dispatch(path: string, contentType: string, body: string)
    requires !IsLegitimate404(body, contentType)
    ensures Classify(path, Response(404, contentType, Some(body))).error
      == Some(if IsProbablyErrorPage(body) then ErrorPage404Error else Unexpected404Error)
  {
  }

  /** A 404 with a 50-character plain-text body is a legitimate "not found". */
  lemma FiftyCharacterPlain404(path: string, body: string)
    requires |body| == 50
    ensures Classify(path, Response(404, "text/plain", Some(body))) ==
      FileCheck(path, false, None, Some(Plain404Error), Some(404), Some("text/plain"))
  {
    TrimShorter(body);
  }

  /**
   * The loop of the route: one `FileCheck` per path of `AiFiles`, in order;
   * `probes[i]` is what fetching `AiFiles[i]` produced.
   */
  method CheckAllFiles(probes: seq<Probe>) returns (checks: seq<FileCheck>)
    requires |probes| == |AiFiles|
    ensures |checks| == |AiFiles|
    ensures forall i :: 0 <= i < |AiFiles| ==> checks[i].path == AiFiles[i]
    ensures forall i :: 0 <= i < |AiFiles| ==> checks[i] == Classify(AiFiles[i], probes[i])
  {
    checks := [];
    for i := 0 to |AiFiles|
      invariant |checks| == i
      invariant forall k :: 0 <= k < i ==> checks[k] == Classify(AiFiles[k], probes[k])
    {
      var check := Classify(AiFiles[i], probes[i]);
      checks := checks + [check];
    }
  }

  /** The number of files found, which drives the AI-optimisation score. */
  function ExistingCount(checks: seq<FileCheck>): (n: nat)
    ensures n <= |checks|
    ensures n == 0 <==> forall c :: c in checks ==> !c.fileExists
  {
    var found := Filter(checks, (c: FileCheck) => c.fileExists);
    FilterNonEmpty(checks, (c: FileCheck) => c.fileExists);
    |found|
  }

  datatype CheckFilesResponse =
    | AuthRequired
    | BadRequest(message: string)
    | InternalError
    | Checked(origin: string, files: seq<FileCheck>)

  /** The arguments passed to `saveAIFiles`: the records exactly as the response carries them. */
  datatype FilesSave = FilesSave(url: string, domain: string, files: seq<FileCheck>)

  /**
   * The POST handler: 401 without a user, 500 when the body cannot be read as
   * JSON, 400 for a missing or unparsable URL, otherwise the probe results for
   * the URL's origin, saved under the full URL. `bodyRead` says whether
   * `request.json()` and its destructuring succeeded.
   */
  method CheckFilesRoute(userId: Option<string>, bodyRead: bool, url: string, parsed: Option<ParsedUrl>,
                         probes: seq<Probe>)
    returns (response: CheckFilesResponse, save: Option<FilesSave>)
    requires |probes| == |AiFiles|
    ensures userId.None? <==> response.AuthRequired?
    ensures userId.Some? && !bodyRead ==> response == InternalError
    ensures userId.Some? && bodyRead && url == "" ==> response == BadRequest("URL is required")
    ensures userId.Some? && bodyRead && url != "" && parsed.None? ==> response == BadRequest("Invalid URL format")
    ensures response.Checked? <==> save.Some?
    ensures response.Checked? <==> userId.Some? && bodyRead && url != "" && parsed.Some?
    ensures userId.Some? && bodyRead && url != "" && parsed.Some? ==>
      && response.Checked? && response.origin == parsed.value.origin && |response.files| == |AiFiles|
      && (forall i :: 0 <= i < |AiFiles| ==> response.files[i] == Classify(AiFiles[i], probes[i]))
      && save == Some(FilesSave(parsed.value.href, parsed.value.hostname, response.files))
  {
    save := None;
    if userId.None? {
      return AuthRequired, None;
    }
    if !bodyRead {
      return InternalError, None;
    }
    if url == "" {
      return BadRequest("URL is required"), None;
    }
    if parsed.None? {
      return BadRequest("Invalid URL format"), None;
    }
    var files := CheckAllFiles(probes);
    save := Some(FilesSave(parsed.value.href, parsed.value.hostname, files));
    response := Checked(parsed.value.origin, files);
  }
}
