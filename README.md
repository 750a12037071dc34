# LLMScore, modelled in Dafny

LLMScore rates how well a website is prepared for search and for AI-driven
discovery. A signed-in user submits a URL and three server routes then run:

- **Map** crawls the site's links and counts the HTML pages that lack a title or a description.
- **Check files** probes `/agents.txt`, `/agent.txt`, `/llm.txt` and `/llms.txt`. It decides for each whether a real text file answered.
- **Evaluate** works in five steps:
  1. it asks a language model for up to ten search keywords;
  2. it searches each keyword and tallies where the site ranks;
  3. it scores search visibility, content quality, technical SEO and AI optimisation on a 0-10 scale;
  4. it weighs the four scores into an overall score;
  5. it writes a list of recommendations.

A credit ledger stores each user's balance and an append-only log of purchases
and consumptions. The credits route sells demo credit packages. Three Convex
tables keep the latest evaluation, site map and file check per (user, URL). The
dashboard groups a user's evaluations by domain and prints per-domain
statistics. The home page normalises the typed URL, sends the three calls and
shows the results.

This Dafny project models that core:

- Pure rules become functions with their properties proved as lemmas. These are:
  - the score tables;
  - the classifiers;
  - the keyword parser;
  - the statistics.
- State that the source changes in place becomes classes whose methods say exactly what the new state is:
  - the ledger;
  - the tables;
  - the page state.
- Loops become methods whose invariants tie them to a specification function. These are:
  - the search tally;
  - the probe loop;
  - the grouping loops;
  - the recommendation pushes.
- Each external service becomes an input value:
  - the crawler reply;
  - the search results;
  - the completion text;
  - the HTTP probes;
  - the settled `fetch` results.
- The clock is a `now` parameter.

Modules, one concept each:

| module | models |
|---|---|
| `Wrappers`, `Text`, `Seqs`, `Urls` | options; JavaScript string operations (`includes`, `startsWith`, `trim`, `split`, ASCII `toLowerCase`); filters, `slice`, stable descending sort; `https://` handling |
| `Credits`, `CreditsRoute` | convex/credits.ts and app/api/credits/route.ts |
| `Links`, `MapRoute` | the HTML-page/asset classifier and the map route |
| `CheckFiles`, `SaveValidation` | the check-files route; the save validators against what the routes send |
| `Keywords`, `Search`, `Scoring`, `EvaluateRoute` | the evaluate route |
| `Tables`, `Evaluations`, `ScanTables`, `WebsiteMaps`, `AiFiles` | the Convex tables |
| `Dashboard`, `Home` | app/dashboard/page.tsx and app/page.tsx |

Representation decisions:

- A table is its rows in insertion order.
- `withIndex(...).first()` returns the oldest matching row.
- `.order("desc")` reverses the insertion order.
- A `patch` keeps the row in place.
- `x || 50` becomes an `Option<nat>` argument, where `None` or `0` means the default.
- Ratios of counts are compared by cross-multiplication.
- Rounded averages are kept as exact integers of tenths.

## Model

| member | source | states |
|---|---|---|
| Credits.PricingPackage | convex/credits.ts:5-26 | a package is found exactly for the keys `starter`, `growth` and `pro` |
| Credits.Ledger.constructor | convex/credits.ts:34-54 | the two tables start empty, consistent and with no negative balance |
| Credits.Ledger.InitializeUserCredits | convex/credits.ts:57-93 | a user without a record gets credits 1, purchased 1, consumed 0 and one purchase entry (amount 1, before 0, after 1, price 0, package `free`); for an existing user nothing changes and the existing id is returned; the ledger invariant and non-negative balances are kept |
| Credits.Ledger.AddCredits | convex/credits.ts:96-151 | a zero record is created when absent; balance and `total_purchased` rise by the amount; one purchase entry with before + amount = after is appended; the new balance is returned; the invariant holds, and balances stay non-negative for a non-negative amount |
| Credits.Ledger.ConsumeCredits | convex/credits.ts:154-198 | "Insufficient credits" exactly when the user has no record or too small a balance, and then neither table changes; otherwise the balance falls and `total_consumed` rises by the amount, one consumption entry is appended and the new balance returned; no balance goes negative |
| Credits.UpdateKeepsInvariant | convex/credits.ts:69-71 | writing a record whose totals include one more balanced log entry keeps purchased − consumed = balance, totals = the log's sums and last entry's `credits_after` = balance for every user |
| Credits.InitializeKeepsInvariant | convex/credits.ts:65-88 | the welcome record and entry keep the ledger invariant and non-negativity |
| Credits.AddKeepsInvariant | convex/credits.ts:106-149 | a credit keeps the invariant, and non-negativity for a non-negative amount |
| Credits.ConsumeKeepsInvariant | convex/credits.ts:173-196 | a covered debit keeps the invariant and never makes a balance negative |
| Credits.AppendTransaction | convex/credits.ts:75-88 | appending an entry changes only its own user's purchase sum, consumption sum and newest entry |
| Credits.AbsentUser | convex/credits.ts:111-122 | a user with no log entries has zero sums and no newest entry, so a fresh zero record is consistent |
| Credits.Ledger.UserCreditsView | convex/credits.ts:34-54 | the user's record, or an all-zero record when there is none |
| Credits.Ledger.CheckCreditsForScan | convex/credits.ts:201-222 | required is 3 for `premium` and 1 otherwise; available is the balance or 0; enough ⇔ available ≥ required ⇔ shortfall = 0; a positive shortfall closes the gap exactly |
| Credits.Ledger.CheckMatchesConsume | convex/credits.ts:201-222 | the check reports enough credits exactly when consuming the required amount would succeed |
| Credits.Ledger.TransactionHistory | convex/credits.ts:225-247 | exactly `limit` entries (50 when absent or 0) when more are selected, otherwise all of them; newest first; all of the user and of the requested type |
| Credits.Ledger.Stats | convex/credits.ts:250-281 | purchase and scan counts add up to the user's entries, the purchase count being the number of purchase entries; the balance is the record's; a last purchase date exists exactly when the user has a purchase; the statistics as written agree with these in every field except `last_purchase` and `last_scan` |
| Credits.CreditStatsAsWritten | convex/credits.ts:250-281 | the statistics as written, with `last_purchase` and `last_scan` read from index 0 of the ascending log |
| Credits.AsWrittenDiffersOnlyInDates | convex/credits.ts:250-281 | the as-written and the corrected statistics agree in every field except `last_purchase` and `last_scan` |
| Credits.LastPurchaseIsOldest | convex/credits.ts:278-279 | with two purchases the as-written `last_purchase` is the earlier one, while the corrected statistics give the later one |
| Credits.CreditStatsOf | convex/credits.ts:250-281 | counts equal the entries of each kind and add up to the log; 30-day scans are at most all scans; `last_purchase` exists exactly when a purchase does and is the newest one |
| Credits.NewestOfKind | convex/credits.ts:278-279 | the last entry of a kind, present exactly when one exists, with no entry of that kind after it |
| Credits.FilterSplits | convex/credits.ts:263-276 | purchases and consumptions partition the log |
| CreditsRoute.RouteOffer | app/api/credits/route.ts:100-104 | the route's own package table answers exactly for the three keys, with credits 1/5/15 and prices 500/2000/5000 cents equal to `PRICING_PACKAGES` |
| CreditsRoute.Validate | app/api/credits/route.ts:92-121 | 400 "Package type is required" when the type is missing or empty; 400 "Invalid package type" for any other key; 402 for a token other than `demo_success`; a charge exactly for a known package with that token, carrying that package's credits and price |
| CreditsRoute.ValidateAsWritten | app/api/credits/route.ts:106-112 | the validation as written, where `packages[key]` also finds inherited `Object.prototype` members; for every other key it agrees with `Validate` |
| CreditsRoute.LookupAsWritten | app/api/credits/route.ts:106-112 | `packages[key]` is an own entry exactly for the three keys and an inherited member exactly for the prototype keys |
| CreditsRoute.PrototypeKeyIsNotRejectedAsInvalid | app/api/credits/route.ts:106-112 | the package type `constructor` gets 500 with the demo token and 402 without it, never the 400 "Invalid package type" the corrected validation gives |
| CreditsRoute.PricesAreWholeDollars | app/api/credits/route.ts:138 | every package price in cents is a whole number of dollars, so `price / 100` is exact |
| CreditsRoute.Purchase | app/api/credits/route.ts:76-146 | 401 without a user, 500 "Internal server error" when the body is not readable JSON, then the validation's rejection; every rejection leaves the ledger unchanged; a charge credits the user with the package's credits at its price in cents, exactly as `addCredits` does, and answers with the credits, the new balance, the package and the price in dollars |
| CreditsRoute.PriceListMatchesPackages | app/api/credits/route.ts:37-63 | the GET price list has one entry per package, with the same credits, dollar prices × 100 equal to the cents and the same scan costs |
| CreditsRoute.ReadOverview | app/api/credits/route.ts:9-73 | 401 exactly without a user, changing nothing; otherwise the user is initialised first: an existing user leaves both tables unchanged, a new one gets the welcome record and the welcome purchase entry appended; the returned balance is that of the record, next to the statistics and the ten newest entries (all of them when there are fewer) |
| Links.Summarize | app/api/map/route.ts:64-73 | `total_links` is the number of links; `missing_titles` ≤ `html_pages` ≤ `total_links`; `missing_descriptions` ≤ `html_pages`; each missing count is 0 exactly when every HTML page has that field |
| Links.HtmlPagesSublist | app/api/map/route.ts:64-70 | the HTML pages are a sub-multiset of the links, and a link is among them exactly when it is an HTML page |
| Links.ExtensionMakesAsset | app/api/map/route.ts:67-68 | a URL ending in a listed extension, in any case, is an asset and never needs optimisation |
| Links.AssetPatternsLowerCase | app/api/map/route.ts:69 | every `/segment/` pattern is already lower case, so testing the lower-cased URL is the case-insensitive regex |
| Links.SegmentMakesAsset | app/api/map/route.ts:69 | a URL containing any case spelling of a listed `/segment/` is an asset |
| MapRoute.HandleMap | app/api/map/route.ts:17-94 | 401, 500 "Internal server error" for a body that is not readable JSON, 400 "URL is required", 400 "Invalid URL format", 500 without a `links` array, in that order, none of them saving; on success the response carries the links and `totalLinks` = their number, and the save carries the summary of the same links |
| MapRoute.SavedSummaryConsistent | app/api/map/route.ts:64-84 | the saved counts are those of the saved links and bounded by them |
| CheckFiles.ErrorPageIffTwoIndicators | app/api/check-files/route.ts:180-208 | `isProbablyErrorPage` holds exactly when two different indicators occur in the lower-cased body |
| CheckFiles.TwoIndicators | app/api/check-files/route.ts:180-208 | two distinct indicators occurring make an error page |
| CheckFiles.NestedIndicatorIsErrorPage | app/api/check-files/route.ts:184-207 | an indicator containing another one ("page not found" holds "not found") makes an error page on its own |
| CheckFiles.PageNotFoundIsErrorPage | app/api/check-files/route.ts:184-207 | the body "page not found" is an error page |
| CheckFiles.LoneHtmlTagIsNotErrorPage | app/api/check-files/route.ts:180-208 | one indicator alone, the body `<html`, is not an error page |
| CheckFiles.HtmlTagAnd404IsErrorPage | app/api/check-files/route.ts:180-208 | `<html>404 error` holds two indicators and is an error page |
| CheckFiles.IsLegitimateTextFile | app/api/check-files/route.ts:140-162 | a text file is legitimate exactly when its type has no `text/html`, it is no error page, its trimmed body is non-empty and it is at most 50000 characters long |
| CheckFiles.LetterFreeBodyIsNotErrorPage | app/api/check-files/route.ts:180-208 | a body without ASCII letters never trips the heuristic, since every indicator holds a letter |
| CheckFiles.LetterFreePlainTextIsLegitimate | app/api/check-files/route.ts:140-162 | a short non-blank `text/plain` body without ASCII letters is a legitimate text file |
| CheckFiles.IsLegitimate404 | app/api/check-files/route.ts:165-177 | a legitimate 404 has a trimmed body under 100 characters, or under 500 for `text/plain` |
| CheckFiles.Classify | app/api/check-files/route.ts:62-136 | `exists` exactly for a 2xx with a readable legitimate text body, which is kept verbatim; otherwise no content and an error; a network error gives status 0 and "Network error"; status and content type are recorded; an HTML type never counts as found; the error is "Could not read content" for an unreadable 2xx body, "File appears to be a generated error page or invalid content" for a 2xx body that is not legitimate, "File not found (404)" for an unreadable 404 body, `Server error (n)` for any other status of 400 or more and `Unexpected response (n)` for any other status below 400 |
| CheckFiles.Short404IsPlainNotFound | app/api/check-files/route.ts:98-106 | in a 404 the legitimate-404 test comes first, so a short body is a plain "not found" even when it looks like an error page |
| CheckFiles.Long404Dispatch | app/api/check-files/route.ts:98-117 | a long 404 body is reported as the website's error page exactly when the heuristic fires, otherwise as an unexpected 404 |
| CheckFiles.FiftyCharacterPlain404 | app/api/check-files/route.ts:98-106 | a 404 with a 50-character plain-text body gives the plain "File not found (404)" record |
| CheckFiles.CheckAllFiles | app/api/check-files/route.ts:60-137 | one record per path of `AI_FILES`, in that order, each the classification of that path's probe |
| CheckFiles.ExistingCount | app/api/evaluate/route.ts:299-300 | the found files are at most all files, and none is found exactly when every record says it does not exist |
| CheckFiles.CheckFilesRoute | app/api/check-files/route.ts:24-225 | 401 exactly without a user; 500 for a body that is not readable JSON; 400 for a missing or unparsable URL; otherwise the origin and one classified record per AI file, and a save of exactly those records under the full URL and its host name; a save is attempted exactly on success |
| SaveValidation.RejectionReasons | convex/evaluations.ts:6-28 | an object validator rejects exactly when a required field is missing or an undeclared field is supplied |
| SaveValidation.CheckFields | app/api/check-files/route.ts:71-136 | a record as the route builds it always has `path` and `exists`, and carries `statusCode` exactly when it has one |
| SaveValidation.StoredFields | convex/schema.ts:93-100 | a stored entry has path and existence, and only fields the table's entry schema declares |
| SaveValidation.EvaluationSaveIsRejected | app/api/evaluate/route.ts:376-387 | the arguments the evaluate route sends lack `credits_consumed` and `scan_type`, so `saveEvaluation` rejects every save |
| SaveValidation.EvaluationSaveWithCostIsAccepted | convex/evaluations.ts:6-28 | adding the scan cost gives exactly the required fields, which the validator accepts |
| SaveValidation.MapSaveIsRejected | app/api/map/route.ts:75-84 | the arguments the map route sends lack the scan cost, so `saveWebsiteMap` rejects every save |
| SaveValidation.MapSaveWithCostIsAccepted | convex/websiteMaps.ts:6-21 | adding the scan cost gives exactly the required fields, which the validator accepts |
| SaveValidation.ProbedEntryIsRejected | app/api/check-files/route.ts:71-136 | every probed record carries `statusCode`, which the entry validator does not declare, so `saveAIFiles` rejects every save |
| SaveValidation.StoredEntryIsAccepted | convex/schema.ts:93-100 | an entry validator declaring what the table's schema declares accepts every probed record, and the stored entry keeps all its fields |
| SaveValidation.AiFilesDocumentIsRejected | convex/aiFiles.ts:6-38 | `saveAIFiles` writes no `credits_consumed` or `scan_type`, which the `ai_files` document of convex/schema.ts:89-103 requires |
| SaveValidation.AiFilesDocumentWithCostIsAccepted | convex/schema.ts:89-103 | with the scan cost written too, the document has exactly the fields the schema requires |
| Keywords.TrimAll | app/api/evaluate/route.ts:128 | `.map(k => k.trim())` keeps the length and trims each piece |
| Keywords.ParseKeywords | app/api/evaluate/route.ts:127-128 | at most ten keywords, each non-empty, trimmed and free of `,` and `"` |
| Keywords.ParseJoined | app/api/evaluate/route.ts:127-128 | a reply `k1, k2, …` of at most ten well-formed keywords parses back to exactly those keywords |
| Keywords.JoinedPieces | app/api/evaluate/route.ts:127-128 | removing quotes and splitting at commas gives each keyword after the first with its leading blank |
| Keywords.TrimPrefixRest | app/api/evaluate/route.ts:128 | trimming removes exactly the blanks the separator put in front |
| Keywords.SplitKeepsChars | app/api/evaluate/route.ts:128 | every character of a split piece comes from the input |
| Search.FirstMatch | app/api/evaluate/route.ts:150-152 | `find` returns the first result whose URL contains the domain or whose scheme-less URL the domain contains, with every earlier result carrying a non-matching URL; it finds nothing exactly when every result carries a non-matching URL; it throws at the first result without a URL that no matching result precedes |
| Search.Position | app/api/evaluate/route.ts:154-156 | the 1-based rank lies in 1..number of results, names a matching result with no match or URL-less result before it, and is absent whenever `find` returns nothing |
| Search.Searched | app/api/evaluate/route.ts:145-147 | the increasing positions of exactly the searches that returned `web` results |
| Search.Described | app/api/evaluate/route.ts:145-167 | the increasing positions of exactly the searches with `web` results that `find` reads through without throwing |
| Search.DescribedCount | app/api/evaluate/route.ts:145-170 | no more searches produce an insight than are counted, and as many when every result carries a URL |
| Search.TallyBounds | app/api/evaluate/route.ts:139-171 | top-10 appearances ≤ results found ≤ searches ≤ keywords; the position sum is at least the found count, and 0 when nothing was found |
| Search.TallyInsights | app/api/evaluate/route.ts:139-171 | the search count is the number of searches with `web` results; there is one insight per such search whose `find` did not throw, the `j`-th describing the `j`-th of them in keyword order |
| Search.StepInsight | app/api/evaluate/route.ts:145-170 | one iteration counts a search exactly when the search returned `web` results, and adds an insight exactly when, in addition, `find` did not throw |
| Search.NoSearchesNoTally | app/api/evaluate/route.ts:168-170 | failed or empty searches leave every counter at zero |
| Search.AggregateSearches | app/api/evaluate/route.ts:133-171 | the loop's counters and insights are the tally of the keywords' outcomes |
| Scoring.SearchScore | app/api/evaluate/route.ts:173-198 | always one of 3/5/6/7/9; 5 without searches; 3 when fewer than a fifth of the searches find the site |
| Scoring.SearchScoreMatchesRates | app/api/evaluate/route.ts:177-197 | the integer table equals the source's rate table on exact ratios, with average position 20 when nothing was found |
| Scoring.AlwaysFirstIsBest | app/api/evaluate/route.ts:183-185 | always found at rank 1 gives the best score, 9 |
| Scoring.ExceedsBands | app/api/evaluate/route.ts:263-271 | a ratio exceeds 0.8, 0.6 or 0.4 exactly when five times the count exceeds 4, 3 or 2 times the total |
| Scoring.RatioAtLeast | app/api/evaluate/route.ts:183-191 | a comparison of two ratios is the comparison of the cross products |
| Scoring.AverageAtMostExact | app/api/evaluate/route.ts:180 | the integer average-position test agrees with the real average, 20 standing in when nothing was found |
| Scoring.ContentScore | app/api/evaluate/route.ts:235-275 | always one of 4/5/6/7/9; 5 for a missing or empty site map; 7 when no link is an HTML page |
| Scoring.ContentScoreMatchesRatios | app/api/evaluate/route.ts:240-275 | the integer table equals the source's strict `>` thresholds on the title and description ratios |
| Scoring.ContentCountsMatchSummary | app/api/evaluate/route.ts:240-261 | the counts the content score uses are those the map route stores |
| Scoring.FullMetadataScoresNine | app/api/evaluate/route.ts:263-265 | HTML pages that all have both a title and a description score 9 |
| Scoring.TechnicalScore | app/api/evaluate/route.ts:278-293 | 8 exactly for more than 10 links with some description over 50 characters; at least 6 exactly for more than 10 links; never the initial 5 |
| Scoring.AiScore | app/api/evaluate/route.ts:296-311 | 3 exactly without file checks; 4 exactly when none exists; never 9 with fewer than three checks |
| Scoring.OverallScore | app/api/evaluate/route.ts:314-316 | the rounded weighted sum (4s + 3c + 2t + a) / 10, halves up, staying within 0..10 when the sub-scores do |
| Scoring.OverallMatchesWeightedRound | app/api/evaluate/route.ts:314-316 | the integer formula is `Math.round` of the weighted sum with weights 0.4/0.3/0.2/0.1 on exact reals |
| Scoring.OverallMonotone | app/api/evaluate/route.ts:314-316 | raising any sub-score never lowers the overall score |
| Scoring.OverallExample | app/api/evaluate/route.ts:314-316 | sub-scores 9, 7, 8, 4 weigh 7.7, which rounds to 8 |
| Scoring.AdviceListMembers | app/api/evaluate/route.ts:319-330 | each improvement line is present exactly when its sub-score is below 7 |
| Scoring.AdviceListCongratulates | app/api/evaluate/route.ts:332-334 | the congratulation appears exactly when every sub-score is at least 7, and then alone |
| Scoring.AdviceListOrdered | app/api/evaluate/route.ts:319-330 | the lines come in the order search, content, technical, AI, each at most once, one to four of them |
| Scoring.Recommendations | app/api/evaluate/route.ts:319-336 | the pushes build exactly the advice list |
| EvaluateRoute.WebsiteContent | app/api/evaluate/route.ts:82-95 | the first 3000 characters of the markdown, empty exactly when there is no markdown or it is empty |
| EvaluateRoute.Performance | app/api/evaluate/route.ts:360-372 | keywords and their count, the keyword source, the counters and insights of the tally; appearance rate × searches = found, average position × found = position sum, each 0 when its divisor is |
| EvaluateRoute.PerformanceRanges | app/api/evaluate/route.ts:360-372 | with counters within their bounds, top-10 appearances ≤ searches ≤ keywords analysed, the appearance rate lies in [0, 1] and, when the site was found, the average position is at least 1 |
| EvaluateRoute.PerformanceBounds | app/api/evaluate/route.ts:127-372 | for any reply and any search outcomes: top-10 appearances ≤ searches ≤ keywords analysed ≤ 10, at most one insight per search and exactly one when every result carries a URL, the appearance rate in [0, 1] and an average position of at least 1 when the site was found |
| EvaluateRoute.Evaluate | app/api/evaluate/route.ts:39-396 | 401, 500 for a body that is not readable JSON, 400 "URL is required", 400 "Invalid URL format", 500 when the completion throws, in that order, none of them saving; on success every sub-score, the overall score, the advice and the search record come from the model's functions, and the save carries the same values |
| Urls.WithScheme | app/page.tsx:69-71 | the result always starts with `http://` or `https://`; a string that does is unchanged; any other gets `https://` in front |
| Urls.WithSchemeIdempotent | app/page.tsx:69-71 | prepending the scheme a second time changes nothing |
| Urls.StripScheme | app/api/evaluate/route.ts:151 | one leading `https://` or `http://` is removed, and nothing else |
| Urls.StripWithScheme | app/api/evaluate/route.ts:151 | stripping undoes prepending `https://` |
| Tables.EffectiveLimit | convex/evaluations.ts:71 | `limit || 50`: positive, the limit when non-zero, 50 otherwise |
| Tables.NewestFirst | convex/evaluations.ts:68-78 | `order("desc").take(limit)`: exactly `limit` matching rows when more match, otherwise all of them; newest inserted first |
| Tables.FindKey | convex/evaluations.ts:33-36 | `first()` on the key index: the position of the oldest row with the key, absent exactly when no row has it |
| Tables.Lookup | convex/evaluations.ts:57-65 | the row found for a key, present exactly when one has it |
| Tables.UpsertSemantics | convex/evaluations.ts:33-52 | after an upsert exactly one row has the key, keys stay unique and ids fresh, the found row is patched or a new row appended, and no other key's row changes |
| Tables.UpsertKeepsPositions | convex/evaluations.ts:38-44 | a patch keeps every row in place and an insert appends one row |
| Evaluations.SaveSemantics | convex/evaluations.ts:33-52 | after `saveEvaluation` exactly one row has (user, url); it carries the new arguments and `updated_at = now`; an existing row keeps its id and `created_at`, a new one gets the next id and `created_at = now`; no other key's row changes |
| Evaluations.SaveTwice | convex/evaluations.ts:33-52 | saving the same arguments twice leaves a single row, created by the first save |
| Evaluations.EvaluationStore.constructor | convex/evaluations.ts:5-54 | the table starts empty with unique keys and fresh ids |
| Evaluations.EvaluationStore.Save | convex/evaluations.ts:5-54 | the rows become the upserted rows, the id counter advances only on insert, and the returned id is the id of the row holding the key |
| Evaluations.EvaluationStore.Get | convex/evaluations.ts:57-65 | the (user, url) row, present exactly when one exists |
| Evaluations.EvaluationStore.ByUser | convex/evaluations.ts:68-78 | exactly `limit` (50 by default) of the user's rows when there are more, otherwise all of them; newest first |
| Evaluations.EvaluationStore.ByDomain | convex/evaluations.ts:81-89 | exactly the rows with that domain, in table order (oldest first) |
| Evaluations.MaxScore | convex/evaluations.ts:113 | `maxScore || 10`: a missing or zero maximum is 10 |
| Evaluations.EvaluationStore.ByScore | convex/evaluations.ts:105-127 | the rows with `minScore || 0` ≤ score ≤ `maxScore || 10`, newest first: exactly `limit` of them when there are more, otherwise all of them |
| Evaluations.EvaluationStore.Recent | convex/evaluations.ts:92-102 | `limit || 10` rows, or all when fewer; rows of the table, none more often than it holds them; sorted by `created_at` newest first; every row left out is no newer than any returned |
| Evaluations.RecentRows | convex/evaluations.ts:96-101 | sorting the newest-first table and taking a prefix gives sorted rows of the table, a sub-multiset of it, that are at least as new as every omitted row |
| Evaluations.EvaluationStore.UserRowsNewestFirst | convex/evaluations.ts:133-137 | exactly the user's rows |
| Evaluations.DomainsFacts | convex/evaluations.ts:142-147 | the domain keys are distinct and are exactly the domains of the evaluations |
| Evaluations.Grouping | convex/evaluations.ts:130-156 | one group per distinct domain |
| Evaluations.Flatten | app/dashboard/page.tsx:61 | an evaluation is in the flattened groups exactly when it is in one of them |
| Evaluations.GroupAt | convex/evaluations.ts:142-155 | each group is non-empty, sorted by `created_at` newest first, and holds exactly its domain's evaluations |
| Evaluations.GroupsByDomain | convex/evaluations.ts:130-156 | the groups are keyed by distinct domains, each non-empty, sorted and holding exactly its domain's evaluations |
| Evaluations.GroupsCoverAll | convex/evaluations.ts:142-147 | every evaluation is in the group of its own domain |
| Evaluations.GroupsPreserveCount | convex/evaluations.ts:130-156 | the groups together hold every evaluation exactly once, so the total count is kept |
| Evaluations.CollectByDomain | convex/evaluations.ts:142-147 | the first loop yields the domains in first-appearance order with, for each, exactly its evaluations in order |
| Evaluations.SortGroups | convex/evaluations.ts:150-152 | the second loop sorts every domain's list newest first, in key order |
| Evaluations.CollectedIsGrouping | convex/evaluations.ts:130-156 | the two loops together compute the grouping |
| Evaluations.EvaluationStore.GroupedByDomain | convex/evaluations.ts:130-156 | the query returns the grouping of the user's newest-first rows |
| Evaluations.SumScoresBounds | convex/evaluations.ts:180 | scores between `lo` and `hi` sum to between `lo·n` and `hi·n` |
| Evaluations.SumPermutation | app/dashboard/page.tsx:73 | reordering evaluations does not change their score sum |
| Evaluations.AverageTenths | convex/evaluations.ts:180-187 | `Math.round(avg * 10) / 10` kept in tenths: the nearest whole number of tenths of sum / n, halves up |
| Evaluations.AverageTenthsWithin | convex/evaluations.ts:180-187 | the rounded average lies between the lowest and the highest score |
| Evaluations.StatsOfOldestFirst | convex/evaluations.ts:175-192 | the statistics of an oldest-first list, read off that list: the latest score and date come from its last entry, the first date from its first, and the kept entries are its last five, newest first |
| Evaluations.StatsOf | convex/evaluations.ts:175-192 | for a newest-first list: the count, latest score and date from the first entry, first date from the last, improvement latest − oldest for more than one entry and 0 otherwise, the rounded average, and the five newest entries |
| Evaluations.StatsAverageWithin | convex/evaluations.ts:180-187 | the reported average lies between the domain's lowest and highest score |
| Evaluations.SteadyScores | convex/evaluations.ts:180-188 | a domain whose scores are all equal shows no improvement and that score as its average |
| Evaluations.EvaluationStore.DomainStatsFor | convex/evaluations.ts:159-193 | null exactly when the user has no row for the domain; otherwise the statistics `StatsOf` gives for those rows newest first: the count, the latest score and date from the newest row, the first date from the oldest, the improvement between them, the rounded average and the user's five newest rows of the domain, newest first |
| ScanTables.SaveScanSemantics | convex/websiteMaps.ts:26-44 | after a save exactly one row has the key; it holds the new arguments and `created_at = now` whether updated or inserted; an updated row keeps its id, a new one takes the next; no other key's row changes and no row moves |
| ScanTables.SaveScanTwice | convex/websiteMaps.ts:33-37 | saving a key twice keeps the first save's id but the second's `created_at`: a re-scan forgets when it was first made |
| ScanTables.ScanStore.constructor | convex/websiteMaps.ts:5-46 | the table starts empty with the given key and domain readers |
| ScanTables.ScanStore.Save | convex/websiteMaps.ts:5-46 | the rows become the upserted rows, the id counter advances only on insert, and the returned id's row holds the arguments stamped `now` |
| ScanTables.ScanStore.Get | convex/websiteMaps.ts:49-57 | the (user, url) row, present exactly when one exists |
| ScanTables.ScanStore.ByUser | convex/websiteMaps.ts:60-70 | exactly `limit` (50 by default) of the user's rows when there are more, otherwise all of them; newest first |
| ScanTables.ScanStore.ByDomain | convex/websiteMaps.ts:73-80 | exactly the rows with that domain, in table order (oldest first) |
| WebsiteMaps.NewWebsiteMaps | convex/websiteMaps.ts:5-46 | a new empty `website_maps` table keyed by (user, url), with the domain index |
| WebsiteMaps.MapArgs | app/api/map/route.ts:75-84 | the saved arguments: `total_links` is the number of links, the missing counts are within the HTML pages, the key is (user, url) |
| WebsiteMaps.SavedMapIsConsistent | convex/websiteMaps.ts:26-44 | after saving a map, the key's row holds those links with consistent counts |
| AiFiles.NewAiFiles | convex/aiFiles.ts:5-40 | a new empty `ai_files` table keyed by (user, url), with the domain index |
| AiFiles.Stored | convex/schema.ts:93-100 | an entry keeps every field of the check: path, existence, content, error, status code and content type |
| AiFiles.StoredAll | convex/aiFiles.ts:10-15 | one entry per check, in order |
| AiFiles.SavedProbeIsKept | convex/aiFiles.ts:21-38 | after saving a probe, the key's row holds exactly the probed paths and existence flags |
| Dashboard.TopScore | app/dashboard/page.tsx:74 | no evaluation scores above the top score |
| Dashboard.TopScoreAttained | app/dashboard/page.tsx:74 | some evaluation has the top score |
| Dashboard.Summary | app/dashboard/page.tsx:57-87 | all zeros without evaluations; otherwise the number of groups and evaluations, a score no evaluation exceeds, and the evaluations created in the last seven days, never more than all |
| Dashboard.FlattenMembers | app/dashboard/page.tsx:61 | the flattened groups hold exactly the user's evaluations |
| Dashboard.SummaryOfGrouping | app/dashboard/page.tsx:57-87 | on the query's grouping the figures are the evaluations' own: their count, the number of distinct domains, the rounded mean, the maximum score and the seven-day count |
| Dashboard.SummaryAverageWithin | app/dashboard/page.tsx:73 | the dashboard average lies between the lowest and the highest score |
| Dashboard.CardIsStatsOf | app/dashboard/page.tsx:90-110 | a domain card is the statistics of its group sorted newest first |
| Dashboard.CardDates | app/dashboard/page.tsx:94-108 | a card's first and last dates bound the creation time of every evaluation of the domain |
| Dashboard.QueryCardsNeedNoSort | app/dashboard/page.tsx:94-96 | the query's groups are already sorted, so the page's card equals `getDomainStats` over them |
| Dashboard.Cards | app/dashboard/page.tsx:101-110 | one card per group, in order |
| Dashboard.DomainCards | app/dashboard/page.tsx:90-112 | the cards, a permutation of one per group, ordered by last evaluation, most recent first |
| Dashboard.GroupsAreNonEmpty | app/dashboard/page.tsx:90-112 | every group of the query yields a card |
| Dashboard.EveryDomainHasACard | app/dashboard/page.tsx:90-112 | the card of each of the user's domains is shown |
| Home.NormalizeUrl | app/page.tsx:68-71 | the trimmed input, with `https://` in front unless it starts with `http://` or `https://`; the result always has a scheme |
| Home.NormalizeUrlIdempotent | app/page.tsx:68-71 | a normalised URL is trimmed, and normalising it again changes nothing |
| Home.NormalizeUrlSkipsLeadingBlanks | app/page.tsx:68 | leading white space in the field does not change the URL sent |
| Home.SiteMap | app/page.tsx:96-100 | links are taken only from a fulfilled `ok` map call with a readable body |
| Home.AiFiles | app/page.tsx:108-112 | file checks are taken only from a fulfilled `ok` files call with a readable body |
| Home.MapMessage | app/page.tsx:101-106 | a map message is set exactly when the call was rejected or answered not `ok` with a readable body |
| Home.ScanPage.constructor | app/page.tsx:52-57 | an empty form with nothing shown and not loading |
| Home.ScanPage.Submit | app/page.tsx:59-143 | the evaluation is requested exactly when both the links and the file checks arrived, with the normalised URL and both results; the page shows the map's links, the file checks unless the map body was unreadable, the delivered evaluation, and the caught error before the map message; loading ends |
| Home.EvaluationShownWithoutError | app/page.tsx:121-139 | an evaluation on screen means no error banner |
| Home.FailedMapIsReported | app/page.tsx:96-106 | a rejected map call shows an error and no links |
| Home.ScoreLabelBands | app/page.tsx:216-218 | Excellent ⇔ ≥ 8, Good ⇔ 6..7, Needs Work ⇔ 4..5, Poor ⇔ < 4, and a higher score never gets a worse label |
| Home.ToneMatchesLabel | app/page.tsx:209-211 | green exactly for Excellent, yellow exactly for Good, red below |
| Home.SeoSummary | app/page.tsx:358-401 | the no-HTML note exactly when no link is an HTML page; all optimised exactly when every HTML page has a title and a description; otherwise the missing counts, each shown only when positive |
| Home.ViewLinkCases | app/page.tsx:404-470 | a link is highlighted exactly when it needs optimisation; the badges show the missing title or description of an HTML page; the asset badge exactly for a non-HTML link |
| Home.SummaryMatchesHighlights | app/page.tsx:358-470 | the summary lists opportunities exactly when some link's entry is highlighted |

## Left out

- External services are inputs, not calls:
  - the Firecrawl crawl, scrape and search;
  - the OpenAI completion;
  - the HTTP probes of the AI files;
  - the Convex client.

  Their failures are modelled as values (a thrown call, a missing field).
- Authentication (lib/auth-utils.ts) is an optional user id. Decoding the session token is not part of this model.
- Concurrency:
  - `Promise.all` and `Promise.allSettled` are modelled as already-settled results;
  - interleaved requests against the ledger are not modelled;
  - every Convex mutation is one atomic step.
- Floating point: ratios, weights and `Math.round(x * 10) / 10` are exact rationals or integers of tenths. IEEE rounding is not modelled, and it can differ only at exact halves.
- Text: string lengths count Dafny characters, not UTF-16 code units, and `toLowerCase` is ASCII only.
- Convex document ids are a natural-number counter. `_creationTime` order is insertion order.
- Log and text output is left out:
  - console logging;
  - the prompt templates;
  - the score reasoning strings;
  - the `toFixed` and percentage text;
  - the "enhanced analysis" completion.

  The recommendations are an enumeration with their wording in `Scoring.AdviceText`.
- The validator rejections of the three save mutations are shown in `SaveValidation`. The table models describe what each mutation does once its validator admits the arguments. The routes swallow the rejection, so their responses are the same either way.
- Stored documents are not checked against convex/schema.ts. The one exception is the shape of an `ai_files` document in `SaveValidation`. That check alone rejects every `saveAIFiles` insert as written, because the mutation writes no `credits_consumed` and no `scan_type`. The `ai_files` table model stores the documents all the same. The `v.id("users")` type of `userId` in the `website_maps` schema is not modelled either.
- A request body is an input flag, `bodyRead`, to each of the four POST handlers: `MapRoute.HandleMap`, `CheckFiles.CheckFilesRoute`, `CreditsRoute.Purchase` and `EvaluateRoute.Evaluate`. When `request.json()` throws or its result cannot be destructured, each answers 500 "Internal server error" and saves nothing. The body's other shapes, for example a `url` that is not a string, are not modelled.
- app/api/credits/transactions/route.ts only parses a limit and forwards it to `getTransactionHistory`. It is not part of this model.
- The page's rendering code is not part of this model:
  - the description cut to 100 characters;
  - the loading placeholder of the dashboard;
  - the colour classes other than the score tone;
  - the components under components/.
- Evaluations.EvaluationStore.GroupedByDomain: returns the object's entries as a sequence in key insertion order. JavaScript orders integer-like keys first, which the model does not reproduce. Domains are host names, which are never integer-like. The model also does not reproduce the `TypeError` the query throws for a host name that is an `Object.prototype` member, such as `constructor` or `__proto__`: `grouped[domain]` is then already truthy, no array is created and `.push` is not a function. The model returns a group for such a host.
- Dashboard.DomainCards: `Array.prototype.sort` is modelled as a stable sort on values. The in-place mutation of the copied array is not modelled.
- Home.ScanPage.Submit: the fallback "An error occurred" for a thrown non-`Error` is not modelled. Every value a `fetch` or `json()` throws is an `Error`.
- Credits.Ledger.Stats: computes the corrected statistics of the finding on convex/credits.ts:278-279, so `last_purchase` and `last_scan` are the newest entries, not the oldest that `getCreditStats` returns. Its contract states in which fields the two agree. The 30-day count is stated on `Credits.CreditStatsAsWritten` and `Credits.CreditStatsOf`.
- CreditsRoute.ReadOverview: returns the statistics of `Credits.Ledger.Stats`, so its `last_purchase` and `last_scan` are the corrected ones, not those of the GET route as written.
- CreditsRoute.Purchase: validates with the corrected `CreditsRoute.Validate`, so a package type that is an `Object.prototype` member answers 400 "Invalid package type". The route as written answers 500, or 402 without the demo token. That behaviour is stated on `CreditsRoute.ValidateAsWritten` and `CreditsRoute.PrototypeKeyIsNotRejectedAsInvalid`.
- Credits.Ledger.AddCredits, Credits.Ledger.ConsumeCredits and Credits.Ledger.TransactionHistory: the `v.number()` arguments are JavaScript doubles. The model takes integer credit amounts and prices and a natural-number `limit`, so fractional amounts and fractional or negative limits are not modelled.
- A search result is represented by its `url` alone, absent when the result has none. No other field of a result is read.

## Findings

| source | as written | input that shows it | evidently intended | confidence | as-written member | corrected member |
|---|---|---|---|---|---|---|
| convex/credits.ts:278-279 | `last_purchase` and `last_scan` read element 0 of the user's transactions, which `collect()` returns oldest first | two purchases at times 1 and 2: `last_purchase` is 1 | the newest purchase and scan, 2 here | high, not executed | Credits.LastPurchaseIsOldest | Credits.CreditStatsOf |
| app/api/credits/route.ts:106-112 | `packages[packageType]` also finds inherited `Object.prototype` members | package type `constructor` with token `demo_success`: 500, not 400 | 400 "Invalid package type" for every key other than starter, growth and pro | high, not executed | CreditsRoute.PrototypeKeyIsNotRejectedAsInvalid | CreditsRoute.Validate |
| app/api/evaluate/route.ts:376-387 | the save omits `credits_consumed` and `scan_type`, which convex/evaluations.ts:26-27 requires | any successful evaluation: the save is rejected and no evaluation is stored | the save carries the scan cost and is accepted | high, not executed | SaveValidation.EvaluationSaveIsRejected | SaveValidation.EvaluationSaveWithCostIsAccepted |
| app/api/map/route.ts:75-84 | the save omits `credits_consumed` and `scan_type`, which convex/websiteMaps.ts:19-20 requires | any successful map: the save is rejected and no map is stored | the save carries the scan cost and is accepted | high, not executed | SaveValidation.MapSaveIsRejected | SaveValidation.MapSaveWithCostIsAccepted |
| app/api/check-files/route.ts:71-79 | every record carries `statusCode`, which the entry validator of convex/aiFiles.ts:10-15 does not declare | any probe, including a network error (status 0): the save is rejected | the entry validator declares `statusCode` and `contentType`, as the `ai_files` schema (convex/schema.ts:98-99) does, and accepts every record | high, not executed | SaveValidation.ProbedEntryIsRejected | SaveValidation.StoredEntryIsAccepted |
| convex/aiFiles.ts:33-37 | the inserted document holds the arguments and `created_at` but no `credits_consumed` or `scan_type`, which convex/schema.ts:101-102 requires | any first save of a probe: the insert does not match the schema | the mutation takes and writes the scan cost, as the other two save mutations do | high, not executed | SaveValidation.AiFilesDocumentIsRejected | SaveValidation.AiFilesDocumentWithCostIsAccepted |
