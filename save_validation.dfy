/**
 * The argument validators of the three save mutations, and the argument objects
 * the routes hand them. A Convex object validator accepts an object exactly
 * when every required field is present and no field outside the declared ones
 * is; a rejected call throws, and the routes swallow the error. The fields are
 * named by a datatype, one constructor per property name.
 */
module SaveValidation {
  import CheckFiles
  import AiFiles

  datatype Field =
    | UserId | Url | Domain
    | OverallScore | SearchVisibilityScore | ContentQualityScore | TechnicalSeoScore | AiOptimizationScore
    | SearchPerformance | Recommendations
    | Links | TotalLinks | HtmlPages | MissingTitles | MissingDescriptions
    | CreditsConsumed | ScanType
    | Files | Path | Exists | Content | Error | StatusCode | ContentType
    | CreatedAt

  /** `v.object({...})`: the required fields and the `v.optional` ones. */
  datatype ObjectShape = ObjectShape(required: set<Field>, optional: set<Field>)

  /** The validator accepts an object carrying exactly the fields `supplied`. */
  predicate Accepts(shape: ObjectShape, supplied: set<Field>) {
    shape.required <= supplied && supplied <= shape.required + shape.optional
  }

  /** A field is missing, or one is supplied that the validator does not declare. */
  lemma RejectionReasons(shape: ObjectShape, supplied: set<Field>)
    ensures !Accepts(shape, supplied) <==>
      (exists f :: f in shape.required && f !in supplied) ||
      (exists f :: f in supplied && f !in shape.required && f !in shape.optional)
  {
  }

  /** The arguments of `saveEvaluation` (convex/evaluations.ts); all required. */
  const EvaluationShape := ObjectShape(
    {UserId, Url, Domain, OverallScore, SearchVisibilityScore, ContentQualityScore, TechnicalSeoScore,
     AiOptimizationScore, SearchPerformance, Recommendations, CreditsConsumed, ScanType}, {})

  /** The arguments of `saveWebsiteMap` (convex/websiteMaps.ts); all required. */
  const WebsiteMapShape := ObjectShape(
    {UserId, Url, Domain, Links, TotalLinks, HtmlPages, MissingTitles, MissingDescriptions, CreditsConsumed, ScanType},
    {})

  /** One entry of the `files` argument of `saveAIFiles` (convex/aiFiles.ts). */
  const FileEntryShape := ObjectShape({Path, Exists}, {Content, Error})

  /** One entry of `files` in the `ai_files` table of convex/schema.ts, which also declares the status code and content type. */
  const SchemaFileEntryShape := ObjectShape({Path, Exists}, {Content, Error, StatusCode, ContentType})

  /** An `ai_files` document in convex/schema.ts; all required. */
  const AiFilesDocumentShape := ObjectShape({UserId, Url, Domain, Files, CreditsConsumed, ScanType, CreatedAt}, {})

  /** What `saveAIFiles` writes: its arguments and `created_at`. */
  const AiFilesSaveWrites: set<Field> := {UserId, Url, Domain, Files, CreatedAt}

  /** What the evaluate route passes to `saveEvaluation`. */
  const EvaluateRouteSends: set<Field> :=
    {UserId, Url, Domain, OverallScore, SearchVisibilityScore, ContentQualityScore, TechnicalSeoScore,
     AiOptimizationScore, SearchPerformance, Recommendations}

  /** What the map route passes to `saveWebsiteMap`. */
  const MapRouteSends: set<Field> :=
    {UserId, Url, Domain, Links, TotalLinks, HtmlPages, MissingTitles, MissingDescriptions}

  /** The cost of the scan, which both validators require. */
  const CostFields: set<Field> := {CreditsConsumed, ScanType}

  /** The fields of one file check as the check-files route builds it; absent options are left out. */
  function CheckFields(c: CheckFiles.FileCheck): (r: set<Field>)
    ensures Path in r && Exists in r
    ensures StatusCode in r <==> c.statusCode.Some?
  {
    {Path, Exists}
      + (if c.content.Some? then {Content} else {})
      + (if c.error.Some? then {Error} else {})
      + (if c.statusCode.Some? then {StatusCode} else {})
      + (if c.contentType.Some? then {ContentType} else {})
  }

  /** The fields of one stored entry. */
  function StoredFields(s: AiFiles.StoredFile): (r: set<Field>)
    ensures Path in r && Exists in r
    ensures r <= {Path, Exists, Content, Error, StatusCode, ContentType}
  {
    {Path, Exists}
      + (if s.content.Some? then {Content} else {})
      + (if s.error.Some? then {Error} else {})
      + (if s.statusCode.Some? then {StatusCode} else {})
      + (if s.contentType.Some? then {ContentType} else {})
  }

  /** As written, the evaluate route leaves out the scan cost, so every evaluation save is rejected. */
  lemma EvaluationSaveIsRejected()
    ensures !Accepts(EvaluationShape, EvaluateRouteSends)
  {
    assert CreditsConsumed in EvaluationShape.required && CreditsConsumed !in EvaluateRouteSends;
  }

  /** With the scan cost added, the evaluate route's arguments are exactly what the validator asks for. */
  lemma EvaluationSaveWithCostIsAccepted()
    ensures Accepts(EvaluationShape, EvaluateRouteSends + CostFields)
    ensures EvaluateRouteSends + CostFields == EvaluationShape.required
  {
  }

  /** As written, the map route leaves out the scan cost, so every site-map save is rejected. */
  lemma MapSaveIsRejected()
    ensures !Accepts(WebsiteMapShape, MapRouteSends)
  {
    assert ScanType in WebsiteMapShape.required && ScanType !in MapRouteSends;
  }

  /** With the scan cost added, the map route's arguments are exactly what the validator asks for. */
  lemma MapSaveWithCostIsAccepted()
    ensures Accepts(WebsiteMapShape, MapRouteSends + CostFields)
    ensures MapRouteSends + CostFields == WebsiteMapShape.required
  {
  }

  /**
   * As written, every file check carries a status code (0 after a network
   * error), a field the entry validator does not declare, so every save of the
   * files check is rejected.
   */
  lemma ProbedEntryIsRejected(path: string, probe: CheckFiles.Probe)
    ensures !Accepts(FileEntryShape, CheckFields(CheckFiles.Classify(path, probe)))
  {
    var fields := CheckFields(CheckFiles.Classify(path, probe));
    assert StatusCode in fields && StatusCode !in FileEntryShape.required + FileEntryShape.optional;
  }

  /**
   * With the entry validator declaring what the table's schema declares, every
   * probed record is accepted, and its stored entry keeps every field it has.
   */
  lemma StoredEntryIsAccepted(path: string, probe: CheckFiles.Probe)
    ensures var c := CheckFiles.Classify(path, probe);
      && Accepts(SchemaFileEntryShape, CheckFields(c))
      && StoredFields(AiFiles.Stored(c)) == CheckFields(c)
  {
  }

  /** As written, `saveAIFiles` writes no scan cost, which every `ai_files` document of the schema requires. */
  lemma AiFilesDocumentIsRejected()
    ensures !Accepts(AiFilesDocumentShape, AiFilesSaveWrites)
  {
    assert CreditsConsumed in AiFilesDocumentShape.required && CreditsConsumed !in AiFilesSaveWrites;
  }

  /** With the scan cost taken and written, the document has exactly the fields the schema asks for. */
  lemma AiFilesDocumentWithCostIsAccepted()
    ensures Accepts(AiFilesDocumentShape, AiFilesSaveWrites + CostFields)
    ensures AiFilesSaveWrites + CostFields == AiFilesDocumentShape.required
  {
  }
}
