/**
 * The `ai_files` table (convex/aiFiles.ts): the latest AI-file probe per
 * (user, url). Its save, lookup and queries are those of the generic scan-result
 * store.
 */
module AiFiles {
  import opened Wrappers
  import opened Tables
  import opened ScanTables
  import opened CheckFiles

  /** One entry of `files` as the table's schema declares it. */
  datatype StoredFile = StoredFile(
    path: string, fileExists: bool, content: Option<string>, error: Option<string>,
    statusCode: Option<int>, contentType: Option<string>)

  /** The arguments of `saveAIFiles`. */
  datatype AiFilesArgs = AiFilesArgs(userId: string, url: string, domain: string, files: seq<StoredFile>)

  function FilesKey(a: AiFilesArgs): RowKey { RowKey(a.userId, a.url) }
  function FilesDomain(a: AiFilesArgs): string { a.domain }

  /** A new, empty `ai_files` table keyed by (user, url) with the `by_domain` index on `domain`. */
  method NewAiFiles() returns (t: ScanStore<AiFilesArgs>)
    ensures fresh(t) && t.Valid() && t.rows == [] && t.keyOf == FilesKey && t.domainOf == FilesDomain
  {
    t := new ScanStore(FilesKey, FilesDomain);
  }

  /** The stored entry of a probe result: every field of the record. */
  function Stored(f: FileCheck): (s: StoredFile)
    ensures s.path == f.path && s.fileExists == f.fileExists && s.content == f.content && s.error == f.error
    ensures s.statusCode == f.statusCode && s.contentType == f.contentType
  {
    StoredFile(f.path, f.fileExists, f.content, f.error, f.statusCode, f.contentType)
  }

  function StoredAll(fs: seq<FileCheck>): (r: seq<StoredFile>)
    ensures |r| == |fs| && forall i :: 0 <= i < |fs| ==> r[i] == Stored(fs[i])
  {
    if |fs| == 0 then [] else [Stored(fs[0])] + StoredAll(fs[1..])
  }

  /** Saving a probe keeps, for the key, exactly the paths and existence flags that were probed. */
  lemma SavedProbeIsKept(rows: seq<Stamped<AiFilesArgs>>, next: nat, userId: string, url: string, domain: string,
                         probe: seq<FileCheck>, now: int)
    requires ScanInvariant(rows, FilesKey, next)
    ensures var r := SavedScans(rows, FilesKey, AiFilesArgs(userId, url, domain, StoredAll(probe)), now, next);
      var s := Existing(r, FilesKey, RowKey(userId, url));
      && s.Some? && s.value.createdAt == now && |s.value.args.files| == |probe|
      && forall i :: 0 <= i < |probe| ==>
           s.value.args.files[i].path == probe[i].path && s.value.args.files[i].fileExists == probe[i].fileExists
  {
    SaveScanSemantics(rows, FilesKey, AiFilesArgs(userId, url, domain, StoredAll(probe)), now, next);
  }
}
