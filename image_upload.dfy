/**
 * Copying an external image into the public `news-images` bucket
 * (services/imageUploadService.ts). The fetch, the storage call, the clock
 * and `Math.random` are outside the model: each call receives them as an
 * `UploadEnv`.
 */
module ImageUpload {
  import opened Wrappers
  import opened Strings

  const PUBLIC_STORAGE_PATH: string := ".supabase.co/storage/v1/object/public/"
  const DEFAULT_CONTENT_TYPE: string := "image/jpeg"
  const DEFAULT_EXTENSION: string := "jpg"
  const FETCH_FAILED: string := "이미지 fetch 실패: "

  /** How fetching the external image went: the request was rejected, the
      response was not ok (with its status text), or the image arrived with
      an optional `content-type` header. */
  datatype FetchOutcome =
    | FetchRejected(message: string)
    | NotOk(statusText: string)
    | Fetched(contentType: Option<string>)

  /** How the storage upload went: an error, or the public URL of the stored
      object. */
  datatype StoreOutcome = StoreFailed(message: string) | StoredAt(publicUrl: string)

  datatype UploadEnv = UploadEnv(fetch: FetchOutcome, timestamp: nat, randomStr: string, store: StoreOutcome)

  datatype UploadResponse = UploadResponse(success: bool, url: string, error: Option<string>)

  /** The storage request: object name and content type. */
  datatype StoreRequest = StoreRequest(fileName: string, contentType: string)

  /** The content type, `image/jpeg` when the header is absent or empty. */
  function ContentType(header: Option<string>): (ct: string)
    ensures Truthy(header) ==> ct == header.value
    ensures !Truthy(header) ==> ct == DEFAULT_CONTENT_TYPE
  {
    OptOr(header, DEFAULT_CONTENT_TYPE)
  }

  /** The file extension: what follows the first `/` of the content type up
      to the next one, or `jpg` when there is no `/` or nothing after it. */
  function Extension(contentType: string): (ext: string)
    ensures ext != "" && '/' !in ext
    ensures '/' !in contentType ==> ext == DEFAULT_EXTENSION
    ensures Truthy(SecondPiece(contentType, '/')) ==> ext == SecondPiece(contentType, '/').value
    ensures !Truthy(SecondPiece(contentType, '/')) ==> ext == DEFAULT_EXTENSION
  {
    OptOr(SecondPiece(contentType, '/'), DEFAULT_EXTENSION)
  }

  /** A response without a `content-type` header is stored as `.jpeg`, not
      `.jpg`: the default type already carries its own subtype. */
  lemma MissingHeaderGivesJpeg()
    ensures Extension(ContentType(None)) == "jpeg"
  {
    assert DEFAULT_CONTENT_TYPE[5] == '/';
    assert IndexOf(DEFAULT_CONTENT_TYPE, '/') == Some(5);
    assert DEFAULT_CONTENT_TYPE[6..] == "jpeg";
    assert IndexOf("jpeg", '/') == None;
  }

  /** The object name: `<name>-<timestamp>.<ext>` for a given non-empty
      name, otherwise `news-<timestamp>-<random>.<ext>`. */
  function FinalFileName(fileName: Option<string>, timestamp: nat, randomStr: string, ext: string): (name: string)
    ensures Truthy(fileName) ==> name == fileName.value + "-" + NatToString(timestamp) + "." + ext
    ensures !Truthy(fileName) ==> name == "news-" + NatToString(timestamp) + "-" + randomStr + "." + ext
  {
    if Truthy(fileName) then fileName.value + "-" + NatToString(timestamp) + "." + ext
    else "news-" + NatToString(timestamp) + "-" + randomStr + "." + ext
  }

  /** The storage request the upload makes, if it gets that far: none for a
      URL already in public storage or when the fetch fails. */
  function Request(externalUrl: string, fileName: Option<string>, env: UploadEnv): (req: Option<StoreRequest>)
    ensures req.Some? <==> !Contains(externalUrl, PUBLIC_STORAGE_PATH) && env.fetch.Fetched?
    ensures req.Some? ==>
              var ct := ContentType(env.fetch.contentType);
              req.value == StoreRequest(FinalFileName(fileName, env.timestamp, env.randomStr, Extension(ct)), ct)
  {
    if Contains(externalUrl, PUBLIC_STORAGE_PATH) then None
    else match env.fetch
      case Fetched(header) =>
        var ct := ContentType(header);
        Some(StoreRequest(FinalFileName(fileName, env.timestamp, env.randomStr, Extension(ct)), ct))
      case _ => None
  }

  /** `uploadExternalImageToStorage`. */
  function UploadExternal(externalUrl: string, fileName: Option<string>, env: UploadEnv): (r: UploadResponse)
    ensures Contains(externalUrl, PUBLIC_STORAGE_PATH) ==> r == UploadResponse(true, externalUrl, None)
    ensures r.success <==> Contains(externalUrl, PUBLIC_STORAGE_PATH) || (env.fetch.Fetched? && env.store.StoredAt?)
    ensures !r.success ==> r.url == externalUrl && r.error.Some?
    ensures r.success && Request(externalUrl, fileName, env).Some? ==> r.url == env.store.publicUrl
  {
    if Contains(externalUrl, PUBLIC_STORAGE_PATH) then UploadResponse(true, externalUrl, None)
    else match env.fetch
      case FetchRejected(message) => UploadResponse(false, externalUrl, Some(message))
      case NotOk(statusText) => UploadResponse(false, externalUrl, Some(FETCH_FAILED + statusText))
      case Fetched(_) =>
        match env.store
        case StoreFailed(message) => UploadResponse(false, externalUrl, Some(message))
        case StoredAt(publicUrl) => UploadResponse(true, publicUrl, None)
  }

  /** A failed upload never loses the image: the original URL comes back. */
  lemma UploadNeverLosesImage(externalUrl: string, fileName: Option<string>, env: UploadEnv)
    ensures var r := UploadExternal(externalUrl, fileName, env);
            r.url == externalUrl || (env.store.StoredAt? && r.url == env.store.publicUrl)
  {
  }

  // ---------------------------------------------------------------------------
  // processArticleImages

  /** The object name used for image `key` of article `articleId`. */
  function ImageName(articleId: string, key: string): string
  {
    "article-" + articleId + "-" + key
  }

  predicate DistinctKeys(entries: seq<(string, string)>)
  {
    forall i, j :: 0 <= i < j < |entries| ==> entries[i].0 != entries[j].0
  }

  /** What processing the first entries yields: every entry with a non-empty
      URL maps to the URL its upload returns. */
  function Processed(articleId: string, entries: seq<(string, string)>, env: (string, string) -> UploadEnv): map<string, string>
  {
    if entries == [] then map[]
    else
      var prefix := Processed(articleId, entries[..|entries| - 1], env);
      var (key, url) := entries[|entries| - 1];
      if url != "" then prefix[key := UploadExternal(url, Some(ImageName(articleId, key)), env(url, ImageName(articleId, key))).url]
      else prefix
  }

  /** `processArticleImages`: `env(url, name)` is the environment of the
      upload of `url` under `name`. */
  method ProcessArticleImages(articleId: string, entries: seq<(string, string)>, env: (string, string) -> UploadEnv)
    returns (processed: map<string, string>)
    ensures processed == Processed(articleId, entries, env)
  {
    processed := map[];
    for i := 0 to |entries|
      invariant processed == Processed(articleId, entries[..i], env)
    {
      assert entries[..i + 1][..i] == entries[..i];
      var (key, url) := entries[i];
      if url != "" {
        var name := ImageName(articleId, key);
        var result := UploadExternal(url, Some(name), env(url, name));
        processed := processed[key := result.url];
      }
    }
    assert entries[..|entries|] == entries;
  }

  /** The processed keys are exactly the keys with a non-empty URL, and each
      maps to what uploading that URL under `article-<id>-<key>` returned. */
  lemma {:induction false} ProcessedExactly(articleId: string, entries: seq<(string, string)>,
                                           env: (string, string) -> UploadEnv)
    requires DistinctKeys(entries)
    ensures forall i :: 0 <= i < |entries| ==>
              (entries[i].0 in Processed(articleId, entries, env) <==> entries[i].1 != "")
    ensures forall i :: 0 <= i < |entries| && entries[i].1 != "" ==>
              var name := ImageName(articleId, entries[i].0);
              Processed(articleId, entries, env)[entries[i].0] == UploadExternal(entries[i].1, Some(name), env(entries[i].1, name)).url
    ensures forall k :: k in Processed(articleId, entries, env) ==>
              exists i :: 0 <= i < |entries| && entries[i].0 == k
  {
    if entries != [] {
      var n := |entries| - 1;
      var front := entries[..n];
      assert DistinctKeys(front);
      ProcessedExactly(articleId, front, env);
      forall i | 0 <= i < n
        ensures entries[i] == front[i]
      {
      }
      var p := Processed(articleId, entries, env);
      forall k | k in p
        ensures exists i :: 0 <= i < |entries| && entries[i].0 == k
      {
        if k != entries[n].0 {
          var i :| 0 <= i < |front| && front[i].0 == k;
          assert entries[i].0 == k;
        }
      }
    }
  }
}
