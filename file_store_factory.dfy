/**
 * The file-store factory: from a backend name, an optional root path, an
 * optional webhook URL and optional webhook headers it builds one storage
 * backend and, when the webhook URL is truthy (present and non-empty), wraps
 * it in exactly one webhook-mirroring layer.
 *
 * The backends themselves (their read/write/list/delete behaviour) are not
 * part of this model: a store is described only by what it is built from.
 * Two facts the factory takes from its process are parameters here: which
 * optional backends loaded when the module was imported, and the value of
 * the SESSION_API_KEY environment variable.
 */
module FileStoreFactory {
  import opened Wrappers

  /** The store the factory hands back, described by its constructor arguments. */
  datatype FileStore =
    | LocalFileStore(root: string)
    | S3FileStore(bucket: Option<string>)
    | GoogleCloudFileStore(bucket: Option<string>)
    | InMemoryFileStore
    | WebHookFileStore(inner: FileStore, url: string, headers: map<string, string>)
  {
    /** A store that is not the webhook wrapper. */
    predicate IsBackend() {
      !WebHookFileStore?
    }
  }

  /** The two exceptions the factory raises. */
  datatype StoreError = ValueError(message: string) | ImportError(message: string)

  /**
   * Which optional backend classes could be imported. A missing one is a
   * class the module left as `None` after its import failed.
   */
  datatype OptionalBackends = OptionalBackends(s3Loaded: bool, googleCloudLoaded: bool)

  const LocalPathRequired := "file_store_path is required for local file store"
  const S3Unavailable :=
    "S3FileStore is not available. Install with 'pip install \"openhands-ai[all]\"' to use this feature."
  const GoogleCloudUnavailable :=
    "GoogleCloudFileStore is not available. Install with 'pip install \"openhands-ai[all]\"' to use this feature."
  const SessionKeyHeader := "X-Session-API-Key"

  /** Python truthiness of an optional string: neither `None` nor empty. */
  predicate Truthy(s: Option<string>) {
    s.Some? && s.value != ""
  }

  /** How many webhook layers wrap the innermost backend. */
  function WebHookLayers(s: FileStore): nat {
    if s.WebHookFileStore? then 1 + WebHookLayers(s.inner) else 0
  }

  /**
   * The if/elif chain that picks the backend. Only the three exact names
   * select a backend; every other string, a different spelling or case
   * included, selects the in-memory store and never fails. A local store
   * fails only on a missing path: an empty path is accepted.
   */
  function SelectBackend(kind: string, path: Option<string>, loaded: OptionalBackends)
    : (r: Result<FileStore, StoreError>)
    ensures r.Failure? <==>
      (kind == "local" && path.None?) ||
      (kind == "s3" && !loaded.s3Loaded) ||
      (kind == "google_cloud" && !loaded.googleCloudLoaded)
    ensures r.Failure? && kind == "local" ==> r.error == ValueError(LocalPathRequired)
    ensures r.Failure? && kind == "s3" ==> r.error == ImportError(S3Unavailable)
    ensures r.Failure? && kind == "google_cloud" ==> r.error == ImportError(GoogleCloudUnavailable)
    ensures r.Success? ==> r.value.IsBackend()
    ensures kind == "local" && path.Some? ==> r == Success(LocalFileStore(path.value))
    ensures kind == "s3" && loaded.s3Loaded ==> r == Success(S3FileStore(path))
    ensures kind == "google_cloud" && loaded.googleCloudLoaded ==> r == Success(GoogleCloudFileStore(path))
    ensures (r == Success(InMemoryFileStore)) <==> kind !in {"local", "s3", "google_cloud"}
  {
    if kind == "local" then
      match path
      case None => Failure(ValueError(LocalPathRequired))
      case Some(root) => Success(LocalFileStore(root))
    else if kind == "s3" then
      if !loaded.s3Loaded then Failure(ImportError(S3Unavailable)) else Success(S3FileStore(path))
    else if kind == "google_cloud" then
      if !loaded.googleCloudLoaded then Failure(ImportError(GoogleCloudUnavailable))
      else Success(GoogleCloudFileStore(path))
    else
      Success(InMemoryFileStore)
  }

  /**
   * The headers used when the caller gave none: the session-key header when
   * SESSION_API_KEY is set to a non-empty value, and no header otherwise.
   */
  function DefaultHeaders(sessionApiKey: Option<string>): (h: map<string, string>)
    ensures h.Keys <= {SessionKeyHeader}
    ensures SessionKeyHeader in h <==> Truthy(sessionApiKey)
    ensures SessionKeyHeader in h ==> h[SessionKeyHeader] == sessionApiKey.value
  {
    var empty: map<string, string> := map[];
    if Truthy(sessionApiKey) then empty[SessionKeyHeader := sessionApiKey.value] else empty
  }

  /**
   * `get_file_store`: select the backend (raising before anything is
   * wrapped), then wrap it once in a webhook store when the URL is truthy,
   * with the caller's headers or, when there are none, the default headers.
   */
  function GetFileStore(
    kind: string,
    path: Option<string>,
    webHookUrl: Option<string>,
    webHookHeaders: Option<map<string, string>>,
    loaded: OptionalBackends,
    sessionApiKey: Option<string>)
    : (r: Result<FileStore, StoreError>)
    ensures r.Failure? <==> SelectBackend(kind, path, loaded).Failure?
    ensures r.Failure? ==> r == SelectBackend(kind, path, loaded)
    ensures r.Success? ==> WebHookLayers(r.value) == if Truthy(webHookUrl) then 1 else 0
    ensures r.Success? && !Truthy(webHookUrl) ==> r == SelectBackend(kind, path, loaded)
    ensures r.Success? && Truthy(webHookUrl) ==>
      r.value.inner == SelectBackend(kind, path, loaded).value && r.value.url == webHookUrl.value
    ensures r.Success? && Truthy(webHookUrl) && webHookHeaders.Some? ==>
      r.value.headers == webHookHeaders.value
    ensures r.Success? && Truthy(webHookUrl) && webHookHeaders.None? ==>
      r.value.headers == DefaultHeaders(sessionApiKey)
  {
    match SelectBackend(kind, path, loaded)
    case Failure(e) => Failure(e)
    case Success(store) =>
      if Truthy(webHookUrl) then
        var headers := match webHookHeaders
          case Some(h) => h
          case None => DefaultHeaders(sessionApiKey);
        Success(WebHookFileStore(store, webHookUrl.value, headers))
      else
        Success(store)
  }

  /** A local store without a path raises ValueError, whatever the webhook settings are. */
  lemma LocalWithoutPathFails(
    url: Option<string>, headers: Option<map<string, string>>,
    loaded: OptionalBackends, sessionApiKey: Option<string>)
    ensures GetFileStore("local", None, url, headers, loaded, sessionApiKey)
         == Failure(ValueError(LocalPathRequired))
  {
  }

  /** The path check is `is None` only: an empty path builds a local store rooted at "". */
  lemma LocalEmptyPathAccepted(loaded: OptionalBackends, sessionApiKey: Option<string>)
    ensures GetFileStore("local", Some(""), None, None, loaded, sessionApiKey)
         == Success(LocalFileStore(""))
  {
  }

  /** Unknown names and case variants fall back to the in-memory store and never fail. */
  lemma UnknownKindIsInMemory(
    kind: string, path: Option<string>, url: Option<string>,
    headers: Option<map<string, string>>, loaded: OptionalBackends, sessionApiKey: Option<string>)
    requires kind !in {"local", "s3", "google_cloud"}
    ensures var r := GetFileStore(kind, path, url, headers, loaded, sessionApiKey);
      r.Success? &&
      (if Truthy(url) then r.value.inner == InMemoryFileStore else r.value == InMemoryFileStore)
  {
  }

  /** `"Local"` is not `"local"`: even without a path it yields the in-memory store. */
  lemma CaseVariantFallsBack(loaded: OptionalBackends)
    ensures GetFileStore("Local", None, None, None, loaded, None) == Success(InMemoryFileStore)
  {
  }

  /**
   * Backend errors are raised before any wrapping: whether a call fails, and
   * with which error, does not depend on the webhook URL, the headers or the
   * environment.
   */
  lemma ErrorsPrecedeWrapping(
    kind: string, path: Option<string>, loaded: OptionalBackends,
    url1: Option<string>, headers1: Option<map<string, string>>, key1: Option<string>,
    url2: Option<string>, headers2: Option<map<string, string>>, key2: Option<string>)
    ensures var r1 := GetFileStore(kind, path, url1, headers1, loaded, key1);
            var r2 := GetFileStore(kind, path, url2, headers2, loaded, key2);
      (r1.Failure? <==> r2.Failure?) && (r1.Failure? ==> r1 == r2)
  {
  }

  /**
   * Caller-supplied headers, an empty map included, reach the webhook store
   * unchanged; in particular no session-key header is added to them.
   */
  lemma ExplicitHeadersPassThrough(
    kind: string, path: Option<string>, url: Option<string>, headers: map<string, string>,
    loaded: OptionalBackends, sessionApiKey: Option<string>)
    requires Truthy(url)
    ensures var r := GetFileStore(kind, path, url, Some(headers), loaded, sessionApiKey);
      r.Success? ==> r.value.headers == headers
  {
  }

  /**
   * Without caller headers the webhook store carries exactly the session-key
   * header when SESSION_API_KEY is non-empty, and no header otherwise.
   */
  lemma DefaultHeadersFromEnvironment(
    kind: string, path: Option<string>, url: Option<string>,
    loaded: OptionalBackends, sessionApiKey: Option<string>)
    requires Truthy(url)
    ensures var r := GetFileStore(kind, path, url, None, loaded, sessionApiKey);
      r.Success? ==>
        if Truthy(sessionApiKey) then r.value.headers == map[SessionKeyHeader := sessionApiKey.value]
        else r.value.headers == map[]
  {
  }

  /** A falsy URL (absent or empty) returns the backend itself, unwrapped. */
  lemma FalsyUrlLeavesBackendUnwrapped(
    kind: string, path: Option<string>, url: Option<string>,
    headers: Option<map<string, string>>, loaded: OptionalBackends, sessionApiKey: Option<string>)
    requires url == None || url == Some("")
    ensures GetFileStore(kind, path, url, headers, loaded, sessionApiKey) == SelectBackend(kind, path, loaded)
  {
  }
}
