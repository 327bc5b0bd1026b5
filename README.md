# File-store factory and runtime setup gate

This project models two decision components of OpenHands in Dafny and proves their properties.

- **The file-store factory** (`get_file_store`). It picks a storage backend from a type string: `local`, `s3` or `google_cloud`, with the in-memory store for any other string. It raises `ValueError` for a local store without a path. It raises `ImportError` when the S3 or Google Cloud backend could not be imported. When the webhook URL is truthy, it wraps the backend in one `WebHookFileStore`. That wrapper gets the caller's headers or, when there are none, a default map built from `SESSION_API_KEY`. The model is the pure function `FileStoreFactory.GetFileStore` in `file_store_factory.dfy`. Its result is a store descriptor (`LocalFileStore(root)`, `S3FileStore(bucket)`, `GoogleCloudFileStore(bucket)`, `InMemoryFileStore`, `WebHookFileStore(inner, url, headers)`) or a `StoreError`.
- **The runtime setup admission gate**, the `run_action` rule in the runtime setup tests. While `_setup_script_running` is true, a `CmdRunAction` that is not static gets an `ErrorObservation` with a fixed message. Every other action runs and yields a `CmdOutputObservation` with exit code 0, or raises AttributeError when the action has no `command` attribute. `runtime_setup.dfy` holds four parts:
  - the pure rule, `Respond`;
  - a `Runtime` class whose `setupScriptRunning` field is set and cleared by methods, with a `RunAction` method proved against `Respond`;
  - the three test scenarios, written as client methods of that class;
  - `Replay`, the outcomes over a sequence of flag assignments and submissions, with inductive lemmas about the flag's life cycle, and `Drive`, which runs a `Runtime` object through such a sequence and is proved to produce `Replay`'s outcomes.

`wrappers.dfy` holds the `Option` and `Result` types.

Inputs that come from outside the code are parameters:
- `OptionalBackends(s3Loaded, googleCloudLoaded)` records which optional backend classes imported successfully. The module leaves an unavailable one as `None`.
- `sessionApiKey: Option<string>` is the value of the `SESSION_API_KEY` environment variable.

Python truthiness of the URL and of the environment value is the predicate `Truthy`: the value is present and not empty.

Two facts about the code shape the model:
- `get_file_store` checks only `file_store_path is None` (openhands/storage/__init__.py:41-43), so an empty path builds a local store.
- The tests assign `_setup_script_running` freely (tests/unit/test_runtime_setup.py:15, 47, 102, 105 and 142), so the flag is a plain field that can be set again at any time.

## Model

| member | source | states |
|---|---|---|
| FileStoreFactory.SelectBackend | openhands/storage/__init__.py:40-57 | fails exactly for `local` without a path, or `s3`/`google_cloud` whose backend did not load, with the source's exception and message; otherwise yields the named backend built from the path (S3/GCS keep a `None` path), never a webhook; in-memory exactly for every other type string |
| FileStoreFactory.DefaultHeaders | openhands/storage/__init__.py:59-65 | the default header map holds at most the `X-Session-API-Key` key, holds it exactly when `SESSION_API_KEY` is set and non-empty, and then maps it to that value |
| FileStoreFactory.GetFileStore | openhands/storage/__init__.py:33-71 | fails exactly when backend selection fails, with the same error; on success exactly one webhook layer when the URL is truthy and none otherwise; the wrapper holds the selected backend, the URL, and the caller's headers unchanged or else the default headers |
| FileStoreFactory.LocalWithoutPathFails | openhands/storage/__init__.py:40-42 | `local` with no path raises the ValueError, for any webhook URL, headers and environment |
| FileStoreFactory.LocalEmptyPathAccepted | openhands/storage/__init__.py:41-43 | an empty path is not rejected: it builds a local store rooted at "" |
| FileStoreFactory.UnknownKindIsInMemory | openhands/storage/__init__.py:56-57 | any other type string never fails and selects the in-memory store, wrapped only when the URL is truthy |
| FileStoreFactory.CaseVariantFallsBack | openhands/storage/__init__.py:40-57 | the comparison is case-sensitive: `Local` without a path yields the in-memory store, not an error |
| FileStoreFactory.ErrorsPrecedeWrapping | openhands/storage/__init__.py:40-58 | whether a call fails, and with which error, is independent of the webhook URL, the headers and the environment value |
| FileStoreFactory.ExplicitHeadersPassThrough | openhands/storage/__init__.py:58-70 | caller-supplied headers, the empty map included, reach the wrapper unchanged and gain no session-key header |
| FileStoreFactory.DefaultHeadersFromEnvironment | openhands/storage/__init__.py:58-65 | without caller headers the wrapper carries exactly `{X-Session-API-Key: key}` when the key is non-empty and the empty map otherwise |
| FileStoreFactory.FalsyUrlLeavesBackendUnwrapped | openhands/storage/__init__.py:58-71 | a `None` or empty URL returns exactly what backend selection returns (the selected backend, unwrapped, or its error) |
| RuntimeSetup.Respond | tests/unit/test_runtime_setup.py:19-33 | rejects exactly a non-static `CmdRunAction` while setup runs (a missing `is_static` counts as false), with the fixed message; otherwise the output names the action's own command, with the fixed content and exit code 0; a command action yields exactly one of the two observations; other actions are never rejected and raise AttributeError only when they have no `command` |
| RuntimeSetup.BlockedMessageHasPhrase | tests/unit/test_runtime_setup.py:26-44 | the rejection message contains the phrase the test looks for |
| RuntimeSetup.Runtime.constructor | tests/unit/test_runtime_setup.py:99-102 | a new runtime starts with the setup flag false |
| RuntimeSetup.Runtime.StartSetupScript | tests/unit/test_runtime_setup.py:104-108 | starting setup sets the flag to true |
| RuntimeSetup.Runtime.FinishSetupScript | tests/unit/test_runtime_setup.py:141-145 | completing setup sets the flag to false |
| RuntimeSetup.Runtime.IsSetupScriptRunning | tests/unit/test_runtime_setup.py:15-16 | reports the current flag |
| RuntimeSetup.Runtime.RunAction | tests/unit/test_runtime_setup.py:19-36 | returns the admission rule's outcome for the current flag and leaves the flag unchanged |
| RuntimeSetup.SetupScriptBlocksCommands | tests/unit/test_runtime_setup.py:9-55 | while setup runs a plain command is rejected with the blocking phrase; after completion the same command runs with exit code 0 |
| RuntimeSetup.SetupScriptAllowsStaticCommands | tests/unit/test_runtime_setup.py:57-92 | a static command runs with exit code 0 while setup is running |
| RuntimeSetup.SetupScriptFlagManagement | tests/unit/test_runtime_setup.py:94-149 | the flag reads false, true, false; the regular command is rejected, the static one runs, and the resubmitted regular command runs |
| RuntimeSetup.Drive | tests/unit/test_runtime_setup.py:94-149 | driving a `Runtime` object through flag assignments and submissions yields exactly the outcomes `Replay` gives from the object's initial flag, so the lifecycle lemmas hold of the object; the flag ends at the last value assigned, or unchanged when none is |
| RuntimeSetup.Replay | tests/unit/test_runtime_setup.py:94-149 | over a sequence of flag assignments and submissions, exactly one outcome per submitted action and none per assignment |
| RuntimeSetup.ClearingReplaysNothing | tests/unit/test_runtime_setup.py:141-149 | clearing the flag produces no outcome and nothing carries over past it: the outcomes are those before the clear followed by those of the later steps from a false flag, so rejected actions are not queued and run when setup completes |
| RuntimeSetup.NoRejectionOnceReleased | tests/unit/test_runtime_setup.py:46-55 | from a false flag, as long as no step sets it true, no submitted action is rejected |
| RuntimeSetup.OutcomesAreWellFormed | tests/unit/test_runtime_setup.py:19-33 | every outcome of any run is the fixed rejection, an output with the fixed content and exit code 0, or the missing-`command` AttributeError |
| RuntimeSetup.ResubmissionAfterSetupIsAdmitted | tests/unit/test_runtime_setup.py:132-149 | with setup running, a regular command is rejected and a static one runs; after the flag is cleared the regular command, submitted again, runs with the same command and exit code 0 |

## Left out

- The backends' read, write, list and delete behaviour, and the webhook store's mirroring of writes and deletes. `openhands/storage/files.py`, `local.py`, `memory.py`, `s3.py`, `google_cloud.py` and `web_hook.py` are not part of this model. A store is described only by its constructor arguments.
- The import-time attempts to load the S3 and Google Cloud backends, and the warnings they print. They are replaced by the `OptionalBackends` parameter.
- The `os.getenv` call. It is replaced by the `sessionApiKey` parameter, and the two reads of the variable are assumed to see the same value.
- The `httpx.Client` construction. Only the header map it receives is modelled. `headers or {}` equals `headers` for any dict, so the map is passed as it is.
- The real `Runtime`, `CmdRunAction` and observation classes. `openhands/runtime/base.py` and `openhands/events` are not part of this model. The `MagicMock` plumbing of the tests is left out too. Only the fields the gate reads are modelled.
- Concurrency around the setup flag. The code is sequential.
- The agent plugin registration in `openhands/agenthub/browsing_agent/__init__.py` and `openhands/agenthub/visualbrowsing_agent/__init__.py`, and the import-time download in `openhands/core/download.py`. They are import side effects with no logic to state.
