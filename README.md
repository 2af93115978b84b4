# Presenton core, modelled in Dafny

Presenton generates presentations. It runs two servers: a Next.js front
end and a FastAPI back end. A launcher script (`start.js`) starts both
servers and prepares their configuration. This project models the parts of
the system that make decisions:

- **PDF export** (`pdf_export.dfy`, module `PdfExport`). This is the Next.js
  route that exports a presentation as a PDF. It rejects a request without
  an id. It launches a headless browser, opens a page at 1280×720 and
  navigates to the presentation. It then waits twice: for the document to
  be complete, and for readiness, meant as at least 99 % of the elements
  being visible and sized. The readiness wait may fail without stopping
  the route, but then the one-second settle delay is skipped. Both tests
  are handed to the browser as strings that hold an arrow function. Read
  as an expression, such a string yields the function object, which is
  truthy, so as written both waits resolve at the first poll (see
  Findings). The model keeps that behaviour apart from the intended one,
  and the rest of the route uses the intended one. The route captures the
  PDF once and closes the browser. It then checks the storage settings,
  authenticates the user, uploads to `users/<user>/exports/<file>.pdf`,
  signs the upload for an hour and answers `{success: true, path}`. The browser, `auth()` and `fetch` are
  not modelled as code. A `World` value says what each of them does on one
  request. Each operation returns its outcome together with the ordered
  trace of the effects it issued.
- **Object storage** (`storage.dfy`, module `Storage`). This is the Supabase
  adapter of the back end. Its constructor fails unless three settings are
  present. It builds the request headers. Upload, sign and delete each
  accept a fixed set of status codes. When the sign answer spells the
  field both ways, `signedURL` is preferred over `signedUrl`. The user-key
  layout `users/<user>/<kind>/<file>` comes with a parser that inverts it.
- **Authentication** (`auth.dfy`, module `Auth`). The JWKS cache (the JSON
  Web Key Set of the token issuer) is shared by all requests and kept for
  one hour. The module also models the Bearer header, the choice of the
  signing key by `kid`, and the ordered checks of `require_user`. The
  cache and the request are classes whose fields the operations update.
- **Ownership** (`ownership.dfy`, module `Ownership`). This covers the
  guards that answer 404 both for another user's presentation or template
  and for a missing one, and the extraction of the user id from the
  request.
- **Image generation** (`image_generation.dfy`, module `ImageGeneration`).
  The provider is chosen by priority when the service is constructed, and
  the stock test reads the selection again on every call. When the stock
  test read now differs from the one the bound provider was chosen under,
  the provider is called with the wrong number of arguments and the
  placeholder is served. Stock providers return a URL, which is passed
  through. Generated images are uploaded and signed. Any exception inside
  the `try` block falls back to the placeholder. The Gemini part loop uploads
  every inline image, and the last one wins.
- **Start-up** (`startup.dfy`, module `Startup`). This covers the `--dev`
  and `CAN_CHANGE_KEYS` flags and the merge of the environment into the
  user configuration file. It also covers the copy decision for the
  development `node_modules` and the heartbeat's count of running child
  processes.

`wrappers.dfy` holds `Option` and `Result`. `js.dfy` holds the few
JavaScript and Python value rules the code relies on: the truthiness of
strings, `||`/`or`, prefixes, decimal rendering and `indexOf`.

Foreign calls and effects are parameters. This includes Puppeteer,
`fetch`, aiohttp, the Clerk `auth()` call, the jose JWT library, the
image-provider clients, the file system, the clock (`now`) and random
UUIDs. Each is either an oracle function or a recorded answer.

Two behaviours of the code are easy to miss:

- The PDF route has no `try`/`finally`. A failure of the browser launch,
  the page set-up, the navigation, the document-complete wait or the
  capture escapes `POST` without closing the browser. The model
  returns `Threw`, and the trace then holds no `CloseBrowser`.
- The PDF route does not validate the sign answer. An empty list or an
  entry without a URL still gives a 200 whose path ends in `undefined`.
  The Python adapter raises in the same case.

## Model

| member | source | states |
|---|---|---|
| PdfExport.LoadedCount | servers/nextjs/app/api/export-as-pdf/route.ts:35-48 | the number of loaded elements never exceeds the number of elements |
| PdfExport.IsReady | servers/nextjs/app/api/export-as-pdf/route.ts:50 | a ready page has at least one loaded element; a non-empty page whose elements are all loaded is ready |
| PdfExport.AllLoadedIffFullCount | servers/nextjs/app/api/export-as-pdf/route.ts:39-48 | the count reaches the total iff every element is visible (display, visibility, opacity) and has positive width and height |
| PdfExport.ReadyIsRatioAtLeast99Percent | servers/nextjs/app/api/export-as-pdf/route.ts:50 | the integer readiness test is exactly `loaded / total >= 0.99` in rational arithmetic, and it is false on an empty document |
| PdfExport.RatioForm | servers/nextjs/app/api/export-as-pdf/route.ts:50 | for a positive total, `100·loaded >= 99·total` iff `loaded/total >= 0.99` |
| PdfExport.SmallPageNeedsEveryElement | servers/nextjs/app/api/export-as-pdf/route.ts:50 | below 100 elements, the page is ready iff every element is loaded |
| PdfExport.OneMissingElementToleratedFromHundred | servers/nextjs/app/api/export-as-pdf/route.ts:50 | from 100 elements on, a page with one element not loaded is ready |
| PdfExport.CountLoadedElements | servers/nextjs/app/api/export-as-pdf/route.ts:36-48 | the counting loop computes the loaded count |
| PdfExport.ReadinessPredicate | servers/nextjs/app/api/export-as-pdf/route.ts:34-51 | the function injected into the page answers the readiness test |
| PdfExport.WaitForReadiness | servers/nextjs/app/api/export-as-pdf/route.ts:31-54 | the wait resolves iff some snapshot taken within the budget is ready |
| PdfExport.WaitForReadinessAsWritten | servers/nextjs/app/api/export-as-pdf/route.ts:29-54 | as written, the wait resolves at the first poll whatever the page holds, because the string predicate evaluates to a truthy function object |
| PdfExport.AsWrittenWaitIgnoresHiddenContent | servers/nextjs/app/api/export-as-pdf/route.ts:32-54 | a page whose only element is hidden satisfies the as-written wait although no snapshot of it is ready |
| PdfExport.FailedRenderStopsEarly | servers/nextjs/app/api/export-as-pdf/route.ts:15-63 | a run that stops at the launch, the page set-up, the navigation, the document wait or the capture issues no close, no authentication and no storage call |
| PdfExport.RenderCapturesOnceThenCloses | servers/nextjs/app/api/export-as-pdf/route.ts:23-70 | whatever the readiness wait did, the capture is issued once and the close once, the close right after the capture; the settle delay appears iff the wait succeeded; the viewport is set |
| PdfExport.ExportFilename | servers/nextjs/app/api/export-as-pdf/route.ts:72-73 | the file name ends in `.pdf` after the sanitized title; only a missing title falls back to `presentation`, an empty one is kept |
| PdfExport.ExportKey | servers/nextjs/app/api/export-as-pdf/route.ts:87 | the export key is the back end's user key of kind `exports`, and the back end's parser reads the user, kind and file name back when the user id has no '/' |
| PdfExport.ExportKeysArePerUser | servers/nextjs/app/api/export-as-pdf/route.ts:87 | two different users (ids without '/') never share an export key |
| PdfExport.SignedField | servers/nextjs/app/api/export-as-pdf/route.ts:121 | `signedURL` when it is a non-empty string, else `signedUrl` as given, else `undefined`; `undefined` for an empty list |
| PdfExport.UnvalidatedSignAnswer | servers/nextjs/app/api/export-as-pdf/route.ts:120-122 | an empty sign answer yields a path ending in `/undefined` |
| PdfExport.SignedPathAgreesWithAdapter | servers/nextjs/app/api/export-as-pdf/route.ts:121-122 | on a well-formed sign answer, the route's path equals the Python adapter's signed URL |
| PdfExport.Render | servers/nextjs/app/api/export-as-pdf/route.ts:15-70 | the launch, page and viewport steps run in order and the first that rejects ends the trace; the browser stage gets past the capture iff every step, the navigation, the document wait and the capture resolve; the settle delay only after a successful readiness wait |
| PdfExport.Publish | servers/nextjs/app/api/export-as-pdf/route.ts:72-124 | storage settings are checked before authentication; a rejected `auth()` throws; a missing user gives 401 before any fetch; a rejected upload fetch throws, a failed upload gives 500 and no sign request; a rejected sign fetch throws, a failed sign gives 500; a sign body that is not JSON throws; otherwise 200 with the signed path; the exact upload and sign requests |
| PdfExport.Post | servers/nextjs/app/api/export-as-pdf/route.ts:10-125 | a missing id gives 400 with an empty trace; a browser failure escapes without closing, with the set-up prefix or the launch trace; the stage order after capture, each error response and each rejection that escapes; the route answers 200 iff every stage succeeds, `auth()` and both fetches resolve, and the sign body is JSON |
| Js.NatToString | servers/fastapi/services/storage.py:50 | the decimal rendering of a status is a non-empty string of digits with no leading zero except for 0 itself |
| Js.NatToStringRoundTrip | servers/fastapi/services/storage.py:50 | reading the rendered digits back gives the number |
| Storage.NewSupabaseStorage | servers/fastapi/services/storage.py:27-32 | the adapter is built iff the URL, bucket and service key are all truthy; otherwise the "not configured" error |
| Storage.SupabaseStorage.Headers | servers/fastapi/services/storage.py:34-41 | Authorization `Bearer <key>` and `apikey` are always present; Content-Type is present iff a truthy content type is given; no other header |
| Storage.SupabaseStorage.Save | servers/fastapi/services/storage.py:43-52 | PUT to the object URL with the content; success iff the status is 200 or 201, returning the key unchanged; otherwise the upload error carrying the status and text |
| Storage.SupabaseStorage.GetSignedUrl | servers/fastapi/services/storage.py:54-70 | POST `{expiresIn, paths: [key]}` to the sign endpoint; only 200 is accepted; an empty list or a first entry with no truthy URL is an invalid response; `signedURL` is preferred; the URL is the sign endpoint plus the signed path |
| Storage.SupabaseStorage.Delete | servers/fastapi/services/storage.py:72-79 | DELETE of the object URL; success iff the status is 200 or 204; otherwise the delete error |
| Storage.BuildUserKey | servers/fastapi/services/storage.py:82-84 | the key starts with `users/<user>/`, ends with the file name and is exactly as long as its parts and separators |
| Storage.ParseUserKey | servers/fastapi/services/storage.py:82-84 | a key that parses is the built key of its three parts, and the user and kind contain no '/' |
| Storage.ParseBuildUserKey | servers/fastapi/services/storage.py:82-84 | parsing a built key gives back its user, kind and file name (user and kind without '/') |
| Storage.UserKeysAreDisjoint | servers/fastapi/services/storage.py:82-84 | equal user keys have equal user, kind and file name |
| Storage.ObjectUrlInjective | servers/fastapi/services/storage.py:45 | different keys address different object URLs |
| Storage.SignPrefersUpperCase | servers/fastapi/services/storage.py:69-70 | with both spellings present, the `signedURL` value is used |
| Auth.JwksCache.constructor | servers/fastapi/api/main.py:26-28 | the cache starts with no keys, fetched at time 0 |
| Auth.ConfigFromEnv | servers/fastapi/api/main.py:21-23 | issuer and JWKS URL are read as they are; the audience is the variable when set, even to the empty string, and `decky-api` otherwise |
| Auth.IsFresh | servers/fastapi/api/main.py:34 | only truthy cached keys are fresh; for those, fresh iff `now` is less than an hour after the fetch |
| Auth.JwksCache.GetJwks | servers/fastapi/api/main.py:31-43 | cached keys are served, without fetching, iff they are truthy and less than an hour old; otherwise a fetch: 200 stores the keys stamped with `now`, any other status raises 401 and keeps the cache |
| Auth.FetchedKeysServeForAnHour | servers/fastapi/api/main.py:34 | a truthy key set fetched at time t is served until t + 3600, exclusive |
| Auth.BearerToken | servers/fastapi/api/main.py:49-52 | the header is accepted iff it is truthy and starts with `Bearer `; otherwise 401; the token is the text after the prefix |
| Auth.BearerTokenRoundTrip | servers/fastapi/api/main.py:50-52 | `Bearer ` followed by any token yields that token |
| Auth.FirstKidIndex | servers/fastapi/api/main.py:57 | the index of the first key whose `kid` equals the token's, absent iff none does |
| Auth.SelectKey | servers/fastapi/api/main.py:57 | the selected key is the first one carrying the token's `kid`, absent iff no key carries it |
| Auth.VerifyToken | servers/fastapi/api/main.py:54-65 | every failure is 401 "Invalid token"; success iff the header reads, a non-empty key carries its `kid` and the oracle accepts the token; the user is `sub` together with the claims |
| Auth.UnknownKidIsInvalidToken | servers/fastapi/api/main.py:57-65 | a token whose `kid` no key carries is rejected as "Invalid token" |
| Auth.RequireUser | servers/fastapi/api/main.py:46-65 | checks in order: configuration (500), header (401), JWKS (401), token; what the cache holds afterwards in each case; on success the user is stored on the request, and on failure the request is left as it was |
| Ownership.ScalarWhere | servers/fastapi/utils/auth_utils.py:29-33 | absent iff no row has that id and that owner; otherwise a row of the table that does |
| Ownership.ValidatePresentationOwnership | servers/fastapi/utils/auth_utils.py:10-36 | succeeds iff the user owns a presentation with that id, returning it; otherwise 404 "not found or access denied" |
| Ownership.ValidateTemplateOwnership | servers/fastapi/utils/auth_utils.py:39-65 | the same for templates |
| Ownership.RowsOwnedBy | servers/fastapi/utils/auth_utils.py:32 | keeps exactly the rows owned by the user: each kept row is one, and each such row is kept |
| Ownership.OwnershipSeesOnlyOwnRows | servers/fastapi/utils/auth_utils.py:29-33 | the query's answer depends only on the caller's own rows |
| Ownership.NotOwnedIsIndistinguishableFromMissing | servers/fastapi/utils/auth_utils.py:34-35 | when the user owns no row, the answer is the same as for an empty table |
| Ownership.GetUserIdFromRequest | servers/fastapi/utils/auth_utils.py:68-88 | no user gives 401 "Authentication required"; a user without a truthy id gives 401 "Invalid authentication token"; otherwise the id |
| Ownership.AuthenticatedRequestYieldsSubject | servers/fastapi/utils/auth_utils.py:84-88 | after a successful token check, the id read back is the `sub` claim when it is a non-empty string, and the second 401 otherwise |
| ImageGeneration.GetImageGenFunc | servers/fastapi/services/image_generation_service.py:30-39 | the provider in priority order pixabay, pexels, gemini, dall-e 3; none iff no flag is set |
| ImageGeneration.IsStockProviderSelected | servers/fastapi/services/image_generation_service.py:41-42 | on one selection, the stock test holds iff the dispatch chose pixabay or pexels, that is iff the chosen provider takes no output directory |
| ImageGeneration.NewImageGenerationService | servers/fastapi/services/image_generation_service.py:25-28 | the service keeps its directory and user, `public` when none is given, and binds the provider chosen by the selection read at construction, whose arity fits the stock test on that selection |
| ImageGeneration.Basename | servers/fastapi/services/image_generation_service.py:73 | the base name is the suffix of the path after its last '/' and contains no '/' |
| ImageGeneration.UploadImage | servers/fastapi/services/image_generation_service.py:74-77 | builds the adapter, saves under `users/<user>/images/<file>` as JPEG, signs for an hour; the first step that raises ends the sequence with its error: no request when the adapter cannot be built, only the PUT when the save fails, both requests otherwise; success iff every step succeeds, with a URL under the sign endpoint |
| ImageGeneration.GenerateImage | servers/fastapi/services/image_generation_service.py:44-92 | no bound provider gives the placeholder with no call; a bound provider whose arity does not fit the stock test read now raises and gives the placeholder with no call; otherwise stock providers get the bare prompt and their URL is passed through, generating providers get the themed prompt and the output directory; an existing file is uploaded and returned as an asset with the prompts, and no storage request is made unless the returned path exists; a returned `http…` string is passed through; any other outcome or exception gives the placeholder |
| ImageGeneration.SteadySelectionCallsBoundProvider | servers/fastapi/services/image_generation_service.py:28-68 | when the selection has not changed since construction, the bound provider is called with the prompt form and arguments of its branch |
| ImageGeneration.ChangedSelectionServesPlaceholder | servers/fastapi/services/image_generation_service.py:28-92 | a service bound to Gemini, called after the selection moved to Pexels, serves the placeholder without running any provider |
| ImageGeneration.GeneratedFileIsStoredUnderUserImages | servers/fastapi/services/image_generation_service.py:70-84 | an asset result means the file was put under the service user's `images` folder by its base name, and its path is a signed URL of that bucket |
| ImageGeneration.PartUpload | servers/fastapi/services/image_generation_service.py:131-136 | a successful part upload yields a non-empty URL |
| ImageGeneration.LastInlineIndex | servers/fastapi/services/image_generation_service.py:126-137 | the position of the last inline-data part, absent iff there is none |
| ImageGeneration.InlineIndicesAreTheInlineParts | servers/fastapi/services/image_generation_service.py:127-130 | the listed positions are exactly those of the inline-data parts, in ascending order |
| ImageGeneration.GenerateImageGoogle | servers/fastapi/services/image_generation_service.py:126-139 | fails iff some inline part's upload raises, with the error of the first such part, after uploading exactly the inline parts up to it; otherwise every inline part is uploaded and the result is the URL of the last one, or the placeholder when there is none |
| Startup.IsDev | start.js:14-16 | development mode iff `--dev` or `-d` is among the arguments after the first two |
| Startup.CanChangeKeys | start.js:17 | keys are locked iff `CAN_CHANGE_KEYS` is exactly `false` |
| Startup.OnlyLiteralFalseLocksKeys | start.js:17 | an unset variable and any value other than `false` leave keys changeable |
| Startup.Field | start.js:76-97 | a field is the variable when set and non-empty, else the existing value, else undefined |
| Startup.NormalizeLlm | start.js:71-73 | an existing LLM outside {ollama, openai, google} becomes undefined; every other field is untouched |
| Startup.UserConfig | start.js:75-101 | the written object holds only the twenty fixed keys, each present iff its field is defined, with the field's value |
| Startup.MergedConfig | start.js:64-101 | only the twenty fixed keys are written; a non-empty variable always wins; the LLM written is the variable or one of ollama, openai, google |
| Startup.OtherKeysAreDropped | start.js:75-101 | a key of the existing file outside the fixed list is not written back |
| Startup.EmptyVariableKeepsStoredValue | start.js:75-98 | an empty or unset variable falls back to the stored value |
| Startup.WrittenLlm | start.js:71-76 | the LLM written is the variable when set, else a known stored value, else nothing |
| Startup.MergeIsIdempotent | start.js:64-101 | re-running the merge with the same environment over its own output leaves the file unchanged |
| Startup.UserConfigFile.SetupUserConfigFromEnv | start.js:64-102 | the file afterwards holds the merge of the environment over what it held before, an empty object when it did not exist |
| Startup.NodeModules.SetupNodeModules | start.js:33-58 | copies iff the dependency tree exists and the target is absent or empty; the target then holds the tree; an unreadable target is skipped; a non-empty one is left alone |
| Startup.RunningProcesses | start.js:196 | the running processes are exactly the listed ones neither killed nor exited |
| Startup.RunningProcessesKeepsMultiplicity | start.js:196 | each running process occurs in the filtered list as often as in the list, and no other process occurs |
| Startup.RunningProcessesOfAppend | start.js:196 | the filter keeps list order: filtering a concatenation concatenates the filtered parts |
| Startup.Heartbeat | start.js:196-202 | the beat counts all processes, reports as many running as the filter keeps, and clears the interval iff none is running |
| Startup.HeartbeatNamesRunningProcesses | start.js:196-197 | every running process is named in the beat, and every name in the beat is that of a running process |
| Startup.Start | start.js:242-253 | in development the node_modules set-up runs, copying iff the tree exists and the target is absent or empty and otherwise leaving the target alone; outside development the target is untouched; the configuration merge runs iff keys may be changed, and otherwise the file stays as it was |

## Left out

- Puppeteer itself (launch arguments, timeouts of 300000 ms, network idle, PDF bytes), `fetch`, aiohttp, Clerk's `auth()`, the jose library and the image-provider clients: foreign I/O, modelled as recorded outcomes or oracle functions.
- Timers and scheduling: the one-second settle delay is an effect in the trace, the readiness timeout is the finite list of snapshots, and `setInterval`, `Promise.race`, process spawning, exit handling and nginx start-up are not modelled.
- `sanitizeFilename` is defined in a file that is not part of this model: it is a parameter, and nothing is assumed about it.
- `prompt.get_image_prompt` (models/image_prompt.py) is not part of this model: the provider call records the prompt and whether the theme is requested.
- `PdfExport.IsReady`: JavaScript compares a floating-point quotient with the double nearest 0.99; the model uses exact arithmetic, which agrees for every realistic element count but not for all quotients that round across the threshold.
- `PdfExport.Post`: a request body that is not JSON, or an `id` that is a truthy non-string (a number), is not modelled; `id` and `title` are absent or strings.
- `PdfExport.Render`: the document-complete wait is the `documentCompletes` flag of the world. As written it also resolves at the first poll, since its test is a string holding an arrow function too, so a false flag stands only for an evaluation that rejects.
- `PdfExport.Post`: a sign body that is JSON but not a list (null, an object) reads as an empty list, since `signJson?.[0]` yields undefined for it.
- `PdfExport.Post`: reading the body text of a failed upload or sign answer (`text()`) is taken to resolve.
- `PdfExport.Post`: the browser leak when a browser step throws is modelled as `Threw` with no close; what the framework answers after the exception is not.
- `Auth.RequireUser`: reading `CLERK_ISSUER`/`CLERK_JWKS_URL` at import time is the `Config` parameter; the JWKS body is taken as already parsed JSON, and a body that is not JSON is not modelled.
- `Auth.RequireUser`: a transport failure of the JWKS request (an aiohttp connection error) happens outside any `try` and escapes as a server error, not as the 401; the model's `JwksFetch` is always an answer.
- `Auth.JwksCache.GetJwks`: concurrent requests may interleave at the `await` between the freshness test and the cache write, so two fetches can race; the model runs one request at a time.
- `Storage.SupabaseStorage.GetSignedUrl`: the 200 body is taken as a JSON list of objects. A body that is not JSON, or JSON of another shape (an object, a list of non-objects), raises from aiohttp's `json()` or from the indexing rather than the "invalid response" error; this is not modelled.
- `Auth.VerifyToken`: `jwt.decode`'s signature, audience and issuer checks are inside the `decode` oracle; a key that is falsy (an empty dict) is rejected like a missing one.
- `Ownership.GetUserIdFromRequest`: `request.state.user` is the optional user `require_user` stored; a user object without a `user_id` member and non-string ids are folded into "not truthy".
- `ImageGeneration.GenerateImage`: the upload reads `os.path.exists` and the file's bytes as parameters; the non-string return values of a provider are not modelled.
- `ImageGeneration.GenerateImageGoogle`: a part that has both text and inline data counts as text, as in the source's branch order; a response without candidates is modelled as the raise it causes, which `generate_image` turns into the placeholder.
- `Startup.UserConfigFile.SetupUserConfigFromEnv`: the existing file is taken as a JSON object. A file that is not valid JSON, or that holds null or another primitive, makes the source throw (the script is an ES module, so assigning `LLM` on a primitive raises a `TypeError`); this is not modelled. A file holding a JSON array is read as an empty configuration, since assigning `LLM` on an array succeeds; a caller models it by passing an empty map. The field order of the written JSON text is not modelled either, only its key/value content.
- `Startup.NodeModules.SetupNodeModules`: `cpSync` is modelled as succeeding. A throw from the copy into an absent target (start.js:41) would escape the set-up and stop the script; a throw from the copy into an empty target (start.js:49) is caught and logged as "could not inspect". Neither, nor the partial copy it may leave, is modelled.
- `Startup.NodeModules.SetupNodeModules`: `cpSync` is modelled as making the target hold the dependency tree; merge semantics of a recursive copy into a non-empty tree do not arise because the copy only happens into an absent or empty target.
- Creating the application data directory, `USER_CONFIG_PATH`, the front-end download percentage (`Home.tsx`), `middleware.ts` route matching, `lifespan.py`, `image_asset.py` (used only as the shape of `ImageAsset`) and all landing-page and UI components: outside the modelled core.

## Findings

| source | as written | input that shows it | evidently intended | confidence | as-written member | corrected member |
|---|---|---|---|---|---|---|
| servers/nextjs/app/api/export-as-pdf/route.ts:29-54 | the readiness test is passed to `waitForFunction` as a string holding an arrow function; the string evaluates to the function object, which is truthy, so the wait resolves at the first poll and the 99 % count never runs | a page whose only element has `display: none` | the function is applied to each snapshot and the wait resolves on the first ready one | medium; rests on how Puppeteer evaluates a string predicate; not executed | PdfExport.WaitForReadinessAsWritten, PdfExport.AsWrittenWaitIgnoresHiddenContent | PdfExport.WaitForReadiness |
