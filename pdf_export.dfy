/** The PDF export route of the Next.js server (`POST`): validate the id,
    render the presentation in a headless browser with a non-fatal
    readiness wait, capture and close the browser, check the storage
    configuration, authenticate, upload, sign and respond.

    The browser, the authentication library and `fetch` are foreign: a
    World value holds what each of them does on this request, and the
    route returns, besides its outcome, the trace of the effects it
    issued, in order. */
module PdfExport {
  import opened Wrappers
  import opened Js
  import Storage

  const ViewportWidth := 1280
  const ViewportHeight := 720
  /** The readiness threshold, 0.99, as a percentage. */
  const ReadyPercent := 99
  const SettleDelayMs := 1000
  const SignExpiresIn := 3600
  const RenderTarget := "http://localhost/pdf-maker?id="
  const DefaultTitle := "presentation"

  const MissingId := "Missing Presentation ID"
  const StorageNotConfigured := "Supabase storage not configured"
  const Unauthorized := "Unauthorized"

  // ---------------------------------------------------------------------
  // Readiness: the function evaluated in the page by `waitForFunction`

  /** What the readiness function reads of one element: its computed
      display, visibility and opacity, and its offset width and height. */
  datatype Element = Element(display: string, visibility: string, opacity: string, offsetWidth: int, offsetHeight: int)

  predicate IsVisible(e: Element) {
    e.display != "none" && e.visibility != "hidden" && e.opacity != "0"
  }

  predicate IsLoaded(e: Element) {
    IsVisible(e) && e.offsetWidth > 0 && e.offsetHeight > 0
  }

  /** The number of loaded elements of a document. */
  function LoadedCount(elements: seq<Element>): (n: nat)
    ensures n <= |elements|
  {
    if |elements| == 0 then 0
    else LoadedCount(elements[..|elements| - 1]) + (if IsLoaded(elements[|elements| - 1]) then 1 else 0)
  }

  /** `loaded / total >= 0.99` in exact arithmetic.  With no element the
      JavaScript quotient is NaN and the comparison is false.  A ready page
      has a loaded element, and a page whose every element is loaded is ready. */
  predicate IsReady(elements: seq<Element>): (r: bool)
    ensures r ==> exists i :: 0 <= i < |elements| && IsLoaded(elements[i])
    ensures |elements| > 0 && (forall i :: 0 <= i < |elements| ==> IsLoaded(elements[i])) ==> r
  {
    AllLoadedIffFullCount(elements);
    if LoadedCount(elements) > 0 then
      SomeElementLoaded(elements);
      |elements| > 0 && 100 * LoadedCount(elements) >= ReadyPercent * |elements|
    else
      false
  }

  /** A positive count is witnessed by a loaded element. */
  lemma {:induction false} SomeElementLoaded(elements: seq<Element>)
    requires LoadedCount(elements) > 0
    ensures exists i :: 0 <= i < |elements| && IsLoaded(elements[i])
  {
    var n := |elements|;
    if !IsLoaded(elements[n - 1]) {
      var init := elements[..n - 1];
      SomeElementLoaded(init);
      var i :| 0 <= i < |init| && IsLoaded(init[i]);
      assert elements[i] == init[i];
    }
  }

  /** The integer form is the rational comparison of the source. */
  lemma ReadyIsRatioAtLeast99Percent(elements: seq<Element>)
    ensures IsReady(elements) <==>
      |elements| > 0 && (LoadedCount(elements) as real) / (|elements| as real) >= 0.99
  {
    if |elements| > 0 {
      RatioForm(LoadedCount(elements), |elements|);
    }
  }

  lemma RatioForm(loaded: nat, total: nat)
    requires total > 0
    ensures 100 * loaded >= ReadyPercent * total <==> (loaded as real) / (total as real) >= 0.99
  {
    QuotientAtLeast(loaded as real, total as real, 0.99);
    assert (100 * loaded) as real == 100.0 * (loaded as real);
    assert (99 * total) as real == 99.0 * (total as real);
  }

  lemma QuotientAtLeast(a: real, b: real, c: real)
    requires b > 0.0
    ensures a / b >= c <==> a >= c * b
  {
    var q := a / b;
    assert q * b == a;
    assert a - c * b == (q - c) * b;
    if q >= c {
      assert (q - c) * b >= 0.0;
    } else {
      assert (c - q) * b > 0.0;
    }
  }

  /** Every element is loaded exactly when the count reaches the total. */
  lemma {:induction false} AllLoadedIffFullCount(elements: seq<Element>)
    ensures LoadedCount(elements) == |elements| <==> forall i :: 0 <= i < |elements| ==> IsLoaded(elements[i])
  {
    if |elements| > 0 {
      var init := elements[..|elements| - 1];
      AllLoadedIffFullCount(init);
      assert forall i :: 0 <= i < |init| ==> init[i] == elements[i];
    }
  }

  /** Below one hundred elements the 0.99 threshold tolerates nothing: a
      single hidden or unsized element keeps the page from being ready. */
  lemma SmallPageNeedsEveryElement(elements: seq<Element>)
    requires 0 < |elements| < 100
    ensures IsReady(elements) <==> forall i :: 0 <= i < |elements| ==> IsLoaded(elements[i])
  {
    AllLoadedIffFullCount(elements);
  }

  /** From one hundred elements on, one element that never shows (an
      off-screen slide, say) is tolerated. */
  lemma OneMissingElementToleratedFromHundred(elements: seq<Element>)
    requires |elements| >= 100 && LoadedCount(elements) + 1 == |elements|
    ensures IsReady(elements)
  {
  }

  /** The counting loop of the readiness function. */
  method CountLoadedElements(elements: seq<Element>) returns (loaded: nat)
    ensures loaded == LoadedCount(elements)
  {
    loaded := 0;
    for i := 0 to |elements|
      invariant loaded == LoadedCount(elements[..i])
    {
      assert elements[..i + 1][..i] == elements[..i];
      if IsLoaded(elements[i]) {
        loaded := loaded + 1;
      }
    }
    assert elements[..|elements|] == elements;
  }

  /** The readiness function evaluated on one snapshot of the document. */
  method ReadinessPredicate(elements: seq<Element>) returns (ready: bool)
    ensures ready == IsReady(elements)
  {
    var loaded := CountLoadedElements(elements);
    var total := |elements|;
    ready := total > 0 && 100 * loaded >= ReadyPercent * total;
  }

  /** `waitForFunction` re-evaluates the readiness function on successive
      snapshots of the document until it holds or the time budget is
      spent; `polls` are the snapshots taken within the budget.  It
      resolves iff some snapshot is ready. */
  method WaitForReadiness(polls: seq<seq<Element>>) returns (ready: bool)
    ensures ready <==> exists i :: 0 <= i < |polls| && IsReady(polls[i])
  {
    var i := 0;
    ready := false;
    while i < |polls| && !ready
      invariant 0 <= i <= |polls|
      invariant !ready ==> forall j :: 0 <= j < i ==> !IsReady(polls[j])
      invariant ready ==> 0 < i && IsReady(polls[i - 1])
    {
      ready := ReadinessPredicate(polls[i]);
      i := i + 1;
    }
  }

  /** What one poll of `waitForFunction` yields when the predicate is
      handed over as source text: the value of that text read as an
      expression. */
  datatype PollValue = FunctionObject | Boolean(b: bool)

  /** The poll succeeds on a truthy value; a function object is truthy. */
  predicate PollSucceeds(v: PollValue) {
    v.FunctionObject? || v.b
  }

  predicate ResolvesAsWritten(polls: seq<seq<Element>>) {
    |polls| > 0
  }

  /** The route passes the readiness function (and the document-complete
      test) as a string holding an arrow function.  Read as an expression,
      that string evaluates to the function object itself, so the count is
      never run and the wait resolves at the first poll the page answers. */
  method WaitForReadinessAsWritten(polls: seq<seq<Element>>) returns (ready: bool)
    ensures ready == ResolvesAsWritten(polls)
  {
    var i := 0;
    ready := false;
    while i < |polls| && !ready
      invariant 0 <= i <= |polls|
      invariant ready <==> i > 0
    {
      var v := FunctionObject;
      ready := PollSucceeds(v);
      i := i + 1;
    }
  }

  /** As written, a page whose only element is hidden passes the wait,
      although it is not ready by the readiness function's own test. */
  lemma AsWrittenWaitIgnoresHiddenContent()
    ensures var polls := [[Element("none", "visible", "1", 0, 0)]];
      ResolvesAsWritten(polls) && !exists i :: 0 <= i < |polls| && IsReady(polls[i])
  {
    var hidden := [Element("none", "visible", "1", 0, 0)];
    assert hidden[..0] == [];
    assert LoadedCount(hidden) == 0;
  }

  // ---------------------------------------------------------------------
  // The export pipeline

  /** The request body: `id` and `title`, each absent (`undefined` or
      `null`) or a string. */
  datatype ExportRequest = ExportRequest(id: Option<string>, title: Option<string>)

  /** The storage settings read from the process environment. */
  datatype Env = Env(supabaseUrl: Option<string>, serviceRoleKey: Option<string>, bucket: Option<string>)

  /** What a `fetch` call met: a rejection (the request never got an
      answer), or a response, `ok` iff its status is in 200..299. */
  datatype FetchResponse = FetchRejected | FetchResponse(status: int, text: string)

  predicate Ok(r: FetchResponse) {
    r.FetchResponse? && 200 <= r.status <= 299
  }

  /** What every foreign collaborator does on this request: how many of
      `launch`, `newPage` and `setViewport` resolve, in that order; whether
      navigation, the document-complete wait and the capture resolve (a
      rejection of any of them escapes `POST`); the snapshots the readiness
      wait sees; the environment; whether `auth()` resolves and the user id
      it yields; and the two storage answers, with the sign answer's body
      read as a JSON list (absent when the body is not JSON, which makes
      `json()` reject). */
  datatype World = World(
    setUpSteps: nat,
    navigates: bool,
    documentCompletes: bool,
    readinessPolls: seq<seq<Element>>,
    captures: bool,
    env: Env,
    authenticates: bool,
    userId: Option<string>,
    upload: FetchResponse,
    sign: FetchResponse,
    signJson: Option<seq<Storage.SignEntry>>)

  datatype Margins = Margins(top: int, right: int, bottom: int, left: int)

  datatype PdfOptions = PdfOptions(width: string, height: string, printBackground: bool, margin: Margins)

  /** The capture parameters: the viewport's size, backgrounds printed, no margin. */
  const CaptureOptions := PdfOptions("1280px", "720px", true, Margins(0, 0, 0, 0))

  /** The effects the route issues, in the order it issues them. */
  datatype Effect =
    | LaunchBrowser
    | OpenPage
    | SetViewport(width: int, height: int)
    | Navigate(url: string)
    | WaitDocumentComplete
    | WaitReadiness
    | Settle(ms: int)
    | CapturePdf(options: PdfOptions)
    | CloseBrowser
    | Authenticate
    | UploadPut(url: string, headers: map<string, string>)
    | SignPost(url: string, headers: map<string, string>, expiresIn: int, paths: seq<string>)

  datatype Body = ErrorBody(error: string) | SuccessBody(success: bool, path: string)

  datatype Response = Response(status: int, body: Body)

  /** The route answered, or an exception escaped it (the framework then
      answers on its own). */
  datatype Outcome = Responded(response: Response) | Threw

  predicate Uploads(trace: seq<Effect>) {
    exists e :: e in trace && e.UploadPut?
  }

  predicate Signs(trace: seq<Effect>) {
    exists e :: e in trace && e.SignPost?
  }

  /** Launching the browser, opening the page, setting the viewport. */
  const SetUpEffects: seq<Effect> := [LaunchBrowser, OpenPage, SetViewport(ViewportWidth, ViewportHeight)]

  /** The browser part of a run that got past the id check, up to the
      navigation. */
  function LaunchEffects(id: string): seq<Effect> {
    SetUpEffects + [Navigate(RenderTarget + id)]
  }

  /** The browser stage resolves all the way to the capture. */
  predicate BrowserSucceeds(w: World) {
    w.setUpSteps >= 3 && w.navigates && w.documentCompletes && w.captures
  }

  /** The browser part of a run that reached the capture: a settle delay
      only after a successful readiness wait, then the capture. */
  function CaptureEffects(id: string, settled: bool): seq<Effect> {
    LaunchEffects(id) + [WaitDocumentComplete, WaitReadiness] +
    (if settled then [Settle(SettleDelayMs)] else []) + [CapturePdf(CaptureOptions)]
  }

  /** The browser part of a run whose capture resolved: the close follows. */
  function RenderEffects(id: string, settled: bool): seq<Effect> {
    CaptureEffects(id, settled) + [CloseBrowser]
  }

  /** A run that fails before the close issues no close, no authentication
      and no storage call. */
  lemma FailedRenderStopsEarly(id: string, settled: bool, trace: seq<Effect>)
    requires trace in {SetUpEffects[..1], SetUpEffects[..2], SetUpEffects[..3], LaunchEffects(id),
                       LaunchEffects(id) + [WaitDocumentComplete], CaptureEffects(id, settled)}
    ensures CloseBrowser !in trace && Authenticate !in trace && !Uploads(trace) && !Signs(trace)
  {
    var c := CaptureEffects(id, settled);
    assert forall k :: 1 <= k <= 3 ==> forall e :: e in SetUpEffects[..k] ==> e in SetUpEffects;
    assert forall e :: e in c ==> e in LaunchEffects(id) || e in [WaitDocumentComplete, WaitReadiness] ||
                                   e == Settle(SettleDelayMs) || e == CapturePdf(CaptureOptions);
  }

  /** The capture happens exactly once and the browser is closed right
      after it, whatever the readiness wait did. */
  lemma RenderCapturesOnceThenCloses(id: string, settled: bool)
    ensures var r := RenderEffects(id, settled);
      && r[|r| - 2] == CapturePdf(CaptureOptions) && r[|r| - 1] == CloseBrowser
      && (forall i :: 0 <= i < |r| && r[i].CapturePdf? ==> i == |r| - 2)
      && (forall i :: 0 <= i < |r| && r[i] == CloseBrowser ==> i == |r| - 1)
      && (Settle(SettleDelayMs) in r <==> settled)
      && SetViewport(ViewportWidth, ViewportHeight) in r
  {
    var nav := Navigate(RenderTarget + id);
    var view := SetViewport(ViewportWidth, ViewportHeight);
    var cap := CapturePdf(CaptureOptions);
    var r := RenderEffects(id, settled);
    if settled {
      assert r == [LaunchBrowser, OpenPage, view, nav, WaitDocumentComplete, WaitReadiness,
                   Settle(SettleDelayMs), cap, CloseBrowser];
    } else {
      assert r == [LaunchBrowser, OpenPage, view, nav, WaitDocumentComplete, WaitReadiness, cap, CloseBrowser];
    }
  }

  /** `sanitizeFilename(title ?? 'presentation') + ".pdf"`; the sanitizer
      is defined elsewhere and is a parameter here. */
  function ExportFilename(title: Option<string>, sanitize: string -> string): (r: string)
    ensures |r| >= 4 && r[|r| - 4..] == ".pdf"
    // only a missing title falls back; an empty one is sanitized as given
    ensures title.None? ==> r[..|r| - 4] == sanitize(DefaultTitle)
    ensures title.Some? ==> r[..|r| - 4] == sanitize(title.value)
  {
    sanitize(title.GetOr(DefaultTitle)) + ".pdf"
  }

  /** `users/<userId>/exports/<filename>` */
  function ExportKey(userId: string, filename: string): (r: string)
    // the route writes where the Python adapter's key builder would
    ensures r == Storage.BuildUserKey(userId, "exports", filename)
    // and the adapter's parser reads the user, the kind and the file back
    ensures '/' !in userId ==> Storage.ParseUserKey(r) == Some((userId, "exports", filename))
  {
    var r := "users/" + userId + "/exports/" + filename;
    SameKeyAsAdapter(userId, filename);
    if '/' !in userId then
      Storage.ParseBuildUserKey(userId, "exports", filename);
      r
    else r
  }

  lemma SameKeyAsAdapter(userId: string, filename: string)
    ensures "users/" + userId + "/exports/" + filename == Storage.BuildUserKey(userId, "exports", filename)
  {
    Storage.UserKeyShape(userId, "exports", filename);
    assert "/exports/" + filename == "/" + ("exports" + "/" + filename);
  }

  /** Exports of two users never share a key (user ids without '/'). */
  lemma ExportKeysArePerUser(u1: string, u2: string, f1: string, f2: string)
    requires '/' !in u1 && '/' !in u2 && u1 != u2
    ensures ExportKey(u1, f1) != ExportKey(u2, f2)
  {
    if ExportKey(u1, f1) == ExportKey(u2, f2) {
      Storage.UserKeysAreDisjoint(u1, "exports", f1, u2, "exports", f2);
    }
  }

  predicate StorageConfigured(env: Env) {
    Truthy(env.supabaseUrl) && Truthy(env.serviceRoleKey) && Truthy(env.bucket)
  }

  /** URLs and headers are those of the storage adapter built from the
      same three settings. */
  function StorageOf(env: Env): Storage.SupabaseStorage
    requires StorageConfigured(env)
  {
    Storage.SupabaseStorage(env.supabaseUrl.value, env.bucket.value, env.serviceRoleKey.value)
  }

  /** `signJson?.[0]?.signedURL || signJson?.[0]?.signedUrl`, as the template
      literal prints it: the route does not check that either is there. */
  function SignedField(signJson: seq<Storage.SignEntry>): (r: string)
    ensures |signJson| == 0 ==> r == "undefined"
    // the upper-case field wins whenever it is a non-empty string
    ensures |signJson| > 0 && Truthy(signJson[0].signedURL) ==> r == signJson[0].signedURL.value
    ensures |signJson| > 0 && !Truthy(signJson[0].signedURL) && signJson[0].signedUrl.Some? ==>
      r == signJson[0].signedUrl.value
    ensures |signJson| > 0 && !Truthy(signJson[0].signedURL) && signJson[0].signedUrl.None? ==> r == "undefined"
  {
    if |signJson| == 0 then Interpolate(None)
    else Interpolate(Or(signJson[0].signedURL, signJson[0].signedUrl))
  }

  /** An empty sign answer still yields a success path, ending in "undefined". */
  lemma UnvalidatedSignAnswer(env: Env)
    requires StorageConfigured(env)
    ensures StorageOf(env).SignedUrlFor(SignedField([])) == StorageOf(env).SignEndpoint() + "/undefined"
  {
  }

  /** With a well-formed sign answer, the route responds with the very URL
      the Python adapter's `get_signed_url` returns. */
  lemma SignedPathAgreesWithAdapter(env: Env, key: string, text: string, signJson: seq<Storage.SignEntry>)
    requires StorageConfigured(env)
    requires |signJson| > 0 && (Truthy(signJson[0].signedURL) || Truthy(signJson[0].signedUrl))
    ensures StorageOf(env).GetSignedUrl(key, SignExpiresIn, Storage.SignResponse(200, text, signJson)).result
         == Success(StorageOf(env).SignedUrlFor(SignedField(signJson)))
  {
  }

  function ErrorResponse(status: int, message: string): Outcome {
    Responded(Response(status, ErrorBody(message)))
  }

  /** Lines 15 to 70 of the route: launch, navigate, wait, capture, close.
      `captured` tells whether the run got past the capture. */
  method Render(id: string, w: World) returns (captured: bool, trace: seq<Effect>)
    ensures captured <==> BrowserSucceeds(w)
    ensures w.setUpSteps < 3 ==> trace == SetUpEffects[..w.setUpSteps + 1]
    ensures w.setUpSteps >= 3 && !w.navigates ==> trace == LaunchEffects(id)
    ensures w.setUpSteps >= 3 && w.navigates && !w.documentCompletes ==>
      trace == LaunchEffects(id) + [WaitDocumentComplete]
    ensures w.setUpSteps >= 3 && w.navigates && w.documentCompletes ==>
      var settled := exists i :: 0 <= i < |w.readinessPolls| && IsReady(w.readinessPolls[i]);
      trace == if w.captures then RenderEffects(id, settled) else CaptureEffects(id, settled)
  {
    trace := [LaunchBrowser];
    if w.setUpSteps < 1 {
      assert trace == SetUpEffects[..1];
      return false, trace;
    }
    trace := trace + [OpenPage];
    if w.setUpSteps < 2 {
      assert trace == SetUpEffects[..2];
      return false, trace;
    }
    trace := trace + [SetViewport(ViewportWidth, ViewportHeight)];
    assert trace == SetUpEffects;
    if w.setUpSteps < 3 {
      return false, trace;
    }
    trace := trace + [Navigate(RenderTarget + id)];
    assert trace == LaunchEffects(id);
    if !w.navigates {
      return false, trace;
    }
    trace := trace + [WaitDocumentComplete];
    if !w.documentCompletes {
      return false, trace;
    }
    // the readiness wait: a rejection is caught and skips the settle delay
    trace := trace + [WaitReadiness];
    var ready := WaitForReadiness(w.readinessPolls);
    if ready {
      trace := trace + [Settle(SettleDelayMs)];
    }
    trace := trace + [CapturePdf(CaptureOptions)];
    assert trace == CaptureEffects(id, ready);
    if !w.captures {
      return false, trace;
    }
    trace := trace + [CloseBrowser];
    captured := true;
  }

  /** The effects of the storage stage, for a configured environment and
      an authenticated user, up to the first failing call. */
  function StorageEffects(w: World, key: string): seq<Effect>
    requires StorageConfigured(w.env)
  {
    var s := StorageOf(w.env);
    [UploadPut(s.ObjectUrl(key), s.Headers(Some("application/pdf")))] +
    (if Ok(w.upload) then [SignPost(s.SignEndpoint(), s.Headers(Some("application/json")), SignExpiresIn, [key])] else [])
  }

  /** Lines 72 to 124 of the route, after the browser is closed. */
  method Publish(title: Option<string>, w: World, sanitize: string -> string) returns (out: Outcome, trace: seq<Effect>)
    ensures !StorageConfigured(w.env) ==> out == ErrorResponse(500, StorageNotConfigured) && trace == []
    ensures StorageConfigured(w.env) && !w.authenticates ==> out == Threw && trace == [Authenticate]
    ensures StorageConfigured(w.env) && w.authenticates && !Truthy(w.userId) ==>
      out == ErrorResponse(401, Unauthorized) && trace == [Authenticate]
    ensures StorageConfigured(w.env) && w.authenticates && Truthy(w.userId) ==>
      var key := ExportKey(w.userId.value, ExportFilename(title, sanitize));
      && trace == [Authenticate] + StorageEffects(w, key)
      && (w.upload.FetchRejected? ==> out == Threw)
      && (w.upload.FetchResponse? && !Ok(w.upload) ==>
            out == ErrorResponse(500, "Upload failed: " + IntToString(w.upload.status) + " " + w.upload.text))
      && (Ok(w.upload) && w.sign.FetchRejected? ==> out == Threw)
      && (Ok(w.upload) && w.sign.FetchResponse? && !Ok(w.sign) ==>
            out == ErrorResponse(500, "Sign failed: " + IntToString(w.sign.status) + " " + w.sign.text))
      && (Ok(w.upload) && Ok(w.sign) && w.signJson.None? ==> out == Threw)
      && (Ok(w.upload) && Ok(w.sign) && w.signJson.Some? ==>
            out == Responded(Response(200, SuccessBody(true, StorageOf(w.env).SignedUrlFor(SignedField(w.signJson.value))))))
  {
    var filename := ExportFilename(title, sanitize);
    if !StorageConfigured(w.env) {
      return ErrorResponse(500, StorageNotConfigured), [];
    }
    var s := StorageOf(w.env);
    trace := [Authenticate];
    if !w.authenticates {
      return Threw, trace;
    }
    if !Truthy(w.userId) {
      return ErrorResponse(401, Unauthorized), trace;
    }
    var key := ExportKey(w.userId.value, filename);
    trace := trace + [UploadPut(s.ObjectUrl(key), s.Headers(Some("application/pdf")))];
    if w.upload.FetchRejected? {
      return Threw, trace;
    }
    if !Ok(w.upload) {
      return ErrorResponse(500, "Upload failed: " + IntToString(w.upload.status) + " " + w.upload.text), trace;
    }
    trace := trace + [SignPost(s.SignEndpoint(), s.Headers(Some("application/json")), SignExpiresIn, [key])];
    if w.sign.FetchRejected? {
      return Threw, trace;
    }
    if !Ok(w.sign) {
      return ErrorResponse(500, "Sign failed: " + IntToString(w.sign.status) + " " + w.sign.text), trace;
    }
    if w.signJson.None? {
      return Threw, trace;
    }
    out := Responded(Response(200, SuccessBody(true, s.SignedUrlFor(SignedField(w.signJson.value)))));
  }

  /** `POST /api/export-as-pdf` */
  method Post(req: ExportRequest, w: World, sanitize: string -> string) returns (out: Outcome, trace: seq<Effect>)
    // a missing id is rejected before any browser is launched
    ensures !Truthy(req.id) ==> out == ErrorResponse(400, MissingId) && trace == []
    // a navigation, document or capture failure escapes without closing the
    // browser and without any later stage
    ensures Truthy(req.id) && !BrowserSucceeds(w) ==>
      && out == Threw
      && (w.setUpSteps < 3 ==> trace == SetUpEffects[..w.setUpSteps + 1])
      && (w.setUpSteps >= 3 ==> |trace| >= 4 && trace[..4] == LaunchEffects(req.id.value))
      && CloseBrowser !in trace && Authenticate !in trace && !Uploads(trace) && !Signs(trace)
    // once captured and closed: storage configuration, then authentication,
    // upload and sign, each stopping the route when it fails
    ensures Truthy(req.id) && BrowserSucceeds(w) ==>
      var settled := exists i :: 0 <= i < |w.readinessPolls| && IsReady(w.readinessPolls[i]);
      var render := RenderEffects(req.id.value, settled);
      && (!StorageConfigured(w.env) ==> out == ErrorResponse(500, StorageNotConfigured) && trace == render)
      && (StorageConfigured(w.env) && !w.authenticates ==> out == Threw && trace == render + [Authenticate])
      && (StorageConfigured(w.env) && w.authenticates && !Truthy(w.userId) ==>
            out == ErrorResponse(401, Unauthorized) && trace == render + [Authenticate])
      && (StorageConfigured(w.env) && w.authenticates && Truthy(w.userId) ==>
            var key := ExportKey(w.userId.value, ExportFilename(req.title, sanitize));
            && trace == render + [Authenticate] + StorageEffects(w, key)
            && (w.upload.FetchRejected? ==> out == Threw)
            && (w.upload.FetchResponse? && !Ok(w.upload) ==>
                  out == ErrorResponse(500, "Upload failed: " + IntToString(w.upload.status) + " " + w.upload.text))
            && (Ok(w.upload) && w.sign.FetchRejected? ==> out == Threw)
            && (Ok(w.upload) && w.sign.FetchResponse? && !Ok(w.sign) ==>
                  out == ErrorResponse(500, "Sign failed: " + IntToString(w.sign.status) + " " + w.sign.text))
            && (Ok(w.upload) && Ok(w.sign) && w.signJson.None? ==> out == Threw)
            && (Ok(w.upload) && Ok(w.sign) && w.signJson.Some? ==>
                  out == Responded(Response(200, SuccessBody(true, StorageOf(w.env).SignedUrlFor(SignedField(w.signJson.value)))))))
    // the route succeeds exactly when every stage does
    ensures out.Responded? && out.response.status == 200 <==>
      Truthy(req.id) && BrowserSucceeds(w) &&
      StorageConfigured(w.env) && w.authenticates && Truthy(w.userId) && Ok(w.upload) && Ok(w.sign) && w.signJson.Some?
  {
    if !Truthy(req.id) {
      return ErrorResponse(400, MissingId), [];
    }
    var captured, rendered := Render(req.id.value, w);
    if !captured {
      ghost var settled := exists i :: 0 <= i < |w.readinessPolls| && IsReady(w.readinessPolls[i]);
      FailedRenderStopsEarly(req.id.value, settled, rendered);
      assert w.setUpSteps >= 3 ==> rendered[..4] == LaunchEffects(req.id.value);
      return Threw, rendered;
    }
    var published;
    out, published := Publish(req.title, w, sanitize);
    trace := rendered + published;
  }
}
