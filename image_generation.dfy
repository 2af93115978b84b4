/** Image generation dispatch of the Python backend: the provider chosen
    by priority, the stock-versus-generated branch of `generate_image`
    with its total fallback to the placeholder, and the part loop of the
    Gemini provider.  Provider calls, file reads and the storage service
    are foreign: their outcomes are parameters. */
module ImageGeneration {
  import opened Wrappers
  import opened Js
  import Storage

  const Placeholder := "/static/images/placeholder.jpg"
  const SignedUrlLifetime := 3600
  const ImageContentType := "image/jpeg"

  datatype Provider = Pixabay | Pexels | GeminiFlash | Dalle3

  /** The four `is_*_selected` flags of the configured image provider. */
  datatype Selection = Selection(pixabay: bool, pexels: bool, geminiFlash: bool, dalle3: bool)

  /** `get_image_gen_func`: pixabay, then pexels, then gemini, then dall-e 3. */
  function GetImageGenFunc(sel: Selection): (r: Option<Provider>)
    ensures r == Some(Pixabay) <==> sel.pixabay
    ensures r == Some(Pexels) <==> !sel.pixabay && sel.pexels
    ensures r == Some(GeminiFlash) <==> !sel.pixabay && !sel.pexels && sel.geminiFlash
    ensures r == Some(Dalle3) <==> !sel.pixabay && !sel.pexels && !sel.geminiFlash && sel.dalle3
    ensures r.None? <==> !sel.pixabay && !sel.pexels && !sel.geminiFlash && !sel.dalle3
  {
    if sel.pixabay then Some(Pixabay)
    else if sel.pexels then Some(Pexels)
    else if sel.geminiFlash then Some(GeminiFlash)
    else if sel.dalle3 then Some(Dalle3)
    else None
  }

  /** The generating providers take the output directory as a second
      argument; the stock providers take the prompt alone. */
  predicate TakesOutputDirectory(p: Provider) {
    p == GeminiFlash || p == Dalle3
  }

  /** `is_stock_provider_selected`.  Read against the same selection, the
      stock test and the dispatch agree: because stock providers come first
      in the priority chain, the stock branch runs a stock provider. */
  predicate IsStockProviderSelected(sel: Selection): (r: bool)
    ensures r <==> GetImageGenFunc(sel) in {Some(Pixabay), Some(Pexels)}
    ensures GetImageGenFunc(sel).Some? ==> (r <==> !TakesOutputDirectory(GetImageGenFunc(sel).value))
  {
    sel.pexels || sel.pixabay
  }

  /** `os.path.basename`: the text after the last '/'. */
  function Basename(path: string): (r: string)
    ensures '/' !in r
    ensures |r| <= |path| && path[|path| - |r|..] == r
    ensures |r| < |path| ==> path[|path| - |r| - 1] == '/'
  {
    if |path| == 0 || path[|path| - 1] == '/' then ""
    else
      var n := |path|;
      var init := path[..n - 1];
      var r := Basename(init);
      var start := n - 1 - |r|;
      assert init[start..] == path[start..n - 1];
      assert path[start..] == path[start..n - 1] + [path[n - 1]];
      assert start > 0 ==> init[start - 1] == path[start - 1];
      r + [path[n - 1]]
  }

  datatype ImagePrompt = ImagePrompt(prompt: string, themePrompt: Option<string>)

  /** The stored record returned for an uploaded generated image. */
  datatype ImageAsset = ImageAsset(path: string, extras: map<string, Option<string>>)

  datatype ImageResult = Url(url: string) | Asset(asset: ImageAsset)

  /** How the provider function was called: which one, the prompt, whether
      the theme is part of it, and the output directory (generating
      providers only). */
  datatype ProviderCall = ProviderCall(provider: Provider, prompt: ImagePrompt, withTheme: bool,
                                       outputDirectory: Option<string>)

  /** What the provider function did: it raised or returned a string. */
  datatype ProviderOutcome = Raised | Returned(value: string)

  /** The storage situation seen by the upload: the environment read by the
      adapter's constructor and the answers to the PUT and to the sign POST. */
  datatype StorageWorld = StorageWorld(
    baseUrl: Option<string>, bucket: Option<string>, serviceKey: Option<string>,
    save: Storage.HttpResponse, sign: Storage.SignResponse)

  datatype Upload = Upload(requests: seq<Storage.HttpRequest>, result: Result<string, string>)

  /** Upload an image under `users/<user>/images/<file>` and sign it for an
      hour: construct the adapter, `save`, `get_signed_url`; the first step
      that raises ends the sequence. */
  function UploadImage(userId: string, filename: string, content: seq<bv8>, w: StorageWorld): (u: Upload)
    ensures u.result.Success? <==>
      && Storage.NewSupabaseStorage(w.baseUrl, w.bucket, w.serviceKey).Success?
      && w.save.status in Storage.SaveAccepted
      && Storage.NewSupabaseStorage(w.baseUrl, w.bucket, w.serviceKey).value
           .GetSignedUrl(Storage.BuildUserKey(userId, "images", filename), SignedUrlLifetime, w.sign).result.Success?
    ensures u.result.Success? ==>
      var s := Storage.NewSupabaseStorage(w.baseUrl, w.bucket, w.serviceKey).value;
      var key := Storage.BuildUserKey(userId, "images", filename);
      && u.result == s.GetSignedUrl(key, SignedUrlLifetime, w.sign).result
      && u.requests == [s.Save(key, content, Some(ImageContentType), w.save).request,
                        s.GetSignedUrl(key, SignedUrlLifetime, w.sign).request]
      && StartsWith(u.result.value, s.SignEndpoint() + "/")
    // the first step that raises ends the sequence, with its error
    ensures Storage.NewSupabaseStorage(w.baseUrl, w.bucket, w.serviceKey).Failure? ==>
      u == Upload([], Failure(Storage.NewSupabaseStorage(w.baseUrl, w.bucket, w.serviceKey).error))
    ensures Storage.NewSupabaseStorage(w.baseUrl, w.bucket, w.serviceKey).Success? ==>
      var s := Storage.NewSupabaseStorage(w.baseUrl, w.bucket, w.serviceKey).value;
      var key := Storage.BuildUserKey(userId, "images", filename);
      var saved := s.Save(key, content, Some(ImageContentType), w.save);
      var signed := s.GetSignedUrl(key, SignedUrlLifetime, w.sign);
      && (saved.result.Failure? ==> u == Upload([saved.request], Failure(saved.result.error)))
      && (saved.result.Success? ==> u == Upload([saved.request, signed.request], signed.result))
  {
    match Storage.NewSupabaseStorage(w.baseUrl, w.bucket, w.serviceKey)
    case Failure(e) => Upload([], Failure(e))
    case Success(s) =>
      var key := Storage.BuildUserKey(userId, "images", filename);
      var saved := s.Save(key, content, Some(ImageContentType), w.save);
      if saved.result.Failure? then Upload([saved.request], Failure(saved.result.error))
      else
        var signed := s.GetSignedUrl(key, SignedUrlLifetime, w.sign);
        if signed.result.Success? then
          var prefix := s.SignEndpoint() + "/";
          assert signed.result.value[..|prefix|] == prefix;
          Upload([saved.request, signed.request], signed.result)
        else
          Upload([saved.request, signed.request], signed.result)
  }

  /** The service: its output directory, its user and the provider it
      bound at construction time. */
  datatype ImageGenerationService = ImageGenerationService(outputDirectory: string, userId: string,
                                                           imageGenFunc: Option<Provider>)

  /** The user the service stores under when the caller names none. */
  const DefaultUserId := "public"

  /** The constructor binds the provider from the selection read at that
      moment; against that same selection, a bound provider's arity always
      fits the branch the stock test picks.  `userId` is absent when the
      caller leaves the argument out. */
  function NewImageGenerationService(outputDirectory: string, userId: Option<string>, sel: Selection)
    : (s: ImageGenerationService)
    ensures s.outputDirectory == outputDirectory
    ensures userId.Some? ==> s.userId == userId.value
    ensures userId.None? ==> s.userId == DefaultUserId
    ensures s.imageGenFunc == GetImageGenFunc(sel)
    ensures !ArityMismatch(s, sel)
  {
    ImageGenerationService(outputDirectory, userId.GetOr(DefaultUserId), GetImageGenFunc(sel))
  }

  /** `generate_image` re-reads the selection for its stock test; if that
      reading no longer fits the bound provider, the call passes the wrong
      number of arguments and raises a `TypeError` inside the `try`. */
  predicate ArityMismatch(service: ImageGenerationService, current: Selection) {
    service.imageGenFunc.Some? &&
    IsStockProviderSelected(current) == TakesOutputDirectory(service.imageGenFunc.value)
  }

  datatype Generation = Generation(call: Option<ProviderCall>, storageRequests: seq<Storage.HttpRequest>, result: ImageResult)

  function AssetExtras(prompt: ImagePrompt): map<string, Option<string>> {
    map["prompt" := Some(prompt.prompt), "theme_prompt" := prompt.themePrompt]
  }

  /** `generate_image`.  `current` is the provider selection read during
      the call, `fileExists` stands for `os.path.exists`, `content` for the
      bytes read from that file.  Every exception inside the `try` block,
      including a mismatched provider call and the final "image not found"
      (whose message names an undefined variable), yields the placeholder. */
  function GenerateImage(service: ImageGenerationService, current: Selection, prompt: ImagePrompt,
                         outcome: ProviderOutcome, fileExists: string -> bool, content: seq<bv8>,
                         w: StorageWorld): (g: Generation)
    ensures service.imageGenFunc.None? || ArityMismatch(service, current) ==>
      g == Generation(None, [], Url(Placeholder))
    ensures service.imageGenFunc.Some? && !ArityMismatch(service, current) ==>
      var stock := IsStockProviderSelected(current);
      g.call == Some(ProviderCall(service.imageGenFunc.value, prompt, !stock,
                                  if stock then None else Some(service.outputDirectory)))
    ensures outcome.Raised? ==> g.result == Url(Placeholder) && g.storageRequests == []
    ensures g.call.Some? && IsStockProviderSelected(current) && outcome.Returned? ==>
      g.result == Url(outcome.value) && g.storageRequests == []
    ensures g.call.Some? && !IsStockProviderSelected(current) && outcome.Returned? ==>
      var v := outcome.value;
      var upload := UploadImage(service.userId, Basename(v), content, w);
      && (v != "" && fileExists(v) && upload.result.Success? ==>
            g.result == Asset(ImageAsset(upload.result.value, AssetExtras(prompt))))
      && (v != "" && fileExists(v) && upload.result.Failure? ==> g.result == Url(Placeholder))
      && (v != "" && fileExists(v) ==> g.storageRequests == upload.requests)
      && (!(v != "" && fileExists(v)) ==> g.storageRequests == [])
      && (!(v != "" && fileExists(v)) && StartsWith(v, "http") ==> g.result == Url(v))
      && (!(v != "" && fileExists(v)) && !StartsWith(v, "http") ==> g.result == Url(Placeholder))
    ensures g.result.Url? ==>
      g.result.url == Placeholder || (outcome.Returned? && g.result.url == outcome.value)
  {
    match service.imageGenFunc
    case None => Generation(None, [], Url(Placeholder))
    case Some(f) =>
      var stock := IsStockProviderSelected(current);
      if stock == TakesOutputDirectory(f) then Generation(None, [], Url(Placeholder))
      else
        var call := ProviderCall(f, prompt, !stock, if stock then None else Some(service.outputDirectory));
        match outcome
        case Raised => Generation(Some(call), [], Url(Placeholder))
        case Returned(v) =>
          if stock then Generation(Some(call), [], Url(v))
          else if v != "" && fileExists(v) then
            var upload := UploadImage(service.userId, Basename(v), content, w);
            if upload.result.Success? then
              Generation(Some(call), upload.requests, Asset(ImageAsset(upload.result.value, AssetExtras(prompt))))
            else
              Generation(Some(call), upload.requests, Url(Placeholder))
          else if StartsWith(v, "http") then Generation(Some(call), [], Url(v))
          else Generation(Some(call), [], Url(Placeholder))
  }

  /** With the selection unchanged since construction, a bound provider is
      always called, with the prompt form and arguments its branch needs. */
  lemma SteadySelectionCallsBoundProvider(outputDirectory: string, userId: Option<string>, sel: Selection,
                                          prompt: ImagePrompt, outcome: ProviderOutcome,
                                          fileExists: string -> bool, content: seq<bv8>, w: StorageWorld)
    requires GetImageGenFunc(sel).Some?
    ensures var service := NewImageGenerationService(outputDirectory, userId, sel);
      var g := GenerateImage(service, sel, prompt, outcome, fileExists, content, w);
      var p := GetImageGenFunc(sel).value;
      g.call == Some(ProviderCall(p, prompt, TakesOutputDirectory(p), if TakesOutputDirectory(p) then Some(outputDirectory) else None))
  {
  }

  /** A service bound to Gemini while the selection has since moved to
      Pexels calls Gemini with one argument: the `TypeError` is swallowed and
      the placeholder is served, whatever the provider would have answered. */
  lemma ChangedSelectionServesPlaceholder(prompt: ImagePrompt, fileExists: string -> bool, content: seq<bv8>,
                                          w: StorageWorld)
    ensures var service := NewImageGenerationService("/tmp", None, Selection(false, false, true, false));
      GenerateImage(service, Selection(false, true, false, false), prompt, Returned("https://images.example/a.jpg"),
                    fileExists, content, w)
        == Generation(None, [], Url(Placeholder))
  {
    var service := NewImageGenerationService("/tmp", None, Selection(false, false, true, false));
    assert ArityMismatch(service, Selection(false, true, false, false));
  }

  /** A generated file is stored under the service user's `images` folder,
      keyed by the file's base name, and the asset's path is a signed URL
      of that bucket. */
  lemma GeneratedFileIsStoredUnderUserImages(service: ImageGenerationService, current: Selection, prompt: ImagePrompt,
                                              v: string, fileExists: string -> bool, content: seq<bv8>, w: StorageWorld)
    requires GenerateImage(service, current, prompt, Returned(v), fileExists, content, w).result.Asset?
    ensures var s := Storage.NewSupabaseStorage(w.baseUrl, w.bucket, w.serviceKey);
      && s.Success?
      && var g := GenerateImage(service, current, prompt, Returned(v), fileExists, content, w);
         && |g.storageRequests| == 2
         && g.storageRequests[0].url == s.value.ObjectUrl(Storage.BuildUserKey(service.userId, "images", Basename(v)))
         && StartsWith(g.result.asset.path, s.value.SignEndpoint() + "/")
         && g.result.asset.extras["prompt"] == Some(prompt.prompt)
  {
    var g := GenerateImage(service, current, prompt, Returned(v), fileExists, content, w);
    assert service.imageGenFunc.Some? && !ArityMismatch(service, current);
    assert !IsStockProviderSelected(current);
    assert v != "" && fileExists(v);
  }

  /** A part of the Gemini response; an inline-data part carries what the
      upload of its bytes met (the random file stem and the storage world). */
  datatype Part = Text(text: string) | InlineData(data: seq<bv8>, uuid: string, storage: StorageWorld) | Empty

  function PartUpload(userId: string, p: Part): (u: Upload)
    requires p.InlineData?
    ensures u.result.Success? ==> u.result.value != ""
  {
    UploadImage(userId, p.uuid + ".jpg", p.data, p.storage)
  }

  /** Index of the last inline-data part, if any. */
  function LastInlineIndex(parts: seq<Part>): (r: Option<nat>)
    ensures r.None? <==> forall j :: 0 <= j < |parts| ==> !parts[j].InlineData?
    ensures r.Some? ==> r.value < |parts| && parts[r.value].InlineData? &&
                        forall j :: r.value < j < |parts| ==> !parts[j].InlineData?
  {
    if |parts| == 0 then None
    else if parts[|parts| - 1].InlineData? then Some(|parts| - 1)
    else LastInlineIndex(parts[..|parts| - 1])
  }

  /** Indices of the inline-data parts, in order. */
  function InlineIndices(parts: seq<Part>): seq<nat> {
    if |parts| == 0 then []
    else
      var init := InlineIndices(parts[..|parts| - 1]);
      if parts[|parts| - 1].InlineData? then init + [|parts| - 1] else init
  }

  /** The indices listed are exactly the inline-data parts, ascending. */
  lemma {:induction false} InlineIndicesAreTheInlineParts(parts: seq<Part>)
    ensures var r := InlineIndices(parts);
      && (forall k :: 0 <= k < |r| ==> r[k] < |parts| && parts[r[k]].InlineData?)
      && (forall j :: 0 <= j < |parts| && parts[j].InlineData? ==> j in r)
      && (forall a, b :: 0 <= a < b < |r| ==> r[a] < r[b])
  {
    if |parts| > 0 {
      var n := |parts|;
      var init := parts[..n - 1];
      InlineIndicesAreTheInlineParts(init);
      assert forall j :: 0 <= j < n - 1 ==> init[j] == parts[j];
    }
  }

  lemma InlineIndicesStep(parts: seq<Part>, i: nat)
    requires i < |parts|
    ensures InlineIndices(parts[..i + 1]) == InlineIndices(parts[..i]) + if parts[i].InlineData? then [i] else []
  {
    assert parts[..i + 1][..i] == parts[..i];
  }

  /** `generate_image_google` from the moment the response is in: every
      inline-data part is uploaded and signed in turn, a raise ends the
      loop, and the URL of the last inline part wins.  `candidates` are
      the parts of each response candidate; `attempted` lists the parts
      whose upload was started. */
  method GenerateImageGoogle(userId: string, candidates: seq<seq<Part>>)
    returns (r: Result<string, string>, attempted: seq<nat>)
    ensures |candidates| == 0 ==> r.Failure? && attempted == []
    ensures |candidates| > 0 ==>
      var parts := candidates[0];
      && (r.Success? <==> forall j :: 0 <= j < |parts| && parts[j].InlineData? ==> PartUpload(userId, parts[j]).result.Success?)
      && (r.Success? ==> attempted == InlineIndices(parts))
      && (r.Failure? ==> exists j :: 0 <= j < |parts| && parts[j].InlineData? &&
                                     r == PartUpload(userId, parts[j]).result &&
                                     (forall k :: 0 <= k < j && parts[k].InlineData? ==> PartUpload(userId, parts[k]).result.Success?) &&
                                     attempted == InlineIndices(parts[..j + 1]))
      && (r.Success? && LastInlineIndex(parts).None? ==> r.value == Placeholder)
      && (r.Success? && LastInlineIndex(parts).Some? ==>
            r == PartUpload(userId, parts[LastInlineIndex(parts).value]).result)
  {
    if |candidates| == 0 {
      return Failure("list index out of range"), [];
    }
    var parts := candidates[0];
    var imagePath: Option<string> := None;
    attempted := [];
    for i := 0 to |parts|
      invariant forall j :: 0 <= j < i && parts[j].InlineData? ==> PartUpload(userId, parts[j]).result.Success?
      invariant attempted == InlineIndices(parts[..i])
      invariant LastInlineIndex(parts[..i]).None? ==> imagePath.None?
      invariant LastInlineIndex(parts[..i]).Some? ==>
        var k := LastInlineIndex(parts[..i]).value;
        k < i && imagePath.Some? && Success(imagePath.value) == PartUpload(userId, parts[k]).result
    {
      assert parts[..i + 1][..i] == parts[..i];
      InlineIndicesStep(parts, i);
      match parts[i]
      case InlineData(_, _, _) =>
        attempted := attempted + [i];
        var upload := PartUpload(userId, parts[i]);
        if upload.result.Failure? {
          r := upload.result;
          assert parts[i].InlineData? && r == PartUpload(userId, parts[i]).result &&
                 attempted == InlineIndices(parts[..i + 1]);
          return;
        }
        imagePath := Some(upload.result.value);
      case _ =>
    }
    assert parts[..|parts|] == parts;
    r := Success(Or(imagePath, Some(Placeholder)).value);
  }
}
