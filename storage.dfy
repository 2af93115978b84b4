/** The Supabase object-storage adapter of the Python backend: the
    configuration check of the constructor, the request headers, the
    upload / sign / delete requests with their status rules, and the
    per-user key layout.  The HTTP exchange itself is foreign: each
    operation takes the storage service's answer as a parameter and
    returns the request it issues together with its result. */
module Storage {
  import opened Wrappers
  import opened Js

  const NotConfigured := "Supabase storage is not configured properly"
  const InvalidSignResponse := "Supabase sign returned invalid response"

  /** Status codes each operation accepts as success. */
  const SaveAccepted: set<int> := {200, 201}
  const SignAccepted: set<int> := {200}
  const DeleteAccepted: set<int> := {200, 204}

  datatype Verb = PUT | POST | DELETE

  datatype Payload =
    | NoBody
    | Bytes(content: seq<bv8>)
    | SignJson(expiresIn: int, paths: seq<string>)

  datatype HttpRequest = HttpRequest(verb: Verb, url: string, headers: map<string, string>, body: Payload)

  /** What the storage service answered: the status and the body text. */
  datatype HttpResponse = HttpResponse(status: int, text: string)

  /** One entry of the JSON list the signing endpoint returns; either
      spelling of the field may be absent. */
  datatype SignEntry = SignEntry(signedURL: Option<string>, signedUrl: Option<string>)

  datatype SignResponse = SignResponse(status: int, text: string, data: seq<SignEntry>)

  /** A request issued and the operation's result (Failure carries the
      message of the RuntimeError raised). */
  datatype Exchange<T> = Exchange(request: HttpRequest, result: Result<T, string>)

  /** The adapter's three fields are written only by its constructor,
      so an adapter is a value. */
  datatype SupabaseStorage = SupabaseStorage(baseUrl: string, bucket: string, serviceKey: string) {

    predicate Configured() {
      baseUrl != "" && bucket != "" && serviceKey != ""
    }

    function ObjectUrl(key: string): string {
      baseUrl + "/storage/v1/object/" + bucket + "/" + key
    }

    function SignEndpoint(): string {
      baseUrl + "/storage/v1/object/sign/" + bucket
    }

    function SignedUrlFor(signed: string): string {
      SignEndpoint() + "/" + signed
    }

    /** `_headers`: the service key as bearer token and as `apikey`, and a
        `Content-Type` only when one is given. */
    function Headers(contentType: Option<string>): (h: map<string, string>)
      ensures "Authorization" in h && h["Authorization"] == "Bearer " + serviceKey
      ensures "apikey" in h && h["apikey"] == serviceKey
      ensures "Content-Type" in h <==> Truthy(contentType)
      ensures "Content-Type" in h ==> h["Content-Type"] == contentType.value
      ensures h.Keys <= {"Authorization", "apikey", "Content-Type"}
    {
      var headers := map["Authorization" := "Bearer " + serviceKey, "apikey" := serviceKey];
      if Truthy(contentType) then headers["Content-Type" := contentType.value] else headers
    }

    /** `save`: PUT the bytes at the object URL; 200 and 201 are success
        and the key comes back unchanged. */
    function Save(key: string, content: seq<bv8>, contentType: Option<string>, resp: HttpResponse): (x: Exchange<string>)
      ensures x.request.verb == PUT && x.request.url == ObjectUrl(key)
      ensures x.request.headers == Headers(contentType) && x.request.body == Bytes(content)
      ensures x.result.Success? <==> resp.status in SaveAccepted
      ensures x.result.Success? ==> x.result.value == key
      ensures x.result.Failure? ==>
        x.result.error == "Supabase upload failed (" + IntToString(resp.status) + "): " + resp.text
    {
      var request := HttpRequest(PUT, ObjectUrl(key), Headers(contentType), Bytes(content));
      if resp.status !in SaveAccepted then
        Exchange(request, Failure("Supabase upload failed (" + IntToString(resp.status) + "): " + resp.text))
      else
        Exchange(request, Success(key))
    }

    /** `get_signed_url`: POST `{expiresIn, paths: [key]}` to the sign
        endpoint; only 200 is accepted, the first entry must carry a
        truthy `signedURL` or `signedUrl`, and `signedURL` wins. */
    function GetSignedUrl(key: string, expiresIn: int, resp: SignResponse): (x: Exchange<string>)
      ensures x.request == HttpRequest(POST, SignEndpoint(), Headers(None), SignJson(expiresIn, [key]))
      ensures x.result.Success? <==>
        resp.status in SignAccepted && |resp.data| > 0 &&
        (Truthy(resp.data[0].signedURL) || Truthy(resp.data[0].signedUrl))
      ensures resp.status != 200 ==>
        x.result == Failure("Supabase sign failed (" + IntToString(resp.status) + "): " + resp.text)
      ensures resp.status == 200 && !x.result.Success? ==> x.result == Failure(InvalidSignResponse)
      ensures x.result.Success? && Truthy(resp.data[0].signedURL) ==>
        x.result.value == SignedUrlFor(resp.data[0].signedURL.value)
      ensures x.result.Success? && !Truthy(resp.data[0].signedURL) ==>
        x.result.value == SignedUrlFor(resp.data[0].signedUrl.value)
    {
      var request := HttpRequest(POST, SignEndpoint(), Headers(None), SignJson(expiresIn, [key]));
      if resp.status != 200 then
        Exchange(request, Failure("Supabase sign failed (" + IntToString(resp.status) + "): " + resp.text))
      else if |resp.data| == 0 || (!Truthy(resp.data[0].signedURL) && !Truthy(resp.data[0].signedUrl)) then
        Exchange(request, Failure(InvalidSignResponse))
      else
        var signed := Or(resp.data[0].signedURL, resp.data[0].signedUrl);
        Exchange(request, Success(SignedUrlFor(signed.value)))
    }

    /** `delete`: DELETE the object URL; 200 and 204 are success. */
    function Delete(key: string, resp: HttpResponse): (x: Exchange<()>)
      ensures x.request == HttpRequest(DELETE, ObjectUrl(key), Headers(None), NoBody)
      ensures x.result.Success? <==> resp.status in DeleteAccepted
      ensures x.result.Failure? ==>
        x.result.error == "Supabase delete failed (" + IntToString(resp.status) + "): " + resp.text
    {
      var request := HttpRequest(DELETE, ObjectUrl(key), Headers(None), NoBody);
      if resp.status !in DeleteAccepted then
        Exchange(request, Failure("Supabase delete failed (" + IntToString(resp.status) + "): " + resp.text))
      else
        Exchange(request, Success(()))
    }
  }

  /** The constructor: raises unless the URL, the bucket and the service
      key read from the environment are all truthy. */
  function NewSupabaseStorage(baseUrl: Option<string>, bucket: Option<string>, serviceKey: Option<string>)
    : (r: Result<SupabaseStorage, string>)
    ensures r.Success? <==> Truthy(baseUrl) && Truthy(bucket) && Truthy(serviceKey)
    ensures r.Success? ==> r.value.Configured()
    ensures r.Success? ==>
      r.value == SupabaseStorage(baseUrl.value, bucket.value, serviceKey.value)
    ensures r.Failure? ==> r.error == NotConfigured
  {
    if !Truthy(baseUrl) || !Truthy(bucket) || !Truthy(serviceKey) then Failure(NotConfigured)
    else Success(SupabaseStorage(baseUrl.value, bucket.value, serviceKey.value))
  }

  /** `build_user_key`: the per-user namespace `users/<user>/<kind>/<file>`. */
  function BuildUserKey(userId: string, kind: string, filename: string): (r: string)
    // the key lies in the user's folder and ends with the file's name
    ensures StartsWith(r, "users/" + userId + "/")
    ensures |r| == |userId| + |kind| + |filename| + 8 && r[|r| - |filename|..] == filename
  {
    "users/" + userId + "/" + kind + "/" + filename
  }

  /** The text before and after the first '/', if there is one. */
  function SplitAtSlash(s: string): (r: Option<(string, string)>)
    ensures r.None? <==> '/' !in s
    ensures r.Some? ==> '/' !in r.value.0 && s == r.value.0 + "/" + r.value.1
  {
    match IndexOf(s, '/')
    case None => None
    case Some(i) =>
      assert s == s[..i] + "/" + s[i + 1..];
      Some((s[..i], s[i + 1..]))
  }

  /** Splitting `a + "/" + b` at its first '/' gives `a` and `b` back. */
  lemma SplitAtSlashOfJoin(a: string, b: string)
    requires '/' !in a
    ensures SplitAtSlash(a + "/" + b) == Some((a, b))
  {
    var s := a + "/" + b;
    IndexOfAfterPrefix(a, '/', b);
    assert s[..|a|] == a;
    assert s[|a| + 1..] == b;
  }

  /** The built key, with its concatenations grouped from the right. */
  lemma UserKeyShape(userId: string, kind: string, filename: string)
    ensures BuildUserKey(userId, kind, filename) == "users/" + (userId + "/" + (kind + "/" + filename))
  {
  }

  /** Inverse of BuildUserKey, for keys whose user and kind hold no '/'. */
  function ParseUserKey(key: string): (r: Option<(string, string, string)>)
    ensures r.Some? ==> '/' !in r.value.0 && '/' !in r.value.1
    ensures r.Some? ==> key == BuildUserKey(r.value.0, r.value.1, r.value.2)
  {
    if !StartsWith(key, "users/") then None
    else
      var rest := key[6..];
      assert key == key[..6] + rest;
      match SplitAtSlash(rest)
      case None => None
      case Some((user, tail)) =>
        match SplitAtSlash(tail)
        case None => None
        case Some((kind, filename)) =>
          assert rest == user + "/" + (kind + "/" + filename);
          UserKeyShape(user, kind, filename);
          Some((user, kind, filename))
  }

  /** Parsing a built key gives back its three parts. */
  lemma ParseBuildUserKey(userId: string, kind: string, filename: string)
    requires '/' !in userId && '/' !in kind
    ensures ParseUserKey(BuildUserKey(userId, kind, filename)) == Some((userId, kind, filename))
  {
    var tail := kind + "/" + filename;
    var rest := userId + "/" + tail;
    var key := BuildUserKey(userId, kind, filename);
    UserKeyShape(userId, kind, filename);
    assert key[..6] == "users/" && key[6..] == rest;
    SplitAtSlashOfJoin(userId, tail);
    SplitAtSlashOfJoin(kind, filename);
  }

  /** Keys of two different users never collide (user ids without '/'). */
  lemma UserKeysAreDisjoint(u1: string, k1: string, f1: string, u2: string, k2: string, f2: string)
    requires '/' !in u1 && '/' !in k1 && '/' !in u2 && '/' !in k2
    requires BuildUserKey(u1, k1, f1) == BuildUserKey(u2, k2, f2)
    ensures u1 == u2 && k1 == k2 && f1 == f2
  {
    ParseBuildUserKey(u1, k1, f1);
    ParseBuildUserKey(u2, k2, f2);
  }

  /** Different keys address different objects of one bucket. */
  lemma ObjectUrlInjective(s: SupabaseStorage, k1: string, k2: string)
    requires s.ObjectUrl(k1) == s.ObjectUrl(k2)
    ensures k1 == k2
  {
    var prefix := s.baseUrl + "/storage/v1/object/" + s.bucket + "/";
    assert s.ObjectUrl(k1) == prefix + k1;
    assert s.ObjectUrl(k2) == prefix + k2;
    assert k1 == (prefix + k1)[|prefix|..];
    assert k2 == (prefix + k2)[|prefix|..];
  }

  /** With both spellings present, the upper-case `signedURL` is used. */
  lemma SignPrefersUpperCase(s: SupabaseStorage, key: string, expiresIn: int, upper: string, lower: string, rest: seq<SignEntry>)
    requires upper != "" && lower != ""
    ensures s.GetSignedUrl(key, expiresIn, SignResponse(200, "", [SignEntry(Some(upper), Some(lower))] + rest)).result
         == Success(s.SignedUrlFor(upper))
  {
  }
}
