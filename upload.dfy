/** The upload route: request validation, a single content download, and a
    fan-out of one adapter call per requested platform. Each adapter only
    checks that its platform's credentials are configured and reports a
    simulated result. */
module Upload {
  import opened Js

  datatype Status = Success | Error

  /** One per requested platform. `platform` is whatever string the request
      carried, so an unknown one can be reported back. */
  datatype UploadResult = UploadResult(platform: string, status: Status, message: string)

  /** The parsed request body; a field missing from the JSON is `None`. */
  datatype Request = Request(
    contentUrl: Option<string>,
    contentType: Option<string>,
    platforms: Option<seq<string>>,
    caption: Option<string>)

  /** What downloading `contentUrl` gives: the bytes, or the value it threw. */
  datatype Download = Fetched(content: seq<bv8>) | FetchFailed(thrown: Thrown)

  /** An external step the handler takes, in the order it takes them. */
  datatype Call = DownloadCall(url: string) | AdapterCall(platform: string)

  datatype Body = Results(results: seq<UploadResult>) | Failure(error: string)
  datatype Response = Response(status: nat, body: Body)
  datatype Handled = Handled(response: Response, calls: seq<Call>)

  /** How a call inside the `try` of `uploadToPlatform` ends. */
  datatype Outcome = Returned(result: UploadResult) | Raised(thrown: Thrown)

  const MissingFields := "Missing required fields"
  const Unsupported := "Unsupported platform"

  // ---------------------------------------------------------------------
  // The six adapters. `content`, `contentType` and `caption` are accepted
  // and, as in the source, never used.
  // ---------------------------------------------------------------------

  function UploadToTwitter(content: seq<bv8>, contentType: string, caption: Option<string>, env: Env): UploadResult {
    if !Configured(env, "TWITTER_API_KEY") || !Configured(env, "TWITTER_API_SECRET")
       || !Configured(env, "TWITTER_ACCESS_TOKEN") || !Configured(env, "TWITTER_ACCESS_SECRET")
    then UploadResult("twitter", Error, "Twitter API credentials not configured")
    else UploadResult("twitter", Success, "Demo mode - configure Twitter API credentials to enable")
  }

  function UploadToFacebook(content: seq<bv8>, contentType: string, caption: Option<string>, env: Env): UploadResult {
    if !Configured(env, "FACEBOOK_ACCESS_TOKEN") || !Configured(env, "FACEBOOK_PAGE_ID")
    then UploadResult("facebook", Error, "Facebook API credentials not configured")
    else UploadResult("facebook", Success, "Demo mode - configure Facebook API credentials to enable")
  }

  function UploadToInstagram(content: seq<bv8>, contentType: string, caption: Option<string>, env: Env): UploadResult {
    if !Configured(env, "FACEBOOK_ACCESS_TOKEN") || !Configured(env, "INSTAGRAM_ACCOUNT_ID")
    then UploadResult("instagram", Error, "Instagram API credentials not configured")
    else UploadResult("instagram", Success, "Demo mode - configure Instagram API credentials to enable")
  }

  function UploadToLinkedIn(content: seq<bv8>, contentType: string, caption: Option<string>, env: Env): UploadResult {
    if !Configured(env, "LINKEDIN_ACCESS_TOKEN") || !Configured(env, "LINKEDIN_PERSON_URN")
    then UploadResult("linkedin", Error, "LinkedIn API credentials not configured")
    else UploadResult("linkedin", Success, "Demo mode - configure LinkedIn API credentials to enable")
  }

  function UploadToTikTok(content: seq<bv8>, contentType: string, caption: Option<string>, env: Env): UploadResult {
    if !Configured(env, "TIKTOK_ACCESS_TOKEN")
    then UploadResult("tiktok", Error, "TikTok API credentials not configured")
    else UploadResult("tiktok", Success, "Demo mode - configure TikTok API credentials to enable")
  }

  function UploadToYouTube(content: seq<bv8>, contentType: string, caption: Option<string>, env: Env): UploadResult {
    if !Configured(env, "YOUTUBE_API_KEY") || !Configured(env, "YOUTUBE_CLIENT_ID")
       || !Configured(env, "YOUTUBE_CLIENT_SECRET") || !Configured(env, "YOUTUBE_REFRESH_TOKEN")
    then UploadResult("youtube", Error, "YouTube API credentials not configured")
    else UploadResult("youtube", Success, "Demo mode - configure YouTube API credentials to enable")
  }

  // ---------------------------------------------------------------------
  // Dispatch: the `switch` inside the `try`, then the `catch`.
  // ---------------------------------------------------------------------

  function Dispatch(platform: string, content: seq<bv8>, contentType: string, caption: Option<string>, env: Env): Outcome {
    if platform == "twitter" then Returned(UploadToTwitter(content, contentType, caption, env))
    else if platform == "facebook" then Returned(UploadToFacebook(content, contentType, caption, env))
    else if platform == "instagram" then Returned(UploadToInstagram(content, contentType, caption, env))
    else if platform == "linkedin" then Returned(UploadToLinkedIn(content, contentType, caption, env))
    else if platform == "tiktok" then Returned(UploadToTikTok(content, contentType, caption, env))
    else if platform == "youtube" then Returned(UploadToYouTube(content, contentType, caption, env))
    else Returned(UploadResult(platform, Error, Unsupported))
  }

  /** The `catch` of `uploadToPlatform`: a raised value becomes an error
      result for the platform being uploaded to. */
  function Contain(platform: string, o: Outcome): UploadResult {
    match o
    case Returned(r) => r
    case Raised(t) => UploadResult(platform, Error, MessageOf(t, "Upload failed"))
  }

  predicate Supported(platform: string) {
    platform in {"twitter", "facebook", "instagram", "linkedin", "tiktok", "youtube"}
  }

  function UploadToPlatform(platform: string, content: seq<bv8>, contentType: string, caption: Option<string>, env: Env): (r: UploadResult)
    ensures r.platform == platform
    ensures r.status == Success ==> Supported(platform)
  {
    Contain(platform, Dispatch(platform, content, contentType, caption, env))
  }

  /** What the fan-out produces: the results, and the adapter calls it made
      to get them. */
  datatype FanOut = FanOut(results: seq<UploadResult>, calls: seq<Call>)

  /** `platforms.map(...)` joined by `Promise.all`: one result per platform,
      in request order, each obtained by one adapter call. The adapters share
      no state, so running them one after another gives the same list. */
  function UploadEach(platforms: seq<string>, content: seq<bv8>, contentType: string, caption: Option<string>, env: Env): (r: FanOut)
    ensures |r.results| == |platforms| && |r.calls| == |platforms|
    ensures forall i :: 0 <= i < |platforms| ==>
      r.results[i] == UploadToPlatform(platforms[i], content, contentType, caption, env)
      && r.calls[i] == AdapterCall(platforms[i])
  {
    if platforms == [] then FanOut([], [])
    else
      var rest := UploadEach(platforms[1..], content, contentType, caption, env);
      FanOut([UploadToPlatform(platforms[0], content, contentType, caption, env)] + rest.results,
             [AdapterCall(platforms[0])] + rest.calls)
  }

  /** One adapter call per platform, in order: the trace the fan-out is
      expected to leave. */
  function AdapterCalls(platforms: seq<string>): seq<Call> {
    seq(|platforms|, i requires 0 <= i < |platforms| => AdapterCall(platforms[i]))
  }

  /** `!contentUrl || !contentType || !platforms || platforms.length === 0` */
  predicate Invalid(req: Request) {
    !Truthy(req.contentUrl) || !Truthy(req.contentType) || req.platforms.None? || |req.platforms.value| == 0
  }

  /** The POST handler. `download` is what fetching `contentUrl` would give. */
  function Post(req: Request, env: Env, download: Download): Handled {
    if Invalid(req) then
      Handled(Response(400, Failure(MissingFields)), [])
    else
      var url := req.contentUrl.value;
      match download
      case FetchFailed(t) =>
        Handled(Response(500, Failure(MessageOf(t, "Upload failed"))), [DownloadCall(url)])
      case Fetched(content) =>
        var fanned := UploadEach(req.platforms.value, content, req.contentType.value, req.caption, env);
        Handled(Response(200, Results(fanned.results)), [DownloadCall(url)] + fanned.calls)
  }

  // ---------------------------------------------------------------------
  // The credential schema: a table of which configuration keys each
  // platform needs, and the message each adapter reports.
  // ---------------------------------------------------------------------

  function RequiredCredentials(platform: string): seq<string> {
    match platform
    case "twitter" => ["TWITTER_API_KEY", "TWITTER_API_SECRET", "TWITTER_ACCESS_TOKEN", "TWITTER_ACCESS_SECRET"]
    case "facebook" => ["FACEBOOK_ACCESS_TOKEN", "FACEBOOK_PAGE_ID"]
    case "instagram" => ["FACEBOOK_ACCESS_TOKEN", "INSTAGRAM_ACCOUNT_ID"]
    case "linkedin" => ["LINKEDIN_ACCESS_TOKEN", "LINKEDIN_PERSON_URN"]
    case "tiktok" => ["TIKTOK_ACCESS_TOKEN"]
    case "youtube" => ["YOUTUBE_API_KEY", "YOUTUBE_CLIENT_ID", "YOUTUBE_CLIENT_SECRET", "YOUTUBE_REFRESH_TOKEN"]
    case _ => []
  }

  /** Every key of `keys` is configured. */
  predicate AllConfigured(env: Env, keys: seq<string>) {
    keys == [] || (Configured(env, keys[0]) && AllConfigured(env, keys[1..]))
  }

  /** The message a platform's adapter reports on success. */
  function DemoMessage(platform: string): string {
    match platform
    case "twitter" => "Demo mode - configure Twitter API credentials to enable"
    case "facebook" => "Demo mode - configure Facebook API credentials to enable"
    case "instagram" => "Demo mode - configure Instagram API credentials to enable"
    case "linkedin" => "Demo mode - configure LinkedIn API credentials to enable"
    case "tiktok" => "Demo mode - configure TikTok API credentials to enable"
    case "youtube" => "Demo mode - configure YouTube API credentials to enable"
    case _ => Unsupported
  }

  /** The message a platform's adapter reports when a credential is missing. */
  function NotConfiguredMessage(platform: string): string {
    match platform
    case "twitter" => "Twitter API credentials not configured"
    case "facebook" => "Facebook API credentials not configured"
    case "instagram" => "Instagram API credentials not configured"
    case "linkedin" => "LinkedIn API credentials not configured"
    case "tiktok" => "TikTok API credentials not configured"
    case "youtube" => "YouTube API credentials not configured"
    case _ => Unsupported
  }

  /** What the credential table says the upload to `platform` reports. */
  function Expected(platform: string, env: Env): UploadResult {
    if !Supported(platform) then
      UploadResult(platform, Error, Unsupported)
    else if AllConfigured(env, RequiredCredentials(platform)) then
      UploadResult(platform, Success, DemoMessage(platform))
    else
      UploadResult(platform, Error, NotConfiguredMessage(platform))
  }

  // ---------------------------------------------------------------------
  // Properties.
  // ---------------------------------------------------------------------

  /** Every platform's outcome is decided by its row of the credential
      table alone: success with the demo message exactly when every listed
      key is configured, the not-configured error otherwise, and an
      "Unsupported platform" error for a string outside the table. */
  lemma CredentialSchema(platform: string, content: seq<bv8>, contentType: string, caption: Option<string>, env: Env)
    ensures UploadToPlatform(platform, content, contentType, caption, env) == Expected(platform, env)
  {
    if platform == "twitter" {
      SchemaTwitter(content, contentType, caption, env);
    } else if platform == "facebook" {
      SchemaFacebook(content, contentType, caption, env);
    } else if platform == "instagram" {
      SchemaInstagram(content, contentType, caption, env);
    } else if platform == "linkedin" {
      SchemaLinkedIn(content, contentType, caption, env);
    } else if platform == "tiktok" {
      SchemaTikTok(content, contentType, caption, env);
    } else if platform == "youtube" {
      SchemaYouTube(content, contentType, caption, env);
    }
  }

  lemma SchemaTwitter(content: seq<bv8>, contentType: string, caption: Option<string>, env: Env)
    ensures UploadToPlatform("twitter", content, contentType, caption, env) == Expected("twitter", env)
  {
    AllConfiguredOf4(env, RequiredCredentials("twitter"));
  }

  lemma SchemaFacebook(content: seq<bv8>, contentType: string, caption: Option<string>, env: Env)
    ensures UploadToPlatform("facebook", content, contentType, caption, env) == Expected("facebook", env)
  {
    AllConfiguredOf2(env, RequiredCredentials("facebook"));
  }

  lemma SchemaInstagram(content: seq<bv8>, contentType: string, caption: Option<string>, env: Env)
    ensures UploadToPlatform("instagram", content, contentType, caption, env) == Expected("instagram", env)
  {
    AllConfiguredOf2(env, RequiredCredentials("instagram"));
  }

  lemma SchemaLinkedIn(content: seq<bv8>, contentType: string, caption: Option<string>, env: Env)
    ensures UploadToPlatform("linkedin", content, contentType, caption, env) == Expected("linkedin", env)
  {
    AllConfiguredOf2(env, RequiredCredentials("linkedin"));
  }

  lemma SchemaTikTok(content: seq<bv8>, contentType: string, caption: Option<string>, env: Env)
    ensures UploadToPlatform("tiktok", content, contentType, caption, env) == Expected("tiktok", env)
  {
    AllConfiguredOf1(env, RequiredCredentials("tiktok"));
  }

  lemma SchemaYouTube(content: seq<bv8>, contentType: string, caption: Option<string>, env: Env)
    ensures UploadToPlatform("youtube", content, contentType, caption, env) == Expected("youtube", env)
  {
    AllConfiguredOf4(env, RequiredCredentials("youtube"));
  }

  lemma AllConfiguredOf1(env: Env, keys: seq<string>)
    requires |keys| == 1
    ensures AllConfigured(env, keys) <==> Configured(env, keys[0])
  {
    assert keys[1..] == [];
  }

  lemma AllConfiguredOf2(env: Env, keys: seq<string>)
    requires |keys| == 2
    ensures AllConfigured(env, keys) <==> Configured(env, keys[0]) && Configured(env, keys[1])
  {
    AllConfiguredOf1(env, keys[1..]);
  }

  lemma AllConfiguredOf3(env: Env, keys: seq<string>)
    requires |keys| == 3
    ensures AllConfigured(env, keys) <==> Configured(env, keys[0]) && Configured(env, keys[1]) && Configured(env, keys[2])
  {
    AllConfiguredOf2(env, keys[1..]);
  }

  lemma AllConfiguredOf4(env: Env, keys: seq<string>)
    requires |keys| == 4
    ensures AllConfigured(env, keys) <==> Configured(env, keys[0]) && Configured(env, keys[1]) && Configured(env, keys[2]) && Configured(env, keys[3])
  {
    AllConfiguredOf3(env, keys[1..]);
  }

  /** An unknown platform string is reported, not rejected. */
  lemma UnsupportedPlatform(platform: string, content: seq<bv8>, contentType: string, caption: Option<string>, env: Env)
    requires !Supported(platform)
    ensures UploadToPlatform(platform, content, contentType, caption, env) == UploadResult(platform, Error, Unsupported)
  {
  }

  /** The `catch` never lets a failure escape: a raised value turns into an
      error result for the same platform, with the value's message. */
  lemma RaisedBecomesError(platform: string, t: Thrown)
    ensures Contain(platform, Raised(t)).platform == platform
    ensures Contain(platform, Raised(t)).status == Error
    ensures t.ErrorObject? ==> Contain(platform, Raised(t)).message == t.message
  {
  }

  /** As written, no adapter raises: every dispatch returns a result. */
  lemma DispatchReturns(platform: string, content: seq<bv8>, contentType: string, caption: Option<string>, env: Env)
    ensures Dispatch(platform, content, contentType, caption, env).Returned?
  {
  }

  /** An adapter's result depends on the configuration only. */
  lemma AdapterIgnoresContent(platform: string, c1: seq<bv8>, t1: string, cap1: Option<string>,
                              c2: seq<bv8>, t2: string, cap2: Option<string>, env: Env)
    ensures UploadToPlatform(platform, c1, t1, cap1, env) == UploadToPlatform(platform, c2, t2, cap2, env)
  {
  }

  /** Instagram posts with Facebook's token, so it cannot succeed while that
      token is missing, even if Facebook's page id is set. */
  lemma InstagramNeedsFacebookToken(content: seq<bv8>, contentType: string, caption: Option<string>, env: Env)
    requires !Configured(env, "FACEBOOK_ACCESS_TOKEN")
    ensures UploadToPlatform("instagram", content, contentType, caption, env).status == Error
    ensures UploadToPlatform("facebook", content, contentType, caption, env).status == Error
  {
  }

  /** The fan-out distributes over concatenation of the platform list. */
  lemma UploadEachAppend(a: seq<string>, b: seq<string>, content: seq<bv8>, contentType: string, caption: Option<string>, env: Env)
    ensures UploadEach(a + b, content, contentType, caption, env).results
            == UploadEach(a, content, contentType, caption, env).results + UploadEach(b, content, contentType, caption, env).results
    ensures UploadEach(a + b, content, contentType, caption, env).calls
            == UploadEach(a, content, contentType, caption, env).calls + UploadEach(b, content, contentType, caption, env).calls
  {
  }

  /** Isolation: changing the platform at one position changes the result
      at that position only. */
  lemma ReplacingOnePlatform(platforms: seq<string>, i: nat, other: string, content: seq<bv8>, contentType: string, caption: Option<string>, env: Env)
    requires i < |platforms|
    ensures forall j :: 0 <= j < |platforms| && j != i ==>
      UploadEach(platforms[i := other], content, contentType, caption, env).results[j]
      == UploadEach(platforms, content, contentType, caption, env).results[j]
  {
  }

  /** A missing field, or an empty platform list, is answered with 400 and
      nothing is downloaded or uploaded; no other outcome is a 400. */
  lemma MissingFieldsRejected(req: Request, env: Env, download: Download)
    ensures Invalid(req) ==> Post(req, env, download) == Handled(Response(400, Failure(MissingFields)), [])
    ensures Post(req, env, download).response.status == 400 <==> Invalid(req)
  {
  }

  /** A valid request downloads exactly once, first, and every later step
      is an adapter call. */
  lemma DownloadOnceFirst(req: Request, env: Env, download: Download)
    requires !Invalid(req)
    ensures var calls := Post(req, env, download).calls;
      |calls| >= 1 && calls[0] == DownloadCall(req.contentUrl.value)
      && forall i :: 1 <= i < |calls| ==> calls[i].AdapterCall?
  {
  }

  /** A failed download aborts with 500 and its message before any adapter
      runs. */
  lemma DownloadFailureAborts(req: Request, env: Env, t: Thrown)
    requires !Invalid(req)
    ensures Post(req, env, FetchFailed(t))
            == Handled(Response(500, Failure(MessageOf(t, "Upload failed"))), [DownloadCall(req.contentUrl.value)])
  {
  }

  /** After a successful download the response lists one result per
      requested platform, positionally, duplicates included; each adapter
      is called once per occurrence, in request order. */
  lemma ResultsArePositional(req: Request, env: Env, content: seq<bv8>)
    requires !Invalid(req)
    ensures var h := Post(req, env, Fetched(content));
      var ps := req.platforms.value;
      h.response.status == 200 && h.response.body.Results?
      && |h.response.body.results| == |ps|
      && (forall i :: 0 <= i < |ps| ==>
            h.response.body.results[i].platform == ps[i]
            && h.response.body.results[i] == UploadToPlatform(ps[i], content, req.contentType.value, req.caption, env))
      && h.calls[1..] == AdapterCalls(ps)
  {
  }
}
