/** The generation route: validate the prompt and content type, then either
    ask the image service for one image, or ask it for a seed frame and
    hand that frame to the video service. The services' answers are inputs;
    the handler's own decisions (which check runs first, which message wins,
    which service is called with what) are modelled exactly. */
module Generate {
  import opened Js

  /** A call to an external service, recorded in the order it is made. */
  datatype Call = ImageCall(prompt: string) | VideoCall(inputImage: string)

  datatype Body = Media(url: string, kind: string) | Failure(error: string)
  datatype Response = Response(status: nat, body: Body)
  datatype Handled = Handled(response: Response, calls: seq<Call>)

  /** What the services answer for this request: the first image URL in
      the image service's reply, and the video service's output. Each is
      consulted only if the handler gets as far as calling that service. */
  datatype Services = Services(imageUrl: Option<string>, videoOutput: Option<string>)

  /** How an async helper ends: it returns a value or throws an `Error`. */
  datatype Flow<T> = Return(value: T) | Throw(message: string)
  datatype Step<T> = Step(flow: Flow<T>, calls: seq<Call>)

  const RequiredMessage := "Prompt and type are required"
  const InvalidType := "Invalid content type"
  const OpenAINotConfigured := "OpenAI API key not configured. Please set OPENAI_API_KEY in environment variables."
  const ReplicateNotConfigured := "Replicate API token not configured. Please set REPLICATE_API_TOKEN in environment variables."
  const ImageFailed := "Failed to generate image"
  const OpenAIRequiredForVideo := "OpenAI API key required for video generation"
  const SeedFailed := "Failed to generate seed image for video"
  const VideoFailed := "Failed to generate video"
  const SeedPrefix := "A single frame suitable for video generation: "

  function SeedPrompt(prompt: string): string {
    SeedPrefix + prompt
  }

  function GenerateImage(prompt: string, env: Env, svc: Services): Step<Response> {
    if !Configured(env, "OPENAI_API_KEY") then
      Step(Return(Response(500, Failure(OpenAINotConfigured))), [])
    else if !Truthy(svc.imageUrl) then
      Step(Throw(ImageFailed), [ImageCall(prompt)])
    else
      Step(Return(Response(200, Media(svc.imageUrl.value, "image"))), [ImageCall(prompt)])
  }

  function GenerateImageForVideo(prompt: string, env: Env, svc: Services): Step<string> {
    if !Configured(env, "OPENAI_API_KEY") then
      Step(Throw(OpenAIRequiredForVideo), [])
    else if !Truthy(svc.imageUrl) then
      Step(Throw(SeedFailed), [ImageCall(SeedPrompt(prompt))])
    else
      Step(Return(svc.imageUrl.value), [ImageCall(SeedPrompt(prompt))])
  }

  /** The seed frame is awaited while the video call's input is being
      built, so a failure there means the video service is never called. */
  function GenerateVideo(prompt: string, env: Env, svc: Services): Step<Response> {
    if !Configured(env, "REPLICATE_API_TOKEN") then
      Step(Return(Response(500, Failure(ReplicateNotConfigured))), [])
    else
      var seed := GenerateImageForVideo(prompt, env, svc);
      match seed.flow
      case Throw(m) => Step(Throw(m), seed.calls)
      case Return(image) =>
        var calls := seed.calls + [VideoCall(image)];
        if !Truthy(svc.videoOutput) then Step(Throw(VideoFailed), calls)
        else Step(Return(Response(200, Media(svc.videoOutput.value, "video"))), calls)
  }

  /** The POST handler; a thrown `Error` becomes a 500 carrying its message. */
  function Post(prompt: Option<string>, kind: Option<string>, env: Env, svc: Services): Handled {
    if !Truthy(prompt) || !Truthy(kind) then
      Handled(Response(400, Failure(RequiredMessage)), [])
    else
      var step :=
        if kind.value == "image" then GenerateImage(prompt.value, env, svc)
        else if kind.value == "video" then GenerateVideo(prompt.value, env, svc)
        else Step(Return(Response(400, Failure(InvalidType))), []);
      match step.flow
      case Return(r) => Handled(r, step.calls)
      case Throw(m) => Handled(Response(500, Failure(m)), step.calls)
  }

  // ---------------------------------------------------------------------
  // A reference statement of error precedence: the checks in the order the
  // handler makes them. The answer is the first one that fails.
  // ---------------------------------------------------------------------

  datatype Check = Check(fails: bool, status: nat, message: string)

  function Checks(prompt: Option<string>, kind: Option<string>, env: Env, svc: Services): seq<Check> {
    [ Check(!Truthy(prompt) || !Truthy(kind), 400, RequiredMessage),
      Check(kind != Some("image") && kind != Some("video"), 400, InvalidType) ]
    + if kind == Some("video") then
        [ Check(!Configured(env, "REPLICATE_API_TOKEN"), 500, ReplicateNotConfigured),
          Check(!Configured(env, "OPENAI_API_KEY"), 500, OpenAIRequiredForVideo),
          Check(!Truthy(svc.imageUrl), 500, SeedFailed),
          Check(!Truthy(svc.videoOutput), 500, VideoFailed) ]
      else
        [ Check(!Configured(env, "OPENAI_API_KEY"), 500, OpenAINotConfigured),
          Check(!Truthy(svc.imageUrl), 500, ImageFailed) ]
  }

  function FirstFailure(checks: seq<Check>): Option<Check> {
    if checks == [] then None
    else if checks[0].fails then Some(checks[0])
    else FirstFailure(checks[1..])
  }

  /** The service calls a request makes when every step succeeds. */
  function Pipeline(prompt: string, kind: string, svc: Services): seq<Call> {
    if kind == "video" then
      [ImageCall(SeedPrompt(prompt))] + (if Truthy(svc.imageUrl) then [VideoCall(svc.imageUrl.value)] else [])
    else [ImageCall(prompt)]
  }

  /** The answer of the last service the pipeline for `kind` calls. */
  function Delivered(kind: string, svc: Services): Option<string> {
    if kind == "video" then svc.videoOutput else svc.imageUrl
  }

  // ---------------------------------------------------------------------
  // Properties.
  // ---------------------------------------------------------------------

  /** The answer is the first failing check's status and message, or 200
      with the last service's URL when none fails. */
  lemma ErrorPrecedence(prompt: Option<string>, kind: Option<string>, env: Env, svc: Services)
    ensures var first := FirstFailure(Checks(prompt, kind, env, svc));
      var r := Post(prompt, kind, env, svc).response;
      match first
      case Some(c) => r == Response(c.status, Failure(c.message))
      case None =>
        kind.Some? && Truthy(Delivered(kind.value, svc))
        && r == Response(200, Media(Delivered(kind.value, svc).value, kind.value))
  {
    var cs := Checks(prompt, kind, env, svc);
    if !cs[0].fails && !cs[1].fails {
      var rest := cs[2..];
      assert FirstFailure(cs) == FirstFailure(rest) by {
        assert cs[1..][1..] == rest;
      }
      var r1 := rest[1..];
      assert FirstFailure(rest) == if rest[0].fails then Some(rest[0]) else FirstFailure(r1);
      var r2 := r1[1..];
      assert FirstFailure(r1) == if r1[0].fails then Some(r1[0]) else FirstFailure(r2);
      if kind == Some("video") {
        var r3 := r2[1..];
        assert FirstFailure(r2) == if r2[0].fails then Some(r2[0]) else FirstFailure(r3);
        var r4 := r3[1..];
        assert FirstFailure(r3) == if r3[0].fails then Some(r3[0]) else FirstFailure(r4);
        assert r4 == [];
      } else {
        assert r2 == [];
      }
    }
  }

  /** A missing or empty prompt or type is answered with 400 before
      anything else happens, and only in that case. */
  lemma RequiredFieldsFirst(prompt: Option<string>, kind: Option<string>, env: Env, svc: Services)
    ensures (!Truthy(prompt) || !Truthy(kind))
            <==> Post(prompt, kind, env, svc).response.body == Failure(RequiredMessage)
    ensures !Truthy(prompt) || !Truthy(kind) ==> Post(prompt, kind, env, svc).calls == []
  {
  }

  /** The server does not trim: any non-empty prompt, whitespace only
      included, passes the required-fields check. */
  lemma UntrimmedPromptPasses(prompt: string, kind: Option<string>, env: Env, svc: Services)
    requires prompt != "" && Truthy(kind)
    ensures Post(Some(prompt), kind, env, svc).response.body != Failure(RequiredMessage)
  {
  }

  /** A type other than "image" or "video" is a 400 with no service call. */
  lemma InvalidKindRejected(prompt: Option<string>, kind: string, env: Env, svc: Services)
    requires Truthy(prompt) && kind != "" && kind != "image" && kind != "video"
    ensures Post(prompt, Some(kind), env, svc) == Handled(Response(400, Failure(InvalidType)), [])
  {
  }

  /** The image path: a missing key stops before the service is called; an
      answer without a URL is a 500; otherwise the URL comes back as an
      image. */
  lemma ImagePath(prompt: string, env: Env, svc: Services)
    requires prompt != ""
    ensures var h := Post(Some(prompt), Some("image"), env, svc);
      if !Configured(env, "OPENAI_API_KEY") then
        h == Handled(Response(500, Failure(OpenAINotConfigured)), [])
      else if !Truthy(svc.imageUrl) then
        h == Handled(Response(500, Failure(ImageFailed)), [ImageCall(prompt)])
      else
        h == Handled(Response(200, Media(svc.imageUrl.value, "image")), [ImageCall(prompt)])
  {
  }

  /** For a video the Replicate token is checked first: without it the
      answer is its 500 whether or not the OpenAI key is set, and no
      service is called. */
  lemma ReplicateTokenCheckedFirst(prompt: string, env: Env, svc: Services)
    requires prompt != "" && !Configured(env, "REPLICATE_API_TOKEN")
    ensures Post(Some(prompt), Some("video"), env, svc)
            == Handled(Response(500, Failure(ReplicateNotConfigured)), [])
  {
  }

  /** With the token but without the OpenAI key, the seed step throws
      before any service is called. */
  lemma VideoNeedsOpenAIKey(prompt: string, env: Env, svc: Services)
    requires prompt != "" && Configured(env, "REPLICATE_API_TOKEN") && !Configured(env, "OPENAI_API_KEY")
    ensures Post(Some(prompt), Some("video"), env, svc)
            == Handled(Response(500, Failure(OpenAIRequiredForVideo)), [])
  {
  }

  /** The seed frame is requested with the fixed prefix before the user's
      prompt; if it yields no URL the video service is never called. */
  lemma SeedFailureStopsVideo(prompt: string, env: Env, svc: Services)
    requires prompt != "" && Configured(env, "REPLICATE_API_TOKEN") && Configured(env, "OPENAI_API_KEY")
    requires !Truthy(svc.imageUrl)
    ensures Post(Some(prompt), Some("video"), env, svc)
            == Handled(Response(500, Failure(SeedFailed)), [ImageCall("A single frame suitable for video generation: " + prompt)])
  {
  }

  /** With a seed frame, the video service gets exactly that frame; an
      empty output is a 500, otherwise it comes back as a video. */
  lemma VideoPath(prompt: string, env: Env, svc: Services)
    requires prompt != "" && Configured(env, "REPLICATE_API_TOKEN") && Configured(env, "OPENAI_API_KEY")
    requires Truthy(svc.imageUrl)
    ensures var h := Post(Some(prompt), Some("video"), env, svc);
      h.calls == [ImageCall(SeedPrompt(prompt)), VideoCall(svc.imageUrl.value)]
      && h.response == if Truthy(svc.videoOutput) then Response(200, Media(svc.videoOutput.value, "video"))
                       else Response(500, Failure(VideoFailed))
  {
  }

  /** Whatever happens, the calls made are a prefix of the full pipeline:
      no step runs unless every earlier one ran and succeeded, and the
      video service only ever receives the seed frame's URL. */
  lemma CallsFollowPipeline(prompt: Option<string>, kind: Option<string>, env: Env, svc: Services)
    ensures var h := Post(prompt, kind, env, svc);
      h.calls == [] || (prompt.Some? && kind.Some? && h.calls <= Pipeline(prompt.value, kind.value, svc))
    ensures var h := Post(prompt, kind, env, svc);
      forall c :: c in h.calls && c.VideoCall? ==> Truthy(svc.imageUrl) && c.inputImage == svc.imageUrl.value
  {
  }

  /** A 200 means every step of the pipeline ran. */
  lemma SuccessRanEveryStep(prompt: Option<string>, kind: Option<string>, env: Env, svc: Services)
    requires Post(prompt, kind, env, svc).response.status == 200
    ensures prompt.Some? && kind.Some? && (kind.value == "image" || kind.value == "video")
    ensures Post(prompt, kind, env, svc).calls == Pipeline(prompt.value, kind.value, svc)
  {
  }
}
