/** The page's state logic: the platform selection toggle, and the two
    button handlers that call the routes and update the component's state.
    The replies of the two `fetch` calls are inputs. */
module Client {
  import opened Js
  import Upload
  import Generate

  datatype ContentType = Image | Video

  function TypeName(t: ContentType): string {
    match t
    case Image => "image"
    case Video => "video"
  }

  datatype Platform = Twitter | Facebook | Instagram | LinkedIn | TikTok | YouTube

  /** The string the page sends for a platform. */
  function Id(p: Platform): string {
    match p
    case Twitter => "twitter"
    case Facebook => "facebook"
    case Instagram => "instagram"
    case LinkedIn => "linkedin"
    case TikTok => "tiktok"
    case YouTube => "youtube"
  }

  function Ids(ps: seq<Platform>): seq<string> {
    seq(|ps|, i requires 0 <= i < |ps| => Id(ps[i]))
  }

  datatype GenerationResult = GenerationResult(url: string, kind: ContentType)

  datatype StatusKind = Pending | Uploading | Success | Error
  datatype UploadStatus = UploadStatus(platform: Platform, status: StatusKind, message: Option<string>)

  /** How a `fetch` to one of the routes ends, as the page sees it: the call
      throws, the response is not ok (with the `error` field of its body,
      if any), or it is ok with the parsed data. */
  datatype Reply<T> = Threw(thrown: Thrown) | NotOk(error: Option<string>) | Ok(data: T)

  /** The JSON body the page posts to the generation route. */
  datatype GenerateBody = GenerateBody(prompt: string, kind: string)

  // ---------------------------------------------------------------------
  // `String.prototype.trim`
  // ---------------------------------------------------------------------

  /** The characters `trim` removes: white space and line terminators. */
  predicate IsSpace(c: char) {
    var n := c as int;
    (0x09 <= n <= 0x0D) || n == 0x20 || n == 0xA0 || n == 0x1680
    || (0x2000 <= n <= 0x200A) || n == 0x2028 || n == 0x2029 || n == 0x202F
    || n == 0x205F || n == 0x3000 || n == 0xFEFF
  }

  predicate Blank(s: string) {
    forall i :: 0 <= i < |s| ==> IsSpace(s[i])
  }

  /** Drops leading white space: the result is a suffix of `s`, what was
      dropped is blank, and the result does not start with white space. */
  function TrimStart(s: string): (r: string)
    ensures |r| <= |s| && r == s[|s| - |r|..]
    ensures Blank(s[..|s| - |r|])
    ensures r == [] || !IsSpace(r[0])
  {
    if s != [] && IsSpace(s[0]) then TrimStart(s[1..]) else s
  }

  /** Drops trailing white space: the result is a prefix of `s`, what was
      dropped is blank, and the result does not end with white space. */
  function TrimEnd(s: string): (r: string)
    ensures |r| <= |s| && r == s[..|r|]
    ensures Blank(s[|r|..])
    ensures r == [] || !IsSpace(r[|r| - 1])
  {
    if s != [] && IsSpace(s[|s| - 1]) then
      var r := TrimEnd(s[..|s| - 1]);
      assert s[..|s| - 1][..|r|] == s[..|r|];
      assert s[|r|..] == s[..|s| - 1][|r|..] + [s[|s| - 1]];
      r
    else s
  }

  function Trim(s: string): string {
    TrimEnd(TrimStart(s))
  }

  /** `!prompt.trim()` holds exactly for blank prompts. */
  lemma TrimEmptyIffBlank(s: string)
    ensures Trim(s) == "" <==> Blank(s)
  {
  }

  // ---------------------------------------------------------------------
  // The platform toggle.
  // ---------------------------------------------------------------------

  /** `s.filter(p => p !== x)` */
  function RemoveAll<T(==)>(s: seq<T>, x: T): (r: seq<T>)
    ensures multiset(r) == multiset(s)[x := 0]
  {
    if s == [] then []
    else
      assert s == [s[0]] + s[1..];
      (if s[0] == x then [] else [s[0]]) + RemoveAll(s[1..], x)
  }

  function Toggle<T(==)>(selected: seq<T>, x: T): seq<T> {
    if x in selected then RemoveAll(selected, x) else selected + [x]
  }

  predicate Distinct<T(==)>(s: seq<T>) {
    forall i, j :: 0 <= i < j < |s| ==> s[i] != s[j]
  }

  /** Filtering keeps the order of what it keeps: it distributes over
      concatenation. */
  lemma {:induction false} RemoveAllAppend<T>(a: seq<T>, b: seq<T>, x: T)
    ensures RemoveAll(a + b, x) == RemoveAll(a, x) + RemoveAll(b, x)
  {
    if a == [] {
      assert a + b == b;
    } else {
      assert (a + b)[1..] == a[1..] + b;
      RemoveAllAppend(a[1..], b, x);
    }
  }

  lemma {:induction false} RemoveAllAbsent<T>(s: seq<T>, x: T)
    requires x !in s
    ensures RemoveAll(s, x) == s
  {
    if s != [] {
      RemoveAllAbsent(s[1..], x);
    }
  }

  lemma {:induction false} RemoveAllDistinct<T>(s: seq<T>, x: T)
    requires Distinct(s)
    ensures Distinct(RemoveAll(s, x))
  {
    if s != [] {
      RemoveAllDistinct(s[1..], x);
      var tail := RemoveAll(s[1..], x);
      assert s[0] !in s[1..];
      assert s[0] !in multiset(tail);
    }
  }

  /** Toggling a selected platform removes every occurrence of it and keeps
      every other element, in order. */
  lemma ToggleRemovesEveryOccurrence<T>(selected: seq<T>, x: T)
    requires x in selected
    ensures x !in Toggle(selected, x)
    ensures multiset(Toggle(selected, x)) == multiset(selected)[x := 0]
    ensures forall a, b :: selected == a + b ==> Toggle(selected, x) == RemoveAll(a, x) + RemoveAll(b, x)
  {
    assert x !in multiset(Toggle(selected, x));
    forall a, b | selected == a + b
      ensures Toggle(selected, x) == RemoveAll(a, x) + RemoveAll(b, x)
    {
      RemoveAllAppend(a, b, x);
    }
  }

  /** Toggling keeps a duplicate-free selection duplicate-free, and flips
      membership of the toggled platform. */
  lemma ToggleKeepsDistinct<T>(selected: seq<T>, x: T)
    requires Distinct(selected)
    ensures Distinct(Toggle(selected, x))
    ensures x in Toggle(selected, x) <==> x !in selected
  {
    if x in selected {
      RemoveAllDistinct(selected, x);
      assert x !in multiset(RemoveAll(selected, x));
    }
  }

  /** Toggling an unselected platform twice gives back the selection. */
  lemma ToggleTwiceRestores<T>(selected: seq<T>, x: T)
    requires x !in selected
    ensures Toggle(selected, x) == selected + [x]
    ensures Toggle(Toggle(selected, x), x) == selected
  {
    RemoveAllAppend(selected, [x], x);
    RemoveAllAbsent(selected, x);
    assert RemoveAll([x], x) == [];
  }

  // ---------------------------------------------------------------------
  // What the handlers send and show.
  // ---------------------------------------------------------------------

  /** Distinct platforms have distinct ids, so a duplicate-free selection
      is sent as a duplicate-free list of platform strings. */
  lemma DistinctIds(ps: seq<Platform>)
    requires Distinct(ps)
    ensures Distinct(Ids(ps))
  {
  }

  /** One pending status per selected platform, in selection order. */
  function PendingStatuses(selected: seq<Platform>): seq<UploadStatus> {
    seq(|selected|, i requires 0 <= i < |selected| => UploadStatus(selected[i], Pending, None))
  }

  /** The body `uploadToAll` posts; the prompt goes along as the caption. */
  function UploadRequestFor(content: GenerationResult, selected: seq<Platform>, caption: string): Upload.Request {
    Upload.Request(Some(content.url), Some(TypeName(content.kind)), Some(Ids(selected)), Some(caption))
  }

  /** The component's state and its two request handlers. Each handler runs
      to completion here: the `await` in the middle is not an interleaving
      point of the model. */
  class Home {
    var prompt: string
    var contentType: ContentType
    var selectedPlatforms: seq<Platform>
    var generatedContent: Option<GenerationResult>
    var uploadStatuses: seq<UploadStatus>
    var isGenerating: bool
    var isUploading: bool

    /** The selection never repeats a platform: it starts empty and only
        the toggle changes it. */
    predicate Valid()
      reads this
    {
      Distinct(selectedPlatforms)
    }

    constructor ()
      ensures prompt == "" && contentType == Image && selectedPlatforms == []
      ensures generatedContent == None && uploadStatuses == []
      ensures !isGenerating && !isUploading
      ensures Valid()
    {
      prompt := "";
      contentType := Image;
      selectedPlatforms := [];
      generatedContent := None;
      uploadStatuses := [];
      isGenerating := false;
      isUploading := false;
    }

    method SetPrompt(text: string)
      requires Valid()
      modifies this`prompt
      ensures Valid()
      ensures prompt == text
    {
      prompt := text;
    }

    method SetContentType(t: ContentType)
      requires Valid()
      modifies this`contentType
      ensures Valid()
      ensures contentType == t
    {
      contentType := t;
    }

    method TogglePlatform(p: Platform)
      requires Valid()
      modifies this`selectedPlatforms
      ensures Valid()
      ensures selectedPlatforms == Toggle(old(selectedPlatforms), p)
    {
      ToggleKeepsDistinct(selectedPlatforms, p);
      if p in selectedPlatforms {
        selectedPlatforms := RemoveAll(selectedPlatforms, p);
      } else {
        selectedPlatforms := selectedPlatforms + [p];
      }
    }

    /** Does nothing for a blank prompt. Otherwise clears the previous
        content and statuses, posts the prompt and the selected type, stores
        the returned URL under the page's own type or reports the failure,
        and always ends with `isGenerating` false. */
    method GenerateContent(reply: Reply<string>) returns (sent: Option<GenerateBody>, alert: Option<string>)
      requires Valid()
      modifies this`isGenerating, this`generatedContent, this`uploadStatuses
      ensures Valid()
      ensures Blank(prompt) ==>
        sent == None && alert == None && isGenerating == old(isGenerating)
        && generatedContent == old(generatedContent) && uploadStatuses == old(uploadStatuses)
      ensures !Blank(prompt) ==>
        sent == Some(GenerateBody(prompt, TypeName(contentType)))
        && !isGenerating && uploadStatuses == []
        && match reply
           case Ok(url) => generatedContent == Some(GenerationResult(url, contentType)) && alert == None
           case NotOk(error) =>
             generatedContent == None && alert == Some(if Truthy(error) then error.value else "Generation failed")
           case Threw(t) =>
             generatedContent == None && alert == Some(MessageOf(t, "Failed to generate content"))
    {
      TrimEmptyIffBlank(prompt);
      if Trim(prompt) == "" {
        return None, None;
      }
      isGenerating := true;
      generatedContent := None;
      uploadStatuses := [];
      sent := Some(GenerateBody(prompt, TypeName(contentType)));
      alert := None;
      match reply {
        case Ok(url) =>
          generatedContent := Some(GenerationResult(url, contentType));
        case NotOk(error) =>
          alert := Some(if Truthy(error) then error.value else "Generation failed");
        case Threw(t) =>
          alert := Some(MessageOf(t, "Failed to generate content"));
      }
      isGenerating := false;
    }

    /** Does nothing without generated content or without a selected
        platform. Otherwise marks every selected platform pending, posts the
        content with the prompt as caption, replaces the statuses with the
        server's results on success (leaving them pending otherwise), and
        always ends with `isUploading` false. */
    method UploadToAll(reply: Reply<seq<UploadStatus>>) returns (sent: Option<Upload.Request>, alert: Option<string>)
      requires Valid()
      modifies this`isUploading, this`uploadStatuses
      ensures Valid()
      ensures sent.Some? ==> sent.value.platforms.Some? && Distinct(sent.value.platforms.value)
      ensures generatedContent.None? || selectedPlatforms == [] ==>
        sent == None && alert == None
        && isUploading == old(isUploading) && uploadStatuses == old(uploadStatuses)
      ensures generatedContent.Some? && selectedPlatforms != [] ==>
        sent == Some(UploadRequestFor(generatedContent.value, selectedPlatforms, prompt))
        && !isUploading
        && match reply
           case Ok(results) => uploadStatuses == results && alert == None
           case NotOk(_) => uploadStatuses == PendingStatuses(selectedPlatforms) && alert == Some("Upload failed")
           case Threw(t) =>
             uploadStatuses == PendingStatuses(selectedPlatforms) && alert == Some(MessageOf(t, "Failed to upload content"))
    {
      if generatedContent.None? || |selectedPlatforms| == 0 {
        return None, None;
      }
      DistinctIds(selectedPlatforms);
      isUploading := true;
      uploadStatuses := PendingStatuses(selectedPlatforms);
      sent := Some(UploadRequestFor(generatedContent.value, selectedPlatforms, prompt));
      alert := None;
      match reply {
        case Ok(results) =>
          uploadStatuses := results;
        case NotOk(_) =>
          alert := Some("Upload failed");
        case Threw(t) =>
          alert := Some(MessageOf(t, "Failed to upload content"));
      }
      isUploading := false;
    }
  }

  // ---------------------------------------------------------------------
  // The page against the routes.
  // ---------------------------------------------------------------------

  /** A prompt the page lets through is never refused by the generation
      route's validation. */
  lemma SentPromptPassesValidation(prompt: string, t: ContentType, env: Env, svc: Generate.Services)
    requires !Blank(prompt)
    ensures Generate.Post(Some(prompt), Some(TypeName(t)), env, svc).response.status != 400
  {
    assert prompt != "";
  }

  /** When the content has a URL and the download succeeds, the upload
      route answers with one result per selected platform, in selection
      order, each decided by that platform's credentials. */
  lemma EverySelectedPlatformAnswered(content: GenerationResult, selected: seq<Platform>, caption: string,
                                      env: Env, bytes: seq<bv8>)
    requires content.url != "" && selected != []
    ensures var h := Upload.Post(UploadRequestFor(content, selected, caption), env, Upload.Fetched(bytes));
      h.response.status == 200 && h.response.body.Results?
      && |h.response.body.results| == |selected|
      && forall i :: 0 <= i < |selected| ==>
           h.response.body.results[i] == Upload.Expected(Id(selected[i]), env)
  {
    var req := UploadRequestFor(content, selected, caption);
    Upload.ResultsArePositional(req, env, bytes);
    forall i | 0 <= i < |selected|
      ensures Upload.UploadToPlatform(Id(selected[i]), bytes, TypeName(content.kind), Some(caption), env)
              == Upload.Expected(Id(selected[i]), env)
    {
      Upload.CredentialSchema(Id(selected[i]), bytes, TypeName(content.kind), Some(caption), env);
    }
  }
}
