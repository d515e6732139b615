# Prompt-to-social: a Dafny model of the generation and upload decisions

The application turns a text prompt into an AI image or video and posts the
result to several social platforms. Its own logic is small and
deterministic, and this project models it:

- **Upload route** (`upload.dfy`, module `Upload`). It validates the request
  and downloads the content once. Then it sends one upload per requested
  platform through a `switch` to one of six adapters. Each adapter only
  checks that its platform's credentials are configured and reports a
  simulated ("Demo mode") success or a not-configured error. A `catch`
  turns anything an adapter throws into an error result.
- **Generation route** (`generate.dfy`, module `Generate`). It validates the
  prompt and the type, then branches. An image is one call to the image
  service. A video is a call to the image service for a seed frame, then a
  call to the video service with that frame.
- **Page state** (`client.dfy`, module `Client`). The platform selection
  toggle, `String.prototype.trim`, and the component `Home`. It is a class
  whose fields are the component's state and whose methods are the two
  button handlers, `generateContent` and `uploadToAll`.
- `js.dfy` (module `Js`) holds what the three share: optional JSON fields,
  JavaScript truthiness of strings, the injected environment, and the
  value a `catch` receives.

How the outside world enters the model:

- The environment (`process.env`) is a `map<string, string>` passed in. A
  key counts as configured when it is present and not empty, as the code's
  `!value` tests do.
- The download is an input: bytes, or the value it threw.
- The image service's first URL and the video service's output are inputs
  (`Option<string>`).
- The page's two `fetch` replies are inputs: thrown, not ok, or ok with data.
- Each route handler returns its response together with the list of
  external calls it made, in order. "No download before validation" and
  "no video call after a failed seed frame" are stated on that list.
- The adapters share no state, so the `Promise.all` fan-out is a
  sequential map; the results have the same order either way.

Some behaviour follows the code where a looser description of the system
would suggest otherwise:

- The upload route does not deduplicate platforms. A repeated platform is
  uploaded, and reported, once per occurrence.
- The upload route does not check that `contentType` is `image` or
  `video`. Any non-empty string passes.
- A request platform outside the six is not rejected. It gets an
  "Unsupported platform" error result.
- For a video, the Replicate token is checked first. A missing OpenAI key
  shows up only afterwards, as the error thrown by the seed step
  ("OpenAI API key required for video generation").
- The server does not trim the prompt. The page uses `trim` only to refuse
  a blank prompt, and it sends the prompt as typed.

## Model

| member | source | states |
|---|---|---|
| `Upload.UploadToPlatform` | app/api/upload/route.ts:58-92 | the result is always a record for the platform asked about, and it can be a success only for one of the six supported platforms |
| `Upload.CredentialSchema` | app/api/upload/route.ts:58-244 | for every platform string, the upload result equals the credential table's verdict: success with that platform's demo message exactly when every key in its row is configured, its not-configured error otherwise, "Unsupported platform" outside the table |
| `Upload.SchemaTwitter` | app/api/upload/route.ts:94-121 | Twitter succeeds exactly when TWITTER_API_KEY, TWITTER_API_SECRET, TWITTER_ACCESS_TOKEN and TWITTER_ACCESS_SECRET are all configured |
| `Upload.SchemaFacebook` | app/api/upload/route.ts:123-145 | Facebook succeeds exactly when FACEBOOK_ACCESS_TOKEN and FACEBOOK_PAGE_ID are configured |
| `Upload.SchemaInstagram` | app/api/upload/route.ts:147-169 | Instagram succeeds exactly when FACEBOOK_ACCESS_TOKEN and INSTAGRAM_ACCOUNT_ID are configured |
| `Upload.SchemaLinkedIn` | app/api/upload/route.ts:171-193 | LinkedIn succeeds exactly when LINKEDIN_ACCESS_TOKEN and LINKEDIN_PERSON_URN are configured |
| `Upload.SchemaTikTok` | app/api/upload/route.ts:195-216 | TikTok succeeds exactly when TIKTOK_ACCESS_TOKEN is configured |
| `Upload.SchemaYouTube` | app/api/upload/route.ts:218-244 | YouTube succeeds exactly when YOUTUBE_API_KEY, YOUTUBE_CLIENT_ID, YOUTUBE_CLIENT_SECRET and YOUTUBE_REFRESH_TOKEN are all configured |
| `Upload.UnsupportedPlatform` | app/api/upload/route.ts:78-84 | a platform outside the six gets an error result "Unsupported platform" for that same string |
| `Upload.RaisedBecomesError` | app/api/upload/route.ts:85-91 | anything thrown inside the dispatch becomes an error result for the same platform, carrying an Error's message |
| `Upload.DispatchReturns` | app/api/upload/route.ts:64-84 | as written, no adapter throws: every dispatch returns a result |
| `Upload.AdapterIgnoresContent` | app/api/upload/route.ts:94-244 | an upload result depends only on the platform and the configuration, never on the content, content type or caption |
| `Upload.InstagramNeedsFacebookToken` | app/api/upload/route.ts:128-160 | without FACEBOOK_ACCESS_TOKEN both Facebook and Instagram fail, whatever else is configured |
| `Upload.UploadEach` | app/api/upload/route.ts:34-38 | the fan-out gives exactly one result and one adapter call per requested platform; the result at position i is the upload to the platform at position i, obtained by the call at position i |
| `Upload.UploadEachAppend` | app/api/upload/route.ts:34-38 | the fan-out of a concatenated platform list is the concatenation of the fan-outs, results and calls alike |
| `Upload.ReplacingOnePlatform` | app/api/upload/route.ts:34-38 | changing the platform at one position leaves the results at all other positions unchanged (per-platform isolation) |
| `Upload.MissingFieldsRejected` | app/api/upload/route.ts:23-28 | a missing URL, missing type, missing platforms or an empty platform list gives 400 "Missing required fields" with no download and no adapter call; no other request gets a 400 |
| `Upload.DownloadOnceFirst` | app/api/upload/route.ts:30-38 | a valid request downloads its URL exactly once, as the first step, and every later step is an adapter call |
| `Upload.DownloadFailureAborts` | app/api/upload/route.ts:31-46 | a failed download gives 500 with the thrown message ("Upload failed" for a non-Error) and no adapter is called |
| `Upload.ResultsArePositional` | app/api/upload/route.ts:30-40 | after a download, the response is 200 with as many results as requested platforms, result i is for platform i, duplicates included, and the adapters are called once per entry in request order |
| `Generate.ErrorPrecedence` | app/api/generate/route.ts:5-120 | the answer is the status and message of the first failing check, in the order the handler makes them, or 200 with the last service's URL when none fails |
| `Generate.RequiredFieldsFirst` | app/api/generate/route.ts:9-14 | a missing or empty prompt or type gives 400 "Prompt and type are required" with no service call, and only such requests get that answer |
| `Generate.UntrimmedPromptPasses` | app/api/generate/route.ts:9 | any non-empty prompt, whitespace only included, passes the required-fields check |
| `Generate.InvalidKindRejected` | app/api/generate/route.ts:16-25 | a type other than "image" or "video" gives 400 "Invalid content type" with no service call |
| `Generate.ImagePath` | app/api/generate/route.ts:35-61 | an image request without OPENAI_API_KEY gets the not-configured 500 with no call; otherwise one image call with the prompt, then 500 "Failed to generate image" without a URL, or 200 with the URL as an image |
| `Generate.ReplicateTokenCheckedFirst` | app/api/generate/route.ts:64-72 | a video request without REPLICATE_API_TOKEN gets the Replicate 500 whether or not the OpenAI key is set, and no service is called |
| `Generate.VideoNeedsOpenAIKey` | app/api/generate/route.ts:96-101 | with the token but no OpenAI key, a video request gets 500 "OpenAI API key required for video generation" and no service is called |
| `Generate.SeedFailureStopsVideo` | app/api/generate/route.ts:105-117 | the seed frame is requested with the prompt behind the fixed prefix; without a seed URL the answer is 500 "Failed to generate seed image for video" and the video service is never called |
| `Generate.VideoPath` | app/api/generate/route.ts:74-93 | with a seed URL the video service is called with exactly that URL, after the seed call; an empty output gives 500 "Failed to generate video", otherwise 200 with the output as a video |
| `Generate.CallsFollowPipeline` | app/api/generate/route.ts:64-119 | the calls made are always a prefix of the full pipeline, and the video service only ever receives a non-empty seed URL |
| `Generate.SuccessRanEveryStep` | app/api/generate/route.ts:16-93 | a 200 answer means the type was image or video and every step of its pipeline ran |
| `Client.TrimStart` | app/page.tsx:47 | the result is a suffix of the input, what was dropped is all white space, and the result does not start with white space |
| `Client.TrimEnd` | app/page.tsx:47 | the result is a prefix of the input, what was dropped is all white space, and the result does not end with white space |
| `Client.TrimEmptyIffBlank` | app/page.tsx:47 | the trimmed prompt is empty exactly when every character is white space |
| `Client.RemoveAll` | app/page.tsx:41 | filtering out a platform leaves every other element's count unchanged and that platform's count zero |
| `Client.RemoveAllAppend` | app/page.tsx:41 | filtering distributes over concatenation, so the kept elements stay in order |
| `Client.RemoveAllAbsent` | app/page.tsx:41 | filtering out an absent platform changes nothing |
| `Client.RemoveAllDistinct` | app/page.tsx:41 | filtering a duplicate-free list gives a duplicate-free list |
| `Client.ToggleRemovesEveryOccurrence` | app/page.tsx:38-41 | toggling a selected platform removes every occurrence and keeps all other elements in their order |
| `Client.ToggleKeepsDistinct` | app/page.tsx:38-44 | toggling keeps a duplicate-free selection duplicate-free and flips whether the platform is selected |
| `Client.ToggleTwiceRestores` | app/page.tsx:38-44 | toggling an unselected platform appends it at the end, and toggling it again gives back the original selection |
| `Client.DistinctIds` | app/page.tsx:7 | a duplicate-free selection is sent as a duplicate-free list of platform ids, since distinct platforms have distinct ids |
| `Client.Home.constructor` | app/page.tsx:21-27 | the initial state: empty prompt, image type, nothing selected, no content, no statuses, not generating, not uploading; the selection is duplicate-free |
| `Client.Home.SetPrompt` | app/page.tsx:157 | editing the prompt replaces it |
| `Client.Home.SetContentType` | app/page.tsx:127-138 | choosing a type replaces it |
| `Client.Home.TogglePlatform` | app/page.tsx:38-44 | the new selection is the toggle of the old one, and it stays duplicate-free |
| `Client.Home.GenerateContent` | app/page.tsx:46-72 | a blank prompt changes nothing and sends nothing; otherwise it sends the prompt with the page's type, clears content and statuses, stores the returned URL under the page's own type or reports the error message, and always ends not generating |
| `Client.Home.UploadToAll` | app/page.tsx:74-108 | without content or without a selected platform it changes nothing; otherwise it sends the content, type, selection and prompt as caption, marks every selected platform pending in order, replaces the statuses with the server's results on success and leaves them pending otherwise, and always ends not uploading; the platform list it sends never repeats a platform |
| `Client.SentPromptPassesValidation` | app/page.tsx:47-57 | a prompt the page sends is never refused with 400 by the generation route |
| `Client.EverySelectedPlatformAnswered` | app/page.tsx:85-95 | for content with a URL and a successful download, the upload route answers 200 with one result per selected platform, in selection order, each decided by that platform's credentials |

## Left out

- The download itself (app/api/upload/route.ts:50-56): the axios request, its 30-second timeout and the `Buffer` conversion are network I/O. The model takes the download's outcome as an input.
- The OpenAI and Replicate calls (app/api/generate/route.ts:45-53, 74-87, 103-111): model names, sizes, quality, frame rate and motion settings are arguments to foreign libraries. Their answers are inputs. An exception thrown by these libraries is not modelled; only a reply without a URL is.
- Parsing the request body (`req.json()`), whose failure the routes turn into a 500, and values of JSON types other than strings and string arrays in the body.
- `NextResponse` construction beyond status and body, `console.error`, and the display of `alert` (the message is returned instead).
- `Promise.all` concurrency: the fan-out is a sequential map. This is equivalent because the adapters share no state.
- React's asynchronous state updates and the `await` inside each handler. Each handler runs to completion, so the in-flight state (`isGenerating` or `isUploading` true) is not observable in the model.
- The JSX, styling and icons of the page (app/page.tsx:110-283), including the buttons' `disabled` conditions.
- Client.Home.UploadToAll: the statuses a successful upload stores are the reply's data as given. They are not derived from `Upload.UploadResult` values.
- next.config.js: static framework configuration with no logic.
