# Autogram publishing pipeline: a verified model

This project models the decision logic of autogram's content pipeline, with every remote service
replaced by an oracle. An oracle here is a given value holding the responses the backend would
return.

- **Instagram publish flow** (`instagram_utils.py`). A local video is uploaded to the media host.
  A REELS media object is created with the returned `secure_url` and the caption. Its processing
  status is polled until the status text contains `"Finished"` (success, tested first) or
  `"Error"` (failure). Then the object is published. The responses of the upload, create and
  publish calls are maps. The status responses are a finite sequence of maps. The source polls
  forever with no deadline, so a status sequence that runs out before any terminal status is the
  explicit outcome `NoTerminalStatus`; no timeout is invented.
- **Veo render tool** (`tools/veo_tool.py`). The argument schema requires a non-empty `prompt` or
  `from_file`. `_run` resolves the prompt: a non-empty `prompt` wins; otherwise it uses the
  stripped text of the script file. It submits one generation call and refreshes the operation
  while it is not done. It downloads the first generated video, writes exactly those bytes to
  `output_file`, and returns `output_file` unchanged. A refresh sequence that runs out before a
  done operation is the outcome `NeverDone`.
- **Crew output handling** (`main.py`, `run()`). The output text is `final_output`, else
  `raw_output`, else `output`, else `str(result)`. The regex `[\w\-_]+\.mp4` is modelled as a
  leftmost scan. When it finds a name, `post_to_instagram` is called once, with the base
  directory joined to that name and the caption `"Neuroscience Facts"`. A failure of that call
  is re-raised with the prefix `"Error while running crew: "`.

Each imperative source function is a method: `Instagram.Post` and `Veo.VeoTool.Run` keep their
polling loops, and `Crew.Run` is straight-line code with one call to `Instagram.Post`. Each method is proved equal to a specification function (`PostToInstagram`,
`RenderSpec`, `RunSpec`). Each of these returns the outcome and the exact trace of remote calls
made. The properties are proved as lemmas about the specification functions.

Files: `common.dfy` (Option, Result, byte, Python's substring test, repeated calls),
`instagram.dfy`, `veo.dfy`, `crew.dfy`.

The model follows the code on these points:

- Neither polling loop has a deadline, so there is no timeout error.
- The video file is written directly to the output path, with no temporary file.
- A zero-byte download is written like any other; no size is checked.
- A done operation with an empty video list fails on the index `[0]` (`NoGeneratedVideo`). One
  with no response fails on the attribute access, and one whose `generated_videos` is None fails
  on `[0]` applied to None; both are `NoResponse`. Neither has its own error type.

## Model

| member | source | states |
|---|---|---|
| `Instagram.ExceptionText` | autogram/src/autogram/instagram_utils.py:54-110 | the `str()` text of each exception the flow raises: the file-not-found message with the path, the KeyError's quoted key, and the create, processing and publish messages with their response or status; used by `Crew.FailureMessage` |
| `Instagram.UploadToCloudinary` | autogram/src/autogram/instagram_utils.py:27-36 | succeeds iff the upload response has `secure_url`, returning exactly that url; otherwise the KeyError |
| `Instagram.CreateVideoObject` | autogram/src/autogram/instagram_utils.py:50-56 | raises iff the create response has no `id`; otherwise returns exactly `response["id"]` |
| `Instagram.PublishVideo` | autogram/src/autogram/instagram_utils.py:74-80 | raises iff the publish response has no `id`; otherwise returns exactly `response["id"]` |
| `Instagram.StatusText` | autogram/src/autogram/instagram_utils.py:103 | the `status` field of a poll response, `""` when the field is missing |
| `Instagram.PollFrom` | autogram/src/autogram/instagram_utils.py:101-112 | the poll loop makes at most all remaining polls, and at least one unless the responses are already exhausted; it ends exhausted only after using every response |
| `Instagram.PollFromMeaning` | autogram/src/autogram/instagram_utils.py:101-110 | the loop stops at the first status containing "Finished" or "Error"; Finished is success, and a failure carries that status text, which contains "Error" and not "Finished" |
| `Instagram.PollStopsAtFirstTerminal` | autogram/src/autogram/instagram_utils.py:101-110 | conversely, the first terminal status at index k gives exactly k+1 polls and decides success or failure |
| `Instagram.PollExhausts` | autogram/src/autogram/instagram_utils.py:101-112 | conversely, with no terminal status every response is polled and the loop does not return |
| `Instagram.PostToInstagram` | autogram/src/autogram/instagram_utils.py:87-119 | `post_to_instagram` as an outcome plus the exact call trace; its meaning is given by `CallsInFixedOrder`, `PublishOnlyAfterFinished`, `FinishedLeadsToPublish`, `ErrorStatusPreventsPublish`, `NoTerminalStatusPollsEverything` and `PostedIdIsPublishId`, and `Post` is proved equal to it |
| `Instagram.Post` | autogram/src/autogram/instagram_utils.py:87-119 | the step-by-step flow with its `while True` loop yields exactly the outcome and call trace of `PostToInstagram` |
| `Instagram.MissingFileMakesNoCalls` | autogram/src/autogram/instagram_utils.py:90-94 | a nonexistent video path raises FileNotFoundError before any upload, create, poll or publish |
| `Instagram.OmittedCaptionIsDefault` | autogram/src/autogram/instagram_utils.py:87 | a caller that gives no caption creates the media object with the caption "Generated automatically ✨" |
| `Instagram.CallsInFixedOrder` | autogram/src/autogram/instagram_utils.py:94-115 | calls come as upload(path), create(REELS, uploaded url, caption unchanged), polls, and a publish only as the last call; polls and publish use the creation id |
| `Instagram.PublishOnlyAfterFinished` | autogram/src/autogram/instagram_utils.py:101-115 | publish is the last call and happens at most once, right after j polls, where the j-th status is the first terminal one and contains "Finished" |
| `Instagram.FinishedLeadsToPublish` | autogram/src/autogram/instagram_utils.py:101-119 | if the first terminal status (index k) is Finished: exactly k+1 polls, then one publish; the result is the publish id or the publish error |
| `Instagram.ErrorStatusPreventsPublish` | autogram/src/autogram/instagram_utils.py:109-115 | if an Error status (without Finished) comes first: the flow raises with that status text after k+1 polls and never publishes |
| `Instagram.NoTerminalStatusPollsEverything` | autogram/src/autogram/instagram_utils.py:101-112 | with no terminal status at all, every response is polled and the flow never returns |
| `Instagram.NoTerminalStatusMeansNoneSeen` | autogram/src/autogram/instagram_utils.py:101-112 | the flow fails to return only after a successful upload and create, and only when no status was terminal |
| `Instagram.PostedIdIsPublishId` | autogram/src/autogram/instagram_utils.py:115-119 | a returned post id is exactly the publish response's `id`, returned after a publish with the creation id |
| `Instagram.FinishedTestedBeforeError` | autogram/src/autogram/instagram_utils.py:105-110 | a status containing both "Finished" and "Error" counts as success |
| `Instagram.MissingStatusKeepsPolling` | autogram/src/autogram/instagram_utils.py:102-112 | a poll response without `status` reads as "" and polling continues |
| `Instagram.ThreePollsThenPublish` | autogram/src/autogram/instagram_utils.py:101-115 | statuses IN_PROGRESS, IN_PROGRESS, Finished give exactly three polls, then the publish |
| `Instagram.CodecErrorRaises` | autogram/src/autogram/instagram_utils.py:101-110 | statuses IN_PROGRESS, "Error: codec unsupported" raise with that text after two polls |
| `Veo.ValidateArgs` | autogram/src/autogram/tools/veo_tool.py:13-29 | the schema rejects input iff both `prompt` and `from_file` are None or empty, and otherwise keeps all three arguments |
| `Veo.DefaultOutputFileApplies` | autogram/src/autogram/tools/veo_tool.py:20-22 | `output_file` defaults to "autogram_output.mp4" |
| `Veo.Strip` | autogram/src/autogram/tools/veo_tool.py:53 | `str.strip()`: leading whitespace removed, then trailing; its meaning is given by `StripMeaning`, `StripEmptyIffAllSpace` and `StripIdempotent` |
| `Veo.StripMeaning` | autogram/src/autogram/tools/veo_tool.py:53 | `strip()` leaves a contiguous piece of the text, with only whitespace removed around it and none left at its ends |
| `Veo.StripEmptyIffAllSpace` | autogram/src/autogram/tools/veo_tool.py:53-56 | the stripped text is empty exactly when the file is whitespace only |
| `Veo.StripIdempotent` | autogram/src/autogram/tools/veo_tool.py:53 | stripping the resolved prompt again changes nothing |
| `Veo.ResolvePrompt` | autogram/src/autogram/tools/veo_tool.py:50-56 | a non-empty prompt wins; otherwise the stripped script text when `from_file` is set; a missing file or an empty result is an error; an accepted prompt is never empty |
| `Veo.PromptIgnoresScripts` | autogram/src/autogram/tools/veo_tool.py:51-53 | with a non-empty prompt the script file is not read: its contents cannot change the result |
| `Veo.WhitespaceScriptHasNoPrompt` | autogram/src/autogram/tools/veo_tool.py:51-56 | a whitespace-only script gives the "No prompt provided" ValueError |
| `Veo.ResolvedPromptPassesSchema` | autogram/src/autogram/tools/veo_tool.py:27-56 | every argument set `_run` resolves to a prompt is also accepted by the schema |
| `Veo.SchemaAcceptsWhitespaceScript` | autogram/src/autogram/tools/veo_tool.py:27-56 | the converse fails: the schema accepts a whitespace-only script that `_run` rejects |
| `Veo.FirstDone` | autogram/src/autogram/tools/veo_tool.py:65-68 | the refresh loop stops at the first done snapshot; every earlier snapshot is not done; none is done when it finds nothing |
| `Veo.FirstDoneAt` | autogram/src/autogram/tools/veo_tool.py:65-68 | conversely, the first done snapshot is the one the loop stops at |
| `Veo.VeoTool.constructor` | autogram/src/autogram/tools/veo_tool.py:43-46 | the tool keeps the api key and the client built for it |
| `Veo.Disk.Write` | autogram/src/autogram/tools/veo_tool.py:73-74 | after the write the file holds exactly the given bytes; other files are unchanged |
| `Veo.RenderSpec` | autogram/src/autogram/tools/veo_tool.py:48-78 | `_run` as an outcome, the exact call trace and the file written; its meaning is given by `NoPromptNoCalls`, `GenerateOnceThenRefreshWhileNotDone`, `RenderedWritesFirstVideo`, `OnlyRenderedWrites` and `EmptyVideoListFails`, and `VeoTool.Run` is proved equal to it |
| `Veo.VeoTool.Run` | autogram/src/autogram/tools/veo_tool.py:48-78 | `_run` step by step yields exactly the outcome and calls of `RenderSpec`; the disk changes only by the specified write |
| `Veo.NoPromptNoCalls` | autogram/src/autogram/tools/veo_tool.py:55-60 | without a resolved prompt `_run` raises before any generate call and writes nothing |
| `Veo.GenerateOnceThenRefreshWhileNotDone` | autogram/src/autogram/tools/veo_tool.py:60-68 | generate is called exactly once, first, with the resolved prompt; refreshes happen only while the snapshot is not done and stop at the first done one; if none is done, all are used |
| `Veo.RenderedWritesFirstVideo` | autogram/src/autogram/tools/veo_tool.py:70-78 | a success returns `output_file` unchanged, after downloading the first generated video and writing exactly its bytes there |
| `Veo.OnlyRenderedWrites` | autogram/src/autogram/tools/veo_tool.py:70-78 | a file is written exactly when `_run` succeeds |
| `Veo.EmptyVideoListFails` | autogram/src/autogram/tools/veo_tool.py:70 | an empty list of generated videos is an indexing failure: nothing is downloaded or written |
| `Crew.OutputText` | autogram/src/autogram/main.py:35-42 | the text is `final_output` if present, else `raw_output`, else `output`, else `str(result)` |
| `Crew.EarlierAttributeWins` | autogram/src/autogram/main.py:35-42 | a present attribute hides every later one: changing the later ones cannot change the text |
| `Crew.RunEnd` | autogram/src/autogram/main.py:50 | the greedy run of `[\w\-_]` from a start: every character before its end is in the class, and the one at its end is not |
| `Crew.SearchFrom` | autogram/src/autogram/main.py:50 | the scan for a match from a start position; any match it returns starts no earlier and has a non-empty name before ".mp4"; its meaning is given by `SearchFromMeaning` |
| `Crew.Search` | autogram/src/autogram/main.py:50 | `re.search` of the MP4 pattern over the whole text; its meaning is given by `SearchIsLeftmostMatch` and `LeftmostMatchIsFound` |
| `Crew.MatchEndIsRunEnd` | autogram/src/autogram/main.py:50 | a match from a given start ends where the run of class characters ends, so it is unique |
| `Crew.SearchFromMeaning` | autogram/src/autogram/main.py:50 | the scan from position i finds the leftmost match at or after i, and nothing when there is none |
| `Crew.SearchIsLeftmostMatch` | autogram/src/autogram/main.py:50 | `re.search` finds a run of one or more class characters immediately followed by ".mp4"; no match starts earlier; no result means no match anywhere |
| `Crew.LeftmostMatchIsFound` | autogram/src/autogram/main.py:50 | conversely, the leftmost match is exactly the one returned |
| `Crew.Group` | autogram/src/autogram/main.py:53 | `match.group(1)`, whose one capture group spans the whole match, so it is the matched text; `FoundNameIsPlain`, `DotSplitsName` and `NoBoundaryAfterExtension` state what it is |
| `Crew.FoundNameIsPlain` | autogram/src/autogram/main.py:50-53 | the found name ends in ".mp4"; every character before that is a class character, so not a space or path separator |
| `Crew.DotSplitsName` | autogram/src/autogram/main.py:50-53 | "a.b.mp4" yields "b.mp4" |
| `Crew.NoBoundaryAfterExtension` | autogram/src/autogram/main.py:50-53 | "clip.mp4x" yields "clip.mp4": nothing is required after ".mp4" |
| `Crew.JoinPath` | autogram/src/autogram/main.py:55-56 | the video path is the base directory, one separator, then the file name |
| `Crew.PostDecision` | autogram/src/autogram/main.py:50-61 | a post is requested iff the search finds a name, with that name joined to the base directory and caption "Neuroscience Facts" |
| `Crew.FailureMessage` | autogram/src/autogram/main.py:66-67 | the re-raised message is "Error while running crew: " followed by the original exception's text |
| `Crew.RunSpec` | autogram/src/autogram/main.py:21-67 | the handling in `run()` after the crew returns: the outcome, the posts requested and the Instagram calls; its meaning is given by `NoMatchNoPost`, `MatchPostsOnce` and `FailureIsPostFailure`, and `Crew.Run` is proved equal to it |
| `Crew.Run` | autogram/src/autogram/main.py:21-67 | `run()` after the crew step yields exactly the outcome, posts and remote calls of `RunSpec` |
| `Crew.NoMatchNoPost` | autogram/src/autogram/main.py:52-64 | with no MP4 name in the output, `post_to_instagram` is never called and no remote call is made |
| `Crew.MatchPostsOnce` | autogram/src/autogram/main.py:52-61 | with a match, `post_to_instagram` is called exactly once, with the joined leftmost name and "Neuroscience Facts"; the run's calls are that post's |
| `Crew.FailureIsPostFailure` | autogram/src/autogram/main.py:61-67 | `run()` posts at most once; it fails exactly when the post raises, with a failure carrying that exception; it returns normally when the post succeeds or nothing is posted |

## Left out

- Network and SDK calls are not modelled; the oracle values stand for what they return. This
  covers `requests.post/get`, `cloudinary.uploader.upload_large`, and the `genai.Client` models,
  operations and files calls. Errors those libraries raise themselves are not modelled, apart
  from a download the oracle has no bytes for: a video missing from the downloads map fails with
  `DownloadFailed`.
- `time.sleep` and all timing: there is no deadline. Non-termination shows as an oracle
  sequence that runs out (`NoTerminalStatus`, `NeverDone`).
- Credential and configuration loading, and the `access_token` request fields: `load_dotenv`,
  `cloudinary.config`, `IG_USER_ID`, `ACCESS_TOKEN`, API keys. The hard-coded base directory
  is a parameter.
- JSON responses are maps from strings to strings. Non-string values and non-object responses
  are not modelled.
- `Instagram.ExceptionText`: `repr` is supplied by the caller. The model does not reproduce
  Python's rendering of a response dict inside an exception message.
- `Veo.IsSpace`: only ASCII whitespace is stripped. `str.strip` also strips Unicode whitespace.
- `Crew.IsNameChar`: only ASCII letters, digits, `_` and `-` are in the class. Python's `\w` also
  accepts Unicode letters and digits.
- The script file is a map from paths to their decoded text. UTF-8 decoding is not modelled.
- `Veo.Disk.Write`: the write always succeeds. An unwritable path (IOError) is not modelled.
- `Crew.JoinPath`: this is base + `\` + name. `os.path.join`'s handling of a trailing separator
  or an empty base is not modelled. The source's base directory has neither.
- `Crew.OutputText`: an attribute is either absent or a string. An attribute set to None or a
  non-string would make `re.search` raise a TypeError, and that is not modelled.
- The crew's `kickoff`, and `train`, `replay` and `test` in `main.py`, wrap a library that is
  not part of this model. The crew result is an input.
- `run_demo.py` is not part of this model.
- All `print` output and the pydantic/CrewAI `BaseTool` machinery are not modelled.
