/**
 * The Instagram publish flow of `instagram_utils.py`: upload the local video to the media host,
 * create a REELS media object, poll its processing status, then publish it.
 *
 * Every remote call is replaced by an oracle: the `Backend` value holds the decoded response of
 * each call, and the status responses are a finite sequence. The source polls forever; a status
 * sequence that runs out before a terminal status is the model's `NoTerminalStatus` outcome.
 */
module Instagram {
  import opened Common

  /** A decoded JSON object; its values are modelled as strings. */
  type Json = map<string, string>

  const MediaType := "REELS"
  const FinishedMarker := "Finished"
  const ErrorMarker := "Error"
  /** The caption `post_to_instagram` sends when its caller gives none. */
  const DefaultCaption := "Generated automatically \U{2728}"

  /** The remote calls the flow makes, with the arguments that vary between runs. */
  datatype Call =
    | Upload(path: string)
    | Create(mediaType: string, videoUrl: string, caption: string)
    | Poll(creationId: string)
    | Publish(creationId: string)

  /** What the media host and the Graph API answer, in call order. */
  datatype Backend = Backend(upload: Json, create: Json, statuses: seq<Json>, publish: Json)

  /** The exceptions the flow raises. */
  datatype PublishError =
    | VideoNotFound(path: string)
    | MissingSecureUrl(response: Json)
    | CreateFailed(response: Json)
    | ProcessingError(status: string)
    | PublishFailed(response: Json)

  datatype Outcome =
    | Posted(postId: string)
    | Raised(error: PublishError)
    | NoTerminalStatus

  /** How one call of `post_to_instagram` ends, with every remote call it made, in order. */
  datatype PostRun = PostRun(outcome: Outcome, calls: seq<Call>)

  /** The text of an exception, as `str(e)` renders it; `repr` renders a response dict. */
  function ExceptionText(e: PublishError, repr: Json -> string): string
  {
    match e
    case VideoNotFound(path) => "Video not found: " + path
    case MissingSecureUrl(_) => "'secure_url'"
    case CreateFailed(response) => "\U{274C} Failed to create media object: " + repr(response)
    case ProcessingError(st) => "\U{274C} Instagram processing error: " + st
    case PublishFailed(response) => "\U{274C} Failed to publish video: " + repr(response)
  }

  // ---------------------------------------------------------------------------------------------
  // Single steps, each one oracle response plus a key check
  // ---------------------------------------------------------------------------------------------

  /** `upload_to_cloudinary`: the `secure_url` of the upload response; a missing key is a KeyError. */
  function UploadToCloudinary(response: Json): (r: Result<string, PublishError>)
    ensures r.Ok? <==> "secure_url" in response
    ensures r.Ok? ==> r.value == response["secure_url"]
    ensures r.Fail? ==> r.error == MissingSecureUrl(response)
  {
    if "secure_url" in response then Ok(response["secure_url"]) else Fail(MissingSecureUrl(response))
  }

  /** `create_video_object`: the draft's creation id; a response without `id` is rejected. */
  function CreateVideoObject(response: Json): (r: Result<string, PublishError>)
    ensures r.Ok? <==> "id" in response
    ensures r.Ok? ==> r.value == response["id"]
    ensures r.Fail? ==> r.error == CreateFailed(response)
  {
    if "id" !in response then Fail(CreateFailed(response)) else Ok(response["id"])
  }

  /** `publish_video`: the post id; a response without `id` is rejected. */
  function PublishVideo(response: Json): (r: Result<string, PublishError>)
    ensures r.Ok? <==> "id" in response
    ensures r.Ok? ==> r.value == response["id"]
    ensures r.Fail? ==> r.error == PublishFailed(response)
  {
    if "id" !in response then Fail(PublishFailed(response)) else Ok(response["id"])
  }

  /** `status.get("status", "")` on a `check_media_status` response. */
  function StatusText(response: Json): (st: string)
    ensures "status" in response ==> st == response["status"]
    ensures "status" !in response ==> st == ""
  {
    if "status" in response then response["status"] else ""
  }

  predicate IsFinished(st: string) { Contains(st, FinishedMarker) }

  predicate IsError(st: string) { Contains(st, ErrorMarker) }

  /** A status that ends the poll loop, one way or the other. */
  predicate IsTerminal(st: string) { IsFinished(st) || IsError(st) }

  /** No status in `statuses[lo..hi]` ends the poll loop. */
  ghost predicate NoTerminalBetween(statuses: seq<Json>, lo: nat, hi: nat)
  {
    lo <= hi <= |statuses| && forall j :: lo <= j < hi ==> !IsTerminal(StatusText(statuses[j]))
  }

  // ---------------------------------------------------------------------------------------------
  // The poll loop
  // ---------------------------------------------------------------------------------------------

  /** How the poll loop ends; `polls` counts the status requests made. */
  datatype PollResult =
    | Finished(polls: nat)
    | Failed(status: string, polls: nat)
    | Exhausted(polls: nat)

  /** The poll loop from the (i+1)-th status request on: "Finished" is tested before "Error". */
  function PollFrom(statuses: seq<Json>, i: nat): (r: PollResult)
    requires i <= |statuses|
    ensures i <= r.polls <= |statuses|
    ensures !r.Exhausted? ==> i < r.polls
    ensures r.Exhausted? ==> r.polls == |statuses|
    decreases |statuses| - i
  {
    if i == |statuses| then Exhausted(i)
    else
      var st := StatusText(statuses[i]);
      if IsFinished(st) then Finished(i + 1)
      else if IsError(st) then Failed(st, i + 1)
      else PollFrom(statuses, i + 1)
  }

  /** The loop stops exactly at the first terminal status, and reports what that status says. */
  lemma {:induction false} PollFromMeaning(statuses: seq<Json>, i: nat)
    requires i <= |statuses|
    ensures var r := PollFrom(statuses, i);
      && (r.Finished? ==>
            NoTerminalBetween(statuses, i, r.polls - 1) && IsFinished(StatusText(statuses[r.polls - 1])))
      && (r.Failed? ==>
            && NoTerminalBetween(statuses, i, r.polls - 1)
            && r.status == StatusText(statuses[r.polls - 1])
            && !IsFinished(r.status) && IsError(r.status))
      && (r.Exhausted? ==> NoTerminalBetween(statuses, i, |statuses|))
    decreases |statuses| - i
  {
    if i < |statuses| && !IsTerminal(StatusText(statuses[i])) {
      PollFromMeaning(statuses, i + 1);
    }
  }

  /** Conversely, the first terminal status decides the loop's result and poll count. */
  lemma {:induction false} PollStopsAtFirstTerminal(statuses: seq<Json>, i: nat, k: nat)
    requires i <= k < |statuses|
    requires NoTerminalBetween(statuses, i, k) && IsTerminal(StatusText(statuses[k]))
    ensures PollFrom(statuses, i) ==
      if IsFinished(StatusText(statuses[k])) then Finished(k + 1)
      else Failed(StatusText(statuses[k]), k + 1)
    decreases k - i
  {
    if i < k {
      PollStopsAtFirstTerminal(statuses, i + 1, k);
    }
  }

  /** Conversely, without any terminal status every response is consumed. */
  lemma {:induction false} PollExhausts(statuses: seq<Json>, i: nat)
    requires i <= |statuses| && NoTerminalBetween(statuses, i, |statuses|)
    ensures PollFrom(statuses, i) == Exhausted(|statuses|)
    decreases |statuses| - i
  {
    if i < |statuses| {
      PollExhausts(statuses, i + 1);
    }
  }

  // ---------------------------------------------------------------------------------------------
  // post_to_instagram
  // ---------------------------------------------------------------------------------------------

  /** The calls made before polling: the upload, then the create with its url and caption. */
  function Prelude(videoPath: string, videoUrl: string, caption: string): seq<Call>
  {
    [Upload(videoPath), Create(MediaType, videoUrl, caption)]
  }

  /** Specification of `post_to_instagram`; `existing` is the set of paths that exist locally. */
  function PostToInstagram(existing: set<string>, videoPath: string, caption: string := DefaultCaption,
                           b: Backend): PostRun
  {
    if videoPath !in existing then PostRun(Raised(VideoNotFound(videoPath)), [])
    else
      match UploadToCloudinary(b.upload)
      case Fail(e) => PostRun(Raised(e), [Upload(videoPath)])
      case Ok(videoUrl) =>
        match CreateVideoObject(b.create)
        case Fail(e) => PostRun(Raised(e), Prelude(videoPath, videoUrl, caption))
        case Ok(creationId) =>
          var polled := Prelude(videoPath, videoUrl, caption) + Repeat(Poll(creationId), PollFrom(b.statuses, 0).polls);
          match PollFrom(b.statuses, 0)
          case Exhausted(_) => PostRun(NoTerminalStatus, polled)
          case Failed(st, _) => PostRun(Raised(ProcessingError(st)), polled)
          case Finished(_) =>
            var calls := polled + [Publish(creationId)];
            match PublishVideo(b.publish)
            case Fail(e) => PostRun(Raised(e), calls)
            case Ok(postId) => PostRun(Posted(postId), calls)
  }

  /** `post_to_instagram` step by step, with its `while True` poll loop. */
  method Post(existing: set<string>, videoPath: string, caption: string := DefaultCaption, b: Backend)
    returns (outcome: Outcome, calls: seq<Call>)
    ensures PostRun(outcome, calls) == PostToInstagram(existing, videoPath, caption, b)
  {
    calls := [];
    if videoPath !in existing {
      return Raised(VideoNotFound(videoPath)), calls;
    }

    // Step 1: upload to the media host
    calls := calls + [Upload(videoPath)];
    var uploaded := UploadToCloudinary(b.upload);
    if uploaded.Fail? {
      return Raised(uploaded.error), calls;
    }
    var videoUrl := uploaded.value;

    // Step 2: create the media object
    calls := calls + [Create(MediaType, videoUrl, caption)];
    var created := CreateVideoObject(b.create);
    if created.Fail? {
      return Raised(created.error), calls;
    }
    var creationId := created.value;

    // Step 3: poll the processing status
    ghost var before := calls;
    var i := 0;
    while true
      invariant 0 <= i <= |b.statuses|
      invariant calls == before + Repeat(Poll(creationId), i)
      invariant PollFrom(b.statuses, i) == PollFrom(b.statuses, 0)
      decreases |b.statuses| - i
    {
      if i == |b.statuses| {
        return NoTerminalStatus, calls;
      }
      var status := b.statuses[i];
      calls := calls + [Poll(creationId)];
      i := i + 1;
      var st := StatusText(status);
      if IsFinished(st) {
        break;
      }
      if IsError(st) {
        return Raised(ProcessingError(st)), calls;
      }
    }

    // Step 4: publish
    calls := calls + [Publish(creationId)];
    var published := PublishVideo(b.publish);
    if published.Fail? {
      return Raised(published.error), calls;
    }
    outcome := Posted(published.value);
  }

  // ---------------------------------------------------------------------------------------------
  // Properties of the flow
  // ---------------------------------------------------------------------------------------------

  /** The flow gets as far as polling: the file exists, the upload and the create succeeded. */
  predicate ReachesPolling(existing: set<string>, videoPath: string, b: Backend)
  {
    videoPath in existing && "secure_url" in b.upload && "id" in b.create
  }

  /** A missing local file raises before any remote call. */
  lemma MissingFileMakesNoCalls(existing: set<string>, videoPath: string, caption: string, b: Backend)
    requires videoPath !in existing
    ensures PostToInstagram(existing, videoPath, caption, b) == PostRun(Raised(VideoNotFound(videoPath)), [])
  {
  }

  /**
   * Calls come in a fixed order: the upload of the given path, the create with the uploaded url
   * and the caption unchanged, then polls, and a publish only as the last call; every poll and
   * the publish use the creation id returned by the create.
   */
  lemma CallsInFixedOrder(existing: set<string>, videoPath: string, caption: string, b: Backend)
    ensures var calls := PostToInstagram(existing, videoPath, caption, b).calls;
      && (|calls| > 0 ==> videoPath in existing && calls[0] == Upload(videoPath))
      && (|calls| > 1 ==>
            "secure_url" in b.upload && calls[1] == Create(MediaType, b.upload["secure_url"], caption))
      && (forall j :: 2 <= j < |calls| ==>
            "id" in b.create &&
            (calls[j] == Poll(b.create["id"]) || (j == |calls| - 1 && calls[j] == Publish(b.create["id"]))))
  {
  }

  /** A caller that gives no caption creates the media object with the default caption. */
  lemma OmittedCaptionIsDefault(existing: set<string>, videoPath: string, b: Backend)
    requires ReachesPolling(existing, videoPath, b)
    ensures var calls := PostToInstagram(existing, videoPath, b := b).calls;
      |calls| >= 2 && calls[1] == Create(MediaType, b.upload["secure_url"], "Generated automatically \U{2728}")
  {
  }

  /**
   * Publish is the last call and happens at most once, right after exactly `k` polls, where the
   * k-th status is the first terminal one and says "Finished".
   */
  lemma PublishOnlyAfterFinished(existing: set<string>, videoPath: string, caption: string, b: Backend)
    ensures var calls := PostToInstagram(existing, videoPath, caption, b).calls;
      forall j :: 0 <= j < |calls| && calls[j].Publish? ==>
        && j == |calls| - 1
        && 3 <= j <= |b.statuses| + 2
        && calls[j - 1].Poll?
        && NoTerminalBetween(b.statuses, 0, j - 3)
        && IsFinished(StatusText(b.statuses[j - 3]))
  {
    var run := PostToInstagram(existing, videoPath, caption, b);
    if ReachesPolling(existing, videoPath, b) && PollFrom(b.statuses, 0).Finished? {
      PollFromMeaning(b.statuses, 0);
    } else {
      forall j | 0 <= j < |run.calls| ensures !run.calls[j].Publish? {
        CallsInFixedOrder(existing, videoPath, caption, b);
      }
    }
  }

  /** The first terminal status says "Finished": exactly k+1 polls, then one publish with the creation id. */
  lemma FinishedLeadsToPublish(existing: set<string>, videoPath: string, caption: string, b: Backend, k: nat)
    requires ReachesPolling(existing, videoPath, b)
    requires k < |b.statuses| && NoTerminalBetween(b.statuses, 0, k) && IsFinished(StatusText(b.statuses[k]))
    ensures var run := PostToInstagram(existing, videoPath, caption, b);
      && run.calls == Prelude(videoPath, b.upload["secure_url"], caption)
                      + Repeat(Poll(b.create["id"]), k + 1) + [Publish(b.create["id"])]
      && run.outcome == if "id" in b.publish then Posted(b.publish["id"]) else Raised(PublishFailed(b.publish))
  {
    PollStopsAtFirstTerminal(b.statuses, 0, k);
  }

  /** An "Error" status (without "Finished") before any "Finished" raises with that text; no publish. */
  lemma ErrorStatusPreventsPublish(existing: set<string>, videoPath: string, caption: string, b: Backend, k: nat)
    requires ReachesPolling(existing, videoPath, b)
    requires k < |b.statuses| && NoTerminalBetween(b.statuses, 0, k)
    requires IsError(StatusText(b.statuses[k])) && !IsFinished(StatusText(b.statuses[k]))
    ensures var run := PostToInstagram(existing, videoPath, caption, b);
      && run.outcome == Raised(ProcessingError(StatusText(b.statuses[k])))
      && run.calls == Prelude(videoPath, b.upload["secure_url"], caption) + Repeat(Poll(b.create["id"]), k + 1)
      && forall j :: 0 <= j < |run.calls| ==> !run.calls[j].Publish?
  {
    PollStopsAtFirstTerminal(b.statuses, 0, k);
  }

  /** When no status is terminal, every response is polled and the flow never returns. */
  lemma NoTerminalStatusPollsEverything(existing: set<string>, videoPath: string, caption: string, b: Backend)
    requires ReachesPolling(existing, videoPath, b)
    requires NoTerminalBetween(b.statuses, 0, |b.statuses|)
    ensures var run := PostToInstagram(existing, videoPath, caption, b);
      && run.outcome == NoTerminalStatus
      && run.calls == Prelude(videoPath, b.upload["secure_url"], caption) + Repeat(Poll(b.create["id"]), |b.statuses|)
  {
    PollExhausts(b.statuses, 0);
  }

  /** The flow never returns only if the status responses ran out without a terminal one. */
  lemma NoTerminalStatusMeansNoneSeen(existing: set<string>, videoPath: string, caption: string, b: Backend)
    requires PostToInstagram(existing, videoPath, caption, b).outcome == NoTerminalStatus
    ensures ReachesPolling(existing, videoPath, b)
    ensures NoTerminalBetween(b.statuses, 0, |b.statuses|)
  {
    PollFromMeaning(b.statuses, 0);
  }

  /** The returned post id is the publish response's `id`; it is returned only after a publish call. */
  lemma PostedIdIsPublishId(existing: set<string>, videoPath: string, caption: string, b: Backend)
    requires PostToInstagram(existing, videoPath, caption, b).outcome.Posted?
    ensures var run := PostToInstagram(existing, videoPath, caption, b);
      && "id" in b.publish && run.outcome.postId == b.publish["id"]
      && ReachesPolling(existing, videoPath, b)
      && |run.calls| > 0 && run.calls[|run.calls| - 1] == Publish(b.create["id"])
  {
  }

  /** A status that says both "Finished" and "Error" counts as success, since "Finished" is tested first. */
  lemma FinishedTestedBeforeError(statuses: seq<Json>)
    requires |statuses| > 0
    requires IsFinished(StatusText(statuses[0])) && IsError(StatusText(statuses[0]))
    ensures PollFrom(statuses, 0) == Finished(1)
  {
  }

  /** A response without `status` reads as "" and polling goes on. */
  lemma MissingStatusKeepsPolling(statuses: seq<Json>, i: nat)
    requires i < |statuses| && "status" !in statuses[i]
    ensures PollFrom(statuses, i) == PollFrom(statuses, i + 1)
  {
    FirstCharNeeded("", FinishedMarker, 0);
    FirstCharNeeded("", ErrorMarker, 0);
  }

  /** Statuses IN_PROGRESS, IN_PROGRESS, Finished: three polls, then the publish. */
  lemma ThreePollsThenPublish(existing: set<string>, videoPath: string, caption: string, b: Backend)
    requires ReachesPolling(existing, videoPath, b)
    requires b.statuses == [map["status" := "IN_PROGRESS"], map["status" := "IN_PROGRESS"], map["status" := "Finished"]]
    ensures PostToInstagram(existing, videoPath, caption, b).calls ==
      Prelude(videoPath, b.upload["secure_url"], caption) + Repeat(Poll(b.create["id"]), 3) + [Publish(b.create["id"])]
  {
    FirstCharNeeded("IN_PROGRESS", FinishedMarker, 11);
    FirstCharNeeded("IN_PROGRESS", ErrorMarker, 7);
    PrefixContained("Finished", FinishedMarker);
    FinishedLeadsToPublish(existing, videoPath, caption, b, 2);
  }

  /** Statuses IN_PROGRESS, "Error: codec unsupported": the flow raises with that text after two polls. */
  lemma CodecErrorRaises(existing: set<string>, videoPath: string, caption: string, b: Backend)
    requires ReachesPolling(existing, videoPath, b)
    requires b.statuses == [map["status" := "IN_PROGRESS"], map["status" := "Error: codec unsupported"]]
    ensures var run := PostToInstagram(existing, videoPath, caption, b);
      && run.outcome == Raised(ProcessingError("Error: codec unsupported"))
      && run.calls == Prelude(videoPath, b.upload["secure_url"], caption) + Repeat(Poll(b.create["id"]), 2)
  {
    FirstCharNeeded("IN_PROGRESS", FinishedMarker, 11);
    FirstCharNeeded("IN_PROGRESS", ErrorMarker, 7);
    FirstCharNeeded("Error: codec unsupported", FinishedMarker, 24);
    PrefixContained("Error: codec unsupported", ErrorMarker);
    ErrorStatusPreventsPublish(existing, videoPath, caption, b, 1);
  }
}
