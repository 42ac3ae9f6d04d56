/**
 * The video render tool of `tools/veo_tool.py`: argument validation, prompt resolution, the
 * poll-until-done loop over the generation operation, and writing the first generated video.
 *
 * The generation client is an oracle: the operation returned by the submit call, the finite
 * sequence of operations returned by successive refresh calls, and the bytes each download
 * returns. The source refreshes until done with no deadline; a refresh sequence that runs out
 * before a done operation is the model's `NeverDone` outcome.
 */
module Veo {
  import opened Common

  const DefaultOutputFile := "autogram_output.mp4"
  const GenerationModel := "veo-3.1-generate-preview"

  /** Python truthiness of an optional string: present and non-empty. */
  predicate Truthy(s: Option<string>) { s.Some? && s.value != "" }

  datatype VeoError =
    | MissingPromptAndFile   // the schema's ValueError
    | NoPrompt               // `_run`'s ValueError
    | ScriptNotFound(path: string)
    | NoResponse             // no response (attribute access) or `generated_videos` is None (`[0]` on None)
    | NoGeneratedVideo       // indexing an empty list of generated videos
    | DownloadFailed(video: string)

  // ---------------------------------------------------------------------------------------------
  // Argument schema
  // ---------------------------------------------------------------------------------------------

  datatype ToolArgs = ToolArgs(prompt: Option<string>, fromFile: Option<string>, outputFile: string)

  /** Building `VeoToolSchema`: fails unless `prompt` or `from_file` is a non-empty string. */
  function ValidateArgs(prompt: Option<string>, fromFile: Option<string>, outputFile: string := DefaultOutputFile)
    : (r: Result<ToolArgs, VeoError>)
    ensures r.Fail? <==> (!Truthy(prompt) && !Truthy(fromFile))
    ensures r.Fail? ==> r.error == MissingPromptAndFile
    ensures r.Ok? ==> r.value == ToolArgs(prompt, fromFile, outputFile)
  {
    if !Truthy(prompt) && !Truthy(fromFile) then Fail(MissingPromptAndFile)
    else Ok(ToolArgs(prompt, fromFile, outputFile))
  }

  /** The default output file applies when none is given. */
  lemma DefaultOutputFileApplies(prompt: string)
    requires prompt != ""
    ensures ValidateArgs(Some(prompt), None) == Ok(ToolArgs(Some(prompt), None, "autogram_output.mp4"))
  {
  }

  // ---------------------------------------------------------------------------------------------
  // str.strip
  // ---------------------------------------------------------------------------------------------

  /** The ASCII characters `str.isspace` accepts: tab to carriage return, 0x1c to 0x1f, space. */
  predicate IsSpace(c: char)
  {
    ('\U{0009}' <= c <= '\U{000D}') || ('\U{001C}' <= c <= '\U{001F}') || c == ' '
  }

  ghost predicate AllSpace(s: string)
  {
    forall i :: 0 <= i < |s| ==> IsSpace(s[i])
  }

  /** `s` without its leading whitespace. */
  function TrimStart(s: string): (r: string)
    ensures |r| <= |s| && r == s[|s| - |r|..]
    ensures AllSpace(s[..|s| - |r|])
    ensures r != [] ==> !IsSpace(r[0])
  {
    if s != [] && IsSpace(s[0]) then
      var r := TrimStart(s[1..]);
      assert s[1..][..|s| - 1 - |r|] == s[1..|s| - |r|];
      r
    else s
  }

  /** `s` without its trailing whitespace. */
  function TrimEnd(s: string): (r: string)
    ensures |r| <= |s| && r == s[..|r|]
    ensures AllSpace(s[|r|..])
    ensures r != [] ==> !IsSpace(r[|r| - 1])
  {
    if s != [] && IsSpace(s[|s| - 1]) then
      var r := TrimEnd(s[..|s| - 1]);
      assert s[..|s| - 1][|r|..] == s[|r|..|s| - 1];
      r
    else s
  }

  /** Python's `str.strip()`. */
  function Strip(s: string): string
  {
    TrimEnd(TrimStart(s))
  }

  /** Stripping leaves a contiguous piece of `s` with whitespace only around it, and no edge whitespace. */
  lemma StripMeaning(s: string)
    ensures var r := Strip(s);
      && (exists a :: 0 <= a <= |s| - |r| && r == s[a..a + |r|] && AllSpace(s[..a]) && AllSpace(s[a + |r|..]))
      && (r != [] ==> !IsSpace(r[0]) && !IsSpace(r[|r| - 1]))
  {
    var t := TrimStart(s);
    var r := TrimEnd(t);
    var a := |s| - |t|;
    assert r == s[a..a + |r|];
    assert s[a + |r|..] == t[|r|..];
  }

  /** Stripping gives "" exactly when the text is whitespace only. */
  lemma StripEmptyIffAllSpace(s: string)
    ensures Strip(s) == "" <==> AllSpace(s)
  {
    var t := TrimStart(s);
    if Strip(s) == "" {
      assert t[0..] == t;
      assert t == [];
      assert s[..|s|] == s;
    } else if AllSpace(s) {
      TrimStartOfSpace(s);
    }
  }

  /** Whitespace-only text trims to "". */
  lemma {:induction false} TrimStartOfSpace(s: string)
    requires AllSpace(s)
    ensures TrimStart(s) == ""
  {
    if s != [] {
      assert AllSpace(s[1..]) by {
        forall i | 0 <= i < |s| - 1 ensures IsSpace(s[1..][i]) {
          assert s[1..][i] == s[i + 1];
        }
      }
      TrimStartOfSpace(s[1..]);
    }
  }

  /** Stripping twice is stripping once. */
  lemma StripIdempotent(s: string)
    ensures Strip(Strip(s)) == Strip(s)
  {
    var r := Strip(s);
    StripMeaning(s);
    if r != [] {
      assert TrimStart(r) == r;
      assert TrimEnd(r) == r;
    }
  }

  // ---------------------------------------------------------------------------------------------
  // Prompt resolution
  // ---------------------------------------------------------------------------------------------

  /**
   * The prompt `_run` sends: a non-empty `prompt` as given; otherwise, when `from_file` is set,
   * the stripped text of that file (`scripts` holds the text of the readable files); an empty
   * result is a ValueError.
   */
  function ResolvePrompt(prompt: Option<string>, fromFile: Option<string>, scripts: map<string, string>)
    : (r: Result<string, VeoError>)
    ensures r.Ok? ==> r.value != ""
    ensures Truthy(prompt) ==> r == Ok(prompt.value)
    ensures !Truthy(prompt) && !Truthy(fromFile) ==> r == Fail(NoPrompt)
    ensures !Truthy(prompt) && Truthy(fromFile) && fromFile.value !in scripts ==> r == Fail(ScriptNotFound(fromFile.value))
    ensures !Truthy(prompt) && Truthy(fromFile) && fromFile.value in scripts ==>
      r == if Strip(scripts[fromFile.value]) == "" then Fail(NoPrompt) else Ok(Strip(scripts[fromFile.value]))
  {
    if Truthy(fromFile) && !Truthy(prompt) then
      if fromFile.value !in scripts then Fail(ScriptNotFound(fromFile.value))
      else
        var text := Strip(scripts[fromFile.value]);
        if text == "" then Fail(NoPrompt) else Ok(text)
    else if !Truthy(prompt) then Fail(NoPrompt)
    else Ok(prompt.value)
  }

  /** A non-empty prompt wins: the script file is not read, so its contents do not matter. */
  lemma PromptIgnoresScripts(prompt: Option<string>, fromFile: Option<string>, s1: map<string, string>, s2: map<string, string>)
    requires Truthy(prompt)
    ensures ResolvePrompt(prompt, fromFile, s1) == ResolvePrompt(prompt, fromFile, s2)
  {
  }

  /** A whitespace-only script is a ValueError. */
  lemma WhitespaceScriptHasNoPrompt(prompt: Option<string>, path: string, scripts: map<string, string>)
    requires !Truthy(prompt) && path != "" && path in scripts && AllSpace(scripts[path])
    ensures ResolvePrompt(prompt, Some(path), scripts) == Fail(NoPrompt)
  {
    StripEmptyIffAllSpace(scripts[path]);
  }

  /** Whatever `_run` resolves to a prompt, the schema also accepts. */
  lemma ResolvedPromptPassesSchema(prompt: Option<string>, fromFile: Option<string>, scripts: map<string, string>, outputFile: string)
    requires ResolvePrompt(prompt, fromFile, scripts).Ok?
    ensures ValidateArgs(prompt, fromFile, outputFile).Ok?
  {
  }

  /** The converse fails: the schema accepts a whitespace-only script that `_run` then rejects. */
  lemma SchemaAcceptsWhitespaceScript(scripts: map<string, string>)
    requires "script.txt" in scripts && scripts["script.txt"] == " \n"
    ensures ValidateArgs(None, Some("script.txt")).Ok?
    ensures ResolvePrompt(None, Some("script.txt"), scripts) == Fail(NoPrompt)
  {
    WhitespaceScriptHasNoPrompt(None, "script.txt", scripts);
  }

  // ---------------------------------------------------------------------------------------------
  // The generation operation and its poll loop
  // ---------------------------------------------------------------------------------------------

  /** A generated video; `video` names the file handed to the download call. */
  datatype GeneratedVideo = GeneratedVideo(video: string)

  /** An operation snapshot: whether it is done, and the generated videos of its response, if any. */
  datatype Operation = Operation(done: bool, generatedVideos: Option<seq<GeneratedVideo>>)

  /** The answers of the generation client, in call order. */
  datatype VideoBackend = VideoBackend(submitted: Operation, refreshed: seq<Operation>, downloads: map<string, seq<byte>>)

  /** The operation snapshots the loop can see: the submit's, then each refresh's. */
  function Snapshots(client: VideoBackend): (ops: seq<Operation>)
    ensures |ops| == |client.refreshed| + 1 && ops[0] == client.submitted
  {
    [client.submitted] + client.refreshed
  }

  /** The index of the first done snapshot at or after `i`, if there is one. */
  function FirstDone(ops: seq<Operation>, i: nat): (r: Option<nat>)
    requires i < |ops|
    ensures r.Some? ==> i <= r.value < |ops| && ops[r.value].done
    ensures r.Some? ==> forall j :: i <= j < r.value ==> !ops[j].done
    ensures r.None? ==> forall j :: i <= j < |ops| ==> !ops[j].done
    decreases |ops| - i
  {
    if ops[i].done then Some(i)
    else if i + 1 == |ops| then None
    else FirstDone(ops, i + 1)
  }

  /** Conversely, the first done snapshot at or after `i` is what `FirstDone` finds. */
  lemma {:induction false} FirstDoneAt(ops: seq<Operation>, i: nat, k: nat)
    requires i <= k < |ops| && ops[k].done
    requires forall j :: i <= j < k ==> !ops[j].done
    ensures FirstDone(ops, i) == Some(k)
    decreases k - i
  {
    if i < k {
      FirstDoneAt(ops, i + 1, k);
    }
  }

  /** The calls `_run` makes on the generation client. */
  datatype VeoCall =
    | Generate(model: string, prompt: string)
    | RefreshOperation
    | Download(video: string)

  /** A file written by `_run`. */
  datatype FileWrite = FileWrite(path: string, bytes: seq<byte>)

  datatype RenderOutcome =
    | Rendered(path: string)
    | Raised(error: VeoError)
    | NeverDone

  datatype RenderRun = RenderRun(outcome: RenderOutcome, calls: seq<VeoCall>, written: Option<FileWrite>)

  /** Specification of `VeoTool._run`. */
  function RenderSpec(client: VideoBackend, prompt: Option<string>, fromFile: Option<string>, outputFile: string,
                      scripts: map<string, string>): RenderRun
  {
    match ResolvePrompt(prompt, fromFile, scripts)
    case Fail(e) => RenderRun(Raised(e), [], None)
    case Ok(p) =>
      var ops := Snapshots(client);
      match FirstDone(ops, 0)
      case None => RenderRun(NeverDone, [Generate(GenerationModel, p)] + Repeat(RefreshOperation, |ops| - 1), None)
      case Some(k) =>
        var calls := [Generate(GenerationModel, p)] + Repeat(RefreshOperation, k);
        var videos := ops[k].generatedVideos;
        if videos.None? then RenderRun(Raised(NoResponse), calls, None)
        else if |videos.value| == 0 then RenderRun(Raised(NoGeneratedVideo), calls, None)
        else
          var v := videos.value[0].video;
          if v !in client.downloads then RenderRun(Raised(DownloadFailed(v)), calls + [Download(v)], None)
          else RenderRun(Rendered(outputFile), calls + [Download(v)], Some(FileWrite(outputFile, client.downloads[v])))
  }

  /** The local file system, as far as `_run` writes it. */
  class Disk {
    var files: map<string, seq<byte>>

    constructor (files: map<string, seq<byte>>)
      ensures this.files == files
    {
      this.files := files;
    }

    /** `open(path, "wb").write(bytes)`: the file now holds exactly `bytes`. */
    method Write(path: string, bytes: seq<byte>)
      modifies this
      ensures files == old(files)[path := bytes]
    {
      files := files[path := bytes];
    }
  }

  /** The tool object; `client` answers the generation calls made with `apiKey`. */
  class VeoTool {
    var apiKey: string
    var client: VideoBackend

    constructor (apiKey: string, client: VideoBackend)
      ensures this.apiKey == apiKey && this.client == client
    {
      this.apiKey := apiKey;
      this.client := client;
    }

    /** `_run`: resolve the prompt, submit, refresh until done, write the first video, return the path. */
    method Run(prompt: Option<string> := None, fromFile: Option<string> := None, outputFile: string := DefaultOutputFile,
               scripts: map<string, string>, disk: Disk)
      returns (outcome: RenderOutcome, calls: seq<VeoCall>)
      modifies disk
      ensures var spec := RenderSpec(client, prompt, fromFile, outputFile, scripts);
        && outcome == spec.outcome && calls == spec.calls
        && disk.files == if spec.written.Some? then old(disk.files)[spec.written.value.path := spec.written.value.bytes]
                         else old(disk.files)
    {
      calls := [];
      var text := prompt;
      if Truthy(fromFile) && !Truthy(text) {
        if fromFile.value !in scripts {
          return Raised(ScriptNotFound(fromFile.value)), calls;
        }
        text := Some(Strip(scripts[fromFile.value]));
      }
      if !Truthy(text) {
        return Raised(NoPrompt), calls;
      }
      assert ResolvePrompt(prompt, fromFile, scripts) == Ok(text.value);

      calls := calls + [Generate(GenerationModel, text.value)];
      var operation := client.submitted;
      var i := 0;
      ghost var ops := Snapshots(client);
      while !operation.done
        invariant 0 <= i <= |client.refreshed|
        invariant operation == ops[i]
        invariant calls == [Generate(GenerationModel, text.value)] + Repeat(RefreshOperation, i)
        invariant FirstDone(ops, i) == FirstDone(ops, 0)
        decreases |client.refreshed| - i
      {
        if i == |client.refreshed| {
          return NeverDone, calls;
        }
        calls := calls + [RefreshOperation];
        operation := client.refreshed[i];
        i := i + 1;
      }
      assert FirstDone(ops, 0) == Some(i);

      if operation.generatedVideos.None? {
        return Raised(NoResponse), calls;
      }
      if |operation.generatedVideos.value| == 0 {
        return Raised(NoGeneratedVideo), calls;
      }
      var generated := operation.generatedVideos.value[0];
      calls := calls + [Download(generated.video)];
      if generated.video !in client.downloads {
        return Raised(DownloadFailed(generated.video)), calls;
      }
      var fileBytes := client.downloads[generated.video];
      disk.Write(outputFile, fileBytes);
      outcome := Rendered(outputFile);
    }
  }

  // ---------------------------------------------------------------------------------------------
  // Properties of `_run`
  // ---------------------------------------------------------------------------------------------

  /** Without a prompt nothing is generated and nothing is written. */
  lemma NoPromptNoCalls(client: VideoBackend, prompt: Option<string>, fromFile: Option<string>, outputFile: string,
                        scripts: map<string, string>)
    requires ResolvePrompt(prompt, fromFile, scripts).Fail?
    ensures var run := RenderSpec(client, prompt, fromFile, outputFile, scripts);
      run.outcome == Raised(ResolvePrompt(prompt, fromFile, scripts).error) && run.calls == [] && run.written.None?
  {
  }

  /**
   * With a prompt, generate is the first call and is made once, with the resolved prompt; the
   * refreshes that follow are made only while the snapshot seen so far is not done, and stop at
   * the first done snapshot.
   */
  lemma GenerateOnceThenRefreshWhileNotDone(client: VideoBackend, prompt: Option<string>, fromFile: Option<string>,
                                            outputFile: string, scripts: map<string, string>, p: string)
    requires ResolvePrompt(prompt, fromFile, scripts) == Ok(p)
    ensures var run := RenderSpec(client, prompt, fromFile, outputFile, scripts);
      var ops := Snapshots(client);
      && |run.calls| > 0 && run.calls[0] == Generate(GenerationModel, p)
      && (forall j :: 1 <= j < |run.calls| ==> !run.calls[j].Generate?)
      && (FirstDone(ops, 0).None? ==>
            run.outcome == NeverDone && run.calls == [Generate(GenerationModel, p)] + Repeat(RefreshOperation, |client.refreshed|))
      && (forall k :: FirstDone(ops, 0) == Some(k) ==>
            && run.calls[..k + 1] == [Generate(GenerationModel, p)] + Repeat(RefreshOperation, k)
            && (forall j :: 0 <= j < k ==> !ops[j].done) && ops[k].done
            && (forall j :: k + 1 <= j < |run.calls| ==> run.calls[j].Download?))
  {
    var run := RenderSpec(client, prompt, fromFile, outputFile, scripts);
    var ops := Snapshots(client);
    if FirstDone(ops, 0).Some? {
      var k := FirstDone(ops, 0).value;
      assert run.calls[..k + 1] == [Generate(GenerationModel, p)] + Repeat(RefreshOperation, k);
    }
  }

  /** A rendered result is the output path unchanged, holding exactly the first generated video's bytes. */
  lemma RenderedWritesFirstVideo(client: VideoBackend, prompt: Option<string>, fromFile: Option<string>,
                                 outputFile: string, scripts: map<string, string>)
    requires RenderSpec(client, prompt, fromFile, outputFile, scripts).outcome.Rendered?
    ensures var run := RenderSpec(client, prompt, fromFile, outputFile, scripts);
      var ops := Snapshots(client);
      && run.outcome.path == outputFile
      && FirstDone(ops, 0).Some?
      && var videos := ops[FirstDone(ops, 0).value].generatedVideos;
      && videos.Some? && |videos.value| > 0
      && videos.value[0].video in client.downloads
      && run.written == Some(FileWrite(outputFile, client.downloads[videos.value[0].video]))
      && run.calls[|run.calls| - 1] == Download(videos.value[0].video)
  {
  }

  /** Only a rendered result writes a file. */
  lemma OnlyRenderedWrites(client: VideoBackend, prompt: Option<string>, fromFile: Option<string>,
                           outputFile: string, scripts: map<string, string>)
    ensures var run := RenderSpec(client, prompt, fromFile, outputFile, scripts);
      run.written.Some? <==> run.outcome.Rendered?
  {
  }

  /** A done operation with an empty list of generated videos is an indexing failure; nothing is downloaded. */
  lemma EmptyVideoListFails(client: VideoBackend, prompt: Option<string>, fromFile: Option<string>,
                            outputFile: string, scripts: map<string, string>, k: nat)
    requires ResolvePrompt(prompt, fromFile, scripts).Ok?
    requires k <= |client.refreshed| && Snapshots(client)[k].done
    requires forall j :: 0 <= j < k ==> !Snapshots(client)[j].done
    requires Snapshots(client)[k].generatedVideos == Some([])
    ensures var run := RenderSpec(client, prompt, fromFile, outputFile, scripts);
      && run.outcome == Raised(NoGeneratedVideo) && run.written.None?
      && forall j :: 0 <= j < |run.calls| ==> !run.calls[j].Download?
  {
    FirstDoneAt(Snapshots(client), 0, k);
  }
}
