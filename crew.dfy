/**
 * What `main.py`'s `run()` does with the crew's result: pick the output text, look for an MP4
 * file name in it, and post that file to Instagram when one is found.
 */
module Crew {
  import opened Common
  import Instagram

  const Caption := "Neuroscience Facts"
  const Extension := ".mp4"
  const CrewErrorPrefix := "Error while running crew: "
  /** `os.path.join`'s separator on Windows, where the source's hard-coded base directory lives. */
  const PathSeparator := '\\'

  // ---------------------------------------------------------------------------------------------
  // Output text
  // ---------------------------------------------------------------------------------------------

  /** The crew result: the attributes `run()` probes (None when absent) and its `str()` text. */
  datatype CrewOutput = CrewOutput(finalOutput: Option<string>, rawOutput: Option<string>, output: Option<string>, text: string)

  /** The first present attribute of `final_output`, `raw_output`, `output`; otherwise `str(result)`. */
  function OutputText(result: CrewOutput): (t: string)
    ensures result.finalOutput.Some? ==> t == result.finalOutput.value
    ensures result.finalOutput.None? && result.rawOutput.Some? ==> t == result.rawOutput.value
    ensures result.finalOutput.None? && result.rawOutput.None? && result.output.Some? ==> t == result.output.value
    ensures result.finalOutput.None? && result.rawOutput.None? && result.output.None? ==> t == result.text
  {
    if result.finalOutput.Some? then result.finalOutput.value
    else if result.rawOutput.Some? then result.rawOutput.value
    else if result.output.Some? then result.output.value
    else result.text
  }

  /** A present attribute hides every later one: changing those does not change the text. */
  lemma EarlierAttributeWins(result: CrewOutput, other: CrewOutput)
    requires result.finalOutput.Some? ==> other.finalOutput == result.finalOutput
    requires result.finalOutput.None? ==> other.finalOutput.None? && other.rawOutput == result.rawOutput
    requires result.finalOutput.None? && result.rawOutput.None? ==> other.output == result.output
    requires result.finalOutput.None? && result.rawOutput.None? && result.output.None? ==> other.text == result.text
    ensures OutputText(other) == OutputText(result)
  {
  }

  // ---------------------------------------------------------------------------------------------
  // re.search(r'([\w\-_]+\.mp4)', text)
  // ---------------------------------------------------------------------------------------------

  /** The character class `[\w\-_]`, with `\w` read as ASCII letters, digits and underscore. */
  predicate IsNameChar(c: char)
  {
    ('a' <= c <= 'z') || ('A' <= c <= 'Z') || ('0' <= c <= '9') || c == '_' || c == '-'
  }

  /** The pattern matches `s[i..j + 4]`: a non-empty run of class characters, then ".mp4". */
  ghost predicate MatchSpan(s: string, i: nat, j: nat)
  {
    && i < j && j + 4 <= |s|
    && (forall k :: i <= k < j ==> IsNameChar(s[k]))
    && s[j..j + 4] == Extension
  }

  /** The match object: the matched text is `s[start..end]`. */
  datatype Match = Match(start: nat, end: nat)

  /** The end of the run of class characters that starts at `i`. */
  function RunEnd(s: string, i: nat): (e: nat)
    requires i <= |s|
    ensures i <= e <= |s|
    ensures forall k :: i <= k < e ==> IsNameChar(s[k])
    ensures e < |s| ==> !IsNameChar(s[e])
    decreases |s| - i
  {
    if i < |s| && IsNameChar(s[i]) then RunEnd(s, i + 1) else i
  }

  /** The attempt at each start position from `i` on, leftmost first; the greedy run then ".mp4". */
  function SearchFrom(s: string, i: nat): (r: Option<Match>)
    requires i <= |s|
    ensures r.Some? ==> i <= r.value.start && r.value.start + 4 < r.value.end <= |s|
    decreases |s| - i
  {
    if i == |s| then None
    else
      var e := RunEnd(s, i);
      if i < e && e + 4 <= |s| && s[e..e + 4] == Extension then Some(Match(i, e + 4))
      else SearchFrom(s, i + 1)
  }

  /** `re.search` of the MP4 pattern. */
  function Search(s: string): Option<Match>
  {
    SearchFrom(s, 0)
  }

  /** `match.group(1)`. */
  function Group(s: string, m: Match): string
    requires m.start <= m.end <= |s|
  {
    s[m.start..m.end]
  }

  /** A match at `i` ends where the run of class characters from `i` ends, so each start has at most one. */
  lemma MatchEndIsRunEnd(s: string, i: nat, j: nat)
    requires MatchSpan(s, i, j)
    ensures RunEnd(s, i) == j
  {
    assert s[j] == s[j..j + 4][0] == '.';
  }

  /** When the attempt at start `i` fails, no match starts at `i`. */
  lemma NoMatchAtFailedStart(s: string, i: nat)
    requires i < |s|
    requires var e := RunEnd(s, i); !(i < e && e + 4 <= |s| && s[e..e + 4] == Extension)
    ensures forall j: nat :: !MatchSpan(s, i, j)
  {
    forall j: nat | MatchSpan(s, i, j) ensures RunEnd(s, i) == j {
      MatchEndIsRunEnd(s, i, j);
    }
  }

  /** The attempts from `i` on find the leftmost match at or after `i`, and nothing when there is none. */
  lemma {:induction false} SearchFromMeaning(s: string, i: nat)
    requires i <= |s|
    ensures var r := SearchFrom(s, i);
      && (r.Some? ==> MatchSpan(s, r.value.start, r.value.end - 4))
      && (r.Some? ==> forall i': nat, j: nat :: i <= i' < r.value.start ==> !MatchSpan(s, i', j))
      && (r.None? ==> forall i': nat, j: nat :: i <= i' ==> !MatchSpan(s, i', j))
    decreases |s| - i
  {
    if i < |s| {
      var e := RunEnd(s, i);
      if i < e && e + 4 <= |s| && s[e..e + 4] == Extension {
        assert SearchFrom(s, i) == Some(Match(i, e + 4));
        assert MatchSpan(s, i, e);
      } else {
        var r := SearchFrom(s, i + 1);
        assert SearchFrom(s, i) == r;
        NoMatchAtFailedStart(s, i);
        SearchFromMeaning(s, i + 1);
        if r.Some? {
          forall i': nat, j: nat | i <= i' < r.value.start ensures !MatchSpan(s, i', j) {
            if i' == i {
              assert !MatchSpan(s, i, j);
            }
          }
        } else {
          forall i': nat, j: nat | i <= i' ensures !MatchSpan(s, i', j) {
            if i' == i {
              assert !MatchSpan(s, i, j);
            }
          }
        }
      }
    }
  }

  /**
   * The search finds the leftmost match: its text is a non-empty run of class characters followed
   * by ".mp4", no match starts earlier, and there is no match at all when it finds none.
   */
  lemma SearchIsLeftmostMatch(s: string)
    ensures var r := Search(s);
      && (r.Some? ==> MatchSpan(s, r.value.start, r.value.end - 4))
      && (r.Some? ==> forall i: nat, j: nat :: i < r.value.start ==> !MatchSpan(s, i, j))
      && (r.None? ==> forall i: nat, j: nat :: !MatchSpan(s, i, j))
  {
    SearchFromMeaning(s, 0);
  }

  /** Conversely, the leftmost match is the one found. */
  lemma LeftmostMatchIsFound(s: string, i: nat, j: nat)
    requires MatchSpan(s, i, j)
    requires forall i': nat, j': nat :: i' < i ==> !MatchSpan(s, i', j')
    ensures Search(s) == Some(Match(i, j + 4))
  {
    SearchIsLeftmostMatch(s);
    var r := Search(s);
    assert r.Some?;
    assert r.value.start == i;
    MatchEndIsRunEnd(s, i, j);
    MatchEndIsRunEnd(s, i, r.value.end - 4);
  }

  /** The found name ends in ".mp4" and holds no space or path separator before it. */
  lemma FoundNameIsPlain(s: string)
    requires Search(s).Some?
    ensures var name := Group(s, Search(s).value);
      && |name| > 4 && name[|name| - 4..] == Extension
      && forall k :: 0 <= k < |name| - 4 ==> IsNameChar(name[k]) && name[k] != ' ' && name[k] != '/' && name[k] != '\\'
  {
    SearchIsLeftmostMatch(s);
    var m := Search(s).value;
    var name := Group(s, m);
    assert name[|name| - 4..] == s[m.end - 4..m.end];
    forall k | 0 <= k < |name| - 4 ensures IsNameChar(name[k]) {
      assert name[k] == s[m.start + k];
    }
  }

  /** "a.b.mp4" yields "b.mp4": the dot before "b" ends the first run. */
  lemma DotSplitsName()
    ensures Search("a.b.mp4") == Some(Match(2, 7))
    ensures Group("a.b.mp4", Match(2, 7)) == "b.mp4"
  {
    var s := "a.b.mp4";
    assert RunEnd(s, 3) == 3;
    assert RunEnd(s, 2) == 3;
    assert RunEnd(s, 1) == 1;
    assert RunEnd(s, 0) == 1;
    assert s[1..5] != Extension by { assert s[1..5][1] == 'b'; }
    assert s[3..7] == Extension;
  }

  /** "clip.mp4x" yields "clip.mp4": nothing is required after ".mp4". */
  lemma NoBoundaryAfterExtension()
    ensures Search("clip.mp4x") == Some(Match(0, 8))
    ensures Group("clip.mp4x", Match(0, 8)) == "clip.mp4"
  {
    var s := "clip.mp4x";
    assert RunEnd(s, 4) == 4;
    assert RunEnd(s, 3) == 4;
    assert RunEnd(s, 2) == 4;
    assert RunEnd(s, 1) == 4;
    assert RunEnd(s, 0) == 4;
    assert s[4..8] == Extension;
  }

  // ---------------------------------------------------------------------------------------------
  // The post decision and run()
  // ---------------------------------------------------------------------------------------------

  /** `os.path.join(base_dir, name)` for a name without separators: base, separator, name. */
  function JoinPath(baseDir: string, name: string): (p: string)
    ensures |p| == |baseDir| + 1 + |name| && p[..|baseDir|] == baseDir && p[|baseDir|] == PathSeparator
    ensures p[|baseDir| + 1..] == name
  {
    baseDir + [PathSeparator] + name
  }

  /** The arguments `run()` passes to `post_to_instagram`. */
  datatype PostRequest = PostRequest(videoPath: string, caption: string)

  /** Whether, and with what, `run()` posts: only when the output text names an MP4 file. */
  function PostDecision(text: string, baseDir: string): (r: Option<PostRequest>)
    ensures r.None? <==> Search(text).None?
    ensures r.Some? ==> r.value.caption == Caption
    ensures r.Some? ==> r.value.videoPath == JoinPath(baseDir, Group(text, Search(text).value))
  {
    match Search(text)
    case None => None
    case Some(m) => Some(PostRequest(JoinPath(baseDir, Group(text, m)), Caption))
  }

  datatype CrewOutcome =
    | Returned
    | RunFailed(cause: Instagram.PublishError)
    | Diverged

  /** One `run()`: how it ends, its calls of `post_to_instagram`, and the remote calls those made. */
  datatype CrewRun = CrewRun(outcome: CrewOutcome, posts: seq<PostRequest>, calls: seq<Instagram.Call>)

  /** The message of the exception `run()` raises when the post fails. */
  function FailureMessage(cause: Instagram.PublishError, repr: Instagram.Json -> string): (m: string)
    ensures |m| >= |CrewErrorPrefix| && m[..|CrewErrorPrefix|] == CrewErrorPrefix
    ensures m[|CrewErrorPrefix|..] == Instagram.ExceptionText(cause, repr)
  {
    CrewErrorPrefix + Instagram.ExceptionText(cause, repr)
  }

  /** Specification of `run()` after the crew has produced `result`. */
  function RunSpec(result: CrewOutput, baseDir: string, existing: set<string>, ig: Instagram.Backend): CrewRun
  {
    match PostDecision(OutputText(result), baseDir)
    case None => CrewRun(Returned, [], [])
    case Some(req) =>
      var post := Instagram.PostToInstagram(existing, req.videoPath, req.caption, ig);
      var outcome := match post.outcome
        case Posted(_) => Returned
        case Raised(e) => RunFailed(e)
        case NoTerminalStatus => Diverged;
      CrewRun(outcome, [req], post.calls)
  }

  /** `run()` from the crew's result on. */
  method Run(result: CrewOutput, baseDir: string, existing: set<string>, ig: Instagram.Backend)
    returns (outcome: CrewOutcome, posts: seq<PostRequest>, calls: seq<Instagram.Call>)
    ensures CrewRun(outcome, posts, calls) == RunSpec(result, baseDir, existing, ig)
  {
    var outputText := OutputText(result);
    var found := Search(outputText);
    posts, calls := [], [];
    if found.Some? {
      var videoFilename := Group(outputText, found.value);
      var videoPath := JoinPath(baseDir, videoFilename);
      posts := [PostRequest(videoPath, Caption)];
      var posted;
      posted, calls := Instagram.Post(existing, videoPath, Caption, ig);
      match posted
      case Posted(_) => return Returned, posts, calls;
      case Raised(e) => return RunFailed(e), posts, calls;
      case NoTerminalStatus => return Diverged, posts, calls;
    }
    outcome := Returned;
  }

  /** No MP4 name in the output: nothing is posted and no remote call is made. */
  lemma NoMatchNoPost(result: CrewOutput, baseDir: string, existing: set<string>, ig: Instagram.Backend)
    requires forall i: nat, j: nat :: !MatchSpan(OutputText(result), i, j)
    ensures RunSpec(result, baseDir, existing, ig) == CrewRun(Returned, [], [])
  {
    SearchIsLeftmostMatch(OutputText(result));
  }

  /**
   * An MP4 name in the output: `post_to_instagram` is called exactly once, with the base
   * directory joined to the leftmost name and the fixed caption, and the run's remote calls are
   * that post's.
   */
  lemma MatchPostsOnce(result: CrewOutput, baseDir: string, existing: set<string>, ig: Instagram.Backend, i: nat, j: nat)
    requires MatchSpan(OutputText(result), i, j)
    requires forall i': nat, j': nat :: i' < i ==> !MatchSpan(OutputText(result), i', j')
    ensures var run := RunSpec(result, baseDir, existing, ig);
      var req := PostRequest(JoinPath(baseDir, OutputText(result)[i..j + 4]), "Neuroscience Facts");
      && run.posts == [req]
      && run.calls == Instagram.PostToInstagram(existing, req.videoPath, req.caption, ig).calls
  {
    LeftmostMatchIsFound(OutputText(result), i, j);
  }

  /** `run()` fails exactly when its one post raises, with that exception as the cause. */
  lemma FailureIsPostFailure(result: CrewOutput, baseDir: string, existing: set<string>, ig: Instagram.Backend)
    ensures var run := RunSpec(result, baseDir, existing, ig);
      && |run.posts| <= 1
      && (run.posts == [] ==> run.outcome == Returned)
      && (|run.posts| == 1 ==>
            var post := Instagram.PostToInstagram(existing, run.posts[0].videoPath, run.posts[0].caption, ig);
            && (run.outcome == Returned <==> post.outcome.Posted?)
            && (run.outcome == Diverged <==> post.outcome == Instagram.NoTerminalStatus)
            && forall e :: run.outcome == RunFailed(e) <==> post.outcome == Instagram.Raised(e))
  {
  }
}
