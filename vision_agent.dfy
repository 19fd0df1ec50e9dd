/** The vision agent (backend/vision_agent.py): choose three frame positions,
    keep the frames that could be read, send them to the language model, and
    turn its reply into the vibe JSON. OpenCV, Pillow, Gemini and `json.loads`
    are oracles passed in as functions. */
module VisionAgent {
  import opened Basics
  import opened PyStrings

  /** The frame positions sampled from a video with `totalFrames` frames:
      the first, the middle and the tenth from the end, in that order.
      The middle one is Python's floor division `totalFrames // 2`. */
  function Checkpoints(totalFrames: int): (points: seq<int>)
    ensures |points| == 3
    ensures points[0] == 0 && points[2] == totalFrames - 10
    ensures 2 * points[1] <= totalFrames < 2 * points[1] + 2
  {
    [0, totalFrames / 2, totalFrames - 10]
  }

  /** All three positions are frames of the video exactly when it has at
      least ten frames. They are in non-decreasing order exactly from nineteen
      frames on; equal neighbours are possible (19 frames give 0, 9, 9). */
  lemma CheckpointsInsideVideo(totalFrames: int)
    ensures (forall k :: 0 <= k < 3 ==> 0 <= Checkpoints(totalFrames)[k] < totalFrames)
            <==> totalFrames >= 10
    ensures Checkpoints(totalFrames)[0] <= Checkpoints(totalFrames)[1] <= Checkpoints(totalFrames)[2]
            <==> totalFrames >= 19
  {
  }

  /** The frames obtained by seeking to each of `points` in turn and reading:
      `read(p)` is `Some(frame)` when `cam.read()` succeeds at position `p`. */
  function Collected<F>(points: seq<int>, read: int -> Option<F>): (frames: seq<F>)
    ensures |frames| <= |points|
  {
    if points == [] then []
    else
      var earlier := Collected(points[..|points| - 1], read);
      match read(points[|points| - 1])
      case Some(frame) => earlier + [frame]
      case None => earlier
  }

  /** The positions whose read succeeded, in the order they were visited. */
  function Readable<F>(points: seq<int>, read: int -> Option<F>): (ok: seq<int>)
    ensures |ok| <= |points|
    ensures forall k :: 0 <= k < |ok| ==> read(ok[k]).Some? && ok[k] in points
    ensures forall k :: 0 <= k < |points| && read(points[k]).Some? ==> points[k] in ok
  {
    if points == [] then []
    else
      var earlier := Readable(points[..|points| - 1], read);
      if read(points[|points| - 1]).Some? then earlier + [points[|points| - 1]] else earlier
  }

  /** A position is readable exactly as often as it was visited when its
      read succeeds, and never when it fails. */
  lemma {:induction false} ReadableCounts<F>(points: seq<int>, read: int -> Option<F>, p: int)
    ensures multiset(Readable(points, read))[p] == if read(p).Some? then multiset(points)[p] else 0
  {
    if points != [] {
      var init := points[..|points| - 1];
      var last := points[|points| - 1];
      ReadableCounts(init, read, p);
      assert points == init + [last];
      assert multiset(points) == multiset(init) + multiset{last};
      if read(last).Some? {
        assert multiset(Readable(points, read)) == multiset(Readable(init, read)) + multiset{last};
      }
    }
  }

  /** The readable positions keep the order in which they were visited. */
  lemma {:induction false} ReadableInOrder<F>(points: seq<int>, read: int -> Option<F>)
    ensures IsSubsequence(Readable(points, read), points)
  {
    if points != [] {
      var init := points[..|points| - 1];
      var last := points[|points| - 1];
      ReadableInOrder(init, read);
      var ok := Readable(points, read);
      if read(last).Some? {
        assert ok[..|ok| - 1] == Readable(init, read);
      } else {
        SubsequenceOfPrefix(Readable(init, read), init, last);
        assert init + [last] == points;
      }
    }
  }

  /** There is one frame per successful read, in the order of the positions:
      the k-th frame is the one read at the k-th readable position. */
  lemma {:induction false} CollectedFollowsReads<F>(points: seq<int>, read: int -> Option<F>)
    ensures |Collected(points, read)| == |Readable(points, read)|
    ensures forall k :: 0 <= k < |Collected(points, read)| ==>
              read(Readable(points, read)[k]) == Some(Collected(points, read)[k])
  {
    if points != [] {
      CollectedFollowsReads(points[..|points| - 1], read);
    }
  }

  /** When every read succeeds nothing is dropped; when every read fails the
      result is empty. */
  lemma {:induction false} CollectedExtremes<F>(points: seq<int>, read: int -> Option<F>)
    ensures (forall k :: 0 <= k < |points| ==> read(points[k]).Some?) ==> |Collected(points, read)| == |points|
    ensures (forall k :: 0 <= k < |points| ==> read(points[k]).None?) ==> Collected(points, read) == []
  {
    if points != [] {
      var init := points[..|points| - 1];
      assert forall k :: 0 <= k < |init| ==> init[k] == points[k];
      CollectedExtremes(init, read);
    }
  }

  /** `extract_frames`: seek to each checkpoint, read, keep what was read. */
  method ExtractFrames<F>(totalFrames: int, read: int -> Option<F>) returns (frames: seq<F>)
    ensures frames == Collected(Checkpoints(totalFrames), read)
    ensures |frames| <= 3
  {
    var points := Checkpoints(totalFrames);
    frames := [];
    for i := 0 to |points|
      invariant frames == Collected(points[..i], read)
    {
      assert points[..i + 1][..i] == points[..i];
      var ret := read(points[i]);
      if ret.Some? {
        frames := frames + [ret.value];
      }
    }
    assert points[..|points|] == points;
  }

  /** The cleanup applied to the model's reply before parsing:
      `text.replace("```json", "").replace("```", "").strip()`.
      No Markdown fence survives it. */
  function CleanJsonText(text: string): (r: string)
    ensures !Contains(r, "```")
    ensures r == [] || (!IsSpace(r[0]) && !IsSpace(r[|r| - 1]))
  {
    var unfenced := RemoveAll(RemoveAll(text, "```json"), "```");
    RemoveTicksLeavesNoTriple(RemoveAll(text, "```json"));
    StripIsPiece(unfenced);
    NoTriplesInPiece(unfenced, Strip(unfenced));
    Strip(unfenced)
  }

  /** A reply without triple backticks and without surrounding whitespace
      is its own cleanup. */
  lemma CleanJsonTextFixedPoint(text: string)
    requires !Contains(text, "```")
    requires text == [] || (!IsSpace(text[0]) && !IsSpace(text[|text| - 1]))
    ensures CleanJsonText(text) == text
  {
    AbsentPrefixOfPattern(text, "```json", "```");
    RemoveAllAbsent(text, "```json");
    RemoveAllAbsent(text, "```");
    StripFixedPoint(text);
  }

  /** Cleaning an already cleaned reply changes nothing. */
  lemma CleanJsonTextIdempotent(text: string)
    ensures CleanJsonText(CleanJsonText(text)) == CleanJsonText(text)
  {
    CleanJsonTextFixedPoint(CleanJsonText(text));
  }

  /** A reply without backticks and without surrounding whitespace is
      passed to the parser as it is. */
  lemma CleanJsonTextKeepsPlainText(text: string)
    requires forall k :: 0 <= k < |text| ==> text[k] != '`'
    requires text == [] || (!IsSpace(text[0]) && !IsSpace(text[|text| - 1]))
    ensures CleanJsonText(text) == text
  {
    AbsentFirstChar(text, "```");
    CleanJsonTextFixedPoint(text);
  }

  /** A reply fenced as "```json" + body + "```", possibly followed by
      whitespace, reaches the parser as the body with its surrounding
      whitespace stripped: the cleanup removes the fence and keeps the JSON. */
  lemma CleanJsonTextUnwraps(body: string, trailing: string)
    requires NoBacktick(body) && AllBlank(trailing, 0, |trailing|)
    ensures CleanJsonText("```json" + body + "```" + trailing) == Strip(body)
  {
    var text := "```json" + body + "```" + trailing;
    var inner := body + "```" + trailing;
    assert text[..7] == "```json" && text[7..] == inner;
    TagAbsentAfterFence(body, trailing);
    RemoveAllAbsent(inner, "```json");
    assert RemoveAll(text, "```json") == inner;
    BlankHasNoBacktick(trailing);
    RemoveAllAroundOne(body, "```", trailing);
    StripBlankTail(body, trailing);
  }

  /** The error object `{"error": msg}`. */
  function ErrorVibe(msg: string): (v: Vibe)
    ensures v.error == Some(msg) && v.seedGenres.None? && v.description.None?
  {
    Vibe(None, None, Some(msg))
  }

  /** The vibe that `analyze_vibe` returns for the model's reply `reply`: the
      parsed cleaned text, or the error object when the model or the parser
      raised. */
  function VibeOfReply(reply: Result<string>, parse: string -> Result<Vibe>): (v: Vibe)
    ensures reply.Err? ==> v == ErrorVibe(reply.msg)
    ensures reply.Ok? && parse(CleanJsonText(reply.value)).Err? ==>
              v == ErrorVibe(parse(CleanJsonText(reply.value)).msg)
    ensures reply.Ok? && parse(CleanJsonText(reply.value)).Ok? ==>
              v == parse(CleanJsonText(reply.value)).value
  {
    match reply
    case Err(msg) => ErrorVibe(msg)
    case Ok(text) =>
      match parse(CleanJsonText(text))
      case Ok(v) => v
      case Err(msg) => ErrorVibe(msg)
  }

  /** `analyze_vibe` as a whole: the frames collected at the checkpoints go
      to the model (`generate`, which also sees the fixed prompt). */
  function Analysis<F>(totalFrames: int, read: int -> Option<F>,
                       generate: seq<F> -> Result<string>, parse: string -> Result<Vibe>): (vibe: Vibe)
    ensures var reply := generate(Collected(Checkpoints(totalFrames), read));
            reply.Err? ==> vibe == ErrorVibe(reply.msg)
  {
    VibeOfReply(generate(Collected(Checkpoints(totalFrames), read)), parse)
  }

  /** `analyze_vibe`: the frames go to the model; its reply is cleaned and
      parsed. A failure of either yields the error object instead of
      raising. */
  method AnalyzeVibe<F>(totalFrames: int, read: int -> Option<F>,
                        generate: seq<F> -> Result<string>, parse: string -> Result<Vibe>)
    returns (vibe: Vibe)
    ensures vibe == Analysis(totalFrames, read, generate, parse)
    ensures generate(Collected(Checkpoints(totalFrames), read)).Err? ==>
              vibe.error.Some? && vibe.seedGenres.None?
  {
    var frames := ExtractFrames(totalFrames, read);
    var reply := generate(frames);
    if reply.Err? {
      return ErrorVibe(reply.msg);
    }
    var jsonText := CleanJsonText(reply.value);
    var parsed := parse(jsonText);
    if parsed.Err? {
      return ErrorVibe(parsed.msg);
    }
    vibe := parsed.value;
  }

  /** When the analysis fails, the error object carries no genre, so the
      recommendations fall back to the default genre. */
  lemma FailedAnalysisHasNoGenre<F>(totalFrames: int, read: int -> Option<F>,
                                    generate: seq<F> -> Result<string>, parse: string -> Result<Vibe>)
    requires Analysis(totalFrames, read, generate, parse).error.Some?
    requires forall text :: parse(text).Ok? ==> parse(text).value.error.None?
    ensures Analysis(totalFrames, read, generate, parse).seedGenres.None?
  {
  }
}
