/** The FastAPI backend (backend/main.py): file names derived from a session
    id, the audio download's extension swap, the playlist endpoint and the
    merge endpoint with its trim/loop/cut decision. The working directory is
    modelled as the set of file names present in it; yt-dlp, moviepy and the
    agents' foreign services are oracles. */
module Server {
  import opened Basics
  import opened PyStrings
  import VisionAgent
  import MusicAgent

  /** What an endpoint sends back: the playlist JSON, a file, or an
      `HTTPException(status, detail)`. */
  datatype Response =
    | Playlist(videoId: string, vibeAnalysis: Vibe, playlist: MusicAgent.Reply)
    | FileResponse(path: string, filename: string)
    | HttpError(status: int, detail: string)

  /** How the merged video's sound track is made from the downloaded audio:
      from second `from` on, either looped to `duration` seconds when what is
      left (`clipLength` seconds) is too short, or cut to `duration`
      seconds. */
  datatype FinalAudio =
    | Looped(from: real, clipLength: real, duration: real)
    | Cut(from: real, duration: real)

  const VideoExpired := "Video expired."
  const MergeFailedPrefix := "Merge failed: "

  /** Where an upload is stored, and where `merge_video` looks for it. */
  function TempVideoPath(videoId: string): (p: string)
    ensures |p| == |videoId| + 15 && p[..11] == "temp_video_" && p[11..|p| - 4] == videoId
    ensures EndsWith(p, ".mp4")
  {
    "temp_video_" + videoId + ".mp4"
  }

  /** Where the merged video is written. */
  function OutputPath(videoId: string): (p: string)
    ensures |p| == |videoId| + 10 && p[..6] == "final_" && p[6..|p| - 4] == videoId
    ensures EndsWith(p, ".mp4")
  {
    "final_" + videoId + ".mp4"
  }

  /** The text searched on YouTube for a song. */
  function AudioQuery(artistName: string, songName: string): (q: string)
    ensures |q| == |artistName| + |songName| + 18
    ensures q[..|artistName|] == artistName && q[|artistName|..|artistName| + 3] == " - "
    ensures q[|artistName| + 3..|q| - 15] == songName
    ensures EndsWith(q, " official audio")
  {
    artistName + " - " + songName + " official audio"
  }

  /** The URL handed to `extract_info`: the first YouTube search hit. */
  function YtSearch(query: string): (url: string)
    ensures |url| == |query| + 10 && url[..10] == "ytsearch1:" && url[10..] == query
  {
    "ytsearch1:" + query
  }

  /** The name under which the browser is offered the merged video. */
  function ResponseFilename(songName: string): (f: string)
    ensures |f| == |songName| + 13 && f[..9] == "SyncWave_" && f[9..|f| - 4] == songName
    ensures EndsWith(f, ".mp4")
  {
    "SyncWave_" + songName + ".mp4"
  }

  /** `filename.rsplit('.', 1)[0] + '.mp3'`: everything before the last dot
      (the whole name when there is none), then the MP3 extension. */
  function SwapExtension(filename: string): (f: string)
    ensures EndsWith(f, ".mp3")
    ensures 4 <= |f| <= |filename| + 4 && f[..|f| - 4] == filename[..|f| - 4]
    ensures (forall j :: 0 <= j < |filename| ==> filename[j] != '.') <==> f == filename + ".mp3"
    ensures |f| - 4 < |filename| ==>
              filename[|f| - 4] == '.' && forall j :: |f| - 4 < j < |filename| ==> filename[j] != '.'
  {
    RsplitHead(filename, '.') + ".mp3"
  }

  /** Two names ending in different extensions are different names. */
  lemma DifferentExtensions(s: string, t: string, es: string, et: string)
    requires EndsWith(s, es) && EndsWith(t, et) && |es| == |et| && es != et
    ensures s != t
  {
  }

  /** Swapping the extension of an already converted name changes nothing. */
  lemma SwapExtensionIdempotent(filename: string)
    ensures SwapExtension(SwapExtension(filename)) == SwapExtension(filename)
  {
    var f := SwapExtension(filename);
    var head := RsplitHead(filename, '.');
    assert f == head + ".mp3";
    assert f[|head|] == '.';
    assert forall j :: |head| < j < |f| ==> f[j] != '.';
    var h2 := RsplitHead(f, '.');
    assert h2 == head;
  }

  /** Distinct sessions store their uploads under distinct names, and an
      upload is never confused with a merged video. */
  lemma SessionPathsDistinct(a: string, b: string)
    ensures TempVideoPath(a) == TempVideoPath(b) <==> a == b
    ensures OutputPath(a) == OutputPath(b) <==> a == b
    ensures TempVideoPath(a) != OutputPath(b)
  {
    if TempVideoPath(a) == TempVideoPath(b) {
      assert a == TempVideoPath(a)[11..|TempVideoPath(a)| - 4];
      assert b == TempVideoPath(b)[11..|TempVideoPath(b)| - 4];
    }
    if OutputPath(a) == OutputPath(b) {
      assert a == OutputPath(a)[6..|OutputPath(a)| - 4];
      assert b == OutputPath(b)[6..|OutputPath(b)| - 4];
    }
    assert TempVideoPath(a)[0] == 't' && OutputPath(b)[0] == 'f';
  }

  /** The downloaded audio never has the name of an upload or of a merged
      video, so removing it removes neither. */
  lemma AudioPathIsNotVideo(filename: string, videoId: string)
    ensures SwapExtension(filename) != TempVideoPath(videoId)
    ensures SwapExtension(filename) != OutputPath(videoId)
  {
    DifferentExtensions(SwapExtension(filename), TempVideoPath(videoId), ".mp3", ".mp4");
    DifferentExtensions(SwapExtension(filename), OutputPath(videoId), ".mp3", ".mp4");
  }

  /** `download_audio(query)`: yt-dlp downloads the first search hit and
      reports the file it prepared (`ytdlp(url)`), or raises; the audio
      post-processor leaves the MP3 beside it. */
  function DownloadAudio(query: string, ytdlp: string -> Result<string>): (r: Result<string>)
    ensures ytdlp(YtSearch(query)).Err? <==> r.Err?
    ensures r.Ok? ==> r.value == SwapExtension(ytdlp(YtSearch(query)).value)
  {
    match ytdlp(YtSearch(query))
    case Err(msg) => Err(msg)
    case Ok(prepared) => Ok(SwapExtension(prepared))
  }

  /** `/generate-playlist`: the upload is written under the session's name,
      analysed and matched with recommendations. The recommendation step is
      the only one that can raise (an empty `seed_genres`); then the upload
      is removed again and the client gets a 500. `files` is the directory
      before the request, `filesAfter` after it; `offset` is the random
      search offset drawn by the music agent. */
  method GeneratePlaylist<F>(videoId: string, files: set<string>,
                             totalFrames: int, read: int -> Option<F>,
                             generate: seq<F> -> Result<string>, parse: string -> Result<Vibe>,
                             spotify: MusicAgent.Spotify)
    returns (response: Response, filesAfter: set<string>, offset: int)
    ensures 0 <= offset <= MusicAgent.MaxOffset
    ensures var vibe := VisionAgent.Analysis(totalFrames, read, generate, parse);
            match MusicAgent.RecommendationsAt(vibe, offset, spotify)
            case Err(msg) => response == HttpError(500, msg) && filesAfter == files - {TempVideoPath(videoId)}
            case Ok(reply) => response == Playlist(videoId, vibe, reply) && filesAfter == files + {TempVideoPath(videoId)}
    ensures response.HttpError? <==>
              VisionAgent.Analysis(totalFrames, read, generate, parse).seedGenres == Some([])
  {
    var videoPath := TempVideoPath(videoId);
    filesAfter := files + {videoPath};
    var vibe := VisionAgent.AnalyzeVibe(totalFrames, read, generate, parse);
    var playlist;
    playlist, offset := MusicAgent.GetRecommendations(vibe, spotify);
    if playlist.Err? {
      filesAfter := filesAfter - {videoPath};
      return HttpError(500, playlist.msg), filesAfter, offset;
    }
    response := Playlist(videoId, vibe, playlist.value);
  }

  /** `start_time` as `merge_video` sees it: FastAPI's default 0.0 when the
      query parameter is absent. */
  function StartSeconds(startTime: Option<real>): (t: real)
    ensures startTime.None? ==> t == 0.0
    ensures startTime.Some? ==> t == startTime.value
  {
    match startTime
    case None => 0.0
    case Some(t) => t
  }

  /** Steps 3 and 4 of `merge_video`: skip to the chosen start only when it
      is positive, then loop a too-short remainder or cut a long one, so the
      sound track always lasts exactly as long as the video. */
  method FitAudio(audioDuration: real, videoDuration: real, startTime: real) returns (finalAudio: FinalAudio)
    ensures finalAudio.duration == videoDuration
    ensures finalAudio.from == if startTime > 0.0 then startTime else 0.0
    ensures finalAudio.Looped? <==> audioDuration - finalAudio.from < videoDuration
    ensures finalAudio.Looped? ==> finalAudio.clipLength == audioDuration - finalAudio.from
    ensures finalAudio.Cut? ==> finalAudio.from + finalAudio.duration <= audioDuration
  {
    var from := 0.0;
    var clipLength := audioDuration;
    if startTime > 0.0 {
      from := startTime;
      clipLength := audioDuration - startTime;
    }
    if clipLength < videoDuration {
      finalAudio := Looped(from, clipLength, videoDuration);
    } else {
      finalAudio := Cut(from, videoDuration);
    }
  }

  /** `/merge-video`. The upload must still be present; otherwise the
      request fails with 404 before anything is downloaded. Then the song is
      downloaded (`ytdlp`), both clips are opened (`videoDuration`,
      `audioDuration` give their lengths or raise), the sound track is
      fitted and the result written (`write` gives the encoder's error, if
      any). Any exception becomes a 500 "Merge failed: ..."; in every case
      the downloaded audio is removed afterwards. `searched` is the YouTube
      search issued and `plan` the fitted sound track, when reached. */
  method MergeVideo(videoId: string, songName: string, artistName: string, startTime: Option<real>,
                    files: set<string>, ytdlp: string -> Result<string>,
                    videoDuration: string -> Result<real>, audioDuration: string -> Result<real>,
                    write: FinalAudio -> Option<string>)
    returns (response: Response, filesAfter: set<string>, searched: Option<string>, plan: Option<FinalAudio>)
    ensures TempVideoPath(videoId) !in files ==>
              response == HttpError(404, VideoExpired) && filesAfter == files && searched.None? && plan.None?
    ensures TempVideoPath(videoId) in files ==> searched == Some(YtSearch(AudioQuery(artistName, songName)))
    ensures response.FileResponse? || response.HttpError?
    ensures response.HttpError? && response.status != 404 ==>
              && response.status == 500
              && |response.detail| >= |MergeFailedPrefix|
              && response.detail[..|MergeFailedPrefix|] == MergeFailedPrefix
    ensures var audio := DownloadAudio(AudioQuery(artistName, songName), ytdlp);
            TempVideoPath(videoId) in files ==>
              if audio.Err? then response == HttpError(500, MergeFailedPrefix + audio.msg) && filesAfter == files
              else if response.FileResponse? then filesAfter == files + {OutputPath(videoId)} - {audio.value}
              else filesAfter == files - {audio.value}
    ensures response.FileResponse? ==>
              && response == FileResponse(OutputPath(videoId), ResponseFilename(songName))
              && OutputPath(videoId) in filesAfter
              && plan.Some? && write(plan.value).None?
    ensures plan.Some? ==>
              && videoDuration(TempVideoPath(videoId)).Ok?
              && plan.value.duration == videoDuration(TempVideoPath(videoId)).value
              && plan.value.from == if StartSeconds(startTime) > 0.0 then StartSeconds(startTime) else 0.0
    ensures TempVideoPath(videoId) in filesAfter <==> TempVideoPath(videoId) in files
    ensures var audio := DownloadAudio(AudioQuery(artistName, songName), ytdlp);
            TempVideoPath(videoId) in files && audio.Ok? ==>
              var video := videoDuration(TempVideoPath(videoId));
              var sound := audioDuration(audio.value);
              && (video.Err? ==> response == HttpError(500, MergeFailedPrefix + video.msg) && plan.None?)
              && (video.Ok? && sound.Err? ==> response == HttpError(500, MergeFailedPrefix + sound.msg) && plan.None?)
              && (video.Ok? && sound.Ok? ==>
                    && plan.Some?
                    && (plan.value.Looped? <==> sound.value - plan.value.from < plan.value.duration)
                    && (plan.value.Looped? ==> plan.value.clipLength == sound.value - plan.value.from)
                    && (plan.value.Cut? ==> plan.value.from + plan.value.duration <= sound.value)
                    && (write(plan.value).None? <==> response.FileResponse?)
                    && (write(plan.value).Some? ==>
                          response == HttpError(500, MergeFailedPrefix + write(plan.value).value)))
  {
    var videoPath := TempVideoPath(videoId);
    var outputPath := OutputPath(videoId);
    var start := StartSeconds(startTime);
    searched, plan := None, None;
    filesAfter := files;
    if videoPath !in files {
      return HttpError(404, VideoExpired), filesAfter, searched, plan;
    }
    var query := AudioQuery(artistName, songName);
    searched := Some(YtSearch(query));
    var audio := DownloadAudio(query, ytdlp);
    if audio.Err? {
      return HttpError(500, MergeFailedPrefix + audio.msg), filesAfter, searched, plan;
    }
    var audioPath := audio.value;
    AudioPathIsNotVideo(ytdlp(YtSearch(query)).value, videoId);
    filesAfter := filesAfter + {audioPath};
    var video := videoDuration(videoPath);
    var sound := audioDuration(audioPath);
    if video.Err? {
      response := HttpError(500, MergeFailedPrefix + video.msg);
    } else if sound.Err? {
      response := HttpError(500, MergeFailedPrefix + sound.msg);
    } else {
      var finalAudio := FitAudio(sound.value, video.value, start);
      plan := Some(finalAudio);
      var failure := write(finalAudio);
      if failure.Some? {
        response := HttpError(500, MergeFailedPrefix + failure.value);
      } else {
        filesAfter := filesAfter + {outputPath};
        response := FileResponse(outputPath, ResponseFilename(songName));
      }
    }
    filesAfter := filesAfter - {audioPath};
  }
}
