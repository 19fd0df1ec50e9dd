/** The browser side (frontend/app/components/VibeMatcher.tsx): the
    component's state, its handlers and the trim slider. Each `await`ed
    request is split into the handler's first half, which returns the
    request it sends, and its continuation, which receives the request's
    `Outcome`. Rendering decides which handlers a user can reach; the model
    leaves every handler callable, as the handlers themselves check nothing
    beyond what they test in code. */
module Frontend {
  import opened Basics
  import MusicAgent

  /** The chosen upload (a browser `File`); only its identity matters here. */
  datatype VideoFile = VideoFile(name: string)

  /** The `result` object: `video_id`, `vibe_analysis` and `playlist`. The
      first two are absent when a search filled `result` before any upload
      succeeded; `playlist` is whatever JSON the backend sent, a track list
      or an error object. */
  datatype Analysis = Analysis(videoId: Option<string>, vibe: Option<Vibe>, playlist: MusicAgent.Reply)

  /** How an awaited request ended: the response body, or a thrown error
      (network failure or an HTTP error status). */
  datatype Outcome<T> = Success(payload: T) | Failure

  /** The query parameters of the `/merge-video` request. `videoId` is
      absent when `result` has no `video_id`. */
  datatype MergeRequest = MergeRequest(videoId: Option<string>, songName: string, artistName: string, startTime: int)

  const UploadAlert := "Error connecting to backend. Check console."
  const SearchAlert := "Search failed"
  const MergeAlert := "Merge failed. Video session might have expired."
  const PreviewVolume := 0.5
  /** The slider bound used when the computed one is zero. */
  const FallbackMax := 180

  /** `Math.round(ms / 1000)`: the nearest whole second, halves rounded up. */
  function RoundSeconds(ms: int): (s: int)
    ensures 1000 * s - 500 <= ms < 1000 * s + 500
  {
    (ms + 500) / 1000
  }

  /** The slider's `max`: ten seconds short of the rounded song length, and
      180 when that difference is 0 (JavaScript's `||` replaces only the
      falsy 0). Nothing keeps it from being negative. */
  function SliderMax(durationMs: int): (m: int)
    ensures m != 0
    ensures m == RoundSeconds(durationMs) - 10 || m == FallbackMax
  {
    var m := RoundSeconds(durationMs) - 10;
    if m == 0 then FallbackMax else m
  }

  /** The values the range input can report: whole seconds from `min="0"`
      to `max`; a `max` below the minimum leaves only 0. */
  predicate SliderAllows(durationMs: int, v: int) {
    0 <= v && (v == 0 || v <= SliderMax(durationMs))
  }

  /** A 200-second song can start anywhere up to second 190. */
  lemma SliderMaxExample()
    ensures SliderMax(200000) == 190
  {
  }

  /** For songs longer than ten seconds, starting at the slider's maximum
      still leaves at least nine and a half seconds of song, and the bound is
      not the fallback unless the song rounds to 190 seconds. */
  lemma SliderLeavesTenSeconds(durationMs: int)
    requires RoundSeconds(durationMs) > 10
    ensures 1000 * SliderMax(durationMs) + 9500 <= durationMs
    ensures SliderMax(durationMs) == FallbackMax ==> 189500 <= durationMs < 190500
  {
  }

  /** The fallback 180 appears exactly for songs that round to 10 seconds
      (and for those that round to 190 seconds, where it is the computed
      bound); for a song of about ten seconds it lets the start lie beyond
      the end of the song. Songs under 9.5 seconds get a negative bound, so
      only 0 can be chosen. */
  lemma {:induction false} SliderFallback(durationMs: int)
    ensures SliderMax(durationMs) == FallbackMax <==>
              (9500 <= durationMs < 10500 || 189500 <= durationMs < 190500)
    ensures 9500 <= durationMs < 10500 ==> 1000 * SliderMax(durationMs) > durationMs
    ensures durationMs < 9500 ==> SliderMax(durationMs) < 0 && (forall v :: SliderAllows(durationMs, v) <==> v == 0)
  {
    var s := RoundSeconds(durationMs);
    if 9500 <= durationMs < 10500 {
      assert s == 10;
    }
    if 189500 <= durationMs < 190500 {
      assert s == 190;
    }
    if SliderMax(durationMs) == FallbackMax {
      assert s == 10 || s == 190;
    }
  }

  /** The name the merged video is saved under in the browser. */
  function DownloadName(songName: string): (name: string)
    ensures |name| == |songName| + 13 && name[..9] == "SyncWave_" && name[9..9 + |songName|] == songName
    ensures name[|name| - 4..] == ".mp4"
  {
    "SyncWave_" + songName + ".mp4"
  }

  /** `{...prev, playlist}`: `prev` with its playlist replaced, and only the
      playlist when `prev` is `null`. */
  function WithPlaylist(prev: Option<Analysis>, playlist: MusicAgent.Reply): (next: Analysis)
    ensures next.playlist == playlist
    ensures prev.Some? ==> next.videoId == prev.value.videoId && next.vibe == prev.value.vibe
    ensures prev.None? ==> next.videoId.None? && next.vibe.None?
  {
    match prev
    case None => Analysis(None, None, playlist)
    case Some(a) => a.(playlist := playlist)
  }

  /** `result` after the successful searches with responses `replies`, in
      order. */
  function AfterSearches(prev: Option<Analysis>, replies: seq<MusicAgent.Reply>): (r: Option<Analysis>)
    ensures replies == [] ==> r == prev
    ensures replies != [] ==> r.Some?
    decreases |replies|
  {
    if replies == [] then prev
    else AfterSearches(Some(WithPlaylist(prev, replies[0])), replies[1..])
  }

  /** Searches do not accumulate: after any non-empty run of successful
      searches the playlist is the last response, and the video id and the
      vibe are those from before the first search. */
  lemma {:induction false} LastSearchWins(prev: Option<Analysis>, replies: seq<MusicAgent.Reply>)
    requires replies != []
    ensures AfterSearches(prev, replies).Some?
    ensures AfterSearches(prev, replies).value.playlist == replies[|replies| - 1]
    ensures AfterSearches(prev, replies).value.videoId == (if prev.Some? then prev.value.videoId else None)
    ensures AfterSearches(prev, replies).value.vibe == (if prev.Some? then prev.value.vibe else None)
    decreases |replies|
  {
    if |replies| > 1 {
      LastSearchWins(Some(WithPlaylist(prev, replies[0])), replies[1..]);
    }
  }

  /** An `HTMLAudioElement` created by `new Audio(src)`. */
  class AudioElement {
    const src: string
    var volume: real
    var playing: bool

    constructor (src: string)
      ensures this.src == src && volume == 1.0 && !playing
    {
      this.src := src;
      volume := 1.0;
      playing := false;
    }

    method Play()
      modifies this
      ensures playing && volume == old(volume)
    {
      playing := true;
    }

    method Pause()
      modifies this
      ensures !playing && volume == old(volume)
    {
      playing := false;
    }
  }

  /** The component's plain state at one moment, for stating what a handler
      leaves alone. `alerts` are the `alert` messages shown so far and
      `downloads` the file names offered for download so far. */
  datatype View = View(
    file: Option<VideoFile>,
    loading: bool,
    result: Option<Analysis>,
    searchQuery: string,
    isSearching: bool,
    selectedTrack: Option<Track>,
    startTime: int,
    merging: bool,
    playingPreview: Option<string>,
    alerts: seq<string>,
    downloads: seq<string>)

  /** The state of a freshly mounted component. */
  const Initial := View(None, false, None, "", false, None, 0, false, None, [], [])

  /** `!previewUrl`: `null` and the empty string start no preview. */
  predicate NoPreviewUrl(url: Option<string>) {
    url.None? || url.value == ""
  }

  /** The `VibeMatcher` component: its `useState` fields, the `audioRef`
      ref, and the audio elements it has created (`spawned`). */
  class VibeMatcher {
    var file: Option<VideoFile>
    var loading: bool
    var result: Option<Analysis>
    var searchQuery: string
    var isSearching: bool
    var selectedTrack: Option<Track>
    var startTime: int
    var merging: bool
    var playingPreview: Option<string>
    var audioRef: AudioElement?
    var alerts: seq<string>
    var downloads: seq<string>
    ghost var spawned: set<AudioElement>

    /** At most one preview plays, it is the one `audioRef` holds, and
        `playingPreview` names it exactly while it plays; the start time is a
        non-negative second, back at 0 whenever no track is being trimmed, and
        while one is, a value the slider of that track offers. */
    ghost predicate Valid()
      reads this, spawned
    {
      && (audioRef != null ==> audioRef in spawned)
      && (forall a :: a in spawned && a.playing ==> a == audioRef)
      && (playingPreview.Some? <==> audioRef != null && audioRef.playing)
      && (playingPreview.Some? ==> audioRef != null && audioRef.src == playingPreview.value)
      && startTime >= 0
      && (selectedTrack.None? ==> startTime == 0)
      && (selectedTrack.Some? ==> SliderAllows(selectedTrack.value.durationMs, startTime))
    }

    ghost function State(): View
      reads this
    {
      View(file, loading, result, searchQuery, isSearching, selectedTrack, startTime, merging,
           playingPreview, alerts, downloads)
    }

    /** No audio element is playing. */
    ghost predicate Silent()
      reads this, spawned
    {
      forall a :: a in spawned ==> !a.playing
    }

    constructor ()
      ensures Valid() && State() == Initial
      ensures audioRef == null && spawned == {}
    {
      file, loading, result, searchQuery, isSearching := None, false, None, "", false;
      selectedTrack, startTime, merging := None, 0, false;
      playingPreview, audioRef := None, null;
      alerts, downloads := [], [];
      spawned := {};
    }

    /** `stopAudio`: pause the current element, if there is one, and forget
        the playing preview; without an element nothing changes. */
    method StopAudio()
      requires Valid()
      modifies this, spawned
      ensures Valid() && Silent()
      ensures audioRef == old(audioRef) && spawned == old(spawned)
      ensures old(audioRef) == null ==> State() == old(State())
      ensures old(audioRef) != null ==> State() == old(State()).(playingPreview := None)
      ensures forall a :: a in spawned ==> a.volume == old(a.volume)
    {
      if audioRef != null {
        audioRef.Pause();
        playingPreview := None;
      }
    }

    /** `togglePreview(previewUrl)`: no URL does nothing; the playing URL is
        paused; any other URL pauses the current element and plays a new one
        at half volume. */
    method TogglePreview(url: Option<string>)
      requires Valid()
      modifies this, spawned
      ensures Valid()
      ensures NoPreviewUrl(url) ==> unchanged(this) && unchanged(spawned)
      ensures !NoPreviewUrl(url) && url == old(playingPreview) ==>
                && State() == old(State()).(playingPreview := None)
                && audioRef == old(audioRef) && spawned == old(spawned) && Silent()
      ensures !NoPreviewUrl(url) && url != old(playingPreview) ==>
                && State() == old(State()).(playingPreview := url)
                && fresh(audioRef) && audioRef.src == url.value && audioRef.playing
                && audioRef.volume == PreviewVolume
                && spawned == old(spawned) + {audioRef}
                && forall a :: a in old(spawned) ==> !a.playing
    {
      if NoPreviewUrl(url) {
        return;
      }
      if playingPreview == url {
        if audioRef != null {
          audioRef.Pause();
        }
        playingPreview := None;
      } else {
        if audioRef != null {
          audioRef.Pause();
        }
        var audio := new AudioElement(url.value);
        audio.volume := PreviewVolume;
        audio.Play();
        audioRef := audio;
        spawned := spawned + {audio};
        playingPreview := url;
      }
    }

    /** The `onended` handler of element `audio`, which fires when it plays
        to its end. Only the current element can be playing, so this never
        clears the name of a newer preview. */
    method PreviewEnded(audio: AudioElement)
      requires Valid() && audio in spawned && audio.playing
      modifies this, audio
      ensures Valid() && Silent()
      ensures audio == audioRef == old(audioRef) && spawned == old(spawned)
      ensures State() == old(State()).(playingPreview := None)
    {
      audio.playing := false;
      playingPreview := None;
    }

    /** The file input's `onChange`. */
    method ChooseFile(chosen: Option<VideoFile>)
      requires Valid()
      modifies this
      ensures Valid() && audioRef == old(audioRef) && spawned == old(spawned)
      ensures State() == old(State()).(file := chosen)
    {
      file := chosen;
    }

    /** The search box's `onChange`. */
    method EditQuery(query: string)
      requires Valid()
      modifies this
      ensures Valid() && audioRef == old(audioRef) && spawned == old(spawned)
      ensures State() == old(State()).(searchQuery := query)
    {
      searchQuery := query;
    }

    /** `handleUpload` up to the request: without a file nothing happens;
        otherwise loading starts, the old result is dropped, audio stops and
        the file is sent. */
    method BeginUpload() returns (request: Option<VideoFile>)
      requires Valid()
      modifies this, spawned
      ensures Valid()
      ensures old(file).None? ==> request.None? && unchanged(this) && unchanged(spawned)
      ensures old(file).Some? ==>
                && request == old(file)
                && State() == old(State()).(loading := true, result := None, playingPreview := None)
                && audioRef == old(audioRef) && spawned == old(spawned) && Silent()
    {
      if file.None? {
        return None;
      }
      loading := true;
      result := None;
      StopAudio();
      request := file;
    }

    /** `handleUpload` after the request: the response body becomes the
        result, a failure only alerts; loading ends either way. */
    method CompleteUpload(response: Outcome<Analysis>)
      requires Valid()
      modifies this
      ensures Valid() && audioRef == old(audioRef) && spawned == old(spawned)
      ensures response.Success? ==> State() == old(State()).(result := Some(response.payload), loading := false)
      ensures response.Failure? ==> State() == old(State()).(alerts := old(alerts) + [UploadAlert], loading := false)
    {
      if response.Success? {
        result := Some(response.payload);
      } else {
        alerts := alerts + [UploadAlert];
      }
      loading := false;
    }

    /** `handleSearch` up to the request: an empty query does nothing;
        otherwise searching starts, audio stops and the query is sent. */
    method BeginSearch() returns (request: Option<string>)
      requires Valid()
      modifies this, spawned
      ensures Valid()
      ensures old(searchQuery) == "" ==> request.None? && unchanged(this) && unchanged(spawned)
      ensures old(searchQuery) != "" ==>
                && request == Some(old(searchQuery))
                && State() == old(State()).(isSearching := true, playingPreview := None)
                && audioRef == old(audioRef) && spawned == old(spawned) && Silent()
    {
      if searchQuery == "" {
        return None;
      }
      isSearching := true;
      StopAudio();
      request := Some(searchQuery);
    }

    /** `handleSearch` after the request: a response replaces only the
        playlist of the result as it is now; a failure only alerts;
        searching ends either way. */
    method CompleteSearch(response: Outcome<MusicAgent.Reply>)
      requires Valid()
      modifies this
      ensures Valid() && audioRef == old(audioRef) && spawned == old(spawned)
      ensures response.Success? ==>
                State() == old(State()).(result := Some(WithPlaylist(old(result), response.payload)), isSearching := false)
      ensures response.Failure? ==> State() == old(State()).(alerts := old(alerts) + [SearchAlert], isSearching := false)
    {
      if response.Success? {
        result := Some(WithPlaylist(result, response.payload));
      } else {
        alerts := alerts + [SearchAlert];
      }
      isSearching := false;
    }

    /** The "Trim & Add" button of a playlist entry. The playlist is rendered
        only while no track is selected, so the button is pressed only then. */
    method PickTrack(track: Track)
      requires Valid() && selectedTrack.None?
      modifies this
      ensures Valid() && audioRef == old(audioRef) && spawned == old(spawned)
      ensures State() == old(State()).(selectedTrack := Some(track))
    {
      selectedTrack := Some(track);
    }

    /** The trim modal's close button: no track selected, start back at 0. */
    method CancelTrim()
      requires Valid()
      modifies this
      ensures Valid() && audioRef == old(audioRef) && spawned == old(spawned)
      ensures State() == old(State()).(selectedTrack := None, startTime := 0)
    {
      selectedTrack := None;
      startTime := 0;
    }

    /** The slider's `onChange`, reporting a value the range input allows
        for the selected track. */
    method MoveSlider(v: int)
      requires Valid() && selectedTrack.Some? && SliderAllows(selectedTrack.value.durationMs, v)
      modifies this
      ensures Valid() && audioRef == old(audioRef) && spawned == old(spawned)
      ensures State() == old(State()).(startTime := v)
    {
      startTime := v;
    }

    /** `handleMerge` up to the request: without a selected track nothing
        happens. Otherwise merging starts and audio stops; building the
        query throws a `TypeError` when there is no result, which ends the
        handler at once with the merge alert. Else the request carries the
        video id, the track's name and artist and the start time. */
    method BeginMerge() returns (request: Option<MergeRequest>)
      requires Valid()
      modifies this, spawned
      ensures Valid()
      ensures old(selectedTrack).None? ==> request.None? && unchanged(this) && unchanged(spawned)
      ensures old(selectedTrack).Some? ==> audioRef == old(audioRef) && spawned == old(spawned) && Silent()
      ensures old(selectedTrack).Some? && old(result).None? ==>
                && request.None?
                && State() == old(State()).(merging := false, playingPreview := None, alerts := old(alerts) + [MergeAlert])
      ensures old(selectedTrack).Some? && old(result).Some? ==>
                && request == Some(MergeRequest(old(result).value.videoId, old(selectedTrack).value.name,
                                                old(selectedTrack).value.artist, old(startTime)))
                && State() == old(State()).(merging := true, playingPreview := None)
    {
      if selectedTrack.None? {
        return None;
      }
      merging := true;
      StopAudio();
      if result.None? {
        alerts := alerts + [MergeAlert];
        merging := false;
        return None;
      }
      request := Some(MergeRequest(result.value.videoId, selectedTrack.value.name,
                                   selectedTrack.value.artist, startTime));
    }

    /** `handleMerge` after the request. On success the video is offered
        under the name of the track the request was built from (the handler
        still sees the track it started with), the modal closes and the
        start resets; a failure only alerts. Merging ends either way. */
    method CompleteMerge(request: MergeRequest, response: Outcome<()>)
      requires Valid()
      modifies this
      ensures Valid() && audioRef == old(audioRef) && spawned == old(spawned)
      ensures response.Success? ==>
                State() == old(State()).(downloads := old(downloads) + [DownloadName(request.songName)],
                                         selectedTrack := None, startTime := 0, merging := false)
      ensures response.Failure? ==>
                State() == old(State()).(alerts := old(alerts) + [MergeAlert], merging := false)
    {
      if response.Success? {
        downloads := downloads + [DownloadName(request.songName)];
        selectedTrack := None;
        startTime := 0;
      } else {
        alerts := alerts + [MergeAlert];
      }
      merging := false;
    }
  }
}
