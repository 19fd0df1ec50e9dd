/** Concrete sessions driven through the component's handlers: upload,
    search, trim and merge; a failing merge; a preview stopped by a search. */
module Scenarios {
  import opened Basics
  import opened Frontend
  import MusicAgent

  const Vibe1 := Vibe(Some(["pop", "indie"]), Some("energetic road trip"), None)
  const TrackX := Track("Sunrise", "Artist X", "https://open.spotify.com/track/x", "https://img/x", None, 150000)
  const TrackY := Track("Fein", "Travis Scott", "https://open.spotify.com/track/y", "https://img/y",
                        Some("https://p.scdn.co/y"), 200000)

  /** A component that has uploaded a video, received `[TrackX]` for it and
      then searched and received `[TrackY]`. */
  method AnalysedAndSearched() returns (ui: VibeMatcher, upload: Option<VideoFile>, search: Option<string>)
    ensures fresh(ui) && ui.Valid() && fresh(ui.spawned)
    ensures upload == Some(VideoFile("trip.mp4"))
    ensures search == Some("Fein Travis Scott")
    ensures ui.result == Some(Analysis(Some("v1"), Some(Vibe1), MusicAgent.Tracks([TrackY])))
    ensures ui.selectedTrack.None? && ui.startTime == 0 && !ui.loading && !ui.isSearching && !ui.merging
    ensures ui.alerts == [] && ui.downloads == [] && ui.playingPreview.None?
    ensures ui.searchQuery == "Fein Travis Scott"
  {
    ui := new VibeMatcher();
    ui.ChooseFile(Some(VideoFile("trip.mp4")));
    upload := ui.BeginUpload();
    ui.CompleteUpload(Success(Analysis(Some("v1"), Some(Vibe1), MusicAgent.Tracks([TrackX]))));
    assert ui.result.value.playlist == MusicAgent.Tracks([TrackX]);
    ui.EditQuery("Fein Travis Scott");
    search := ui.BeginSearch();
    ui.CompleteSearch(Success(MusicAgent.Tracks([TrackY])));
  }

  /** Trimming `TrackY` from second 45 and merging: the request names the
      session, the song, the artist and the start, and on success the video
      is saved as `SyncWave_Fein.mp4` and the modal closes. */
  method TrimAndMerge() returns (sent: Option<MergeRequest>, saved: seq<string>, reopened: bool)
    ensures sent == Some(MergeRequest(Some("v1"), "Fein", "Travis Scott", 45))
    ensures saved == ["SyncWave_Fein.mp4"]
    ensures !reopened
  {
    var ui, _, _ := AnalysedAndSearched();
    ui.PickTrack(TrackY);
    assert SliderMax(TrackY.durationMs) == 190;
    ui.MoveSlider(45);
    sent := ui.BeginMerge();
    ui.CompleteMerge(sent.value, Success(()));
    saved := ui.downloads;
    assert DownloadName("Fein") == "SyncWave_Fein.mp4";
    reopened := ui.selectedTrack.Some? || ui.startTime != 0 || ui.merging;
  }

  /** A merge that fails keeps the track and the start for another try and
      shows the merge alert. */
  method FailedMerge() returns (kept: Option<Track>, start: int, alerts: seq<string>, busy: bool)
    ensures kept == Some(TrackY) && start == 45
    ensures alerts == [MergeAlert]
    ensures !busy
  {
    var ui, _, _ := AnalysedAndSearched();
    ui.PickTrack(TrackY);
    ui.MoveSlider(45);
    var sent := ui.BeginMerge();
    ui.CompleteMerge(sent.value, Failure);
    kept, start, alerts, busy := ui.selectedTrack, ui.startTime, ui.alerts, ui.merging;
  }

  /** Playing `TrackY`'s preview and then searching: the preview is stopped
      before the search request goes out. */
  method PreviewThenSearch() returns (playedBefore: bool, request: Option<string>, playingAfter: bool)
    ensures playedBefore
    ensures request == Some("Fein Travis Scott")
    ensures !playingAfter
  {
    var ui, _, _ := AnalysedAndSearched();
    ui.TogglePreview(TrackY.previewUrl);
    var audio := ui.audioRef;
    playedBefore := audio.playing && ui.playingPreview == TrackY.previewUrl;
    request := ui.BeginSearch();
    playingAfter := audio.playing || ui.playingPreview.Some?;
  }
}
