# SyncWave in Dafny

SyncWave matches a short video with a song. The browser uploads the video to a
FastAPI backend. The backend's vision agent samples three frames and asks a
language model for the video's "vibe" as JSON. Its music agent then turns the
vibe's first genre into a Spotify search and reshapes the hits into track
records. In the browser the user can:

- search for other songs;
- listen to previews, one at a time;
- pick a track and choose a start second on a slider;
- ask the backend to merge the song into the video. The backend downloads the
  audio with yt-dlp, trims it, loops or cuts it to the video's length, and
  sends the merged file back for download.

This project models that core and proves properties of the model:

- `basics.dfy` (module `Basics`): `Option`, `Result` (the outcome of a Python
  call that may raise), and the records that travel between the two sides:
  `Track` and `Vibe`.
- `strings.dfy` (module `PyStrings`): the Python string operations the backend
  uses, with Python's semantics. These are `replace(p, "")`, `strip()` (with
  Python's whitespace set) and `rsplit(sep, 1)[0]`. The module also proves
  that removing every triple backtick leaves none behind.
- `vision_agent.dfy` (module `VisionAgent`): the frame checkpoints, the loop
  that collects the frames that could be read, the cleanup of Markdown fences
  in the model's reply, and where errors become the `{"error": msg}` object.
- `music_agent.dfy` (module `MusicAgent`): the filter-and-map over Spotify
  items (a method with a loop, proved against a recursive definition), the
  seed-genre choice, the random offset and the truncation to five tracks.
- `main_api.dfy` (module `Server`): the file names derived from a session id,
  the extension swap after a download, and the two endpoints. In
  `/generate-playlist`, a failure removes the upload again. In
  `/merge-video`, a missing upload gives 404 before any download; then the
  audio is trimmed, looped or cut, and the downloaded audio is removed
  afterwards. The server's working directory is a set of file names passed
  in and returned.
- `vibe_matcher.dfy` (module `Frontend`): the React component as a class
  `VibeMatcher` whose fields are its `useState` values, plus `audioRef` and
  its `HTMLAudioElement`s as objects of class `AudioElement`.
  - Each awaited request is split in two: the handler's first half returns
    the request it sends, and its continuation takes the request's
    `Outcome`.
  - The class invariant `Valid` says that at most one preview plays, that it
    is the element `audioRef` holds, and that `playingPreview` names it
    exactly while it plays.
  - The slider bound is an integer function of the track's duration.
- `protocol.dfy` (module `Protocol`): facts that connect the two sides: file
  names, start seconds, and the session id after searches.
- `scenarios.dfy` (module `Scenarios`): four concrete sessions driven through
  the handlers.

The foreign services are oracles passed in as function values:

| service | oracle |
|---|---|
| OpenCV frame reads | `int -> Option<F>` |
| Gemini | `seq<F> -> Result<string>` |
| `json.loads` | `string -> Result<Vibe>` |
| Spotify search | `(q, limit, offset) -> Result<items>` |
| yt-dlp | `url -> Result<prepared filename>` |
| moviepy clip lengths and the encoder | `string -> Result<real>` and `FinalAudio -> Option<error>` |

Durations in the backend are `real`, and track durations are integer
milliseconds.

Some behaviours of the code are easy to miss; the model keeps each of them as
written:

- **No busy guard.** Nothing in the handlers stops a second upload, search or
  merge while one is in flight; only the `disabled` attributes of the buttons
  do. So no handler has a precondition on `loading`, `isSearching` or
  `merging`, and pressing Enter in the search box does start another search.
- **No clamp on the slider bound.** The bound is `Math.round(ms/1000) - 10 || 180`:
  - it is negative for songs under 9.5 s;
  - it is 180, not near 0, for songs that round to 10 s;
  - it is not a `max(0, ...)`.
- **Late responses are applied.** A merge response that arrives after the
  trim modal was closed is still applied. A failure leaves no error state;
  it only shows an alert.
- **Picking a track changes nothing else.** The "Trim & Add" button
  (VibeMatcher.tsx:210) only sets `selectedTrack`, so a preview that is
  playing keeps playing. `startTime` is not reset there, and it needs no
  reset: the button is shown only while no track is selected
  (VibeMatcher.tsx:140). Every way out of the trim modal resets the start
  to 0 (lines 86 and 224), so the start is already 0 whenever a track is
  picked. The class invariant `Valid` states this
  (`selectedTrack.None? ==> startTime == 0`).

## Model

| member | source | states |
|---|---|---|
| PyStrings.RemoveAll | backend/vision_agent.py:69 | `s.replace(p, "")` scans left to right and drops non-overlapping occurrences; the result is never longer than `s` |
| PyStrings.RemoveAllAbsent | backend/vision_agent.py:69 | when `p` does not occur in `s`, `replace(p, "")` returns `s` unchanged |
| PyStrings.RemoveAllNoTick | backend/vision_agent.py:69 | a pattern starting with a backtick leaves backtick-free text unchanged |
| PyStrings.RemoveAllAroundOne | backend/vision_agent.py:69 | one occurrence of such a pattern between two backtick-free texts is removed, and both texts are kept in order |
| PyStrings.TagAbsentAfterFence | backend/vision_agent.py:69 | "```json" does not occur in backtick-free text followed by "```" and whitespace |
| PyStrings.RemoveTicksLeading | backend/vision_agent.py:69 | after `replace("```", "")`, the text starts with as many backticks as the input did, modulo 3 |
| PyStrings.RemoveTicksLeavesNoTriple | backend/vision_agent.py:69 | no "```" is left after `replace("```", "")`, for every input |
| PyStrings.TrimLeft | backend/vision_agent.py:69 | `lstrip()` returns a suffix of its input; only whitespace was dropped, and the result does not start with whitespace |
| PyStrings.TrimRight | backend/vision_agent.py:69 | `rstrip()` returns a prefix of its input; only whitespace was dropped, and the result does not end with whitespace |
| PyStrings.Strip | backend/vision_agent.py:69 | `strip()` returns a piece of its input with only whitespace outside it, and the piece neither starts nor ends with whitespace |
| PyStrings.StripBlankTail | backend/vision_agent.py:69 | whitespace appended to a string does not change its `strip()` |
| PyStrings.StripIdempotent | backend/vision_agent.py:69 | stripping twice is the same as stripping once |
| PyStrings.StripFixedPoint | backend/vision_agent.py:69 | a string without whitespace at either end is its own strip |
| PyStrings.LastIndexOf | backend/main.py:50 | returns the index of the last `c`, with no `c` after it, or None exactly when `c` does not occur |
| PyStrings.RsplitHead | backend/main.py:50 | `rsplit(sep, 1)[0]` is the prefix before the last `sep`, or the whole string exactly when there is no `sep` |
| VisionAgent.Checkpoints | backend/vision_agent.py:27 | three positions: 0, the floor of half the frame count, and the count minus 10, in that order |
| VisionAgent.CheckpointsInsideVideo | backend/vision_agent.py:27 | all three positions are frames of the video if and only if it has at least 10 frames; they are in non-decreasing order if and only if it has at least 19 frames |
| VisionAgent.Collected | backend/vision_agent.py:30-37 | the collected frames are never more than the positions visited |
| VisionAgent.Readable | backend/vision_agent.py:30-33 | the positions whose read succeeded: each listed one was visited and read, and every visited position whose read succeeds is listed |
| VisionAgent.ReadableCounts | backend/vision_agent.py:30-33 | a position is listed exactly as often as it was visited when its read succeeds, and never when it fails |
| VisionAgent.ReadableInOrder | backend/vision_agent.py:30-33 | the listed positions keep the order in which they were visited |
| VisionAgent.CollectedFollowsReads | backend/vision_agent.py:30-37 | one frame per successful read, in checkpoint order: frame k is the one read at the k-th readable position |
| VisionAgent.CollectedExtremes | backend/vision_agent.py:30-37 | nothing is dropped when every read succeeds, and nothing is kept when every read fails |
| VisionAgent.ExtractFrames | backend/vision_agent.py:17-40 | the loop returns exactly the frames collected at the checkpoints: at most 3 |
| VisionAgent.CleanJsonText | backend/vision_agent.py:68-69 | the cleaned reply contains no "```" and has no whitespace at either end (CleanJsonTextUnwraps states that the fenced JSON is kept) |
| VisionAgent.CleanJsonTextUnwraps | backend/vision_agent.py:68-69 | a reply "```json" + body + "```" with only whitespace after it, where the body has no backtick, is passed on as the body with surrounding whitespace stripped: the JSON between the fences is kept |
| VisionAgent.CleanJsonTextFixedPoint | backend/vision_agent.py:69 | a reply with no "```" and no whitespace at either end is its own cleanup |
| VisionAgent.CleanJsonTextIdempotent | backend/vision_agent.py:69 | cleaning a cleaned reply changes nothing |
| VisionAgent.CleanJsonTextKeepsPlainText | backend/vision_agent.py:69 | text with no backtick and no whitespace at either end passes through unchanged |
| VisionAgent.ErrorVibe | backend/vision_agent.py:72-73 | the error object has only `error` set to the message |
| VisionAgent.VibeOfReply | backend/vision_agent.py:64-73 | a model failure or a parse failure gives the error object with that message; otherwise the result is the parsed cleaned text |
| VisionAgent.Analysis | backend/vision_agent.py:42-73 | the vibe of the model's reply to the frames collected at the checkpoints; a model failure gives the error object with its message |
| VisionAgent.AnalyzeVibe | backend/vision_agent.py:42-73 | the method returns the vibe of the model's reply to the collected frames; a model failure gives an error object without genres |
| VisionAgent.FailedAnalysisHasNoGenre | backend/vision_agent.py:72-73 | when the analysis fails (and the parser never yields an `error` key), the result has no `seed_genres` |
| MusicAgent.HasCover | backend/music_agent.py:53 | an item is kept when its album's image list is non-empty |
| MusicAgent.WellFormed | backend/music_agent.py:55-57 | a kept item can be shaped when it has a first artist and a "spotify" URL |
| MusicAgent.Shape | backend/music_agent.py:53-61 | a kept item gives a record if and only if it has a first artist and a Spotify URL; the record copies the name, the first artist, the Spotify URL, the first image, the preview URL and the duration; no artist raises IndexError |
| MusicAgent.Clean | backend/music_agent.py:49-62 | `_clean_tracks` over the items in order, raising with the first malformed kept item; a success has no more tracks than items (CleanMatchesKept states what they are) |
| MusicAgent.Kept | backend/music_agent.py:52-53 | no more items than the input, each with album art |
| MusicAgent.KeptExactlyCovered | backend/music_agent.py:53 | an item is kept if and only if it is in the input and its image list is non-empty |
| MusicAgent.KeptCounts | backend/music_agent.py:52-53 | an item is kept exactly as often as it occurs in the input when it has album art, and never otherwise |
| MusicAgent.KeptPreservesOrder | backend/music_agent.py:51-62 | the kept items are a subsequence of the input, in the input's order |
| MusicAgent.CleanMatchesKept | backend/music_agent.py:51-62 | `_clean_tracks` succeeds if and only if every kept item is well formed. Then it gives one record per kept item, built by `Shape`, and is no longer than its input |
| MusicAgent.CleanTracks | backend/music_agent.py:49-62 | the loop with `append` computes exactly `_clean_tracks`, including the first exception raised |
| MusicAgent.CleanErrSticks | backend/music_agent.py:52-61 | once a prefix of the items raises, the whole list raises with the same message |
| MusicAgent.SeedGenre | backend/music_agent.py:21 | the first seed genre; "pop" when the key is absent; an empty list raises IndexError |
| MusicAgent.Take | backend/music_agent.py:33 | `xs[:n]` is a prefix of length min(n, len(xs)) |
| MusicAgent.RecommendationsAt | backend/music_agent.py:21-36 | `get_recommendations` for a drawn offset: it raises IndexError if and only if `seed_genres` is empty, and a track reply has at most 5 tracks |
| MusicAgent.GetRecommendations | backend/music_agent.py:16-36 | the offset lies in 0..50. The reply is the search for "genre:" + the seed genre with limit 10, cleaned and cut to 5; search and cleaning failures become the error object. It raises if and only if `seed_genres` is empty |
| MusicAgent.RecommendationsAreFirstFive | backend/music_agent.py:33 | the recommendations are a prefix of the cleaned tracks: exactly 5 when at least 5 were cleaned, all of them otherwise |
| MusicAgent.SearchTracks | backend/music_agent.py:38-47 | a failed search gives the error object with its message. After a successful search, the reply is a track list if and only if every item with album art is well formed; then it holds one track per such item, in order, each the shaped record of that item. Otherwise it is the error object with the cleaning exception's message |
| MusicAgent.SearchTracksBound | backend/music_agent.py:44-45 | when Spotify honours `limit=10`, the search gives one track per kept item, and so at most 10 |
| Server.TempVideoPath | backend/main.py:57 | the upload's name is "temp_video_", then the session id, then ".mp4", each at its place, so the id can be read back from it |
| Server.OutputPath | backend/main.py:85 | the merged video's name is "final_", then the session id, then ".mp4", each at its place, so the id can be read back from it |
| Server.SessionPathsDistinct | backend/main.py:84-85 | the upload name and the output name each determine the session id, and an upload name never equals an output name |
| Server.AudioQuery | backend/main.py:93 | the search text is the artist's name, " - ", the song name and " official audio", each at its place |
| Server.YtSearch | backend/main.py:48 | the URL is "ytsearch1:" followed by the query |
| Server.ResponseFilename | backend/main.py:118 | the offered name is "SyncWave_", then the song name, then ".mp4", each at its place |
| Server.SwapExtension | backend/main.py:50 | the result always ends in ".mp3" and keeps the name up to its last dot, where the cut is made; the name only gets ".mp3" appended if and only if it has no dot |
| Server.SwapExtensionIdempotent | backend/main.py:50 | swapping the extension of a converted name changes nothing |
| Server.AudioPathIsNotVideo | backend/main.py:123 | the downloaded audio's name is never an upload's name or an output's name, so removing it removes no video |
| Server.DownloadAudio | backend/main.py:39-50 | the download fails if and only if yt-dlp fails for "ytsearch1:" + query; otherwise it gives the prepared name with its extension swapped |
| Server.GeneratePlaylist | backend/main.py:54-67 | the response is the session id, the analysis and the recommendations, and the upload stays stored. If the recommendations raise, the upload is removed and the response is a 500 with the message; this happens if and only if the analysis has an empty `seed_genres` |
| Server.StartSeconds | backend/main.py:82 | `start_time` defaults to 0.0 when absent |
| Server.FitAudio | backend/main.py:99-108 | the sound track starts at `start_time` only when it is positive, otherwise at 0, and always lasts as long as the video. It is looped if and only if what remains is shorter than the video; otherwise it is a cut that fits inside the audio |
| Server.MergeVideo | backend/main.py:77-123 | a missing upload gives 404 "Video expired." with nothing searched or changed. Otherwise it searches for "artist - song official audio". A failed download, a failed clip opening or a failed write is a 500 "Merge failed: " + that error's message. Once both clips open, the plan starts at the positive `start_time` (else 0), lasts as long as the video, and loops if and only if the remaining audio is shorter than the video; the response is then the output file named "SyncWave_" + song + ".mp4" if and only if the write succeeds. The downloaded audio is always removed and the upload never is |
| Frontend.RoundSeconds | frontend/app/components/VibeMatcher.tsx:236 | `Math.round(ms/1000)` is the whole second within half a second of `ms`, with halves rounded up |
| Frontend.SliderMax | frontend/app/components/VibeMatcher.tsx:241 | the slider bound is never 0; it is the rounded length minus 10, or the fallback 180 |
| Frontend.SliderMaxExample | frontend/app/components/VibeMatcher.tsx:241 | a 200000 ms song gives the bound 190 |
| Frontend.SliderLeavesTenSeconds | frontend/app/components/VibeMatcher.tsx:241 | for songs over 10 s, starting at the bound leaves at least 9.5 s of song |
| Frontend.SliderFallback | frontend/app/components/VibeMatcher.tsx:241 | the bound is 180 if and only if the song rounds to 10 s or to 190 s. For a song of about 10 s, the bound lies beyond the song. Under 9.5 s the bound is negative and only 0 can be chosen |
| Frontend.DownloadName | frontend/app/components/VibeMatcher.tsx:81 | the saved name is "SyncWave_", then the song name, then ".mp4", each at its place |
| Frontend.SliderAllows | frontend/app/components/VibeMatcher.tsx:238-243 | the values the range input offers: 0, and the whole seconds from 0 up to the bound |
| Frontend.AfterSearches | frontend/app/components/VibeMatcher.tsx:54 | the result after a run of successful searches, each applied with `{...prev, playlist}`; no searches leave it as it was, and any search makes it non-null |
| Frontend.NoPreviewUrl | frontend/app/components/VibeMatcher.tsx:103 | `if (!url) return`: a null or empty preview URL |
| Frontend.WithPlaylist | frontend/app/components/VibeMatcher.tsx:54 | `{...prev, playlist}` replaces the playlist and keeps the video id and the vibe; with a null `prev` it has only the playlist |
| Frontend.LastSearchWins | frontend/app/components/VibeMatcher.tsx:54 | after any non-empty run of successful searches, the playlist is exactly the last response, and the video id and vibe are those from before |
| Frontend.AudioElement.constructor | frontend/app/components/VibeMatcher.tsx:109 | `new Audio(url)` has that source, full volume, and is not playing |
| Frontend.AudioElement.Play | frontend/app/components/VibeMatcher.tsx:111 | the element plays, with its volume unchanged |
| Frontend.AudioElement.Pause | frontend/app/components/VibeMatcher.tsx:97 | the element stops, with its volume unchanged |
| Frontend.VibeMatcher.constructor | frontend/app/components/VibeMatcher.tsx:9-23 | the initial state: nothing chosen, loaded or playing, empty query, start 0; the invariant holds |
| Frontend.VibeMatcher.Valid | frontend/app/components/VibeMatcher.tsx:16-23 | the component invariant: at most one of its audio elements plays, that one is `audioRef`'s current element, `playingPreview` names its source exactly while it plays, and the start second is non-negative, 0 with no track selected, and otherwise a value the selected track's slider offers |
| Frontend.VibeMatcher.StopAudio | frontend/app/components/VibeMatcher.tsx:95-100 | with an audio element, it pauses the element and clears `playingPreview`; without one, nothing changes. Afterwards no element plays |
| Frontend.VibeMatcher.TogglePreview | frontend/app/components/VibeMatcher.tsx:102-115 | a null or empty URL changes nothing. The playing URL is paused and cleared. Any other URL pauses everything and plays a fresh element at volume 0.5 with that source, which becomes the current preview. At most one preview plays |
| Frontend.VibeMatcher.PreviewEnded | frontend/app/components/VibeMatcher.tsx:113 | the element that ended is always the current one; `playingPreview` becomes null and nothing plays |
| Frontend.VibeMatcher.ChooseFile | frontend/app/components/VibeMatcher.tsx:123 | only `file` changes |
| Frontend.VibeMatcher.EditQuery | frontend/app/components/VibeMatcher.tsx:169 | only `searchQuery` changes |
| Frontend.VibeMatcher.BeginUpload | frontend/app/components/VibeMatcher.tsx:25-35 | without a file, nothing changes and nothing is sent. Otherwise `loading` is set, `result` is cleared and audio stops before the file is sent |
| Frontend.VibeMatcher.CompleteUpload | frontend/app/components/VibeMatcher.tsx:34-44 | on success `result` is exactly the response. On failure `result` stays as it was and the upload alert is shown. `loading` ends false either way |
| Frontend.VibeMatcher.BeginSearch | frontend/app/components/VibeMatcher.tsx:47-52 | an empty query changes nothing and sends nothing. Otherwise `isSearching` is set and audio stops before the query is sent |
| Frontend.VibeMatcher.CompleteSearch | frontend/app/components/VibeMatcher.tsx:51-59 | success replaces only the playlist of the current result. Failure leaves `result` unchanged and alerts "Search failed". `isSearching` ends false either way |
| Frontend.VibeMatcher.PickTrack | frontend/app/components/VibeMatcher.tsx:210 | pressed only while no track is selected (the playlist renders only then, line 140); only `selectedTrack` changes, and the start, still 0, is a value the new track's slider offers |
| Frontend.VibeMatcher.CancelTrim | frontend/app/components/VibeMatcher.tsx:224 | clears `selectedTrack` and resets `startTime` to 0 |
| Frontend.VibeMatcher.MoveSlider | frontend/app/components/VibeMatcher.tsx:238-243 | only `startTime` changes, to a whole second the range input allows |
| Frontend.VibeMatcher.BeginMerge | frontend/app/components/VibeMatcher.tsx:62-76 | with no selected track, nothing changes. With no result, the `TypeError` path leaves `merging` false and shows the merge alert. Otherwise `merging` is set, audio stops, and the request carries `video_id`, the track's name and artist, and `startTime` |
| Frontend.VibeMatcher.CompleteMerge | frontend/app/components/VibeMatcher.tsx:77-92 | on success the video is saved as "SyncWave_" + the requested song's name + ".mp4", `selectedTrack` is cleared and `startTime` reset to 0. On failure both stay and the merge alert is shown. `merging` ends false either way |
| Protocol.UploadOutcome | frontend/app/components/VibeMatcher.tsx:35-38 | the upload succeeds in the browser if and only if the backend sent the playlist JSON, and then `result` holds its video id, vibe and playlist |
| Protocol.DownloadNamesAgree | backend/main.py:118 | the browser's download name is the name the backend gives the file |
| Protocol.StartTimesAgree | frontend/app/components/VibeMatcher.tsx:73 | the slider's whole start second is exactly where the backend starts the song; 0 means no trim |
| Protocol.MergeFindsUpload | frontend/app/components/VibeMatcher.tsx:70 | after an upload and any number of searches, the merge request names the uploaded session, so the backend looks up the upload's own file |
| Scenarios.AnalysedAndSearched | frontend/app/components/VibeMatcher.tsx:25-60 | upload then search: the playlist becomes the search's tracks and the vibe is kept |
| Scenarios.TrimAndMerge | frontend/app/components/VibeMatcher.tsx:62-93 | trimming a 200 s song at 45 s sends ("v1", "Fein", "Travis Scott", 45); success saves "SyncWave_Fein.mp4" and closes the modal |
| Scenarios.FailedMerge | frontend/app/components/VibeMatcher.tsx:87-92 | a failed merge keeps the track and the start second, alerts, and ends `merging` |
| Scenarios.PreviewThenSearch | frontend/app/components/VibeMatcher.tsx:47-50 | a playing preview is stopped before the search request goes out |

## Left out

- HTTP transport: axios, FastAPI routing, CORS and multipart encoding. Responses are `Outcome`s or `Response` values. An error status and a network error are the same `Failure`.
- A 200 response whose body is the `{"error": msg}` object (from `search_tracks` or `get_recommendations`) is stored in the browser as the playlist; rendering it is not modelled.
- `/refresh-playlist` (backend/main.py:73-75) passes its body to `get_recommendations`, which is modelled; the pydantic request model is not.
- File contents and uploads: the filesystem is only the set of names present. yt-dlp is assumed to leave its MP3 under the swapped name. A failed encoder write is assumed to leave no output file.
- `uuid.uuid4()` is a parameter (the session id), and so is the yt-dlp output template's uuid, which is inside the oracle.
- The real randomness of `random.randint(0, 50)`: it is a nondeterministic choice in 0..50.
- Server.FitAudio: moviepy's own failure when `start_time` lies beyond the end of the song is not modelled; the trimmed remainder is simply shorter than the video, so the plan loops.
- The Gemini prompt text, OpenCV decoding and colour conversion, and Pillow images: frames are opaque values. An exception in `cv2.VideoCapture` or in the frame count is not modelled.
- `json.loads` is an oracle. The vibe keys `target_energy`, `target_valence` and `target_danceability` are never read by the core, so they are not modelled.
- PyStrings.RemoveAll: its contract states only the length bound. The lemmas about it cover the cases the backend meets, not `replace` in general. RemoveAllAbsent says a pattern that does not occur leaves the text unchanged. RemoveAllNoTick and RemoveAllAroundOne say backtick-free text around one fence is kept. RemoveTicksLeading and RemoveTicksLeavesNoTriple describe the leading backticks and the absence of "```" afterwards. Where the kept text ends up when occurrences overlap or interleave with other backticks is not stated.
- Server.GeneratePlaylist: the parse oracle returns a `Vibe`, so the model assumes `json.loads` yields a JSON object whose `seed_genres`, when present, is a list of strings. A reply that parses to a list, string or number (`.get` raises AttributeError) or one with `"seed_genres": null` (indexing raises TypeError) would also reach the 500 path and remove the upload; a string value such as `"pop"` would search for its first character. The "500 if and only if `seed_genres` is empty" holds only under that assumption.
- MusicAgent.GetRecommendations: the same assumption on its input; the "raises if and only if `seed_genres` is empty" excludes the non-object and non-list inputs above.
- MusicAgent.RecommendationsAt: the same assumption; its "raises if and only if `seed_genres` is empty" covers only the inputs a `Vibe` can express.
- MusicAgent.SearchTracks: the shape of its result is stated relative to what the Spotify oracle returns; the ten-track bound holds only if Spotify honours `limit`, and SearchTracksBound states it under that assumption.
- The DOM download (object URL, anchor and click) is recorded as the name appended to `downloads`, and `alert` as the message appended to `alerts`. `console.error` and `print` are left out.
- React rendering, framer-motion and CSS, including all of frontend/app/page.tsx. That also means which buttons are visible or disabled, so every handler stays callable with three exceptions. `PickTrack` requires that no track is selected, because the playlist with its "Trim & Add" buttons renders only then (VibeMatcher.tsx:140). `MoveSlider` requires a selected track and a value the range input allows. `PreviewEnded` requires the element that ends to be a playing one the component created.
- Async interleavings, React state batching, and the order in which concurrent responses arrive. The Begin/Complete halves can be called in any order, but the model does not follow which request a completion answers.
- `audio.play()` can be refused by the browser's autoplay policy; that is not modelled.
- Floating point: durations are `real` on the backend and integer milliseconds on the browser. `NaN` and a missing `duration_ms` are not modelled.
