/** How the browser and the backend fit together: what the browser makes of
    the backend's responses, and the agreement of the names and numbers that
    each side computes on its own. */
module Protocol {
  import opened Basics
  import Server
  import Frontend
  import MusicAgent

  /** What axios hands the upload handler for a `/generate-playlist`
      response: the JSON body, or a thrown error for an error status. */
  function UploadOutcome(response: Server.Response): (o: Frontend.Outcome<Frontend.Analysis>)
    ensures response.Playlist? <==> o.Success?
    ensures o.Success? ==>
              && o.payload.videoId == Some(response.videoId)
              && o.payload.vibe == Some(response.vibeAnalysis)
              && o.payload.playlist == response.playlist
  {
    match response
    case Playlist(id, vibe, playlist) => Frontend.Success(Frontend.Analysis(Some(id), Some(vibe), playlist))
    case _ => Frontend.Failure
  }

  /** The browser saves the merged video under the same name the backend
      gives it. */
  lemma DownloadNamesAgree(songName: string)
    ensures Frontend.DownloadName(songName) == Server.ResponseFilename(songName)
  {
  }

  /** The slider's whole, non-negative start second is where the backend
      starts the song: a start of 0 means no trim. */
  lemma StartTimesAgree(request: Frontend.MergeRequest)
    requires request.startTime >= 0
    ensures var t := Server.StartSeconds(Some(request.startTime as real));
            (if t > 0.0 then t else 0.0) == request.startTime as real
    ensures Server.StartSeconds(Some(request.startTime as real)) > 0.0 <==> request.startTime > 0
  {
  }

  /** After a successful upload and any number of successful searches, a
      merge request carries the uploaded session's id, so the backend looks
      for the very file the upload stored. */
  lemma {:induction false} MergeFindsUpload(upload: Server.Response, replies: seq<MusicAgent.Reply>)
    requires upload.Playlist?
    ensures var result := Frontend.AfterSearches(Some(UploadOutcome(upload).payload), replies);
            && result.Some? && result.value.videoId == Some(upload.videoId)
            && Server.TempVideoPath(result.value.videoId.value) == Server.TempVideoPath(upload.videoId)
  {
    if replies != [] {
      Frontend.LastSearchWins(Some(UploadOutcome(upload).payload), replies);
    }
  }
}
