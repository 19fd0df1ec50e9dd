/** The music agent (backend/music_agent.py): Spotify search results are
    reshaped into the backend's track records. The Spotify client is an
    oracle `spotify(query, limit, offset)` that returns the search's
    `tracks.items` or raises. */
module MusicAgent {
  import opened Basics

  /** The parts of a Spotify track item that the agent reads. `artists` holds
      the artist names in order, `externalUrls` is the `external_urls` object
      and `albumImages` the URLs of `album.images` in order. */
  datatype SpotifyItem = SpotifyItem(
    name: string,
    artists: seq<string>,
    externalUrls: map<string, string>,
    albumImages: seq<string>,
    previewUrl: Option<string>,
    durationMs: int)

  /** The search oracle: `(q, limit, offset)` to the found items, or the
      message of the exception the client raised. */
  type Spotify = (string, int, int) -> Result<seq<SpotifyItem>>

  /** What the two agent methods return as JSON: a list of tracks or the
      error object `{"error": msg}`. */
  datatype Reply = Tracks(tracks: seq<Track>) | ErrorDict(error: string)

  /** `str(e)` of the exceptions that a malformed item raises. */
  const IndexErrorMessage := "list index out of range"
  const SpotifyKeyErrorMessage := "'spotify'"

  const DefaultGenre := "pop"
  const SearchLimit := 10
  const RecommendationCount := 5
  const MaxOffset := 50

  /** Items without album art are skipped. */
  predicate HasCover(item: SpotifyItem) {
    |item.albumImages| > 0
  }

  /** The fields `_clean_tracks` indexes exist: a first artist and a
      Spotify URL. */
  predicate WellFormed(item: SpotifyItem) {
    |item.artists| > 0 && "spotify" in item.externalUrls
  }

  /** The record built for one kept item. The dictionary's values are
      evaluated in order, so a missing first artist is reported before a
      missing Spotify URL. */
  function Shape(item: SpotifyItem): (r: Result<Track>)
    requires HasCover(item)
    ensures r.Ok? <==> WellFormed(item)
    ensures r.Ok? ==> && r.value.name == item.name
                      && r.value.artist == item.artists[0]
                      && r.value.url == item.externalUrls["spotify"]
                      && r.value.coverArt == item.albumImages[0]
                      && r.value.previewUrl == item.previewUrl
                      && r.value.durationMs == item.durationMs
    ensures |item.artists| == 0 ==> r == Err(IndexErrorMessage)
  {
    if |item.artists| == 0 then Err(IndexErrorMessage)
    else if "spotify" !in item.externalUrls then Err(SpotifyKeyErrorMessage)
    else Ok(Track(item.name, item.artists[0], item.externalUrls["spotify"],
                  item.albumImages[0], item.previewUrl, item.durationMs))
  }

  /** The items that `_clean_tracks` keeps, in their original order. */
  function Kept(items: seq<SpotifyItem>): (kept: seq<SpotifyItem>)
    ensures |kept| <= |items|
    ensures forall k :: 0 <= k < |kept| ==> HasCover(kept[k])
  {
    if items == [] then []
    else
      var earlier := Kept(items[..|items| - 1]);
      var last := items[|items| - 1];
      if HasCover(last) then earlier + [last] else earlier
  }

  /** `_clean_tracks(items)`, visiting the items in order: the first kept
      item that is malformed raises. */
  function Clean(items: seq<SpotifyItem>): (r: Result<seq<Track>>)
    ensures r.Ok? ==> |r.value| <= |items|
  {
    if items == [] then Ok([])
    else
      var last := items[|items| - 1];
      match Clean(items[..|items| - 1])
      case Err(msg) => Err(msg)
      case Ok(earlier) =>
        if !HasCover(last) then Ok(earlier)
        else
          match Shape(last)
          case Err(msg) => Err(msg)
          case Ok(track) => Ok(earlier + [track])
  }

  /** An item is kept if and only if it occurs in the input and has album art. */
  lemma {:induction false} KeptExactlyCovered(items: seq<SpotifyItem>, item: SpotifyItem)
    ensures item in Kept(items) <==> item in items && HasCover(item)
  {
    if items != [] {
      var init := items[..|items| - 1];
      KeptExactlyCovered(init, item);
      assert items == init + [items[|items| - 1]];
    }
  }

  /** Each item occurs in the kept items exactly as often as in the input
      when it has album art, and not at all otherwise. With
      KeptPreservesOrder this pins `Kept` down as the covered items in order. */
  lemma {:induction false} KeptCounts(items: seq<SpotifyItem>, item: SpotifyItem)
    ensures multiset(Kept(items))[item] == if HasCover(item) then multiset(items)[item] else 0
  {
    if items != [] {
      var init := items[..|items| - 1];
      var last := items[|items| - 1];
      KeptCounts(init, item);
      assert items == init + [last];
      assert multiset(items) == multiset(init) + multiset{last};
      if HasCover(last) {
        assert multiset(Kept(items)) == multiset(Kept(init)) + multiset{last};
      }
    }
  }

  /** The kept items appear in the order they had in the input. */
  lemma {:induction false} KeptPreservesOrder(items: seq<SpotifyItem>)
    ensures IsSubsequence(Kept(items), items)
  {
    if items != [] {
      var init := items[..|items| - 1];
      KeptPreservesOrder(init);
      var last := items[|items| - 1];
      if HasCover(last) {
        var k := Kept(init) + [last];
        assert k[..|k| - 1] == Kept(init);
      } else {
        SubsequenceOfPrefix(Kept(init), init, last);
      }
    }
  }

  /** `_clean_tracks` succeeds exactly when every kept item is well formed,
      and then it returns one record per kept item, in order, each built by
      `Shape`: it is never longer than its input. */
  lemma {:induction false} CleanMatchesKept(items: seq<SpotifyItem>)
    ensures Clean(items).Ok? <==> forall k :: 0 <= k < |Kept(items)| ==> WellFormed(Kept(items)[k])
    ensures Clean(items).Ok? ==>
              && |Clean(items).value| == |Kept(items)| <= |items|
              && forall k :: 0 <= k < |Kept(items)| ==> Shape(Kept(items)[k]) == Ok(Clean(items).value[k])
  {
    if items != [] {
      var init := items[..|items| - 1];
      CleanMatchesKept(init);
      var last := items[|items| - 1];
      if HasCover(last) {
        var k := Kept(items);
        assert k == Kept(init) + [last];
        assert forall j :: 0 <= j < |Kept(init)| ==> k[j] == Kept(init)[j];
        assert k[|k| - 1] == last;
        if forall j :: 0 <= j < |k| ==> WellFormed(k[j]) {
          assert WellFormed(k[|k| - 1]);
          assert Clean(init).Ok?;
          assert Clean(items) == Ok(Clean(init).value + [Shape(last).value]);
        } else if Clean(init).Ok? {
          assert !WellFormed(last);
          assert Clean(items).Err?;
        } else {
          assert Clean(items).Err?;
        }
      } else {
        assert Kept(items) == Kept(init);
        assert Clean(items) == Clean(init);
      }
    }
  }

  /** `_clean_tracks` as the source writes it: a loop that appends the
      record of every item with album art. */
  method CleanTracks(items: seq<SpotifyItem>) returns (r: Result<seq<Track>>)
    ensures r == Clean(items)
  {
    var tracks: seq<Track> := [];
    for i := 0 to |items|
      invariant Clean(items[..i]) == Ok(tracks)
    {
      assert items[..i + 1][..i] == items[..i];
      var item := items[i];
      if HasCover(item) {
        var shaped := Shape(item);
        if shaped.Err? {
          assert Clean(items[..i + 1]).Err?;
          CleanErrSticks(items, i + 1);
          return Err(shaped.msg);
        }
        tracks := tracks + [shaped.value];
      }
    }
    assert items[..|items|] == items;
    r := Ok(tracks);
  }

  /** Once a prefix of the items raises, so do the whole items, with the
      same message. */
  lemma {:induction false} CleanErrSticks(items: seq<SpotifyItem>, n: nat)
    requires n <= |items| && Clean(items[..n]).Err?
    ensures Clean(items) == Clean(items[..n])
    decreases |items| - n
  {
    if n == |items| {
      assert items[..n] == items;
    } else {
      assert items[..n + 1][..n] == items[..n];
      CleanErrSticks(items, n + 1);
    }
  }

  /** `mood_params.get("seed_genres", ["pop"])[0]`: the first seed genre,
      "pop" when the key is absent; an empty list raises `IndexError`
      (this line is outside the `try`). */
  function SeedGenre(params: Vibe): (r: Result<string>)
    ensures params.seedGenres.None? ==> r == Ok(DefaultGenre)
    ensures params.seedGenres == Some([]) ==> r == Err(IndexErrorMessage)
    ensures params.seedGenres.Some? && params.seedGenres.value != [] ==> r == Ok(params.seedGenres.value[0])
  {
    match params.seedGenres
    case None => Ok(DefaultGenre)
    case Some(genres) => if genres == [] then Err(IndexErrorMessage) else Ok(genres[0])
  }

  /** Python's `xs[:n]` for `n >= 0`. */
  function Take<T>(xs: seq<T>, n: nat): (r: seq<T>)
    ensures |r| <= n && |r| <= |xs| && r == xs[..|r|]
    ensures |xs| <= n ==> r == xs
    ensures n <= |xs| ==> |r| == n
  {
    if |xs| <= n then xs else xs[..n]
  }

  /** `get_recommendations` once the random offset is drawn. The outer
      `Err` is the exception that escapes; spotify and cleaning failures
      become the error object. */
  function RecommendationsAt(params: Vibe, offset: int, spotify: Spotify): (r: Result<Reply>)
    ensures r.Err? <==> params.seedGenres == Some([])
    ensures r.Err? ==> r.msg == IndexErrorMessage
    ensures r.Ok? && r.value.Tracks? ==> |r.value.tracks| <= RecommendationCount
  {
    match SeedGenre(params)
    case Err(msg) => Err(msg)
    case Ok(genre) =>
      Ok(match spotify("genre:" + genre, SearchLimit, offset)
         case Err(msg) => ErrorDict(msg)
         case Ok(items) =>
           match Clean(items)
           case Err(msg) => ErrorDict(msg)
           case Ok(tracks) => Tracks(Take(tracks, RecommendationCount)))
  }

  /** `get_recommendations`: the offset is `random.randint(0, 50)`, drawn
      here as a nondeterministic choice and returned so callers can see it. */
  method GetRecommendations(params: Vibe, spotify: Spotify) returns (r: Result<Reply>, offset: int)
    ensures 0 <= offset <= MaxOffset
    ensures r == RecommendationsAt(params, offset, spotify)
    ensures r.Err? <==> params.seedGenres == Some([])
  {
    offset :| 0 <= offset <= MaxOffset;
    var genre := SeedGenre(params);
    if genre.Err? {
      return Err(genre.msg), offset;
    }
    var results := spotify("genre:" + genre.value, SearchLimit, offset);
    if results.Err? {
      return Ok(ErrorDict(results.msg)), offset;
    }
    var cleaned := CleanTracks(results.value);
    if cleaned.Err? {
      return Ok(ErrorDict(cleaned.msg)), offset;
    }
    r := Ok(Tracks(Take(cleaned.value, RecommendationCount)));
  }

  /** The recommendations are at most five tracks: the first ones of the
      cleaned search for `"genre:" + SeedGenre(params)`. */
  lemma RecommendationsAreFirstFive(params: Vibe, offset: int, spotify: Spotify)
    requires RecommendationsAt(params, offset, spotify).Ok?
    requires RecommendationsAt(params, offset, spotify).value.Tracks?
    ensures var genre := SeedGenre(params).value;
            var items := spotify("genre:" + genre, SearchLimit, offset).value;
            var tracks := RecommendationsAt(params, offset, spotify).value.tracks;
            && |tracks| <= RecommendationCount
            && Clean(items).Ok?
            && tracks == Clean(items).value[..|tracks|]
            && (|Clean(items).value| >= RecommendationCount ==> |tracks| == RecommendationCount)
            && (|Clean(items).value| < RecommendationCount ==> tracks == Clean(items).value)
  {
  }

  /** `search_tracks`: a search for the user's text with `limit=10`. */
  function SearchTracks(query: string, spotify: Spotify): (r: Reply)
    ensures spotify(query, SearchLimit, 0).Err? ==> r == ErrorDict(spotify(query, SearchLimit, 0).msg)
    ensures r.Tracks? ==> spotify(query, SearchLimit, 0).Ok?
    ensures spotify(query, SearchLimit, 0).Ok? ==>
              var items := spotify(query, SearchLimit, 0).value;
              && (r.Tracks? <==> Clean(items).Ok?)
              && (r.Tracks? <==> forall k :: 0 <= k < |Kept(items)| ==> WellFormed(Kept(items)[k]))
              && (Clean(items).Err? ==> r == ErrorDict(Clean(items).msg))
    ensures r.Tracks? && spotify(query, SearchLimit, 0).Ok? ==>
              var kept := Kept(spotify(query, SearchLimit, 0).value);
              |r.tracks| == |kept| && forall i :: 0 <= i < |kept| ==> Shape(kept[i]) == Ok(r.tracks[i])
  {
    match spotify(query, SearchLimit, 0)
    case Err(msg) => ErrorDict(msg)
    case Ok(items) =>
      CleanMatchesKept(items);
      match Clean(items)
      case Err(msg) => ErrorDict(msg)
      case Ok(tracks) => Tracks(tracks)
  }

  /** If Spotify honours `limit=10`, the search yields at most ten tracks,
      one per kept item. */
  lemma SearchTracksBound(query: string, spotify: Spotify)
    requires spotify(query, SearchLimit, 0).Ok?
    requires |spotify(query, SearchLimit, 0).value| <= SearchLimit
    ensures SearchTracks(query, spotify).Tracks? ==>
              |SearchTracks(query, spotify).tracks| == |Kept(spotify(query, SearchLimit, 0).value)| <= SearchLimit
  {
    CleanMatchesKept(spotify(query, SearchLimit, 0).value);
  }
}
