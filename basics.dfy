/** Shared value types: optional values, results of operations that may raise,
    the JSON records that travel between the backend and the browser, and
    the subsequence relation used to say that a filter keeps the order. */
module Basics {

  datatype Option<+T> = None | Some(value: T)

  /** Outcome of a Python call that either returns a value or raises an
      exception whose `str(e)` is `msg`. */
  datatype Result<+T> = Ok(value: T) | Err(msg: string)

  /** A track in the shape the backend sends to the browser:
      `{name, artist, url, cover_art, preview_url, duration_ms}`.
      `previewUrl` is `None` when Spotify has no preview (JSON `null`). */
  datatype Track = Track(
    name: string,
    artist: string,
    url: string,
    coverArt: string,
    previewUrl: Option<string>,
    durationMs: int)

  /** The keys of the vision agent's JSON that the rest of the system reads.
      A key missing from the JSON object is `None`; the vision agent's error
      object `{"error": msg}` has only `error` set. */
  datatype Vibe = Vibe(
    seedGenres: Option<seq<string>>,
    description: Option<string>,
    error: Option<string>)

  /** `a` is `b` with some elements left out, the rest in the same order. */
  ghost predicate IsSubsequence<T>(a: seq<T>, b: seq<T>)
    decreases |b|
  {
    if a == [] then true
    else if b == [] then false
    else if a[|a| - 1] == b[|b| - 1] then IsSubsequence(a[..|a| - 1], b[..|b| - 1])
    else IsSubsequence(a, b[..|b| - 1])
  }

  /** Appending to the longer sequence keeps a subsequence a subsequence. */
  lemma {:induction false} SubsequenceOfPrefix<T>(a: seq<T>, b: seq<T>, x: T)
    requires IsSubsequence(a, b)
    ensures IsSubsequence(a, b + [x])
    decreases |b|, 1
  {
    var bx := b + [x];
    assert bx[..|bx| - 1] == b;
    if a != [] && a[|a| - 1] == x {
      SubsequenceDropLast(a, b);
    }
  }

  /** A subsequence of `b` without its last element is a subsequence of `b`. */
  lemma {:induction false} SubsequenceDropLast<T>(a: seq<T>, b: seq<T>)
    requires a != [] && IsSubsequence(a, b)
    ensures IsSubsequence(a[..|a| - 1], b)
    decreases |b|, 0
  {
    var init := a[..|a| - 1];
    if init != [] {
      assert b != [];
      assert b[..|b| - 1] + [b[|b| - 1]] == b;
      if a[|a| - 1] == b[|b| - 1] {
        SubsequenceOfPrefix(init, b[..|b| - 1], b[|b| - 1]);
      } else {
        SubsequenceDropLast(a, b[..|b| - 1]);
        SubsequenceOfPrefix(init, b[..|b| - 1], b[|b| - 1]);
      }
    }
  }
}
