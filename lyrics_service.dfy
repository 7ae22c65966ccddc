/**
 * The lyrics lookup: the request URL for a track and the classification of the
 * service's answer into lyric lines or `null`.
 */
module LyricsService {
  import opened Wrappers
  import opened Messages

  /** The `lyrics` object of a response: its `syncType` and its `lines`, each possibly missing. */
  datatype LyricsBody = LyricsBody(syncType: Option<string>, lines: Option<seq<LyricLine>>)

  /** A response object; `lyrics` may be missing. */
  datatype Response = Response(lyrics: Option<LyricsBody>)

  /** What the request promise settles to: rejected, or resolved with a response that may be `null`. */
  datatype FetchOutcome = Rejected | Resolved(resp: Option<Response>)

  const LyricsBaseUrl := "https://spclient.wg.spotify.com/color-lyrics/v2/track/"
  const LyricsArgs := "?format=json"

  /** The request URL for a track id: base URL, then the id, then the query string. */
  function LyricsUrl(id: string): (url: string)
    ensures |url| == |LyricsBaseUrl| + |id| + |LyricsArgs|
    ensures url[..|LyricsBaseUrl|] == LyricsBaseUrl
    ensures url[|LyricsBaseUrl|..|url| - |LyricsArgs|] == id
    ensures url[|url| - |LyricsArgs|..] == LyricsArgs
  {
    LyricsBaseUrl + id + LyricsArgs
  }

  /**
   * Different track ids are never sent to the service as the same request. No other proof
   * uses this; it documents that the URL carries the id unambiguously.
   */
  lemma LyricsUrlInjective(a: string, b: string)
    requires LyricsUrl(a) == LyricsUrl(b)
    ensures a == b
  {
    var ua, ub := LyricsUrl(a), LyricsUrl(b);
    assert a == ua[|LyricsBaseUrl|..|ua| - |LyricsArgs|];
    assert b == ub[|LyricsBaseUrl|..|ub| - |LyricsArgs|];
  }

  /**
   * The resolve callback: reading `resp.lyrics.syncType` throws when the response or its
   * `lyrics` is missing; an `UNSYNCED` answer gives `null`; otherwise the lines are returned
   * when present (an empty array is truthy and is returned too) and `null` when absent.
   */
  function OnResolved(resp: Option<Response>): (r: Outcome<Option<seq<LyricLine>>>)
    ensures r == Threw <==> resp.None? || resp.value.lyrics.None?
    ensures r.Returned? && r.value.Some? ==>
      resp.value.lyrics.value.syncType != Some("UNSYNCED") && r.value == resp.value.lyrics.value.lines
    ensures r.Returned? && resp.value.lyrics.value.syncType == Some("UNSYNCED") ==> r == Returned(None)
    ensures resp.Some? && resp.value.lyrics.Some? && resp.value.lyrics.value.syncType != Some("UNSYNCED") ==>
      r == Returned(resp.value.lyrics.value.lines)
  {
    match resp
    case None => Threw
    case Some(r) =>
      match r.lyrics
      case None => Threw
      case Some(body) =>
        if body.syncType == Some("UNSYNCED") then Returned(None)
        else if body.lines.Some? then Returned(body.lines)
        else Returned(None)
  }

  /** True when the outcome carries a response whose lyrics object is present. */
  predicate HasBody(outcome: FetchOutcome)
  {
    outcome.Resolved? && outcome.resp.Some? && outcome.resp.value.lyrics.Some?
  }

  /**
   * `fetchLyrics` after its promise settles: the resolve callback, with every rejection and
   * every exception thrown by the callback turned into `null` by the catch handler.
   * The result is the response's own lines exactly when the lookup succeeded, the answer is
   * not `UNSYNCED` and the lines are present; every other case is `null`.
   */
  function FetchLyrics(outcome: FetchOutcome): (r: Option<seq<LyricLine>>)
    ensures r.Some? <==>
      HasBody(outcome)
      && outcome.resp.value.lyrics.value.syncType != Some("UNSYNCED")
      && outcome.resp.value.lyrics.value.lines.Some?
    ensures r.Some? ==> r == outcome.resp.value.lyrics.value.lines
    ensures outcome.Rejected? ==> r.None?
  {
    match outcome
    case Rejected => None
    case Resolved(resp) =>
      match OnResolved(resp)
      case Threw => None
      case Returned(lines) => lines
  }
}
