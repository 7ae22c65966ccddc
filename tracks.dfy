/**
 * The current track: the host player's now-playing data, the track id taken from its URI,
 * and the lyrics lookup for the current track.
 */
module Tracks {
  import opened Wrappers
  import opened Messages
  import opened LyricsService

  /**
   * What the host reports as now playing: no player data at all, player data whose `item`
   * is `null`, or an item with its URI (`spotify:track:<id>`).
   */
  datatype PlayerData = NoData | NoItem | Item(uri: string)

  /** A JavaScript value that is a string, `undefined` or `null`. */
  datatype JsId = Str(s: string) | Undefined | Null

  /** Joins fields with a separator between each two; the inverse of `Split`. */
  function Join(fields: seq<string>, sep: char): string
  {
    if |fields| == 0 then ""
    else if |fields| == 1 then fields[0]
    else fields[0] + [sep] + Join(fields[1..], sep)
  }

  /**
   * JavaScript's `s.split(sep)` for a one-character separator: the maximal runs of
   * characters between separators, always at least one (possibly empty) field.
   */
  function Split(s: string, sep: char): (fields: seq<string>)
    ensures |fields| >= 1
    ensures forall i :: 0 <= i < |fields| ==> sep !in fields[i]
    ensures Join(fields, sep) == s
    decreases |s|
  {
    if |s| == 0 then [""]
    else
      var rest := Split(s[1..], sep);
      if s[0] == sep then
        assert ([""] + rest)[1..] == rest;
        [""] + rest
      else
        var fields := [[s[0]] + rest[0]] + rest[1..];
        assert fields[1..] == rest[1..];
        assert s == [s[0]] + s[1..];
        fields
  }

  /** Splitting a word that has no separator, followed by anything, glues the word onto the first field. */
  lemma {:induction false} SplitPrefix(w: string, s: string, sep: char)
    requires sep !in w
    ensures Split(w + s, sep) == [w + Split(s, sep)[0]] + Split(s, sep)[1..]
    decreases |w|
  {
    if |w| > 0 {
      SplitPrefix(w[1..], s, sep);
      assert (w + s)[1..] == w[1..] + s;
      assert [w[0]] + (w[1..] + Split(s, sep)[0]) == w + Split(s, sep)[0];
    } else {
      var t := Split(s, sep);
      assert w + s == s && w + t[0] == t[0];
      assert [t[0]] + t[1..] == t;
    }
  }

  /** Splitting the join of separator-free fields gives those fields back. */
  lemma {:induction false} SplitJoin(fields: seq<string>, sep: char)
    requires |fields| >= 1
    requires forall i :: 0 <= i < |fields| ==> sep !in fields[i]
    ensures Split(Join(fields, sep), sep) == fields
  {
    if |fields| == 1 {
      SplitPrefix(fields[0], "", sep);
      assert fields[0] + "" == fields[0];
    } else {
      var rest := fields[1..];
      SplitJoin(rest, sep);
      var j := Join(rest, sep);
      assert Join(fields, sep) == fields[0] + ([sep] + j);
      SplitPrefix(fields[0], [sep] + j, sep);
      assert ([sep] + j)[1..] == j;
      assert Split([sep] + j, sep) == [""] + rest;
      assert fields[0] + "" == fields[0];
      assert [fields[0]] + rest == fields;
    }
  }

  /**
   * `Spicetify.Player.data?.item.uri.split(":")[2]` as written: `undefined` when there is no
   * player data or the URI has fewer than three fields, and a thrown `TypeError` when `item`
   * is `null`. It never yields `null`, although its declared type says it may.
   */
  function TrackIdAsWritten(d: PlayerData): (r: Outcome<JsId>)
    ensures r != Returned(Null)
    ensures r == Threw <==> d.NoItem?
    ensures d.NoData? || (d.Item? && |Split(d.uri, ':')| <= 2) ==> r == Returned(Undefined)
    ensures d.Item? && |Split(d.uri, ':')| > 2 ==> r == Returned(Str(Split(d.uri, ':')[2]))
  {
    match d
    case NoData => Returned(Undefined)
    case NoItem => Threw
    case Item(uri) =>
      var fields := Split(uri, ':');
      Returned(if |fields| > 2 then Str(fields[2]) else Undefined)
  }

  /** String concatenation of a JavaScript value, as in `baseURL + id + args`. */
  function JsToString(v: JsId): string
  {
    match v
    case Str(s) => s
    case Undefined => "undefined"
    case Null => "null"
  }

  /**
   * `getCurrentTrackLyrics` as written, with the lyrics service given as `fetch` from request
   * URL to settled outcome: a thrown lookup makes the whole call throw, only `null` takes the
   * no-track branch, and every other id, `undefined` included, is looked up.
   */
  function CurrentTrackLyricsAsWritten(d: PlayerData, fetch: string -> FetchOutcome): (r: Outcome<Option<seq<LyricLine>>>)
    ensures r == Threw <==> d.NoItem?
    ensures d.NoData? || (d.Item? && |Split(d.uri, ':')| <= 2) ==>
      r == Returned(FetchLyrics(fetch(LyricsUrl("undefined"))))
    ensures d.Item? && |Split(d.uri, ':')| > 2 ==>
      r == Returned(FetchLyrics(fetch(LyricsUrl(Split(d.uri, ':')[2]))))
  {
    match TrackIdAsWritten(d)
    case Threw => Threw
    case Returned(id) =>
      if id == Null then Returned(None)
      else Returned(FetchLyrics(fetch(LyricsUrl(JsToString(id)))))
  }

  /**
   * With no track playing the no-track guard never fires: a missing `item` throws, and
   * missing player data or a short URI sends a request for the track `undefined`.
   */
  lemma NoTrackGuardNeverFires(d: PlayerData, fetch: string -> FetchOutcome)
    requires !d.Item? || |Split(d.uri, ':')| <= 2
    ensures CurrentTrackLyricsAsWritten(d, fetch) ==
      if d.NoItem? then Threw else Returned(FetchLyrics(fetch(LyricsUrl("undefined"))))
  {
  }

  /**
   * The track id, as the no-track guard evidently intends it: the third `:`-separated field of
   * the item's URI, and `None` (no track playing) when there is no player data, no item, or
   * fewer than three fields. A present id never contains `:`.
   */
  function TrackId(d: PlayerData): (r: Option<string>)
    ensures r.Some? ==> d.Item? && ':' !in r.value
    ensures r.None? <==> (!d.Item? || |Split(d.uri, ':')| <= 2)
  {
    match d
    case Item(uri) =>
      var fields := Split(uri, ':');
      if |fields| > 2 then Some(fields[2]) else None
    case _ => None
  }

  /** The track id of `a:b:id` (with any further fields) is `id`. */
  lemma TrackIdIsThirdField(fields: seq<string>)
    requires |fields| >= 3
    requires forall i :: 0 <= i < |fields| ==> ':' !in fields[i]
    ensures TrackId(Item(Join(fields, ':'))) == Some(fields[2])
  {
    SplitJoin(fields, ':');
  }

  /**
   * `getCurrentTrackLyrics` with the guard working: no track gives `null` without a lookup,
   * otherwise the answer for the track's URL, classified by `FetchLyrics`.
   */
  function CurrentTrackLyrics(d: PlayerData, fetch: string -> FetchOutcome): (r: Option<seq<LyricLine>>)
    ensures TrackId(d).None? ==> r.None?
    ensures TrackId(d).Some? ==> r == FetchLyrics(fetch(LyricsUrl(TrackId(d).value)))
  {
    match TrackId(d)
    case None => None
    case Some(id) => FetchLyrics(fetch(LyricsUrl(id)))
  }

  /** With no track playing the result does not depend on the lyrics service at all. */
  lemma NoTrackNoFetch(d: PlayerData, fetch1: string -> FetchOutcome, fetch2: string -> FetchOutcome)
    requires TrackId(d).None?
    ensures CurrentTrackLyrics(d, fetch1) == CurrentTrackLyrics(d, fetch2) == None
  {
  }

  /** Whenever a track is playing, the corrected lookup and the code as written agree. */
  lemma CorrectedAgreesWhilePlaying(d: PlayerData, fetch: string -> FetchOutcome)
    requires TrackId(d).Some?
    ensures CurrentTrackLyricsAsWritten(d, fetch) == Returned(CurrentTrackLyrics(d, fetch))
  {
  }
}
