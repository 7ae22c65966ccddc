/** Lyric lines and the two kinds of message the hub pushes to subscribers. */
module Messages {
  import opened Wrappers

  /** One word of a lyric line (the source's `{ string: string }` record). */
  datatype Word = Word(text: string)

  /** A lyric line: its start time in milliseconds and its words. */
  datatype LyricLine = LyricLine(time: int, words: seq<Word>)

  /** A message on the wire: `{ lyrics: ... }` or `{ time: ... }`, with `None` for JSON `null`. */
  datatype Msg = LyricsMsg(lyrics: Option<seq<LyricLine>>) | TimeMsg(time: Option<int>)

  /**
   * The value of the `lyrics` key: `currentLyrics?.length ? currentLyrics : null`.
   * A lyrics list that is missing or empty is sent as `null`; any other list is sent unchanged,
   * so a present-but-empty list never reaches a subscriber.
   */
  function LyricsPayload(current: Option<seq<LyricLine>>): (r: Option<seq<LyricLine>>)
    ensures r != Some([])
    ensures r.None? <==> (current.None? || current.value == [])
    ensures r.Some? ==> r == current
  {
    if current.Some? && |current.value| > 0 then current else None
  }
}
