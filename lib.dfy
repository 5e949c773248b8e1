/**
 * `src/lib.rs`: the single-file player carries its own copies of
 * `fetch_lyrics` and `display_synced_lyrics`. Their parse loop and cursor loop
 * are those of `src/lyrics/mod.rs` line for line; only the banners printed
 * around the lyrics differ.
 */
module Lib {
  import opened Wrappers
  import opened Lrc
  import Lyrics

  const LYRICS_BANNER: string := "----- LYRICS -----"
  const END_BANNER: string := "----- END OF LYRICS -----"

  /**
   * The parse loop of `fetch_lyrics`: exact (unbucketed) timestamps, later
   * lines overwriting earlier ones, None as soon as a capture overflows u64.
   */
  method FetchLyrics(syncedRaw: string) returns (r: Option<LyricsMap>)
    ensures r == ParseLines(Lines(syncedRaw), false)
    ensures r.None? <==> exists i :: 0 <= i < |Lines(syncedRaw)| && Classify(Lines(syncedRaw)[i]).Corrupt?
  {
    r := Lyrics.FetchLyrics(syncedRaw);
    ParseFailsIffCorrupt(Lines(syncedRaw), false);
  }

  /** `display_synced_lyrics`, framed by the "LYRICS" and "END OF LYRICS" banners. */
  method DisplaySyncedLyrics(lyricsMap: LyricsMap, clock: seq<nat>)
    returns (printed: seq<string>, shown: nat, cursor: seq<nat>)
    ensures Lyrics.DisplayRun(lyricsMap, clock, LYRICS_BANNER, END_BANNER, printed, shown, cursor)
  {
    printed, shown, cursor := Lyrics.DisplayLoop(lyricsMap, clock, LYRICS_BANNER, END_BANNER);
  }
}
