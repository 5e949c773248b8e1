/**
 * `src/models/song.rs`: the song record the player composes from a lyric
 * search result and an audio search result. `with_lr` and `with_ar` each copy
 * one source's fields and keep the rest of the record.
 */
module SongModel {
  import opened Wrappers
  import opened Text
  import opened Lrc

  /** `std::time::Duration`: whole seconds plus a nanosecond part below one second. */
  datatype Duration = Duration(secs: nat, nanos: nat)

  /** `Duration::new(0, 0)`. */
  const ZERO: Duration := Duration(0, 0)

  /** `Duration::as_millis`: whole milliseconds (a `u128`, never truncated). */
  function AsMillis(d: Duration): nat {
    d.secs * 1000 + d.nanos / 1_000_000
  }

  /** `as u64`: keep the low 64 bits. */
  function ToU64(n: nat): (r: nat)
    ensures r < U64_MODULUS
    ensures n < U64_MODULUS ==> r == n
  {
    n % U64_MODULUS
  }

  /** One hit of the audio search (`AudioResult`, with the `duration` field the YouTube service fills in). */
  datatype AudioResult = AudioResult(id: string, title: string, artist: string, duration: Duration)

  /** One hit of the lyric search (`LyricsResult`). */
  datatype LyricsResult = LyricsResult(id: string, title: string, artist: string, syncedLyrics: string, lyricMap: Option<LyricsMap>)

  /** `Song`; the unit `message` field carries nothing and is not represented. */
  datatype Song = Song(
    lyricId: string,
    videoId: string,
    title: string,
    artist: string,
    duration: Duration,
    durationMs: nat,
    syncedLyrics: string,
    lyricMap: Option<LyricsMap>)

  /** The fields a lyric result supplies: id, title, artist, synced text and parsed map. */
  datatype LyricPart = LyricPart(lyricId: string, title: string, artist: string, syncedLyrics: string, lyricMap: Option<LyricsMap>)

  /** The fields an audio result supplies: video id, duration and duration in milliseconds. */
  datatype AudioPart = AudioPart(videoId: string, duration: Duration, durationMs: nat)

  function LyricsOf(s: Song): LyricPart {
    LyricPart(s.lyricId, s.title, s.artist, s.syncedLyrics, s.lyricMap)
  }

  function AudioOf(s: Song): AudioPart {
    AudioPart(s.videoId, s.duration, s.durationMs)
  }

  /** The two parts together are the whole record. */
  lemma SongIsItsParts(s: Song, t: Song)
    ensures s == t <==> LyricsOf(s) == LyricsOf(t) && AudioOf(s) == AudioOf(t)
  {
  }

  /** `Song::new`: every string empty, a zero duration and no lyric map. */
  function New(): (s: Song)
    ensures LyricsOf(s) == LyricPart("", "", "", "", None)
    ensures AudioOf(s) == AudioPart("", ZERO, 0)
  {
    Song("", "", "", "", ZERO, 0, "", None)
  }

  /** `with_lr`: the lyric fields from `lr` (the map from `lyricMap`, not from `lr`), the audio fields kept. */
  function WithLr(song: Song, lr: LyricsResult, lyricMap: Option<LyricsMap>): (r: Song)
    ensures LyricsOf(r) == LyricPart(lr.id, lr.title, lr.artist, lr.syncedLyrics, lyricMap)
    ensures AudioOf(r) == AudioOf(song)
  {
    Song(lr.id, song.videoId, lr.title, lr.artist, song.duration, song.durationMs, lr.syncedLyrics, lyricMap)
  }

  /** `with_ar`: the audio fields from `ar`, `duration_ms` its whole milliseconds cut to u64, the lyric fields kept. */
  function WithAr(song: Song, ar: AudioResult): (r: Song)
    ensures AudioOf(r) == AudioPart(ar.id, ar.duration, ToU64(AsMillis(ar.duration)))
    ensures LyricsOf(r) == LyricsOf(song)
  {
    Song(song.lyricId, ar.id, song.title, song.artist, ar.duration, ToU64(AsMillis(ar.duration)), song.syncedLyrics, song.lyricMap)
  }

  /** The two builders write disjoint fields, so their order does not matter. */
  lemma BuildersCommute(song: Song, lr: LyricsResult, lyricMap: Option<LyricsMap>, ar: AudioResult)
    ensures WithAr(WithLr(song, lr, lyricMap), ar) == WithLr(WithAr(song, ar), lr, lyricMap)
  {
    SongIsItsParts(WithAr(WithLr(song, lr, lyricMap), ar), WithLr(WithAr(song, ar), lr, lyricMap));
  }

  /** Applying `with_lr` twice with the same arguments is applying it once. */
  lemma WithLrIdempotent(song: Song, lr: LyricsResult, lyricMap: Option<LyricsMap>)
    ensures WithLr(WithLr(song, lr, lyricMap), lr, lyricMap) == WithLr(song, lr, lyricMap)
  {
    SongIsItsParts(WithLr(WithLr(song, lr, lyricMap), lr, lyricMap), WithLr(song, lr, lyricMap));
  }

  /** Applying `with_ar` twice with the same result is applying it once. */
  lemma WithArIdempotent(song: Song, ar: AudioResult)
    ensures WithAr(WithAr(song, ar), ar) == WithAr(song, ar)
  {
    SongIsItsParts(WithAr(WithAr(song, ar), ar), WithAr(song, ar));
  }

  /** A song composed from a fresh record holds exactly what the two results supplied. */
  lemma ComposedSong(lr: LyricsResult, lyricMap: Option<LyricsMap>, ar: AudioResult)
    ensures LyricsOf(WithAr(WithLr(New(), lr, lyricMap), ar)) == LyricPart(lr.id, lr.title, lr.artist, lr.syncedLyrics, lyricMap)
    ensures AudioOf(WithAr(WithLr(New(), lr, lyricMap), ar)) == AudioPart(ar.id, ar.duration, ToU64(AsMillis(ar.duration)))
  {
  }

  /** Below 2^64 milliseconds `duration_ms` is the duration's exact millisecond count. */
  lemma DurationMsExact(song: Song, ar: AudioResult)
    requires AsMillis(ar.duration) < U64_MODULUS
    ensures WithAr(song, ar).durationMs == ar.duration.secs * 1000 + ar.duration.nanos / 1_000_000
  {
  }
}
