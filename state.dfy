/**
 * `src/state.rs`: the global state record shared by the UI. The `Mutex`
 * around it, and the free helpers that lock it, are not modelled.
 */
module State {
  import opened Wrappers
  import opened SongModel

  datatype InputMode = Nav | Input
  datatype Focus = Help | Home | Queue | Search | Timer
  datatype SongState = Playing | Paused

  datatype GlobalState = GlobalState(
    /** Documented as three lines, the one at index 1 being the current lyric. */
    currentLyrics: seq<string>,
    currentSong: Option<Song>,
    currentSongElapsed: nat,
    focus: Focus,
    mode: InputMode,
    sessionTimeElapsed: Duration,
    songList: seq<Song>,
    songState: SongState)
  {
    /** `has_next_song`: nothing is playing and the song list is not empty. */
    predicate HasNextSong() {
      currentSong.None? && songList != []
    }
  }

  /**
   * The inherent `GlobalState::default`: paused, nothing playing, nothing
   * elapsed, no lyrics, no songs, Nav mode and Home focus.
   */
  function Default(): (s: GlobalState)
    ensures s.songState == Paused && s.currentSong == None && s.currentSongElapsed == 0
    ensures s.currentLyrics == [] && s.songList == []
    ensures s.mode == Nav && s.focus == Home && s.sessionTimeElapsed == ZERO
  {
    GlobalState([], None, 0, Home, Nav, ZERO, [], Paused)
  }

  /**
   * `GlobalState::new`, which calls `Self::default()`; the inherent function
   * shadows the derived `Default` (whose variants would be Playing and Input).
   */
  function New(): (s: GlobalState)
    ensures s.songState == Paused && s.currentSong == None && s.currentSongElapsed == 0
    ensures s.currentLyrics == [] && s.songList == []
    ensures s.mode == Nav && s.focus == Home && s.sessionTimeElapsed == ZERO
  {
    Default()
  }

  /** A fresh state has no next song to start. */
  lemma FreshStateHasNoNextSong()
    ensures !New().HasNextSong()
  {
  }

  /** Queuing a song while nothing plays makes a next song available; starting one takes it away. */
  lemma NextSongAvailability(s: GlobalState, queued: Song, playing: Song)
    ensures s.currentSong.None? ==> s.(songList := s.songList + [queued]).HasNextSong()
    ensures !s.(currentSong := Some(playing)).HasNextSong()
    ensures s.songList == [] ==> !s.HasNextSong()
  {
  }
}
