/**
 * `src/components/queue.rs`: the song queue. Its only behaviour is to append
 * a placeholder song for every `SearchSong` action and to announce a redraw;
 * it never answers an event with an action.
 */
module QueueComponent {
  import opened Wrappers
  import opened Ui
  import opened SongModel

  /**
   * The song `update` queues for a search: the query as title, "Unknown" as
   * artist, everything else empty. The struct literal names no duration
   * fields; they are taken as zero, as in `Song::new`.
   */
  function SearchedSong(query: string): (s: Song)
    ensures s == New().(title := query, artist := "Unknown")
  {
    Song("", "", query, "Unknown", ZERO, 0, "", None)
  }

  /** The songs one `update` appends: one for a `SearchSong`, none otherwise. */
  function Queued(action: Action): (r: seq<Song>)
    ensures action.SearchSong? ==> r == [SearchedSong(action.query)]
    ensures !action.SearchSong? ==> r == []
  {
    match action
    case SearchSong(s) => [SearchedSong(s)]
    case _ => []
  }

  class Queue {
    var songs: seq<Song>
    var currentSong: Option<Song>
    var currentSongIndex: nat
    /** `action_tx.is_some()`: whether a sender was registered. */
    var hasSender: bool
    /** The actions sent through the registered sender, oldest first. */
    var sent: seq<Action>

    /** `Queue::new`: no songs, nothing current, index 0, no sender. */
    constructor ()
      ensures songs == [] && currentSong == None && currentSongIndex == 0
      ensures !hasSender && sent == []
    {
      songs := [];
      currentSong := None;
      currentSongIndex := 0;
      hasSender := false;
      sent := [];
    }

    /** `register_action_handler`. */
    method RegisterActionHandler()
      modifies this`hasSender
      ensures hasSender
    {
      hasSender := true;
    }

    /** `add`: push at the tail. */
    method Add(song: Song)
      modifies this`songs
      ensures songs == old(songs) + [song]
      ensures |songs| == |old(songs)| + 1 && songs[..|old(songs)|] == old(songs)
    {
      songs := songs + [song];
    }

    /** `handle_key_events`: every key is ignored. */
    method HandleKeyEvents(key: KeyEvent) returns (r: Option<Action>)
      ensures r == None
    {
      r := None;
    }

    /** `handle_events`: key events go to `handle_key_events`, whose answer is dropped; the result is None. */
    method HandleEvents(event: Option<Event>) returns (r: Option<Action>)
      ensures r == None
    {
      match event {
        case Some(Key(keyEvent)) =>
          var _ := HandleKeyEvents(keyEvent);
        case _ =>
      }
      r := None;
    }

    /**
     * `update`: a `SearchSong` appends its placeholder song and, when a
     * sender is registered, sends `Render`; every action yields None.
     */
    method Update(action: Action) returns (r: Option<Action>)
      modifies this`songs, this`sent
      ensures r == None
      ensures songs == old(songs) + Queued(action)
      ensures sent == old(sent) + (if action.SearchSong? && hasSender then [Render] else [])
    {
      match action {
        case SearchSong(s) =>
          songs := songs + [SearchedSong(s)];
          if hasSender {
            sent := sent + [Render];
          }
        case _ =>
      }
      r := None;
    }
  }
}
