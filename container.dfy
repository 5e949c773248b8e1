/**
 * `src/components/container.rs`: the screen container. It owns the mode,
 * hands keys to the queue or the search box when one of them has the screen,
 * maps the remaining keys to actions, and moves the mode on actions. The
 * search box of this draft exposes no `handle_events`/`handle_key_events`;
 * what it answers is a parameter.
 */
module ContainerComponent {
  import opened Wrappers
  import opened Ui
  import opened SongModel
  import opened QueueComponent

  /**
   * The key map of the container's own arm (any mode but Search and
   * WithQueue): q quits, h, / and u toggle help, search and queue, Esc goes
   * home, and j and k ask for the previous or next song only in a mode the
   * arm never sees.
   */
  function KeyAction(mode: Mode, code: KeyCode): Action {
    match code
    case Char('q') => Quit
    case Char('h') => ToggleHelp
    case Char('/') => ToggleSearch
    case Char('u') => ToggleQueue
    case Esc => GoHome
    case Char('j') => if mode == WithQueue || mode == Search then PreviousSong else Noop
    case Char('k') => if mode == WithQueue || mode == Search then NextSong else Noop
    case _ => Noop
  }

  /** The answer of `handle_key_events`: the search box's in Search mode, the queue's (always None) in WithQueue mode, the key map otherwise. */
  function KeyReply(mode: Mode, code: KeyCode, searchReply: Option<Action>): Option<Action> {
    match mode
    case Search => searchReply
    case WithQueue => None
    case _ => Some(KeyAction(mode, code))
  }

  /** Outside Search and WithQueue every key yields an action, as listed. */
  lemma ContainerKeys(mode: Mode, code: KeyCode, searchReply: Option<Action>)
    requires mode != Search && mode != WithQueue
    ensures KeyReply(mode, code, searchReply).Some?
    ensures code == Char('q') ==> KeyReply(mode, code, searchReply) == Some(Quit)
    ensures code == Char('h') ==> KeyReply(mode, code, searchReply) == Some(ToggleHelp)
    ensures code == Char('/') ==> KeyReply(mode, code, searchReply) == Some(ToggleSearch)
    ensures code == Char('u') ==> KeyReply(mode, code, searchReply) == Some(ToggleQueue)
    ensures code == Esc ==> KeyReply(mode, code, searchReply) == Some(GoHome)
    ensures code !in {Char('q'), Char('h'), Char('/'), Char('u'), Esc} ==> KeyReply(mode, code, searchReply) == Some(Noop)
  {
  }

  /** The container never asks for the previous or next song: j and k reach its key map only outside WithQueue and Search. */
  lemma NoSongNavigation(mode: Mode, code: KeyCode, searchReply: Option<Action>)
    requires searchReply != Some(PreviousSong) && searchReply != Some(NextSong)
    ensures KeyReply(mode, code, searchReply) != Some(PreviousSong)
    ensures KeyReply(mode, code, searchReply) != Some(NextSong)
  {
  }

  /** In WithQueue mode no key produces an action. */
  lemma QueueModeIsSilent(code: KeyCode, searchReply: Option<Action>)
    ensures KeyReply(WithQueue, code, searchReply) == None
  {
  }

  class Container {
    var currentSong: Song
    var mode: Mode
    var queue: Queue
    /** `action_tx.is_some()`. */
    var hasSender: bool

    /** `Container::new`: a default song, Normal mode, the given queue and no sender. */
    constructor (queue: Queue)
      ensures this.queue == queue && mode == Normal && currentSong == New() && !hasSender
    {
      this.queue := queue;
      mode := Normal;
      currentSong := New();
      hasSender := false;
    }

    /** `show_help`. */
    method ShowHelp()
      modifies this`mode
      ensures mode == HelpToggled(old(mode))
    {
      match mode {
        case WithHelp =>
          mode := Normal;
        case _ =>
          mode := WithHelp;
      }
    }

    /** `update`: move the mode; the answer is always None. */
    method Update(action: Action) returns (r: Option<Action>)
      modifies this`mode
      ensures r == None
      ensures mode == NextMode(old(mode), action)
    {
      match action {
        case ToggleHelp =>
          ShowHelp();
        case GoHome =>
          mode := Normal;
        case ToggleSearch =>
          if mode == Search {
            mode := Normal;
          } else {
            mode := Search;
          }
        case ToggleQueue =>
          if mode == WithQueue {
            mode := Normal;
          } else {
            mode := WithQueue;
          }
        case EnterProcessing =>
          mode := Processing;
        case ExitProcessing =>
          mode := Normal;
        case _ =>
      }
      r := None;
    }

    /**
     * `handle_events`: the child that has the screen sees the event first
     * and its action goes through `update`. The queue (Normal and WithQueue)
     * never answers with an action, so only the search box's answer, in
     * Search mode, can move the mode. The result is always None.
     */
    method HandleEvents(event: Option<Event>, searchReply: Option<Action>) returns (r: Option<Action>)
      modifies this`mode
      ensures r == None
      ensures old(mode) == Search && searchReply.Some? ==> mode == NextMode(Search, searchReply.value)
      ensures old(mode) != Search || searchReply.None? ==> mode == old(mode)
    {
      match mode {
        case Normal =>
          var reply := queue.HandleEvents(event);
          r := reply;
        case WithQueue =>
          var reply := queue.HandleEvents(event);
          r := reply;
        case Search =>
          if searchReply.Some? {
            r := Update(searchReply.value);
          } else {
            r := None;
          }
        case _ =>
          r := None;
      }
    }

    /** `handle_key_events`: answers as `KeyReply` says and changes nothing. */
    method HandleKeyEvents(key: KeyEvent, searchReply: Option<Action>) returns (r: Option<Action>)
      ensures r == KeyReply(mode, key.code, searchReply)
    {
      match mode {
        case Search =>
          r := searchReply;
        case WithQueue =>
          r := queue.HandleKeyEvents(key);
        case _ =>
          r := Some(KeyAction(mode, key.code));
      }
    }
  }
}
