/**
 * `src/components/home.rs`: the home screen. It maps keys to actions (and
 * asks for the previous or next song in the queue view), moves its mode like
 * the container does, and clears its input box when a search is queued.
 */
module HomeComponent {
  import opened Wrappers
  import opened Ui
  import opened SongModel
  import ContainerComponent

  /** The key map of `handle_key_events` outside Search mode. */
  function KeyAction(mode: Mode, code: KeyCode): Action {
    match code
    case Char('h') => ToggleHelp
    case Char('/') => ToggleSearch
    case Char('u') => ToggleQueue
    case Esc => GoHome
    case Char('j') => if mode == WithQueue || mode == Search then PreviousSong else Noop
    case Char('k') => if mode == WithQueue || mode == Search then NextSong else Noop
    case _ => Noop
  }

  /** The answer of `handle_key_events`: None in Search mode, the key map otherwise. */
  function KeyReply(mode: Mode, code: KeyCode): Option<Action> {
    if mode == Search then None else Some(KeyAction(mode, code))
  }

  /** Outside Search mode every key yields an action; j and k move through the queue only in the queue view, and q is not bound. */
  lemma HomeKeys(mode: Mode, code: KeyCode)
    requires mode != Search
    ensures KeyReply(mode, code).Some?
    ensures code == Char('j') ==> KeyReply(mode, code) == Some(if mode == WithQueue then PreviousSong else Noop)
    ensures code == Char('k') ==> KeyReply(mode, code) == Some(if mode == WithQueue then NextSong else Noop)
    ensures KeyReply(mode, Char('q')) == Some(Noop)
  {
  }

  /** Outside Search and WithQueue, home and the container bind the same keys, except that only the container quits on q. */
  lemma SameKeysAsContainer(mode: Mode, code: KeyCode, searchReply: Option<Action>)
    requires mode != Search && mode != WithQueue
    ensures code != Char('q') ==> KeyReply(mode, code) == ContainerComponent.KeyReply(mode, code, searchReply)
    ensures ContainerComponent.KeyReply(mode, Char('q'), searchReply) == Some(Quit) && KeyReply(mode, Char('q')) == Some(Noop)
  {
  }

  class Home {
    var counter: nat
    var currentSong: Song
    var mode: Mode
    /** The value of the `tui_input::Input` box. */
    var input: string
    /** `action_tx.is_some()`. */
    var hasSender: bool

    /** `Home::new` (the derived default): counter 0, a default song, Normal mode, an empty input box. */
    constructor ()
      ensures counter == 0 && currentSong == New() && mode == Normal && input == [] && !hasSender
    {
      counter := 0;
      currentSong := New();
      mode := Normal;
      input := [];
      hasSender := false;
    }

    /** `add`: the song name is dropped and the input box emptied. */
    method Add(s: string)
      modifies this`input
      ensures input == []
    {
      input := [];
    }

    /** `show_help`. */
    method ShowHelp()
      modifies this`mode
      ensures mode == HelpToggled(old(mode))
    {
      match mode {
        case WithHelp =>
          mode := Normal;
        case _ =>
          mode := WithHelp;
      }
    }

    /** `handle_key_events`: answers as `KeyReply` says and changes nothing. */
    method HandleKeyEvents(key: KeyEvent) returns (r: Option<Action>)
      ensures r == KeyReply(mode, key.code)
    {
      if mode == Search {
        return None;
      }
      var action := KeyAction(mode, key.code);
      r := Some(action);
    }

    /** `update`: move the mode as the container does, empty the input on `SearchSong`; the answer is always None. */
    method Update(action: Action) returns (r: Option<Action>)
      modifies this`mode, this`input
      ensures r == None
      ensures mode == NextMode(old(mode), action)
      ensures input == (if action.SearchSong? then [] else old(input))
    {
      match action {
        case ToggleHelp =>
          ShowHelp();
        case SearchSong(s) =>
          Add(s);
        case GoHome =>
          mode := Normal;
        case ToggleSearch =>
          if mode == Search {
            mode := Normal;
          } else {
            mode := Search;
          }
        case ToggleQueue =>
          if mode == WithQueue {
            mode := Normal;
          } else {
            mode := WithQueue;
          }
        case EnterProcessing =>
          mode := Processing;
        case ExitProcessing =>
          mode := Normal;
        case _ =>
      }
      r := None;
    }
  }
}
