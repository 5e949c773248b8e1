/**
 * The vocabulary the UI components share: the union of the `Action` variants
 * the components use, the terminal key events, the terminal events the app
 * loop receives, and the screen `Mode` of `Container` and `Home` together
 * with the transition their `update` methods make.
 */
module Ui {
  /** `Action` of `src/action.rs` plus `GoHome`, `Noop`, `PreviousSong` and `NextSong`, which the components send. */
  datatype Action =
    | Tick | Render | Resize(width: nat, height: nat) | Play | Quit | Refresh | Error(message: string)
    | Help | ScheduleIncrement | ScheduleDecrement | Increment(amount: nat) | Decrement(amount: nat)
    | SearchSong(query: string) | CancelSearch | EnterProcessing | ExitProcessing | Update
    | ToggleHelp | TogglePlay | ToggleQueue | ToggleSearch
    | GoHome | Noop | PreviousSong | NextSong

  /** The key codes the components tell apart; every other code is `OtherKey`. */
  datatype KeyCode = Char(c: char) | Esc | Enter | OtherKey

  datatype KeyEventKind = Press | Repeat | Release

  /** A terminal key event (its modifiers play no part in the core). */
  datatype KeyEvent = KeyEvent(code: KeyCode, kind: KeyEventKind)

  /** The terminal events the app loop tells apart; every other event is `OtherEvent`. */
  datatype Event = QuitEvent | TickEvent | RenderEvent | ResizeEvent(width: nat, height: nat) | Key(key: KeyEvent) | OtherEvent

  /** The screen mode of `Container` and of `Home` (both files declare the same enum). */
  datatype Mode = Normal | WithQueue | Search | WithHelp | Processing

  /** `show_help`: leave the help screen, or open it from any other mode. */
  function HelpToggled(mode: Mode): Mode {
    if mode == WithHelp then Normal else WithHelp
  }

  /** The mode change `update` makes for an action. */
  function NextMode(mode: Mode, action: Action): Mode {
    match action
    case ToggleHelp => HelpToggled(mode)
    case GoHome => Normal
    case ToggleSearch => if mode == Search then Normal else Search
    case ToggleQueue => if mode == WithQueue then Normal else WithQueue
    case EnterProcessing => Processing
    case ExitProcessing => Normal
    case _ => mode
  }

  predicate IsToggle(action: Action) {
    action == ToggleHelp || action == ToggleSearch || action == ToggleQueue
  }

  /** The mode a toggle action opens. */
  function TargetOf(toggle: Action): Mode
    requires IsToggle(toggle)
  {
    match toggle
    case ToggleHelp => WithHelp
    case ToggleSearch => Search
    case ToggleQueue => WithQueue
  }

  /** The actions that move the mode at all. */
  predicate ChangesMode(action: Action) {
    IsToggle(action) || action == GoHome || action == EnterProcessing || action == ExitProcessing
  }

  /** A toggle closes its own screen and opens it from anywhere else. */
  lemma ToggleOpensOrCloses(mode: Mode, toggle: Action)
    requires IsToggle(toggle)
    ensures mode == TargetOf(toggle) ==> NextMode(mode, toggle) == Normal
    ensures mode != TargetOf(toggle) ==> NextMode(mode, toggle) == TargetOf(toggle)
  {
  }

  /**
   * The same toggle twice comes back to Normal from every mode but its own
   * screen; from Normal it is a round trip.
   */
  lemma ToggleTwice(mode: Mode, toggle: Action)
    requires IsToggle(toggle)
    ensures NextMode(NextMode(mode, toggle), toggle) == (if mode == TargetOf(toggle) then mode else Normal)
  {
    ToggleOpensOrCloses(mode, toggle);
    ToggleOpensOrCloses(NextMode(mode, toggle), toggle);
  }

  /** `GoHome` and `ExitProcessing` land on Normal, `EnterProcessing` on Processing, from every mode. */
  lemma FixedTargets(mode: Mode)
    ensures NextMode(mode, GoHome) == Normal && NextMode(mode, ExitProcessing) == Normal
    ensures NextMode(mode, EnterProcessing) == Processing
  {
  }

  /** Every other action leaves the mode as it is. */
  lemma OtherActionsKeepMode(mode: Mode, action: Action)
    requires !ChangesMode(action)
    ensures NextMode(mode, action) == mode
  {
  }
}
