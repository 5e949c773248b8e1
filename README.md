# cliraoke core in Dafny

This project models the core of the cliraoke terminal karaoke player and proves properties about it. The core covers:

- **Synced lyrics.** The `[mm:ss.xx] text` line matcher and the three copies of the parse loop:
  - `LRCLib::parse` files each line under its timestamp rounded down to 200 ms;
  - the older `fetch_lyrics` in `src/lyrics/mod.rs` and in `src/lib.rs` stores the exact timestamp.
- **The window lookup.** `LyricsService::play` returns the previous, current and next line for an elapsed time.
- **The display loops.** `display_synced_lyrics` moves a cursor over the sorted timestamps as the clock advances and prints each line as `[mm:ss.mmm] text`.
- **Songs and global state.**
  - The `Song` builders `new`, `with_lr` and `with_ar`.
  - The `GlobalState` defaults and `has_next_song`.
- **The UI components.**
  - The song queue.
  - The wrapping list cursor.
  - The search box.
  - The `Container` and `Home` screen-mode machines and their key maps.
  - The app loop's key dispatch and action reducer.
- **The console prompt.** Trimming the input, and choosing an option from a numbered list.

Modules, one per source file, plus shared vocabulary:

- `Wrappers`: Option and Result.
- `Seqs`: sequence helpers.
- `Text`:
  - Rust's `u64`/`usize` limits;
  - `char::is_whitespace`, `str::trim` and `str::parse` for unsigned integers;
  - the `{}` and `{:0N}` number formats.
- `OrderedMap`: the `BTreeMap` range queries and the sorted key list.
- `Lrc`:
  - the regex `^\[(\d+):(\d+)\.(\d+)\]\s*(.*)$` as an explicit matcher;
  - `str::lines`;
  - the timestamp formula;
  - the specification `ParseLines` that the three parse loops share.
- `Ui`: the `Action` union, the key and terminal events, and the screen `Mode` transition that `Container` and `Home` share.
- One module per component:
  - `LrcLib`, `Lyrics`, `Lib`;
  - `SongModel`, `State`;
  - `QueueComponent`, `StatefulListComponent`, `SearchComponent`, `ContainerComponent`, `HomeComponent`;
  - `AppLoop`, `Cli`.

Form follows the source:

- **Loops are methods with invariants, proved against specification functions:**
  - the parse loops (`LrcLib.Parse`, `Lyrics.FetchLyrics`, `Lib.FetchLyrics`);
  - the display loops;
  - the app's dispatch and drain loops;
  - the option print loop.
- **Components that update their fields are classes:** `Queue`, `StatefulList`, `Search`, `Container`, `Home` and `App`.
- **Pure builders and predicates are functions:** `Song`, `GlobalState` and `play`.

How the parts the model cannot see are handled:

- **I/O is data.**
  - The clock readings of a display loop are a sequence of samples.
  - Printed lines are a result sequence.
  - The line read from stdin is a parameter.
- **Other components are parameters.** The reply of each child component (or of each app component) is passed in.
- **Channels are logs.** The unbounded action channel is a `seq<Action>` field.

Where the code and its documentation disagree, the model follows the code:

- **`GlobalState::new`** calls the inherent `default()`, so a fresh state is Paused in Nav mode. The derived `Default` would give Playing and Input.
- **The `Action` enum** in `src/action.rs` lacks `GoHome`, `Noop`, `PreviousSong` and `NextSong`, which the components send. `Ui.Action` is the union.
- **`AudioResult`** is given the `duration` field that `src/audio/youtube.rs` fills in.
- **`Search`'s key handler** is its `event` method, which takes `events::Key`.
- **Queue songs.** The song literal in `Queue::update` names no duration fields. The model takes them to be zero, like `Song::new`.

## Model

| member | source | states |
|---|---|---|
| Lrc.MatchLine | src/lyrics/lrclib.rs:77-84 | a match yields three non-empty ASCII digit runs and a text that starts with no whitespace and holds no newline |
| Lrc.MatchTag | src/lyrics/lrclib.rs:77-84 | every line `[M:S.F]` + whitespace + text, with digit runs M, S, F, is matched with exactly those four captures |
| Lrc.MatchLineShape | src/lyrics/lrclib.rs:77-84 | conversely, every matched line is `[M:S.F]`, a whitespace run, then the captured text |
| Lrc.Timestamp | src/lyrics/lrclib.rs:91 | `minutes*60000 + seconds*1000 + milliseconds` in u64 arithmetic: below 2^64, and exact whenever the sum fits |
| Lrc.KeyOf | src/lyrics/lrclib.rs:93 | the bucketed key is the multiple of 200 at most 200 ms below the timestamp; unbucketed keys are the timestamp |
| Lrc.Classify | src/lyrics/lrclib.rs:84-96 | a line is skipped exactly when it does not match; a matched line with an unparsable capture is corrupt; otherwise the entry carries the captured text and a u64 timestamp |
| Lrc.Step | src/lyrics/lrclib.rs:84-99 | one loop pass: fails exactly on a corrupt line, leaves the map alone on a skipped line, and adds exactly the line's key on an entry |
| Lrc.Lines | src/lyrics/lrclib.rs:83 | `str::lines` yields lines without a newline |
| Lrc.LinesOfTerminated | src/lyrics/lrclib.rs:83 | `str::lines` splits newline-terminated lines back into exactly those lines |
| Lrc.ParseFailsIffCorrupt | src/lyrics/lrclib.rs:86-88 | the parse fails exactly when some line matches but has a capture that does not fit in u64 (`\d` read as ASCII digits) |
| Lrc.ApplyFailsIffCorrupt | src/lyrics/lrclib.rs:86-88 | the loop over line outcomes fails exactly when one of them is corrupt |
| Lrc.CorruptPrefixFails | src/lyrics/mod.rs:127-129 | once a prefix of the lines has failed, no later line can recover the parse |
| Lrc.UnmatchedLineSkipped | src/lyrics/lrclib.rs:84 | inserting a non-matching line anywhere does not change the result |
| Lrc.SkipIgnored | src/lyrics/mod.rs:124-125 | a skipped outcome anywhere in the sequence does not change the result |
| Lrc.ParsedKeysOnGrid | src/lyrics/lrclib.rs:93 | every key of a parsed map is below 2^64 and, when bucketed, a multiple of 200 |
| Lrc.ParsedTextIsLastEntry | src/lyrics/lrclib.rs:99 | a key is in the parsed map exactly when some line lands on it, and its text is that of the last such line |
| Lrc.ParseSingleLine | src/lyrics/lrclib.rs:84-103 | a well-formed line alone parses to the one-entry map at its (bucketed) timestamp |
| Lrc.OutcomesAt | src/lyrics/lrclib.rs:83-84 | the loop classifies line i on its own, in order |
| Lrc.SplitTimestamp | src/lyrics/mod.rs:170-172 | `minutes*60000 + seconds*1000 + millis` rebuilds the timestamp, with seconds < 60 and millis < 1000 |
| Lrc.SplitTimestampFits | src/lib.rs:427-429 | the split parts of a u64 timestamp fit in u64 and the timestamp formula reassembles it |
| Lrc.ParseDisplayLine | src/lyrics/mod.rs:175 | a printed `[mm:ss.mmm] text` line reads back through the unbucketed parse as the same timestamp and text |
| Lrc.DisplayLineAt | src/lyrics/mod.rs:150-175 | display line i shows the i-th smallest key and its lyric |
| Lrc.ParseDisplayLines | src/lib.rs:406-435 | parsing the display lines of a map (keys below 2^64, texts capturable) gives back the map |
| OrderedMap.LastAtMost | src/lyrics/lrclib.rs:114 | `range(..=hi).next_back()`: the greatest key at most `hi`, or none when every key is above `hi` |
| OrderedMap.LastBelow | src/lyrics/lrclib.rs:120 | `range(..hi).next_back()`: the greatest key strictly below `hi`, or none |
| OrderedMap.FirstAtLeast | src/lyrics/lrclib.rs:131 | `range(lo..).next()`: the least key at least `lo`, or none |
| OrderedMap.SortedKeys | src/lyrics/mod.rs:150 | `keys().collect()`: strictly increasing and drawn from the key set, one entry per key |
| OrderedMap.SortedKeysCover | src/lib.rs:406 | every key of the map appears in the collected key list |
| LrcLib.Parse | src/lyrics/lrclib.rs:75-104 | the loop returns `Ok(Some(m))` with m the bucketed `ParseLines` map, or the overflow error exactly when that specification fails (`\d` read as ASCII digits) |
| LrcLib.Play | src/lyrics/lrclib.rs:108-139 | always Ok with exactly three strings |
| LrcLib.PlayCurrent | src/lyrics/lrclib.rs:114-117 | slot 1 holds the text at the greatest key at or before the elapsed time |
| LrcLib.PlayPrevious | src/lyrics/lrclib.rs:120-125 | slot 0 holds the text at the greatest key strictly below the current key |
| LrcLib.PlayNext | src/lyrics/lrclib.rs:131-136 | slot 2 holds the text at the least key at or after the elapsed time |
| LrcLib.PlayBeforeFirstLine | src/lyrics/lrclib.rs:110-125 | before every key, slots 0 and 1 are empty |
| LrcLib.PlayOnFirstLine | src/lyrics/lrclib.rs:120-125 | on the first line, slot 0 is empty |
| LrcLib.PlayAfterLastLine | src/lyrics/lrclib.rs:131-136 | after every key, slot 2 is empty |
| LrcLib.PlayExampleBefore | src/lyrics/lrclib.rs:108-139 | `{500:a,1500:b,3000:c}` at 0 ms gives `["","",a]` |
| LrcLib.PlayExampleBetween | src/lyrics/lrclib.rs:108-139 | at 600 ms it gives `["",a,b]` |
| LrcLib.PlayExampleOnKey | src/lyrics/lrclib.rs:108-139 | at 1500 ms it gives `[a,b,b]` |
| LrcLib.PlayExampleAfter | src/lyrics/lrclib.rs:108-139 | at 5000 ms it gives `[b,c,""]` |
| LrcLib.PlayRepeatsLineOnExactKey | src/lyrics/lrclib.rs:131 | at an elapsed time equal to a key, slots 1 and 2 both hold that key's text |
| LrcLib.PlayStrict | src/lyrics/lrclib.rs:108-139 | three strings, agreeing with `play` in slots 0 and 1 |
| LrcLib.PlayStrictNext | src/lyrics/lrclib.rs:131-136 | the corrected slot 2 holds the text at the least key strictly after the elapsed time |
| LrcLib.PlayStrictAgreesOffKeys | src/lyrics/lrclib.rs:131-136 | off the keys, the corrected window equals `play`'s |
| LrcLib.PlayStrictExample | src/lyrics/lrclib.rs:108-139 | at 1500 ms the corrected window is `[a,b,c]` |
| Lyrics.FetchLyrics | src/lyrics/mod.rs:117-142 | the loop returns the unbucketed `ParseLines` map of the lines, or None exactly when it does |
| Lyrics.DisplayLoop | src/lyrics/mod.rs:150-182 | the run prints the header, then the first `shown` lines in key order, then the closing banner once all are shown. Each clock sample moves the cursor, monotonically, over exactly the lines due at that sample, and reading stops only when all lines are shown. |
| Lyrics.ShowDueLines | src/lyrics/mod.rs:164-178 | the inner loop advances the cursor over exactly the run of lines due at `now`, appending their display lines in order |
| Lyrics.ShowNextLine | src/lyrics/mod.rs:167-177 | printing line k extends the printed run from the cursor by exactly that line |
| Lyrics.DueExtend | src/lyrics/mod.rs:164-166 | the run of due lines extends by one when the next timestamp is at most `now` |
| Lyrics.TraceExtend | src/lyrics/mod.rs:158-182 | one more outer pass keeps the cursor trace monotone, due-only and maximal |
| Lyrics.DisplayLinesOfSplit | src/lyrics/mod.rs:164-178 | the lines printed before a pass followed by those printed in it are the lines up to the new cursor |
| Lyrics.DisplaySyncedLyrics | src/lyrics/mod.rs:145-185 | the display run with the `LFG` and `BRAVO` banners |
| Lyrics.EmptyMapDisplay | src/lyrics/mod.rs:158 | an empty map prints only the header and the closing banner |
| Lyrics.FinishedDisplayParses | src/lyrics/mod.rs:150-184 | a finished run prints one line per key plus the 4 banner `println!` calls, and its lyric lines parse back to the map |
| Lyrics.ShownAtFirstDueSample | src/lyrics/mod.rs:164-166 | on a non-decreasing clock, a line is printed at the first sample at or after its timestamp: every earlier sample was before it |
| Lib.FetchLyrics | src/lib.rs:370-395 | the `src/lib.rs` parse loop: the unbucketed `ParseLines` map, None exactly when some line is corrupt |
| Lib.DisplaySyncedLyrics | src/lib.rs:399-442 | the same display run with the `LYRICS` and `END OF LYRICS` banners |
| SongModel.New | src/models/song.rs:26-38 | empty strings, zero duration, `duration_ms` 0 and no lyric map |
| SongModel.WithLr | src/models/song.rs:42-54 | the lyric fields come from the lyric result and the map argument; the audio fields (video id, duration, `duration_ms`) are kept |
| SongModel.WithAr | src/models/song.rs:56-68 | the video id and duration come from the audio result, with `duration_ms` its whole milliseconds as u64; the lyric fields are kept |
| SongModel.ToU64 | src/models/song.rs:63 | `as u64`: below 2^64, and the identity on values that fit |
| SongModel.SongIsItsParts | src/models/song.rs:10-23 | a song is determined by its lyric part and its audio part |
| SongModel.BuildersCommute | src/models/song.rs:42-68 | `with_ar` after `with_lr` equals `with_lr` after `with_ar` |
| SongModel.WithLrIdempotent | src/models/song.rs:42-54 | applying `with_lr` twice with the same arguments equals applying it once |
| SongModel.WithArIdempotent | src/models/song.rs:56-68 | applying `with_ar` twice with the same result equals applying it once |
| SongModel.ComposedSong | src/models/song.rs:26-68 | a new song with both builders applied is exactly the lyric result plus the audio result |
| SongModel.DurationMsExact | src/models/song.rs:63 | when it fits in u64, `duration_ms` is `secs*1000 + nanos/10^6` |
| State.Default | src/state.rs:49-60 | Paused, no current song, elapsed 0, no lyrics, empty song list, Nav mode, Home focus, zero session time |
| State.New | src/state.rs:45-47 | `new()` gives the `default()` state: Paused, no current song, elapsed 0, no lyrics, empty song list, Nav mode, Home focus, zero session time |
| State.FreshStateHasNoNextSong | src/state.rs:45-64 | a fresh state has no next song |
| State.NextSongAvailability | src/state.rs:62-64 | with nothing playing, a queued song makes a next song available; a playing song means there is none; an empty list has none |
| Ui.ToggleOpensOrCloses | src/components/container.rs:126-147 | a toggle opens its mode, or closes it back to Normal when already in it |
| Ui.ToggleTwice | src/components/container.rs:126-147 | the same toggle twice restores its own mode, and otherwise lands on Normal (in particular Normal stays Normal) |
| Ui.FixedTargets | src/components/container.rs:129-131 | GoHome and ExitProcessing go to Normal, EnterProcessing goes to Processing, from every mode |
| Ui.OtherActionsKeepMode | src/components/container.rs:155 | actions other than the toggles, GoHome and Enter/ExitProcessing leave the mode unchanged |
| QueueComponent.SearchedSong | src/components/queue.rs:79-87 | the queued song is a new song with the searched title and artist "Unknown" |
| QueueComponent.Queue.constructor | src/components/queue.rs:34-45 | no songs, no current song, index 0, no sender |
| QueueComponent.Queue.RegisterActionHandler | src/components/queue.rs:53-56 | the queue now holds a sender |
| QueueComponent.Queue.Add | src/components/queue.rs:47-49 | the song is appended at the tail and earlier songs are unchanged |
| QueueComponent.Queue.HandleEvents | src/components/queue.rs:62-68 | always None |
| QueueComponent.Queue.HandleKeyEvents | src/components/queue.rs:70-74 | always None |
| QueueComponent.Queue.Update | src/components/queue.rs:76-99 | `SearchSong(s)` appends exactly the searched song and sends Render when a sender is registered; other actions change nothing; always None |
| StatefulListComponent.Select | src/components/stateful_list.rs:19 | `ListState::select`: the selection is the index, the offset is kept, or reset to 0 when clearing |
| StatefulListComponent.SaturatingDecrement | src/components/stateful_list.rs:25 | `saturating_sub(1)`: 0 stays 0, otherwise one less |
| StatefulListComponent.SaturatingIncrement | src/components/stateful_list.rs:28 | `saturating_add(1)`: one more below `usize::MAX`, never above it |
| StatefulListComponent.CursorStaysInList | src/components/stateful_list.rs:22-48 | on a list of length n with selection i < n, `next` and `previous` keep the selection below n |
| StatefulListComponent.CursorWraps | src/components/stateful_list.rs:22-48 | `next` wraps the last row to 0, and `previous` wraps row 0 to the last row |
| StatefulListComponent.EmptyListMoves | src/components/stateful_list.rs:22-48 | on an empty list `next` selects 0, and `previous` selects 0 from none or 0 and i-1 from i > 0 |
| StatefulListComponent.MovesUndoEachOther | src/components/stateful_list.rs:22-48 | with selection i < n, `previous` after `next` and `next` after `previous` both restore i |
| StatefulListComponent.StatefulList.WithItems | src/components/stateful_list.rs:11-16 | the given items, and the given state or an unselected default |
| StatefulListComponent.StatefulList.First | src/components/stateful_list.rs:18-20 | row 0 is selected; the items are not touched |
| StatefulListComponent.StatefulList.Next | src/components/stateful_list.rs:22-34 | the selection moves to the next index; the items are not touched |
| StatefulListComponent.StatefulList.Previous | src/components/stateful_list.rs:36-48 | the selection moves to the previous index; the items are not touched |
| StatefulListComponent.StatefulList.Reset | src/components/stateful_list.rs:53-56 | no items and no selection |
| SearchComponent.Submitted | src/components/search.rs:40-47 | after `search` the query is empty, whether or not it was empty before |
| SearchComponent.NavModeIgnoresKeys | src/components/search.rs:50-52 | in Nav mode every key is NotConsumed and changes nothing |
| SearchComponent.InputModeKeys | src/components/search.rs:54-75 | in Input mode: Enter empties the query, switches to Nav and is consumed; '/' and Esc empty the query and are consumed; any other char is appended and consumed; other keys are not consumed and change nothing |
| SearchComponent.ConsumedIff | src/components/search.rs:49-76 | a key is consumed exactly when the box is in Input mode and the key is Enter, Esc or a char |
| SearchComponent.SlashNeverTyped | src/components/search.rs:60-64 | '/' never enters a query that did not already hold one |
| SearchComponent.ModeOnlyMovesToNav | src/components/search.rs:49-76 | the only mode change is Input to Nav, on Enter |
| SearchComponent.Search.constructor | src/components/search.rs:27-34 | empty query, Input mode |
| SearchComponent.Search.AddToQuery | src/components/search.rs:36-38 | the char is appended to the query |
| SearchComponent.Search.Search | src/components/search.rs:40-47 | the query is submitted and emptied |
| SearchComponent.Search.Event | src/components/search.rs:49-76 | the answer, new mode and new query are those of the key table above |
| ContainerComponent.ContainerKeys | src/components/container.rs:101-124 | outside Search and WithQueue every key yields an action: q Quit, h ToggleHelp, / ToggleSearch, u ToggleQueue, Esc GoHome, everything else Noop |
| ContainerComponent.NoSongNavigation | src/components/container.rs:111-118 | Container itself never produces PreviousSong or NextSong (its j/k arms are unreachable) |
| ContainerComponent.QueueModeIsSilent | src/components/container.rs:104 | in WithQueue mode no key produces an action |
| ContainerComponent.Container.constructor | src/components/container.rs:41-51 | Normal mode, a default song, the given queue, no sender |
| ContainerComponent.Container.ShowHelp | src/components/container.rs:53-62 | WithHelp goes to Normal, every other mode to WithHelp |
| ContainerComponent.Container.Update | src/components/container.rs:126-158 | the mode follows the shared transition; always None |
| ContainerComponent.Container.HandleEvents | src/components/container.rs:71-99 | always None. The mode changes only in Search mode, by the search child's action passed through `update`. |
| ContainerComponent.Container.HandleKeyEvents | src/components/container.rs:101-124 | the key table for the current mode, with the search child's reply in Search mode |
| HomeComponent.HomeKeys | src/components/home.rs:68-101 | outside Search every key yields an action; j and k navigate songs only in WithQueue; q is Noop |
| HomeComponent.SameKeysAsContainer | src/components/home.rs:72-97 | outside Search and WithQueue, Home answers every key as Container does except q (Quit in Container, Noop in Home) |
| HomeComponent.Home.constructor | src/components/home.rs:37-40 | counter 0, a default song, Normal mode, empty input, no sender |
| HomeComponent.Home.Add | src/components/home.rs:42-44 | the input buffer is reset |
| HomeComponent.Home.ShowHelp | src/components/home.rs:46-55 | WithHelp goes to Normal, every other mode to WithHelp |
| HomeComponent.Home.HandleKeyEvents | src/components/home.rs:68-101 | None in Search mode, otherwise the key table |
| HomeComponent.Home.Update | src/components/home.rs:103-140 | the mode follows the shared transition, `SearchSong` resets the input, other actions change nothing; always None |
| AppLoop.App.constructor | src/app.rs:27-50 | components home, search, help, timer in that order; both flags false; no pending key events |
| AppLoop.App.HandleEvent | src/app.rs:68-90 | terminal events map to their actions; a key press sends what the dispatch sends; other key kinds and events send nothing |
| AppLoop.App.DispatchKey | src/app.rs:75-87 | the loop sends exactly `Dispatched` of the components' replies |
| AppLoop.OnlyLastDispatchedActs | src/app.rs:77-84 | every sent action except possibly the last is Noop |
| AppLoop.DispatchStopsAtFirstAction | src/app.rs:77-84 | components after the first one answering a non-Noop action are not heard |
| AppLoop.NoopsPropagate | src/app.rs:79-82 | when nobody answers a non-Noop action, every Some reply is sent, and all of them are Noop |
| AppLoop.OnlyPressesDispatch | src/app.rs:75-88 | key events that are not presses send nothing |
| AppLoop.ReduceCases | src/app.rs:96-101 | Quit sets `should_quit`, TogglePlay flips `should_play`, Tick empties the key events, other actions keep the flags |
| AppLoop.QuitIsFinal | src/app.rs:100 | once `should_quit` is set, no later action clears it |
| AppLoop.PlayFlipsPerToggle | src/app.rs:101 | after a run of actions, `should_play` has flipped once per TogglePlay |
| AppLoop.ReduceAllSnoc | src/app.rs:92-101 | reducing one more action is one more reducer step |
| AppLoop.SomesSnoc | src/app.rs:125-129 | the re-sent update replies of one more component are appended in order |
| AppLoop.App.ReceiveOne | src/app.rs:92-130 | one received action updates the flags by the reducer and re-sends every component's non-None update reply in order, except a Render with no components, which does nothing more |
| AppLoop.App.Drain | src/app.rs:92-130 | the received actions followed by what is left in the channel are the old channel followed by every reply the components re-sent, in order (`Resent`); the flags are reduced over exactly the received actions; each action was already in that stream when it was received, so receiving stops as soon as the channel is empty; while update rows remain, it stops only then |
| AppLoop.ResentSnoc | src/app.rs:125-129 | draining one more action appends exactly what the components re-sent for it to the re-sent stream |
| AppLoop.CausalSnoc | src/app.rs:92 | `try_recv` only yields an action already in the channel: receiving one more such action keeps every receive causal |
| Cli.GetUserInput | src/cli/mod.rs:11-24 | the line with its surrounding whitespace cut: no whitespace at either end, a contiguous slice of the line, and empty exactly when the line is all whitespace |
| Cli.PresentOptions | src/cli/mod.rs:26-53 | one printed line per option, in order, and the chosen option is the one the input selects |
| Cli.SelectionIff | src/cli/mod.rs:46-50 | an option is chosen exactly when the trimmed input parses as a usize k with 1 <= k <= the number of options, and it is option k-1 |
| Cli.NothingChosen | src/cli/mod.rs:46-52 | 0, a number past the end, or a non-number chooses nothing |
| Cli.OptionLineNumber | src/cli/mod.rs:34-39 | line i starts with `i+1`, which reads back as that number, then ". " and the title |
| Cli.TypedNumberChoosesLine | src/cli/mod.rs:27-50 | typing the number printed on line i, then Enter, chooses option i |

## Left out

- HTTP and JSON. `LRCLib::search`, `search_lyrics`, the lyric lookup part of both `fetch_lyrics` and every `fetch_videos` are network calls and serde decoding. The synced lyrics text is a parameter.
- YouTube, yt-dlp, ffplay and rodio. Processes and audio output have no model. The ISO 8601 duration parsing calls into a crate.
- Concurrency. The mutexes, the tokio runtime, `spawn_blocking` and the channels are outside the model. A channel is a sequence the methods append to. The lock helpers of `src/state.rs` (`get_state`, `get_guarded_state`, the free `has_next_song`, `with_state` and the rest) are lock plumbing around `GlobalState` and are not modelled.
- Drawing. Every `draw`/`render` and `tui.draw` is left out, as are the resize and suspend handling of the terminal and the `Error` action they may send.
- Time. `Instant::elapsed` is a sequence of clock samples and `thread::sleep` is not modelled. A display run that outlasts its samples reports how far it got.
- Logging. Logging and progress `println!`s are not modelled, except the lines the display loops print.
- Regex construction. `Regex::new` cannot fail on the fixed pattern, so its error path is not modelled.
- Unicode digits. Rust's `\d` matches any Unicode decimal digit, but the model reads it as ASCII `0`-`9`. A tag with a non-ASCII digit, such as `[٣:00.00] x`, matches in the source. `parse::<u64>` then rejects it, so the whole parse fails: an error from `LRCLib::parse`, None from both `fetch_lyrics`. The model skips such a line and goes on.
- Overflow. u64 arithmetic in the timestamp formula wraps, as in a release build. The debug-build panic is not modelled.
- `tick_rate` and `frame_rate`. These `f64` settings and the `Tui` object are not part of the app state.
- Child components. The replies of `handle_events`, `handle_key_events` and `update` from child components are parameters. This covers the search box inside `Container` and the four components of `App`.
- The search box's result lists. `audio_results` and `lyric_results` are never read by the code modelled here. `tui_input::Input` is taken to append typed chars at the end.
- `current_lyrics`. Its three-line shape is only a comment in `src/state.rs`; no code enforces it.
- `register_action_handler` and `init`. These are modelled as a sender flag only where a sender is used (the queue); elsewhere they do nothing observable.
- Lyrics.ShowDueLines: it requires every timestamp to be a key of the map, which is true of the sorted key list the display loop passes. The `lyrics_map.get` miss branch is therefore not modelled.
- ContainerComponent.Container.HandleEvents: in Normal and WithQueue mode the queue child always answers None, so the `update` call in those arms is never reached and not modelled.
- AppLoop.App.Drain: the received actions are a ghost result. One row of update replies is supplied per action, so a drain stops early, with the channel not yet empty, when the rows run out.
- The timer, help, title and lyrics components. They only draw or hold TODOs; `scrapyard.rs` does not compile.

## Findings

| source | as written | input that shows it | evidently intended | confidence | as-written member | corrected member |
|---|---|---|---|---|---|---|
| src/lyrics/lrclib.rs:131 | the next line is looked up with the inclusive range `elapsed_time_ms..` | map `{500: a, 1500: b, 3000: c}` at 1500 ms gives `[a, b, b]`: the current line is shown again as the next one | the next line is the first one strictly after the elapsed time, giving `[a, b, c]` | not executed | LrcLib.PlayRepeatsLineOnExactKey | LrcLib.PlayStrict |
