/**
 * `src/lyrics/mod.rs`: the parse loop of `fetch_lyrics` (no bucketing, None on
 * a corrupt line) and the cursor loop of `display_synced_lyrics`. The HTTP
 * lookup that yields the synced text is not modelled: the text is a
 * parameter. The wall clock is a sequence of samples of
 * `start_time.elapsed().as_millis() as u64`, one per pass of the outer loop;
 * the sleep between passes has no effect on the printed output.
 */
module Lyrics {
  import opened Wrappers
  import opened Text
  import opened OrderedMap
  import opened Lrc
  import opened Seqs

  /**
   * The parse loop of `fetch_lyrics`: every matching line is stored at its
   * exact timestamp, later lines overwriting earlier ones; a capture too large
   * for u64 makes the whole result None.
   */
  method FetchLyrics(syncedRaw: string) returns (r: Option<LyricsMap>)
    ensures r == ParseLines(Lines(syncedRaw), false)
  {
    var lines := Lines(syncedRaw);
    var timeToLyric: LyricsMap := map[];
    var i := 0;
    while i < |lines|
      invariant i <= |lines|
      invariant Apply(Outcomes(lines)[..i], false) == Some(timeToLyric)
    {
      var line := lines[i];
      match MatchLine(line) {
        case None =>
          SkipStep(lines, i, false, timeToLyric);
        case Some(captures) =>
          var timestamp := CapturedTimestamp(captures);
          if timestamp.None? {
            CorruptStep(lines, i, false, captures);
            return None;
          }
          EntryStep(lines, i, false, timeToLyric, captures, timestamp.value);
          var timestampMs := timestamp.value;
          timeToLyric := timeToLyric[timestampMs := captures.text];
      }
      i := i + 1;
    }
    AllLinesApplied(lines, false);
    return Some(timeToLyric);
  }

  const STARTING: string := "Starting synchronized lyrics display"
  const SPACER: string := "\n\n\n"
  const LFG: string := "----- LFG -----"
  const BRAVO: string := "----- BRAVO -----"

  /** The lines printed before the first lyric. */
  function Header(opening: string): seq<string> {
    [STARTING, SPACER, opening]
  }

  /**
   * What a run of the display loop over the clock samples `clock` did: it
   * printed the header, the first `shown` lines of the map in ascending
   * timestamp order and, once all were shown, the closing banner. `cursor[s]`
   * is `displayed_up_to_index` before sample `s` is read and `cursor[s + 1]`
   * after it: the pass over sample `s` printed exactly the lines that were due
   * at that time (never one early, never one held back), and the loop only
   * stopped reading the clock when every line was shown.
   */
  predicate DisplayRun(lyricsMap: LyricsMap, clock: seq<nat>, opening: string, closing: string,
                       printed: seq<string>, shown: nat, cursor: seq<nat>)
  {
    var timestamps := SortedKeys(lyricsMap.Keys);
    && shown <= |timestamps|
    && printed == Header(opening) + DisplayLinesOf(timestamps[..shown], lyricsMap) + (if shown == |timestamps| then [closing] else [])
    && 0 < |cursor| <= |clock| + 1
    && cursor[|cursor| - 1] == shown
    && Trace(timestamps, clock, cursor)
    && (shown < |timestamps| ==> |cursor| == |clock| + 1)
  }

  /**
   * The cursor trace of the display loop: it starts at 0 and never moves
   * back; the pass over sample `s` moved it over lines due at `clock[s]` and
   * stopped at a line still in the future (or at the end).
   */
  predicate Trace(timestamps: seq<nat>, clock: seq<nat>, cursor: seq<nat>)
    requires 0 < |cursor| <= |clock| + 1 && cursor[|cursor| - 1] <= |timestamps|
  {
    && cursor[0] == 0
    && (forall a, b :: 0 <= a <= b < |cursor| ==> cursor[a] <= cursor[b])
    && (forall s, j :: 0 <= s < |cursor| - 1 && cursor[s] <= j < cursor[s + 1] ==> timestamps[j] <= clock[s])
    && (forall s :: 0 <= s < |cursor| - 1 && cursor[s + 1] < |timestamps| ==> clock[s] < timestamps[cursor[s + 1]])
  }

  /** One more pass of the display loop extends the trace. */
  lemma TraceExtend(timestamps: seq<nat>, clock: seq<nat>, cursor: seq<nat>, now: nat, start: nat, next: nat)
    requires 0 < |cursor| <= |clock| && now == clock[|cursor| - 1]
    requires cursor[|cursor| - 1] == start <= next <= |timestamps|
    requires Trace(timestamps, clock, cursor)
    requires forall j :: start <= j < next ==> timestamps[j] <= now
    requires next < |timestamps| ==> now < timestamps[next]
    ensures Trace(timestamps, clock, cursor + [next])
  {
    var c := cursor + [next];
    forall a, b | 0 <= a <= b < |c| ensures c[a] <= c[b] {
      if b == |cursor| && a < b {
        assert cursor[a] <= cursor[|cursor| - 1];
      }
    }
  }

  /**
   * The cursor loop of `display_synced_lyrics`, with the opening and closing
   * banners as parameters. `printed` lists the `println!` arguments in
   * order, `shown` is `displayed_up_to_index` when the loop ends or the clock
   * samples run out, and `cursor` is its value before the first sample and
   * after each one read.
   */
  method DisplayLoop(lyricsMap: LyricsMap, clock: seq<nat>, opening: string, closing: string)
    returns (printed: seq<string>, shown: nat, cursor: seq<nat>)
    ensures DisplayRun(lyricsMap, clock, opening, closing, printed, shown, cursor)
  {
    var timestamps := SortedKeys(lyricsMap.Keys);
    var displayedUpToIndex := 0;
    printed := Header(opening);
    cursor := [0];
    var sample := 0;
    assert timestamps[..0] == [];
    while displayedUpToIndex < |timestamps| && sample < |clock|
      invariant sample <= |clock| && |cursor| == sample + 1
      invariant displayedUpToIndex <= |timestamps|
      invariant printed == Header(opening) + DisplayLinesOf(timestamps[..displayedUpToIndex], lyricsMap)
      invariant cursor[sample] == displayedUpToIndex
      invariant Trace(timestamps, clock, cursor)
    {
      var currentTimeMs := clock[sample];
      ghost var start := displayedUpToIndex;
      printed, displayedUpToIndex := ShowDueLines(lyricsMap, timestamps, printed, displayedUpToIndex, currentTimeMs);
      DisplayLinesOfSplit(Header(opening), timestamps, lyricsMap, start, displayedUpToIndex);
      TraceExtend(timestamps, clock, cursor, currentTimeMs, start, displayedUpToIndex);
      cursor := cursor + [displayedUpToIndex];
      sample := sample + 1;
    }
    shown := displayedUpToIndex;
    if displayedUpToIndex == |timestamps| {
      printed := printed + [closing];
    }
  }

  /**
   * The inner loop of `display_synced_lyrics`: print every line from
   * `index` on whose timestamp is at most `now`, stopping at the first one
   * still in the future.
   */
  method ShowDueLines(lyricsMap: LyricsMap, timestamps: seq<nat>, printed: seq<string>, index: nat, now: nat)
    returns (printed': seq<string>, index': nat)
    requires index <= |timestamps| && forall i :: 0 <= i < |timestamps| ==> timestamps[i] in lyricsMap
    ensures index <= index' <= |timestamps|
    ensures printed' == printed + DisplayLinesOf(timestamps[index..index'], lyricsMap)
    ensures forall j :: index <= j < index' ==> timestamps[j] <= now
    ensures index' < |timestamps| ==> now < timestamps[index']
  {
    printed', index' := printed, index;
    while index' < |timestamps| && now >= timestamps[index']
      invariant index <= index' <= |timestamps|
      invariant printed' == printed + DisplayLinesOf(timestamps[index..index'], lyricsMap)
      invariant forall j :: index <= j < index' ==> timestamps[j] <= now
    {
      var timestamp := timestamps[index'];
      // `lyrics_map.get(&timestamp)` always finds the line: `timestamps` are the map's keys.
      ShowNextLine(lyricsMap, timestamps, printed, index, index');
      DueExtend(timestamps, index, index', now);
      var lyric := lyricsMap[timestamp];
      printed' := printed' + [DisplayLine(timestamp, lyric)];
      index' := index' + 1;
    }
  }

  /** Printing the line at `k` extends the printed slice `timestamps[index..k]` by one. */
  lemma ShowNextLine(lyricsMap: LyricsMap, timestamps: seq<nat>, printed: seq<string>, index: nat, k: nat)
    requires index <= k < |timestamps| && forall i :: 0 <= i < |timestamps| ==> timestamps[i] in lyricsMap
    ensures printed + DisplayLinesOf(timestamps[index..k], lyricsMap) + [DisplayLine(timestamps[k], lyricsMap[timestamps[k]])]
         == printed + DisplayLinesOf(timestamps[index..k + 1], lyricsMap)
  {
    var keys := timestamps[index..k + 1];
    assert keys[..|keys| - 1] == timestamps[index..k];
    assert DisplayLinesOf(keys, lyricsMap) == DisplayLinesOf(timestamps[index..k], lyricsMap) + [DisplayLine(timestamps[k], lyricsMap[timestamps[k]])];
    ConcatAssoc(printed, DisplayLinesOf(timestamps[index..k], lyricsMap), [DisplayLine(timestamps[k], lyricsMap[timestamps[k]])]);
  }

  lemma DueExtend(timestamps: seq<nat>, lo: nat, hi: nat, now: nat)
    requires lo <= hi < |timestamps|
    requires forall j :: lo <= j < hi ==> timestamps[j] <= now
    requires timestamps[hi] <= now
    ensures forall j :: lo <= j < hi + 1 ==> timestamps[j] <= now
  {
  }

  /** Printing `timestamps[start..next]` after `timestamps[..start]` prints `timestamps[..next]`. */
  lemma DisplayLinesOfSplit(header: seq<string>, timestamps: seq<nat>, lyricsMap: LyricsMap, start: nat, next: nat)
    requires start <= next <= |timestamps| && forall i :: 0 <= i < |timestamps| ==> timestamps[i] in lyricsMap
    ensures header + DisplayLinesOf(timestamps[..start], lyricsMap) + DisplayLinesOf(timestamps[start..next], lyricsMap)
         == header + DisplayLinesOf(timestamps[..next], lyricsMap)
  {
    assert timestamps[..next] == timestamps[..start] + timestamps[start..next];
    DisplayLinesOfAppend(timestamps[..start], timestamps[start..next], lyricsMap);
    ConcatAssoc(header, DisplayLinesOf(timestamps[..start], lyricsMap), DisplayLinesOf(timestamps[start..next], lyricsMap));
  }

  /** `display_synced_lyrics` of `src/lyrics/mod.rs`, framed by the "LFG" and "BRAVO" banners. */
  method DisplaySyncedLyrics(lyricsMap: LyricsMap, clock: seq<nat>)
    returns (printed: seq<string>, shown: nat, cursor: seq<nat>)
    ensures DisplayRun(lyricsMap, clock, LFG, BRAVO, printed, shown, cursor)
  {
    printed, shown, cursor := DisplayLoop(lyricsMap, clock, LFG, BRAVO);
  }

  /** A map without lines prints only the header and the closing banner, whatever the clock says. */
  lemma EmptyMapDisplay(clock: seq<nat>, opening: string, closing: string, printed: seq<string>, shown: nat, cursor: seq<nat>)
    requires DisplayRun(map[], clock, opening, closing, printed, shown, cursor)
    ensures printed == Header(opening) + [closing]
  {
    var empty: LyricsMap := map[];
    assert |SortedKeys(empty.Keys)| == 0;
    assert SortedKeys(empty.Keys)[..0] == [];
  }

  /** Once every line is shown, the printed lyric lines parse back (without bucketing) to the whole map. */
  lemma FinishedDisplayParses(lyricsMap: LyricsMap, clock: seq<nat>, opening: string, closing: string,
                              printed: seq<string>, shown: nat, cursor: seq<nat>)
    requires forall k :: k in lyricsMap ==> k < U64_MODULUS && CapturableText(lyricsMap[k])
    requires DisplayRun(lyricsMap, clock, opening, closing, printed, shown, cursor)
    requires shown == |lyricsMap.Keys|
    ensures |printed| == |lyricsMap.Keys| + 4
    ensures ParseLines(printed[3..|printed| - 1], false) == Some(lyricsMap)
  {
    var lines := DisplayLines(lyricsMap);
    var timestamps := SortedKeys(lyricsMap.Keys);
    assert timestamps[..shown] == timestamps;
    assert printed[3..|printed| - 1] == lines;
    ParseDisplayLines(lyricsMap);
  }

  /**
   * With a clock that never goes backwards, a line printed in the pass over
   * sample `s` was not yet due at any earlier sample: each line is printed in
   * the first pass whose clock reading is at or after its timestamp.
   */
  lemma ShownAtFirstDueSample(lyricsMap: LyricsMap, clock: seq<nat>, opening: string, closing: string,
                              printed: seq<string>, shown: nat, cursor: seq<nat>, s: nat, j: nat, e: nat)
    requires DisplayRun(lyricsMap, clock, opening, closing, printed, shown, cursor)
    requires forall a, b :: 0 <= a <= b < |clock| ==> clock[a] <= clock[b]
    requires s < |cursor| - 1 && cursor[s] <= j < cursor[s + 1]
    requires e < s
    ensures clock[e] < SortedKeys(lyricsMap.Keys)[j]
  {
    var timestamps := SortedKeys(lyricsMap.Keys);
    assert cursor[e + 1] <= cursor[s];
    assert cursor[s + 1] <= shown;
    assert cursor[e + 1] < |timestamps|;
    if cursor[e + 1] < j {
      assert timestamps[cursor[e + 1]] < timestamps[j];
    }
  }
}
