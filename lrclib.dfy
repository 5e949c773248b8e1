/**
 * `src/lyrics/lrclib.rs`: the lrclib.net lyrics service. `Parse` is the
 * bucketing parse loop over the synced lyrics text; `Play` picks the
 * previous, current and next lines for an elapsed time by range queries on
 * the ordered map.
 */
module LrcLib {
  import opened Wrappers
  import opened Text
  import opened OrderedMap
  import opened Lrc

  /** The only error the parse loop raises when `\d` is read as ASCII digits: a captured number above `u64::MAX` (`ParseIntError`, kind `PosOverflow`). */
  datatype ServiceError = PosOverflow

  /**
   * `LRCLib::parse`: every matching line is stored at its timestamp rounded
   * down to 200 ms, later lines overwriting earlier ones; a capture too large
   * for u64 aborts the whole parse with an error.
   */
  method Parse(synced: string) returns (r: Result<Option<LyricsMap>, ServiceError>)
    ensures ParseLines(Lines(synced), true).Some? ==> r == Ok(Some(ParseLines(Lines(synced), true).value))
    ensures ParseLines(Lines(synced), true).None? ==> r == Err(PosOverflow)
  {
    var lines := Lines(synced);
    var timeToLyric: LyricsMap := map[];
    var i := 0;
    while i < |lines|
      invariant i <= |lines|
      invariant Apply(Outcomes(lines)[..i], true) == Some(timeToLyric)
    {
      var line := lines[i];
      match MatchLine(line) {
        case None =>
          SkipStep(lines, i, true, timeToLyric);
        case Some(captures) =>
          var timestamp := CapturedTimestamp(captures);
          if timestamp.None? {
            CorruptStep(lines, i, true, captures);
            return Err(PosOverflow);
          }
          EntryStep(lines, i, true, timeToLyric, captures, timestamp.value);
          var timestampMs := timestamp.value;
          timestampMs := (timestampMs / 200) * 200;
          timeToLyric := timeToLyric[timestampMs := captures.text];
      }
      i := i + 1;
    }
    AllLinesApplied(lines, true);
    return Ok(Some(timeToLyric));
  }

  /** The text stored at the key a range query found, or "" when it found none. */
  function TextAt(m: LyricsMap, k: Option<nat>): string
    requires k.Some? ==> k.value in m
  {
    if k.Some? then m[k.value] else ""
  }

  /**
   * `LyricsService::play`: `[previous, current, next]`. The current line is
   * the last one at or before `elapsed`; the previous one is the last line
   * strictly before the current line's key (before 0 when there is none);
   * the next one is the first line at or after `elapsed`.
   */
  function Play(elapsed: nat, lyricsMap: LyricsMap): (r: Result<seq<string>, ServiceError>)
    ensures r.Ok? && |r.value| == 3
  {
    var current := LastAtMost(lyricsMap, elapsed);
    var currentTs := if current.Some? then current.value else 0;
    var previous := LastBelow(lyricsMap, currentTs);
    var next := FirstAtLeast(lyricsMap, elapsed);
    Ok([TextAt(lyricsMap, previous), TextAt(lyricsMap, current), TextAt(lyricsMap, next)])
  }

  /** Slot 1 is the text of the greatest key at or before `elapsed`. */
  lemma PlayCurrent(elapsed: nat, m: LyricsMap, k: nat)
    requires k in m && k <= elapsed
    requires forall j :: j in m && j <= elapsed ==> j <= k
    ensures Play(elapsed, m).value[1] == m[k]
  {
  }

  /** Slot 2 is the text of the smallest key at or after `elapsed`. */
  lemma PlayNext(elapsed: nat, m: LyricsMap, k: nat)
    requires k in m && elapsed <= k
    requires forall j :: j in m && elapsed <= j ==> k <= j
    ensures Play(elapsed, m).value[2] == m[k]
  {
  }

  /** Slot 0 is the text of the greatest key strictly below the current line's key. */
  lemma PlayPrevious(elapsed: nat, m: LyricsMap, k: nat, p: nat)
    requires k in m && k <= elapsed
    requires forall j :: j in m && j <= elapsed ==> j <= k
    requires p in m && p < k
    requires forall j :: j in m && j < k ==> j <= p
    ensures Play(elapsed, m).value[0] == m[p]
  {
  }

  /** Before the first line, slots 0 and 1 are empty. */
  lemma PlayBeforeFirstLine(elapsed: nat, m: LyricsMap)
    requires forall j :: j in m ==> elapsed < j
    ensures Play(elapsed, m).value[0] == "" && Play(elapsed, m).value[1] == ""
  {
  }

  /** On the first line, slot 0 is empty. */
  lemma PlayOnFirstLine(elapsed: nat, m: LyricsMap, k: nat)
    requires k in m && k <= elapsed
    requires forall j :: j in m ==> k <= j
    requires forall j :: j in m && j <= elapsed ==> j <= k
    ensures Play(elapsed, m).value[0] == ""
  {
  }

  /** After the last line, slot 2 is empty. */
  lemma PlayAfterLastLine(elapsed: nat, m: LyricsMap)
    requires forall j :: j in m ==> j < elapsed
    ensures Play(elapsed, m).value[2] == ""
  {
  }

  /** The three-line map `{500: a, 1500: b, 3000: c}` the examples below play. */
  function ThreeLines(): (m: LyricsMap)
    ensures m.Keys == {500, 1500, 3000}
  {
    map[500 := "a", 1500 := "b", 3000 := "c"]
  }

  /** Before the first line only the next one is shown. */
  lemma PlayExampleBefore()
    ensures Play(0, ThreeLines()) == Ok(["", "", "a"])
  {
    var m := ThreeLines();
    PlayBeforeFirstLine(0, m);
    PlayNext(0, m, 500);
  }

  /** Between the first and second line. */
  lemma PlayExampleBetween()
    ensures Play(600, ThreeLines()) == Ok(["", "a", "b"])
  {
    var m := ThreeLines();
    PlayCurrent(600, m, 500);
    PlayOnFirstLine(600, m, 500);
    PlayNext(600, m, 1500);
  }

  /** Exactly on the second line's key: it is both current and next. */
  lemma PlayExampleOnKey()
    ensures Play(1500, ThreeLines()) == Ok(["a", "b", "b"])
  {
    var m := ThreeLines();
    PlayCurrent(1500, m, 1500);
    PlayPrevious(1500, m, 1500, 500);
    PlayNext(1500, m, 1500);
  }

  /** After the last line no next line is shown. */
  lemma PlayExampleAfter()
    ensures Play(5000, ThreeLines()) == Ok(["b", "c", ""])
  {
    var m := ThreeLines();
    PlayCurrent(5000, m, 3000);
    PlayPrevious(5000, m, 3000, 1500);
    PlayAfterLastLine(5000, m);
  }

  /**
   * When `elapsed` falls exactly on a key, the inclusive range `elapsed..`
   * finds that same key again, so the current line is repeated as the next one.
   */
  lemma PlayRepeatsLineOnExactKey(elapsed: nat, m: LyricsMap)
    requires elapsed in m
    ensures Play(elapsed, m).value[1] == m[elapsed] && Play(elapsed, m).value[2] == m[elapsed]
  {
    PlayCurrent(elapsed, m, elapsed);
    PlayNext(elapsed, m, elapsed);
  }

  /** `play` with the next line looked up by the exclusive range `(elapsed+1)..`: the line after the current time. */
  function PlayStrict(elapsed: nat, lyricsMap: LyricsMap): (r: Result<seq<string>, ServiceError>)
    ensures r.Ok? && |r.value| == 3
    ensures r.value[0] == Play(elapsed, lyricsMap).value[0] && r.value[1] == Play(elapsed, lyricsMap).value[1]
  {
    var current := LastAtMost(lyricsMap, elapsed);
    var currentTs := if current.Some? then current.value else 0;
    var previous := LastBelow(lyricsMap, currentTs);
    var next := FirstAbove(lyricsMap, elapsed);
    Ok([TextAt(lyricsMap, previous), TextAt(lyricsMap, current), TextAt(lyricsMap, next)])
  }

  /** Slot 2 of the corrected window is the text of the smallest key strictly after `elapsed`. */
  lemma PlayStrictNext(elapsed: nat, m: LyricsMap, k: nat)
    requires k in m && elapsed < k
    requires forall j :: j in m && elapsed < j ==> k <= j
    ensures PlayStrict(elapsed, m).value[2] == m[k]
  {
  }

  /** Off the keys, the corrected window agrees with `play`; on a key it shows the following line. */
  lemma PlayStrictAgreesOffKeys(elapsed: nat, m: LyricsMap)
    requires elapsed !in m
    ensures PlayStrict(elapsed, m) == Play(elapsed, m)
  {
    var a := FirstAtLeast(m, elapsed);
    var b := FirstAbove(m, elapsed);
    if a.Some? {
      assert b.Some? && b.value <= a.value;
    }
    if b.Some? {
      assert a.Some? && a.value <= b.value;
    }
  }

  /** At 1500 ms in `{500: a, 1500: b, 3000: c}` the corrected window is `[a, b, c]`. */
  lemma PlayStrictExample()
    ensures PlayStrict(1500, ThreeLines()) == Ok(["a", "b", "c"])
  {
    var m := ThreeLines();
    PlayCurrent(1500, m, 1500);
    PlayPrevious(1500, m, 1500, 500);
    PlayStrictNext(1500, m, 3000);
  }
}
