/**
 * Synced-lyric ("LRC") text: the line matcher that replaces the pattern
 * `^\[(\d+):(\d+)\.(\d+)\]\s*(.*)$`, `str::lines`, the timestamp formula and
 * the specification of the parse loop shared by the three parsers of the
 * repository (with 200 ms bucketing in `src/lyrics/lrclib.rs`, without it in
 * `src/lyrics/mod.rs` and `src/lib.rs`), and the `[mm:ss.mmm] text` line that
 * the two display loops print.
 */
module Lrc {
  import opened Wrappers
  import opened Text
  import opened OrderedMap
  import opened Seqs

  /** `BTreeMap<u64, String>`: timestamp in milliseconds to lyric text. */
  type LyricsMap = map<nat, string>

  /** The four capture groups of a matching line. */
  datatype Captures = Captures(minutes: string, seconds: string, fraction: string, text: string)

  /** What the parse loop does with one line. */
  datatype LineOutcome =
    | Skip                                  // the pattern does not match
    | Corrupt                               // a captured number does not parse as u64
    | Entry(timestamp: nat, text: string)   // insert `text` at `timestamp` (before bucketing)

  /** A lyric text as the pattern captures it: `\s*` took all leading space, `.` never matches '\n'. */
  predicate CapturableText(t: string) {
    '\n' !in t && (t == [] || !IsWhitespace(t[0]))
  }

  predicate AllWhitespace(s: string) {
    forall i :: 0 <= i < |s| ==> IsWhitespace(s[i])
  }

  /** The line `[minutes:seconds.fraction]` + `ws` + text that a match with captures `c` came from. */
  function Tagged(c: Captures, ws: string): string {
    "[" + (c.minutes + ":" + (c.seconds + "." + (c.fraction + "]" + (ws + c.text))))
  }

  /** A nonempty run of digits ended by `delim`: the run and what follows the delimiter. */
  function DigitsBefore(s: string, delim: char): (r: Option<(string, string)>)
    ensures r.Some? ==> |r.value.0| > 0 && AllDigits(r.value.0) && s == r.value.0 + [delim] + r.value.1
  {
    var k := DigitPrefixLength(s);
    if k == 0 || k == |s| || s[k] != delim then None
    else
      assert s == s[..k] + [delim] + s[k + 1..];
      Some((s[..k], s[k + 1..]))
  }

  lemma DigitsBeforeOf(d: string, delim: char, rest: string)
    requires |d| > 0 && AllDigits(d) && !IsAsciiDigit(delim)
    ensures DigitsBefore(d + [delim] + rest, delim) == Some((d, rest))
  {
    var s := d + [delim] + rest;
    DigitPrefixOfRun(d, [delim] + rest);
    assert s == d + ([delim] + rest);
    assert s[..|d|] == d;
    assert s[|d| + 1..] == rest;
  }

  /** `\s*(.*)$`: the greedy run of white space is dropped, the rest is captured unless it holds a newline. */
  function TextAfterSpace(s: string): (r: Option<string>)
    ensures r.Some? ==> CapturableText(r.value) && s == s[..SpacePrefixLength(s)] + r.value
  {
    var n := SpacePrefixLength(s);
    var text := s[n..];
    if '\n' in text then None
    else
      assert text != [] ==> text[0] == s[n];
      assert s == s[..n] + text;
      Some(text)
  }

  lemma TextAfterSpaceOf(ws: string, text: string)
    requires AllWhitespace(ws) && CapturableText(text)
    ensures TextAfterSpace(ws + text) == Some(text)
  {
    SpacePrefixOfRun(ws, text);
    assert (ws + text)[|ws|..] == text;
  }

  /**
   * The anchored pattern `^\[(\d+):(\d+)\.(\d+)\]\s*(.*)$`, with `\d` read as an
   * ASCII digit. Each digit group is the maximal digit run before its
   * delimiter, `\s*` is greedy and `(.*)$` takes the rest of the line, which
   * must not contain a newline.
   */
  function MatchLine(line: string): (r: Option<Captures>)
    ensures r.Some? ==> |r.value.minutes| > 0 && AllDigits(r.value.minutes)
    ensures r.Some? ==> |r.value.seconds| > 0 && AllDigits(r.value.seconds)
    ensures r.Some? ==> |r.value.fraction| > 0 && AllDigits(r.value.fraction)
    ensures r.Some? ==> CapturableText(r.value.text)
  {
    if line == [] || line[0] != '[' then None
    else
      match DigitsBefore(line[1..], ':')
      case None => None
      case Some((minutes, r1)) =>
        match DigitsBefore(r1, '.')
        case None => None
        case Some((seconds, r2)) =>
          match DigitsBefore(r2, ']')
          case None => None
          case Some((fraction, r3)) =>
            match TextAfterSpace(r3)
            case None => None
            case Some(text) => Some(Captures(minutes, seconds, fraction, text))
  }

  /**
   * Soundness of the matcher: a matching line is its captures laid out in the
   * pattern's shape, with the white space `\s*` consumed returned as `ws`.
   */
  lemma MatchLineShape(line: string) returns (ws: string)
    requires MatchLine(line).Some?
    ensures AllWhitespace(ws) && line == Tagged(MatchLine(line).value, ws)
  {
    var (minutes, r1) := DigitsBefore(line[1..], ':').value;
    var (seconds, r2) := DigitsBefore(r1, '.').value;
    var (fraction, r3) := DigitsBefore(r2, ']').value;
    var text := TextAfterSpace(r3).value;
    assert MatchLine(line).value == Captures(minutes, seconds, fraction, text);
    ws := r3[..SpacePrefixLength(r3)];
    SpacePrefixIsWhitespace(r3);
    Layout(line, Captures(minutes, seconds, fraction, text), ws, r1, r2, r3);
  }

  /** Putting the pieces the matcher split off back together gives the line. */
  lemma Layout(line: string, c: Captures, ws: string, r1: string, r2: string, r3: string)
    requires line != [] && line[0] == '['
    requires line[1..] == c.minutes + [':'] + r1
    requires r1 == c.seconds + ['.'] + r2
    requires r2 == c.fraction + [']'] + r3
    requires r3 == ws + c.text
    ensures line == Tagged(c, ws)
  {
    assert line == "[" + line[1..];
  }

  lemma SpacePrefixIsWhitespace(s: string)
    ensures AllWhitespace(s[..SpacePrefixLength(s)])
  {
    var ws := s[..SpacePrefixLength(s)];
    forall i | 0 <= i < |ws| ensures IsWhitespace(ws[i]) {
      assert ws[i] == s[i];
    }
  }

  /** Completeness of the matcher: every line of the pattern's shape matches, with these captures. */
  lemma MatchTag(c: Captures, ws: string)
    requires |c.minutes| > 0 && AllDigits(c.minutes) && |c.seconds| > 0 && AllDigits(c.seconds)
    requires |c.fraction| > 0 && AllDigits(c.fraction)
    requires AllWhitespace(ws) && CapturableText(c.text)
    ensures MatchLine(Tagged(c, ws)) == Some(c)
  {
    var r3 := ws + c.text;
    var r2 := c.fraction + "]" + r3;
    var r1 := c.seconds + "." + r2;
    var line := "[" + (c.minutes + ":" + r1);
    assert line == Tagged(c, ws);
    assert line[1..] == c.minutes + ":" + r1;
    DigitsBeforeOf(c.minutes, ':', r1);
    DigitsBeforeOf(c.seconds, '.', r2);
    DigitsBeforeOf(c.fraction, ']', r3);
    TextAfterSpaceOf(ws, c.text);
  }

  /** `minutes * 60_000 + seconds * 1000 + milliseconds` in u64 arithmetic (release build: wraps). */
  function Timestamp(minutes: nat, seconds: nat, fraction: nat): (ts: nat)
    ensures ts < U64_MODULUS
    ensures minutes * 60000 + seconds * 1000 + fraction < U64_MODULUS ==> ts == minutes * 60000 + seconds * 1000 + fraction
  {
    (minutes * 60000 + seconds * 1000 + fraction) % U64_MODULUS
  }

  /** The grid `src/lyrics/lrclib.rs` rounds timestamps down to. */
  const BUCKET_MS: nat := 200

  /** The map key of a timestamp: `(timestamp_ms / 200) * 200` when bucketed, the timestamp itself otherwise. */
  function KeyOf(ts: nat, bucketed: bool): (k: nat)
    ensures bucketed ==> k <= ts < k + BUCKET_MS && k % BUCKET_MS == 0
    ensures !bucketed ==> k == ts
  {
    if bucketed then (ts / 200) * 200 else ts
  }

  /**
   * `captures[1].parse()?`, `captures[2].parse()?`, `captures[3].parse()?` as
   * `u64`, then the millisecond arithmetic: None as soon as one capture does
   * not fit.
   */
  function CapturedTimestamp(c: Captures): (r: Option<nat>)
    ensures r.Some? ==> r.value < U64_MODULUS
  {
    match ParseUnsigned(c.minutes, U64_MAX)
    case None => None
    case Some(minutes) =>
      match ParseUnsigned(c.seconds, U64_MAX)
      case None => None
      case Some(seconds) =>
        match ParseUnsigned(c.fraction, U64_MAX)
        case None => None
        case Some(fraction) => Some(Timestamp(minutes, seconds, fraction))
  }

  /** One pass of the loop body: match, parse the captures, compute the timestamp. */
  function Classify(line: string): (r: LineOutcome)
    ensures r.Skip? <==> MatchLine(line).None?
    ensures r.Entry? ==> r.timestamp < U64_MODULUS && r.text == MatchLine(line).value.text
  {
    match MatchLine(line)
    case None => Skip
    case Some(c) =>
      match CapturedTimestamp(c)
      case None => Corrupt
      case Some(ts) => Entry(ts, c.text)
  }

  /** The outcome of every line, in order. */
  function Outcomes(lines: seq<string>): (r: seq<LineOutcome>)
    ensures |r| == |lines|
    decreases |lines|
  {
    if lines == [] then [] else Outcomes(lines[..|lines| - 1]) + [Classify(lines[|lines| - 1])]
  }

  /** Outcome `i` is the classification of line `i`. */
  lemma {:induction false} OutcomesAt(lines: seq<string>)
    ensures forall i :: 0 <= i < |lines| ==> Outcomes(lines)[i] == Classify(lines[i])
    decreases |lines|
  {
    if lines != [] {
      var init := lines[..|lines| - 1];
      var last := lines[|lines| - 1];
      OutcomesAt(init);
      var r := Outcomes(lines);
      assert r == Outcomes(init) + [Classify(last)];
      forall i | 0 <= i < |lines| ensures r[i] == Classify(lines[i]) {
        if i < |init| {
          assert r[i] == Outcomes(init)[i];
          assert init[i] == lines[i];
        } else {
          assert r[i] == Classify(last);
        }
      }
    }
  }

  /** One iteration of the parse loop on the map built so far. */
  function Step(m: LyricsMap, outcome: LineOutcome, bucketed: bool): (r: Option<LyricsMap>)
    ensures outcome.Corrupt? <==> r.None?
    ensures outcome.Skip? ==> r == Some(m)
    ensures outcome.Entry? ==> r.Some? && r.value.Keys == m.Keys + {KeyOf(outcome.timestamp, bucketed)}
  {
    match outcome
    case Skip => Some(m)
    case Corrupt => None
    case Entry(ts, text) => Some(m[KeyOf(ts, bucketed) := text])
  }

  /** The parse loop run over a sequence of line outcomes, starting from the empty map. */
  function Apply(outcomes: seq<LineOutcome>, bucketed: bool): Option<LyricsMap>
    decreases |outcomes|
  {
    if outcomes == [] then Some(map[])
    else
      match Apply(outcomes[..|outcomes| - 1], bucketed)
      case None => None
      case Some(m) => Step(m, outcomes[|outcomes| - 1], bucketed)
  }

  /**
   * The map the parse loop builds from `lines`, inserting each entry at its
   * (bucketed) key in line order, or None as soon as a line is corrupt.
   */
  function ParseLines(lines: seq<string>, bucketed: bool): Option<LyricsMap> {
    Apply(Outcomes(lines), bucketed)
  }

  /** The text of the last entry in `outcomes` whose key is `k`: an independent reading of "last writer wins". */
  function LastEntryAt(outcomes: seq<LineOutcome>, k: nat, bucketed: bool): Option<string>
    decreases |outcomes|
  {
    if outcomes == [] then None
    else
      var last := outcomes[|outcomes| - 1];
      if last.Entry? && KeyOf(last.timestamp, bucketed) == k then Some(last.text)
      else LastEntryAt(outcomes[..|outcomes| - 1], k, bucketed)
  }

  predicate TimestampsInRange(outcomes: seq<LineOutcome>) {
    forall i :: 0 <= i < |outcomes| && outcomes[i].Entry? ==> outcomes[i].timestamp < U64_MODULUS
  }

  lemma {:induction false} AppliedKeysOnGrid(outcomes: seq<LineOutcome>, bucketed: bool)
    requires TimestampsInRange(outcomes) && Apply(outcomes, bucketed).Some?
    ensures forall k :: k in Apply(outcomes, bucketed).value ==> k < U64_MODULUS && (bucketed ==> k % BUCKET_MS == 0)
    decreases |outcomes|
  {
    if outcomes != [] {
      AppliedKeysOnGrid(outcomes[..|outcomes| - 1], bucketed);
    }
  }

  /** Every key of a parsed map fits in u64, and with bucketing is a multiple of 200. */
  lemma ParsedKeysOnGrid(lines: seq<string>, bucketed: bool)
    requires ParseLines(lines, bucketed).Some?
    ensures forall k :: k in ParseLines(lines, bucketed).value ==> k < U64_MODULUS && (bucketed ==> k % BUCKET_MS == 0)
  {
    OutcomesAt(lines);
    AppliedKeysOnGrid(Outcomes(lines), bucketed);
  }

  lemma {:induction false} ApplyFailsIffCorrupt(outcomes: seq<LineOutcome>, bucketed: bool)
    ensures Apply(outcomes, bucketed).None? <==> Corrupt in outcomes
    decreases |outcomes|
  {
    if outcomes != [] {
      var init := outcomes[..|outcomes| - 1];
      ApplyFailsIffCorrupt(init, bucketed);
      assert outcomes == init + [outcomes[|outcomes| - 1]];
    }
  }

  /** The parse fails exactly when some line matches the pattern but carries a number too large for u64. */
  lemma ParseFailsIffCorrupt(lines: seq<string>, bucketed: bool)
    ensures ParseLines(lines, bucketed).None? <==> exists i :: 0 <= i < |lines| && Classify(lines[i]).Corrupt?
  {
    var outcomes := Outcomes(lines);
    OutcomesAt(lines);
    ApplyFailsIffCorrupt(outcomes, bucketed);
    if Corrupt in outcomes {
      var i :| 0 <= i < |outcomes| && outcomes[i] == Corrupt;
      assert Classify(lines[i]).Corrupt?;
    }
  }

  /** Once a line is corrupt, no later line can rescue the parse. */
  lemma {:induction false} CorruptPrefixFails(outcomes: seq<LineOutcome>, n: nat, bucketed: bool)
    requires n <= |outcomes|
    requires Apply(outcomes[..n], bucketed).None?
    ensures Apply(outcomes, bucketed).None?
  {
    ApplyFailsIffCorrupt(outcomes[..n], bucketed);
    ApplyFailsIffCorrupt(outcomes, bucketed);
    var i :| 0 <= i < n && outcomes[..n][i] == Corrupt;
    assert outcomes[i] == Corrupt;
  }

  lemma {:induction false} SkipIgnored(before: seq<LineOutcome>, after: seq<LineOutcome>, bucketed: bool)
    ensures Apply(before + [Skip] + after, bucketed) == Apply(before + after, bucketed)
    decreases |after|
  {
    var with := before + [Skip] + after;
    var without := before + after;
    if after == [] {
      assert with[..|with| - 1] == before;
      assert without == before;
    } else {
      var init := after[..|after| - 1];
      assert with[..|with| - 1] == before + [Skip] + init;
      assert without[..|without| - 1] == before + init;
      SkipIgnored(before, init, bucketed);
    }
  }

  lemma OutcomesAppend(a: seq<string>, b: seq<string>)
    ensures Outcomes(a + b) == Outcomes(a) + Outcomes(b)
  {
    var l, r := Outcomes(a + b), Outcomes(a) + Outcomes(b);
    OutcomesAt(a + b);
    OutcomesAt(a);
    OutcomesAt(b);
    forall i | 0 <= i < |a + b| ensures l[i] == r[i] {
      if i < |a| { assert (a + b)[i] == a[i]; } else { assert (a + b)[i] == b[i - |a|]; }
    }
  }

  /** A line the pattern does not match changes nothing, wherever it stands. */
  lemma UnmatchedLineSkipped(before: seq<string>, line: string, after: seq<string>, bucketed: bool)
    requires MatchLine(line).None?
    ensures ParseLines(before + [line] + after, bucketed) == ParseLines(before + after, bucketed)
  {
    OutcomesAppend(before + [line], after);
    OutcomesAppend(before, [line]);
    OutcomesAppend(before, after);
    assert Outcomes([line]) == [Skip];
    SkipIgnored(Outcomes(before), Outcomes(after), bucketed);
  }

  lemma {:induction false} AppliedTextIsLastEntry(outcomes: seq<LineOutcome>, bucketed: bool, k: nat)
    requires Apply(outcomes, bucketed).Some?
    ensures k in Apply(outcomes, bucketed).value <==> LastEntryAt(outcomes, k, bucketed).Some?
    ensures k in Apply(outcomes, bucketed).value ==> Apply(outcomes, bucketed).value[k] == LastEntryAt(outcomes, k, bucketed).value
    decreases |outcomes|
  {
    if outcomes != [] {
      AppliedTextIsLastEntry(outcomes[..|outcomes| - 1], bucketed, k);
    }
  }

  /**
   * Last writer wins: a key is in the parsed map exactly when some line lands
   * on it, and its text is that of the last such line.
   */
  lemma ParsedTextIsLastEntry(lines: seq<string>, bucketed: bool, k: nat)
    requires ParseLines(lines, bucketed).Some?
    ensures k in ParseLines(lines, bucketed).value <==> LastEntryAt(Outcomes(lines), k, bucketed).Some?
    ensures k in ParseLines(lines, bucketed).value ==> ParseLines(lines, bucketed).value[k] == LastEntryAt(Outcomes(lines), k, bucketed).value
  {
    AppliedTextIsLastEntry(Outcomes(lines), bucketed, k);
  }

  /** A line whose captures parse as u64 values is the entry at their timestamp. */
  lemma ClassifyMatched(line: string, c: Captures, m: nat, s: nat, f: nat)
    requires MatchLine(line) == Some(c)
    requires ParseUnsigned(c.minutes, U64_MAX) == Some(m)
    requires ParseUnsigned(c.seconds, U64_MAX) == Some(s)
    requires ParseUnsigned(c.fraction, U64_MAX) == Some(f)
    ensures Classify(line) == Entry(Timestamp(m, s, f), c.text)
  {
  }

  /** Running the loop one more line is one more `Step`. */
  lemma ApplySnoc(outcomes: seq<LineOutcome>, i: nat, bucketed: bool)
    requires i < |outcomes|
    ensures Apply(outcomes[..i + 1], bucketed) ==
      match Apply(outcomes[..i], bucketed)
      case None => None
      case Some(m) => Step(m, outcomes[i], bucketed)
  {
    assert outcomes[..i + 1][..i] == outcomes[..i];
  }

  /** The loop step for a line the pattern does not match: the map is kept. */
  lemma SkipStep(lines: seq<string>, i: nat, bucketed: bool, m: LyricsMap)
    requires i < |lines| && Apply(Outcomes(lines)[..i], bucketed) == Some(m)
    requires MatchLine(lines[i]).None?
    ensures Apply(Outcomes(lines)[..i + 1], bucketed) == Some(m)
  {
    ApplySnoc(Outcomes(lines), i, bucketed);
    OutcomesAt(lines);
  }

  /** The loop step for a matching line whose captures parse: one insertion at the line's key. */
  lemma EntryStep(lines: seq<string>, i: nat, bucketed: bool, m: LyricsMap, c: Captures, ts: nat)
    requires i < |lines| && Apply(Outcomes(lines)[..i], bucketed) == Some(m)
    requires MatchLine(lines[i]) == Some(c) && CapturedTimestamp(c) == Some(ts)
    ensures Apply(Outcomes(lines)[..i + 1], bucketed) == Some(m[KeyOf(ts, bucketed) := c.text])
  {
    ApplySnoc(Outcomes(lines), i, bucketed);
    OutcomesAt(lines);
    assert Outcomes(lines)[i] == Entry(ts, c.text);
  }

  /** A matching line with a capture too large for u64 makes the whole parse fail. */
  lemma CorruptStep(lines: seq<string>, i: nat, bucketed: bool, c: Captures)
    requires i < |lines|
    requires MatchLine(lines[i]) == Some(c) && CapturedTimestamp(c).None?
    ensures ParseLines(lines, bucketed).None?
  {
    var outcomes := Outcomes(lines);
    OutcomesAt(lines);
    ApplyFailsIffCorrupt(outcomes, bucketed);
    assert outcomes[i] == Corrupt;
  }

  /** After the last line, the loop's map is the parse result. */
  lemma AllLinesApplied(lines: seq<string>, bucketed: bool)
    ensures Apply(Outcomes(lines)[..|lines|], bucketed) == ParseLines(lines, bucketed)
  {
    assert Outcomes(lines)[..|lines|] == Outcomes(lines);
  }

  /** A well-formed line on its own parses to the one entry it denotes (the parse round trip). */
  lemma ParseSingleLine(m: nat, s: nat, f: nat, ws: string, text: string, bucketed: bool)
    requires m <= U64_MAX && s <= U64_MAX && f <= U64_MAX
    requires AllWhitespace(ws) && CapturableText(text)
    ensures ParseLines([Tagged(Captures(ZeroPad(m, 0), ZeroPad(s, 0), ZeroPad(f, 0), text), ws)], bucketed)
         == Some(map[KeyOf(Timestamp(m, s, f), bucketed) := text])
  {
    var c := Captures(ZeroPad(m, 0), ZeroPad(s, 0), ZeroPad(f, 0), text);
    var line := Tagged(c, ws);
    ParseZeroPad(m, 0, U64_MAX);
    ParseZeroPad(s, 0, U64_MAX);
    ParseZeroPad(f, 0, U64_MAX);
    MatchTag(c, ws);
    ClassifyMatched(line, c, m, s, f);
    ParseOneLine(line, bucketed);
  }

  lemma ParseOneLine(line: string, bucketed: bool)
    ensures ParseLines([line], bucketed) == Step(map[], Classify(line), bucketed)
  {
    var outcomes := Outcomes([line]);
    assert outcomes == [Classify(line)];
    assert outcomes[..0] == [];
    assert Apply(outcomes[..0], bucketed) == Some(map[]);
  }

  /** The index of the first '\n' in `s`, or `|s|`. */
  function NewlineIndex(s: string): (n: nat)
    ensures n <= |s| && '\n' !in s[..n] && (n < |s| ==> s[n] == '\n')
  {
    if s == [] || s[0] == '\n' then 0
    else
      var n := 1 + NewlineIndex(s[1..]);
      assert s[..n] == [s[0]] + s[1..][..n - 1];
      n
  }

  function StripCr(s: string): string {
    if s != [] && s[|s| - 1] == '\r' then s[..|s| - 1] else s
  }

  /**
   * `str::lines`: split at each '\n', dropping a '\r' just before it; a
   * final line ending does not start another (empty) line.
   */
  function Lines(s: string): (r: seq<string>)
    ensures forall i :: 0 <= i < |r| ==> '\n' !in r[i]
    decreases |s|
  {
    if s == [] then []
    else
      var n := NewlineIndex(s);
      if n == |s| then [s]
      else
        assert '\n' !in StripCr(s[..n]);
        [StripCr(s[..n])] + Lines(s[n + 1..])
  }

  /** Each line followed by '\n': the text `str::lines` splits back apart. */
  function Terminated(lines: seq<string>): string {
    if lines == [] then [] else lines[0] + "\n" + Terminated(lines[1..])
  }

  /** `str::lines` undoes `Terminated` for lines that hold no newline and do not end in '\r'. */
  lemma {:induction false} LinesOfTerminated(lines: seq<string>)
    requires forall i :: 0 <= i < |lines| ==> '\n' !in lines[i] && (lines[i] == [] || lines[i][|lines[i]| - 1] != '\r')
    ensures Lines(Terminated(lines)) == lines
  {
    if lines != [] {
      var s := Terminated(lines);
      var l := lines[0];
      NewlineAfter(l, Terminated(lines[1..]));
      assert s[..|l|] == l;
      assert s[|l| + 1..] == Terminated(lines[1..]);
      LinesOfTerminated(lines[1..]);
    }
  }

  lemma NewlineAfter(l: string, rest: string)
    requires '\n' !in l
    ensures NewlineIndex(l + "\n" + rest) == |l|
  {
    var s := l + "\n" + rest;
    assert s[..|l|] == l;
    assert s[|l|] == '\n';
  }

  /** The split `display_synced_lyrics` prints: minutes, seconds within the minute, milliseconds within the second. */
  function SplitTimestamp(ts: nat): (r: (nat, nat, nat))
    ensures r.0 * 60000 + r.1 * 1000 + r.2 == ts
    ensures r.1 < 60 && r.2 < 1000
  {
    var minutes := ts / 60000;
    var rest := ts % 60000;
    var seconds := rest / 1000;
    var millis := ts % 1000;
    assert ts == minutes * 60000 + rest;
    assert rest == seconds * 1000 + rest % 1000;
    assert ts == (minutes * 60 + seconds) * 1000 + rest % 1000;
    assert millis == rest % 1000;
    (minutes, seconds, millis)
  }

  /** `format!("[{:02}:{:02}.{:03}] {}", minutes, seconds, millis, lyric)`. */
  function DisplayLine(ts: nat, lyric: string): string {
    var (minutes, seconds, millis) := SplitTimestamp(ts);
    "[" + (ZeroPad(minutes, 2) + ":" + (ZeroPad(seconds, 2) + "." + (ZeroPad(millis, 3) + "]" + (" " + lyric))))
  }

  lemma SplitTimestampFits(ts: nat)
    requires ts < U64_MODULUS
    ensures SplitTimestamp(ts).0 <= U64_MAX && SplitTimestamp(ts).1 <= U64_MAX && SplitTimestamp(ts).2 <= U64_MAX
    ensures Timestamp(SplitTimestamp(ts).0, SplitTimestamp(ts).1, SplitTimestamp(ts).2) == ts
  {
    var (minutes, seconds, millis) := SplitTimestamp(ts);
    assert minutes <= minutes * 60000 <= ts;
  }

  /** What the display loop prints for an entry, the unbucketed parse reads back as that entry. */
  lemma ParseDisplayLine(ts: nat, lyric: string)
    requires ts < U64_MODULUS
    requires CapturableText(lyric)
    ensures Classify(DisplayLine(ts, lyric)) == Entry(ts, lyric)
  {
    var (minutes, seconds, millis) := SplitTimestamp(ts);
    SplitTimestampFits(ts);
    var c := Captures(ZeroPad(minutes, 2), ZeroPad(seconds, 2), ZeroPad(millis, 3), lyric);
    assert DisplayLine(ts, lyric) == Tagged(c, " ");
    assert AllWhitespace(" ") by { assert IsWhitespace(" "[0]); }
    ParseZeroPad(minutes, 2, U64_MAX);
    ParseZeroPad(seconds, 2, U64_MAX);
    ParseZeroPad(millis, 3, U64_MAX);
    MatchTag(c, " ");
    ClassifyMatched(DisplayLine(ts, lyric), c, minutes, seconds, millis);
  }

  /** The line the display loop prints for a key of `m`. */
  function LineOf(m: LyricsMap): nat -> string {
    (k: nat) => DisplayLine(k, if k in m then m[k] else "")
  }

  /** The display line of each of `keys`, in order. */
  function DisplayLinesOf(keys: seq<nat>, m: LyricsMap): (r: seq<string>)
    requires forall i :: 0 <= i < |keys| ==> keys[i] in m
    ensures |r| == |keys|
  {
    Map(LineOf(m), keys)
  }

  lemma DisplayLinesOfAt(keys: seq<nat>, m: LyricsMap, i: nat)
    requires forall j :: 0 <= j < |keys| ==> keys[j] in m
    requires i < |keys|
    ensures DisplayLinesOf(keys, m)[i] == DisplayLine(keys[i], m[keys[i]])
  {
    MapAt(LineOf(m), keys, i);
  }

  /** The display lines of `a + b` are those of `a` followed by those of `b`. */
  lemma DisplayLinesOfAppend(a: seq<nat>, b: seq<nat>, m: LyricsMap)
    requires forall i :: 0 <= i < |a| ==> a[i] in m
    requires forall i :: 0 <= i < |b| ==> b[i] in m
    ensures forall i :: 0 <= i < |a + b| ==> (a + b)[i] in m
    ensures DisplayLinesOf(a + b, m) == DisplayLinesOf(a, m) + DisplayLinesOf(b, m)
  {
    MapAppend(LineOf(m), a, b);
  }

  /** Every entry of `m`, in ascending timestamp order, as the display loop prints it. */
  function DisplayLines(m: LyricsMap): (r: seq<string>)
    ensures |r| == |m.Keys|
  {
    DisplayLinesOf(SortedKeys(m.Keys), m)
  }

  /** Line `i` of the printout is the `i`-th smallest key with its text. */
  lemma DisplayLineAt(m: LyricsMap, i: nat)
    requires i < |m.Keys|
    ensures SortedKeys(m.Keys)[i] in m
    ensures DisplayLines(m)[i] == DisplayLine(SortedKeys(m.Keys)[i], m[SortedKeys(m.Keys)[i]])
  {
    DisplayLinesOfAt(SortedKeys(m.Keys), m, i);
  }

  /** Applying entries that agree with `m` builds the part of `m` on their keys. */
  lemma {:induction false} ApplyEntries(outcomes: seq<LineOutcome>, keys: seq<nat>, m: LyricsMap, n: nat)
    requires |outcomes| == |keys| && n <= |keys|
    requires forall i :: 0 <= i < |keys| ==> keys[i] in m && outcomes[i] == Entry(keys[i], m[keys[i]])
    ensures Apply(outcomes[..n], false).Some?
    ensures forall k :: k in Apply(outcomes[..n], false).value <==> k in keys[..n]
    ensures forall k :: k in Apply(outcomes[..n], false).value ==> Apply(outcomes[..n], false).value[k] == m[k]
  {
    if n > 0 {
      ApplyEntries(outcomes, keys, m, n - 1);
      var prefix := outcomes[..n];
      assert prefix[..n - 1] == outcomes[..n - 1];
      assert prefix[n - 1] == Entry(keys[n - 1], m[keys[n - 1]]);
      assert keys[..n] == keys[..n - 1] + [keys[n - 1]];
    } else {
      assert outcomes[..0] == [];
    }
  }

  lemma DisplayedEntry(m: LyricsMap, i: nat)
    requires forall k :: k in m ==> k < U64_MODULUS && CapturableText(m[k])
    requires i < |m.Keys|
    ensures SortedKeys(m.Keys)[i] in m
    ensures Classify(DisplayLines(m)[i]) == Entry(SortedKeys(m.Keys)[i], m[SortedKeys(m.Keys)[i]])
  {
    var k := SortedKeys(m.Keys)[i];
    DisplayLineAt(m, i);
    ParseDisplayLine(k, m[k]);
  }

  lemma DisplayOutcomes(m: LyricsMap)
    requires forall k :: k in m ==> k < U64_MODULUS && CapturableText(m[k])
    ensures |Outcomes(DisplayLines(m))| == |SortedKeys(m.Keys)|
    ensures forall i :: 0 <= i < |SortedKeys(m.Keys)| ==>
      SortedKeys(m.Keys)[i] in m && Outcomes(DisplayLines(m))[i] == Entry(SortedKeys(m.Keys)[i], m[SortedKeys(m.Keys)[i]])
  {
    OutcomesAt(DisplayLines(m));
    forall i | 0 <= i < |SortedKeys(m.Keys)|
      ensures SortedKeys(m.Keys)[i] in m && Outcomes(DisplayLines(m))[i] == Entry(SortedKeys(m.Keys)[i], m[SortedKeys(m.Keys)[i]])
    {
      DisplayedEntry(m, i);
    }
  }

  /** Applying one entry per key of `m`, each carrying its text in `m`, builds `m`. */
  lemma ApplyAllEntries(outcomes: seq<LineOutcome>, keys: seq<nat>, m: LyricsMap)
    requires |outcomes| == |keys|
    requires forall i :: 0 <= i < |keys| ==> keys[i] in m && outcomes[i] == Entry(keys[i], m[keys[i]])
    requires forall k :: k in m ==> k in keys
    ensures Apply(outcomes, false) == Some(m)
  {
    ApplyEntries(outcomes, keys, m, |keys|);
    assert outcomes[..|keys|] == outcomes;
    assert keys[..|keys|] == keys;
    var r := Apply(outcomes, false).value;
    forall k | k in m ensures k in r {
      assert k in keys[..|keys|];
    }
    assert r.Keys == m.Keys;
    assert r == m;
  }

  /** Printing a whole map and parsing the printout without bucketing gives the map back. */
  lemma ParseDisplayLines(m: LyricsMap)
    requires forall k :: k in m ==> k < U64_MODULUS && CapturableText(m[k])
    ensures ParseLines(DisplayLines(m), false) == Some(m)
  {
    DisplayOutcomes(m);
    SortedKeysCover(m.Keys);
    ApplyAllEntries(Outcomes(DisplayLines(m)), SortedKeys(m.Keys), m);
  }
}
