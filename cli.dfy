/**
 * `src/cli/mod.rs`: the console prompts. `get_user_input` trims the line
 * read; `present_options` prints a numbered list and picks the option whose
 * 1-based number the user typed. Reading stdin and printing are modelled by
 * their data: the line read is a parameter, the printed lines a result.
 */
module Cli {
  import opened Wrappers
  import opened Text

  datatype CliOption = CliOption(title: string, artist: Option<string>, id: string)

  /**
   * `get_user_input`: the line read with its surrounding whitespace (the
   * line break included) removed; nothing else of it is dropped.
   */
  function GetUserInput(line: string): (r: string)
    ensures r == [] || (!IsWhitespace(r[0]) && !IsWhitespace(r[|r| - 1]))
    ensures r == [] <==> forall i :: 0 <= i < |line| ==> IsWhitespace(line[i])
    ensures var lo := SpacePrefixLength(line);
            r != [] ==> lo + |r| <= |line| && line[lo..lo + |r|] == r
                        && (forall i :: 0 <= i < lo ==> IsWhitespace(line[i]))
                        && (forall i :: lo + |r| <= i < |line| ==> IsWhitespace(line[i]))
  {
    Trim(line)
  }

  /** The line `present_options` prints for option `index`: its number from 1, its title, and " by " and the artist when there is one. */
  function OptionLine(index: nat, option: CliOption): string {
    var artistStr := if option.artist.Some? then " by " + option.artist.value else "";
    Decimal(index + 1) + ". " + option.title + artistStr
  }

  /** The option chosen by `input`: the `k`-th, when the trimmed input parses as a `usize` `k` with `1 <= k <= |options|`. */
  function Selection(options: seq<CliOption>, input: string): Option<CliOption> {
    match ParseUnsigned(Trim(input), USIZE_MAX)
    case Some(k) => if 0 < k <= |options| then Some(options[k - 1]) else None
    case None => None
  }

  /** `present_options`: print every option's line in list order, then pick the option the input names. */
  method PresentOptions(options: seq<CliOption>, input: string) returns (printed: seq<string>, chosen: Option<CliOption>)
    ensures |printed| == |options|
    ensures forall i :: 0 <= i < |options| ==> printed[i] == OptionLine(i, options[i])
    ensures chosen == Selection(options, input)
  {
    printed := [];
    var index := 0;
    while index < |options|
      invariant index <= |options| && |printed| == index
      invariant forall i :: 0 <= i < index ==> printed[i] == OptionLine(i, options[i])
    {
      var option := options[index];
      var artistStr := "";
      if option.artist.Some? {
        artistStr := " by " + option.artist.value;
      }
      printed := printed + [Decimal(index + 1) + ". " + option.title + artistStr];
      index := index + 1;
    }
    var parsed := ParseUnsigned(Trim(input), USIZE_MAX);
    if parsed.Some? {
      var k := parsed.value;
      if k > 0 && k <= |options| {
        return printed, Some(options[k - 1]);
      }
    }
    return printed, None;
  }

  /** An option is chosen exactly when the trimmed input is a number between 1 and the number of options, and it is the option with that number. */
  lemma SelectionIff(options: seq<CliOption>, input: string)
    ensures Selection(options, input).Some? <==> exists k :: 0 < k <= |options| && ParseUnsigned(Trim(input), USIZE_MAX) == Some(k)
    ensures Selection(options, input).Some? ==> Selection(options, input).value == options[ParseUnsigned(Trim(input), USIZE_MAX).value - 1]
  {
  }

  /** Zero, a number past the end, and anything that is not a number choose nothing. */
  lemma NothingChosen(options: seq<CliOption>, input: string)
    ensures ParseUnsigned(Trim(input), USIZE_MAX) == Some(0) ==> Selection(options, input) == None
    ensures ParseUnsigned(Trim(input), USIZE_MAX).Some? && ParseUnsigned(Trim(input), USIZE_MAX).value > |options| ==> Selection(options, input) == None
    ensures ParseUnsigned(Trim(input), USIZE_MAX).None? ==> Selection(options, input) == None
  {
  }

  /** Option lines are numbered from 1 in list order: each line starts with its number, which reads back as `index + 1`, then ". " and the title. */
  lemma OptionLineNumber(index: nat, option: CliOption)
    requires index < USIZE_MAX
    ensures var n := Decimal(index + 1);
            OptionLine(index, option)[..|n| + 2 + |option.title|] == n + ". " + option.title
            && ParseUnsigned(n, USIZE_MAX) == Some(index + 1)
  {
    var n := Decimal(index + 1);
    DecimalValue(index + 1);
    assert n[0] != '+';
  }

  /** Typing the number printed on an option's line (and pressing Enter) chooses that option. */
  lemma TypedNumberChoosesLine(options: seq<CliOption>, index: nat)
    requires index < |options| <= USIZE_MAX
    ensures Selection(options, Decimal(index + 1) + "\n") == Some(options[index])
  {
    var n := Decimal(index + 1);
    var typed := n + "\n";
    TrimDigitsLine(n);
    DecimalValue(index + 1);
    assert n[0] != '+';
  }

  /** Trimming a run of digits followed by a line break leaves the digits. */
  lemma TrimDigitsLine(n: string)
    requires n != [] && AllDigits(n)
    ensures Trim(n + "\n") == n
  {
    var s := n + "\n";
    assert !IsWhitespace(s[0]);
    assert SpacePrefixLength(s) == 0;
    assert s[..|s| - 1] == n;
    assert !IsWhitespace(n[|n| - 1]);
    assert SpaceSuffixLength(n) == 0;
    assert SpaceSuffixLength(s) == 1;
    assert s[0..|s| - 1] == n;
  }
}
