/** The command-line parser of the C++ front end (`parse_args` in
    src/main.cpp): a table of 27 options, each with a short and a long flag
    and possibly a typed value, read left to right into a map from option
    name to value in which the first occurrence of an option wins. */
module CppMain {
  import opened Wire
  import opened Text
  import Common

  // ---------------------------------------------------------------------------
  // The option table.

  /** The value types an option can take. */
  datatype ValueType = Int64Type | DoubleType | StringType

  /** `option_value<T>`: the type, the name shown in messages, and whether
      the value may be omitted. */
  datatype ValueSpec = ValueSpec(kind: ValueType, name: string, optional: bool)

  /** One row of `options`: the option's name, its short and long flags (an
      empty short flag means the option has none), and its value, if any.
      The description and the help category only matter to the help text. */
  datatype OptionSpec = OptionSpec(key: string, short: string, long: string, value: Option<ValueSpec>)

  function Flagged(key: string, short: string, long: string): OptionSpec {
    OptionSpec(key, short, long, None)
  }

  function Valued(key: string, short: string, long: string, kind: ValueType, name: string, optional: bool): OptionSpec {
    OptionSpec(key, short, long, Some(ValueSpec(kind, name, optional)))
  }

  /** The table of `parse_args`, by help category, in the program's order. */
  const Options: seq<OptionSpec> := GeneralOptions + PlayerOptions + TrackListOptions + MiscOptions

  const GeneralOptions: seq<OptionSpec> := [
    Flagged("next_player", "-N", "--next-player"),
    Flagged("previous_player", "-P", "--previous-player"),
    Valued("set_player", "", "--set-player", StringType, "Name", false),
    Flagged("raise", "-r", "--raise"),
    Flagged("quit", "-q", "--quit"),
    Valued("properties", "", "--properties", StringType, "Field", true)
  ]

  const PlayerOptions: seq<OptionSpec> := [
    Flagged("next", "-n", "--next"),
    Flagged("previous", "-p", "--previous"),
    Flagged("pause", "", "--pause"),
    Flagged("play", "", "--play"),
    Flagged("play_pause", "-t", "--play-pause"),
    Flagged("stop", "", "--stop"),
    Valued("seek", "-s", "--seek", Int64Type, "Microseconds", false),
    Valued("set_position", "-S", "--set-position", Int64Type, "Microseconds", false),
    Valued("open", "-o", "--open", StringType, "URI", false),
    Valued("set_volume", "-v", "--set-volume", DoubleType, "Volume", false),
    Valued("increment_volume", "-i", "--increment-volume", DoubleType, "Volume", false),
    Valued("decrement_volume", "-d", "--decrement-volume", DoubleType, "volume", false),
    Valued("metadata", "", "--metadata", StringType, "Field", true),
    Valued("player_properties", "", "--player-properties", StringType, "Field", true)
  ]

  const TrackListOptions: seq<OptionSpec> := [
    Valued("add_track", "", "--add-track", StringType, "URI", false),
    Valued("add_track_after", "", "--add-track-after", StringType, "ID", false),
    Valued("remove_track", "", "--remove-track", StringType, "ID", false),
    Valued("go_to_track", "", "--go-to-track", StringType, "ID", false),
    Valued("tracklist_properties", "", "--tracklist-properties", StringType, "Field", true)
  ]

  const MiscOptions: seq<OptionSpec> := [
    Flagged("version", "", "--version"),
    Flagged("help", "-h", "--help")
  ]

  /** The option names of a table, the keys the parsed map can hold. */
  function KeysOf(opts: seq<OptionSpec>): set<string> {
    set o | o in opts :: o.key
  }

  /** The lookup of the code: a flag selects an option when it equals its
      short or its long flag, so the empty text selects the first option
      without a short flag. */
  predicate MatchesAsWritten(o: OptionSpec, flag: string) {
    o.short == flag || o.long == flag
  }

  /** The lookup intended: an empty short flag stands for "no short flag"
      and selects nothing. */
  predicate Matches(o: OptionSpec, flag: string) {
    (o.short != "" && o.short == flag) || o.long == flag
  }

  /** `std::ranges::find_if` over `options` with the code's test. */
  function FlagIndexAsWritten(opts: seq<OptionSpec>, flag: string): (k: nat)
    ensures k <= |opts|
    ensures k < |opts| ==> MatchesAsWritten(opts[k], flag)
    ensures forall j :: 0 <= j < k ==> !MatchesAsWritten(opts[j], flag)
    decreases |opts|
  {
    if opts == [] then 0 else if MatchesAsWritten(opts[0], flag) then 0 else 1 + FlagIndexAsWritten(opts[1..], flag)
  }

  /** The same search with the intended test: the first option whose flag
      is `flag`, or `|opts|` when there is none. */
  function FlagIndex(opts: seq<OptionSpec>, flag: string): (k: nat)
    ensures k <= |opts|
    ensures k < |opts| ==> Matches(opts[k], flag)
    ensures forall j :: 0 <= j < k ==> !Matches(opts[j], flag)
    decreases |opts|
  {
    if opts == [] then 0 else if Matches(opts[0], flag) then 0 else 1 + FlagIndex(opts[1..], flag)
  }

  /** As written, an empty argument (or one starting with `=`) is taken for
      `--set-player`, the first option without a short flag. */
  lemma EmptyFlagSelectsSetPlayer()
    ensures FlagIndexAsWritten(Options, "") == SetPlayerIndex
  {
    assert MatchesAsWritten(Options[2], "");
    assert !MatchesAsWritten(Options[0], "") && !MatchesAsWritten(Options[1], "");
  }

  /** The row of `--set-player`. */
  const SetPlayerIndex := 2

  lemma SetPlayerRow()
    ensures Options[SetPlayerIndex].key == "set_player" && Options[SetPlayerIndex].long == "--set-player"
  {
  }

  /** Every option of the table has a long flag. */
  lemma LongFlagsPresent()
    ensures forall j :: 0 <= j < |Options| ==> Options[j].long != ""
  {
  }

  /** With the intended lookup the empty text is not a valid option. */
  lemma EmptyFlagRejected()
    ensures FlagIndex(Options, "") == |Options|
  {
    LongFlagsPresent();
  }

  /** The two lookups agree on every non-empty flag. */
  lemma {:induction false} FlagIndexAgrees(opts: seq<OptionSpec>, flag: string)
    requires flag != ""
    ensures FlagIndex(opts, flag) == FlagIndexAsWritten(opts, flag)
    decreases |opts|
  {
    if opts != [] {
      FlagIndexAgrees(opts[1..], flag);
    }
  }

  // ---------------------------------------------------------------------------
  // Splitting `--flag=value`.

  /** An argument split at `=` into the flag and the given value: the text
      before the first `=`, and the segment after it up to the next `=`.
      Without `=` the whole argument is the flag and the value is empty. */
  function SplitAssignment(arg: string): (parts: (string, string))
    ensures parts.0 <= arg
    ensures '=' in arg <==> |parts.0| < |arg|
  {
    if '=' in arg then
      var k := Common.IndexOf(arg, '=');
      var rest := arg[k + 1..];
      (arg[..k], rest[..Common.IndexOf(rest, '=')])
    else
      (arg, "")
  }

  /** The split characterised: neither part holds `=`, the argument starts
      with the flag, `=`, the value, and what follows the value (if
      anything) starts with another `=`. */
  lemma SplitAssignmentParts(arg: string)
    ensures '=' !in arg ==> SplitAssignment(arg) == (arg, "")
    ensures '=' !in SplitAssignment(arg).0 && '=' !in SplitAssignment(arg).1
    ensures '=' in arg ==> SplitAssignment(arg).0 + "=" + SplitAssignment(arg).1 <= arg
    ensures '=' in arg ==> var n := |SplitAssignment(arg).0| + 1 + |SplitAssignment(arg).1|;
      n == |arg| || arg[n] == '='
  {
    if '=' in arg {
      var k := Common.IndexOf(arg, '=');
      var rest := arg[k + 1..];
      var m := Common.IndexOf(rest, '=');
      assert SplitAssignment(arg) == (arg[..k], rest[..m]);
      BeforeIndexOf(arg, '=');
      BeforeIndexOf(rest, '=');
      AssignmentPrefix(arg, k, m);
    }
  }

  /** The flag, `=` and the value, cut at positions `k` and `k + 1 + m`,
      are a prefix of the argument. */
  lemma AssignmentPrefix(arg: string, k: nat, m: nat)
    requires k < |arg| && arg[k] == '='
    requires m <= |arg| - k - 1
    ensures arg[..k] + "=" + arg[k + 1..][..m] == arg[..k + 1 + m]
  {
    assert arg[..k] + "=" == arg[..k + 1];
    assert arg[k + 1..][..m] == arg[k + 1..k + 1 + m];
    assert arg[..k + 1] + arg[k + 1..k + 1 + m] == arg[..k + 1 + m];
  }

  /** The text before the first `c` holds no `c`. */
  lemma BeforeIndexOf(s: string, c: char)
    ensures c !in s[..Common.IndexOf(s, c)]
  {
    var k := Common.IndexOf(s, c);
    forall j | 0 <= j < k ensures s[..k][j] != c {
      assert s[..k][j] == s[j];
    }
  }

  // ---------------------------------------------------------------------------
  // Reading values.

  /** `std::from_chars` into an `int64_t`: an optional minus sign and at
      least one digit at the start of the text (anything after them is
      ignored); no digits, or a value outside the 64-bit range, is an
      error. */
  function FromChars(s: string): (r: Option<int>)
    ensures r.Some? ==> Int64Min <= r.value <= Int64Max
  {
    var negative := s != [] && s[0] == '-';
    var digits := LeadingDigits(if negative then s[1..] else s);
    if digits == [] then None
    else
      var n: int := if negative then 0 - DigitsValue(digits) else DigitsValue(digits);
      if Int64Min <= n <= Int64Max then Some(n) else None
  }

  /** Reading back the decimal text of any 64-bit integer gives it again,
      whatever non-digit text follows. */
  lemma FromCharsIntToString(n: int, rest: string)
    requires Int64Min <= n <= Int64Max
    requires rest == [] || !IsDigit(rest[0])
    ensures FromChars(IntToString(n) + rest) == Some(n)
  {
    if n < 0 {
      FromCharsNegative(-n, rest);
    } else {
      FromCharsNatural(n, rest);
    }
  }

  lemma FromCharsNatural(m: nat, rest: string)
    requires m <= Int64Max
    requires rest == [] || !IsDigit(rest[0])
    ensures FromChars(NatToString(m) + rest) == Some(m)
  {
    var s := NatToString(m) + rest;
    LeadingDigitsOfNat(m, rest);
    NatToStringValue(m);
    FromCharsOfDigits(s, NatToString(m), false);
  }

  lemma FromCharsNegative(m: nat, rest: string)
    requires 0 < m <= -Int64Min
    requires rest == [] || !IsDigit(rest[0])
    ensures FromChars("-" + NatToString(m) + rest) == Some(-(m as int))
  {
    var d := NatToString(m);
    var s := "-" + d + rest;
    assert s[0] == '-';
    assert s[1..] == d + rest;
    LeadingDigitsOfNat(m, rest);
    NatToStringValue(m);
    assert Signed(DigitsValue(d), true) == -(m as int);
    FromCharsOfDigits(s, d, true);
  }

  /** What `FromChars` reads from a text with a known sign and a known
      run of leading digits `d`. */
  lemma FromCharsOfDigits(s: string, d: string, negative: bool)
    requires d != [] && forall i :: 0 <= i < |d| ==> IsDigit(d[i])
    requires negative <==> s != [] && s[0] == '-'
    requires LeadingDigits(if negative then s[1..] else s) == d
    requires Int64Min <= Signed(DigitsValue(d), negative) <= Int64Max
    ensures FromChars(s) == Some(Signed(DigitsValue(d), negative))
  {
  }

  function Signed(m: nat, negative: bool): int {
    if negative then 0 - m else m
  }

  /** A parsed value: `std::monostate` when the option was given without
      one, or the value of the option's type. */
  datatype Value = NoValue | IntValue(i: int) | RealValue(r: real) | TextValue(s: string)

  type Parsed = map<string, Value>

  function NotAnOptionMessage(flag: string): string {
    "'" + flag + "' is not a valid option"
  }

  function UnexpectedValueMessage(flag: string): string {
    "option '" + flag + "' does not expect a value"
  }

  function MissingValueMessage(flag: string, name: string): string {
    "option '" + flag + "' expects value '" + name + "'"
  }

  function InvalidValueMessage(text: string, flag: string): string {
    "'" + text + "' is not a valid value for " + flag
  }

  /** The conversion of a non-empty value text to the option's type.
      `std::stod` is not modelled: `parseDouble` stands for it, None for the
      exception it throws. */
  function Convert(spec: ValueSpec, text: string, flag: string, parseDouble: string -> Option<real>): (r: Reply<Value>)
    ensures r.Err? ==> r.message == InvalidValueMessage(text, flag)
    ensures r.Ok? && spec.kind == Int64Type ==> r.value.IntValue? && FromChars(text) == Some(r.value.i)
    ensures r.Ok? && spec.kind == StringType ==> r.value == TextValue(text)
  {
    match spec.kind
    case Int64Type =>
      (match FromChars(text)
       case Some(n) => Ok(IntValue(n))
       case None => Err(InvalidValueMessage(text, flag)))
    case DoubleType =>
      (match parseDouble(text)
       case Some(x) => Ok(RealValue(x))
       case None => Err(InvalidValueMessage(text, flag)))
    case StringType => Ok(TextValue(text))
  }

  // ---------------------------------------------------------------------------
  // One iteration of the loop, and the whole parse.

  /** The outcome of one iteration: the option read, its value, and where
      the next iteration starts. */
  datatype Step = Step(key: string, value: Value, next: nat)

  /** The value an option with a value receives: the given value if it is
      non-empty, else the next argument when there is one that does not
      start with `-` (it is consumed), else nothing, which is an error
      unless the value is optional. An empty text gives `NoValue`. */
  function TakeValue(args: seq<string>, j: nat, key: string, flag: string, given: string, spec: ValueSpec,
                     parseDouble: string -> Option<real>): (r: Reply<Step>)
    requires 0 < j <= |args|
    ensures r.Ok? ==> r.value.key == key
    ensures given != "" ==> r.Ok? || r.message == InvalidValueMessage(given, flag)
    ensures given != "" && r.Ok? ==> r.value.next == j
    ensures given == "" && j < |args| && !("-" <= args[j]) ==> r.Err? || r.value.next == j + 1
    ensures given == "" && (j == |args| || "-" <= args[j]) ==>
      if spec.optional then r == Ok(Step(key, NoValue, j)) else r == Err(MissingValueMessage(flag, spec.name))
    ensures given != "" ==> (r.Err? <==> Convert(spec, given, flag, parseDouble).Err?)
    ensures given != "" && r.Ok? ==> Ok(r.value.value) == Convert(spec, given, flag, parseDouble)
    ensures given == "" && j < |args| && !("-" <= args[j]) && args[j] != "" ==>
      (r.Err? <==> Convert(spec, args[j], flag, parseDouble).Err?)
    ensures given == "" && j < |args| && !("-" <= args[j]) && args[j] != "" && r.Ok? ==>
      Ok(r.value.value) == Convert(spec, args[j], flag, parseDouble)
    ensures given == "" && j < |args| && args[j] == "" ==> r == Ok(Step(key, NoValue, j + 1))
  {
    var (text, next) :=
      if given != "" then (given, j)
      else if j < |args| && !("-" <= args[j]) then (args[j], j + 1)
      else ("", j);
    if text == "" && next == j && given == "" && !spec.optional then Err(MissingValueMessage(flag, spec.name))
    else if text == "" then Ok(Step(key, NoValue, next))
    else
      match Convert(spec, text, flag, parseDouble)
      case Err(m) => Err(m)
      case Ok(v) => Ok(Step(key, v, next))
  }

  /** The body of the loop of `parse_args` for the argument at `i`, with
      `opts` as the option table. The flag is looked up as the code does
      (`FlagIndexAsWritten`), so an empty flag part selects the first
      option without a short flag. */
  function ParseStep(opts: seq<OptionSpec>, args: seq<string>, i: nat, parseDouble: string -> Option<real>): (r: Reply<Step>)
    requires i < |args|
    ensures r.Ok? ==> i < r.value.next <= i + 2 && r.value.next <= |args|
    ensures r.Ok? ==> r.value.key in KeysOf(opts)
    ensures FlagIndexAsWritten(opts, SplitAssignment(args[i]).0) == |opts|
      ==> r == Err(NotAnOptionMessage(SplitAssignment(args[i]).0))
    ensures var k := FlagIndexAsWritten(opts, SplitAssignment(args[i]).0);
      k < |opts| && opts[k].value.None? ==>
        if SplitAssignment(args[i]).1 != "" then r == Err(UnexpectedValueMessage(SplitAssignment(args[i]).0))
        else r == Ok(Step(opts[k].key, NoValue, i + 1))
    ensures var k := FlagIndexAsWritten(opts, SplitAssignment(args[i]).0);
      k < |opts| && opts[k].value.Some? ==>
        r == TakeValue(args, i + 1, opts[k].key, SplitAssignment(args[i]).0, SplitAssignment(args[i]).1,
                       opts[k].value.value, parseDouble)
  {
    var (flag, given) := SplitAssignment(args[i]);
    var k := FlagIndexAsWritten(opts, flag);
    if k == |opts| then Err(NotAnOptionMessage(flag))
    else
      var opt := opts[k];
      if opt.value.None? then
        if given != "" then Err(UnexpectedValueMessage(flag)) else Ok(Step(opt.key, NoValue, i + 1))
      else
        TakeValue(args, i + 1, opt.key, flag, given, opt.value.value, parseDouble)
  }

  /** Keep the first value recorded for an option (`emplace`). */
  function Record(acc: Parsed, key: string, v: Value): Parsed {
    if key in acc then acc else acc[key := v]
  }

  /** The parse of `args[i..]` on top of the options already recorded. */
  function ParseFrom(opts: seq<OptionSpec>, args: seq<string>, i: nat, acc: Parsed, parseDouble: string -> Option<real>): Reply<Parsed>
    requires i <= |args|
    decreases |args| - i
  {
    if i == |args| then Ok(acc)
    else
      match ParseStep(opts, args, i, parseDouble)
      case Err(m) => Err(m)
      case Ok(st) => ParseFrom(opts, args, st.next, Record(acc, st.key, st.value), parseDouble)
  }

  /** The parse of the whole command line against the program's table. */
  function Parse(args: seq<string>, parseDouble: string -> Option<real>): Reply<Parsed> {
    ParseFrom(Options, args, 0, map[], parseDouble)
  }

  /** Once recorded, an option keeps its value to the end of the parse:
      later occurrences do not overwrite it. */
  lemma {:induction false} FirstOccurrenceWins(opts: seq<OptionSpec>, args: seq<string>, i: nat, acc: Parsed,
                                               parseDouble: string -> Option<real>)
    requires i <= |args|
    ensures ParseFrom(opts, args, i, acc, parseDouble).Ok? ==>
      forall key :: key in acc ==> (key in ParseFrom(opts, args, i, acc, parseDouble).value
        && ParseFrom(opts, args, i, acc, parseDouble).value[key] == acc[key])
    decreases |args| - i
  {
    if i < |args| {
      var st := ParseStep(opts, args, i, parseDouble);
      if st.Ok? {
        FirstOccurrenceWins(opts, args, st.value.next, Record(acc, st.value.key, st.value.value), parseDouble);
      }
    }
  }

  /** Every key of a successful parse names an option of the table. */
  lemma {:induction false} ParsedKeysAreOptions(opts: seq<OptionSpec>, args: seq<string>, i: nat, acc: Parsed,
                                                parseDouble: string -> Option<real>)
    requires i <= |args|
    requires acc.Keys <= KeysOf(opts)
    ensures ParseFrom(opts, args, i, acc, parseDouble).Ok? ==> ParseFrom(opts, args, i, acc, parseDouble).value.Keys <= KeysOf(opts)
    decreases |args| - i
  {
    if i < |args| {
      var st := ParseStep(opts, args, i, parseDouble);
      if st.Ok? {
        ParsedKeysAreOptions(opts, args, st.value.next, Record(acc, st.value.key, st.value.value), parseDouble);
      }
    }
  }

  /** An unknown flag anywhere the parse reaches ends it with the message
      naming that flag, whatever came before. */
  lemma UnknownFlagRejected(opts: seq<OptionSpec>, args: seq<string>, i: nat, acc: Parsed, parseDouble: string -> Option<real>)
    requires i < |args|
    requires FlagIndexAsWritten(opts, SplitAssignment(args[i]).0) == |opts|
    ensures ParseFrom(opts, args, i, acc, parseDouble) == Err(NotAnOptionMessage(SplitAssignment(args[i]).0))
  {
  }

  /** As written, `=vlc`, an empty flag carrying a value, selects the
      player "vlc", where the intended lookup rejects the empty flag
      (`EmptyFlagRejected`). */
  lemma EmptyAssignmentSetsPlayer(parseDouble: string -> Option<real>)
    ensures Parse(["=vlc"], parseDouble) == Ok(map["set_player" := TextValue("vlc")])
  {
    EmptyFlagSelectsSetPlayer();
    assert SplitAssignment("=vlc") == ("", "vlc") by {
      assert "=vlc"[0] == '=';
      assert Common.IndexOf("=vlc", '=') == 0;
      assert "=vlc"[1..] == "vlc";
      assert Common.IndexOf("vlc", '=') == 3;
      assert "vlc"[..3] == "vlc";
    }
    assert ParseStep(Options, ["=vlc"], 0, parseDouble) == Ok(Step("set_player", TextValue("vlc"), 1));
  }

  /** Likewise an empty argument followed by `vlc`. */
  lemma EmptyArgumentSetsPlayer(parseDouble: string -> Option<real>)
    ensures Parse(["", "vlc"], parseDouble) == Ok(map["set_player" := TextValue("vlc")])
  {
    EmptyFlagSelectsSetPlayer();
    assert SplitAssignment("") == ("", "");
    assert !("-" <= "vlc") by {
      assert "vlc"[0] != '-';
    }
    assert TakeValue(["", "vlc"], 1, "set_player", "", "", Options[SetPlayerIndex].value.value, parseDouble)
      == Ok(Step("set_player", TextValue("vlc"), 2));
    assert ParseStep(Options, ["", "vlc"], 0, parseDouble) == Ok(Step("set_player", TextValue("vlc"), 2));
  }

  /** `-s` is the short flag of `seek`, row 12 of the table. */
  lemma SeekRow()
    ensures FlagIndexAsWritten(Options, "-s") == 12 && Options[12].key == "seek"
    ensures Options[12].value == Some(ValueSpec(Int64Type, "Microseconds", false))
  {
    forall j | 0 <= j < 12
      ensures !MatchesAsWritten(Options[j], "-s")
    {
    }
    assert MatchesAsWritten(Options[12], "-s");
  }

  /** The text after an option is converted to the option's type and
      recorded under the option's name: `-s 42` seeks by 42. */
  lemma SeekValueRecorded(parseDouble: string -> Option<real>)
    ensures Parse(["-s", "42"], parseDouble) == Ok(map["seek" := IntValue(42)])
  {
    SeekRow();
    assert SplitAssignment("-s") == ("-s", "");
    assert !("-" <= "42") by {
      assert "42"[0] != '-';
    }
    assert FromChars("42") == Some(42) by {
      assert NatToString(42) == NatToString(4) + [DigitChar(2)] == "42";
      FromCharsIntToString(42, "");
      assert IntToString(42) + "" == "42";
    }
    assert ParseStep(Options, ["-s", "42"], 0, parseDouble) == Ok(Step("seek", IntValue(42), 2));
  }

  /** A value that is no integer ends the parse with the message naming the
      value and the flag, and the `=` form is read the same way. */
  lemma SeekValueRejected(parseDouble: string -> Option<real>)
    ensures Parse(["-s=x"], parseDouble) == Err(InvalidValueMessage("x", "-s"))
  {
    SeekRow();
    assert SplitAssignment("-s=x") == ("-s", "x") by {
      assert "-s=x"[2] == '=';
      assert "-s=x"[1..] == "s=x" && "s=x"[1..] == "=x";
      assert Common.IndexOf("=x", '=') == 0;
      assert Common.IndexOf("-s=x", '=') == 2;
      assert "-s=x"[3..] == "x" && "x"[1..] == [];
      assert Common.IndexOf("x", '=') == 1;
      assert "-s=x"[..2] == "-s" && "x"[..1] == "x";
    }
    assert FromChars("x") == None by {
      assert LeadingDigits("x") == "";
    }
  }

  /** The value part of the loop body for an option that takes a value;
      `j` is the position after the option's own argument. */
  method ReadValue(args: seq<string>, j: nat, key: string, flag: string, given: string, spec: ValueSpec,
                   parseDouble: string -> Option<real>) returns (r: Reply<Step>)
    requires 0 < j <= |args|
    ensures r == TakeValue(args, j, key, flag, given, spec, parseDouble)
  {
    var next := j;
    var text := "";
    if given != "" {
      text := given;
    } else if j < |args| && !("-" <= args[j]) {
      text := args[j];
      next := j + 1;
    } else if !spec.optional {
      return Err(MissingValueMessage(flag, spec.name));
    }
    var value := NoValue;
    if text != "" {
      var c := Convert(spec, text, flag, parseDouble);
      if c.Err? {
        return Err(c.message);
      }
      value := c.value;
    }
    return Ok(Step(key, value, next));
  }

  /** One iteration of the loop of `parse_args`: split the argument, look
      the flag up, and read its value. */
  method ReadOption(opts: seq<OptionSpec>, args: seq<string>, i: nat, parseDouble: string -> Option<real>)
    returns (r: Reply<Step>)
    requires i < |args|
    ensures r == ParseStep(opts, args, i, parseDouble)
  {
    var arg := args[i];
    var given := "";
    if '=' in arg {
      arg, given := SplitAssignment(arg).0, SplitAssignment(arg).1;
    }
    var k := FlagIndexAsWritten(opts, arg);
    if k == |opts| {
      return Err(NotAnOptionMessage(arg));
    }
    var opt := opts[k];
    if opt.value.None? {
      if given != "" {
        return Err(UnexpectedValueMessage(arg));
      }
      return Ok(Step(opt.key, NoValue, i + 1));
    }
    r := ReadValue(args, i + 1, opt.key, arg, given, opt.value.value, parseDouble);
  }

  /** `parse_args`: the loop over the arguments, advancing one argument per
      flag and one more when it consumes the next argument as the value;
      the first value read for an option is the one kept. */
  method ParseArgs(args: seq<string>, parseDouble: string -> Option<real>) returns (r: Reply<Parsed>)
    ensures r == Parse(args, parseDouble)
  {
    var opts := Options;
    var result: Parsed := map[];
    var i := 0;
    while i < |args|
      invariant 0 <= i <= |args|
      invariant ParseFrom(opts, args, i, result, parseDouble) == Parse(args, parseDouble)
      decreases |args| - i
    {
      var step := ReadOption(opts, args, i, parseDouble);
      if step.Err? {
        return Err(step.message);
      }
      var st := step.value;
      if st.key !in result {
        result := result[st.key := st.value];
      }
      i := st.next;
    }
    return Ok(result);
  }
}
