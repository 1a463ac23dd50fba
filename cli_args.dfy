/**
 * The argument vector handed to the reporting tool for one heartbeat, and
 * the quoting applied to its free-text values.
 */
module CliArgs {
  import opened Wrappers
  import opened Text
  import opened Heartbeats

  // ---------------------------------------------------------------------
  // Quoting

  /** The characters that make an argument need quoting. */
  predicate IsSpecial(c: char) {
    c == ' ' || c == '\t' || c == '"' || c == '\\'
  }

  predicate HasSpecial(arg: string) {
    exists i :: 0 <= i < |arg| && IsSpecial(arg[i])
  }

  /** Scans the argument and stops at the first character that needs quoting. */
  method NeedsQuoting(arg: string) returns (b: bool)
    ensures b <==> exists i :: 0 <= i < |arg| && IsSpecial(arg[i])
  {
    for i := 0 to |arg|
      invariant forall k :: 0 <= k < i ==> !IsSpecial(arg[k])
    {
      if IsSpecial(arg[i]) {
        return true;
      }
    }
    return false;
  }

  /** Every double quote preceded by a backslash; backslashes are left as they are. */
  function EscapeQuotes(s: string): (r: string)
    ensures |r| == |s| + Count(s, '"')
    ensures r != [] ==> r[0] != '"'
  {
    if s == [] then []
    else (if s[0] == '"' then ['\\', '"'] else [s[0]]) + EscapeQuotes(s[1..])
  }

  /** Reads `\"` back as `"`; every other character stands for itself. */
  function UnescapeQuotes(t: string): string {
    if |t| >= 2 && t[0] == '\\' && t[1] == '"' then ['"'] + UnescapeQuotes(t[2..])
    else if t == [] then []
    else [t[0]] + UnescapeQuotes(t[1..])
  }

  lemma {:induction false} UnescapeEscape(s: string)
    ensures UnescapeQuotes(EscapeQuotes(s)) == s
  {
    if s != [] {
      var rest := EscapeQuotes(s[1..]);
      UnescapeEscape(s[1..]);
      if s[0] == '"' {
        assert EscapeQuotes(s) == ['\\', '"'] + rest;
        assert (['\\', '"'] + rest)[2..] == rest;
      } else {
        assert EscapeQuotes(s) == [s[0]] + rest;
        assert ([s[0]] + rest)[1..] == rest;
      }
    }
  }

  /** Removes the quoting that QuoteArg adds: the reference reader of a quoted argument. */
  function Unquote(t: string): string {
    if |t| >= 2 && t[0] == '"' && t[|t| - 1] == '"' then UnescapeQuotes(t[1..|t| - 1]) else t
  }

  /**
   * Wraps the argument in double quotes, with its double quotes escaped,
   * when it holds a space, tab, double quote or backslash.
   */
  function QuoteArg(arg: string): string {
    if HasSpecial(arg) then "\"" + EscapeQuotes(arg) + "\"" else arg
  }

  /**
   * The argument comes back unchanged exactly when it needs no quoting,
   * and Unquote always recovers it.
   */
  lemma QuoteArgRoundTrip(arg: string)
    ensures QuoteArg(arg) == arg <==> !HasSpecial(arg)
    ensures Unquote(QuoteArg(arg)) == arg
  {
    if HasSpecial(arg) {
      var e := EscapeQuotes(arg);
      var q := "\"" + e + "\"";
      assert q[1..|q| - 1] == e;
      UnescapeEscape(arg);
    } else if arg != [] {
      assert !IsSpecial(arg[0]);
    }
  }

  /** The quoted form: a double quote, the argument with `"` written `\"`, a double quote. */
  lemma QuotedForm(arg: string)
    requires HasSpecial(arg)
    ensures QuoteArg(arg) == ['"'] + EscapeQuotes(arg) + ['"']
    ensures |QuoteArg(arg)| == |arg| + Count(arg, '"') + 2
  {
  }

  // ---------------------------------------------------------------------
  // Flags and the argument vector

  /** The flags the reporting tool is given, in the order they are appended. */
  datatype Flag =
    | Entity | Time | Plugin | LineNo | CursorPos | LinesInFile
    | Category | AiLineChanges | HumanLineChanges | Key | ApiUrl
    | AlternateProject | ProjectFolder | Write | IsUnsavedEntity | LocalFile
  {
    function Text(): string {
      match this
      case Entity => "--entity"
      case Time => "--time"
      case Plugin => "--plugin"
      case LineNo => "--lineno"
      case CursorPos => "--cursorpos"
      case LinesInFile => "--lines-in-file"
      case Category => "--category"
      case AiLineChanges => "--ai-line-changes"
      case HumanLineChanges => "--human-line-changes"
      case Key => "--key"
      case ApiUrl => "--api-url"
      case AlternateProject => "--alternate-project"
      case ProjectFolder => "--project-folder"
      case Write => "--write"
      case IsUnsavedEntity => "--is-unsaved-entity"
      case LocalFile => "--local-file"
    }

    /** Flags that stand alone, without a value after them. */
    predicate IsSwitch() {
      this == Write || this == IsUnsavedEntity
    }

    /** Position of the flag in the order the builder appends flags. */
    function Rank(): nat {
      match this
      case Entity => 0
      case Time => 1
      case Plugin => 2
      case LineNo => 3
      case CursorPos => 4
      case LinesInFile => 5
      case Category => 6
      case AiLineChanges => 7
      case HumanLineChanges => 8
      case Key => 9
      case ApiUrl => 10
      case AlternateProject => 11
      case ProjectFolder => 12
      case Write => 13
      case IsUnsavedEntity => 14
      case LocalFile => 15
    }
  }

  /** Recognises a flag from its text. */
  function FlagOf(text: string): Option<Flag> {
    if text == "--entity" then Some(Entity)
    else if text == "--time" then Some(Time)
    else if text == "--plugin" then Some(Plugin)
    else if text == "--lineno" then Some(LineNo)
    else if text == "--cursorpos" then Some(CursorPos)
    else if text == "--lines-in-file" then Some(LinesInFile)
    else if text == "--category" then Some(Category)
    else if text == "--ai-line-changes" then Some(AiLineChanges)
    else if text == "--human-line-changes" then Some(HumanLineChanges)
    else if text == "--key" then Some(Key)
    else if text == "--api-url" then Some(ApiUrl)
    else if text == "--alternate-project" then Some(AlternateProject)
    else if text == "--project-folder" then Some(ProjectFolder)
    else if text == "--write" then Some(Write)
    else if text == "--is-unsaved-entity" then Some(IsUnsavedEntity)
    else if text == "--local-file" then Some(LocalFile)
    else None
  }

  lemma FlagOfText(f: Flag)
    ensures FlagOf(f.Text()) == Some(f)
  {
  }

  /** One entry of the argument vector: a lone flag, or a flag and its value. */
  datatype CliOption = Switch(flag: Flag) | Valued(flag: Flag, value: string)

  /** The words an option contributes to the argument vector. */
  function Words(o: CliOption): seq<string> {
    match o
    case Switch(f) => [f.Text()]
    case Valued(f, v) => [f.Text(), v]
  }

  function Flatten(opts: seq<CliOption>): (args: seq<string>)
    ensures |args| >= |opts|
  {
    if opts == [] then [] else Flatten(opts[..|opts| - 1]) + Words(opts[|opts| - 1])
  }

  lemma {:induction false} FlattenAppend(a: seq<CliOption>, b: seq<CliOption>)
    ensures Flatten(a + b) == Flatten(a) + Flatten(b)
  {
    if b == [] {
      assert a + b == a;
    } else {
      var b' := b[..|b| - 1];
      assert (a + b)[..|a + b| - 1] == a + b';
      FlattenAppend(a, b');
    }
  }

  /** Lone flags are exactly the switches. */
  ghost predicate WellFormed(opts: seq<CliOption>) {
    forall o :: o in opts ==> (o.Switch? <==> o.flag.IsSwitch())
  }

  /** Reads an argument vector back into options; None if a flag is unknown or lacks its value. */
  function Parse(args: seq<string>): Option<seq<CliOption>> {
    if args == [] then Some([])
    else match FlagOf(args[0])
      case None => None
      case Some(f) =>
        if f.IsSwitch() then
          match Parse(args[1..])
          case None => None
          case Some(rest) => Some([Switch(f)] + rest)
        else if |args| >= 2 then
          match Parse(args[2..])
          case None => None
          case Some(rest) => Some([Valued(f, args[1])] + rest)
        else None
  }

  /** The flat vector is unambiguous: parsing gives back the options, whatever their values. */
  lemma {:induction false} ParseFlatten(opts: seq<CliOption>)
    requires WellFormed(opts)
    ensures Parse(Flatten(opts)) == Some(opts)
  {
    if opts != [] {
      var o, rest := opts[0], opts[1..];
      FlagOfText(o.flag);
      assert WellFormed(rest) by {
        forall x | x in rest ensures x.Switch? <==> x.flag.IsSwitch() {
          assert x in opts;
        }
      }
      ParseFlatten(rest);
      assert opts == [o] + rest;
      FlattenAppend([o], rest);
      assert Flatten([o]) == Words(o);
      var args := Flatten(opts);
      match o
      case Switch(f) =>
        assert args[1..] == Flatten(rest);
      case Valued(f, v) =>
        assert args[2..] == Flatten(rest);
    }
  }

  // ---------------------------------------------------------------------
  // Options chosen flag by flag

  /** For each rank, the option to emit for the flag of that rank, or None to leave it out. */
  type Choice = nat -> Option<CliOption>

  /** Every chosen option carries the flag of its rank, with a value exactly when that flag is not a switch. */
  ghost predicate Consistent(choose: Choice) {
    forall k: nat :: choose(k).Some? ==>
      choose(k).value.flag.Rank() == k && (choose(k).value.Switch? <==> choose(k).value.flag.IsSwitch())
  }

  /** Number of flags the builder considers. */
  const FlagCount := 16

  /** The flag of each rank: the inverse of Rank. */
  function FlagOfRank(k: nat): (f: Flag)
    requires k < FlagCount
    ensures f.Rank() == k
  {
    if k == 0 then Entity else if k == 1 then Time else if k == 2 then Plugin
    else if k == 3 then LineNo else if k == 4 then CursorPos else if k == 5 then LinesInFile
    else if k == 6 then Category else if k == 7 then AiLineChanges
    else if k == 8 then HumanLineChanges else if k == 9 then Key else if k == 10 then ApiUrl
    else if k == 11 then AlternateProject else if k == 12 then ProjectFolder
    else if k == 13 then Write else if k == 14 then IsUnsavedEntity else LocalFile
  }

  lemma RankOfFlag(f: Flag)
    ensures f.Rank() < FlagCount && FlagOfRank(f.Rank()) == f
  {
  }

  function OptionList(o: Option<CliOption>): seq<CliOption> {
    match o
    case None => []
    case Some(x) => [x]
  }

  /** The words an optional option contributes. */
  function OptionWords(o: Option<CliOption>): seq<string> {
    match o
    case None => []
    case Some(x) => Words(x)
  }

  /** The options chosen for the flags of rank below `k`, in rank order. */
  function OptionsUpTo(k: nat, choose: Choice): seq<CliOption>
    requires k <= FlagCount
  {
    if k == 0 then []
    else
      var init := OptionsUpTo(k - 1, choose);
      init + OptionList(choose(k - 1))
  }

  /** The vector the builder holds once it has considered the flags of rank below `k`. */
  function ArgsUpTo(k: nat, choose: Choice): seq<string>
    requires k <= FlagCount
  {
    if k == 0 then []
    else
      var init := ArgsUpTo(k - 1, choose);
      init + OptionWords(choose(k - 1))
  }

  lemma FlattenSnoc(init: seq<CliOption>, o: Option<CliOption>)
    ensures Flatten(init + OptionList(o)) == Flatten(init) + OptionWords(o)
  {
    if o.None? {
      assert init + OptionList(o) == init;
    }
  }

  /** Appending the words of each chosen option in turn is flattening the chosen options. */
  lemma {:induction false} ArgsUpToFlatten(k: nat, choose: Choice)
    requires k <= FlagCount
    ensures ArgsUpTo(k, choose) == Flatten(OptionsUpTo(k, choose))
  {
    if k > 0 {
      ArgsUpToFlatten(k - 1, choose);
      FlattenSnoc(OptionsUpTo(k - 1, choose), choose(k - 1));
    }
  }

  /**
   * The options up to rank `k` are exactly the chosen options of the flags
   * below that rank.
   */
  lemma {:induction false} OptionsUpToMembers(k: nat, choose: Choice)
    requires k <= FlagCount
    requires Consistent(choose)
    ensures forall o :: o in OptionsUpTo(k, choose) ==> o.flag.Rank() < k && choose(o.flag.Rank()) == Some(o)
    ensures forall r: nat :: r < k && choose(r).Some? ==> choose(r).value in OptionsUpTo(k, choose)
  {
    if k > 0 {
      var init := OptionsUpTo(k - 1, choose);
      var t := OptionList(choose(k - 1));
      OptionsUpToMembers(k - 1, choose);
      assert OptionsUpTo(k, choose) == init + t;
      forall o: CliOption | o in init + t ensures o.flag.Rank() < k && choose(o.flag.Rank()) == Some(o) {
        if o !in init {
          assert choose(k - 1) == Some(o);
        }
      }
      forall r: nat | r < k && choose(r).Some? ensures choose(r).value in init + t {
        if r == k - 1 {
          assert t == [choose(r).value];
        }
      }
    }
  }

  /** Flags appear in strictly increasing rank: the builder's order, each flag at most once. */
  ghost predicate Ordered(opts: seq<CliOption>) {
    forall i, j :: 0 <= i < j < |opts| ==> opts[i].flag.Rank() < opts[j].flag.Rank()
  }

  lemma {:induction false} OptionsUpToOrdered(k: nat, choose: Choice)
    requires k <= FlagCount
    requires Consistent(choose)
    ensures Ordered(OptionsUpTo(k, choose))
  {
    if k > 0 {
      var s := OptionsUpTo(k - 1, choose);
      var t := OptionList(choose(k - 1));
      OptionsUpToOrdered(k - 1, choose);
      OptionsUpToMembers(k - 1, choose);
      var u: seq<CliOption> := s + t;
      forall i, j | 0 <= i < j < |u| ensures u[i].flag.Rank() < u[j].flag.Rank() {
        if j >= |s| {
          assert u[i] in s;
          assert u[j].flag.Rank() == k - 1;
        }
      }
    }
  }

  lemma PrefixKept(p: seq<string>, before: seq<string>, words: seq<string>)
    requires |p| <= |before| && before[..|p|] == p
    ensures |p| <= |before + words| && (before + words)[..|p|] == p
  {
    assert (before + words)[..|p|] == before[..|p|];
  }

  /** The vector considered up to a rank is a prefix of the vector considered up to a later one. */
  lemma {:induction false} ArgsUpToGrows(j: nat, k: nat, choose: Choice)
    requires j <= k <= FlagCount
    ensures |ArgsUpTo(j, choose)| <= |ArgsUpTo(k, choose)|
    ensures ArgsUpTo(k, choose)[..|ArgsUpTo(j, choose)|] == ArgsUpTo(j, choose)
  {
    var p := ArgsUpTo(j, choose);
    if j == k {
      assert p[..|p|] == p;
    } else {
      ArgsUpToGrows(j, k - 1, choose);
      PrefixKept(p, ArgsUpTo(k - 1, choose), OptionWords(choose(k - 1)));
    }
  }

  // ---------------------------------------------------------------------
  // The options of one heartbeat

  /**
   * Flag by flag, whether the vector for a heartbeat carries the flag and
   * with which value. The API key and URL come from the configuration
   * file; `timeText` is the event time already formatted in seconds with
   * three decimals. Only the entity, plugin, API settings, project fields
   * and local file are quoted; the category is passed as it is.
   */
  function OptionFor(f: Flag, hb: Heartbeat, apiKey: string, apiUrl: string, timeText: string): Option<CliOption> {
    match f
    case Entity => Some(Valued(f, QuoteArg(hb.entity)))
    case Time => Some(Valued(f, timeText))
    case Plugin => Some(Valued(f, QuoteArg(hb.plugin)))
    case LineNo => Some(Valued(f, Itoa(hb.lineNumber)))
    case CursorPos => Some(Valued(f, Itoa(hb.cursorPos)))
    case LinesInFile => Some(Valued(f, Itoa(hb.lines)))
    case Category => if hb.category != "" then Some(Valued(f, hb.category)) else None
    case AiLineChanges => if hb.aiLineChanges > 0 then Some(Valued(f, Itoa(hb.aiLineChanges))) else None
    case HumanLineChanges =>
      if hb.humanLineChanges > 0 then Some(Valued(f, Itoa(hb.humanLineChanges))) else None
    case Key => if apiKey != "" then Some(Valued(f, QuoteArg(apiKey))) else None
    case ApiUrl => if apiUrl != "" then Some(Valued(f, QuoteArg(apiUrl))) else None
    case AlternateProject =>
      if hb.alternateProject != "" then Some(Valued(f, QuoteArg(hb.alternateProject))) else None
    case ProjectFolder =>
      if hb.projectFolder != "" then Some(Valued(f, QuoteArg(hb.projectFolder))) else None
    case Write => if hb.isWrite then Some(Switch(f)) else None
    case IsUnsavedEntity => if hb.isUnsaved then Some(Switch(f)) else None
    case LocalFile => if hb.localFile != "" then Some(Valued(f, QuoteArg(hb.localFile))) else None
  }

  /** The table above as a choice by rank. */
  function HeartbeatChoice(hb: Heartbeat, apiKey: string, apiUrl: string, timeText: string): Choice {
    (k: nat) => if k < FlagCount then OptionFor(FlagOfRank(k), hb, apiKey, apiUrl, timeText) else None
  }

  /** The table chooses, for each flag, an option of that flag, with a value unless it is a switch. */
  lemma HeartbeatChoiceConsistent(hb: Heartbeat, apiKey: string, apiUrl: string, timeText: string)
    ensures Consistent(HeartbeatChoice(hb, apiKey, apiUrl, timeText))
  {
    var choose := HeartbeatChoice(hb, apiKey, apiUrl, timeText);
    forall k: nat | choose(k).Some?
      ensures choose(k).value.flag.Rank() == k && (choose(k).value.Switch? <==> choose(k).value.flag.IsSwitch())
    {
      var f := FlagOfRank(k);
      assert choose(k) == OptionFor(f, hb, apiKey, apiUrl, timeText);
    }
  }

  /** The six flags of lowest rank are always present. */
  lemma AlwaysPresent(f: Flag, hb: Heartbeat, apiKey: string, apiUrl: string, timeText: string)
    requires f.Rank() < 6
    ensures OptionFor(f, hb, apiKey, apiUrl, timeText).Some?
  {
  }

  /** The options of one heartbeat: every flag's chosen option, in the builder's order. */
  function HeartbeatOptions(hb: Heartbeat, apiKey: string, apiUrl: string, timeText: string): seq<CliOption> {
    OptionsUpTo(FlagCount, HeartbeatChoice(hb, apiKey, apiUrl, timeText))
  }

  /**
   * The vector holds, for each flag, exactly the option OptionFor chooses:
   * a flag is present when, and only when, its condition holds, and then
   * with the chosen value; and the flags come in the builder's order, each
   * at most once.
   */
  lemma OptionsByFlag(hb: Heartbeat, apiKey: string, apiUrl: string, timeText: string)
    ensures forall o :: o in HeartbeatOptions(hb, apiKey, apiUrl, timeText) ==>
      OptionFor(o.flag, hb, apiKey, apiUrl, timeText) == Some(o)
    ensures forall f: Flag :: OptionFor(f, hb, apiKey, apiUrl, timeText).Some? ==>
      OptionFor(f, hb, apiKey, apiUrl, timeText).value in HeartbeatOptions(hb, apiKey, apiUrl, timeText)
    ensures Ordered(HeartbeatOptions(hb, apiKey, apiUrl, timeText))
  {
    var choose := HeartbeatChoice(hb, apiKey, apiUrl, timeText);
    HeartbeatChoiceConsistent(hb, apiKey, apiUrl, timeText);
    OptionsUpToMembers(FlagCount, choose);
    OptionsUpToOrdered(FlagCount, choose);
    forall f: Flag ensures f.Rank() < FlagCount && choose(f.Rank()) == OptionFor(f, hb, apiKey, apiUrl, timeText) {
      RankOfFlag(f);
    }
  }

  /** The six pairs every vector starts with. */
  lemma FixedHead(hb: Heartbeat, apiKey: string, apiUrl: string, timeText: string)
    ensures ArgsUpTo(6, HeartbeatChoice(hb, apiKey, apiUrl, timeText)) ==
      ["--entity", QuoteArg(hb.entity), "--time", timeText,
       "--plugin", QuoteArg(hb.plugin), "--lineno", Itoa(hb.lineNumber),
       "--cursorpos", Itoa(hb.cursorPos), "--lines-in-file", Itoa(hb.lines)]
  {
    var choose := HeartbeatChoice(hb, apiKey, apiUrl, timeText);
    var e, p := QuoteArg(hb.entity), QuoteArg(hb.plugin);
    var l, c, n := Itoa(hb.lineNumber), Itoa(hb.cursorPos), Itoa(hb.lines);
    assert ArgsUpTo(1, choose) == ["--entity", e];
    assert ArgsUpTo(2, choose) == ["--entity", e, "--time", timeText];
    assert ArgsUpTo(3, choose) == ["--entity", e, "--time", timeText, "--plugin", p];
    assert ArgsUpTo(4, choose) == ["--entity", e, "--time", timeText, "--plugin", p, "--lineno", l];
    assert ArgsUpTo(5, choose) == ["--entity", e, "--time", timeText, "--plugin", p, "--lineno", l,
                                   "--cursorpos", c];
  }

  /**
   * The vector always begins with the entity, time, plugin, line number,
   * cursor position and line count, each flag followed by its value.
   */
  lemma ArgsFixedPrefix(hb: Heartbeat, apiKey: string, apiUrl: string, timeText: string)
    ensures var args := Flatten(HeartbeatOptions(hb, apiKey, apiUrl, timeText));
      |args| >= 12 &&
      args[..12] == ["--entity", QuoteArg(hb.entity), "--time", timeText,
                     "--plugin", QuoteArg(hb.plugin), "--lineno", Itoa(hb.lineNumber),
                     "--cursorpos", Itoa(hb.cursorPos), "--lines-in-file", Itoa(hb.lines)]
  {
    var choose := HeartbeatChoice(hb, apiKey, apiUrl, timeText);
    FixedHead(hb, apiKey, apiUrl, timeText);
    ArgsUpToGrows(6, FlagCount, choose);
    ArgsUpToFlatten(FlagCount, choose);
  }

  /** The argument vector reads back into exactly the heartbeat's options. */
  lemma ArgsParse(hb: Heartbeat, apiKey: string, apiUrl: string, timeText: string)
    ensures Parse(Flatten(HeartbeatOptions(hb, apiKey, apiUrl, timeText))) ==
      Some(HeartbeatOptions(hb, apiKey, apiUrl, timeText))
  {
    var opts := HeartbeatOptions(hb, apiKey, apiUrl, timeText);
    var choose := HeartbeatChoice(hb, apiKey, apiUrl, timeText);
    HeartbeatChoiceConsistent(hb, apiKey, apiUrl, timeText);
    OptionsUpToMembers(FlagCount, choose);
    assert WellFormed(opts);
    ParseFlatten(opts);
  }

  /** The words a flag contributes to the vector of one heartbeat: its pair, its switch, or nothing. */
  function Emitted(f: Flag, hb: Heartbeat, apiKey: string, apiUrl: string, timeText: string): seq<string> {
    OptionWords(OptionFor(f, hb, apiKey, apiUrl, timeText))
  }

  /** Considering the flag of rank `k` appends exactly its words. */
  lemma HeartbeatChoiceAt(k: nat, hb: Heartbeat, apiKey: string, apiUrl: string, timeText: string)
    requires k < FlagCount
    ensures ArgsUpTo(k + 1, HeartbeatChoice(hb, apiKey, apiUrl, timeText))
      == ArgsUpTo(k, HeartbeatChoice(hb, apiKey, apiUrl, timeText)) +
         Emitted(FlagOfRank(k), hb, apiKey, apiUrl, timeText)
  {
  }

  /**
   * The vector of one heartbeat, flag by flag: each flag's words in the
   * order the builder appends them.
   */
  function HeartbeatArgs(hb: Heartbeat, apiKey: string, apiUrl: string, timeText: string): seq<string> {
    Emitted(Entity, hb, apiKey, apiUrl, timeText) +
    Emitted(Time, hb, apiKey, apiUrl, timeText) +
    Emitted(Plugin, hb, apiKey, apiUrl, timeText) +
    Emitted(LineNo, hb, apiKey, apiUrl, timeText) +
    Emitted(CursorPos, hb, apiKey, apiUrl, timeText) +
    Emitted(LinesInFile, hb, apiKey, apiUrl, timeText) +
    Emitted(Category, hb, apiKey, apiUrl, timeText) +
    Emitted(AiLineChanges, hb, apiKey, apiUrl, timeText) +
    Emitted(HumanLineChanges, hb, apiKey, apiUrl, timeText) +
    Emitted(Key, hb, apiKey, apiUrl, timeText) +
    Emitted(ApiUrl, hb, apiKey, apiUrl, timeText) +
    Emitted(AlternateProject, hb, apiKey, apiUrl, timeText) +
    Emitted(ProjectFolder, hb, apiKey, apiUrl, timeText) +
    Emitted(Write, hb, apiKey, apiUrl, timeText) +
    Emitted(IsUnsavedEntity, hb, apiKey, apiUrl, timeText) +
    Emitted(LocalFile, hb, apiKey, apiUrl, timeText)
  }

  /** The vector after the flags of rank 0 to 3; the next three lemmas add four flags each. */
  lemma ArgsQuarter0(hb: Heartbeat, apiKey: string, apiUrl: string, timeText: string)
    ensures ArgsUpTo(4, HeartbeatChoice(hb, apiKey, apiUrl, timeText)) ==
      Emitted(Entity, hb, apiKey, apiUrl, timeText) +
      Emitted(Time, hb, apiKey, apiUrl, timeText) +
      Emitted(Plugin, hb, apiKey, apiUrl, timeText) +
      Emitted(LineNo, hb, apiKey, apiUrl, timeText)
  {
    HeartbeatChoiceAt(0, hb, apiKey, apiUrl, timeText);
    HeartbeatChoiceAt(1, hb, apiKey, apiUrl, timeText);
    HeartbeatChoiceAt(2, hb, apiKey, apiUrl, timeText);
    HeartbeatChoiceAt(3, hb, apiKey, apiUrl, timeText);
  }

  lemma ArgsQuarter1(hb: Heartbeat, apiKey: string, apiUrl: string, timeText: string)
    ensures ArgsUpTo(8, HeartbeatChoice(hb, apiKey, apiUrl, timeText)) ==
      ArgsUpTo(4, HeartbeatChoice(hb, apiKey, apiUrl, timeText)) +
      Emitted(CursorPos, hb, apiKey, apiUrl, timeText) +
      Emitted(LinesInFile, hb, apiKey, apiUrl, timeText) +
      Emitted(Category, hb, apiKey, apiUrl, timeText) +
      Emitted(AiLineChanges, hb, apiKey, apiUrl, timeText)
  {
    HeartbeatChoiceAt(4, hb, apiKey, apiUrl, timeText);
    HeartbeatChoiceAt(5, hb, apiKey, apiUrl, timeText);
    HeartbeatChoiceAt(6, hb, apiKey, apiUrl, timeText);
    HeartbeatChoiceAt(7, hb, apiKey, apiUrl, timeText);
  }

  lemma ArgsQuarter2(hb: Heartbeat, apiKey: string, apiUrl: string, timeText: string)
    ensures ArgsUpTo(12, HeartbeatChoice(hb, apiKey, apiUrl, timeText)) ==
      ArgsUpTo(8, HeartbeatChoice(hb, apiKey, apiUrl, timeText)) +
      Emitted(HumanLineChanges, hb, apiKey, apiUrl, timeText) +
      Emitted(Key, hb, apiKey, apiUrl, timeText) +
      Emitted(ApiUrl, hb, apiKey, apiUrl, timeText) +
      Emitted(AlternateProject, hb, apiKey, apiUrl, timeText)
  {
    HeartbeatChoiceAt(8, hb, apiKey, apiUrl, timeText);
    HeartbeatChoiceAt(9, hb, apiKey, apiUrl, timeText);
    HeartbeatChoiceAt(10, hb, apiKey, apiUrl, timeText);
    HeartbeatChoiceAt(11, hb, apiKey, apiUrl, timeText);
  }

  lemma ArgsQuarter3(hb: Heartbeat, apiKey: string, apiUrl: string, timeText: string)
    ensures ArgsUpTo(16, HeartbeatChoice(hb, apiKey, apiUrl, timeText)) ==
      ArgsUpTo(12, HeartbeatChoice(hb, apiKey, apiUrl, timeText)) +
      Emitted(ProjectFolder, hb, apiKey, apiUrl, timeText) +
      Emitted(Write, hb, apiKey, apiUrl, timeText) +
      Emitted(IsUnsavedEntity, hb, apiKey, apiUrl, timeText) +
      Emitted(LocalFile, hb, apiKey, apiUrl, timeText)
  {
    HeartbeatChoiceAt(12, hb, apiKey, apiUrl, timeText);
    HeartbeatChoiceAt(13, hb, apiKey, apiUrl, timeText);
    HeartbeatChoiceAt(14, hb, apiKey, apiUrl, timeText);
    HeartbeatChoiceAt(15, hb, apiKey, apiUrl, timeText);
  }

  /** The flag-by-flag vector is the flattened options of the heartbeat. */
  lemma ArgsByFlag(hb: Heartbeat, apiKey: string, apiUrl: string, timeText: string)
    ensures HeartbeatArgs(hb, apiKey, apiUrl, timeText) ==
      Flatten(HeartbeatOptions(hb, apiKey, apiUrl, timeText))
  {
    ArgsQuarter0(hb, apiKey, apiUrl, timeText);
    ArgsQuarter1(hb, apiKey, apiUrl, timeText);
    ArgsQuarter2(hb, apiKey, apiUrl, timeText);
    ArgsQuarter3(hb, apiKey, apiUrl, timeText);
    ArgsUpToFlatten(FlagCount, HeartbeatChoice(hb, apiKey, apiUrl, timeText));
  }

  /**
   * Builds the argument vector by appending flag/value pairs one after the
   * other, section by section as the builder does. Only the non-Windows
   * shape is built.
   */
  method BuildHeartbeatArgs(hb: Heartbeat, apiKey: string, apiUrl: string, timeText: string)
    returns (args: seq<string>)
    ensures args == HeartbeatArgs(hb, apiKey, apiUrl, timeText)
    ensures args == Flatten(HeartbeatOptions(hb, apiKey, apiUrl, timeText))
  {
    args := FixedArgs(hb, apiKey, apiUrl, timeText);
    args := AppendActivity(hb, apiKey, apiUrl, timeText, args);
    args := AppendApiSettings(hb, apiKey, apiUrl, timeText, args);
    args := AppendProject(hb, apiKey, apiUrl, timeText, args);
    args := AppendFileState(hb, apiKey, apiUrl, timeText, args);
    ArgsByFlag(hb, apiKey, apiUrl, timeText);
  }

  /** The six pairs every vector starts with. */
  method FixedArgs(hb: Heartbeat, apiKey: string, apiUrl: string, timeText: string)
    returns (args: seq<string>)
    ensures args == Emitted(Entity, hb, apiKey, apiUrl, timeText) +
      Emitted(Time, hb, apiKey, apiUrl, timeText) +
      Emitted(Plugin, hb, apiKey, apiUrl, timeText) +
      Emitted(LineNo, hb, apiKey, apiUrl, timeText) +
      Emitted(CursorPos, hb, apiKey, apiUrl, timeText) +
      Emitted(LinesInFile, hb, apiKey, apiUrl, timeText)
  {
    args := [];
    args := args + ["--entity", QuoteArg(hb.entity)];
    args := args + ["--time", timeText];
    args := args + ["--plugin", QuoteArg(hb.plugin)];
    args := args + ["--lineno", Itoa(hb.lineNumber)];
    args := args + ["--cursorpos", Itoa(hb.cursorPos)];
    args := args + ["--lines-in-file", Itoa(hb.lines)];
  }

  /** The category and the line-change counts, each when set. */
  method AppendActivity(hb: Heartbeat, apiKey: string, apiUrl: string, timeText: string, prefix: seq<string>)
    returns (args: seq<string>)
    ensures args == prefix + Emitted(Category, hb, apiKey, apiUrl, timeText) +
      Emitted(AiLineChanges, hb, apiKey, apiUrl, timeText) +
      Emitted(HumanLineChanges, hb, apiKey, apiUrl, timeText)
  {
    args := prefix;
    if hb.category != "" {
      args := args + ["--category", hb.category];
    }
    if hb.aiLineChanges > 0 {
      args := args + ["--ai-line-changes", Itoa(hb.aiLineChanges)];
    }
    if hb.humanLineChanges > 0 {
      args := args + ["--human-line-changes", Itoa(hb.humanLineChanges)];
    }
  }

  /** The API key and URL read from the configuration file, each when set. */
  method AppendApiSettings(hb: Heartbeat, apiKey: string, apiUrl: string, timeText: string, prefix: seq<string>)
    returns (args: seq<string>)
    ensures args == prefix + Emitted(Key, hb, apiKey, apiUrl, timeText) +
      Emitted(ApiUrl, hb, apiKey, apiUrl, timeText)
  {
    args := prefix;
    if apiKey != "" {
      args := args + ["--key", QuoteArg(apiKey)];
    }
    if apiUrl != "" {
      args := args + ["--api-url", QuoteArg(apiUrl)];
    }
  }

  /** The alternate project and the project folder, each when set. */
  method AppendProject(hb: Heartbeat, apiKey: string, apiUrl: string, timeText: string, prefix: seq<string>)
    returns (args: seq<string>)
    ensures args == prefix + Emitted(AlternateProject, hb, apiKey, apiUrl, timeText) +
      Emitted(ProjectFolder, hb, apiKey, apiUrl, timeText)
  {
    args := prefix;
    if hb.alternateProject != "" {
      args := args + ["--alternate-project", QuoteArg(hb.alternateProject)];
    }
    if hb.projectFolder != "" {
      args := args + ["--project-folder", QuoteArg(hb.projectFolder)];
    }
  }

  /** The write and unsaved switches and the local file, each when set. */
  method AppendFileState(hb: Heartbeat, apiKey: string, apiUrl: string, timeText: string, prefix: seq<string>)
    returns (args: seq<string>)
    ensures args == prefix + Emitted(Write, hb, apiKey, apiUrl, timeText) +
      Emitted(IsUnsavedEntity, hb, apiKey, apiUrl, timeText) +
      Emitted(LocalFile, hb, apiKey, apiUrl, timeText)
  {
    args := prefix;
    if hb.isWrite {
      args := args + ["--write"];
    }
    if hb.isUnsaved {
      args := args + ["--is-unsaved-entity"];
    }
    if hb.localFile != "" {
      args := args + ["--local-file", QuoteArg(hb.localFile)];
    }
  }
}
