/** The newer engine (src/ArgParser/argparser.swift) as functions on values: what one parser level
    does with the tokens it receives. Flags are counters and options are lists of strings, both
    held in arenas that every alias of one registration indexes. */
module ArgParserSpec {
  import opened Text
  import opened Outcomes

  /** What a parser has registered, as far as parsing one level is concerned: alias tables into
      the arenas, the helptext of every command alias (empty when the child has none), its own
      helptext and version, and whether the `help <command>` command is on. */
  datatype Config = Config(
    flags: map<string, nat>,
    options: map<string, nat>,
    commandHelp: map<string, string>,
    helptext: Option<string>,
    version: Option<string>,
    helpCommand: bool)

  /** What parsing changes at one level: flag counts, option value lists, positionals and the
      name of the command found. */
  datatype Level = Level(
    counts: seq<nat>,
    values: seq<seq<string>>,
    args: seq<string>,
    commandName: Option<string>)

  /** Every flag alias indexes one of `flagSlots` counters and every option alias one of
      `optionSlots` value lists. */
  predicate Indexes(cfg: Config, flagSlots: nat, optionSlots: nat) {
    && (forall a | a in cfg.flags :: cfg.flags[a] < flagSlots)
    && (forall a | a in cfg.options :: cfg.options[a] < optionSlots)
  }

  /** Every alias indexes an existing arena slot. */
  predicate Fits(cfg: Config, lv: Level) {
    Indexes(cfg, |lv.counts|, |lv.values|)
  }

  /** `lv2` differs from `lv1` at most in the contents of the arenas. */
  predicate SameShape(lv1: Level, lv2: Level) {
    && |lv2.counts| == |lv1.counts|
    && |lv2.values| == |lv1.values|
    && lv2.args == lv1.args
    && lv2.commandName == lv1.commandName
  }

  /** The result of an option handler: the level afterwards and the tokens left, or a halt. */
  datatype Step = Continue(level: Level, rest: seq<string>) | Stop(halt: Halt)

  /** A handler keeps the shape of the level and only ever consumes a prefix of the tokens. */
  predicate Handled(lv: Level, rest: seq<string>, r: Step) {
    r.Continue? ==> SameShape(lv, r.level) && |r.rest| <= |rest| && r.rest == rest[|rest| - |r.rest|..]
  }

  /** `flag.count += 1` on slot `k`. */
  function Bump(lv: Level, k: nat): (r: Level)
    requires k < |lv.counts|
    ensures SameShape(lv, r) && r.values == lv.values
    ensures forall j | 0 <= j < |lv.counts| :: r.counts[j] == lv.counts[j] + (if j == k then 1 else 0)
  {
    lv.(counts := lv.counts[k := lv.counts[k] + 1])
  }

  /** `option.values.append(v)` on slot `k`. */
  function Push(lv: Level, k: nat, v: string): (r: Level)
    requires k < |lv.values|
    ensures SameShape(lv, r) && r.counts == lv.counts
    ensures forall j | 0 <= j < |lv.values| :: r.values[j] == lv.values[j] + (if j == k then [v] else [])
  {
    lv.(values := lv.values[k := lv.values[k] + [v]])
  }

  /** `args.append(t)`. */
  function AddArg(lv: Level, t: string): Level {
    lv.(args := lv.args + [t])
  }

  /** `--name=value` or `-n=value` once the dashes are gone: the text is split at its first '=';
      the name must be an option and the value must not be empty. */
  function EqualsOption(cfg: Config, lv: Level, arg: string, rest: seq<string>): (r: Step)
    requires '=' in arg && Fits(cfg, lv)
    ensures Handled(lv, rest, r) && (r.Continue? ==> r.rest == rest)
    ensures r.Continue? <==> SplitAtEquals(arg).0 in cfg.options && SplitAtEquals(arg).1 != ""
    ensures r.Stop? ==>
      r.halt == Error(if SplitAtEquals(arg).0 !in cfg.options then UnknownOption else MissingValue)
  {
    var (name, value) := SplitAtEquals(arg);
    if name !in cfg.options then Stop(Error(UnknownOption))
    else if value == "" then Stop(Error(MissingValue))
    else Continue(Push(lv, cfg.options[name], value), rest)
  }

  /** A token that started with `--`, without the dashes. */
  function LongOption(cfg: Config, lv: Level, name: string, rest: seq<string>): (r: Step)
    requires Fits(cfg, lv)
    ensures Handled(lv, rest, r)
  {
    if '=' in name then EqualsOption(cfg, lv, name, rest)
    else if name in cfg.flags then Continue(Bump(lv, cfg.flags[name]), rest)
    else if name in cfg.options then
      if rest == [] then Stop(Error(MissingValue))
      else Continue(Push(lv, cfg.options[name], rest[0]), rest[1..])
    else if name == "help" && cfg.helptext.Some? then Stop(Help(cfg.helptext.value))
    else if name == "version" && cfg.version.Some? then Stop(Version(cfg.version.value))
    else Stop(Error(UnknownOption))
  }

  /** One character of a short cluster. */
  function ShortChar(cfg: Config, lv: Level, c: char, rest: seq<string>): (r: Step)
    requires Fits(cfg, lv)
    ensures Handled(lv, rest, r)
  {
    if [c] in cfg.flags then Continue(Bump(lv, cfg.flags[[c]]), rest)
    else if [c] in cfg.options then
      if rest == [] then Stop(Error(MissingValue))
      else Continue(Push(lv, cfg.options[[c]], rest[0]), rest[1..])
    else if c == 'h' && cfg.helptext.Some? then Stop(Help(cfg.helptext.value))
    else if c == 'v' && cfg.version.Some? then Stop(Version(cfg.version.value))
    else Stop(Error(UnknownOption))
  }

  /** The characters of a short cluster, left to right, until one of them halts. */
  function Cluster(cfg: Config, lv: Level, cs: string, rest: seq<string>): (r: Step)
    requires Fits(cfg, lv)
    ensures Handled(lv, rest, r)
    decreases |cs|
  {
    if cs == [] then Continue(lv, rest)
    else
      match ShortChar(cfg, lv, cs[0], rest)
      case Stop(h) => Stop(h)
      case Continue(lv', rest') => Cluster(cfg, lv', cs[1..], rest')
  }

  /** The cluster from its `i`-th character on: that character, then the rest. */
  lemma ClusterAt(cfg: Config, lv: Level, cs: string, i: nat, rest: seq<string>)
    requires Fits(cfg, lv) && i < |cs|
    ensures Cluster(cfg, lv, cs[i..], rest) ==
      match ShortChar(cfg, lv, cs[i], rest)
      case Stop(h) => Stop(h)
      case Continue(lv', rest') => Cluster(cfg, lv', cs[i + 1..], rest')
  {
    assert cs[i..][0] == cs[i] && cs[i..][1..] == cs[i + 1..];
  }

  /** A token that started with a single `-`, without the dash. */
  function ShortOption(cfg: Config, lv: Level, body: string, rest: seq<string>): (r: Step)
    requires Fits(cfg, lv)
    ensures Handled(lv, rest, r)
  {
    if '=' in body then EqualsOption(cfg, lv, body, rest) else Cluster(cfg, lv, body, rest)
  }

  /** How one level ends: with its tokens exhausted, with a halt, or by handing the remaining
      tokens to the command `name`. */
  datatype LevelEnd =
    | Finished(level: Level)
    | Stopped(halt: Halt)
    | Dispatched(level: Level, name: string, rest: seq<string>)

  /** `help <command>`: the command's helptext, or an error when the name is missing or is not
      a command alias. */
  function HelpCommand(cfg: Config, more: seq<string>): (h: Halt)
    ensures h.Help? <==> more != [] && more[0] in cfg.commandHelp
    ensures h.Help? ==> h.text == cfg.commandHelp[more[0]]
    ensures !h.Help? ==> h == Error(if more == [] then MissingValue else UnknownCommand)
  {
    if more == [] then Error(MissingValue)
    else if more[0] in cfg.commandHelp then Help(cfg.commandHelp[more[0]])
    else Error(UnknownCommand)
  }

  /** The command test of the dispatch loop: a first token that is a command alias. */
  predicate DispatchesOn(cfg: Config, rest: seq<string>, first: bool) {
    first && rest != [] && !StartsWith(rest[0], "-") && rest[0] in cfg.commandHelp
  }

  /** What the dispatch loop does with one token: the level goes on with the tokens left, or
      it ends. */
  datatype Turn = Next(level: Level, rest: seq<string>) | End(end: LevelEnd)

  /** One pass of the dispatch loop on the token `arg`, `more` being the tokens after it and
      `first` saying that `arg` is the first token of the level: `--` sends every remaining
      token to the positionals; a token starting with `--` or `-` goes to the option handlers,
      except a lone `-` and a dash followed by a digit, which are positionals; a first token
      may name a command or be `help <command>`; anything else is a positional. */
  function Token(cfg: Config, lv: Level, arg: string, more: seq<string>, first: bool): (r: Turn)
    requires Fits(cfg, lv)
    ensures r.Next? ==>
      |r.level.counts| == |lv.counts| && |r.level.values| == |lv.values| && |r.rest| <= |more|
    ensures r.End? ==> !r.end.Finished?
    ensures r.End? && r.end.Dispatched? <==> first && !StartsWith(arg, "-") && arg in cfg.commandHelp
    ensures r.End? && r.end.Dispatched? ==> r.end == Dispatched(lv.(commandName := Some(arg)), arg, more)
  {
    if arg == "--" then Next(lv.(args := lv.args + more), [])
    else if StartsWith(arg, "--") then
      match LongOption(cfg, lv, arg[2..], more)
      case Stop(h) => End(Stopped(h))
      case Continue(lv', more') => Next(lv', more')
    else if StartsWith(arg, "-") then
      if arg == "-" || IsDigit(arg[1]) then Next(AddArg(lv, arg), more)
      else
        match ShortOption(cfg, lv, arg[1..], more)
        case Stop(h) => End(Stopped(h))
        case Continue(lv', more') => Next(lv', more')
    else if first && arg in cfg.commandHelp then End(Dispatched(lv.(commandName := Some(arg)), arg, more))
    else if first && cfg.helpCommand && arg == "help" then End(Stopped(HelpCommand(cfg, more)))
    else Next(AddArg(lv, arg), more)
  }

  /** The dispatch loop of one level on the tokens `rest`; `first` says no token has been read
      at this level yet. */
  function RunLevel(cfg: Config, lv: Level, rest: seq<string>, first: bool): (r: LevelEnd)
    requires Fits(cfg, lv)
    ensures r.Dispatched? <==> DispatchesOn(cfg, rest, first)
    ensures r.Dispatched? ==>
      r.name == rest[0] && r.rest == rest[1..] && r.level == lv.(commandName := Some(rest[0]))
    ensures !r.Stopped? ==> |r.level.counts| == |lv.counts| && |r.level.values| == |lv.values|
    decreases |rest|
  {
    if rest == [] then Finished(lv)
    else
      match Token(cfg, lv, rest[0], rest[1..], first)
      case End(e) => e
      case Next(lv', more) => RunLevel(cfg, lv', more, false)
  }

  /** The loop takes the first token of `[t] + more` first. */
  lemma RunHead(cfg: Config, lv: Level, t: string, more: seq<string>, first: bool)
    requires Fits(cfg, lv)
    ensures RunLevel(cfg, lv, [t] + more, first) ==
      match Token(cfg, lv, t, more, first)
      case End(e) => e
      case Next(lv', more') => RunLevel(cfg, lv', more', false)
  {
    assert ([t] + more)[0] == t && ([t] + more)[1..] == more;
  }

  /** Two token sequences whose first tokens take the same turn run the same way. */
  lemma SameTurn(cfg: Config, lv: Level, t: string, more: seq<string>, u: string, more': seq<string>, first: bool)
    requires Fits(cfg, lv)
    requires Token(cfg, lv, t, more, first) == Token(cfg, lv, u, more', first)
    ensures RunLevel(cfg, lv, [t] + more, first) == RunLevel(cfg, lv, [u] + more', first)
  {
    assert ([t] + more)[0] == t && ([t] + more)[1..] == more;
    assert ([u] + more')[0] == u && ([u] + more')[1..] == more';
  }

  // ---------------------------------------------------------------------------------------------
  // Queries.
  // ---------------------------------------------------------------------------------------------

  /** `count(name)`: occurrences of a flag, or number of values of an option; a flag alias takes
      precedence over an option alias of the same name. */
  function Count(cfg: Config, lv: Level, name: string): (r: Result<nat>)
    requires Fits(cfg, lv)
    ensures r.Failure? <==> name !in cfg.flags && name !in cfg.options
    ensures r.Success? ==>
      r.value == (if name in cfg.flags then lv.counts[cfg.flags[name]] else |lv.values[cfg.options[name]]|)
  {
    if name in cfg.flags then Success(lv.counts[cfg.flags[name]])
    else if name in cfg.options then Success(|lv.values[cfg.options[name]]|)
    else Failure(Error(UnregisteredQuery))
  }

  /** `found(name)`: the name was seen at least once. */
  function Found(cfg: Config, lv: Level, name: string): (r: Result<bool>)
    requires Fits(cfg, lv)
    ensures r.Failure? <==> Count(cfg, lv, name).Failure?
    ensures r.Success? ==> (r.value <==> Count(cfg, lv, name).value > 0)
  {
    match Count(cfg, lv, name)
    case Failure(h) => Failure(h)
    case Success(n) => Success(n > 0)
  }

  /** `values(name)`: every value collected for an option, in encounter order. */
  function Values(cfg: Config, lv: Level, name: string): (r: Result<seq<string>>)
    requires Fits(cfg, lv)
    ensures r.Failure? <==> name !in cfg.options
    ensures r.Success? ==> r.value == lv.values[cfg.options[name]]
    ensures r.Success? && name !in cfg.flags ==> Count(cfg, lv, name) == Success(|r.value|)
  {
    if name in cfg.options then Success(lv.values[cfg.options[name]])
    else Failure(Error(UnregisteredQuery))
  }

  /** `value(name)`: the last value collected for an option, if any. */
  function Value(cfg: Config, lv: Level, name: string): (r: Result<Option<string>>)
    requires Fits(cfg, lv)
    ensures r.Failure? <==> Values(cfg, lv, name).Failure?
    ensures r.Success? ==> var vs := Values(cfg, lv, name).value;
      (r.value.None? <==> vs == []) && (r.value.Some? ==> r.value.value == vs[|vs| - 1])
  {
    if name in cfg.options then
      var vs := lv.values[cfg.options[name]];
      Success(if vs == [] then None else Some(vs[|vs| - 1]))
    else Failure(Error(UnregisteredQuery))
  }
}
