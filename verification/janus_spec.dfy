/** The older, typed engine (Sources/Janus/Janus.swift) as functions on values. Every alias of
    one `newFlag`/`newString`/`newInt` call indexes one record in an arena; a record knows its
    type, whether it was seen, the values of its type collected so far and its fallbacks. */
module JanusSpec {
  import opened Text
  import opened Outcomes
  import opened SwiftInt

  /** The type tag of an option. Floating-point options are not part of this model. */
  datatype Kind = Bool | Str | Integer

  /** One option record. A bool option's fallback is always `false`, so only the string and
      integer fallbacks are kept. */
  datatype Record = Record(
    kind: Kind,
    found: bool,
    bools: seq<bool>,
    strings: seq<string>,
    ints: seq<int>,
    fallbackString: string,
    fallbackInt: int)

  /** A record as registration creates it: not found, nothing collected. */
  function Fresh(kind: Kind, fallbackString: string, fallbackInt: int): (r: Record)
    ensures !r.found && r.bools == [] && r.strings == [] && r.ints == []
    ensures r.kind == kind && r.fallbackString == fallbackString && r.fallbackInt == fallbackInt
  {
    Record(kind, false, [], [], [], fallbackString, fallbackInt)
  }

  /** `trySet(with: arg)`: a bool option ignores the text, a string option appends it, an
      integer option appends its value or fails when the text is not a 64-bit integer. */
  function TrySet(rec: Record, arg: string): (r: Result<Record>)
    ensures r.Failure? <==> rec.kind == Integer && ParseInt(arg).None?
    ensures r.Failure? ==> r.halt == Error(InvalidNumericValue)
    ensures r.Success? ==> r.value.kind == rec.kind && r.value.found == rec.found
    ensures r.Success? ==> r.value.fallbackString == rec.fallbackString && r.value.fallbackInt == rec.fallbackInt
  {
    match rec.kind
    case Bool => Success(rec)
    case Str => Success(rec.(strings := rec.strings + [arg]))
    case Integer =>
      match ParseInt(arg)
      case None => Failure(Error(InvalidNumericValue))
      case Some(n) => Success(rec.(ints := rec.ints + [n]))
  }

  /** Only the list of the option's own type grows, by exactly the value the text denotes: an
      integer written out in decimal comes back as itself. */
  lemma TrySetShow(rec: Record, s: string, n: int)
    requires IntMin <= n <= IntMax
    ensures rec.kind == Str ==> TrySet(rec, s) == Success(rec.(strings := rec.strings + [s]))
    ensures rec.kind == Integer ==> TrySet(rec, Show(n)) == Success(rec.(ints := rec.ints + [n]))
    ensures rec.kind == Bool ==> TrySet(rec, s) == Success(rec)
  {
    ParseShow(n);
  }

  /** Registrations, as far as parsing one level is concerned: the option aliases, the
      helptext of every command alias, and this parser's helptext and version. */
  datatype Config = Config(
    options: map<string, nat>,
    commandHelp: map<string, string>,
    helptext: Option<string>,
    version: Option<string>)

  /** What parsing changes at one level: the records, the positionals and the command found. */
  datatype Level = Level(records: seq<Record>, arguments: seq<string>, command: Option<string>)

  /** Every alias indexes one of `slots` records. */
  predicate Indexes(cfg: Config, slots: nat) {
    forall a | a in cfg.options :: cfg.options[a] < slots
  }

  predicate Fits(cfg: Config, lv: Level) {
    Indexes(cfg, |lv.records|)
  }

  /** The result of an option handler: the level afterwards and the tokens left, or a halt. */
  datatype Step = Continue(level: Level, rest: seq<string>) | Stop(halt: Halt)

  /** A handler changes only record contents and consumes a prefix of the tokens. */
  predicate Handled(lv: Level, rest: seq<string>, r: Step) {
    r.Continue? ==>
      && |r.level.records| == |lv.records|
      && r.level.arguments == lv.arguments && r.level.command == lv.command
      && |r.rest| <= |rest| && r.rest == rest[|rest| - |r.rest|..]
  }

  /** Record `k` replaced by `rec`. */
  function Put(lv: Level, k: nat, rec: Record): (r: Level)
    requires k < |lv.records|
    ensures |r.records| == |lv.records| && r.records[k] == rec
    ensures forall j | 0 <= j < |lv.records| && j != k :: r.records[j] == lv.records[j]
    ensures r.arguments == lv.arguments && r.command == lv.command
  {
    lv.(records := lv.records[k := rec])
  }

  function AddArg(lv: Level, t: string): Level {
    lv.(arguments := lv.arguments + [t])
  }

  /** An occurrence of the option in slot `k` written without a value: it is marked found; a
      bool option records `true`, any other option takes and coerces the next token, which must
      exist. */
  function Use(lv: Level, k: nat, rest: seq<string>): (r: Step)
    requires k < |lv.records|
    ensures Handled(lv, rest, r)
    ensures r.Continue? <==>
      lv.records[k].kind == Bool || (rest != [] && TrySet(lv.records[k], rest[0]).Success?)
    ensures r.Continue? ==> r.level.records[k].found && r.level.records[k].kind == lv.records[k].kind
    ensures r.Stop? && rest == [] ==> r.halt == Error(MissingValue)
  {
    var rec := lv.records[k].(found := true);
    if rec.kind == Bool then Continue(Put(lv, k, rec.(bools := rec.bools + [true])), rest)
    else if rest == [] then Stop(Error(MissingValue))
    else
      match TrySet(rec, rest[0])
      case Failure(h) => Stop(h)
      case Success(rec') => Continue(Put(lv, k, rec'), rest[1..])
  }

  /** `--name=value` or `-n=value` without the dashes: split at the first '='; the name must be
      a registered option that is not a bool, and the value must not be empty. */
  function EqualsOption(cfg: Config, lv: Level, arg: string, rest: seq<string>): (r: Step)
    requires '=' in arg && Fits(cfg, lv)
    ensures Handled(lv, rest, r) && (r.Continue? ==> r.rest == rest)
    ensures var (name, value) := SplitAtEquals(arg);
      r.Continue? <==>
        && name in cfg.options && lv.records[cfg.options[name]].kind != Bool && value != ""
        && TrySet(lv.records[cfg.options[name]], value).Success?
    ensures var (name, value) := SplitAtEquals(arg);
      r.Stop? ==> r.halt == Error(
        if name !in cfg.options then UnknownOption
        else if lv.records[cfg.options[name]].kind == Bool then FlagWithValue
        else if value == "" then MissingValue
        else InvalidNumericValue)
  {
    var (name, value) := SplitAtEquals(arg);
    if name !in cfg.options then Stop(Error(UnknownOption))
    else
      var k := cfg.options[name];
      if lv.records[k].kind == Bool then Stop(Error(FlagWithValue))
      else if value == "" then Stop(Error(MissingValue))
      else
        match TrySet(lv.records[k].(found := true), value)
        case Failure(h) => Stop(h)
        case Success(rec') => Continue(Put(lv, k, rec'), rest)
  }

  /** A token that started with `--`, without the dashes. */
  function LongOption(cfg: Config, lv: Level, name: string, rest: seq<string>): (r: Step)
    requires Fits(cfg, lv)
    ensures Handled(lv, rest, r)
  {
    if '=' in name then EqualsOption(cfg, lv, name, rest)
    else if name in cfg.options then Use(lv, cfg.options[name], rest)
    else if name == "help" && cfg.helptext.Some? then Stop(Help(cfg.helptext.value))
    else if name == "version" && cfg.version.Some? then Stop(Version(cfg.version.value))
    else Stop(Error(UnknownOption))
  }

  /** One character of a short cluster. */
  function ShortChar(cfg: Config, lv: Level, c: char, rest: seq<string>): (r: Step)
    requires Fits(cfg, lv)
    ensures Handled(lv, rest, r)
  {
    if [c] in cfg.options then Use(lv, cfg.options[[c]], rest)
    else if c == 'h' && cfg.helptext.Some? then Stop(Help(cfg.helptext.value))
    else if c == 'v' && cfg.version.Some? then Stop(Version(cfg.version.value))
    else Stop(Error(UnknownOption))
  }

  /** The characters of a short cluster, left to right, until one of them halts. */
  function Cluster(cfg: Config, lv: Level, cs: string, rest: seq<string>): (r: Step)
    requires Fits(cfg, lv)
    ensures Handled(lv, rest, r)
    decreases |cs|
  {
    if cs == [] then Continue(lv, rest)
    else
      match ShortChar(cfg, lv, cs[0], rest)
      case Stop(h) => Stop(h)
      case Continue(lv', rest') => Cluster(cfg, lv', cs[1..], rest')
  }

  /** The cluster from its `i`-th character on: that character, then the rest. */
  lemma ClusterAt(cfg: Config, lv: Level, cs: string, i: nat, rest: seq<string>)
    requires Fits(cfg, lv) && i < |cs|
    ensures Cluster(cfg, lv, cs[i..], rest) ==
      match ShortChar(cfg, lv, cs[i], rest)
      case Stop(h) => Stop(h)
      case Continue(lv', rest') => Cluster(cfg, lv', cs[i + 1..], rest')
  {
    assert cs[i..][0] == cs[i] && cs[i..][1..] == cs[i + 1..];
  }

  /** A token that started with a single `-`, without the dash. */
  function ShortOption(cfg: Config, lv: Level, body: string, rest: seq<string>): (r: Step)
    requires Fits(cfg, lv)
    ensures Handled(lv, rest, r)
  {
    if '=' in body then EqualsOption(cfg, lv, body, rest) else Cluster(cfg, lv, body, rest)
  }

  /** How one level ends. */
  datatype LevelEnd =
    | Finished(level: Level)
    | Stopped(halt: Halt)
    | Dispatched(level: Level, name: string, rest: seq<string>)

  /** `help <command>`: the command's helptext, or an error when the name is missing or is not
      a command alias. */
  function HelpCommand(cfg: Config, more: seq<string>): (h: Halt)
    ensures h.Help? <==> more != [] && more[0] in cfg.commandHelp
    ensures h.Help? ==> h.text == cfg.commandHelp[more[0]]
    ensures !h.Help? ==> h == Error(if more == [] then MissingValue else UnknownCommand)
  {
    if more == [] then Error(MissingValue)
    else if more[0] in cfg.commandHelp then Help(cfg.commandHelp[more[0]])
    else Error(UnknownCommand)
  }

  /** The command test: a first token, read with option parsing on, that is a command alias. */
  predicate DispatchesOn(cfg: Config, rest: seq<string>, first: bool, parsing: bool) {
    parsing && first && rest != [] && !StartsWith(rest[0], "-") && rest[0] in cfg.commandHelp
  }

  /** What the loop does with one token: the level goes on, with the tokens left and the new
      state of the `parsing` switch, or it ends. */
  datatype Turn = Next(level: Level, rest: seq<string>, parsing: bool) | End(end: LevelEnd)

  /** One pass of `parseStream` on `arg`, `more` being the tokens after it: once `parsing` is
      off every token is a positional; the first `--` turns it off and is dropped; tokens
      starting with `--` or `-` go to the option handlers, except a lone `-` and a dash
      followed by a digit; a first token may name a command or be `help`; anything else is a
      positional. */
  function Token(cfg: Config, lv: Level, arg: string, more: seq<string>, first: bool, parsing: bool): (r: Turn)
    requires Fits(cfg, lv)
    ensures r.Next? ==> |r.level.records| == |lv.records| && |r.rest| <= |more|
    ensures r.Next? && !parsing ==> r == Next(AddArg(lv, arg), more, false)
    ensures r.End? ==> !r.end.Finished?
    ensures r.End? && r.end.Dispatched? <==> parsing && first && !StartsWith(arg, "-") && arg in cfg.commandHelp
    ensures r.End? && r.end.Dispatched? ==> r.end == Dispatched(lv.(command := Some(arg)), arg, more)
  {
    if !parsing then Next(AddArg(lv, arg), more, false)
    else if arg == "--" then Next(lv, more, false)
    else if StartsWith(arg, "--") then
      match LongOption(cfg, lv, arg[2..], more)
      case Stop(h) => End(Stopped(h))
      case Continue(lv', more') => Next(lv', more', true)
    else if StartsWith(arg, "-") then
      if arg == "-" || IsDigit(arg[1]) then Next(AddArg(lv, arg), more, true)
      else
        match ShortOption(cfg, lv, arg[1..], more)
        case Stop(h) => End(Stopped(h))
        case Continue(lv', more') => Next(lv', more', true)
    else if first && arg in cfg.commandHelp then End(Dispatched(lv.(command := Some(arg)), arg, more))
    else if first && arg == "help" then End(Stopped(HelpCommand(cfg, more)))
    else Next(AddArg(lv, arg), more, true)
  }

  /** The loop of `parseStream` at one level on the tokens `rest`. */
  function RunLevel(cfg: Config, lv: Level, rest: seq<string>, first: bool, parsing: bool): (r: LevelEnd)
    requires Fits(cfg, lv)
    ensures r.Dispatched? <==> DispatchesOn(cfg, rest, first, parsing)
    ensures r.Dispatched? ==>
      r.name == rest[0] && r.rest == rest[1..] && r.level == lv.(command := Some(rest[0]))
    ensures !r.Stopped? ==> |r.level.records| == |lv.records|
    decreases |rest|
  {
    if rest == [] then Finished(lv)
    else
      match Token(cfg, lv, rest[0], rest[1..], first, parsing)
      case End(e) => e
      case Next(lv', more, parsing') => RunLevel(cfg, lv', more, false, parsing')
  }

  /** The loop takes the first token of `[t] + more` first. */
  lemma RunHead(cfg: Config, lv: Level, t: string, more: seq<string>, first: bool, parsing: bool)
    requires Fits(cfg, lv)
    ensures RunLevel(cfg, lv, [t] + more, first, parsing) ==
      match Token(cfg, lv, t, more, first, parsing)
      case End(e) => e
      case Next(lv', more', parsing') => RunLevel(cfg, lv', more', false, parsing')
  {
    assert ([t] + more)[0] == t && ([t] + more)[1..] == more;
  }

  /** Two token sequences whose first tokens take the same turn run the same way. */
  lemma SameTurn(cfg: Config, lv: Level, t: string, more: seq<string>, u: string, more': seq<string>, first: bool, parsing: bool)
    requires Fits(cfg, lv)
    requires Token(cfg, lv, t, more, first, parsing) == Token(cfg, lv, u, more', first, parsing)
    ensures RunLevel(cfg, lv, [t] + more, first, parsing) == RunLevel(cfg, lv, [u] + more', first, parsing)
  {
    assert ([t] + more)[0] == t && ([t] + more)[1..] == more;
    assert ([u] + more')[0] == u && ([u] + more')[1..] == more';
  }

  // ---------------------------------------------------------------------------------------------
  // Queries.
  // ---------------------------------------------------------------------------------------------

  /** `getOption(name)`: the record of a registered name; any other name is an error. */
  function GetOption(cfg: Config, lv: Level, name: string): (r: Result<Record>)
    requires Fits(cfg, lv)
    ensures r.Failure? <==> name !in cfg.options
    ensures r.Failure? ==> r.halt == Error(UnregisteredQuery)
  {
    if name in cfg.options then Success(lv.records[cfg.options[name]]) else Failure(Error(UnregisteredQuery))
  }

  /** The last element of `xs`, or `fallback` when there is none. */
  function LastOr<T>(xs: seq<T>, fallback: T): (r: T)
    ensures xs == [] ==> r == fallback
    ensures xs != [] ==> r == xs[|xs| - 1]
  {
    if xs == [] then fallback else xs[|xs| - 1]
  }

  /** Parsing only ever records `true` for a bool option. */
  predicate AllTrue(bs: seq<bool>) {
    forall i | 0 <= i < |bs| :: bs[i]
  }

  /** `found(name)`. */
  function Found(cfg: Config, lv: Level, name: string): (r: Result<bool>)
    requires Fits(cfg, lv)
    ensures r.Failure? <==> name !in cfg.options
    ensures r.Success? ==> r.value == lv.records[cfg.options[name]].found
  {
    match GetOption(cfg, lv, name)
    case Failure(h) => Failure(h)
    case Success(rec) => Success(rec.found)
  }

  /** `getFlag(name)`: the last bool recorded, or `false`; for a bool option, whose list
      parsing fills with `true` only, that says whether it occurred at all. */
  function GetFlag(cfg: Config, lv: Level, name: string): (r: Result<bool>)
    requires Fits(cfg, lv)
    ensures r.Failure? <==> name !in cfg.options
    ensures r.Success? ==> var rec := lv.records[cfg.options[name]];
      rec.kind == Bool && AllTrue(rec.bools) ==> (r.value <==> LenList(cfg, lv, name).value > 0)
  {
    match GetOption(cfg, lv, name)
    case Failure(h) => Failure(h)
    case Success(rec) => Success(LastOr(rec.bools, false))
  }

  /** `getStringList(name)`: every string collected, in order, and never the fallback. */
  function GetStringList(cfg: Config, lv: Level, name: string): (r: Result<seq<string>>)
    requires Fits(cfg, lv)
    ensures r.Failure? <==> name !in cfg.options
    ensures r.Success? ==> r.value == lv.records[cfg.options[name]].strings
  {
    match GetOption(cfg, lv, name)
    case Failure(h) => Failure(h)
    case Success(rec) => Success(rec.strings)
  }

  /** `getString(name)`: the last string collected, or the fallback when there is none. */
  function GetString(cfg: Config, lv: Level, name: string): (r: Result<string>)
    requires Fits(cfg, lv)
    ensures r.Failure? <==> name !in cfg.options
    ensures r.Success? ==> var vs := GetStringList(cfg, lv, name).value;
      && (vs == [] ==> r.value == lv.records[cfg.options[name]].fallbackString)
      && (vs != [] ==> r.value == vs[|vs| - 1])
  {
    match GetOption(cfg, lv, name)
    case Failure(h) => Failure(h)
    case Success(rec) => Success(LastOr(rec.strings, rec.fallbackString))
  }

  /** `getIntList(name)`: every integer collected, in order, and never the fallback. */
  function GetIntList(cfg: Config, lv: Level, name: string): (r: Result<seq<int>>)
    requires Fits(cfg, lv)
    ensures r.Failure? <==> name !in cfg.options
    ensures r.Success? ==> r.value == lv.records[cfg.options[name]].ints
  {
    match GetOption(cfg, lv, name)
    case Failure(h) => Failure(h)
    case Success(rec) => Success(rec.ints)
  }

  /** `getInt(name)`: the last integer collected, or the fallback when there is none. */
  function GetInt(cfg: Config, lv: Level, name: string): (r: Result<int>)
    requires Fits(cfg, lv)
    ensures r.Failure? <==> name !in cfg.options
    ensures r.Success? ==> var vs := GetIntList(cfg, lv, name).value;
      && (vs == [] ==> r.value == lv.records[cfg.options[name]].fallbackInt)
      && (vs != [] ==> r.value == vs[|vs| - 1])
  {
    match GetOption(cfg, lv, name)
    case Failure(h) => Failure(h)
    case Success(rec) => Success(LastOr(rec.ints, rec.fallbackInt))
  }

  /** `lenList(name)`: the length of the list of the option's own type. */
  function LenList(cfg: Config, lv: Level, name: string): (r: Result<nat>)
    requires Fits(cfg, lv)
    ensures r.Failure? <==> name !in cfg.options
    ensures r.Success? ==> var rec := lv.records[cfg.options[name]];
      && (rec.kind == Str ==> r.value == |GetStringList(cfg, lv, name).value|)
      && (rec.kind == Integer ==> r.value == |GetIntList(cfg, lv, name).value|)
      && (rec.kind == Bool ==> r.value == |rec.bools|)
  {
    match GetOption(cfg, lv, name)
    case Failure(h) => Failure(h)
    case Success(rec) =>
      Success(match rec.kind
        case Bool => |rec.bools|
        case Str => |rec.strings|
        case Integer => |rec.ints|)
  }
}
