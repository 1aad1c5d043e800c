/** The newer engine (src/ArgParser/argparser.swift) as a class: a parser registers flags,
    options and commands, then consumes a token stream level by level. Each `Flag` and `Option`
    record of the source is a slot in an arena (`flagCounts`, `optionValues`) that all of its
    aliases index. Every parsing method is proved against the functions of `ArgParserSpec`. */
module ArgParserEngine {
  import opened Text
  import opened Outcomes
  import opened ArgStreams
  import S = ArgParserSpec

  /** What one parser on the dispatch path holds once a parse has completed. */
  datatype After = After(level: S.Level, commandParser: ArgParser?, callbackLog: seq<string>)

  /** A parse followed through every level it reaches: see `ArgParser.Trace`. */
  datatype Run = Run(path: set<ArgParser>, outcome: Outcome, final: map<ArgParser, After>)

  /** The run of a level that dispatched to `c` under `name`, given the run `tc` of `c`: the
      path gains this level, and a completed parse leaves `c` with its callback log extended by
      `name` when it has a callback, and this level with `mine`. */
  function AfterDispatch(self: ArgParser, mine: After, c: ArgParser, name: string, hasCallback: bool, tc: Run): (r: Run)
    requires tc.outcome.Completed? ==> c in tc.final
    ensures r.path == {self} + tc.path && r.outcome == tc.outcome
  {
    var final :=
      if tc.outcome.Completed? then
        var log := tc.final[c].callbackLog + (if hasCallback then [name] else []);
        tc.final[c := tc.final[c].(callbackLog := log)][self := mine]
      else map[];
    Run({self} + tc.path, tc.outcome, final)
  }

  class ArgParser {
    var helpText: Option<string>
    var versionText: Option<string>
    var flags: map<string, nat>
    var flagCounts: seq<nat>
    var options: map<string, nat>
    var optionValues: seq<seq<string>>
    var commands: map<string, ArgParser>
    var hasCallback: bool
    var helpCommandEnabled: bool

    /** The command found at this level, if any, and its parser. */
    var commandName: Option<string>
    var commandParser: ArgParser?

    /** Positional arguments. */
    var args: seq<string>

    /** The command names this parser's callback has been invoked with; the source passes the
        parser itself as the second argument. */
    ghost var callbackLog: seq<string>

    /** This parser and every parser reachable through `commands`. */
    ghost var Repr: set<ArgParser>

    /** The conditions on this parser alone: the command graph below it is acyclic and every
        alias indexes an arena slot. */
    ghost predicate Wf()
      reads this, Repr
    {
      && this in Repr
      && (forall p | p in Repr :: p.Repr <= Repr)
      && (forall p | p in Repr && p != this :: this !in p.Repr)
      && (forall a | a in flags :: flags[a] < |flagCounts|)
      && (forall a | a in options :: options[a] < |optionValues|)
      && (forall a | a in commands :: commands[a] in Repr && commands[a] != this)
    }

    ghost predicate Valid()
      reads this, Repr
    {
      Wf() && forall p | p in Repr :: p.Wf()
    }

    /** The helptext of each command alias, empty when its parser has none: what
        `help <command>` shows. */
    ghost function CommandHelp(): map<string, string>
      reads this`commands, commands.Values`helpText
    {
      map a | a in commands :: commands[a].helpText.GetOr("")
    }

    /** What parsing one level reads of the registrations. */
    ghost function Config(): S.Config
      reads this, Repr
      requires Wf()
    {
      S.Config(flags, options, CommandHelp(),
               helpText, versionText, helpCommandEnabled)
    }

    /** What parsing one level changes. */
    ghost function Level(): S.Level
      reads this
    {
      S.Level(flagCounts, optionValues, args, commandName)
    }

    ghost function Snapshot(): After
      reads this
    {
      After(Level(), commandParser, callbackLog)
    }

    /** A child of a valid parser is valid. */
    lemma ChildValid(a: string)
      requires Valid() && a in commands
      ensures commands[a].Valid() && commands[a].Repr < Repr
    {
      var c := commands[a];
      assert this !in c.Repr;
    }

    /** A parse of `rest` starting at this level, followed down through every dispatch: the
        parsers it runs, how it ends, and, when it completes, what each parser on the way holds
        afterwards — its level as `RunLevel` leaves it, the command parser it dispatched to, and
        its callback log extended by the command name when it was dispatched to and has a
        callback. */
    ghost function Trace(rest: seq<string>): (t: Run)
      reads this, Repr
      requires Valid()
      ensures this in t.path && t.path <= Repr
      ensures t.outcome.Completed? ==> t.final.Keys == t.path
      ensures !t.outcome.Completed? ==> t.final == map[]
      ensures t.outcome.Completed? ==> forall p | p in t.path ::
        |t.final[p].level.counts| == |p.flagCounts| && |t.final[p].level.values| == |p.optionValues|
      decreases |rest|
    {
      match S.RunLevel(Config(), Level(), rest, true)
      case Finished(lv) => Run({this}, Completed, map[this := After(lv, commandParser, callbackLog)])
      case Stopped(h) => Run({this}, Halted(h), map[])
      case Dispatched(lv, name, more) =>
        ChildValid(name);
        var c := commands[name];
        AfterDispatch(this, After(lv, c, callbackLog), c, name, c.hasCallback, c.Trace(more))
    }

    /** A trace depends only on the parsers in `Repr`. */
    twostate lemma TraceFrame(rest: seq<string>)
      requires old(Valid()) && unchanged(old(Repr))
      ensures Valid() && Trace(rest) == old(Trace(rest))
    {
    }

    /** A change to this parser alone that keeps its own conditions keeps it valid: no other
        parser in `Repr` can reach this one. */
    twostate lemma OwnChange()
      requires old(Valid()) && Wf() && Repr == old(Repr) && unchanged(old(Repr) - {this})
      ensures Valid()
    {
      forall p | p in Repr && p != this
        ensures p.Wf()
      {
        assert old(p.Wf()) && this !in p.Repr;
      }
    }

    /** Attaching a valid parser that cannot reach this one as a command keeps this parser
        valid. */
    twostate lemma Attached(parser: ArgParser)
      requires old(Valid()) && old(parser.Valid()) && this !in old(parser.Repr)
      requires unchanged(old(Repr) - {this}) && unchanged(old(parser.Repr))
      requires Repr == old(Repr) + old(parser.Repr)
      requires flags == old(flags) && options == old(options)
      requires flagCounts == old(flagCounts) && optionValues == old(optionValues)
      requires forall a | a in commands :: commands[a] in old(commands.Values) || commands[a] == parser
      ensures Valid()
    {
      forall p | p in Repr
        ensures p.Wf()
      {
        assert p in old(Repr) || p in old(parser.Repr);
      }
    }

    /** Parsing keeps a valid parser valid: it leaves the registrations alone and changes only
        the contents of the arenas, never their sizes. */
    twostate lemma StaysValid()
      requires old(Valid())
      requires unchanged(old(Repr)`Repr, old(Repr)`flags, old(Repr)`options, old(Repr)`commands)
      requires forall p | p in old(Repr) ::
        |p.flagCounts| == old(|p.flagCounts|) && |p.optionValues| == old(|p.optionValues|)
      ensures Valid()
    {
      forall p | p in Repr
        ensures p.Wf()
      {
        assert old(p.Wf());
      }
    }

    // -------------------------------------------------------------------------------------------
    // Registration.
    // -------------------------------------------------------------------------------------------

    constructor ()
      ensures Valid() && fresh(this) && Repr == {this}
      ensures helpText == None && versionText == None
      ensures flags == map[] && flagCounts == [] && options == map[] && optionValues == []
      ensures commands == map[] && !hasCallback && !helpCommandEnabled
      ensures commandName == None && commandParser == null && args == [] && callbackLog == []
    {
      helpText := None;
      versionText := None;
      flags := map[];
      flagCounts := [];
      options := map[];
      optionValues := [];
      commands := map[];
      hasCallback := false;
      helpCommandEnabled := false;
      commandName := None;
      commandParser := null;
      args := [];
      callbackLog := [];
      Repr := {this};
    }

    /** Registers a helptext, which also switches on `--help` and `-h`. */
    method SetHelptext(text: string)
      requires Valid()
      modifies this`helpText
      ensures Valid() && helpText == Some(text)
    {
      helpText := Some(text);
    }

    /** Registers a version string, which also switches on `--version` and `-v`. */
    method SetVersion(text: string)
      requires Valid()
      modifies this`versionText
      ensures Valid() && versionText == Some(text)
    {
      versionText := Some(text);
    }

    /** Registers a flag under every space-separated alias of `name`; all of them count into one
        new slot that starts at zero. */
    method Flag(name: string)
      requires Valid()
      modifies this`flags, this`flagCounts
      ensures Valid()
      ensures flagCounts == old(flagCounts) + [0]
      ensures flags == old(flags) + map a | a in Words(name) :: |old(flagCounts)|
    {
      var k := |flagCounts|;
      flagCounts := flagCounts + [0];
      flags := BindAll(flags, Words(name), k);
      OwnChange();
    }

    /** Registers an option under every space-separated alias of `name`; all of them collect
        into one new, empty value list. */
    method Option(name: string)
      requires Valid()
      modifies this`options, this`optionValues
      ensures Valid()
      ensures optionValues == old(optionValues) + [[]]
      ensures options == old(options) + map a | a in Words(name) :: |old(optionValues)|
    {
      var k := |optionValues|;
      optionValues := optionValues + [[]];
      options := BindAll(options, Words(name), k);
      OwnChange();
    }

    /** Registers `parser` as a command under every space-separated alias of `name`. A command
        parser with a helptext switches on the `help <command>` command. */
    method Command(name: string, parser: ArgParser)
      requires Valid() && parser.Valid() && this !in parser.Repr
      modifies this`commands, this`helpCommandEnabled, this`Repr
      ensures Valid()
      ensures commands == old(commands) + map a | a in Words(name) :: parser
      ensures helpCommandEnabled == (old(helpCommandEnabled) || parser.helpText.Some?)
      ensures Repr == old(Repr) + parser.Repr
    {
      commands := BindAll(commands, Words(name), parser);
      if parser.helpText.Some? {
        helpCommandEnabled := true;
      }
      Repr := Repr + parser.Repr;
      Attached(parser);
    }

    /** Registers a callback, invoked after this parser has parsed the tokens of its command. */
    method Callback()
      requires Valid()
      modifies this`hasCallback
      ensures Valid() && hasCallback
    {
      hasCallback := true;
    }

    /** Switches the `help <command>` command on or off. */
    method EnableHelpCommand(enable: bool)
      requires Valid()
      modifies this`helpCommandEnabled
      ensures Valid() && helpCommandEnabled == enable
    {
      helpCommandEnabled := enable;
    }

    // -------------------------------------------------------------------------------------------
    // Queries.
    // -------------------------------------------------------------------------------------------

    /** `count(name)`: what a parse has left in the slot of a flag or an option; querying a name
        that is neither is an error. */
    function Count(name: string): (r: Result<nat>)
      reads this, Repr
      requires Wf()
      ensures r == S.Count(Config(), Level(), name)
    {
      if name in flags then Success(flagCounts[flags[name]])
      else if name in options then Success(|optionValues[options[name]]|)
      else Failure(Error(UnregisteredQuery))
    }

    /** `found(name)`: `count(name) > 0`. */
    function Found(name: string): (r: Result<bool>)
      reads this, Repr
      requires Wf()
      ensures r == S.Found(Config(), Level(), name)
    {
      match Count(name)
      case Failure(h) => Failure(h)
      case Success(n) => Success(n > 0)
    }

    /** `values(name)`: the list of an option; querying a name that is not an option is an
        error. */
    function Values(name: string): (r: Result<seq<string>>)
      reads this, Repr
      requires Wf()
      ensures r == S.Values(Config(), Level(), name)
    {
      if name in options then Success(optionValues[options[name]])
      else Failure(Error(UnregisteredQuery))
    }

    /** `value(name)`: the last entry of an option's list, if any. */
    function Value(name: string): (r: Result<Option<string>>)
      reads this, Repr
      requires Wf()
      ensures r == S.Value(Config(), Level(), name)
    {
      if name in options then
        var vs := optionValues[options[name]];
        Success(if vs == [] then None else Some(vs[|vs| - 1]))
      else Failure(Error(UnregisteredQuery))
    }

    // -------------------------------------------------------------------------------------------
    // Parsing.
    // -------------------------------------------------------------------------------------------

    /** `cfg` describes this parser's own registrations and fits its arenas: what the option
        handlers read. */
    ghost predicate Serves(cfg: S.Config)
      reads this`flags, this`options, this`helpText, this`versionText, this`flagCounts, this`optionValues
    {
      && cfg.flags == flags && cfg.options == options
      && cfg.helptext == helpText && cfg.version == versionText
      && S.Indexes(cfg, |flagCounts|, |optionValues|)
    }

    /** `cfg` describes everything the dispatch loop of this level reads. */
    ghost predicate Describes(cfg: S.Config)
      reads this`flags, this`options, this`helpText, this`versionText, this`flagCounts, this`optionValues
      reads this`helpCommandEnabled, this`commands, commands.Values`helpText
    {
      && Serves(cfg)
      && cfg.helpCommand == helpCommandEnabled
      && cfg.commandHelp == CommandHelp()
    }

    /** `--name=value` or `-n=value` without the dashes. */
    method ParseEqualsOption(arg: string, ghost cfg: S.Config, ghost rest: seq<string>)
      returns (halt: Option<Halt>)
      requires Serves(cfg) && '=' in arg
      modifies this`optionValues
      ensures |flagCounts| == old(|flagCounts|) && |optionValues| == old(|optionValues|)
      ensures match old(S.EqualsOption(cfg, Level(), arg, rest))
        case Stop(h) => halt == Some(h)
        case Continue(lv, _) => halt == None && Level() == lv
    {
      var (name, value) := SplitAtEquals(arg);
      if name !in options {
        return Some(Error(UnknownOption));
      }
      if value == "" {
        return Some(Error(MissingValue));
      }
      var k := options[name];
      optionValues := optionValues[k := optionValues[k] + [value]];
      return None;
    }

    /** A token that started with `--`, without the dashes. */
    method ParseLongOption(name: string, stream: ArgStream, ghost cfg: S.Config)
      returns (halt: Option<Halt>)
      requires Serves(cfg) && stream.Valid()
      modifies this`flagCounts, this`optionValues, stream
      ensures stream.Valid()
      ensures |flagCounts| == old(|flagCounts|) && |optionValues| == old(|optionValues|)
      ensures match old(S.LongOption(cfg, Level(), name, stream.Rest()))
        case Stop(h) => halt == Some(h)
        case Continue(lv, rest) => halt == None && Level() == lv && stream.Rest() == rest
    {
      if '=' in name {
        halt := ParseEqualsOption(name, cfg, stream.Rest());
      } else if name in flags {
        var k := flags[name];
        flagCounts := flagCounts[k := flagCounts[k] + 1];
        halt := None;
      } else if name in options {
        if stream.HasNext() {
          var v := stream.Next();
          var k := options[name];
          optionValues := optionValues[k := optionValues[k] + [v]];
          halt := None;
        } else {
          halt := Some(Error(MissingValue));
        }
      } else if name == "help" && helpText.Some? {
        halt := Some(Help(helpText.value));
      } else if name == "version" && versionText.Some? {
        halt := Some(Version(versionText.value));
      } else {
        halt := Some(Error(UnknownOption));
      }
    }

    /** One character of a short cluster. */
    method ParseShortChar(c: char, stream: ArgStream, ghost cfg: S.Config)
      returns (halt: Option<Halt>)
      requires Serves(cfg) && stream.Valid()
      modifies this`flagCounts, this`optionValues, stream
      ensures stream.Valid() && Serves(cfg)
      ensures |flagCounts| == old(|flagCounts|) && |optionValues| == old(|optionValues|)
      ensures match old(S.ShortChar(cfg, Level(), c, stream.Rest()))
        case Stop(h) => halt == Some(h)
        case Continue(lv, rest) => halt == None && Level() == lv && stream.Rest() == rest
    {
      if [c] in flags {
        var k := flags[[c]];
        flagCounts := flagCounts[k := flagCounts[k] + 1];
        halt := None;
      } else if [c] in options {
        if stream.HasNext() {
          var v := stream.Next();
          var k := options[[c]];
          optionValues := optionValues[k := optionValues[k] + [v]];
          halt := None;
        } else {
          halt := Some(Error(MissingValue));
        }
      } else if c == 'h' && helpText.Some? {
        halt := Some(Help(helpText.value));
      } else if c == 'v' && versionText.Some? {
        halt := Some(Version(versionText.value));
      } else {
        halt := Some(Error(UnknownOption));
      }
    }

    /** The characters of a short cluster, left to right, until one of them halts. */
    method ParseCluster(body: string, stream: ArgStream, ghost cfg: S.Config)
      returns (halt: Option<Halt>)
      requires Serves(cfg) && stream.Valid()
      modifies this`flagCounts, this`optionValues, stream
      ensures stream.Valid()
      ensures |flagCounts| == old(|flagCounts|) && |optionValues| == old(|optionValues|)
      ensures match old(S.Cluster(cfg, Level(), body, stream.Rest()))
        case Stop(h) => halt == Some(h)
        case Continue(lv, rest) => halt == None && Level() == lv && stream.Rest() == rest
    {
      ghost var r0 := S.Cluster(cfg, Level(), body, stream.Rest());
      var i := 0;
      while i < |body|
        invariant 0 <= i <= |body|
        invariant Serves(cfg) && stream.Valid()
        invariant |flagCounts| == old(|flagCounts|) && |optionValues| == old(|optionValues|)
        invariant S.Cluster(cfg, Level(), body[i..], stream.Rest()) == r0
      {
        ghost var step := S.ShortChar(cfg, Level(), body[i], stream.Rest());
        S.ClusterAt(cfg, Level(), body, i, stream.Rest());
        halt := ParseShortChar(body[i], stream, cfg);
        if halt.Some? {
          assert step.Stop?;
          return;
        }
        assert step.Continue? && Level() == step.level && stream.Rest() == step.rest;
        i := i + 1;
      }
      assert body[i..] == [];
      return None;
    }

    /** A token that started with a single `-`, without the dash: an equals form or a cluster. */
    method ParseShortOption(body: string, stream: ArgStream, ghost cfg: S.Config)
      returns (halt: Option<Halt>)
      requires Serves(cfg) && stream.Valid()
      modifies this`flagCounts, this`optionValues, stream
      ensures stream.Valid()
      ensures |flagCounts| == old(|flagCounts|) && |optionValues| == old(|optionValues|)
      ensures match old(S.ShortOption(cfg, Level(), body, stream.Rest()))
        case Stop(h) => halt == Some(h)
        case Continue(lv, rest) => halt == None && Level() == lv && stream.Rest() == rest
    {
      if '=' in body {
        halt := ParseEqualsOption(body, cfg, stream.Rest());
      } else {
        halt := ParseCluster(body, stream, cfg);
      }
    }

    /** `--`: every remaining token becomes a positional, in order. */
    method DrainRest(stream: ArgStream)
      requires stream.Valid()
      modifies this`args, stream
      ensures stream.Valid() && !stream.HasNext()
      ensures args == old(args) + old(stream.Rest())
    {
      while stream.HasNext()
        invariant stream.Valid() && old(args) + old(stream.Rest()) == args + stream.Rest()
        decreases |stream.args| - stream.index
      {
        var t := stream.Next();
        args := args + [t];
      }
    }

    /** `help <command>`, the token after `help` naming the command. */
    method HelpCommand(stream: ArgStream, ghost cfg: S.Config) returns (halt: Halt)
      requires Describes(cfg) && stream.Valid()
      modifies stream
      ensures stream.Valid() && halt == old(S.HelpCommand(cfg, stream.Rest()))
    {
      if stream.HasNext() {
        var name := stream.Next();
        if name in commands {
          halt := Help(commands[name].helpText.GetOr(""));
        } else {
          halt := Error(UnknownCommand);
        }
      } else {
        halt := Error(MissingValue);
      }
    }

    /** A level that dispatches on `arg` runs the command's parser on the remaining tokens;
        when that completes, the command's parser has had its callback invoked and this level
        records the command. */
    lemma TraceDispatch(arg: string, more: seq<string>)
      requires Valid() && S.DispatchesOn(Config(), [arg] + more, true)
      ensures arg in commands && commands[arg].Valid() && this !in commands[arg].Repr
      ensures var c := commands[arg];
        var mine := After(Level().(commandName := Some(arg)), c, callbackLog);
        && this !in c.Trace(more).path
        && Trace([arg] + more) == AfterDispatch(this, mine, c, arg, c.hasCallback, c.Trace(more))
    {
      assert ([arg] + more)[0] == arg && ([arg] + more)[1..] == more;
      ChildValid(arg);
    }

    /** The command `arg` with parser `parser`, whose parse of the remaining tokens is `tc`:
        that parser takes the rest of the stream, this parser records the command and, when the
        parse completes, the command's callback is invoked. The command's parser cannot reach
        this one, so recording the command after its parse is the same as recording it
        before. */
    method RunCommand(arg: string, parser: ArgParser, stream: ArgStream, ghost tc: Run)
      returns (outcome: Outcome)
      requires parser.Valid() && stream.Valid() && this !in parser.Repr
      requires tc == parser.Trace(stream.Rest())
      modifies this`commandName, this`commandParser
      modifies tc.path`flagCounts, tc.path`optionValues, tc.path`args, tc.path`commandName
      modifies tc.path`commandParser, tc.path`callbackLog
      modifies stream
      ensures stream.Valid() && outcome == tc.outcome
      ensures var mine := After(old(Level()).(commandName := Some(arg)), parser, callbackLog);
        var r := AfterDispatch(this, mine, parser, arg, parser.hasCallback, tc);
        outcome.Completed? ==> !stream.HasNext() && forall p | p in r.path :: p.Snapshot() == r.final[p]
      decreases |stream.args| - stream.index + 1, 0
    {
      outcome := parser.ParseStream(stream, tc.path);
      label Back:
      commandName := Some(arg);
      commandParser := parser;
      if outcome.Completed? && parser.hasCallback {
        parser.callbackLog := parser.callbackLog + [arg];
      }
      if outcome.Completed? {
        ghost var r := AfterDispatch(this, After(old(Level()).(commandName := Some(arg)), parser, callbackLog),
                                     parser, arg, parser.hasCallback, tc);
        forall p | p in r.path
          ensures p.Snapshot() == r.final[p]
        {
          if p != this && p != parser {
            assert p.Snapshot() == old@Back(p.Snapshot());
          }
        }
      }
    }

    /** The first token `arg` named a command: the parse continues as `RunCommand` on that
        command's parser. */
    method Dispatch(arg: string, stream: ArgStream, ghost path: set<ArgParser>) returns (outcome: Outcome)
      requires Valid() && stream.Valid()
      requires S.DispatchesOn(Config(), [arg] + stream.Rest(), true)
      requires path == Trace([arg] + stream.Rest()).path
      modifies path`flagCounts, path`optionValues
      modifies path`args, path`commandName
      modifies path`commandParser, path`callbackLog
      modifies stream
      ensures stream.Valid()
      ensures var t := old(Trace([arg] + stream.Rest()));
        && outcome == t.outcome
        && (outcome.Completed? ==> !stream.HasNext() && forall p | p in t.path :: p.Snapshot() == t.final[p])
      decreases |stream.args| - stream.index + 1, 1
    {
      TraceDispatch(arg, stream.Rest());
      var parser := commands[arg];
      outcome := RunCommand(arg, parser, stream, parser.Trace(stream.Rest()));
    }

    /** One pass of the dispatch loop on the token `arg` just read: both results are `None`
        when the loop goes on, `halt` is set when the parse stops and `command` when `arg` names
        a command, whose parser then takes the rest of the stream. */
    method ParseToken(arg: string, stream: ArgStream, ghost cfg: S.Config, isFirstArg: bool)
      returns (halt: Option<Halt>, command: Option<string>)
      requires Describes(cfg) && stream.Valid()
      modifies this`flagCounts, this`optionValues, this`args, stream
      ensures stream.Valid()
      ensures |flagCounts| == old(|flagCounts|) && |optionValues| == old(|optionValues|)
      ensures match old(S.Token(cfg, Level(), arg, stream.Rest(), isFirstArg))
        case Next(lv, rest) => halt == None && command == None && Level() == lv && stream.Rest() == rest
        case End(e) =>
          || (e.Stopped? && halt == Some(e.halt))
          || (e.Dispatched? && halt == None && command == Some(e.name) && unchanged(this)
              && stream.Rest() == e.rest)
    {
      command := None;
      if arg == "--" {
        DrainRest(stream);
        halt := None;
      } else if StartsWith(arg, "--") {
        halt := ParseLongOption(arg[2..], stream, cfg);
      } else if StartsWith(arg, "-") {
        if arg == "-" {
          args := args + [arg];
          halt := None;
        } else if IsDigit(arg[1]) {
          args := args + [arg];
          halt := None;
        } else {
          halt := ParseShortOption(arg[1..], stream, cfg);
        }
      } else if isFirstArg && arg in commands {
        halt, command := None, Some(arg);
      } else if isFirstArg && helpCommandEnabled && arg == "help" {
        var h := HelpCommand(stream, cfg);
        halt := Some(h);
      } else {
        args := args + [arg];
        halt := None;
      }
    }

    /** One pass of the dispatch loop: the next token, handled as `RunLevel` takes it. A halt
        or a dispatch ends the level as `RunLevel` says; otherwise the level goes on with the
        tokens still to come. */
    method ParseNext(stream: ArgStream, ghost cfg: S.Config, isFirstArg: bool)
      returns (halt: Option<Halt>, command: Option<string>)
      requires Describes(cfg) && stream.Valid() && stream.HasNext()
      modifies this`flagCounts, this`optionValues, this`args, stream
      ensures stream.Valid() && Describes(cfg)
      ensures var r := old(S.RunLevel(cfg, Level(), stream.Rest(), isFirstArg));
        if halt.Some? || command.Some? then
          || (r.Stopped? && halt == Some(r.halt))
          || (r.Dispatched? && halt == None && command == Some(r.name) && unchanged(this)
              && stream.Rest() == r.rest)
        else S.RunLevel(cfg, Level(), stream.Rest(), false) == r && |stream.Rest()| < old(|stream.Rest()|)
    {
      var arg := stream.Next();
      S.RunHead(cfg, Level(), arg, stream.Rest(), isFirstArg);
      halt, command := ParseToken(arg, stream, cfg, isFirstArg);
    }

    /** The dispatch loop of one level, up to the point where it hands the stream to a command:
        tokens are read and handled one at a time until the stream runs out or the parse stops. */
    method ParseLevel(stream: ArgStream, ghost cfg: S.Config)
      returns (halt: Option<Halt>, command: Option<string>)
      requires Describes(cfg) && stream.Valid()
      modifies this`flagCounts, this`optionValues, this`args, stream
      ensures stream.Valid()
      ensures match old(S.RunLevel(cfg, Level(), stream.Rest(), true))
        case Finished(lv) => halt == None && command == None && Level() == lv && !stream.HasNext()
        case Stopped(h) => halt == Some(h)
        case Dispatched(_, name, rest) =>
          halt == None && command == Some(name) && unchanged(this) && stream.Rest() == rest
    {
      ghost var r0 := S.RunLevel(cfg, Level(), stream.Rest(), true);
      var isFirstArg := true;
      while stream.HasNext()
        invariant stream.Valid() && Describes(cfg)
        invariant isFirstArg ==> unchanged(this) && stream.Rest() == old(stream.Rest())
        invariant S.RunLevel(cfg, Level(), stream.Rest(), isFirstArg) == r0
        decreases |stream.args| - stream.index
      {
        halt, command := ParseNext(stream, cfg, isFirstArg);
        if halt.Some? || command.Some? {
          return;
        }
        isFirstArg := false;
      }
      return None, None;
    }

    /** `parseStream`: this level's loop, then the command's parser when the first token
        names a command. */
    method ParseStream(stream: ArgStream, ghost path: set<ArgParser>) returns (outcome: Outcome)
      requires Valid() && stream.Valid() && path == Trace(stream.Rest()).path
      modifies path`flagCounts, path`optionValues
      modifies path`args, path`commandName
      modifies path`commandParser, path`callbackLog
      modifies stream
      ensures stream.Valid()
      ensures var t := old(Trace(stream.Rest()));
        && outcome == t.outcome
        && (outcome.Completed? ==> !stream.HasNext() && forall p | p in t.path :: p.Snapshot() == t.final[p])
      decreases |stream.args| - stream.index, 2
    {
      ghost var rest := stream.Rest();
      var halt, command := ParseLevel(stream, Config());
      if halt.Some? {
        return Halted(halt.value);
      }
      if command.Some? {
        assert rest == [command.value] + stream.Rest();
        TraceFrame(rest);
        outcome := Dispatch(command.value, stream, path);
        return;
      }
      return Completed;
    }

    /** `parse(args)`: parses the given tokens from the first one on. A completed parse leaves
        every parser on the dispatch path as its trace describes and the whole tree valid, so
        it can be queried. */
    method Parse(tokens: seq<string>) returns (outcome: Outcome)
      requires Valid()
      modifies Trace(tokens).path`flagCounts, Trace(tokens).path`optionValues
      modifies Trace(tokens).path`args, Trace(tokens).path`commandName
      modifies Trace(tokens).path`commandParser, Trace(tokens).path`callbackLog
      ensures var t := old(Trace(tokens));
        && outcome == t.outcome
        && (outcome.Completed? ==> Valid() && forall p | p in t.path :: p.Snapshot() == t.final[p])
    {
      var stream := new ArgStream(tokens);
      TraceFrame(tokens);
      ghost var t := Trace(tokens);
      outcome := ParseStream(stream, t.path);
      if outcome.Completed? {
        forall p | p in old(Repr)
          ensures |p.flagCounts| == old(|p.flagCounts|) && |p.optionValues| == old(|p.optionValues|)
        {
          if p in t.path {
            assert p.Level() == t.final[p].level;
          }
        }
        StaysValid();
      }
    }
  }
}
