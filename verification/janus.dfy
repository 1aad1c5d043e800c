/** The older, typed engine (Sources/Janus/Janus.swift) as a class. Each `Option` record of the
    source is a slot of the arena `records`, shared by all of its aliases; a command parser is
    created by `NewCmd` itself. Every parsing method is proved against the functions of
    `JanusSpec`. */
module Janus {
  import opened Text
  import opened Outcomes
  import opened SwiftInt
  import opened ArgStreams
  import S = JanusSpec

  /** What one parser on the dispatch path holds once a parse has completed. */
  datatype After = After(level: S.Level, callbackRuns: nat)

  /** A parse followed through every level it reaches: see `ArgParser.Trace`. */
  datatype Run = Run(path: set<ArgParser>, outcome: Outcome, final: map<ArgParser, After>)

  /** The run of a level that dispatched to `c`, given the run `tc` of `c`: the path gains this
      level, and a completed parse leaves `c` with one more callback invocation when it has a
      callback, and this level with `mine`. */
  function AfterDispatch(self: ArgParser, mine: After, c: ArgParser, hasCallback: bool, tc: Run): (r: Run)
    requires tc.outcome.Completed? ==> c in tc.final
    ensures r.path == {self} + tc.path && r.outcome == tc.outcome
  {
    var final :=
      if tc.outcome.Completed? then
        var runs := tc.final[c].callbackRuns + (if hasCallback then 1 else 0);
        tc.final[c := tc.final[c].(callbackRuns := runs)][self := mine]
      else map[];
    Run({self} + tc.path, tc.outcome, final)
  }

  class ArgParser {
    var helpText: Option<string>
    var versionText: Option<string>
    var options: map<string, nat>
    var records: seq<S.Record>
    var commands: map<string, ArgParser>
    var arguments: seq<string>
    var command: Option<string>

    /** Command parsers carry the callback given to `newCmd`; the top-level parser has none. */
    var hasCallback: bool

    /** How often the callback has been invoked; the source passes it this parser. */
    ghost var callbackRuns: nat

    /** This parser and every parser reachable through `commands`. */
    ghost var Repr: set<ArgParser>

    /** The conditions on this parser alone: the command graph below it is acyclic and every
        alias indexes a record. */
    ghost predicate Wf()
      reads this, Repr
    {
      && this in Repr
      && (forall p | p in Repr :: p.Repr <= Repr)
      && (forall p | p in Repr && p != this :: this !in p.Repr)
      && (forall a | a in options :: options[a] < |records|)
      && (forall a | a in commands :: commands[a] in Repr && commands[a] != this)
    }

    ghost predicate Valid()
      reads this, Repr
    {
      Wf() && forall p | p in Repr :: p.Wf()
    }

    /** The helptext of each command alias, empty when its parser has none: what
        `help <command>` shows. */
    ghost function CommandHelp(): map<string, string>
      reads this`commands, commands.Values`helpText
    {
      map a | a in commands :: commands[a].helpText.GetOr("")
    }

    /** What parsing one level reads of the registrations. */
    ghost function Config(): S.Config
      reads this, Repr
      requires Wf()
    {
      S.Config(options, CommandHelp(), helpText, versionText)
    }

    /** What parsing one level changes. */
    ghost function Level(): S.Level
      reads this
    {
      S.Level(records, arguments, command)
    }

    ghost function Snapshot(): After
      reads this
    {
      After(Level(), callbackRuns)
    }

    /** A child of a valid parser is valid. */
    lemma ChildValid(a: string)
      requires Valid() && a in commands
      ensures commands[a].Valid() && commands[a].Repr < Repr
    {
      var c := commands[a];
      assert this !in c.Repr;
    }

    /** A parse of `rest` starting at this level, followed down through every dispatch: the
        parsers it runs, how it ends, and, when it completes, what each parser on the way holds
        afterwards — its level as `RunLevel` leaves it and its callback count, one higher for the
        command parser that was dispatched to. */
    ghost function Trace(rest: seq<string>): (t: Run)
      reads this, Repr
      requires Valid()
      ensures this in t.path && t.path <= Repr
      ensures t.outcome.Completed? ==> t.final.Keys == t.path
      ensures !t.outcome.Completed? ==> t.final == map[]
      ensures t.outcome.Completed? ==> forall p | p in t.path :: |t.final[p].level.records| == |p.records|
      decreases |rest|
    {
      match S.RunLevel(Config(), Level(), rest, true, true)
      case Finished(lv) => Run({this}, Completed, map[this := After(lv, callbackRuns)])
      case Stopped(h) => Run({this}, Halted(h), map[])
      case Dispatched(lv, name, more) =>
        ChildValid(name);
        var c := commands[name];
        AfterDispatch(this, After(lv, callbackRuns), c, c.hasCallback, c.Trace(more))
    }

    /** A trace depends only on the parsers in `Repr`. */
    twostate lemma TraceFrame(rest: seq<string>)
      requires old(Valid()) && unchanged(old(Repr))
      ensures Valid() && Trace(rest) == old(Trace(rest))
    {
    }

    /** A change to this parser alone that keeps its own conditions keeps it valid: no other
        parser in `Repr` can reach this one. */
    twostate lemma OwnChange()
      requires old(Valid()) && Wf() && Repr == old(Repr) && unchanged(old(Repr) - {this})
      ensures Valid()
    {
      forall p | p in Repr && p != this
        ensures p.Wf()
      {
        assert old(p.Wf()) && this !in p.Repr;
      }
    }

    /** Registering flags and options on a parser below this one, the usual way of filling in a
        command parser once `NewCmd` has returned it, keeps this parser valid. */
    twostate lemma BelowChanged(c: ArgParser)
      requires old(Valid()) && c in old(Repr) && c != this
      requires c.Valid() && c.Repr == old(c.Repr)
      requires unchanged(old(Repr) - {c})
      ensures Valid()
    {
      forall p | p in Repr
        ensures p.Wf()
      {
        if p != c {
          assert old(p.Wf());
        }
      }
    }

    /** Parsing keeps a valid parser valid: it leaves the registrations alone and never changes
        the number of records. */
    twostate lemma StaysValid()
      requires old(Valid())
      requires unchanged(old(Repr)`Repr, old(Repr)`options, old(Repr)`commands)
      requires forall p | p in old(Repr) :: |p.records| == old(|p.records|)
      ensures Valid()
    {
      forall p | p in Repr
        ensures p.Wf()
      {
        assert old(p.Wf());
      }
    }

    // -------------------------------------------------------------------------------------------
    // Registration.
    // -------------------------------------------------------------------------------------------

    /** `init(helptext:version:)`. */
    constructor (helptext: Option<string>, version: Option<string>)
      ensures Valid() && fresh(this) && Repr == {this}
      ensures helpText == helptext && versionText == version
      ensures options == map[] && records == [] && commands == map[]
      ensures arguments == [] && command == None && !hasCallback && callbackRuns == 0
    {
      helpText := helptext;
      versionText := version;
      options := map[];
      records := [];
      commands := map[];
      arguments := [];
      command := None;
      hasCallback := false;
      callbackRuns := 0;
      Repr := {this};
    }

    /** One new record, shared by every space-separated alias of `name`. */
    method Register(name: string, rec: S.Record)
      requires Valid()
      modifies this`options, this`records
      ensures Valid()
      ensures records == old(records) + [rec]
      ensures options == old(options) + map a | a in Words(name) :: |old(records)|
    {
      var k := |records|;
      records := records + [rec];
      options := BindAll(options, Words(name), k);
      OwnChange();
    }

    /** `newFlag(name)`: a bool option. */
    method NewFlag(name: string)
      requires Valid()
      modifies this`options, this`records
      ensures Valid()
      ensures records == old(records) + [S.Fresh(S.Bool, "", 0)]
      ensures options == old(options) + map a | a in Words(name) :: |old(records)|
    {
      Register(name, S.Fresh(S.Bool, "", 0));
    }

    /** `newString(name, fallback:)`. */
    method NewString(name: string, fallback: string)
      requires Valid()
      modifies this`options, this`records
      ensures Valid()
      ensures records == old(records) + [S.Fresh(S.Str, fallback, 0)]
      ensures options == old(options) + map a | a in Words(name) :: |old(records)|
    {
      Register(name, S.Fresh(S.Str, fallback, 0));
    }

    /** `newInt(name, fallback:)`. */
    method NewInt(name: string, fallback: int)
      requires Valid()
      modifies this`options, this`records
      ensures Valid()
      ensures records == old(records) + [S.Fresh(S.Integer, "", fallback)]
      ensures options == old(options) + map a | a in Words(name) :: |old(records)|
    {
      Register(name, S.Fresh(S.Integer, "", fallback));
    }

    /** `newCmd(name, helptext:callback:)`: a new parser with the helptext and a callback,
        registered under every space-separated alias of `name` and returned. */
    method NewCmd(name: string, helptext: string) returns (parser: ArgParser)
      requires Valid()
      modifies this`commands, this`Repr
      ensures Valid() && fresh(parser) && parser.Valid() && parser.Repr == {parser}
      ensures parser.helpText == Some(helptext) && parser.versionText == None && parser.hasCallback
      ensures parser.options == map[] && parser.records == [] && parser.commands == map[]
      ensures parser.arguments == [] && parser.command == None && parser.callbackRuns == 0
      ensures commands == old(commands) + map a | a in Words(name) :: parser
      ensures Repr == old(Repr) + {parser}
    {
      parser := new ArgParser(Some(helptext), None);
      parser.hasCallback := true;
      Attach(name, parser);
    }

    /** Registers `c`, a valid parser that shares no parser with this one, under every alias of
        `name`; the parsers below `c` join this parser's tree. */
    method Attach(name: string, c: ArgParser)
      requires Valid() && c.Valid() && Repr !! c.Repr
      modifies this`commands, this`Repr
      ensures Valid()
      ensures commands == old(commands) + map a | a in Words(name) :: c
      ensures Repr == old(Repr) + c.Repr
    {
      commands := BindAll(commands, Words(name), c);
      Repr := Repr + c.Repr;
      Adopted(c);
    }

    /** Adding a valid parser, and the parsers below it, to `Repr` and to the commands of this
        parser keeps this parser valid when the two trees share no parser. */
    twostate lemma Adopted(c: ArgParser)
      requires old(Valid()) && c.Valid() && old(Repr) !! c.Repr
      requires Repr == old(Repr) + c.Repr && unchanged(old(Repr) - {this})
      requires options == old(options) && records == old(records)
      requires forall a | a in commands :: commands[a] == c || (a in old(commands) && commands[a] == old(commands)[a])
      ensures Valid()
    {
      forall p | p in Repr
        ensures p.Wf()
      {
        if p in old(Repr) && p != this {
          assert old(p.Wf());
        } else if p in c.Repr {
          assert p.Wf();
        }
      }
    }

    /** Every parser of a valid tree is itself valid. */
    lemma MemberValid(p: ArgParser)
      requires Valid() && p in Repr
      ensures p.Valid()
    {
    }

    /** `c.newCmd(name, helptext:callback:)` for a parser `c` anywhere in this tree: `c` gains a
        new command parser, which also joins the footprint of every parser above `c`, so the
        tree stays valid and can be filled in and parsed. */
    method NewCmdIn(c: ArgParser, name: string, helptext: string) returns (parser: ArgParser)
      requires Valid() && c in Repr
      modifies c`commands, Repr`Repr
      ensures Valid() && fresh(parser) && parser.Valid() && parser.Repr == {parser}
      ensures parser.helpText == Some(helptext) && parser.versionText == None && parser.hasCallback
      ensures parser.options == map[] && parser.records == [] && parser.commands == map[]
      ensures parser.arguments == [] && parser.command == None && parser.callbackRuns == 0
      ensures c.commands == old(c.commands) + map a | a in Words(name) :: parser
      ensures Repr == old(Repr) + {parser}
      ensures forall p | p in old(Repr) :: p.Repr == old(p.Repr) + (if c in old(p.Repr) then {parser} else {})
    {
      MemberValid(c);
      ghost var tree := Repr;
      parser := c.NewCmd(name, helptext);
      forall p | p in tree && p != c && c in p.Repr {
        p.Repr := p.Repr + {parser};
      }
      Regrown(c, parser);
    }

    /** A new parser below `c`, added to the footprint of `c` and of every parser above it,
        keeps this parser valid. */
    twostate lemma Regrown(c: ArgParser, new g: ArgParser)
      requires old(Valid()) && c in old(Repr)
      requires fresh(g) && g.Valid() && g.Repr == {g}
      requires forall p | p in old(Repr) :: p.Repr == old(p.Repr) + (if c in old(p.Repr) then {g} else {})
      requires forall p | p in old(Repr) :: p.options == old(p.options) && |p.records| == old(|p.records|)
      requires forall p | p in old(Repr) && p != c :: p.commands == old(p.commands)
      requires forall a | a in c.commands :: c.commands[a] == g || (a in old(c.commands) && c.commands[a] == old(c.commands)[a])
      ensures Valid() && Repr == old(Repr) + {g}
    {
      assert g !in old(Repr);
      forall p | p in Repr
        ensures p.Wf()
      {
        if p != g {
          assert p in old(Repr) && old(p.Wf());
        }
      }
    }

    // -------------------------------------------------------------------------------------------
    // Queries.
    // -------------------------------------------------------------------------------------------

    /** `found(name)`; querying an unregistered name is an error. */
    function Found(name: string): (r: Result<bool>)
      reads this, Repr
      requires Wf()
      ensures r == S.Found(Config(), Level(), name)
    {
      if name in options then Success(records[options[name]].found) else Failure(Error(UnregisteredQuery))
    }

    /** `getFlag(name)`. */
    function GetFlag(name: string): (r: Result<bool>)
      reads this, Repr
      requires Wf()
      ensures r == S.GetFlag(Config(), Level(), name)
    {
      if name in options then
        var bs := records[options[name]].bools;
        Success(if bs == [] then false else bs[|bs| - 1])
      else Failure(Error(UnregisteredQuery))
    }

    /** `getString(name)`. */
    function GetString(name: string): (r: Result<string>)
      reads this, Repr
      requires Wf()
      ensures r == S.GetString(Config(), Level(), name)
    {
      if name in options then
        var rec := records[options[name]];
        Success(if rec.strings == [] then rec.fallbackString else rec.strings[|rec.strings| - 1])
      else Failure(Error(UnregisteredQuery))
    }

    /** `getInt(name)`. */
    function GetInt(name: string): (r: Result<int>)
      reads this, Repr
      requires Wf()
      ensures r == S.GetInt(Config(), Level(), name)
    {
      if name in options then
        var rec := records[options[name]];
        Success(if rec.ints == [] then rec.fallbackInt else rec.ints[|rec.ints| - 1])
      else Failure(Error(UnregisteredQuery))
    }

    /** `lenList(name)`. */
    function LenList(name: string): (r: Result<nat>)
      reads this, Repr
      requires Wf()
      ensures r == S.LenList(Config(), Level(), name)
    {
      if name in options then
        var rec := records[options[name]];
        Success(match rec.kind
          case Bool => |rec.bools|
          case Str => |rec.strings|
          case Integer => |rec.ints|)
      else Failure(Error(UnregisteredQuery))
    }

    /** `getStringList(name)`. */
    function GetStringList(name: string): (r: Result<seq<string>>)
      reads this, Repr
      requires Wf()
      ensures r == S.GetStringList(Config(), Level(), name)
    {
      if name in options then Success(records[options[name]].strings) else Failure(Error(UnregisteredQuery))
    }

    /** `getIntList(name)`. */
    function GetIntList(name: string): (r: Result<seq<int>>)
      reads this, Repr
      requires Wf()
      ensures r == S.GetIntList(Config(), Level(), name)
    {
      if name in options then Success(records[options[name]].ints) else Failure(Error(UnregisteredQuery))
    }

    /** `hasCmd()`. */
    function HasCmd(): (r: bool)
      reads this
      ensures r <==> GetCmd().Some?
    {
      command != None
    }

    /** `getCmd()`. */
    function GetCmd(): (r: Option<string>)
      reads this
      ensures r == Level().command
    {
      command
    }

    /** `getCmdParser()`: the parser registered under the command found, if any. */
    function GetCmdParser(): (r: ArgParser?)
      reads this
      ensures r != null <==> GetCmd().Some? && GetCmd().value in commands
      ensures r != null ==> r == commands[GetCmd().value]
    {
      if command.Some? && command.value in commands then commands[command.value] else null
    }

    /** `hasArgs()`. */
    function HasArgs(): (r: bool)
      reads this
      ensures r <==> NumArgs() > 0
    {
      |arguments| > 0
    }

    /** `numArgs()`. */
    function NumArgs(): (r: nat)
      reads this
      ensures r == |GetArgs()|
    {
      |arguments|
    }

    /** `getArgs()`. */
    function GetArgs(): (r: seq<string>)
      reads this
      ensures r == Level().arguments
    {
      arguments
    }

    /** `getArgsAsInts()`: all or nothing — one integer per positional, in order, or an error as
        soon as one positional is not an integer. */
    method GetArgsAsInts() returns (r: Result<seq<int>>)
      ensures r.Success? <==> forall i | 0 <= i < |arguments| :: ParseInt(arguments[i]).Some?
      ensures r.Success? ==>
        |r.value| == |arguments| && forall i | 0 <= i < |arguments| :: ParseInt(arguments[i]) == Some(r.value[i])
      ensures r.Failure? ==> r.halt == Error(InvalidNumericValue)
    {
      var ints: seq<int> := [];
      var i := 0;
      while i < |arguments|
        invariant 0 <= i <= |arguments| && |ints| == i
        invariant forall j | 0 <= j < i :: ParseInt(arguments[j]) == Some(ints[j])
      {
        match ParseInt(arguments[i])
        case None =>
          return Failure(Error(InvalidNumericValue));
        case Some(n) =>
          ints := ints + [n];
        i := i + 1;
      }
      return Success(ints);
    }

    // -------------------------------------------------------------------------------------------
    // Parsing.
    // -------------------------------------------------------------------------------------------

    /** `cfg` describes this parser's own registrations and fits its records. */
    ghost predicate Serves(cfg: S.Config)
      reads this`options, this`helpText, this`versionText, this`records
    {
      && cfg.options == options && cfg.helptext == helpText && cfg.version == versionText
      && S.Indexes(cfg, |records|)
    }

    /** `cfg` describes everything the loop of this level reads. */
    ghost predicate Describes(cfg: S.Config)
      reads this`options, this`helpText, this`versionText, this`records, this`commands
      reads commands.Values`helpText
    {
      && Serves(cfg)
      && cfg.commandHelp == CommandHelp()
    }

    /** `option.trySet(with: arg)` on record `k`. */
    method TrySet(k: nat, arg: string) returns (halt: Option<Halt>)
      requires k < |records|
      modifies this`records
      ensures |records| == old(|records|)
      ensures match old(S.TrySet(records[k], arg))
        case Failure(h) => halt == Some(h)
        case Success(rec) => halt == None && records == old(records)[k := rec]
    {
      var rec := records[k];
      match rec.kind
      case Bool =>
        halt := None;
      case Str =>
        records := records[k := rec.(strings := rec.strings + [arg])];
        halt := None;
      case Integer =>
        match ParseInt(arg)
        case None =>
          halt := Some(Error(InvalidNumericValue));
        case Some(n) =>
          records := records[k := rec.(ints := rec.ints + [n])];
          halt := None;
    }

    /** An occurrence of the option of record `k` without an attached value. */
    method Use(k: nat, stream: ArgStream) returns (halt: Option<Halt>)
      requires k < |records| && stream.Valid()
      modifies this`records, stream
      ensures stream.Valid() && |records| == old(|records|)
      ensures match old(S.Use(Level(), k, stream.Rest()))
        case Stop(h) => halt == Some(h)
        case Continue(lv, rest) => halt == None && Level() == lv && stream.Rest() == rest
    {
      records := records[k := records[k].(found := true)];
      if records[k].kind == S.Bool {
        records := records[k := records[k].(bools := records[k].bools + [true])];
        halt := None;
      } else if stream.HasNext() {
        var v := stream.Next();
        halt := TrySet(k, v);
      } else {
        halt := Some(Error(MissingValue));
      }
    }

    /** `--name=value` or `-n=value` without the dashes. */
    method ParseEqualsOption(arg: string, ghost cfg: S.Config, ghost rest: seq<string>)
      returns (halt: Option<Halt>)
      requires Serves(cfg) && '=' in arg
      modifies this`records
      ensures |records| == old(|records|)
      ensures match old(S.EqualsOption(cfg, Level(), arg, rest))
        case Stop(h) => halt == Some(h)
        case Continue(lv, _) => halt == None && Level() == lv
    {
      var (name, value) := SplitAtEquals(arg);
      if name !in options {
        return Some(Error(UnknownOption));
      }
      var k := options[name];
      if records[k].kind == S.Bool {
        return Some(Error(FlagWithValue));
      }
      if value == "" {
        return Some(Error(MissingValue));
      }
      records := records[k := records[k].(found := true)];
      halt := TrySet(k, value);
    }

    /** A token that started with `--`, without the dashes. */
    method ParseLongOption(name: string, stream: ArgStream, ghost cfg: S.Config)
      returns (halt: Option<Halt>)
      requires Serves(cfg) && stream.Valid()
      modifies this`records, stream
      ensures stream.Valid() && |records| == old(|records|)
      ensures match old(S.LongOption(cfg, Level(), name, stream.Rest()))
        case Stop(h) => halt == Some(h)
        case Continue(lv, rest) => halt == None && Level() == lv && stream.Rest() == rest
    {
      if '=' in name {
        halt := ParseEqualsOption(name, cfg, stream.Rest());
      } else if name in options {
        halt := Use(options[name], stream);
      } else if name == "help" && helpText.Some? {
        halt := Some(Help(helpText.value));
      } else if name == "version" && versionText.Some? {
        halt := Some(Version(versionText.value));
      } else {
        halt := Some(Error(UnknownOption));
      }
    }

    /** One character of a short cluster. */
    method ParseShortChar(c: char, stream: ArgStream, ghost cfg: S.Config)
      returns (halt: Option<Halt>)
      requires Serves(cfg) && stream.Valid()
      modifies this`records, stream
      ensures stream.Valid() && Serves(cfg) && |records| == old(|records|)
      ensures match old(S.ShortChar(cfg, Level(), c, stream.Rest()))
        case Stop(h) => halt == Some(h)
        case Continue(lv, rest) => halt == None && Level() == lv && stream.Rest() == rest
    {
      if [c] in options {
        halt := Use(options[[c]], stream);
      } else if c == 'h' && helpText.Some? {
        halt := Some(Help(helpText.value));
      } else if c == 'v' && versionText.Some? {
        halt := Some(Version(versionText.value));
      } else {
        halt := Some(Error(UnknownOption));
      }
    }

    /** The characters of a short cluster, left to right, until one of them halts. */
    method ParseCluster(body: string, stream: ArgStream, ghost cfg: S.Config)
      returns (halt: Option<Halt>)
      requires Serves(cfg) && stream.Valid()
      modifies this`records, stream
      ensures stream.Valid() && |records| == old(|records|)
      ensures match old(S.Cluster(cfg, Level(), body, stream.Rest()))
        case Stop(h) => halt == Some(h)
        case Continue(lv, rest) => halt == None && Level() == lv && stream.Rest() == rest
    {
      ghost var r0 := S.Cluster(cfg, Level(), body, stream.Rest());
      var i := 0;
      while i < |body|
        invariant 0 <= i <= |body|
        invariant Serves(cfg) && stream.Valid() && |records| == old(|records|)
        invariant S.Cluster(cfg, Level(), body[i..], stream.Rest()) == r0
      {
        ghost var step := S.ShortChar(cfg, Level(), body[i], stream.Rest());
        S.ClusterAt(cfg, Level(), body, i, stream.Rest());
        halt := ParseShortChar(body[i], stream, cfg);
        if halt.Some? {
          assert step.Stop?;
          return;
        }
        assert step.Continue? && Level() == step.level && stream.Rest() == step.rest;
        i := i + 1;
      }
      assert body[i..] == [];
      return None;
    }

    /** A token that started with a single `-`, without the dash. */
    method ParseShortOption(body: string, stream: ArgStream, ghost cfg: S.Config)
      returns (halt: Option<Halt>)
      requires Serves(cfg) && stream.Valid()
      modifies this`records, stream
      ensures stream.Valid() && |records| == old(|records|)
      ensures match old(S.ShortOption(cfg, Level(), body, stream.Rest()))
        case Stop(h) => halt == Some(h)
        case Continue(lv, rest) => halt == None && Level() == lv && stream.Rest() == rest
    {
      if '=' in body {
        halt := ParseEqualsOption(body, cfg, stream.Rest());
      } else {
        halt := ParseCluster(body, stream, cfg);
      }
    }

    /** `help <command>`, the token after `help` naming the command. */
    method HelpCommand(stream: ArgStream, ghost cfg: S.Config) returns (halt: Halt)
      requires Describes(cfg) && stream.Valid()
      modifies stream
      ensures stream.Valid() && halt == old(S.HelpCommand(cfg, stream.Rest()))
    {
      if stream.HasNext() {
        var name := stream.Next();
        if name in commands {
          halt := Help(commands[name].helpText.GetOr(""));
        } else {
          halt := Error(UnknownCommand);
        }
      } else {
        halt := Error(MissingValue);
      }
    }

    /** A level that dispatches on `arg` runs the command's parser on the remaining tokens;
        when that completes, the command's parser has had its callback invoked. */
    lemma TraceDispatch(arg: string, more: seq<string>)
      requires Valid() && S.DispatchesOn(Config(), [arg] + more, true, true)
      ensures arg in commands && commands[arg].Valid() && this !in commands[arg].Repr
      ensures var c := commands[arg];
        var mine := After(Level().(command := Some(arg)), callbackRuns);
        && this !in c.Trace(more).path
        && Trace([arg] + more) == AfterDispatch(this, mine, c, c.hasCallback, c.Trace(more))
    {
      assert ([arg] + more)[0] == arg && ([arg] + more)[1..] == more;
      ChildValid(arg);
    }

    /** The command `arg` with parser `parser`, whose parse of the remaining tokens is `tc`:
        this level records the command, that parser takes the rest of the stream and, when the
        parse completes, its callback is invoked. The source records the command before the
        command's parser runs; that parser cannot reach this one, so recording it afterwards
        comes to the same. */
    method RunCommand(arg: string, parser: ArgParser, stream: ArgStream, ghost tc: Run)
      returns (outcome: Outcome)
      requires parser.Valid() && stream.Valid() && this !in parser.Repr
      requires tc == parser.Trace(stream.Rest())
      modifies this`command
      modifies tc.path`records, tc.path`arguments, tc.path`command, tc.path`callbackRuns
      modifies stream
      ensures stream.Valid() && outcome == tc.outcome
      ensures var mine := After(old(Level()).(command := Some(arg)), callbackRuns);
        var r := AfterDispatch(this, mine, parser, parser.hasCallback, tc);
        outcome.Completed? ==> !stream.HasNext() && forall p | p in r.path :: p.Snapshot() == r.final[p]
      decreases |stream.args| - stream.index + 1, 0
    {
      outcome := parser.ParseStream(stream, tc.path);
      label Back:
      command := Some(arg);
      if outcome.Completed? && parser.hasCallback {
        parser.callbackRuns := parser.callbackRuns + 1;
      }
      if outcome.Completed? {
        ghost var r := AfterDispatch(this, After(old(Level()).(command := Some(arg)), callbackRuns),
                                     parser, parser.hasCallback, tc);
        forall p | p in r.path
          ensures p.Snapshot() == r.final[p]
        {
          if p != this && p != parser {
            assert p.Snapshot() == old@Back(p.Snapshot());
          }
        }
      }
    }

    /** The first token `arg` named a command: the parse continues as `RunCommand` on that
        command's parser. */
    method Dispatch(arg: string, stream: ArgStream, ghost path: set<ArgParser>) returns (outcome: Outcome)
      requires Valid() && stream.Valid()
      requires S.DispatchesOn(Config(), [arg] + stream.Rest(), true, true)
      requires path == Trace([arg] + stream.Rest()).path
      modifies path`records, path`arguments, path`command, path`callbackRuns
      modifies stream
      ensures stream.Valid()
      ensures var t := old(Trace([arg] + stream.Rest()));
        && outcome == t.outcome
        && (outcome.Completed? ==> !stream.HasNext() && forall p | p in t.path :: p.Snapshot() == t.final[p])
      decreases |stream.args| - stream.index + 1, 1
    {
      TraceDispatch(arg, stream.Rest());
      var parser := commands[arg];
      outcome := RunCommand(arg, parser, stream, parser.Trace(stream.Rest()));
    }

    /** One pass of the loop of `parseStream` on the token `arg` just read: both results are
        `None` while the loop goes on, `halt` is set when the parse stops and `cmd` when `arg`
        names a command; `parsing'` is the new state of the `parsing` switch. */
    method ParseToken(arg: string, stream: ArgStream, ghost cfg: S.Config, isFirstArg: bool, parsing: bool)
      returns (halt: Option<Halt>, cmd: Option<string>, parsing': bool)
      requires Describes(cfg) && stream.Valid()
      modifies this`records, this`arguments, stream
      ensures stream.Valid() && |records| == old(|records|)
      ensures match old(S.Token(cfg, Level(), arg, stream.Rest(), isFirstArg, parsing))
        case Next(lv, rest, p) =>
          halt == None && cmd == None && Level() == lv && stream.Rest() == rest && parsing' == p
        case End(e) =>
          || (e.Stopped? && halt == Some(e.halt))
          || (e.Dispatched? && halt == None && cmd == Some(e.name) && unchanged(this)
              && stream.Rest() == e.rest)
    {
      halt, cmd, parsing' := None, None, parsing;
      if !parsing {
        arguments := arguments + [arg];
      } else if arg == "--" {
        parsing' := false;
      } else if StartsWith(arg, "--") {
        halt := ParseLongOption(arg[2..], stream, cfg);
      } else if StartsWith(arg, "-") {
        if arg == "-" {
          arguments := arguments + [arg];
        } else if IsDigit(arg[1]) {
          arguments := arguments + [arg];
        } else {
          halt := ParseShortOption(arg[1..], stream, cfg);
        }
      } else if isFirstArg && arg in commands {
        cmd := Some(arg);
      } else if isFirstArg && arg == "help" {
        var h := HelpCommand(stream, cfg);
        halt := Some(h);
      } else {
        arguments := arguments + [arg];
      }
    }

    /** One pass of the loop of one level: the next token, handled as `RunLevel` takes it. A
        halt or a dispatch ends the level as `RunLevel` says; otherwise the level goes on with
        the tokens still to come. */
    method ParseNext(stream: ArgStream, ghost cfg: S.Config, isFirstArg: bool, parsing: bool)
      returns (halt: Option<Halt>, cmd: Option<string>, parsing': bool)
      requires Describes(cfg) && stream.Valid() && stream.HasNext()
      modifies this`records, this`arguments, stream
      ensures stream.Valid() && Describes(cfg)
      ensures var r := old(S.RunLevel(cfg, Level(), stream.Rest(), isFirstArg, parsing));
        if halt.Some? || cmd.Some? then
          || (r.Stopped? && halt == Some(r.halt))
          || (r.Dispatched? && halt == None && cmd == Some(r.name) && unchanged(this) && stream.Rest() == r.rest)
        else S.RunLevel(cfg, Level(), stream.Rest(), false, parsing') == r && |stream.Rest()| < old(|stream.Rest()|)
    {
      var arg := stream.Next();
      S.RunHead(cfg, Level(), arg, stream.Rest(), isFirstArg, parsing);
      halt, cmd, parsing' := ParseToken(arg, stream, cfg, isFirstArg, parsing);
    }

    /** The loop of one level, up to the point where it hands the stream to a command. */
    method ParseLevel(stream: ArgStream, ghost cfg: S.Config)
      returns (halt: Option<Halt>, cmd: Option<string>)
      requires Describes(cfg) && stream.Valid()
      modifies this`records, this`arguments, stream
      ensures stream.Valid()
      ensures match old(S.RunLevel(cfg, Level(), stream.Rest(), true, true))
        case Finished(lv) => halt == None && cmd == None && Level() == lv && !stream.HasNext()
        case Stopped(h) => halt == Some(h)
        case Dispatched(_, name, rest) =>
          halt == None && cmd == Some(name) && unchanged(this) && stream.Rest() == rest
    {
      ghost var r0 := S.RunLevel(cfg, Level(), stream.Rest(), true, true);
      var parsing := true;
      var isFirstArg := true;
      while stream.HasNext()
        invariant stream.Valid() && Describes(cfg)
        invariant isFirstArg ==> parsing && unchanged(this) && stream.Rest() == old(stream.Rest())
        invariant S.RunLevel(cfg, Level(), stream.Rest(), isFirstArg, parsing) == r0
        decreases |stream.args| - stream.index
      {
        halt, cmd, parsing := ParseNext(stream, cfg, isFirstArg, parsing);
        if halt.Some? || cmd.Some? {
          return;
        }
        isFirstArg := false;
      }
      return None, None;
    }

    /** `parseStream`: this level's loop, then the command's parser when the first token
        names a command. */
    method ParseStream(stream: ArgStream, ghost path: set<ArgParser>) returns (outcome: Outcome)
      requires Valid() && stream.Valid() && path == Trace(stream.Rest()).path
      modifies path`records, path`arguments, path`command, path`callbackRuns
      modifies stream
      ensures stream.Valid()
      ensures var t := old(Trace(stream.Rest()));
        && outcome == t.outcome
        && (outcome.Completed? ==> !stream.HasNext() && forall p | p in t.path :: p.Snapshot() == t.final[p])
      decreases |stream.args| - stream.index, 2
    {
      ghost var rest := stream.Rest();
      var halt, cmd := ParseLevel(stream, Config());
      if halt.Some? {
        return Halted(halt.value);
      }
      if cmd.Some? {
        assert rest == [cmd.value] + stream.Rest();
        TraceFrame(rest);
        outcome := Dispatch(cmd.value, stream, path);
        return;
      }
      return Completed;
    }

    /** `parse(args)`: parses the given tokens from the first one on. A completed parse leaves
        every parser on the dispatch path as its trace describes and the whole tree valid. */
    method Parse(tokens: seq<string>) returns (outcome: Outcome)
      requires Valid()
      modifies Trace(tokens).path`records, Trace(tokens).path`arguments
      modifies Trace(tokens).path`command, Trace(tokens).path`callbackRuns
      ensures var t := old(Trace(tokens));
        && outcome == t.outcome
        && (outcome.Completed? ==> Valid() && forall p | p in t.path :: p.Snapshot() == t.final[p])
    {
      var stream := new ArgStream(tokens);
      TraceFrame(tokens);
      ghost var t := Trace(tokens);
      outcome := ParseStream(stream, t.path);
      if outcome.Completed? {
        forall p | p in old(Repr)
          ensures |p.records| == old(|p.records|)
        {
          if p in t.path {
            assert p.Level() == t.final[p].level;
          }
        }
        StaysValid();
      }
    }
  }
}
