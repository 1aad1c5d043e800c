# Command-line argument parsers, modelled in Dafny

This project models the two argument-parsing engines of one Swift repository and proves what
they promise about a parse.

- `src/ArgParser/argparser.swift` is the newer engine. A parser registers flags (counters),
  options (lists of strings) and commands (child parsers), each under space-separated aliases.
  It then walks a token stream: long options (`--name`, `--name=value`), short clusters (`-abc`,
  `-n=value`), `--`, positionals, a first-token command that hands the rest of the stream to
  its child parser, and an optional `help <command>`.
- `Sources/Janus/Janus.swift` is the older, typed engine. Each option record is a bool, string
  or integer option with a `found` bit, a list per type and a fallback. Integer values go
  through Swift's `Int(_:)` and fail fatally when they do not parse. The first `--` switches
  option parsing off for the rest of the level, and `help <command>` is always active.

## How the model is built

Both engines have the same layers.

- **Shared modules.**
  - `ArgStreams.ArgStream` is the token cursor both files define (an array and an index that
    only moves forward).
  - `Text` holds the alias split and the split at the first `=`.
  - `SwiftInt` is `Int(_:)` on 64-bit integers.
  - `Outcomes` turns every "print and exit" point into a value: `Error(kind)`, `Help(text)` or
    `Version(text)`.
- **Spec modules** (`ArgParserSpec`, `JanusSpec`) describe one parser level as functions on
  values.
  - A `Config` holds the alias tables. A `Level` holds what parsing changes.
  - `Token` is one pass of the dispatch loop. `RunLevel` is the whole loop of one level.
- **Engine modules** (`ArgParserEngine`, `Janus`) hold the `ArgParser` class.
  - Its fields mirror the Swift class.
  - Aliases registered together index one slot of an arena (`flagCounts`/`optionValues`, or
    `records`), as the shared `Flag`/`Option` objects do in the source.
  - Each parsing method is proved against the spec function of the same name.
  - `Trace` follows a parse down through every command dispatch. `Parse` is proved to end as
    the trace says and to leave every parser on the dispatch path as the trace describes.
  - Command trees are kept acyclic through a `Repr` footprint. In Janus, `newCmd` called on a
    command parser is `NewCmdIn`, which also grows the footprint of every parser above it, so
    trees of any depth stay valid and can be parsed.
- **Law modules** (`ArgParserLaws`, `JanusLaws`) prove what the loop promises about whole
  token sequences: counting, value order, clusters, the equals form, `--`, positionals and
  `help`.

Source paths below are relative to the repository root.

## Model

| member | source | states |
|---|---|---|
| Text.SplitAtEquals | src/ArgParser/argparser.swift:293-295 | the name part holds no '=' and name, '=' and value put back together give the whole argument |
| Text.SplitAtEqualsJoin | src/ArgParser/argparser.swift:293-295 | splitting `name=value` with an '='-free name gives back exactly `name` and `value`, later '=' staying in the value |
| Text.IndexOf | src/ArgParser/argparser.swift:293 | the index found holds the character and no earlier position does |
| Text.Words | src/ArgParser/argparser.swift:91 | splitting at spaces yields only non-empty, space-free aliases |
| Text.WordsUnwords | src/ArgParser/argparser.swift:91 | a space-joined list of aliases splits back into exactly those aliases |
| Text.BindAll | src/ArgParser/argparser.swift:91-93 | the loop binds every alias to the value, overriding earlier bindings, and keeps every other key |
| SwiftInt.ParseInt | Sources/Janus/Janus.swift:61-65 | a text that converts denotes a value in the signed 64-bit range |
| SwiftInt.ParseShow | Sources/Janus/Janus.swift:61-62 | every 64-bit integer written in decimal converts back to itself |
| ArgStreams.ArgStream.constructor | src/ArgParser/argparser.swift:36-38 | a new stream has every token still to come |
| ArgStreams.ArgStream.HasNext | src/ArgParser/argparser.swift:45-47 | true exactly when tokens remain |
| ArgStreams.ArgStream.Next | src/ArgParser/argparser.swift:40-43 | hands out the first remaining token and drops it from the remaining ones |
| ArgParserSpec.Bump | src/ArgParser/argparser.swift:245 | one more on the flag's slot, every other counter and every value list unchanged |
| ArgParserSpec.Push | src/ArgParser/argparser.swift:248 | the value appended to the option's slot, every other list and every counter unchanged |
| ArgParserSpec.EqualsOption | src/ArgParser/argparser.swift:292-306 | goes on exactly when the name before the first '=' is an option alias and the value is non-empty; otherwise unknown option or missing value, in that order |
| ArgParserSpec.LongOption | src/ArgParser/argparser.swift:241-259 | keeps the level's shape and consumes only a prefix of the tokens |
| ArgParserSpec.ShortChar | src/ArgParser/argparser.swift:269-287 | keeps the level's shape and consumes only a prefix of the tokens |
| ArgParserSpec.Cluster | src/ArgParser/argparser.swift:268-288 | keeps the level's shape and consumes only a prefix of the tokens |
| ArgParserSpec.ClusterAt | src/ArgParser/argparser.swift:268-288 | the cluster is its first character, then the rest, stopping at the first halt |
| ArgParserSpec.ShortOption | src/ArgParser/argparser.swift:262-289 | keeps the level's shape and consumes only a prefix of the tokens |
| ArgParserSpec.HelpCommand | src/ArgParser/argparser.swift:218-229 | the command's helptext exactly when a command alias follows; otherwise missing value (nothing follows) or unknown command |
| ArgParserSpec.Token | src/ArgParser/argparser.swift:186-236 | dispatches exactly on a first, non-dash token that is a command alias, recording the command and passing on the tokens after it; arena sizes never change |
| ArgParserSpec.RunLevel | src/ArgParser/argparser.swift:180-238 | a level dispatches exactly when its first token is a command alias, and then to that command with the remaining tokens; arena sizes never change |
| ArgParserSpec.Count | src/ArgParser/argparser.swift:138-146 | an error exactly when the name is neither a flag nor an option alias; otherwise the flag's counter (a flag alias first) or the number of the option's collected values |
| ArgParserSpec.Found | src/ArgParser/argparser.swift:149-151 | an error exactly when `count` is, otherwise `count > 0` |
| ArgParserSpec.Values | src/ArgParser/argparser.swift:162-167 | an error exactly for non-option names; otherwise the option's collected values, whose length is `count` for an option alias that is not a flag |
| ArgParserSpec.Value | src/ArgParser/argparser.swift:154-159 | an error exactly when `values` is; none for an empty list, else the last value collected |
| ArgParserEngine.ArgParser.Trace | src/ArgParser/argparser.swift:180-238 | the parsers a parse reaches, its outcome and, when it completes, the state of every parser reached |
| ArgParserEngine.ArgParser.constructor | src/ArgParser/argparser.swift:53-71 | a parser with nothing registered, nothing parsed, no callback and the help command off |
| ArgParserEngine.ArgParser.SetHelptext | src/ArgParser/argparser.swift:75-78 | the helptext is set and the parser stays valid |
| ArgParserEngine.ArgParser.SetVersion | src/ArgParser/argparser.swift:82-85 | the version is set and the parser stays valid |
| ArgParserEngine.ArgParser.Flag | src/ArgParser/argparser.swift:89-95 | one new zero counter, and every alias of the name bound to it |
| ArgParserEngine.ArgParser.Option | src/ArgParser/argparser.swift:99-105 | one new empty value list, and every alias of the name bound to it |
| ArgParserEngine.ArgParser.Command | src/ArgParser/argparser.swift:109-117 | every alias bound to the child; the help command is on afterwards exactly when it was on or the child has a helptext |
| ArgParserEngine.ArgParser.Callback | src/ArgParser/argparser.swift:121-124 | the parser has a callback afterwards |
| ArgParserEngine.ArgParser.EnableHelpCommand | src/ArgParser/argparser.swift:128-131 | the help command is on exactly when asked to be |
| ArgParserEngine.ArgParser.Count | src/ArgParser/argparser.swift:138-146 | agrees with `ArgParserSpec.Count` on the parser's registrations and state |
| ArgParserEngine.ArgParser.Found | src/ArgParser/argparser.swift:149-151 | agrees with `ArgParserSpec.Found` |
| ArgParserEngine.ArgParser.Values | src/ArgParser/argparser.swift:162-167 | agrees with `ArgParserSpec.Values` |
| ArgParserEngine.ArgParser.Value | src/ArgParser/argparser.swift:154-159 | agrees with `ArgParserSpec.Value` |
| ArgParserEngine.ArgParser.ParseEqualsOption | src/ArgParser/argparser.swift:292-306 | halts or changes the state exactly as `EqualsOption` says |
| ArgParserEngine.ArgParser.ParseLongOption | src/ArgParser/argparser.swift:241-259 | halts, or leaves the state and the stream exactly as `LongOption` says |
| ArgParserEngine.ArgParser.ParseShortChar | src/ArgParser/argparser.swift:269-287 | halts, or leaves the state and the stream exactly as `ShortChar` says |
| ArgParserEngine.ArgParser.ParseCluster | src/ArgParser/argparser.swift:268-288 | halts, or leaves the state and the stream exactly as `Cluster` says |
| ArgParserEngine.ArgParser.ParseShortOption | src/ArgParser/argparser.swift:262-289 | halts, or leaves the state and the stream exactly as `ShortOption` says |
| ArgParserEngine.ArgParser.DrainRest | src/ArgParser/argparser.swift:187-191 | every remaining token appended to the positionals in order, and the stream exhausted |
| ArgParserEngine.ArgParser.HelpCommand | src/ArgParser/argparser.swift:218-229 | the halt is the one `HelpCommand` gives for the remaining tokens |
| ArgParserEngine.ArgParser.TraceDispatch | src/ArgParser/argparser.swift:209-215 | a dispatch runs the child on the rest of the tokens, and the child cannot reach its parent |
| ArgParserEngine.ArgParser.RunCommand | src/ArgParser/argparser.swift:210-214 | ends as the child's trace does; when it completes, the stream is exhausted, the command is recorded and the child's callback log has the command name appended |
| ArgParserEngine.ArgParser.Dispatch | src/ArgParser/argparser.swift:210-214 | ends as the trace of this level says, leaving every parser reached as the trace describes |
| ArgParserEngine.ArgParser.ParseToken | src/ArgParser/argparser.swift:186-236 | one pass of the loop: goes on, halts or dispatches exactly as `Token` says |
| ArgParserEngine.ArgParser.ParseNext | src/ArgParser/argparser.swift:184-236 | one pass of the loop, reading the next token: a halt or a dispatch ends the level as `RunLevel` does, and otherwise the rest of the level runs as `RunLevel` on strictly fewer tokens |
| ArgParserEngine.ArgParser.ParseLevel | src/ArgParser/argparser.swift:180-238 | the loop of one level finishes, halts or dispatches exactly as `RunLevel` says |
| ArgParserEngine.ArgParser.ParseStream | src/ArgParser/argparser.swift:180-238 | the outcome is the trace's, and a completed parse leaves every parser reached as the trace describes |
| ArgParserEngine.ArgParser.Parse | src/ArgParser/argparser.swift:174-177 | parses the given tokens from the first one on, with the outcome and final states of the trace; the tree stays valid |
| ArgParserLaws.ClusterOfKnown | src/ArgParser/argparser.swift:268-288 | a cluster of registered characters fails, with a missing value, exactly when fewer tokens follow than it has value-taking characters, and otherwise consumes exactly that many |
| ArgParserLaws.ClusterCounts | src/ArgParser/argparser.swift:269-270 | every flag character of a cluster adds one to its flag's counter |
| ArgParserLaws.ClusterValuesSlot | src/ArgParser/argparser.swift:271-273 | the option in one slot receives, in order, the tokens its characters take |
| ArgParserLaws.ClusterValues | src/ArgParser/argparser.swift:268-278 | a cluster's value-taking characters take the following tokens left to right (`-ff bar baz` appends `bar` then `baz`) |
| ArgParserLaws.CharHalt | src/ArgParser/argparser.swift:279-287 | an unregistered cluster character is an error unless it is `h` with a helptext or `v` with a version |
| ArgParserLaws.ClusterStops | src/ArgParser/argparser.swift:268-288 | a cluster stops at its first unregistered character, unless an earlier character ran out of values |
| ArgParserLaws.FlagCluster | src/ArgParser/argparser.swift:268-270 | a cluster of flag characters raises each counter by the occurrences of its flag and takes no values |
| ArgParserLaws.FlagTokenStep | src/ArgParser/argparser.swift:194-206 | one flag token, long or clustered, raises each counter by its occurrences in the token and changes nothing else |
| ArgParserLaws.FlagCounting | src/ArgParser/argparser.swift:244-270 | a level of flag tokens finishes with every counter raised by the occurrences of its flag through any alias and form (`-ff -f` counts three) |
| ArgParserLaws.LongToken | src/ArgParser/argparser.swift:194-196 | a token starting with two dashes, other than `--`, goes to the long option handler |
| ArgParserLaws.LongEqualsHandler | src/ArgParser/argparser.swift:242-243 | `name=value` is handled as `name` followed by the token `value` |
| ArgParserLaws.LongEqualsForm | src/ArgParser/argparser.swift:292-306 | `--name=value` leaves the same state and tokens as `--name value` for an option alias that is not a flag alias |
| ArgParserLaws.ShortToken | src/ArgParser/argparser.swift:199-206 | a dash token longer than one whose second character is neither a dash nor a digit goes to the short option handler |
| ArgParserLaws.ShortEqualsHandler | src/ArgParser/argparser.swift:263-265 | `c=value` is handled as `c` followed by the token `value` |
| ArgParserLaws.ShortEqualsForm | src/ArgParser/argparser.swift:292-306 | `-c=value` leaves the same state and tokens as `-c value` |
| ArgParserLaws.LongHalts | src/ArgParser/argparser.swift:246-258 | `--name` halts the level: a missing value for an option alias with nothing after it, the helptext or version for an unregistered `--help`/`--version` when set, an unknown option otherwise |
| ArgParserLaws.LongEqualsErrors | src/ArgParser/argparser.swift:297-303 | `--name=value` halts with an unknown option when the name is not an option alias (a flag alias is not enough), else with a missing value when the value is empty |
| ArgParserLaws.OptionPairToken | src/ArgParser/argparser.swift:246-248 | `--name v` appends `v` to the option's list and goes on after `v` |
| ArgParserLaws.RepeatedOption | src/ArgParser/argparser.swift:246-248 | `--name v1 --name v2 ...` appends the values in the order given and changes nothing else |
| ArgParserLaws.PositionalRun | src/ArgParser/argparser.swift:180-236 | positionals are appended in order and change nothing else, also as the first tokens of a level when the first is neither a command alias nor an active `help` (`abc def` gives two arguments) |
| ArgParserLaws.DoubleDash | src/ArgParser/argparser.swift:180-236 | `--` at any position after positionals (or as the first token) sends every remaining token to the arguments verbatim and in order, and the level finishes with no flag, option or command touched (`foo -- --bar --baz` gives three arguments) |
| ArgParserLaws.HelpCommandFirst | src/ArgParser/argparser.swift:217-229 | first-token `help <name>` with the help command on halts with that command's helptext, or with an error when the name is missing or unknown |
| ArgParserLaws.HelpAsPositional | src/ArgParser/argparser.swift:218 | `help` is a positional when it is not the first token or the help command is off |
| JanusSpec.Fresh | Sources/Janus/Janus.swift:35-52 | a new record of the given type: not found, no values, the given fallbacks |
| JanusSpec.TrySet | Sources/Janus/Janus.swift:54-65 | fails, with an invalid numeric value, exactly for an integer option whose text does not convert; type, found bit and fallbacks are kept |
| JanusSpec.TrySetShow | Sources/Janus/Janus.swift:54-65 | only the list of the option's own type grows, by exactly the value the text denotes; a bool option is unchanged |
| JanusSpec.Use | Sources/Janus/Janus.swift:414-423 | goes on exactly for a bool option or when a value follows and converts; then the record is marked found and keeps its type; nothing following is a missing value |
| JanusSpec.EqualsOption | Sources/Janus/Janus.swift:476-499 | goes on exactly for a registered, non-bool name with a non-empty value that converts; otherwise unknown option, flag with value, missing value or invalid number, in that order |
| JanusSpec.LongOption | Sources/Janus/Janus.swift:406-439 | changes only record contents and consumes only a prefix of the tokens |
| JanusSpec.ShortChar | Sources/Janus/Janus.swift:455-471 | changes only record contents and consumes only a prefix of the tokens |
| JanusSpec.Cluster | Sources/Janus/Janus.swift:454-472 | changes only record contents and consumes only a prefix of the tokens |
| JanusSpec.ShortOption | Sources/Janus/Janus.swift:442-473 | changes only record contents and consumes only a prefix of the tokens |
| JanusSpec.HelpCommand | Sources/Janus/Janus.swift:383-394 | the command's helptext exactly when a command alias follows; otherwise missing value or unknown command |
| JanusSpec.Token | Sources/Janus/Janus.swift:345-401 | with parsing off the token is a positional; dispatches exactly on a first, non-dash command alias while parsing is on |
| JanusSpec.RunLevel | Sources/Janus/Janus.swift:340-403 | dispatches exactly when the first token, read with parsing on, is a command alias; the number of records never changes |
| JanusSpec.GetOption | Sources/Janus/Janus.swift:160-165 | the record of a registered name; an unregistered name is an error |
| JanusSpec.Found | Sources/Janus/Janus.swift:168-170 | the record's found bit, or an error for an unregistered name |
| JanusSpec.GetFlag | Sources/Janus/Janus.swift:173-180 | for a bool option filled only with `true`, whether it occurred at all |
| JanusSpec.GetStringList | Sources/Janus/Janus.swift:228-230 | an error exactly for an unregistered name; otherwise the record's collected strings, with no fallback |
| JanusSpec.GetString | Sources/Janus/Janus.swift:183-190 | the last string collected, or the fallback when there is none |
| JanusSpec.GetIntList | Sources/Janus/Janus.swift:233-235 | an error exactly for an unregistered name; otherwise the record's collected integers, with no fallback |
| JanusSpec.GetInt | Sources/Janus/Janus.swift:193-200 | the last integer collected, or the fallback when there is none |
| JanusSpec.LenList | Sources/Janus/Janus.swift:213-225 | the length of the list of the option's own type |
| Janus.ArgParser.Trace | Sources/Janus/Janus.swift:340-403 | the parsers a parse reaches, its outcome and, when it completes, the state of every parser reached |
| Janus.ArgParser.constructor | Sources/Janus/Janus.swift:111-114 | a parser with the given helptext and version and nothing registered or parsed |
| Janus.ArgParser.NewFlag | Sources/Janus/Janus.swift:121-126 | one new, unfound bool record, and every alias of the name bound to it |
| Janus.ArgParser.NewString | Sources/Janus/Janus.swift:129-135 | one new string record with the fallback, and every alias bound to it |
| Janus.ArgParser.NewInt | Sources/Janus/Janus.swift:138-144 | one new integer record with the fallback, and every alias bound to it |
| Janus.ArgParser.NewCmd | Sources/Janus/Janus.swift:248-256 | a fresh parser with the helptext and a callback, bound to every alias and returned |
| Janus.ArgParser.Attach | Sources/Janus/Janus.swift:252-254 | every alias of the name bound to the child parser, whose own tree joins this one, and the tree stays valid |
| Janus.ArgParser.NewCmdIn | Sources/Janus/Janus.swift:248-256 | `newCmd` called on any parser of a tree: a fresh command parser bound to every alias there, joining the footprint of every parser above, with the whole tree still valid and so parseable at any depth |
| Janus.ArgParser.Found | Sources/Janus/Janus.swift:168-170 | agrees with `JanusSpec.Found` on the parser's registrations and state |
| Janus.ArgParser.GetFlag | Sources/Janus/Janus.swift:173-180 | agrees with `JanusSpec.GetFlag` |
| Janus.ArgParser.GetString | Sources/Janus/Janus.swift:183-190 | agrees with `JanusSpec.GetString` |
| Janus.ArgParser.GetInt | Sources/Janus/Janus.swift:193-200 | agrees with `JanusSpec.GetInt` |
| Janus.ArgParser.LenList | Sources/Janus/Janus.swift:213-225 | agrees with `JanusSpec.LenList` |
| Janus.ArgParser.GetStringList | Sources/Janus/Janus.swift:228-230 | agrees with `JanusSpec.GetStringList` |
| Janus.ArgParser.GetIntList | Sources/Janus/Janus.swift:233-235 | agrees with `JanusSpec.GetIntList` |
| Janus.ArgParser.HasCmd | Sources/Janus/Janus.swift:259-261 | true exactly when a command was found |
| Janus.ArgParser.GetCmd | Sources/Janus/Janus.swift:264-266 | the command found at this level |
| Janus.ArgParser.GetCmdParser | Sources/Janus/Janus.swift:269-274 | the parser registered under the command found, and null exactly when there is none |
| Janus.ArgParser.HasArgs | Sources/Janus/Janus.swift:286-288 | true exactly when there is a positional |
| Janus.ArgParser.NumArgs | Sources/Janus/Janus.swift:291-293 | the number of positionals |
| Janus.ArgParser.GetArgs | Sources/Janus/Janus.swift:296-298 | the positionals collected |
| Janus.ArgParser.GetArgsAsInts | Sources/Janus/Janus.swift:302-312 | succeeds exactly when every positional converts, and then holds one integer per positional in order; otherwise an invalid numeric value |
| Janus.ArgParser.TrySet | Sources/Janus/Janus.swift:54-65 | halts or replaces the record exactly as `JanusSpec.TrySet` says |
| Janus.ArgParser.Use | Sources/Janus/Janus.swift:414-423 | halts, or leaves the state and the stream exactly as `JanusSpec.Use` says |
| Janus.ArgParser.ParseEqualsOption | Sources/Janus/Janus.swift:476-499 | halts or changes the state exactly as `EqualsOption` says |
| Janus.ArgParser.ParseLongOption | Sources/Janus/Janus.swift:406-439 | halts, or leaves the state and the stream exactly as `LongOption` says |
| Janus.ArgParser.ParseShortChar | Sources/Janus/Janus.swift:455-471 | halts, or leaves the state and the stream exactly as `ShortChar` says |
| Janus.ArgParser.ParseCluster | Sources/Janus/Janus.swift:454-472 | halts, or leaves the state and the stream exactly as `Cluster` says |
| Janus.ArgParser.ParseShortOption | Sources/Janus/Janus.swift:442-473 | halts, or leaves the state and the stream exactly as `ShortOption` says |
| Janus.ArgParser.HelpCommand | Sources/Janus/Janus.swift:383-394 | the halt is the one `HelpCommand` gives for the remaining tokens |
| Janus.ArgParser.TraceDispatch | Sources/Janus/Janus.swift:376-380 | a dispatch runs the child on the rest of the tokens, and the child cannot reach its parent |
| Janus.ArgParser.RunCommand | Sources/Janus/Janus.swift:376-380 | ends as the child's trace does; when it completes, the stream is exhausted, the command is recorded and the child's callback has run once more |
| Janus.ArgParser.Dispatch | Sources/Janus/Janus.swift:376-380 | ends as the trace of this level says, leaving every parser reached as the trace describes |
| Janus.ArgParser.ParseToken | Sources/Janus/Janus.swift:345-401 | one pass of the loop: goes on (with the new `parsing` switch), halts or dispatches exactly as `Token` says |
| Janus.ArgParser.ParseNext | Sources/Janus/Janus.swift:346-401 | one pass of the loop, reading the next token: a halt or a dispatch ends the level as `RunLevel` does, and otherwise the rest of the level runs as `RunLevel`, with the new `parsing` switch, on strictly fewer tokens |
| Janus.ArgParser.ParseLevel | Sources/Janus/Janus.swift:340-403 | the loop of one level finishes, halts or dispatches exactly as `RunLevel` says |
| Janus.ArgParser.ParseStream | Sources/Janus/Janus.swift:340-403 | the outcome is the trace's, and a completed parse leaves every parser reached as the trace describes |
| Janus.ArgParser.Parse | Sources/Janus/Janus.swift:334-337 | parses the given tokens with the outcome and final states of the trace; the tree stays valid |
| JanusLaws.UseBool | Sources/Janus/Janus.swift:415-417 | one occurrence of a bool option marks it found and records one `true` |
| JanusLaws.ClusterBoolShape | Sources/Janus/Janus.swift:464-466 | a cluster of bool characters goes through, consumes no tokens and changes no positional or command |
| JanusLaws.ClusterBools | Sources/Janus/Janus.swift:454-472 | a cluster of bool characters records one `true` per character in the record it names |
| JanusLaws.BoolTokenStep | Sources/Janus/Janus.swift:360-373 | one bool token, long or clustered, records one `true` per occurrence and consumes nothing else |
| JanusLaws.BoolCounting | Sources/Janus/Janus.swift:406-473 | a level of bool tokens records one `true` per occurrence of each option through any alias and form (`-bb -b` gives `lenList` 3) and changes nothing else |
| JanusLaws.OneChar | Sources/Janus/Janus.swift:455-471 | one registered character: a bool records `true`; otherwise the next token must exist and, for an integer, convert |
| JanusLaws.ClusterProgress | Sources/Janus/Janus.swift:454-472 | a registered cluster goes through exactly when enough tokens follow and every integer value converts; a failure is a missing value or a bad integer |
| JanusLaws.ClusterValues | Sources/Janus/Janus.swift:454-472 | a cluster hands the following tokens to its string and integer characters in order (`-bsi x 1` gives `x` to `s` and 1 to `i`) and consumes exactly those |
| JanusLaws.CharHalt | Sources/Janus/Janus.swift:455-462 | an unregistered cluster character is an error unless it is `h` with a helptext or `v` with a version |
| JanusLaws.ClusterStops | Sources/Janus/Janus.swift:454-463 | registered characters that find their values, followed by an unregistered one, stop at that character with help, version or an unknown option |
| JanusLaws.LongToken | Sources/Janus/Janus.swift:360-362 | a token starting with two dashes, other than `--`, goes to the long option handler |
| JanusLaws.LongEqualsHandler | Sources/Janus/Janus.swift:409-411 | `name=value` is handled as `name` followed by the token `value` |
| JanusLaws.LongEqualsForm | Sources/Janus/Janus.swift:476-499 | `--name=value` behaves as `--name value` for a string or integer option, failing alike on a bad integer |
| JanusLaws.ShortEqualsHandler | Sources/Janus/Janus.swift:445-447 | `c=value` is handled as `c` followed by the token `value` |
| JanusLaws.ShortToken | Sources/Janus/Janus.swift:365-372 | a dash token longer than one whose second character is neither a dash nor a digit goes to the short option handler |
| JanusLaws.ShortEqualsForm | Sources/Janus/Janus.swift:476-499 | `-c=value` behaves as `-c value` for a single-character string or integer option |
| JanusLaws.LongHalts | Sources/Janus/Janus.swift:425-438 | an unregistered `--name` halts the level: the helptext or version for `--help`/`--version` when set, an unknown option otherwise |
| JanusLaws.LongEqualsErrors | Sources/Janus/Janus.swift:485-495 | `--name=value` halts with an unknown option, a flag with a value or a missing value, in that order of checks |
| JanusLaws.StringPairToken | Sources/Janus/Janus.swift:414-419 | `--name v` gives `v` to the string option, marks it found and goes on after `v` |
| JanusLaws.RepeatedString | Sources/Janus/Janus.swift:414-419 | `--name v1 --name v2 ...` appends the values in the order given, so `getString` answers the last, and changes no other record, positional or command |
| JanusLaws.NotParsing | Sources/Janus/Janus.swift:350-352 | with parsing off, every token is appended to the positionals in order |
| JanusLaws.DoubleDash | Sources/Janus/Janus.swift:345-399 | after positionals (or as the first token), the first `--` is dropped and every later token, further `--` and dash tokens included, becomes a positional in order (`foo -- --bar --baz` gives three arguments) |
| JanusLaws.PositionalRun | Sources/Janus/Janus.swift:345-399 | positionals are appended in order and change nothing else, also as the first tokens of a level when the first is neither a command alias nor `help` |
| JanusLaws.HelpCommandFirst | Sources/Janus/Janus.swift:383-394 | first-token `help <name>` is always active: the command's helptext, or an error when the name is missing or unknown |
| JanusLaws.LaterWordIsPositional | Sources/Janus/Janus.swift:376-399 | after the first token, `help` and command aliases are ordinary positionals |
| JanusLaws.FreshQueries | Sources/Janus/Janus.swift:168-235 | before anything is collected, the list queries give empty lists, never the fallback, while `getString`/`getInt` give the fallbacks and the option is not found |

## Left out

- Floating-point options are not modelled: `newDouble`, `getDouble`, `getDoubleList`,
  `getArgsAsDoubles` and the `.double` branch of `trySet` (Sources/Janus/Janus.swift:67-71,
  147-153, 203-210, 238-240, 316-326). The type tag has three cases.
- Printing and process exit are not modelled. Every exit point is a `Halt` value. The exact
  wording of the error messages is not modelled, only their kind.
- `dump()` is not modelled: it only prints state.
- `parse()` with no argument reads the process's command line. The model takes the tokens as
  an explicit sequence.
- Callbacks are not run. The newer engine appends the command name to a ghost log on the
  child. Janus counts the invocations. The child parser the source passes along is the parser
  itself.
- Janus's `weak var parent` and `getParent()` are not modelled: they only manage memory.
- Strings are sequences of characters. Swift's grapheme clusters, and what `Array(arg)[1]`
  means for them, are not modelled.
- `SwiftInt.ParseInt` accepts an optional sign and ASCII digits whose value fits in 64 bits.
  Swift's `Int(_:)` is taken to mean that.
- The bool fallback of a Janus record is not kept. The source always sets it to `false`.
- ArgParserEngine.ArgParser.Command: requires that the child cannot reach this parser through
  commands. The source accepts a cyclic command graph and still parses it, since every dispatch
  consumes a token; the model keeps the command graph a tree, so no parser appears twice on a
  dispatch path and the levels of one parse never share `args` or `commandName`.
- ArgParserEngine.ArgParser.Command: the parent's validity rests on the child's. Registering
  on a child, or attaching it to a second parser, after `command()` is not covered.
- Janus.ArgParser.Attach: requires a child that shares no parser with this tree. `NewCmd`
  meets that because it always creates the child itself.
- ArgParserEngine.ArgParser.RunCommand: records the command after the child's parse, and the
  source records it before. The child cannot reach this parser, so the two are equal.
- Janus.ArgParser.RunCommand: same as above.
- ArgParserEngine.ArgParser.ParseStream: after a dispatch returns, the source's loop
  re-tests an exhausted stream. The model returns at once, which is the same.
- Janus.ArgParser.ParseStream: same as above.
- State after a halt is not specified. The source exits the process, so nothing can observe
  it.
- ArgParserLaws.FlagCounting, JanusLaws.BoolCounting: cover levels made only of flag tokens.
  Other tokens are covered step by step by `FlagTokenStep`/`BoolTokenStep` and the handlers'
  contracts.
- ArgParserLaws.RepeatedOption, JanusLaws.RepeatedString: cover the long form `--name v`.
  The cluster and equals forms append in order too, through `ClusterValues` and
  `LongEqualsForm`/`ShortEqualsForm`.
