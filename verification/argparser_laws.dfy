/** What the dispatch loop of the newer engine (src/ArgParser/argparser.swift) promises about
    whole token sequences: how often a flag is counted, which values an option collects and in
    which order, where a short cluster stops, that `--name=value` and `--name value` agree, that
    `--` and positionals pass through verbatim, and how `help <command>` behaves. */
module ArgParserLaws {
  import opened Text
  import opened Outcomes
  import opened ArgParserSpec

  // ---------------------------------------------------------------------------------------------
  // Short clusters.
  // ---------------------------------------------------------------------------------------------

  /** `c` is registered as a flag alias, an option alias or both. */
  predicate Known(cfg: Config, c: char) {
    [c] in cfg.flags || [c] in cfg.options
  }

  /** `c` takes a value when it is met in a cluster: an option alias that is not also a flag
      alias, since the flag table is consulted first. */
  predicate TakesValue(cfg: Config, c: char) {
    [c] !in cfg.flags && [c] in cfg.options
  }

  /** How many characters of `cs` are aliases of the flag in slot `k`. */
  function FlagHits(cfg: Config, cs: string, k: nat): nat
    decreases |cs|
  {
    if cs == [] then 0
    else (if [cs[0]] in cfg.flags && cfg.flags[[cs[0]]] == k then 1 else 0) + FlagHits(cfg, cs[1..], k)
  }

  /** How many of the tokens after a cluster `cs` its characters consume. */
  function ValueChars(cfg: Config, cs: string): nat
    decreases |cs|
  {
    if cs == [] then 0
    else (if TakesValue(cfg, cs[0]) then 1 else 0) + ValueChars(cfg, cs[1..])
  }

  /** The values the option in slot `k` receives from the cluster `cs`, whose value-taking
      characters read `vals` one token each from the left. */
  function Picked(cfg: Config, cs: string, vals: seq<string>, k: nat): seq<string>
    requires ValueChars(cfg, cs) <= |vals|
    decreases |cs|
  {
    if cs == [] then []
    else if TakesValue(cfg, cs[0]) then
      (if cfg.options[[cs[0]]] == k then [vals[0]] else []) + Picked(cfg, cs[1..], vals[1..], k)
    else Picked(cfg, cs[1..], vals, k)
  }

  /** The registered characters of `cs[1..]`, from those of `cs`. */
  lemma KnownTail(cfg: Config, cs: string)
    requires cs != [] && forall i | 0 <= i < |cs| :: Known(cfg, cs[i])
    ensures forall i | 0 <= i < |cs[1..]| :: Known(cfg, cs[1..][i])
  {
    forall i | 0 <= i < |cs[1..]| ensures Known(cfg, cs[1..][i]) { assert cs[1..][i] == cs[i + 1]; }
  }

  /** A cluster of registered characters fails, with a missing value, exactly when fewer tokens
      follow it than it has value-taking characters; otherwise it consumes that many tokens and
      leaves the positionals and the command alone. */
  lemma {:induction false} ClusterOfKnown(cfg: Config, lv: Level, cs: string, rest: seq<string>)
    requires Fits(cfg, lv)
    requires forall i | 0 <= i < |cs| :: Known(cfg, cs[i])
    ensures var r := Cluster(cfg, lv, cs, rest);
      && (r.Continue? <==> ValueChars(cfg, cs) <= |rest|)
      && (r.Stop? ==> r.halt == Error(MissingValue))
      && (r.Continue? ==> r.rest == rest[ValueChars(cfg, cs)..] && SameShape(lv, r.level))
    decreases |cs|
  {
    if cs != [] {
      var c := cs[0];
      KnownTail(cfg, cs);
      if [c] in cfg.flags {
        ClusterOfKnown(cfg, Bump(lv, cfg.flags[[c]]), cs[1..], rest);
      } else if rest != [] {
        ClusterOfKnown(cfg, Push(lv, cfg.options[[c]], rest[0]), cs[1..], rest[1..]);
      }
    }
  }

  /** Every flag character of a cluster that goes through adds one to its flag's counter. */
  lemma {:induction false} ClusterCounts(cfg: Config, lv: Level, cs: string, rest: seq<string>)
    requires Fits(cfg, lv)
    requires Cluster(cfg, lv, cs, rest).Continue?
    ensures var r := Cluster(cfg, lv, cs, rest);
      forall k | 0 <= k < |lv.counts| :: r.level.counts[k] == lv.counts[k] + FlagHits(cfg, cs, k)
    decreases |cs|
  {
    if cs != [] {
      var c := cs[0];
      if [c] in cfg.flags {
        ClusterCounts(cfg, Bump(lv, cfg.flags[[c]]), cs[1..], rest);
      } else if [c] in cfg.options {
        ClusterCounts(cfg, Push(lv, cfg.options[[c]], rest[0]), cs[1..], rest[1..]);
      }
    }
  }

  /** What a cluster of registered characters with enough values gives the option in slot `k`:
      its value-taking characters append, in order, the tokens that follow. */
  lemma {:induction false} ClusterValuesSlot(cfg: Config, lv: Level, cs: string, rest: seq<string>, k: nat)
    requires Fits(cfg, lv) && k < |lv.values|
    requires forall i | 0 <= i < |cs| :: Known(cfg, cs[i])
    requires ValueChars(cfg, cs) <= |rest|
    ensures var r := Cluster(cfg, lv, cs, rest);
      r.Continue? && r.level.values[k] == lv.values[k] + Picked(cfg, cs, rest, k)
    decreases |cs|
  {
    if cs == [] {
      assert lv.values[k] + [] == lv.values[k];
    } else {
      var c := cs[0];
      KnownTail(cfg, cs);
      assert Known(cfg, c);
      if [c] in cfg.flags {
        var lv' := Bump(lv, cfg.flags[[c]]);
        assert Cluster(cfg, lv, cs, rest) == Cluster(cfg, lv', cs[1..], rest);
        assert Picked(cfg, cs, rest, k) == Picked(cfg, cs[1..], rest, k);
        ClusterValuesSlot(cfg, lv', cs[1..], rest, k);
      } else {
        assert TakesValue(cfg, c) && rest != [];
        var lv' := Push(lv, cfg.options[[c]], rest[0]);
        assert Cluster(cfg, lv, cs, rest) == Cluster(cfg, lv', cs[1..], rest[1..]);
        ClusterValuesSlot(cfg, lv', cs[1..], rest[1..], k);
        var mine := if k == cfg.options[[c]] then [rest[0]] else [];
        var tail := Picked(cfg, cs[1..], rest[1..], k);
        assert lv'.values[k] == lv.values[k] + mine;
        assert Picked(cfg, cs, rest, k) == mine + tail;
        AppendAssoc(lv.values[k], mine, tail);
      }
    }
  }

  /** The value-taking characters of a cluster that goes through take the following tokens in
      order, each appending its token to its option's values. */
  lemma ClusterValues(cfg: Config, lv: Level, cs: string, rest: seq<string>)
    requires Fits(cfg, lv)
    requires forall i | 0 <= i < |cs| :: Known(cfg, cs[i])
    requires ValueChars(cfg, cs) <= |rest|
    ensures var r := Cluster(cfg, lv, cs, rest);
      r.Continue? && forall k | 0 <= k < |lv.values| :: r.level.values[k] == lv.values[k] + Picked(cfg, cs, rest, k)
  {
    ClusterOfKnown(cfg, lv, cs, rest);
    forall k | 0 <= k < |lv.values|
      ensures Cluster(cfg, lv, cs, rest).level.values[k] == lv.values[k] + Picked(cfg, cs, rest, k)
    {
      ClusterValuesSlot(cfg, lv, cs, rest, k);
    }
  }

  /** What an unregistered character `c` of a cluster does: `h` and `v` show the helptext or
      the version when there is one, anything else is an unknown option. */
  function CharHalt(cfg: Config, c: char): (h: Halt)
    ensures h.Error? <==> !(c == 'h' && cfg.helptext.Some?) && !(c == 'v' && cfg.version.Some?)
  {
    if c == 'h' && cfg.helptext.Some? then Help(cfg.helptext.value)
    else if c == 'v' && cfg.version.Some? then Version(cfg.version.value)
    else Error(UnknownOption)
  }

  /** A cluster whose first unregistered character stands at `i` stops there, unless one of
      the characters before it has already run out of values. */
  lemma {:induction false} ClusterStops(cfg: Config, lv: Level, cs: string, rest: seq<string>, i: nat)
    requires Fits(cfg, lv)
    requires i < |cs| && !Known(cfg, cs[i])
    requires forall j | 0 <= j < i :: Known(cfg, cs[j])
    ensures Cluster(cfg, lv, cs, rest)
      == Stop(if ValueChars(cfg, cs[..i]) <= |rest| then CharHalt(cfg, cs[i]) else Error(MissingValue))
    decreases i
  {
    if i > 0 {
      var c := cs[0];
      assert cs[..i][0] == c && cs[..i][1..] == cs[1..][..i - 1];
      assert forall j | 0 <= j < i - 1 :: Known(cfg, cs[1..][j]) by {
        forall j | 0 <= j < i - 1 ensures Known(cfg, cs[1..][j]) { assert cs[1..][j] == cs[j + 1]; }
      }
      if [c] in cfg.flags {
        ClusterStops(cfg, Bump(lv, cfg.flags[[c]]), cs[1..], rest, i - 1);
      } else if rest != [] {
        ClusterStops(cfg, Push(lv, cfg.options[[c]], rest[0]), cs[1..], rest[1..], i - 1);
      }
    }
  }

  // ---------------------------------------------------------------------------------------------
  // Counting flags over a whole level.
  // ---------------------------------------------------------------------------------------------

  /** `--name` for a flag alias `name`. */
  predicate LongFlag(cfg: Config, t: string) {
    StartsWith(t, "--") && t != "--" && '=' !in t[2..] && t[2..] in cfg.flags
  }

  /** A short cluster `-cs` whose characters are all flag aliases. */
  predicate ShortFlags(cfg: Config, t: string) {
    && |t| >= 2 && t[0] == '-' && t[1] != '-' && !IsDigit(t[1])
    && forall i | 1 <= i < |t| :: t[i] != '=' && [t[i]] in cfg.flags
  }

  /** A token made of flags only. */
  predicate FlagToken(cfg: Config, t: string) {
    LongFlag(cfg, t) || ShortFlags(cfg, t)
  }

  /** How many occurrences of the flag in slot `k` the flag token `t` holds. */
  function TokenHits(cfg: Config, t: string, k: nat): nat
    requires FlagToken(cfg, t)
  {
    if LongFlag(cfg, t) then (if cfg.flags[t[2..]] == k then 1 else 0) else FlagHits(cfg, t[1..], k)
  }

  /** How many occurrences of the flag in slot `k` the flag tokens `toks` hold. */
  function Occurrences(cfg: Config, toks: seq<string>, k: nat): nat
    requires forall t | t in toks :: FlagToken(cfg, t)
    decreases |toks|
  {
    if toks == [] then 0
    else
      assert toks[0] in toks && forall u | u in toks[1..] :: u in toks;
      TokenHits(cfg, toks[0], k) + Occurrences(cfg, toks[1..], k)
  }

  /** A cluster of flag characters raises each counter by the occurrences of its flag and
      touches neither the values nor the following tokens. */
  lemma FlagCluster(cfg: Config, lv: Level, cs: string, more: seq<string>)
    requires Fits(cfg, lv)
    requires forall i | 0 <= i < |cs| :: [cs[i]] in cfg.flags
    ensures var r := Cluster(cfg, lv, cs, more);
      && r.Continue? && r.rest == more && SameShape(lv, r.level) && r.level.values == lv.values
      && forall k | 0 <= k < |lv.counts| :: r.level.counts[k] == lv.counts[k] + FlagHits(cfg, cs, k)
  {
    ValueCharsOfFlags(cfg, cs);
    ClusterOfKnown(cfg, lv, cs, more);
    ClusterCounts(cfg, lv, cs, more);
    ClusterValues(cfg, lv, cs, more);
    var lv' := Cluster(cfg, lv, cs, more).level;
    forall k | 0 <= k < |lv.values| ensures lv'.values[k] == lv.values[k] {
      PickedOfFlags(cfg, cs, more, k);
    }
  }

  /** One flag token raises each counter by the occurrences of its flag in the token and
      changes nothing else; it consumes no further tokens. */
  lemma FlagTokenStep(cfg: Config, lv: Level, t: string, more: seq<string>, first: bool)
    requires Fits(cfg, lv) && FlagToken(cfg, t)
    ensures var r := Token(cfg, lv, t, more, first);
      && r.Next? && r.rest == more && SameShape(lv, r.level) && r.level.values == lv.values
      && forall k | 0 <= k < |lv.counts| :: r.level.counts[k] == lv.counts[k] + TokenHits(cfg, t, k)
  {
    if !LongFlag(cfg, t) {
      assert StartsWith(t, "-") && !StartsWith(t, "--") && t != "-" && !IsDigit(t[1]);
      var cs := t[1..];
      assert forall i | 0 <= i < |cs| :: [cs[i]] in cfg.flags && cs[i] != '=' by {
        forall i | 0 <= i < |cs| ensures [cs[i]] in cfg.flags && cs[i] != '=' { assert cs[i] == t[i + 1]; }
      }
      assert '=' !in cs;
      FlagCluster(cfg, lv, cs, more);
      var c := Cluster(cfg, lv, cs, more);
      assert Token(cfg, lv, t, more, first) == Next(c.level, c.rest);
    }
  }

  /** A level made of flag tokens finishes with each counter raised by the number of
      occurrences of its flag, whichever alias and form each occurrence used (`-ff -f` counts
      three), and nothing else changed. */
  lemma {:induction false} FlagCounting(cfg: Config, lv: Level, toks: seq<string>, first: bool)
    requires Fits(cfg, lv)
    requires forall t | t in toks :: FlagToken(cfg, t)
    ensures var r := RunLevel(cfg, lv, toks, first);
      && r.Finished? && SameShape(lv, r.level) && r.level.values == lv.values
      && forall k | 0 <= k < |lv.counts| :: r.level.counts[k] == lv.counts[k] + Occurrences(cfg, toks, k)
    decreases |toks|
  {
    if toks != [] {
      var t := toks[0];
      var more := toks[1..];
      assert t in toks && forall u | u in more :: u in toks;
      FlagTokenStep(cfg, lv, t, more, first);
      var lv' := Token(cfg, lv, t, more, first).level;
      FlagCounting(cfg, lv', more, false);
    }
  }

  /** A cluster of flag characters takes no values. */
  lemma {:induction false} ValueCharsOfFlags(cfg: Config, cs: string)
    requires forall i | 0 <= i < |cs| :: [cs[i]] in cfg.flags
    ensures ValueChars(cfg, cs) == 0
    decreases |cs|
  {
    if cs != [] {
      assert forall i | 0 <= i < |cs[1..]| :: [cs[1..][i]] in cfg.flags by {
        forall i | 0 <= i < |cs[1..]| ensures [cs[1..][i]] in cfg.flags { assert cs[1..][i] == cs[i + 1]; }
      }
      ValueCharsOfFlags(cfg, cs[1..]);
    }
  }

  /** ... and gives no option any value. */
  lemma {:induction false} PickedOfFlags(cfg: Config, cs: string, vals: seq<string>, k: nat)
    requires forall i | 0 <= i < |cs| :: [cs[i]] in cfg.flags
    ensures ValueChars(cfg, cs) == 0 && Picked(cfg, cs, vals, k) == []
    decreases |cs|
  {
    ValueCharsOfFlags(cfg, cs);
    if cs != [] {
      assert forall i | 0 <= i < |cs[1..]| :: [cs[1..][i]] in cfg.flags by {
        forall i | 0 <= i < |cs[1..]| ensures [cs[1..][i]] in cfg.flags { assert cs[1..][i] == cs[i + 1]; }
      }
      PickedOfFlags(cfg, cs[1..], vals, k);
    }
  }

  // ---------------------------------------------------------------------------------------------
  // The equals form.
  // ---------------------------------------------------------------------------------------------

  /** A token that starts with two dashes and is not `--` goes to the long option handler. */
  lemma LongToken(cfg: Config, lv: Level, body: string, more: seq<string>, first: bool)
    requires Fits(cfg, lv) && body != ""
    ensures Token(cfg, lv, "--" + body, more, first) ==
      match LongOption(cfg, lv, body, more)
      case Stop(h) => End(Stopped(h))
      case Continue(lv', more') => Next(lv', more')
  {
    assert ("--" + body)[2..] == body && StartsWith("--" + body, "--");
  }

  /** A long option that halts the parse: an option alias with no token after it lacks its
      value; otherwise an unregistered `--help` or `--version` shows the helptext or version
      when one is set, and any other unregistered name is an unknown option. */
  lemma LongHalts(cfg: Config, lv: Level, name: string, rest: seq<string>, first: bool)
    requires Fits(cfg, lv) && name != "" && '=' !in name
    requires name !in cfg.flags && (name in cfg.options ==> rest == [])
    ensures RunLevel(cfg, lv, ["--" + name] + rest, first) == Stopped(
      if name in cfg.options then Error(MissingValue)
      else if name == "help" && cfg.helptext.Some? then Help(cfg.helptext.value)
      else if name == "version" && cfg.version.Some? then Version(cfg.version.value)
      else Error(UnknownOption))
  {
    LongToken(cfg, lv, name, rest, first);
    RunHead(cfg, lv, "--" + name, rest, first);
  }

  /** `name=value` after two dashes is handled as `name` followed by the token `value`. */
  lemma LongEqualsHandler(cfg: Config, lv: Level, name: string, value: string, rest: seq<string>)
    requires Fits(cfg, lv)
    requires '=' !in name && name in cfg.options && name !in cfg.flags && value != ""
    ensures LongOption(cfg, lv, name + "=" + value, rest) == LongOption(cfg, lv, name, [value] + rest)
  {
    SplitAtEqualsJoin(name, value);
    assert '=' in name + "=" + value;
    assert ([value] + rest)[0] == value && ([value] + rest)[1..] == rest;
  }

  /** `--name=value` does what `--name value` does for an option alias `name` that is not also
      a flag alias, whatever the value holds (later '=' signs included). */
  lemma LongEqualsForm(cfg: Config, lv: Level, name: string, value: string, rest: seq<string>, first: bool)
    requires Fits(cfg, lv)
    requires name != "" && '=' !in name && name in cfg.options && name !in cfg.flags && value != ""
    ensures RunLevel(cfg, lv, ["--" + (name + "=" + value)] + rest, first)
         == RunLevel(cfg, lv, ["--" + name, value] + rest, first)
  {
    assert Token(cfg, lv, "--" + (name + "=" + value), rest, first) == Token(cfg, lv, "--" + name, [value] + rest, first) by {
      LongEqualsHandler(cfg, lv, name, value, rest);
      LongToken(cfg, lv, name + "=" + value, rest, first);
      LongToken(cfg, lv, name, [value] + rest, first);
    }
    SameTurn(cfg, lv, "--" + (name + "=" + value), rest, "--" + name, [value] + rest, first);
    assert ["--" + name, value] + rest == ["--" + name] + ([value] + rest) by { ConsTwo("--" + name, value, rest); }
  }

  /** A token that starts with one dash, is longer than that, and whose second character is
      neither a dash nor a digit goes to the short option handler. */
  lemma ShortToken(cfg: Config, lv: Level, body: string, more: seq<string>, first: bool)
    requires Fits(cfg, lv) && body != "" && body[0] != '-' && !IsDigit(body[0])
    ensures Token(cfg, lv, "-" + body, more, first) ==
      match ShortOption(cfg, lv, body, more)
      case Stop(h) => End(Stopped(h))
      case Continue(lv', more') => Next(lv', more')
  {
    var t := "-" + body;
    assert t[0] == '-' && t[1] == body[0] && t[1..] == body;
    assert StartsWith(t, "-") && !StartsWith(t, "--") && t != "-" && t != "--";
  }

  /** `c=value` after a single dash is handled as `c` followed by the token `value`. */
  lemma ShortEqualsHandler(cfg: Config, lv: Level, c: char, value: string, rest: seq<string>)
    requires Fits(cfg, lv)
    requires c != '=' && [c] in cfg.options && [c] !in cfg.flags && value != ""
    ensures ShortOption(cfg, lv, [c] + "=" + value, rest) == ShortOption(cfg, lv, [c], [value] + rest)
  {
    SplitAtEqualsJoin([c], value);
    var k := cfg.options[[c]];
    assert ([value] + rest)[0] == value && ([value] + rest)[1..] == rest;
    assert ShortOption(cfg, lv, [c] + "=" + value, rest) == Continue(Push(lv, k, value), rest);
    assert '=' !in [c];
    assert Cluster(cfg, lv, [c], [value] + rest) == ShortChar(cfg, lv, c, [value] + rest);
  }

  /** `-c=value` does what `-c value` does for a single-character option alias `c` that is not
      also a flag alias (and is neither a dash, an '=' nor a digit, which would change the
      token's kind). */
  lemma ShortEqualsForm(cfg: Config, lv: Level, c: char, value: string, rest: seq<string>, first: bool)
    requires Fits(cfg, lv)
    requires c != '-' && c != '=' && !IsDigit(c) && [c] in cfg.options && [c] !in cfg.flags && value != ""
    ensures RunLevel(cfg, lv, ["-" + ([c] + "=" + value)] + rest, first)
         == RunLevel(cfg, lv, ["-" + [c], value] + rest, first)
  {
    assert Token(cfg, lv, "-" + ([c] + "=" + value), rest, first) == Token(cfg, lv, "-" + [c], [value] + rest, first) by {
      ShortEqualsHandler(cfg, lv, c, value, rest);
      ShortToken(cfg, lv, [c] + "=" + value, rest, first);
      ShortToken(cfg, lv, [c], [value] + rest, first);
    }
    SameTurn(cfg, lv, "-" + ([c] + "=" + value), rest, "-" + [c], [value] + rest, first);
    assert ["-" + [c], value] + rest == ["-" + [c]] + ([value] + rest) by { ConsTwo("-" + [c], value, rest); }
  }

  /** `--name=value` halts the parse when `name` is not an option alias (a flag alias is not
      enough) or when the value is empty. */
  lemma LongEqualsErrors(cfg: Config, lv: Level, name: string, value: string, rest: seq<string>, first: bool)
    requires Fits(cfg, lv)
    requires name != "" && '=' !in name && (name !in cfg.options || value == "")
    ensures RunLevel(cfg, lv, ["--" + (name + "=" + value)] + rest, first)
         == Stopped(Error(if name !in cfg.options then UnknownOption else MissingValue))
  {
    var t := "--" + name + "=" + value;
    assert t[2..] == name + "=" + value && '=' in t[2..];
    SplitAtEqualsJoin(name, value);
    assert ([t] + rest)[1..] == rest;
  }

  // ---------------------------------------------------------------------------------------------
  // Repeated options.
  // ---------------------------------------------------------------------------------------------

  /** `--name` for an option alias `name` that is not also a flag alias. */
  predicate LongOptionToken(cfg: Config, t: string) {
    StartsWith(t, "--") && t != "--" && '=' !in t[2..] && t[2..] in cfg.options && t[2..] !in cfg.flags
  }

  /** `t v1 t v2 ...`: the token `t` in front of each of the values `vs`. */
  function Pairs(t: string, vs: seq<string>): (toks: seq<string>)
    ensures |toks| == 2 * |vs|
    ensures forall i | 0 <= i < |vs| :: toks[2 * i] == t && toks[2 * i + 1] == vs[i]
  {
    if vs == [] then []
    else
      var tail := Pairs(t, vs[1..]);
      assert forall i | 1 <= i < |vs| :: ([t, vs[0]] + tail)[2 * i] == tail[2 * (i - 1)];
      [t, vs[0]] + tail
  }

  /** The option in slot `k` with `vs` appended to its values. */
  function Appended(lv: Level, k: nat, vs: seq<string>): (r: Level)
    requires k < |lv.values|
    ensures SameShape(lv, r) && r.counts == lv.counts
    ensures forall j | 0 <= j < |lv.values| :: r.values[j] == lv.values[j] + (if j == k then vs else [])
  {
    lv.(values := lv.values[k := lv.values[k] + vs])
  }

  /** `--name v` pushes `v` onto the option's values and goes on after `v`. */
  lemma OptionPairToken(cfg: Config, lv: Level, t: string, v: string, tail: seq<string>, first: bool)
    requires Fits(cfg, lv) && LongOptionToken(cfg, t)
    ensures Token(cfg, lv, t, [v] + tail, first) == Next(Push(lv, cfg.options[t[2..]], v), tail)
  {
    assert ([v] + tail)[0] == v && ([v] + tail)[1..] == tail;
  }

  /** Appending one value and then the others appends them all. */
  lemma AppendedStep(lv: Level, k: nat, vs: seq<string>)
    requires k < |lv.values| && vs != []
    ensures Appended(Push(lv, k, vs[0]), k, vs[1..]) == Appended(lv, k, vs)
  {
    assert lv.values[k] + [vs[0]] + vs[1..] == lv.values[k] + vs;
  }

  /** The first pair `--name v` of such a run pushes `v` and leaves the other pairs. */
  lemma OptionPairStep(cfg: Config, lv: Level, t: string, vs: seq<string>, first: bool)
    requires Fits(cfg, lv) && LongOptionToken(cfg, t) && vs != []
    ensures RunLevel(cfg, lv, Pairs(t, vs), first)
         == RunLevel(cfg, Push(lv, cfg.options[t[2..]], vs[0]), Pairs(t, vs[1..]), false)
  {
    var v, tail := vs[0], Pairs(t, vs[1..]);
    assert Pairs(t, vs) == [t] + ([v] + tail) by { ConsTwo(t, v, tail); }
    OptionPairToken(cfg, lv, t, v, tail, first);
    RunHead(cfg, lv, t, [v] + tail, first);
  }

  /** `--name v1 --name v2 ...` for an option alias `name` that is not a flag alias appends
      the values to that option's list in the order they were given, so `value` answers the
      last of them, and changes nothing else. */
  lemma {:induction false} RepeatedOption(cfg: Config, lv: Level, t: string, vs: seq<string>, first: bool)
    requires Fits(cfg, lv) && LongOptionToken(cfg, t)
    ensures RunLevel(cfg, lv, Pairs(t, vs), first) == Finished(Appended(lv, cfg.options[t[2..]], vs))
    decreases |vs|
  {
    var k := cfg.options[t[2..]];
    if vs == [] {
      assert lv.values[k] + vs == lv.values[k];
      assert lv.values[k := lv.values[k]] == lv.values;
    } else {
      OptionPairStep(cfg, lv, t, vs, first);
      AppendedStep(lv, k, vs);
      RepeatedOption(cfg, Push(lv, k, vs[0]), t, vs[1..], false);
    }
  }

  // ---------------------------------------------------------------------------------------------
  // Positionals and `--`.
  // ---------------------------------------------------------------------------------------------

  /** A token that, after the first one, the loop stores as a positional: a lone dash, a dash
      followed by a digit (a negative number), or anything not starting with a dash (command
      names included). */
  predicate Positional(t: string) {
    || t == "-"
    || (StartsWith(t, "-") && !StartsWith(t, "--") && |t| >= 2 && IsDigit(t[1]))
    || !StartsWith(t, "-")
  }

  /** A token that the loop stores as a positional even when it is the first one: a positional
      that, if it does not start with a dash, is neither a command alias nor an active `help`. */
  predicate FirstPositional(cfg: Config, t: string) {
    && Positional(t)
    && (!StartsWith(t, "-") ==> t !in cfg.commandHelp && !(cfg.helpCommand && t == "help"))
  }

  /** Positionals are appended to the argument list in order and change nothing else; at the
      start of a level the first of them must not be a command alias or an active `help`. */
  lemma {:induction false} PositionalRun(cfg: Config, lv: Level, ps: seq<string>, rest: seq<string>, first: bool)
    requires Fits(cfg, lv)
    requires forall t | t in ps :: Positional(t)
    requires first && ps != [] ==> FirstPositional(cfg, ps[0])
    ensures RunLevel(cfg, lv, ps + rest, first) ==
      RunLevel(cfg, lv.(args := lv.args + ps), rest, first && ps == [])
    decreases |ps|
  {
    if ps == [] {
      assert ps + rest == rest && lv.args + ps == lv.args;
    } else {
      var t := ps[0];
      assert (ps + rest)[0] == t && (ps + rest)[1..] == ps[1..] + rest;
      assert t in ps && forall u | u in ps[1..] :: u in ps;
      assert Token(cfg, lv, t, ps[1..] + rest, first) == Next(AddArg(lv, t), ps[1..] + rest);
      PositionalRun(cfg, AddArg(lv, t), ps[1..], rest, false);
      assert lv.args + [t] + ps[1..] == lv.args + ps;
    }
  }

  /** After positionals (possibly none, and then at any position), `--` sends every remaining
      token to the argument list verbatim and in order (option-like tokens and further `--`
      included), and the level finishes with no flag, option or command touched. */
  lemma DoubleDash(cfg: Config, lv: Level, ps: seq<string>, more: seq<string>, first: bool)
    requires Fits(cfg, lv)
    requires forall t | t in ps :: Positional(t)
    requires first && ps != [] ==> FirstPositional(cfg, ps[0])
    ensures RunLevel(cfg, lv, ps + ["--"] + more, first) == Finished(lv.(args := lv.args + ps + more))
  {
    PositionalRun(cfg, lv, ps, ["--"] + more, first);
    AppendAssoc(ps, ["--"], more);
    var lv' := lv.(args := lv.args + ps);
    assert (["--"] + more)[0] == "--" && (["--"] + more)[1..] == more;
    assert RunLevel(cfg, lv', ["--"] + more, first && ps == []) ==
      RunLevel(cfg, lv'.(args := lv'.args + more), [], false);
  }

  // ---------------------------------------------------------------------------------------------
  // Commands and `help`.
  // ---------------------------------------------------------------------------------------------

  /** `help <name>` as the first token, when the help command is on and `help` is not itself a
      command alias: the helptext of the command `name`, or an error when the name is missing
      or unknown. */
  lemma HelpCommandFirst(cfg: Config, lv: Level, more: seq<string>)
    requires Fits(cfg, lv)
    requires cfg.helpCommand && "help" !in cfg.commandHelp
    ensures var r := RunLevel(cfg, lv, ["help"] + more, true);
      && r.Stopped?
      && (r.halt.Help? <==> more != [] && more[0] in cfg.commandHelp)
      && (r.halt.Help? ==> r.halt.text == cfg.commandHelp[more[0]])
      && (!r.halt.Help? ==> r.halt == Error(if more == [] then MissingValue else UnknownCommand))
  {
    assert (["help"] + more)[0] == "help" && (["help"] + more)[1..] == more;
    assert "help"[0] == 'h';
  }

  /** `help` is an ordinary positional when it is not the first token or the help command is
      off (and it names no command). */
  lemma HelpAsPositional(cfg: Config, lv: Level, more: seq<string>, first: bool)
    requires Fits(cfg, lv)
    requires "help" !in cfg.commandHelp && (!first || !cfg.helpCommand)
    ensures RunLevel(cfg, lv, ["help"] + more, first) == RunLevel(cfg, AddArg(lv, "help"), more, false)
  {
    assert (["help"] + more)[0] == "help" && (["help"] + more)[1..] == more;
    assert "help"[0] == 'h';
  }
}
