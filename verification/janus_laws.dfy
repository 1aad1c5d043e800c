/** What the loop of the older engine (Sources/Janus/Janus.swift) promises about whole token
    sequences: each occurrence of a bool option records one `true`, a cluster hands the
    following tokens to its value-taking characters in order, `--name=value` agrees with
    `--name value`, everything after the first `--` is a positional, and `help <command>` is
    always available as a first token. */
module JanusLaws {
  import opened Text
  import opened Outcomes
  import opened SwiftInt
  import opened JanusSpec

  /** `n` copies of `true`. */
  function Trues(n: nat): (bs: seq<bool>)
    ensures |bs| == n && AllTrue(bs)
  {
    seq(n, _ => true)
  }

  /** A bool option's record after `n` more occurrences: found once it occurred, and `n` more
      `true`s recorded. */
  function Bumped(rec: Record, n: nat): Record {
    if n == 0 then rec else rec.(found := true, bools := rec.bools + Trues(n))
  }

  lemma BumpedAdd(rec: Record, a: nat, b: nat)
    ensures Bumped(Bumped(rec, a), b) == Bumped(rec, a + b)
  {
    assert Trues(a) + Trues(b) == Trues(a + b);
    AppendAssoc(rec.bools, Trues(a), Trues(b));
  }

  /** `name` is an alias of a bool option. */
  predicate BoolAlias(cfg: Config, lv: Level, name: string) {
    name in cfg.options && cfg.options[name] < |lv.records| && lv.records[cfg.options[name]].kind == Bool
  }

  /** How many characters of `cs` are aliases of the record in slot `k`. */
  function Hits(cfg: Config, cs: string, k: nat): nat
    decreases |cs|
  {
    if cs == [] then 0
    else (if [cs[0]] in cfg.options && cfg.options[[cs[0]]] == k then 1 else 0) + Hits(cfg, cs[1..], k)
  }

  /** Every record of `lv2` has the type it has in `lv1`. */
  predicate SameKinds(lv1: Level, lv2: Level) {
    |lv2.records| == |lv1.records| && forall k | 0 <= k < |lv1.records| :: lv2.records[k].kind == lv1.records[k].kind
  }

  /** One occurrence of a bool option records one `true`. */
  lemma UseBool(lv: Level, k: nat, rest: seq<string>)
    requires k < |lv.records| && lv.records[k].kind == Bool
    ensures Use(lv, k, rest) == Continue(Put(lv, k, Bumped(lv.records[k], 1)), rest)
  {
    assert Trues(1) == [true];
  }

  /** The first character of a cluster of bool characters is handled on its own. */
  lemma ClusterBoolHead(cfg: Config, lv: Level, cs: string, rest: seq<string>)
    requires Fits(cfg, lv) && cs != [] && BoolAlias(cfg, lv, [cs[0]])
    ensures var kc := cfg.options[[cs[0]]];
      Cluster(cfg, lv, cs, rest) == Cluster(cfg, Put(lv, kc, Bumped(lv.records[kc], 1)), cs[1..], rest)
  {
    UseBool(lv, cfg.options[[cs[0]]], rest);
  }

  /** Every character of `cs` is an alias of a bool option. */
  predicate AllBool(cfg: Config, lv: Level, cs: string)
    decreases |cs|
  {
    cs == [] || (BoolAlias(cfg, lv, [cs[0]]) && AllBool(cfg, lv, cs[1..]))
  }

  /** Being a bool alias depends on the kinds only. */
  lemma {:induction false} AllBoolKept(cfg: Config, lv: Level, lv': Level, cs: string)
    requires SameKinds(lv, lv') && AllBool(cfg, lv, cs)
    ensures AllBool(cfg, lv', cs)
    decreases |cs|
  {
    if cs != [] {
      AllBoolKept(cfg, lv, lv', cs[1..]);
    }
  }

  /** A cluster of bool option characters goes through, consumes no tokens and changes no
      positional and no command. */
  lemma {:induction false} ClusterBoolShape(cfg: Config, lv: Level, cs: string, rest: seq<string>)
    requires Fits(cfg, lv)
    requires AllBool(cfg, lv, cs)
    ensures var r := Cluster(cfg, lv, cs, rest);
      && r.Continue? && r.rest == rest && |r.level.records| == |lv.records|
      && r.level.arguments == lv.arguments && r.level.command == lv.command
    decreases |cs|
  {
    if cs != [] {
      var kc := cfg.options[[cs[0]]];
      var lv1 := Put(lv, kc, Bumped(lv.records[kc], 1));
      ClusterBoolHead(cfg, lv, cs, rest);
      assert SameKinds(lv, lv1);
      AllBoolKept(cfg, lv, lv1, cs[1..]);
      ClusterBoolShape(cfg, lv1, cs[1..], rest);
    }
  }

  /** Bumping the record that the first character of `cs` names once, and then slot `k` once
      per occurrence in the rest of `cs`, bumps slot `k` once per occurrence in `cs`. */
  lemma BumpedAfterPut(cfg: Config, lv: Level, cs: string, k: nat)
    requires cs != [] && [cs[0]] in cfg.options && cfg.options[[cs[0]]] < |lv.records| && k < |lv.records|
    ensures var kc := cfg.options[[cs[0]]];
      Bumped(Put(lv, kc, Bumped(lv.records[kc], 1)).records[k], Hits(cfg, cs[1..], k))
        == Bumped(lv.records[k], Hits(cfg, cs, k))
  {
    var kc := cfg.options[[cs[0]]];
    var n := Hits(cfg, cs[1..], k);
    if k == kc {
      assert Hits(cfg, cs, k) == 1 + n;
      BumpedAdd(lv.records[k], 1, n);
    } else {
      assert Hits(cfg, cs, k) == n;
    }
  }

  /** The first character of a cluster of bool characters bumps its own record, which leaves
      a shorter cluster of bool characters that owes the record in slot `k` the rest of its
      occurrences. */
  lemma ClusterBoolStep(cfg: Config, lv: Level, cs: string, rest: seq<string>, k: nat)
    requires Fits(cfg, lv) && k < |lv.records| && cs != []
    requires AllBool(cfg, lv, cs)
    ensures var kc := cfg.options[[cs[0]]];
      var lv1 := Put(lv, kc, Bumped(lv.records[kc], 1));
      && Fits(cfg, lv1) && AllBool(cfg, lv1, cs[1..])
      && Cluster(cfg, lv, cs, rest) == Cluster(cfg, lv1, cs[1..], rest)
      && Bumped(lv1.records[k], Hits(cfg, cs[1..], k)) == Bumped(lv.records[k], Hits(cfg, cs, k))
  {
    var kc := cfg.options[[cs[0]]];
    var lv1 := Put(lv, kc, Bumped(lv.records[kc], 1));
    ClusterBoolHead(cfg, lv, cs, rest);
    assert SameKinds(lv, lv1);
    AllBoolKept(cfg, lv, lv1, cs[1..]);
    BumpedAfterPut(cfg, lv, cs, k);
  }

  /** A cluster of bool option characters records one `true` per occurrence of the record in
      slot `k`. */
  lemma {:induction false} ClusterBoolSlot(cfg: Config, lv: Level, cs: string, rest: seq<string>, k: nat)
    requires Fits(cfg, lv) && k < |lv.records|
    requires AllBool(cfg, lv, cs)
    ensures var r := Cluster(cfg, lv, cs, rest);
      r.Continue? && r.level.records[k] == Bumped(lv.records[k], Hits(cfg, cs, k))
    decreases |cs|
  {
    if cs != [] {
      var kc := cfg.options[[cs[0]]];
      var lv1 := Put(lv, kc, Bumped(lv.records[kc], 1));
      ClusterBoolStep(cfg, lv, cs, rest, k);
      ClusterBoolSlot(cfg, lv1, cs[1..], rest, k);
    }
  }

  /** A cluster of bool option characters records one `true` per character, in the record its
      character names, and consumes no tokens. */
  lemma ClusterBools(cfg: Config, lv: Level, cs: string, rest: seq<string>)
    requires Fits(cfg, lv)
    requires AllBool(cfg, lv, cs)
    ensures var r := Cluster(cfg, lv, cs, rest);
      && r.Continue? && r.rest == rest && |r.level.records| == |lv.records|
      && r.level.arguments == lv.arguments && r.level.command == lv.command
      && forall k | 0 <= k < |lv.records| :: r.level.records[k] == Bumped(lv.records[k], Hits(cfg, cs, k))
  {
    ClusterBoolShape(cfg, lv, cs, rest);
    forall k | 0 <= k < |lv.records|
      ensures Cluster(cfg, lv, cs, rest).level.records[k] == Bumped(lv.records[k], Hits(cfg, cs, k))
    {
      ClusterBoolSlot(cfg, lv, cs, rest, k);
    }
  }
  /** `--name` for a bool alias `name`. */
  predicate LongBool(cfg: Config, lv: Level, t: string) {
    StartsWith(t, "--") && t != "--" && '=' !in t[2..] && BoolAlias(cfg, lv, t[2..])
  }

  /** A short cluster `-cs` of bool aliases. */
  predicate ShortBools(cfg: Config, lv: Level, t: string) {
    |t| >= 2 && t[0] == '-' && t[1] != '-' && !IsDigit(t[1]) && '=' !in t[1..] && AllBool(cfg, lv, t[1..])
  }

  predicate BoolToken(cfg: Config, lv: Level, t: string) {
    LongBool(cfg, lv, t) || ShortBools(cfg, lv, t)
  }

  /** How many occurrences of the record in slot `k` the bool token `t` holds. */
  function TokenHits(cfg: Config, lv: Level, t: string, k: nat): nat
    requires BoolToken(cfg, lv, t)
  {
    if LongBool(cfg, lv, t) then (if cfg.options[t[2..]] == k then 1 else 0) else Hits(cfg, t[1..], k)
  }

  /** One bool token bumps each record by its occurrences in the token. */
  lemma BoolTokenStep(cfg: Config, lv: Level, t: string, more: seq<string>, first: bool)
    requires Fits(cfg, lv) && BoolToken(cfg, lv, t)
    ensures var r := Token(cfg, lv, t, more, first, true);
      && r.Next? && r.rest == more && r.parsing && SameKinds(lv, r.level)
      && r.level.arguments == lv.arguments && r.level.command == lv.command
      && forall k | 0 <= k < |lv.records| :: r.level.records[k] == Bumped(lv.records[k], TokenHits(cfg, lv, t, k))
  {
    if LongBool(cfg, lv, t) {
      UseBool(lv, cfg.options[t[2..]], more);
    } else {
      assert StartsWith(t, "-") && !StartsWith(t, "--") && t != "-" && !IsDigit(t[1]);
      ClusterBools(cfg, lv, t[1..], more);
    }
  }

  /** Every token of `toks` is a bool token. */
  predicate AllBoolTokens(cfg: Config, lv: Level, toks: seq<string>)
    decreases |toks|
  {
    toks == [] || (BoolToken(cfg, lv, toks[0]) && AllBoolTokens(cfg, lv, toks[1..]))
  }

  /** How many occurrences of the record in slot `k` the bool tokens `toks` hold. */
  function Occurrences(cfg: Config, lv: Level, toks: seq<string>, k: nat): nat
    requires AllBoolTokens(cfg, lv, toks)
    decreases |toks|
  {
    if toks == [] then 0 else TokenHits(cfg, lv, toks[0], k) + Occurrences(cfg, lv, toks[1..], k)
  }

  /** Bool tokens are a matter of the kinds only, so they stay bool tokens as a parse goes on. */
  lemma BoolTokenKept(cfg: Config, lv: Level, lv': Level, t: string, k: nat)
    requires SameKinds(lv, lv') && BoolToken(cfg, lv, t)
    ensures BoolToken(cfg, lv', t) && TokenHits(cfg, lv', t, k) == TokenHits(cfg, lv, t, k)
  {
    if !LongBool(cfg, lv, t) {
      AllBoolKept(cfg, lv, lv', t[1..]);
      assert !StartsWith(t, "--");
    }
  }

  lemma {:induction false} OccurrencesKept(cfg: Config, lv: Level, lv': Level, toks: seq<string>, k: nat)
    requires SameKinds(lv, lv') && AllBoolTokens(cfg, lv, toks)
    ensures AllBoolTokens(cfg, lv', toks) && Occurrences(cfg, lv', toks, k) == Occurrences(cfg, lv, toks, k)
    decreases |toks|
  {
    if toks != [] {
      BoolTokenKept(cfg, lv, lv', toks[0], k);
      OccurrencesKept(cfg, lv, lv', toks[1..], k);
    }
  }

  /** A level made of bool tokens finishes and changes no positional and no command. */
  lemma {:induction false} BoolRunShape(cfg: Config, lv: Level, toks: seq<string>, first: bool)
    requires Fits(cfg, lv) && AllBoolTokens(cfg, lv, toks)
    ensures var r := RunLevel(cfg, lv, toks, first, true);
      && r.Finished? && |r.level.records| == |lv.records|
      && r.level.arguments == lv.arguments && r.level.command == lv.command
    decreases |toks|
  {
    if toks != [] {
      BoolTokenStep(cfg, lv, toks[0], toks[1..], first);
      var lv' := Token(cfg, lv, toks[0], toks[1..], first, true).level;
      OccurrencesKept(cfg, lv, lv', toks[1..], 0);
      BoolRunShape(cfg, lv', toks[1..], false);
    }
  }

  /** A level made of bool tokens bumps the record in slot `k` by the occurrences of its
      option. */
  lemma {:induction false} BoolRunSlot(cfg: Config, lv: Level, toks: seq<string>, first: bool, k: nat)
    requires Fits(cfg, lv) && AllBoolTokens(cfg, lv, toks) && k < |lv.records|
    ensures var r := RunLevel(cfg, lv, toks, first, true);
      r.Finished? && |r.level.records| == |lv.records|
      && r.level.records[k] == Bumped(lv.records[k], Occurrences(cfg, lv, toks, k))
    decreases |toks|
  {
    BoolRunShape(cfg, lv, toks, first);
    if toks != [] {
      BoolTokenStep(cfg, lv, toks[0], toks[1..], first);
      var lv' := Token(cfg, lv, toks[0], toks[1..], first, true).level;
      OccurrencesKept(cfg, lv, lv', toks[1..], k);
      assert RunLevel(cfg, lv, toks, first, true) == RunLevel(cfg, lv', toks[1..], false, true);
      BoolRunSlot(cfg, lv', toks[1..], false, k);
      BumpedAdd(lv.records[k], TokenHits(cfg, lv, toks[0], k), Occurrences(cfg, lv, toks[1..], k));
    }
  }

  /** A level made of bool tokens finishes with every record bumped by the occurrences of its
      option, whichever alias and form each occurrence used (`-bb -b` records three `true`s,
      so `lenList` answers 3), and nothing else changed. */
  lemma BoolCounting(cfg: Config, lv: Level, toks: seq<string>, first: bool)
    requires Fits(cfg, lv) && AllBoolTokens(cfg, lv, toks)
    ensures var r := RunLevel(cfg, lv, toks, first, true);
      && r.Finished? && |r.level.records| == |lv.records|
      && r.level.arguments == lv.arguments && r.level.command == lv.command
      && forall k | 0 <= k < |lv.records| :: r.level.records[k] == Bumped(lv.records[k], Occurrences(cfg, lv, toks, k))
  {
    BoolRunShape(cfg, lv, toks, first);
    forall k | 0 <= k < |lv.records|
      ensures RunLevel(cfg, lv, toks, first, true).level.records[k] == Bumped(lv.records[k], Occurrences(cfg, lv, toks, k))
    {
      BoolRunSlot(cfg, lv, toks, first, k);
    }
  }

  // ---------------------------------------------------------------------------------------------
  // Clusters that take values.
  // ---------------------------------------------------------------------------------------------

  /** `c` is an alias of some option. */
  predicate Registered(cfg: Config, lv: Level, c: char) {
    [c] in cfg.options && cfg.options[[c]] < |lv.records|
  }

  /** The type of the option `c` names. */
  function KindOf(cfg: Config, lv: Level, c: char): Kind
    requires Registered(cfg, lv, c)
  {
    lv.records[cfg.options[[c]]].kind
  }

  /** `c` is an alias of a bool or a string option: a character whose handling cannot fail
      for a bad value. */
  predicate Plain(cfg: Config, lv: Level, c: char) {
    Registered(cfg, lv, c) && KindOf(cfg, lv, c) != Integer
  }

  /** `c` takes the next token. */
  predicate TakesValue(cfg: Config, lv: Level, c: char) {
    Registered(cfg, lv, c) && KindOf(cfg, lv, c) != Bool
  }

  /** Every character of `cs` is an alias of some option. */
  predicate AllRegistered(cfg: Config, lv: Level, cs: string)
    decreases |cs|
  {
    cs == [] || (Registered(cfg, lv, cs[0]) && AllRegistered(cfg, lv, cs[1..]))
  }

  /** Every character of `cs` is an alias of a bool or a string option. */
  predicate AllPlain(cfg: Config, lv: Level, cs: string)
    decreases |cs|
  {
    cs == [] || (Plain(cfg, lv, cs[0]) && AllPlain(cfg, lv, cs[1..]))
  }

  /** How many tokens after a cluster `cs` its characters consume. */
  function ValueChars(cfg: Config, lv: Level, cs: string): nat
    decreases |cs|
  {
    if cs == [] then 0
    else (if TakesValue(cfg, lv, cs[0]) then 1 else 0) + ValueChars(cfg, lv, cs[1..])
  }

  /** Every token that an integer character of `cs` reads from `vals` is an integer. */
  predicate IntsParse(cfg: Config, lv: Level, cs: string, vals: seq<string>)
    requires ValueChars(cfg, lv, cs) <= |vals|
    decreases |cs|
  {
    if cs == [] then true
    else if TakesValue(cfg, lv, cs[0]) then
      (KindOf(cfg, lv, cs[0]) == Integer ==> ParseInt(vals[0]).Some?) && IntsParse(cfg, lv, cs[1..], vals[1..])
    else IntsParse(cfg, lv, cs[1..], vals)
  }

  /** The strings the record in slot `k` receives from the cluster `cs`, whose value-taking
      characters read `vals` one token each from the left. */
  function Picked(cfg: Config, lv: Level, cs: string, vals: seq<string>, k: nat): seq<string>
    requires ValueChars(cfg, lv, cs) <= |vals|
    decreases |cs|
  {
    if cs == [] then []
    else if TakesValue(cfg, lv, cs[0]) then
      (if cfg.options[[cs[0]]] == k && KindOf(cfg, lv, cs[0]) == Str then [vals[0]] else [])
      + Picked(cfg, lv, cs[1..], vals[1..], k)
    else Picked(cfg, lv, cs[1..], vals, k)
  }

  /** The integers the record in slot `k` receives from the cluster `cs` in the same way. */
  function PickedInts(cfg: Config, lv: Level, cs: string, vals: seq<string>, k: nat): seq<int>
    requires ValueChars(cfg, lv, cs) <= |vals| && IntsParse(cfg, lv, cs, vals)
    decreases |cs|
  {
    if cs == [] then []
    else if TakesValue(cfg, lv, cs[0]) then
      (if cfg.options[[cs[0]]] == k && KindOf(cfg, lv, cs[0]) == Integer then [ParseInt(vals[0]).value] else [])
      + PickedInts(cfg, lv, cs[1..], vals[1..], k)
    else PickedInts(cfg, lv, cs[1..], vals, k)
  }

  /** Counting value-taking characters depends on the kinds only. */
  lemma {:induction false} ValueCharsKept(cfg: Config, lv: Level, lv': Level, cs: string)
    requires SameKinds(lv, lv')
    ensures ValueChars(cfg, lv', cs) == ValueChars(cfg, lv, cs)
    ensures AllPlain(cfg, lv, cs) ==> AllPlain(cfg, lv', cs)
    ensures AllRegistered(cfg, lv, cs) ==> AllRegistered(cfg, lv', cs)
    decreases |cs|
  {
    if cs != [] {
      ValueCharsKept(cfg, lv, lv', cs[1..]);
    }
  }

  /** Collecting picked values depends on the kinds only. */
  lemma {:induction false} PickedKept(cfg: Config, lv: Level, lv': Level, cs: string, vals: seq<string>, k: nat)
    requires SameKinds(lv, lv') && ValueChars(cfg, lv, cs) <= |vals|
    ensures ValueChars(cfg, lv', cs) <= |vals| && Picked(cfg, lv', cs, vals, k) == Picked(cfg, lv, cs, vals, k)
    ensures IntsParse(cfg, lv', cs, vals) == IntsParse(cfg, lv, cs, vals)
    ensures IntsParse(cfg, lv, cs, vals) ==> PickedInts(cfg, lv', cs, vals, k) == PickedInts(cfg, lv, cs, vals, k)
    decreases |cs|
  {
    ValueCharsKept(cfg, lv, lv', cs);
    if cs != [] {
      if TakesValue(cfg, lv, cs[0]) {
        PickedKept(cfg, lv, lv', cs[1..], vals[1..], k);
      } else {
        PickedKept(cfg, lv, lv', cs[1..], vals, k);
      }
    }
  }

  /** One registered character: a bool records `true`; a string or an integer takes the next
      token, which must exist and, for an integer, parse. */
  lemma OneChar(cfg: Config, lv: Level, c: char, rest: seq<string>)
    requires Fits(cfg, lv) && Registered(cfg, lv, c)
    ensures var kc := cfg.options[[c]];
      var rec := lv.records[kc].(found := true);
      ShortChar(cfg, lv, c, rest) ==
        if rec.kind == Bool then Continue(Put(lv, kc, Bumped(lv.records[kc], 1)), rest)
        else if rest == [] then Stop(Error(MissingValue))
        else if rec.kind == Str then Continue(Put(lv, kc, rec.(strings := rec.strings + [rest[0]])), rest[1..])
        else if ParseInt(rest[0]).None? then Stop(Error(InvalidNumericValue))
        else Continue(Put(lv, kc, rec.(ints := rec.ints + [ParseInt(rest[0]).value])), rest[1..])
  {
    if lv.records[cfg.options[[c]]].kind == Bool {
      UseBool(lv, cfg.options[[c]], rest);
    }
  }

  /** A cluster of registered characters goes through exactly when the tokens after it hold a
      value for every string or integer character and every integer character's value parses;
      when the values are there a failure is a bad integer, and a cluster of bool and string
      characters can only fail for a missing value. */
  lemma {:induction false} ClusterProgress(cfg: Config, lv: Level, cs: string, rest: seq<string>)
    requires Fits(cfg, lv) && AllRegistered(cfg, lv, cs)
    ensures var r := Cluster(cfg, lv, cs, rest);
      && (r.Continue? <==> ValueChars(cfg, lv, cs) <= |rest| && IntsParse(cfg, lv, cs, rest))
      && (r.Stop? ==> r.halt == Error(MissingValue) || r.halt == Error(InvalidNumericValue))
      && (r.Stop? && ValueChars(cfg, lv, cs) <= |rest| ==> r.halt == Error(InvalidNumericValue))
      && (r.Stop? && AllPlain(cfg, lv, cs) ==> r.halt == Error(MissingValue))
      && (r.Continue? ==> r.rest == rest[ValueChars(cfg, lv, cs)..] && SameKinds(lv, r.level))
    decreases |cs|
  {
    if cs != [] {
      OneChar(cfg, lv, cs[0], rest);
      var step := ShortChar(cfg, lv, cs[0], rest);
      if step.Continue? {
        var lv1 := step.level;
        assert SameKinds(lv, lv1);
        ValueCharsKept(cfg, lv, lv1, cs[1..]);
        if ValueChars(cfg, lv, cs) <= |rest| {
          PickedKept(cfg, lv, lv1, cs[1..], step.rest, 0);
        }
        ClusterProgress(cfg, lv1, cs[1..], step.rest);
      }
    }
  }

  /** What one registered character with a good value at hand appends to slot `k`. */
  lemma OneCharValues(cfg: Config, lv: Level, c: char, rest: seq<string>, k: nat)
    requires Fits(cfg, lv) && Registered(cfg, lv, c) && k < |lv.records|
    requires TakesValue(cfg, lv, c) ==> rest != [] && (KindOf(cfg, lv, c) == Integer ==> ParseInt(rest[0]).Some?)
    ensures var r := ShortChar(cfg, lv, c, rest);
      var mine := cfg.options[[c]] == k;
      && r.Continue? && SameKinds(lv, r.level)
      && r.rest == (if TakesValue(cfg, lv, c) then rest[1..] else rest)
      && r.level.records[k].strings
         == lv.records[k].strings + (if mine && KindOf(cfg, lv, c) == Str then [rest[0]] else [])
      && r.level.records[k].ints
         == lv.records[k].ints + (if mine && KindOf(cfg, lv, c) == Integer then [ParseInt(rest[0]).value] else [])
  {
    OneChar(cfg, lv, c, rest);
  }

  /** The first character of a cluster whose values are at hand and parse leaves a cluster of
      the same sort. */
  lemma ClusterHead(cfg: Config, lv: Level, cs: string, rest: seq<string>)
    requires Fits(cfg, lv) && AllRegistered(cfg, lv, cs) && cs != []
    requires ValueChars(cfg, lv, cs) <= |rest| && IntsParse(cfg, lv, cs, rest)
    ensures var step := ShortChar(cfg, lv, cs[0], rest);
      && step.Continue? && Fits(cfg, step.level) && SameKinds(lv, step.level)
      && AllRegistered(cfg, step.level, cs[1..]) && ValueChars(cfg, step.level, cs[1..]) <= |step.rest|
      && IntsParse(cfg, step.level, cs[1..], step.rest)
      && Cluster(cfg, lv, cs, rest) == Cluster(cfg, step.level, cs[1..], step.rest)
  {
    OneCharValues(cfg, lv, cs[0], rest, 0);
    var step := ShortChar(cfg, lv, cs[0], rest);
    ValueCharsKept(cfg, lv, step.level, cs[1..]);
    PickedKept(cfg, lv, step.level, cs[1..], step.rest, 0);
  }

  /** ... and the strings its first character gives slot `k` are the first of those the
      cluster gives it. */
  lemma ClusterHeadStrings(cfg: Config, lv: Level, cs: string, rest: seq<string>, k: nat)
    requires Fits(cfg, lv) && AllRegistered(cfg, lv, cs) && cs != [] && k < |lv.records|
    requires ValueChars(cfg, lv, cs) <= |rest| && IntsParse(cfg, lv, cs, rest)
    ensures var step := ShortChar(cfg, lv, cs[0], rest);
      && step.Continue? && ValueChars(cfg, step.level, cs[1..]) <= |step.rest|
      && step.level.records[k].strings + Picked(cfg, step.level, cs[1..], step.rest, k)
         == lv.records[k].strings + Picked(cfg, lv, cs, rest, k)
  {
    var c := cs[0];
    OneCharValues(cfg, lv, c, rest, k);
    var step := ShortChar(cfg, lv, c, rest);
    PickedKept(cfg, lv, step.level, cs[1..], step.rest, k);
    var tail := Picked(cfg, lv, cs[1..], step.rest, k);
    var before := lv.records[k].strings;
    assert step.level.records[k].strings + tail == before + Picked(cfg, lv, cs, rest, k) by {
      if TakesValue(cfg, lv, c) && cfg.options[[c]] == k && KindOf(cfg, lv, c) == Str {
        assert Picked(cfg, lv, cs, rest, k) == [rest[0]] + tail;
        AppendAssoc(before, [rest[0]], tail);
      } else {
        if TakesValue(cfg, lv, c) {
          assert [] + tail == tail;
        }
        assert Picked(cfg, lv, cs, rest, k) == tail;
      }
    }
  }

  /** ... and so are the integers. */
  lemma ClusterHeadInts(cfg: Config, lv: Level, cs: string, rest: seq<string>, k: nat)
    requires Fits(cfg, lv) && AllRegistered(cfg, lv, cs) && cs != [] && k < |lv.records|
    requires ValueChars(cfg, lv, cs) <= |rest| && IntsParse(cfg, lv, cs, rest)
    ensures var step := ShortChar(cfg, lv, cs[0], rest);
      && step.Continue? && ValueChars(cfg, step.level, cs[1..]) <= |step.rest|
      && IntsParse(cfg, step.level, cs[1..], step.rest)
      && step.level.records[k].ints + PickedInts(cfg, step.level, cs[1..], step.rest, k)
         == lv.records[k].ints + PickedInts(cfg, lv, cs, rest, k)
  {
    var c := cs[0];
    OneCharValues(cfg, lv, c, rest, k);
    var step := ShortChar(cfg, lv, c, rest);
    PickedKept(cfg, lv, step.level, cs[1..], step.rest, k);
    var tail := PickedInts(cfg, lv, cs[1..], step.rest, k);
    var before := lv.records[k].ints;
    assert step.level.records[k].ints + tail == before + PickedInts(cfg, lv, cs, rest, k) by {
      if TakesValue(cfg, lv, c) && cfg.options[[c]] == k && KindOf(cfg, lv, c) == Integer {
        var n := ParseInt(rest[0]).value;
        assert PickedInts(cfg, lv, cs, rest, k) == [n] + tail;
        AppendAssoc(before, [n], tail);
      } else {
        if TakesValue(cfg, lv, c) {
          assert [] + tail == tail;
        }
        assert PickedInts(cfg, lv, cs, rest, k) == tail;
      }
    }
  }

  /** The string characters of a cluster that goes through append, in order, the tokens that
      follow it to the record in slot `k`, and its integer characters append the values of
      theirs. */
  lemma {:induction false} ClusterSlot(cfg: Config, lv: Level, cs: string, rest: seq<string>, k: nat)
    requires Fits(cfg, lv) && AllRegistered(cfg, lv, cs) && k < |lv.records|
    requires ValueChars(cfg, lv, cs) <= |rest| && IntsParse(cfg, lv, cs, rest)
    ensures var r := Cluster(cfg, lv, cs, rest);
      && r.Continue?
      && r.level.records[k].strings == lv.records[k].strings + Picked(cfg, lv, cs, rest, k)
      && r.level.records[k].ints == lv.records[k].ints + PickedInts(cfg, lv, cs, rest, k)
    decreases |cs|
  {
    if cs == [] {
      assert lv.records[k].strings + [] == lv.records[k].strings;
      assert lv.records[k].ints + [] == lv.records[k].ints;
    } else {
      ClusterHead(cfg, lv, cs, rest);
      ClusterHeadStrings(cfg, lv, cs, rest, k);
      ClusterHeadInts(cfg, lv, cs, rest, k);
      var step := ShortChar(cfg, lv, cs[0], rest);
      ClusterSlot(cfg, step.level, cs[1..], step.rest, k);
    }
  }

  /** A cluster whose string and integer characters find their values after it, all integers
      parsing, consumes exactly those tokens and hands them out in order: `-bsi x 1` gives `x`
      to `s` and 1 to `i`. */
  lemma ClusterValues(cfg: Config, lv: Level, cs: string, rest: seq<string>)
    requires Fits(cfg, lv) && AllRegistered(cfg, lv, cs)
    requires ValueChars(cfg, lv, cs) <= |rest| && IntsParse(cfg, lv, cs, rest)
    ensures var r := Cluster(cfg, lv, cs, rest);
      && r.Continue? && r.rest == rest[ValueChars(cfg, lv, cs)..] && SameKinds(lv, r.level)
      && r.level.arguments == lv.arguments && r.level.command == lv.command
      && forall k | 0 <= k < |lv.records| ::
           && r.level.records[k].strings == lv.records[k].strings + Picked(cfg, lv, cs, rest, k)
           && r.level.records[k].ints == lv.records[k].ints + PickedInts(cfg, lv, cs, rest, k)
  {
    ClusterProgress(cfg, lv, cs, rest);
    forall k | 0 <= k < |lv.records|
      ensures Cluster(cfg, lv, cs, rest).level.records[k].strings == lv.records[k].strings + Picked(cfg, lv, cs, rest, k)
      ensures Cluster(cfg, lv, cs, rest).level.records[k].ints == lv.records[k].ints + PickedInts(cfg, lv, cs, rest, k)
    {
      ClusterSlot(cfg, lv, cs, rest, k);
    }
  }

  /** What an unregistered character `c` of a cluster does. */
  function CharHalt(cfg: Config, c: char): (h: Halt)
    ensures h.Error? <==> !(c == 'h' && cfg.helptext.Some?) && !(c == 'v' && cfg.version.Some?)
  {
    if c == 'h' && cfg.helptext.Some? then Help(cfg.helptext.value)
    else if c == 'v' && cfg.version.Some? then Version(cfg.version.value)
    else Error(UnknownOption)
  }

  /** A cluster whose first `i` characters are registered and find their values stops at its
      unregistered character `i`: with the helptext for `h`, the version for `v` (when set),
      and an unknown option error otherwise. */
  lemma {:induction false} ClusterStops(cfg: Config, lv: Level, cs: string, rest: seq<string>, i: nat)
    requires Fits(cfg, lv)
    requires i < |cs| && [cs[i]] !in cfg.options
    requires AllRegistered(cfg, lv, cs[..i]) && ValueChars(cfg, lv, cs[..i]) <= |rest|
    requires IntsParse(cfg, lv, cs[..i], rest)
    ensures Cluster(cfg, lv, cs, rest) == Stop(CharHalt(cfg, cs[i]))
    decreases i
  {
    if i > 0 {
      assert cs[..i][0] == cs[0] && cs[..i][1..] == cs[1..][..i - 1];
      ClusterHead(cfg, lv, cs[..i], rest);
      var step := ShortChar(cfg, lv, cs[0], rest);
      ClusterStops(cfg, step.level, cs[1..], step.rest, i - 1);
    }
  }

  // ---------------------------------------------------------------------------------------------
  // The equals form.
  // ---------------------------------------------------------------------------------------------

  /** A token that starts with two dashes and is not `--` goes to the long option handler. */
  lemma LongToken(cfg: Config, lv: Level, body: string, more: seq<string>, first: bool)
    requires Fits(cfg, lv) && body != ""
    ensures Token(cfg, lv, "--" + body, more, first, true) ==
      match LongOption(cfg, lv, body, more)
      case Stop(h) => End(Stopped(h))
      case Continue(lv', more') => Next(lv', more', true)
  {
    assert ("--" + body)[2..] == body && StartsWith("--" + body, "--");
  }

  /** A long option that halts the parse: an unregistered `--help` or `--version` shows the
      helptext or version when one is set, and any other unregistered name is an unknown
      option. */
  lemma LongHalts(cfg: Config, lv: Level, name: string, rest: seq<string>, first: bool)
    requires Fits(cfg, lv) && name != "" && '=' !in name
    requires name !in cfg.options
    ensures RunLevel(cfg, lv, ["--" + name] + rest, first, true) == Stopped(
      if name == "help" && cfg.helptext.Some? then Help(cfg.helptext.value)
      else if name == "version" && cfg.version.Some? then Version(cfg.version.value)
      else Error(UnknownOption))
  {
    LongToken(cfg, lv, name, rest, first);
    RunHead(cfg, lv, "--" + name, rest, first, true);
  }

  /** `name=value` after two dashes is handled as `name` followed by the token `value`. */
  lemma LongEqualsHandler(cfg: Config, lv: Level, name: string, value: string, rest: seq<string>)
    requires Fits(cfg, lv)
    requires '=' !in name && name in cfg.options && value != ""
    requires lv.records[cfg.options[name]].kind != Bool
    ensures LongOption(cfg, lv, name + "=" + value, rest) == LongOption(cfg, lv, name, [value] + rest)
  {
    SplitAtEqualsJoin(name, value);
    var k := cfg.options[name];
    assert '=' in name + "=" + value;
    assert ([value] + rest)[0] == value && ([value] + rest)[1..] == rest;
    assert EqualsOption(cfg, lv, name + "=" + value, rest) == Use(lv, k, [value] + rest);
  }

  /** `--name=value` does what `--name value` does for a string or integer option, including
      failing when an integer option's value does not parse. */
  lemma LongEqualsForm(cfg: Config, lv: Level, name: string, value: string, rest: seq<string>, first: bool)
    requires Fits(cfg, lv)
    requires name != "" && '=' !in name && name in cfg.options && value != ""
    requires lv.records[cfg.options[name]].kind != Bool
    ensures RunLevel(cfg, lv, ["--" + (name + "=" + value)] + rest, first, true)
         == RunLevel(cfg, lv, ["--" + name, value] + rest, first, true)
  {
    assert Token(cfg, lv, "--" + (name + "=" + value), rest, first, true) == Token(cfg, lv, "--" + name, [value] + rest, first, true) by {
      LongEqualsHandler(cfg, lv, name, value, rest);
      LongToken(cfg, lv, name + "=" + value, rest, first);
      LongToken(cfg, lv, name, [value] + rest, first);
    }
    SameTurn(cfg, lv, "--" + (name + "=" + value), rest, "--" + name, [value] + rest, first, true);
    assert ["--" + name, value] + rest == ["--" + name] + ([value] + rest) by { ConsTwo("--" + name, value, rest); }
  }

  /** `c=value` after a single dash is handled as `c` followed by the token `value`. */
  lemma ShortEqualsHandler(cfg: Config, lv: Level, c: char, value: string, rest: seq<string>)
    requires Fits(cfg, lv)
    requires c != '=' && [c] in cfg.options && value != ""
    requires lv.records[cfg.options[[c]]].kind != Bool
    ensures ShortOption(cfg, lv, [c] + "=" + value, rest) == ShortOption(cfg, lv, [c], [value] + rest)
  {
    SplitAtEqualsJoin([c], value);
    var k := cfg.options[[c]];
    assert ([value] + rest)[0] == value && ([value] + rest)[1..] == rest;
    assert EqualsOption(cfg, lv, [c] + "=" + value, rest) == Use(lv, k, [value] + rest);
    assert '=' !in [c];
    assert Cluster(cfg, lv, [c], [value] + rest) == ShortChar(cfg, lv, c, [value] + rest);
  }

  /** A token that starts with one dash, is longer than that, and whose second character is
      neither a dash nor a digit goes to the short option handler. */
  lemma ShortToken(cfg: Config, lv: Level, body: string, more: seq<string>, first: bool)
    requires Fits(cfg, lv) && body != "" && body[0] != '-' && !IsDigit(body[0])
    ensures Token(cfg, lv, "-" + body, more, first, true) ==
      match ShortOption(cfg, lv, body, more)
      case Stop(h) => End(Stopped(h))
      case Continue(lv', more') => Next(lv', more', true)
  {
    var t := "-" + body;
    assert t[0] == '-' && t[1] == body[0] && t[1..] == body;
    assert StartsWith(t, "-") && !StartsWith(t, "--") && t != "-" && t != "--";
  }

  /** `-c=value` does what `-c value` does for a single-character string or integer option. */
  lemma ShortEqualsForm(cfg: Config, lv: Level, c: char, value: string, rest: seq<string>, first: bool)
    requires Fits(cfg, lv)
    requires c != '-' && c != '=' && !IsDigit(c) && [c] in cfg.options && value != ""
    requires lv.records[cfg.options[[c]]].kind != Bool
    ensures RunLevel(cfg, lv, ["-" + ([c] + "=" + value)] + rest, first, true)
         == RunLevel(cfg, lv, ["-" + [c], value] + rest, first, true)
  {
    assert Token(cfg, lv, "-" + ([c] + "=" + value), rest, first, true) == Token(cfg, lv, "-" + [c], [value] + rest, first, true) by {
      ShortEqualsHandler(cfg, lv, c, value, rest);
      ShortToken(cfg, lv, [c] + "=" + value, rest, first);
      ShortToken(cfg, lv, [c], [value] + rest, first);
    }
    SameTurn(cfg, lv, "-" + ([c] + "=" + value), rest, "-" + [c], [value] + rest, first, true);
    assert ["-" + [c], value] + rest == ["-" + [c]] + ([value] + rest) by { ConsTwo("-" + [c], value, rest); }
  }

  /** `--name=value` halts when `name` is not an option, is a bool option or has an empty
      value. */
  lemma LongEqualsErrors(cfg: Config, lv: Level, name: string, value: string, rest: seq<string>, first: bool)
    requires Fits(cfg, lv)
    requires name != "" && '=' !in name
    requires name !in cfg.options || lv.records[cfg.options[name]].kind == Bool || value == ""
    ensures RunLevel(cfg, lv, ["--" + (name + "=" + value)] + rest, first, true)
         == Stopped(Error(if name !in cfg.options then UnknownOption
                          else if lv.records[cfg.options[name]].kind == Bool then FlagWithValue
                          else MissingValue))
  {
    var t := "--" + name + "=" + value;
    assert t[2..] == name + "=" + value && '=' in t[2..];
    SplitAtEqualsJoin(name, value);
    assert ([t] + rest)[0] == t && ([t] + rest)[1..] == rest;
  }

  // ---------------------------------------------------------------------------------------------
  // Repeated options.
  // ---------------------------------------------------------------------------------------------

  /** `--name` for a string option `name`. */
  predicate LongStringToken(cfg: Config, lv: Level, t: string) {
    && StartsWith(t, "--") && t != "--" && '=' !in t[2..] && t[2..] in cfg.options
    && cfg.options[t[2..]] < |lv.records| && lv.records[cfg.options[t[2..]]].kind == Str
  }

  /** `t v1 t v2 ...`: the token `t` in front of each of the values `vs`. */
  function Pairs(t: string, vs: seq<string>): (toks: seq<string>)
    ensures |toks| == 2 * |vs|
    ensures forall i | 0 <= i < |vs| :: toks[2 * i] == t && toks[2 * i + 1] == vs[i]
  {
    if vs == [] then []
    else
      var tail := Pairs(t, vs[1..]);
      assert forall i | 1 <= i < |vs| :: ([t, vs[0]] + tail)[2 * i] == tail[2 * (i - 1)];
      [t, vs[0]] + tail
  }

  /** A string option's record once each of `vs` has been given to it in turn: found once
      anything was given, the values appended in order, nothing else changed. */
  function Given(rec: Record, vs: seq<string>): (r: Record)
    ensures r.strings == rec.strings + vs && r.found == (rec.found || vs != [])
    ensures r.(found := rec.found, strings := rec.strings) == rec
  {
    if vs == [] then rec else rec.(found := true, strings := rec.strings + vs)
  }

  /** `--name v` gives `v` to the string option and goes on after `v`. */
  lemma StringPairToken(cfg: Config, lv: Level, t: string, v: string, tail: seq<string>, first: bool)
    requires Fits(cfg, lv) && LongStringToken(cfg, lv, t)
    ensures var k := cfg.options[t[2..]];
      Token(cfg, lv, t, [v] + tail, first, true) == Next(Put(lv, k, Given(lv.records[k], [v])), tail, true)
  {
    assert ([v] + tail)[0] == v && ([v] + tail)[1..] == tail;
  }

  /** Giving one value and then the others gives them all. */
  lemma GivenStep(lv: Level, k: nat, vs: seq<string>)
    requires k < |lv.records| && vs != []
    ensures var lv' := Put(lv, k, Given(lv.records[k], [vs[0]]));
      Put(lv', k, Given(lv'.records[k], vs[1..])) == Put(lv, k, Given(lv.records[k], vs))
  {
    var rec := lv.records[k];
    assert rec.strings + [vs[0]] + vs[1..] == rec.strings + vs;
    assert Given(Given(rec, [vs[0]]), vs[1..]) == Given(rec, vs);
    assert lv.records[k := Given(rec, [vs[0]])][k := Given(rec, vs)] == lv.records[k := Given(rec, vs)];
  }

  /** The first pair `--name v` of such a run gives `v` to the record and leaves the other
      pairs. */
  lemma StringPairStep(cfg: Config, lv: Level, t: string, vs: seq<string>, first: bool)
    requires Fits(cfg, lv) && LongStringToken(cfg, lv, t) && vs != []
    ensures var k := cfg.options[t[2..]];
      RunLevel(cfg, lv, Pairs(t, vs), first, true)
        == RunLevel(cfg, Put(lv, k, Given(lv.records[k], [vs[0]])), Pairs(t, vs[1..]), false, true)
  {
    var v, tail := vs[0], Pairs(t, vs[1..]);
    assert Pairs(t, vs) == [t] + ([v] + tail) by { ConsTwo(t, v, tail); }
    StringPairToken(cfg, lv, t, v, tail, first);
    RunHead(cfg, lv, t, [v] + tail, first, true);
  }

  /** `--name v1 --name v2 ...` for a string option `name` appends the values to its strings
      in the order they were given, so `getString` answers the last of them, marks it found
      once it occurred, and changes no other record, positional or command. */
  lemma {:induction false} RepeatedString(cfg: Config, lv: Level, t: string, vs: seq<string>, first: bool)
    requires Fits(cfg, lv) && LongStringToken(cfg, lv, t)
    ensures var k := cfg.options[t[2..]];
      RunLevel(cfg, lv, Pairs(t, vs), first, true) == Finished(Put(lv, k, Given(lv.records[k], vs)))
    decreases |vs|
  {
    var k := cfg.options[t[2..]];
    if vs == [] {
      assert lv.records[k := lv.records[k]] == lv.records;
    } else {
      var lv' := Put(lv, k, Given(lv.records[k], [vs[0]]));
      StringPairStep(cfg, lv, t, vs, first);
      GivenStep(lv, k, vs);
      RepeatedString(cfg, lv', t, vs[1..], false);
    }
  }

  // ---------------------------------------------------------------------------------------------
  // Positionals and `--`.
  // ---------------------------------------------------------------------------------------------

  /** Once option parsing is off, every token is appended to the positionals, in order. */
  lemma {:induction false} NotParsing(cfg: Config, lv: Level, rest: seq<string>, first: bool)
    requires Fits(cfg, lv)
    ensures RunLevel(cfg, lv, rest, first, false) == Finished(lv.(arguments := lv.arguments + rest))
    decreases |rest|
  {
    if rest == [] {
      assert lv.arguments + rest == lv.arguments;
    } else {
      NotParsing(cfg, AddArg(lv, rest[0]), rest[1..], false);
      assert lv.arguments + [rest[0]] + rest[1..] == lv.arguments + rest;
    }
  }

  /** A token stored as a positional while parsing is on: a lone dash, a dash followed by a
      digit, or, after the first token, anything not starting with a dash. */
  predicate Positional(t: string) {
    || t == "-"
    || (StartsWith(t, "-") && !StartsWith(t, "--") && |t| >= 2 && IsDigit(t[1]))
    || !StartsWith(t, "-")
  }

  /** A token stored as a positional even when it is the first one: a positional that, if it
      does not start with a dash, is neither a command alias nor `help`. */
  predicate FirstPositional(cfg: Config, t: string) {
    && Positional(t)
    && (!StartsWith(t, "-") ==> t !in cfg.commandHelp && t != "help")
  }

  /** While parsing is on, positionals are appended in order and change nothing else; at the
      start of a level the first of them must not be a command alias or `help`. */
  lemma {:induction false} PositionalRun(cfg: Config, lv: Level, ps: seq<string>, rest: seq<string>, first: bool)
    requires Fits(cfg, lv)
    requires forall t | t in ps :: Positional(t)
    requires first && ps != [] ==> FirstPositional(cfg, ps[0])
    ensures RunLevel(cfg, lv, ps + rest, first, true) ==
      RunLevel(cfg, lv.(arguments := lv.arguments + ps), rest, first && ps == [], true)
    decreases |ps|
  {
    if ps == [] {
      assert ps + rest == rest && lv.arguments + ps == lv.arguments;
    } else {
      var t := ps[0];
      assert (ps + rest)[0] == t && (ps + rest)[1..] == ps[1..] + rest;
      assert t in ps && forall u | u in ps[1..] :: u in ps;
      assert Token(cfg, lv, t, ps[1..] + rest, first, true) == Next(AddArg(lv, t), ps[1..] + rest, true);
      PositionalRun(cfg, AddArg(lv, t), ps[1..], rest, false);
      assert lv.arguments + [t] + ps[1..] == lv.arguments + ps;
    }
  }

  /** After positionals (possibly none, and then at any position), the first `--` is dropped and
      every later token — further `--` and dash-prefixed tokens included — becomes a positional,
      in order; no record and no command changes. */
  lemma DoubleDash(cfg: Config, lv: Level, ps: seq<string>, more: seq<string>, first: bool)
    requires Fits(cfg, lv)
    requires forall t | t in ps :: Positional(t)
    requires first && ps != [] ==> FirstPositional(cfg, ps[0])
    ensures RunLevel(cfg, lv, ps + ["--"] + more, first, true) ==
      Finished(lv.(arguments := lv.arguments + ps + more))
  {
    PositionalRun(cfg, lv, ps, ["--"] + more, first);
    AppendAssoc(ps, ["--"], more);
    var lv' := lv.(arguments := lv.arguments + ps);
    assert (["--"] + more)[0] == "--" && (["--"] + more)[1..] == more;
    NotParsing(cfg, lv', more, false);
  }

  // ---------------------------------------------------------------------------------------------
  // Commands and `help`.
  // ---------------------------------------------------------------------------------------------

  /** `help <name>` as the first token is always available (unless `help` is itself a command
      alias): the helptext of the command, or an error when the name is missing or unknown. */
  lemma HelpCommandFirst(cfg: Config, lv: Level, more: seq<string>)
    requires Fits(cfg, lv)
    requires "help" !in cfg.commandHelp
    ensures var r := RunLevel(cfg, lv, ["help"] + more, true, true);
      && r.Stopped?
      && (r.halt.Help? <==> more != [] && more[0] in cfg.commandHelp)
      && (r.halt.Help? ==> r.halt.text == cfg.commandHelp[more[0]])
      && (!r.halt.Help? ==> r.halt == Error(if more == [] then MissingValue else UnknownCommand))
  {
    assert (["help"] + more)[0] == "help" && (["help"] + more)[1..] == more;
    assert "help"[0] == 'h';
  }

  /** After the first token, `help` and command aliases are ordinary positionals. */
  lemma LaterWordIsPositional(cfg: Config, lv: Level, w: string, more: seq<string>)
    requires Fits(cfg, lv)
    requires !StartsWith(w, "-")
    ensures RunLevel(cfg, lv, [w] + more, false, true) == RunLevel(cfg, AddArg(lv, w), more, false, true)
  {
    assert ([w] + more)[0] == w && ([w] + more)[1..] == more;
  }

  // ---------------------------------------------------------------------------------------------
  // Queries.
  // ---------------------------------------------------------------------------------------------

  /** Before anything is collected for an option, the list queries give empty lists, never the
      fallback, while `getString` and `getInt` give the fallbacks and the option is not found. */
  lemma FreshQueries(cfg: Config, lv: Level, name: string, kind: Kind, fs: string, fi: int)
    requires Fits(cfg, lv) && name in cfg.options
    requires lv.records[cfg.options[name]] == Fresh(kind, fs, fi)
    ensures GetStringList(cfg, lv, name) == Success([]) && GetIntList(cfg, lv, name) == Success([])
    ensures GetString(cfg, lv, name) == Success(fs) && GetInt(cfg, lv, name) == Success(fi)
    ensures Found(cfg, lv, name) == Success(false) && GetFlag(cfg, lv, name) == Success(false)
    ensures LenList(cfg, lv, name) == Success(0)
  {
  }
}
