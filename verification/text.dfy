/** String helpers shared by both engines: prefix tests, the digit test used to let negative
    numbers through as positionals, the split of an alias list at spaces and the split of an
    equals-form option at its first '='. Strings are sequences of characters. */
module Text {

  /** Swift's `s.starts(with: p)`. */
  predicate StartsWith(s: string, p: string) {
    p <= s
  }

  /** The test `c >= "0" && c <= "9"` on a single character. */
  predicate IsDigit(c: char) {
    '0' <= c <= '9'
  }

  /** Position of the first occurrence of `c` in `s`. */
  function IndexOf(s: string, c: char): (i: nat)
    requires c in s
    ensures i < |s| && s[i] == c && c !in s[..i]
  {
    if s[0] == c then 0
    else
      var j := IndexOf(s[1..], c);
      assert s[..j + 1] == [s[0]] + s[1..][..j];
      j + 1
  }

  /** Swift's `s.split(separator: "=", maxSplits: 1, omittingEmptySubsequences: false)`
      on a string that contains '=': the text before the first '=' and everything after it. */
  function SplitAtEquals(s: string): (parts: (string, string))
    requires '=' in s
    ensures '=' !in parts.0 && s == parts.0 + "=" + parts.1
  {
    var i := IndexOf(s, '=');
    assert s == s[..i] + "=" + s[i + 1..];
    (s[..i], s[i + 1..])
  }

  /** The first '=' is found wherever it stands. */
  lemma {:induction false} IndexOfFirst(s: string, c: char, k: nat)
    requires k < |s| && s[k] == c && c !in s[..k]
    ensures IndexOf(s, c) == k
  {
    if k > 0 {
      assert s[0] in s[..k];
      var tail := s[1..][..k - 1];
      forall j | 0 <= j < k - 1
        ensures tail[j] != c
      {
        assert tail[j] == s[..k][j + 1];
      }
      IndexOfFirst(s[1..], c, k - 1);
    }
  }

  /** Splitting `name=value` gives back `name` and `value` whenever `name` holds no '=':
      only the first '=' separates, later ones stay in the value. */
  lemma SplitAtEqualsJoin(name: string, value: string)
    requires '=' !in name
    ensures SplitAtEquals(name + "=" + value) == (name, value)
  {
    var s := name + "=" + value;
    assert s[..|name|] == name;
    IndexOfFirst(s, '=', |name|);
    assert s[|name| + 1..] == value;
  }

  /** Two tokens in front of a list are the first in front of the second in front of it. */
  lemma ConsTwo<T>(a: T, b: T, s: seq<T>)
    ensures [a, b] + s == [a] + ([b] + s)
  {
    assert [a, b] == [a] + [b];
  }

  /** Appending is associative; stated once so that long proofs need not rediscover it. */
  lemma AppendAssoc<T>(a: seq<T>, b: seq<T>, c: seq<T>)
    ensures a + b + c == a + (b + c)
  {
  }

  /** `for alias in aliases { m[alias] = v }`: every alias is bound to `v`, whatever it was
      bound to before, and every other key keeps its binding. */
  method BindAll<V>(m: map<string, V>, aliases: seq<string>, v: V) returns (r: map<string, V>)
    ensures r == m + map a | a in aliases :: v
    ensures forall a :: a in r <==> a in m || a in aliases
    ensures forall a | a in r :: r[a] == if a in aliases then v else m[a]
  {
    r := m;
    var i := 0;
    while i < |aliases|
      invariant 0 <= i <= |aliases|
      invariant forall a :: a in r <==> a in m || a in aliases[..i]
      invariant forall a | a in r :: r[a] == if a in aliases[..i] then v else m[a]
    {
      assert aliases[..i + 1] == aliases[..i] + [aliases[i]];
      r := r[aliases[i] := v];
      i := i + 1;
    }
    assert aliases[..i] == aliases;
  }

  /** Length of the leading run of non-space characters of `s`. */
  function WordLength(s: string): (n: nat)
    ensures n <= |s| && ' ' !in s[..n] && (n < |s| ==> s[n] == ' ')
  {
    if s == [] || s[0] == ' ' then 0
    else
      var n := WordLength(s[1..]);
      assert s[..n + 1] == [s[0]] + s[1..][..n];
      n + 1
  }

  /** A word is what an alias list can contribute: non-empty and free of spaces. */
  predicate IsWord(w: string) {
    w != [] && ' ' !in w
  }

  /** Swift's `name.split(separator: " ")`: the maximal runs of non-space characters, in
      order, with the empty pieces between consecutive spaces omitted. */
  function Words(s: string): (ws: seq<string>)
    ensures forall w <- ws :: IsWord(w)
    decreases |s|
  {
    if s == [] then []
    else if s[0] == ' ' then Words(s[1..])
    else
      var n := WordLength(s);
      [s[..n]] + Words(s[n..])
  }

  /** The words joined by single spaces: the usual way an alias list is written. */
  function Unwords(ws: seq<string>): string {
    if ws == [] then ""
    else if |ws| == 1 then ws[0]
    else ws[0] + " " + Unwords(ws[1..])
  }

  lemma {:induction false} WordLengthOfWord(w: string, t: string)
    requires IsWord(w) && (t == [] || t[0] == ' ')
    ensures WordLength(w + t) == |w|
    decreases |w|
  {
    assert (w + t)[1..] == w[1..] + t;
    if |w| > 1 {
      WordLengthOfWord(w[1..], t);
    }
  }

  /** Splitting a space-joined list of words gives the words back. */
  lemma {:induction false} WordsUnwords(ws: seq<string>)
    requires forall w <- ws :: IsWord(w)
    ensures Words(Unwords(ws)) == ws
  {
    if ws == [] {
    } else if |ws| == 1 {
      var w := ws[0];
      WordLengthOfWord(w, []);
      assert w + [] == w;
      assert w[|w|..] == [];
      assert Words(w) == [w[..|w|]] + Words(w[|w|..]);
    } else {
      var w, rest := ws[0], ws[1..];
      var s := w + " " + Unwords(rest);
      WordLengthOfWord(w, " " + Unwords(rest));
      assert s == w + (" " + Unwords(rest));
      assert s[..|w|] == w;
      assert s[|w|..] == " " + Unwords(rest);
      assert Words(" " + Unwords(rest)) == Words(Unwords(rest));
      WordsUnwords(rest);
      assert Words(s) == [w] + rest;
    }
  }
}
