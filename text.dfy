/**
 * The string operations both core files rely on, as JavaScript defines them:
 * `trim()`, `split(/\s+/)`, `filter(Boolean)`, `join`, `split` on one
 * character and `toLowerCase()`. Each is given an independent reference
 * definition (`Tokens`, `SplitOn` against `JoinWith`) and the lemmas that
 * connect the two.
 */
module Text {

  /** The characters matched by `\s` and removed by `trim()`: the WhiteSpace
      and LineTerminator code points of ECMAScript. */
  predicate IsSpace(c: char) {
    c == '\t' || c == '\n' || c == '\U{B}' || c == '\U{C}' || c == '\r' || c == ' ' ||
    c == '\U{A0}' || c == '\U{1680}' || ('\U{2000}' <= c <= '\U{200A}') ||
    c == '\U{2028}' || c == '\U{2029}' || c == '\U{202F}' || c == '\U{205F}' ||
    c == '\U{3000}' || c == '\U{FEFF}'
  }

  predicate NoSpace(s: string) {
    forall i :: 0 <= i < |s| ==> !IsSpace(s[i])
  }

  predicate AllSpace(s: string) {
    forall i :: 0 <= i < |s| ==> IsSpace(s[i])
  }

  // ---------------------------------------------------------------------
  // trim()

  /** Drops the leading white space. */
  function TrimStart(s: string): (r: string)
    ensures |r| <= |s|
    ensures r == [] || !IsSpace(r[0])
    ensures s != [] && IsSpace(s[0]) ==> |r| < |s|
  {
    if s != [] && IsSpace(s[0]) then TrimStart(s[1..]) else s
  }

  /** `TrimStart` keeps a suffix and drops white space only. */
  lemma {:induction false} TrimStartDropsSpace(s: string)
    ensures TrimStart(s) == s[|s| - |TrimStart(s)|..]
    ensures AllSpace(s[..|s| - |TrimStart(s)|])
  {
    if s != [] && IsSpace(s[0]) {
      TrimStartDropsSpace(s[1..]);
      var k := |s[1..]| - |TrimStart(s[1..])|;
      assert s[..k + 1] == [s[0]] + s[1..][..k];
    }
  }

  /** Drops the trailing white space. */
  function TrimEnd(s: string): (r: string)
    ensures |r| <= |s| && r == s[..|r|]
    ensures r == [] || !IsSpace(r[|r| - 1])
  {
    if s != [] && IsSpace(s[|s| - 1]) then TrimEnd(s[..|s| - 1]) else s
  }

  /** What `TrimEnd` drops is white space only. */
  lemma {:induction false} TrimEndDropsSpace(s: string)
    ensures AllSpace(s[|TrimEnd(s)|..])
  {
    if s != [] && IsSpace(s[|s| - 1]) {
      var init := s[..|s| - 1];
      TrimEndDropsSpace(init);
      var k := |TrimEnd(init)|;
      assert s[k..] == init[k..] + [s[|s| - 1]];
    }
  }

  /** `s.trim()`. */
  function Trim(s: string): (r: string)
    ensures r == [] || (!IsSpace(r[0]) && !IsSpace(r[|r| - 1]))
    ensures |r| <= |s|
  {
    TrimEnd(TrimStart(s))
  }

  /** Trimming keeps one infix of the string and drops white space only,
      before and after it. */
  lemma TrimDropsOnlyEnds(s: string)
    ensures exists i, j ::
              0 <= i <= j <= |s| && Trim(s) == s[i..j] && AllSpace(s[..i]) && AllSpace(s[j..])
  {
    TrimStartDropsSpace(s);
    TrimEndDropsSpace(TrimStart(s));
    var i := |s| - |TrimStart(s)|;
    var j := i + |Trim(s)|;
    assert s[i..][..|Trim(s)|] == s[i..j];
    assert s[i..][|Trim(s)|..] == s[j..];
  }

  /** A string that starts and ends with a non-space character is its own
      trim. */
  lemma TrimKeeps(s: string)
    requires s != [] && !IsSpace(s[0]) && !IsSpace(s[|s| - 1])
    ensures Trim(s) == s
  {
    assert TrimStart(s) == s;
  }

  // ---------------------------------------------------------------------
  // Words: the reference definition

  /** The longest prefix of `s` free of white space. */
  function TakeWord(s: string): (w: string)
    ensures |w| <= |s| && w == s[..|w|]
    ensures NoSpace(w)
    ensures |w| < |s| ==> IsSpace(s[|w|])
    ensures s != [] && !IsSpace(s[0]) ==> |w| >= 1
  {
    if s == [] || IsSpace(s[0]) then [] else [s[0]] + TakeWord(s[1..])
  }

  /** The maximal runs of non-white-space characters of `s`, in order. */
  function Tokens(s: string): (ws: seq<string>)
    ensures forall i :: 0 <= i < |ws| ==> ws[i] != [] && NoSpace(ws[i])
    decreases |s|
  {
    if s == [] then []
    else if IsSpace(s[0]) then Tokens(s[1..])
    else
      var w := TakeWord(s);
      [w] + Tokens(s[|w|..])
  }

  // ---------------------------------------------------------------------
  // What the source writes: s.trim().split(/\s+/).filter(Boolean)

  /** `s.split(/\s+/)`: the pieces between the maximal runs of white space,
      with an empty first piece when `s` starts with white space and an empty
      last piece when it ends with it; `"".split(/\s+/)` is `[""]`. */
  function SplitRuns(s: string): (pieces: seq<string>)
    ensures |pieces| >= 1
    decreases |s|
  {
    var w := TakeWord(s);
    if |w| == |s| then [s] else [w] + SplitRuns(TrimStart(s[|w|..]))
  }

  /** `ps.filter(Boolean)` on strings: the empty string is the only falsy one. */
  function KeepNonEmpty(ps: seq<string>): (r: seq<string>)
    ensures |r| <= |ps|
    ensures forall i :: 0 <= i < |r| ==> r[i] != []
  {
    if ps == [] then []
    else (if ps[0] == [] then [] else [ps[0]]) + KeepNonEmpty(ps[1..])
  }

  /** `s.trim().split(/\s+/).filter(Boolean)`: the words of a mnemonic. */
  function Words(s: string): (ws: seq<string>)
    ensures ws == Tokens(s)
  {
    SplitRunsKeepsTokens(Trim(s));
    TokensOfTrim(s);
    KeepNonEmpty(SplitRuns(Trim(s)))
  }

  lemma {:induction false} KeepNonEmptyAppend(a: seq<string>, b: seq<string>)
    ensures KeepNonEmpty(a + b) == KeepNonEmpty(a) + KeepNonEmpty(b)
  {
    if a != [] {
      var head := if a[0] == [] then [] else [a[0]];
      assert (a + b)[0] == a[0];
      assert (a + b)[1..] == a[1..] + b;
      KeepNonEmptyAppend(a[1..], b);
      assert KeepNonEmpty(a + b) == head + KeepNonEmpty(a[1..] + b);
      assert KeepNonEmpty(a) == head + KeepNonEmpty(a[1..]);
    } else {
      assert a + b == b;
    }
  }

  /** A word has itself as its only token. */
  lemma TokensOfWord(w: string)
    requires w != [] && NoSpace(w)
    ensures TakeWord(w) == w
    ensures Tokens(w) == [w]
  {
    assert w[|TakeWord(w)|..] == [];
  }

  /** Leading white space does not change the tokens. */
  lemma {:induction false} TokensOfTrimStart(s: string)
    ensures Tokens(TrimStart(s)) == Tokens(s)
  {
    if s != [] && IsSpace(s[0]) {
      TokensOfTrimStart(s[1..]);
    }
  }

  /** The word at the front of `a` stops where `a` stops, if `t` begins with
      white space. */
  lemma {:induction false} TakeWordStops(a: string, t: string)
    requires t == [] || IsSpace(t[0])
    ensures TakeWord(a + t) == TakeWord(a)
  {
    if a != [] && !IsSpace(a[0]) {
      assert (a + t)[1..] == a[1..] + t;
      TakeWordStops(a[1..], t);
    }
  }

  /** A white-space character separates tokens: the tokens of `a + [c] + b`
      are those of `a` followed by those of `b`. */
  lemma {:induction false} TokensSplitAtSpace(a: string, c: char, b: string)
    requires IsSpace(c)
    ensures Tokens(a + [c] + b) == Tokens(a) + Tokens(b)
    decreases |a|
  {
    var s := a + [c] + b;
    if a == [] {
      assert s[1..] == b;
    } else if IsSpace(a[0]) {
      assert s[1..] == a[1..] + [c] + b;
      TokensSplitAtSpace(a[1..], c, b);
    } else {
      var w := TakeWord(a);
      assert s == a + ([c] + b);
      TakeWordStops(a, [c] + b);
      assert s[0] == a[0];
      assert Tokens(s) == [w] + Tokens(s[|w|..]);
      assert s[|w|..] == a[|w|..] + [c] + b;
      TokensSplitAtSpace(a[|w|..], c, b);
      assert Tokens(a) == [w] + Tokens(a[|w|..]);
    }
  }

  /** Trailing white space does not change the tokens. */
  lemma {:induction false} TokensOfTrimEnd(s: string)
    ensures Tokens(TrimEnd(s)) == Tokens(s)
  {
    if s != [] && IsSpace(s[|s| - 1]) {
      var init := s[..|s| - 1];
      assert s == init + [s[|s| - 1]] + [];
      TokensSplitAtSpace(init, s[|s| - 1], []);
      TokensOfTrimEnd(init);
    }
  }

  lemma TokensOfTrim(s: string)
    ensures Tokens(Trim(s)) == Tokens(s)
  {
    TokensOfTrimStart(s);
    TokensOfTrimEnd(TrimStart(s));
  }

  /** Splitting on white-space runs and dropping the empty pieces leaves
      exactly the tokens. */
  lemma {:induction false} SplitRunsKeepsTokens(s: string)
    ensures KeepNonEmpty(SplitRuns(s)) == Tokens(s)
    decreases |s|
  {
    var w := TakeWord(s);
    if |w| == |s| {
      assert w == s;
      if s != [] {
        TokensOfWord(s);
      }
    } else {
      var rest := s[|w|..];
      var t := TrimStart(rest);
      SplitRunsKeepsTokens(t);
      KeepNonEmptyAppend([w], SplitRuns(t));
      TokensOfTrimStart(rest);
      if w == [] {
        assert s == rest;
        assert Tokens(s) == Tokens(rest);
      } else {
        assert Tokens(s) == [w] + Tokens(rest);
      }
    }
  }

  // ---------------------------------------------------------------------
  // join and split on one character

  /** `parts.join(sep)` for a one-character separator. */
  function JoinWith(parts: seq<string>, sep: char): (s: string)
  {
    if parts == [] then []
    else if |parts| == 1 then parts[0]
    else parts[0] + [sep] + JoinWith(parts[1..], sep)
  }

  /** `s.split(sep)` for a one-character separator. */
  function SplitOn(s: string, sep: char): (parts: seq<string>)
    ensures |parts| >= 1
  {
    if s == [] then [[]]
    else
      var rest := SplitOn(s[1..], sep);
      if s[0] == sep then [[]] + rest else [[s[0]] + rest[0]] + rest[1..]
  }

  /** Words joined by one white-space character split back into the same
      words. */
  lemma {:induction false} TokensOfJoin(ws: seq<string>, sep: char)
    requires IsSpace(sep)
    requires forall i :: 0 <= i < |ws| ==> ws[i] != [] && NoSpace(ws[i])
    ensures Tokens(JoinWith(ws, sep)) == ws
  {
    if |ws| == 1 {
      TokensOfWord(ws[0]);
    } else if |ws| > 1 {
      TokensOfWord(ws[0]);
      TokensSplitAtSpace(ws[0], sep, JoinWith(ws[1..], sep));
      TokensOfJoin(ws[1..], sep);
    }
  }

  /** Words joined by one white-space character contain no other white space
      and no line break unless `sep` is one. */
  lemma {:induction false} JoinedWordsAvoid(ws: seq<string>, sep: char, c: char)
    requires IsSpace(c) && c != sep
    requires forall i :: 0 <= i < |ws| ==> NoSpace(ws[i])
    ensures c !in JoinWith(ws, sep)
  {
    if |ws| > 1 {
      JoinedWordsAvoid(ws[1..], sep, c);
      assert JoinWith(ws, sep) == ws[0] + [sep] + JoinWith(ws[1..], sep);
    }
  }

  lemma {:induction false} SplitOnPlain(p: string, sep: char)
    requires sep !in p
    ensures SplitOn(p, sep) == [p]
  {
    if p != [] {
      SplitOnPlain(p[1..], sep);
      assert p[0] != sep;
      assert [p[0]] + p[1..] == p;
    }
  }

  lemma {:induction false} SplitOnFirst(p: string, sep: char, rest: string)
    requires sep !in p
    ensures SplitOn(p + [sep] + rest, sep) == [p] + SplitOn(rest, sep)
  {
    var s := p + [sep] + rest;
    if p == [] {
      assert s[1..] == rest;
    } else {
      assert s[1..] == p[1..] + [sep] + rest;
      SplitOnFirst(p[1..], sep, rest);
      assert s[0] == p[0] && p[0] != sep;
      assert [p[0]] + p[1..] == p;
    }
  }

  /** Splitting a join on its separator gives back the parts, provided no part
      contains the separator. */
  lemma {:induction false} SplitOnJoin(parts: seq<string>, sep: char)
    requires |parts| >= 1
    requires forall i :: 0 <= i < |parts| ==> sep !in parts[i]
    ensures SplitOn(JoinWith(parts, sep), sep) == parts
  {
    if |parts| == 1 {
      SplitOnPlain(parts[0], sep);
    } else {
      SplitOnFirst(parts[0], sep, JoinWith(parts[1..], sep));
      SplitOnJoin(parts[1..], sep);
    }
  }

  /** A part holding the separator joins to the same text as its two halves
      given as separate parts. */
  lemma JoinWithRegroup(a: string, b: string, rest: seq<string>, sep: char)
    ensures JoinWith([a + [sep] + b] + rest, sep) == JoinWith([a, b] + rest, sep)
  {
    assert ([a, b] + rest)[1..] == [b] + rest;
    if rest != [] {
      assert ([a + [sep] + b] + rest)[1..] == rest;
      assert ([b] + rest)[1..] == rest;
    }
  }

  /** Appending one more separator appends one empty part. */
  lemma JoinWithEmptyLast(parts: seq<string>, sep: char)
    requires |parts| >= 1
    ensures JoinWith(parts + [[]], sep) == JoinWith(parts, sep) + [sep]
  {
    if |parts| > 1 {
      assert (parts + [[]])[1..] == parts[1..] + [[]];
      JoinWithEmptyLast(parts[1..], sep);
    }
  }

  // ---------------------------------------------------------------------
  // toLowerCase()

  /** Lower-case mapping of one character, for the letters A to Z. */
  function LowerChar(c: char): (l: char)
  {
    if 'A' <= c <= 'Z' then (c as int + 32) as char else c
  }

  /** `s.toLowerCase()`, character by character. */
  function ToLower(s: string): (r: string)
    ensures |r| == |s|
    ensures forall i :: 0 <= i < |s| ==> r[i] == LowerChar(s[i])
  {
    if s == [] then [] else [LowerChar(s[0])] + ToLower(s[1..])
  }
}
