/**
 * String helpers shared by the palette: JavaScript's `\s` and `\w` character
 * classes, lower-casing, substring and prefix tests, the in-order subsequence
 * test behind fuzzy matching, whitespace splitting and trimming.
 */
module Text {

  /** JavaScript's `\s`: the WhiteSpace and LineTerminator code points. */
  predicate IsSpace(c: char) {
    c == '\t' || c == '\n' || c == '\U{000B}' || c == '\U{000C}' || c == '\r' || c == ' ' ||
    c == '\U{00A0}' || c == '\U{1680}' || ('\U{2000}' <= c <= '\U{200A}') ||
    c == '\U{2028}' || c == '\U{2029}' || c == '\U{202F}' || c == '\U{205F}' ||
    c == '\U{3000}' || c == '\U{FEFF}'
  }

  /** The characters a regular-expression `.` refuses to match. */
  predicate IsLineTerminator(c: char) {
    c == '\n' || c == '\r' || c == '\U{2028}' || c == '\U{2029}'
  }

  /** JavaScript's `\w`. */
  predicate IsWordChar(c: char) {
    ('a' <= c <= 'z') || ('A' <= c <= 'Z') || ('0' <= c <= '9') || c == '_'
  }

  predicate NoLineTerminator(s: string) {
    forall i :: 0 <= i < |s| ==> !IsLineTerminator(s[i])
  }

  function LowerChar(c: char): (r: char)
    ensures !('A' <= r <= 'Z')
    ensures !('A' <= c <= 'Z') ==> r == c
  {
    if 'A' <= c <= 'Z' then (c as int + 32) as char else c
  }

  /** `toLowerCase()`, character by character. */
  function Lower(s: string): (r: string)
    ensures |r| == |s|
    ensures forall i :: 0 <= i < |s| ==> r[i] == LowerChar(s[i])
  {
    seq(|s|, i requires 0 <= i < |s| => LowerChar(s[i]))
  }

  lemma LowerConcat(a: string, b: string)
    ensures Lower(a + b) == Lower(a) + Lower(b)
  {
    assert forall i :: 0 <= i < |a + b| ==> Lower(a + b)[i] == (Lower(a) + Lower(b))[i];
  }

  predicate StartsWith(s: string, p: string) {
    |p| <= |s| && s[..|p|] == p
  }

  predicate EndsWith(s: string, x: string) {
    |x| <= |s| && s[|s| - |x|..] == x
  }

  /** `t` occurs in `s` starting at index `i`. */
  predicate OccursAt(s: string, t: string, i: int) {
    0 <= i && i + |t| <= |s| && s[i..i + |t|] == t
  }

  /** `s.includes(t)`. */
  predicate Contains(s: string, t: string) {
    exists i | 0 <= i <= |s| :: OccursAt(s, t, i)
  }

  lemma ContainsInLeft(a: string, b: string, t: string)
    requires Contains(a, t)
    ensures Contains(a + b, t)
  {
    var i :| 0 <= i <= |a| && OccursAt(a, t, i);
    assert (a + b)[i..i + |t|] == a[i..i + |t|];
    assert OccursAt(a + b, t, i);
  }

  lemma ContainsInRight(a: string, b: string, t: string)
    requires Contains(b, t)
    ensures Contains(a + b, t)
  {
    var i :| 0 <= i <= |b| && OccursAt(b, t, i);
    assert (a + b)[|a| + i..|a| + i + |t|] == b[i..i + |t|];
    assert OccursAt(a + b, t, |a| + i);
  }

  lemma ContainsInPart(a: string, b: string, c: string, t: string)
    requires Contains(b, t)
    ensures Contains(a + b + c, t)
  {
    var i :| 0 <= i <= |b| && OccursAt(b, t, i);
    assert (a + b + c)[|a| + i..|a| + i + |t|] == b[i..i + |t|];
    assert OccursAt(a + b + c, t, |a| + i);
  }

  /**
   * `q` occurs in `s` as an in-order, not necessarily contiguous,
   * subsequence: any choice of positions will do.
   */
  predicate IsSubsequence<T(==)>(q: seq<T>, s: seq<T>)
    decreases |s|
  {
    if q == [] then true
    else if s == [] then false
    else (q[0] == s[0] && IsSubsequence(q[1..], s[1..])) || IsSubsequence(q, s[1..])
  }

  /**
   * How many characters of `q` a single left-to-right scan of `s` matches,
   * taking each character of `s` that equals the next unmatched one of `q`.
   */
  function GreedyMatched<T(==)>(s: seq<T>, q: seq<T>): (n: nat)
    ensures n <= |q|
    decreases |s|
  {
    if q == [] || s == [] then 0
    else if s[0] == q[0] then 1 + GreedyMatched(s[1..], q[1..])
    else GreedyMatched(s[1..], q)
  }

  lemma {:induction false} SubsequenceDropHead<T>(q: seq<T>, s: seq<T>)
    requires q != [] && IsSubsequence(q, s)
    ensures IsSubsequence(q[1..], s)
    decreases |s|
  {
    if s != [] {
      if q[0] == s[0] && IsSubsequence(q[1..], s[1..]) {
      } else {
        SubsequenceDropHead(q, s[1..]);
      }
      if q[1..] != [] {
        assert IsSubsequence(q[1..], s[1..]);
      }
    }
  }

  /** The greedy scan finds every character of `q` exactly when `q` is a subsequence of `s`. */
  lemma {:induction false} GreedyMatchedIffSubsequence<T>(s: seq<T>, q: seq<T>)
    ensures GreedyMatched(s, q) == |q| <==> IsSubsequence(q, s)
    decreases |s|
  {
    if q == [] || s == [] {
    } else if s[0] == q[0] {
      GreedyMatchedIffSubsequence(s[1..], q[1..]);
      if IsSubsequence(q, s[1..]) {
        SubsequenceDropHead(q, s[1..]);
      }
    } else {
      GreedyMatchedIffSubsequence(s[1..], q);
    }
  }

  /** Length of the leading run of characters that satisfy `IsSpace`. */
  function SpaceRun(s: string): (n: nat)
    ensures n <= |s|
    ensures forall i :: 0 <= i < n ==> IsSpace(s[i])
    ensures n < |s| ==> !IsSpace(s[n])
  {
    if s == [] || !IsSpace(s[0]) then 0 else 1 + SpaceRun(s[1..])
  }

  /** Length of the leading run of characters that are not `IsSpace`. */
  function NonSpaceRun(s: string): (n: nat)
    ensures n <= |s|
    ensures forall i :: 0 <= i < n ==> !IsSpace(s[i])
    ensures n < |s| ==> IsSpace(s[n])
  {
    if s == [] || IsSpace(s[0]) then 0 else 1 + NonSpaceRun(s[1..])
  }

  /** Length of the leading run of `\w` characters. */
  function WordRun(s: string): (n: nat)
    ensures n <= |s|
    ensures forall i :: 0 <= i < n ==> IsWordChar(s[i])
    ensures n < |s| ==> !IsWordChar(s[n])
  {
    if s == [] || !IsWordChar(s[0]) then 0 else 1 + WordRun(s[1..])
  }

  predicate AllSpace(s: string) {
    forall i :: 0 <= i < |s| ==> IsSpace(s[i])
  }

  /** A non-empty run of characters none of which is white space. */
  predicate IsWord(w: string) {
    |w| > 0 && forall i :: 0 <= i < |w| ==> !IsSpace(w[i])
  }

  predicate AllWords(ws: seq<string>) {
    forall k :: 0 <= k < |ws| ==> IsWord(ws[k])
  }

  /** `s.split(/\s+/).filter(t => t.length > 0)`: the maximal runs of non-space characters, in order. */
  function Words(s: string): (ws: seq<string>)
    ensures AllWords(ws)
    ensures ws == [] <==> AllSpace(s)
    decreases |s|
  {
    var lead := SpaceRun(s);
    var t := s[lead..];
    if t == [] then
      assert s[..lead] == s;
      []
    else
      var n := NonSpaceRun(t);
      assert !IsSpace(s[lead]);
      WordsCons(t[..n], Words(t[n..]));
      [t[..n]] + Words(t[n..])
  }

  /**
   * `w` is the first word of `s`, starting at `i`: only white space before it,
   * and it stops at the end of `s` or at white space.
   */
  predicate FirstWordAt(s: string, w: string, i: int) {
    0 <= i && i + |w| <= |s| && AllSpace(s[..i]) && s[i..i + |w|] == w &&
    (i + |w| == |s| || IsSpace(s[i + |w|]))
  }

  /** The first maximal run of non-space characters, after the leading white space. */
  lemma {:induction false} FirstRun(s: string)
    requires !AllSpace(s)
    ensures var t := s[SpaceRun(s)..]; t != [] && FirstWordAt(s, t[..NonSpaceRun(t)], SpaceRun(s))
  {
    var lead := SpaceRun(s);
    var t := s[lead..];
    var n := NonSpaceRun(t);
    assert s[lead..][..n] == s[lead..lead + n];
    if n < |t| { assert t[n] == s[lead + n]; }
  }

  /** The first word is the first maximal run of non-space characters. */
  lemma {:induction false} WordsFirstWord(s: string)
    requires !AllSpace(s)
    ensures FirstWordAt(s, Words(s)[0], SpaceRun(s))
  {
    FirstRun(s);
  }

  /** Leading white space contributes no word. */
  lemma {:induction false} WordsSkipSpace(c: char, s: string)
    requires IsSpace(c)
    ensures Words([c] + s) == Words(s)
  {
    var cs := [c] + s;
    assert cs[1..] == s;
    assert SpaceRun(cs) == 1 + SpaceRun(s);
    assert cs[SpaceRun(cs)..] == s[SpaceRun(s)..];
  }

  /** Any all-white-space prefix contributes no word. */
  lemma {:induction false} WordsSkipSpaces(sp: string, s: string)
    requires AllSpace(sp)
    ensures Words(sp + s) == Words(s)
    decreases |sp|
  {
    if sp != [] {
      var rest := sp[1..] + s;
      assert sp + s == [sp[0]] + rest;
      assert Words(rest) == Words(s) by { WordsSkipSpaces(sp[1..], s); }
      WordsSkipSpace(sp[0], rest);
    } else {
      assert sp + s == s;
    }
  }

  /** A word followed by white space, or by nothing, is the next word. */
  lemma {:induction false} WordsTakeWord(w: string, s: string)
    requires IsWord(w) && (s == [] || IsSpace(s[0]))
    ensures Words(w + s) == [w] + Words(s)
  {
    var t := w + s;
    assert !IsSpace(t[0]);
    assert SpaceRun(t) == 0 && t[0..] == t;
    var n := NonSpaceRun(t);
    assert forall i :: 0 <= i < |w| ==> t[i] == w[i];
    assert |w| < |t| ==> t[|w|] == s[0];
    assert n == |w|;
    assert t[..n] == w && t[n..] == s;
  }

  /** White space, then a word ending at white space or at the end: that word, then the words of the rest. */
  lemma WordsStep(sp: string, w: string, rest: string)
    requires AllSpace(sp) && IsWord(w) && (rest == [] || IsSpace(rest[0]))
    ensures Words(sp + w + rest) == [w] + Words(rest)
  {
    assert sp + w + rest == sp + (w + rest);
    WordsTakeWord(w, rest);
    WordsSkipSpaces(sp, w + rest);
  }

  /** A single blank separates two words. */
  lemma WordsOfPair(x: char, y: char)
    requires !IsSpace(x) && !IsSpace(y)
    ensures Words([x, ' ', y]) == [[x], [y]]
  {
    assert [y] + [] == [y] && [' '] + [y] == [' ', y] && [x] + [' ', y] == [x, ' ', y];
    assert Words([]) == [];
    WordsTakeWord([y], []);
    WordsSkipSpace(' ', [y]);
    WordsTakeWord([x], [' ', y]);
  }

  lemma WordsOfTwo()
    ensures Words("a b") == ["a", "b"]
  {
    WordsOfPair('a', 'b');
  }

  /** Leading, trailing and repeated white space only delimit words. */
  lemma WordsOfPadded(w: string)
    requires IsWord(w)
    ensures Words("  " + w + " ") == [w]
  {
    assert "  " + w + " " == "  " + (w + " ");
    assert AllSpace(" ") && AllSpace("  ");
    WordsTakeWord(w, " ");
    WordsSkipSpaces("  ", w + " ");
  }

  lemma WordsCons(w: string, ws: seq<string>)
    requires |w| > 0 && (forall i :: 0 <= i < |w| ==> !IsSpace(w[i])) && AllWords(ws)
    ensures AllWords([w] + ws)
  {
    forall k | 0 <= k < |[w] + ws| ensures IsWord(([w] + ws)[k]) {
      if k > 0 { assert ([w] + ws)[k] == ws[k - 1]; }
    }
  }

  /** `s.split(sep)` for a one-character separator: the pieces between separators, in order. */
  function Split(s: string, sep: char): (parts: seq<string>)
    ensures |parts| >= 1
    ensures forall k :: 0 <= k < |parts| ==> sep !in parts[k]
    decreases |s|
  {
    if s == [] then [""]
    else
      var rest := Split(s[1..], sep);
      if s[0] == sep then [""] + rest
      else [[s[0]] + rest[0]] + rest[1..]
  }

  /** A string without the separator is a single piece. */
  lemma {:induction false} SplitNoSeparator(a: string, sep: char)
    requires sep !in a
    ensures Split(a, sep) == [a]
    decreases |a|
  {
    if a != [] {
      SplitNoSeparator(a[1..], sep);
      assert [a[0]] + a[1..] == a;
    }
  }

  /** Splitting `a + sep + b`, with no separator in `a`, gives `a` and then the pieces of `b`. */
  lemma {:induction false} SplitAtFirst(a: string, sep: char, b: string)
    requires sep !in a
    ensures Split(a + [sep] + b, sep) == [a] + Split(b, sep)
    decreases |a|
  {
    var s := a + [sep] + b;
    if a == [] {
      assert s == [sep] + b && s[1..] == b;
    } else {
      assert s[1..] == a[1..] + [sep] + b;
      SplitAtFirst(a[1..], sep, b);
      assert [a[0]] + a[1..] == a;
    }
  }

  /** `r` is `s[a..b]`, with only white space before `a` and after `b`. */
  predicate TrimmedAt(s: string, r: string, a: int, b: int) {
    0 <= a <= b <= |s| && r == s[a..b] && AllSpace(s[..a]) && AllSpace(s[b..])
  }

  /** `s.trim()`: drop leading and trailing white space and line terminators. */
  function Trim(s: string): (r: string)
    ensures |r| <= |s|
    ensures r != [] ==> !IsSpace(r[0]) && !IsSpace(r[|r| - 1])
    ensures r == [] <==> AllSpace(s)
    ensures exists a, b :: TrimmedAt(s, r, a, b)
    ensures Contains(s, r)
    decreases |s|
  {
    if s == [] then
      assert TrimmedAt(s, [], 0, 0);
      assert OccursAt(s, [], 0);
      []
    else if IsSpace(s[0]) then
      var r := Trim(s[1..]);
      var a, b :| TrimmedAt(s[1..], r, a, b);
      TrimDropFirst(s, r, a, b);
      TrimmedAtFacts(s, r, a + 1, b + 1);
      r
    else if IsSpace(s[|s| - 1]) then
      var r := Trim(s[..|s| - 1]);
      var a, b :| TrimmedAt(s[..|s| - 1], r, a, b);
      TrimDropLast(s, r, a, b);
      TrimmedAtFacts(s, r, a, b);
      r
    else
      TrimKeepAll(s);
      TrimmedAtFacts(s, s, 0, |s|);
      s
  }

  /** What the trimmed part of a text tells about the whole text. */
  lemma TrimmedAtFacts(s: string, r: string, a: int, b: int)
    requires TrimmedAt(s, r, a, b)
    requires r != [] ==> !IsSpace(r[0])
    ensures |r| <= |s| && Contains(s, r) && (r == [] <==> AllSpace(s))
  {
    assert OccursAt(s, r, a);
    if r == [] {
      forall i | 0 <= i < |s| ensures IsSpace(s[i]) {
        if i < a { assert s[..a][i] == s[i]; } else { assert s[b..][i - b] == s[i]; }
      }
    } else {
      assert s[a] == r[0];
    }
  }

  /** A text with no white space at either end is its own trimmed part. */
  lemma TrimKeepAll(s: string)
    ensures TrimmedAt(s, s, 0, |s|) && OccursAt(s, s, 0)
  {
    assert s[0..|s|] == s && s[..0] == [] && s[|s|..] == [];
  }

  lemma {:induction false} TrimDropFirst(s: string, r: string, a: int, b: int)
    requires s != [] && IsSpace(s[0]) && TrimmedAt(s[1..], r, a, b)
    ensures TrimmedAt(s, r, a + 1, b + 1) && OccursAt(s, r, a + 1)
  {
    assert s[a + 1..b + 1] == s[1..][a..b];
    assert s[b + 1..] == s[1..][b..];
    var front := s[..a + 1];
    forall i | 0 <= i < |front| ensures IsSpace(front[i]) {
      if i > 0 { assert front[i] == s[1..][..a][i - 1]; }
    }
  }

  lemma {:induction false} TrimDropLast(s: string, r: string, a: int, b: int)
    requires s != [] && IsSpace(s[|s| - 1]) && TrimmedAt(s[..|s| - 1], r, a, b)
    ensures TrimmedAt(s, r, a, b) && OccursAt(s, r, a)
  {
    var u := s[..|s| - 1];
    assert s[a..b] == u[a..b];
    assert s[..a] == u[..a];
    var back := s[b..];
    forall i | 0 <= i < |back| ensures IsSpace(back[i]) {
      if i < |back| - 1 { assert back[i] == u[b..][i]; }
    }
  }
}
