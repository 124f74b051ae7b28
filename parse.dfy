/**
 * The three patterns the palette reads from the input box: a slash command
 * with an optional query (`/logs nginx`), an attribute filter being typed
 * (`kind:Pod`, case-insensitive attribute), and the leading command token; plus
 * the Tab completion of attribute names.
 */
module Parse {
  import opened Optional
  import opened Text
  import opened Resources

  predicate AllWordChars(s: string) {
    forall i :: 0 <= i < |s| ==> IsWordChar(s[i])
  }

  /**
   * `/^\/(\w+)(?:\s+(.+))?$/`: the command word, and the query after the white
   * space (empty when there is none). The word is the whole run of `\w`
   * characters, so what follows it is read by `QueryPart`.
   */
  function ParseCommand(s: string): (r: Option<(string, string)>)
    ensures |s| == 0 || s[0] != '/' ==> r.None?
    ensures r.Some? ==> (|r.value.0| > 0 && 1 + |r.value.0| <= |s| && s[0] == '/' &&
      s[1..1 + |r.value.0|] == r.value.0 && AllWordChars(r.value.0))
  {
    if |s| == 0 || s[0] != '/' then None
    else
      var t := s[1..];
      var n := WordRun(t);
      if n == 0 then None
      else
        var q := QueryPart(t[n..]);
        if q.Some? then Some((t[..n], q.value)) else None
  }

  /**
   * `(?:\s+(.+))?$` on what follows the command word. When the text after the
   * white space is empty, the greedy `\s+` gives back its last character to
   * `.+`, so two trailing blanks leave the query " " while one matches nothing.
   */
  function QueryPart(rest: string): Option<string> {
    if rest == [] then Some("")
    else
      var m := SpaceRun(rest);
      if m == 0 then None
      else if m < |rest| then
        if NoLineTerminator(rest[m..]) then Some(rest[m..]) else None
      else if m >= 2 && !IsLineTerminator(rest[m - 1]) then Some(rest[m - 1..])
      else None
  }

  /**
   * `s` is `/` and the word `w`, then either nothing more (`q` empty) or white
   * space followed by `q`, which runs to the end of `s`.
   */
  predicate CommandLayout(s: string, w: string, q: string) {
    StartsWith(s, "/" + w) &&
    (q == "" ==> s == "/" + w) &&
    (q != "" ==> 1 + |w| < |s| - |q| && EndsWith(s, q) && AllSpace(s[1 + |w|..|s| - |q|]))
  }

  /** What follows the word: nothing (`q` empty), or white space followed by `q` to the end. */
  predicate TailLayout(rest: string, q: string) {
    (q == "" ==> rest == []) &&
    (q != "" ==> |q| < |rest| && EndsWith(rest, q) && AllSpace(rest[..|rest| - |q|]))
  }

  /** A match is `/`, a word of `\w` characters, and a tail whose query holds no line terminator. */
  lemma ParseCommandSound(s: string)
    requires ParseCommand(s).Some?
    ensures var (w, q) := ParseCommand(s).value;
      |w| > 0 && AllWordChars(w) && NoLineTerminator(q) && CommandLayout(s, w, q)
  {
    var t := s[1..];
    var n := WordRun(t);
    var rest := t[n..];
    QueryPartSound(rest);
    assert s == "/" + t[..n] + rest;
    CommandShape(s, t[..n], rest, QueryPart(rest).value);
  }

  /** `s` laid out as `/`, the word, and a tail that `QueryPart` accepted as `q`. */
  lemma CommandShape(s: string, w: string, rest: string, q: string)
    requires s == "/" + w + rest && TailLayout(rest, q)
    ensures CommandLayout(s, w, q)
  {
    assert s[..1 + |w|] == "/" + w;
    if q != "" {
      assert s[|s| - |q|..] == rest[|rest| - |q|..];
      assert s[1 + |w|..|s| - |q|] == rest[..|rest| - |q|];
    }
  }

  /** What `QueryPart` accepts: white space, then the query, which ends the text. */
  lemma QueryPartSound(rest: string)
    requires QueryPart(rest).Some?
    ensures NoLineTerminator(QueryPart(rest).value) && TailLayout(rest, QueryPart(rest).value)
  {
    if rest != [] {
      var m := SpaceRun(rest);
      if m < |rest| {
        assert rest[..|rest| - |rest[m..]|] == rest[..m];
      } else {
        assert rest[..|rest| - |rest[m - 1..]|] == rest[..m - 1];
      }
    }
  }

  lemma {:induction false} WordRunOfWord(w: string, x: string)
    requires AllWordChars(w) && (x == [] || !IsWordChar(x[0]))
    ensures WordRun(w + x) == |w|
  {
    if w != [] {
      WordRunOfWord(w[1..], x);
      assert (w + x)[1..] == w[1..] + x;
    } else {
      assert w + x == x;
    }
  }

  lemma {:induction false} SpaceRunOf(sp: string, q: string)
    requires AllSpace(sp) && (q == [] || !IsSpace(q[0]))
    ensures SpaceRun(sp + q) == |sp|
  {
    if sp != [] {
      SpaceRunOf(sp[1..], q);
      assert (sp + q)[1..] == sp[1..] + q;
    } else {
      assert sp + q == q;
    }
  }

  lemma {:induction false} SpaceRunCovers(sp: string, q: string)
    requires AllSpace(sp)
    ensures SpaceRun(sp + q) >= |sp|
  {
    if sp != [] {
      SpaceRunCovers(sp[1..], q);
      assert (sp + q)[1..] == sp[1..] + q;
    }
  }

  /** The command word is read off whole, and the rest goes to `QueryPart`. */
  lemma ParseCommandSplit(w: string, rest: string)
    requires |w| > 0 && AllWordChars(w) && (rest == [] || !IsWordChar(rest[0]))
    ensures ParseCommand("/" + w + rest) ==
      (if QueryPart(rest).Some? then Some((w, QueryPart(rest).value)) else None)
  {
    var s := "/" + w + rest;
    assert s[1..] == w + rest;
    WordRunOfWord(w, rest);
    assert s[1..][..|w|] == w;
    assert s[1..][|w|..] == rest;
  }

  /** White space followed by a query that starts with a non-blank gives exactly that query. */
  lemma QueryAfterBlanks(sp: string, q: string)
    requires |sp| > 0 && AllSpace(sp) && q != [] && !IsSpace(q[0]) && NoLineTerminator(q)
    ensures QueryPart(sp + q) == Some(q)
  {
    SpaceRunOf(sp, q);
    assert (sp + q)[|sp|..] == q;
  }

  /** Blanks alone: the last one becomes the query when there are at least two and it is not a line break. */
  lemma QueryOfBlanks(sp: string)
    requires |sp| > 0 && AllSpace(sp)
    ensures QueryPart(sp) == (if |sp| >= 2 && !IsLineTerminator(sp[|sp| - 1]) then Some([sp[|sp| - 1]]) else None)
  {
    SpaceRunOf(sp, []);
    assert sp + [] == sp;
    if |sp| >= 2 {
      assert sp[|sp| - 1..] == [sp[|sp| - 1]];
    }
  }

  /**
   * Every input of the form `/word`, or `/word`, white space, and a query without
   * line terminators, is read as a command, and the word is recovered.
   */
  lemma ParseCommandComplete(w: string, sp: string, q: string)
    requires |w| > 0 && AllWordChars(w) && AllSpace(sp) && NoLineTerminator(q)
    requires (sp == [] && q == []) || (sp != [] && q != [])
    ensures ParseCommand("/" + w + sp + q).Some?
    ensures ParseCommand("/" + w + sp + q).value.0 == w
  {
    assert "/" + w + sp + q == "/" + w + (sp + q);
    ParseCommandSplit(w, sp + q);
    if sp != [] {
      QueryAfterAnyBlanks(sp, q);
    }
  }

  lemma QueryAfterAnyBlanks(sp: string, q: string)
    requires sp != [] && AllSpace(sp) && q != [] && NoLineTerminator(q)
    ensures QueryPart(sp + q).Some?
  {
    var rest := sp + q;
    SpaceRunCovers(sp, q);
    var m := SpaceRun(rest);
    if m < |rest| {
      assert rest[m..] == q[m - |sp|..];
    } else {
      assert rest[m - 1] == q[|q| - 1];
    }
  }

  /** `s` begins with the lower-case ASCII `p`, letters compared case-insensitively. */
  predicate StartsWithCI(s: string, p: string) {
    |p| <= |s| && Lower(s[..|p|]) == p
  }

  /** The attribute name followed by its colon. */
  function Prefix(t: FilterType): string {
    FilterName(t) + ":"
  }

  /** `/^(kind|namespace|node):(.*)$/i`: the attribute and the raw text after the colon. */
  function ParseFilter(s: string): (r: Option<(FilterType, string)>)
    ensures r.Some? ==>
      StartsWithCI(s, Prefix(r.value.0)) && r.value.1 == s[|Prefix(r.value.0)|..] && NoLineTerminator(r.value.1)
    ensures r.None? ==>
      forall t: FilterType :: !(StartsWithCI(s, Prefix(t)) && NoLineTerminator(s[|Prefix(t)|..]))
  {
    if StartsWithCI(s, "kind:") && NoLineTerminator(s[5..]) then Some((KindFilter, s[5..]))
    else if StartsWithCI(s, "namespace:") && NoLineTerminator(s[10..]) then Some((NamespaceFilter, s[10..]))
    else if StartsWithCI(s, "node:") && NoLineTerminator(s[5..]) then Some((NodeFilter, s[5..]))
    else None
  }

  /** At most one attribute prefix fits an input, so the reading is unambiguous. */
  lemma PrefixesExclusive(s: string, t: FilterType, u: FilterType)
    requires StartsWithCI(s, Prefix(t)) && StartsWithCI(s, Prefix(u))
    ensures t == u
  {
    assert Prefix(t)[0] == Lower(s[..|Prefix(t)|])[0] == LowerChar(s[0]) == Lower(s[..|Prefix(u)|])[0] == Prefix(u)[0];
    assert Prefix(t)[1] == Lower(s[..|Prefix(t)|])[1] == LowerChar(s[1]) == Lower(s[..|Prefix(u)|])[1] == Prefix(u)[1];
    PrefixesDiffer(t, u);
  }

  /** The attribute names differ in their first two letters. */
  lemma PrefixesDiffer(t: FilterType, u: FilterType)
    ensures Prefix(t)[0] == Prefix(u)[0] && Prefix(t)[1] == Prefix(u)[1] ==> t == u
  {
  }

  /** Upper-case attribute names are accepted; a value is kept raw, before trimming. */
  lemma ParseFilterUpperCase()
    ensures ParseFilter("KIND:Pod") == Some((KindFilter, "Pod"))
  {
    assert Lower("KIND:Pod"[..5]) == "kind:";
    assert "KIND:Pod"[5..] == "Pod";
  }

  /** A kind name is not an attribute: `pod:nginx` is not a filter. */
  lemma ParseFilterUnknownAttribute()
    ensures ParseFilter("pod:nginx") == None
  {
    var s := "pod:nginx";
    assert Lower(s[..5])[0] == 'p';
    assert Lower(s[..10 - 1])[0] == 'p';
  }

  /** `value.match(/^\/(\w+)/)`: the command word at the start of the input, if any. */
  function LeadingCommandToken(s: string): (r: Option<string>)
    ensures r.Some? ==> |r.value| > 0 && AllWordChars(r.value) && StartsWith(s, "/" + r.value)
    ensures r.Some? ==> (|s| == 1 + |r.value| || !IsWordChar(s[1 + |r.value|]))
    ensures r.None? <==> (|s| < 2 || s[0] != '/' || !IsWordChar(s[1]))
  {
    if |s| == 0 || s[0] != '/' then None
    else
      var n := WordRun(s[1..]);
      if n == 0 then None
      else
        assert s[..1 + n] == "/" + s[1..][..n];
        Some(s[1..][..n])
  }

  /** The attribute names offered by Tab, in order. */
  const FilterPrefixes: seq<string> := ["kind:", "namespace:", "node:"]

  /** Attribute `k` is the first, in offered order, that starts with the lower-cased input. */
  predicate FirstCompletionAt(input: string, k: int)
  {
    0 <= k < |FilterPrefixes| && StartsWith(FilterPrefixes[k], Lower(input)) &&
    forall j :: 0 <= j < k ==> !StartsWith(FilterPrefixes[j], Lower(input))
  }

  /**
   * `autocompleteFilterName`: nothing once the input holds a colon; otherwise
   * the first attribute name (with its colon) that starts with the lower-cased input.
   */
  function FilterNameCompletion(input: string): (r: Option<string>)
    ensures r.Some? ==> r.value in FilterPrefixes && StartsWith(r.value, Lower(input))
    ensures r.Some? ==> !Contains(Lower(input), ":")
    ensures r.None? <==> Contains(Lower(input), ":") || forall p :: p in FilterPrefixes ==> !StartsWith(p, Lower(input))
    ensures r.Some? ==> exists k :: FirstCompletionAt(input, k) && FilterPrefixes[k] == r.value
  {
    var lower := Lower(input);
    if Contains(lower, ":") then None
    else if StartsWith("kind:", lower) then Some("kind:")
    else if StartsWith("namespace:", lower) then Some("namespace:")
    else if StartsWith("node:", lower) then Some("node:")
    else None
  }

  /** A completion is itself an attribute prefix with an empty value, so it opens that attribute's suggestions. */
  lemma CompletionOpensSuggestions(input: string)
    requires FilterNameCompletion(input).Some?
    ensures var c := FilterNameCompletion(input).value;
      exists t: FilterType :: c == Prefix(t) && ParseFilter(c) == Some((t, ""))
  {
    var c := FilterNameCompletion(input).value;
    if c == "kind:" {
      assert Lower(c[..5]) == "kind:";
      assert c == Prefix(KindFilter);
    } else if c == "namespace:" {
      assert Lower(c[..10]) == "namespace:";
      assert !StartsWithCI(c, "kind:") by { assert Lower(c[..5])[0] == 'n'; }
      assert c == Prefix(NamespaceFilter);
    } else {
      assert Lower(c[..5]) == "node:";
      assert !StartsWithCI(c, "kind:") by { assert Lower(c[..5])[0] == 'n'; }
      assert !StartsWithCI(c, "namespace:");
      assert c == Prefix(NodeFilter);
    }
  }

  lemma NoColon(s: string)
    requires forall i :: 0 <= i < |s| ==> s[i] != ':'
    ensures !Contains(s, ":")
  {
    forall i | 0 <= i <= |s| ensures !OccursAt(s, ":", i) {
      if i < |s| {
        assert s[i..i + 1][0] == s[i];
      }
    }
  }

  /** An empty input completes to `kind:`. */
  lemma CompleteEmpty()
    ensures FilterNameCompletion("") == Some("kind:")
  {
    NoColon(Lower(""));
  }

  /** `N` completes to `namespace:`, the first name starting with `n`. */
  lemma CompleteN()
    ensures FilterNameCompletion("N") == Some("namespace:")
  {
    NoColon(Lower("N"));
    assert Lower("N") == "n";
    assert "kind:"[..1][0] == 'k';
  }

  /** `no` completes to `node:`. */
  lemma CompleteNo()
    ensures FilterNameCompletion("no") == Some("node:")
  {
    NoColon(Lower("no"));
    assert Lower("no") == "no";
    assert "kind:"[..2][0] == 'k';
    assert "namespace:"[..2][1] == 'a';
  }

  /** An input that already has a colon is left alone. */
  lemma CompleteAfterColon()
    ensures FilterNameCompletion("kind:P") == None
  {
    assert OccursAt(Lower("kind:P"), ":", 4);
  }
}
