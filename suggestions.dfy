/**
 * Autocomplete suggestions for an attribute filter being typed: the distinct
 * values of the attribute in the snapshot, narrowed by what was typed, sorted
 * and capped. Plain entry caps typed suggestions at 8; command-scoped entry at
 * 10 and, for `kind:`, offers only the command's own kinds when it restricts them.
 */
module Suggestions {
  import opened Optional
  import opened Text
  import opened Order
  import opened Resources
  import opened Commands

  /** Cap for the suggestions shown before a value is typed, and in command-scoped entry. */
  const ListCap: nat := 10
  /** Cap for plain filter entry once a value is typed. */
  const TypedCap: nat := 8

  /** What one object contributes: its kind, its (truthy) namespace, or the name of a `Node`. */
  function ValueOf(t: FilterType, r: Resource): seq<string> {
    match t
    case KindFilter => [r.kind]
    case NamespaceFilter => if HasNamespace(r) then [r.namespace.value] else []
    case NodeFilter => if r.kind == "Node" then [r.name] else []
  }

  /** The attribute's values over the snapshot, one per contributing object, in snapshot order. */
  function Universe(t: FilterType, snapshot: seq<Resource>): (u: seq<string>)
    ensures |u| <= |snapshot|
  {
    if snapshot == [] then []
    else Universe(t, snapshot[..|snapshot| - 1]) + ValueOf(t, snapshot[|snapshot| - 1])
  }

  /** A value is offered exactly when some object of the snapshot contributes it. */
  lemma {:induction false} UniverseMembers(t: FilterType, snapshot: seq<Resource>, v: string)
    ensures v in Universe(t, snapshot) <==> exists k :: 0 <= k < |snapshot| && v in ValueOf(t, snapshot[k])
  {
    if snapshot != [] {
      var init := snapshot[..|snapshot| - 1];
      UniverseMembers(t, init, v);
      assert forall k :: 0 <= k < |init| ==> init[k] == snapshot[k];
      if v in Universe(t, snapshot) && v !in Universe(t, init) {
        assert v in ValueOf(t, snapshot[|snapshot| - 1]);
      }
    }
  }

  /** The case-insensitive `includes` test applied to candidate values. */
  predicate Mentions(v: string, value: string) {
    Contains(Lower(v), Lower(value))
  }

  function ContainingTest(value: string): string -> bool {
    v => Mentions(v, value)
  }

  /** Plain `kind:`/`namespace:`/`node:` entry; `value` is the trimmed text after the colon. */
  function PlainSuggestions(t: FilterType, snapshot: seq<Resource>, value: string): (r: seq<string>)
    ensures value == "" ==> |r| <= ListCap
    ensures value != "" ==> |r| <= TypedCap
  {
    var values := Distinct(Universe(t, snapshot));
    if value == "" then Take(SortStrings(values), ListCap)
    else Take(SortStrings(Where(values, ContainingTest(value))), TypedCap)
  }

  /** Whether a command restricts `kind:` to its own kinds. */
  predicate OwnKinds(c: Command, t: FilterType) {
    t == KindFilter && c.resourceTypes.Some?
  }

  /** Command-scoped entry (`/cmd kind:...`). */
  function CommandSuggestions(c: Command, t: FilterType, snapshot: seq<Resource>, value: string): (r: seq<string>)
    ensures value != "" || !OwnKinds(c, t) ==> |r| <= ListCap
  {
    if value == "" then
      if OwnKinds(c, t) then SortStrings(c.resourceTypes.value)
      else Take(SortStrings(Distinct(Universe(t, snapshot))), ListCap)
    else
      var all := if OwnKinds(c, t) then c.resourceTypes.value else Distinct(Universe(t, snapshot));
      Take(SortStrings(Where(all, ContainingTest(value))), ListCap)
  }

  /** When the command restricts `kind:`, only its own kinds are ever suggested, and only ones containing the typed text. */
  lemma CommandSuggestionsOwnKinds(c: Command, snapshot: seq<Resource>, value: string, v: string)
    requires OwnKinds(c, KindFilter)
    requires v in CommandSuggestions(c, KindFilter, snapshot, value)
    ensures v in c.resourceTypes.value
    ensures value != "" ==> Contains(Lower(v), Lower(value))
  {
    var types := c.resourceTypes.value;
    var r := CommandSuggestions(c, KindFilter, snapshot, value);
    if value == "" {
      SortStringsPermutes(types);
      assert v in multiset(SortStrings(types));
    } else {
      var hits := Where(types, ContainingTest(value));
      SortStringsPermutes(hits);
      assert v in multiset(SortStrings(hits));
      WhereMembers(types, ContainingTest(value), v);
    }
  }

  lemma {:induction false} WhereKeepsDistinct<T>(xs: seq<T>, p: T -> bool)
    requires NoDuplicates(xs)
    ensures NoDuplicates(Where(xs, p))
  {
    if xs != [] {
      WhereKeepsDistinct(xs[1..], p);
      WhereMembers(xs[1..], p, xs[0]);
      assert xs[0] !in xs[1..];
    }
  }

  /** A value of a strictly ascending list that the cap dropped lies above everything kept. */
  lemma TakeOfStrict(xs: seq<string>, n: nat, v: string)
    requires StrictlySorted(xs) && v in xs && v !in Take(xs, n)
    ensures |Take(xs, n)| == n
    ensures forall i :: 0 <= i < n ==> StrLt(Take(xs, n)[i], v)
  {
    var k :| 0 <= k < |xs| && xs[k] == v;
  }

  /** The list before the cap: distinct, and strictly ascending once sorted. */
  lemma SortedCandidates(values: seq<string>)
    requires NoDuplicates(values)
    ensures StrictlySorted(SortStrings(values))
  {
    SortStringsKeepsDistinct(values);
    SortedDistinctIsStrict(SortStrings(values));
  }

  /** What a value must satisfy to be suggested. */
  predicate Qualifies(t: FilterType, snapshot: seq<Resource>, value: string, v: string) {
    v in Universe(t, snapshot) && (value == "" || Contains(Lower(v), Lower(value)))
  }

  /** The distinct qualifying values, before sorting and capping. */
  function Pool(t: FilterType, snapshot: seq<Resource>, value: string): seq<string> {
    var values := Distinct(Universe(t, snapshot));
    if value == "" then values else Where(values, ContainingTest(value))
  }

  lemma PoolSpec(t: FilterType, snapshot: seq<Resource>, value: string, v: string)
    ensures NoDuplicates(Pool(t, snapshot, value))
    ensures v in Pool(t, snapshot, value) <==> Qualifies(t, snapshot, value, v)
    ensures PlainSuggestions(t, snapshot, value) ==
      Take(SortStrings(Pool(t, snapshot, value)), if value == "" then ListCap else TypedCap)
  {
    var values := Distinct(Universe(t, snapshot));
    if value != "" {
      WhereKeepsDistinct(values, ContainingTest(value));
      WhereMembers(values, ContainingTest(value), v);
    }
  }

  /** Plain suggestions are strictly ascending, hence free of duplicates. */
  lemma PlainSuggestionsAscending(t: FilterType, snapshot: seq<Resource>, value: string)
    ensures StrictlySorted(PlainSuggestions(t, snapshot, value))
  {
    PoolSpec(t, snapshot, value, "");
    SortedCandidates(Pool(t, snapshot, value));
  }

  /** All suggestions at once qualify. */
  lemma PlainSuggestionsAllQualify(t: FilterType, snapshot: seq<Resource>, value: string)
    ensures forall v :: v in PlainSuggestions(t, snapshot, value) ==> Qualifies(t, snapshot, value, v)
  {
    forall v | v in PlainSuggestions(t, snapshot, value) ensures Qualifies(t, snapshot, value, v) {
      PlainSuggestionsSound(t, snapshot, value, v);
    }
  }

  /** Every suggestion is a value of the attribute that contains the typed text, ignoring case. */
  lemma PlainSuggestionsSound(t: FilterType, snapshot: seq<Resource>, value: string, v: string)
    requires v in PlainSuggestions(t, snapshot, value)
    ensures Qualifies(t, snapshot, value, v)
  {
    PoolSpec(t, snapshot, value, v);
    SortStringsPermutes(Pool(t, snapshot, value));
    assert v in multiset(SortStrings(Pool(t, snapshot, value)));
  }

  /** A qualifying value is missing only when the list is full and every suggestion sorts before it. */
  lemma PlainSuggestionsComplete(t: FilterType, snapshot: seq<Resource>, value: string, v: string)
    requires Qualifies(t, snapshot, value, v) && v !in PlainSuggestions(t, snapshot, value)
    ensures var r := PlainSuggestions(t, snapshot, value);
      |r| == (if value == "" then ListCap else TypedCap) && forall i :: 0 <= i < |r| ==> StrLt(r[i], v)
  {
    var pool := Pool(t, snapshot, value);
    PoolSpec(t, snapshot, value, v);
    SortedCandidates(pool);
    var sorted := SortStrings(pool);
    SortStringsPermutes(pool);
    assert v in multiset(pool);
    TakeOfStrict(sorted, if value == "" then ListCap else TypedCap, v);
  }

  /** A command that restricts kinds offers exactly those kinds, sorted, whatever the snapshot holds. */
  lemma CommandKindsOnly(c: Command, snapshot: seq<Resource>)
    requires OwnKinds(c, KindFilter)
    ensures multiset(CommandSuggestions(c, KindFilter, snapshot, "")) == multiset(c.resourceTypes.value)
    ensures Sorted(CommandSuggestions(c, KindFilter, snapshot, ""))
  {
    SortStringsPermutes(c.resourceTypes.value);
  }

  /** `/logs kind:` suggests just `Pod`. */
  lemma LogsKindSuggestion(snapshot: seq<Resource>)
    ensures CommandSuggestions(LogsCommand, KindFilter, snapshot, "") == ["Pod"]
  {
    var r := CommandSuggestions(LogsCommand, KindFilter, snapshot, "");
    SortStringsPermutes(["Pod"]);
    assert multiset(r) == multiset{"Pod"};
    assert |r| == 1;
    assert r[0] in multiset(r);
  }
}
