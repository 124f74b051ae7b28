/**
 * The slash-command catalogue: the navigation and cluster-switching commands
 * discovered on open, the four built-in resource commands, the multi-term
 * command filter, command lookup by name, the resource candidates offered to
 * a resource command, and what running a command does.
 */
module Commands {
  import opened Optional
  import opened Text
  import opened Order
  import opened Resources
  import opened Effects
  import opened Routing

  /** What a command's `execute` does. */
  datatype Action =
    | GoTo(path: string)              // navigate to a list page
    | SwitchCluster(clusterUid: string)
    | ShowLogs
    | Describe
    | Delete
    | Refresh

  datatype Command = Command(
    id: string,
    labelText: string,  // the `label` shown after the slash (`label` is a Dafny keyword)
    description: string,
    requiresResource: bool,
    resourceTypes: Option<seq<string>>,
    action: Action)

  /** A cluster entity from the catalog: its metadata name (possibly absent or empty) and uid. */
  datatype ClusterEntity = ClusterEntity(name: Option<string>, uid: string)

  predicate HasName(c: ClusterEntity) {
    c.name.Some? && c.name.value != ""
  }

  function ClusterCommand(c: ClusterEntity): Command
    requires HasName(c)
  {
    Command("cluster-" + c.uid, "cluster " + c.name.value, "Switch to cluster: " + c.name.value,
      false, None, SwitchCluster(c.uid))
  }

  /** `/cluster <name>` for every catalog cluster that has a name, in catalog order. */
  function ClusterCommands(clusters: seq<ClusterEntity>): (cmds: seq<Command>)
    ensures |cmds| <= |clusters|
    ensures forall c :: c in cmds ==> exists k :: 0 <= k < |clusters| && HasName(clusters[k]) && c == ClusterCommand(clusters[k])
    ensures forall k :: 0 <= k < |clusters| && HasName(clusters[k]) ==> ClusterCommand(clusters[k]) in cmds
  {
    if clusters == [] then []
    else
      var rest := ClusterCommands(clusters[1..]);
      assert forall k :: 1 <= k < |clusters| ==> clusters[k] == clusters[1..][k - 1];
      (if HasName(clusters[0]) then [ClusterCommand(clusters[0])] else []) + rest
  }

  /** `goto-<kind>s`: the lower-cased kind with an `s` appended, navigating to `path`. */
  function NavCommand(kind: string, path: string): Command {
    var text := Lower(kind) + "s";
    Command("goto-" + text, text, "Go to " + kind + "s view", false, None, GoTo(path))
  }

  /** A store yields a navigation command when it serves a kind that has a list page. */
  predicate Navigable(st: Store) {
    IsKindStore(st) && ListPath(st.kind) != ""
  }

  function NavCommands(stores: seq<Store>): (cmds: seq<Command>)
    ensures |cmds| <= |stores|
    ensures forall c :: c in cmds ==>
      exists k :: 0 <= k < |stores| && Navigable(stores[k]) && c == NavCommand(stores[k].kind, ListPath(stores[k].kind))
    ensures forall k :: 0 <= k < |stores| && Navigable(stores[k]) ==>
      NavCommand(stores[k].kind, ListPath(stores[k].kind)) in cmds
  {
    if stores == [] then []
    else
      var rest := NavCommands(stores[1..]);
      assert forall k :: 1 <= k < |stores| ==> stores[k] == stores[1..][k - 1];
      var st := stores[0];
      (if Navigable(st) then [NavCommand(st.kind, ListPath(st.kind))] else []) + rest
  }

  function Label(c: Command): string { c.labelText }

  /** `buildNavigationCommands`: cluster and navigation commands, sorted by label (stable). */
  function BuildNavigationCommands(clusters: seq<ClusterEntity>, stores: seq<Store>): (cmds: seq<Command>)
    ensures SortedBy(cmds, Label)
    ensures multiset(cmds) == multiset(ClusterCommands(clusters) + NavCommands(stores))
  {
    SortByPermutes(ClusterCommands(clusters) + NavCommands(stores), Label);
    SortBy(ClusterCommands(clusters) + NavCommands(stores), Label)
  }

  const LogsCommand := Command("logs", "logs", "View pod logs", true, Some(["Pod"]), ShowLogs)
  const DescribeCommand := Command("describe", "describe", "Show detailed resource information", true, None, Describe)
  const DeleteCommand := Command("delete", "delete", "Delete the selected resource (requires confirmation)", true, None, Delete)
  const RefreshCommand := Command("refresh", "refresh", "Reload all resources from the cluster", false, None, Refresh)

  /** `initializeCommands`: the discovered commands followed by the four built-in ones. */
  function InitialCommands(clusters: seq<ClusterEntity>, stores: seq<Store>): (cmds: seq<Command>)
    ensures |cmds| >= 4
    ensures cmds[|cmds| - 4..] == [LogsCommand, DescribeCommand, DeleteCommand, RefreshCommand]
  {
    BuildNavigationCommands(clusters, stores) + [LogsCommand, DescribeCommand, DeleteCommand, RefreshCommand]
  }

  /** Every initial command is a cluster command, a navigation command or one of the built-in four. */
  lemma InitialCommandOrigin(clusters: seq<ClusterEntity>, stores: seq<Store>, c: Command)
    requires c in InitialCommands(clusters, stores)
    ensures c in ClusterCommands(clusters) || c in NavCommands(stores) ||
      c == LogsCommand || c == DescribeCommand || c == DeleteCommand || c == RefreshCommand
  {
    var nav := BuildNavigationCommands(clusters, stores);
    if c in nav {
      assert c in multiset(ClusterCommands(clusters) + NavCommands(stores));
    }
  }

  /** Exactly the logs, describe and delete commands need a selected resource; only logs restricts its kind. */
  lemma InitialCommandsNeedingResource(clusters: seq<ClusterEntity>, stores: seq<Store>, c: Command)
    requires c in InitialCommands(clusters, stores)
    ensures c.requiresResource <==> c == LogsCommand || c == DescribeCommand || c == DeleteCommand
    ensures c.resourceTypes.Some? <==> c == LogsCommand
  {
    InitialCommandOrigin(clusters, stores, c);
  }

  /** A navigation command is offered for a store exactly when its kind has a list page. */
  lemma NavigationCommandOffered(clusters: seq<ClusterEntity>, stores: seq<Store>, k: nat)
    requires k < |stores| && IsKindStore(stores[k])
    ensures var kind := stores[k].kind;
      NavCommand(kind, ListPath(kind)) in InitialCommands(clusters, stores) <==> ListPath(kind) != ""
  {
    var kind := stores[k].kind;
    var c := NavCommand(kind, ListPath(kind));
    if ListPath(kind) != "" {
      assert c in multiset(ClusterCommands(clusters) + NavCommands(stores));
      assert c in multiset(BuildNavigationCommands(clusters, stores));
    } else if c in InitialCommands(clusters, stores) {
      InitialCommandOrigin(clusters, stores, c);
      NavCommandsGoSomewhere(stores, c);
    }
  }

  lemma NavCommandsGoSomewhere(stores: seq<Store>, c: Command)
    requires c in NavCommands(stores)
    ensures c.action.GoTo? && c.action.path != ""
  {
  }

  /** `value.substring(1)`. */
  function DropFirst(s: string): string {
    if |s| >= 1 then s[1..] else ""
  }

  /** Every term occurs in the lower-cased label or the lower-cased description. */
  predicate CommandMatches(c: Command, terms: seq<string>) {
    forall i :: 0 <= i < |terms| ==> Contains(Lower(c.labelText), terms[i]) || Contains(Lower(c.description), terms[i])
  }

  /** The terms typed after the slash. */
  function CommandTerms(input: string): seq<string> {
    Words(Lower(DropFirst(input)))
  }

  /** The command filter of `renderCommandList`, `autocompleteCommand` and `executeCommand`. */
  function FilterCommands(cmds: seq<Command>, input: string): (r: seq<Command>)
    ensures |r| <= |cmds|
  {
    Matching(cmds, CommandTerms(input))
  }

  /** The commands, in order, that every one of `terms` matches. */
  function Matching(cmds: seq<Command>, terms: seq<string>): (r: seq<Command>)
    ensures |r| <= |cmds|
  {
    if cmds == [] then []
    else (if CommandMatches(cmds[0], terms) then [cmds[0]] else []) + Matching(cmds[1..], terms)
  }

  lemma {:induction false} MatchingMembers(cmds: seq<Command>, terms: seq<string>, c: Command)
    ensures c in Matching(cmds, terms) <==> c in cmds && CommandMatches(c, terms)
  {
    if cmds != [] {
      MatchingMembers(cmds[1..], terms, c);
      assert cmds == [cmds[0]] + cmds[1..];
    }
  }

  lemma {:induction false} MatchingInOrder(cmds: seq<Command>, terms: seq<string>)
    ensures IsSubsequence(Matching(cmds, terms), cmds)
  {
    if cmds != [] {
      MatchingInOrder(cmds[1..], terms);
      var rest := Matching(cmds[1..], terms);
      if CommandMatches(cmds[0], terms) {
        assert Matching(cmds, terms) == [cmds[0]] + rest;
        assert ([cmds[0]] + rest)[1..] == rest;
      } else {
        assert Matching(cmds, terms) == rest;
      }
    }
  }

  lemma {:induction false} MatchingNoTerms(cmds: seq<Command>)
    ensures Matching(cmds, []) == cmds
  {
    if cmds != [] {
      MatchingNoTerms(cmds[1..]);
      assert cmds == [cmds[0]] + cmds[1..];
    }
  }

  /** A command is listed exactly when every typed term matches its label or description; order is kept. */
  lemma FilterCommandsSpec(cmds: seq<Command>, input: string, c: Command)
    ensures c in FilterCommands(cmds, input) <==> c in cmds && CommandMatches(c, CommandTerms(input))
    ensures IsSubsequence(FilterCommands(cmds, input), cmds)
  {
    MatchingMembers(cmds, CommandTerms(input), c);
    MatchingInOrder(cmds, CommandTerms(input));
  }

  /** A bare slash, or a slash followed by white space only, lists every command. */
  lemma FilterCommandsBlank(cmds: seq<Command>, input: string)
    requires AllSpace(Lower(DropFirst(input)))
    ensures FilterCommands(cmds, input) == cmds
  {
    MatchingNoTerms(cmds);
  }

  /** A command answers to `name` by its id, or by a label whose lower-case form starts with it. */
  predicate Named(c: Command, name: string) {
    c.id == name || StartsWith(Lower(c.labelText), name)
  }

  /** `availableCommands.find(...)`: the first command answering to `name`. */
  function FindCommand(cmds: seq<Command>, name: string): (r: Option<Command>)
    ensures r.None? <==> forall k :: 0 <= k < |cmds| ==> !Named(cmds[k], name)
    ensures r.Some? ==> exists k :: 0 <= k < |cmds| && cmds[k] == r.value && Named(r.value, name) &&
                                   (forall j :: 0 <= j < k ==> !Named(cmds[j], name))
  {
    if cmds == [] then None
    else if Named(cmds[0], name) then Some(cmds[0])
    else
      var r := FindCommand(cmds[1..], name);
      assert forall k :: 1 <= k < |cmds| ==> cmds[k] == cmds[1..][k - 1];
      if r.Some? then
        var k :| 0 <= k < |cmds[1..]| && cmds[1..][k] == r.value && Named(r.value, name) &&
                 (forall j :: 0 <= j < k ==> !Named(cmds[1..][j], name));
        assert cmds[k + 1] == r.value;
        r
      else r
  }

  /** The command's kind restriction, when it has one, admits `kind`. */
  predicate KindAllowed(c: Command, kind: string) {
    c.resourceTypes.None? || kind in c.resourceTypes.value
  }

  /** The name, the namespace (when present) or the kind contains the lower-cased query. */
  predicate QueryHit(r: Resource, q: string) {
    Contains(Lower(r.name), q) || (r.namespace.Some? && Contains(Lower(r.namespace.value), q)) || Contains(Lower(r.kind), q)
  }

  function KindTest(types: seq<string>): Resource -> bool {
    (r: Resource) => r.kind in types
  }

  function HitTest(query: string): Resource -> bool {
    r => QueryHit(r, Lower(query))
  }

  /** Everything `renderCommandResourceList` checks for one object, before the cap. */
  predicate Candidate(r: Resource, filters: seq<Filter>, c: Command, query: string) {
    PassesAll(r, filters) && KindAllowed(c, r.kind) && (query == "" || QueryHit(r, Lower(query)))
  }

  function CandidateTest(filters: seq<Filter>, c: Command, query: string): Resource -> bool {
    r => Candidate(r, filters, c, query)
  }

  /**
   * The objects offered to a resource command: the active filters, then the
   * command's kinds, then the query, capped at 50.
   */
  function ResourceCandidates(snapshot: seq<Resource>, filters: seq<Filter>, c: Command, query: string): (rs: seq<Resource>)
    ensures |rs| <= 50
  {
    Take(Staged(snapshot, filters, c, query), 50)
  }

  /** The three filtering stages, before the cap. */
  function Staged(snapshot: seq<Resource>, filters: seq<Filter>, c: Command, query: string): seq<Resource> {
    var narrowed := KeepPassing(snapshot, filters);
    var typed := if c.resourceTypes.Some? then Where(narrowed, KindTest(c.resourceTypes.value)) else narrowed;
    if query != "" then Where(typed, HitTest(query)) else typed
  }

  /** The stages together keep exactly the objects satisfying `Candidate`. */
  lemma StagedIsWhere(s: seq<Resource>, filters: seq<Filter>, c: Command, query: string)
    ensures Staged(s, filters, c, query) == Where(s, CandidateTest(filters, c, query))
  {
    KeepPassingIsWhere(s, filters);
    if c.resourceTypes.Some? {
      var kinds := KindTest(c.resourceTypes.value);
      WhereWhere(s, PassTest(filters), kinds);
      if query != "" {
        WhereWhere(s, Both(PassTest(filters), kinds), HitTest(query));
        TypedHitsAgree(s, filters, c, query);
      } else {
        TypedAgree(s, filters, c, query);
      }
    } else if query != "" {
      WhereWhere(s, PassTest(filters), HitTest(query));
      HitsAgree(s, filters, c, query);
    } else {
      PassesAgree(s, filters, c, query);
    }
  }

  lemma TypedHitsAgree(s: seq<Resource>, filters: seq<Filter>, c: Command, query: string)
    requires c.resourceTypes.Some? && query != ""
    ensures Where(s, Both(Both(PassTest(filters), KindTest(c.resourceTypes.value)), HitTest(query))) ==
      Where(s, CandidateTest(filters, c, query))
  {
    WhereSame(s, Both(Both(PassTest(filters), KindTest(c.resourceTypes.value)), HitTest(query)), CandidateTest(filters, c, query));
  }

  lemma TypedAgree(s: seq<Resource>, filters: seq<Filter>, c: Command, query: string)
    requires c.resourceTypes.Some? && query == ""
    ensures Where(s, Both(PassTest(filters), KindTest(c.resourceTypes.value))) == Where(s, CandidateTest(filters, c, query))
  {
    WhereSame(s, Both(PassTest(filters), KindTest(c.resourceTypes.value)), CandidateTest(filters, c, query));
  }

  lemma HitsAgree(s: seq<Resource>, filters: seq<Filter>, c: Command, query: string)
    requires c.resourceTypes.None? && query != ""
    ensures Where(s, Both(PassTest(filters), HitTest(query))) == Where(s, CandidateTest(filters, c, query))
  {
    WhereSame(s, Both(PassTest(filters), HitTest(query)), CandidateTest(filters, c, query));
  }

  lemma PassesAgree(s: seq<Resource>, filters: seq<Filter>, c: Command, query: string)
    requires c.resourceTypes.None? && query == ""
    ensures Where(s, PassTest(filters)) == Where(s, CandidateTest(filters, c, query))
  {
    WhereSame(s, PassTest(filters), CandidateTest(filters, c, query));
  }

  /**
   * Every offered object passes the filters, has an admitted kind and hits the
   * query, in snapshot order; when fewer than 50 are offered, nothing that
   * qualifies was left out.
   */
  lemma ResourceCandidatesSpec(snapshot: seq<Resource>, filters: seq<Filter>, c: Command, query: string, x: Resource)
    ensures var rs := ResourceCandidates(snapshot, filters, c, query);
      (x in rs ==> x in snapshot && Candidate(x, filters, c, query)) &&
      (|rs| < 50 && x in snapshot && Candidate(x, filters, c, query) ==> x in rs) &&
      IsSubsequence(rs, snapshot)
  {
    var p := CandidateTest(filters, c, query);
    var all := Where(snapshot, p);
    StagedIsWhere(snapshot, filters, c, query);
    WhereMembers(snapshot, p, x);
    WhereInOrder(snapshot, p);
    var rs := ResourceCandidates(snapshot, filters, c, query);
    PrefixIsSubsequence(all, |rs|);
    SubsequenceTransitive(rs, all, snapshot);
    if x in rs {
      var k :| 0 <= k < |rs| && rs[k] == x;
      assert all[k] == x;
    }
  }

  lemma {:induction false} PrefixIsSubsequence<T>(s: seq<T>, n: nat)
    requires n <= |s|
    ensures IsSubsequence(s[..n], s)
  {
    if n > 0 {
      PrefixIsSubsequence(s[1..], n - 1);
      assert s[1..][..n - 1] == s[..n][1..];
    }
  }

  lemma {:induction false} SubsequenceTransitive<T>(a: seq<T>, b: seq<T>, c: seq<T>)
    requires IsSubsequence(a, b) && IsSubsequence(b, c)
    ensures IsSubsequence(a, c)
    decreases |c|
  {
    if a != [] && b != [] && c != [] {
      if b[0] == c[0] && IsSubsequence(b[1..], c[1..]) {
        if a[0] == b[0] && IsSubsequence(a[1..], b[1..]) {
          SubsequenceTransitive(a[1..], b[1..], c[1..]);
        } else {
          SubsequenceTransitive(a, b[1..], c[1..]);
        }
      } else {
        SubsequenceTransitive(a, b, c[1..]);
      }
    }
  }

  /**
   * What `execute` does before the palette closes: navigation commands and
   * cluster switches navigate (a cluster without uid does nothing), describe
   * opens the target like a selected result, and the asynchronous bodies of
   * logs, delete and refresh are recorded as started.
   */
  function ExecutionEffects(c: Command, target: Option<Resource>): (e: seq<Effect>)
    ensures c.action.GoTo? ==> e == [Navigated(c.action.path)]
    ensures c.action.Describe? && target.Some? ==> e == NavigationEffects(target.value)
    ensures (c.action.ShowLogs? || c.action.Delete? || c.action.Refresh?) ==> e == [Started(c.id, target)]
  {
    match c.action
    case GoTo(path) => [Navigated(path)]
    case SwitchCluster(uid) => if uid != "" then [Navigated("/cluster/" + uid)] else []
    case Describe => if target.Some? then NavigationEffects(target.value) else []
    case _ => [Started(c.id, target)]
  }

  /** Running a navigation command built from a store opens that kind's list page. */
  lemma NavCommandNavigates(kind: string, target: Option<Resource>)
    requires ListPath(kind) != ""
    ensures ExecutionEffects(NavCommand(kind, ListPath(kind)), target) == [Navigated(ListPath(kind))]
    ensures NavCommand(kind, ListPath(kind)).labelText == Lower(kind) + "s"
  {
  }
}
