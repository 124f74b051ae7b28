# k-menu command palette, modelled in Dafny

This project models the core of the k-menu extension for Freelens: the keyboard-driven
palette `KMenuPalette` (`src/renderer/components/k-menu-palette.ts`). The palette:

- is opened and closed with a hotkey;
- loads a snapshot of every Kubernetes object the cluster's stores can list, with retry
  and exponential backoff, and caches it per cluster;
- ranks the snapshot against what the user types, with tiered substring scores and a
  fuzzy in-order fallback;
- narrows the results with `kind:`, `namespace:` and `node:` filters, and offers the
  attribute's values as suggestions while a filter is typed;
- runs slash commands (`/logs`, `/describe`, `/delete`, `/refresh`, `/cluster <name>`,
  `/goto-pods`, ...), some of them on a selected resource;
- opens the chosen object by navigating to its list page and showing its details panel.

The project is organised as follows.

- `option.dfy` and `effects.dfy` hold the optional value and the outward effects. Effects
  are navigation, the details panel, alerts, and asynchronous command bodies started;
  they are recorded in order rather than performed.
- `text.dfy` holds JavaScript's `\s` and `\w`, lower-casing, `includes`/`startsWith`,
  whitespace splitting and `trim`. It also holds the in-order subsequence test behind
  fuzzy matching.
- `order.dfy` holds string order, the stable sort by key, the default string sort,
  `Array.from(new Set(...))`, `slice` and `filter`.
- `resources.dfy` holds the resource record, its display text, filters, and the filter
  list operations.
- `routing.dfy` holds the per-kind API route behind the self link, the list page of each
  kind, and the navigation to an object.
- `commands.dfy` holds discovered and built-in commands, the command filter, command
  lookup, the resource candidates of a command, and what running a command does.
- `parse.dfy` holds the regular expressions the palette applies to the input, and the
  Tab completion of attribute names.
- `suggestions.dfy` holds the attribute-value suggestions.
- `ranker.dfy` holds the scoring, ranking and cap of the normal search.
- `loader.dfy` holds store discovery, `fetchWithRetry`, the snapshot, and the cluster id
  read from the host name.
- `states.dfy` holds the palette's state as a value (`PaletteState`) and every operation
  of the palette as a function from the state before to the state after. The
  palette-level properties are proved here. This includes that every operation keeps
  `Valid`, the palette's invariant.
- `palette.dfy` holds the class `KMenuPalette`, with the same seventeen fields updated in
  place. Each method is proved to leave the fields in exactly the state the function of
  the same name in `States` gives.

All paths below are relative to the repository root.

## Model

| member | source | states |
|---|---|---|
| Text.Lower | src/renderer/components/k-menu-palette.ts:1284 | lower-casing keeps the length and maps every character by itself; no upper-case ASCII letter survives |
| Text.Words | src/renderer/components/k-menu-palette.ts:1284 | every piece of `split(/\s+/).filter(t => t.length > 0)` is a non-empty run without white space; there are no pieces exactly when the text is all white space |
| Text.WordsFirstWord | src/renderer/components/k-menu-palette.ts:1284 | the first piece is the first maximal run of non-space characters: only white space before it, and white space or the end of the text right after it |
| Text.WordsSkipSpace | src/renderer/components/k-menu-palette.ts:1284 | a leading white-space character adds no piece |
| Text.WordsSkipSpaces | src/renderer/components/k-menu-palette.ts:1284 | any all-white-space prefix adds no piece |
| Text.WordsTakeWord | src/renderer/components/k-menu-palette.ts:1284 | a word followed by white space or by the end of the text is the next piece |
| Text.WordsStep | src/renderer/components/k-menu-palette.ts:1284 | white space, then a word, then white space or nothing: that word is the first piece and the rest are the pieces of what follows |
| Text.WordsOfPair | src/renderer/components/k-menu-palette.ts:1284 | two non-space characters around one blank are two pieces |
| Text.WordsOfTwo | src/renderer/components/k-menu-palette.ts:1284 | `"a b"` gives `["a", "b"]` |
| Text.WordsOfPadded | src/renderer/components/k-menu-palette.ts:1284 | leading, repeated and trailing blanks around a word leave that word as the only piece |
| Text.Trim | src/renderer/components/k-menu-palette.ts:902 | `trim()` gives `s[a..b]` with only white space before `a` and after `b`, and its first and last characters are not white space, so exactly the leading and trailing runs are dropped; it is empty exactly when the text is all white space |
| Text.GreedyMatchedIffSubsequence | src/renderer/components/k-menu-palette.ts:1342-1352 | the single left-to-right scan of `fuzzyMatch` matches every query character exactly when the query is an in-order subsequence of the text |
| Order.InsertBy | src/renderer/components/k-menu-palette.ts:185 | one insertion step of the stable label sort keeps the list sorted and adds exactly the inserted command |
| Order.SortBy | src/renderer/components/k-menu-palette.ts:185 | sorting by label gives a list ascending by label, of the same length |
| Order.SortByPermutes | src/renderer/components/k-menu-palette.ts:185 | sorting by label only reorders: the multiset of commands is unchanged |
| Order.InsertByKeepsRuns | src/renderer/components/k-menu-palette.ts:185 | one insertion step adds the inserted element at the front of the run of its own key and leaves every other key's run unchanged |
| Order.SortByStable | src/renderer/components/k-menu-palette.ts:185 | the sort is stable: for every key, the elements with that key come out in the order they went in |
| Order.SortStrings | src/renderer/components/k-menu-palette.ts:915-918 | `.sort()` of suggestion values gives an ascending list of the same length |
| Order.SortStringsPermutes | src/renderer/components/k-menu-palette.ts:915-918 | `.sort()` only reorders the values |
| Order.SortedDistinctIsStrict | src/renderer/components/k-menu-palette.ts:917-919 | a sorted list of distinct suggestion values is strictly ascending |
| Order.SortStringsKeepsDistinct | src/renderer/components/k-menu-palette.ts:917-918 | sorting values taken from a `Set` keeps them distinct |
| Order.Distinct | src/renderer/components/k-menu-palette.ts:917 | `Array.from(new Set(xs))` has no duplicates and holds exactly the values of `xs` |
| Order.Take | src/renderer/components/k-menu-palette.ts:919 | `slice(0, n)` is the prefix of length `min(n, length)` |
| Order.Where | src/renderer/components/k-menu-palette.ts:1255-1257 | `filter(p)` keeps only elements satisfying `p` and never grows |
| Order.WhereMembers | src/renderer/components/k-menu-palette.ts:1255-1257 | an element survives `filter(p)` exactly when it was there and satisfies `p` |
| Order.WhereInOrder | src/renderer/components/k-menu-palette.ts:1255-1257 | `filter` keeps the survivors in their original order |
| Order.WhereWhere | src/renderer/components/k-menu-palette.ts:1252-1273 | filtering twice is filtering once by both conditions |
| Order.WhereAll | src/renderer/components/k-menu-palette.ts:1249 | a filter every element passes changes nothing |
| Resources.DisplayText | src/renderer/components/k-menu-palette.ts:1357-1362 | the display text starts with `kind/` and ends with `/name`; its length leaves room for `namespace/` exactly when the object has a non-empty namespace |
| Resources.DisplayTextSplits | src/renderer/components/k-menu-palette.ts:1357-1362 | splitting the display text on `/` gives back kind, namespace (when non-empty) and name, provided none of them contains `/` |
| Resources.LowerDisplayText | src/renderer/components/k-menu-palette.ts:1288-1289 | the lower-cased display text is built from the lower-cased kind, namespace and name |
| Resources.DisplayTextContainsParts | src/renderer/components/k-menu-palette.ts:1299-1306 | a term found in the name, kind or namespace is also found in the display text, so the display-text tier (10) always wins |
| Resources.KeepPassing | src/renderer/components/k-menu-palette.ts:1249-1273 | narrowing by every active filter never grows the snapshot |
| Resources.KeepPassingMembers | src/renderer/components/k-menu-palette.ts:1249-1273 | an object survives the active filters exactly when it is in the snapshot and matches every filter (case-insensitive kind and namespace, an absent namespace never matching, `node` keeping only `Node` objects of that name) |
| Resources.NarrowStep | src/renderer/components/k-menu-palette.ts:1252-1273 | applying one more filter to the narrowed snapshot is narrowing by the longer filter list |
| Resources.NarrowByFilters | src/renderer/components/k-menu-palette.ts:1249-1273 | the `forEach` loop over the active filters yields exactly the objects passing all of them |
| Resources.KeepPassingNone | src/renderer/components/k-menu-palette.ts:1249 | with no filters the whole snapshot is searched |
| Resources.KeepPassingInOrder | src/renderer/components/k-menu-palette.ts:1249-1273 | narrowing keeps snapshot order |
| Resources.KeepPassingOrderIndependent | src/renderer/components/k-menu-palette.ts:1252-1273 | the order in which filters were added does not matter, only which filters are active |
| Resources.KeepPassingIsWhere | src/renderer/components/k-menu-palette.ts:1249-1273 | the stepwise narrowing equals one `filter` by "passes every filter" |
| Resources.WithFilter | src/renderer/components/k-menu-palette.ts:1144-1148 | adding a pair that is already active changes nothing; otherwise it is appended; the result never holds a pair twice when the input did not |
| Resources.WithoutFilter | src/renderer/components/k-menu-palette.ts:1168 | removal keeps exactly the entries different from the pair |
| Resources.WithoutFilterInOrder | src/renderer/components/k-menu-palette.ts:1168 | removal keeps the order of the remaining filters and keeps them distinct |
| Resources.WithFilterIdempotent | src/renderer/components/k-menu-palette.ts:1144-1145 | adding the same pair twice is adding it once |
| Resources.RemoveUndoesAdd | src/renderer/components/k-menu-palette.ts:1142-1171 | removing a freshly added pair gives back the filters before |
| Resources.WithoutAbsent | src/renderer/components/k-menu-palette.ts:1168 | removing an inactive pair changes nothing |
| Resources.WithoutAppend | src/renderer/components/k-menu-palette.ts:1168 | removing a pair also removes an appended copy of it |
| Routing.RouteOf | src/renderer/components/k-menu-palette.ts:1972-2078 | exactly the 21 kinds of the `switch` have a route, and its API base is one of `/api/v1`, `/apis/apps/v1`, `/apis/batch/v1`, `/apis/networking.k8s.io/v1`, `/apis/rbac.authorization.k8s.io/v1`, `/apis/storage.k8s.io/v1` |
| Routing.UnknownKindsUnrouted | src/renderer/components/k-menu-palette.ts:2075-2077 | a kind outside the `switch`, a case variant (`pod`, `Pods`) and the empty kind get no route |
| Routing.SelfLink | src/renderer/components/k-menu-palette.ts:1960-2086 | the self link is empty exactly when the kind has no route, and is built from the route otherwise |
| Routing.LinkFor | src/renderer/components/k-menu-palette.ts:2081-2085 | a self link starts with the API base and ends with `/<plural>/<name>` |
| Routing.LinkForNamespaced | src/renderer/components/k-menu-palette.ts:2081-2082 | a namespaced kind with a namespace gets `<base>/namespaces/<ns>/...` |
| Routing.SelfLinkNamespaced | src/renderer/components/k-menu-palette.ts:2081-2082 | the same for the self link of a routed namespaced object |
| Routing.SelfLinkIgnoresNamespace | src/renderer/components/k-menu-palette.ts:2081-2085 | a cluster-scoped kind's self link does not depend on the object's namespace |
| Routing.ListPath | src/renderer/components/k-menu-palette.ts:2088-2192 | the list path is non-empty exactly for the kinds the `switch` names (`ListedKinds`), and then it is an absolute path; every other kind gets the empty path |
| Routing.UnknownKindsUnlisted | src/renderer/components/k-menu-palette.ts:2188-2190 | the kinds `Foo` (outside the `switch`), `pod` and `Pods` (case and number variants) and the empty kind get the empty list path |
| Routing.UnroutedListedKinds | src/renderer/components/k-menu-palette.ts:2075-2077 | NetworkPolicy, LimitRange and ResourceQuota have a list page but no self-link route |
| Routing.NavigationEffects | src/renderer/components/k-menu-palette.ts:1929-1958 | opening an object does nothing without a self link; otherwise it navigates to the list page when the kind has one, then shows the details panel for the self link |
| Routing.PodNavigation | src/renderer/components/k-menu-palette.ts:1929-1958 | opening pod `default/web-1` navigates to `/pods` and shows `/api/v1/namespaces/default/pods/web-1` |
| Routing.PodListPath | src/renderer/components/k-menu-palette.ts:2093-2094 | the list page of `Pod` is `/pods` |
| Routing.PodSelfLink | src/renderer/components/k-menu-palette.ts:1974-1977 | pod `default/web-1` has the self link `/api/v1/namespaces/default/pods/web-1` |
| Routing.ClusterRoleNavigation | src/renderer/components/k-menu-palette.ts:1929-1958 | opening cluster role `admin`, recorded with namespace `default`, navigates to `/clusterroles` and shows `/apis/rbac.authorization.k8s.io/v1/clusterroles/admin`, without the namespace |
| Routing.ClusterRoleListPath | src/renderer/components/k-menu-palette.ts:2088-2192 | the list page of `ClusterRole` is `/clusterroles` |
| Routing.ClusterRoleSelfLink | src/renderer/components/k-menu-palette.ts:2057-2061 | cluster role `admin`, recorded with namespace `default`, has the self link `/apis/rbac.authorization.k8s.io/v1/clusterroles/admin`, without the namespace |
| Commands.ClusterCommands | src/renderer/components/k-menu-palette.ts:96-118 | there is one `/cluster <name>` command per catalog cluster with a non-empty name, and no other |
| Commands.NavCommands | src/renderer/components/k-menu-palette.ts:139-182 | there is one navigation command per store whose API names a kind with a list page, and no other |
| Commands.BuildNavigationCommands | src/renderer/components/k-menu-palette.ts:78-189 | the discovered commands sorted by label, a permutation of the cluster and navigation commands |
| Commands.InitialCommands | src/renderer/components/k-menu-palette.ts:191-362 | the command list ends with `logs`, `describe`, `delete`, `refresh` in that order |
| Commands.InitialCommandOrigin | src/renderer/components/k-menu-palette.ts:191-362 | every command is a cluster switch, a navigation command or one of the four built-ins |
| Commands.InitialCommandsNeedingResource | src/renderer/components/k-menu-palette.ts:198-333 | exactly `logs`, `describe` and `delete` need a selected resource, and only `logs` restricts the kind (to `Pod`) |
| Commands.NavigationCommandOffered | src/renderer/components/k-menu-palette.ts:150-176 | a store serving a kind yields a navigation command exactly when that kind has a list page |
| Commands.NavCommandsGoSomewhere | src/renderer/components/k-menu-palette.ts:157-175 | every navigation command navigates to a non-empty path |
| Commands.NavCommandNavigates | src/renderer/components/k-menu-palette.ts:165-175 | a navigation command is labelled `<lower-case kind>s` and navigates to the kind's list page |
| Commands.FilterCommands | src/renderer/components/k-menu-palette.ts:1615-1633 | the command filter never grows the list |
| Commands.Matching | src/renderer/components/k-menu-palette.ts:1625-1633 | the commands every term matches never outnumber the commands |
| Commands.MatchingMembers | src/renderer/components/k-menu-palette.ts:1625-1633 | a command is kept exactly when every term occurs in its lower-cased label or description |
| Commands.MatchingInOrder | src/renderer/components/k-menu-palette.ts:1625-1633 | kept commands stay in their order |
| Commands.MatchingNoTerms | src/renderer/components/k-menu-palette.ts:1625-1633 | with no terms every command is kept |
| Commands.FilterCommandsSpec | src/renderer/components/k-menu-palette.ts:1615-1633 | a command is listed exactly when every term typed after the slash matches it; order is kept |
| Commands.FilterCommandsBlank | src/renderer/components/k-menu-palette.ts:1620-1623 | a bare slash, or a slash followed by white space, lists every command |
| Commands.FindCommand | src/renderer/components/k-menu-palette.ts:890-892 | the found command is the first answering to the name by id or by label prefix; none is found exactly when no command answers |
| Commands.ResourceCandidates | src/renderer/components/k-menu-palette.ts:1677-1724 | at most 50 candidates are listed |
| Commands.StagedIsWhere | src/renderer/components/k-menu-palette.ts:1686-1721 | the filter, kind and query stages together keep exactly the objects satisfying all three tests |
| Commands.ResourceCandidatesSpec | src/renderer/components/k-menu-palette.ts:1677-1724 | a candidate is an object of the snapshot that passes the filters, has a kind the command accepts, and whose name, namespace or kind contains the query; all such objects are listed in snapshot order unless the cap of 50 cuts them off |
| Commands.ExecutionEffects | src/renderer/components/k-menu-palette.ts:1903-1907 | navigation commands navigate to their path; `describe` opens the target as selecting it would; `logs`, `delete` and `refresh` start their asynchronous body |
| Parse.ParseCommandSound | src/renderer/components/k-menu-palette.ts:883-887 | a match gives a non-empty `\w` word and a query without line terminators; the input is `/word`, or `/word`, white space and the query |
| Parse.ParseCommand | src/renderer/components/k-menu-palette.ts:883 | `/^\/(\w+)(?:\s+(.+))?$/`: no match without a leading `/`; a match gives a non-empty word of `\w` characters that follows the slash in the input |
| Parse.ParseCommandSplit | src/renderer/components/k-menu-palette.ts:883 | the command word is the whole leading run of word characters |
| Parse.ParseCommandComplete | src/renderer/components/k-menu-palette.ts:883 | `/word`, and `/word` followed by white space and a single-line query, always match with that word |
| Parse.QueryAfterBlanks | src/renderer/components/k-menu-palette.ts:883-887 | after white space, a query starting with a non-space character is captured whole |
| Parse.QueryOfBlanks | src/renderer/components/k-menu-palette.ts:883 | a word followed only by white space matches only with at least two blanks, and then captures the last blank |
| Parse.QueryAfterAnyBlanks | src/renderer/components/k-menu-palette.ts:883 | white space followed by any single-line text always matches |
| Parse.ParseFilter | src/renderer/components/k-menu-palette.ts:898-902 | `^(kind\|namespace\|node):(.*)$`, case-insensitive: a match gives the attribute and the text after its colon; no match exactly when the input starts with none of the three prefixes or has a line terminator after it |
| Parse.PrefixesExclusive | src/renderer/components/k-menu-palette.ts:898 | at most one attribute prefix can match |
| Parse.ParseFilterUpperCase | src/renderer/components/k-menu-palette.ts:898-901 | `KIND:Pod` is a kind filter for `Pod` |
| Parse.ParseFilterUnknownAttribute | src/renderer/components/k-menu-palette.ts:1021 | `pod:nginx` is not a filter |
| Parse.LeadingCommandToken | src/renderer/components/k-menu-palette.ts:1446 | `/^\/(\w+)/` gives the whole leading word after the slash; no match exactly when the input does not start with a slash and a word character |
| Parse.FilterNameCompletion | src/renderer/components/k-menu-palette.ts:1807-1829 | there is no completion exactly when the lower-cased input holds a colon or is a prefix of none of `kind:`, `namespace:`, `node:`; otherwise the completion is the first of them, in that order, that the input is a prefix of |
| Parse.CompletionOpensSuggestions | src/renderer/components/k-menu-palette.ts:1807-1829 | a completed attribute name parses as a filter of that attribute with an empty value, so suggestions open |
| Parse.CompleteEmpty | src/renderer/components/k-menu-palette.ts:1816-1825 | an empty input completes to `kind:` |
| Parse.CompleteN | src/renderer/components/k-menu-palette.ts:1816-1825 | `N` completes to `namespace:` (the first match) |
| Parse.CompleteNo | src/renderer/components/k-menu-palette.ts:1816-1825 | `no` completes to `node:` |
| Parse.CompleteAfterColon | src/renderer/components/k-menu-palette.ts:1813 | an input that already has a colon is not completed |
| Suggestions.Universe | src/renderer/components/k-menu-palette.ts:917-931 | an object contributes at most one value |
| Suggestions.UniverseMembers | src/renderer/components/k-menu-palette.ts:917-931 | a value is a candidate exactly when some object contributes it: its kind, its non-empty namespace, or the name of a `Node` |
| Suggestions.PlainSuggestions | src/renderer/components/k-menu-palette.ts:1030-1095 | at most 10 suggestions before a value is typed, at most 8 after |
| Suggestions.PoolSpec | src/renderer/components/k-menu-palette.ts:1061-1087 | the pool is distinct and holds exactly the snapshot's values containing the typed text case-insensitively; the suggestions are its sorted, capped prefix |
| Suggestions.PlainSuggestionsAscending | src/renderer/components/k-menu-palette.ts:1036-1086 | suggestions are strictly ascending, so never repeated |
| Suggestions.PlainSuggestionsSound | src/renderer/components/k-menu-palette.ts:1030-1095 | every suggestion is a value of the snapshot that contains the typed text |
| Suggestions.PlainSuggestionsAllQualify | src/renderer/components/k-menu-palette.ts:1030-1095 | every plain suggestion is a qualifying value of the snapshot for its attribute and the typed text |
| Suggestions.PlainSuggestionsComplete | src/renderer/components/k-menu-palette.ts:1030-1095 | a qualifying value is left out only when the cap is full of smaller values |
| Suggestions.CommandSuggestions | src/renderer/components/k-menu-palette.ts:907-979 | command-scoped suggestions are capped at 10, except the unfiltered list of a command's own kinds |
| Suggestions.CommandSuggestionsOwnKinds | src/renderer/components/k-menu-palette.ts:950-971 | a command that restricts kinds only suggests its own kinds, and only ones containing the typed text |
| Suggestions.CommandKindsOnly | src/renderer/components/k-menu-palette.ts:914-915 | `kind:` under such a command offers exactly its kinds, sorted |
| Suggestions.LogsKindSuggestion | src/renderer/components/k-menu-palette.ts:203 | `/logs kind:` suggests exactly `Pod` |
| Ranker.FuzzyMatch | src/renderer/components/k-menu-palette.ts:1338-1355 | the score is 1 when the query is an in-order subsequence of the text and 0 otherwise |
| Ranker.ScoreResource | src/renderer/components/k-menu-palette.ts:1287-1327 | the per-object loop computes the object's score: the sum of the term scores when every term scores, 0 otherwise |
| Ranker.TermScoreIsTenOrTwo | src/renderer/components/k-menu-palette.ts:1297-1321 | because name, kind and namespace are inside the display text, a term scores 10 (substring), 2 (fuzzy) or 0; tiers 8, 6 and 5 are unreachable |
| Ranker.TermScore | src/renderer/components/k-menu-palette.ts:1297-1312 | a term scores one of 0, 2, 5, 6, 8 or 10; a substring of the lower-cased display text scores 10; 0 only when the term is not an in-order subsequence of it |
| Ranker.RankedIffEveryTermIsSubsequence | src/renderer/components/k-menu-palette.ts:1297-1329 | an object is ranked exactly when every term is an in-order subsequence of its lower-cased display text |
| Ranker.SumScoresBounds | src/renderer/components/k-menu-palette.ts:1295-1326 | a ranked object's score lies between 2 and 10 per term |
| Ranker.Candidates | src/renderer/components/k-menu-palette.ts:1286-1329 | each kept entry is the scored object at its snapshot position with a positive score; positions increase |
| Ranker.CandidatesComplete | src/renderer/components/k-menu-palette.ts:1329 | every object with a positive score is kept |
| Ranker.InsertRanked | src/renderer/components/k-menu-palette.ts:1330 | one insertion step of the score sort keeps the order (score descending, ties by position) and adds exactly the entry |
| Ranker.SortRanked | src/renderer/components/k-menu-palette.ts:1330 | the stable sort by descending score is ordered and a permutation |
| Ranker.Search | src/renderer/components/k-menu-palette.ts:1276-1331 | at most 50 results |
| Ranker.SearchEmptyQuery | src/renderer/components/k-menu-palette.ts:1276-1281 | with no query the first 50 filtered objects are listed in order with score 1 |
| Ranker.SearchBlankQuery | src/renderer/components/k-menu-palette.ts:1284-1329 | a query of white space only lists nothing |
| Ranker.RankedEntries | src/renderer/components/k-menu-palette.ts:1286-1330 | each ranked entry is the scored object at its position, with a positive score |
| Ranker.RankedMembership | src/renderer/components/k-menu-palette.ts:1329 | an object is ranked exactly when its score is positive |
| Ranker.SearchOrdered | src/renderer/components/k-menu-palette.ts:1330-1331 | results are the leading ranked entries, by descending score, and equal scores in snapshot order |
| Ranker.CapDropsOnlyLowerScores | src/renderer/components/k-menu-palette.ts:1331 | an entry cut off by the cap scores no higher than any kept result |
| Loader.Lookup | src/renderer/components/k-menu-palette.ts:727-757 | the store under a key is one of the API's stores with that key; none exactly when no store has it |
| Loader.Registered | src/renderer/components/k-menu-palette.ts:727-757 | each listed registry entry is a present store with an API, under its registry kind |
| Loader.RegisteredComplete | src/renderer/components/k-menu-palette.ts:757 | every registry entry whose store exists and has an API is listed |
| Loader.Merge | src/renderer/components/k-menu-palette.ts:762-772 | discovery only appends to the registry stores |
| Loader.MergeCovers | src/renderer/components/k-menu-palette.ts:762-772 | every store whose key ends in `Store` and whose API names a kind has that kind listed after discovery |
| Loader.MergeKeepsDistinct | src/renderer/components/k-menu-palette.ts:767-769 | discovery never lists a kind twice |
| Loader.MergeAdds | src/renderer/components/k-menu-palette.ts:764-769 | what discovery adds are kind-serving stores under their own kind |
| Loader.PlanStores | src/renderer/components/k-menu-palette.ts:720-772 | the registry filter followed by the discovery loop builds the listing plan |
| Loader.PlanStoresExist | src/renderer/components/k-menu-palette.ts:757-769 | every planned store exists in the API object and has an API |
| Loader.PlanCoversKindStores | src/renderer/components/k-menu-palette.ts:762-772 | every kind-serving store's kind is planned |
| Loader.Pow2 | src/renderer/components/k-menu-palette.ts:683 | `Math.pow(2, k)` is at least 1 |
| Loader.FetchWithRetry | src/renderer/components/k-menu-palette.ts:668-690 | the loop gives the value and the waits the retry specification gives |
| Loader.FetchFailsIffAllThrow | src/renderer/components/k-menu-palette.ts:674-681 | the fetch gives `null` exactly when all `maxRetries + 1` attempts throw |
| Loader.FetchGivesFirstSuccess | src/renderer/components/k-menu-palette.ts:674-676 | a successful fetch gives the first attempt that did not throw |
| Loader.DelaysDouble | src/renderer/components/k-menu-palette.ts:683-686 | the waits start at the initial delay, double each time, and are fewer than the attempts |
| Loader.AlwaysThrowingStoreBackoff | src/renderer/components/k-menu-palette.ts:779-790 | a store that always throws is tried four times with waits of 500, 1000 and 2000 ms, and gives nothing |
| Loader.ToResource | src/renderer/components/k-menu-palette.ts:795-801 | each item becomes an object of the store's kind; for name, namespace and uid a non-empty metadata field wins, else a non-empty getter value, else the default (`unknown`, no namespace, empty uid); the API version is copied |
| Loader.StoreResources | src/renderer/components/k-menu-palette.ts:775-805 | a store contributes nothing exactly when its fetch failed or listed nothing |
| Loader.StoreResourcesOfKind | src/renderer/components/k-menu-palette.ts:794-801 | a store contributes only named objects of its own kind |
| Loader.SnapshotNamed | src/renderer/components/k-menu-palette.ts:797 | every loaded object has a name |
| Loader.SnapshotAppend | src/renderer/components/k-menu-palette.ts:808-811 | the flattened snapshot of two plan parts is the concatenation of their snapshots |
| Loader.SnapshotKinds | src/renderer/components/k-menu-palette.ts:775-811 | every loaded object has the kind of a planned store |
| Loader.FailingStoreContributesNothing | src/renderer/components/k-menu-palette.ts:779-804 | a store whose every attempt throws leaves the snapshot as if it were not planned |
| Loader.FetchAll | src/renderer/components/k-menu-palette.ts:775-811 | listing the planned stores in turn yields the flattened snapshot |
| Loader.FetchStore | src/renderer/components/k-menu-palette.ts:775-805 | one store's fetch and conversion yields its contribution |
| Loader.SnapshotPrefix | src/renderer/components/k-menu-palette.ts:808-811 | the snapshot of one more store extends the snapshot of the stores before it by that store's objects |
| Loader.ClusterIdFromHostname | src/renderer/components/k-menu-palette.ts:631-640 | an id is read only from `<lower-case hex>.renderer.freelens.app`, and is that hex prefix |
| Loader.ClusterIdRoundTrip | src/renderer/components/k-menu-palette.ts:635-636 | every non-empty lower-case hex id is read back from its host name |
| Loader.LocalhostHasNoClusterId | src/renderer/components/k-menu-palette.ts:635-636 | `localhost` has no cluster id |
| States.InitialValid | src/renderer/components/k-menu-palette.ts:43-65 | the field initialisers give a closed palette with no filters that satisfies the invariant |
| States.Valid | src/renderer/components/k-menu-palette.ts:43-65 | the invariant over the palette fields: selection indices at least -1, no filter active twice, at most 50 results, suggestions only with an attribute; kept by every `...KeepsValid` lemma |
| States.Preselect | src/renderer/components/k-menu-palette.ts:939-941 | the first suggestion is preselected when none was selected and suggestions arrived; in every other case the old index stays, even one past the end of the new list |
| States.StepDown | src/renderer/components/k-menu-palette.ts:1594-1599 | the result is the smaller of `i + 1` and `n - 1`: one row down, stopping at the last row, and -1 on an empty list |
| States.StepUp | src/renderer/components/k-menu-palette.ts:1601-1606 | `Math.max(i - 1, 0)` moves one row up and stops at the first row |
| States.CycleNext | src/renderer/components/k-menu-palette.ts:1553-1559 | Tab cycles through the suggestions and wraps from the last to the first |
| States.CommandListShown | src/renderer/components/k-menu-palette.ts:1007-1012 | showing the command list drops the active command, its query and the suggestions |
| States.RenderCommandResourceList | src/renderer/components/k-menu-palette.ts:1677-1790 | with an active command and candidates, the results become exactly those candidates with score 1 and the first row is selected; with no active command or no candidates the state is unchanged; only the results and the selection ever change |
| States.CommandListKey | src/renderer/components/k-menu-palette.ts:1509-1547 | ArrowDown takes the command index to `Math.min(i + 1, n - 1)` where `n` counts ALL commands, and ArrowUp to `Math.max(i - 1, 0)`; nothing else changes |
| States.CandidatesQualify | src/renderer/components/k-menu-palette.ts:1686-1724 | every listed candidate passes the filters, the command's kinds and the query |
| States.UpdateAutocompleteHint | src/renderer/components/k-menu-palette.ts:875-1107 | an input starting with `/` ends in command mode with exactly the outcome `CommandHintSpec` states; any other input ends outside it with the outcome `PlainHintSpec` states, and the results and selection untouched; filters, snapshot, commands, cache and visibility never change |
| States.CommandHint | src/renderer/components/k-menu-palette.ts:879-1013 | `CommandHintSpec`: with no known command, or an empty query or one whose command needs no resource, the command list is shown; after a known command a filter sets that attribute and offers `CommandSuggestions` for the trimmed value, preselecting the first; a free-text query for a command that needs a resource makes it the active command with that query and lists exactly its candidates, selecting the first |
| States.CommandHintOffersCase | src/renderer/components/k-menu-palette.ts:894-980 | after a known command, a filter sets the attribute and offers its suggestions, preselecting the first |
| States.CommandHintListsCase | src/renderer/components/k-menu-palette.ts:982-1001 | after a command that needs a resource, a free-text query makes it the active command and lists its candidates |
| States.CommandHintListCase | src/renderer/components/k-menu-palette.ts:985-1012 | every other slash input shows the command list |
| States.PlainHint | src/renderer/components/k-menu-palette.ts:1014-1106 | `PlainHintSpec`: command mode and the active command end; no filter prefix clears the suggestions and the index; a prefix sets the attribute and offers `PlainSuggestions` of the trimmed value, preselecting the first, strictly ascending and each a qualifying value of the snapshot; results and selection stay |
| States.PerformSearch | src/renderer/components/k-menu-palette.ts:1240-1336 | in command mode nothing changes; otherwise the results become `Search` of the snapshot objects passing the active filters for the input, the first is selected and nothing else changes |
| States.SearchResultsPassFilters | src/renderer/components/k-menu-palette.ts:1249-1331 | every search result is an object of the snapshot that passes every active filter |
| States.HandleInput | src/renderer/components/k-menu-palette.ts:859-873 | a leading `/` gives the `CommandHintSpec` outcome; any other input gives the `PlainHintSpec` outcome with the results set to `Search` of the filtered snapshot for the input and the first selected; filters, snapshot, input, commands, cache and visibility never change |
| States.AddFilter | src/renderer/components/k-menu-palette.ts:1142-1165 | an active pair changes nothing; a new pair is appended, the input and suggestions are cleared, no suggestion is selected, no filter is being typed, and command mode ends; outside command mode the results are the search of the snapshot under the new filters for the empty query, with the first row selected; in command mode the results are left as they were |
| States.RemoveFilter | src/renderer/components/k-menu-palette.ts:1167-1171 | the pair is no longer active and every other active pair stays; outside command mode the results are the search of the snapshot under the remaining filters for the current input, with the first row selected; in command mode the results and the selection are left as they were |
| States.Close | src/renderer/components/k-menu-palette.ts:642-664 | the palette is hidden with an empty input, no results and no filters; command mode, the active command, its query, the suggestions and their index and attribute, the command index, the commands and the cluster id are left as they were |
| States.SelectResult | src/renderer/components/k-menu-palette.ts:1920-1927 | an existing result is opened and the palette closes; any other index changes nothing |
| States.ExecuteCommandOnResource | src/renderer/components/k-menu-palette.ts:1792-1805 | a kind the command does not accept raises an alert and keeps the palette; otherwise the command runs on the target and the palette closes |
| States.RunCommand | src/renderer/components/k-menu-palette.ts:1887-1910 | with no selection an alert is raised and command mode ends with an empty input; a wrong kind alerts only; otherwise the command runs and the palette closes |
| States.ExecuteCommand | src/renderer/components/k-menu-palette.ts:1859-1911 | the command at the index of the filtered list runs; an index outside it changes nothing |
| States.Retyped | src/renderer/components/k-menu-palette.ts:1851-1855 | replacing the input and processing it keeps the new input and the filters, and enters command mode exactly for a leading `/` |
| States.AutocompleteCommand | src/renderer/components/k-menu-palette.ts:1831-1857 | the selected command of the filtered list becomes the input `/label` in command mode; an index outside the list changes nothing |
| States.PickedCommandText | src/renderer/components/k-menu-palette.ts:1847-1851 | the completion text always starts with `/` |
| States.AutocompleteFilterName | src/renderer/components/k-menu-palette.ts:1807-1829 | a completed attribute name replaces the input and is processed; otherwise nothing changes |
| States.RetypeCommandWord | src/renderer/components/k-menu-palette.ts:1446-1454 | when the input still starts with a command word it becomes `/word ` and the filters stay; otherwise nothing changes |
| States.HandleKeyDown | src/renderer/components/k-menu-palette.ts:1413-1613 | a key no handler knows changes nothing |
| States.CommandSuggestionKey | src/renderer/components/k-menu-palette.ts:1417-1471 | Tab and ArrowDown step the suggestion index down, ArrowUp steps it up; Enter with no picked suggestion changes nothing; Escape leaves command mode with an empty input, no command and no suggestions, keeps visibility and filters, and lists `Search` of the filtered snapshot for the empty query |
| States.CommandResourceKey | src/renderer/components/k-menu-palette.ts:1475-1508 | Escape leaves command mode with an empty input and no command, keeps visibility and filters and lists the filtered snapshot; Enter with no selected row changes nothing; the arrows keep the command and the input |
| States.SuggestionKey | src/renderer/components/k-menu-palette.ts:1551-1578 | Tab moves only the suggestion index and keeps it on a suggestion; Enter with no pick changes nothing; Escape closes the palette, clearing input, results and filters |
| States.NavigationKey | src/renderer/components/k-menu-palette.ts:1582-1612 | an unknown key changes nothing; Escape closes; ArrowDown and ArrowUp move only the selection, ArrowDown staying on a result and ArrowUp never below 0; Enter on a result closes the palette and appends the navigation effects of that result |
| States.ShowsCommandSuggestions | src/renderer/components/k-menu-palette.ts:1415-1417 | the condition under which the command-suggestion keys apply: command mode, an attribute being filtered and suggestions on screen |
| States.ListsCommandResources | src/renderer/components/k-menu-palette.ts:1475 | the condition under which the resource-list keys apply: command mode, an active command and a non-empty query |
| States.LoadResources | src/renderer/components/k-menu-palette.ts:692-847 | a cached cluster reuses its snapshot; otherwise the planned stores are listed and cached under the cluster; filters, commands and visibility stay |
| States.RefreshResources | src/renderer/components/k-menu-palette.ts:850-857 | outside a cluster nothing changes; in one the snapshot is listed afresh and re-cached |
| States.Open | src/renderer/components/k-menu-palette.ts:592-629 | the palette shows, the commands are rebuilt, the cluster id comes from the host name, and outside a cluster the snapshot is empty |
| States.Toggle | src/renderer/components/k-menu-palette.ts:584-590 | toggling flips visibility |
| States.RenderCommandResourceListKeepsValid | src/renderer/components/k-menu-palette.ts:1677-1790 | listing a command's resources keeps the invariant |
| States.CommandHintKeepsValid | src/renderer/components/k-menu-palette.ts:879-1013 | the command branch of the hint keeps the invariant |
| States.UpdateAutocompleteHintKeepsValid | src/renderer/components/k-menu-palette.ts:875-1107 | the hint keeps the invariant |
| States.HandleInputKeepsValid | src/renderer/components/k-menu-palette.ts:859-873 | processing input keeps the invariant |
| States.AddFilterKeepsValid | src/renderer/components/k-menu-palette.ts:1142-1165 | adding a filter keeps the invariant, in particular no filter active twice |
| States.RemoveFilterKeepsValid | src/renderer/components/k-menu-palette.ts:1167-1171 | removing a filter keeps the invariant |
| States.SelectResultKeepsValid | src/renderer/components/k-menu-palette.ts:1920-1927 | selecting keeps the invariant |
| States.ExecuteCommandOnResourceKeepsValid | src/renderer/components/k-menu-palette.ts:1792-1805 | running on a resource keeps the invariant |
| States.RunCommandKeepsValid | src/renderer/components/k-menu-palette.ts:1887-1910 | running a command keeps the invariant |
| States.ExecuteCommandKeepsValid | src/renderer/components/k-menu-palette.ts:1859-1911 | executing from the list keeps the invariant |
| States.AutocompleteCommandKeepsValid | src/renderer/components/k-menu-palette.ts:1831-1857 | command completion keeps the invariant |
| States.RetypedKeepsValid | src/renderer/components/k-menu-palette.ts:1851-1855 | retyping the input keeps the invariant |
| States.AutocompleteFilterNameKeepsValid | src/renderer/components/k-menu-palette.ts:1807-1829 | attribute-name completion keeps the invariant |
| States.CommandSuggestionKeyKeepsValid | src/renderer/components/k-menu-palette.ts:1417-1471 | keys on command suggestions keep the invariant |
| States.RetypeCommandWordKeepsValid | src/renderer/components/k-menu-palette.ts:1446-1454 | typing back the command word keeps the invariant |
| States.CommandResourceKeyKeepsValid | src/renderer/components/k-menu-palette.ts:1475-1508 | keys on a command's resource list keep the invariant |
| States.CommandListKeyKeepsValid | src/renderer/components/k-menu-palette.ts:1509-1547 | keys on the command list keep the invariant |
| States.SuggestionKeyKeepsValid | src/renderer/components/k-menu-palette.ts:1551-1578 | keys on plain suggestions keep the invariant |
| States.NavigationKeyKeepsValid | src/renderer/components/k-menu-palette.ts:1582-1612 | keys on the results keep the invariant |
| States.HandleKeyDownKeepsValid | src/renderer/components/k-menu-palette.ts:1413-1613 | every key keeps the invariant |
| States.LoadResourcesKeepsValid | src/renderer/components/k-menu-palette.ts:692-847 | loading keeps the invariant |
| States.RefreshResourcesKeepsValid | src/renderer/components/k-menu-palette.ts:850-857 | refreshing keeps the invariant |
| States.ToggleKeepsValid | src/renderer/components/k-menu-palette.ts:584-629 | opening and closing keep the invariant |
| States.OpenKeepsValid | src/renderer/components/k-menu-palette.ts:592-629 | opening keeps the invariant |
| States.AddFilterIdempotent | src/renderer/components/k-menu-palette.ts:1144-1145 | committing a pair twice is committing it once |
| States.RemoveUndoesAddFilter | src/renderer/components/k-menu-palette.ts:1142-1171 | removing a freshly committed pair restores the filters |
| States.EscapeClosesPalette | src/renderer/components/k-menu-palette.ts:1574-1592 | outside command mode Escape closes the palette and clears input, results and filters |
| States.EscapeLeavesCommandMode | src/renderer/components/k-menu-palette.ts:1458-1525 | in command mode Escape leaves it with an empty input, no active command, the palette still open and the filters kept |
| States.ArrowDownStaysOnResults | src/renderer/components/k-menu-palette.ts:1594-1599 | ArrowDown moves the selection one row down and stays on a result |
| States.ArrowDownOnEmptyResults | src/renderer/components/k-menu-palette.ts:1594-1599 | on an empty result list ArrowDown sets the selection to -1 and changes nothing else |
| States.CommandListArrowDownClampsOnAllCommands | src/renderer/components/k-menu-palette.ts:1527-1534 | in the command list ArrowDown stops at the last of all commands, whatever the typed query leaves on screen, and changes nothing else |
| States.CommandResourceArrowsReset | src/renderer/components/k-menu-palette.ts:1488-1500 | while a command lists its resources, ArrowDown and ArrowUp re-render the candidates, which selects the first row again |
| States.ArrowUpStaysOnResults | src/renderer/components/k-menu-palette.ts:1601-1606 | ArrowUp moves the selection one row up and stays on a result |
| States.TabCyclesSuggestions | src/renderer/components/k-menu-palette.ts:1553-1559 | Tab on plain suggestions moves to the next, wrapping to the first |
| States.EnterOpensSelection | src/renderer/components/k-menu-palette.ts:1608-1612 | Enter opens the selected result and closes the palette |
| States.EnterCommitsSuggestion | src/renderer/components/k-menu-palette.ts:1561-1572 | Enter on a picked plain suggestion makes it an active filter |
| States.CommandSuggestionCommitLeavesCommandMode | src/renderer/components/k-menu-palette.ts:1435-1456 | committing a new suggestion under a command adds the filter but leaves command mode with an empty input |
| States.CommandSuggestionRepickRefills | src/renderer/components/k-menu-palette.ts:1435-1456 | re-picking an active suggestion types back `/word ` and keeps command mode and the filters |
| States.EnterRunsSelectedCommand | src/renderer/components/k-menu-palette.ts:1542-1545 | Enter on the command list runs the selected command of the filtered list |
| States.EnterRunsCommandOnSelection | src/renderer/components/k-menu-palette.ts:1502-1507 | Enter on a command's resource list runs the command on the selected resource and closes the palette |
| States.DescribeIsSelect | src/renderer/components/k-menu-palette.ts:274-296 | `describe` on a resource has the same effects as selecting it |
| States.ResourceCommandNeedsSelection | src/renderer/components/k-menu-palette.ts:1887-1896 | a resource command with no results raises the selection alert |
| States.SecondLoadUsesCache | src/renderer/components/k-menu-palette.ts:696-700 | a second load in the same cluster reuses the cached snapshot, whatever the API now holds |
| States.RefreshBypassesCache | src/renderer/components/k-menu-palette.ts:850-857 | refresh lists the API again even when the snapshot is cached |
| States.WordBlankQueryParses | src/renderer/components/k-menu-palette.ts:883-887 | `/word query` with one blank and a query starting with a non-blank parses to that word and that query |
| States.CommandQueryListsResources | src/renderer/components/k-menu-palette.ts:883-1004 | `/word query` for a known command that needs a resource, with a query that is not a filter, ends listing that command's resources with that query, and the suggestion keys do not apply |
| States.CommandFilterShowsSuggestions | src/renderer/components/k-menu-palette.ts:883-979 | `/word attr:value` for a known command sets the attribute and offers `CommandSuggestions`; the suggestion keys apply exactly when there are some |
| States.LogsQueryListsResources | src/renderer/components/k-menu-palette.ts:883-1004 | `/logs web` lists the logs command's resources with query `web` |
| States.LogsKindShowsPod | src/renderer/components/k-menu-palette.ts:883-979 | `/logs kind:` offers exactly `Pod`, and the suggestion keys apply |
| States.BareSlashShowsCommandList | src/renderer/components/k-menu-palette.ts:879-1012 | a bare `/` shows the command list and keeps the results |
| States.KindPrefixShowsKinds | src/renderer/components/k-menu-palette.ts:1014-1095 | `kind:` outside command mode offers the snapshot's kinds, strictly ascending, ten at most |
| Palette.KMenuPalette.constructor | src/renderer/components/k-menu-palette.ts:43-65 | a new palette is in the initial state, which satisfies the invariant |
| Palette.KMenuPalette.RenderCommandResourceList | src/renderer/components/k-menu-palette.ts:1677-1790 | the fields end as `States.RenderCommandResourceList` gives |
| Palette.KMenuPalette.UpdateAutocompleteHint | src/renderer/components/k-menu-palette.ts:875-1107 | the fields end as `States.UpdateAutocompleteHint` gives |
| Palette.KMenuPalette.UpdateCommandHint | src/renderer/components/k-menu-palette.ts:879-1013 | the fields end as `States.CommandHint` gives |
| Palette.KMenuPalette.UpdatePlainHint | src/renderer/components/k-menu-palette.ts:1014-1106 | the fields end as `States.PlainHint` gives |
| Palette.KMenuPalette.PerformSearch | src/renderer/components/k-menu-palette.ts:1240-1336 | the fields end as `States.PerformSearch` gives |
| Palette.KMenuPalette.HandleInput | src/renderer/components/k-menu-palette.ts:859-873 | the fields end as `States.HandleInput` gives |
| Palette.KMenuPalette.AddFilter | src/renderer/components/k-menu-palette.ts:1142-1165 | the fields end as `States.AddFilter` gives |
| Palette.KMenuPalette.RemoveFilter | src/renderer/components/k-menu-palette.ts:1167-1171 | the fields end as `States.RemoveFilter` gives |
| Palette.KMenuPalette.Close | src/renderer/components/k-menu-palette.ts:642-664 | the fields end as `States.Close` gives |
| Palette.KMenuPalette.SelectResult | src/renderer/components/k-menu-palette.ts:1920-1927 | the fields end as `States.SelectResult` gives |
| Palette.KMenuPalette.ExecuteCommandOnResource | src/renderer/components/k-menu-palette.ts:1792-1805 | the fields end as `States.ExecuteCommandOnResource` gives |
| Palette.KMenuPalette.ExecuteCommand | src/renderer/components/k-menu-palette.ts:1859-1911 | the fields end as `States.ExecuteCommand` gives |
| Palette.KMenuPalette.RunCommand | src/renderer/components/k-menu-palette.ts:1887-1910 | the fields end as `States.RunCommand` gives |
| Palette.KMenuPalette.AlertNoSelection | src/renderer/components/k-menu-palette.ts:1889-1896 | with nothing selected the fields end as `States.RunCommand` gives |
| Palette.KMenuPalette.AutocompleteCommand | src/renderer/components/k-menu-palette.ts:1831-1857 | the fields end as `States.AutocompleteCommand` gives |
| Palette.KMenuPalette.AutocompleteFilterName | src/renderer/components/k-menu-palette.ts:1807-1829 | the fields end as `States.AutocompleteFilterName` gives |
| Palette.KMenuPalette.HandleKeyDown | src/renderer/components/k-menu-palette.ts:1413-1613 | the fields end as `States.HandleKeyDown` gives, and the invariant `Valid` holds before and after |
| Palette.KMenuPalette.CommandSuggestionKey | src/renderer/components/k-menu-palette.ts:1417-1471 | the fields end as `States.CommandSuggestionKey` gives |
| Palette.KMenuPalette.CommitCommandSuggestion | src/renderer/components/k-menu-palette.ts:1435-1456 | Enter on a command suggestion ends as `States.CommandSuggestionKey` gives |
| Palette.KMenuPalette.RetypeCommandWord | src/renderer/components/k-menu-palette.ts:1446-1454 | the fields end as `States.RetypeCommandWord` gives |
| Palette.KMenuPalette.CommandResourceKey | src/renderer/components/k-menu-palette.ts:1475-1508 | the fields end as `States.CommandResourceKey` gives |
| Palette.KMenuPalette.CommandListKey | src/renderer/components/k-menu-palette.ts:1509-1547 | the fields end as `States.CommandListKey` gives |
| Palette.KMenuPalette.SuggestionKey | src/renderer/components/k-menu-palette.ts:1551-1578 | the fields end as `States.SuggestionKey` gives |
| Palette.KMenuPalette.NavigationKey | src/renderer/components/k-menu-palette.ts:1582-1612 | the fields end as `States.NavigationKey` gives |
| Palette.KMenuPalette.LoadResources | src/renderer/components/k-menu-palette.ts:692-847 | the fields end as `States.LoadResources` gives |
| Palette.KMenuPalette.FetchSnapshot | src/renderer/components/k-menu-palette.ts:711-832 | the fields end as before, except that the snapshot is the listing of the planned stores and, in a cluster, that snapshot is cached under the cluster id |
| Palette.KMenuPalette.RefreshResources | src/renderer/components/k-menu-palette.ts:850-857 | the fields end as `States.RefreshResources` gives, and the invariant `Valid` holds before and after |
| Palette.KMenuPalette.Open | src/renderer/components/k-menu-palette.ts:592-629 | the fields end as `States.Open` gives, and the invariant `Valid` holds before and after |
| Palette.KMenuPalette.InitializeCommands | src/renderer/components/k-menu-palette.ts:191-362 | the command list is rebuilt and nothing else changes |
| Palette.KMenuPalette.Toggle | src/renderer/components/k-menu-palette.ts:584-590 | the fields end as `States.Toggle` gives, and the invariant `Valid` holds before and after |

## Left out

- Rendering and the DOM are not modelled: the elements, styles, focus, filter tags, the
  hint text and the result rows. This covers `createDOM`, `setupKeyboardListener`,
  `renderResults`, `renderFilterTags`, `renderAutocompleteHint`, the drawing half of
  `renderCommandList` and `renderCommandResourceList`, and `destroy`. Only the fields
  these functions set are modelled.
- States.HandleInput: the 150 ms search debounce is collapsed. The search runs right after the
  hint, so interleavings of keystrokes with pending timers are not modelled.
- Timers are not waited on. The 100 ms delay before `showDetails`, the focus timer, and
  the backoff waits of `fetchWithRetry` are returned or recorded instead.
- States.Open: the catalog of clusters and the Kubernetes API object are inputs. The API object
  is a sequence of stores, each with a scripted sequence of `list()` outcomes. An absent
  API object (the early return of `buildNavigationCommands` with unsorted cluster
  commands) is not modelled.
- Loader.FetchAll: the stores are fetched one after another. The source awaits them together
  with `Promise.all`; results are flattened in plan order either way. Interleaving of
  the fetches is not modelled.
- States.LoadResources: the outer `try`/`catch` is not modelled. An exception outside the
  per-store fetch (which is already caught by the retry) cannot arise in the model.
- Commands.ExecutionEffects: the bodies of `logs`, `delete` and `refresh` are
  asynchronous calls into the Freelens API (a pod-log tab, a confirmation dialog and a
  delete call, a reload). They are recorded as one `Started` effect. `deleteResource` is
  therefore not modelled, and `refresh` does not chain into `RefreshResources`.
- Text.Lower: only ASCII letters are lower-cased. JavaScript's `toLowerCase` covers all
  of Unicode.
- Commands.BuildNavigationCommands: labels are compared by code point. The source uses
  `localeCompare`, whose order can differ for non-ASCII and mixed-case labels.
- Order.SortStrings is the same code-point order as JavaScript's default sort on UTF-16
  units, for characters in the Basic Multilingual Plane.
- Order.SortBy and Ranker.SortRanked give the sorted value. They do not model the
  in-place mutation of the arrays.
- Scores are Dafny reals. Floating-point rounding is not modelled;
  the fuzzy score is exactly 1 when it is not 0.
- The methods of the palette class write the fields in a different order from the source,
  and group some writes into small helper methods. Only the state after each operation
  is modelled, not intermediate states seen by reentrant code.

## Quirks of the code that the model keeps

Each of these is behaviour of the code as written, and the model reproduces it.

- Committing a new suggestion under a command (`/logs kind:` then Enter) clears the
  input, and the palette leaves command mode. `addFilter` empties the input before the
  handler tries to read the command word back, so `/logs ` is only retyped when the
  filter was already active (`States.CommandSuggestionCommitLeavesCommandMode`,
  `States.CommandSuggestionRepickRefills`).
- ArrowDown and ArrowUp on a command's resource list move the selection, but the
  re-render that follows resets it to the first candidate whenever there are candidates.
- Plain filter entry caps typed-value suggestions at 8. The unfiltered list and
  command-scoped suggestions are capped at 10.
- A query of white space only lists no results rather than all of them
  (`Ranker.SearchBlankQuery`).
- Opening with a cached snapshot reuses it without processing the input again. Only an
  uncached load ends with `handleInput`.
- `/logs ` with a single trailing blank does not match the command pattern, so it shows
  the command list. Two blanks or a query make it a command (`Parse.QueryOfBlanks`).
- Two stores serving the same kind give two identical navigation commands. The
  navigation command loop does not deduplicate.
- `close` does not reset command mode, the active command or the suggestions
  (`States.Close`).
- When a command has no candidates, the previous results stay listed
  (`States.RenderCommandResourceList`).
- In command mode, adding or removing a filter leaves the result list as it was.
  `performSearch` returns at once in command mode. After `addFilter` the hint update
  then ends command mode, so the list shown is stale until the next search
  (`States.AddFilter`, `States.RemoveFilter`).
- Because name, kind and namespace are all part of the display text, the name (8),
  kind (6) and namespace (5) score tiers can never apply (`Ranker.TermScoreIsTenOrTwo`).
