/**
 * The palette's state as a value, and each of its operations as a function
 * from the state before to the state after. The class in `Palette` performs
 * the same steps field by field and is proved to end in the state these
 * functions give; the properties of the palette are proved here.
 */
module States {
  import opened Optional
  import opened Text
  import opened Order
  import opened Resources
  import opened Effects
  import opened Routing
  import opened Commands
  import opened Parse
  import opened Suggestions
  import opened Ranker
  import opened Loader

  /**
   * Every field the palette updates. `input` is the text of the input box;
   * `effects` records, in order, what the palette asked the application to do.
   */
  datatype PaletteState = PaletteState(
    isOpen: bool,
    input: string,
    selectedIndex: int,
    results: seq<SearchResult>,
    allResources: seq<Resource>,
    activeFilters: seq<Filter>,
    autocompleteSuggestions: seq<string>,
    autocompleteSelectedIndex: int,
    autocompleteFilterType: Option<FilterType>,
    isCommandMode: bool,
    availableCommands: seq<Command>,
    selectedCommandIndex: int,
    activeCommand: Option<Command>,
    commandSearchQuery: string,
    resourceCache: map<string, seq<Resource>>,
    currentClusterId: Option<string>,
    effects: seq<Effect>)

  /** The state a new palette starts in. */
  const Initial := PaletteState(false, "", 0, [], [], [], [], -1, None, false, [], 0, None, "", map[], None, [])

  /**
   * What every operation keeps: selection indices never drop below -1, no
   * filter is active twice, at most 50 results are listed, and suggestions
   * are only offered together with the attribute they would filter on.
   */
  predicate Valid(s: PaletteState) {
    s.selectedIndex >= -1 && s.autocompleteSelectedIndex >= -1 && s.selectedCommandIndex >= -1 &&
    NoDuplicates(s.activeFilters) && |s.results| <= MaxResults &&
    (s.autocompleteFilterType.None? ==> s.autocompleteSuggestions == [])
  }

  lemma InitialValid()
    ensures Valid(Initial) && !Initial.isOpen && Initial.activeFilters == []
  {
  }

  /** The suggestion index after new suggestions arrive: the first one is preselected when none was. */
  function Preselect(index: int, suggestions: seq<string>): (r: int)
    ensures index >= -1 ==> r >= -1
    ensures suggestions != [] && index == -1 ==> r == 0
    ensures !(suggestions != [] && index == -1) ==> r == index
  {
    if index == -1 && |suggestions| > 0 then 0 else index
  }

  /** `Math.min(index + 1, length - 1)`. */
  function StepDown(index: int, length: nat): (r: int)
    ensures index >= -1 ==> r >= -1
    ensures 0 <= index < length ==> 0 <= r < length && (r == index + 1 || r == index == length - 1)
    ensures r <= index + 1 && r <= length - 1 && (r == index + 1 || r == length - 1)
    ensures index >= -1 && length == 0 ==> r == -1
  {
    if index + 1 < length - 1 then index + 1 else length - 1
  }

  /** `Math.max(index - 1, 0)`. */
  function StepUp(index: int): (r: int)
    ensures r >= 0
    ensures index >= 1 ==> r == index - 1
  {
    if index - 1 > 0 then index - 1 else 0
  }

  /** `(index + 1) % length` with JavaScript's remainder, which keeps the sign of the dividend. */
  function CycleNext(index: int, length: nat): (r: int)
    requires length > 0
    ensures index >= -1 ==> 0 <= r < length
    ensures 0 <= index < length - 1 ==> r == index + 1
    ensures index == length - 1 ==> r == 0
  {
    var a := index + 1;
    if a >= 0 then a % length else -((-a) % length)
  }

  /** The command-list reset: no active command, no command query, no suggestions. */
  function CommandListShown(s: PaletteState): (r: PaletteState)
    ensures r.activeCommand.None? && r.commandSearchQuery == "" && r.autocompleteSuggestions == []
  {
    s.(activeCommand := None, commandSearchQuery := "", autocompleteFilterType := None,
       autocompleteSuggestions := [], autocompleteSelectedIndex := -1)
  }

  /** The resources the active command can run on, for its typed query. */
  function CommandCandidates(s: PaletteState): seq<Resource>
    requires s.activeCommand.Some?
  {
    ResourceCandidates(s.allResources, s.activeFilters, s.activeCommand.value, s.commandSearchQuery)
  }

  /**
   * `renderCommandResourceList`: with an active command, the candidates become
   * the results (score 1, first selected); when there are none the previous
   * results stay as they were.
   */
  function RenderCommandResourceList(s: PaletteState): (r: PaletteState)
    ensures r == s.(results := r.results, selectedIndex := r.selectedIndex)
    ensures (s.activeCommand.None? || CommandCandidates(s) == []) ==> r == s
    ensures (s.activeCommand.Some? && CommandCandidates(s) != []) ==>
      r.selectedIndex == 0 && r.results == Unscored(CommandCandidates(s))
    ensures s.activeCommand.Some? && r.results != s.results ==> (r.selectedIndex == 0 &&
      forall k :: 0 <= k < |r.results| ==> (r.results[k].matchScore == 1.0 &&
        Candidate(r.results[k].resource, s.activeFilters, s.activeCommand.value, s.commandSearchQuery)))
  {
    if s.activeCommand.None? then s
    else
      var c := s.activeCommand.value;
      var cands := ResourceCandidates(s.allResources, s.activeFilters, c, s.commandSearchQuery);
      if cands == [] then s
      else
        CandidatesQualify(s.allResources, s.activeFilters, c, s.commandSearchQuery);
        s.(results := Unscored(cands), selectedIndex := 0)
  }

  lemma CandidatesQualify(snapshot: seq<Resource>, filters: seq<Filter>, c: Command, query: string)
    ensures forall x :: x in ResourceCandidates(snapshot, filters, c, query) ==> Candidate(x, filters, c, query)
  {
    forall x | x in ResourceCandidates(snapshot, filters, c, query)
      ensures Candidate(x, filters, c, query)
    {
      ResourceCandidatesSpec(snapshot, filters, c, query, x);
    }
  }

  /** The command the input names: `/word ...` with some command answering to the lower-cased word. */
  function TypedCommand(s: PaletteState): Option<Command> {
    var parsed := ParseCommand(s.input);
    if parsed.Some? then FindCommand(s.availableCommands, Lower(parsed.value.0)) else None
  }

  /** The text after the command word and its blanks; empty when the input is not a command. */
  function TypedQuery(s: PaletteState): string {
    var parsed := ParseCommand(s.input);
    if parsed.Some? then parsed.value.1 else ""
  }

  /** The command list is on show: command mode, with no active command, query or suggestions. */
  predicate ShowsCommandList(r: PaletteState) {
    r.isCommandMode && r.activeCommand.None? && r.commandSearchQuery == "" &&
    r.autocompleteSuggestions == [] && r.autocompleteFilterType.None? && r.autocompleteSelectedIndex == -1
  }

  /**
   * What the command half of the hint leaves, input by input: no known
   * command, or a query the command cannot use, shows the command list; a
   * filter after a known command offers that command's suggestions for the
   * trimmed value; a free-text query after a command that needs a resource
   * lists the command's candidates.
   */
  predicate CommandHintSpec(s: PaletteState, r: PaletteState) {
    var c := TypedCommand(s);
    var q := TypedQuery(s);
    r.isCommandMode &&
    ((c.None? || (ParseFilter(q).None? && (q == "" || !c.value.requiresResource))) ==>
      ShowsCommandList(r) && r.results == s.results && r.selectedIndex == s.selectedIndex) &&
    ((c.Some? && ParseFilter(q).Some?) ==>
      r.activeCommand == c && r.commandSearchQuery == s.commandSearchQuery &&
      r.autocompleteFilterType == Some(ParseFilter(q).value.0) &&
      r.autocompleteSuggestions == CommandSuggestions(c.value, ParseFilter(q).value.0, s.allResources, Trim(ParseFilter(q).value.1)) &&
      r.autocompleteSelectedIndex == Preselect(s.autocompleteSelectedIndex, r.autocompleteSuggestions) &&
      r.results == s.results && r.selectedIndex == s.selectedIndex) &&
    ((c.Some? && ParseFilter(q).None? && q != "" && c.value.requiresResource) ==>
      ListsCommandResources(r) && r.activeCommand == c && r.commandSearchQuery == q &&
      r.autocompleteSuggestions == [] && r.autocompleteFilterType.None? && r.autocompleteSelectedIndex == -1 &&
      (CommandCandidates(r) != [] ==> r.results == Unscored(CommandCandidates(r)) && r.selectedIndex == 0) &&
      (CommandCandidates(r) == [] ==> r.results == s.results && r.selectedIndex == s.selectedIndex))
  }

  /**
   * What the plain half of the hint leaves: command mode is off; a filter
   * being typed offers the snapshot's values for its trimmed text and
   * preselects the first; any other input clears the suggestions.
   */
  predicate PlainHintSpec(s: PaletteState, r: PaletteState) {
    var f := ParseFilter(s.input);
    !r.isCommandMode && r.activeCommand.None? && r.commandSearchQuery == "" &&
    (f.None? ==> r.autocompleteSuggestions == [] && r.autocompleteFilterType.None? && r.autocompleteSelectedIndex == -1) &&
    (f.Some? ==>
      r.autocompleteFilterType == Some(f.value.0) &&
      r.autocompleteSuggestions == PlainSuggestions(f.value.0, s.allResources, Trim(f.value.1)) &&
      r.autocompleteSelectedIndex == Preselect(s.autocompleteSelectedIndex, r.autocompleteSuggestions))
  }

  /**
   * `updateAutocompleteHint`: reads the input and sets command mode, the
   * active command, the command query and the suggestions; the filters, the
   * snapshot, the commands, the cache and the open flag are never touched.
   */
  function UpdateAutocompleteHint(s: PaletteState): (r: PaletteState)
    ensures r.isOpen == s.isOpen && r.input == s.input && r.allResources == s.allResources
    ensures r.activeFilters == s.activeFilters && r.availableCommands == s.availableCommands
    ensures r.selectedCommandIndex == s.selectedCommandIndex && r.resourceCache == s.resourceCache
    ensures r.currentClusterId == s.currentClusterId && r.effects == s.effects
    ensures r.isCommandMode <==> StartsWith(s.input, "/")
    ensures !r.isCommandMode ==> r.activeCommand.None? && r.commandSearchQuery == ""
    ensures StartsWith(s.input, "/") ==> CommandHintSpec(s, r)
    ensures !StartsWith(s.input, "/") ==> PlainHintSpec(s, r) && r.results == s.results && r.selectedIndex == s.selectedIndex
  {
    if StartsWith(s.input, "/") then CommandHint(s) else PlainHint(s)
  }

  /**
   * The command-mode half of `updateAutocompleteHint`: a known command becomes
   * active; a filter after it offers that command's suggestions; a free-text
   * query on a command that needs a resource lists the candidates; anything
   * else shows the command list.
   */
  function CommandHint(s: PaletteState): (r: PaletteState)
    ensures r.isOpen == s.isOpen && r.input == s.input && r.allResources == s.allResources
    ensures r.activeFilters == s.activeFilters && r.availableCommands == s.availableCommands
    ensures r.selectedCommandIndex == s.selectedCommandIndex && r.resourceCache == s.resourceCache
    ensures r.currentClusterId == s.currentClusterId && r.effects == s.effects
    ensures r.isCommandMode
    ensures CommandHintSpec(s, r)
  {
    var s1 := s.(isCommandMode := true);
    var parsed := ParseCommand(s.input);
    var found := if parsed.Some? then FindCommand(s.availableCommands, Lower(parsed.value.0)) else None;
    if parsed.None? || found.None? then CommandListShown(s1)
    else
      var c := found.value;
      var query := parsed.value.1;
      var s2 := s1.(activeCommand := Some(c));
      match ParseFilter(query)
      case Some((t, raw)) =>
        var sug := CommandSuggestions(c, t, s.allResources, Trim(raw));
        s2.(autocompleteFilterType := Some(t), autocompleteSuggestions := sug,
            autocompleteSelectedIndex := Preselect(s.autocompleteSelectedIndex, sug))
      case None =>
        if query == "" || !c.requiresResource then CommandListShown(s2)
        else
          RenderCommandResourceList(s2.(commandSearchQuery := query, autocompleteFilterType := None,
                                        autocompleteSuggestions := [], autocompleteSelectedIndex := -1))
  }

  /** The branch of `CommandHint` for a filter typed after a known command. */
  lemma CommandHintOffersCase(s: PaletteState, c: Command, t: FilterType, raw: string)
    requires ParseCommand(s.input).Some? && FindCommand(s.availableCommands, Lower(ParseCommand(s.input).value.0)) == Some(c)
    requires ParseFilter(ParseCommand(s.input).value.1) == Some((t, raw))
    ensures var sug := CommandSuggestions(c, t, s.allResources, Trim(raw));
      CommandHint(s) == s.(isCommandMode := true, activeCommand := Some(c), autocompleteFilterType := Some(t),
        autocompleteSuggestions := sug, autocompleteSelectedIndex := Preselect(s.autocompleteSelectedIndex, sug))
  {
  }

  /** The branch of `CommandHint` for a free-text query after a command that needs a resource. */
  lemma CommandHintListsCase(s: PaletteState, c: Command)
    requires ParseCommand(s.input).Some? && FindCommand(s.availableCommands, Lower(ParseCommand(s.input).value.0)) == Some(c)
    requires ParseFilter(ParseCommand(s.input).value.1).None?
    requires ParseCommand(s.input).value.1 != "" && c.requiresResource
    ensures CommandHint(s) == RenderCommandResourceList(s.(isCommandMode := true, activeCommand := Some(c),
      commandSearchQuery := ParseCommand(s.input).value.1, autocompleteFilterType := None,
      autocompleteSuggestions := [], autocompleteSelectedIndex := -1))
  {
  }

  /** The remaining inputs of `CommandHint` show the command list. */
  lemma CommandHintListCase(s: PaletteState)
    requires !(TypedCommand(s).Some? && ParseFilter(TypedQuery(s)).Some?)
    requires !(TypedCommand(s).Some? && TypedQuery(s) != "" && TypedCommand(s).value.requiresResource)
    ensures CommandHint(s) == CommandListShown(s.(isCommandMode := true))
  {
  }

  /**
   * The plain half of `updateAutocompleteHint`: command mode ends, and a
   * filter being typed offers the matching values of the snapshot.
   */
  function PlainHint(s: PaletteState): (r: PaletteState)
    ensures r.isOpen == s.isOpen && r.input == s.input && r.allResources == s.allResources
    ensures r.activeFilters == s.activeFilters && r.availableCommands == s.availableCommands
    ensures r.selectedCommandIndex == s.selectedCommandIndex && r.resourceCache == s.resourceCache
    ensures r.currentClusterId == s.currentClusterId && r.effects == s.effects
    ensures !r.isCommandMode && r.activeCommand.None? && r.commandSearchQuery == ""
    ensures PlainHintSpec(s, r) && r.results == s.results && r.selectedIndex == s.selectedIndex
    ensures ParseFilter(s.input).Some? ==> (StrictlySorted(r.autocompleteSuggestions) &&
      forall v :: v in r.autocompleteSuggestions ==>
        Qualifies(ParseFilter(s.input).value.0, s.allResources, Trim(ParseFilter(s.input).value.1), v))
  {
    var s1 := s.(isCommandMode := false, activeCommand := None, commandSearchQuery := "");
    match ParseFilter(s.input)
    case Some((t, raw)) =>
      var sug := PlainSuggestions(t, s.allResources, Trim(raw));
      PlainSuggestionsAscending(t, s.allResources, Trim(raw));
      PlainSuggestionsAllQualify(t, s.allResources, Trim(raw));
      s1.(autocompleteFilterType := Some(t), autocompleteSuggestions := sug,
          autocompleteSelectedIndex := Preselect(s.autocompleteSelectedIndex, sug))
    case None =>
      s1.(autocompleteSuggestions := [], autocompleteSelectedIndex := -1, autocompleteFilterType := None)
  }

  /**
   * `performSearch`: outside command mode the results become the search of
   * the filtered snapshot for the input, and the first result is selected.
   */
  function PerformSearch(s: PaletteState): (r: PaletteState)
    ensures r == s.(results := r.results, selectedIndex := r.selectedIndex)
    ensures s.isCommandMode ==> r == s
    ensures !s.isCommandMode ==> r.selectedIndex == 0
    ensures !s.isCommandMode ==> r.results == Search(KeepPassing(s.allResources, s.activeFilters), s.input)
  {
    if s.isCommandMode then s
    else s.(results := Search(KeepPassing(s.allResources, s.activeFilters), s.input), selectedIndex := 0)
  }

  /** Every listed result is an object of the snapshot that passes every active filter. */
  lemma SearchResultsPassFilters(s: PaletteState, k: nat)
    requires !s.isCommandMode && k < |PerformSearch(s).results|
    ensures var res := PerformSearch(s).results[k].resource;
      res in s.allResources && PassesAll(res, s.activeFilters)
  {
    var filtered := KeepPassing(s.allResources, s.activeFilters);
    var r := PerformSearch(s).results;
    var x: Resource;
    if s.input == "" {
      x := Take(filtered, MaxResults)[k];
      assert x in filtered;
    } else {
      var terms := QueryTerms(s.input);
      RankedEntries(filtered, terms);
      var ranked := RankedList(filtered, terms);
      x := filtered[ranked[k].pos];
    }
    assert r[k].resource == x;
    KeepPassingMembers(s.allResources, s.activeFilters, x);
  }

  /** `handleInput`: the hint, then the search (the debounce is collapsed). */
  function HandleInput(s: PaletteState): (r: PaletteState)
    ensures r.activeFilters == s.activeFilters && r.allResources == s.allResources && r.isOpen == s.isOpen
    ensures r.input == s.input && r.effects == s.effects && r.resourceCache == s.resourceCache
    ensures r.availableCommands == s.availableCommands && r.currentClusterId == s.currentClusterId
    ensures StartsWith(s.input, "/") ==> CommandHintSpec(s, r)
    ensures !StartsWith(s.input, "/") ==> (PlainHintSpec(s, r) && r.selectedIndex == 0 &&
      r.results == Search(KeepPassing(s.allResources, s.activeFilters), s.input))
  {
    PerformSearch(UpdateAutocompleteHint(s))
  }

  /**
   * `addFilter`: a pair already active changes nothing; otherwise it is
   * appended, the input and the suggestions are cleared, then the search and
   * the hint run.
   */
  function AddFilter(s: PaletteState, t: FilterType, v: string): (r: PaletteState)
    ensures r.activeFilters == WithFilter(s.activeFilters, Filter(t, v))
    ensures Filter(t, v) in s.activeFilters ==> r == s
    ensures Filter(t, v) !in s.activeFilters ==> r.input == "" && !r.isCommandMode && r.autocompleteSuggestions == []
    ensures Filter(t, v) !in s.activeFilters ==> r.autocompleteSelectedIndex == -1 && r.autocompleteFilterType.None?
    ensures Filter(t, v) !in s.activeFilters && !s.isCommandMode ==>
      r.results == Search(KeepPassing(s.allResources, s.activeFilters + [Filter(t, v)]), "") && r.selectedIndex == 0
    ensures Filter(t, v) !in s.activeFilters && s.isCommandMode ==> r.results == s.results
    ensures r.allResources == s.allResources && r.isOpen == s.isOpen && r.effects == s.effects
    ensures r.availableCommands == s.availableCommands && r.resourceCache == s.resourceCache
    ensures r.currentClusterId == s.currentClusterId
  {
    var f := Filter(t, v);
    if f in s.activeFilters then s
    else
      var s1 := s.(activeFilters := s.activeFilters + [f], input := "", autocompleteSuggestions := [],
                   autocompleteSelectedIndex := -1, autocompleteFilterType := None);
      UpdateAutocompleteHint(PerformSearch(s1))
  }

  /** `removeFilter`: every entry equal to the pair goes, then the search runs. */
  function RemoveFilter(s: PaletteState, t: FilterType, v: string): (r: PaletteState)
    ensures r.activeFilters == WithoutFilter(s.activeFilters, Filter(t, v))
    ensures Filter(t, v) !in r.activeFilters
    ensures r == PerformSearch(s.(activeFilters := r.activeFilters))
    ensures !s.isCommandMode ==> r.results == Search(KeepPassing(s.allResources, r.activeFilters), s.input) && r.selectedIndex == 0
    ensures s.isCommandMode ==> r.results == s.results && r.selectedIndex == s.selectedIndex
  {
    WithoutFilterInOrder(s.activeFilters, Filter(t, v));
    PerformSearch(s.(activeFilters := WithoutFilter(s.activeFilters, Filter(t, v))))
  }

  /**
   * `close`: hidden, input emptied, no results, first row selected, no
   * filters; command mode and the suggestions are left as they were.
   */
  function Close(s: PaletteState): (r: PaletteState)
    ensures !r.isOpen && r.input == "" && r.results == [] && r.selectedIndex == 0 && r.activeFilters == []
    ensures r.isCommandMode == s.isCommandMode && r.autocompleteSuggestions == s.autocompleteSuggestions
    ensures r.allResources == s.allResources && r.resourceCache == s.resourceCache && r.effects == s.effects
    ensures r.activeCommand == s.activeCommand && r.commandSearchQuery == s.commandSearchQuery
    ensures r.autocompleteSelectedIndex == s.autocompleteSelectedIndex && r.autocompleteFilterType == s.autocompleteFilterType
    ensures r.selectedCommandIndex == s.selectedCommandIndex && r.availableCommands == s.availableCommands
    ensures r.currentClusterId == s.currentClusterId
  {
    s.(isOpen := false, input := "", results := [], selectedIndex := 0, activeFilters := [])
  }

  /** `selectResult`: an existing result is opened and the palette closes; any other index does nothing. */
  function SelectResult(s: PaletteState, index: int): (r: PaletteState)
    ensures 0 <= index < |s.results| ==>
      !r.isOpen && r.effects == s.effects + NavigationEffects(s.results[index].resource)
    ensures !(0 <= index < |s.results|) ==> r == s
  {
    if 0 <= index < |s.results| then Close(s.(effects := s.effects + NavigationEffects(s.results[index].resource)))
    else s
  }

  /**
   * `executeCommandOnResource`: a target whose kind the active command does not
   * accept raises an alert and keeps the palette open; otherwise the command
   * runs on it and the palette closes.
   */
  function ExecuteCommandOnResource(s: PaletteState, target: Resource): (r: PaletteState)
    ensures s.activeCommand.None? ==> r == s
    ensures s.activeCommand.Some? && !KindAllowed(s.activeCommand.value, target.kind) ==>
      r == s.(effects := s.effects + [Alerted(WrongKind(s.activeCommand.value.resourceTypes.value))])
    ensures s.activeCommand.Some? && KindAllowed(s.activeCommand.value, target.kind) ==>
      !r.isOpen && r.effects == s.effects + ExecutionEffects(s.activeCommand.value, Some(target))
  {
    if s.activeCommand.None? then s
    else
      var c := s.activeCommand.value;
      if c.resourceTypes.Some? && target.kind !in c.resourceTypes.value then
        s.(effects := s.effects + [Alerted(WrongKind(c.resourceTypes.value))])
      else Close(s.(effects := s.effects + ExecutionEffects(c, Some(target))))
  }

  /**
   * The body of `executeCommand` once the command is found: a command that
   * needs a resource runs on the selected result. With no selection the
   * palette alerts and drops the command text; with a target of the wrong
   * kind it alerts and stays as it is.
   */
  function RunCommand(s: PaletteState, c: Command): (r: PaletteState)
    ensures c.requiresResource && !(0 <= s.selectedIndex < |s.results|) ==>
      r.effects == s.effects + [Alerted(NeedsSelection)] && r.input == "" && !r.isCommandMode && r.isOpen == s.isOpen
    ensures (c.requiresResource && 0 <= s.selectedIndex < |s.results| &&
      !KindAllowed(c, s.results[s.selectedIndex].resource.kind)) ==>
        r == s.(effects := s.effects + [Alerted(WrongKind(c.resourceTypes.value))])
    ensures (c.requiresResource && 0 <= s.selectedIndex < |s.results| &&
      KindAllowed(c, s.results[s.selectedIndex].resource.kind)) ==>
        !r.isOpen && r.effects == s.effects + ExecutionEffects(c, Some(s.results[s.selectedIndex].resource))
    ensures !c.requiresResource ==> !r.isOpen && r.effects == s.effects + ExecutionEffects(c, None)
  {
    if c.requiresResource then
      if !(0 <= s.selectedIndex < |s.results|) then
        HandleInput(s.(effects := s.effects + [Alerted(NeedsSelection)], input := "", isCommandMode := false))
      else
        var target := s.results[s.selectedIndex].resource;
        if c.resourceTypes.Some? && target.kind !in c.resourceTypes.value then
          s.(effects := s.effects + [Alerted(WrongKind(c.resourceTypes.value))])
        else Close(s.(effects := s.effects + ExecutionEffects(c, Some(target))))
    else Close(s.(effects := s.effects + ExecutionEffects(c, None)))
  }

  /** `executeCommand`: the `index`-th command of the filtered list runs; any other index does nothing. */
  function ExecuteCommand(s: PaletteState, index: int): (r: PaletteState)
    ensures var cmds := FilterCommands(s.availableCommands, s.input);
      0 <= index < |cmds| ==> r == RunCommand(s, cmds[index])
    ensures var cmds := FilterCommands(s.availableCommands, s.input);
      !(0 <= index < |cmds|) ==> r == s
  {
    var cmds := FilterCommands(s.availableCommands, s.input);
    if 0 <= index < |cmds| then RunCommand(s, cmds[index]) else s
  }

  /** The input replaced by `text`, then processed. */
  function Retyped(s: PaletteState, text: string): (r: PaletteState)
    ensures r.input == text && r.activeFilters == s.activeFilters && r.isOpen == s.isOpen
    ensures r.isCommandMode <==> StartsWith(text, "/")
  {
    HandleInput(s.(input := text))
  }

  /** `autocompleteCommand`: the selected command of the filtered list replaces the input as `/label`. */
  function AutocompleteCommand(s: PaletteState): (r: PaletteState)
    ensures var cmds := FilterCommands(s.availableCommands, s.input);
      0 <= s.selectedCommandIndex < |cmds| ==>
        r.input == "/" + cmds[s.selectedCommandIndex].labelText && r.isCommandMode && r.activeFilters == s.activeFilters
    ensures var cmds := FilterCommands(s.availableCommands, s.input);
      !(0 <= s.selectedCommandIndex < |cmds|) ==> r == s
  {
    match PickedCommandText(s)
    case Some(text) => Retyped(s, text)
    case None => s
  }

  /** `/label` for the selected command of the filtered list, when the index is in range. */
  function PickedCommandText(s: PaletteState): (r: Option<string>)
    ensures r.Some? ==> StartsWith(r.value, "/")
  {
    var cmds := FilterCommands(s.availableCommands, s.input);
    if 0 <= s.selectedCommandIndex < |cmds| then
      var text := "/" + cmds[s.selectedCommandIndex].labelText;
      assert text[..1] == "/";
      Some(text)
    else None
  }

  /** `autocompleteFilterName`: the first attribute name the input starts, if any, replaces it. */
  function AutocompleteFilterName(s: PaletteState): (r: PaletteState)
    ensures FilterNameCompletion(s.input).Some? ==>
      r.input in FilterPrefixes && r == HandleInput(s.(input := r.input))
    ensures FilterNameCompletion(s.input).None? ==> r == s
  {
    match FilterNameCompletion(s.input)
    case Some(text) => HandleInput(s.(input := text))
    case None => s
  }

  /** The keys the palette reacts to; every other key is `OtherKey`. */
  datatype Key = Tab | ArrowDown | ArrowUp | Enter | Escape | OtherKey

  /** The suggestion the index points at, when it points at a non-empty one. */
  predicate HasPick(s: PaletteState) {
    0 <= s.autocompleteSelectedIndex < |s.autocompleteSuggestions| && s.autocompleteFilterType.Some? &&
    s.autocompleteSuggestions[s.autocompleteSelectedIndex] != ""
  }

  /** Commits the picked suggestion as a filter. */
  function CommitPick(s: PaletteState): (r: PaletteState)
    requires HasPick(s)
  {
    AddFilter(s, s.autocompleteFilterType.value, s.autocompleteSuggestions[s.autocompleteSelectedIndex])
  }

  /** After a pick, the command word (if the input still starts with one) is typed back as `/word `. */
  function RetypeCommandWord(s: PaletteState): (r: PaletteState)
    ensures LeadingCommandToken(s.input).None? ==> r == s
    ensures LeadingCommandToken(s.input).Some? ==>
      r.input == "/" + LeadingCommandToken(s.input).value + " " && r.activeFilters == s.activeFilters
  {
    match LeadingCommandToken(s.input)
    case Some(word) =>
      HandleInput(s.(input := "/" + word + " ", commandSearchQuery := "", autocompleteFilterType := None,
                     autocompleteSuggestions := [], autocompleteSelectedIndex := -1))
    case None => s
  }

  /** Keys while a command shows attribute suggestions. */
  function CommandSuggestionKey(s: PaletteState, key: Key): (r: PaletteState)
    requires key != OtherKey
    ensures (key == Tab || key == ArrowDown) ==>
      r == s.(autocompleteSelectedIndex := StepDown(s.autocompleteSelectedIndex, |s.autocompleteSuggestions|))
    ensures key == ArrowUp ==> r == s.(autocompleteSelectedIndex := StepUp(s.autocompleteSelectedIndex))
    ensures key == Enter && !HasPick(s) ==> r == s
    ensures key == Escape ==> (!r.isCommandMode && r.input == "" && r.activeCommand.None? &&
      r.autocompleteSuggestions == [] && r.isOpen == s.isOpen && r.activeFilters == s.activeFilters &&
      r.results == Search(KeepPassing(s.allResources, s.activeFilters), ""))
  {
    match key
    case Tab => s.(autocompleteSelectedIndex := StepDown(s.autocompleteSelectedIndex, |s.autocompleteSuggestions|))
    case ArrowDown => s.(autocompleteSelectedIndex := StepDown(s.autocompleteSelectedIndex, |s.autocompleteSuggestions|))
    case ArrowUp => s.(autocompleteSelectedIndex := StepUp(s.autocompleteSelectedIndex))
    case Enter =>
      if HasPick(s) then RetypeCommandWord(CommitPick(s)) else s
    case Escape =>
      HandleInput(s.(input := "", isCommandMode := false, activeCommand := None, commandSearchQuery := "",
                     autocompleteFilterType := None, autocompleteSuggestions := [], autocompleteSelectedIndex := -1))
  }

  /** Keys while a command lists the resources it can run on. */
  function CommandResourceKey(s: PaletteState, key: Key): (r: PaletteState)
    requires key == Escape || key == ArrowDown || key == ArrowUp || key == Enter
    ensures key == Escape ==> (!r.isCommandMode && r.input == "" && r.activeCommand.None? &&
      r.isOpen == s.isOpen && r.activeFilters == s.activeFilters &&
      r.results == Search(KeepPassing(s.allResources, s.activeFilters), ""))
    ensures key == Enter && !(0 <= s.selectedIndex < |s.results|) ==> r == s
    ensures (key == ArrowDown || key == ArrowUp) ==> r.activeCommand == s.activeCommand && r.input == s.input
  {
    match key
    case Escape => HandleInput(s.(input := "", isCommandMode := false, activeCommand := None, commandSearchQuery := ""))
    case ArrowDown => RenderCommandResourceList(s.(selectedIndex := StepDown(s.selectedIndex, |s.results|)))
    case ArrowUp => RenderCommandResourceList(s.(selectedIndex := StepUp(s.selectedIndex)))
    case Enter =>
      if 0 <= s.selectedIndex < |s.results| then ExecuteCommandOnResource(s, s.results[s.selectedIndex].resource)
      else s
  }

  /** Keys while the command list is shown. */
  function CommandListKey(s: PaletteState, key: Key): (r: PaletteState)
    requires key != OtherKey
    ensures key == ArrowDown ==> r == s.(selectedCommandIndex := StepDown(s.selectedCommandIndex, |s.availableCommands|))
    ensures key == ArrowUp ==> r == s.(selectedCommandIndex := StepUp(s.selectedCommandIndex))
  {
    match key
    case Tab => AutocompleteCommand(s)
    case Escape => HandleInput(s.(input := "", isCommandMode := false))
    case ArrowDown => s.(selectedCommandIndex := StepDown(s.selectedCommandIndex, |s.availableCommands|))
    case ArrowUp => s.(selectedCommandIndex := StepUp(s.selectedCommandIndex))
    case Enter => ExecuteCommand(s, s.selectedCommandIndex)
  }

  /** Keys while attribute suggestions are shown outside command mode. */
  function SuggestionKey(s: PaletteState, key: Key): (r: PaletteState)
    requires key == Tab || key == Enter || key == Escape
    requires s.autocompleteSuggestions != []
    ensures key == Tab && s.autocompleteSelectedIndex >= -1 ==>
      r == s.(autocompleteSelectedIndex := r.autocompleteSelectedIndex) &&
      0 <= r.autocompleteSelectedIndex < |s.autocompleteSuggestions|
    ensures key == Enter && !HasPick(s) ==> r == s
    ensures key == Escape ==> !r.isOpen && r.input == "" && r.results == [] && r.activeFilters == []
  {
    match key
    case Tab => s.(autocompleteSelectedIndex := CycleNext(s.autocompleteSelectedIndex, |s.autocompleteSuggestions|))
    case Enter => if HasPick(s) then CommitPick(s) else s
    case Escape => Close(s)
  }

  /** Keys in plain result navigation. */
  function NavigationKey(s: PaletteState, key: Key): (r: PaletteState)
    ensures key == OtherKey ==> r == s
    ensures key == Escape ==> !r.isOpen && r.input == "" && r.results == [] && r.activeFilters == []
    ensures key == ArrowDown && 0 <= s.selectedIndex < |s.results| ==>
      r == s.(selectedIndex := r.selectedIndex) && 0 <= r.selectedIndex < |s.results|
    ensures key == ArrowUp ==> r == s.(selectedIndex := r.selectedIndex) && r.selectedIndex >= 0
    ensures key == Enter && 0 <= s.selectedIndex < |s.results| ==>
      !r.isOpen && r.effects == s.effects + NavigationEffects(s.results[s.selectedIndex].resource)
  {
    match key
    case Tab => AutocompleteFilterName(s)
    case Escape => Close(s)
    case ArrowDown => s.(selectedIndex := StepDown(s.selectedIndex, |s.results|))
    case ArrowUp => s.(selectedIndex := StepUp(s.selectedIndex))
    case Enter => SelectResult(s, s.selectedIndex)
    case OtherKey => s
  }

  /** Command mode with attribute suggestions on screen: the suggestion keys take over. */
  predicate ShowsCommandSuggestions(s: PaletteState) {
    s.isCommandMode && s.autocompleteFilterType.Some? && s.autocompleteSuggestions != []
  }

  /** Command mode with an active command and a query: the keys move through the command's resources. */
  predicate ListsCommandResources(s: PaletteState) {
    s.isCommandMode && s.activeCommand.Some? && s.commandSearchQuery != ""
  }

  /**
   * `handleKeyDown`: the first handler whose state applies and that knows the
   * key takes it; a key a handler does not know falls through to the next.
   */
  function HandleKeyDown(s: PaletteState, key: Key): (r: PaletteState)
    ensures key == OtherKey ==> r == s
  {
    if ShowsCommandSuggestions(s) && key != OtherKey then CommandSuggestionKey(s, key)
    else if ListsCommandResources(s) && (key == Escape || key == ArrowDown || key == ArrowUp || key == Enter) then
      CommandResourceKey(s, key)
    else if s.isCommandMode && !ListsCommandResources(s) && key != OtherKey then CommandListKey(s, key)
    else if s.autocompleteSuggestions != [] && (key == Tab || key == Enter || key == Escape) then SuggestionKey(s, key)
    else NavigationKey(s, key)
  }

  /**
   * `loadResources`: a cached snapshot for the current cluster is reused as
   * is; otherwise every planned store is listed, the snapshot is cached under
   * the cluster id, and the input is processed again.
   */
  function LoadResources(s: PaletteState, api: seq<Store>): (r: PaletteState)
    ensures s.currentClusterId.Some? && s.currentClusterId.value in s.resourceCache ==>
      r == s.(allResources := s.resourceCache[s.currentClusterId.value])
    ensures !(s.currentClusterId.Some? && s.currentClusterId.value in s.resourceCache) ==>
      r.allResources == Snapshot(Plan(api))
    ensures s.currentClusterId.Some? ==> r.resourceCache == s.resourceCache[s.currentClusterId.value := r.allResources]
    ensures s.currentClusterId.None? ==> r.resourceCache == s.resourceCache
    ensures r.activeFilters == s.activeFilters && r.isOpen == s.isOpen && r.effects == s.effects
    ensures r.currentClusterId == s.currentClusterId && r.availableCommands == s.availableCommands
  {
    if s.currentClusterId.Some? && s.currentClusterId.value in s.resourceCache then
      s.(allResources := s.resourceCache[s.currentClusterId.value])
    else
      var snapshot := Snapshot(Plan(api));
      var cache := if s.currentClusterId.Some? then s.resourceCache[s.currentClusterId.value := snapshot]
                   else s.resourceCache;
      HandleInput(s.(allResources := snapshot, resourceCache := cache))
  }

  /** `refreshResources`: in a cluster, drop its cached snapshot and load again. */
  function RefreshResources(s: PaletteState, api: seq<Store>): (r: PaletteState)
    ensures s.currentClusterId.None? ==> r == s
    ensures s.currentClusterId.Some? ==> (r.allResources == Snapshot(Plan(api)) &&
      r.resourceCache == s.resourceCache[s.currentClusterId.value := r.allResources])
  {
    if s.currentClusterId.Some? then
      var id := s.currentClusterId.value;
      var r := LoadResources(s.(resourceCache := s.resourceCache - {id}), api);
      assert (s.resourceCache - {id})[id := r.allResources] == s.resourceCache[id := r.allResources];
      r
    else s
  }

  /**
   * `open`: rebuild the commands, read the cluster id from the host name,
   * show the palette, and load the snapshot in a cluster (none outside one).
   */
  function Open(s: PaletteState, clusters: seq<ClusterEntity>, api: seq<Store>, host: string): (r: PaletteState)
    ensures r.isOpen && r.availableCommands == InitialCommands(clusters, api)
    ensures r.currentClusterId == ClusterIdFromHostname(host)
    ensures r.currentClusterId.None? ==> r.allResources == []
  {
    var s1 := s.(availableCommands := InitialCommands(clusters, api), currentClusterId := ClusterIdFromHostname(host),
                 isOpen := true);
    if s1.currentClusterId.Some? then LoadResources(s1, api) else s1.(allResources := [])
  }

  /** `toggle`: close an open palette, open a closed one. */
  function Toggle(s: PaletteState, clusters: seq<ClusterEntity>, api: seq<Store>, host: string): (r: PaletteState)
    ensures r.isOpen == !s.isOpen
  {
    if s.isOpen then Close(s) else Open(s, clusters, api, host)
  }

  // Every operation keeps `Valid`.

  lemma RenderCommandResourceListKeepsValid(s: PaletteState)
    requires Valid(s)
    ensures Valid(RenderCommandResourceList(s))
  {
  }

  lemma CommandHintKeepsValid(s: PaletteState)
    requires Valid(s)
    ensures Valid(CommandHint(s))
  {
    var parsed := ParseCommand(s.input);
    var found := if parsed.Some? then FindCommand(s.availableCommands, Lower(parsed.value.0)) else None;
    if parsed.Some? && found.Some? && ParseFilter(parsed.value.1).None? && parsed.value.1 != "" &&
       found.value.requiresResource {
      RenderCommandResourceListKeepsValid(
        s.(isCommandMode := true, activeCommand := found, commandSearchQuery := parsed.value.1,
           autocompleteFilterType := None, autocompleteSuggestions := [], autocompleteSelectedIndex := -1));
    }
  }

  lemma UpdateAutocompleteHintKeepsValid(s: PaletteState)
    requires Valid(s)
    ensures Valid(UpdateAutocompleteHint(s))
  {
    if StartsWith(s.input, "/") {
      CommandHintKeepsValid(s);
    }
  }

  lemma HandleInputKeepsValid(s: PaletteState)
    requires Valid(s)
    ensures Valid(HandleInput(s))
  {
    UpdateAutocompleteHintKeepsValid(s);
  }

  lemma AddFilterKeepsValid(s: PaletteState, t: FilterType, v: string)
    requires Valid(s)
    ensures Valid(AddFilter(s, t, v))
  {
    if Filter(t, v) !in s.activeFilters {
      var s1 := s.(activeFilters := s.activeFilters + [Filter(t, v)], input := "", autocompleteSuggestions := [],
                   autocompleteSelectedIndex := -1, autocompleteFilterType := None);
      assert Valid(s1);
      UpdateAutocompleteHintKeepsValid(PerformSearch(s1));
    }
  }

  lemma RemoveFilterKeepsValid(s: PaletteState, t: FilterType, v: string)
    requires Valid(s)
    ensures Valid(RemoveFilter(s, t, v))
  {
    WithoutFilterInOrder(s.activeFilters, Filter(t, v));
  }

  lemma SelectResultKeepsValid(s: PaletteState, index: int)
    requires Valid(s)
    ensures Valid(SelectResult(s, index))
  {
  }

  lemma ExecuteCommandOnResourceKeepsValid(s: PaletteState, target: Resource)
    requires Valid(s)
    ensures Valid(ExecuteCommandOnResource(s, target))
  {
  }

  lemma RunCommandKeepsValid(s: PaletteState, c: Command)
    requires Valid(s)
    ensures Valid(RunCommand(s, c))
  {
    if c.requiresResource && !(0 <= s.selectedIndex < |s.results|) {
      HandleInputKeepsValid(s.(effects := s.effects + [Alerted(NeedsSelection)], input := "", isCommandMode := false));
    }
  }

  lemma ExecuteCommandKeepsValid(s: PaletteState, index: int)
    requires Valid(s)
    ensures Valid(ExecuteCommand(s, index))
  {
    if 0 <= index < |FilterCommands(s.availableCommands, s.input)| {
      RunCommandKeepsValid(s, FilterCommands(s.availableCommands, s.input)[index]);
    }
  }

  lemma AutocompleteCommandKeepsValid(s: PaletteState)
    requires Valid(s)
    ensures Valid(AutocompleteCommand(s))
  {
    if PickedCommandText(s).Some? {
      RetypedKeepsValid(s, PickedCommandText(s).value);
    }
  }

  lemma RetypedKeepsValid(s: PaletteState, text: string)
    requires Valid(s)
    ensures Valid(Retyped(s, text))
  {
    HandleInputKeepsValid(s.(input := text));
  }

  lemma AutocompleteFilterNameKeepsValid(s: PaletteState)
    requires Valid(s)
    ensures Valid(AutocompleteFilterName(s))
  {
    if FilterNameCompletion(s.input).Some? {
      HandleInputKeepsValid(s.(input := FilterNameCompletion(s.input).value));
    }
  }

  lemma CommandSuggestionKeyKeepsValid(s: PaletteState, key: Key)
    requires Valid(s) && key != OtherKey
    ensures Valid(CommandSuggestionKey(s, key))
  {
    match key
    case Enter =>
      if HasPick(s) {
        AddFilterKeepsValid(s, s.autocompleteFilterType.value, s.autocompleteSuggestions[s.autocompleteSelectedIndex]);
        RetypeCommandWordKeepsValid(CommitPick(s));
      }
    case Escape =>
      HandleInputKeepsValid(s.(input := "", isCommandMode := false, activeCommand := None, commandSearchQuery := "",
                               autocompleteFilterType := None, autocompleteSuggestions := [], autocompleteSelectedIndex := -1));
    case _ =>
  }

  lemma RetypeCommandWordKeepsValid(s: PaletteState)
    requires Valid(s)
    ensures Valid(RetypeCommandWord(s))
  {
    if LeadingCommandToken(s.input).Some? {
      HandleInputKeepsValid(s.(input := "/" + LeadingCommandToken(s.input).value + " ", commandSearchQuery := "",
                               autocompleteFilterType := None, autocompleteSuggestions := [], autocompleteSelectedIndex := -1));
    }
  }

  lemma CommandResourceKeyKeepsValid(s: PaletteState, key: Key)
    requires Valid(s) && (key == Escape || key == ArrowDown || key == ArrowUp || key == Enter)
    ensures Valid(CommandResourceKey(s, key))
  {
    match key
    case Escape => HandleInputKeepsValid(s.(input := "", isCommandMode := false, activeCommand := None, commandSearchQuery := ""));
    case ArrowDown => RenderCommandResourceListKeepsValid(s.(selectedIndex := StepDown(s.selectedIndex, |s.results|)));
    case ArrowUp => RenderCommandResourceListKeepsValid(s.(selectedIndex := StepUp(s.selectedIndex)));
    case Enter =>
  }

  lemma CommandListKeyKeepsValid(s: PaletteState, key: Key)
    requires Valid(s) && key != OtherKey
    ensures Valid(CommandListKey(s, key))
  {
    match key
    case Tab => AutocompleteCommandKeepsValid(s);
    case Escape => HandleInputKeepsValid(s.(input := "", isCommandMode := false));
    case Enter => ExecuteCommandKeepsValid(s, s.selectedCommandIndex);
    case _ =>
  }

  lemma SuggestionKeyKeepsValid(s: PaletteState, key: Key)
    requires Valid(s) && (key == Tab || key == Enter || key == Escape) && s.autocompleteSuggestions != []
    ensures Valid(SuggestionKey(s, key))
  {
    if key == Enter && HasPick(s) {
      AddFilterKeepsValid(s, s.autocompleteFilterType.value, s.autocompleteSuggestions[s.autocompleteSelectedIndex]);
    }
  }

  lemma NavigationKeyKeepsValid(s: PaletteState, key: Key)
    requires Valid(s)
    ensures Valid(NavigationKey(s, key))
  {
    if key == Tab {
      AutocompleteFilterNameKeepsValid(s);
    }
  }

  lemma HandleKeyDownKeepsValid(s: PaletteState, key: Key)
    requires Valid(s)
    ensures Valid(HandleKeyDown(s, key))
  {
    if ShowsCommandSuggestions(s) && key != OtherKey {
      CommandSuggestionKeyKeepsValid(s, key);
    } else if ListsCommandResources(s) && (key == Escape || key == ArrowDown || key == ArrowUp || key == Enter) {
      CommandResourceKeyKeepsValid(s, key);
    } else if s.isCommandMode && !ListsCommandResources(s) && key != OtherKey {
      CommandListKeyKeepsValid(s, key);
    } else if s.autocompleteSuggestions != [] && (key == Tab || key == Enter || key == Escape) {
      SuggestionKeyKeepsValid(s, key);
    } else {
      NavigationKeyKeepsValid(s, key);
    }
  }

  lemma LoadResourcesKeepsValid(s: PaletteState, api: seq<Store>)
    requires Valid(s)
    ensures Valid(LoadResources(s, api))
  {
    if !(s.currentClusterId.Some? && s.currentClusterId.value in s.resourceCache) {
      var snapshot := Snapshot(Plan(api));
      var cache := if s.currentClusterId.Some? then s.resourceCache[s.currentClusterId.value := snapshot]
                   else s.resourceCache;
      HandleInputKeepsValid(s.(allResources := snapshot, resourceCache := cache));
    }
  }

  lemma RefreshResourcesKeepsValid(s: PaletteState, api: seq<Store>)
    requires Valid(s)
    ensures Valid(RefreshResources(s, api))
  {
    if s.currentClusterId.Some? {
      LoadResourcesKeepsValid(s.(resourceCache := s.resourceCache - {s.currentClusterId.value}), api);
    }
  }

  lemma OpenKeepsValid(s: PaletteState, clusters: seq<ClusterEntity>, api: seq<Store>, host: string)
    requires Valid(s)
    ensures Valid(Open(s, clusters, api, host))
  {
    var s1 := s.(availableCommands := InitialCommands(clusters, api), currentClusterId := ClusterIdFromHostname(host),
                 isOpen := true);
    if s1.currentClusterId.Some? {
      LoadResourcesKeepsValid(s1, api);
    }
  }

  lemma ToggleKeepsValid(s: PaletteState, clusters: seq<ClusterEntity>, api: seq<Store>, host: string)
    requires Valid(s)
    ensures Valid(Toggle(s, clusters, api, host))
  {
    if !s.isOpen {
      OpenKeepsValid(s, clusters, api, host);
    }
  }


  /** Committing a pair twice is committing it once. */
  lemma AddFilterIdempotent(s: PaletteState, t: FilterType, v: string)
    ensures AddFilter(AddFilter(s, t, v), t, v) == AddFilter(s, t, v)
  {
    assert Filter(t, v) in AddFilter(s, t, v).activeFilters;
  }

  /** Removing a freshly committed pair gives back the filters active before. */
  lemma RemoveUndoesAddFilter(s: PaletteState, t: FilterType, v: string)
    requires Filter(t, v) !in s.activeFilters
    ensures RemoveFilter(AddFilter(s, t, v), t, v).activeFilters == s.activeFilters
  {
    RemoveUndoesAdd(s.activeFilters, Filter(t, v));
  }

  /** Outside command mode, Escape closes the palette and drops the filters. */
  lemma EscapeClosesPalette(s: PaletteState)
    requires !s.isCommandMode
    ensures var r := HandleKeyDown(s, Escape);
      !r.isOpen && r.input == "" && r.activeFilters == [] && r.results == []
  {
  }

  /** In command mode, Escape leaves command mode with an empty input and the palette open. */
  lemma EscapeLeavesCommandMode(s: PaletteState)
    requires s.isCommandMode
    ensures var r := HandleKeyDown(s, Escape);
      r.isOpen == s.isOpen && !r.isCommandMode && r.input == "" && r.activeCommand.None? &&
      r.activeFilters == s.activeFilters
  {
    assert !StartsWith("", "/");
  }

  /** Outside command mode ArrowDown moves the selection one row down, stopping at the last result. */
  lemma ArrowDownStaysOnResults(s: PaletteState)
    requires !s.isCommandMode && 0 <= s.selectedIndex < |s.results|
    ensures var r := HandleKeyDown(s, ArrowDown);
      r.results == s.results && 0 <= r.selectedIndex < |r.results| &&
      (r.selectedIndex == s.selectedIndex + 1 || r.selectedIndex == s.selectedIndex == |s.results| - 1)
  {
  }

  /** On an empty result list ArrowDown sets the selection to -1 (`Math.min(i + 1, -1)`). */
  lemma ArrowDownOnEmptyResults(s: PaletteState)
    requires !s.isCommandMode && s.results == [] && s.selectedIndex >= -1
    ensures HandleKeyDown(s, ArrowDown) == s.(selectedIndex := -1)
  {
  }

  /**
   * In the command list ArrowDown stops at the last of ALL commands, not the
   * last of the ones the typed query leaves on screen; nothing else changes.
   */
  lemma CommandListArrowDownClampsOnAllCommands(s: PaletteState)
    requires s.isCommandMode && !ShowsCommandSuggestions(s) && !ListsCommandResources(s)
    requires 0 <= s.selectedCommandIndex
    ensures var r := HandleKeyDown(s, ArrowDown);
      r == s.(selectedCommandIndex := r.selectedCommandIndex) &&
      (if s.selectedCommandIndex + 1 <= |s.availableCommands| - 1 then r.selectedCommandIndex == s.selectedCommandIndex + 1
       else r.selectedCommandIndex == |s.availableCommands| - 1)
  {
  }

  /**
   * While a command lists its candidates, ArrowDown and ArrowUp re-render the
   * list, which selects its first row again whenever there are candidates.
   */
  lemma CommandResourceArrowsReset(s: PaletteState, key: Key)
    requires ListsCommandResources(s) && !ShowsCommandSuggestions(s)
    requires key == ArrowDown || key == ArrowUp
    requires CommandCandidates(s) != []
    ensures var r := HandleKeyDown(s, key);
      r.selectedIndex == 0 && r.results == Unscored(CommandCandidates(s))
  {
  }

  /** Outside command mode ArrowUp moves the selection one row up, stopping at the first result. */
  lemma ArrowUpStaysOnResults(s: PaletteState)
    requires !s.isCommandMode && 0 <= s.selectedIndex < |s.results|
    ensures var r := HandleKeyDown(s, ArrowUp);
      r.results == s.results && 0 <= r.selectedIndex < |r.results| &&
      (r.selectedIndex == s.selectedIndex - 1 || r.selectedIndex == s.selectedIndex == 0)
  {
  }

  /** With suggestions shown outside command mode, Tab moves to the next one, wrapping from the last to the first. */
  lemma TabCyclesSuggestions(s: PaletteState)
    requires Valid(s) && !s.isCommandMode && s.autocompleteSuggestions != []
    ensures var r := HandleKeyDown(s, Tab);
      r.autocompleteSuggestions == s.autocompleteSuggestions &&
      0 <= r.autocompleteSelectedIndex < |r.autocompleteSuggestions| &&
      (s.autocompleteSelectedIndex == |s.autocompleteSuggestions| - 1 ==> r.autocompleteSelectedIndex == 0)
  {
  }

  /** With no suggestions shown, Enter opens the selected result and closes the palette. */
  lemma EnterOpensSelection(s: PaletteState)
    requires !s.isCommandMode && s.autocompleteSuggestions == [] && 0 <= s.selectedIndex < |s.results|
    ensures var r := HandleKeyDown(s, Enter);
      !r.isOpen && r.effects == s.effects + NavigationEffects(s.results[s.selectedIndex].resource)
  {
  }

  /** Outside command mode, Enter on a picked suggestion makes it an active filter. */
  lemma EnterCommitsSuggestion(s: PaletteState)
    requires !s.isCommandMode && HasPick(s)
    ensures HandleKeyDown(s, Enter).activeFilters ==
      WithFilter(s.activeFilters, Filter(s.autocompleteFilterType.value, s.autocompleteSuggestions[s.autocompleteSelectedIndex]))
  {
  }

  /**
   * Committing a new suggestion under a command (`/logs kind:` then Enter)
   * adds the filter but leaves command mode with an empty input: the filter
   * commit clears the input before the command word could be read back.
   */
  lemma CommandSuggestionCommitLeavesCommandMode(s: PaletteState)
    requires ShowsCommandSuggestions(s) && HasPick(s)
    requires Filter(s.autocompleteFilterType.value, s.autocompleteSuggestions[s.autocompleteSelectedIndex]) !in s.activeFilters
    ensures var r := HandleKeyDown(s, Enter);
      r.input == "" && !r.isCommandMode && r.isOpen == s.isOpen &&
      r.activeFilters == s.activeFilters + [Filter(s.autocompleteFilterType.value, s.autocompleteSuggestions[s.autocompleteSelectedIndex])]
  {
    var f := Filter(s.autocompleteFilterType.value, s.autocompleteSuggestions[s.autocompleteSelectedIndex]);
    assert CommitPick(s).input == "";
  }

  /** Picking a suggestion that is already an active filter puts back `/word ` and keeps the filters. */
  lemma CommandSuggestionRepickRefills(s: PaletteState, word: string)
    requires ShowsCommandSuggestions(s) && HasPick(s)
    requires Filter(s.autocompleteFilterType.value, s.autocompleteSuggestions[s.autocompleteSelectedIndex]) in s.activeFilters
    requires LeadingCommandToken(s.input) == Some(word)
    ensures var r := HandleKeyDown(s, Enter);
      r.input == "/" + word + " " && r.isCommandMode && r.activeFilters == s.activeFilters
  {
    assert CommitPick(s) == s;
    assert StartsWith("/" + word + " ", "/");
  }

  /** In the command list, Enter runs the selected command of the filtered list. */
  lemma EnterRunsSelectedCommand(s: PaletteState)
    requires s.isCommandMode && !ShowsCommandSuggestions(s) && !ListsCommandResources(s)
    ensures HandleKeyDown(s, Enter) == ExecuteCommand(s, s.selectedCommandIndex)
  {
  }

  /** While a command lists resources, Enter runs it on the selected one. */
  lemma EnterRunsCommandOnSelection(s: PaletteState)
    requires ListsCommandResources(s) && !ShowsCommandSuggestions(s) && 0 <= s.selectedIndex < |s.results|
    requires KindAllowed(s.activeCommand.value, s.results[s.selectedIndex].resource.kind)
    ensures var r := HandleKeyDown(s, Enter);
      !r.isOpen && r.effects == s.effects + ExecutionEffects(s.activeCommand.value, Some(s.results[s.selectedIndex].resource))
  {
  }

  /** `describe` on a resource does what selecting that resource as a result does. */
  lemma DescribeIsSelect(s: PaletteState, k: nat)
    requires k < |s.results|
    ensures ExecuteCommandOnResource(s.(activeCommand := Some(DescribeCommand)), s.results[k].resource).effects ==
      SelectResult(s, k).effects
  {
  }

  /** A resource command with nothing selected raises the selection alert. */
  lemma ResourceCommandNeedsSelection(s: PaletteState, index: int)
    requires var cmds := FilterCommands(s.availableCommands, s.input);
      0 <= index < |cmds| && cmds[index].requiresResource && s.results == []
    ensures ExecuteCommand(s, index).effects == s.effects + [Alerted(NeedsSelection)]
  {
  }

  /** Loading again in the same cluster reuses the cached snapshot, whatever the API now holds. */
  lemma SecondLoadUsesCache(s: PaletteState, api: seq<Store>, later: seq<Store>)
    requires s.currentClusterId.Some?
    ensures LoadResources(LoadResources(s, api), later).allResources == LoadResources(s, api).allResources
  {
  }

  /** Refreshing lists the API again even when the cluster's snapshot is cached. */
  lemma RefreshBypassesCache(s: PaletteState, api: seq<Store>, later: seq<Store>)
    requires s.currentClusterId.Some?
    ensures RefreshResources(LoadResources(s, api), later).allResources == Snapshot(Plan(later))
  {
  }

  /** `/word query`, one blank between, with a query that starts with a non-blank: the word and the query. */
  lemma WordBlankQueryParses(w: string, q: string)
    requires |w| > 0 && AllWordChars(w) && q != [] && !IsSpace(q[0]) && NoLineTerminator(q)
    ensures ParseCommand("/" + w + " " + q) == Some((w, q))
  {
    assert "/" + w + " " + q == "/" + w + (" " + q);
    assert (" " + q)[0] == ' ';
    ParseCommandSplit(w, " " + q);
    QueryAfterBlanks(" ", q);
  }

  /**
   * A free-text query after a command that needs a resource lists that
   * command's candidates, with the query as the command query.
   */
  lemma CommandQueryListsResources(s: PaletteState, w: string, q: string, c: Command)
    requires |w| > 0 && AllWordChars(w) && q != [] && !IsSpace(q[0]) && NoLineTerminator(q)
    requires s.input == "/" + w + " " + q && ParseFilter(q).None?
    requires FindCommand(s.availableCommands, Lower(w)) == Some(c) && c.requiresResource
    ensures var r := HandleInput(s);
      ListsCommandResources(r) && r.activeCommand == Some(c) && r.commandSearchQuery == q && !ShowsCommandSuggestions(r)
  {
    WordBlankQueryParses(w, q);
    assert TypedCommand(s) == Some(c) && TypedQuery(s) == q;
    assert CommandHintSpec(s, HandleInput(s));
  }

  /**
   * A filter after a known command offers that command's suggestions for the
   * trimmed value; the suggestion keys take over exactly when there are some.
   */
  lemma CommandFilterShowsSuggestions(s: PaletteState, w: string, q: string, c: Command)
    requires |w| > 0 && AllWordChars(w) && q != [] && !IsSpace(q[0]) && NoLineTerminator(q)
    requires s.input == "/" + w + " " + q && ParseFilter(q).Some?
    requires FindCommand(s.availableCommands, Lower(w)) == Some(c)
    ensures var r := HandleInput(s);
      var sug := CommandSuggestions(c, ParseFilter(q).value.0, s.allResources, Trim(ParseFilter(q).value.1));
      r.activeCommand == Some(c) && r.autocompleteFilterType == Some(ParseFilter(q).value.0) &&
      r.autocompleteSuggestions == sug && (ShowsCommandSuggestions(r) <==> sug != [])
  {
    WordBlankQueryParses(w, q);
    assert TypedCommand(s) == Some(c) && TypedQuery(s) == q;
    assert CommandHintSpec(s, HandleInput(s));
  }

  /** Typing `/logs web`, with `logs` answering to the logs command, lists the pods matching `web`. */
  lemma LogsQueryListsResources(s: PaletteState)
    requires s.input == "/logs web" && FindCommand(s.availableCommands, "logs") == Some(LogsCommand)
    ensures var r := HandleInput(s);
      ListsCommandResources(r) && r.activeCommand == Some(LogsCommand) && r.commandSearchQuery == "web"
  {
    LogsWebText();
    CommandQueryListsResources(s, "logs", "web", LogsCommand);
  }

  /** Typing `/logs kind:` offers `Pod`, the one kind the logs command accepts. */
  lemma LogsKindShowsPod(s: PaletteState)
    requires s.input == "/logs kind:" && FindCommand(s.availableCommands, "logs") == Some(LogsCommand)
    ensures var r := HandleInput(s);
      ShowsCommandSuggestions(r) && r.autocompleteSuggestions == ["Pod"]
  {
    LogsKindText();
    KindPrefixText();
    LogsKindSuggestion(s.allResources);
    CommandFilterShowsSuggestions(s, "logs", "kind:", LogsCommand);
  }

  lemma LogsWebText()
    ensures "/logs web" == "/" + "logs" + " " + "web" && Lower("logs") == "logs"
    ensures AllWordChars("logs") && NoLineTerminator("web") && ParseFilter("web").None?
  {
  }

  lemma LogsKindText()
    ensures "/logs kind:" == "/" + "logs" + " " + "kind:" && Lower("logs") == "logs"
    ensures AllWordChars("logs") && NoLineTerminator("kind:")
  {
  }

  lemma KindPrefixText()
    ensures ParseFilter("kind:") == Some((KindFilter, "")) && Trim("") == "" && !StartsWith("kind:", "/")
  {
    assert "kind:"[0] != '/';
  }

  /** A bare slash shows the command list. */
  lemma BareSlashShowsCommandList(s: PaletteState)
    requires s.input == "/"
    ensures var r := HandleInput(s);
      ShowsCommandList(r) && r.results == s.results
  {
    assert ParseCommand("/").None?;
  }

  /** Typing `kind:` outside command mode offers the snapshot's kinds, sorted, ten at most. */
  lemma KindPrefixShowsKinds(s: PaletteState)
    requires s.input == "kind:"
    ensures var r := HandleInput(s);
      !r.isCommandMode && r.autocompleteFilterType == Some(KindFilter) &&
      r.autocompleteSuggestions == PlainSuggestions(KindFilter, s.allResources, "") &&
      StrictlySorted(r.autocompleteSuggestions) && |r.autocompleteSuggestions| <= ListCap
  {
    KindPrefixText();
    PlainSuggestionsAscending(KindFilter, s.allResources, "");
    assert PlainHintSpec(s, HandleInput(s));
  }
}
