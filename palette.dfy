/**
 * The palette object: the fields `KMenuPalette` updates in place, and its
 * operations as methods that change them step by step. Each method is proved
 * to leave the fields in the state the function of the same name in `States`
 * gives for the state before the call.
 */
module Palette {
  import opened Optional
  import opened Text
  import opened Resources
  import opened Effects
  import opened Routing
  import opened Commands
  import opened Parse
  import opened Suggestions
  import opened Ranker
  import opened Loader
  import opened States

  class KMenuPalette {
    var isOpen: bool
    var input: string
    var selectedIndex: int
    var results: seq<SearchResult>
    var allResources: seq<Resource>
    var activeFilters: seq<Filter>
    var autocompleteSuggestions: seq<string>
    var autocompleteSelectedIndex: int
    var autocompleteFilterType: Option<FilterType>
    var isCommandMode: bool
    var availableCommands: seq<Command>
    var selectedCommandIndex: int
    var activeCommand: Option<Command>
    var commandSearchQuery: string
    var resourceCache: map<string, seq<Resource>>
    var currentClusterId: Option<string>
    var effects: seq<Effect>

    /** The fields, as one value. */
    function State(): PaletteState
      reads this
    {
      PaletteState(isOpen, input, selectedIndex, results, allResources, activeFilters, autocompleteSuggestions,
                   autocompleteSelectedIndex, autocompleteFilterType, isCommandMode, availableCommands,
                   selectedCommandIndex, activeCommand, commandSearchQuery, resourceCache, currentClusterId, effects)
    }

    predicate Valid()
      reads this
    {
      States.Valid(State())
    }

    constructor()
      ensures State() == Initial && Valid()
    {
      isOpen := false;
      input := "";
      selectedIndex := 0;
      results := [];
      allResources := [];
      activeFilters := [];
      autocompleteSuggestions := [];
      autocompleteSelectedIndex := -1;
      autocompleteFilterType := None;
      isCommandMode := false;
      availableCommands := [];
      selectedCommandIndex := 0;
      activeCommand := None;
      commandSearchQuery := "";
      resourceCache := map[];
      currentClusterId := None;
      effects := [];
    }

    /** New results, the first one selected. */
    method ShowResults(rs: seq<SearchResult>)
      modifies this
      ensures State() == old(State()).(results := rs, selectedIndex := 0)
    {
      results := rs;
      selectedIndex := 0;
    }

    /** The command the input names, and the query typed after it. */
    method SetActiveCommand(command: Option<Command>, query: string)
      modifies this
      ensures State() == old(State()).(activeCommand := command, commandSearchQuery := query)
    {
      activeCommand := command;
      commandSearchQuery := query;
    }

    /** The attribute being completed and the values offered for it. */
    method SetSuggestions(t: Option<FilterType>, suggestions: seq<string>)
      modifies this
      ensures State() == old(State()).(autocompleteFilterType := t, autocompleteSuggestions := suggestions)
    {
      autocompleteFilterType := t;
      autocompleteSuggestions := suggestions;
    }

    /** No attribute being completed, no suggestion offered or selected. */
    method ClearSuggestions()
      modifies this
      ensures State() == old(State()).(autocompleteFilterType := None, autocompleteSuggestions := [],
                                       autocompleteSelectedIndex := -1)
    {
      SetSuggestions(None, []);
      autocompleteSelectedIndex := -1;
    }

    /** An alert for the user joins the effects. */
    method Alert(reason: AlertReason)
      modifies this
      ensures State() == old(State()).(effects := old(effects) + [Alerted(reason)])
    {
      effects := effects + [Alerted(reason)];
    }

    method RenderCommandResourceList()
      modifies this
      ensures State() == States.RenderCommandResourceList(old(State()))
    {
      if activeCommand.None? {
        return;
      }
      var candidates := ResourceCandidates(allResources, activeFilters, activeCommand.value, commandSearchQuery);
      if candidates == [] {
        return;
      }
      ShowResults(Unscored(candidates));
    }

    method UpdateAutocompleteHint()
      modifies this
      ensures State() == States.UpdateAutocompleteHint(old(State()))
    {
      if StartsWith(input, "/") {
        UpdateCommandHint();
      } else {
        UpdatePlainHint();
      }
    }

    /** The command-mode branch of `updateAutocompleteHint`. */
    method UpdateCommandHint()
      modifies this
      ensures State() == States.CommandHint(old(State()))
    {
      ghost var s := State();
      var parsed := ParseCommand(input);
      var matching := if parsed.Some? then FindCommand(availableCommands, Lower(parsed.value.0)) else None;
      if parsed.Some? && matching.Some? {
        var command := matching.value;
        var searchQuery := parsed.value.1;
        var filterMatch := ParseFilter(searchQuery);
        if filterMatch.Some? {
          var (t, raw) := filterMatch.value;
          var suggestions := CommandSuggestions(command, t, allResources, Trim(raw));
          CommandHintOffersCase(s, command, t, raw);
          isCommandMode := true;
          activeCommand := Some(command);
          OfferSuggestions(t, suggestions);
          return;
        }
        if searchQuery != "" && command.requiresResource {
          CommandHintListsCase(s, command);
          ListCommandResources(command, searchQuery);
          return;
        }
      }
      CommandHintListCase(s);
      isCommandMode := true;
      SetActiveCommand(None, "");
      ClearSuggestions();
    }

    /** A command with a free-text query: its candidate resources become the results. */
    method ListCommandResources(command: Command, query: string)
      modifies this
      ensures State() == States.RenderCommandResourceList(old(State()).(isCommandMode := true,
        activeCommand := Some(command), commandSearchQuery := query, autocompleteFilterType := None,
        autocompleteSuggestions := [], autocompleteSelectedIndex := -1))
    {
      isCommandMode := true;
      SetActiveCommand(Some(command), query);
      ClearSuggestions();
      RenderCommandResourceList();
    }

    /** The plain branch of `updateAutocompleteHint`. */
    method UpdatePlainHint()
      modifies this
      ensures State() == States.PlainHint(old(State()))
    {
      ghost var s := State();
      var filterMatch := ParseFilter(input);
      if filterMatch.Some? {
        var (t, raw) := filterMatch.value;
        var suggestions := PlainSuggestions(t, allResources, Trim(raw));
        assert States.PlainHint(s) == s.(isCommandMode := false, activeCommand := None, commandSearchQuery := "",
          autocompleteFilterType := Some(t), autocompleteSuggestions := suggestions,
          autocompleteSelectedIndex := Preselect(s.autocompleteSelectedIndex, suggestions));
        isCommandMode := false;
        SetActiveCommand(None, "");
        OfferSuggestions(t, suggestions);
      } else {
        assert States.PlainHint(s) == s.(isCommandMode := false, activeCommand := None, commandSearchQuery := "",
          autocompleteSuggestions := [], autocompleteSelectedIndex := -1, autocompleteFilterType := None);
        isCommandMode := false;
        SetActiveCommand(None, "");
        ClearSuggestions();
      }
    }

    /** Values offered for attribute `t`; the first is preselected when none was. */
    method OfferSuggestions(t: FilterType, suggestions: seq<string>)
      modifies this
      ensures State() == old(State()).(autocompleteFilterType := Some(t), autocompleteSuggestions := suggestions,
        autocompleteSelectedIndex := Preselect(old(autocompleteSelectedIndex), suggestions))
    {
      SetSuggestions(Some(t), suggestions);
      if autocompleteSelectedIndex == -1 && |suggestions| > 0 {
        autocompleteSelectedIndex := 0;
      }
    }

    method PerformSearch()
      modifies this
      ensures State() == States.PerformSearch(old(State()))
    {
      if isCommandMode {
        return;
      }
      var filtered := NarrowByFilters(allResources, activeFilters);
      ShowResults(Search(filtered, input));
    }

    method HandleInput()
      modifies this
      ensures State() == States.HandleInput(old(State()))
    {
      UpdateAutocompleteHint();
      PerformSearch();
    }

    method AddFilter(t: FilterType, v: string)
      modifies this
      ensures State() == States.AddFilter(old(State()), t, v)
    {
      ghost var s := State();
      if Filter(t, v) in activeFilters {
        return;
      }
      activeFilters := activeFilters + [Filter(t, v)];
      input := "";
      ClearSuggestions();
      ghost var s1 := State();
      assert s1 == s.(activeFilters := s.activeFilters + [Filter(t, v)], input := "", autocompleteSuggestions := [],
                      autocompleteSelectedIndex := -1, autocompleteFilterType := None);
      PerformSearch();
      UpdateAutocompleteHint();
      assert State() == States.UpdateAutocompleteHint(States.PerformSearch(s1));
    }

    method RemoveFilter(t: FilterType, v: string)
      modifies this
      ensures State() == States.RemoveFilter(old(State()), t, v)
    {
      activeFilters := WithoutFilter(activeFilters, Filter(t, v));
      PerformSearch();
    }

    method Close()
      modifies this
      ensures State() == States.Close(old(State()))
    {
      isOpen := false;
      input := "";
      ShowResults([]);
      activeFilters := [];
    }

    method SelectResult(index: int)
      modifies this
      ensures State() == States.SelectResult(old(State()), index)
    {
      if !(0 <= index < |results|) {
        return;
      }
      effects := effects + NavigationEffects(results[index].resource);
      Close();
    }

    method ExecuteCommandOnResource(target: Resource)
      modifies this
      ensures State() == States.ExecuteCommandOnResource(old(State()), target)
    {
      if activeCommand.None? {
        return;
      }
      var command := activeCommand.value;
      if command.resourceTypes.Some? && target.kind !in command.resourceTypes.value {
        Alert(WrongKind(command.resourceTypes.value));
        return;
      }
      effects := effects + ExecutionEffects(command, Some(target));
      Close();
    }

    method ExecuteCommand(index: int)
      modifies this
      ensures State() == States.ExecuteCommand(old(State()), index)
    {
      ghost var s := State();
      var filtered := FilterCommands(availableCommands, input);
      if !(0 <= index < |filtered|) {
        return;
      }
      assert States.ExecuteCommand(s, index) == States.RunCommand(s, filtered[index]);
      RunCommand(filtered[index]);
    }

    /** The body of `executeCommand` once the command is found. */
    method RunCommand(command: Command)
      modifies this
      ensures State() == States.RunCommand(old(State()), command)
    {
      ghost var s := State();
      if command.requiresResource {
        if !(0 <= selectedIndex < |results|) {
          AlertNoSelection(command);
          return;
        }
        var target := results[selectedIndex].resource;
        if command.resourceTypes.Some? && target.kind !in command.resourceTypes.value {
          Alert(WrongKind(command.resourceTypes.value));
          return;
        }
        effects := effects + ExecutionEffects(command, Some(target));
      } else {
        effects := effects + ExecutionEffects(command, None);
      }
      Close();
    }

    /** A command that needs a resource, run with no result selected: the user is told, and command mode ends. */
    method AlertNoSelection(command: Command)
      requires command.requiresResource && !(0 <= selectedIndex < |results|)
      modifies this
      ensures State() == States.RunCommand(old(State()), command)
    {
      ghost var r := State().(effects := effects + [Alerted(NeedsSelection)], input := "", isCommandMode := false);
      Alert(NeedsSelection);
      input := "";
      isCommandMode := false;
      assert State() == r;
      HandleInput();
    }

    method AutocompleteCommand()
      modifies this
      ensures State() == States.AutocompleteCommand(old(State()))
    {
      var picked := States.PickedCommandText(State());
      if picked.Some? {
        Retype(picked.value);
      }
    }

    /** The input replaced by `text`, then processed as if typed. */
    method Retype(text: string)
      modifies this
      ensures State() == States.Retyped(old(State()), text)
    {
      ghost var s := State();
      input := text;
      assert State() == s.(input := text);
      HandleInput();
    }

    method AutocompleteFilterName()
      modifies this
      ensures State() == States.AutocompleteFilterName(old(State()))
    {
      ghost var s := State();
      var completion := FilterNameCompletion(input);
      if completion.Some? {
        assert States.AutocompleteFilterName(s) == States.HandleInput(s.(input := completion.value));
        input := completion.value;
        assert State() == s.(input := completion.value);
        HandleInput();
      }
    }

    /**
     * The handlers of `handleKeyDown`, tried in the source's order: command
     * suggestions, a command's resource list, the command list, suggestions,
     * then plain navigation. A handler that does not know the key lets it
     * fall through to the next one.
     */
    method HandleKeyDown(key: Key)
      requires Valid()
      modifies this
      ensures State() == States.HandleKeyDown(old(State()), key)
      ensures Valid()
    {
      HandleKeyDownKeepsValid(State(), key);
      if States.ShowsCommandSuggestions(State()) && key != OtherKey {
        CommandSuggestionKey(key);
      } else if States.ListsCommandResources(State()) &&
                (key == Escape || key == ArrowDown || key == ArrowUp || key == Enter) {
        CommandResourceKey(key);
      } else if isCommandMode && !States.ListsCommandResources(State()) && key != OtherKey {
        CommandListKey(key);
      } else if |autocompleteSuggestions| > 0 && (key == Tab || key == Enter || key == Escape) {
        SuggestionKey(key);
      } else {
        NavigationKey(key);
      }
    }

    method CommandSuggestionKey(key: Key)
      requires key != OtherKey
      modifies this
      ensures State() == States.CommandSuggestionKey(old(State()), key)
    {
      match key {
        case Tab =>
          autocompleteSelectedIndex := StepDown(autocompleteSelectedIndex, |autocompleteSuggestions|);
        case ArrowDown =>
          autocompleteSelectedIndex := StepDown(autocompleteSelectedIndex, |autocompleteSuggestions|);
        case ArrowUp =>
          autocompleteSelectedIndex := StepUp(autocompleteSelectedIndex);
        case Enter =>
          CommitCommandSuggestion();
        case Escape =>
          LeaveCommandSuggestions();
      }
    }

    /** Enter on a command's suggestion: the filter is committed and `/word ` is typed back. */
    method CommitCommandSuggestion()
      modifies this
      ensures State() == States.CommandSuggestionKey(old(State()), Enter)
    {
      if !States.HasPick(State()) {
        return;
      }
      AddFilter(autocompleteFilterType.value, autocompleteSuggestions[autocompleteSelectedIndex]);
      RetypeCommandWord();
    }

    /** `/word ` typed back after a pick, when the input still starts with a command word. */
    method RetypeCommandWord()
      modifies this
      ensures State() == States.RetypeCommandWord(old(State()))
    {
      var word := LeadingCommandToken(input);
      if word.Some? {
        ghost var r := State().(input := "/" + word.value + " ", commandSearchQuery := "", autocompleteFilterType := None,
                                autocompleteSuggestions := [], autocompleteSelectedIndex := -1);
        input := "/" + word.value + " ";
        commandSearchQuery := "";
        ClearSuggestions();
        assert State() == r;
        HandleInput();
      }
    }

    /** Escape while a command shows suggestions: command mode ends and the input is emptied. */
    method LeaveCommandSuggestions()
      modifies this
      ensures State() == States.CommandSuggestionKey(old(State()), Escape)
    {
      ghost var r := State().(input := "", isCommandMode := false, activeCommand := None, commandSearchQuery := "",
                              autocompleteFilterType := None, autocompleteSuggestions := [],
                              autocompleteSelectedIndex := -1);
      EndCommandMode();
      ClearSuggestions();
      assert State() == r;
      HandleInput();
    }

    /** The input emptied and command mode left, with no active command. */
    method EndCommandMode()
      modifies this
      ensures State() == old(State()).(input := "", isCommandMode := false, activeCommand := None, commandSearchQuery := "")
    {
      input := "";
      isCommandMode := false;
      SetActiveCommand(None, "");
    }

    method CommandResourceKey(key: Key)
      requires key == Escape || key == ArrowDown || key == ArrowUp || key == Enter
      modifies this
      ensures State() == States.CommandResourceKey(old(State()), key)
    {
      match key {
        case Escape =>
          LeaveCommandResources();
        case ArrowDown =>
          selectedIndex := StepDown(selectedIndex, |results|);
          RenderCommandResourceList();
        case ArrowUp =>
          selectedIndex := StepUp(selectedIndex);
          RenderCommandResourceList();
        case Enter =>
          if 0 <= selectedIndex < |results| {
            ExecuteCommandOnResource(results[selectedIndex].resource);
          }
      }
    }

    /** Escape while a command lists its resources: command mode ends and the input is emptied. */
    method LeaveCommandResources()
      modifies this
      ensures State() == States.CommandResourceKey(old(State()), Escape)
    {
      EndCommandMode();
      HandleInput();
    }

    method CommandListKey(key: Key)
      requires key != OtherKey
      modifies this
      ensures State() == States.CommandListKey(old(State()), key)
    {
      match key {
        case Tab =>
          AutocompleteCommand();
        case Escape =>
          LeaveCommandList();
        case ArrowDown =>
          selectedCommandIndex := StepDown(selectedCommandIndex, |availableCommands|);
        case ArrowUp =>
          selectedCommandIndex := StepUp(selectedCommandIndex);
        case Enter =>
          ExecuteCommand(selectedCommandIndex);
      }
    }

    /** Escape on the command list: command mode ends and the input is emptied. */
    method LeaveCommandList()
      modifies this
      ensures State() == States.CommandListKey(old(State()), Escape)
    {
      ghost var r := State().(input := "", isCommandMode := false);
      input := "";
      isCommandMode := false;
      assert State() == r;
      HandleInput();
    }

    method SuggestionKey(key: Key)
      requires key == Tab || key == Enter || key == Escape
      requires autocompleteSuggestions != []
      modifies this
      ensures State() == States.SuggestionKey(old(State()), key)
    {
      match key {
        case Tab =>
          autocompleteSelectedIndex := CycleNext(autocompleteSelectedIndex, |autocompleteSuggestions|);
        case Enter =>
          if 0 <= autocompleteSelectedIndex < |autocompleteSuggestions| && autocompleteFilterType.Some? &&
             autocompleteSuggestions[autocompleteSelectedIndex] != "" {
            AddFilter(autocompleteFilterType.value, autocompleteSuggestions[autocompleteSelectedIndex]);
          }
        case Escape =>
          Close();
      }
    }

    method NavigationKey(key: Key)
      modifies this
      ensures State() == States.NavigationKey(old(State()), key)
    {
      match key {
        case Tab => AutocompleteFilterName();
        case Escape => Close();
        case ArrowDown => selectedIndex := StepDown(selectedIndex, |results|);
        case ArrowUp => selectedIndex := StepUp(selectedIndex);
        case Enter => SelectResult(selectedIndex);
        case OtherKey =>
      }
    }

    method LoadResources(api: seq<Store>)
      modifies this
      ensures State() == States.LoadResources(old(State()), api)
    {
      if currentClusterId.Some? && currentClusterId.value in resourceCache {
        allResources := resourceCache[currentClusterId.value];
        return;
      }
      FetchSnapshot(api);
      HandleInput();
    }

    /** The uncached part of `loadResources`: list every planned store and cache the snapshot. */
    method FetchSnapshot(api: seq<Store>)
      modifies this
      ensures State() == old(State()).(allResources := Snapshot(Plan(api)),
        resourceCache := if old(currentClusterId).Some? then old(resourceCache)[old(currentClusterId).value := Snapshot(Plan(api))]
                         else old(resourceCache))
    {
      allResources := [];
      var plan := PlanStores(api);
      var loaded := FetchAll(plan);
      allResources := loaded;
      if currentClusterId.Some? {
        resourceCache := resourceCache[currentClusterId.value := allResources];
      }
    }

    method RefreshResources(api: seq<Store>)
      requires Valid()
      modifies this
      ensures State() == States.RefreshResources(old(State()), api)
      ensures Valid()
    {
      RefreshResourcesKeepsValid(State(), api);
      if currentClusterId.Some? {
        ghost var s1 := State().(resourceCache := resourceCache - {currentClusterId.value});
        resourceCache := resourceCache - {currentClusterId.value};
        assert State() == s1;
        LoadResources(api);
      }
    }

    method Open(clusters: seq<ClusterEntity>, api: seq<Store>, host: string)
      requires Valid()
      modifies this
      ensures State() == States.Open(old(State()), clusters, api, host)
      ensures Valid()
    {
      OpenKeepsValid(State(), clusters, api, host);
      ghost var s1 := State().(availableCommands := InitialCommands(clusters, api),
                               currentClusterId := ClusterIdFromHostname(host), isOpen := true);
      InitializeCommands(clusters, api);
      Show(ClusterIdFromHostname(host));
      assert State() == s1;
      if currentClusterId.Some? {
        LoadResources(api);
      } else {
        allResources := [];
      }
    }

    /** The palette marked open on the cluster `id` (if any). */
    method Show(id: Option<string>)
      modifies this
      ensures State() == old(State()).(currentClusterId := id, isOpen := true)
    {
      currentClusterId := id;
      isOpen := true;
    }

    /** `initializeCommands`: the cluster switches and navigation commands, rebuilt. */
    method InitializeCommands(clusters: seq<ClusterEntity>, api: seq<Store>)
      modifies this
      ensures State() == old(State()).(availableCommands := InitialCommands(clusters, api))
    {
      availableCommands := InitialCommands(clusters, api);
    }

    method Toggle(clusters: seq<ClusterEntity>, api: seq<Store>, host: string)
      requires Valid()
      modifies this
      ensures State() == States.Toggle(old(State()), clusters, api, host)
      ensures Valid()
    {
      ToggleKeepsValid(State(), clusters, api, host);
      if isOpen {
        Close();
      } else {
        Open(clusters, api, host);
      }
    }
  }
}
