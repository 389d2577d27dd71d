# TidyNotes core, modelled in Dafny

TidyNotes is an Obsidian plugin that tidies notes by rulesets. A ruleset
holds a trigger and an ordered list of rules. Each rule has a Dataview
query (its scope) and an ordered list of actions: "Move Note" into a
folder, or "Update Property" to set a frontmatter key. This project models
the following parts of the plugin and proves properties of them:

- the ruleset runner and its two actions (`core.ts`);
- the Dataview wrapper: query normalisation, note extraction from result
  rows, the membership test and quote escaping (`dataview.ts`);
- the store of which rulesets each note matched (`state.ts`);
- the bounded activity log (`logger.ts`);
- the list and option edits of the ruleset editor (`ui/RulesetEditor.ts`);
- the query editor's preview with its global exclusion filter, and its
  toggle-button state (`ui/QueryInput.ts`);
- the data model (`types.ts`).

Modules, one per source file, plus three of support:

| file | module | models |
|---|---|---|
| `types.dfy` | `Types` | settings, rulesets, triggers, rules, actions; `DEFAULT_SETTINGS` |
| `core.dfy` | `Core` | `TidyNotesCore` |
| `dataview.dfy` | `Dataview` | `DataviewService` |
| `state.dfy` | `State` | `StateManager` |
| `logger.dfy` | `Logger` | `LogService` |
| `ruleset_editor.dfy` | `RulesetEditor` | the handlers of `RulesetEditor.display()` |
| `query_input.dfy` | `QueryInput` | `addQueryInput` |
| `vault.dfy` | `Vault` | the host vault: notes, folders, and the four host calls the runner makes |
| `js_string.dfy` | `JsString` | JavaScript's `trim`, `\s`, `parseInt` (no radix) and integer `toString` |
| `wrappers.dfy` | `Wrappers` | `Option`, standing for `undefined` |

How the model is built:

- **The vault is a value.** `VaultState` holds a sequence of notes and a
  set of folder paths. A `TFile` is a handle, its index in the notes. A
  rename changes a note's path but not its handle, just as Obsidian renames
  the same `TFile` object.
- **The host's behaviour is an assumption of the model.**
  - `renameFile` fails when the target path is taken.
  - `processFrontMatter` fails when the note's frontmatter cannot be parsed.
  - `createFolder` adds exactly the folder path it is given.
- **The Dataview API is a value.** It is either unavailable, or a function
  from the issued query text to an outcome: the rows of a successful
  result, an unsuccessful result, or an exception. It stays fixed for the
  length of one run.
- **The runner is imperative code.** `EvaluateRule` and `RunRuleset` are
  methods with the source's nested loops. Each is proved equal to a
  specification function (`RuleRun`, `RulesetRun`).
  - The run returns the final vault and a trace.
  - The trace has one `Evaluated` event per rule, carrying the notes its
    query returned.
  - It then has one `Executed` event per note and action, carrying the
    outcome: previewed, performed, unknown type, or failed and caught.
  - The lemmas about order and count are stated over this trace.
- **Objects the source updates in place are classes.**
  - `StateManager`, `LogService` and `RulesetEditor` hold their data in
    fields.
  - So does the query editor: its text, its visibility, its two button
    classes and the description set by the last preview.
  - `RulesetEditor.saved` is the ruleset as the last `saveSettings`
    persisted it.
  - A handler that redraws (`display()`) calls `saveSettings` first,
    except Edit/Done, which only redraws; the field handlers (names,
    scopes, trigger options, action options) save without redrawing. The
    redraw forces the first rule's role to `if` in memory only. So the
    saved copy can hold a first rule whose role is not `if` until the next
    save.
  - Roles play no part in a run, so this has no effect on what a run does
    (`RulesetEditor.RolesDoNotChangeRun`, `RulesetEditor.RedrawKeepsRun`).
- **The data model is `types.dfy`.** Each closed string union becomes a
  datatype (`TriggerType`, `Frequency`, `MatchType`, `RuleRole`), and each
  optional field becomes an `Option`.
  - The action type stays an open string, and action options are an
    optional string map.
  - `DefaultSettings` has no rulesets and the exclusion query `""`.

`types.ts` declares rule roles (`if`/`else-if`/`else`, types.ts:40),
schedule fields, a frequency, match types and the `on-load` and
`note-change` trigger types (types.ts:20-34). Nothing in the plugin
evaluates them:

- `runRuleset` (core.ts:14-33) applies every rule to every note its scope
  returns, whatever the rule's role.
- `main.ts` only loads the settings, registers the settings tab and adds a
  ribbon icon whose handler logs a line (main.ts:8-17); no trigger starts a
  run.
- Roles, schedule fields, frequency, match type and delay are only stored
  and edited.

## Model

| member | source | states |
|---|---|---|
| `Vault.FindNote` | dataview.ts:76-77 | the first note at a path, and `None` exactly when no note has that path |
| `Vault.Exists` | core.ts:62 | `getAbstractFileByPath` finds something: the path is a folder or some note's path; `MoveIntoFolder` states how the move uses it |
| `Vault.CreateFolder` | core.ts:62-64 | adds the folder path and leaves the notes alone |
| `Vault.RenameFile` | core.ts:67-68 | fails exactly when the target path is taken; otherwise only that note's path changes |
| `Vault.SetFrontmatter` | core.ts:77-79 | fails exactly on malformed frontmatter; otherwise sets that one key of that one note, and nothing else changes |
| `JsString.TrimStart` | dataview.ts:27-29 | a suffix of the input; what it drops is all whitespace, and what it keeps does not start with whitespace |
| `JsString.TrimEnd` | dataview.ts:26 | a prefix of the input; what it drops is all whitespace, and what it keeps does not end with whitespace |
| `JsString.IsSpace` | dataview.ts:26-27 | the whitespace of `trim` and of `\s`: the WhiteSpace and LineTerminator code points of ECMAScript; `TrimStart`, `TrimEnd` and `Trim` are stated in terms of it |
| `JsString.Trim` | dataview.ts:26 | a window of the input with only whitespace before and after it; neither end of it is whitespace; it is empty exactly when the input is all whitespace |
| `JsString.ParseInt` | ui/RulesetEditor.ts:78 | `parseInt` with no radix: leading whitespace skipped, an optional sign, then the longest run of decimal digits (hex after `0x`); `None` stands for `NaN`; what it reads back is stated by `ParseIntOfToString` |
| `JsString.ParseMagnitude` | ui/RulesetEditor.ts:78 | the unsigned part of `parseInt`: radix 16 after `0x` or `0X`, else 10, reading the longest run of digits, `None` when there is none; `ParseMagnitudeOfDecimal` states that it reads back a decimal numeral |
| `JsString.ParseMagnitudeOfDecimal` | ui/RulesetEditor.ts:76-78 | the unsigned part of `parseInt` reads back every numeral that `toString` writes for a natural number |
| `JsString.IntToString` | ui/RulesetEditor.ts:76 | `toString` of an integer: a minus sign for negatives, then the decimal digits; that `parseInt` reads it back is stated by `ParseIntOfToString` |
| `JsString.ParseIntOfToString` | ui/RulesetEditor.ts:76-78 | `parseInt` reads back every integer that `toString` prints |
| `Dataview.NormaliseStripsKeyword` | dataview.ts:26-30 | a trimmed query starting with a view keyword in any case, then whitespace, normalises to what follows the whitespace |
| `Dataview.NormaliseKeepsOthers` | dataview.ts:27-28 | a trimmed query not starting with a keyword followed by whitespace (`LISTING`, a bare `LIST`) is left as it is |
| `Dataview.NormaliseIsTrimmed` | dataview.ts:98-102 | the normalised text never starts or ends with whitespace |
| `Dataview.HasPrefixIgnoringCase` | dataview.ts:27 | the text starts with the keyword, comparing ASCII letters without case as the `i` flag does |
| `Dataview.KeywordAt` | dataview.ts:27 | one alternative of the regex matches at the start: the keyword in any case, then at least one whitespace character |
| `Dataview.StartsWithView` | dataview.ts:27-28 | `viewTypeRegex.test`: some keyword matches at the start and is followed by whitespace; `StripViewFinds`, `StripViewMisses` and `KeywordsExclusive` state what follows from it |
| `Dataview.KeywordsExclusive` | dataview.ts:27 | at most one of `LIST`, `TABLE`, `TASK` and `CALENDAR` can start a text, so the regex's order of alternatives does not matter |
| `Dataview.StripView` | dataview.ts:27-30 | the regex replacement, keyword by keyword; what it does is stated by `StripViewFinds` and `StripViewMisses` |
| `Dataview.StripViewFinds` | dataview.ts:27-29 | when a keyword (in any case) followed by whitespace starts the text, the keyword and the whitespace after it are removed |
| `Dataview.StripViewMisses` | dataview.ts:28 | when no keyword followed by whitespace starts the text, it is left as it is |
| `Dataview.Normalise` | dataview.ts:26-30 | `trim`, then the keyword removal; shared by `query` and `matchesQuery` (dataview.ts:98-102); stated by `NormaliseStripsKeyword`, `NormaliseKeepsOthers` and `NormaliseIsTrimmed` |
| `Dataview.FinalQuery` | dataview.ts:34 | `TABLE file.path ` followed by the normalised query, the text both `query` and `matchesQuery` (dataview.ts:120) send |
| `Dataview.Resolve` | dataview.ts:64-80 | a row gives a note only when its path (`row[0].path`, else a string `row[1]`) is that note's path |
| `Dataview.RowPath` | dataview.ts:64-73 | `row[0].path` when `row[0]` is a link with a non-empty path, otherwise `row[1]` when it is a string, otherwise nothing; `Resolve` and `ExtractedRows` state how extraction uses it |
| `Dataview.Extracted` | dataview.ts:59-81 | at most one note per row, and every handle names a note |
| `Dataview.ExtractFiles` | dataview.ts:57-83 | the extraction loop computes `Extracted` |
| `Dataview.ExtractedRows` | dataview.ts:59-81 | the extracted notes are the resolved notes of a strictly increasing selection of rows, and every row left out does not resolve |
| `Dataview.QueryResult` | dataview.ts:17-87 | every returned handle names a note |
| `Dataview.Query` | dataview.ts:17-41 | issues `"TABLE file.path " + normalised`; `[]` when Dataview is unavailable or the query is unsuccessful or throws |
| `Dataview.MatchesQuery` | dataview.ts:90-141 | true exactly when the query succeeds and some row has `row[1] == path` or `row[0].path == path`; false when the API is unavailable or the query fails |
| `Dataview.FindMatchingRow` | dataview.ts:125-136 | the row loop answers true exactly when some row names the path |
| `Dataview.RowMatches` | dataview.ts:127-133 | one row names the path: `row[1]` is the path, or `row[0]` is a link whose path is the path |
| `Dataview.AnyRowMatches` | dataview.ts:125-136 | some row of the result names the path; `FindMatchingRow` computes it |
| `Dataview.Matches` | dataview.ts:90-141 | Dataview is available, the normalised query succeeds, and some row names the path; `MatchesQuery` computes it, and `QueryResultsMatch` relates it to `query` |
| `Dataview.QueryResultsMatch` | dataview.ts:125-136 | every note `query` returns passes `matchesQuery` for the same query |
| `Dataview.EscapeQuotes` | dataview.ts:106 | the result never starts with `"`, and every `"` in it has a backslash before it |
| `Dataview.EscapeRoundTrip` | dataview.ts:106 | escaping changes nothing but the quotes: reading `\"` back as `"` restores the path |
| `Core.ActionMoveNote` | core.ts:57-71 | the move keeps the number of notes |
| `Core.ActionUpdateProperty` | core.ts:73-81 | the update keeps the number of notes |
| `Core.ExecuteAction` | core.ts:35-55 | an action keeps the number of notes |
| `Core.MoveTarget` | core.ts:66 | the target path `folder/name`; `MoveIntoFolder` states where the note ends up |
| `Core.RunActions` | core.ts:29-31 | every action on one note, in order, with one event per action; the number of notes is kept |
| `Core.RunFiles` | core.ts:28-32 | the actions on every note, note by note; the number of notes is kept |
| `Core.RuleRun` | core.ts:24-33 | queries the scope, records the evaluation, then runs the actions on every note it returned; the number of notes is kept |
| `Core.RunRules` | core.ts:19-21 | every rule in list order, each on the vault the previous one left; the number of notes is kept |
| `Core.RulesetRun` | core.ts:14-22 | the number of notes is kept, and a disabled ruleset leaves the vault as it is and records nothing |
| `Core.EvaluateRule` | core.ts:24-33 | the nested loops over notes and actions compute `RuleRun`: query the scope, then run every action on every note, in order |
| `Core.ApplyActions` | core.ts:29-31 | the inner loop computes `RunActions`: every action on the note, in order, threading the vault |
| `Core.RunRuleset` | core.ts:14-22 | the loop over rules computes `RulesetRun`; a disabled ruleset changes nothing and records nothing |
| `Core.DryRunKeepsVault` | core.ts:36-39 | a dry run leaves the vault as it was, and every action it reaches is only previewed |
| `Core.ActionEvents` | core.ts:29-31 | the actions on one note give one event per action, in action order |
| `Core.FileEvents` | core.ts:28-32 | the loop over notes records only action executions |
| `Core.RunRulesEvaluations` | core.ts:19-21 | the rules evaluated are exactly the rules of the list, in order |
| `Core.RulesEvaluatedInOrder` | core.ts:14-21 | an enabled ruleset evaluates every rule once, in list order; a disabled one evaluates none |
| `Core.RoleIgnored` | core.ts:24-33 | a rule's role plays no part in what it does to the vault |
| `Core.ExecutionsInOrder` | core.ts:28-32 | the trace of the notes loop is a grid: one execution per (note, action) pair, note by note and action by action, whatever the outcomes |
| `Core.ExecutionAt` | core.ts:28-32 | with `n` notes and `m` actions, entry `i*m+j` executes action `j` on note `i`, and there are `n*m` entries |
| `Core.OffsetIsProduct` | core.ts:28-32 | the grid's note offset, built by repeated addition, is the product `i*m` |
| `Core.UnknownActionSkipped` | core.ts:42-51 | an unknown action type leaves the vault unchanged and is reported as unknown (as previewed on a dry run) |
| `Core.AbsentOptionsFail` | core.ts:41-54 | either action with absent options throws; the error is caught, and the vault is unchanged |
| `Core.MoveWithoutFolder` | core.ts:58-59 | a move without a folder, or with an empty one, does nothing and succeeds |
| `Core.MoveIntoFolder` | core.ts:61-70 | afterwards the folder exists; the note is at `folder/name` unless that path was taken; no other note changes |
| `Core.MoveTwice` | core.ts:61-70 | repeating a successful move changes nothing, for a note that is not itself at the folder path (otherwise the first move creates no folder and the second does) |
| `Core.UpdateSetsKey` | core.ts:77-79 | sets `frontmatter[key]` to the `value` option (`undefined` when absent), leaving other keys and notes unchanged; fails without change on malformed frontmatter |
| `Core.UpdateWithoutKey` | core.ts:74-75 | an update without a key, or with an empty one, does nothing and succeeds |
| `State.Lookup` | state.ts:53-55 | the empty list for a path with no entry |
| `State.Assign` | state.ts:57-58 | the entries afterwards are the old ones plus the set path |
| `State.Saved` | state.ts:44-51 | a successful write stores exactly the state; a failed one leaves the file as it was |
| `State.Loaded` | state.ts:32-41 | with no file the state is unchanged; with a readable file it is the file's state; with an unreadable file it is empty |
| `State.FreshIsEmpty` | state.ts:13-14 | a fresh store has no entry for any path |
| `State.LookupAssigned` | state.ts:53-58 | after `setMatches(path, ids)`, `getMatches(path)` returns exactly `ids` |
| `State.LookupOthers` | state.ts:57-58 | `setMatches` on one path leaves every other path's entry unchanged |
| `State.SaveLoadRoundTrip` | state.ts:33-47 | a successful save followed by a load restores the saved mapping |
| `State.FailedLoadIsEmpty` | state.ts:38-41 | after a failed load the store has no entries |
| `State.StateManager.constructor` | state.ts:12-15 | the store starts empty |
| `State.StateManager.Load` | state.ts:17-42 | the new state is `Loaded` of the old state and the file |
| `State.StateManager.Save` | state.ts:44-51 | the file afterwards is `Saved` of the old file and the state; the state is unchanged |
| `State.StateManager.GetMatches` | state.ts:53-55 | the stored entry, or `[]` when there is none |
| `State.StateManager.SetMatches` | state.ts:57-61 | replaces the whole entry, then saves the whole state; `GetMatches` of that path then gives `ids` |
| `Logger.WithEntry` | logger.ts:43-55 | the new entry is first; the old entries follow in order; the length grows by one below capacity, and never passes `MaxLogs` from within it |
| `Logger.WithEntries` | logger.ts:43-55 | from within capacity, a series of adds stays within capacity, and the last entry added is first |
| `Logger.WithEntriesKeepsNewest` | logger.ts:51-55 | from within capacity, a series of adds leaves the newest 200 entries of all, newest first |
| `Logger.LogService.constructor` | logger.ts:12-17 | the log starts empty |
| `Logger.LogService.AddEntry` | logger.ts:43-62 | the log becomes `WithEntry` of the old log and an entry stamped with the given time; the bound is kept |
| `Logger.LogService.LogInfo` | logger.ts:31-33 | adds an entry at level info |
| `Logger.LogService.LogWarn` | logger.ts:35-37 | adds an entry at level warn |
| `Logger.LogService.LogError` | logger.ts:39-41 | adds an entry at level error |
| `Logger.LogService.GetLogs` | logger.ts:64-66 | returns the log as it is |
| `Logger.LogService.Clear` | logger.ts:68-70 | the log is empty afterwards |
| `QueryInput.PathsOf` | ui/QueryInput.ts:66-67 | a path is in the set exactly when some note the exclusion query returned has that path |
| `QueryInput.WithoutExcluded` | ui/QueryInput.ts:68 | every kept note is one of the files and has no excluded path, and every file with no excluded path is kept; how often each is kept is stated by `WithoutExcludedCounts` |
| `QueryInput.PreviewFiles` | ui/QueryInput.ts:60-70 | every counted handle names a note |
| `QueryInput.ExclusionActive` | ui/QueryInput.ts:63-65 | the exclusion step runs only when `filterExclusions` is on and the global exclusion query is set and non-empty |
| `QueryInput.Preview` | ui/QueryInput.ts:51-79 | the placeholder for a blank query, else the count of `PreviewFiles`; stated by `PreviewDescribes` |
| `QueryInput.PreviewDescribes` | ui/QueryInput.ts:52-72 | a blank or whitespace-only query shows the placeholder; any other query shows the number of notes counted |
| `QueryInput.WithoutExcludedIsSubsequence` | ui/QueryInput.ts:68 | the filtered list is an order-preserving selection of the query's notes |
| `QueryInput.WithoutExcludedCounts` | ui/QueryInput.ts:68 | `filter` keeps every occurrence of a note whose path is not excluded and no occurrence of one whose path is, so a note listed twice is kept twice |
| `QueryInput.PreviewCountsOccurrences` | ui/QueryInput.ts:60-72 | with exclusions on, each note counts in `Matches N notes` as often as the query lists it, or not at all when the exclusion query lists a note with its path |
| `QueryInput.ExcludedNeverCounted` | ui/QueryInput.ts:63-69 | with exclusions on, no counted note shares a path with a note the exclusion query returned |
| `QueryInput.PreviewKeepsUnexcluded` | ui/QueryInput.ts:60-69 | every counted note is one the query returned; with exclusions on, every returned note with no excluded path is counted |
| `QueryInput.InactiveCountsAll` | ui/QueryInput.ts:63-65 | with exclusions off, or no exclusion query, exactly the query's notes are counted |
| `Types.DefaultSettings` | types.ts:6-9 | no rulesets and the exclusion query `""`; `DefaultExcludesNothing` states that this turns the exclusion filter off |
| `QueryInput.DefaultExcludesNothing` | types.ts:6-9 | the default settings' empty exclusion query turns the filter off |
| `QueryInput.QueryEditor.UpdateState` | ui/QueryInput.ts:32-48 | open means `is-active` and not `has-content`; closed means not `is-active`, with `has-content` exactly when the text is not blank |
| `QueryInput.QueryEditor.constructor` | ui/QueryInput.ts:26-105 | the editor starts hidden, with its button classes set, and previews at once only when the initial text is not blank |
| `QueryInput.QueryEditor.RunPreview` | ui/QueryInput.ts:117-121 | sets the description the preview computes, and changes nothing else |
| `QueryInput.QueryEditor.Toggle` | ui/QueryInput.ts:85-94 | flips visibility, updates the classes, and previews exactly when the editor was open before |
| `QueryInput.QueryEditor.OnInput` | ui/QueryInput.ts:107-110 | takes the new text and updates the classes |
| `RulesetEditor.MovedUp` | ui/RulesetEditor.ts:219-228 | for `i > 0`, rules `i` and `i-1` swap and nothing else moves; nothing happens at 0; the multiset of rules is kept |
| `RulesetEditor.MovedDown` | ui/RulesetEditor.ts:232-241 | for `i < len-1`, rules `i` and `i+1` swap and nothing else moves; nothing happens at the last index; the multiset is kept |
| `RulesetEditor.MoveDownUndoesUp` | ui/RulesetEditor.ts:219-241 | moving a rule up and then back down restores the list |
| `RulesetEditor.Removed` | ui/RulesetEditor.ts:250 | exactly entry `i` is gone; the length drops by one; the others keep their order |
| `RulesetEditor.WithFirstAsIf` | ui/RulesetEditor.ts:271-274 | the first rule's role becomes `if`, and no other rule changes |
| `RulesetEditor.WithFirstAsIfIdempotent` | ui/RulesetEditor.ts:271-274 | redrawing twice is redrawing once |
| `RulesetEditor.RolesDoNotChangeRun` | core.ts:19-33 | rule lists that differ only in roles change the vault alike |
| `RulesetEditor.RedrawKeepsRun` | ui/RulesetEditor.ts:271-274 | the redraw's role change does not change what a run does to the vault |
| `RulesetEditor.NewRule` | ui/RulesetEditor.ts:382-388 | named `New Rule`, role `if`, empty scope, no actions, with the given id |
| `RulesetEditor.NewAction` | ui/RulesetEditor.ts:318 | the action Add Action appends: type `Move Note` with empty options; `RulesetEditor.RulesetEditor.AddAction` states where it goes |
| `RulesetEditor.MergeOption` | ui/RulesetEditor.ts:343 | the edited key takes the new value; every other key keeps its value; absent options spread as `{}` |
| `RulesetEditor.WithSchedule` | ui/RulesetEditor.ts:111-143 | the named schedule field takes the new text; the other three schedule fields and every non-schedule option keep their values |
| `RulesetEditor.ParseDelay` | ui/RulesetEditor.ts:78 | `parseInt(text)`, or 0 when the text is not a number |
| `RulesetEditor.DelayText` | ui/RulesetEditor.ts:76 | the delay, or 0 when unset, as `toString` writes it; `DelayRoundTrip` states that storing it gives the delay back |
| `RulesetEditor.SpreadTriggerOptions` | ui/RulesetEditor.ts:54 | `{ ...options }`: the options as they are, or the empty options when absent; the `Set…` handlers state the merges built on it |
| `RulesetEditor.DelayRoundTrip` | ui/RulesetEditor.ts:76-78 | storing the text the delay field shows gives back the delay (0 when unset) |
| `RulesetEditor.RulesetEditor.constructor` | ui/RulesetEditor.ts:13-18 | takes the ruleset, not in rule-editing mode |
| `RulesetEditor.RulesetEditor.Save` | main.ts:27-29 | `saveSettings`: the saved settings become the ruleset as edited, and nothing else changes |
| `RulesetEditor.RulesetEditor.Display` | ui/RulesetEditor.ts:271-274 | the only change a redraw makes: the first rule's role becomes `if` |
| `RulesetEditor.RulesetEditor.SetTriggerType` | ui/RulesetEditor.ts:34-38 | sets the trigger type, saves, and redraws |
| `RulesetEditor.RulesetEditor.SetMatchType` | ui/RulesetEditor.ts:53-56 | merges `matchType` into the trigger options and saves |
| `RulesetEditor.RulesetEditor.SetTriggerQuery` | ui/RulesetEditor.ts:66-69 | merges `query` into the trigger options and saves |
| `RulesetEditor.RulesetEditor.SetDelay` | ui/RulesetEditor.ts:77-80 | merges `delay` (the parsed text, or 0) into the trigger options and saves |
| `RulesetEditor.RulesetEditor.SetFrequency` | ui/RulesetEditor.ts:89-92 | merges `frequency` into the trigger options and saves |
| `RulesetEditor.RulesetEditor.SetSchedule` | ui/RulesetEditor.ts:111-144 | merges one schedule field into the trigger options and saves |
| `RulesetEditor.RulesetEditor.ToggleEditing` | ui/RulesetEditor.ts:153-156 | flips rule-editing mode and redraws |
| `RulesetEditor.RulesetEditor.SetRuleName` | ui/RulesetEditor.ts:206-209 | renames rule `i` and saves |
| `RulesetEditor.RulesetEditor.MoveRuleUp` | ui/RulesetEditor.ts:219-227 | saves the list `MovedUp`, then redraws; nothing happens for the first rule |
| `RulesetEditor.RulesetEditor.MoveRuleDown` | ui/RulesetEditor.ts:232-240 | saves the list `MovedDown`, then redraws; nothing happens for the last rule |
| `RulesetEditor.RulesetEditor.DeleteRule` | ui/RulesetEditor.ts:248-254 | once confirmed, saves the list without rule `i`, then redraws; otherwise nothing happens |
| `RulesetEditor.RulesetEditor.SetRuleRole` | ui/RulesetEditor.ts:280-290 | for a rule after the first (the only ones with a role dropdown), sets its role, saves, and redraws |
| `RulesetEditor.RulesetEditor.SetRuleScope` | ui/RulesetEditor.ts:303-306 | sets rule `i`'s scope and saves |
| `RulesetEditor.RulesetEditor.AddAction` | ui/RulesetEditor.ts:317-321 | appends `{type: 'Move Note', options: {}}` to rule `i`, saves, and redraws |
| `RulesetEditor.RulesetEditor.SetActionType` | ui/RulesetEditor.ts:331-335 | sets action `j`'s type, saves, and redraws |
| `RulesetEditor.RulesetEditor.SetActionOption` | ui/RulesetEditor.ts:342-363 | merges one option key into action `j`'s options and saves |
| `RulesetEditor.RulesetEditor.DeleteAction` | ui/RulesetEditor.ts:368-372 | removes exactly action `j`, saves, and redraws |
| `RulesetEditor.RulesetEditor.AddRule` | ui/RulesetEditor.ts:380-391 | outside rule-editing mode, appends `NewRule(id)`, saves, and redraws; the button is disabled in rule-editing mode |

## Left out

- **Rendering.** Everything `display()` and `addQueryInput` draw is left
  out: settings rows, icons, styles, collapse chevrons, notices and
  console output. Only the state the handlers change is kept.
- **`ui/RulesetModal.ts`, `settings.ts` and `main.ts`.** They are not part
  of this model: they are plugin lifecycle and UI panels. The one exception
  is `saveSettings` (main.ts:27-29), which `RulesetEditor.RulesetEditor.Save`
  stands for. The modal's Add Rule pushes a rule with no `type`
  (ui/RulesetModal.ts:136-141), and its Delete neither asks for
  confirmation nor saves (ui/RulesetModal.ts:62-65).
- **Evaluators the plugin does not have.** No if/else-if/else grouping, no
  schedule windows, no on-load frequency and no note-change transitions are
  modelled: the plugin declares their settings (types.ts:20-40) but no
  function of it reads them to decide what runs.
- **Foreign code.** The host vault, `fileManager` and Dataview's `getAPI`
  and `api.query` are foreign code. They appear as `VaultState`, as the
  host calls in `Vault` (with the failure assumptions stated above), and as
  the `Api` value.
  - The host may fail in ways the model does not list (I/O errors, a
    rename or folder creation whose parent path is a note). The runner catches every such error without
    rollback, folder creation included. The model only has the listed
    failures.
  - Dataview may give different answers to the same query within one run.
    The model fixes the API for a run.
  - `renameFile` moves the file and, depending on the user's settings, also
    updates links to it in other notes, frontmatter properties included.
    `Vault.RenameFile` changes only the moved note's path. The "no other
    note changes" parts of `Core.MoveIntoFolder` and `Vault.RenameFile`
    hold only under that restriction.
- **Concurrency.** `async`/`await` runs strictly in sequence here.
  - A preview that the toggle starts without awaiting it finishes before
    the next event.
  - `setMatches` calls `this.save()` without `await` (state.ts:60).
    `State.StateManager.SetMatches` treats that save as finished before it
    returns.
  - Nothing models interleaving a run with edits to the vault or settings.
- **The clock.** `Date.now()` (log timestamps, new rule ids) is a
  parameter.
- **Confirmation.** The answer to `confirm()` is a parameter.
- **`onChange`.** `addQueryInput` passes each new text to an `onChange`
  callback. `QueryEditor.OnInput` only records the new text. The editor's
  callbacks are the scope and trigger-query setters of `RulesetEditor`.
- **Persistence is a snapshot.**
  - The file I/O and JSON text of `state.json` are left out. `StoredFile`
    is what a load would find: absent, a well-formed state, or unreadable.
  - A JSON value of the wrong shape (say `{}` without `fileMatches`) is
    not modelled.
  - `LogService.load` does nothing in the source, and is left out.
  - `saveSettings` becomes `RulesetEditor.saved`, a copy of the last ruleset
    persisted.
- **JavaScript object keys.** `fileMatches` is a plain object. A path such
  as `constructor` or `__proto__` would reach `Object.prototype` in
  `getMatches`/`setMatches`. The map here has no such keys.
- **Aliasing.**
  - `Logger.LogService.GetLogs` returns the log as a value. The source
    hands out the live array, which later adds change under the caller.
  - Handler methods of `RulesetEditor` address rules and actions by index.
    In the source they hold the objects drawn at display time; the two agree
    because every handler that changes the lists redraws.
- **Wiring of `plugin.core`.** The preview calls
  `plugin.core.dataview.query` (ui/QueryInput.ts:60 and :66), but
  `TidyNotesPlugin` (main.ts:5-30) declares only `settings` and never sets
  a `core` field. As the files stand, every non-blank query therefore
  throws a `TypeError` inside the `try`, and the `catch` (ui/QueryInput.ts:74-77)
  shows `Error with query`. The model assumes `plugin.core` is a
  `TidyNotesCore` with its `DataviewService`; under that assumption `query`
  catches every Dataview failure and returns `[]`, so `Error with query`
  cannot appear, and `Description` has no such case.
- **Numbers.**
  - `parseInt`, `toString` and the delay are modelled on unbounded
    integers. JavaScript numbers are doubles, so precision is lost past
    2^53 and `toString` switches to exponent notation from 10^21. `-0` is
    0 here; `parseInt(...) || 0` turns it into 0 as well.
- **Case-insensitive matching.** The keyword test compares ASCII letters
  without case. Under `i` without `u`, no non-ASCII character (`ı`, `ſ`)
  canonicalises to an ASCII letter, so only ASCII letters can match the
  ASCII keywords and this comparison is exact for this regex. Case folding
  of other characters is not modelled, as no keyword needs it.
- **Payloads.** `details?: any` of a log entry is kept as optional text.
  The action options an editor stores are string maps, as the editor only
  writes strings.
- **Unused escaping.** `matchesQuery` computes `safePath` and never uses
  it. So `Dataview.MatchesQuery` computes it too, and only
  `Dataview.EscapeQuotes` is about escaping.
- **Weaker contracts.**
  - `Core.ActionMoveNote`, `Core.ActionUpdateProperty` and
    `Core.ExecuteAction`: their own contracts only keep the number of
    notes. What they do is stated by the `Core.Move*`, `Core.Update*`,
    `Core.UnknownActionSkipped` and `Core.AbsentOptionsFail` lemmas.
  - `Core.MoveIntoFolder`: assumes no note sits at the folder path itself.
    With such a note, `getAbstractFileByPath` finds it and no folder is
    created.
  - `Core.MoveTwice`: assumes the note is not itself at the folder path.
    A note `A` moved with folder `A` goes to `A/A` without a folder being
    created (the note counts as existing at `A`); repeating the move then
    creates folder `A`, so the second move is not a no-op.
