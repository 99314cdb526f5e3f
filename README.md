# Terminal panel and theme picker: a verified model

This project models two corners of the editor in Dafny and proves properties of them.

**1. The terminal panel** (`crates/terminal_view/src/terminal_panel.rs`):
- how a task's command is wrapped in a shell before it runs (`fill_command`), together with the Windows helpers that classify the shell and rewrite `$VAR` arguments;
- whether a task reuses a terminal that already runs it or gets a new one (the decision in `spawn_task`, and `terminals_for_task`);
- the arithmetic of the next-pane and previous-pane actions;
- the panel's stored width and height (`size`, `set_size`);
- the count of terminals still being created (`pending_terminals_to_add`) and the rules that read it (`has_no_terminals`, `set_active`, `icon`);
- the number shown on the panel's button (`icon_label`).

**2. The theme picker** (`crates/theme_selector/src/theme_selector.rs`):
- the order themes are listed in;
- the matches shown for an empty query;
- which entry is selected, and how the selection is clamped when the list changes;
- the protocol that puts the original theme back exactly when the picker closes without a confirmed choice.

Files:
- `options.dfy`: an `Option` type.
- `sequences.dfy`: `IndexOf`, the model of `Iterator::position`.
- `strings.dfy`:
  - prefix and suffix tests;
  - Rust's ordering of strings (`NameLe`);
  - decimal rendering of a count;
  - splitting at a separator.
- `windows_shell.dfy`: `WindowsShellType`, shell classification, and the `$env:`/`%VAR%` argument conversions.
- `terminal_panel.dfy`, with:
  - the task type `SpawnInTerminal`, a class whose fields `FillCommand` rewrites in place;
  - the reuse-or-new decision;
  - pane cycling;
  - the `TerminalPanel` class.
- `theme_selector.dfy`: the listing order, the match lists, and the `ThemeSelector` class, which updates the global `Settings` object.

Modelling decisions:
- **Platform.** The source chooses the platform at compile time (`#[cfg(target_os = "windows")]`). Here the choice is an explicit `Os` parameter.
- **The non-Windows path.** It builds exactly the command that the Windows path builds for an `Other` shell: label ` -i -c '…'`, flags `-i -c`, arguments unchanged. So both are one function, `ShellKind`, which picks the shape.
- **The system shell.** The SHELL environment variable is read by `retrieve_system_shell`. Its value, if set, is a parameter here. On Windows the source always answers PowerShell, so `fill_command` can give up (`Break`) only on other platforms.
- **Identities.** Panes and terminal views are identified by numbers. A pane is its id and its items, and an item knows whether it is a terminal view and which task it runs.
- **Which terminal gets replaced.** The source sorts the matching terminals by entity id, with a stable sort, and takes the last one. The model states this as a property of the chosen index: no entry has a larger id, and no later entry has the same id. It is proved that only one index has this property.
- **The theme sort.** The source uses the library's unstable sort. The model sorts by insertion and proves the result sorted and a permutation of the input. It also proves that only one sorted permutation exists, so the library's order is the same list.
- **Names of the selected entry.** `select_if_matching` takes the first entry whose name matches, and is modelled by `MatchingIndex`. The constructor applies it to the original theme's name, starting from selection 0, as `new` does.
- **Candidate ids.** `new` gives every initial match candidate id 0. `update_matches` with an empty query gives candidate id `i` to entry `i`. Both are modelled as written; no code read here uses the candidate id.
- **Counting reverts.** The class has a ghost counter of how often the original theme is put back, and a ghost flag for release. With them, "the original theme is put back at most once, and never while the selection is open" is the class invariant `Valid`.

## Model

| member | source | states |
|---|---|---|
| Sequences.IndexOf | crates/terminal_view/src/terminal_panel.rs:1169-1172 | `position`: None exactly when the element is absent; otherwise an in-range index holding it, with no earlier occurrence |
| Strings.NameLeTotal | crates/theme_selector/src/theme_selector.rs:58 | any two names are comparable under string order |
| Strings.NameLeTransitive | crates/theme_selector/src/theme_selector.rs:58 | string order is transitive |
| Strings.NameLeAntisymmetric | crates/theme_selector/src/theme_selector.rs:58 | two names each not greater than the other are equal |
| Strings.NatToDecimal | crates/terminal_view/src/terminal_panel.rs:1329 | `to_string` of a count is non-empty, all digits, and has no leading zero; it is longer than one digit exactly for counts of 10 or more |
| Strings.DecimalRoundTrip | crates/terminal_view/src/terminal_panel.rs:1329 | reading the decimal spelling back gives the count |
| Strings.DecimalInjective | crates/terminal_view/src/terminal_panel.rs:1329 | different counts get different labels |
| WindowsShell.ToWindowsShellType | crates/terminal_view/src/terminal_panel.rs:1404-1418 | Powershell exactly for `powershell`, `pwsh` or a name ending in `powershell.exe` or `pwsh.exe`; Cmd exactly for the remaining `cmd` or `…cmd.exe`; Other for everything else |
| WindowsShell.ShellTestsDisjoint | crates/terminal_view/src/terminal_panel.rs:1405-1413 | no program passes both the PowerShell test and the cmd test, so their order never decides |
| WindowsShell.ExecutablePathsClassified | crates/terminal_view/src/terminal_panel.rs:1405-1413 | any path ending in `powershell.exe` or `pwsh.exe` is PowerShell; any ending in `cmd.exe` is cmd |
| WindowsShell.BareNamesClassified | crates/terminal_view/src/terminal_panel.rs:1404-1418 | the bare names are classified; `bash` and `cmd.com` are Other |
| WindowsShell.ToPowershellVariable | crates/terminal_view/src/terminal_panel.rs:1445-1462 | input not starting with `$` and `${…:…}` input are unchanged; `$V` becomes `$env:V`; any change yields a `$env:` string |
| WindowsShell.ToCmdVariable | crates/terminal_view/src/terminal_panel.rs:1423-1440 | the same cases, with `%V%` as the result form |
| WindowsShell.ToWindowsShellVariable | crates/terminal_view/src/terminal_panel.rs:1395-1401 | identity for Other shells; only `$` arguments other than `${…:…}` are ever changed |
| WindowsShell.DollarVariable | crates/terminal_view/src/terminal_panel.rs:1455-1457 | `$NAME` (not followed by `{`) becomes `$env:NAME` and `%NAME%` |
| WindowsShell.BracedVariable | crates/terminal_view/src/terminal_panel.rs:1446-1449 | `${NAME}` with no `:` becomes `$env:NAME` and `%NAME%` |
| WindowsShell.BracedDropsLastCharacter | crates/terminal_view/src/terminal_panel.rs:1424-1427 | after `${`, the last character is dropped whatever ASCII character it is, even when it is not `}` |
| WindowsShell.BracedWithDefaultUnchanged | crates/terminal_view/src/terminal_panel.rs:1428-1432 | `${NAME:DEFAULT}` forms are returned unchanged by both conversions |
| WindowsShell.ConversionsAgree | crates/terminal_view/src/terminal_panel.rs:1423-1462 | the two conversions change exactly the same inputs: those starting with `$`, other than `${…:…}` |
| TerminalPanel.RetrieveSystemShell | crates/terminal_view/src/terminal_panel.rs:1378-1392 | `powershell` on Windows; elsewhere the SHELL variable, if set |
| TerminalPanel.ResolveShell | crates/terminal_view/src/terminal_panel.rs:516-528 | no shell exactly for a local System shell on a non-Windows build with SHELL unset; a remote System shell is the quoted `${SHELL:-sh}`; Program and WithArguments give their program and arguments |
| TerminalPanel.OtherArgsUnconverted | crates/terminal_view/src/terminal_panel.rs:558-559 | arguments for an `-i -c` shell are passed through unchanged |
| TerminalPanel.CombineArgs | crates/terminal_view/src/terminal_panel.rs:552-563 | the fold yields the command followed by a space and the converted argument, for each argument in order |
| TerminalPanel.CombinedCommandSplits | crates/terminal_view/src/terminal_panel.rs:552-563 | with the `-i -c` shape, splitting the command string at spaces gives back the command and then the arguments, when none contains a space |
| TerminalPanel.FilledCommand | crates/terminal_view/src/terminal_panel.rs:516-583 | the rewritten task fields, defined only when no argument makes the conversion panic; none exactly in the no-shell case |
| TerminalPanel.FilledCommandShape | crates/terminal_view/src/terminal_panel.rs:552-580 | the program becomes the shell, and the last argument is the original command followed by its converted arguments |
| TerminalPanel.NonWindowsFill | crates/terminal_view/src/terminal_panel.rs:529-580 | outside Windows: program = shell; args = user args then `-i`, `-c` and the command string; label = shell + ` -i -c '` + old label + `'` |
| TerminalPanel.RemoteSystemShellFill | crates/terminal_view/src/terminal_panel.rs:519-522 | a remote System shell always succeeds: program is the quoted `${SHELL:-sh}` and args are exactly `-i`, `-c` and the command string |
| TerminalPanel.WithArgumentsPrefix | crates/terminal_view/src/terminal_panel.rs:525-580 | a shell given with arguments keeps them, in order, as a prefix of the new arguments |
| TerminalPanel.WindowsLocalSystemShell | crates/terminal_view/src/terminal_panel.rs:516-580 | on Windows a local System shell becomes `powershell -C "<command> <$env: args>"`, labelled `powershell -C '<old label>'` |
| TerminalPanel.WindowsCmdFill | crates/terminal_view/src/terminal_panel.rs:536-579 | on Windows a cmd program gets the flag `/C`, `%VAR%` arguments and the label `… /C '<old label>'` |
| TerminalPanel.SpawnInTerminal.WrapInShell | crates/terminal_view/src/terminal_panel.rs:530-584 | once the shell is chosen: the label becomes the shell-specific wrapped label, the command becomes the shell, and the args become the shell's own args, its flags and the old command with its converted arguments |
| TerminalPanel.TerminalPanel.FillCommand | crates/terminal_view/src/terminal_panel.rs:511-584 | rewrites the task in place: Break exactly in the no-shell case, leaving the task alone; otherwise Continue, and the command, args and label are those of `FilledCommand` |
| TerminalPanel.PaneTerminalsForTask | crates/terminal_view/src/terminal_panel.rs:633-646 | the matches of a pane are exactly its items, from the given index on, that are terminal views running the task |
| TerminalPanel.TerminalsForTask | crates/terminal_view/src/terminal_panel.rs:624-664 | an entry is in the result exactly when some item of some pane is a terminal running the task with this full label |
| TerminalPanel.LastBySortKeyUnique | crates/terminal_view/src/terminal_panel.rs:662 | at most one index is the last by entity id, so the replaced terminal is determined |
| TerminalPanel.LatestIndex | crates/terminal_view/src/terminal_panel.rs:453-456 | the chosen index is the one `.last()` takes after the stable sort by entity id |
| TerminalPanel.SpawnDecision | crates/terminal_view/src/terminal_panel.rs:441-505 | a new terminal exactly when concurrent runs and a new terminal are both allowed, or nothing matches; an immediate replace when only concurrent runs are allowed; otherwise wait for all matches, then spawn new or replace as `use_new_terminal` says; the target is the last by entity id |
| TerminalPanel.ReplacedTerminalRunsTask | crates/terminal_view/src/terminal_panel.rs:453-456 | a replaced terminal is one that runs the task being spawned |
| TerminalPanel.TerminalPanel.SpawnTask | crates/terminal_view/src/terminal_panel.rs:423-509 | nothing happens when the workspace is gone or no shell is found; otherwise a fresh copy of the task with the filled-in command, and the plan `SpawnDecision` gives for the panel's and the workspace's panes |
| TerminalPanel.WrappingSub | crates/terminal_view/src/terminal_panel.rs:1186 | `usize::wrapping_sub` on 64 bits: exact subtraction without underflow, plus 2^64 with it |
| TerminalPanel.NextIndex | crates/terminal_view/src/terminal_panel.rs:1173 | the next index stays in range: ix + 1, or 0 after the last |
| TerminalPanel.PreviousIndex | crates/terminal_view/src/terminal_panel.rs:1186 | the previous index stays in range: ix − 1, or the last index from 0, through the wrap-around and the `min` |
| TerminalPanel.PreviousUndoesNext | crates/terminal_view/src/terminal_panel.rs:1173-1186 | previous after next, and next after previous, are the identity on indices |
| TerminalPanel.NextPaneIn | crates/terminal_view/src/terminal_panel.rs:1167-1177 | no pane exactly when the active pane is not among the panes; otherwise a pane among them |
| TerminalPanel.PreviousPaneIn | crates/terminal_view/src/terminal_panel.rs:1180-1190 | the same for the previous-pane action |
| TerminalPanel.PreviousPaneUndoesNext | crates/terminal_view/src/terminal_panel.rs:1167-1190 | among distinct panes, going to the next pane and then the previous one returns to the start, and the other way round |
| TerminalPanel.IconLabel | crates/terminal_view/src/terminal_panel.rs:1319-1331 | no label exactly when all panes together have no items; otherwise the count's canonical decimal spelling: digits only, no leading zero, with that value |
| TerminalPanel.TerminalPanel.constructor | crates/terminal_view/src/terminal_panel.rs:80-100 | one empty pane, which is active; no stored sizes; nothing pending |
| TerminalPanel.TerminalPanel.NextPane | crates/terminal_view/src/terminal_panel.rs:1167-1177 | with a valid panel the next-pane action always finds a pane of the panel |
| TerminalPanel.TerminalPanel.PreviousPane | crates/terminal_view/src/terminal_panel.rs:1180-1190 | the same for the previous-pane action |
| TerminalPanel.TerminalPanel.FocusPane | crates/terminal_view/src/terminal_panel.rs:333-334 | a pane's focus event makes it the active pane and keeps the panel valid |
| TerminalPanel.TerminalPanel.Size | crates/terminal_view/src/terminal_panel.rs:1271-1279 | the stored width for a left or right dock, the stored height for a bottom dock, each falling back to the settings' default |
| TerminalPanel.TerminalPanel.SetSize | crates/terminal_view/src/terminal_panel.rs:1281-1288 | stores the size on the dock's axis only, and `Size` then answers it |
| TerminalPanel.TerminalPanel.AddTerminal | crates/terminal_view/src/terminal_panel.rs:712-725 | refused without change when terminals are not supported; otherwise one more pending terminal, so the panel no longer counts as empty and activating it adds no further terminal |
| TerminalPanel.TerminalPanel.TerminalAdded | crates/terminal_view/src/terminal_panel.rs:761-763 | one pending terminal fewer, never below zero |
| TerminalPanel.TerminalPanel.HasNoTerminals | crates/terminal_view/src/terminal_panel.rs:913-915 | true exactly when nothing is pending and the pane carrying the active id is empty |
| TerminalPanel.TerminalPanel.OpensTerminalOnActivate | crates/terminal_view/src/terminal_panel.rs:1303-1306 | activating the panel requests a terminal (a deferred `add_terminal`, itself refused when terminals are unsupported or the workspace is gone) exactly when it is activated, nothing is pending and the active pane is empty |
| TerminalPanel.TerminalPanel.ShowsIcon | crates/terminal_view/src/terminal_panel.rs:1337-1345 | no icon when the button setting is off; with it on, an icon whenever terminals are supported, otherwise exactly when the panel has terminals, and always while one is pending |
| TerminalPanel.TerminalPanel.NoLabelMeansNoTerminals | crates/terminal_view/src/terminal_panel.rs:913-915 | with no count on the button the active pane is empty; with nothing pending, `has_no_terminals` then holds |
| ThemeSelector.ThemeLeTotal | crates/theme_selector/src/theme_selector.rs:54-59 | the theme comparator is total |
| ThemeSelector.ThemeLeTransitive | crates/theme_selector/src/theme_selector.rs:54-59 | the theme comparator is transitive |
| ThemeSelector.ThemeLeAntisymmetric | crates/theme_selector/src/theme_selector.rs:54-59 | two theme entries that the comparator puts in both orders are equal |
| ThemeSelector.SortedGroups | crates/theme_selector/src/theme_selector.rs:54-59 | in sorted order every light theme comes before every dark one, and names ascend within each group |
| ThemeSelector.InsertTheme | crates/theme_selector/src/theme_selector.rs:54-59 | inserting into a sorted list keeps it sorted and adds exactly that theme |
| ThemeSelector.SortThemes | crates/theme_selector/src/theme_selector.rs:54-59 | the listing order is sorted by the comparator and a permutation of the registry's list |
| ThemeSelector.SortedPermutationUnique | crates/theme_selector/src/theme_selector.rs:54-59 | two sorted permutations of the same themes are equal |
| ThemeSelector.SortThemesIsTheOrder | crates/theme_selector/src/theme_selector.rs:54-59 | any sorted permutation of the listed themes, the unstable sort's result among them, is `SortThemes` |
| ThemeSelector.InitialMatches | crates/theme_selector/src/theme_selector.rs:60-68 | one entry per theme, in listing order, with the theme's name, candidate id 0 and no highlights |
| ThemeSelector.EmptyQueryMatches | crates/theme_selector/src/theme_selector.rs:261-271 | one entry per theme, in listing order, with the theme's name, candidate id equal to its position, and no highlights |
| ThemeSelector.EmptyQueryCandidates | crates/theme_selector/src/theme_selector.rs:249-271 | in the empty-query list each candidate id indexes the entry's own theme, and no two entries share an id |
| ThemeSelector.EmptyQueryRestoresInitialList | crates/theme_selector/src/theme_selector.rs:261-271 | clearing the query shows the names the picker opened with, in the same order, so a name is found at the same index |
| ThemeSelector.MatchingIndex | crates/theme_selector/src/theme_selector.rs:191-197 | when some entry has the name, the first such entry; otherwise the current selection |
| ThemeSelector.SaturatingPred | crates/theme_selector/src/theme_selector.rs:288 | `saturating_sub(1)`: one less, but never below zero |
| ThemeSelector.ClampIndex | crates/theme_selector/src/theme_selector.rs:286-288 | never above the old selection; in range whenever the list is non-empty; unchanged when already in range; the last entry when past the end; 0 for an empty list |
| ThemeSelector.ClampIdempotent | crates/theme_selector/src/theme_selector.rs:286-288 | clamping an already clamped selection changes nothing |
| ThemeSelector.ThemeSelector.constructor | crates/theme_selector/src/theme_selector.rs:41-80 | themes in the listing order, one initial match per theme, the current theme remembered as the original, the original theme's entry selected if listed (else 0), the selection open |
| ThemeSelector.ThemeSelector.SelectIfMatching | crates/theme_selector/src/theme_selector.rs:191-197 | the selection becomes `MatchingIndex` of the current matches and the old selection |
| ThemeSelector.ThemeSelector.PreviewTheme | crates/theme_selector/src/theme_selector.rs:110-111 | a theme to preview exactly when the index is in range and the entry's theme loads |
| ThemeSelector.ThemeSelector.ShowSelectedTheme | crates/theme_selector/src/theme_selector.rs:109-189 | the settings receive the previewed theme, or are left alone |
| ThemeSelector.ThemeSelector.SetSelectedIndex | crates/theme_selector/src/theme_selector.rs:242-245 | stores the index as given and previews it; an index past the end leaves the theme alone |
| ThemeSelector.ThemeSelector.UpdateMatches | crates/theme_selector/src/theme_selector.rs:247-293 | an empty query lists every theme, any other query takes the matcher's result; the selection is clamped, so it is in range whenever the list is non-empty; the new selection is previewed |
| ThemeSelector.ThemeSelector.Confirm | crates/theme_selector/src/theme_selector.rs:225-228 | completes the selection; the previewed theme stays |
| ThemeSelector.ThemeSelector.Dismiss | crates/theme_selector/src/theme_selector.rs:230-236 | puts the original theme back, counted once, exactly when the selection was still open; afterwards the selection is completed |
| ThemeSelector.ThemeSelector.Release | crates/theme_selector/src/theme_selector.rs:318-322 | puts the original theme back exactly when the selection was never completed; the revert count stays at most one |

## Left out

- Rendering and UI are not modelled:
  - tab-bar buttons, menus, tooltips, focus handling and `render_match`;
  - the effect of focusing a pane beyond `active_pane`.
- Asynchronous work is left out:
  - The model stops at the synchronous decision each part makes (for example the `SpawnPlan`).
  - Left out with it: `cx.spawn`, the deferred-task map, `wait_for_terminals_tasks`, and `replace_terminal` and `spawn_in_new_terminal` themselves.
  - `TerminalAdded` stands for the last step of `add_terminal`'s asynchronous part. The source reaches that step only when creating the terminal succeeds, so a failed creation leaves the count raised in both.
- Persistence and I/O are left out:
  - `load` and `serialize`;
  - `write_theme_name`, which `show_selected_theme` starts in the background;
  - `set_position`;
  - the read of the SHELL environment variable, whose result is a parameter.
- Library code whose behaviour is not visible here is left out:
  - `PaneGroup` (panes are a sequence, in the order `panes()` returns them);
  - `Pane` internals;
  - `create_terminal`;
  - the fuzzy matcher, whose result `UpdateMatches` takes as an input;
  - the theme registry, which is a map from names to themes, a missing name standing for a load error.
- Drag-and-drop handling and `add_paths_to_terminal` are left out. They depend on downcasts and on Rust's `Debug` formatting of paths.
- The theme picker's `toggle`, `init` and `on_event`, which only open and close the picker in the workspace, are left out. So are the `Dismissed` events it emits and the debug-only `reload`.
- The `score` of a match (floating point, 0 on the paths modelled) is left out. So is the rest of a theme beyond its name and lightness.
- Sizes (`Pixels`) are real numbers that are only stored and returned.
- Strings are sequences of Unicode scalar values. Rust compares strings byte-wise in UTF-8, which gives the same order as comparing code points, so `NameLe` compares code points.
- TerminalPanel.TerminalPanel.AddTerminal: the `usize` counter is unbounded here; the source would overflow only after 2^64 pending terminals.
- TerminalPanel.TerminalsForTask: the source sorts the matches by entity id; the model keeps them in pane order. So `SpawnPlan.waitFor` lists them in pane order. They are only waited on as a whole, and `LatestIndex` picks the same target the sorted list's last element gives.
- TerminalPanel.TerminalPanel.TerminalAdded: the `pane.add_item` just before the decrement is not modelled, so the new terminal's arrival in the active pane is not captured. After `AddTerminal(true)` and then `TerminalAdded()`, the model's `HasNoTerminals()` can be true again, while in the source the active pane holds the new terminal.
- TerminalPanel.IconLabel: the sum of item counts is unbounded; the source's `usize` sum cannot reach 2^64 items either.
- WindowsShell.ToPowershellVariable, WindowsShell.ToCmdVariable: the inputs on which the source panics are excluded by a precondition (`ConversionPanics`), not modelled as an outcome. These are `${` with nothing after it, where `len() - 1` underflows, and `${…` ending in a character that takes more than one byte in UTF-8, where the slice is not on a character boundary. `FillCommand` and `SpawnTask` carry this as the requirement that no argument of the task is such an input.
- ThemeSelector.SortThemes: the library's in-place unstable sort of a vector is modelled as a function on sequences. `SortThemesIsTheOrder` shows that every sorted permutation is this one, so nothing about the order is lost; the in-place update is.
- ThemeSelector.ThemeSelector.constructor: `select_if_matching` is applied inline, through the same `MatchingIndex` the method uses, rather than by calling the method.
