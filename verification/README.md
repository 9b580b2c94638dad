# JukaHub: verified models of its protocols and transformations

This project models the parts of JukaHub that are protocols, data structures or
transformations with hard invariants, and proves those invariants for every input, every
run and every reachable state. It covers nine files of the repository: `player/bounded.go`,
`player/autoupdate.go` (with the cancel operation of `player/patch_swap.go`),
`player/browser_cache.go`, `player/a11y.go`, `player/appgrid.go`, `player/ambient.go`,
`player/androidpak.go`, `player/alarm.go`, and `script.js`.

Check everything with `dafny verify dfyconfig.toml`.

## How it is laid out

| file | what it models |
|---|---|
| `Semaphore.dfy` | the weighted semaphore: any number of callers interleaving single-token sends and receives, and the three methods on a class |
| `SwapScript.dfy` | the list of staged files, the generated POSIX swap script, and its runs on a disk of files and folders that may stop between or inside any two commands |
| `Staging.dfy` | staging a release, confirming, cancelling and repairing it away, one disk operation at a time |
| `PageCache.dfy` | the browser's page cache, a class refined to a plain recency list |
| `Json.dfy`, `Normalize.dfy` | JSON values with JavaScript's conversions, and the import of a builder config |
| `Elements.dfy` | a builder element, from its record to the attributes of a canvas element and back |
| `Numerals.dfy`, `VariablesXml.dfy` | decimal text, and the variables block as XML and back |
| `History.dfy` | the builder's undo and redo stacks |
| `Keymap.dfy`, `Chord.dfy` | controller remapping: printer, parser and settings panel; one-handed chords |
| `AppGrid.dfy` | the launcher grid: windowed drawing, hit test, D-pad movement |
| `SleepTimer.dfy`, `PakStages.dfy` | two generation-counter protocols whose stale asynchronous actions must do nothing |
| `Alarm.dfy` | the alarm clock over runs of ticks, edits and toggles, and its store |
| `Prelude.dfy` | options, ASCII case, trimming, decimal numerals |

Code that changes fields is a class whose methods are proved against a specification
function; loops stay loops; code that only computes is a function. The promises are then
proved about the specification functions. A concurrent protocol is a step function, and a
run is a list of actions, so "for every run" is "for every list of actions that is possible".

## Where the code and its comments disagree

The models follow the code. Each disagreement is stated as a lemma that says exactly when
the comment holds.

- `Acquire` "reports false (and takes nothing) if ctx was already done": kept in no state.
  From every one of them a cancelled call can end up holding its permits, if the others
  make room, and can also give up (`CancelledAcquireMaySucceed`); while nobody else moves it
  can succeed exactly when its permits are free at the start (`CancelledAcquireAlone`).
- `Release` without an acquire "will panic": it blocks when nobody holds a permit and
  otherwise takes one away from somebody (`UnmatchedReleaseBlocksOrSteals`).
- A ready marker is said to vouch for a whole tree. Cancel, confirm and repair all remove the
  tree before the marker, so a crash between the two leaves a marker that later vouches for a
  truncated tree; `TrustworthyIff` gives the exact conditions.
- The swap script is said to leave every file old or new, and its success note to mean that
  all are new. Nothing refuses a release that ships a file named like another file's
  temporary or like one of the launcher's notes (`NotesAreListed`, `VerdictTooEarly`), nor
  an installed folder where a temporary should be, into which the copy goes and which is then
  renamed to the file (`FolderSwallowsCopy`, `NestedNameBreaks`). `CrashConsistentIff` gives
  the exact condition for any names and any installed folders.
- Applying is said to replace the installation files with the staged release. After any
  history the helper can still do that exactly when every file's folder is installed and no
  folder stands where a temporary should (`CompletableIff`). The script makes no folder, so a
  release that adds one is never installed (`NewFolderNeverInstalled`).
- Keys of the page cache are stored trimmed but looked up untrimmed (`UntrimmedGetMisses`).
- Holding the chord button is said to do the same for as long as it is down; a direction is
  rewritten exactly when it is the first one pressed during the hold
  (`HoldingRewritesOnlyOnce`). Presses and releases are said to
  agree; they do exactly for buttons the layout leaves alone (`PressReleaseAgreeIff`).
- A row of the panel is said to drop the preset swap "so an explicit remap is not rewritten a
  second time". It drops only the swap of its own button, so the remap sticks exactly unless
  the new target belongs to the other pair while that is swapped (`RowWinsIff`); in the
  Nintendo order the first step on A's row already misses (`RowOvershoots`).
- The target row is described as a cycle; a disabled button never gets back to itself by
  stepping right (`CycleIsLopsided`).
- "An armed timer must not fire after leaving": its music stop runs after the lock is
  released, so it fires late exactly when leaving, a new arm or a reset falls between its
  decision and that stop (`LateStopIff`, `LeftTooLate`). The timer is said to stop playback
  first and darken the screen then; it is the other way round in every run (`DarkensFirst`).
- Whatever the builder writes on import is said to survive a round trip. A record comes back
  as it was exactly when it is faithful (`ExportedUnchangedIff`); a width of 0 comes back as
  100 (`ZeroWidthGrows`), and a menu bar loses its colours, trigger and other string
  properties (`StringSurvivesIff`). What comes back is final, except for an opacity or grid
  count that an element inherits from an object stored under `__proto__`
  (`ExportIdempotentIff`, `InheritedOpacityDrifts`).

## Model

| member | source | states |
|---|---|---|
| Semaphore.PermitsConserved | player/bounded.go:44-109 | in every reachable state of any interleaving the channel holds exactly the permits all callers hold, partial or full, and never more than its capacity |
| Semaphore.ClampsAre | player/bounded.go:35-55 | a capacity below 1 is 1; a weight is moved into 1 to the capacity and otherwise taken as asked |
| Semaphore.StepMovesOne | player/bounded.go:44-109 | every step moves its own caller alone; a send needs room and adds one token, a receive removes one, and no other step touches the channel |
| Semaphore.GivingUpOwes | player/bounded.go:56-109 | a cancelled or failed attempt owes back exactly what it took, a release its whole weight, and only a holder expands an image within the limit |
| Semaphore.OwedReceiveNeverBlocks | player/bounded.go:56-64 | whoever still owes a receive, for a matched release or a roll-back, finds a token in every reachable state |
| Semaphore.DecodesAreBounded | player/bounded.go:125-176 | at most capacity callers hold permits, and the pixels being expanded stay within capacity times the pixel limit |
| Semaphore.AcquirersProgress | player/bounded.go:56-67 | when the sum of (weight - 1) over callers still acquiring is below capacity and nobody else holds permits, every acquirer can take its next one |
| Semaphore.SomebodyMoves | player/bounded.go:44-109 | below that bound some caller inside the semaphore can always move |
| Semaphore.UnitWeightsNeverDeadlock | player/bounded.go:144-148 | when every acquirer wants one permit, as in image decoding, some caller can move in every reachable state with anybody inside |
| Semaphore.DeadlockIff | player/bounded.go:44-67 | a state where all callers sit in Acquire with live contexts and none can take its next permit is reachable if and only if the sum of (weight - 1) reaches the capacity |
| Semaphore.DeadlockLasts | player/bounded.go:44-67 | from such a state no action whatever is possible until some context ends, so it lasts |
| Semaphore.TwoHeavyCallersDeadlock | player/bounded.go:44-67 | two callers of weight 2 at capacity 2 can reach such a state |
| Semaphore.DrainsToIdle | player/bounded.go:57-64 | a releasing or rolling-back caller gives back exactly what it owes and changes nothing else |
| Semaphore.TakesComplete | player/bounded.go:54-66 | a caller running alone completes its attempt exactly when the channel has room for the rest |
| Semaphore.CancelledAcquireMaySucceed | player/bounded.go:42-64 | from every state with an idle caller whose context is done, some run that starts with its call ends with it holding its permits, and another restores the state, so the comment's promise is kept in no state |
| Semaphore.CancelledAcquireAlone | player/bounded.go:42-64 | while nobody else moves, such a call can succeed exactly when its permits are free at the start |
| Semaphore.FailedTryLeavesNothing | player/bounded.go:88-109 | under every schedule the moves of a failed TryAcquire are receives that give back what it took, one each, none of which blocks, and after the last it holds nothing |
| Semaphore.UnmatchedReleaseBlocksOrSteals | player/bounded.go:69-84 | a stray receive blocks exactly when nobody holds a permit, and otherwise leaves one token fewer than are held |
| Semaphore.Weighted.TryAcquire | player/bounded.go:88-109 | takes all of the clamped weight or nothing, and fails exactly when they are not all free |
| Semaphore.Weighted.Acquire | player/bounded.go:44-67 | a cancelled call leaks nothing and an uncancelled one holds its clamped weight |
| Semaphore.Weighted.Release | player/bounded.go:72-84 | undoes an Acquire of the same raw weight |
| SwapScript.StagedInstallFiles | player/autoupdate.go:810-865 | lists exactly the regular files of the walk, at any depth, whose name does not start with apply-update and whose first folder is not required in any letter case, in walk order with release-info.json last; refuses a walk with a bad entry for the first such entry, one without such files, and one with more than 128 |
| SwapScript.StampLastIsStableSort | player/autoupdate.go:857-865 | the list is ordered by the source's comparison, keeps the relative order within both classes, and is a permutation |
| SwapScript.StableSortIsUnique | player/autoupdate.go:857-865 | no other list has these two properties, so it is what any stable sort returns |
| SwapScript.WriteSwapScript | player/autoupdate.go:944-976 | the loop writes a copy and a rename per file, in list order, then journal removal, hand-off and relaunch |
| SwapScript.ScriptIs | player/autoupdate.go:944-975 | the lines by position: copy and rename for each file, then permissions, journal, hand-off, clearing the notes, relaunch |
| SwapScript.TargetsAre | player/autoupdate.go:944-950 | dir/x is copied to dir/x.new and renamed from there; where a folder of the target's name stands, the file goes inside it |
| SwapScript.RenameMoves | player/autoupdate.go:949 | renaming a folder moves everything below it to the same place below the new name, and nothing else |
| SwapScript.ExitsTell | player/autoupdate.go:948-975 | in every history the helper exits with 5 only while copying, with 6 only while renaming, and cleanly only after the line that removes the journal |
| SwapScript.CrashConsistent | player/autoupdate.go:857-976 | under the condition of the next row: wherever a run stops and however often it is restarted, each destination is all old or all new, a new stamp means all files are new, and a missing journal, success note or clean exit means the same |
| SwapScript.CrashConsistentIff | player/autoupdate.go:938-976 | for distinct names and any installed folders, the guarantee over all runs and all file contents, old-or-new and no sign of success before all files are new, holds if and only if every name the script gets to has a temporary that is neither a file of the release nor a folder, and no note is written over a file of the release |
| SwapScript.NotesAreListed | player/autoupdate.go:810-865 | the listing accepts a staged file named like a note |
| SwapScript.VerdictTooEarly | player/autoupdate.go:938-976 | a release shipping the success note and one more file has a run in which the note exists while that file is old |
| SwapScript.FolderSwallowsCopy | player/autoupdate.go:944-954 | with a folder x.new installed, a run copies x into it, renames the folder to x, removes the journal and announces success |
| SwapScript.NestedNameBreaks | player/autoupdate.go:944-954 | the names x and x.new/y, with x.new/ installed, break the guarantee |
| SwapScript.WritesOnlyRelease | player/autoupdate.go:944-976 | no run of a script, whatever its names and whatever is installed, changes a path that is neither at nor below a name of the release or its temporary, nor the journal or a note |
| SwapScript.WritesOnlyItsFiles | player/autoupdate.go:944-976 | where the guarantee holds, nothing but the files, their temporaries, the journal and the notes themselves changes |
| SwapScript.PreservedToolsUntouched | player/autoupdate.go:794-806 | no run of a script made from any list of non-empty names that leaves required/ out writes anything under it |
| SwapScript.RerunCompletes | player/autoupdate.go:944-976 | after any interrupted run a fresh start can replace every file and remove the journal, given the folders of all files and no folder in a temporary's place |
| SwapScript.CompletableIff | player/autoupdate.go:944-976 | for distinct names that are neither temporaries nor notes, this is possible from every history if and only if those folders are there and no folder is in a temporary's place |
| SwapScript.NewFolderNeverInstalled | player/autoupdate.go:944-954 | a file in a folder that is not installed never arrives, no start ends cleanly, and the journal stays |
| Staging.MarkerMeansWhole | player/autoupdate.go:716-773 | in a sound setting a marker vouches for a whole tree or an installed release after every run with crashes anywhere |
| Staging.StepChangesOnly | player/autoupdate.go:716-773 | every step changes only its own fact: a marker appears by writing it and goes by removing it, a whole tree and an executable come from the archive, and removing creates nothing |
| Staging.ExtractingHasDir | player/autoupdate.go:734-750 | in every run the archive is unpacked into a directory that exists |
| Staging.TrustworthyIff | player/autoupdate.go:716-780 | a truncated tree of a release that is not installed is never reused, over all runs, if and only if marker removal works, cancelling and repairing finish, and confirming finishes or no later release is installed |
| Staging.CancelCutShort | player/patch_swap.go:318-336 | a run in which a cancel stops between tree and marker and a truncated tree is then reused |
| Staging.RepairCutShort | player/patch_engine.go:2704-2720 | the same for a repair, which clears the staging directory in the order of names |
| Staging.ConfirmCutShort | player/autoupdate.go:990-1019 | the same for a confirm followed by another release |
| Staging.MarkerStuck | player/autoupdate.go:731-733 | the same when the marker cannot be removed |
| Staging.StagingIsARun | player/autoupdate.go:716-773 | an undisturbed attempt with any outcome of its fallible calls is a run of the machine and ends in the stated disk |
| Staging.Area.StageDownloadedRelease | player/autoupdate.go:716-773 | the procedure leaves exactly that disk and succeeds exactly when it wrote, or tried to write, the marker |
| Staging.Area.CleanUp | player/autoupdate.go:1014-1018 | the clean-up of all three operations is a run of the machine: tree first, marker second |
| PageCache.EvictedIsShortest | player/browser_cache.go:104-116 | eviction removes exactly the shortest least-recent prefix that restores both limits |
| PageCache.WeightAdds | player/browser_cache.go:51-62 | a page weighs the UTF-8 bytes of its text, 128 per block and the bytes of each image: one more character, block or image adds just that |
| PageCache.LimitsAre | player/browser_cache.go:22-30 | eight pages and twelve megabytes; a page is accepted when its address is not blank, it was loaded, and it weighs at most six |
| PageCache.LooksAndForgets | player/browser_cache.go:65-145 | forgetting drops that page alone, a lookup drops none and makes its page the newest, clearing drops all |
| PageCache.PutLeavesTheRest | player/browser_cache.go:80-117 | a refused page changes nothing, and while there is room an accepted one drops no other |
| PageCache.HistoryKeepsInv | player/browser_cache.go:65-145 | after any sequence of operations the list has distinct trimmed addresses, right weights, and fits both limits |
| PageCache.PutKeepsNewestTwo | player/browser_cache.go:80-117 | an accepted page survives its own put, and so does the page that was newest before it |
| PageCache.HitsAreCurrent | player/browser_cache.go:65-117 | whatever is held is the page last accepted under that address since it was last dropped |
| PageCache.ListIsUseOrder | player/browser_cache.go:65-117 | the list is in order of last use over every history |
| PageCache.UntrimmedGetMisses | player/browser_cache.go:65-78 | a lookup with surrounding white space never hits, whatever was put |
| PageCache.BrowserCache.CachedPage | player/browser_cache.go:65-78 | refines the list's get: the page found, or nothing, and the new recency order |
| PageCache.BrowserCache.CachePage | player/browser_cache.go:80-117 | refines the list's put, including the early return for oversized pages and the eviction loop |
| PageCache.BrowserCache.ForgetPage | player/browser_cache.go:122-135 | refines the list's forget |
| PageCache.BrowserCache.ClearPageCache | player/browser_cache.go:138-145 | refines the list's clear |
| PageCache.BrowserCache.CacheSize | player/browser_cache.go:148-152 | the reported sizes are those of the list and within both limits |
| Normalize.NormalizedGet | script.js:3811-3832 | what each property of an accepted element becomes, property by property; one named `__proto__` is lost |
| Normalize.ElementIff | script.js:3811-3814 | an entry is an element exactly when it is a record whose type is not blank |
| Normalize.TypeReads | script.js:3813-3816 | the type is trimmed and in lower case, and menu-element becomes menu |
| Normalize.NumberReads | script.js:3817-3829 | a place, a size or a grid count becomes the integer it reads as, else 0, null or nothing |
| Normalize.RoundedNumber | script.js:3788-3790 | a number reads as the nearest integer, halves upwards |
| Normalize.NumericText | script.js:3791-3794 | a text reads as what is left without the white space around it and a unit px in any letter case |
| Normalize.OpacityReads | script.js:3823-3825 | an opacity is moved into 0 to 1, and left out when it is no number |
| Normalize.TextReads | script.js:3822-3830 | a number or a boolean as text becomes its spelling, and autoRefresh is on only for true, as a value or as a word |
| Normalize.NormalizeYieldsNormal | script.js:3811-3832 | an accepted element has the normal shape: trimmed lower-case type, integer place, integer or null size, opacity within [0, 1] |
| Normalize.NormalIffFixed | script.js:3811-3832 | the elements that normalising leaves alone are exactly those of that shape |
| Normalize.NormalizeKeepsTheRest | script.js:3811-3832 | every property the importer does not interpret comes through untouched, but for one named `__proto__`, which is lost |
| Normalize.UniqueNameIsFree | script.js:3803-3809 | the chosen name is free, trimmed and not empty, and a usable free name is kept |
| Normalize.UniqueNameIs | script.js:3803-3809 | a taken name gets the first number from 2 on that is free, in brackets, and a blank one is called Scene |
| Normalize.UniqueSceneName | script.js:3803-3809 | the search ends, because the taken names are finite and decimal suffixes differ, and returns the first free candidate |
| Normalize.NormalizeElements | script.js:3877-3894 | the loop keeps exactly the accepted elements in order, and kept plus skipped is every entry |
| Normalize.RepairsCount | script.js:3885-3892 | each of the six numbers that is there and cannot be read counts one repair, and nothing else counts |
| Normalize.FixedSnoc | script.js:3879-3894 | the repairs of a list are those of its accepted elements; an entry that is dropped counts none |
| Normalize.KeptAgain | script.js:3877-3894 | a second pass over kept elements keeps them all as they are and repairs nothing |
| Normalize.AcceptedConfigIsOk | script.js:3836-3919 | an accepted config has a scene, pairwise distinct non-empty names, normal elements only, and a report that accounts for every scene and element of the input |
| Normalize.AcceptedIff | script.js:3836-3901 | given scenes, a config is accepted if and only if one of them is an object |
| Normalize.RefusedIff | script.js:3837-3854 | without scenes it is refused, with the error that fits |
| Normalize.ScenesImported | script.js:3867-3899 | the j-th scene of an accepted config is the j-th object of the source's scenes with its elements normalised, under the name it asked for, trimmed, or its number, or the first free numbering of that; every other property is kept |
| Normalize.MapScenes | script.js:3846-3850 | a map of scenes is read in key order, each scene named after its key |
| Normalize.ReportGrows | script.js:3867-3898 | what each entry adds to the report: its warning, or its elements, skipped entries and repairs |
| Normalize.RenamesGrow | script.js:3872-3874 | a rename is reported exactly when a scene that had a name got another one |
| Normalize.VariablesImported | script.js:3903-3905 | the variables of an accepted config are its source's if and only if these are a record of finite values; they are an empty record when they are none, and a finite one comes through whatever else is in the record |
| Normalize.SizesImported | script.js:3907-3915 | width and height are the first of their three settings that is given, when that is a positive number, else 1280 and 720 |
| Normalize.SettingsKept | script.js:3910-3916 | every other setting comes through as it was, but for one named `__proto__` |
| Normalize.NormalizedAgainIff | script.js:3836-3919 | normalising an accepted config again gives the same config and an empty repair report if and only if it has no nested jukaconfig wrapper |
| Normalize.ImportScene | script.js:3867-3899 | one turn of the loop over scenes does exactly one step of the specification |
| Normalize.NormalizeImportedConfig | script.js:3836-3919 | the whole procedure, with its four refusals, computes the specification; other settings come through, and the variables do if and only if they are a record of finite values |
| Numerals.ParseIntText | script.js:3563-3567 | parseInt undoes the decimal text of every integer |
| Numerals.ParseIntSigned | script.js:3564-3567 | parseInt takes one sign before the digits |
| Numerals.ParseDigitsReads | script.js:3564-3567 | and then the digits, leading zeros too, whatever follows |
| Elements.ConfigGet | script.js:3551-3658 | what export writes for each property of any canvas element, through all guards and triggers |
| Elements.EditedString | script.js:3570-3626 | a text written into the attribute of a plain property of any canvas element is exported as it is, and an empty one not at all |
| Elements.EditedNumber | script.js:3564-3636 | a place, size or grid count is exported as the number written, and dropped when none can be read |
| Elements.EditedDefault | script.js:3579-3586 | a font or source is exported as written, except that the control's default is left out unless the import declared the property |
| Elements.EditedOpacity | script.js:3588-3596 | a percentage is exported as a fraction, the full one only when the import declared an opacity |
| Elements.EditedSwitch | script.js:3634 | the switch of a text browser is exported as on exactly when it says so |
| Elements.EditedOwned | script.js:3604-3611 | a property of a trigger is exported as written while that trigger is set, and otherwise stays as imported |
| Elements.EditsAreLocal | script.js:3551-3658 | writing one attribute changes no other property of the export, save what a type, a source or a trigger decides |
| Elements.EditedLabelIff | script.js:464-477 | the label a user gives an imported element is its text in the export if and only if it is not the caption the builder itself had painted for want of a text |
| Elements.EmptiedLabel | script.js:464-477 | an emptied label drops the text |
| Elements.OtherLabels | script.js:3538-3650 | a text browser's label is exported once it differs from the name of its source, and a field's text is not its label |
| Elements.TypeCaseIgnored | script.js:3538-3546 | the letter case of the type does not matter to the label |
| Elements.UntypedLabel | script.js:3546 | without a type any label is text |
| Elements.LabelIsLocal | script.js:464-477 | a new label changes no other property |
| Elements.ShownLabel | script.js:5714-5744 | what the canvas shows on a created element, and whether the builder marked it as its own |
| Elements.SizesDrawn | script.js:5701-5712 | the size a drawn element carries: none when the import left it open, 100 by 40 for 0, else the given one |
| Elements.BoxAttr | script.js:5664-5838 | the value of every attribute of a created element after all its assignments |
| Elements.ExportGet | script.js:5636-5844 | what each property of a normalised record is exported as, from its own value and the value the canvas sees |
| Elements.ExportIdempotentIff | script.js:3551-3705 | normalising, drawing and exporting an exported element gives the very same record, for every element the importer accepts, if and only if no opacity or grid count it inherits from an object stored under `__proto__` is one the importer would change |
| Elements.ExportIdempotent | script.js:3551-3705 | in particular for every accepted element that stores no object there |
| Elements.InheritedOpacityDrifts | script.js:5654-5663 | an element that inherits opacity 5 is exported with it and differs after a second round |
| Elements.UnmodelledVerbatimIff | script.js:3525-3557 | a property the builder does not model comes back verbatim if and only if it is not named `__proto__` and its value holds only finite numbers |
| Elements.StringSurvivesIff | script.js:3664-3698 | a string property survives import and export if and only if it is not empty and the element is not a menu bar |
| Elements.ExportedUnchangedIff | script.js:3660-3698 | a normalised record comes back exactly as it went in if and only if it is faithful, a condition on each of its properties: strings not empty, a size given and not 0, whole percent, the switch of a text browser declared, and so on |
| Elements.ZeroWidthGrows | script.js:5701-5712 | an element of width 0 that is no menu bar comes back 100 wide |
| Json.SavedVerbatimIff | script.js:3531-3535 | the preserved record keeps a value as it is if and only if all its numbers are finite |
| Json.FalsyAre | script.js:5717 | what a fallback replaces: a missing value, null, false, 0 and the empty text |
| Elements.CanvasElement.constructor | script.js:5636-5844 | the step-by-step construction ends in the specified element, early return for menu bars included |
| Elements.ApplyConfigAttr | script.js:3664-3698 | what the shared assignments leave in each attribute: null and undefined keep it, the empty string removes it, anything else replaces it, and a property assigned twice counts once |
| Elements.CanvasElement.ApplyConfigAttributes | script.js:3664-3698 | the loops of set() calls around the switch leave every attribute as that says |
| Elements.CanvasElement.CopyProperties | script.js:3664-3690 | one run of set() calls, whatever the list of properties |
| Elements.CanvasElement.EditElementText | script.js:464-477 | only a button, a label or a video takes a new label, and a cancelled prompt changes nothing |
| Elements.CanvasElement.ExportTwice | script.js:3551-3658 | exporting, drawing again and exporting once more gives the first export, under exactly that condition |
| VariablesXml.EscapeXmlIsCharwise | script.js:4775-4783 | the five replacements in turn escape each character exactly once |
| VariablesXml.EscapesAre | script.js:4775-4783 | each of the five characters becomes its entity, and every other character stays |
| VariablesXml.TagOfEach | script.js:4785-4787 | in a key ASCII letters, digits, hyphen and underscore stay, and any other UTF-16 unit becomes an underscore |
| VariablesXml.LinesAre | script.js:4801-4815 | the printed lines: a scalar between its tags, a block between two lines with its entries indented by two more, an empty block not at all |
| VariablesXml.ReferenceReads | script.js:4775-4783 | each written entity is read as the character it stands for (XML 1.0, section 4.6) |
| VariablesXml.ContentEscaped | script.js:4775-4783 | any escaped text parses to itself with line ends normalised, or fails if it holds a character XML does not allow |
| VariablesXml.EntriesContent | script.js:4801-4815 | printed entries, at any indentation, parse to the elements they stand for, or not at all when a name or text is not allowed |
| VariablesXml.SurvivesIff | script.js:4888-4901 | a scalar reads back as itself if and only if it is a safe integer, a boolean, a number written with a point or plain digits, or allowed text that does not look typed |
| VariablesXml.CoerceIs | script.js:4888-4901 | what any text reads as: trimmed, a boolean in any letter case, a safe integer in String()'s spelling, a decimal numeral by its value, and otherwise the text itself, padding included |
| VariablesXml.PaddingIsIgnored | script.js:4888-4901 | white space around a typed scalar, and the letter case of a boolean, never change what it reads as |
| VariablesXml.IntFormIff | script.js:4892 | the integer test accepts exactly an optional sign and digits |
| VariablesXml.FloatFormIff | script.js:4896 | the decimal test accepts exactly an optional sign, digits with one point, and an optional exponent |
| VariablesXml.VariablesRoundTripIff | script.js:4801-4910 | for every tree, reading back the printed block returns the same typed tree if and only if all keys are XML names other than `__proto__`, no block is empty, and every scalar survives |
| VariablesXml.ReadKidsKeys | script.js:4903-4910 | the object read from any children has each name once, in order of first appearance, and no `__proto__` |
| VariablesXml.LastChildWins | script.js:4903-4910 | under each name it holds the last child of that name |
| VariablesXml.VariablesToXml | script.js:4801-4815 | the recursive printing loop |
| VariablesXml.XmlVariablesToObject | script.js:4903-4910 | the recursive reading loop, a repeated name overwriting in place |
| History.DepthIsCapped | script.js:217-237 | undo depth plus redo depth is at most 60 in every reachable history |
| History.LabelsFollow | script.js:217-237 | a step carries its edit's label, "edit" when that is empty, and keeps it when undone and redone |
| History.UndoRedoIdentity | script.js:344-358 | n undos followed by n redos restore the workspace and both stacks, labels included |
| History.RedoUndoIdentity | script.js:344-358 | and the other way round |
| History.UndoMovesBack | script.js:344-351 | an undo moves the cursor one state back on an unchanged timeline |
| History.RedoMovesForward | script.js:352-358 | a redo moves it forward |
| History.EditRewritesFuture | script.js:217-222 | an edit drops the future, keeps at most 60 states behind it and appends its own |
| History.CommitRewritesFuture | script.js:227-237 | a committed gesture is the same edit seen from its end, and one that changed nothing leaves no step |
| History.UndosGoBack | script.js:344-351 | n undos land n states back on the timeline |
| History.UndoReturnsRecorded | script.js:217-351 | after any edits, n undos return the workspace as it was n edits ago |
| History.Editor.PushUndo | script.js:217-222 | the stacks after the call, the oldest entry dropped at the cap |
| History.Editor.CommitUndoSnapshot | script.js:227-237 | the stacks after the call, unchanged when nothing changed |
| History.Editor.UndoEdit | script.js:344-351 | the workspace and both stacks after the call |
| History.Editor.RedoEdit | script.js:352-358 | the workspace and both stacks after the call |
| Keymap.ParseKeymap | player/a11y.go:417-437 | every string, however malformed, reads as a well-formed keymap |
| Keymap.EntryReads | player/a11y.go:417-437 | one entry of a hand-written keymap, in any letter case and spacing, sends the named button to the named target or to nowhere; a button as its own target says nothing |
| Keymap.EntrySkipped | player/a11y.go:417-437 | an entry without a colon or for an unknown button costs only itself |
| Keymap.KeymapString | player/a11y.go:442-457 | the loop over the name table writes exactly the specified text |
| Keymap.PrintParses | player/a11y.go:417-457 | parsing what is printed gives the keymap back, for every well-formed keymap |
| Keymap.PanelHistoryWellFormed | player/a11y.go:803-898 | every sequence of panel changes from the defaults keeps the keymap well-formed |
| Keymap.SavedLayoutReloads | player/a11y.go:138-205 | whatever was done on the panel, the saved keymap reloads unchanged |
| Keymap.ReloadReplaces | player/a11y.go:161-163 | loading a printed keymap puts exactly it in place of the present one |
| Keymap.SwapsExchange | player/a11y.go:528-549 | without entries a layout is an exchange: A with B and X with Y as switched on, and no other button |
| Keymap.EntryThenSwap | player/a11y.go:514-526 | an entry is followed before the swaps, and a disabled one swallows the press |
| Keymap.ResetIsPlain | player/a11y.go:1087-1097 | after a reset every button sends itself |
| Keymap.TwoPresetSteps | player/a11y.go:1020-1031 | the preset row goes to the Nintendo order, from there to the standard order, and from there back |
| Keymap.RowWinsIff | player/a11y.go:833-842 | the row a user moves wins over the preset if and only if its new target is not in the other pair while that is swapped |
| Keymap.RowOvershoots | player/a11y.go:833-842 | in the Nintendo order one step on A's row aims at X and A then sends Y |
| Keymap.RowLeavesTheRest | player/a11y.go:1005-1019 | a row leaves every other entry, and drops a swap only for its own two buttons |
| Keymap.SelectSwapKeepsBoth | player/a11y.go:882-898 | after swapping Select and Start each sends the other; the next step disables Select alone, and the third leaves both plain |
| Keymap.CycleIsLopsided | player/a11y.go:803-831 | where one step of the target row leads, and exactly when a step back restores the button |
| Keymap.TargetsDistinct | player/a11y.go:803-815 | the target list names nothing twice |
| Keymap.Settings.NextTarget | player/a11y.go:803-831 | the list building and the scan compute the specified next target |
| Keymap.Settings.AdjustButtonRow | player/a11y.go:1005-1044 | the layout after a change of one button row |
| Keymap.Settings.SelectKeyRow | player/a11y.go:870-898 | the layout after a change of the Select row |
| Keymap.Settings.SaveAndReload | player/a11y.go:138-205 | saving and loading leaves the keymap as it was |
| Chord.TapsPayForRewrites | player/a11y.go:623-672 | in every run each rewrite and each pending latch is paid for by its own accepted tap |
| Chord.HeldIsDown | player/a11y.go:640-660 | in every run the chord button counts as held exactly while it is down |
| Chord.LatchIsParity | player/a11y.go:640-670 | in every run the latch is on exactly when accepted taps and rewrites together are odd in number: each tap turns it on or off and each rewrite uses it up |
| Chord.ArmedDirections | player/a11y.go:594-606 | with the latch on, up, down, left and right arrive as A, B, X and Y through the layout, and everything else as it is |
| Chord.OneTapOneRewrite | player/a11y.go:623-672 | between two rewritten directions there is always another accepted tap |
| Chord.HoldingRewritesOnlyOnce | player/a11y.go:590-672 | in every run, a direction pressed while the chord button is held after an accepted tap is rewritten if and only if it is the first one of that hold |
| Chord.PressedIsExact | player/a11y.go:640-672 | in every alternating run the record holds exactly the rewritten presses still down, each with its face button |
| Chord.ReleaseMatchesPress | player/a11y.go:623-638 | a release is delivered as the face button recorded at its press, and as itself otherwise |
| Chord.PressReleaseAgreeIff | player/a11y.go:514-525 | in every alternating run a press and its release, whatever comes between them, are delivered as the same button if and only if the layout leaves the button alone that was meant |
| Chord.SwapSplitsAPress | player/a11y.go:528-549 | with A and B swapped a plain A goes down as B and comes up as A |
| Chord.HeldNavDirection | player/a11y.go:470-506 | the two loops report exactly the held directions that were not rewritten, right and down winning a tie, in whatever order the held set is read |
| Chord.RepeatFollowsDelivery | player/a11y.go:470-506 | in every alternating run a chorded press never repeats as a direction and a plain one always does |
| Chord.OneDirectionHeld | player/a11y.go:486-495 | left and up are the negative directions |
| Chord.Runtime.RemapEvent | player/a11y.go:623-672 | the in-place rewrite computes the specified state and delivery |
| AppGrid.TileWidthPositive | player/appgrid.go:55-70 | for every positive usable width the columns fit side by side, each tile has positive width, and at least the minimum when there is more than one column |
| AppGrid.LayoutIs | player/appgrid.go:55-71 | the most columns of at least 152 pixels that fit between the paddings, as wide as they can be, one of 152 when there is no room |
| AppGrid.TilesFitAcross | player/appgrid.go:55-71 | no tile reaches beyond the paddings of a panel that has room |
| AppGrid.RowsIs | player/appgrid.go:73-81 | the most rows of 132 pixels that fit below the header, at least one |
| AppGrid.FirstRowIs | player/appgrid.go:85-108 | the window scrolls only as far as the focused row needs and never past the end; a focus beyond the list shows the end |
| AppGrid.WindowIs | player/appgrid.go:118-138 | the visited entries are exactly the rows of the window and one more |
| AppGrid.OverlapsIff | player/appgrid.go:558-576 | the loop's test keeps exactly the tiles that share a line of pixels with the clipped area |
| AppGrid.DrawnIsVisited | player/appgrid.go:118-138 | every tile a full scan would draw lies in the visited window |
| AppGrid.RenderTiles | player/appgrid.go:566-578 | the windowed loop draws exactly what a scan of all entries with the same overlap test draws |
| AppGrid.CellsDisjoint | player/appgrid.go:143-152 | no point lies on two tiles |
| AppGrid.HitsIff | player/appgrid.go:143-220 | a point hits the tile of a row and column exactly when that tile is whole inside the panel and the point is on it |
| AppGrid.ClickableIsDrawn | player/appgrid.go:201-220 | a tile that can be clicked on the panel is drawn |
| AppGrid.IndexAt | player/appgrid.go:201-220 | the hit test returns the one tile under the point, always a drawn one, or none |
| AppGrid.FocusInWindow | player/appgrid.go:85-108 | the focused row lies inside the scrolled window |
| AppGrid.FocusIsDrawn | player/appgrid.go:85-138 | the focused tile is drawn exactly when the panel is taller than its header, and whole from 188 pixels on |
| AppGrid.EveryTileReachable | player/appgrid.go:224-268 | from every tile a D-pad sequence reaches every other tile, a short last row included |
| AppGrid.PressClamped | player/appgrid.go:240-266 | a press stays at the edges and before a missing tile, down above a gap goes to the last tile, and a stale focus to the first |
| AppGrid.PressKeepsLine | player/appgrid.go:240-266 | left and right never leave the row, up and down leave the column only for the last tile |
| AppGrid.Launcher.Move | player/appgrid.go:224-270 | one press moves the focus as specified and never off the list |
| SleepTimer.EveryInterleaving | player/ambient.go:248-396 | the invariant of the mode over every interleaving of calls and waking goroutines |
| SleepTimer.AtMostOneLiveTimer | player/ambient.go:364-396 | of all sleeping goroutines at most one can still act |
| SleepTimer.ScreenFlags | player/ambient.go:300-338 | a black frame still owed implies a dark screen, and that implies the mode is active |
| SleepTimer.OpenIff | player/ambient.go:242-298 | in every interleaving the dock screen is open exactly while nothing has left or reset it since it was entered |
| SleepTimer.DarkIff | player/ambient.go:267-392 | and dark exactly while it has been darkened, by hand or by a timer that took effect, and since then neither lit by an input nor left |
| SleepTimer.InputLights | player/ambient.go:300-312 | whatever came before, an input leaves it lit |
| SleepTimer.BlackFrameIff | player/ambient.go:314-340 | a black frame is owed exactly while it is dark and none was drawn since it was darkened last |
| SleepTimer.DeadlineIs | player/ambient.go:364-392 | after an arm that nothing superseded the deadline is the time of the arm plus its duration until the timer acts, and none when the duration is not positive |
| SleepTimer.TakesEffectIff | player/ambient.go:364-396 | a timer's test passes when it wakes if and only if the screen is open and no later arm, leave or reset happened |
| SleepTimer.StaleWakeIsSilent | player/ambient.go:383-396 | a superseded timer's waking changes nothing but the set of sleepers |
| SleepTimer.WakesOnce | player/ambient.go:383-396 | a goroutine decides at most once |
| SleepTimer.StoppingIff | player/ambient.go:383-396 | a stop of the music is pending exactly from a decision to act until it is carried out; nothing withdraws it |
| SleepTimer.StopsOnce | player/ambient.go:383-396 | in every interleaving a timer stops the music at most once |
| SleepTimer.DarkensFirst | player/ambient.go:362-396 | in every interleaving the screen is dark before the timer stops the music |
| SleepTimer.LateStopIff | player/ambient.go:267-396 | after an operation that superseded it a timer still stops the music exactly when its decision came before that operation and its stop was still pending |
| SleepTimer.LeftTooLate | player/ambient.go:267-396 | a run that leaves the screen between decision and stop: the music stops all the same |
| SleepTimer.SleepCycle | player/ambient.go:347-361 | the scan returns the preset after the one the remaining time belongs to |
| SleepTimer.CycleShipped | player/ambient.go:56-62 | on the shipped presets a press always lengthens the timer or switches it off past the hour |
| SleepTimer.Ambient.ArmSleep | player/ambient.go:364-396 | the new generation and the one new goroutine |
| SleepTimer.Ambient.OnTimer | player/ambient.go:383-392 | what the goroutine does and decides under the lock when it wakes |
| SleepTimer.Ambient.LeaveDock | player/ambient.go:267-284 | leaving clears the flags and retires the timer |
| SleepTimer.Ambient.NotifyInput | player/ambient.go:300-312 | input wakes the screen and nothing else |
| PakStages.ReleaseOnlyOwnStage | player/androidpak.go:458-478 | a clean-up deletes a stage only when its own launch wrote it |
| PakStages.GenCounts | player/androidpak.go:356-371 | a directory's generation counts its stagings, failed ones included |
| PakStages.DirsApart | player/androidpak.go:331 | every profile has a directory of its own |
| PakStages.LaterLaunchSurvives | player/androidpak.go:339-371 | releasing an earlier launch, at any time, leaves a later launch's stage in place |
| PakStages.StageRemainsIff | player/androidpak.go:356-478 | a stage exists if and only if its directory's last staging succeeded and has not been released |
| PakStages.NothingLeaks | player/androidpak.go:356-478 | once every successful launch has released, no stage remains |
| PakStages.DeclaredAdds | player/androidpak.go:390-440 | only files of the chosen runtime count towards the budget, each with its declared size |
| PakStages.StageInto | player/androidpak.go:374-446 | the extraction loop's 64-bit total never wraps, stops at the first member over the limit, and succeeds exactly when all members fit |
| PakStages.Registry.StageAndroidPakGen | player/androidpak.go:356-371 | the generation and directory after a launch, failed or not |
| PakStages.Registry.StageRelease | player/androidpak.go:468-478 | the directory after a release |
| Alarm.RingsExactlyOnce | player/alarm.go:46-63 | with checks close enough together a date's ring count is 1 if its time came up after arming and 0 if not |
| Alarm.RingsByDate | player/alarm.go:46-63 | every later date once, the arming date once exactly if armed before its time, at checks at most a minute apart |
| Alarm.ReliableIff | player/alarm.go:42-53 | that is so if and only if the spacing fits the catch-up window and what is left of the day |
| Alarm.MissedRing | player/alarm.go:46-53 | a run that misses its ring whenever the spacing does not fit |
| Alarm.MinuteIsTheBound | player/alarm.go:42-53 | sixty seconds is the widest spacing that is safe for every alarm |
| Alarm.FiveMinutesLate | player/alarm.go:38-53 | for an alarm that is not within five minutes of midnight, five minutes is the widest safe spacing |
| Alarm.MarkIsTodaysRing | player/alarm.go:371-378 | the list marks an alarm as having rung today exactly when it did |
| Alarm.ToggleRings | player/alarm.go:310-322 | an alarm switched on rings once for each time its clock time comes up from that moment on, so a time already past that day waits for the next |
| Alarm.EditRings | player/alarm.go:334-352 | one edited while on rings at the new hour and minute from that moment on, and at no other time |
| Alarm.NewRings | player/alarm.go:352-362 | a new one is on and rings at its time from the moment it was saved |
| Alarm.OffStaysSilent | player/alarm.go:310-322 | one switched off keeps its time and never rings, however it is edited, until it is switched on again |
| Alarm.TwoRingsNeedRearm | player/alarm.go:310-391 | two rings on one date are separated by a re-arm on that date before the new time |
| Alarm.DisabledStaysSilent | player/alarm.go:46-63 | a disabled alarm never rings, and editing does not switch it on |
| Alarm.PermutedLookup | player/alarm.go:363-367 | any reordering keeps ids distinct and finds the same alarm under each |
| Alarm.SortByTime | player/alarm.go:363-367 | the list sorted by time of day, a permutation of what it was |
| Alarm.NotLaterIs | player/alarm.go:360-365 | the order is that of the minutes of the day |
| Alarm.Store.Load | player/alarm.go:77-88 | ids handed out later are above everything in the file |
| Alarm.Store.Check | player/alarm.go:371-390 | every alarm is checked once, exactly the due ones ring, and no other changes |
| Alarm.Store.ToggleFocused | player/alarm.go:310-322 | the focused alarm reacts to the toggle, all others stay |
| Alarm.Store.DeleteFocused | player/alarm.go:324-332 | the focused alarm goes, the others stay in order, the cursor stays on the list |
| Alarm.Store.SaveAlarm | player/alarm.go:334-368 | the edited or new alarm is armed from now, and every other alarm is found unchanged |

## Left out

- Drawing, fonts, sounds, toasts, event wiring, downloads, archive and digest checking, process launching: input, output and library calls; their results are parameters or nondeterministic outcomes.
- A nil semaphore, and `runBounded`, whose semaphore is made anew per call and bounds nothing.
- The Windows swap script, journal rollback, and `AtomicWrite`; a rename and a marker write are taken as atomic, and the walk of the staging tree as yielding distinct paths.
- File names are compared letter by letter. A card that ignores case takes `x` and `X.new` for a file and a temporary of another; there the theorems about the swap script hold for the names in lower case. A folder named like the pending note is not considered, nor are links; journal and staged tree are taken to lie apart from the files a release installs.
- Staging directories of two tags that sanitise to the same name; one tag's directory and marker are modelled.
- In `PakStages`, a profile id is a plain name, which joining paths leaves as it is; removals of a stage directory take effect; generation counters do not wrap at 2^64.
- Grid coordinates are unbounded integers; the 32-bit wrap at panel sizes beyond 2^31 pixels is not modelled.
- Time zones and daylight saving in the alarm: an instant is a date and a nanosecond of that day.
- In `History`, restoring a captured workspace is taken to give that workspace back.
- Lower-casing is ASCII; strings hold Unicode scalar values, so lone surrogates are not covered.
- The text String() gives a value that is not a string, and the reading of numerals other than plain integers, are parameters; `PrintsIntegers` says what String() does with integers: exact digits for safe ones, and for others either digits it prints again, or an exponent.
- Numbers are exact: opacity is a real number, so binary rounding of x * 100 is not modelled, and parseInt of a numeral beyond 2^53 is that integer, not the double next to it.
- Normalize.NormalizeImportedConfig: what a scene or a config inherits from an object stored under its own `__proto__` is not modelled; for elements it is (`Data` in `Elements.dfy`).
- Normalize.NormalIffFixed: a normalised record is read again as data; what the copy in memory would inherit is not seen by this statement.
- VariablesXml.VariablesRoundTripIff: `xmlToJson` refuses a whole document in which an element is named `parsererror` (script.js:4915), so a variable of that name does not come back although its block alone would.
- Edits on the canvas are modelled as what they leave: one attribute written, or a new label. The controls that write them, what they refuse, and moving, resizing and duplicating elements are not.
- The labels the canvas paints for a type and a text browser's source are parameters, and so are the six words the builder writes into attributes itself (`Words`); that they are compared, not their wording, is what matters. `ShippedIsDistinct` shows that the shipped words meet the theorems' condition.
- XML: the parser covers what is printed (elements without attributes, character data, the five predefined entities); comments, CDATA sections and numeric references never occur in printed blocks. A scene or element list is not printed back and forth, since the element attribute list omits `triggerTarget`.
- `flattenCustomBlocksJs`, schema migration, theme presets, bookmarks and other one-branch helpers: they would add only easy members.
