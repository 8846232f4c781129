# Portfolio terminal and project pages — a Dafny model

This project models the interactive core of a single-page portfolio site:

- **Section store.** The section-visibility store shared by the whole page: a set of section names, "home" by default.
- **Terminal.** A command interpreter with 25 registered commands. It keeps a log of lines, a de-duplicated command history with arrow-key recall, and a busy flag. Its section commands open overlays.
- **Overlays.** Each section overlay has a stacking order, a render condition, an "N overlays open" badge, and three ways to close: the button, a backdrop click and Escape.
- **Project pages.** Route-id parsing and project lookup, the image gallery with wrap-around stepping, the live-website cards, and the technical-details rows.
- **Timeline.** Four category lists are tagged, concatenated and stable-sorted newest year first, then laid out alternately left and right.
- **Scroll restoration.** Two session-storage entries remember where the projects list was scrolled.

The JavaScript built-ins the code relies on are modelled in module `JsText`. It keeps their ECMA-262 behaviour where the code depends on it:

- `String.prototype.trim`;
- `split(sep)[0]`;
- `indexOf` and `replace` with a string pattern (first occurrence only);
- `Number.prototype.toString` for naturals;
- `parseInt` without a radix (section 19.2.5): leading whitespace, an optional sign, a `0x` prefix, and prefix-only reading;
- the truncating `%` (section 6.1.6.1.6).

Modules and the source files they model:

| module | file(s) | form |
|---|---|---|
| `Sections` | `sections.dfy` | class `SectionStore` |
| `Terminal`, `TerminalLaws` | `terminal.dfy`, `terminal_laws.dfy` | class `TerminalSession` with its state; specification functions and lemmas |
| `Overlay` | `overlay.dfy` | pure layout functions; class `SectionOverlay` |
| `Gallery` | `gallery.dfy` | class `ProjectGallery` |
| `Catalogue`, `ProjectDetail`, `LiveLinks`, `TechnicalDetailRows` | `catalogue.dfy`, `project_detail.dfy`, `live_links.dfy`, `technical_details.dfy` | pure |
| `Timeline` | `timeline.dfy` | pure |
| `ScrollRestoration` | `scroll.dfy` | class `SessionStorage`; storage operations as methods |

How the model treats time, randomness and I/O:

- **Timers.** The terminal's `setTimeout` chains are collapsed: each action's lines are appended at once, in the order the timers would fire them.
- **Clock and randomness.** The clock and `Math.random` become an `Env` value passed in: the time of day, the date text, the quote index and the matrix rows.
- **Navigation mode.** The navigation mode the overlays read is an `Option<string>` input. `None` stands for the mode being undefined.

Behaviours of the code worth noting:

- Nothing protects "home". `hideSection("home")` removes it, and only `hideAllSections` puts it back (`Sections.HideHomeRemovesIt`).
- The history skips an input already present anywhere in the history, not only a repeat of the latest entry.
- The echo line shows the trimmed input.

## Model

| member | source | states |
|---|---|---|
| Sections.SectionStore.constructor | src/context/SectionContext.tsx:27-32 | the store starts with exactly {"home"} |
| Sections.SectionStore.Show | src/context/SectionContext.tsx:34-40 | adds the name; every other name keeps its membership |
| Sections.SectionStore.Hide | src/context/SectionContext.tsx:42-48 | removes the name, "home" included; every other name keeps its membership |
| Sections.SectionStore.ShowAll | src/context/SectionContext.tsx:54-65 | the set becomes exactly the eight sections; earlier extra names are dropped |
| Sections.SectionStore.HideAll | src/context/SectionContext.tsx:67-71 | the set becomes exactly {"home"} |
| Sections.SectionStore.IsVisible | src/context/SectionContext.tsx:50-52 | `isSectionVisible`: true exactly when the name is in the visible set; reads the store and changes nothing |
| Sections.OverlaySectionsShape | src/components/layout/SectionOverlay.tsx:16 | the overlay order has seven distinct names, none of them "home"; with "home" they are the eight of `showAllSections` |
| Sections.ShowThenHide | src/context/SectionContext.tsx:34-48 | after show then hide the name is not visible, and any other name keeps its visibility |
| Sections.HideHomeRemovesIt | src/context/SectionContext.tsx:42-48 | hiding "home" removes it and changes nothing else |
| JsText.TrimEmptyIff | src/components/InteractiveTerminal.tsx:513-523 | `trim` gives "" exactly when the input is all whitespace |
| JsText.TrimIdempotent | src/components/InteractiveTerminal.tsx:513 | trimming twice is trimming once |
| JsText.TrimStart | src/components/InteractiveTerminal.tsx:513 | the result is a suffix of the input, everything cut off is whitespace, and it does not start with whitespace |
| JsText.TrimEnd | src/components/InteractiveTerminal.tsx:513 | the result is a prefix of the input, everything cut off is whitespace, and it does not end with whitespace |
| JsText.Trim | src/components/InteractiveTerminal.tsx:513 | the result is the input with whitespace removed on both sides (an infix with only whitespace around it) and is empty or starts and ends with a non-whitespace character |
| JsText.BeforeFirst | src/components/InteractiveTerminal.tsx:525 | `split(sep)[0]` is the longest prefix without the separator, ending at the separator or at the end |
| JsText.ReplaceFirst | src/components/project-details/LiveLinks.tsx:71 | `replace` with a string pattern: unchanged when the pattern does not occur; otherwise the text before the first occurrence, the replacement, then the text after that occurrence |
| JsText.ReplaceLeadingPattern | src/components/project-details/LiveLinks.tsx:71 | a pattern at the start of the text is removed |
| JsText.IndexFrom | src/components/project-details/LiveLinks.tsx:71 | the first position at or after `from` where the pattern occurs, or none exactly when it occurs nowhere from there on |
| JsText.IndexOf | src/components/project-details/LiveLinks.tsx:71 | `indexOf`: the first position where the pattern occurs, or none exactly when it occurs nowhere |
| JsText.JsRemainder | src/components/project-details/ProjectGallery.tsx:24-28 | `%` with a positive divisor: the ordinary remainder for a non-negative dividend, the negated remainder of its magnitude for a negative one, always strictly between -b and b |
| JsText.NatToString | src/components/InteractiveTerminal.tsx:279 | `toString` of a natural is a non-empty digit string that starts with '0' only for 0 |
| JsText.NatToStringValue | src/components/InteractiveTerminal.tsx:280 | the decimal digits of `n` denote `n` |
| JsText.ParseInt | src/components/ProjectDetail.tsx:12 | `parseInt` without a radix, in the steps of section 19.2.5 of ECMA-262: leading whitespace skipped, an optional sign, a `0x` prefix selecting radix 16, the longest run of digits, NaN when there is none; its laws are the `ParseInt…` rows |
| JsText.ParseIntOfNat | src/components/ProjectDetail.tsx:12 | `parseInt` of a rendered natural followed by text that does not continue the number gives that natural |
| JsText.ParseIntRoundTrip | src/hooks/useScrollRestoration.ts:38-47 | `parseInt(String(n))` is `n` for every natural `n` |
| JsText.ParseIntStopsAtText | src/components/ProjectDetail.tsx:12 | "3abc" parses to 3 |
| JsText.ParseIntNaN | src/components/ProjectDetail.tsx:12 | "abc" parses to NaN |
| JsText.ParseIntEmptyNaN | src/components/ProjectDetail.tsx:12 | "" parses to NaN |
| JsText.ParseIntNegative | src/components/ProjectDetail.tsx:12 | leading whitespace and a minus sign give the negated number |
| JsText.NoNumberNaN | src/components/ProjectDetail.tsx:12 | text that is empty or starts with a character that cannot begin a number parses to NaN |
| JsText.NegativeSigned | src/components/ProjectDetail.tsx:12 | a minus sign, a rendered natural and text that does not continue it parse to the negated natural |
| JsText.ParseIntHexPrefix | src/components/ProjectDetail.tsx:12 | "0x1F" parses as hexadecimal, 31 |
| Terminal.Rule | src/components/InteractiveTerminal.tsx:30 | `'─'.repeat(n)` has n characters, all '─' |
| Terminal.OutputLines | src/components/InteractiveTerminal.tsx:501-510 | one untimestamped output line per text, in order |
| Terminal.OutputLinesAppend | src/components/InteractiveTerminal.tsx:501-510 | output lines of a concatenation are the concatenated output lines |
| Terminal.HistoryEntries | src/components/InteractiveTerminal.tsx:277-281 | one line per history entry |
| Terminal.OverlaySetIsSections | src/components/InteractiveTerminal.tsx:444-446 | the seven names `home` hides are the overlay order's names |
| Terminal.InitialLines | src/components/InteractiveTerminal.tsx:20-62 | the welcome log: the banner stamped with the time, then the rule and the introductory lines, unstamped; the constructor row states its contract |
| Terminal.Outputs | src/components/InteractiveTerminal.tsx:72-498 | the lines each command's action prints, from its fixed text, its section, the date, the history, the matrix rows or the chosen quote; `InputAppends` and `RunAction` state what they add to the log |
| Terminal.Effect | src/components/InteractiveTerminal.tsx:154-204 | what a command does to the visible sections: a section command adds its name, `home` removes the seven overlay names, `showall` adds them, every other command changes nothing; `HomeAndShowAll` and `SectionCommandsOpenOwnName` state it |
| Terminal.DispatchOf | src/components/InteractiveTerminal.tsx:520-535 | blank input does nothing; otherwise the first word runs its registered command or is reported unknown; `ArgumentsIgnored`, `FirstWordRuns` and `UnknownFirstWord` state it |
| Terminal.HistoryAfter | src/components/InteractiveTerminal.tsx:515-518 | a non-empty trimmed input not yet in the history is appended; `HistoryStepPreserves` and `HistoryOfSession` state its laws |
| Terminal.LinesAfter | src/components/InteractiveTerminal.tsx:520-535 | the log after one input: the echo, then the action's lines, the error line, or nothing; `clear` leaves it empty; `InputAppends` and `EmptyOnlyOnClear` state its laws |
| Terminal.VisibleAfter | src/components/InteractiveTerminal.tsx:520-531 | the visible sections after one input: the effect of the command it runs, unchanged otherwise; `HomeAndShowAll` and `BlankInputEchoesOnly` state it |
| Terminal.TerminalSession.constructor | src/components/InteractiveTerminal.tsx:20-67 | the welcome log (only its first line timestamped), empty history, cursor -1, empty input, not busy |
| Terminal.TerminalSession.AddLine | src/components/InteractiveTerminal.tsx:501-510 | appends exactly one line; only command lines carry the timestamp |
| Terminal.TerminalSession.Emit | src/components/InteractiveTerminal.tsx:117-121 | appends the texts as output lines, in order |
| Terminal.TerminalSession.ListHistory | src/components/InteractiveTerminal.tsx:268-283 | "No commands in history" for an empty history, else "i  entry" for each entry, in order |
| Terminal.TerminalSession.GoHome | src/components/InteractiveTerminal.tsx:440-451 | hides exactly the seven overlay sections and prints the two home lines |
| Terminal.TerminalSession.ShowEverything | src/components/InteractiveTerminal.tsx:479-497 | shows exactly the seven overlay sections and prints the four showall lines |
| Terminal.TerminalSession.ShowOverlays | src/components/InteractiveTerminal.tsx:485-491 | the seven `showSection` calls add exactly the overlay set |
| Terminal.TerminalSession.OpenSection | src/components/InteractiveTerminal.tsx:154-204 | a section command announces its script, shows its own section, and prints its confirmation and the close hint |
| Terminal.TerminalSession.RunAction | src/components/InteractiveTerminal.tsx:72-498 | `clear` empties the log; any other command appends exactly its outputs and changes the sections as its effect says |
| Terminal.TerminalSession.Execute | src/components/InteractiveTerminal.tsx:512-536 | history, log, visible sections and busy flag after one input, as functions of the state before it |
| Terminal.TerminalSession.Record | src/components/InteractiveTerminal.tsx:515-518 | a non-empty trimmed input not yet in the history is appended; otherwise nothing changes |
| Terminal.TerminalSession.Respond | src/components/InteractiveTerminal.tsx:520-535 | echo line first; then nothing (blank input), the command's action, or one "Command not found" error line |
| Terminal.TerminalSession.SetInput | src/components/InteractiveTerminal.tsx:643 | the field holds the typed text |
| Terminal.TerminalSession.KeyDown | src/components/InteractiveTerminal.tsx:538-561 | Enter executes and resets the field and cursor; the arrows move the cursor within the history, newest first, and load the entry; other keys change nothing; the cursor stays in range |
| Terminal.TerminalSession.Submit | src/components/InteractiveTerminal.tsx:539-542 | Enter leaves the history, log and sections as executing the trimmed field does, then clears the field and puts the cursor back at -1 |
| Terminal.TerminalSession.HistoryUp | src/components/InteractiveTerminal.tsx:543-549 | ArrowUp moves the cursor one entry older unless it is at the oldest, and loads that entry; the cursor stays in range |
| Terminal.TerminalSession.HistoryDown | src/components/InteractiveTerminal.tsx:550-559 | ArrowDown moves the cursor one entry newer and loads it, or from the newest entry back to -1 with an empty field; at -1 nothing changes |
| TerminalLaws.TrimmedInputs | src/components/InteractiveTerminal.tsx:513 | one trimmed input per raw input |
| TerminalLaws.TrimmedInputsSnoc | src/components/InteractiveTerminal.tsx:513 | trimming a session extended by one input extends the trimmed session by that input's trim |
| TerminalLaws.HistoryStepPreserves | src/components/InteractiveTerminal.tsx:515-518 | one input keeps the history trimmed, non-empty and duplicate-free, and only appends, by at most one entry |
| TerminalLaws.HistoryOfSession | src/components/InteractiveTerminal.tsx:515-518 | after any session the history is well formed and holds exactly the non-empty trimmed inputs |
| TerminalLaws.ErrorCount | src/components/InteractiveTerminal.tsx:534 | the number of error lines is at most the number of lines |
| TerminalLaws.ErrorCountAppend | src/components/InteractiveTerminal.tsx:534 | error counts add over concatenation |
| TerminalLaws.ErrorCountOutputs | src/components/InteractiveTerminal.tsx:72-498 | command actions add no error lines |
| TerminalLaws.InputAppends | src/components/InteractiveTerminal.tsx:501-535 | unless the command is `clear`: the old log is a prefix, the echo comes next with a timestamp, exactly the command line is stamped, and one error line is added exactly for an unknown first word |
| TerminalLaws.BlankInputEchoesOnly | src/components/InteractiveTerminal.tsx:513-523 | whitespace-only input echoes the bare prompt and changes neither history nor sections |
| TerminalLaws.ClearEmptiesLog | src/components/InteractiveTerminal.tsx:125-131 | the log is empty after "clear…" exactly when "clear" is the whole first word |
| TerminalLaws.EmptyOnlyOnClear | src/components/InteractiveTerminal.tsx:125-131 | the log is empty after an input exactly when the input runs `clear`; every other input leaves at least its echo |
| TerminalLaws.OnlyClearClears | src/components/InteractiveTerminal.tsx:125-131 | no registered name other than "clear" runs `clear` |
| TerminalLaws.FirstWordRuns | src/components/InteractiveTerminal.tsx:525-531 | a registered word followed by nothing or by a space runs that word's command |
| TerminalLaws.FirstWordLonger | src/components/InteractiveTerminal.tsx:525 | a word followed directly by a non-space character is not the first word |
| TerminalLaws.OtherWordKeeps | src/components/InteractiveTerminal.tsx:525-531 | an input whose first word is not "clear" never runs `clear` |
| TerminalLaws.RegisteredWordRuns | src/components/InteractiveTerminal.tsx:525-531 | a registered single word typed alone runs its command |
| TerminalLaws.FirstWordOf | src/components/InteractiveTerminal.tsx:525 | the first word is the text before the first space |
| TerminalLaws.ArgumentsIgnored | src/components/InteractiveTerminal.tsx:525-527 | text after the first space does not change what runs |
| TerminalLaws.UnknownFirstWord | src/components/InteractiveTerminal.tsx:533-535 | an unregistered first word gets exactly the echo and one error line naming it; nothing else changes |
| TerminalLaws.UnknownLines | src/components/InteractiveTerminal.tsx:520-535 | for an unregistered first word the log gains exactly the echo and then one error line naming that word |
| TerminalLaws.HistoryNumbersParse | src/components/InteractiveTerminal.tsx:277-281 | each history line reads back, through `parseInt`, as its 1-based position |
| TerminalLaws.SectionCommandsOpenOwnName | src/components/InteractiveTerminal.tsx:154-204 | each section command is registered under its section's name and shows exactly that section |
| TerminalLaws.RegisteredSection | src/components/InteractiveTerminal.tsx:154-204 | the registry maps each section's name to that section's command |
| TerminalLaws.SectionNameIsWord | src/components/InteractiveTerminal.tsx:154-204 | each section's name is a non-empty single word and one of the seven overlay names |
| TerminalLaws.HomeAndShowAll | src/components/InteractiveTerminal.tsx:440-497 | `home` removes exactly the seven overlay names and keeps "home"'s membership; `showall` adds exactly the seven |
| TerminalLaws.OverlaySetSize | src/components/InteractiveTerminal.tsx:446 | seven overlay sections |
| TerminalLaws.RecallInverse | src/components/InteractiveTerminal.tsx:543-559 | the cursor stays in range; ArrowDown undoes an ArrowUp that moved, and the reverse |
| TerminalLaws.UpsReachOlderEntries | src/components/InteractiveTerminal.tsx:543-549 | k ArrowUp presses from rest reach the k-th newest entry, stopping at the oldest |
| TerminalLaws.UpsShowEntry | src/components/InteractiveTerminal.tsx:543-549 | after k presses the field shows the k-th newest command |
| TerminalLaws.RegistryNamesLower | src/components/InteractiveTerminal.tsx:71-498 | every registered command name is made of lower-case letters only |
| TerminalLaws.NonLowerAt | src/components/InteractiveTerminal.tsx:527 | every inherited property name other than "constructor" has a character that is not a lower-case letter |
| TerminalLaws.ConstructorUnregistered | src/components/InteractiveTerminal.tsx:71-498 | "constructor" is not a registered command |
| TerminalLaws.InheritedNamesUnregistered | src/components/InteractiveTerminal.tsx:527 | no inherited property name is a registered command |
| TerminalLaws.InheritedNameIsWord | src/components/InteractiveTerminal.tsx:525-527 | every inherited property name is a non-empty single word |
| TerminalLaws.InheritedFirstWord | src/components/InteractiveTerminal.tsx:525-527 | typed alone, an inherited name is its own first word |
| TerminalLaws.AsWrittenInheritedNameSticks | src/components/InteractiveTerminal.tsx:527-531 | as written, every inherited property name (`toString`, `constructor`, `valueOf`, `__proto__`, …) passes the lookup: busy stays true for good, and only the echo is printed, with no error line |
| TerminalLaws.CorrectedReportsInheritedNames | src/components/InteractiveTerminal.tsx:527-535 | with an own-property lookup, an inherited name gets the echo and one error line |
| TerminalLaws.InheritedDispatch | src/components/InteractiveTerminal.tsx:527 | with an own-property lookup, every inherited property name dispatches as an unknown command |
| TerminalLaws.LookupsAgreeElsewhere | src/components/InteractiveTerminal.tsx:527-535 | on every other input the as-written and corrected lookups give the same log and busy flag |
| Overlay.PositionOf | src/components/layout/SectionOverlay.tsx:17 | `indexOf`: the first position holding the name, or -1 exactly when absent |
| Overlay.ZIndex | src/components/layout/SectionOverlay.tsx:14-19 | between 100 and 106: 100 plus an offset at which the overlay order holds the name, or exactly 100 for a name outside it |
| Overlay.Shift | src/components/layout/SectionOverlay.tsx:87 | the panel shift lies in 500..560 and is a multiple of 10 |
| Overlay.StackingDistinct | src/components/layout/SectionOverlay.tsx:14-19 | different overlay sections never share a z-index or shift |
| Overlay.PositionsDistinct | src/components/layout/SectionOverlay.tsx:14-19 | `indexOf` gives different positions to different members of a list |
| Overlay.StackingFollowsOrder | src/components/layout/SectionOverlay.tsx:14-19 | later sections in overlay order stack above earlier ones |
| Overlay.Renders | src/components/layout/SectionOverlay.tsx:36-58 | the overlay renders only in terminal mode and while its section is visible; `SectionOverlay.DocumentKeyDown` and `EscapeTwice` state what that means for the Escape key |
| Overlay.VisibleCount | src/components/layout/SectionOverlay.tsx:62 | the filtered count never exceeds the list length |
| Overlay.VisibleCountMeaning | src/components/layout/SectionOverlay.tsx:62 | count > 0 iff some listed section is visible; count > 1 iff two different positions are |
| Overlay.OpenOverlays | src/components/layout/SectionOverlay.tsx:61-62 | at most seven overlays are counted |
| Overlay.BadgeMeansAnotherOverlay | src/components/layout/SectionOverlay.tsx:60-102 | a rendered overlay counts itself; the badge shows exactly when another overlay section is open; "home" never counts |
| Overlay.ShowsBadge | src/components/layout/SectionOverlay.tsx:98 | the badge shows when more than one overlay section is open; `BadgeMeansAnotherOverlay` states when that is |
| Overlay.BadgeText | src/components/layout/SectionOverlay.tsx:100 | the badge reads the open-overlay count in decimal followed by " overlays open" |
| Overlay.HomeNeverCounts | src/components/layout/SectionOverlay.tsx:61-62 | adding or removing "home" never changes the count |
| Overlay.SectionOverlay.Close | src/components/layout/SectionOverlay.tsx:25-27 | hides this section and nothing else |
| Overlay.SectionOverlay.BackdropClick | src/components/layout/SectionOverlay.tsx:29-33 | closes only for a click on the backdrop itself |
| Overlay.SectionOverlay.DocumentKeyDown | src/components/layout/SectionOverlay.tsx:40-53 | Escape closes only while the overlay renders; any other key does nothing |
| Overlay.EscapeTwice | src/components/layout/SectionOverlay.tsx:40-53 | after Escape the overlay does not render, and a second Escape does no more |
| Gallery.NextIndex | src/components/project-details/ProjectGallery.tsx:23-25 | the next index stays in range and wraps from the last image to the first |
| Gallery.PrevIndex | src/components/project-details/ProjectGallery.tsx:27-29 | the previous index stays in range and wraps from the first image to the last |
| Gallery.StepsInverse | src/components/project-details/ProjectGallery.tsx:23-29 | previous undoes next and next undoes previous |
| Gallery.NextTimes | src/components/project-details/ProjectGallery.tsx:23-25 | repeated next presses stay in range |
| Gallery.NextTimesAdvances | src/components/project-details/ProjectGallery.tsx:23-25 | before the wrap, k presses move k places |
| Gallery.NextTimesCompose | src/components/project-details/ProjectGallery.tsx:23-25 | a + b presses are a presses followed by b |
| Gallery.FullCircle | src/components/project-details/ProjectGallery.tsx:23-25 | n presses return to the starting image |
| Gallery.CounterReadsBack | src/components/project-details/ProjectGallery.tsx:139-141 | the counter leads with the 1-based position, between 1 and n, which `parseInt` reads back |
| Gallery.CounterText | src/components/project-details/ProjectGallery.tsx:139-141 | the counter "current + 1 / n"; `CounterReadsBack` states what it reads as |
| Gallery.ShowsNavigation | src/components/project-details/ProjectGallery.tsx:102 | the previous and next buttons exist only for more than one image |
| Gallery.NavigationMoves | src/components/project-details/ProjectGallery.tsx:23-29 | the buttons are shown exactly when next, and likewise previous, would change the image |
| Gallery.ProjectGallery.constructor | src/components/project-details/ProjectGallery.tsx:11-12 | lightbox closed, index 0 |
| Gallery.ProjectGallery.OpenLightbox | src/components/project-details/ProjectGallery.tsx:14-17 | opens on the clicked image, which becomes current |
| Gallery.ProjectGallery.CloseLightbox | src/components/project-details/ProjectGallery.tsx:19-21 | closes and keeps the current index |
| Gallery.ProjectGallery.NextImage | src/components/project-details/ProjectGallery.tsx:23-25 | the current index becomes the next index; the lightbox stays open on a valid image |
| Gallery.ProjectGallery.PrevImage | src/components/project-details/ProjectGallery.tsx:27-29 | the current index becomes the previous index; the lightbox stays open on a valid image |
| Gallery.NextThenPrev | src/components/project-details/ProjectGallery.tsx:23-29 | next then previous shows the same image again |
| Catalogue.ProjectIds | src/data/projectsData.ts:36-460 | eight projects with ids 1 to 8 in order, hence distinct |
| Catalogue.LiveLinksShape | src/data/projectsData.ts:336-409 | only id 7 has live links: four of them, with as many screenshots |
| Catalogue.LiveLinksSecure | src/data/projectsData.ts:387-408 | every live link is an https address |
| Catalogue.DatabaseDetailShape | src/data/projectsData.ts:36-460 | exactly the projects with ids 1 and 5 have no database detail |
| ProjectDetail.RouteText | src/components/ProjectDetail.tsx:12 | `id \|\| '1'`: a missing or empty id reads "1", otherwise the id itself |
| ProjectDetail.ProjectId | src/components/ProjectDetail.tsx:12 | `parseInt(id \|\| '1')`; `SelectionByParsedId`, `MissingIdShowsFirst` and `PrefixParsedIds` state what it selects |
| ProjectDetail.UsesLiveLinks | src/components/ProjectDetail.tsx:26 | the page shows live links for id 7 and the gallery otherwise; `LiveLinksOnlyForSeven` states when |
| ProjectDetail.FindIndex | src/components/ProjectDetail.tsx:13 | `find`: the first project whose id equals the parsed id, or none exactly when no id does |
| ProjectDetail.SelectProject | src/components/ProjectDetail.tsx:13 | the page always shows a catalogue entry |
| ProjectDetail.SelectIn | src/components/ProjectDetail.tsx:13 | `find(...) \|\| list[0]` over any non-empty list returns one of its entries |
| ProjectDetail.FindInRanked | src/components/ProjectDetail.tsx:13 | in a list whose entry i has id i + 1, `find` locates id k at position k - 1 and finds nothing for any other value, NaN included |
| ProjectDetail.SelectInRanked | src/components/ProjectDetail.tsx:12-13 | in such a list, id k selects entry k - 1 and any other value the first entry |
| ProjectDetail.SelectedId | src/components/ProjectDetail.tsx:12-13 | in such a list, the selected entry's id is the parsed id when it is in range, and 1 otherwise |
| ProjectDetail.IdsAreRanks | src/data/projectsData.ts:36-460 | the entry at position i has id i + 1 |
| ProjectDetail.SelectionByParsedId | src/components/ProjectDetail.tsx:12-13 | a parsed id from 1 to 8 selects that project; anything else, NaN included, selects the first |
| ProjectDetail.FindByRank | src/components/ProjectDetail.tsx:13 | the lookup finds position id - 1 for ids 1 to 8 and nothing otherwise |
| ProjectDetail.LiveLinksOnlyForSeven | src/components/ProjectDetail.tsx:26-30 | the page shows live links exactly when the id parses to 7, the gallery otherwise |
| ProjectDetail.MissingIdShowsFirst | src/components/ProjectDetail.tsx:12-13 | a missing or empty id shows the first project |
| ProjectDetail.PrefixParsedIds | src/components/ProjectDetail.tsx:12-13 | "3abc" shows the third project; "abc" falls back to the first |
| LiveLinks.DisplayUrl | src/components/project-details/LiveLinks.tsx:71 | the shown address is never longer than the URL; `JsText.ReplaceFirst`'s contract, `DisplayWithoutScheme`, `DisplayStripsHttps`, `DisplayStripsHttp` and `DisplayKeepsPort` state what it drops and what it keeps |
| LiveLinks.ImageAt | src/components/project-details/LiveLinks.tsx:38 | the screenshot at the same position, or none past the end |
| LiveLinks.Cards | src/components/project-details/LiveLinks.tsx:11-27 | nothing when live links are absent or empty; otherwise one card per link, in order, linking to its URL with the same-position screenshot |
| LiveLinks.AbsentWithoutChar | src/components/project-details/LiveLinks.tsx:71 | a pattern containing a character the text lacks is not found |
| LiveLinks.DisplayWithoutScheme | src/components/project-details/LiveLinks.tsx:71 | an address containing neither "https://" nor "http://" (an ftp or mailto address, say) is shown unchanged |
| LiveLinks.DisplayWithoutColon | src/components/project-details/LiveLinks.tsx:71 | in particular an address without any colon is shown unchanged |
| LiveLinks.DisplayStripsHttps | src/components/project-details/LiveLinks.tsx:71 | an https address is shown as the text after its scheme, ports and other colons included, whenever that text holds no "http://" |
| LiveLinks.HttpLacksHttps | src/components/project-details/LiveLinks.tsx:71 | "https://" is not found in an http address whose remainder lacks it |
| LiveLinks.DisplayStripsHttp | src/components/project-details/LiveLinks.tsx:71 | an http address is shown as the text after its scheme, whenever that text holds no "https://" |
| LiveLinks.DisplayKeepsPort | src/components/project-details/LiveLinks.tsx:71 | "https://host:8443/" is shown as "host:8443/" |
| LiveLinks.ClientWebsiteImages | src/components/project-details/LiveLinks.tsx:27-38 | the client websites entry gets four cards, each with the screenshot at its position |
| LiveLinks.CardShowsHost | src/components/project-details/LiveLinks.tsx:71 | a card for an https link shows the text after the scheme, whenever that text holds no "http://" |
| LiveLinks.ClientWebsiteFirstHost | src/components/project-details/LiveLinks.tsx:71 | the first card shows "etribe.quatromgt.co.ke/" |
| TechnicalDetailRows.Candidates | src/components/project-details/TechnicalDetails.tsx:11-39 | four candidates keyed architecture, database, deployment, testing, in that order |
| TechnicalDetailRows.KeepTruthy | src/components/project-details/TechnicalDetails.tsx:40 | the filter never lengthens the list |
| TechnicalDetailRows.KeptMembers | src/components/project-details/TechnicalDetails.tsx:40 | a row is kept exactly when it was a candidate with a truthy value |
| TechnicalDetailRows.RanksIncrease | src/components/project-details/TechnicalDetails.tsx:40 | filtering keeps the candidates' order |
| TechnicalDetailRows.ShownRowsMeaning | src/components/project-details/TechnicalDetails.tsx:11-40 | at most four rows, all truthy, every truthy candidate shown, in build order |
| TechnicalDetailRows.MissingDatabaseGivesThreeRows | src/components/project-details/TechnicalDetails.tsx:11-40 | without a database value the rows are architecture, deployment, testing |
| TechnicalDetailRows.FullDetailsGiveFourRows | src/components/project-details/TechnicalDetails.tsx:11-40 | with all four values every candidate is shown |
| TechnicalDetailRows.CatalogueRowCounts | src/components/project-details/TechnicalDetails.tsx:11-40 | the projects with ids 1 and 5 show three rows, all others four |
| Timeline.Tag | src/components/sections/Projects.tsx:148-151 | each listing, in order, with its fields and its list's category |
| Timeline.Combined | src/components/sections/Projects.tsx:148-152 | the four tagged lists concatenated, cybersecurity, AI & ML, web, then agents; `CombinedShape` states its contents |
| Timeline.YearText | src/components/sections/Projects.tsx:155-156 | the year text is a prefix of the period, empty only for an empty period |
| Timeline.YearKey | src/components/sections/Projects.tsx:155-156 | the sort key, `parseInt` of the year text; `RangeYear`, `BareYear` and `YearsOfPeriods` state its values |
| Timeline.Compare | src/components/sections/Projects.tsx:157 | the comparator `yearB - yearA`, with a NaN result counting as 0 as section 23.1.3.30.2 of ECMA-262 prescribes; the sort rows state what sorting by it gives |
| Timeline.Insert | src/components/sections/Projects.tsx:153-158 | inserting makes the list one entry longer |
| Timeline.SortBy | src/components/sections/Projects.tsx:152-158 | sorting keeps the length |
| Timeline.InsertPermutes | src/components/sections/Projects.tsx:152-158 | inserting adds exactly the new entry to the multiset |
| Timeline.SortPermutes | src/components/sections/Projects.tsx:152-158 | the sorted list is a permutation of its input |
| Timeline.InsertKeepsOrder | src/components/sections/Projects.tsx:152-158 | inserting a numeric year into a newest-first list keeps it newest first |
| Timeline.InsertPastNewer | src/components/sections/Projects.tsx:152-158 | an inserted entry goes past every strictly newer entry and stops before the first that is no newer |
| Timeline.SortedUnchanged | src/components/sections/Projects.tsx:152-158 | sorting a list that is already newest first leaves it unchanged |
| Timeline.SortIsNewestFirst | src/components/sections/Projects.tsx:152-158 | with numeric years the sorted list never increases in year |
| Timeline.WithYearInsert | src/components/sections/Projects.tsx:152-158 | inserting an entry of year y puts it in front of the entries already of year y and leaves the order of every other year unchanged |
| Timeline.SortIsStable | src/components/sections/Projects.tsx:152-158 | for every year, that year's entries keep their input order |
| Timeline.SortContract | src/components/sections/Projects.tsx:152-158 | permutation, newest first and stable together |
| Timeline.AllProjects | src/components/sections/Projects.tsx:148-158 | `allProjects`, the combined lists sorted by year; `AllProjectsSorted` and `ShownOrder` state it |
| Timeline.RangeYear | src/components/sections/Projects.tsx:155-156 | a period "Y – …" is keyed Y |
| Timeline.BareYear | src/components/sections/Projects.tsx:155-156 | a period "Y" is keyed Y |
| Timeline.CombinedShape | src/components/sections/Projects.tsx:147-152 | the concatenation holds ids 1 to 8, with categories Cybersecurity, AI & ML, Web Development and AI Agents by source list |
| Timeline.YearsOfPeriods | src/components/sections/Projects.tsx:26-158 | the shown periods give 2024 for ids 1, 3, 4, 5 and 2023 for the rest |
| Timeline.AllProjectsSorted | src/components/sections/Projects.tsx:147-158 | `allProjects` is a permutation of the tagged lists, newest first, each year's entries in list order |
| Timeline.ShownOrder | src/components/sections/Projects.tsx:26-158 | the timeline reads ids 1, 3, 4, 5, 2, 6, 7, 8 |
| Timeline.SortEightShown | src/components/sections/Projects.tsx:152-158 | eight entries keyed like the shown ones sort to the 2024 entries, then the 2023 entries, each in list order |
| Timeline.SidesAlternate | src/components/sections/Projects.tsx:164 | the first entry sits left and neighbours sit on opposite sides |
| Timeline.IsLeft | src/components/sections/Projects.tsx:164 | an entry sits on the left exactly at an even index; `SidesAlternate` states it |
| Timeline.TimelineHeight | src/components/sections/Projects.tsx:425 | the road is at least 200 pixels high |
| Timeline.HasValidProjects | src/components/sections/Projects.tsx:161 | markers and dots are drawn only for a non-empty list; `ShownRoad` states that the shown list is |
| Timeline.MarkerYs | src/components/sections/Projects.tsx:610-616 | one road marker per project, each strictly between 50 pixels from the top and 50 from the bottom of the road, each lower than the one before |
| Timeline.MarkerInsideRoad | src/components/sections/Projects.tsx:611-612 | marker `i` of `n` lies strictly inside the road |
| Timeline.MarkersIncrease | src/components/sections/Projects.tsx:612 | a later marker sits further down |
| Timeline.ShownRoad | src/components/sections/Projects.tsx:424-425 | the shown data is non-empty and draws eight markers on a road 3000 pixels high |
| ScrollRestoration.SessionStorage.GetItem | src/hooks/useScrollRestoration.ts:43-44 | the stored value, or none exactly when the key is absent |
| ScrollRestoration.SessionStorage.SetItem | src/hooks/useScrollRestoration.ts:38-39 | writes one key |
| ScrollRestoration.SessionStorage.RemoveItem | src/hooks/useScrollRestoration.ts:53-54 | removes one key |
| ScrollRestoration.StoredData | src/hooks/useScrollRestoration.ts:42-50 | a position exactly when its entry is present and non-empty; the section is the stored non-empty one, else "projects" |
| ScrollRestoration.AfterStore | src/hooks/useScrollRestoration.ts:37-40 | the storage after `storeScrollPosition`: the position as decimal text and the section, "projects" by default; `StoreThenGet`, `LaterStoreWins` and `OnlyTwoKeys` state its laws |
| ScrollRestoration.AfterClear | src/hooks/useScrollRestoration.ts:52-55 | the storage after `clearStoredScrollData`: both keys removed; `ClearThenGet`, `ClearUndoesStore` and `OnlyTwoKeys` state its laws |
| ScrollRestoration.StoreScrollPosition | src/hooks/useScrollRestoration.ts:37-40 | writes the position as decimal text and the section, "projects" when none is passed |
| ScrollRestoration.GetStoredScrollData | src/hooks/useScrollRestoration.ts:42-50 | reads the stored data and changes nothing |
| ScrollRestoration.ClearStoredScrollData | src/hooks/useScrollRestoration.ts:52-55 | removes both keys |
| ScrollRestoration.StoreThenGet | src/hooks/useScrollRestoration.ts:37-49 | store then read gives back the position, 0 included, and the section unless it is empty |
| ScrollRestoration.ClearThenGet | src/hooks/useScrollRestoration.ts:42-55 | after clearing, reading gives no position and "projects" |
| ScrollRestoration.EmptyStorageDefaults | src/hooks/useScrollRestoration.ts:42-50 | empty storage reads as no position and "projects" |
| ScrollRestoration.OnlyTwoKeys | src/hooks/useScrollRestoration.ts:37-55 | store and clear leave every other key as it was |
| ScrollRestoration.LaterStoreWins | src/hooks/useScrollRestoration.ts:37-40 | a later store overwrites an earlier one entirely |
| ScrollRestoration.ClearUndoesStore | src/hooks/useScrollRestoration.ts:37-55 | clearing after a store equals clearing alone; clearing twice equals clearing once |

## Left out

- Timers and interleaving: each command's delayed lines are appended at once, in firing order. Input typed while timers are pending, and the input field's `disabled` guard while busy, are not modelled.
- Line ids (`Date.now() + Math.random()`) are not modelled. The clock's time-of-day text, the `date` text, the quote index and the matrix rows come in as parameters.
- `window.open` for `github` and `linkedin` is an external effect. Only the printed lines are modelled.
- Rendering, animation, icons and colours, the 3D scenes, and the SVG road geometry built with `Math.sin`, which is floating point.
- Timeline.MarkerYs: y positions are exact reals, not double-precision numbers. The markers' x positions use `Math.sin` and are not modelled.
- Navigation mode, its toggle and its persistence are defined outside the shown context. The mode is an input.
- The `useScrollRestoration` effect that scrolls to `location.state.scrollPosition` and then clears storage: `scrollTo` is I/O and the router state is external.
- ScrollRestoration.StoreScrollPosition: `window.scrollY` is a fractional number. The model stores a natural number of pixels.
- JsText.ParseIntOfNat: exact arbitrary-precision integers. The rounding of `parseInt` beyond 2^53 is not modelled.
- Timeline.SortIsNewestFirst: proved only when every period yields a numeric year. With a NaN key the comparator is inconsistent, and section 23.1.3.30 of ECMA-262 leaves the order implementation-defined. The model still sorts such input (NaN comparing as 0), but promises nothing about the order.
- The contact form, the legacy sections and the other presentational components.

## Findings

| source | as written | input that shows it | evidently intended | confidence | as-written member | corrected member |
|---|---|---|---|---|---|---|
| src/components/InteractiveTerminal.tsx:527-531 | `commands[command]` is a property read on a plain object, so names inherited from `Object.prototype` pass the check. `.action` is then undefined, the timer callback throws before `setIsTyping(false)`, and the terminal stays busy with no error line. | typing `toString` (or `constructor`, `valueOf`, `__proto__`, …) | only the 25 own command names run; any other first word gets "Command not found" | not executed | TerminalLaws.AsWrittenInheritedNameSticks | TerminalLaws.CorrectedReportsInheritedNames |
