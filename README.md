# lds — a verified model of the browser's navigation and search

`lds` is a terminal file browser. Its screen has four panes: Directories, Files, Search
and File Info. Typing into Search filters both lists by a case-insensitive substring of
the file name, and the first match is the *best match*. Tab moves focus round the panes,
Up and Down move the selection of the focused list, and Enter opens the selection or the
best match in the editor, or changes into the selected directory. On the Files pane,
Alt-r, Alt-m, Alt-d and Alt-c rename, move, delete or copy the selected file. A
configuration file is looked for in a fixed list of places.

This project models that core in Dafny and proves what each part promises:

- `search.dfy` (`Search`): the name filter and the best-match search of utils/utils.go
  and their twins in main.go. The filter keeps exactly the matching entries, in order;
  it is idempotent and distributes over concatenation. The best match is the first
  matching entry, and pre-filtering the lists does not change it.
- `listing.dfy` (`Listing`): the directory/regular-file partition of the directory
  reader, and the reader itself with the listing as a parameter.
- `catalog.dfy` (`Catalog`): the `FileInfo` record, `GetFileType` over Go's `FileMode`
  bits, and `getPermissionChar`.
- `panes.dfy` (`Panes`): the Tab, Up and Down arithmetic shared by both key handlers.
  This covers the cursor and window invariants and Tab's four-step cycle.
- `events.dfy` (`Events`): `PromptForInput` over a sequence of key events, and
  `HandleUserInput` over Go slices modelled as arrays. Its side effects become `Action`
  values. Valid states stay valid, and every action targets what the panes show.
- `browser.dfy` (`Browser`): the main event loop of main.go as a class `Session`. Its
  methods are the frame render (titles and the two list windows) and the key handler.
  Both are proved against specification functions, with lemmas about highlighting,
  Escape, and the two states in which the loop indexes out of range.
- `layout.dfy`, `filesize.dfy`, `infolayout.dfy`, `infopane.dfy`: ui/ui.go. These are
  the pane geometry and its globals, titles, list windows, `displayText`,
  `truncateString`, the unit choice of `formatFileSize`, and `DisplayFileInfo`.
- `config.dfy` (`Config`): `ConfigLocations`, `expandPath`, `FindConfigFile` and
  `ConfigError` of config/config.go.
- `screen.dfy` (`Screen`): screen writes as a sequence of `Cell`s. Go's `range` over a
  string yields byte offsets, so a rune's column is modelled with its UTF-8 length.

Terminal I/O, the clock, process control and the file system are parameters: a listing
is a sequence of entries, a key press is an `Event`, and what exists on disk is a set of
paths. Effects the handlers would perform are returned as values.

The empty query matches every name, so the best match for "" is the first entry of the
lists, when there is one (`Search.EmptyQueryPicksFirst`); the model follows the code.

## Model

| member | source | states |
|---|---|---|
| Catalog.GetFileType | utils/utils.go:27-44 | The label is one of seven. It is "Regular File" iff no type bit is set, "Directory" iff the dir bit is set, "Symlink" iff symlink but not dir, "Named Pipe", "Socket" and "Device" each iff that bit is set and none tested before it, and "Unknown" iff only char-device or irregular bits are set. |
| Catalog.PermissionChar | main.go:780-785 | One character: byte `index` of the string's UTF-8 encoding, read as a rune, when `index` is below the byte length; "-" otherwise. |
| Catalog.PermissionCharAscii | main.go:780-785 | On an ASCII permission string the result is the character at `index`, or "-" past the end. |
| Catalog.WindowsPermissionsBreakInfoPane | main.go:704-706 | The Windows placeholder "N/A" is too short for the `[1:4]`/`[4:7]`/`[7:10]` slices of the info pane. |
| Catalog.UnixPermissionsFitInfoPane | main.go:704-706 | A ten-character ASCII mode string can take those slices. |
| Search.ContainsIffOccurs | utils/utils.go:82 | The substring test holds iff the query occurs at some index of the name. |
| Search.EmptyQueryMatches | utils/utils.go:93 | Every name contains the empty query. |
| Search.FilterFiles | utils/utils.go:76-87 | The loop returns the files unchanged for the empty query. Otherwise it returns the matching files of the specification `Matching`. |
| Search.MatchingEmptyQuery | utils/utils.go:77-79 | The empty query keeps every file. |
| Search.MatchingAppend | utils/utils.go:81-85 | Filtering a concatenation is concatenating the filtered parts. |
| Search.MatchingMembers | utils/utils.go:81-86 | A file is kept iff it is in the input and matches. |
| Search.MatchingIsMatchSubsequence | utils/utils.go:80-86 | The result is exactly the matching entries at strictly increasing indices: every matching index is present, and order and duplicates are kept. |
| Search.MatchingIdempotent | utils/utils.go:76-87 | Filtering twice by the same query is filtering once. |
| Search.FindBestMatch | utils/utils.go:89-99 | The loop returns the first match of directories, then files, then hidden files. |
| Search.FirstMatchSpec | utils/utils.go:92-97 | None iff nothing matches. Otherwise the result is an entry that matches and is preceded by no matching entry. |
| Search.EmptyQueryPicksFirst | utils/utils.go:89-99 | For the empty query the best match is the first entry. |
| Search.FirstMatchAppend | utils/utils.go:90 | The first match of a concatenation is the first part's match, else the second's. |
| Search.FirstMatchOfMatching | main.go:636-640 | Searching a filtered list gives the same best match as searching the unfiltered one. |
| Search.PrefilterKeepsBestMatch | main.go:236-240 | Filtering both lists first, then searching them with no hidden files, gives the best match of the unfiltered lists. |
| Listing.Partition | main.go:557-633 | The reader's loop splits the readable entries into `Directories` and `RegularFiles`. |
| Listing.PartitionIsComplete | main.go:557-633 | The two lists together are a permutation of the entries whose info could be read. Entries whose info fails are dropped. |
| Listing.DirectoriesMembers | main.go:628-632 | A record is in the directory list iff a readable directory entry carries it. |
| Listing.RegularFilesMembers | main.go:628-632 | A record is in the file list iff a readable non-directory entry carries it. |
| Listing.ReadDirectoryAndUpdateBestMatch | main.go:548-643 | A failed read exits with status 1. Otherwise the result is the filtered directories and files, no hidden files, and the first match among the filtered lists. |
| Panes.NextBox | events/events.go:84 | Tab moves to the next pane and wraps from pane 3 to pane 0. |
| Panes.TabPressesCycle | events/events.go:83-84 | `n` Tabs from pane `b` reach pane `(b + n) mod 4`. |
| Panes.MoveUp | events/events.go:85-91 | The selection goes up one row unless it is on row 0. The window moves up only when the selection leaves it. Order, list membership and visibility are preserved. |
| Panes.MoveDown | events/events.go:92-106 | The selection goes down one row unless it is on the last row. The window scrolls iff the new row reaches `scroll + maxHeight - 3`. Order, membership and visibility are preserved. |
| Panes.MaxHeight | events/events.go:93-100 | Panes 0 and 1 use the upper height, panes 2 and 3 the lower one, and any other pane uses 0. |
| Panes.ReplayKeepsCursorValid | events/events.go:85-106 | Any sequence of Up and Down presses keeps the cursor ordered and in its list. |
| Events.EditLine | events/events.go:52-59 | Backspace drops the last rune, if there is one. A non-zero rune is appended. Anything else leaves the line alone. |
| Events.FirstEnter | events/events.go:49-51 | The index of the first Enter, preceded by no other Enter. |
| Events.PromptForInput | events/events.go:39-67 | The loop consumes the events up to and including the first Enter. It returns the line edited by the events before it. |
| Events.EditedTyping | events/events.go:56-59 | Typing a string of non-zero runes appends it to the line. |
| Events.TypedTextIsReturned | events/events.go:44-59 | Typing a string and pressing Enter returns that string. |
| Events.BackspaceUndoesRune | events/events.go:52-59 | Backspace after a typed rune restores the line. Backspace on an empty line keeps it empty. |
| Events.HandleUserInput | events/events.go:69-183 | The focus, search text, array contents and action returned are those of `Step`. Only the two arrays are modified. |
| Events.MoveSelectionUp | events/events.go:85-91 | The arrays after Up are those of `UpStep`. |
| Events.MoveSelectionDown | events/events.go:92-106 | Down moves the selection and scroll of the focused pane as `MoveDown` does, and leaves the other entries alone. |
| Events.HandleKey | events/events.go:74-178 | Ctrl-C, Escape, Tab, Enter, Backspace and runes give the focus, search text and action of `Step`, and leave every selection and scroll offset unchanged. |
| Events.CursorMoveKeepsValid | events/events.go:85-106 | Writing an ordered, in-list cursor back into one pane keeps the whole panel valid. |
| Events.HandleRune | events/events.go:123-177 | The new search text and the action are those of `RuneStep`. |
| Events.ValidStepDefined | events/events.go:69-183 | In a valid state, with prompt events that contain an Enter, every index the handler evaluates is in range. |
| Events.StepPreservesValid | events/events.go:69-183 | No key changes the lists or the best match. Ctrl-C sets focus to -1 and changes nothing else; every other key keeps the state valid. |
| Events.SearchTextChangesOnlyOnSearch | events/events.go:119-177 | The search text changes only on the Search pane: Backspace drops its last rune, and a rune that is not an Alt command is appended. |
| Events.ActionsTargetTheSelection | events/events.go:107-172 | The editor opens the best match (Search) or the selected file (Files). Changing directory names the selected directory, going up on Escape. Rename, move and copy use the selected file and a non-empty prompted name. Delete needs Alt-d on Files. |
| Events.KeysTriggerActions | events/events.go:76-172 | The converse: Enter on Search with a best match, or on Files or Directories with a non-empty list, opens or enters the selection. Escape on a non-empty Directories pane goes up. Alt-d deletes the selected file. Alt-r/m/c rename, move or copy it to the prompted name, and do nothing when that name is empty. |
| Layout.BoxDimensions | ui/ui.go:57-63 | The four panes fit the screen, leaving at most one spare column and two spare rows. The lower pane is no taller than the upper one. |
| Layout.Globals.CalculateBoxDimensions | ui/ui.go:57-63 | The returned dimensions are `BoxDimensions`, and the two package globals are set to its half and increased heights. |
| Layout.Globals.DrawTitles | ui/ui.go:83-103 | Writes exactly the title cells and sets the globals as a side effect. |
| Layout.TitlesAreAscii | ui/ui.go:85 | The four titles are ASCII, so byte offsets are columns. |
| Layout.TitleCellsAt | ui/ui.go:87-102 | Title `k` is written character by character from its pane's corner, one column in, and the number of cells is the total title length. |
| Layout.TitleCellsStyle | ui/ui.go:99-101 | Every title cell has the title style and is on row 0 or on the first row of the lower panes. |
| Layout.TitlesDoNotOverlap | ui/ui.go:87-102 | On a screen with room for them, no cell belongs to the bands of two different titles. |
| Layout.RowStyle | main.go:257-263 | The best match on Search takes the command style. Otherwise a row is highlighted iff its pane has focus and it is the selected row. |
| Layout.WindowRowsSound | ui/ui.go:65-81 | Every row cell lies on the row of a listed file at index `j` with `scroll <= j < scroll + maxLines`, inside the pane's columns. |
| Layout.WindowRowsComplete | ui/ui.go:67-79 | Every non-empty name in the window has its first character drawn at the pane's text column. |
| Layout.DrawBox | ui/ui.go:65-81 | The cells are the window of `height - 2` rows from `scrollPosition`, with the highlight on the selected row of a focused pane. |
| Layout.WriteWindow | main.go:254-270 | The loop writes exactly the window rows of the specification. |
| Layout.TextOnScreenBounds | ui/ui.go:182-194 | Text is written only on row `y` above the screen's bottom edge, from column `startX`, left of both the screen's right edge and `startX + maxWidth`, in its style. A negative `startX` or `y` is not guarded, as in the source. |
| Layout.DisplayText | ui/ui.go:182-194 | Writes nothing off screen, otherwise the runes that fit. |
| Layout.Truncate | ui/ui.go:196-205 | The result is a prefix of the string, of `min(len, max(0, maxLen))` runes. |
| FileSize.ExponentBounds | ui/ui.go:213-216 | The loop's exponent picks the largest power of 1024 not above the size. |
| FileSize.FormatFileSize | ui/ui.go:207-222 | The loop chooses `FileSizeLabel`: bytes below 1024, otherwise a power-of-1024 divisor and a unit name. |
| FileSize.FileSizeLabelDivisor | ui/ui.go:208-216 | The divisor is at most the size and more than a 1024th of it. |
| FileSize.FileSizeLabelUnitMatches | ui/ui.go:212-221 | Below 1024 PiB the unit name matches the divisor. |
| FileSize.ExbibyteShownAsOnePetabyte | ui/ui.go:217-221 | As written, 2^60 bytes get divisor 2^60 but the label "PB", whose unit is 2^50. |
| FileSize.FileSizeLabelClamped | ui/ui.go:217-221 | Corrected: the unit name always matches the divisor. |
| FileSize.ClampedLabelUnitMatches | ui/ui.go:207-222 | Corrected label: the divisor matches its unit and never exceeds the size, and only "PB" can show 1024 or more. |
| InfoLayout.InfoRowsOnScreen | ui/ui.go:247-265 | Every drawn cell lies between column `x` and `x + maxWidth` (clipped to the screen width), and within the `rowsLeft` rows from `currentY` (clipped to the screen height). |
| InfoLayout.InfoCellsOnScreen | ui/ui.go:224-266 | Every info cell is on screen, at or right of `x`, left of `x + maxWidth`, and above the last row. |
| InfoLayout.InfoCellsOffScreen | ui/ui.go:225-231 | With no screen, or an origin off the screen, nothing is drawn. |
| InfoPane.DisplayFileInfo | ui/ui.go:224-266 | Draws the cells of the seven label/value items. |
| InfoPane.DrawInfoItems | ui/ui.go:228-234 | The guard and width clamp of `DisplayFileInfo`, over any item list. |
| InfoPane.DrawInfoRows | ui/ui.go:247-265 | The item loop: it stops at `maxDisplayHeight` items and skips items with no room for a value. |
| InfoPane.DrawInfoItem | ui/ui.go:253-264 | One row: the label and a space, then the value, cut to `valueWidth - 3` runes and "..." when longer. |
| Browser.Boxes | main.go:236-243 | There are three lists: the filtered directories, the filtered files and hidden files, and an empty Search list. |
| Browser.SelectionsInListsReadable | main.go:274-275 | When every selection is inside its list, the render's `boxes[currentBox][selectedIndices[currentBox]]` is in range. |
| Browser.InitialValid | main.go:171-178 | The start-up state is valid, every selection is in its list, and focus is on Search. |
| Browser.InfoFileIsListed | main.go:273-279 | The info pane shows an entry of the focused list, or on Search the best match, which is listed and matches the query. File Info focus shows nothing. |
| Browser.HighlightOnlyOnSelection | main.go:254-263 | Every highlighted cell of a frame is on the screen row of the focused list pane's selection. |
| Browser.DrawFrame | main.go:213-271 | The cells written are the titles followed by the two list windows of `FrameCells`. |
| Browser.KeyStepPreservesValid | main.go:362-430 | Every defined key keeps the loop state valid. |
| Browser.KeyStepUp | main.go:384-390 | Up replaces the focused pane's selection and scroll with those of `MoveUp`; nothing else changes. |
| Browser.KeyStepDown | main.go:391-405 | Down (defined only off the info pane) replaces the focused pane's selection and scroll with those of `MoveDown` under that pane's height; nothing else changes. |
| Browser.TabStep | main.go:382-383 | Tab only moves focus to the next pane, wrapping after the last. |
| Browser.TypeStep | main.go:421-426 | A non-zero rune typed on Search is appended to the search text; nothing else changes. |
| Browser.EscapeResets | main.go:369-381 | A failed Chdir changes nothing, and a failed re-read exits with 1. Otherwise the search text is cleared, every cursor returns to 0, and the lists are re-read. |
| Browser.NavigationKeepsSelectionsInLists | main.go:382-426 | Keys that leave the search text alone keep every selection in its list. A key that edits it changes nothing else, and only on Search. |
| Browser.DownOnInfoPaneUndefined | main.go:391-405 | One Tab from start-up focuses pane 3, where Down would index the three-element `boxes` out of range. |
| Browser.StaleSelectionAfterTyping | main.go:232-275 | From a valid state with every selection in its list and "b" selected in Files, typing "a" on Search and tabbing back leaves selection 1 in the one-entry list, so the render index is out of range. |
| Browser.Session.constructor | main.go:163-178 | The new loop state is the start-up state of the listing. |
| Browser.Session.Render | main.go:181-279 | Only the best match is updated. The cells are `FrameCells` and the info entry is `InfoFile` of the new state. |
| Browser.Session.HandleKey | main.go:362-430 | The new state and outcome are those of `KeyStep`. |
| Browser.Session.GoToParent | main.go:369-381 | Escape as `KeyStep` defines it. |
| Browser.Session.MoveSelection | main.go:384-405 | Up and Down as `KeyStep` defines them. |
| Browser.Session.SelectionUp | main.go:384-390 | The fields after Up are the old ones with the focused cursor replaced by `MoveUp`. |
| Browser.Session.SelectionDown | main.go:391-405 | The fields after Down are the old ones with the focused cursor replaced by `MoveDown` under that pane's height. |
| Browser.Session.Open | main.go:406-416 | Enter as `KeyStep` defines it, without changing the state. |
| Browser.Session.EditOrFocus | main.go:382-426 | Ctrl-C, Tab, Backspace and runes as `KeyStep` defines them. |
| Config.CandidatePathsShape | config/config.go:98-142 | The list always ends with "config.json". Elsewhere than Windows it starts with the five fixed paths, followed by the two home paths iff the home directory is known and non-empty. On Windows it holds one path per available source, the executable directory first and home last. |
| Config.ConfigLocations | config/config.go:98-142 | The appends build exactly `CandidatePaths`. |
| Config.ExpandPath | config/config.go:159-170 | Fails iff the path starts with `~` and the home directory is unknown. A path that is empty or has no leading `~` is returned unchanged. Otherwise the `~` is replaced: the result is `Join` of the home directory and the rest of the path, which starts with a non-empty home directory. |
| Config.ExpandTilde | config/config.go:169 | With a non-empty home directory, `~rest` becomes the home directory, one separator and `rest`, and a bare `~` becomes the home directory. |
| Config.ConfigError.Error | config/config.go:172-179 | The error text is the message, whatever paths the error carries. `FindConfigFile` fixes that message to the not-found text. |
| Config.ExpandPathProperties | config/config.go:159-170 | Expansion fails iff the path starts with `~` and the home lookup fails, and only `~` paths change. It is idempotent for a non-empty home directory that does not start with `~`. |
| Config.FirstExistingSpec | config/config.go:145-151 | None iff no candidate expands to an existing path. Otherwise the result is the expansion of a usable candidate preceded only by unusable ones. |
| Config.RelativeConfigIsFallback | config/config.go:139 | When "config.json" exists in the working directory, some configuration is always found. |
| Config.FindConfigFile | config/config.go:144-157 | Succeeds iff some candidate is usable, with the first usable expansion. Otherwise the `ConfigError` carries every candidate and its `Error()` is the not-found message. |

## Left out

- Terminal output other than the modelled cells is left out: borders, the ASCII art, the file preview in the Directories pane, the echoed search text and its blinking cursor, `DrawPrompt` and the prompt strings. Colours are reduced to named styles.
- The clock is left out: the blink ticker and `getLastModified`. Last-access and age texts are fields of `FileInfo`.
- `os.Chdir`, `os.ReadDir`, `file.Info()`, `os.Stat`, `os.UserHomeDir` and `os.Executable` are left out. Their answers are parameters: `chdirOk`, listings, `Option` fields and the `existing` set.
- Process control is left out: `ChangeDirectoryAndRerun`, `openFileInEditor`, `os.Exit` and `screen.Fini`. These are returned as `Action` or `Outcome` values.
- The file operations of fileops/fileops.go, logging, `WatchConfigFile`, `LoadConfig` and JSON decoding, and the `ExpandPath` helpers of utils/utils.go and logging/logging.go are not part of this model.
- The symlink, mount point, SELinux, git status, owner, inode and link-count lookups of the directory reader are left out. Their results are `FileInfo` fields the core only passes on.
- main.go's own two-column `displayFileInfo` is left out. Only its permission-slicing precondition is modelled (`Catalog.PermissionColumnsDefined`).
- FileSize.FormatFileSize: the `%.1f` rendering of `size / div` is floating point and is not modelled. The info pane takes the printed size as its `sizeText` parameter.
- Search.Lower: `strings.ToLower` is modelled for ASCII letters only. The filter and best-match lemmas do not depend on how names are lowered.
- Config.ConfigLocations: `filepath.Join` is modelled as joining the non-empty elements with the separator, without the final `Clean`, and `filepath.Dir` of the executable is a parameter.
- Config.ExpandPath: `filepath.Join` is modelled without its final `Clean`, so the usual `~/x` expands to the home directory, a separator and `/x` (two separators in a row) where Go gives the home directory, one separator and `x`.
- Events.PromptForInput: the Go loop waits for Enter for ever; the model requires an Enter among the events it is given.
- Browser.Session.constructor: a failed start-up `os.ReadDir` exits the process; the constructor takes the listing that succeeded, and `Listing.ReadDirectoryAndUpdateBestMatch` models the failure.
- Browser.Session.HandleKey: Down on the File Info pane and a selection left past the end of a filtered list make main.go index out of range. The handler and the render require the states in which this does not happen (`KeyDefined`, `SelectionReadable`), and two lemmas show that both situations arise. Down on the File Info pane is reached from start-up by one Tab. The stale selection arises from a valid state in which every selection is inside its list; that this state is itself reachable from start-up is not proved.
- Go's fixed-width `int` overflow is not modelled for pane sizes, indices and positions, which stay far below it. `int64` file sizes are modelled with their bounds.

## Findings

| source | as written | input that shows it | evidently intended | confidence | as-written member | corrected member |
|---|---|---|---|---|---|---|
| ui/ui.go:213-221 | The loop multiplies `div` up to 1024^6 while the unit index is clamped to "PB" afterwards. | A 2^60-byte size (one EiB) is divided by 2^60 and labelled "PB", so it shows as "1.0 PB". | Clamp the divisor with the unit, so that the value is shown in PB (1024.0 PB). | not executed | FileSize.ExbibyteShownAsOnePetabyte | FileSize.FileSizeLabelClamped |
