# Echo Jot: the journal scan and the folder statistics

Echo Jot is a local-first journaling app. The user picks a folder. It holds
one sub-folder per day, named `YYYY-MM-DD`, and each day folder holds markdown
files with a frontmatter block. Two pages of the app hold all of its logic:

- **The journal page** (`app/journal/page.tsx`) loads the stored root
  folder and walks its day folders. It turns every `.md` file whose
  frontmatter has a `type` and a `createdAt` into a `NoteBlock`, filling in
  defaults. It drops days that yield no block. It sorts the blocks of each
  day oldest first and the days newest first. At display time it splits
  each day's blocks into todo/reminder blocks and other notes.
- **The settings page** (`app/settings/page.tsx`) checks folder permissions
  in two steps, query and then request. It builds a best-effort path for a
  folder handle. It saves the chosen folder handle in a single-slot
  IndexedDB store and restores it from there. It counts the date folders
  and the reminder, numbered-note and task files in them by file-name
  shape.

The model is in Dafny and has these modules:

| file | module | what it holds |
|---|---|---|
| `wrappers.dfy` | `Wrappers` | `Option`, `Result`, `Outcome` |
| `text.dfy` | `Text` | the date-name regular expression, `startsWith`/`endsWith`, `toLowerCase`, JavaScript's string `<` as a total order |
| `seqs.dfy` | `Seqs` | `map` and `filter` on sequences, and the subsequence relation |
| `sorting.dfy` | `Sorting` | `Array.prototype.sort` by one string key: a sorted permutation, unique up to equal keys |
| `file_system.dfy` | `FileSystem` | directory handles, their entry listings (which may end in an exception), file reads and their gray-matter parse |
| `handle_store.dfy` | `HandleStorage` | the IndexedDB slot for the folder handle, as a class |
| `journal.dfy` | `Journal` | `NoteBlock`, `DayJournal`, the journal scan, the display split, the journal page |
| `settings.dfy` | `Settings` | `verifyPermission`, `getFullPath`, the statistics scan, the settings page |
| `scenarios.dfy` | `Scenarios` | concrete folders and what the two pages make of them |

The file system, the browser's permission answers and the IndexedDB
database are values passed in: a directory is a name, a listing and a
parent lookup. A listing is the entries enumeration yields, in order, and
then the end or an exception. A file entry carries what reading and
parsing it gives: an exception, or frontmatter plus a body. The two loops of
`loadJournals` and of `scanFolder` are methods with loop invariants. Each is
proved against a function that states what the scan yields
(`Journal.CollectDays`, `Settings.StatsOf`), and the lemmas beside them
state what those functions promise.

Where the code and its declared intent differ, the model follows the
code:

- `NoteBlock.type` is declared as one of six tags, but the scan copies any
  truthy `type` value, so the model keeps it a string.
- When the statistics scan throws, it keeps the statistics shown before and
  does not reset them to zero.

## Model

| member | source | states |
|---|---|---|
| `Text.ToLower` | app/settings/page.tsx:131 | lower-casing keeps the length and maps every character on its own: ASCII capitals to their lower case, KELVIN SIGN to `k`, and leaves no ASCII capital behind |
| `Text.LexLeTotal` | app/journal/page.tsx:135 | the string order the comparators use is total: of any two strings, one may stand before the other |
| `Text.LexLeTransitive` | app/journal/page.tsx:141 | the string order is transitive, so sorting by it is well defined |
| `Text.LexLeAntisymmetric` | app/journal/page.tsx:135 | two strings that may each stand before the other are equal |
| `Sorting.SortBy` | app/journal/page.tsx:135 | the engine's sort by one string key returns a permutation of its input, ordered by the key, ascending or descending |
| `Sorting.SortedKeysAgree` | app/journal/page.tsx:135-141 | two sorted permutations of the same elements list the same keys in the same order, so re-sorting a sorted list cannot change its key order |
| `Sorting.InsertSorted` | app/journal/page.tsx:135 | inserting one element into a sorted sequence keeps it sorted |
| `Sorting.InsertPermutes` | app/journal/page.tsx:135 | inserting adds exactly that element and drops none |
| `FileSystem.DayFolderFailure` | app/journal/page.tsx:93-100 | only a date folder's own enumeration can throw during a scan; any other root entry is never enumerated |
| `FileSystem.FirstFailureStays` | app/journal/page.tsx:145-147 | once an enumeration has thrown, later entries cannot change which exception ends the scan |
| `FileSystem.FirstFailureAt` | app/journal/page.tsx:100 | the first date folder whose enumeration throws decides the exception of the whole walk |
| `FileSystem.FirstFailureExists` | app/settings/page.tsx:126-144 | the walk of the date folders throws if and only if some date folder's enumeration throws |
| `FileSystem.ScanFailureExists` | app/settings/page.tsx:126-144 | the whole walk throws if and only if some date folder's enumeration throws or the root's own enumeration throws |
| `HandleStorage.HandleStore.constructor` | app/settings/page.tsx:85-97 | a fresh database holds no folder handle |
| `HandleStorage.HandleStore.Save` | app/settings/page.tsx:76-82 | `put` under the fixed key replaces the earlier value; when the database does not open, the exception escapes and nothing is written |
| `HandleStorage.HandleStore.Load` | app/settings/page.tsx:100-111 | the load yields the stored handle, or null when none is stored or the read errors; only a failure to open the database escapes |
| `HandleStorage.SaveReplaces` | app/settings/page.tsx:76-82 | after two saves, a load yields the second handle |
| `Journal.StripMd` | app/journal/page.tsx:113 | removes one trailing `.md` and nothing else; a name without it is unchanged |
| `Journal.BlockOf` | app/journal/page.tsx:111-128 | yields a block exactly when `type` and `createdAt` are truthy; copies `type`, `createdAt`, `doDate`, `reminderDate` and the body; `id` is the frontmatter `id` if truthy, otherwise the file name less `.md`; a present `title`, `tags` or link list is copied, a missing `title` becomes `''` and a missing list becomes empty |
| `Journal.FileBlock` | app/journal/page.tsx:100-111 | an entry of a day folder yields a block exactly when it is a `.md` file that was read and parsed and whose frontmatter has a truthy `type` and `createdAt` |
| `Journal.DayOf` | app/journal/page.tsx:94-137 | a root entry yields a day only when it is a directory with a date name and at least one block; the day's date is the folder name |
| `Journal.CollectDays` | app/journal/page.tsx:93-139 | every collected day has a date-pattern name and at least one block |
| `Journal.ReadDayFolder` | app/journal/page.tsx:100-132 | the inner loop collects exactly the blocks of the folder's entries, in enumeration order; unreadable files and non-`.md` entries are skipped and the loop goes on |
| `Journal.ReadDay` | app/journal/page.tsx:94-137 | one root entry yields a day exactly when the entry yields one, with the same date and the same blocks sorted oldest first; the exception that ends a date folder's enumeration escapes, and other entries are never enumerated |
| `Journal.ScanJournals` | app/journal/page.tsx:91-141 | the scan fails exactly when an enumeration throws, with that message; otherwise its days are the collected days, sorted newest first, each with its blocks permuted and sorted oldest first |
| `Journal.OrderedIsScan` | app/journal/page.tsx:141 | sorting the collected days by date, newest first, completes a scan |
| `Journal.CollectDaysStep` | app/journal/page.tsx:93-137 | the link between the outer loop and `CollectDays`: one more root entry adds the day it yields, if any, at the end |
| `Journal.DayBlocksConcat` | app/journal/page.tsx:100-132 | a day folder's blocks are those of its entries taken one at a time |
| `Journal.DayBlocksMembers` | app/journal/page.tsx:100-128 | a block is in a day exactly when one of the folder's entries yields it |
| `Journal.UnreadableFileSkipped` | app/journal/page.tsx:104-131 | a file that throws on read contributes nothing, and the blocks of the files before and after it are kept |
| `Journal.CollectedDay` | app/journal/page.tsx:134-137 | the day a root entry yields is among the collected days |
| `Journal.CollectedDayOrigin` | app/journal/page.tsx:93-137 | every collected day is the day of some root entry |
| `Journal.CollectDaysMembers` | app/journal/page.tsx:93-137 | a day is collected exactly when some root entry yields it |
| `Journal.ScannedDayOrigin` | app/journal/page.tsx:93-137 | every day of a scan comes from a date folder of the root, has at least one block, and holds exactly that folder's valid blocks |
| `Journal.DateFolderScanned` | app/journal/page.tsx:134-136 | every date folder with at least one valid block appears in the scan, with all of its blocks |
| `Journal.ScanDates` | app/journal/page.tsx:141 | the dates of a scan are the collected dates, in non-increasing order |
| `Journal.ScanDatesAgree` | app/journal/page.tsx:141 | any two scans of the same root list the same dates in the same order, whatever the sort does with ties |
| `Journal.Partition` | app/journal/page.tsx:172-173 | the display split is exact: the first list holds exactly the todo and reminder blocks and the second every other block; together they are a permutation of the input, and each keeps the input's order |
| `Journal.PartitionConcat` | app/journal/page.tsx:172-173 | splitting a concatenation splits each part in turn, so both lists follow the input order |
| `Journal.JournalsPage.constructor` | app/journal/page.tsx:75-77 | the page starts loading, with no journals and no error |
| `Journal.JournalsPage.LoadJournals` | app/journal/page.tsx:80-151 | no stored root gives the no-folder message and no journals; a database or enumeration exception gives the load-failed message and no journals; otherwise the journals are a scan of the root and the error is cleared; loading ends in every case |
| `Settings.VerifyPermission` | app/settings/page.tsx:7-17 | asks for read-write access exactly when `readWrite` is set; does not prompt when the query reports granted; is true exactly when the query or else the request reports granted; an exception from either escapes |
| `Settings.PathOf` | app/settings/page.tsx:20-32 | the path ends with the handle's own name |
| `Settings.PathOfJoinsAncestors` | app/settings/page.tsx:20-32 | the path is the names of the ancestors reached, outermost first, then the handle's name, joined with `/` |
| `Settings.FullPath` | app/settings/page.tsx:20-32 | the climbing loop builds that path, and stops at the first missing `getParent`, null parent or exception |
| `Settings.ShapesExclusive` | app/settings/page.tsx:132-134 | no lower-cased name is both a reminder and a numbered note, both a reminder and a task, or both a numbered note and a task |
| `Settings.ClassifyByShape` | app/settings/page.tsx:131-134 | a file counts as a reminder, a note or a task exactly when its lower-cased name has that shape |
| `Settings.Tally` | app/settings/page.tsx:130-135 | an entry of a date folder adds at most one to the three file counts, never to the folder count, and only when it is a file |
| `Settings.TallyByShape` | app/settings/page.tsx:130-135 | the link between `CountFile` and `Tally`: the tally follows the if-chain, reminder, then numbered note, then task, and nothing for other entries |
| `Settings.TallyFiles` | app/settings/page.tsx:129-136 | the files of a date folder never add to the folder count |
| `Settings.CountFile` | app/settings/page.tsx:130-135 | the body of the inner loop adds the entry's tally to the counters |
| `Settings.CountFiles` | app/settings/page.tsx:129-136 | the inner loop adds the tallies of all of a date folder's entries |
| `Settings.CountEntry` | app/settings/page.tsx:127-137 | one root entry adds its statistics: a date folder adds one folder and its files' tallies, and any other entry adds nothing; the exception that ends a date folder's enumeration escapes |
| `Settings.CountStats` | app/settings/page.tsx:120-140 | the counting walk fails exactly when an enumeration throws, with that message; otherwise it yields the statistics of the root's entries |
| `Settings.StatsOfConcat` | app/settings/page.tsx:126-138 | the statistics of two runs of root entries add up |
| `Settings.DateFoldersCounted` | app/settings/page.tsx:126-128 | `dateFolders` is the number of root entries that are directories with a date name |
| `Settings.OnlyDateFoldersCount` | app/settings/page.tsx:126-129 | root entries that are not date folders contribute nothing at all |
| `Settings.TallyFilesBound` | app/settings/page.tsx:129-136 | a date folder's tallies never exceed its number of files |
| `Settings.TalliedAtMostFiles` | app/settings/page.tsx:126-138 | reminders, notes and tasks together never exceed the number of files in date folders |
| `Settings.ToLowerIdempotent` | app/settings/page.tsx:131 | lower-casing twice is lower-casing once |
| `Settings.ClassifyIgnoresCase` | app/settings/page.tsx:131 | a name and its lower-cased form fall in the same category |
| `Settings.ClassifyBareReminder` | app/settings/page.tsx:132 | a file lower-casing to `reminder-.md` counts as a reminder |
| `Settings.ClassifyEmptyRuns` | app/settings/page.tsx:133-134 | files lower-casing to `task-.md` or `123-.md` count nowhere |
| `Settings.ClassifyUpperCaseTask` | app/settings/page.tsx:131-134 | a file lower-casing to `task-call.md` counts as a task |
| `Settings.ClassifyUpperCaseNote` | app/settings/page.tsx:131-133 | a file lower-casing to `007-x.md` counts as a numbered note |
| `Settings.SettingsPage.constructor` | app/settings/page.tsx:35-43 | the page starts with no handle, no path, no error and all statistics zero |
| `Settings.SettingsPage.RestoreFolder` | app/settings/page.tsx:45-64 | a stored handle is adopted only after read-write permission is granted, clearing the error; a denial asks for re-selection; no stored handle, an unavailable database or an exception changes nothing |
| `Settings.SettingsPage.UpdateFolderPath` | app/settings/page.tsx:66-73 | the path shown is the handle's name, or nothing without a handle |
| `Settings.SettingsPage.ScanFolder` | app/settings/page.tsx:114-147 | no handle resets the statistics to zero; a completed walk publishes them and clears the error; an exception sets the error and leaves the statistics as they were |
| `Settings.SettingsPage.PickFolder` | app/settings/page.tsx:149-166 | on denied permission it sets the error and changes neither the handle nor the store; on granted permission it adopts the handle and saves it under the fixed key; a cancelled picker is silent |
| `Settings.PickThenRestore` | app/settings/page.tsx:45-64 | a folder picked with permission is the folder restored on the next visit, when the database works and permission still holds |
| `Scenarios.MissingTypeScenario` | app/journal/page.tsx:111 | a folder with one valid file and one without `type` yields exactly one block |
| `Scenarios.PartialFailureScenario` | app/journal/page.tsx:104-131 | of three files, the middle one unreadable, the other two blocks remain, in order |
| `Scenarios.DateOrderScenario` | app/journal/page.tsx:141 | day folders 2024-01-01, 2024-01-03, 2024-01-02 are listed as 2024-01-03, 2024-01-02, 2024-01-01 |
| `Scenarios.BlockOrderScenario` | app/journal/page.tsx:135 | blocks created at T2, T1, T3 sort to T1, T2, T3 |
| `Scenarios.SplitScenario` | app/journal/page.tsx:172-173 | blocks todo, reflect, reminder, idea split into [todo, reminder] and [reflect, idea] |
| `Scenarios.StatsScenario` | app/settings/page.tsx:126-135 | two date folders holding `reminder-a.md` and `001-note.md`, and `task-x.md`, whatever the case of the names, count as two folders, one reminder, one note and one task |

## Left out

- React state, effects and rendering: the page state is the fields of `JournalsPage` and `SettingsPage`, and the rendering is not modelled.
- `formatTime` (it depends on `Date` and locale formatting), the icons, the sidebar and the layout: presentation.
- The gray-matter YAML parser is a foreign library. A file's read-and-parse outcome is given as an input, either an exception or typed frontmatter plus a body. Frontmatter values of other types (YAML dates, numbers, objects) are not modelled, and JavaScript truthiness is modelled for strings only: a value is truthy when present and not empty.
- The File System Access API and `showDirectoryPicker` are inputs: directory listings, parent lookups, permission answers and the picker's result.
- `console.error` logging of unreadable files is I/O and is not modelled.
- IndexedDB (`openDB`, transactions, `onupgradeneeded`) is modelled only as one slot, an open failure and a read failure. A `put` whose request fails after it has been issued is not modelled, because the source never waits for it.
- Asynchronous suspension and concurrent scans: each scan is one sequential pass.
- `Sorting.SortBy`: promises only a sorted permutation. The source's comparators never return 0, so the order of equal `createdAt` values is up to the engine and is not modelled.
- `Text.LexLess` compares strings by Unicode scalar value. JavaScript compares UTF-16 code units, which orders characters above U+FFFF differently from those between U+E000 and U+FFFF.
- `Text.ToLower` maps only ASCII capitals and KELVIN SIGN. No other Unicode case mapping can make or break one of the three file-name shapes, because their literal parts are ASCII.
- `Settings.SettingsPage.PickFolder`: an `AbortError` thrown by the permission request or by the save is treated like any other exception, because the model only knows of the picker's own cancellation.
- `Settings.FullPath`: a parent chain is an inductive value, so it is always finite. The source's loop would not end on a handle whose `getParent` chain is cyclic, and the model does not capture that case.
- `getFullPath` is defined on the settings page but no caller uses it; it is modelled on its own.
