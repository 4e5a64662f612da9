/**
 * Concrete folders and blocks, and what the two pages make of them.
 */
module Scenarios {
  import opened Wrappers
  import opened Text
  import opened FileSystem
  import opened Journal
  import opened Settings
  import Sorting
  import Seqs

  /** A folder that enumerates completely. */
  function Folder(name: string, entries: seq<Entry>): Entry {
    Directory(Dir(name, Listing(entries, None), ParentNull))
  }

  /** A root that enumerates completely. */
  function Root(entries: seq<Entry>): Dir {
    Dir("journal", Listing(entries, None), ParentNull)
  }

  /** Frontmatter holding `type` and `createdAt` alone. */
  function Fields(noteType: Option<string>, createdAt: Option<string>): Frontmatter {
    Frontmatter(None, noteType, createdAt, None, None, None, None, None, None, None, None)
  }

  /** A markdown file whose frontmatter parses. */
  function Note(fileName: string, noteType: string, createdAt: string): Entry {
    File(fileName, Parsed(Fields(Some(noteType), Some(createdAt)), ""))
  }

  /** The block a `Note` file yields. */
  function BlockFor(fileName: string, noteType: string, createdAt: string): NoteBlock {
    NoteBlock(StripMd(fileName), noteType, createdAt, "", "", [], None, None, [], [], [], [])
  }

  // ---------------------------------------------------------------- journal scan

  /** One valid file and one without `type`: exactly one block. */
  lemma MissingTypeScenario()
    ensures DayBlocks([Note("a.md", "idea", "T1"), File("b.md", Parsed(Fields(None, Some("T2")), ""))])
      == [BlockFor("a.md", "idea", "T1")]
  {
    var a := Note("a.md", "idea", "T1");
    var b := File("b.md", Parsed(Fields(None, Some("T2")), ""));
    assert [a, b][..1] == [a];
    assert [a][..0] == [];
    assert StripMd("a.md") == "a";
  }

  /** Three files, the middle one unreadable: the other two blocks, in order. */
  lemma PartialFailureScenario()
    ensures DayBlocks([Note("a.md", "idea", "T1"), File("b.md", Unreadable("read error")), Note("c.md", "todo", "T3")])
      == [BlockFor("a.md", "idea", "T1"), BlockFor("c.md", "todo", "T3")]
  {
    var a := Note("a.md", "idea", "T1");
    var c := Note("c.md", "todo", "T3");
    UnreadableFileSkipped([a], "b.md", "read error", [c]);
    assert [a] + [File("b.md", Unreadable("read error"))] + [c] ==
      [a, File("b.md", Unreadable("read error")), c];
    assert [a][..0] == [] && [c][..0] == [];
    assert StripMd("a.md") == "a" && StripMd("c.md") == "c";
  }

  /** The three dates, newest first, are in descending string order. */
  lemma NewestFirst()
    ensures Sorting.SortedBy(["2024-01-03", "2024-01-02", "2024-01-01"], Sorting.Id, true)
  {
    assert LexLess("2024-01-02", "2024-01-03");
    assert LexLess("2024-01-01", "2024-01-02");
    assert LexLess("2024-01-01", "2024-01-03");
    assert !LexLess("2024-01-03", "2024-01-02");
    assert !LexLess("2024-01-02", "2024-01-01");
    assert !LexLess("2024-01-03", "2024-01-01");
  }

  /** Day folders named 2024-01-01, 2024-01-03 and 2024-01-02, in that enumeration order. */
  function ThreeDays(): seq<Entry> {
    [ Folder("2024-01-01", [Note("a.md", "idea", "T1")]),
      Folder("2024-01-03", [Note("b.md", "idea", "T2")]),
      Folder("2024-01-02", [Note("c.md", "idea", "T3")]) ]
  }

  /** A date folder holding one note yields a day of that date. */
  lemma OneNoteDay(date: string, fileName: string, noteType: string, createdAt: string)
    requires IsDateName(date) && EndsWith(fileName, ".md") && noteType != "" && createdAt != ""
    ensures var d := DayOf(Folder(date, [Note(fileName, noteType, createdAt)])); d.Some? && d.value.date == date
  {
    var n := Note(fileName, noteType, createdAt);
    assert FileBlock(n).Some?;
    assert [n][..0] == [];
  }

  lemma ThreeDaysCollected()
    ensures Seqs.Map(DateOf, CollectDays(ThreeDays())) == ["2024-01-01", "2024-01-03", "2024-01-02"]
  {
    var es := ThreeDays();
    var d1, d3, d2 := es[0], es[1], es[2];
    assert IsDateName("2024-01-01") && IsDateName("2024-01-03") && IsDateName("2024-01-02");
    assert EndsWith("a.md", ".md") && EndsWith("b.md", ".md") && EndsWith("c.md", ".md");
    OneNoteDay("2024-01-01", "a.md", "idea", "T1");
    OneNoteDay("2024-01-03", "b.md", "idea", "T2");
    OneNoteDay("2024-01-02", "c.md", "idea", "T3");
    CollectThree(d1, d3, d2);
  }

  /** Three root entries that each yield a day collect to those days, in order. */
  lemma CollectThree(x: Entry, y: Entry, z: Entry)
    requires DayOf(x).Some? && DayOf(y).Some? && DayOf(z).Some?
    ensures Seqs.Map(DateOf, CollectDays([x, y, z])) == [DayOf(x).value.date, DayOf(y).value.date, DayOf(z).value.date]
  {
    var es := [x, y, z];
    assert es[..2] == [x, y] && [x, y][..1] == [x] && [x][..0] == [];
    assert CollectDays([x]) == [DayOf(x).value];
    assert CollectDays([x, y]) == [DayOf(x).value, DayOf(y).value];
    assert CollectDays(es) == [DayOf(x).value, DayOf(y).value, DayOf(z).value];
  }

  lemma SameDates()
    ensures multiset(["2024-01-03", "2024-01-02", "2024-01-01"]) == multiset(["2024-01-01", "2024-01-03", "2024-01-02"])
  {
  }

  /** A scan lists its days in the one descending order of the collected dates. */
  lemma ScanDatesAre(days: seq<DayJournal>, root: Dir, expected: seq<string>)
    requires IsScanOf(days, root)
    requires multiset(expected) == multiset(Seqs.Map(DateOf, CollectDays(root.listing.entries)))
    requires Sorting.SortedBy(expected, Sorting.Id, true)
    ensures Seqs.Map(DateOf, days) == expected
  {
    ScanDates(days, root);
    Sorting.SortedStringsEqual(Seqs.Map(DateOf, days), expected, true);
  }

  /** Those three day folders are listed newest first. */
  lemma DateOrderScenario(days: seq<DayJournal>)
    requires IsScanOf(days, Root(ThreeDays()))
    ensures Seqs.Map(DateOf, days) == ["2024-01-03", "2024-01-02", "2024-01-01"]
  {
    ThreeDaysCollected();
    NewestFirst();
    SameDates();
    ScanDatesAre(days, Root(ThreeDays()), ["2024-01-03", "2024-01-02", "2024-01-01"]);
  }

  /** `createdAt` values T2, T1, T3 sort to T1, T2, T3. */
  method BlockOrderScenario() returns (sorted: seq<NoteBlock>)
    ensures Seqs.Map(CreatedAtOf, sorted) == ["T1", "T2", "T3"]
  {
    var blocks := [BlockFor("b.md", "idea", "T2"), BlockFor("a.md", "idea", "T1"), BlockFor("c.md", "idea", "T3")];
    sorted := Sorting.SortBy(blocks, CreatedAtOf, false);
    BlockTimes(blocks);
    SortedTimes(blocks, sorted);
  }

  lemma BlockTimes(blocks: seq<NoteBlock>)
    requires blocks == [BlockFor("b.md", "idea", "T2"), BlockFor("a.md", "idea", "T1"), BlockFor("c.md", "idea", "T3")]
    ensures Seqs.Map(CreatedAtOf, blocks) == ["T2", "T1", "T3"]
  {
    assert blocks[..2][..1] == [blocks[0]] && blocks[..2] == [blocks[0], blocks[1]];
  }

  /** Whatever order equal keys end in, blocks timed T2, T1, T3 sort to the times T1, T2, T3. */
  lemma SortedTimes(blocks: seq<NoteBlock>, sorted: seq<NoteBlock>)
    requires Seqs.Map(CreatedAtOf, blocks) == ["T2", "T1", "T3"]
    requires multiset(sorted) == multiset(blocks) && Sorting.SortedBy(sorted, CreatedAtOf, false)
    ensures Seqs.Map(CreatedAtOf, sorted) == ["T1", "T2", "T3"]
  {
    var times := Seqs.Map(CreatedAtOf, sorted);
    Seqs.MapMultiset(CreatedAtOf, sorted, blocks);
    assert multiset(["T2", "T1", "T3"]) == multiset(["T1", "T2", "T3"]);
    forall i, j | 0 <= i < j < |times|
      ensures Sorting.InOrder(Sorting.Id(times[i]), Sorting.Id(times[j]), false)
    {
      assert Sorting.InOrder(CreatedAtOf(sorted[i]), CreatedAtOf(sorted[j]), false);
    }
    OldestFirst();
    Sorting.SortedStringsEqual(times, ["T1", "T2", "T3"], false);
  }

  lemma OldestFirst()
    ensures Sorting.SortedBy(["T1", "T2", "T3"], Sorting.Id, false)
  {
    assert "T1"[1..] == "1" && "T2"[1..] == "2" && "T3"[1..] == "3";
    assert !LexLess("T2", "T1") && !LexLess("T3", "T2") && !LexLess("T3", "T1");
  }

  /** Blocks todo, reflect, reminder, idea split into [todo, reminder] and [reflect, idea]. */
  lemma SplitScenario()
    ensures
      var todo, reflect := BlockFor("1.md", "todo", "T1"), BlockFor("2.md", "reflect", "T2");
      var reminder, idea := BlockFor("3.md", "reminder", "T3"), BlockFor("4.md", "idea", "T4");
      Partition([todo, reflect, reminder, idea]) == Split([todo, reminder], [reflect, idea])
  {
    var todo, reflect := BlockFor("1.md", "todo", "T1"), BlockFor("2.md", "reflect", "T2");
    var reminder, idea := BlockFor("3.md", "reminder", "T3"), BlockFor("4.md", "idea", "T4");
    var blocks := [todo, reflect, reminder, idea];
    assert blocks[1..] == [reflect, reminder, idea];
    assert blocks[1..][1..] == [reminder, idea];
    assert blocks[1..][1..][1..] == [idea];
    assert [idea][1..] == [];
    assert IsSchedulable(todo) && IsSchedulable(reminder);
    assert !IsSchedulable(reflect) by {
      assert "reflect"[2] != "reminder"[2];
    }
    assert !IsSchedulable(idea) by {
      assert "idea"[0] != "todo"[0];
    }
    assert Seqs.Filter(IsSchedulable, [idea]) == [];
    assert Seqs.Filter(IsSchedulable, [reminder, idea]) == [reminder];
    assert Seqs.Filter(IsSchedulable, [reflect, reminder, idea]) == [reminder];
    assert Seqs.Filter(IsSchedulable, blocks) == [todo, reminder];
    assert Seqs.Filter(IsNote, [idea]) == [idea];
    assert Seqs.Filter(IsNote, [reminder, idea]) == [idea];
    assert Seqs.Filter(IsNote, [reflect, reminder, idea]) == [reflect, idea];
    assert Seqs.Filter(IsNote, blocks) == [reflect, idea];
  }

  // ---------------------------------------------------------------- folder statistics

  // The counts look at names only, so the files' contents are left open.

  lemma ReminderClassified(name: string)
    requires ToLower(name) == "reminder-a.md"
    ensures Classify(name) == ReminderFile
  {
    assert IsReminderName("reminder-a.md");
  }

  lemma NoteClassified(name: string)
    requires ToLower(name) == "001-note.md"
    ensures Classify(name) == NoteFile
  {
    assert "001-note.md"[0] == '0';
    assert !IsReminderName("001-note.md") && IsNumberedNoteName("001-note.md");
  }

  lemma TaskClassified(name: string)
    requires ToLower(name) == "task-x.md"
    ensures Classify(name) == TaskFile
  {
    assert "task-x.md"[0] == 't';
    assert !IsReminderName("task-x.md") && !IsNumberedNoteName("task-x.md") && IsTaskName("task-x.md");
  }

  lemma DatesAreDateNames()
    ensures IsDateName("2024-01-01") && IsDateName("2024-01-02")
  {
  }

  lemma TallySingle(a: Entry)
    ensures TallyFiles([a]) == Tally(a)
  {
    assert [a][..0] == [];
  }

  lemma TallyPair(a: Entry, b: Entry)
    ensures TallyFiles([a, b]) == Add(Tally(a), Tally(b))
  {
    var es := [a, b];
    assert es[..1] == [a];
    TallySingle(a);
  }

  lemma StatsSingle(x: Entry)
    ensures StatsOf([x]) == FolderStats(x)
  {
    assert [x][..0] == [];
  }

  lemma StatsPair(x: Entry, y: Entry)
    ensures StatsOf([x, y]) == Add(FolderStats(x), FolderStats(y))
  {
    var es := [x, y];
    assert es[..1] == [x];
    StatsSingle(x);
  }

  lemma FolderCounted(d: string, files: seq<Entry>)
    requires IsDateName(d)
    ensures var t := TallyFiles(files); FolderStats(Folder(d, files)) == Stats(1, t.reminders, t.notes, t.tasks)
  {
    assert IsDateFolder(Folder(d, files));
  }

  lemma ReminderAndNoteCounted(read: FileRead, d: string, reminder: string, note: string)
    requires IsDateName(d)
    requires Classify(reminder) == ReminderFile && Classify(note) == NoteFile
    ensures FolderStats(Folder(d, [File(reminder, read), File(note, read)])) == Stats(1, 1, 1, 0)
  {
    var r, n := File(reminder, read), File(note, read);
    assert Tally(r) == Stats(0, 1, 0, 0);
    assert Tally(n) == Stats(0, 0, 1, 0);
    TallyPair(r, n);
    assert TallyFiles([r, n]) == Stats(0, 1, 1, 0);
    FolderCounted(d, [r, n]);
  }

  lemma TaskCounted(read: FileRead, d: string, task: string)
    requires IsDateName(d)
    requires Classify(task) == TaskFile
    ensures FolderStats(Folder(d, [File(task, read)])) == Stats(1, 0, 0, 1)
  {
    var t := File(task, read);
    assert Tally(t) == Stats(0, 0, 0, 1);
    TallySingle(t);
    FolderCounted(d, [t]);
  }

  /**
   * A root with two date folders, a reminder and a numbered note in the first and a task in
   * the second: two folders and one file of each kind.
   */
  lemma TwoFoldersCounted(read: FileRead, d1: string, d2: string, reminder: string, note: string, task: string)
    requires IsDateName(d1) && IsDateName(d2)
    requires Classify(reminder) == ReminderFile && Classify(note) == NoteFile && Classify(task) == TaskFile
    ensures StatsOf([Folder(d1, [File(reminder, read), File(note, read)]), Folder(d2, [File(task, read)])])
      == Stats(2, 1, 1, 1)
  {
    ReminderAndNoteCounted(read, d1, reminder, note);
    TaskCounted(read, d2, task);
    var f1, f2 := Folder(d1, [File(reminder, read), File(note, read)]), Folder(d2, [File(task, read)]);
    StatsPair(f1, f2);
  }

  /**
   * The same root with concrete names: whatever their case, files named
   * reminder-a.md, 001-note.md and task-x.md in the folders 2024-01-01 and
   * 2024-01-02 count as two folders, one reminder, one note and one task.
   */
  lemma StatsScenario(read: FileRead, reminder: string, note: string, task: string)
    requires ToLower(reminder) == "reminder-a.md" && ToLower(note) == "001-note.md" && ToLower(task) == "task-x.md"
    ensures StatsOf([Folder("2024-01-01", [File(reminder, read), File(note, read)]),
                     Folder("2024-01-02", [File(task, read)])]) == Stats(2, 1, 1, 1)
  {
    DatesAreDateNames();
    ReminderClassified(reminder);
    NoteClassified(note);
    TaskClassified(task);
    TwoFoldersCounted(read, "2024-01-01", "2024-01-02", reminder, note, task);
  }
}
