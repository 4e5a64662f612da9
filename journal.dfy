/**
 * The journal page: scanning the root folder's day folders into day
 * journals, and splitting a day's blocks for display.
 */
module Journal {
  import opened Wrappers
  import opened Text
  import opened FileSystem
  import Seqs
  import Sorting
  import opened HandleStorage

  /** One parsed journal file. `noteType` is the frontmatter `type`. */
  datatype NoteBlock = NoteBlock(
    id: string,
    noteType: string,
    createdAt: string,
    title: string,
    content: string,
    tags: seq<string>,
    doDate: Option<string>,
    reminderDate: Option<string>,
    linkedTodos: seq<string>,
    linkedReminders: seq<string>,
    linkedNotes: seq<string>,
    linkedBy: seq<string>)

  datatype DayJournal = DayJournal(date: string, blocks: seq<NoteBlock>)

  const NoFolderMessage: string := "No journal folder selected. Please select a folder in Settings."
  const LoadFailedPrefix: string := "Failed to load journals: "

  /** JavaScript truthiness of an optional string: present and not empty. */
  predicate Truthy(v: Option<string>) {
    v.Some? && v.value != ""
  }

  /** `fileName.replace(/\.md$/, '')` */
  function StripMd(fileName: string): (r: string)
    ensures EndsWith(fileName, ".md") ==> r + ".md" == fileName
    ensures !EndsWith(fileName, ".md") ==> r == fileName
  {
    if EndsWith(fileName, ".md") then fileName[..|fileName| - 3] else fileName
  }

  /**
   * The block built from one parsed file, or None when its frontmatter lacks
   * a truthy `type` or `createdAt`. Present fields are copied; missing
   * ones get their defaults.
   */
  function BlockOf(fileName: string, fm: Frontmatter, content: string): (r: Option<NoteBlock>)
    ensures r.Some? <==> Truthy(fm.noteType) && Truthy(fm.createdAt)
    ensures r.Some? ==>
      && r.value.noteType == fm.noteType.value
      && r.value.createdAt == fm.createdAt.value
      && r.value.doDate == fm.doDate
      && r.value.reminderDate == fm.reminderDate
      && r.value.content == content
    ensures r.Some? && Truthy(fm.id) ==> r.value.id == fm.id.value
    ensures r.Some? && !Truthy(fm.id) && EndsWith(fileName, ".md") ==> r.value.id + ".md" == fileName
    ensures r.Some? ==>
      && (fm.title.Some? ==> r.value.title == fm.title.value)
      && (fm.tags.Some? ==> r.value.tags == fm.tags.value)
      && (fm.linkedTodos.Some? ==> r.value.linkedTodos == fm.linkedTodos.value)
      && (fm.linkedReminders.Some? ==> r.value.linkedReminders == fm.linkedReminders.value)
      && (fm.linkedNotes.Some? ==> r.value.linkedNotes == fm.linkedNotes.value)
      && (fm.linkedBy.Some? ==> r.value.linkedBy == fm.linkedBy.value)
    ensures r.Some? ==>
      && (fm.title.None? ==> r.value.title == "")
      && (fm.tags.None? ==> r.value.tags == [])
      && (fm.linkedTodos.None? ==> r.value.linkedTodos == [])
      && (fm.linkedReminders.None? ==> r.value.linkedReminders == [])
      && (fm.linkedNotes.None? ==> r.value.linkedNotes == [])
      && (fm.linkedBy.None? ==> r.value.linkedBy == [])
  {
    if !Truthy(fm.noteType) || !Truthy(fm.createdAt) then None
    else
      var id := if Truthy(fm.id) then fm.id.value else StripMd(fileName);
      Some(NoteBlock(
        id,
        fm.noteType.value,
        fm.createdAt.value,
        fm.title.GetOr(""),
        content,
        fm.tags.GetOr([]),
        fm.doDate,
        fm.reminderDate,
        fm.linkedTodos.GetOr([]),
        fm.linkedReminders.GetOr([]),
        fm.linkedNotes.GetOr([]),
        fm.linkedBy.GetOr([])))
  }

  /** The block one entry of a day folder contributes, if any. */
  function FileBlock(e: Entry): (r: Option<NoteBlock>)
    ensures r.Some? <==>
      && e.File? && EndsWith(e.fileName, ".md") && e.read.Parsed?
      && Truthy(e.read.data.noteType) && Truthy(e.read.data.createdAt)
  {
    if !e.File? || !EndsWith(e.fileName, ".md") then None
    else match e.read
      case Unreadable(_) => None
      case Parsed(fm, content) => BlockOf(e.fileName, fm, content)
  }

  /** The blocks of a day folder's entries, in enumeration order. */
  function DayBlocks(es: seq<Entry>): seq<NoteBlock>
  {
    if es == [] then []
    else
      var last := FileBlock(es[|es| - 1]);
      DayBlocks(es[..|es| - 1]) + (if last.Some? then [last.value] else [])
  }

  /** The day a root entry contributes, blocks still in enumeration order. */
  function DayOf(e: Entry): (r: Option<DayJournal>)
    ensures r.Some? ==> IsDateFolder(e) && r.value.date == e.dir.name && r.value.blocks != []
  {
    if IsDateFolder(e) && DayBlocks(e.dir.listing.entries) != [] then
      Some(DayJournal(e.dir.name, DayBlocks(e.dir.listing.entries)))
    else None
  }

  /** The days of the root's entries, in enumeration order, before any sorting. */
  function CollectDays(es: seq<Entry>): (r: seq<DayJournal>)
    ensures forall k :: 0 <= k < |r| ==> IsDateName(r[k].date) && r[k].blocks != []
  {
    if es == [] then []
    else
      var last := DayOf(es[|es| - 1]);
      CollectDays(es[..|es| - 1]) + (if last.Some? then [last.value] else [])
  }

  function CreatedAtOf(b: NoteBlock): string { b.createdAt }
  function DateOf(d: DayJournal): string { d.date }

  /** What the scan promises of a day: order is not part of it. */
  datatype DaySummary = DaySummary(date: string, blocks: multiset<NoteBlock>)

  function Summary(d: DayJournal): DaySummary {
    DaySummary(d.date, multiset(d.blocks))
  }

  /**
   * `days` is what a successful scan of root gives: the collected days in
   * some order, each day's blocks in some order, days newest first and
   * blocks oldest first.
   */
  ghost predicate IsScanOf(days: seq<DayJournal>, root: Dir) {
    && Sorting.SortedBy(days, DateOf, true)
    && (forall k :: 0 <= k < |days| ==> Sorting.SortedBy(days[k].blocks, CreatedAtOf, false))
    && multiset(Seqs.Map(Summary, days)) == multiset(Seqs.Map(Summary, CollectDays(root.listing.entries)))
  }

  /**
   * The inner loop of `loadJournals`: the blocks of one day folder's
   * entries, in enumeration order. Entries that are not `.md` files are
   * skipped, and so is a file that cannot be read or parsed: the loop goes on.
   */
  method ReadDayFolder(entries: seq<Entry>) returns (blocks: seq<NoteBlock>)
    ensures blocks == DayBlocks(entries)
  {
    blocks := [];
    var j := 0;
    while j < |entries|
      invariant 0 <= j <= |entries|
      invariant blocks == DayBlocks(entries[..j])
    {
      var file := entries[j];
      assert entries[..j + 1][..j] == entries[..j];
      if file.File? && EndsWith(file.fileName, ".md") {
        match file.read
        case Unreadable(_) =>
          // logged and skipped
        case Parsed(fm, content) =>
          var block := BlockOf(file.fileName, fm, content);
          if block.Some? {
            blocks := blocks + [block.value];
          }
      }
      j := j + 1;
    }
    assert entries[..j] == entries;
  }

  /**
   * One root entry of `loadJournals`: a date folder is read, and yields its
   * day with the blocks oldest first when it holds any block; the exception
   * its enumeration ends with escapes. Other entries are passed over.
   */
  method ReadDay(entry: Entry) returns (r: Result<Option<DayJournal>, string>)
    ensures r.Failure? <==> DayFolderFailure(entry).Some?
    ensures r.Failure? ==> r.error == DayFolderFailure(entry).value
    ensures r.Success? ==> (r.value.Some? <==> DayOf(entry).Some?)
    ensures r.Success? && r.value.Some? ==>
      && Summary(r.value.value) == Summary(DayOf(entry).value)
      && Sorting.SortedBy(r.value.value.blocks, CreatedAtOf, false)
  {
    if !(entry.Directory? && IsDateName(entry.dir.name)) {
      return Success(None);
    }
    var blocks := ReadDayFolder(entry.dir.listing.entries);
    if entry.dir.listing.failure.Some? {
      return Failure(entry.dir.listing.failure.value);
    }
    if |blocks| == 0 {
      return Success(None);
    }
    var sorted := Sorting.SortBy(blocks, CreatedAtOf, false);
    r := Success(Some(DayJournal(entry.dir.name, sorted)));
  }

  /**
   * The scan inside `loadJournals`, once the root handle is known: the
   * journal days, or the message of the enumeration failure that aborts it.
   */
  method ScanJournals(root: Dir) returns (r: Result<seq<DayJournal>, string>)
    ensures r.Failure? <==> ScanFailure(root).Some?
    ensures r.Failure? ==> r.error == ScanFailure(root).value
    ensures r.Success? ==> IsScanOf(r.value, root)
  {
    var entries := root.listing.entries;
    var days: seq<DayJournal> := [];
    var i := 0;
    while i < |entries|
      invariant 0 <= i <= |entries|
      invariant FirstFailure(entries[..i]).None?
      invariant Seqs.Map(Summary, days) == Seqs.Map(Summary, CollectDays(entries[..i]))
      invariant forall k :: 0 <= k < |days| ==> Sorting.SortedBy(days[k].blocks, CreatedAtOf, false)
    {
      FirstFailureStep(entries, i);
      CollectDaysStep(entries, i);
      var read := ReadDay(entries[i]);
      match read {
        case Failure(m) =>
          FirstFailureAt(entries, i);
          return Failure(m);
        case Success(None) =>
        case Success(Some(day)) =>
          SummaryStep(days, day, CollectDays(entries[..i]), DayOf(entries[i]).value);
          days := days + [day];
      }
      i := i + 1;
    }
    assert entries[..i] == entries;
    if root.listing.failure.Some? {
      return Failure(root.listing.failure.value);
    }
    var ordered := Sorting.SortBy(days, DateOf, true);
    OrderedIsScan(days, ordered, root);
    r := Success(ordered);
  }

  /** Sorting the collected days newest first completes the scan. */
  lemma OrderedIsScan(days: seq<DayJournal>, ordered: seq<DayJournal>, root: Dir)
    requires Seqs.Map(Summary, days) == Seqs.Map(Summary, CollectDays(root.listing.entries))
    requires forall k :: 0 <= k < |days| ==> Sorting.SortedBy(days[k].blocks, CreatedAtOf, false)
    requires multiset(ordered) == multiset(days) && Sorting.SortedBy(ordered, DateOf, true)
    ensures IsScanOf(ordered, root)
  {
    Seqs.MapMultiset(Summary, ordered, days);
    forall k | 0 <= k < |ordered|
      ensures Sorting.SortedBy(ordered[k].blocks, CreatedAtOf, false)
    {
      assert ordered[k] in multiset(days);
    }
  }

  /** One more root entry adds the day it yields, if any. */
  lemma CollectDaysStep(es: seq<Entry>, i: nat)
    requires i < |es|
    ensures CollectDays(es[..i + 1]) ==
      CollectDays(es[..i]) + (if DayOf(es[i]).Some? then [DayOf(es[i]).value] else [])
  {
    assert es[..i + 1][..i] == es[..i];
  }

  /** Appending days with equal summaries keeps the summaries equal. */
  lemma SummaryStep(days: seq<DayJournal>, day: DayJournal, spec: seq<DayJournal>, specDay: DayJournal)
    requires Seqs.Map(Summary, days) == Seqs.Map(Summary, spec)
    requires Summary(day) == Summary(specDay)
    ensures Seqs.Map(Summary, days + [day]) == Seqs.Map(Summary, spec + [specDay])
  {
    Seqs.MapConcat(Summary, days, [day]);
    Seqs.MapConcat(Summary, spec, [specDay]);
  }

  /** A day folder's blocks are the blocks of its entries taken one at a time. */
  lemma {:induction false} DayBlocksConcat(a: seq<Entry>, b: seq<Entry>)
    ensures DayBlocks(a + b) == DayBlocks(a) + DayBlocks(b)
    decreases |b|
  {
    if b == [] {
      assert a + b == a;
    } else {
      var ab := a + b;
      assert ab[..|ab| - 1] == a + b[..|b| - 1];
      assert ab[|ab| - 1] == b[|b| - 1];
      DayBlocksConcat(a, b[..|b| - 1]);
    }
  }

  /** A block is in a day exactly when one of the folder's entries yields it. */
  lemma {:induction false} DayBlocksMembers(es: seq<Entry>)
    ensures forall b :: b in DayBlocks(es) <==> exists k :: 0 <= k < |es| && FileBlock(es[k]) == Some(b)
    decreases |es|
  {
    if es != [] {
      var init := es[..|es| - 1];
      DayBlocksMembers(init);
      assert forall k :: 0 <= k < |init| ==> init[k] == es[k];
      forall b | exists k :: 0 <= k < |es| && FileBlock(es[k]) == Some(b)
        ensures b in DayBlocks(es)
      {
        var k :| 0 <= k < |es| && FileBlock(es[k]) == Some(b);
        if k < |init| {
          assert FileBlock(init[k]) == Some(b);
        }
      }
    }
  }

  /** A file that cannot be read contributes nothing, and the files after it still count. */
  lemma UnreadableFileSkipped(before: seq<Entry>, name: string, message: string, after: seq<Entry>)
    ensures DayBlocks(before + [File(name, Unreadable(message))] + after) == DayBlocks(before) + DayBlocks(after)
  {
    var bad := File(name, Unreadable(message));
    assert FileBlock(bad).None?;
    assert DayBlocks([bad]) == [] by {
      assert [bad][..0] == [];
    }
    DayBlocksConcat(before + [bad], after);
    DayBlocksConcat(before, [bad]);
  }

  /** The day a root entry yields is collected. */
  lemma {:induction false} CollectedDay(es: seq<Entry>, k: nat)
    requires k < |es| && DayOf(es[k]).Some?
    ensures DayOf(es[k]).value in CollectDays(es)
    decreases |es|
  {
    var n := |es| - 1;
    CollectDaysStep(es, n);
    assert es[..n + 1] == es;
    if k < n {
      CollectedDay(es[..n], k);
    }
  }

  /** Every collected day is the day of some root entry. */
  lemma {:induction false} CollectedDayOrigin(es: seq<Entry>, d: DayJournal)
    requires d in CollectDays(es)
    ensures exists k :: 0 <= k < |es| && DayOf(es[k]) == Some(d)
    decreases |es|
  {
    var n := |es| - 1;
    CollectDaysStep(es, n);
    assert es[..n + 1] == es;
    if d in CollectDays(es[..n]) {
      CollectedDayOrigin(es[..n], d);
      var k :| 0 <= k < n && DayOf(es[..n][k]) == Some(d);
      assert es[..n][k] == es[k];
    } else {
      assert DayOf(es[n]) == Some(d);
    }
  }

  /** A day is collected exactly when a root entry yields it. */
  lemma CollectDaysMembers(es: seq<Entry>)
    ensures forall d :: d in CollectDays(es) <==> exists k :: 0 <= k < |es| && DayOf(es[k]) == Some(d)
  {
    forall d | d in CollectDays(es)
      ensures exists k :: 0 <= k < |es| && DayOf(es[k]) == Some(d)
    {
      CollectedDayOrigin(es, d);
    }
    forall d | exists k :: 0 <= k < |es| && DayOf(es[k]) == Some(d)
      ensures d in CollectDays(es)
    {
      var k :| 0 <= k < |es| && DayOf(es[k]) == Some(d);
      CollectedDay(es, k);
    }
  }

  /**
   * Every day of a scan comes from a date folder of the root, holds at least
   * one block, and holds exactly that folder's blocks.
   */
  lemma ScannedDayOrigin(root: Dir, days: seq<DayJournal>, k: nat)
    requires IsScanOf(days, root)
    requires k < |days|
    ensures days[k].blocks != []
    ensures exists m :: (0 <= m < |root.listing.entries|
      && IsDateFolder(root.listing.entries[m])
      && root.listing.entries[m].dir.name == days[k].date
      && multiset(days[k].blocks) == multiset(DayBlocks(root.listing.entries[m].dir.listing.entries)))
  {
    var collected := CollectDays(root.listing.entries);
    var summaries := Seqs.Map(Summary, collected);
    assert Summary(days[k]) == Seqs.Map(Summary, days)[k];
    assert Summary(days[k]) in multiset(summaries);
    var j :| 0 <= j < |summaries| && summaries[j] == Summary(days[k]);
    CollectDaysMembers(root.listing.entries);
    assert collected[j] in collected;
    var m :| 0 <= m < |root.listing.entries| && DayOf(root.listing.entries[m]) == Some(collected[j]);
    assert multiset(days[k].blocks) == multiset(collected[j].blocks);
    assert |days[k].blocks| == |multiset(days[k].blocks)|;
  }

  /** Every date folder with at least one valid block appears in a scan. */
  lemma DateFolderScanned(root: Dir, days: seq<DayJournal>, m: nat)
    requires IsScanOf(days, root)
    requires m < |root.listing.entries|
    requires IsDateFolder(root.listing.entries[m])
    requires DayBlocks(root.listing.entries[m].dir.listing.entries) != []
    ensures exists k :: (0 <= k < |days|
      && days[k].date == root.listing.entries[m].dir.name
      && multiset(days[k].blocks) == multiset(DayBlocks(root.listing.entries[m].dir.listing.entries)))
  {
    var collected := CollectDays(root.listing.entries);
    var day := DayOf(root.listing.entries[m]).value;
    CollectDaysMembers(root.listing.entries);
    var j :| 0 <= j < |collected| && collected[j] == day;
    assert Summary(day) == Seqs.Map(Summary, collected)[j];
    assert Summary(day) in multiset(Seqs.Map(Summary, days));
    var summaries := Seqs.Map(Summary, days);
    var k :| 0 <= k < |summaries| && summaries[k] == Summary(day);
    assert days[k].date == day.date;
  }

  function SummaryDate(s: DaySummary): string { s.date }

  /** The dates of a scan are the collected dates, newest first. */
  lemma ScanDates(days: seq<DayJournal>, root: Dir)
    requires IsScanOf(days, root)
    ensures multiset(Seqs.Map(DateOf, days)) == multiset(Seqs.Map(DateOf, CollectDays(root.listing.entries)))
    ensures Sorting.SortedBy(Seqs.Map(DateOf, days), Sorting.Id, true)
  {
    var collected := CollectDays(root.listing.entries);
    var dates := Seqs.Map(DateOf, days);
    Seqs.MapMultiset(SummaryDate, Seqs.Map(Summary, days), Seqs.Map(Summary, collected));
    assert Seqs.Map(SummaryDate, Seqs.Map(Summary, days)) == dates;
    assert Seqs.Map(SummaryDate, Seqs.Map(Summary, collected)) == Seqs.Map(DateOf, collected);
    forall i, j | 0 <= i < j < |dates|
      ensures Sorting.InOrder(Sorting.Id(dates[i]), Sorting.Id(dates[j]), true)
    {
      assert Sorting.InOrder(DateOf(days[i]), DateOf(days[j]), true);
    }
  }

  /**
   * The day order does not depend on how the engine sorts: any two scans of
   * the same root list the same dates in the same order.
   */
  lemma ScanDatesAgree(days: seq<DayJournal>, again: seq<DayJournal>, root: Dir)
    requires IsScanOf(days, root) && IsScanOf(again, root)
    ensures Seqs.Map(DateOf, days) == Seqs.Map(DateOf, again)
  {
    ScanDates(days, root);
    ScanDates(again, root);
    Sorting.SortedStringsEqual(Seqs.Map(DateOf, days), Seqs.Map(DateOf, again), true);
  }

  /** A todo or reminder block, shown on the timeline without a time. */
  predicate IsSchedulable(b: NoteBlock) {
    b.noteType == "reminder" || b.noteType == "todo"
  }

  /** Any other block. */
  predicate IsNote(b: NoteBlock) {
    b.noteType != "reminder" && b.noteType != "todo"
  }

  datatype Split = Split(schedulable: seq<NoteBlock>, notes: seq<NoteBlock>)

  /** The display split of one day's blocks (`remindersAndTodos` and `notes`). */
  function Partition(blocks: seq<NoteBlock>): (r: Split)
    ensures forall b :: b in r.schedulable <==> b in blocks && IsSchedulable(b)
    ensures forall b :: b in r.notes <==> b in blocks && !IsSchedulable(b)
    ensures multiset(r.schedulable) + multiset(r.notes) == multiset(blocks)
    ensures Seqs.IsSubsequence(r.schedulable, blocks) && Seqs.IsSubsequence(r.notes, blocks)
  {
    var schedulable := Seqs.Filter(IsSchedulable, blocks);
    var notes := Seqs.Filter(IsNote, blocks);
    Seqs.FilterMembers(IsSchedulable, blocks);
    Seqs.FilterMembers(IsNote, blocks);
    Seqs.FilterPartition(IsSchedulable, IsNote, blocks);
    Seqs.FilterIsSubsequence(IsSchedulable, blocks);
    Seqs.FilterIsSubsequence(IsNote, blocks);
    Split(schedulable, notes)
  }

  /** Splitting a concatenation splits each part: both lists keep the input's order. */
  lemma PartitionConcat(a: seq<NoteBlock>, b: seq<NoteBlock>)
    ensures Partition(a + b).schedulable == Partition(a).schedulable + Partition(b).schedulable
    ensures Partition(a + b).notes == Partition(a).notes + Partition(b).notes
  {
    Seqs.FilterConcat(IsSchedulable, a, b);
    Seqs.FilterConcat(IsNote, a, b);
  }

  /** The journal page's state. */
  class JournalsPage {
    var journals: seq<DayJournal>
    var error: Option<string>
    var loading: bool

    constructor ()
      ensures journals == [] && error == None && loading
    {
      journals := [];
      error := None;
      loading := true;
    }

    /** `loadJournals`: read the stored root, scan it, and publish the days or an error. */
    method LoadJournals(store: HandleStore)
      modifies this
      ensures !loading
      ensures store.openFailure.Some? ==>
        journals == [] && error == Some(LoadFailedPrefix + store.openFailure.value)
      ensures store.openFailure.None? && (store.getFails || store.slot.None?) ==>
        journals == [] && error == Some(NoFolderMessage)
      ensures store.openFailure.None? && !store.getFails && store.slot.Some? ==>
        var root := store.slot.value;
        && (ScanFailure(root).Some? ==>
              journals == [] && error == Some(LoadFailedPrefix + ScanFailure(root).value))
        && (ScanFailure(root).None? ==> error == None && IsScanOf(journals, root))
    {
      loading := true;
      var stored := store.Load();
      match stored {
        case Failure(m) =>
          error := Some(LoadFailedPrefix + m);
          journals := [];
        case Success(None) =>
          error := Some(NoFolderMessage);
          journals := [];
        case Success(Some(root)) =>
          var scanned := ScanJournals(root);
          match scanned {
            case Failure(m) =>
              error := Some(LoadFailedPrefix + m);
              journals := [];
            case Success(days) =>
              journals := days;
              error := None;
          }
      }
      loading := false;
    }
  }
}
