/**
 * The settings page: permission checks, restoring and picking the journal
 * folder, its path, and the folder statistics.
 */
module Settings {
  import opened Wrappers
  import opened Text
  import opened FileSystem
  import Seqs
  import opened HandleStorage

  // ---------------------------------------------------------------- permissions

  /** `{}` asks for read access, `{ mode: 'readwrite' }` for read-write access. */
  datatype Mode = Read | ReadWrite

  /** What `queryPermission` or `requestPermission` resolves to, or that it rejects. */
  datatype PermissionAnswer = Granted | Denied | Prompt | Rejects(message: string)

  /** The browser's answers for one handle. */
  datatype PermissionOracle = PermissionOracle(query: Mode -> PermissionAnswer, request: Mode -> PermissionAnswer)

  /** The mode asked for, whether the user was prompted, and the verdict or the exception. */
  datatype PermissionCheck = PermissionCheck(mode: Mode, requested: bool, outcome: Result<bool, string>)

  /**
   * `verifyPermission`: query first; prompt only when the query does not
   * report 'granted'. A denial is a false verdict, never an exception.
   */
  function VerifyPermission(readWrite: bool, oracle: PermissionOracle): (c: PermissionCheck)
    ensures c.mode == (if readWrite then ReadWrite else Read)
    ensures c.requested <==> oracle.query(c.mode) != Granted && !oracle.query(c.mode).Rejects?
    ensures c.outcome == Success(true) <==>
      oracle.query(c.mode) == Granted || (c.requested && oracle.request(c.mode) == Granted)
    ensures c.outcome.Failure? <==>
      oracle.query(c.mode).Rejects? || (c.requested && oracle.request(c.mode).Rejects?)
    ensures c.outcome.Failure? && !c.requested ==> c.outcome.error == oracle.query(c.mode).message
    ensures c.outcome.Failure? && c.requested ==> c.outcome.error == oracle.request(c.mode).message
  {
    var mode := if readWrite then ReadWrite else Read;
    match oracle.query(mode)
    case Granted => PermissionCheck(mode, false, Success(true))
    case Rejects(m) => PermissionCheck(mode, false, Failure(m))
    case _ =>
      match oracle.request(mode)
      case Granted => PermissionCheck(mode, true, Success(true))
      case Rejects(m) => PermissionCheck(mode, true, Failure(m))
      case _ => PermissionCheck(mode, true, Success(false))
  }

  // ---------------------------------------------------------------- folder path

  /** The path `getFullPath` builds: each ancestor reached, then '/', then the name below it. */
  function PathOf(h: Dir): (r: string)
    ensures EndsWith(r, h.name)
  {
    match h.parent
    case ParentDir(p) => PathOf(p) + "/" + h.name
    case _ => h.name
  }

  /** The names of the ancestors `getParent` reaches, nearest first. */
  function Ancestors(h: Dir): seq<string>
  {
    match h.parent
    case ParentDir(p) => [p.name] + Ancestors(p)
    case _ => []
  }

  /** Names joined with '/'. */
  function JoinPath(names: seq<string>): string
  {
    if names == [] then ""
    else if |names| == 1 then names[0]
    else JoinPath(names[..|names| - 1]) + "/" + names[|names| - 1]
  }

  /** The path is the ancestors, outermost first, and then the handle's own name. */
  lemma {:induction false} PathOfJoinsAncestors(h: Dir)
    ensures PathOf(h) == JoinPath(Seqs.Reverse(Ancestors(h)) + [h.name])
  {
    match h.parent
    case ParentDir(p) =>
      PathOfJoinsAncestors(p);
      var outer := Seqs.Reverse(Ancestors(p)) + [p.name];
      assert [p.name] + Ancestors(p) == Ancestors(h);
      assert Seqs.Reverse(Ancestors(h)) == outer;
      var names := outer + [h.name];
      assert names[..|names| - 1] == outer;
    case _ =>
  }

  function Depth(h: Dir): nat
  {
    match h.parent
    case ParentDir(p) => Depth(p) + 1
    case _ => 0
  }

  /**
   * `getFullPath`: climbs while `getParent` resolves to a handle, prefixing
   * each parent's name; a missing `getParent`, a null parent and an exception
   * all end the climb with the path built so far.
   */
  method FullPath(handle: Dir) returns (path: string)
    ensures path == PathOf(handle)
  {
    path := handle.name;
    var current := handle;
    ghost var rest: string := "";
    while current.parent.ParentDir?
      invariant path == current.name + rest
      invariant PathOf(handle) == PathOf(current) + rest
      decreases Depth(current)
    {
      var p := current.parent.dir;
      PathStep(current, p, rest);
      rest := "/" + current.name + rest;
      path := p.name + "/" + path;
      current := p;
    }
  }

  /** One step up: the path below the parent gains the child's name. */
  lemma PathStep(child: Dir, p: Dir, rest: string)
    requires child.parent == ParentDir(p)
    ensures PathOf(child) + rest == PathOf(p) + ("/" + child.name + rest)
    ensures p.name + "/" + (child.name + rest) == p.name + ("/" + child.name + rest)
  {
  }

  // ---------------------------------------------------------------- statistics

  datatype Stats = Stats(dateFolders: nat, reminders: nat, notes: nat, tasks: nat)

  function Add(a: Stats, b: Stats): Stats {
    Stats(a.dateFolders + b.dateFolders, a.reminders + b.reminders, a.notes + b.notes, a.tasks + b.tasks)
  }

  /** `name.startsWith('reminder-') && name.endsWith('.md')` */
  predicate IsReminderName(n: string) {
    StartsWith(n, "reminder-") && EndsWith(n, ".md")
  }

  /** `/^\d{3}-.+\.md$/` */
  predicate IsNumberedNoteName(n: string) {
    && |n| >= 4
    && IsDigit(n[0]) && IsDigit(n[1]) && IsDigit(n[2]) && n[3] == '-'
    && RunThenSuffix(n, 4, ".md")
  }

  /** `/^task-.+\.md$/` */
  predicate IsTaskName(n: string) {
    StartsWith(n, "task-") && RunThenSuffix(n, 5, ".md")
  }

  /** No name has two of the three shapes, so their order of precedence never decides anything. */
  lemma {:induction false} ShapesExclusive(n: string)
    ensures !(IsReminderName(n) && IsNumberedNoteName(n))
    ensures !(IsReminderName(n) && IsTaskName(n))
    ensures !(IsNumberedNoteName(n) && IsTaskName(n))
  {
    if StartsWith(n, "reminder-") {
      assert n[0] == "reminder-"[0];
    }
    if StartsWith(n, "task-") {
      assert n[0] == "task-"[0];
    }
  }

  datatype Category = ReminderFile | NoteFile | TaskFile | Uncounted

  /** The tally a lower-cased file name goes to, tested in this order. */
  function ClassifyName(name: string): Category
  {
    if IsReminderName(name) then ReminderFile
    else if IsNumberedNoteName(name) then NoteFile
    else if IsTaskName(name) then TaskFile
    else Uncounted
  }

  /** The tally a file name goes to: the name is lower-cased first. */
  function Classify(fileName: string): Category
  {
    ClassifyName(ToLower(fileName))
  }

  /** Each category holds exactly the names of its shape, whatever the order of the tests. */
  lemma ClassifyByShape(fileName: string)
    ensures Classify(fileName) == ReminderFile <==> IsReminderName(ToLower(fileName))
    ensures Classify(fileName) == NoteFile <==> IsNumberedNoteName(ToLower(fileName))
    ensures Classify(fileName) == TaskFile <==> IsTaskName(ToLower(fileName))
  {
    ShapesExclusive(ToLower(fileName));
  }

  /** What one entry of a date folder adds: a file counts once at most, a directory not at all. */
  function Tally(e: Entry): (r: Stats)
    ensures r.dateFolders == 0 && r.reminders + r.notes + r.tasks <= 1
    ensures r.reminders + r.notes + r.tasks == 1 ==> e.File?
  {
    var c := if e.File? then Classify(e.fileName) else Uncounted;
    Stats(0, if c == ReminderFile then 1 else 0, if c == NoteFile then 1 else 0, if c == TaskFile then 1 else 0)
  }

  /** Tally in the terms of `scanFolder`'s if-chain. */
  lemma TallyByShape(e: Entry)
    ensures !e.File? ==> Tally(e) == Stats(0, 0, 0, 0)
    ensures e.File? ==>
      var n := ToLower(e.fileName);
      Tally(e) == if IsReminderName(n) then Stats(0, 1, 0, 0)
                  else if IsNumberedNoteName(n) then Stats(0, 0, 1, 0)
                  else if IsTaskName(n) then Stats(0, 0, 0, 1)
                  else Stats(0, 0, 0, 0)
  {
  }

  /** The tallies of a date folder's entries; folders are not counted down there. */
  function TallyFiles(es: seq<Entry>): (r: Stats)
    ensures r.dateFolders == 0
  {
    if es == [] then Stats(0, 0, 0, 0)
    else Add(TallyFiles(es[..|es| - 1]), Tally(es[|es| - 1]))
  }

  /** One more file adds its own tally. */
  lemma TallyFilesStep(es: seq<Entry>, j: nat)
    requires j < |es|
    ensures TallyFiles(es[..j + 1]) == Add(TallyFiles(es[..j]), Tally(es[j]))
  {
    assert es[..j + 1][..j] == es[..j];
  }

  /** What one root entry adds: a date folder and its files, anything else nothing. */
  function FolderStats(e: Entry): Stats
  {
    if IsDateFolder(e) then
      var t := TallyFiles(e.dir.listing.entries);
      Stats(1, t.reminders, t.notes, t.tasks)
    else Stats(0, 0, 0, 0)
  }

  /** The statistics of the root's entries. */
  function StatsOf(es: seq<Entry>): Stats
  {
    if es == [] then Stats(0, 0, 0, 0)
    else Add(StatsOf(es[..|es| - 1]), FolderStats(es[|es| - 1]))
  }

  /** The body of `scanFolder`'s inner loop: one entry of a date folder, tested in the source's order. */
  method CountFile(file: Entry, reminders0: nat, notes0: nat, tasks0: nat)
    returns (reminders: nat, notes: nat, tasks: nat)
    ensures reminders == reminders0 + Tally(file).reminders
    ensures notes == notes0 + Tally(file).notes
    ensures tasks == tasks0 + Tally(file).tasks
  {
    reminders, notes, tasks := reminders0, notes0, tasks0;
    TallyByShape(file);
    if file.File? {
      var name := ToLower(file.fileName);
      if IsReminderName(name) {
        reminders := reminders + 1;
      } else if IsNumberedNoteName(name) {
        notes := notes + 1;
      } else if IsTaskName(name) {
        tasks := tasks + 1;
      }
    }
  }

  /** `scanFolder`'s inner loop: the running file counters after one date folder. */
  method CountFiles(files: seq<Entry>, reminders0: nat, notes0: nat, tasks0: nat)
    returns (reminders: nat, notes: nat, tasks: nat)
    ensures reminders == reminders0 + TallyFiles(files).reminders
    ensures notes == notes0 + TallyFiles(files).notes
    ensures tasks == tasks0 + TallyFiles(files).tasks
  {
    reminders, notes, tasks := reminders0, notes0, tasks0;
    var j := 0;
    ghost var counted := Stats(0, 0, 0, 0);
    while j < |files|
      invariant 0 <= j <= |files|
      invariant counted == TallyFiles(files[..j])
      invariant reminders == reminders0 + counted.reminders
      invariant notes == notes0 + counted.notes
      invariant tasks == tasks0 + counted.tasks
    {
      TallyFilesStep(files, j);
      reminders, notes, tasks := CountFile(files[j], reminders, notes, tasks);
      counted := Add(counted, Tally(files[j]));
      j := j + 1;
    }
    assert files[..j] == files;
  }

  /**
   * One root entry of `scanFolder`'s outer loop: a date folder adds one to
   * `dateFolders` and its files' tallies to the other counters; the
   * exception its enumeration ends with escapes. Other entries change nothing.
   */
  method CountEntry(entry: Entry, counts: Stats) returns (r: Result<Stats, string>)
    ensures r.Failure? <==> DayFolderFailure(entry).Some?
    ensures r.Failure? ==> r.error == DayFolderFailure(entry).value
    ensures r.Success? ==> r.value == Add(counts, FolderStats(entry))
  {
    if !(entry.Directory? && IsDateName(entry.dir.name)) {
      return Success(counts);
    }
    var reminders, notes, tasks := CountFiles(entry.dir.listing.entries, counts.reminders, counts.notes, counts.tasks);
    if entry.dir.listing.failure.Some? {
      return Failure(entry.dir.listing.failure.value);
    }
    r := Success(Stats(counts.dateFolders + 1, reminders, notes, tasks));
  }

  /** `scanFolder`'s counting loops over a root: the four counts, or the enumeration failure. */
  method CountStats(root: Dir) returns (r: Result<Stats, string>)
    ensures r.Failure? <==> ScanFailure(root).Some?
    ensures r.Failure? ==> r.error == ScanFailure(root).value
    ensures r.Success? ==> r.value == StatsOf(root.listing.entries)
  {
    var dateFolders: nat, reminders: nat, notes: nat, tasks: nat := 0, 0, 0, 0;
    var entries := root.listing.entries;
    var i := 0;
    while i < |entries|
      invariant 0 <= i <= |entries|
      invariant FirstFailure(entries[..i]).None?
      invariant Stats(dateFolders, reminders, notes, tasks) == StatsOf(entries[..i])
    {
      FirstFailureStep(entries, i);
      StatsOfStep(entries, i);
      var counted := CountEntry(entries[i], Stats(dateFolders, reminders, notes, tasks));
      match counted {
        case Failure(m) =>
          FirstFailureAt(entries, i);
          return Failure(m);
        case Success(s) =>
          dateFolders, reminders, notes, tasks := s.dateFolders, s.reminders, s.notes, s.tasks;
      }
      i := i + 1;
    }
    assert entries[..i] == entries;
    if root.listing.failure.Some? {
      return Failure(root.listing.failure.value);
    }
    r := Success(Stats(dateFolders, reminders, notes, tasks));
  }

  /** One more root entry adds its own statistics. */
  lemma StatsOfStep(es: seq<Entry>, i: nat)
    requires i < |es|
    ensures StatsOf(es[..i + 1]) == Add(StatsOf(es[..i]), FolderStats(es[i]))
  {
    assert es[..i + 1][..i] == es[..i];
  }

  // ---------------------------------------------------------------- properties of the statistics

  /** The files a date folder's entries can tally, other than nested directories. */
  predicate IsFile(e: Entry) {
    e.File?
  }

  function Total(s: Stats): nat {
    s.reminders + s.notes + s.tasks
  }

  lemma AddAssociative(x: Stats, y: Stats, z: Stats)
    ensures Add(Add(x, y), z) == Add(x, Add(y, z))
  {
  }

  /** Walking two runs of entries one after the other adds their statistics. */
  lemma {:induction false} StatsOfConcat(a: seq<Entry>, b: seq<Entry>)
    ensures StatsOf(a + b) == Add(StatsOf(a), StatsOf(b))
    decreases |b|
  {
    if b == [] {
      assert a + b == a;
    } else {
      var ab, init, last := a + b, b[..|b| - 1], b[|b| - 1];
      assert ab[..|ab| - 1] == a + init;
      assert ab[|ab| - 1] == last;
      assert StatsOf(ab) == Add(StatsOf(a + init), FolderStats(last));
      assert StatsOf(b) == Add(StatsOf(init), FolderStats(last));
      StatsOfConcat(a, init);
      AddAssociative(StatsOf(a), StatsOf(init), FolderStats(last));
    }
  }

  /** `dateFolders` is the number of root entries that are date-named directories. */
  lemma {:induction false} DateFoldersCounted(es: seq<Entry>)
    ensures StatsOf(es).dateFolders == |Seqs.Filter(IsDateFolder, es)|
    decreases |es|
  {
    if es != [] {
      var init, last := es[..|es| - 1], es[|es| - 1];
      assert es == init + [last];
      Seqs.FilterConcat(IsDateFolder, init, [last]);
      assert [last][1..] == [];
      DateFoldersCounted(init);
    }
  }

  /** Root entries other than date folders contribute nothing at all. */
  lemma {:induction false} OnlyDateFoldersCount(es: seq<Entry>)
    ensures StatsOf(es) == StatsOf(Seqs.Filter(IsDateFolder, es))
    decreases |es|
  {
    if es != [] {
      var init, last := es[..|es| - 1], es[|es| - 1];
      assert es == init + [last];
      Seqs.FilterConcat(IsDateFolder, init, [last]);
      assert [last][1..] == [];
      OnlyDateFoldersCount(init);
      StatsOfConcat(Seqs.Filter(IsDateFolder, init), Seqs.Filter(IsDateFolder, [last]));
      assert [last][..0] == [];
    }
  }

  /** A date folder's tallies never exceed the number of files in it. */
  lemma {:induction false} TallyFilesBound(es: seq<Entry>)
    ensures Total(TallyFiles(es)) <= |Seqs.Filter(IsFile, es)|
    decreases |es|
  {
    if es != [] {
      var init, last := es[..|es| - 1], es[|es| - 1];
      assert es == init + [last];
      Seqs.FilterConcat(IsFile, init, [last]);
      assert [last][1..] == [];
      TallyFilesBound(init);
    }
  }

  /** The number of files in the date folders among the root entries. */
  function FilesInDateFolders(es: seq<Entry>): nat
  {
    if es == [] then 0
    else
      var last := es[|es| - 1];
      FilesInDateFolders(es[..|es| - 1]) + if IsDateFolder(last) then |Seqs.Filter(IsFile, last.dir.listing.entries)| else 0
  }

  /** Every file is tallied once at most, so the three file counts together never exceed the files in date folders. */
  lemma {:induction false} TalliedAtMostFiles(es: seq<Entry>)
    ensures Total(StatsOf(es)) <= FilesInDateFolders(es)
    decreases |es|
  {
    if es != [] {
      var last := es[|es| - 1];
      TalliedAtMostFiles(es[..|es| - 1]);
      if IsDateFolder(last) {
        TallyFilesBound(last.dir.listing.entries);
      }
    }
  }

  /** Lower-casing twice is lower-casing once. */
  lemma ToLowerIdempotent(s: string)
    ensures ToLower(ToLower(s)) == ToLower(s)
  {
    assert forall k :: 0 <= k < |s| ==> ToLower(ToLower(s))[k] == ToLower(s)[k];
  }

  /** Classification does not see case: a name and its lower-cased form fall in the same category. */
  lemma ClassifyIgnoresCase(fileName: string)
    ensures Classify(ToLower(fileName)) == Classify(fileName)
  {
    ToLowerIdempotent(fileName);
  }

  /** Any file lower-casing to `reminder-.md` is a reminder: the reminder test has no `.+` between prefix and suffix. */
  lemma ClassifyBareReminder(fileName: string)
    requires ToLower(fileName) == "reminder-.md"
    ensures Classify(fileName) == ReminderFile
  {
    assert IsReminderName("reminder-.md");
  }

  /** Files lower-casing to `task-.md` or `123-.md` count nowhere: `.+` needs a character before `.md`. */
  lemma ClassifyEmptyRuns(fileName: string)
    requires ToLower(fileName) == "task-.md" || ToLower(fileName) == "123-.md"
    ensures Classify(fileName) == Uncounted
  {
    assert "task-.md"[0] == 't' && "123-.md"[0] == '1';
    assert !IsTaskName("task-.md") && !IsNumberedNoteName("123-.md");
  }

  /** Case does not matter: a file lower-casing to `task-call.md`, such as `Task-Call.MD`, is a task. */
  lemma ClassifyUpperCaseTask(fileName: string)
    requires ToLower(fileName) == "task-call.md"
    ensures Classify(fileName) == TaskFile
  {
    var n := "task-call.md";
    assert n[..5] == "task-" && n[9..] == ".md";
    assert IsTaskName(n);
    ClassifyByShape(fileName);
  }

  /** A file lower-casing to `007-x.md`, such as `007-X.Md`, is a numbered note. */
  lemma ClassifyUpperCaseNote(fileName: string)
    requires ToLower(fileName) == "007-x.md"
    ensures Classify(fileName) == NoteFile
  {
    assert "007-x.md"[0] == '0';
    assert !IsReminderName("007-x.md") && IsNumberedNoteName("007-x.md");
  }

  // ---------------------------------------------------------------- the page

  const RegrantMessage: string := "Please re-select your folder to grant permissions."
  const PermissionDeniedMessage: string := "Permission denied for selected folder."
  const PickFailedPrefix: string := "Failed to pick folder: "
  const ScanFailedPrefix: string := "Failed to scan folder: "

  /** What `showDirectoryPicker` does: a handle, the user's cancellation (an `AbortError`), or another exception. */
  datatype PickResult = Picked(handle: Dir) | PickAborted | PickFailed(message: string)

  class SettingsPage {
    const store: HandleStore
    var folderHandle: Option<Dir>
    var folderPath: Option<string>
    var error: Option<string>
    var stats: Stats

    constructor (store: HandleStore)
      ensures this.store == store
      ensures folderHandle == None && folderPath == None && error == None
      ensures stats == Stats(0, 0, 0, 0)
    {
      this.store := store;
      folderHandle := None;
      folderPath := None;
      error := None;
      stats := Stats(0, 0, 0, 0);
    }

    /**
     * `restoreFolder`: when IndexedDB can list databases, load the stored
     * handle and re-check read-write permission on it. Every exception on
     * the way is swallowed and changes nothing.
     */
    method RestoreFolder(databasesAvailable: bool, permissions: PermissionOracle)
      modifies this
      ensures folderPath == old(folderPath) && stats == old(stats)
      ensures !databasesAvailable || store.openFailure.Some? || store.getFails || store.slot.None? ==>
        folderHandle == old(folderHandle) && error == old(error)
      ensures databasesAvailable && store.openFailure.None? && !store.getFails && store.slot.Some? ==>
        var c := VerifyPermission(true, permissions);
        && (c.outcome == Success(true) ==> folderHandle == store.slot && error == None)
        && (c.outcome == Success(false) ==> folderHandle == old(folderHandle) && error == Some(RegrantMessage))
        && (c.outcome.Failure? ==> folderHandle == old(folderHandle) && error == old(error))
    {
      if !databasesAvailable {
        return;
      }
      var stored := store.Load();
      if stored.Failure? || stored.value.None? {
        return;
      }
      var check := VerifyPermission(true, permissions);
      match check.outcome {
        case Failure(_) =>
        case Success(true) =>
          folderHandle := stored.value;
          error := None;
        case Success(false) =>
          error := Some(RegrantMessage);
      }
    }

    /** The effect on `folderHandle`: the path shown is the handle's own name. */
    method UpdateFolderPath()
      modifies this`folderPath
      ensures folderHandle.None? ==> folderPath == None
      ensures folderHandle.Some? ==> folderPath == Some(folderHandle.value.name)
    {
      if folderHandle.None? {
        folderPath := None;
        return;
      }
      folderPath := Some(folderHandle.value.name);
    }

    /**
     * `scanFolder`: no handle resets the statistics; a completed walk
     * publishes them and clears the error; an exception sets the error and
     * keeps the statistics shown before.
     */
    method ScanFolder()
      modifies this`stats, this`error
      ensures folderHandle.None? ==> stats == Stats(0, 0, 0, 0) && error == old(error)
      ensures folderHandle.Some? && ScanFailure(folderHandle.value).None? ==>
        stats == StatsOf(folderHandle.value.listing.entries) && error == None
      ensures folderHandle.Some? && ScanFailure(folderHandle.value).Some? ==>
        stats == old(stats) && error == Some(ScanFailedPrefix + ScanFailure(folderHandle.value).value)
    {
      if folderHandle.None? {
        stats := Stats(0, 0, 0, 0);
        return;
      }
      var counted := CountStats(folderHandle.value);
      match counted {
        case Success(s) =>
          stats := s;
          error := None;
        case Failure(m) =>
          error := Some(ScanFailedPrefix + m);
      }
    }

    /**
     * `pickFolder`: clear the error, pick, check read-write permission, and
     * only then keep the handle and save it. A cancelled picker is silent.
     */
    method PickFolder(pick: PickResult, permissions: PermissionOracle)
      modifies this, store`slot
      ensures folderPath == old(folderPath) && stats == old(stats)
      ensures pick.PickAborted? ==>
        folderHandle == old(folderHandle) && error == None && store.slot == old(store.slot)
      ensures pick.PickFailed? ==>
        folderHandle == old(folderHandle) && error == Some(PickFailedPrefix + pick.message) &&
        store.slot == old(store.slot)
      ensures pick.Picked? ==>
        var c := VerifyPermission(true, permissions);
        && (c.outcome.Failure? ==>
              folderHandle == old(folderHandle) && error == Some(PickFailedPrefix + c.outcome.error) &&
              store.slot == old(store.slot))
        && (c.outcome == Success(false) ==>
              folderHandle == old(folderHandle) && error == Some(PermissionDeniedMessage) &&
              store.slot == old(store.slot))
        && (c.outcome == Success(true) ==>
              folderHandle == Some(pick.handle) &&
              (store.openFailure.None? ==> store.slot == Some(pick.handle) && error == None) &&
              (store.openFailure.Some? ==>
                 store.slot == old(store.slot) && error == Some(PickFailedPrefix + store.openFailure.value)))
    {
      error := None;
      match pick {
        case PickAborted =>
        case PickFailed(m) =>
          error := Some(PickFailedPrefix + m);
        case Picked(handle) =>
          var check := VerifyPermission(true, permissions);
          match check.outcome {
            case Failure(m) =>
              error := Some(PickFailedPrefix + m);
            case Success(false) =>
              error := Some(PermissionDeniedMessage);
            case Success(true) =>
              folderHandle := Some(handle);
              var saved := store.Save(handle);
              if saved.Fail? {
                error := Some(PickFailedPrefix + saved.error);
              }
          }
      }
    }
  }

  /**
   * A folder picked with permission on one visit is the folder restored on
   * the next, when the database works and permission still holds.
   */
  method PickThenRestore(store: HandleStore, handle: Dir, permissions: PermissionOracle)
    returns (later: SettingsPage)
    requires store.openFailure.None? && !store.getFails
    requires VerifyPermission(true, permissions).outcome == Success(true)
    modifies store
    ensures later.folderHandle == Some(handle) && later.error == None
  {
    var first := new SettingsPage(store);
    first.PickFolder(Picked(handle), permissions);
    later := new SettingsPage(store);
    later.RestoreFolder(true, permissions);
  }
}
