/**
 * The File System Access API as the two pages see it: a directory handle
 * enumerates its entries; a file handle yields text, which gray-matter
 * turns into frontmatter and a body.
 */
module FileSystem {
  import opened Wrappers
  import opened Text

  /**
   * The frontmatter fields the app reads (`Partial<NoteBlock>`). A missing
   * key is None; gray-matter gives an empty map for a file without a
   * frontmatter block.
   */
  datatype Frontmatter = Frontmatter(
    id: Option<string>,
    noteType: Option<string>,
    createdAt: Option<string>,
    title: Option<string>,
    tags: Option<seq<string>>,
    doDate: Option<string>,
    reminderDate: Option<string>,
    linkedTodos: Option<seq<string>>,
    linkedReminders: Option<seq<string>>,
    linkedNotes: Option<seq<string>>,
    linkedBy: Option<seq<string>>)

  /** What `getFile()`, `text()` and `matter(text)` together yield for one file. */
  datatype FileRead =
    | Unreadable(message: string)
    | Parsed(data: Frontmatter, content: string)

  /**
   * One enumeration of a directory: the entries it yields, in order, and
   * then either the end or an exception.
   */
  datatype Listing = Listing(entries: seq<Entry>, failure: Option<string>)

  /**
   * How `getParent` behaves on a handle: absent (the standard directory
   * handle has no such method), throwing, resolving to null, or to a handle.
   */
  datatype ParentLookup =
    | NoGetParent
    | ParentThrows
    | ParentNull
    | ParentDir(dir: Dir)

  datatype Dir = Dir(name: string, listing: Listing, parent: ParentLookup)

  datatype Entry =
    | File(fileName: string, read: FileRead)
    | Directory(dir: Dir)
  {
    function Name(): string {
      match this
      case File(n, _) => n
      case Directory(d) => d.name
    }
  }

  /** `entry.kind === 'directory' && /^\d{4}-\d{2}-\d{2}$/.test(entry.name)` */
  predicate IsDateFolder(e: Entry) {
    e.Directory? && IsDateName(e.dir.name)
  }

  /** The exception a day folder's enumeration ends with, if any; other entries are never enumerated. */
  function DayFolderFailure(e: Entry): (r: Option<string>)
    ensures r.Some? ==> IsDateFolder(e)
  {
    if IsDateFolder(e) then e.dir.listing.failure else None
  }

  /** The first day-folder enumeration failure met when walking entries in order. */
  function FirstFailure(es: seq<Entry>): Option<string>
  {
    if es == [] then None
    else if FirstFailure(es[..|es| - 1]).Some? then FirstFailure(es[..|es| - 1])
    else DayFolderFailure(es[|es| - 1])
  }

  /**
   * The exception that ends a scan of the root: both pages walk the root and
   * each day folder in it, and nothing else, so the first failure met in
   * that walk is the one that escapes, the root's own coming last.
   */
  function ScanFailure(root: Dir): Option<string>
  {
    if FirstFailure(root.listing.entries).Some? then FirstFailure(root.listing.entries)
    else root.listing.failure
  }

  /** A failure once met stays the first one, whatever is enumerated after it. */
  lemma {:induction false} FirstFailureStays(p: seq<Entry>, q: seq<Entry>)
    requires FirstFailure(p).Some?
    ensures FirstFailure(p + q) == FirstFailure(p)
    decreases |q|
  {
    if q == [] {
      assert p + q == p;
    } else {
      var pq := p + q;
      assert pq[..|pq| - 1] == p + q[..|q| - 1];
      FirstFailureStays(p, q[..|q| - 1]);
    }
  }

  /** One more entry walked: the first failure so far, or this entry's own. */
  lemma FirstFailureStep(es: seq<Entry>, i: nat)
    requires i < |es|
    ensures FirstFailure(es[..i + 1]) ==
      if FirstFailure(es[..i]).Some? then FirstFailure(es[..i]) else DayFolderFailure(es[i])
  {
    assert es[..i + 1][..i] == es[..i];
  }

  /** The first entry whose enumeration fails decides the failure of the whole walk. */
  lemma {:induction false} FirstFailureAt(es: seq<Entry>, i: nat)
    requires i < |es| && FirstFailure(es[..i]).None? && DayFolderFailure(es[i]).Some?
    ensures FirstFailure(es) == DayFolderFailure(es[i])
    decreases |es|
  {
    var init := es[..|es| - 1];
    if i + 1 == |es| {
      assert init == es[..i];
    } else {
      assert init[..i] == es[..i];
      assert init[i] == es[i];
      FirstFailureAt(init, i);
    }
  }

  /** A scan fails exactly when some enumerated listing ends in an exception. */
  lemma {:induction false} FirstFailureExists(es: seq<Entry>)
    ensures FirstFailure(es).Some? <==> exists k :: 0 <= k < |es| && DayFolderFailure(es[k]).Some?
    decreases |es|
  {
    if es != [] {
      var init := es[..|es| - 1];
      FirstFailureExists(init);
      assert forall k :: 0 <= k < |init| ==> init[k] == es[k];
      if exists k :: 0 <= k < |es| && DayFolderFailure(es[k]).Some? {
        var k :| 0 <= k < |es| && DayFolderFailure(es[k]).Some?;
        if k < |init| {
          assert DayFolderFailure(init[k]).Some?;
        }
      }
    }
  }

  /**
   * The whole walk throws exactly when some date folder's enumeration
   * throws or the root's own enumeration does.
   */
  lemma ScanFailureExists(root: Dir)
    ensures ScanFailure(root).Some? <==>
      || (exists k :: 0 <= k < |root.listing.entries| && DayFolderFailure(root.listing.entries[k]).Some?)
      || root.listing.failure.Some?
  {
    FirstFailureExists(root.listing.entries);
  }
}
