/**
 * The IndexedDB database `EchoJotHandles`, object store `handles`, seen as
 * the one slot the app uses: the folder handle under `echoJotFolderHandle`.
 * Both pages carry their own identical copy of the load operation.
 */
module HandleStorage {
  import opened Wrappers
  import opened FileSystem

  class HandleStore {
    /** The value under `echoJotFolderHandle`, None when nothing was saved. */
    var slot: Option<Dir>
    /** When Some, `indexedDB.open` rejects with this message. */
    var openFailure: Option<string>
    /** When true, the `get` request fires `onerror`. */
    var getFails: bool

    constructor (openFailure: Option<string>, getFails: bool)
      ensures slot == None
      ensures this.openFailure == openFailure && this.getFails == getFails
    {
      slot := None;
      this.openFailure := openFailure;
      this.getFails := getFails;
    }

    /**
     * `saveFolderHandle`: `put` under the fixed key, replacing whatever was
     * there. It fails, and writes nothing, only when the database cannot be
     * opened.
     */
    method Save(handle: Dir) returns (r: Outcome<string>)
      modifies this`slot
      ensures openFailure.Some? ==> r == Fail(openFailure.value) && slot == old(slot)
      ensures openFailure.None? ==> r == Pass && slot == Some(handle)
    {
      match openFailure
      case Some(m) =>
        r := Fail(m);
      case None =>
        slot := Some(handle);
        r := Pass;
    }

    /**
     * `getStoredFolderHandle`: the stored handle, or null when the key is
     * missing or the read errors. Only a failure to open the database
     * escapes as an exception.
     */
    method Load() returns (r: Result<Option<Dir>, string>)
      ensures r.Failure? <==> openFailure.Some?
      ensures r.Failure? ==> r.error == openFailure.value
      ensures r.Success? && getFails ==> r.value == None
      ensures r.Success? && !getFails ==> r.value == slot
    {
      if openFailure.Some? {
        return Failure(openFailure.value);
      }
      if getFails {
        return Success(None);
      }
      return Success(slot);
    }
  }

  /** Saving twice keeps only the second handle; a later load yields it. */
  method SaveReplaces(store: HandleStore, first: Dir, second: Dir) returns (loaded: Result<Option<Dir>, string>)
    requires store.openFailure.None? && !store.getFails
    modifies store
    ensures loaded == Success(Some(second))
  {
    var _ := store.Save(first);
    var _ := store.Save(second);
    loaded := store.Load();
  }
}
