/**
 * `StateManager`: which rulesets each note matched, by note path, kept in
 * memory and persisted to the plugin's `state.json`.
 *
 * The file is a snapshot the manager holds a handle to: `state.json` is
 * absent, holds a well-formed copy of some state, or cannot be read or
 * parsed. Whether a write succeeds is a parameter.
 */
module State {
  /** `StateData`: file path to the ids of the rulesets it matched. */
  datatype StateData = StateData(fileMatches: map<string, seq<string>>)

  /** `{ fileMatches: {} }`. */
  const EmptyState := StateData(map[])

  /** What `state.json` looks like to `load`. */
  datatype StoredFile =
    | Missing              // `adapter.exists` is false
    | Holds(data: StateData)
    | Unreadable           // the read throws, or the text is not JSON

  // ---------------------------------------------------------------------------
  // The store, as functions
  // ---------------------------------------------------------------------------

  /** `getMatches`: the entry for `path`, or the empty list when there is none. */
  function Lookup(d: StateData, path: string): (r: seq<string>)
    ensures path !in d.fileMatches ==> r == []
  {
    if path in d.fileMatches then d.fileMatches[path] else []
  }

  /** The state after `setMatches(path, ids)`: the whole entry is replaced. */
  function Assign(d: StateData, path: string, ids: seq<string>): (r: StateData)
    ensures r.fileMatches.Keys == d.fileMatches.Keys + {path}
  {
    StateData(d.fileMatches[path := ids])
  }

  /** What `save` leaves in `state.json`: the whole state if the write succeeds, else what was there. */
  function Saved(file: StoredFile, d: StateData, writeOk: bool): (r: StoredFile)
    ensures writeOk ==> r == Holds(d)
    ensures !writeOk ==> r == file
  {
    if writeOk then Holds(d) else file
  }

  /** What `load` leaves in memory: the file's state, the current one when there is no file, empty when it is unreadable. */
  function Loaded(current: StateData, file: StoredFile): (r: StateData)
    ensures file.Missing? ==> r == current
    ensures file.Holds? ==> r == file.data
    ensures file.Unreadable? ==> r == EmptyState
  {
    match file
    case Missing => current
    case Holds(d) => d
    case Unreadable => EmptyState
  }

  /** A fresh store has no entry for any path. */
  lemma FreshIsEmpty(path: string)
    ensures Lookup(EmptyState, path) == []
  {
    assert path !in EmptyState.fileMatches;
  }

  /** `getMatches` after `setMatches(path, ids)` returns exactly `ids`. */
  lemma LookupAssigned(d: StateData, path: string, ids: seq<string>)
    ensures Lookup(Assign(d, path, ids), path) == ids
  {
  }

  /** `setMatches` on one path leaves every other path's entry as it was. */
  lemma LookupOthers(d: StateData, path: string, ids: seq<string>, other: string)
    requires other != path
    ensures Lookup(Assign(d, path, ids), other) == Lookup(d, other)
  {
  }

  /** A successful save followed by a load restores the saved state, whatever was in memory. */
  lemma SaveLoadRoundTrip(file: StoredFile, d: StateData, current: StateData)
    ensures Loaded(current, Saved(file, d, true)) == d
  {
  }

  /** A failed load leaves the store with no entries. */
  lemma FailedLoadIsEmpty(current: StateData, path: string)
    ensures Lookup(Loaded(current, Unreadable), path) == []
  {
    FreshIsEmpty(path);
  }

  // ---------------------------------------------------------------------------
  // The store, as the class of the source
  // ---------------------------------------------------------------------------

  class StateManager {
    var data: StateData
    /** The plugin's `state.json`. */
    var file: StoredFile

    /** `new StateManager(plugin)`: empty in memory; `state.json` is whatever is on disk. */
    constructor(disk: StoredFile)
      ensures data == EmptyState && file == disk
    {
      data := EmptyState;
      file := disk;
    }

    /** `load`. */
    method Load()
      modifies this
      ensures data == Loaded(old(data), old(file)) && file == old(file)
    {
      match file
      case Missing =>
      case Holds(d) => data := d;
      case Unreadable => data := EmptyState;
    }

    /** `save`: a failed write is caught and changes nothing. */
    method Save(writeOk: bool)
      modifies this
      ensures data == old(data) && file == Saved(old(file), old(data), writeOk)
    {
      if writeOk {
        file := Holds(data);
      }
    }

    /** `getMatches`. */
    function GetMatches(path: string): (r: seq<string>)
      reads this
      ensures path in data.fileMatches ==> r == data.fileMatches[path]
      ensures path !in data.fileMatches ==> r == []
    {
      Lookup(data, path)
    }

    /** `setMatches`: replace the entry, then save the whole state. */
    method SetMatches(path: string, ids: seq<string>, writeOk: bool)
      modifies this
      ensures data == Assign(old(data), path, ids)
      ensures file == Saved(old(file), data, writeOk)
      ensures GetMatches(path) == ids
    {
      data := Assign(data, path, ids);
      Save(writeOk);
    }
  }
}
