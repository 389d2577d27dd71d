/**
 * The host's vault as the plugin sees it: notes (Obsidian's `TFile`s) and
 * folders, and the four host calls the runner makes. A note handle is its
 * position in `notes`; a rename changes the note's path, not its handle, as
 * renaming a `TFile` updates that same object.
 *
 * What the host does on failure is an assumption of this model: renaming
 * onto a path that is already taken fails, and so does editing a note whose
 * frontmatter block cannot be parsed.
 */
module Vault {
  import opened Wrappers

  /** A frontmatter block: its fields (`None` holds `undefined`), or YAML the host cannot parse. */
  datatype Frontmatter = Fields(fields: map<string, Option<string>>) | Malformed

  /** A note: its full path, its file name (the last path segment) and its frontmatter. */
  datatype Note = Note(path: string, name: string, frontmatter: Frontmatter)

  datatype VaultState = VaultState(notes: seq<Note>, folders: set<string>)

  /** A `TFile`: the index of a note. */
  type Handle = nat

  /** The first note whose path is `path` (`getAbstractFileByPath` returning a `TFile`). */
  function FindNote(notes: seq<Note>, path: string): (r: Option<Handle>)
    ensures r.Some? ==> r.value < |notes| && notes[r.value].path == path
    ensures r.Some? ==> forall k :: 0 <= k < r.value ==> notes[k].path != path
    ensures r.None? <==> forall k :: 0 <= k < |notes| ==> notes[k].path != path
  {
    if notes == [] then None
    else if notes[0].path == path then Some(0)
    else match FindNote(notes[1..], path)
      case None => None
      case Some(k) => Some(k + 1)
  }

  /** `getAbstractFileByPath(path) != null`: a folder or a note lives at `path`. */
  predicate Exists(v: VaultState, path: string) {
    path in v.folders || FindNote(v.notes, path).Some?
  }

  /** `vault.createFolder(path)`. */
  function CreateFolder(v: VaultState, path: string): (r: VaultState)
    ensures r.notes == v.notes && r.folders == v.folders + {path}
  {
    v.(folders := v.folders + {path})
  }

  /** `fileManager.renameFile(f, newPath)`; `None` when the host refuses because `newPath` is taken. */
  function RenameFile(v: VaultState, f: Handle, newPath: string): (r: Option<VaultState>)
    requires f < |v.notes|
    ensures r.None? <==> Exists(v, newPath)
    ensures r.Some? ==> r.value == v.(notes := v.notes[f := v.notes[f].(path := newPath)])
  {
    if Exists(v, newPath) then None
    else Some(v.(notes := v.notes[f := v.notes[f].(path := newPath)]))
  }

  /** `fileManager.processFrontMatter(f, fm => fm[key] = value)`; `None` when the block is malformed. */
  function SetFrontmatter(v: VaultState, f: Handle, key: string, value: Option<string>): (r: Option<VaultState>)
    requires f < |v.notes|
    ensures r.None? <==> v.notes[f].frontmatter.Malformed?
    ensures r.Some? ==> r.value.folders == v.folders && |r.value.notes| == |v.notes|
    ensures r.Some? ==> r.value.notes[f] == v.notes[f].(frontmatter := Fields(v.notes[f].frontmatter.fields[key := value]))
    ensures r.Some? ==> forall g :: 0 <= g < |v.notes| && g != f ==> r.value.notes[g] == v.notes[g]
  {
    match v.notes[f].frontmatter
    case Malformed => None
    case Fields(fm) => Some(v.(notes := v.notes[f := v.notes[f].(frontmatter := Fields(fm[key := value]))]))
  }
}
