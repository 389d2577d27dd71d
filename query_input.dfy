/**
 * `addQueryInput`: a collapsible query editor attached to a setting row.
 * Closing the editor previews the query: it reports how many notes the
 * query lists, less those the global exclusion query lists when exclusions
 * are on. The toggle button's `is-active` / `has-content` classes follow
 * the editor's visibility and text.
 *
 * The DOM is reduced to the state it shows: the text, whether the editor
 * is shown, the two button classes and the setting's description.
 */
module QueryInput {
  import opened Wrappers
  import opened JsString
  import Types
  import opened Vault
  import opened Dataview

  /** What the setting's description says after a preview. */
  datatype Description =
    | Placeholder             // blank query: the placeholder text
    | MatchCount(count: nat)  // `Matches N notes`

  // ---------------------------------------------------------------------------
  // The preview, as functions
  // ---------------------------------------------------------------------------

  predicate ValidFiles(notes: seq<Note>, files: seq<Handle>) {
    forall k :: 0 <= k < |files| ==> files[k] < |notes|
  }

  /** `new Set(excludedFiles.map(f => f.path))`. */
  function PathsOf(notes: seq<Note>, files: seq<Handle>): (r: set<string>)
    requires ValidFiles(notes, files)
    ensures forall k :: 0 <= k < |files| ==> notes[files[k]].path in r
    ensures forall p :: p in r <==> exists k :: 0 <= k < |files| && notes[files[k]].path == p
  {
    set k | 0 <= k < |files| :: notes[files[k]].path
  }

  /** `files.filter(f => !excludedPaths.has(f.path))`. */
  function WithoutExcluded(notes: seq<Note>, files: seq<Handle>, excluded: set<string>): (r: seq<Handle>)
    requires ValidFiles(notes, files)
    ensures |r| <= |files|
    ensures forall k :: 0 <= k < |r| ==> r[k] in files && notes[r[k]].path !in excluded
    ensures forall k :: 0 <= k < |files| && notes[files[k]].path !in excluded ==> files[k] in r
  {
    if files == [] then []
    else
      var front := WithoutExcluded(notes, files[..|files| - 1], excluded);
      var f := files[|files| - 1];
      assert forall k :: 0 <= k < |files| - 1 ==> files[k] == files[..|files| - 1][k];
      if notes[f].path in excluded then front else front + [f]
  }

  /** Whether the exclusion step runs: `filterExclusions` and a truthy `excludedQuery`. */
  predicate ExclusionActive(filterExclusions: bool, excludedQuery: Option<string>) {
    filterExclusions && excludedQuery.Some? && excludedQuery.value != ""
  }

  /** The notes a preview counts. */
  function PreviewFiles(api: Api, notes: seq<Note>, query: string, filterExclusions: bool, excludedQuery: Option<string>): (r: seq<Handle>)
    ensures ValidFiles(notes, r)
  {
    var files := QueryResult(api, notes, query);
    if ExclusionActive(filterExclusions, excludedQuery) then
      WithoutExcluded(notes, files, PathsOf(notes, QueryResult(api, notes, excludedQuery.value)))
    else files
  }

  /** `runPreview`: the description it sets. */
  function Preview(api: Api, notes: seq<Note>, query: string, filterExclusions: bool, excludedQuery: Option<string>): Description {
    if Trim(query) == "" then Placeholder
    else MatchCount(|PreviewFiles(api, notes, query, filterExclusions, excludedQuery)|)
  }

  /**
   * A blank or whitespace-only query shows the placeholder; any other query
   * shows the number of notes counted.
   */
  lemma PreviewDescribes(api: Api, notes: seq<Note>, query: string, filterExclusions: bool, excludedQuery: Option<string>)
    ensures var d := Preview(api, notes, query, filterExclusions, excludedQuery);
      && (AllSpace(query) <==> d.Placeholder?)
      && (d.MatchCount? ==> d.count == |PreviewFiles(api, notes, query, filterExclusions, excludedQuery)|)
  {
  }

  /**
   * The filter keeps an order-preserving selection of the files: the result
   * is the files at a strictly increasing sequence of positions.
   */
  lemma {:induction false} WithoutExcludedIsSubsequence(notes: seq<Note>, files: seq<Handle>, excluded: set<string>) returns (idx: seq<nat>)
    requires ValidFiles(notes, files)
    ensures |idx| == |WithoutExcluded(notes, files, excluded)|
    ensures forall k :: 0 <= k < |idx| ==> idx[k] < |files| && files[idx[k]] == WithoutExcluded(notes, files, excluded)[k]
    ensures forall k, l :: 0 <= k < l < |idx| ==> idx[k] < idx[l]
  {
    if files == [] {
      idx := [];
    } else {
      var n := |files| - 1;
      var front := files[..n];
      var prev := WithoutExcludedIsSubsequence(notes, front, excluded);
      assert forall k :: 0 <= k < n ==> front[k] == files[k];
      if notes[files[n]].path in excluded {
        idx := prev;
      } else {
        idx := prev + [n];
      }
    }
  }

  /**
   * The filter keeps every occurrence of a note whose path is not excluded,
   * and none of one whose path is: a note the query lists twice is counted twice.
   */
  lemma {:induction false} WithoutExcludedCounts(notes: seq<Note>, files: seq<Handle>, excluded: set<string>, f: Handle)
    requires ValidFiles(notes, files) && f < |notes|
    ensures multiset(WithoutExcluded(notes, files, excluded))[f] == if notes[f].path in excluded then 0 else multiset(files)[f]
  {
    if files != [] {
      var n := |files| - 1;
      var front := files[..n];
      assert files == front + [files[n]];
      WithoutExcludedCounts(notes, front, excluded, f);
    }
  }

  /** With exclusions on, a note is counted as often as the query lists it, or not at all when its path is excluded. */
  lemma PreviewCountsOccurrences(api: Api, notes: seq<Note>, query: string, filterExclusions: bool, excludedQuery: Option<string>, f: Handle)
    requires ExclusionActive(filterExclusions, excludedQuery) && f < |notes|
    ensures var paths := PathsOf(notes, QueryResult(api, notes, excludedQuery.value));
      multiset(PreviewFiles(api, notes, query, filterExclusions, excludedQuery))[f]
        == if notes[f].path in paths then 0 else multiset(QueryResult(api, notes, query))[f]
  {
    var paths := PathsOf(notes, QueryResult(api, notes, excludedQuery.value));
    WithoutExcludedCounts(notes, QueryResult(api, notes, query), paths, f);
  }

  /** With exclusions on, no counted note has the path of a note the exclusion query lists. */
  lemma ExcludedNeverCounted(api: Api, notes: seq<Note>, query: string, filterExclusions: bool, excludedQuery: Option<string>, k: nat, e: nat)
    requires ExclusionActive(filterExclusions, excludedQuery)
    requires k < |PreviewFiles(api, notes, query, filterExclusions, excludedQuery)|
    requires e < |QueryResult(api, notes, excludedQuery.value)|
    ensures var f := PreviewFiles(api, notes, query, filterExclusions, excludedQuery)[k];
      notes[f].path != notes[QueryResult(api, notes, excludedQuery.value)[e]].path
  {
    var excludedFiles := QueryResult(api, notes, excludedQuery.value);
    var paths := PathsOf(notes, excludedFiles);
    assert notes[excludedFiles[e]].path in paths;
  }

  /** A counted note is one the query lists; with exclusions on, every listed note outside the excluded paths is counted. */
  lemma PreviewKeepsUnexcluded(api: Api, notes: seq<Note>, query: string, filterExclusions: bool, excludedQuery: Option<string>, f: Handle)
    ensures f in PreviewFiles(api, notes, query, filterExclusions, excludedQuery) ==> f in QueryResult(api, notes, query)
    ensures ExclusionActive(filterExclusions, excludedQuery) && f in QueryResult(api, notes, query)
      && notes[f].path !in PathsOf(notes, QueryResult(api, notes, excludedQuery.value))
      ==> f in PreviewFiles(api, notes, query, filterExclusions, excludedQuery)
  {
    var files := QueryResult(api, notes, query);
    if f in files {
      var k :| 0 <= k < |files| && files[k] == f;
    }
  }

  /** With exclusions off or an empty exclusion query, the preview counts exactly what the query lists. */
  lemma InactiveCountsAll(api: Api, notes: seq<Note>, query: string, filterExclusions: bool, excludedQuery: Option<string>)
    requires !ExclusionActive(filterExclusions, excludedQuery)
    ensures PreviewFiles(api, notes, query, filterExclusions, excludedQuery) == QueryResult(api, notes, query)
  {
  }

  /** The default settings' exclusion query (`""`) filters nothing. */
  lemma DefaultExcludesNothing(filterExclusions: bool)
    ensures !ExclusionActive(filterExclusions, Types.DefaultSettings.excludedQuery)
  {
  }

  // ---------------------------------------------------------------------------
  // The editor, as the closure state of the source
  // ---------------------------------------------------------------------------

  class QueryEditor {
    var text: string
    /** `content.style.display !== 'none'`. */
    var shown: bool
    /** The toggle button's `is-active` class. */
    var isActive: bool
    /** The toggle button's `has-content` class. */
    var hasContent: bool
    /** The setting's description, once a preview has set it. */
    var desc: Option<Description>
    const filterExclusions: bool

    /**
     * The button classes as `updateState` leaves them. The text has content
     * when it is not all whitespace, which is when its `trim()` is non-empty
     * (the contract of `Trim`).
     */
    predicate Valid()
      reads this
    {
      && isActive == shown
      && hasContent == (!shown && !AllSpace(text))
    }

    /** `updateState`. */
    method UpdateState()
      modifies this
      ensures Valid()
      ensures unchanged(this`text, this`shown, this`desc)
    {
      var nonBlank := !AllSpace(text);
      if shown {
        isActive := true;
        hasContent := false;
      } else {
        isActive := false;
        hasContent := nonBlank;
      }
    }

    /** `addQueryInput(…, value, …, filterExclusions)`: hidden, and previewed at once when `value` is not blank. */
    constructor(value: string, filterExclusions: bool, api: Api, notes: seq<Note>, excludedQuery: Option<string>)
      ensures Valid()
      ensures text == value && !shown && this.filterExclusions == filterExclusions
      ensures desc == if !AllSpace(value) then Some(Preview(api, notes, value, filterExclusions, excludedQuery)) else None
    {
      text := value;
      shown := false;
      this.filterExclusions := filterExclusions;
      isActive := false;
      hasContent := !AllSpace(value);
      desc := if !AllSpace(value) then Some(Preview(api, notes, value, filterExclusions, excludedQuery)) else None;
    }

    /** `runPreview`, as the Preview button runs it. */
    method RunPreview(api: Api, notes: seq<Note>, excludedQuery: Option<string>)
      modifies this
      ensures desc == Some(Preview(api, notes, text, filterExclusions, excludedQuery))
      ensures unchanged(this`text, this`shown, this`isActive, this`hasContent)
    {
      desc := Some(Preview(api, notes, text, filterExclusions, excludedQuery));
    }

    /** The toggle button: flip visibility, and preview when the editor closes. */
    method Toggle(api: Api, notes: seq<Note>, excludedQuery: Option<string>) returns (previewed: bool)
      modifies this
      ensures Valid()
      ensures shown == !old(shown) && unchanged(this`text)
      ensures previewed == old(shown)
      ensures desc == if previewed then Some(Preview(api, notes, text, filterExclusions, excludedQuery)) else old(desc)
    {
      var wasHidden := !shown;
      shown := wasHidden;
      UpdateState();
      previewed := !wasHidden;
      if previewed {
        RunPreview(api, notes, excludedQuery);
      }
    }

    /** `textArea.oninput`: the new text goes to the caller's `onChange`. */
    method OnInput(value: string)
      modifies this
      ensures Valid()
      ensures text == value && unchanged(this`shown, this`desc)
    {
      text := value;
      UpdateState();
    }
  }
}
