/**
 * The plugin's wrapper around the Dataview API: query normalisation, the
 * issued `TABLE file.path` query, extraction of notes from the result rows,
 * the per-note membership test, and quote escaping.
 *
 * The Dataview API itself is a parameter: `Unavailable` when `getAPI`
 * returns nothing, otherwise a function from the issued query text to its
 * outcome (the rows of a successful result, an unsuccessful result, or an
 * exception).
 */
module Dataview {
  import opened Wrappers
  import opened JsString
  import opened Vault

  /** A table cell as the plugin inspects it: absent, a string, a link object, or anything else. */
  datatype Cell = Missing | Text(s: string) | Link(path: string) | OtherValue

  type Row = seq<Cell>

  datatype QueryOutcome = Successful(rows: seq<Row>) | Unsuccessful | Threw

  datatype Api = Unavailable | Available(run: string -> QueryOutcome)

  /** `row[i]`, which is `undefined` past the end of the row. */
  function CellAt(row: Row, i: nat): Cell {
    if i < |row| then row[i] else Missing
  }

  // ---------------------------------------------------------------------------
  // Normalisation
  // ---------------------------------------------------------------------------

  /** The view keywords of `/^(LIST|TABLE|TASK|CALENDAR)\s+/i`, in the order the regex tries them. */
  const ViewKeywords: seq<string> := ["LIST", "TABLE", "TASK", "CALENDAR"]

  /**
   * Upper-casing of ASCII letters. Under the `i` flag without `u`, no
   * non-ASCII character canonicalises to an ASCII one, so against the
   * all-ASCII keywords this comparison matches exactly what the regex does.
   */
  function AsciiUpper(c: char): char {
    if 'a' <= c <= 'z' then (c as int - 32) as char else c
  }

  /** `t` starts with `kw`, ignoring case. */
  predicate HasPrefixIgnoringCase(t: string, kw: string) {
    |kw| <= |t| && forall k :: 0 <= k < |kw| ==> AsciiUpper(t[k]) == kw[k]
  }

  /** Keyword `i` matches at the start of `t` and is followed by whitespace. */
  predicate KeywordAt(t: string, i: nat)
    requires i < |ViewKeywords|
  {
    var kw := ViewKeywords[i];
    HasPrefixIgnoringCase(t, kw) && |kw| < |t| && IsSpace(t[|kw|])
  }

  /** `viewTypeRegex.test(t)`. */
  predicate StartsWithView(t: string) {
    exists i :: 0 <= i < |ViewKeywords| && KeywordAt(t, i)
  }

  /** `t.replace(viewTypeRegex, '')`, trying the keywords from index `i` on. */
  function StripView(t: string, i: nat): string
    decreases |ViewKeywords| - i
  {
    if i >= |ViewKeywords| then t
    else if KeywordAt(t, i) then TrimStart(t[|ViewKeywords[i]|..])
    else StripView(t, i + 1)
  }

  /** The user's query trimmed and without a leading view keyword and the whitespace after it. */
  function Normalise(source: string): string {
    StripView(Trim(source), 0)
  }

  /** The query text actually sent to Dataview. */
  function FinalQuery(source: string): string {
    "TABLE file.path " + Normalise(source)
  }

  lemma {:induction false} TrimStartSkipsSpace(gap: string, rest: string)
    requires AllSpace(gap)
    requires rest == [] || !IsSpace(rest[0])
    ensures TrimStart(gap + rest) == rest
  {
    if gap != [] {
      assert (gap + rest)[1..] == gap[1..] + rest;
      TrimStartSkipsSpace(gap[1..], rest);
    }
  }

  /** At most one view keyword can start a string: they differ early on. */
  lemma KeywordsExclusive(t: string, i: nat, j: nat)
    requires i < |ViewKeywords| && j < |ViewKeywords| && i != j
    requires HasPrefixIgnoringCase(t, ViewKeywords[i])
    ensures !HasPrefixIgnoringCase(t, ViewKeywords[j])
  {
    assert AsciiUpper(t[0]) == ViewKeywords[i][0];
    assert AsciiUpper(t[2]) == ViewKeywords[i][2];
  }

  lemma {:induction false} StripViewFinds(t: string, i: nat, j: nat)
    requires i <= j < |ViewKeywords| && KeywordAt(t, j)
    ensures StripView(t, i) == TrimStart(t[|ViewKeywords[j]|..])
    decreases j - i
  {
    if i < j {
      KeywordsExclusive(t, j, i);
      StripViewFinds(t, i + 1, j);
    }
  }

  lemma {:induction false} StripViewMisses(t: string, i: nat)
    requires !StartsWithView(t)
    ensures StripView(t, i) == t
    decreases |ViewKeywords| - i
  {
    if i < |ViewKeywords| {
      assert !KeywordAt(t, i);
      StripViewMisses(t, i + 1);
    }
  }

  lemma PrefixOfConcat(word: string, more: string, kw: string)
    requires |word| == |kw| && HasPrefixIgnoringCase(word, kw)
    ensures HasPrefixIgnoringCase(word + more, kw)
  {
    forall k | 0 <= k < |kw| ensures AsciiUpper((word + more)[k]) == kw[k] {
      assert (word + more)[k] == word[k];
    }
  }

  lemma StripViewKeyword(t: string, i: nat, word: string, gap: string, rest: string)
    requires i < |ViewKeywords|
    requires t == word + gap + rest
    requires |word| == |ViewKeywords[i]| && HasPrefixIgnoringCase(word, ViewKeywords[i])
    requires gap != [] && AllSpace(gap)
    requires rest == [] || !IsSpace(rest[0])
    ensures StripView(t, 0) == rest
  {
    var kw := ViewKeywords[i];
    assert t == word + (gap + rest);
    PrefixOfConcat(word, gap + rest, kw);
    assert t[|kw|..] == gap + rest;
    assert KeywordAt(t, i);
    StripViewFinds(t, 0, i);
    TrimStartSkipsSpace(gap, rest);
  }

  /**
   * A trimmed query made of a view keyword in any case, whitespace, and the
   * rest normalises to the rest.
   */
  lemma NormaliseStripsKeyword(source: string, i: nat, word: string, gap: string, rest: string)
    requires i < |ViewKeywords|
    requires Trim(source) == word + gap + rest
    requires |word| == |ViewKeywords[i]| && HasPrefixIgnoringCase(word, ViewKeywords[i])
    requires gap != [] && AllSpace(gap)
    requires rest == [] || !IsSpace(rest[0])
    ensures Normalise(source) == rest
  {
    StripViewKeyword(Trim(source), i, word, gap, rest);
  }

  /** A trimmed query that does not start with a keyword and whitespace is left as it is. */
  lemma NormaliseKeepsOthers(source: string)
    requires !StartsWithView(Trim(source))
    ensures Normalise(source) == Trim(source)
  {
    StripViewMisses(Trim(source), 0);
  }

  /** A normalised query never starts or ends with whitespace. */
  lemma NormaliseIsTrimmed(source: string)
    ensures Trimmed(Normalise(source))
  {
    var t := Trim(source);
    if StartsWithView(t) {
      var i :| 0 <= i < |ViewKeywords| && KeywordAt(t, i);
      StripViewFinds(t, 0, i);
      TrimStartOfSuffix(t, |ViewKeywords[i]|);
    } else {
      StripViewMisses(t, 0);
    }
  }

  // ---------------------------------------------------------------------------
  // Extraction
  // ---------------------------------------------------------------------------

  /** The path a row names: `row[0].path` when it is a non-empty link path, else `row[1]` if it is a string. */
  function RowPath(row: Row): Option<string> {
    var link := CellAt(row, 0);
    if link.Link? && link.path != "" then Some(link.path)
    else match CellAt(row, 1)
      case Text(s) => Some(s)
      case _ => None
  }

  /** The note a row stands for, if its path resolves to a note. */
  function Resolve(notes: seq<Note>, row: Row): (r: Option<Handle>)
    ensures r.Some? ==> r.value < |notes| && RowPath(row) == Some(notes[r.value].path)
    ensures r.None? ==> RowPath(row).None? || FindNote(notes, RowPath(row).value).None?
  {
    match RowPath(row)
    case None => None
    case Some(p) => FindNote(notes, p)
  }

  /** The notes the rows stand for, one per resolving row, in row order. */
  function Extracted(notes: seq<Note>, rows: seq<Row>): (r: seq<Handle>)
    ensures |r| <= |rows|
    ensures forall k :: 0 <= k < |r| ==> r[k] < |notes|
  {
    if rows == [] then []
    else
      var prefix := Extracted(notes, rows[..|rows| - 1]);
      match Resolve(notes, rows[|rows| - 1])
      case None => prefix
      case Some(h) => prefix + [h]
  }

  /** The extraction loop of `query`. */
  method ExtractFiles(notes: seq<Note>, rows: seq<Row>) returns (files: seq<Handle>)
    ensures files == Extracted(notes, rows)
  {
    files := [];
    var i := 0;
    while i < |rows|
      invariant 0 <= i <= |rows|
      invariant files == Extracted(notes, rows[..i])
    {
      assert rows[..i + 1][..i] == rows[..i];
      var path := RowPath(rows[i]);
      if path.Some? {
        var file := FindNote(notes, path.value);
        if file.Some? {
          files := files + [file.value];
        }
      }
      i := i + 1;
    }
    assert rows[..i] == rows;
  }

  /**
   * Extraction keeps exactly the resolving rows, in their order: the result is
   * the resolved notes of a strictly increasing selection of rows, and every
   * row left out does not resolve.
   */
  lemma {:induction false} ExtractedRows(notes: seq<Note>, rows: seq<Row>) returns (idx: seq<nat>)
    ensures |idx| == |Extracted(notes, rows)|
    ensures forall k :: 0 <= k < |idx| ==> idx[k] < |rows| && Resolve(notes, rows[idx[k]]) == Some(Extracted(notes, rows)[k])
    ensures forall k, l :: 0 <= k < l < |idx| ==> idx[k] < idx[l]
    ensures forall i :: 0 <= i < |rows| && Resolve(notes, rows[i]).Some? ==> i in idx
  {
    if rows == [] {
      idx := [];
    } else {
      var n := |rows| - 1;
      var front := rows[..n];
      var prev := ExtractedRows(notes, front);
      assert forall k :: 0 <= k < n ==> front[k] == rows[k];
      match Resolve(notes, rows[n])
      case None =>
        assert Extracted(notes, rows) == Extracted(notes, front);
        idx := prev;
      case Some(h) =>
        assert Extracted(notes, rows) == Extracted(notes, front) + [h];
        idx := prev + [n];
    }
  }

  /** `query(source)`: the notes Dataview lists for the normalised query; `[]` on any failure. */
  function QueryResult(api: Api, notes: seq<Note>, source: string): (r: seq<Handle>)
    ensures forall k :: 0 <= k < |r| ==> r[k] < |notes|
  {
    match api
    case Unavailable => []
    case Available(run) =>
      match run(FinalQuery(source))
      case Successful(rows) => Extracted(notes, rows)
      case _ => []
  }

  /** `DataviewService.query`. */
  method Query(api: Api, notes: seq<Note>, source: string) returns (files: seq<Handle>)
    ensures files == QueryResult(api, notes, source)
    ensures api.Unavailable? ==> files == []
    ensures api.Available? && !api.run(FinalQuery(source)).Successful? ==> files == []
  {
    if api.Unavailable? {
      return [];
    }
    var result := api.run(FinalQuery(source));
    if !result.Successful? {
      return [];
    }
    files := ExtractFiles(notes, result.rows);
  }

  // ---------------------------------------------------------------------------
  // Membership
  // ---------------------------------------------------------------------------

  /** `row[1] === path || (row[0] && row[0].path === path)`. */
  predicate RowMatches(row: Row, path: string) {
    CellAt(row, 1) == Text(path) || (CellAt(row, 0).Link? && CellAt(row, 0).path == path)
  }

  /** Some row names `path`. */
  predicate AnyRowMatches(rows: seq<Row>, path: string) {
    exists i :: 0 <= i < |rows| && RowMatches(rows[i], path)
  }

  /** Some row of the successful result of the normalised query names `path`. */
  predicate Matches(api: Api, path: string, query: string) {
    && api.Available?
    && var outcome := api.run(FinalQuery(query));
    && outcome.Successful?
    && AnyRowMatches(outcome.rows, path)
  }

  /** The row loop of `matchesQuery`: the first row that names `path` ends it. */
  method FindMatchingRow(rows: seq<Row>, path: string) returns (b: bool)
    ensures b == AnyRowMatches(rows, path)
  {
    var i := 0;
    while i < |rows|
      invariant 0 <= i <= |rows|
      invariant forall k :: 0 <= k < i ==> !RowMatches(rows[k], path)
    {
      if CellAt(rows[i], 1) == Text(path) {
        assert RowMatches(rows[i], path);
        return true;
      }
      var link := CellAt(rows[i], 0);
      if link.Link? && link.path == path {
        assert RowMatches(rows[i], path);
        return true;
      }
      i := i + 1;
    }
    return false;
  }

  /** `DataviewService.matchesQuery(file, query)`; `path` is `file.path`. */
  method MatchesQuery(api: Api, path: string, query: string) returns (b: bool)
    ensures b == Matches(api, path, query)
  {
    if api.Unavailable? {
      return false;
    }
    var safePath := EscapeQuotes(path);
    var result := api.run(FinalQuery(query));
    if !result.Successful? {
      return false;
    }
    b := FindMatchingRow(result.rows, path);
  }

  /** Every note `query` returns passes `matchesQuery` for the same query and Dataview answer. */
  lemma QueryResultsMatch(api: Api, notes: seq<Note>, source: string, k: nat)
    requires k < |QueryResult(api, notes, source)|
    ensures Matches(api, notes[QueryResult(api, notes, source)[k]].path, source)
  {
    var outcome := api.run(FinalQuery(source));
    var rows := outcome.rows;
    var files := Extracted(notes, rows);
    assert QueryResult(api, notes, source) == files;
    var idx := ExtractedRows(notes, rows);
    var row := rows[idx[k]];
    var h := files[k];
    assert Resolve(notes, row) == Some(h);
    assert RowPath(row) == Some(notes[h].path);
    assert RowMatches(row, notes[h].path);
  }

  // ---------------------------------------------------------------------------
  // Escaping
  // ---------------------------------------------------------------------------

  /** `path.replace(/"/g, '\\"')`: a backslash before every double quote. */
  function EscapeQuotes(s: string): (r: string)
    ensures r == [] || r[0] != '"'
    ensures forall k :: 0 <= k < |r| && r[k] == '"' ==> k > 0 && r[k - 1] == '\\'
  {
    if s == [] then []
    else if s[0] == '"' then "\\\"" + EscapeQuotes(s[1..])
    else [s[0]] + EscapeQuotes(s[1..])
  }

  /** The inverse reading: `\"` stands for `"`, every other character for itself. */
  function UnescapeQuotes(s: string): string {
    if s == [] then []
    else if |s| >= 2 && s[0] == '\\' && s[1] == '"' then "\"" + UnescapeQuotes(s[2..])
    else [s[0]] + UnescapeQuotes(s[1..])
  }

  /** Escaping changes nothing but the quotes: reading the escapes back gives the original path. */
  lemma {:induction false} EscapeRoundTrip(s: string)
    ensures UnescapeQuotes(EscapeQuotes(s)) == s
  {
    if s != [] {
      var tail := EscapeQuotes(s[1..]);
      EscapeRoundTrip(s[1..]);
      if s[0] == '"' {
        assert EscapeQuotes(s) == "\\\"" + tail;
        assert ("\\\"" + tail)[2..] == tail;
      } else {
        assert EscapeQuotes(s) == [s[0]] + tail;
        assert ([s[0]] + tail)[1..] == tail;
      }
    }
  }
}
