/**
 * `TidyNotesCore`: runs a ruleset. Every rule, whatever its role, is applied
 * in list order: its scope is queried, and each of the rule's actions is
 * executed, in order, on each note the query returns. A dry run executes
 * nothing; an unknown action type is skipped; a failing action is caught.
 *
 * The vault is a value threaded through the run. The result also carries a
 * trace of what happened: one `Evaluated` event per rule (with the notes its
 * query returned) followed by one `Executed` event per note and action.
 */
module Core {
  import opened Wrappers
  import opened Types
  import opened Vault
  import opened Dataview

  /** What became of one action on one note. */
  datatype Outcome =
    | Previewed     // dry run: logged, not executed
    | Performed     // executed without error (possibly changing nothing)
    | UnknownType   // not a known action type: warned and skipped
    | Failed        // an exception was caught

  datatype Event =
    | Evaluated(rule: Rule, files: seq<Handle>)
    | Executed(file: Handle, action: Action, outcome: Outcome)

  /** The vault after an action, and whether it finished without an exception. */
  datatype Step = Step(vault: VaultState, ok: bool)

  /** The vault after a run, and the run's trace. */
  datatype Run = Run(vault: VaultState, events: seq<Event>)

  // ---------------------------------------------------------------------------
  // The two actions
  // ---------------------------------------------------------------------------

  /** Where `actionMoveNote` puts note `f` for a target folder. */
  function MoveTarget(v: VaultState, f: Handle, folder: string): string
    requires f < |v.notes|
  {
    folder + "/" + v.notes[f].name
  }

  /**
   * `actionMoveNote`: with a non-empty `folder` option, create the folder if
   * nothing is at its path and rename the note into it unless it is already
   * there. Reading an option of absent options throws. Nothing is rolled back
   * when the rename fails.
   */
  function ActionMoveNote(v: VaultState, f: Handle, options: Option<ActionOptions>): (s: Step)
    requires f < |v.notes|
    ensures |s.vault.notes| == |v.notes|
  {
    match options
    case None => Step(v, false)
    case Some(o) =>
      if "folder" !in o || o["folder"] == "" then Step(v, true)
      else
        var folder := o["folder"];
        var v1 := if Exists(v, folder) then v else CreateFolder(v, folder);
        var newPath := MoveTarget(v1, f, folder);
        if v1.notes[f].path == newPath then Step(v1, true)
        else match RenameFile(v1, f, newPath)
          case None => Step(v1, false)
          case Some(v2) => Step(v2, true)
  }

  /** `actionUpdateProperty`: with a non-empty `key` option, set that frontmatter key to the `value` option. */
  function ActionUpdateProperty(v: VaultState, f: Handle, options: Option<ActionOptions>): (s: Step)
    requires f < |v.notes|
    ensures |s.vault.notes| == |v.notes|
  {
    match options
    case None => Step(v, false)
    case Some(o) =>
      if "key" !in o || o["key"] == "" then Step(v, true)
      else
        var value := if "value" in o then Some(o["value"]) else None;
        match SetFrontmatter(v, f, o["key"], value)
        case None => Step(v, false)
        case Some(v1) => Step(v1, true)
  }

  /** `executeAction`. */
  function ExecuteAction(v: VaultState, f: Handle, a: Action, dryRun: bool): (r: (VaultState, Outcome))
    requires f < |v.notes|
    ensures |r.0.notes| == |v.notes|
  {
    if dryRun then (v, Previewed)
    else
      var s :=
        if a.kind == MoveNote then ActionMoveNote(v, f, a.options)
        else if a.kind == UpdateProperty then ActionUpdateProperty(v, f, a.options)
        else Step(v, true);
      var outcome :=
        if a.kind != MoveNote && a.kind != UpdateProperty then UnknownType
        else if s.ok then Performed else Failed;
      (s.vault, outcome)
  }

  // ---------------------------------------------------------------------------
  // The run, as functions
  // ---------------------------------------------------------------------------

  predicate ValidHandles(v: VaultState, files: seq<Handle>) {
    forall k :: 0 <= k < |files| ==> files[k] < |v.notes|
  }

  /** The inner loop of `evaluateRule`: every action, in order, on note `f`. */
  function RunActions(v: VaultState, f: Handle, actions: seq<Action>, dryRun: bool): (r: Run)
    requires f < |v.notes|
    ensures |r.vault.notes| == |v.notes|
  {
    if actions == [] then Run(v, [])
    else
      var p := RunActions(v, f, actions[..|actions| - 1], dryRun);
      var a := actions[|actions| - 1];
      var (v1, outcome) := ExecuteAction(p.vault, f, a, dryRun);
      Run(v1, p.events + [Executed(f, a, outcome)])
  }

  /** The outer loop of `evaluateRule`: the actions on every note, in order. */
  function RunFiles(v: VaultState, files: seq<Handle>, actions: seq<Action>, dryRun: bool): (r: Run)
    requires ValidHandles(v, files)
    ensures |r.vault.notes| == |v.notes|
  {
    if files == [] then Run(v, [])
    else
      var p := RunFiles(v, files[..|files| - 1], actions, dryRun);
      var q := RunActions(p.vault, files[|files| - 1], actions, dryRun);
      Run(q.vault, p.events + q.events)
  }

  /** `evaluateRule`: query the rule's scope, then run its actions on what it returns. */
  function RuleRun(v: VaultState, api: Api, rule: Rule, dryRun: bool): (r: Run)
    ensures |r.vault.notes| == |v.notes|
  {
    var files := QueryResult(api, v.notes, rule.scope);
    var p := RunFiles(v, files, rule.actions, dryRun);
    Run(p.vault, [Evaluated(rule, files)] + p.events)
  }

  /** The loop of `runRuleset`: every rule, in order. */
  function RunRules(v: VaultState, api: Api, rules: seq<Rule>, dryRun: bool): (r: Run)
    ensures |r.vault.notes| == |v.notes|
  {
    if rules == [] then Run(v, [])
    else
      var p := RunRules(v, api, rules[..|rules| - 1], dryRun);
      var q := RuleRun(p.vault, api, rules[|rules| - 1], dryRun);
      Run(q.vault, p.events + q.events)
  }

  /** `runRuleset`: nothing at all for a disabled ruleset. */
  function RulesetRun(v: VaultState, api: Api, ruleset: Ruleset, dryRun: bool): (r: Run)
    ensures |r.vault.notes| == |v.notes|
    ensures !ruleset.enabled ==> r.vault == v && r.events == []
  {
    if !ruleset.enabled then Run(v, []) else RunRules(v, api, ruleset.rules, dryRun)
  }

  // ---------------------------------------------------------------------------
  // The run, as the loops of the source
  // ---------------------------------------------------------------------------

  lemma RunActionsStep(v: VaultState, f: Handle, actions: seq<Action>, j: nat, dryRun: bool)
    requires f < |v.notes| && j < |actions|
    ensures var p := RunActions(v, f, actions[..j], dryRun);
      var (v1, outcome) := ExecuteAction(p.vault, f, actions[j], dryRun);
      RunActions(v, f, actions[..j + 1], dryRun) == Run(v1, p.events + [Executed(f, actions[j], outcome)])
  {
    assert actions[..j + 1][..j] == actions[..j];
  }

  lemma RunFilesStep(v: VaultState, files: seq<Handle>, actions: seq<Action>, i: nat, dryRun: bool)
    requires ValidHandles(v, files) && i < |files|
    ensures ValidHandles(v, files[..i]) && ValidHandles(v, files[..i + 1])
    ensures var p := RunFiles(v, files[..i], actions, dryRun);
      var q := RunActions(p.vault, files[i], actions, dryRun);
      RunFiles(v, files[..i + 1], actions, dryRun) == Run(q.vault, p.events + q.events)
  {
    assert files[..i + 1][..i] == files[..i];
  }

  /** The inner loop of `evaluateRule`: each action of the rule, in order, on one note. */
  method ApplyActions(vault: VaultState, file: Handle, actions: seq<Action>, dryRun: bool) returns (vault': VaultState, events: seq<Event>)
    requires file < |vault.notes|
    ensures Run(vault', events) == RunActions(vault, file, actions, dryRun)
  {
    vault' := vault;
    events := [];
    var j := 0;
    while j < |actions|
      invariant 0 <= j <= |actions|
      invariant Run(vault', events) == RunActions(vault, file, actions[..j], dryRun)
    {
      RunActionsStep(vault, file, actions, j, dryRun);
      var step := ExecuteAction(vault', file, actions[j], dryRun);
      vault' := step.0;
      events := events + [Executed(file, actions[j], step.1)];
      j := j + 1;
    }
    assert actions[..j] == actions;
  }

  /** `TidyNotesCore.evaluateRule`. */
  method EvaluateRule(vault: VaultState, api: Api, rule: Rule, dryRun: bool) returns (vault': VaultState, events: seq<Event>)
    ensures Run(vault', events) == RuleRun(vault, api, rule, dryRun)
  {
    var files := Query(api, vault.notes, rule.scope);
    vault' := vault;
    events := [];
    var i := 0;
    while i < |files|
      invariant 0 <= i <= |files|
      invariant Run(vault', events) == RunFiles(vault, files[..i], rule.actions, dryRun)
    {
      RunFilesStep(vault, files, rule.actions, i, dryRun);
      var more;
      vault', more := ApplyActions(vault', files[i], rule.actions, dryRun);
      events := events + more;
      i := i + 1;
    }
    assert files[..i] == files;
    events := [Evaluated(rule, files)] + events;
  }

  lemma RunRulesStep(v: VaultState, api: Api, rules: seq<Rule>, i: nat, dryRun: bool)
    requires i < |rules|
    ensures var p := RunRules(v, api, rules[..i], dryRun);
      var q := RuleRun(p.vault, api, rules[i], dryRun);
      RunRules(v, api, rules[..i + 1], dryRun) == Run(q.vault, p.events + q.events)
  {
    assert rules[..i + 1][..i] == rules[..i];
  }

  /** `TidyNotesCore.runRuleset`. */
  method RunRuleset(vault: VaultState, api: Api, ruleset: Ruleset, dryRun: bool) returns (vault': VaultState, events: seq<Event>)
    ensures Run(vault', events) == RulesetRun(vault, api, ruleset, dryRun)
    ensures !ruleset.enabled ==> vault' == vault && events == []
  {
    vault', events := vault, [];
    if !ruleset.enabled {
      return;
    }
    var rules := ruleset.rules;
    var i := 0;
    while i < |rules|
      invariant 0 <= i <= |rules|
      invariant Run(vault', events) == RunRules(vault, api, rules[..i], dryRun)
    {
      RunRulesStep(vault, api, rules, i, dryRun);
      var more;
      vault', more := EvaluateRule(vault', api, rules[i], dryRun);
      events := events + more;
      i := i + 1;
    }
    assert rules[..i] == rules;
  }

  // ---------------------------------------------------------------------------
  // Properties of a run
  // ---------------------------------------------------------------------------

  /** No event of the trace executed anything. */
  predicate AllPreviewed(events: seq<Event>) {
    forall k :: 0 <= k < |events| && events[k].Executed? ==> events[k].outcome == Previewed
  }

  lemma {:induction false} DryRunActions(v: VaultState, f: Handle, actions: seq<Action>)
    requires f < |v.notes|
    ensures RunActions(v, f, actions, true).vault == v
    ensures AllPreviewed(RunActions(v, f, actions, true).events)
  {
    if actions != [] {
      DryRunActions(v, f, actions[..|actions| - 1]);
    }
  }

  lemma {:induction false} DryRunFiles(v: VaultState, files: seq<Handle>, actions: seq<Action>)
    requires ValidHandles(v, files)
    ensures RunFiles(v, files, actions, true).vault == v
    ensures AllPreviewed(RunFiles(v, files, actions, true).events)
  {
    if files != [] {
      DryRunFiles(v, files[..|files| - 1], actions);
      DryRunActions(v, files[|files| - 1], actions);
    }
  }

  lemma AllPreviewedConcat(a: seq<Event>, b: seq<Event>)
    requires AllPreviewed(a) && AllPreviewed(b)
    ensures AllPreviewed(a + b)
  {
    forall k | 0 <= k < |a + b| && (a + b)[k].Executed? ensures (a + b)[k].outcome == Previewed {
      if k >= |a| {
        assert (a + b)[k] == b[k - |a|];
      }
    }
  }

  lemma DryRuleRun(v: VaultState, api: Api, rule: Rule)
    ensures RuleRun(v, api, rule, true).vault == v
    ensures AllPreviewed(RuleRun(v, api, rule, true).events)
  {
    var files := QueryResult(api, v.notes, rule.scope);
    DryRunFiles(v, files, rule.actions);
    AllPreviewedConcat([Evaluated(rule, files)], RunFiles(v, files, rule.actions, true).events);
  }

  lemma {:induction false} DryRunRules(v: VaultState, api: Api, rules: seq<Rule>)
    ensures RunRules(v, api, rules, true).vault == v
    ensures AllPreviewed(RunRules(v, api, rules, true).events)
  {
    if rules != [] {
      var front := rules[..|rules| - 1];
      var rule := rules[|rules| - 1];
      var p := RunRules(v, api, front, true);
      var q := RuleRun(p.vault, api, rule, true);
      assert RunRules(v, api, rules, true) == Run(q.vault, p.events + q.events);
      DryRunRules(v, api, front);
      DryRuleRun(v, api, rule);
      AllPreviewedConcat(p.events, q.events);
    }
  }

  /** A dry run leaves the vault as it was, and every action it reaches is only previewed. */
  lemma DryRunKeepsVault(v: VaultState, api: Api, ruleset: Ruleset)
    ensures RulesetRun(v, api, ruleset, true).vault == v
    ensures AllPreviewed(RulesetRun(v, api, ruleset, true).events)
  {
    DryRunRules(v, api, ruleset.rules);
  }

  /** The actions on one note leave one `Executed` event per action, in action order. */
  lemma {:induction false} ActionEvents(v: VaultState, f: Handle, actions: seq<Action>, dryRun: bool)
    requires f < |v.notes|
    ensures var e := RunActions(v, f, actions, dryRun).events;
      && |e| == |actions|
      && forall j :: 0 <= j < |actions| ==> e[j].Executed? && e[j].file == f && e[j].action == actions[j]
  {
    if actions != [] {
      ActionEvents(v, f, actions[..|actions| - 1], dryRun);
    }
  }

  predicate OnlyExecutions(events: seq<Event>) {
    forall k :: 0 <= k < |events| ==> events[k].Executed?
  }

  /** The notes loop of a rule leaves only `Executed` events. */
  lemma {:induction false} FileEvents(v: VaultState, files: seq<Handle>, actions: seq<Action>, dryRun: bool)
    requires ValidHandles(v, files)
    ensures OnlyExecutions(RunFiles(v, files, actions, dryRun).events)
  {
    if files != [] {
      var p := RunFiles(v, files[..|files| - 1], actions, dryRun);
      var q := RunActions(p.vault, files[|files| - 1], actions, dryRun);
      assert RunFiles(v, files, actions, dryRun).events == p.events + q.events;
      FileEvents(v, files[..|files| - 1], actions, dryRun);
      ActionEvents(p.vault, files[|files| - 1], actions, dryRun);
      assert OnlyExecutions(q.events);
    }
  }

  /** The rules a trace evaluated, in trace order. */
  function Evaluations(events: seq<Event>): seq<Rule> {
    if events == [] then []
    else
      var last := events[|events| - 1];
      Evaluations(events[..|events| - 1]) + (if last.Evaluated? then [last.rule] else [])
  }

  lemma {:induction false} EvaluationsAppend(a: seq<Event>, b: seq<Event>)
    ensures Evaluations(a + b) == Evaluations(a) + Evaluations(b)
  {
    if b != [] {
      var front := b[..|b| - 1];
      var last := b[|b| - 1];
      var tail := if last.Evaluated? then [last.rule] else [];
      assert (a + b)[..|a + b| - 1] == a + front;
      assert (a + b)[|a + b| - 1] == last;
      assert Evaluations(a + b) == Evaluations(a + front) + tail;
      assert Evaluations(b) == Evaluations(front) + tail;
      EvaluationsAppend(a, front);
      assert Evaluations(a) + (Evaluations(front) + tail) == (Evaluations(a) + Evaluations(front)) + tail;
    } else {
      assert a + b == a;
    }
  }

  lemma {:induction false} NoEvaluations(events: seq<Event>)
    requires OnlyExecutions(events)
    ensures Evaluations(events) == []
  {
    if events != [] {
      NoEvaluations(events[..|events| - 1]);
    }
  }

  /** One rule's run evaluates that rule and nothing else. */
  lemma RuleRunEvaluations(v: VaultState, api: Api, rule: Rule, dryRun: bool)
    ensures Evaluations(RuleRun(v, api, rule, dryRun).events) == [rule]
  {
    var files := QueryResult(api, v.notes, rule.scope);
    var inner := RunFiles(v, files, rule.actions, dryRun).events;
    var head := [Evaluated(rule, files)];
    FileEvents(v, files, rule.actions, dryRun);
    NoEvaluations(inner);
    assert Evaluations(head) == [rule] by {
      assert head[..0] == [];
    }
    EvaluationsAppend(head, inner);
  }

  lemma EvaluationsStep(pe: seq<Event>, qe: seq<Event>, rules: seq<Rule>)
    requires rules != []
    requires Evaluations(pe) == rules[..|rules| - 1] && Evaluations(qe) == [rules[|rules| - 1]]
    ensures Evaluations(pe + qe) == rules
  {
    EvaluationsAppend(pe, qe);
    SplitLast(rules);
  }

  lemma SplitLast<T>(s: seq<T>)
    requires s != []
    ensures s[..|s| - 1] + [s[|s| - 1]] == s
  {
  }

  lemma {:induction false} RunRulesEvaluations(v: VaultState, api: Api, rules: seq<Rule>, dryRun: bool)
    ensures Evaluations(RunRules(v, api, rules, dryRun).events) == rules
  {
    if rules != [] {
      var front := rules[..|rules| - 1];
      var rule := rules[|rules| - 1];
      var p := RunRules(v, api, front, dryRun);
      var q := RuleRun(p.vault, api, rule, dryRun);
      assert RunRules(v, api, rules, dryRun).events == p.events + q.events;
      RunRulesEvaluations(v, api, front, dryRun);
      RuleRunEvaluations(p.vault, api, rule, dryRun);
      EvaluationsStep(p.events, q.events, rules);
    }
  }

  /**
   * Every rule of an enabled ruleset is evaluated, once and in list order,
   * whatever its role; a disabled ruleset evaluates none and queries nothing.
   */
  lemma RulesEvaluatedInOrder(v: VaultState, api: Api, ruleset: Ruleset, dryRun: bool)
    ensures Evaluations(RulesetRun(v, api, ruleset, dryRun).events) == if ruleset.enabled then ruleset.rules else []
  {
    if ruleset.enabled {
      RunRulesEvaluations(v, api, ruleset.rules, dryRun);
    }
  }

  /** A rule's role plays no part in what it does to the vault. */
  lemma RoleIgnored(v: VaultState, api: Api, rule: Rule, role: RuleRole, dryRun: bool)
    ensures RuleRun(v, api, rule.(role := role), dryRun).vault == RuleRun(v, api, rule, dryRun).vault
  {
  }

  /** `i * m`, by repeated addition, so that the proofs below stay linear. */
  function Offset(i: nat, m: nat): nat {
    if i == 0 then 0 else Offset(i - 1, m) + m
  }

  lemma {:induction false} OffsetIsProduct(i: nat, m: nat)
    ensures Offset(i, m) == i * m
  {
    if i > 0 {
      OffsetIsProduct(i - 1, m);
      assert i * m == (i - 1) * m + m;
    }
  }

  lemma {:induction false} IndexBelow(i: nat, j: nat, n: nat, m: nat)
    requires i < n && j < m
    ensures Offset(i, m) + j < Offset(n, m)
    decreases n
  {
    if i < n - 1 {
      IndexBelow(i, j, n - 1, m);
    }
  }

  /** Event `e` executed action `a` on note `f`. */
  predicate IsExecution(e: Event, f: Handle, a: Action) {
    e.Executed? && e.file == f && e.action == a
  }

  /** Entry `i * |actions| + j` of `e` executed action `j` on note `i`. */
  predicate GridAt(e: seq<Event>, files: seq<Handle>, actions: seq<Action>, i: nat, j: nat)
    requires i < |files| && j < |actions|
  {
    Offset(i, |actions|) + j < |e| && IsExecution(e[Offset(i, |actions|) + j], files[i], actions[j])
  }

  /** `e` holds exactly one execution per (note, action) pair, note by note. */
  predicate Grid(e: seq<Event>, files: seq<Handle>, actions: seq<Action>) {
    && |e| == Offset(|files|, |actions|)
    && forall i: nat, j: nat :: i < |files| && j < |actions| ==> GridAt(e, files, actions, i, j)
  }

  lemma GridFront(p: seq<Event>, q: seq<Event>, front: seq<Handle>, f: Handle, actions: seq<Action>, i: nat, j: nat)
    requires Grid(p, front, actions)
    requires i < |front| && j < |actions|
    ensures GridAt(p + q, front + [f], actions, i, j)
  {
    IndexBelow(i, j, |front|, |actions|);
    assert GridAt(p, front, actions, i, j);
    assert (front + [f])[i] == front[i];
    assert (p + q)[Offset(i, |actions|) + j] == p[Offset(i, |actions|) + j];
  }

  lemma GridLast(p: seq<Event>, q: seq<Event>, front: seq<Handle>, f: Handle, actions: seq<Action>, j: nat)
    requires |p| == Offset(|front|, |actions|)
    requires j < |q| == |actions|
    requires IsExecution(q[j], f, actions[j])
    ensures GridAt(p + q, front + [f], actions, |front|, j)
  {
    assert (p + q)[|p| + j] == q[j];
  }

  lemma GridExtend(p: seq<Event>, q: seq<Event>, front: seq<Handle>, f: Handle, actions: seq<Action>)
    requires Grid(p, front, actions)
    requires |q| == |actions|
    requires forall j :: 0 <= j < |actions| ==> IsExecution(q[j], f, actions[j])
    ensures Grid(p + q, front + [f], actions)
  {
    assert Offset(|front| + 1, |actions|) == Offset(|front|, |actions|) + |actions|;
    forall i: nat, j: nat | i < |front + [f]| && j < |actions|
      ensures GridAt(p + q, front + [f], actions, i, j)
    {
      if i < |front| {
        GridFront(p, q, front, f, actions, i, j);
      } else {
        GridLast(p, q, front, f, actions, j);
      }
    }
  }

  /**
   * For one rule, the trace executes every (note, action) pair, note by
   * note and action by action within a note, whatever the outcomes: entry
   * `i * |actions| + j` is action `j` on note `i`, and there are
   * `|files| * |actions|` entries.
   */
  lemma {:induction false} ExecutionsInOrder(v: VaultState, files: seq<Handle>, actions: seq<Action>, dryRun: bool)
    requires ValidHandles(v, files)
    ensures Grid(RunFiles(v, files, actions, dryRun).events, files, actions)
  {
    if files != [] {
      var n := |files| - 1;
      var front := files[..n];
      var p := RunFiles(v, front, actions, dryRun);
      var q := RunActions(p.vault, files[n], actions, dryRun);
      assert RunFiles(v, files, actions, dryRun).events == p.events + q.events;
      ExecutionsInOrder(v, front, actions, dryRun);
      ActionEvents(p.vault, files[n], actions, dryRun);
      assert forall j :: 0 <= j < |actions| ==> IsExecution(q.events[j], files[n], actions[j]);
      GridExtend(p.events, q.events, front, files[n], actions);
      assert front + [files[n]] == files;
    }
  }

  /** The same, with the positions written as products. */
  lemma ExecutionAt(v: VaultState, files: seq<Handle>, actions: seq<Action>, dryRun: bool, i: nat, j: nat)
    requires ValidHandles(v, files)
    requires i < |files| && j < |actions|
    ensures var e := RunFiles(v, files, actions, dryRun).events;
      && |e| == |files| * |actions|
      && i * |actions| + j < |e|
      && IsExecution(e[i * |actions| + j], files[i], actions[j])
  {
    ExecutionsInOrder(v, files, actions, dryRun);
    OffsetIsProduct(|files|, |actions|);
    OffsetIsProduct(i, |actions|);
    assert GridAt(RunFiles(v, files, actions, dryRun).events, files, actions, i, j);
  }

  /** Action types other than the two known ones leave the vault unchanged. */
  lemma UnknownActionSkipped(v: VaultState, f: Handle, a: Action, dryRun: bool)
    requires f < |v.notes|
    requires a.kind != MoveNote && a.kind != UpdateProperty
    ensures ExecuteAction(v, f, a, dryRun) == (v, if dryRun then Previewed else UnknownType)
  {
  }

  /** A move without a folder option does nothing, and succeeds. */
  lemma MoveWithoutFolder(v: VaultState, f: Handle, o: ActionOptions)
    requires f < |v.notes|
    requires "folder" !in o || o["folder"] == ""
    ensures ActionMoveNote(v, f, Some(o)) == Step(v, true)
  {
  }

  /**
   * A move into a folder path where no note lives: afterwards the folder
   * exists; the note is at `folder/name` unless the host refused the
   * rename because that path was taken; no other note changes.
   */
  lemma MoveIntoFolder(v: VaultState, f: Handle, o: ActionOptions)
    requires f < |v.notes|
    requires "folder" in o && o["folder"] != ""
    requires FindNote(v.notes, o["folder"]).None?
    ensures var folder := o["folder"];
      var newPath := folder + "/" + v.notes[f].name;
      var s := ActionMoveNote(v, f, Some(o));
      && s.vault.folders == v.folders + {folder}
      && (s.ok <==> v.notes[f].path == newPath || !Exists(v, newPath))
      && (s.ok ==> s.vault.notes == v.notes[f := v.notes[f].(path := newPath)])
      && (!s.ok ==> s.vault.notes == v.notes)
  {
    var folder := o["folder"];
    var newPath := folder + "/" + v.notes[f].name;
    var v1 := if Exists(v, folder) then v else CreateFolder(v, folder);
    assert v1.folders == v.folders + {folder};
    assert |newPath| > |folder|;
    assert Exists(v1, newPath) == Exists(v, newPath);
    if v.notes[f].path == newPath {
      assert v.notes[f := v.notes[f].(path := newPath)] == v.notes;
    }
  }

  /** Repeating a move that succeeded changes nothing: the note is already in place. */
  lemma MoveTwice(v: VaultState, f: Handle, options: Option<ActionOptions>)
    requires f < |v.notes|
    requires options.Some? && "folder" in options.value ==> v.notes[f].path != options.value["folder"]
    requires ActionMoveNote(v, f, options).ok
    ensures var v1 := ActionMoveNote(v, f, options).vault; ActionMoveNote(v1, f, options) == Step(v1, true)
  {
    var o := options.value;
    if "folder" in o && o["folder"] != "" {
      var folder := o["folder"];
      var v1 := ActionMoveNote(v, f, options).vault;
      var v0 := if Exists(v, folder) then v else CreateFolder(v, folder);
      assert v1.notes[f].name == v.notes[f].name;
      assert forall g :: 0 <= g < |v.notes| && g != f ==> v1.notes[g] == v.notes[g];
      assert v1.folders == v0.folders;
      assert Exists(v1, folder) by {
        if folder !in v.folders {
          var g := FindNote(v.notes, folder);
          if g.Some? {
            assert g.value != f;
            assert v1.notes[g.value].path == folder;
          }
        }
      }
    }
  }

  /**
   * An update with a key, on a note whose frontmatter parses, sets that key
   * to the `value` option (`undefined` when absent) and changes nothing else;
   * on malformed frontmatter it fails and changes nothing.
   */
  lemma UpdateSetsKey(v: VaultState, f: Handle, o: ActionOptions)
    requires f < |v.notes|
    requires "key" in o && o["key"] != ""
    ensures var s := ActionUpdateProperty(v, f, Some(o));
      var value := if "value" in o then Some(o["value"]) else None;
      && s.vault.folders == v.folders
      && (s.ok <==> v.notes[f].frontmatter.Fields?)
      && (s.ok ==> s.vault.notes[f] == v.notes[f].(frontmatter := Fields(v.notes[f].frontmatter.fields[o["key"] := value])))
      && (forall g :: 0 <= g < |v.notes| && g != f ==> s.vault.notes[g] == v.notes[g])
      && (!s.ok ==> s.vault == v)
  {
  }

  /** An update without a key does nothing, and succeeds. */
  lemma UpdateWithoutKey(v: VaultState, f: Handle, o: ActionOptions)
    requires f < |v.notes|
    requires "key" !in o || o["key"] == ""
    ensures ActionUpdateProperty(v, f, Some(o)) == Step(v, true)
  {
  }

  /** Either action throws on absent options; the exception is caught and reported. */
  lemma AbsentOptionsFail(v: VaultState, f: Handle, a: Action)
    requires f < |v.notes|
    requires a.options.None? && (a.kind == MoveNote || a.kind == UpdateProperty)
    ensures ExecuteAction(v, f, a, false) == (v, Failed)
  {
  }
}
