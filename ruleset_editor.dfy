/**
 * `RulesetEditor`: the editing handlers of the ruleset editor. Each handler
 * changes the ruleset, saves the settings and, for most handlers, redraws
 * the editor; redrawing forces the first rule's role to `if`.
 *
 * The `saved` field is the ruleset as the last `saveSettings` persisted it.
 * Drawing is reduced to that one normalisation. A `confirm()` answer and a
 * `Date.now()` id are parameters.
 */
module RulesetEditor {
  import opened Wrappers
  import opened JsString
  import opened Types
  import Vault
  import Dataview
  import Core

  // ---------------------------------------------------------------------------
  // List edits
  // ---------------------------------------------------------------------------

  /** The up button of entry `i`: swap it with the one before, if there is one. */
  function MovedUp<T>(s: seq<T>, i: nat): (r: seq<T>)
    requires i < |s|
    ensures |r| == |s| && multiset(r) == multiset(s)
    ensures i == 0 ==> r == s
    ensures i > 0 ==> r[i - 1] == s[i] && r[i] == s[i - 1]
    ensures forall k :: 0 <= k < |s| && k != i && k + 1 != i ==> r[k] == s[k]
  {
    if i > 0 then s[i := s[i - 1]][i - 1 := s[i]] else s
  }

  /** The down button of entry `i`: swap it with the one after, if there is one. */
  function MovedDown<T>(s: seq<T>, i: nat): (r: seq<T>)
    requires i < |s|
    ensures |r| == |s| && multiset(r) == multiset(s)
    ensures i == |s| - 1 ==> r == s
    ensures i < |s| - 1 ==> r[i] == s[i + 1] && r[i + 1] == s[i]
    ensures forall k :: 0 <= k < |s| && k != i && k != i + 1 ==> r[k] == s[k]
  {
    if i < |s| - 1 then s[i := s[i + 1]][i + 1 := s[i]] else s
  }

  /** Moving entry `i` up and then moving it back down restores the list. */
  lemma MoveDownUndoesUp<T>(s: seq<T>, i: nat)
    requires 0 < i < |s|
    ensures MovedDown(MovedUp(s, i), i - 1) == s
  {
    var r := MovedDown(MovedUp(s, i), i - 1);
    assert forall k :: 0 <= k < |s| ==> r[k] == s[k];
  }

  /** `splice(i, 1)`. */
  function Removed<T>(s: seq<T>, i: nat): (r: seq<T>)
    requires i < |s|
    ensures |r| == |s| - 1
    ensures forall k :: 0 <= k < i ==> r[k] == s[k]
    ensures forall k :: i <= k < |r| ==> r[k] == s[k + 1]
    ensures multiset(r) + multiset{s[i]} == multiset(s)
  {
    assert s == s[..i] + [s[i]] + s[i + 1..];
    s[..i] + s[i + 1..]
  }

  /** What a redraw does to the rules: the first rule's role becomes `if`. */
  function WithFirstAsIf(rules: seq<Rule>): (r: seq<Rule>)
    ensures |r| == |rules|
    ensures |r| > 0 ==> r[0] == rules[0].(role := If)
    ensures forall k :: 0 < k < |r| ==> r[k] == rules[k]
  {
    if rules == [] then [] else [rules[0].(role := If)] + rules[1..]
  }

  /** Redrawing twice is redrawing once. */
  lemma WithFirstAsIfIdempotent(rules: seq<Rule>)
    ensures WithFirstAsIf(WithFirstAsIf(rules)) == WithFirstAsIf(rules)
  {
    var r := WithFirstAsIf(rules);
    assert r != [] ==> r[0].(role := If) == r[0];
    assert forall k :: 0 <= k < |r| ==> WithFirstAsIf(r)[k] == r[k];
  }

  /** Two rule lists that differ at most in the rules' roles. */
  predicate SameButRoles(a: seq<Rule>, b: seq<Rule>) {
    |a| == |b| && forall k :: 0 <= k < |a| ==> b[k] == a[k].(role := b[k].role)
  }

  /** Roles play no part in a run, so rule lists that differ only in roles change the vault alike. */
  lemma {:induction false} RolesDoNotChangeRun(v: Vault.VaultState, api: Dataview.Api, a: seq<Rule>, b: seq<Rule>, dryRun: bool)
    requires SameButRoles(a, b)
    ensures Core.RunRules(v, api, b, dryRun).vault == Core.RunRules(v, api, a, dryRun).vault
  {
    if a != [] {
      var n := |a| - 1;
      RolesDoNotChangeRun(v, api, a[..n], b[..n], dryRun);
      var p := Core.RunRules(v, api, a[..n], dryRun);
      Core.RoleIgnored(p.vault, api, a[n], b[n].role, dryRun);
      assert b[n] == a[n].(role := b[n].role);
    }
  }

  /** The rule list a redraw leaves changes the vault exactly as the one it was given. */
  lemma RedrawKeepsRun(v: Vault.VaultState, api: Dataview.Api, rules: seq<Rule>, dryRun: bool)
    ensures Core.RunRules(v, api, WithFirstAsIf(rules), dryRun).vault == Core.RunRules(v, api, rules, dryRun).vault
  {
    RolesDoNotChangeRun(v, api, rules, WithFirstAsIf(rules), dryRun);
  }

  // ---------------------------------------------------------------------------
  // New entries and option edits
  // ---------------------------------------------------------------------------

  /** The rule Add Rule appends. */
  function NewRule(id: string): (r: Rule)
    ensures r.id == id && r.name == "New Rule" && r.role == If && r.scope == "" && r.actions == []
  {
    Rule(id, "New Rule", If, "", [])
  }

  /** The action Add Action appends: `{ type: 'Move Note', options: {} }`. */
  const NewAction := Action(MoveNote, Some(map[]))

  /** `{ ...options, [key]: value }`: absent options spread as `{}`. */
  function MergeOption(options: Option<ActionOptions>, key: string, value: string): (r: ActionOptions)
    ensures key in r && r[key] == value
    ensures r.Keys == (if options.Some? then options.value.Keys else {}) + {key}
    ensures options.Some? ==> forall k :: k in options.value && k != key ==> r[k] == options.value[k]
  {
    options.GetOr(map[])[key := value]
  }

  /** `{ ...trigger.options }`: absent options spread as `{}`. */
  function SpreadTriggerOptions(options: Option<TriggerOptions>): TriggerOptions {
    options.GetOr(NoTriggerOptions)
  }

  /** The four schedule text fields of an on-load trigger. */
  datatype ScheduleField = DaysOfWeek | HoursOfDay | WeeksOfMonth | MonthsOfYear

  /** The value of one schedule field. */
  function ScheduleValue(o: TriggerOptions, field: ScheduleField): Option<string> {
    match field
    case DaysOfWeek => o.daysOfWeek
    case HoursOfDay => o.hoursOfDay
    case WeeksOfMonth => o.weeksOfMonth
    case MonthsOfYear => o.monthsOfYear
  }

  /** Set one schedule field and keep the rest. */
  function WithSchedule(o: TriggerOptions, field: ScheduleField, value: string): (r: TriggerOptions)
    ensures ScheduleValue(r, field) == Some(value)
    ensures forall g :: g != field ==> ScheduleValue(r, g) == ScheduleValue(o, g)
    ensures && r.commandName == o.commandName && r.frequency == o.frequency && r.delay == o.delay
            && r.matchType == o.matchType && r.query == o.query
  {
    match field
    case DaysOfWeek => o.(daysOfWeek := Some(value))
    case HoursOfDay => o.(hoursOfDay := Some(value))
    case WeeksOfMonth => o.(weeksOfMonth := Some(value))
    case MonthsOfYear => o.(monthsOfYear := Some(value))
  }

  /** `parseInt(value) || 0`: a number, or 0 when the text is not one. */
  function ParseDelay(text: string): (d: int)
    ensures ParseInt(text).None? ==> d == 0
    ensures ParseInt(text).Some? ==> d == ParseInt(text).value
  {
    ParseInt(text).GetOr(0)
  }

  /** `(options?.delay || 0).toString()`: the text the delay field shows. */
  function DelayText(options: Option<TriggerOptions>): string {
    var delay := if options.Some? then options.value.delay else None;
    IntToString(delay.GetOr(0))
  }

  /** Storing the text the delay field shows gives back the delay (0 when it was unset). */
  lemma DelayRoundTrip(options: Option<TriggerOptions>)
    ensures var delay := if options.Some? then options.value.delay else None;
      ParseDelay(DelayText(options)) == delay.GetOr(0)
  {
    var delay := if options.Some? then options.value.delay else None;
    ParseIntOfToString(delay.GetOr(0));
  }

  // ---------------------------------------------------------------------------
  // Edits of one rule or action
  // ---------------------------------------------------------------------------

  function WithRule(rs: Ruleset, i: nat, rule: Rule): (r: Ruleset)
    requires i < |rs.rules|
    ensures r.rules == rs.rules[i := rule] && r.trigger == rs.trigger
  {
    rs.(rules := rs.rules[i := rule])
  }

  function WithAction(rule: Rule, j: nat, a: Action): (r: Rule)
    requires j < |rule.actions|
    ensures r.actions == rule.actions[j := a] && r.name == rule.name && r.scope == rule.scope
  {
    rule.(actions := rule.actions[j := a])
  }

  // ---------------------------------------------------------------------------
  // The editor, as the class of the source
  // ---------------------------------------------------------------------------

  class RulesetEditor {
    var ruleset: Ruleset
    var isEditingRules: bool
    /** The ruleset as the settings last persisted it. */
    var saved: Ruleset

    /** `new RulesetEditor(app, plugin, ruleset, containerEl)`: not in rule-editing mode. */
    constructor(ruleset: Ruleset, saved: Ruleset)
      ensures this.ruleset == ruleset && this.saved == saved && !isEditingRules
    {
      this.ruleset := ruleset;
      this.saved := saved;
      isEditingRules := false;
    }

    /** `plugin.saveSettings()`. */
    method Save()
      modifies this
      ensures saved == ruleset && unchanged(this`ruleset, this`isEditingRules)
    {
      saved := ruleset;
    }

    /** `display()`: the one state change drawing makes. */
    method Display()
      modifies this
      ensures ruleset == old(ruleset).(rules := WithFirstAsIf(old(ruleset).rules))
      ensures unchanged(this`isEditingRules, this`saved)
    {
      if |ruleset.rules| > 0 && ruleset.rules[0].role != If {
        var first := ruleset.rules[0].(role := If);
        ruleset := ruleset.(rules := ruleset.rules[0 := first]);
      }
      assert ruleset.rules == WithFirstAsIf(old(ruleset).rules);
    }

    /** The Trigger Type dropdown. */
    method SetTriggerType(kind: TriggerType)
      modifies this
      ensures saved == old(ruleset).(trigger := old(ruleset).trigger.(kind := kind))
      ensures ruleset == saved.(rules := WithFirstAsIf(saved.rules))
      ensures unchanged(this`isEditingRules)
    {
      ruleset := ruleset.(trigger := ruleset.trigger.(kind := kind));
      Save();
      Display();
    }

    /** Set the trigger's options to `o` and save, without redrawing. */
    method SetTriggerOptions(o: TriggerOptions)
      modifies this
      ensures ruleset == saved == old(ruleset).(trigger := old(ruleset).trigger.(options := Some(o)))
      ensures unchanged(this`isEditingRules)
    {
      ruleset := ruleset.(trigger := ruleset.trigger.(options := Some(o)));
      Save();
    }

    /** The Match Type dropdown. */
    method SetMatchType(m: MatchType)
      modifies this
      ensures ruleset == saved
      ensures ruleset.trigger.options == Some(SpreadTriggerOptions(old(ruleset).trigger.options).(matchType := Some(m)))
      ensures ruleset == old(ruleset).(trigger := ruleset.trigger) && ruleset.trigger.kind == old(ruleset).trigger.kind
      ensures unchanged(this`isEditingRules)
    {
      SetTriggerOptions(SpreadTriggerOptions(ruleset.trigger.options).(matchType := Some(m)));
    }

    /** The Trigger Query editor's `onChange`. */
    method SetTriggerQuery(q: string)
      modifies this
      ensures ruleset == saved
      ensures ruleset.trigger.options == Some(SpreadTriggerOptions(old(ruleset).trigger.options).(query := Some(q)))
      ensures ruleset == old(ruleset).(trigger := ruleset.trigger) && ruleset.trigger.kind == old(ruleset).trigger.kind
      ensures unchanged(this`isEditingRules)
    {
      SetTriggerOptions(SpreadTriggerOptions(ruleset.trigger.options).(query := Some(q)));
    }

    /** The Delay field (note-change and on-load triggers alike). */
    method SetDelay(text: string)
      modifies this
      ensures ruleset == saved
      ensures ruleset.trigger.options == Some(SpreadTriggerOptions(old(ruleset).trigger.options).(delay := Some(ParseDelay(text))))
      ensures ruleset == old(ruleset).(trigger := ruleset.trigger) && ruleset.trigger.kind == old(ruleset).trigger.kind
      ensures unchanged(this`isEditingRules)
    {
      SetTriggerOptions(SpreadTriggerOptions(ruleset.trigger.options).(delay := Some(ParseDelay(text))));
    }

    /** The Frequency dropdown. */
    method SetFrequency(f: Frequency)
      modifies this
      ensures ruleset == saved
      ensures ruleset.trigger.options == Some(SpreadTriggerOptions(old(ruleset).trigger.options).(frequency := Some(f)))
      ensures ruleset == old(ruleset).(trigger := ruleset.trigger) && ruleset.trigger.kind == old(ruleset).trigger.kind
      ensures unchanged(this`isEditingRules)
    {
      SetTriggerOptions(SpreadTriggerOptions(ruleset.trigger.options).(frequency := Some(f)));
    }

    /** The Days of Week / Hours of Day / Weeks of Month / Months of Year fields. */
    method SetSchedule(field: ScheduleField, value: string)
      modifies this
      ensures ruleset == saved
      ensures ruleset.trigger.options == Some(WithSchedule(SpreadTriggerOptions(old(ruleset).trigger.options), field, value))
      ensures ruleset == old(ruleset).(trigger := ruleset.trigger) && ruleset.trigger.kind == old(ruleset).trigger.kind
      ensures unchanged(this`isEditingRules)
    {
      SetTriggerOptions(WithSchedule(SpreadTriggerOptions(ruleset.trigger.options), field, value));
    }

    /** The Edit / Done button. */
    method ToggleEditing()
      modifies this
      ensures isEditingRules == !old(isEditingRules)
      ensures ruleset == old(ruleset).(rules := WithFirstAsIf(old(ruleset).rules))
      ensures unchanged(this`saved)
    {
      isEditingRules := !isEditingRules;
      Display();
    }

    /** A rule's name field: saved, not redrawn. */
    method SetRuleName(i: nat, name: string)
      requires i < |ruleset.rules|
      modifies this
      ensures ruleset == saved == WithRule(old(ruleset), i, old(ruleset).rules[i].(name := name))
      ensures unchanged(this`isEditingRules)
    {
      ruleset := WithRule(ruleset, i, ruleset.rules[i].(name := name));
      Save();
    }

    /** Change the rule list, save, and redraw. */
    method ReplaceRules(rules: seq<Rule>)
      modifies this
      ensures saved == old(ruleset).(rules := rules)
      ensures ruleset == saved.(rules := WithFirstAsIf(rules))
      ensures unchanged(this`isEditingRules)
    {
      ruleset := ruleset.(rules := rules);
      Save();
      Display();
    }

    /** The up arrow of rule `i`: nothing happens for the first rule. */
    method MoveRuleUp(i: nat)
      requires i < |ruleset.rules|
      modifies this
      ensures i == 0 ==> ruleset == old(ruleset) && saved == old(saved)
      ensures i > 0 ==> saved == old(ruleset).(rules := MovedUp(old(ruleset).rules, i))
      ensures i > 0 ==> ruleset == saved.(rules := WithFirstAsIf(saved.rules))
      ensures unchanged(this`isEditingRules)
    {
      if i > 0 {
        var temp := ruleset.rules[i];
        var rules := ruleset.rules[i := ruleset.rules[i - 1]];
        rules := rules[i - 1 := temp];
        ReplaceRules(rules);
      }
    }

    /** The down arrow of rule `i`: nothing happens for the last rule. */
    method MoveRuleDown(i: nat)
      requires i < |ruleset.rules|
      modifies this
      ensures i == |old(ruleset).rules| - 1 ==> ruleset == old(ruleset) && saved == old(saved)
      ensures i < |old(ruleset).rules| - 1 ==> saved == old(ruleset).(rules := MovedDown(old(ruleset).rules, i))
      ensures i < |old(ruleset).rules| - 1 ==> ruleset == saved.(rules := WithFirstAsIf(saved.rules))
      ensures unchanged(this`isEditingRules)
    {
      if i < |ruleset.rules| - 1 {
        var temp := ruleset.rules[i];
        var rules := ruleset.rules[i := ruleset.rules[i + 1]];
        rules := rules[i + 1 := temp];
        ReplaceRules(rules);
      }
    }

    /** The delete button of rule `i`, after the user answers the confirmation. */
    method DeleteRule(i: nat, confirmed: bool)
      requires i < |ruleset.rules|
      modifies this
      ensures !confirmed ==> ruleset == old(ruleset) && saved == old(saved)
      ensures confirmed ==> saved == old(ruleset).(rules := Removed(old(ruleset).rules, i))
      ensures confirmed ==> ruleset == saved.(rules := WithFirstAsIf(saved.rules))
      ensures unchanged(this`isEditingRules)
    {
      if confirmed {
        ReplaceRules(ruleset.rules[..i] + ruleset.rules[i + 1..]);
      }
    }

    /** A rule's role dropdown (shown for every rule but the first). */
    method SetRuleRole(i: nat, role: RuleRole)
      requires 0 < i < |ruleset.rules|
      modifies this
      ensures saved == WithRule(old(ruleset), i, old(ruleset).rules[i].(role := role))
      ensures ruleset == saved.(rules := WithFirstAsIf(saved.rules))
      ensures unchanged(this`isEditingRules)
    {
      ReplaceRules(ruleset.rules[i := ruleset.rules[i].(role := role)]);
    }

    /** A rule's scope editor `onChange`: saved, not redrawn. */
    method SetRuleScope(i: nat, scope: string)
      requires i < |ruleset.rules|
      modifies this
      ensures ruleset == saved == WithRule(old(ruleset), i, old(ruleset).rules[i].(scope := scope))
      ensures unchanged(this`isEditingRules)
    {
      ruleset := WithRule(ruleset, i, ruleset.rules[i].(scope := scope));
      Save();
    }

    /** A rule's Add Action button. */
    method AddAction(i: nat)
      requires i < |ruleset.rules|
      modifies this
      ensures saved == WithRule(old(ruleset), i, old(ruleset).rules[i].(actions := old(ruleset).rules[i].actions + [NewAction]))
      ensures ruleset == saved.(rules := WithFirstAsIf(saved.rules))
      ensures unchanged(this`isEditingRules)
    {
      var rule := ruleset.rules[i];
      ReplaceRules(ruleset.rules[i := rule.(actions := rule.actions + [NewAction])]);
    }

    /** An action's type dropdown. */
    method SetActionType(i: nat, j: nat, kind: string)
      requires i < |ruleset.rules| && j < |ruleset.rules[i].actions|
      modifies this
      ensures var rule := old(ruleset).rules[i];
        saved == WithRule(old(ruleset), i, WithAction(rule, j, rule.actions[j].(kind := kind)))
      ensures ruleset == saved.(rules := WithFirstAsIf(saved.rules))
      ensures unchanged(this`isEditingRules)
    {
      var rule := ruleset.rules[i];
      ReplaceRules(ruleset.rules[i := WithAction(rule, j, rule.actions[j].(kind := kind))]);
    }

    /** An action's Folder Path, Key or Value field: merged into its options, saved, not redrawn. */
    method SetActionOption(i: nat, j: nat, key: string, value: string)
      requires i < |ruleset.rules| && j < |ruleset.rules[i].actions|
      modifies this
      ensures var rule := old(ruleset).rules[i];
        var a := rule.actions[j];
        ruleset == saved == WithRule(old(ruleset), i, WithAction(rule, j, a.(options := Some(MergeOption(a.options, key, value)))))
      ensures unchanged(this`isEditingRules)
    {
      var rule := ruleset.rules[i];
      var a := rule.actions[j];
      ruleset := WithRule(ruleset, i, WithAction(rule, j, a.(options := Some(MergeOption(a.options, key, value)))));
      Save();
    }

    /** An action's delete button. */
    method DeleteAction(i: nat, j: nat)
      requires i < |ruleset.rules| && j < |ruleset.rules[i].actions|
      modifies this
      ensures var rule := old(ruleset).rules[i];
        saved == WithRule(old(ruleset), i, rule.(actions := Removed(rule.actions, j)))
      ensures ruleset == saved.(rules := WithFirstAsIf(saved.rules))
      ensures unchanged(this`isEditingRules)
    {
      var rule := ruleset.rules[i];
      ReplaceRules(ruleset.rules[i := rule.(actions := rule.actions[..j] + rule.actions[j + 1..])]);
    }

    /** The Add Rule button, disabled while editing the rule list. */
    method AddRule(id: string)
      modifies this
      ensures old(isEditingRules) ==> ruleset == old(ruleset) && saved == old(saved)
      ensures !old(isEditingRules) ==> saved == old(ruleset).(rules := old(ruleset).rules + [NewRule(id)])
      ensures !old(isEditingRules) ==> ruleset == saved.(rules := WithFirstAsIf(saved.rules))
      ensures unchanged(this`isEditingRules)
    {
      if !isEditingRules {
        ReplaceRules(ruleset.rules + [NewRule(id)]);
      }
    }
  }
}
