/**
 * The plugin's data model: settings, rulesets, triggers, rules and actions.
 * Optional TypeScript properties (`x?: T`) are `Option<T>`.
 */
module Types {
  import opened Wrappers

  /** When a ruleset runs: `'on-load' | 'note-change' | 'manual'`. */
  datatype TriggerType = OnLoad | NoteChange | Manual

  /** On-load frequency: `'every' | 'once-every'`. */
  datatype Frequency = Every | OnceEvery

  /** Note-change match type: `'to' | 'from' | 'both'`. */
  datatype MatchType = To | From | Both

  /**
   * A trigger's options, one flat record whose every field is optional.
   * The schedule filters are kept as the raw text the user typed.
   */
  datatype TriggerOptions = TriggerOptions(
    commandName: Option<string>,
    frequency: Option<Frequency>,
    delay: Option<int>,
    matchType: Option<MatchType>,
    query: Option<string>,
    daysOfWeek: Option<string>,
    hoursOfDay: Option<string>,
    weeksOfMonth: Option<string>,
    monthsOfYear: Option<string>)

  /** The options object `{}`: no field set. */
  const NoTriggerOptions := TriggerOptions(None, None, None, None, None, None, None, None, None)

  datatype Trigger = Trigger(kind: TriggerType, options: Option<TriggerOptions>)

  /** A rule's group role: `'if' | 'else-if' | 'else'`. */
  datatype RuleRole = If | ElseIf | Else

  /** An action's options object; the editor only ever stores strings in it. */
  type ActionOptions = map<string, string>

  /** An action: an open type string and optional options. */
  datatype Action = Action(kind: string, options: Option<ActionOptions>)

  /** The action types the runner knows. */
  const MoveNote := "Move Note"
  const UpdateProperty := "Update Property"

  datatype Rule = Rule(id: string, name: string, role: RuleRole, scope: string, actions: seq<Action>)

  datatype Ruleset = Ruleset(
    id: string,
    name: string,
    enabled: bool,
    trigger: Trigger,
    rules: seq<Rule>,
    lastRun: Option<int>)

  datatype Settings = Settings(rulesets: seq<Ruleset>, excludedQuery: Option<string>)

  /** `DEFAULT_SETTINGS`. */
  const DefaultSettings := Settings([], Some(""))
}
