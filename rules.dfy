/**
 * `createAlertRuleEvaluator`: rules checked at most once per interval, each
 * an edge-triggered switch that calls `alert` when its condition starts to
 * hold and `resolve` when it stops.
 *
 * A pass of `evaluate()` receives, for the rule at position `i`, what its
 * condition does and the clock and network seen by the manager call it may
 * make (`inputs(i)`).
 */
module AlertRules {
  import opened Wrappers
  import opened Json
  import opened Alerting

  /** `AlertRule`; a message producer is represented by the text it produces. */
  datatype Rule = Rule(
    name: string, severity: Severity, title: string, message: string,
    checkInterval: int, labels: Option<Labels>)

  datatype RuleState = RuleState(firing: bool, lastCheck: int)

  /** How `await rule.condition()` ends. */
  datatype Verdict = Holds(fire: bool) | Throws

  /** The manager call one rule makes in one pass. */
  datatype Action =
    | Quiet
    | Fire(severity: Severity, title: string, message: string, labels: Option<Labels>)
    | Clear(title: string, message: string, labels: Option<Labels>)

  /**
   * What one rule sees in one pass: how its condition ends, the clock its
   * `alert` call reads before awaiting the channels and after they answered,
   * and what each channel's `fetch` does.
   */
  datatype RuleInput = RuleInput(verdict: Verdict, clock: int, sentAt: int, fetch: int -> Transport)

  /** `addRule`: every rule starts not firing and never checked. */
  const Initial := RuleState(false, 0)

  /** One rule in one pass of `evaluate()` at time `now`. */
  function RuleStep(rule: Rule, st: RuleState, now: int, v: Verdict): (RuleState, Action) {
    if now - st.lastCheck < rule.checkInterval then (st, Quiet)
    else
      var checked := st.(lastCheck := now);
      match v
      case Throws => (checked, Quiet)
      case Holds(fire) =>
        if fire && !checked.firing then
          (checked.(firing := true), Fire(rule.severity, rule.title, rule.message, rule.labels))
        else if !fire && checked.firing then
          (checked.(firing := false), Clear(rule.title, rule.message + " - Issue resolved", rule.labels))
        else (checked, Quiet)
  }

  /** The effect of one rule's manager call on the manager's state. */
  function Apply(cfg: Config, m: AlertState, act: Action, input: RuleInput): AlertState {
    match act
    case Quiet => m
    case Fire(s, t, msg, l) => AlertTransition(cfg, m, input.clock, input.sentAt, AlertRecord(cfg.service, s, t, msg, l, false), input.fetch).0
    case Clear(t, _, l) => ResolveTransition(cfg, m, t, l)
  }

  /** The state of the rule named `name` (`ruleStates.get(rule.name)!`). */
  function StateOf(states: map<string, RuleState>, name: string): RuleState {
    if name in states then states[name] else Initial
  }

  /** The rule states and the manager's state after the first `n` rules of a pass. */
  function Pass(cfg: Config, rules: seq<Rule>, states: map<string, RuleState>, m: AlertState,
                now: int, inputs: int -> RuleInput, n: nat): (map<string, RuleState>, AlertState)
    requires n <= |rules|
  {
    if n == 0 then (states, m)
    else
      var (ss, mm) := Pass(cfg, rules, states, m, now, inputs, n - 1);
      var rule := rules[n - 1];
      var (st, act) := RuleStep(rule, StateOf(ss, rule.name), now, inputs(n - 1).verdict);
      (ss[rule.name := st], Apply(cfg, mm, act, inputs(n - 1)))
  }

  // ------------------------------------------------------------- one step

  /** A rule checked less than `checkInterval` ago is skipped entirely. */
  lemma SkippedRule(rule: Rule, st: RuleState, now: int, v: Verdict)
    requires now - st.lastCheck < rule.checkInterval
    ensures RuleStep(rule, st, now, v) == (st, Quiet)
  {
  }

  /**
   * A rule that is due records the check time first; it alerts exactly on a
   * false-to-true edge, resolves exactly on a true-to-false edge, and a
   * condition that throws leaves `firing` as it was.
   */
  lemma DueRule(rule: Rule, st: RuleState, now: int, v: Verdict)
    requires now - st.lastCheck >= rule.checkInterval
    ensures var (st', act) := RuleStep(rule, st, now, v);
      && st'.lastCheck == now
      && st'.firing == (if v.Holds? then v.fire else st.firing)
      && (act.Fire? <==> v == Holds(true) && !st.firing)
      && (act.Clear? <==> v == Holds(false) && st.firing)
      && (act.Fire? ==> act == Fire(rule.severity, rule.title, rule.message, rule.labels))
      && (act.Clear? ==> act == Clear(rule.title, rule.message + " - Issue resolved", rule.labels))
  {
  }

  /** Whatever happens, an alert is only ever raised from a non-firing state, a resolve from a firing one. */
  lemma StepEdges(rule: Rule, st: RuleState, now: int, v: Verdict)
    ensures var (st', act) := RuleStep(rule, st, now, v);
      && (act.Fire? ==> !st.firing && st'.firing)
      && (act.Clear? ==> st.firing && !st'.firing)
      && (act.Quiet? ==> st'.firing == st.firing)
  {
  }

  // ------------------------------------------------------------- runs

  /** The actions of one rule over successive passes at the given times. */
  function Run(rule: Rule, st: RuleState, steps: seq<(int, Verdict)>): (r: (RuleState, seq<Action>))
    ensures |r.1| == |steps|
    decreases |steps|
  {
    if steps == [] then (st, [])
    else
      var (st1, a) := RuleStep(rule, st, steps[0].0, steps[0].1);
      var (last, rest) := Run(rule, st1, steps[1..]);
      (last, [a] + rest)
  }

  /** Ignoring quiet passes, alerts and resolves alternate, starting as `firing` says. */
  predicate Alternates(acts: seq<Action>, firing: bool) {
    if acts == [] then true
    else match acts[0]
      case Quiet => Alternates(acts[1..], firing)
      case Fire(_, _, _, _) => !firing && Alternates(acts[1..], true)
      case Clear(_, _, _) => firing && Alternates(acts[1..], false)
  }

  /**
   * Over any sequence of passes, a rule never alerts twice without a resolve
   * in between, nor resolves twice without an alert in between.
   */
  lemma {:induction false} RunAlternates(rule: Rule, st: RuleState, steps: seq<(int, Verdict)>)
    ensures Alternates(Run(rule, st, steps).1, st.firing)
    decreases |steps|
  {
    if steps != [] {
      var (st1, a) := RuleStep(rule, st, steps[0].0, steps[0].1);
      StepEdges(rule, st, steps[0].0, steps[0].1);
      RunAlternates(rule, st1, steps[1..]);
    }
  }

  /**
   * Conditions false, false, true, true, false on five due passes: one alert
   * at the third pass, one resolve at the fifth, nothing else.
   */
  lemma EdgeScenario(rule: Rule)
    requires rule.checkInterval == 1000
    ensures var steps := [(1000, Holds(false)), (2000, Holds(false)), (3000, Holds(true)),
                          (4000, Holds(true)), (5000, Holds(false))];
      Run(rule, Initial, steps).1 ==
        [Quiet, Quiet, Fire(rule.severity, rule.title, rule.message, rule.labels), Quiet,
         Clear(rule.title, rule.message + " - Issue resolved", rule.labels)]
  {
    var steps: seq<(int, Verdict)> := [(1000, Holds(false)), (2000, Holds(false)), (3000, Holds(true)),
                  (4000, Holds(true)), (5000, Holds(false))];
    assert |steps[1..][1..][1..][1..][1..]| == 0;
  }

  // ------------------------------------------------------------- the object

  /** The evaluator returned by `createAlertRuleEvaluator(alertManager)`. */
  class RuleEvaluator {
    const manager: AlertManager
    var rules: seq<Rule>
    var states: map<string, RuleState>
    /** Whether the interval timer is set. */
    var running: bool

    ghost predicate Valid()
      reads this, manager
    {
      manager.Valid() && forall r | r in rules :: r.name in states
    }

    constructor (manager: AlertManager)
      requires manager.Valid()
      ensures this.manager == manager && rules == [] && states == map[] && !running
      ensures Valid()
    {
      this.manager := manager;
      rules := [];
      states := map[];
      running := false;
    }

    /** `addRule(rule)`: appended to the list, its state (re)set to not firing. */
    method AddRule(rule: Rule)
      requires Valid()
      modifies this
      ensures Valid()
      ensures rules == old(rules) + [rule] && states == old(states)[rule.name := Initial]
      ensures running == old(running)
    {
      rules := rules + [rule];
      states := states[rule.name := Initial];
    }

    /** The body of the loop of `evaluate()`: check one rule at time `now`. */
    method EvaluateRule(rule: Rule, now: int, input: RuleInput)
      requires Valid() && rule in rules
      modifies this, manager
      ensures Valid() && rules == old(rules) && running == old(running)
      ensures var step := RuleStep(rule, StateOf(old(states), rule.name), now, input.verdict);
        states == old(states)[rule.name := step.0]
        && manager.State() == Apply(manager.Cfg(), old(manager.State()), step.1, input)
    {
      var state := states[rule.name];
      if now - state.lastCheck < rule.checkInterval {
        assert states[rule.name := state] == states;
        return;
      }
      state := state.(lastCheck := now);
      states := states[rule.name := state];
      match input.verdict {
        case Throws =>
        case Holds(shouldFire) =>
          if shouldFire && !state.firing {
            states := states[rule.name := state.(firing := true)];
            var _ := manager.Alert(input.clock, input.sentAt, rule.severity, rule.title, rule.message, rule.labels, input.fetch);
          } else if !shouldFire && state.firing {
            states := states[rule.name := state.(firing := false)];
            var _ := manager.Resolve(rule.title, rule.message + " - Issue resolved", rule.labels);
          }
      }
    }

    /** `evaluate()`: one pass over the rules, in order, at time `now`. */
    method Evaluate(now: int, inputs: int -> RuleInput)
      requires Valid()
      modifies this, manager
      ensures Valid() && rules == old(rules) && running == old(running)
      ensures (states, manager.State())
           == Pass(manager.Cfg(), rules, old(states), old(manager.State()), now, inputs, |rules|)
    {
      for i := 0 to |rules|
        invariant Valid() && rules == old(rules) && running == old(running)
        invariant (states, manager.State())
               == Pass(manager.Cfg(), rules, old(states), old(manager.State()), now, inputs, i)
      {
        assert rules[i] in rules;
        EvaluateRule(rules[i], now, inputs(i));
      }
    }

    /** `start(interval = 30000)`: a no-op while running, otherwise set the timer and evaluate at once. */
    method Start(now: int, inputs: int -> RuleInput, interval: int := 30000)
      requires Valid()
      modifies this, manager
      ensures Valid() && running && rules == old(rules)
      ensures old(running) ==> states == old(states) && manager.State() == old(manager.State())
      ensures !old(running) ==>
        (states, manager.State())
        == Pass(manager.Cfg(), rules, old(states), old(manager.State()), now, inputs, |rules|)
    {
      if running {
        return;
      }
      running := true;
      Evaluate(now, inputs);
    }

    /** `stop()`: clear the timer if there is one; safe to call at any time. */
    method Stop()
      modifies this
      ensures !running && rules == old(rules) && states == old(states)
    {
      if running {
        running := false;
      }
    }
  }
}
