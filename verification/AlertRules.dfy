/** Personal alert rules: triggers, the per-rule cooldown, and one evaluation of all rules. */
module AlertRules {
  import opened Numbers

  /** Four hours, in seconds. */
  const PERSONAL_ALERT_COOLDOWN := 4 * 60 * 60

  datatype Action = Buy | Hold | Sell | Watch

  datatype RuleType = TargetPrice | PercentMove | SignalChange | ConfidenceChange

  datatype Analysis = Analysis(action: Action, score: real, confidence: Option<real>)

  /** What the database holds about a rule's stock when the rule is evaluated. */
  datatype Quote = Quote(lastPrice: Option<real>, lastChangePct: Option<real>, analysis: Option<Analysis>)

  datatype Trigger =
    | PriceReached(price: real, target: real)
    | Moved(changePct: real, threshold: real)
    | SignalChanged(from: Action, to: Action, score: real)
    | ConfidenceReached(confidence: real, minimum: real)

  /** What the user chose. */
  datatype Setup = Setup(ruleType: RuleType, targetPrice: Option<real>, thresholdPct: Option<real>,
                         minConfidence: Option<real>, inApp: bool, telegram: bool)

  /** What evaluations remember. */
  datatype Memory = Memory(lastSignal: Option<Action>, lastConfidence: Option<real>, lastTriggeredAt: Option<int>)

  /** `_rule_trigger`. */
  function RuleTrigger(setup: Setup, m: Memory, q: Quote): (Memory, Option<Trigger>) {
    match setup.ruleType
    case TargetPrice =>
      if setup.targetPrice.Some? && q.lastPrice.Some? && q.lastPrice.value >= setup.targetPrice.value
      then (m, Some(PriceReached(q.lastPrice.value, setup.targetPrice.value)))
      else (m, None)
    case PercentMove =>
      if setup.thresholdPct.Some? && q.lastChangePct.Some? && Abs(q.lastChangePct.value) >= setup.thresholdPct.value
      then (m, Some(Moved(q.lastChangePct.value, setup.thresholdPct.value)))
      else (m, None)
    case SignalChange =>
      if q.analysis.None? then (m, None)
      else
        var current := q.analysis.value.action;
        var noted := m.(lastSignal := Some(current));
        if m.lastSignal.None? then (noted, None)
        else if m.lastSignal.value != current then
          (noted, Some(SignalChanged(m.lastSignal.value, current, q.analysis.value.score)))
        else (m, None)
    case ConfidenceChange =>
      if q.analysis.None? || setup.minConfidence.None? then (m, None)
      else
        var confidence := Percent(q.analysis.value.confidence);
        if confidence >= setup.minConfidence.value
        then (m.(lastConfidence := Some(confidence)), Some(ConfidenceReached(confidence, setup.minConfidence.value)))
        else (m, None)
  }

  /**
   What a check of a rule means to its user. A price rule fires when the last price is at least the target, a move rule
   when the change is at least the threshold up or down, a signal rule when the signal differs from the one remembered,
   a confidence rule when a hundred times the confidence, or zero without one, is at least the minimum; the message
   carries the two values compared. Only the signal read and the confidence reported are remembered.
   */
  ghost predicate CheckedByRule(setup: Setup, m: Memory, q: Quote, m': Memory, trigger: Option<Trigger>) {
    && (forall price, target ::
          trigger == Some(PriceReached(price, target))
          <==> setup.ruleType == TargetPrice && q.lastPrice == Some(price) && setup.targetPrice == Some(target)
               && target <= price)
    && (forall change, threshold ::
          trigger == Some(Moved(change, threshold))
          <==> setup.ruleType == PercentMove && q.lastChangePct == Some(change)
               && setup.thresholdPct == Some(threshold) && (threshold <= change || change <= -threshold))
    && (forall from, to, score ::
          trigger == Some(SignalChanged(from, to, score))
          <==> setup.ruleType == SignalChange && m.lastSignal == Some(from) && from != to
               && q.analysis.Some? && q.analysis.value.action == to && q.analysis.value.score == score)
    && (forall confidence, minimum ::
          trigger == Some(ConfidenceReached(confidence, minimum))
          <==> setup.ruleType == ConfidenceChange && q.analysis.Some? && setup.minConfidence == Some(minimum)
               && (var known := q.analysis.value.confidence;
                   confidence == if known.Some? then 100.0 * known.value else 0.0)
               && minimum <= confidence)
    && m'.lastTriggeredAt == m.lastTriggeredAt
    && (if setup.ruleType == SignalChange && q.analysis.Some? then m'.lastSignal == Some(q.analysis.value.action)
        else m'.lastSignal == m.lastSignal)
    && (if trigger.Some? && trigger.value.ConfidenceReached? then
          m'.lastConfidence == Some(trigger.value.confidence)
        else m'.lastConfidence == m.lastConfidence)
  }

  lemma {:induction false} ChecksByRule(setup: Setup, m: Memory, q: Quote)
    ensures var (m', trigger) := RuleTrigger(setup, m, q); CheckedByRule(setup, m, q, m', trigger)
  {
  }

  /** `float(confidence or 0) * 100`. */
  function Percent(confidence: Option<real>): real {
    if confidence.None? then 0.0 else confidence.value * 100.0
  }

  predicate CoolingDown(m: Memory, now: int) {
    m.lastTriggeredAt.Some? && now - m.lastTriggeredAt.value < PERSONAL_ALERT_COOLDOWN
  }

  /** One evaluation of one rule. */
  function Evaluate(setup: Setup, m: Memory, now: int, q: Quote): (Memory, Option<Trigger>) {
    if CoolingDown(m, now) then (m, None)
    else
      var (m', trigger) := RuleTrigger(setup, m, q);
      (if trigger.Some? then m'.(lastTriggeredAt := Some(now)) else m', trigger)
  }

  /**
   One evaluation: nothing happens to a rule that is not active or that triggered less than four hours ago; any other
   is checked, and remembers the time if it triggers.
   */
  ghost predicate EvaluatedByRule(active: bool, setup: Setup, m: Memory, now: int, q: Quote, m': Memory,
                                  trigger: Option<Trigger>)
  {
    if !active || (m.lastTriggeredAt.Some? && now < m.lastTriggeredAt.value + 14_400) then
      m' == m && trigger == None
    else
      && CheckedByRule(setup, m, q, m'.(lastTriggeredAt := m.lastTriggeredAt), trigger)
      && m'.lastTriggeredAt == if trigger.Some? then Some(now) else m.lastTriggeredAt
  }

  lemma {:induction false} EvaluatesByRule(active: bool, setup: Setup, m: Memory, now: int, q: Quote)
    ensures var (m', trigger) := if active then Evaluate(setup, m, now, q) else (m, None);
            EvaluatedByRule(active, setup, m, now, q, m', trigger)
  {
    ChecksByRule(setup, m, q);
    var (m', trigger) := RuleTrigger(setup, m, q);
    assert m'.lastTriggeredAt == m.lastTriggeredAt;
    assert m'.(lastTriggeredAt := m.lastTriggeredAt) == m';
    assert m'.(lastTriggeredAt := Some(now)).(lastTriggeredAt := m.lastTriggeredAt) == m';
    hide RuleTrigger, CheckedByRule;
  }

  // ---- Evaluating the stored rules ----

  datatype Channel = InApp | Telegram

  datatype Alert = Alert(ruleId: int, channel: Channel, trigger: Trigger, sentAt: int)

  /** The alerts stored for one trigger; `reached` says whether a Telegram message would get through. */
  function AlertsOf(id: int, setup: Setup, trigger: Option<Trigger>, now: int, reached: bool): seq<Alert> {
    if trigger.None? then []
    else (if setup.inApp then [Alert(id, InApp, trigger.value, now)] else [])
         + (if setup.telegram && reached then [Alert(id, Telegram, trigger.value, now)] else [])
  }

  class AlertRule {
    const id: int
    const stockId: int
    const setup: Setup
    var isActive: bool
    var lastSignal: Option<Action>
    var lastConfidence: Option<real>
    var lastTriggeredAt: Option<int>

    constructor (id: int, stockId: int, setup: Setup)
      ensures this.id == id && this.stockId == stockId && this.setup == setup
      ensures isActive && Remembered() == Memory(None, None, None)
    {
      this.id, this.stockId, this.setup, isActive := id, stockId, setup, true;
      lastSignal, lastConfidence, lastTriggeredAt := None, None, None;
    }

    ghost function Remembered(): Memory
      reads this
    {
      Memory(lastSignal, lastConfidence, lastTriggeredAt)
    }

    /** What an evaluation at `now` makes of the rule. */
    ghost function Evaluated(now: int, q: Quote): (r: (Memory, Option<Trigger>))
      reads this
      ensures EvaluatedByRule(isActive, setup, Remembered(), now, q, r.0, r.1)
    {
      EvaluatesByRule(isActive, setup, Remembered(), now, q);
      if isActive then Evaluate(setup, Remembered(), now, q) else (Remembered(), None)
    }

    method Check(q: Quote) returns (trigger: Option<Trigger>)
      modifies this`lastSignal, this`lastConfidence
      ensures (Remembered(), trigger) == RuleTrigger(setup, old(Remembered()), q)
      ensures CheckedByRule(setup, old(Remembered()), q, Remembered(), trigger)
    {
      ChecksByRule(setup, Remembered(), q);
      hide CheckedByRule;
      if setup.ruleType == TargetPrice && setup.targetPrice.Some? && q.lastPrice.Some? {
        if q.lastPrice.value >= setup.targetPrice.value {
          return Some(PriceReached(q.lastPrice.value, setup.targetPrice.value));
        }
      } else if setup.ruleType == PercentMove && setup.thresholdPct.Some? && q.lastChangePct.Some? {
        if Abs(q.lastChangePct.value) >= setup.thresholdPct.value {
          return Some(Moved(q.lastChangePct.value, setup.thresholdPct.value));
        }
      } else if setup.ruleType == SignalChange && q.analysis.Some? {
        var current := q.analysis.value.action;
        if lastSignal.None? {
          lastSignal := Some(current);
        } else if current != lastSignal.value {
          var from := lastSignal.value;
          lastSignal := Some(current);
          return Some(SignalChanged(from, current, q.analysis.value.score));
        }
      } else if setup.ruleType == ConfidenceChange && q.analysis.Some? && setup.minConfidence.Some? {
        var confidence := Percent(q.analysis.value.confidence);
        if confidence >= setup.minConfidence.value {
          lastConfidence := Some(confidence);
          return Some(ConfidenceReached(confidence, setup.minConfidence.value));
        }
      }
      return None;
    }
  }

  /** One round of the evaluation loop. */
  method EvaluateRule(rule: AlertRule, now: int, q: Quote) returns (trigger: Option<Trigger>)
    modifies rule
    ensures rule.isActive == old(rule.isActive)
    ensures (rule.Remembered(), trigger) == old(rule.Evaluated(now, q))
    ensures EvaluatedByRule(rule.isActive, rule.setup, old(rule.Remembered()), now, q, rule.Remembered(), trigger)
  {
    EvaluatesByRule(rule.isActive, rule.setup, rule.Remembered(), now, q);
    hide RuleTrigger, CheckedByRule, EvaluatedByRule;
    if !rule.isActive {
      return None;
    }
    if rule.lastTriggeredAt.Some? && now - rule.lastTriggeredAt.value < PERSONAL_ALERT_COOLDOWN {
      return None;
    }
    trigger := rule.Check(q);
    if trigger.Some? {
      rule.lastTriggeredAt := Some(now);
    }
  }

  ghost predicate DistinctRules(rules: seq<AlertRule>) {
    forall i, j :: 0 <= i < j < |rules| ==> rules[i] != rules[j]
  }

  /** How many of the outcomes are triggers. */
  function CountTriggers(outcomes: seq<Option<Trigger>>): (n: nat)
    ensures n <= |outcomes|
  {
    if outcomes == [] then 0
    else CountTriggers(outcomes[..|outcomes| - 1]) + (if outcomes[|outcomes| - 1].Some? then 1 else 0)
  }

  /**
   `evaluate_personal_alert_rules`: every active rule is evaluated once, on its own memory and its own stock, and
   inactive ones are left alone. `outcomes` lists what became of each rule.
   */
  method EvaluateRules(rules: seq<AlertRule>, now: int, quotes: int -> Quote, reached: int -> bool)
    returns (alerts: seq<Alert>, triggered: nat, ghost outcomes: seq<Option<Trigger>>)
    requires DistinctRules(rules)
    modifies rules
    ensures |outcomes| == |rules|
    ensures forall i :: 0 <= i < |rules| ==> rules[i].isActive == old(rules[i].isActive)
    ensures forall i :: 0 <= i < |rules|
                        ==> (rules[i].Remembered(), outcomes[i])
                            == old(rules[i].Evaluated(now, quotes(rules[i].stockId)))
    ensures forall i :: 0 <= i < |rules|
                        ==> EvaluatedByRule(rules[i].isActive, rules[i].setup, old(rules[i].Remembered()), now,
                                            quotes(rules[i].stockId), rules[i].Remembered(), outcomes[i])
    ensures triggered == |Triggered(outcomes)|
    ensures alerts == AllAlerts(rules, outcomes, now, reached)
    ensures forall a :: a in alerts <==> exists i: nat :: i < |rules| && SentFor(rules[i], outcomes[i], now, reached, a)
  {
    alerts, triggered, outcomes := [], 0, [];
    assert CountTriggers([]) == 0 && AllAlerts(rules, [], now, reached) == [];
    hide Evaluate, AlertsOf, AllAlerts, CountTriggers, AlertRule.Remembered, AlertRule.Evaluated, SentFor,
         EvaluatedByRule;
    for i := 0 to |rules|
      invariant |outcomes| == i
      invariant forall k :: 0 <= k < |rules| ==> rules[k].isActive == old(rules[k].isActive)
      invariant forall k :: 0 <= k < i ==> (rules[k].Remembered(), outcomes[k])
                                           == old(rules[k].Evaluated(now, quotes(rules[k].stockId)))
      invariant forall k :: i <= k < |rules| ==> unchanged(rules[k])
      invariant triggered == CountTriggers(outcomes)
      invariant alerts == AllAlerts(rules, outcomes, now, reached)
    {
      var rule := rules[i];
      var trigger := EvaluateRule(rule, now, quotes(rule.stockId));
      if trigger.Some? {
        triggered := triggered + 1;
      }
      alerts := alerts + AlertsOf(rule.id, rule.setup, trigger, now, reached(rule.id));
      OneMoreOutcome(rules, outcomes, trigger, now, reached);
      outcomes := outcomes + [trigger];
    }
    TriggersCounted(outcomes);
    AlertsListed(rules, outcomes, now, reached);
  }

  /** The places of the triggers among the outcomes. */
  ghost function Triggered(outcomes: seq<Option<Trigger>>): set<int> {
    set i | 0 <= i < |outcomes| && outcomes[i].Some?
  }

  lemma {:induction false} TriggersCounted(outcomes: seq<Option<Trigger>>)
    ensures CountTriggers(outcomes) == |Triggered(outcomes)|
  {
    if outcomes != [] {
      var n := |outcomes| - 1;
      TriggersCounted(outcomes[..n]);
      assert Triggered(outcomes) == Triggered(outcomes[..n]) + (if outcomes[n].Some? then {n} else {});
    }
  }

  /** `a` tells the trigger of `rule` on a channel its user chose; on Telegram only if the message got through. */
  ghost predicate SentFor(rule: AlertRule, outcome: Option<Trigger>, now: int, reached: int -> bool, a: Alert) {
    && a.ruleId == rule.id && outcome == Some(a.trigger) && a.sentAt == now
    && (a.channel == InApp ==> rule.setup.inApp)
    && (a.channel == Telegram ==> rule.setup.telegram && reached(rule.id))
  }

  lemma {:induction false} AlertsListed(rules: seq<AlertRule>, outcomes: seq<Option<Trigger>>, now: int,
                                        reached: int -> bool)
    requires |outcomes| <= |rules|
    ensures forall a :: a in AllAlerts(rules, outcomes, now, reached)
                        <==> exists i: nat :: i < |outcomes| && SentFor(rules[i], outcomes[i], now, reached, a)
  {
    if outcomes != [] {
      var n := |outcomes| - 1;
      AlertsListed(rules, outcomes[..n], now, reached);
      AlertsOfOne(rules[n], outcomes[n], now, reached);
      hide SentFor, AlertsOf;
    }
  }

  lemma {:induction false} AlertsOfOne(rule: AlertRule, outcome: Option<Trigger>, now: int, reached: int -> bool)
    ensures forall a :: a in AlertsOf(rule.id, rule.setup, outcome, now, reached(rule.id))
                        <==> SentFor(rule, outcome, now, reached, a)
  {
  }

  /** All alerts of the rules evaluated so far, in the order of the rules. */
  function AllAlerts(rules: seq<AlertRule>, outcomes: seq<Option<Trigger>>, now: int, reached: int -> bool): seq<Alert>
    requires |outcomes| <= |rules|
  {
    if outcomes == [] then []
    else
      var n := |outcomes| - 1;
      AllAlerts(rules, outcomes[..n], now, reached)
      + AlertsOf(rules[n].id, rules[n].setup, outcomes[n], now, reached(rules[n].id))
  }

  lemma {:induction false} OneMoreOutcome(rules: seq<AlertRule>, outcomes: seq<Option<Trigger>>,
                                          trigger: Option<Trigger>, now: int, reached: int -> bool)
    requires |outcomes| < |rules|
    ensures CountTriggers(outcomes + [trigger]) == CountTriggers(outcomes) + (if trigger.Some? then 1 else 0)
    ensures var rule := rules[|outcomes|];
            AllAlerts(rules, outcomes + [trigger], now, reached)
            == AllAlerts(rules, outcomes, now, reached)
               + AlertsOf(rule.id, rule.setup, trigger, now, reached(rule.id))
  {
    hide AlertsOf;
    assert (outcomes + [trigger])[..|outcomes|] == outcomes;
  }
}
