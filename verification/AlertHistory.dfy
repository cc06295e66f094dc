/** What a user sees of one alert rule over any number of evaluations. */
module AlertHistory {
  import opened Numbers
  import opened AlertRules

  /** One evaluation: the time and what is known about the stock then. */
  datatype Tick = Tick(now: int, quote: Quote)

  datatype Fired = Fired(at: int, trigger: Trigger)

  const NEW_RULE := Memory(None, None, None)

  /** The memory after all evaluations, and every trigger on the way. */
  function Run(setup: Setup, m: Memory, ticks: seq<Tick>): (Memory, seq<Fired>) {
    if ticks == [] then (m, [])
    else
      var last := ticks[|ticks| - 1];
      var (before, fired) := Run(setup, m, ticks[..|ticks| - 1]);
      var (after, trigger) := Evaluate(setup, before, last.now, last.quote);
      (after, if trigger.Some? then fired + [Fired(last.now, trigger.value)] else fired)
  }

  /** The rule remembers its latest trigger. */
  lemma {:induction false} LatestIsRemembered(setup: Setup, ticks: seq<Tick>)
    ensures var (m, fired) := Run(setup, NEW_RULE, ticks);
            m.lastTriggeredAt == if fired == [] then None else Some(fired[|fired| - 1].at)
  {
    if ticks != [] {
      LatestIsRemembered(setup, ticks[..|ticks| - 1]);
    }
  }

  /**
   Between any two triggers of a rule of any type lie four hours for each step from one to the other. No assumption
   about the clock is needed: an evaluation in the past of the latest trigger counts as cooling down.
   */
  lemma {:induction false} AlertsAreSpaced(setup: Setup, ticks: seq<Tick>)
    ensures var fired := Run(setup, NEW_RULE, ticks).1;
            forall i, j :: 0 <= i < j < |fired|
                           ==> fired[j].at - fired[i].at >= 14_400 * (j - i)
  {
    if ticks != [] {
      AlertsAreSpaced(setup, ticks[..|ticks| - 1]);
      LatestIsRemembered(setup, ticks[..|ticks| - 1]);
      hide RuleTrigger;
      assert LatestLast(setup, ticks) by {
        LastIsSpaced(setup, ticks);
      }
    }
  }

  /** The latest trigger is spaced from the one before it. */
  ghost predicate LatestLast(setup: Setup, ticks: seq<Tick>)
    requires ticks != []
  {
    var fired, before := Run(setup, NEW_RULE, ticks).1, Run(setup, NEW_RULE, ticks[..|ticks| - 1]).1;
    || fired == before
    || (&& |fired| == |before| + 1 && fired[..|before|] == before
        && (before != [] ==> fired[|before|].at - before[|before| - 1].at >= 14_400))
  }

  lemma {:induction false} LastIsSpaced(setup: Setup, ticks: seq<Tick>)
    requires ticks != []
    ensures LatestLast(setup, ticks)
  {
    hide RuleTrigger;
    LatestIsRemembered(setup, ticks[..|ticks| - 1]);
  }

  /** Evaluations during the cooldown change nothing and alert nobody, whatever they see. */
  lemma {:induction false} CooldownIsSilent(setup: Setup, m: Memory, ticks: seq<Tick>)
    requires m.lastTriggeredAt.Some?
    requires forall k :: 0 <= k < |ticks| ==> ticks[k].now < m.lastTriggeredAt.value + 14_400
    ensures Run(setup, m, ticks) == (m, [])
  {
    if ticks != [] {
      CooldownIsSilent(setup, m, ticks[..|ticks| - 1]);
    }
  }

  // ---- Signal changes ----

  /** The evaluations that read the signal: outside every cooldown, with an analysis to look at. */
  function Heeded(setup: Setup, ticks: seq<Tick>): (r: seq<Tick>)
    ensures forall t :: t in r ==> t.quote.analysis.Some?
  {
    if ticks == [] then []
    else
      var last := ticks[|ticks| - 1];
      Heeded(setup, ticks[..|ticks| - 1])
      + (if last.quote.analysis.Some? && !CoolingDown(Run(setup, NEW_RULE, ticks[..|ticks| - 1]).0, last.now)
         then [last] else [])
  }

  function ActionAt(t: Tick): Action
    requires t.quote.analysis.Some?
  {
    t.quote.analysis.value.action
  }

  /** Where the signal differs from the one read before it. */
  function Flips(ticks: seq<Tick>): seq<Fired>
    requires forall t :: t in ticks ==> t.quote.analysis.Some?
  {
    if |ticks| <= 1 then []
    else
      var n := |ticks| - 1;
      var from, to := ticks[n - 1], ticks[n];
      Flips(ticks[..n])
      + (if ActionAt(from) == ActionAt(to) then []
         else [Fired(to.now, SignalChanged(ActionAt(from), ActionAt(to), to.quote.analysis.value.score))])
  }

  lemma {:induction false} FlipsOneMore(ticks: seq<Tick>, to: Tick)
    requires forall t :: t in ticks ==> t.quote.analysis.Some?
    requires to.quote.analysis.Some?
    ensures Flips(ticks + [to])
            == if ticks == [] || ActionAt(ticks[|ticks| - 1]) == ActionAt(to) then Flips(ticks)
               else Flips(ticks) + [Fired(to.now, SignalChanged(ActionAt(ticks[|ticks| - 1]), ActionAt(to),
                                                               to.quote.analysis.value.score))]
  {
    assert (ticks + [to])[..|ticks|] == ticks;
  }

  lemma {:induction false} SignalStep(setup: Setup, m: Memory, t: Tick)
    requires setup.ruleType == SignalChange
    ensures CoolingDown(m, t.now) || t.quote.analysis.None? ==> Evaluate(setup, m, t.now, t.quote) == (m, None)
    ensures !CoolingDown(m, t.now) && t.quote.analysis.Some? ==>
              && Evaluate(setup, m, t.now, t.quote).0.lastSignal == Some(ActionAt(t))
              && Evaluate(setup, m, t.now, t.quote).1
                 == if m.lastSignal.None? || m.lastSignal.value == ActionAt(t) then None
                    else Some(SignalChanged(m.lastSignal.value, ActionAt(t), t.quote.analysis.value.score))
  {
  }

  /**
   A signal rule alerts exactly at the flips between the signals it reads, and always remembers the last one read. So
   a flip that is taken back within the cooldown is never reported.
   */
  lemma {:induction false} AlertsAreFlips(setup: Setup, ticks: seq<Tick>)
    requires setup.ruleType == SignalChange
    ensures var (m, fired) := Run(setup, NEW_RULE, ticks);
            var heeded := Heeded(setup, ticks);
            && fired == Flips(heeded)
            && m.lastSignal == if heeded == [] then None else Some(ActionAt(heeded[|heeded| - 1]))
  {
    if ticks != [] {
      var front, last := ticks[..|ticks| - 1], ticks[|ticks| - 1];
      AlertsAreFlips(setup, front);
      hide Run, Heeded, Flips, Evaluate, CoolingDown;
      RunOneMore(setup, ticks);
      var heeded := Heeded(setup, front);
      SignalStep(setup, Run(setup, NEW_RULE, front).0, last);
      if last.quote.analysis.Some? && !CoolingDown(Run(setup, NEW_RULE, front).0, last.now) {
        FlipsOneMore(heeded, last);
      } else {
        assert heeded + [] == heeded;
      }
    }
  }

  /** What the latest evaluation adds to the triggers and to the signals read. */
  lemma {:induction false} RunOneMore(setup: Setup, ticks: seq<Tick>)
    requires ticks != []
    ensures var front, last := ticks[..|ticks| - 1], ticks[|ticks| - 1];
            var (before, fired) := Run(setup, NEW_RULE, front);
            var (after, trigger) := Evaluate(setup, before, last.now, last.quote);
            && Run(setup, NEW_RULE, ticks)
               == (after, if trigger.Some? then fired + [Fired(last.now, trigger.value)] else fired)
            && Heeded(setup, ticks)
               == Heeded(setup, front)
                  + (if last.quote.analysis.Some? && !CoolingDown(before, last.now) then [last] else [])
  {
    hide Evaluate, CoolingDown;
  }

  /** Each alert names two different signals, and starts from where the one before it ended, or from the baseline. */
  ghost predicate Chained(fired: seq<Fired>, baseline: Action) {
    forall k :: 0 <= k < |fired| ==> LinkOk(fired, k, baseline)
  }

  ghost predicate LinkOk(fired: seq<Fired>, k: nat, baseline: Action)
    requires k < |fired|
  {
    && fired[k].trigger.SignalChanged?
    && fired[k].trigger.from != fired[k].trigger.to
    && fired[k].trigger.from == if k == 0 then baseline else To(fired[k - 1])
  }

  function To(f: Fired): Action {
    if f.trigger.SignalChanged? then f.trigger.to else Hold
  }

  lemma {:induction false} ChainedOneMore(fired: seq<Fired>, f: Fired, baseline: Action)
    requires Chained(fired, baseline) && f.trigger.SignalChanged? && f.trigger.from != f.trigger.to
    requires f.trigger.from == if fired == [] then baseline else To(fired[|fired| - 1])
    ensures Chained(fired + [f], baseline)
  {
    forall k | 0 <= k < |fired + [f]| ensures LinkOk(fired + [f], k, baseline) {
      assert k < |fired| ==> LinkOk(fired, k, baseline);
    }
  }

  lemma {:induction false} FlipsChain(ticks: seq<Tick>)
    requires ticks != [] && forall t :: t in ticks ==> t.quote.analysis.Some?
    ensures Chained(Flips(ticks), ActionAt(ticks[0]))
    ensures ActionAt(ticks[|ticks| - 1])
            == if Flips(ticks) == [] then ActionAt(ticks[0]) else To(Flips(ticks)[|Flips(ticks)| - 1])
  {
    if 1 < |ticks| {
      var front, last := ticks[..|ticks| - 1], ticks[|ticks| - 1];
      FlipsChain(front);
      FlipsOneMore(front, last);
      assert ticks == front + [last];
      hide Flips;
      if ActionAt(front[|front| - 1]) != ActionAt(last) {
        ChainedOneMore(Flips(front), Flips(ticks)[|Flips(front)|], ActionAt(ticks[0]));
      }
    }
  }

  /** The first analysis a rule ever sees. */
  function FirstAnalysis(ticks: seq<Tick>): Option<Analysis> {
    if ticks == [] then None
    else if ticks[0].quote.analysis.Some? then ticks[0].quote.analysis
    else FirstAnalysis(ticks[1..])
  }

  /** Nothing cools down before the first alert, and the first alert needs a baseline: so the first analysis is it. */
  lemma {:induction false} BaselineIsFirst(setup: Setup, ticks: seq<Tick>)
    requires setup.ruleType == SignalChange
    ensures Heeded(setup, ticks) == [] <==> FirstAnalysis(ticks) == None
    ensures Heeded(setup, ticks) != [] ==> Heeded(setup, ticks)[0].quote.analysis == FirstAnalysis(ticks)
  {
    if ticks != [] {
      var front, last := ticks[..|ticks| - 1], ticks[|ticks| - 1];
      BaselineIsFirst(setup, front);
      FirstOneMore(front, last);
      assert ticks == front + [last];
      AlertsAreFlips(setup, front);
      LatestIsRemembered(setup, front);
    }
  }

  lemma {:induction false} FirstOneMore(ticks: seq<Tick>, t: Tick)
    ensures FirstAnalysis(ticks + [t]) == if FirstAnalysis(ticks).Some? then FirstAnalysis(ticks) else t.quote.analysis
  {
    if ticks == [] {
      assert ([] + [t])[1..] == [];
    } else {
      FirstOneMore(ticks[1..], t);
      assert (ticks + [t])[1..] == ticks[1..] + [t];
    }
  }

  /** The alerts of a signal rule form one chain, from the first signal ever seen to the signal remembered last. */
  lemma {:induction false} SignalAlertsChain(setup: Setup, ticks: seq<Tick>)
    requires setup.ruleType == SignalChange
    ensures var (m, fired) := Run(setup, NEW_RULE, ticks);
            && (FirstAnalysis(ticks).None? ==> fired == [] && m.lastSignal.None?)
            && (FirstAnalysis(ticks).Some? ==>
                  && Chained(fired, FirstAnalysis(ticks).value.action)
                  && m.lastSignal == Some(if fired == [] then FirstAnalysis(ticks).value.action
                                          else To(fired[|fired| - 1])))
  {
    hide Run, Chained, Flips;
    AlertsAreFlips(setup, ticks);
    BaselineIsFirst(setup, ticks);
    if Heeded(setup, ticks) == [] {
      FlipsNone();
    } else {
      FlipsChain(Heeded(setup, ticks));
    }
  }

  lemma {:induction false} FlipsNone()
    ensures Flips([]) == []
  {
  }

  /** After an alert, signals that come and go within the cooldown leave no trace once the signal is back. */
  lemma {:induction false} FlipAndFlipBackIsSilent(setup: Setup, m: Memory, during: seq<Tick>, back: Tick)
    requires setup.ruleType == SignalChange && m.lastSignal.Some?
    requires m.lastTriggeredAt.Some?
    requires forall k :: 0 <= k < |during| ==> during[k].now < m.lastTriggeredAt.value + 14_400
    requires back.quote.analysis.Some? && ActionAt(back) == m.lastSignal.value
    ensures Run(setup, m, during + [back]) == (m, [])
  {
    CooldownIsSilent(setup, m, during);
    assert (during + [back])[..|during|] == during;
  }
}
