/**
 * Properties of the monitor over sequences of events: counter deltas, the
 * forwarded-versus-triggered invariant, the refresh rate, and
 * end-to-end scenarios.
 */
module Traces {
  import opened Wrappers
  import opened Text
  import opened Entities
  import opened Configuration
  import opened MessageFilter
  import opened Cooldown
  import opened StatisticsStore
  import opened Monitor

  datatype Trace = Trace(final: Engine, outcomes: seq<Outcome>, refreshes: nat)

  /** Feeds the events to `handle_new_message` one at a time, in arrival order. */
  function Run(e: Engine, inputs: seq<Input>): (t: Trace)
    ensures |t.outcomes| == |inputs|
    decreases |inputs|
  {
    if inputs == [] then
      Trace(e, [], 0)
    else
      var step := HandleNewMessage(e, inputs[0]);
      var rest := Run(step.engine, inputs[1..]);
      Trace(rest.final, [step.outcome] + rest.outcomes, (if step.refreshed then 1 else 0) + rest.refreshes)
  }

  /** Number of events that passed every gate (triggers). */
  function Triggers(outcomes: seq<Outcome>): nat {
    if outcomes == [] then 0
    else (if outcomes[0].Dispatched() then 1 else 0) + Triggers(outcomes[1..])
  }

  /** Number of events that were forwarded. */
  function Forwards(outcomes: seq<Outcome>): nat {
    if outcomes == [] then 0
    else (if outcomes[0] == Forwarded then 1 else 0) + Forwards(outcomes[1..])
  }

  /** A forward is also a trigger, so a trace never has more forwards than triggers. */
  lemma {:induction false} ForwardsAtMostTriggers(outcomes: seq<Outcome>)
    ensures Forwards(outcomes) <= Triggers(outcomes)
    decreases |outcomes|
  {
    if outcomes != [] {
      ForwardsAtMostTriggers(outcomes[1..]);
    }
  }

  /**
   * After N triggering events of which K were forwarded, `keywords_triggered`
   * has grown by exactly N and `messages_forwarded` by exactly K.
   */
  lemma {:induction false} CounterDeltas(e: Engine, inputs: seq<Input>)
    ensures var t := Run(e, inputs);
      && Counters(t.final.stats).keywordsTriggered == Counters(e.stats).keywordsTriggered + Triggers(t.outcomes)
      && Counters(t.final.stats).messagesForwarded == Counters(e.stats).messagesForwarded + Forwards(t.outcomes)
    decreases |inputs|
  {
    if inputs != [] {
      var step := HandleNewMessage(e, inputs[0]);
      CounterDeltas(step.engine, inputs[1..]);
      var t := Run(e, inputs);
      assert t.outcomes[1..] == Run(step.engine, inputs[1..]).outcomes;
    }
  }

  /** Along any run, `messages_forwarded` grows by no more than `keywords_triggered` does. */
  lemma ForwardGrowthAtMostTriggerGrowth(e: Engine, inputs: seq<Input>)
    ensures var t := Run(e, inputs);
      Counters(t.final.stats).messagesForwarded - Counters(e.stats).messagesForwarded
        <= Counters(t.final.stats).keywordsTriggered - Counters(e.stats).keywordsTriggered
  {
    CounterDeltas(e, inputs);
    ForwardsAtMostTriggers(Run(e, inputs).outcomes);
  }

  /** `messages_forwarded <= keywords_triggered` holds after every sequence of events that starts from it. */
  lemma {:induction false} ConsistencyPreserved(e: Engine, inputs: seq<Input>)
    requires Consistent(e.stats)
    ensures Consistent(Run(e, inputs).final.stats)
    decreases |inputs|
  {
    if inputs != [] {
      ConsistencyPreserved(HandleNewMessage(e, inputs[0]).engine, inputs[1..]);
    }
  }

  /** From the module's initial state the invariant holds forever. */
  lemma ConsistentFromStart(inputs: seq<Input>)
    ensures Consistent(Run(Initial, inputs).final.stats)
  {
    ConsistencyPreserved(Initial, inputs);
  }

  /** Every event falls in the 30-second window starting at `from`. */
  ghost predicate WithinWindow(inputs: seq<Input>, from: int) {
    forall i :: 0 <= i < |inputs| ==> from <= inputs[i].now <= from + RefreshIntervalSeconds
  }

  /** Once refreshed inside the window, no further event of the window refreshes. */
  lemma {:induction false} NoRefreshAfterWindowStart(e: Engine, inputs: seq<Input>, from: int)
    requires from <= e.lastConfigCheck
    requires WithinWindow(inputs, from)
    ensures Run(e, inputs).refreshes == 0
    decreases |inputs|
  {
    if inputs != [] {
      var step := HandleNewMessage(e, inputs[0]);
      assert !step.refreshed;
      NoRefreshAfterWindowStart(step.engine, inputs[1..], from);
    }
  }

  /** Events that all fall within 30 seconds of each other cause at most one configuration reload. */
  lemma {:induction false} AtMostOneRefreshPerWindow(e: Engine, inputs: seq<Input>, from: int)
    requires WithinWindow(inputs, from)
    ensures Run(e, inputs).refreshes <= 1
    decreases |inputs|
  {
    if inputs != [] {
      var step := HandleNewMessage(e, inputs[0]);
      if step.refreshed {
        NoRefreshAfterWindowStart(step.engine, inputs[1..], from);
      } else {
        AtMostOneRefreshPerWindow(step.engine, inputs[1..], from);
      }
    }
  }

  /**
   * A failed load replaces the cached configuration with the empty record:
   * monitoring is off until a later refresh loads a working file.
   */
  lemma FailedLoadSuspendsMonitoring(e: Engine, input: Input)
    requires IsStale(e, input.now)
    requires input.loaded == EmptyConfig
    ensures var r := HandleNewMessage(e, input);
      && r.outcome == Inactive
      && r.engine.currentConfig == EmptyConfig
      && r.engine.monitored == e.monitored
      && r.engine.stats == e.stats
  {
  }

  /**
   * While monitoring is off, nothing is looked up and nothing is sent: the
   * step does not depend on the lookup or the transport at all.
   */
  lemma InactiveIgnoresLookupAndTransport(e: Engine, input: Input, otherLookup: Lookup, otherSent: bool)
    requires !Active(Refresh(e, input.now, input.loaded, input.lookup).currentConfig)
    ensures HandleNewMessage(e, input) == HandleNewMessage(e, input.(lookup := otherLookup, sent := otherSent))
    ensures HandleNewMessage(e, input).outcome == Inactive
  {
    var e1 := Refresh(e, input.now, input.loaded, input.lookup);
    var e2 := Refresh(e, input.now, input.loaded, otherLookup);
    if IsStale(e, input.now) {
      assert e1 == e.(currentConfig := input.loaded, lastConfigCheck := input.now) == e2;
    }
  }

  // ---------------------------------------------------------------------
  // End-to-end scenarios

  /** The entities of the scenarios: `newsfeed` is chat 101, `ops` is chat 202. */
  function ScenarioLookup(name: string): Option<EntityId> {
    if name == "newsfeed" then Some(101)
    else if name == "ops" then Some(202)
    else None
  }

  const ScenarioConfig := Config(
    Some(true), Some(["urgent"]), Some(2.0), Some("@ops"),
    Some([Source("c1", "@newsfeed")]), None)

  function ScenarioInput(now: int, text: string): Input {
    Input(Event(101, text), now, ScenarioConfig, ScenarioLookup, true)
  }

  lemma UrgentMatches()
    ensures ShouldForward("This is URGENT news", ["urgent"])
  {
    assert Lower("This is URGENT news") == "this is urgent news";
    assert Lower("urgent") == "urgent";
    assert OccursAt("urgent", "this is urgent news", 8);
  }

  lemma NothingSpecialDoesNotMatch()
    ensures !ShouldForward("nothing special", ["urgent"])
  {
    assert Lower("nothing special") == "nothing special";
    assert Lower("urgent") == "urgent";
    MissingFirstCharacter("urgent", "nothing special");
  }

  /**
   * The same urgent message twice, 30 seconds apart: the first is forwarded
   * and counted; the second is held back by the 2-minute cooldown before the
   * trigger is counted, so neither counter moves.
   */
  lemma ScenarioRepeatWithinCooldown()
    ensures var t := Run(Initial, [ScenarioInput(1000, "This is URGENT news"), ScenarioInput(1030, "This is URGENT news")]);
      && t.outcomes == [Forwarded, CoolingDown]
      && t.refreshes == 1
      && t.final.stats == Some(Statistics(1, 1))
      && t.final.lastForward == map[101 := 1000]
  {
    UrgentMatches();
    var first := HandleNewMessage(Initial, ScenarioInput(1000, "This is URGENT news"));
    assert ResolveEntity(ScenarioLookup, "@newsfeed") == Some(101);
    assert ResolvesTo(Channels(ScenarioConfig), ScenarioLookup, 101);
    assert first.engine.monitored == {101} by {
      forall id | id in first.engine.monitored ensures id == 101 {
        var i :| 0 <= i < |Channels(ScenarioConfig)| && ResolveEntity(ScenarioLookup, Channels(ScenarioConfig)[i].name) == Some(id);
      }
    }
    assert ResolveEntity(ScenarioLookup, "@ops") == Some(202);
    assert first.outcome == Forwarded;
    var second := HandleNewMessage(first.engine, ScenarioInput(1030, "This is URGENT news"));
    assert second.outcome == CoolingDown;
    var inputs := [ScenarioInput(1000, "This is URGENT news"), ScenarioInput(1030, "This is URGENT news")];
    assert inputs[1..] == [ScenarioInput(1030, "This is URGENT news")];
    assert inputs[1..][1..] == [];
  }

  /** A message with no keyword in it changes no counter and is not sent. */
  lemma ScenarioNoKeyword()
    ensures var r := HandleNewMessage(Initial, ScenarioInput(1000, "nothing special"));
      && r.outcome == NoMatch
      && r.engine.stats == Initial.stats
      && r.engine.lastForward == Initial.lastForward
  {
    NothingSpecialDoesNotMatch();
    var r := HandleNewMessage(Initial, ScenarioInput(1000, "nothing special"));
    assert ResolveEntity(ScenarioLookup, "@newsfeed") == Some(101);
    assert ResolvesTo(Channels(ScenarioConfig), ScenarioLookup, 101);
    assert 101 in r.engine.monitored;
  }

  /** Two resolvable channels and one unresolvable group give a set of exactly the two channel ids. */
  lemma ScenarioUnresolvableGroupOmitted()
    ensures var c := Config(Some(true), None, None, None,
                            Some([Source("c1", "@newsfeed"), Source("c2", "ops")]),
                            Some([Source("g1", "@nowhere")]));
      MonitoredIds(c, ScenarioLookup) == {101, 202}
  {
    var c := Config(Some(true), None, None, None,
                    Some([Source("c1", "@newsfeed"), Source("c2", "ops")]),
                    Some([Source("g1", "@nowhere")]));
    assert ResolveEntity(ScenarioLookup, Channels(c)[0].name) == Some(101);
    assert ResolveEntity(ScenarioLookup, Channels(c)[1].name) == Some(202);
    assert ResolveEntity(ScenarioLookup, Groups(c)[0].name) == None;
    assert forall id :: !ResolvesTo(Groups(c), ScenarioLookup, id);
    forall id | id in MonitoredIds(c, ScenarioLookup) ensures id == 101 || id == 202 {
      var i :| 0 <= i < |Channels(c)| && ResolveEntity(ScenarioLookup, Channels(c)[i].name) == Some(id);
    }
  }
}
