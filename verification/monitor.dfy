/**
 * The monitor's decision engine: the module-level state of the monitor
 * (`last_config_check`, `current_config`, `monitored_entities`,
 * `last_forward_times`, and the persisted statistics) as one immutable
 * value, and `setup_monitoring` and `handle_new_message` as pure steps over
 * it. Everything that comes from outside — the clock, the loaded
 * configuration, entity lookup, the transport's verdict — is an input.
 */
module Monitor {
  import opened Wrappers
  import opened Entities
  import opened Configuration
  import opened MessageFilter
  import opened Cooldown
  import opened StatisticsStore

  /** Seconds after which the cached configuration is reloaded. */
  const RefreshIntervalSeconds := 30

  datatype Engine = Engine(
    lastConfigCheck: int,          // second of the last refresh
    currentConfig: Config,
    monitored: set<EntityId>,
    lastForward: ForwardTimes,
    stats: Option<Statistics>)     // the `statistics` record of the persisted configuration

  /** The state when the module is first loaded. */
  const Initial := Engine(0, EmptyConfig, {}, map[], None)

  /** An incoming message: the chat it came from and its text (no text is the empty string). */
  datatype Event = Event(chatId: ChatId, text: string)

  /** Everything one call of `handle_new_message` learns from outside. */
  datatype Input = Input(
    event: Event,
    now: int,             // `time.time()` at the start of the handler
    loaded: Config,       // what a refresh would load (`EmptyConfig` when loading fails)
    lookup: Lookup,       // the platform's entity lookup during this event
    sent: bool)           // whether the transport accepts the forward

  /** Where `handle_new_message` returned. */
  datatype Outcome =
    | Inactive         // monitoring is switched off
    | NotMonitored     // the chat is not in the monitored set
    | NoText           // the message has no text
    | NoMatch          // no keyword occurs in the text
    | CoolingDown      // the chat's cooldown has not elapsed
    | NoDestination    // no destination group is configured
    | ForwardFailed    // triggered, but the forward did not happen
    | Forwarded        // triggered and forwarded
  {
    /** The event passed every gate and a forward was attempted. */
    predicate Dispatched() {
      this == ForwardFailed || this == Forwarded
    }
  }

  datatype Step = Step(engine: Engine, outcome: Outcome, refreshed: bool)

  /** The monitored set a configuration asks for: the ids its channel and group names resolve to. */
  function MonitoredIds(c: Config, lookup: Lookup): (ids: set<EntityId>)
    ensures forall id :: id in ids <==> ResolvesTo(Channels(c), lookup, id) || ResolvesTo(Groups(c), lookup, id)
  {
    ResolveSources(Channels(c), lookup) + ResolveSources(Groups(c), lookup)
  }

  /**
   * `setup_monitoring`: the loaded record replaces the current one whatever it
   * holds; only when it switches monitoring on is the monitored set rebuilt.
   */
  function SetupMonitoring(e: Engine, loaded: Config, lookup: Lookup): (r: Engine)
    ensures r.currentConfig == loaded
    ensures Active(loaded) ==>
      forall id :: id in r.monitored <==> ResolvesTo(Channels(loaded), lookup, id) || ResolvesTo(Groups(loaded), lookup, id)
    ensures !Active(loaded) ==> r.monitored == e.monitored
    ensures r.lastConfigCheck == e.lastConfigCheck && r.lastForward == e.lastForward && r.stats == e.stats
  {
    var e1 := e.(currentConfig := loaded);
    if !Active(loaded) then e1
    else e1.(monitored := MonitoredIds(loaded, lookup))
  }

  /** The staleness test at the head of `handle_new_message`. */
  predicate IsStale(e: Engine, now: int) {
    now - e.lastConfigCheck > RefreshIntervalSeconds
  }

  /** Reload and rebuild when stale, and remember when. */
  function Refresh(e: Engine, now: int, loaded: Config, lookup: Lookup): (r: Engine)
    ensures IsStale(e, now) ==>
      && r.lastConfigCheck == now
      && r.currentConfig == loaded
      && (Active(loaded) ==> r.monitored == MonitoredIds(loaded, lookup))
      && (!Active(loaded) ==> r.monitored == e.monitored)
    ensures !IsStale(e, now) ==> r == e
    ensures r.lastForward == e.lastForward && r.stats == e.stats
  {
    if IsStale(e, now) then SetupMonitoring(e, loaded, lookup).(lastConfigCheck := now)
    else e
  }

  /** `forward_message_to_group`: the destination must resolve and the transport must accept. */
  function ForwardToGroup(lookup: Lookup, destination: string, sent: bool): (ok: bool)
    ensures ResolveEntity(lookup, destination).None? ==> !ok
    ensures ResolveEntity(lookup, destination).Some? ==> ok == sent
  {
    match ResolveEntity(lookup, destination)
    case None => false
    case Some(_) => sent
  }

  /** Writing the destination with or without its '@' marker makes no difference to the forward. */
  lemma DestinationMarkerIsOptional(lookup: Lookup, destination: string, sent: bool)
    requires destination == "" || destination[0] != '@'
    ensures ForwardToGroup(lookup, "@" + destination, sent) == ForwardToGroup(lookup, destination, sent)
  {
    HandleMarkerIsOptional(lookup, destination);
  }

  /**
   * The forward depends on the lookup only at the destination's own bare
   * name: two lookups that agree there give the same verdict.
   */
  lemma ForwardDependsOnlyOnDestination(lookup: Lookup, other: Lookup, destination: string, sent: bool)
    requires lookup(StripHandle(destination)) == other(StripHandle(destination))
    ensures ForwardToGroup(lookup, destination, sent) == ForwardToGroup(other, destination, sent)
  {
  }

  /** With no `cooldown` key, a chat that has forwarded before waits two minutes (120 seconds). */
  lemma DefaultCooldownIsTwoMinutes(c: Config, lastForward: ForwardTimes, chat: ChatId, now: int)
    requires c.cooldown == None
    requires chat in lastForward
    ensures CheckCooldown(lastForward, chat, now, CooldownMinutes(c)) <==> now - lastForward[chat] >= 120
  {
  }

  /**
   * The gate chain of `handle_new_message` after the refresh, in the source's
   * order: the first gate that is closed, or `None` when all are open.
   */
  function Gate(e: Engine, ev: Event, now: int): (closed: Option<Outcome>)
    ensures closed.None? <==> AllGatesPass(e, ev, now)
    ensures closed.Some? ==> !closed.value.Dispatched()
    ensures closed == Some(Inactive) <==> !Active(e.currentConfig)
    ensures closed == Some(CoolingDown) ==>
      && ShouldForward(ev.text, Keywords(e.currentConfig))
      && !CheckCooldown(e.lastForward, ev.chatId, now, CooldownMinutes(e.currentConfig))
    ensures closed == Some(NoDestination) ==>
      && CheckCooldown(e.lastForward, ev.chatId, now, CooldownMinutes(e.currentConfig))
      && Destination(e.currentConfig) == ""
  {
    var c := e.currentConfig;
    if !Active(c) then Some(Inactive)
    else if ev.chatId !in e.monitored then Some(NotMonitored)
    else if ev.text == "" then Some(NoText)
    else if !ShouldForward(ev.text, Keywords(c)) then Some(NoMatch)
    else if !CheckCooldown(e.lastForward, ev.chatId, now, CooldownMinutes(c)) then Some(CoolingDown)
    else if Destination(c) == "" then Some(NoDestination)
    else None
  }

  /** Every gate of the pipeline is open for `ev` in state `e`, read as one conjunction. */
  predicate AllGatesPass(e: Engine, ev: Event, now: int) {
    var c := e.currentConfig;
    && Active(c)
    && ev.chatId in e.monitored
    && ev.text != ""
    && ShouldForward(ev.text, Keywords(c))
    && CheckCooldown(e.lastForward, ev.chatId, now, CooldownMinutes(c))
    && Destination(c) != ""
  }

  /** `handle_new_message`, as one transition of the engine. */
  function HandleNewMessage(e: Engine, input: Input): (r: Step)
    // the refresh happens exactly when the cache is stale, and is then stamped with the event time
    ensures r.refreshed <==> IsStale(e, input.now)
    ensures r.refreshed ==> r.engine.lastConfigCheck == input.now && r.engine.currentConfig == input.loaded
    // the monitored set is the one the refresh left: rebuilt from the loaded record when it is active
    ensures r.engine.monitored == Refresh(e, input.now, input.loaded, input.lookup).monitored
    ensures r.refreshed && Active(input.loaded) ==> r.engine.monitored == MonitoredIds(input.loaded, input.lookup)
    ensures r.refreshed && !Active(input.loaded) ==> r.engine.monitored == e.monitored
    ensures !r.refreshed ==>
      && r.engine.lastConfigCheck == e.lastConfigCheck
      && r.engine.currentConfig == e.currentConfig
      && r.engine.monitored == e.monitored
    // a forward is attempted exactly when every gate is open in the refreshed state
    ensures r.outcome.Dispatched() <==>
      AllGatesPass(Refresh(e, input.now, input.loaded, input.lookup), input.event, input.now)
    ensures r.outcome == Forwarded <==>
      r.outcome.Dispatched() && ForwardToGroup(input.lookup, Destination(r.engine.currentConfig), input.sent)
    // a closed gate leaves counters and cooldowns alone
    ensures !r.outcome.Dispatched() ==> r.engine.stats == e.stats && r.engine.lastForward == e.lastForward
    // a failed forward counts a trigger only
    ensures r.outcome == ForwardFailed ==>
      && Counters(r.engine.stats).keywordsTriggered == Counters(e.stats).keywordsTriggered + 1
      && Counters(r.engine.stats).messagesForwarded == Counters(e.stats).messagesForwarded
      && r.engine.lastForward == e.lastForward
    // a successful forward counts both and starts the chat's cooldown at the event time
    ensures r.outcome == Forwarded ==>
      && Counters(r.engine.stats).keywordsTriggered == Counters(e.stats).keywordsTriggered + 1
      && Counters(r.engine.stats).messagesForwarded == Counters(e.stats).messagesForwarded + 1
      && r.engine.lastForward == e.lastForward[input.event.chatId := input.now]
    ensures Consistent(e.stats) ==> Consistent(r.engine.stats)
  {
    var ev := input.event;
    var now := input.now;
    var stale := IsStale(e, now);
    var e1 := Refresh(e, now, input.loaded, input.lookup);
    match Gate(e1, ev, now)
    case Some(closed) =>
      Step(e1, closed, stale)
    case None =>
      var triggered := UpdateStatistics(e1.stats, false, true);
      if ForwardToGroup(input.lookup, Destination(e1.currentConfig), input.sent) then
        var forwarded := UpdateStatistics(Some(triggered), true, false);
        Step(e1.(lastForward := e1.lastForward[ev.chatId := now], stats := Some(forwarded)), Forwarded, stale)
      else
        Step(e1.(stats := Some(triggered)), ForwardFailed, stale)
  }
}
