# Telegram keyword relay: decision engine

This project models, in Dafny, the decision engine of `monitor.py`, a relay
agent that watches Telegram channels and groups. For every incoming message it
tests the text against a keyword list and forwards matching messages to one
destination group. A per-chat cooldown limits the forwarding, and two usage
counters record what happened.

The module-level state of `monitor.py` is one immutable value, `Monitor.Engine`:

- `last_config_check`
- `current_config`
- `monitored_entities`
- `last_forward_times`
- the `statistics` record of the persisted configuration

`handle_new_message` is the pure transition `Monitor.HandleNewMessage`. Its
input (`Monitor.Input`) carries everything the handler learns from outside:

- the event, as a chat id and a text
- the current time, in whole seconds
- the configuration a refresh would load (`EmptyConfig` when loading fails)
- the platform's entity lookup, as a total function from a bare name to an optional id
- whether the transport accepts the forward

Modules follow the parts of the engine:

- `Text`: ASCII case folding and the substring test.
- `MessageFilter`: `should_forward_message`.
- `Cooldown`: `check_cooldown`.
- `Entities`: the handle stripping of `get_entity_by_name` and the resolution loops of `setup_monitoring`.
- `StatisticsStore`: `update_statistics`.
- `Configuration`: the configuration record and the defaults of its keys.
- `Monitor`: `setup_monitoring`, the refresh, `forward_message_to_group` and `handle_new_message`.
- `Traces`: runs over sequences of events, with the counter, invariant and refresh-rate properties and end-to-end scenarios.

Three behaviours of the code are easy to misread:

- A failed configuration load yields `{}`, and `{}` replaces the cached
  configuration. The previous record is not kept, so monitoring stops until a
  later refresh loads a working file (`Traces.FailedLoadSuspendsMonitoring`).
- When the loaded configuration has monitoring switched off, the monitored set
  is left as it was. It is not emptied. The stale set is never consulted,
  because the `monitoring_active` gate comes first
  (`Traces.InactiveIgnoresLookupAndTransport`).
- A message held back by the cooldown does not increase `keywords_triggered`.
  The cooldown gate comes before the trigger is counted
  (`Traces.ScenarioRepeatWithinCooldown`).

## Model

| member | source | states |
|---|---|---|
| Text.Lower | monitor.py:40-42 | `.lower()` on ASCII: same length, no upper-case ASCII letter remains, and every character that is not an upper-case ASCII letter is kept |
| Text.Contains | monitor.py:42 | Python's `needle in hay`: true exactly when the needle occurs at some position of the text; an empty needle occurs everywhere |
| MessageFilter.MatchesAny | monitor.py:41-44 | the loop over the keywords returns true exactly when some keyword, lower-cased, occurs in the lower-cased text |
| MessageFilter.ShouldForward | monitor.py:36-44 | false whenever the text or the keyword list is empty; for non-empty text, true exactly when some lower-cased keyword is a substring of the lower-cased text |
| MessageFilter.KeywordsAreAlternatives | monitor.py:41-44 | keywords are OR-ed: matching against `a + b` is matching against `a` or against `b` |
| MessageFilter.TextCaseIsIgnored | monitor.py:40 | lower-casing the text beforehand does not change the verdict |
| MessageFilter.KeywordCaseIsIgnored | monitor.py:42 | lower-casing every keyword beforehand does not change the verdict |
| MessageFilter.EmptyKeywordMatchesAnyText | monitor.py:37-43 | an empty keyword in a non-empty list matches every non-empty text |
| MessageFilter.NoWordBoundaries | monitor.py:42 | matching is plain substring search: "art" matches "party" |
| Cooldown.CheckCooldown | monitor.py:46-54 | a chat with no recorded forward is always allowed; otherwise allowed exactly when the elapsed seconds are at least 60 times the cooldown in minutes |
| Cooldown.ZeroCooldownAlwaysAllows | monitor.py:52-54 | a cooldown of 0 allows every message whose time is not before the recorded forward |
| Cooldown.CooldownExpiresForGood | monitor.py:52-54 | once a chat is allowed, it stays allowed at every later time |
| Cooldown.BlockedUntilCooldownElapses | monitor.py:50-54 | after a forward recorded at `at`, the chat is blocked exactly while the elapsed minutes are below the cooldown |
| Cooldown.OtherChatsUnaffected | monitor.py:47-50 | recording a forward for one chat does not change the verdict for any other chat |
| Entities.StripHandle | monitor.py:58-59 | a name starting with '@' loses exactly that one character; every other name is unchanged |
| Entities.StripHandleRemovesOneMarker | monitor.py:58-59 | stripping `"@" + n` gives back `n`, even when `n` itself starts with '@' |
| Entities.HandleMarkerIsOptional | monitor.py:56-64 | a name with or without its '@' marker resolves to the same entity, failures included |
| Entities.ResolveEntity | monitor.py:56-64 | `get_entity_by_name`: a name with a leading '@' is looked up without that one marker, any other name as it is; every failure comes back as `None`, never as an error |
| Entities.ResolveSources | monitor.py:112-117 | the ids collected from a channel or group list are exactly the ids its names resolve to; names that fail are left out, and there are never more ids than entries |
| Entities.UnresolvedSourcesAreSkipped | monitor.py:113-116 | appending an entry that fails to resolve changes nothing |
| StatisticsStore.UpdateStatistics | monitor.py:80-93 | an absent record counts as zeros; each counter rises by exactly one when its flag is set and stays put otherwise |
| StatisticsStore.TriggerThenForwardIsConsistent | monitor.py:162-167 | a trigger update followed by a forward update keeps `messages_forwarded <= keywords_triggered` |
| StatisticsStore.TriggerAloneIsConsistent | monitor.py:162-164 | a trigger update alone keeps `messages_forwarded <= keywords_triggered` |
| Configuration.Active | monitor.py:138 | monitoring is on exactly when `monitoring_active` is present and true; an absent key means off |
| Configuration.Keywords | monitor.py:148 | the `keywords` list when present, the empty list when absent |
| Configuration.CooldownMinutes | monitor.py:152 | the `cooldown` value when present, 2 minutes when absent |
| Configuration.Destination | monitor.py:157-158 | the destination counts as unset exactly when `destination_group` is absent or empty; otherwise it is the configured name |
| Configuration.Channels | monitor.py:112 | the `channels` entries when present, none when absent |
| Configuration.Groups | monitor.py:119 | the `groups` entries when present, none when absent |
| Configuration.EmptyConfigReadsAsDefaults | monitor.py:29-34 | the `{}` of a failed load reads as monitoring off, no keywords, a 2-minute cooldown, no destination and no channels or groups |
| Monitor.MonitoredIds | monitor.py:110-126 | the rebuilt monitored set is exactly the set of ids that some channel name or some group name resolves to |
| Monitor.SetupMonitoring | monitor.py:100-126 | the loaded record always replaces the current one; if it switches monitoring on, the monitored set becomes exactly the resolved channel and group ids, otherwise the set is untouched; cooldowns, counters and the refresh time are untouched |
| Monitor.Refresh | monitor.py:133-136 | when more than 30 seconds have passed since the last refresh, the configuration is reloaded, the set rebuilt and the refresh time set to now; otherwise nothing changes |
| Monitor.ForwardToGroup | monitor.py:66-78 | a destination that does not resolve is never sent to; otherwise the result is the transport's verdict |
| Monitor.DestinationMarkerIsOptional | monitor.py:66-71 | writing the destination with or without its '@' marker gives the same forward verdict |
| Monitor.ForwardDependsOnlyOnDestination | monitor.py:66-78 | two lookups that agree on the destination's bare name give the same forward verdict, so only the destination's resolution and the transport decide it |
| Monitor.Gate | monitor.py:138-160 | the chain of early returns lets an event through exactly when every gate is open; it stops at the inactive gate exactly when monitoring is off; a cooldown stop means the keywords matched, and a missing-destination stop means the cooldown had passed |
| Monitor.DefaultCooldownIsTwoMinutes | monitor.py:152-153 | with no `cooldown` key, a chat that has forwarded before is held back for 120 seconds |
| Monitor.HandleNewMessage | monitor.py:130-168 | refreshes exactly when stale; leaves the monitored set the refresh produced (rebuilt from an active loaded record, untouched otherwise); attempts a forward exactly when every gate is open; a closed gate leaves counters and cooldowns untouched; a failed forward adds one trigger only; a successful one adds one trigger and one forward and records the event time for the chat; keeps `messages_forwarded <= keywords_triggered` |
| Traces.ForwardsAtMostTriggers | monitor.py:162-167 | in any sequence of outcomes, the forwarded outcomes are no more than the triggering ones, because a forward is one of the triggering outcomes |
| Traces.ForwardGrowthAtMostTriggerGrowth | monitor.py:162-167 | along any run, `messages_forwarded` grows by no more than `keywords_triggered` does |
| Traces.CounterDeltas | monitor.py:162-167 | after a run, `keywords_triggered` has grown by the number of triggering events and `messages_forwarded` by the number of forwarded ones |
| Traces.ConsistencyPreserved | monitor.py:162-167 | `messages_forwarded <= keywords_triggered` holds after every run that starts from a state where it holds |
| Traces.ConsistentFromStart | monitor.py:83-93 | starting from the absent record, the invariant holds after any run |
| Traces.NoRefreshAfterWindowStart | monitor.py:133-136 | once the last refresh lies within a 30-second window, no event of that window refreshes again |
| Traces.AtMostOneRefreshPerWindow | monitor.py:133-136 | events that all fall within one 30-second window cause at most one configuration reload |
| Traces.FailedLoadSuspendsMonitoring | monitor.py:100-108 | a stale refresh whose load failed leaves the empty configuration in place, so the event is discarded as inactive; the monitored set and counters are unchanged |
| Traces.InactiveIgnoresLookupAndTransport | monitor.py:133-139 | while monitoring is off after the refresh, every event is discarded and the step does not depend on entity lookup or the transport |
| Text.MissingFirstCharacter | monitor.py:42 | helper for the scenario lemmas: a needle whose first character does not appear in the text is not a substring of it |
| Traces.ScenarioRepeatWithinCooldown | monitor.py:133-168 | the same urgent message twice, 30 seconds apart, with a 2-minute cooldown: the first is forwarded, the second is held back, the configuration is loaded once, and both counters end at 1 |
| Traces.ScenarioNoKeyword | monitor.py:148-150 | a message without any keyword is discarded, with no counter change and no forward |
| Traces.ScenarioUnresolvableGroupOmitted | monitor.py:110-126 | two resolvable channels and one unresolvable group give a monitored set of exactly the two channel ids |

## Left out

- The Telethon client is not modelled: connection, the sign-in flow (`start_client`), `client.get_entity` and `client.forward_messages`. Entity lookup and the transport's verdict are inputs of each step.
- File I/O and JSON parsing in `get_config_from_file` are not modelled. The loaded configuration is an input, and `EmptyConfig` stands for every load failure.
- Config values are typed fields. Non-boolean `monitoring_active`, non-list `keywords` and other JSON types with Python truthiness are not represented.
- A channel or group entry without a `name` key is not representable. In the source it raises `KeyError` out of `setup_monitoring`, and `last_config_check` is then not updated.
- StatisticsStore.UpdateStatistics: the counters start from the record kept in the engine. The source re-reads `config.json` instead. When that read fails, the source restarts both counters at zero and rewrites the file with only the statistics. That path, missing sub-keys and write failures are not modelled.
- The `statistics` section inside a loaded configuration is ignored, as `handle_new_message` never reads it from `current_config`.
- The `last_reset` ISO timestamp, `datetime.now()` and all logging are not modelled.
- `keep_alive`, `main` and `asyncio` scheduling are left out: they are process lifecycle and concurrency. Events are handled one at a time, and interleaving at the handler's `await` points is not modelled.
- Wall-clock time is whole seconds, not a float. One `now` per event stands for both reads of the clock (the handler's start and inside `check_cooldown`). The cooldown is a real number of minutes.
- `str.lower()` is modelled as ASCII case folding only. Non-ASCII letters keep their case.
- A message without text (`None` in Telethon) is the empty string.
- The model assumes the id an entity resolves to is the same identifier an incoming event carries as its chat id, because the source compares `event.chat_id` with `entity.id`. Telethon's id-marking conventions are outside this model.
