/**
 * The configuration record the monitor loads from `config.json`. Every key
 * may be absent; the accessors apply the defaults the monitor uses when it
 * reads a key with `dict.get`. A failed load yields `EmptyConfig`.
 */
module Configuration {
  import opened Wrappers
  import opened Entities

  datatype Config = Config(
    monitoringActive: Option<bool>,
    keywords: Option<seq<string>>,
    cooldown: Option<real>,          // minutes
    destinationGroup: Option<string>,
    channels: Option<seq<Source>>,
    groups: Option<seq<Source>>)

  /** The `{}` that `get_config_from_file` returns when the file is missing or unreadable. */
  const EmptyConfig := Config(None, None, None, None, None, None)

  /** `monitoring_active`, false when absent. */
  function Active(c: Config): (on: bool)
    ensures on <==> c.monitoringActive == Some(true)
  {
    c.monitoringActive.GetOr(false)
  }

  /** `keywords`, empty when absent. */
  function Keywords(c: Config): (ks: seq<string>)
    ensures c.keywords.None? ==> ks == []
    ensures c.keywords.Some? ==> ks == c.keywords.value
  {
    c.keywords.GetOr([])
  }

  /** `cooldown` in minutes, 2 when absent. */
  function CooldownMinutes(c: Config): (minutes: real)
    ensures c.cooldown.None? ==> minutes == 2.0
    ensures c.cooldown.Some? ==> minutes == c.cooldown.value
  {
    c.cooldown.GetOr(2.0)
  }

  /** `destination_group`; an absent key and an empty name are both "unset". */
  function Destination(c: Config): (name: string)
    ensures name == "" <==> c.destinationGroup.None? || c.destinationGroup == Some("")
    ensures c.destinationGroup.Some? ==> name == c.destinationGroup.value
  {
    c.destinationGroup.GetOr("")
  }

  /** `channels`, empty when absent. */
  function Channels(c: Config): (sources: seq<Source>)
    ensures c.channels.None? ==> sources == []
    ensures c.channels.Some? ==> sources == c.channels.value
  {
    c.channels.GetOr([])
  }

  /** `groups`, empty when absent. */
  function Groups(c: Config): (sources: seq<Source>)
    ensures c.groups.None? ==> sources == []
    ensures c.groups.Some? ==> sources == c.groups.value
  {
    c.groups.GetOr([])
  }

  /**
   * The empty record reads as all defaults: monitoring off, no keywords, a
   * two-minute cooldown, no destination, and nothing to watch.
   */
  lemma EmptyConfigReadsAsDefaults()
    ensures !Active(EmptyConfig)
    ensures Keywords(EmptyConfig) == []
    ensures CooldownMinutes(EmptyConfig) == 2.0
    ensures Destination(EmptyConfig) == ""
    ensures Channels(EmptyConfig) == [] && Groups(EmptyConfig) == []
  {
  }
}
