/**
 * The usage counters kept under the `statistics` key of the configuration
 * record, and the read-modify-write of `update_statistics` as a pure update.
 */
module StatisticsStore {
  import opened Wrappers

  datatype Statistics = Statistics(messagesForwarded: nat, keywordsTriggered: nat)

  /** The counters of a possibly absent record: an absent record counts as all zeros. */
  function Counters(stored: Option<Statistics>): Statistics {
    stored.GetOr(Statistics(0, 0))
  }

  /** A forward needs a prior trigger, so there are never more forwards than triggers. */
  predicate Consistent(stored: Option<Statistics>) {
    Counters(stored).messagesForwarded <= Counters(stored).keywordsTriggered
  }

  /** `update_statistics(forwarded, keyword_triggered)`: each requested counter goes up by one, the others stay. */
  function UpdateStatistics(stored: Option<Statistics>, forwarded: bool, triggered: bool): (r: Statistics)
    ensures Counters(stored).messagesForwarded <= r.messagesForwarded <= Counters(stored).messagesForwarded + 1
    ensures Counters(stored).keywordsTriggered <= r.keywordsTriggered <= Counters(stored).keywordsTriggered + 1
    ensures forwarded <==> r.messagesForwarded != Counters(stored).messagesForwarded
    ensures triggered <==> r.keywordsTriggered != Counters(stored).keywordsTriggered
  {
    var base := Counters(stored);
    Statistics(
      base.messagesForwarded + (if forwarded then 1 else 0),
      base.keywordsTriggered + (if triggered then 1 else 0))
  }

  /** A trigger update followed by a forward update, as a successful dispatch does, keeps the counters consistent. */
  lemma TriggerThenForwardIsConsistent(stored: Option<Statistics>)
    requires Consistent(stored)
    ensures Consistent(Some(UpdateStatistics(Some(UpdateStatistics(stored, false, true)), true, false)))
  {
  }

  /** A trigger update alone, as a failed dispatch does, keeps the counters consistent. */
  lemma TriggerAloneIsConsistent(stored: Option<Statistics>)
    requires Consistent(stored)
    ensures Consistent(Some(UpdateStatistics(stored, false, true)))
  {
  }
}
