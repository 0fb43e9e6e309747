/**
 * Entity resolution (`get_entity_by_name`) and the monitored-set build of
 * `setup_monitoring`. The platform lookup is a parameter: a total function
 * from a bare name to an entity id, `None` standing for every failure the
 * source catches (not found, network error, rate limit).
 */
module Entities {
  import opened Wrappers

  type EntityId = int

  /** The platform client's `get_entity`, with its exceptions mapped to `None`. */
  type Lookup = string -> Option<EntityId>

  /** One entry of the `channels` or `groups` object: an opaque tag and the name to resolve. */
  datatype Source = Source(tag: string, name: string)

  /** Removes one leading '@' handle marker, if there is one. */
  function StripHandle(name: string): (bare: string)
    ensures |name| > 0 && name[0] == '@' ==> name == "@" + bare
    ensures (|name| == 0 || name[0] != '@') ==> bare == name
  {
    if |name| > 0 && name[0] == '@' then name[1..] else name
  }

  /** Exactly one marker is removed: `@@x` becomes `@x`. */
  lemma StripHandleRemovesOneMarker(bare: string)
    ensures StripHandle("@" + bare) == bare
  {
  }

  /** `get_entity_by_name(name)`: the id of the entity, or `None`. */
  function ResolveEntity(lookup: Lookup, name: string): (r: Option<EntityId>)
    ensures |name| > 0 && name[0] == '@' ==> r == lookup(name[1..])
    ensures (|name| == 0 || name[0] != '@') ==> r == lookup(name)
  {
    lookup(StripHandle(name))
  }

  /** A name with or without its '@' marker resolves to the same entity. */
  lemma HandleMarkerIsOptional(lookup: Lookup, bare: string)
    requires bare == "" || bare[0] != '@'
    ensures ResolveEntity(lookup, "@" + bare) == ResolveEntity(lookup, bare)
  {
    StripHandleRemovesOneMarker(bare);
  }

  /** Some entry of `sources` resolves to `id`. */
  ghost predicate ResolvesTo(sources: seq<Source>, lookup: Lookup, id: EntityId) {
    exists i :: 0 <= i < |sources| && ResolveEntity(lookup, sources[i].name) == Some(id)
  }

  /** One `for tag, data in ....items()` loop of `setup_monitoring`: the ids of the entries that resolve. */
  function ResolveSources(sources: seq<Source>, lookup: Lookup): (ids: set<EntityId>)
    ensures forall id :: id in ids <==> ResolvesTo(sources, lookup, id)
    ensures |ids| <= |sources|
  {
    if sources == [] then
      {}
    else
      var rest := ResolveSources(sources[1..], lookup);
      assert forall i :: 1 <= i < |sources| ==> sources[1..][i - 1] == sources[i];
      match ResolveEntity(lookup, sources[0].name)
      case Some(id) =>
        assert ResolveEntity(lookup, sources[0].name) == Some(id);
        {id} + rest
      case None =>
        rest
  }

  /** Entries that fail to resolve are dropped without affecting the others. */
  lemma UnresolvedSourcesAreSkipped(sources: seq<Source>, failed: Source, lookup: Lookup)
    requires ResolveEntity(lookup, failed.name) == None
    ensures ResolveSources(sources + [failed], lookup) == ResolveSources(sources, lookup)
  {
    var s := sources + [failed];
    forall id
      ensures id in ResolveSources(s, lookup) <==> id in ResolveSources(sources, lookup)
    {
      if ResolvesTo(s, lookup, id) {
        var i :| 0 <= i < |s| && ResolveEntity(lookup, s[i].name) == Some(id);
        assert i < |sources| && s[i] == sources[i];
      }
      if ResolvesTo(sources, lookup, id) {
        var i :| 0 <= i < |sources| && ResolveEntity(lookup, sources[i].name) == Some(id);
        assert s[i] == sources[i];
      }
    }
  }
}
