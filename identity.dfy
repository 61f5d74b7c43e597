/** The identifier of an event type: its entity type and bundle joined by a dot. */
module Identity {
  import opened Host

  /** The id of the event type bound to (entityType, bundle). No part is
      checked for being empty or for holding a dot. */
  function JoinId(entityType: EntityTypeId, bundle: BundleId): (id: string)
    ensures |id| == |entityType| + 1 + |bundle|
    ensures id[..|entityType|] == entityType
    ensures id[|entityType|] == '.'
    ensures id[|entityType| + 1..] == bundle
  {
    entityType + "." + bundle
  }

  /** The position of the first dot in s, if there is one. */
  function FirstDot(s: string): (r: Option<nat>)
    ensures r.None? <==> '.' !in s
    ensures r.Some? ==> r.value < |s| && s[r.value] == '.' && '.' !in s[..r.value]
  {
    if s == [] then None
    else if s[0] == '.' then Some(0)
    else
      match FirstDot(s[1..])
      case None => None
      case Some(k) =>
        assert s[..k + 1] == [s[0]] + s[1..][..k];
        Some(k + 1)
  }

  /** Reads an id back as (entity type, bundle), cutting at its first dot. */
  function SplitId(id: string): (r: Option<EventTypeKey>)
  {
    match FirstDot(id)
    case None => None
    case Some(k) => Some((id[..k], id[k + 1..]))
  }

  /** An entity type id without a dot is recovered from the id together with the bundle. */
  lemma SplitJoin(entityType: EntityTypeId, bundle: BundleId)
    requires '.' !in entityType
    ensures SplitId(JoinId(entityType, bundle)) == Some((entityType, bundle))
  {
  }

  /** Every id that splits is the join of its parts, and its entity type part has no dot. */
  lemma JoinSplit(id: string)
    requires SplitId(id).Some?
    ensures '.' !in SplitId(id).value.0
    ensures JoinId(SplitId(id).value.0, SplitId(id).value.1) == id
  {
  }

  /** Over entity type ids without dots, the id determines the pair. */
  lemma JoinIdInjective(entityType1: EntityTypeId, bundle1: BundleId, entityType2: EntityTypeId, bundle2: BundleId)
    requires '.' !in entityType1 && '.' !in entityType2
    requires JoinId(entityType1, bundle1) == JoinId(entityType2, bundle2)
    ensures entityType1 == entityType2 && bundle1 == bundle2
  {
  }

  /** Without that restriction two different pairs share an id. */
  lemma JoinIdCollides()
    ensures ("a.b", "c") != ("a", "b.c")
    ensures JoinId("a.b", "c") == JoinId("a", "b.c")
  {
  }
}
