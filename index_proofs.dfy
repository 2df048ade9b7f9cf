/** Which keys `Index` places in which secondary-index bucket. */
module IndexProofs {
  import opened Ids
  import opened Wrappers
  import opened Data
  import Indicies
  import opened PersistenceProofs

  /**
   * The complete bucket assignment: `Children` holds current and outdated children,
   * `Dependencies` current and outdated output and cell dependencies, each other bucket one
   * kind of its own name, and every remaining kind is reached by direct lookup only.
   */
  lemma IndexByKind(key: CachedDataItemKey)
    ensures Index(key) == Some(CachedDataItemIndex.Children)
        <==> KeyKind(key) in {Kind.Child, Kind.OutdatedChild}
    ensures Index(key) == Some(CachedDataItemIndex.Dependencies)
        <==> KeyKind(key) in {Kind.OutputDependency, Kind.CellDependency,
                              Kind.OutdatedOutputDependency, Kind.OutdatedCellDependency}
    ensures Index(key) == Some(CachedDataItemIndex.Follower) <==> KeyKind(key) == Kind.Follower
    ensures Index(key) == Some(CachedDataItemIndex.Upper) <==> KeyKind(key) == Kind.Upper
    ensures Index(key) == Some(CachedDataItemIndex.AggregatedDirtyContainer)
        <==> KeyKind(key) == Kind.AggregatedDirtyContainer
    ensures Index(key) == Some(CachedDataItemIndex.CellData) <==> KeyKind(key) == Kind.CellData
    ensures Index(key) == Some(CachedDataItemIndex.CellTypeMaxIndex)
        <==> KeyKind(key) == Kind.CellTypeMaxIndex
    ensures Index(key) == Some(CachedDataItemIndex.CellDependent) <==> KeyKind(key) == Kind.CellDependent
    ensures Index(key) == Some(CachedDataItemIndex.OutputDependent)
        <==> KeyKind(key) == Kind.OutputDependent
    ensures Index(key) == None
        <==> KeyKind(key) in {Kind.Output, Kind.Collectible, Kind.Dirty, Kind.DirtyWhenPersisted,
                              Kind.CollectiblesDependency, Kind.CollectiblesDependent,
                              Kind.AggregationNumber, Kind.AggregatedCollectible,
                              Kind.AggregatedDirtyContainerCount, Kind.AggregateRoot,
                              Kind.InProgress, Kind.InProgressCell, Kind.OutdatedCollectible,
                              Kind.Error}
  {
  }

  /** The bucket of a key is decided by its kind alone, never by the tasks or cells in it. */
  lemma IndexDependsOnlyOnKind(a: CachedDataItemKey, b: CachedDataItemKey)
    requires KeyKind(a) == KeyKind(b)
    ensures Index(a) == Index(b)
  {
  }

  /**
   * An outdated child or dependency edge is enumerated in the same bucket as the live edge it
   * stages; an outdated collectible, like a live one, is unindexed.
   */
  lemma OutdatedSharesBucket(t: TaskId, c: CellRef)
    ensures Index(CachedDataItemKey.OutdatedChild(t)) == Index(CachedDataItemKey.Child(t))
    ensures Index(CachedDataItemKey.OutdatedOutputDependency(t))
        == Index(CachedDataItemKey.OutputDependency(t))
    ensures Index(CachedDataItemKey.OutdatedCellDependency(c))
        == Index(CachedDataItemKey.CellDependency(c))
    ensures Index(CachedDataItemKey.OutdatedCollectible(c))
        == Index(CachedDataItemKey.Collectible(c))
  {
  }

  /** Every bucket is used: some key is enumerated under it. */
  lemma EveryBucketUsed(bucket: CachedDataItemIndex)
    ensures exists key :: Index(key) == Some(bucket)
  {
    var t := TaskId(0, false);
    var c := CellId(0);
    match bucket
    case Children => assert Index(CachedDataItemKey.Child(t)) == Some(bucket);
    case Follower => assert Index(CachedDataItemKey.Follower(t)) == Some(bucket);
    case Upper => assert Index(CachedDataItemKey.Upper(t)) == Some(bucket);
    case AggregatedDirtyContainer =>
      assert Index(CachedDataItemKey.AggregatedDirtyContainer(t)) == Some(bucket);
    case CellData => assert Index(CachedDataItemKey.CellData(c)) == Some(bucket);
    case CellTypeMaxIndex =>
      assert Index(CachedDataItemKey.CellTypeMaxIndex(ValueTypeId(0))) == Some(bucket);
    case CellDependent => assert Index(CachedDataItemKey.CellDependent(c, t)) == Some(bucket);
    case OutputDependent => assert Index(CachedDataItemKey.OutputDependent(t)) == Some(bucket);
    case Dependencies => assert Index(CachedDataItemKey.OutputDependency(t)) == Some(bucket);
  }

  /** The named `indicies` constants restate the bucket `Index` gives each indexed kind. */
  lemma IndiciesAgreeWithIndex(key: CachedDataItemKey)
    ensures KeyKind(key) == Kind.Child ==> Index(key) == Some(Indicies.Child)
    ensures KeyKind(key) == Kind.OutdatedChild ==> Index(key) == Some(Indicies.OutdatedChild)
    ensures KeyKind(key) == Kind.Follower ==> Index(key) == Some(Indicies.Follower)
    ensures KeyKind(key) == Kind.Upper ==> Index(key) == Some(Indicies.Upper)
    ensures KeyKind(key) == Kind.AggregatedDirtyContainer
        ==> Index(key) == Some(Indicies.AggregatedDirtyContainer)
    ensures KeyKind(key) == Kind.CellData ==> Index(key) == Some(Indicies.CellData)
    ensures KeyKind(key) == Kind.CellTypeMaxIndex ==> Index(key) == Some(Indicies.CellTypeMaxIndex)
    ensures KeyKind(key) == Kind.CellDependent ==> Index(key) == Some(Indicies.CellDependent)
    ensures KeyKind(key) == Kind.OutputDependent ==> Index(key) == Some(Indicies.OutputDependent)
    ensures KeyKind(key) == Kind.OutputDependency ==> Index(key) == Some(Indicies.OutputDependency)
    ensures KeyKind(key) == Kind.CellDependency ==> Index(key) == Some(Indicies.CellDependency)
    ensures KeyKind(key) == Kind.OutdatedOutputDependency
        ==> Index(key) == Some(Indicies.OutdatedOutputDependency)
    ensures KeyKind(key) == Kind.OutdatedCellDependency
        ==> Index(key) == Some(Indicies.OutdatedCellDependency)
  {
  }

  /**
   * The only indexed keys of a transient-only kind are the outdated edges, which the
   * reconciliation of a re-execution scans next to the live edges of the same bucket.
   */
  lemma IndexedTransientOnlyKeysAreOutdatedEdges(key: CachedDataItemKey)
    requires Index(key).Some? && TransientOnly(KeyKind(key))
    ensures KeyKind(key) in {Kind.OutdatedChild, Kind.OutdatedOutputDependency,
                             Kind.OutdatedCellDependency}
  {
  }
}
