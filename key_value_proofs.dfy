/** The derived key/value split of `CachedDataItem` is a bijection onto same-kind pairs. */
module KeyValueProofs {
  import opened Wrappers
  import opened Data

  /** The kind of a value is its variant tag. */
  lemma ValueKindIsTag(value: CachedDataItemValue)
    ensures ValueKind(value) == Kind.Output <==> value.Output?
    ensures ValueKind(value) == Kind.Collectible <==> value.Collectible?
    ensures ValueKind(value) == Kind.Dirty <==> value.Dirty?
    ensures ValueKind(value) == Kind.DirtyWhenPersisted <==> value.DirtyWhenPersisted?
    ensures ValueKind(value) == Kind.Child <==> value.Child?
    ensures ValueKind(value) == Kind.CellData <==> value.CellData?
    ensures ValueKind(value) == Kind.CellTypeMaxIndex <==> value.CellTypeMaxIndex?
    ensures ValueKind(value) == Kind.OutputDependency <==> value.OutputDependency?
    ensures ValueKind(value) == Kind.CellDependency <==> value.CellDependency?
    ensures ValueKind(value) == Kind.CollectiblesDependency <==> value.CollectiblesDependency?
    ensures ValueKind(value) == Kind.OutputDependent <==> value.OutputDependent?
    ensures ValueKind(value) == Kind.CellDependent <==> value.CellDependent?
    ensures ValueKind(value) == Kind.CollectiblesDependent <==> value.CollectiblesDependent?
    ensures ValueKind(value) == Kind.AggregationNumber <==> value.AggregationNumber?
    ensures ValueKind(value) == Kind.Follower <==> value.Follower?
    ensures ValueKind(value) == Kind.Upper <==> value.Upper?
    ensures ValueKind(value) == Kind.AggregatedDirtyContainer <==> value.AggregatedDirtyContainer?
    ensures ValueKind(value) == Kind.AggregatedCollectible <==> value.AggregatedCollectible?
    ensures ValueKind(value) == Kind.AggregatedDirtyContainerCount <==> value.AggregatedDirtyContainerCount?
    ensures ValueKind(value) == Kind.AggregateRoot <==> value.AggregateRoot?
    ensures ValueKind(value) == Kind.InProgress <==> value.InProgress?
    ensures ValueKind(value) == Kind.InProgressCell <==> value.InProgressCell?
    ensures ValueKind(value) == Kind.OutdatedCollectible <==> value.OutdatedCollectible?
    ensures ValueKind(value) == Kind.OutdatedOutputDependency <==> value.OutdatedOutputDependency?
    ensures ValueKind(value) == Kind.OutdatedCellDependency <==> value.OutdatedCellDependency?
    ensures ValueKind(value) == Kind.OutdatedChild <==> value.OutdatedChild?
    ensures ValueKind(value) == Kind.Error <==> value.Error?
  {
  }

  /** A key and a value reassemble into a record exactly when they are of one kind. */
  lemma FromKeyAndValueDefinedIffSameKind(key: CachedDataItemKey, value: CachedDataItemValue)
    ensures FromKeyAndValue(key, value).Some? <==> KeyKind(key) == ValueKind(value)
  {
    if FromKeyAndValue(key, value).Some? {
      FromKeyAndValueSplitsBack(key, value);
    } else {
      ValueKindIsTag(value);
      match key
      case Output =>
      case Collectible(_) =>
      case Dirty =>
      case DirtyWhenPersisted =>
      case Child(_) =>
      case CellData(_) =>
      case CellTypeMaxIndex(_) =>
      case OutputDependency(_) =>
      case CellDependency(_) =>
      case CollectiblesDependency(_) =>
      case OutputDependent(_) =>
      case CellDependent(_, _) =>
      case CollectiblesDependent(_, _) =>
      case AggregationNumber =>
      case Follower(_) =>
      case Upper(_) =>
      case AggregatedDirtyContainer(_) =>
      case AggregatedCollectible(_) =>
      case AggregatedDirtyContainerCount =>
      case AggregateRoot =>
      case InProgress =>
      case InProgressCell(_) =>
      case OutdatedCollectible(_) =>
      case OutdatedOutputDependency(_) =>
      case OutdatedCellDependency(_) =>
      case OutdatedChild(_) =>
      case Error =>
    }
  }

  /** A reassembled record splits back into the key and the value it was built from. */
  lemma FromKeyAndValueSplitsBack(key: CachedDataItemKey, value: CachedDataItemValue)
    requires FromKeyAndValue(key, value).Some?
    ensures KeyOf(FromKeyAndValue(key, value).value) == key
    ensures ValueOf(FromKeyAndValue(key, value).value) == value
  {
    match key
    case Output =>
    case Collectible(_) =>
    case Dirty =>
    case DirtyWhenPersisted =>
    case Child(_) =>
    case CellData(_) =>
    case CellTypeMaxIndex(_) =>
    case OutputDependency(_) =>
    case CellDependency(_) =>
    case CollectiblesDependency(_) =>
    case OutputDependent(_) =>
    case CellDependent(_, _) =>
    case CollectiblesDependent(_, _) =>
    case AggregationNumber =>
    case Follower(_) =>
    case Upper(_) =>
    case AggregatedDirtyContainer(_) =>
    case AggregatedCollectible(_) =>
    case AggregatedDirtyContainerCount =>
    case AggregateRoot =>
    case InProgress =>
    case InProgressCell(_) =>
    case OutdatedCollectible(_) =>
    case OutdatedOutputDependency(_) =>
    case OutdatedCellDependency(_) =>
    case OutdatedChild(_) =>
    case Error =>
  }

  /** Splitting a record and reassembling the halves gives the record back. */
  lemma KeyValueRoundTrip(item: CachedDataItem)
    ensures FromKeyAndValue(KeyOf(item), ValueOf(item)) == Some(item)
  {
    match item
    case Output(_) =>
    case Collectible(_) =>
    case Dirty =>
    case DirtyWhenPersisted =>
    case Child(_) =>
    case CellData(_, _) =>
    case CellTypeMaxIndex(_, _) =>
    case OutputDependency(_) =>
    case CellDependency(_) =>
    case CollectiblesDependency(_) =>
    case OutputDependent(_) =>
    case CellDependent(_, _) =>
    case CollectiblesDependent(_, _) =>
    case AggregationNumber(_) =>
    case Follower(_, _) =>
    case Upper(_, _) =>
    case AggregatedDirtyContainer(_, _) =>
    case AggregatedCollectible(_, _) =>
    case AggregatedDirtyContainerCount(_) =>
    case AggregateRoot(_) =>
    case InProgress(_) =>
    case InProgressCell(_, _) =>
    case OutdatedCollectible(_) =>
    case OutdatedOutputDependency(_) =>
    case OutdatedCellDependency(_) =>
    case OutdatedChild(_) =>
    case Error(_) =>
  }

  /** A record is determined by its key and its value. */
  lemma KeyAndValueDetermineItem(a: CachedDataItem, b: CachedDataItem)
    requires KeyOf(a) == KeyOf(b) && ValueOf(a) == ValueOf(b)
    ensures a == b
  {
    KeyValueRoundTrip(a);
    KeyValueRoundTrip(b);
  }
}
