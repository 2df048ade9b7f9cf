/**
 * What the three persistability checks of data.rs decide, stated against an independent
 * description: a record may be stored durably when its kind is not one of the transient-only
 * kinds and no task it refers to is transient.
 */
module PersistenceProofs {
  import opened Ids
  import opened Data

  /** The kinds that describe in-flight or staging state and are never stored durably. */
  predicate TransientOnly(kind: Kind)
  {
    kind in {Kind.AggregateRoot, Kind.InProgress, Kind.InProgressCell, Kind.OutdatedCollectible,
             Kind.OutdatedOutputDependency, Kind.OutdatedCellDependency, Kind.OutdatedChild,
             Kind.Error}
  }

  /** The tasks an output value refers to. */
  function OutputTasks(o: OutputValue): set<TaskId>
  {
    match o
    case Cell(c) => {c.task}
    case Output(t) => {t}
    case _ => {}
  }

  /** The tasks a key refers to, directly or through a cell or collectibles reference. */
  function KeyTasks(key: CachedDataItemKey): set<TaskId>
  {
    match key
    case Collectible(c) => {c.task}
    case Child(t) => {t}
    case OutputDependency(t) => {t}
    case CellDependency(c) => {c.task}
    case CollectiblesDependency(c) => {c.task}
    case OutputDependent(t) => {t}
    case CellDependent(_, t) => {t}
    case CollectiblesDependent(_, t) => {t}
    case Follower(t) => {t}
    case Upper(t) => {t}
    case AggregatedDirtyContainer(t) => {t}
    case AggregatedCollectible(c) => {c.task}
    case OutdatedCollectible(c) => {c.task}
    case OutdatedOutputDependency(t) => {t}
    case OutdatedCellDependency(c) => {c.task}
    case OutdatedChild(t) => {t}
    case _ => {}
  }

  /** The tasks a value refers to; only an output value refers to any. */
  function ValueTasks(value: CachedDataItemValue): set<TaskId>
  {
    match value
    case Output(o) => OutputTasks(o)
    case _ => {}
  }

  predicate NoTransientTask(tasks: set<TaskId>)
  {
    forall t :: t in tasks ==> !t.transient
  }

  /** An output value is transient exactly when it refers to a transient task. */
  lemma OutputTransienceByReferences(o: OutputValue)
    ensures OutputIsTransient(o) <==> exists t :: t in OutputTasks(o) && t.transient
  {
    match o
    case Cell(c) =>
      assert c.task in OutputTasks(o);
    case Output(t) =>
      assert t in OutputTasks(o);
    case Error =>
    case Panic =>
  }

  /**
   * A key is persistent exactly when its kind is not transient-only and none of the tasks
   * it refers to is transient: the store can decide durability from the key alone.
   */
  lemma KeyPersistenceByReferences(key: CachedDataItemKey)
    ensures KeyIsPersistent(key) <==> !TransientOnly(KeyKind(key)) && NoTransientTask(KeyTasks(key))
  {
    match key
    case Output =>
    case Collectible(c) => assert c.task in KeyTasks(key);
    case Dirty =>
    case DirtyWhenPersisted =>
    case Child(t) => assert t in KeyTasks(key);
    case CellData(_) =>
    case CellTypeMaxIndex(_) =>
    case OutputDependency(t) => assert t in KeyTasks(key);
    case CellDependency(c) => assert c.task in KeyTasks(key);
    case CollectiblesDependency(c) => assert c.task in KeyTasks(key);
    case OutputDependent(t) => assert t in KeyTasks(key);
    case CellDependent(_, t) => assert t in KeyTasks(key);
    case CollectiblesDependent(_, t) => assert t in KeyTasks(key);
    case AggregationNumber =>
    case Follower(t) => assert t in KeyTasks(key);
    case Upper(t) => assert t in KeyTasks(key);
    case AggregatedDirtyContainer(t) => assert t in KeyTasks(key);
    case AggregatedCollectible(c) => assert c.task in KeyTasks(key);
    case AggregatedDirtyContainerCount =>
    case AggregateRoot =>
    case InProgress =>
    case InProgressCell(_) =>
    case OutdatedCollectible(_) =>
    case OutdatedOutputDependency(_) =>
    case OutdatedCellDependency(_) =>
    case OutdatedChild(_) =>
    case Error =>
  }

  /** A value is persistent exactly when it refers to no transient task. */
  lemma ValuePersistenceByReferences(value: CachedDataItemValue)
    ensures ValueIsPersistent(value) <==> NoTransientTask(ValueTasks(value))
  {
    if value.Output? {
      OutputTransienceByReferences(value.output);
    }
  }

  /** The `Output` key is persistent; the `Output` value is persistent unless it is transient. */
  lemma OutputKeyAndValuePersistence(o: OutputValue)
    ensures KeyIsPersistent(CachedDataItemKey.Output)
    ensures ValueIsPersistent(CachedDataItemValue.Output(o)) == !OutputIsTransient(o)
  {
  }

  /** Every value other than an output value is persistent. */
  lemma NonOutputValuesPersistent(value: CachedDataItemValue)
    requires !value.Output?
    ensures ValueIsPersistent(value)
  {
  }

  /**
   * Outside `Output`, the item-level check as written agrees with the key-level check on the
   * record's key, so durability never depends on a value there.
   */
  lemma ItemAgreesWithKeyExceptOutput(item: CachedDataItem)
    requires !item.Output?
    ensures ItemIsPersistentAsWritten(item) == KeyIsPersistent(KeyOf(item))
    ensures ItemIsPersistent(item) == KeyIsPersistent(KeyOf(item))
  {
    match item
    case Collectible(_) =>
    case Dirty =>
    case DirtyWhenPersisted =>
    case Child(_) =>
    case CellData(_, _) =>
    case CellTypeMaxIndex(_, _) =>
    case OutputDependency(_) =>
    case CellDependency(_) =>
    case CollectiblesDependency(_) =>
    case OutputDependent(_) =>
    case CellDependent(_, _) =>
    case CollectiblesDependent(_, _) =>
    case AggregationNumber(_) =>
    case Follower(_, _) =>
    case Upper(_, _) =>
    case AggregatedDirtyContainer(_, _) =>
    case AggregatedCollectible(_, _) =>
    case AggregatedDirtyContainerCount(_) =>
    case AggregateRoot(_) =>
    case InProgress(_) =>
    case InProgressCell(_, _) =>
    case OutdatedCollectible(_) =>
    case OutdatedOutputDependency(_) =>
    case OutdatedCellDependency(_) =>
    case OutdatedChild(_) =>
    case Error(_) =>
  }

  /** Records of a transient-only kind are never persistent, whatever tasks they refer to. */
  lemma TransientOnlyNeverPersistent(item: CachedDataItem)
    requires TransientOnly(ItemKind(item))
    ensures !ItemIsPersistentAsWritten(item) && !ItemIsPersistent(item)
    ensures !KeyIsPersistent(KeyOf(item))
  {
    KeyPersistenceByReferences(KeyOf(item));
    ItemAgreesWithKeyExceptOutput(item);
  }

  /**
   * As written, the item-level check on an `Output` record answers the negation of the
   * value-level check on its value.
   */
  lemma AsWrittenOutputNegatesValue(o: OutputValue)
    ensures ItemIsPersistentAsWritten(CachedDataItem.Output(o))
        == !ValueIsPersistent(ValueOf(CachedDataItem.Output(o)))
  {
  }

  /**
   * The inputs that show the inverted `Output` arm: an output delegating to a transient task
   * is declared persistent, and an error output of a persistent task is declared transient.
   */
  lemma AsWrittenOutputMisclassified(t: TaskId)
    requires t.transient
    ensures ItemIsPersistentAsWritten(CachedDataItem.Output(OutputValue.Output(t)))
    ensures !ValueIsPersistent(CachedDataItemValue.Output(OutputValue.Output(t)))
    ensures !ItemIsPersistentAsWritten(CachedDataItem.Output(OutputValue.Error))
    ensures KeyIsPersistent(CachedDataItemKey.Output)
    ensures ValueIsPersistent(CachedDataItemValue.Output(OutputValue.Error))
  {
  }

  /** A record is persistent exactly when both its key and its value are. */
  lemma ItemPersistentIffKeyAndValue(item: CachedDataItem)
    ensures ItemIsPersistent(item) == (KeyIsPersistent(KeyOf(item)) && ValueIsPersistent(ValueOf(item)))
  {
    if !item.Output? {
      ItemAgreesWithKeyExceptOutput(item);
    }
  }

  /**
   * A record is persistent exactly when its kind is not transient-only and no task it refers
   * to, through its key or its value, is transient.
   */
  lemma ItemPersistenceByReferences(item: CachedDataItem)
    ensures ItemIsPersistent(item) <==>
      !TransientOnly(ItemKind(item))
      && NoTransientTask(KeyTasks(KeyOf(item)) + ValueTasks(ValueOf(item)))
  {
    ItemPersistentIffKeyAndValue(item);
    KeyPersistenceByReferences(KeyOf(item));
    ValuePersistenceByReferences(ValueOf(item));
  }

  /** The corrected check differs from the one as written only on `Output` records. */
  lemma CorrectionOnlyAffectsOutput(item: CachedDataItem)
    ensures ItemIsPersistent(item) != ItemIsPersistentAsWritten(item) <==> item.Output?
  {
  }

  /**
   * The records that cannot be duplicated are lifecycle records: never stored durably and
   * reachable only by their key.
   */
  lemma NonCloneableRecordsAreTransient(item: CachedDataItem)
    requires CloneItem(item).Failure?
    ensures TransientOnly(ItemKind(item))
    ensures !ItemIsPersistent(item) && !KeyIsPersistent(KeyOf(item))
  {
    TransientOnlyNeverPersistent(item);
  }
}
