/**
 * The per-task record schema of the turbo-tasks backend cache
 * (turbopack/crates/turbo-tasks-backend/src/data.rs): the closed set of records a task can
 * hold, their split into a key and a value, whether each record may be durably stored,
 * which secondary-index bucket each key belongs to, and the lifecycle records that must
 * never be duplicated.
 */
module Data {
  import opened Ids
  import opened Wrappers

  /** Rust `u32`: used only as stored data, so no arithmetic is modelled on it. */
  newtype u32 = x: int | 0 <= x < 0x1_0000_0000

  /** Rust `i32`: the signed aggregation counts, also stored but never computed here. */
  newtype i32 = x: int | -0x8000_0000 <= x < 0x8000_0000

  /** A cell of some task. */
  datatype CellRef = CellRef(task: TaskId, cell: CellId)

  /** The collectibles of one value type emitted below some task. */
  datatype CollectiblesRef = CollectiblesRef(task: TaskId, collectibleType: ValueTypeId)

  /** The result of a task: a cell, another task's output, or a failure. */
  datatype OutputValue =
    | Cell(cellRef: CellRef)
    | Output(outputTask: TaskId)
    | Error
    | Panic

  /** `OutputValue::is_transient`: the output points into a transient task. */
  predicate OutputIsTransient(o: OutputValue)
    ensures OutputIsTransient(o) ==> o.Cell? || o.Output?
  {
    match o
    case Cell(c) => c.task.transient
    case Output(t) => t.transient
    case Error => false
    case Panic => false
  }

  /** Why a task is kept active. */
  datatype ActiveType = RootTask | OnceTask | CachedActiveUntilClean

  /** Root activity state; owns the event fired when the whole subgraph becomes clean. */
  datatype RootState = RootState(ty: ActiveType, allCleanEvent: Event)

  /** Execution state of a task; each state owns the event fired when the run is done. */
  datatype InProgressState =
    | Scheduled(doneEvent: Event)
    | InProgress(stale: bool, onceTask: bool, doneEvent: Event)

  /** Recomputation state of one cell; owns the event fired when the cell is written. */
  datatype InProgressCellState = InProgressCellState(event: Event)

  /** The position of a task in the aggregation graph. */
  datatype AggregationNumber = AggregationNumber(base: u32, distance: u32, effective: u32)

  /**
   * The 27 record kinds. Each record of a task is one of these; the key carries every field
   * except the value, the value carries the `value` field.
   */
  datatype Kind =
    | Output | Collectible | Dirty | DirtyWhenPersisted | Child | CellData | CellTypeMaxIndex
    | OutputDependency | CellDependency | CollectiblesDependency
    | OutputDependent | CellDependent | CollectiblesDependent
    | AggregationNumber | Follower | Upper
    | AggregatedDirtyContainer | AggregatedCollectible | AggregatedDirtyContainerCount
    | AggregateRoot | InProgress | InProgressCell
    | OutdatedCollectible | OutdatedOutputDependency | OutdatedCellDependency | OutdatedChild
    | Error

  /**
   * `CachedDataItem`. The Rust variants name their value field `value`; here it is named by
   * what it holds, and the unit values `()` are left implicit.
   */
  datatype CachedDataItem =
    | Output(output: OutputValue)
    | Collectible(collectible: CellRef)
    | Dirty
    | DirtyWhenPersisted
    | Child(task: TaskId)
    | CellData(cell: CellId, content: SharedReference)
    | CellTypeMaxIndex(cellType: ValueTypeId, maxIndex: u32)
    | OutputDependency(targetTask: TaskId)
    | CellDependency(targetCell: CellRef)
    | CollectiblesDependency(targetCollectibles: CollectiblesRef)
    | OutputDependent(task: TaskId)
    | CellDependent(cell: CellId, task: TaskId)
    | CollectiblesDependent(collectiblesType: ValueTypeId, task: TaskId)
    | AggregationNumber(number: AggregationNumber)
    | Follower(task: TaskId, count: i32)
    | Upper(task: TaskId, count: i32)
    | AggregatedDirtyContainer(task: TaskId, count: i32)
    | AggregatedCollectible(collectible: CellRef, count: i32)
    | AggregatedDirtyContainerCount(count: i32)
    | AggregateRoot(root: RootState)
    | InProgress(state: InProgressState)
    | InProgressCell(cell: CellId, cellState: InProgressCellState)
    | OutdatedCollectible(collectible: CellRef)
    | OutdatedOutputDependency(targetTask: TaskId)
    | OutdatedCellDependency(targetCell: CellRef)
    | OutdatedChild(task: TaskId)
    | Error(error: SharedError)

  /** `CachedDataItemKey`: the variant tag and every field other than `value`. */
  datatype CachedDataItemKey =
    | Output
    | Collectible(collectible: CellRef)
    | Dirty
    | DirtyWhenPersisted
    | Child(task: TaskId)
    | CellData(cell: CellId)
    | CellTypeMaxIndex(cellType: ValueTypeId)
    | OutputDependency(targetTask: TaskId)
    | CellDependency(targetCell: CellRef)
    | CollectiblesDependency(targetCollectibles: CollectiblesRef)
    | OutputDependent(task: TaskId)
    | CellDependent(cell: CellId, task: TaskId)
    | CollectiblesDependent(collectiblesType: ValueTypeId, task: TaskId)
    | AggregationNumber
    | Follower(task: TaskId)
    | Upper(task: TaskId)
    | AggregatedDirtyContainer(task: TaskId)
    | AggregatedCollectible(collectible: CellRef)
    | AggregatedDirtyContainerCount
    | AggregateRoot
    | InProgress
    | InProgressCell(cell: CellId)
    | OutdatedCollectible(collectible: CellRef)
    | OutdatedOutputDependency(targetTask: TaskId)
    | OutdatedCellDependency(targetCell: CellRef)
    | OutdatedChild(task: TaskId)
    | Error

  /** `CachedDataItemValue`: the variant tag and the `value` field. */
  datatype CachedDataItemValue =
    | Output(output: OutputValue)
    | Collectible
    | Dirty
    | DirtyWhenPersisted
    | Child
    | CellData(content: SharedReference)
    | CellTypeMaxIndex(maxIndex: u32)
    | OutputDependency
    | CellDependency
    | CollectiblesDependency
    | OutputDependent
    | CellDependent
    | CollectiblesDependent
    | AggregationNumber(number: AggregationNumber)
    | Follower(count: i32)
    | Upper(count: i32)
    | AggregatedDirtyContainer(count: i32)
    | AggregatedCollectible(count: i32)
    | AggregatedDirtyContainerCount(count: i32)
    | AggregateRoot(root: RootState)
    | InProgress(state: InProgressState)
    | InProgressCell(cellState: InProgressCellState)
    | OutdatedCollectible
    | OutdatedOutputDependency
    | OutdatedCellDependency
    | OutdatedChild
    | Error(error: SharedError)

  function ItemKind(item: CachedDataItem): Kind
  {
    match item
    case Output(_) => Kind.Output
    case Collectible(_) => Kind.Collectible
    case Dirty => Kind.Dirty
    case DirtyWhenPersisted => Kind.DirtyWhenPersisted
    case Child(_) => Kind.Child
    case CellData(_, _) => Kind.CellData
    case CellTypeMaxIndex(_, _) => Kind.CellTypeMaxIndex
    case OutputDependency(_) => Kind.OutputDependency
    case CellDependency(_) => Kind.CellDependency
    case CollectiblesDependency(_) => Kind.CollectiblesDependency
    case OutputDependent(_) => Kind.OutputDependent
    case CellDependent(_, _) => Kind.CellDependent
    case CollectiblesDependent(_, _) => Kind.CollectiblesDependent
    case AggregationNumber(_) => Kind.AggregationNumber
    case Follower(_, _) => Kind.Follower
    case Upper(_, _) => Kind.Upper
    case AggregatedDirtyContainer(_, _) => Kind.AggregatedDirtyContainer
    case AggregatedCollectible(_, _) => Kind.AggregatedCollectible
    case AggregatedDirtyContainerCount(_) => Kind.AggregatedDirtyContainerCount
    case AggregateRoot(_) => Kind.AggregateRoot
    case InProgress(_) => Kind.InProgress
    case InProgressCell(_, _) => Kind.InProgressCell
    case OutdatedCollectible(_) => Kind.OutdatedCollectible
    case OutdatedOutputDependency(_) => Kind.OutdatedOutputDependency
    case OutdatedCellDependency(_) => Kind.OutdatedCellDependency
    case OutdatedChild(_) => Kind.OutdatedChild
    case Error(_) => Kind.Error
  }

  function KeyKind(key: CachedDataItemKey): Kind
  {
    match key
    case Output => Kind.Output
    case Collectible(_) => Kind.Collectible
    case Dirty => Kind.Dirty
    case DirtyWhenPersisted => Kind.DirtyWhenPersisted
    case Child(_) => Kind.Child
    case CellData(_) => Kind.CellData
    case CellTypeMaxIndex(_) => Kind.CellTypeMaxIndex
    case OutputDependency(_) => Kind.OutputDependency
    case CellDependency(_) => Kind.CellDependency
    case CollectiblesDependency(_) => Kind.CollectiblesDependency
    case OutputDependent(_) => Kind.OutputDependent
    case CellDependent(_, _) => Kind.CellDependent
    case CollectiblesDependent(_, _) => Kind.CollectiblesDependent
    case AggregationNumber => Kind.AggregationNumber
    case Follower(_) => Kind.Follower
    case Upper(_) => Kind.Upper
    case AggregatedDirtyContainer(_) => Kind.AggregatedDirtyContainer
    case AggregatedCollectible(_) => Kind.AggregatedCollectible
    case AggregatedDirtyContainerCount => Kind.AggregatedDirtyContainerCount
    case AggregateRoot => Kind.AggregateRoot
    case InProgress => Kind.InProgress
    case InProgressCell(_) => Kind.InProgressCell
    case OutdatedCollectible(_) => Kind.OutdatedCollectible
    case OutdatedOutputDependency(_) => Kind.OutdatedOutputDependency
    case OutdatedCellDependency(_) => Kind.OutdatedCellDependency
    case OutdatedChild(_) => Kind.OutdatedChild
    case Error => Kind.Error
  }

  function ValueKind(value: CachedDataItemValue): Kind
  {
    match value
    case Output(_) => Kind.Output
    case Collectible => Kind.Collectible
    case Dirty => Kind.Dirty
    case DirtyWhenPersisted => Kind.DirtyWhenPersisted
    case Child => Kind.Child
    case CellData(_) => Kind.CellData
    case CellTypeMaxIndex(_) => Kind.CellTypeMaxIndex
    case OutputDependency => Kind.OutputDependency
    case CellDependency => Kind.CellDependency
    case CollectiblesDependency => Kind.CollectiblesDependency
    case OutputDependent => Kind.OutputDependent
    case CellDependent => Kind.CellDependent
    case CollectiblesDependent => Kind.CollectiblesDependent
    case AggregationNumber(_) => Kind.AggregationNumber
    case Follower(_) => Kind.Follower
    case Upper(_) => Kind.Upper
    case AggregatedDirtyContainer(_) => Kind.AggregatedDirtyContainer
    case AggregatedCollectible(_) => Kind.AggregatedCollectible
    case AggregatedDirtyContainerCount(_) => Kind.AggregatedDirtyContainerCount
    case AggregateRoot(_) => Kind.AggregateRoot
    case InProgress(_) => Kind.InProgress
    case InProgressCell(_) => Kind.InProgressCell
    case OutdatedCollectible => Kind.OutdatedCollectible
    case OutdatedOutputDependency => Kind.OutdatedOutputDependency
    case OutdatedCellDependency => Kind.OutdatedCellDependency
    case OutdatedChild => Kind.OutdatedChild
    case Error(_) => Kind.Error
  }

  /** The key half of the derived key/value split: the same kind, every non-value field. */
  function KeyOf(item: CachedDataItem): (key: CachedDataItemKey)
    ensures KeyKind(key) == ItemKind(item)
  {
    match item
    case Output(_) => CachedDataItemKey.Output
    case Collectible(c) => CachedDataItemKey.Collectible(c)
    case Dirty => CachedDataItemKey.Dirty
    case DirtyWhenPersisted => CachedDataItemKey.DirtyWhenPersisted
    case Child(t) => CachedDataItemKey.Child(t)
    case CellData(c, _) => CachedDataItemKey.CellData(c)
    case CellTypeMaxIndex(ty, _) => CachedDataItemKey.CellTypeMaxIndex(ty)
    case OutputDependency(t) => CachedDataItemKey.OutputDependency(t)
    case CellDependency(c) => CachedDataItemKey.CellDependency(c)
    case CollectiblesDependency(c) => CachedDataItemKey.CollectiblesDependency(c)
    case OutputDependent(t) => CachedDataItemKey.OutputDependent(t)
    case CellDependent(c, t) => CachedDataItemKey.CellDependent(c, t)
    case CollectiblesDependent(ty, t) => CachedDataItemKey.CollectiblesDependent(ty, t)
    case AggregationNumber(_) => CachedDataItemKey.AggregationNumber
    case Follower(t, _) => CachedDataItemKey.Follower(t)
    case Upper(t, _) => CachedDataItemKey.Upper(t)
    case AggregatedDirtyContainer(t, _) => CachedDataItemKey.AggregatedDirtyContainer(t)
    case AggregatedCollectible(c, _) => CachedDataItemKey.AggregatedCollectible(c)
    case AggregatedDirtyContainerCount(_) => CachedDataItemKey.AggregatedDirtyContainerCount
    case AggregateRoot(_) => CachedDataItemKey.AggregateRoot
    case InProgress(_) => CachedDataItemKey.InProgress
    case InProgressCell(c, _) => CachedDataItemKey.InProgressCell(c)
    case OutdatedCollectible(c) => CachedDataItemKey.OutdatedCollectible(c)
    case OutdatedOutputDependency(t) => CachedDataItemKey.OutdatedOutputDependency(t)
    case OutdatedCellDependency(c) => CachedDataItemKey.OutdatedCellDependency(c)
    case OutdatedChild(t) => CachedDataItemKey.OutdatedChild(t)
    case Error(_) => CachedDataItemKey.Error
  }

  /** The value half of the derived key/value split: the same kind, the `value` field. */
  function ValueOf(item: CachedDataItem): (value: CachedDataItemValue)
    ensures ValueKind(value) == ItemKind(item)
  {
    match item
    case Output(o) => CachedDataItemValue.Output(o)
    case Collectible(_) => CachedDataItemValue.Collectible
    case Dirty => CachedDataItemValue.Dirty
    case DirtyWhenPersisted => CachedDataItemValue.DirtyWhenPersisted
    case Child(_) => CachedDataItemValue.Child
    case CellData(_, content) => CachedDataItemValue.CellData(content)
    case CellTypeMaxIndex(_, n) => CachedDataItemValue.CellTypeMaxIndex(n)
    case OutputDependency(_) => CachedDataItemValue.OutputDependency
    case CellDependency(_) => CachedDataItemValue.CellDependency
    case CollectiblesDependency(_) => CachedDataItemValue.CollectiblesDependency
    case OutputDependent(_) => CachedDataItemValue.OutputDependent
    case CellDependent(_, _) => CachedDataItemValue.CellDependent
    case CollectiblesDependent(_, _) => CachedDataItemValue.CollectiblesDependent
    case AggregationNumber(n) => CachedDataItemValue.AggregationNumber(n)
    case Follower(_, n) => CachedDataItemValue.Follower(n)
    case Upper(_, n) => CachedDataItemValue.Upper(n)
    case AggregatedDirtyContainer(_, n) => CachedDataItemValue.AggregatedDirtyContainer(n)
    case AggregatedCollectible(_, n) => CachedDataItemValue.AggregatedCollectible(n)
    case AggregatedDirtyContainerCount(n) => CachedDataItemValue.AggregatedDirtyContainerCount(n)
    case AggregateRoot(r) => CachedDataItemValue.AggregateRoot(r)
    case InProgress(s) => CachedDataItemValue.InProgress(s)
    case InProgressCell(_, s) => CachedDataItemValue.InProgressCell(s)
    case OutdatedCollectible(_) => CachedDataItemValue.OutdatedCollectible
    case OutdatedOutputDependency(_) => CachedDataItemValue.OutdatedOutputDependency
    case OutdatedCellDependency(_) => CachedDataItemValue.OutdatedCellDependency
    case OutdatedChild(_) => CachedDataItemValue.OutdatedChild
    case Error(e) => CachedDataItemValue.Error(e)
  }

  /**
   * Reassembles a record from a key and a value. A key and a value of different kinds do
   * not form a record.
   */
  function FromKeyAndValue(key: CachedDataItemKey, value: CachedDataItemValue): (r: Option<CachedDataItem>)
    ensures r.Some? ==> ItemKind(r.value) == KeyKind(key)
  {
    match key
    case Output => if value.Output? then Some(CachedDataItem.Output(value.output)) else None
    case Collectible(c) => if value.Collectible? then Some(CachedDataItem.Collectible(c)) else None
    case Dirty => if value.Dirty? then Some(CachedDataItem.Dirty) else None
    case DirtyWhenPersisted =>
      if value.DirtyWhenPersisted? then Some(CachedDataItem.DirtyWhenPersisted) else None
    case Child(t) => if value.Child? then Some(CachedDataItem.Child(t)) else None
    case CellData(c) =>
      if value.CellData? then Some(CachedDataItem.CellData(c, value.content)) else None
    case CellTypeMaxIndex(ty) =>
      if value.CellTypeMaxIndex? then Some(CachedDataItem.CellTypeMaxIndex(ty, value.maxIndex)) else None
    case OutputDependency(t) =>
      if value.OutputDependency? then Some(CachedDataItem.OutputDependency(t)) else None
    case CellDependency(c) =>
      if value.CellDependency? then Some(CachedDataItem.CellDependency(c)) else None
    case CollectiblesDependency(c) =>
      if value.CollectiblesDependency? then Some(CachedDataItem.CollectiblesDependency(c)) else None
    case OutputDependent(t) =>
      if value.OutputDependent? then Some(CachedDataItem.OutputDependent(t)) else None
    case CellDependent(c, t) =>
      if value.CellDependent? then Some(CachedDataItem.CellDependent(c, t)) else None
    case CollectiblesDependent(ty, t) =>
      if value.CollectiblesDependent? then Some(CachedDataItem.CollectiblesDependent(ty, t)) else None
    case AggregationNumber =>
      if value.AggregationNumber? then Some(CachedDataItem.AggregationNumber(value.number)) else None
    case Follower(t) => if value.Follower? then Some(CachedDataItem.Follower(t, value.count)) else None
    case Upper(t) => if value.Upper? then Some(CachedDataItem.Upper(t, value.count)) else None
    case AggregatedDirtyContainer(t) =>
      if value.AggregatedDirtyContainer? then Some(CachedDataItem.AggregatedDirtyContainer(t, value.count)) else None
    case AggregatedCollectible(c) =>
      if value.AggregatedCollectible? then Some(CachedDataItem.AggregatedCollectible(c, value.count)) else None
    case AggregatedDirtyContainerCount =>
      if value.AggregatedDirtyContainerCount? then Some(CachedDataItem.AggregatedDirtyContainerCount(value.count)) else None
    case AggregateRoot =>
      if value.AggregateRoot? then Some(CachedDataItem.AggregateRoot(value.root)) else None
    case InProgress => if value.InProgress? then Some(CachedDataItem.InProgress(value.state)) else None
    case InProgressCell(c) =>
      if value.InProgressCell? then Some(CachedDataItem.InProgressCell(c, value.cellState)) else None
    case OutdatedCollectible(c) =>
      if value.OutdatedCollectible? then Some(CachedDataItem.OutdatedCollectible(c)) else None
    case OutdatedOutputDependency(t) =>
      if value.OutdatedOutputDependency? then Some(CachedDataItem.OutdatedOutputDependency(t)) else None
    case OutdatedCellDependency(c) =>
      if value.OutdatedCellDependency? then Some(CachedDataItem.OutdatedCellDependency(c)) else None
    case OutdatedChild(t) => if value.OutdatedChild? then Some(CachedDataItem.OutdatedChild(t)) else None
    case Error => if value.Error? then Some(CachedDataItem.Error(value.error)) else None
  }

  /**
   * `CachedDataItem::is_persistent` exactly as written. Its `Output` arm answers
   * `value.is_transient()`, the opposite of the value-level check; `ItemIsPersistent` below
   * is the corrected classification the rest of the model uses.
   */
  predicate ItemIsPersistentAsWritten(item: CachedDataItem)
    ensures IsLifecycle(ItemKind(item)) ==> !ItemIsPersistentAsWritten(item)
    ensures !item.Output? ==> ItemIsPersistentAsWritten(item) == KeyIsPersistent(KeyOf(item))
  {
    match item
    case Output(o) => OutputIsTransient(o)
    case Collectible(c) => !c.task.transient
    case Dirty => true
    case DirtyWhenPersisted => true
    case Child(t) => !t.transient
    case CellData(_, _) => true
    case CellTypeMaxIndex(_, _) => true
    case OutputDependency(t) => !t.transient
    case CellDependency(c) => !c.task.transient
    case CollectiblesDependency(c) => !c.task.transient
    case OutputDependent(t) => !t.transient
    case CellDependent(_, t) => !t.transient
    case CollectiblesDependent(_, t) => !t.transient
    case AggregationNumber(_) => true
    case Follower(t, _) => !t.transient
    case Upper(t, _) => !t.transient
    case AggregatedDirtyContainer(t, _) => !t.transient
    case AggregatedCollectible(c, _) => !c.task.transient
    case AggregatedDirtyContainerCount(_) => true
    case AggregateRoot(_) => false
    case InProgress(_) => false
    case InProgressCell(_, _) => false
    case OutdatedCollectible(_) => false
    case OutdatedOutputDependency(_) => false
    case OutdatedCellDependency(_) => false
    case OutdatedChild(_) => false
    case Error(_) => false
  }

  /**
   * Whether a record may be durably stored: as `ItemIsPersistentAsWritten`, except that an
   * `Output` record is persistent when its value is not transient.
   */
  predicate ItemIsPersistent(item: CachedDataItem)
    ensures ItemIsPersistent(item) == (KeyIsPersistent(KeyOf(item)) && ValueIsPersistent(ValueOf(item)))
  {
    match item
    case Output(o) => !OutputIsTransient(o)
    case _ => ItemIsPersistentAsWritten(item)
  }

  /** `CachedDataItemKey::is_persistent`. */
  predicate KeyIsPersistent(key: CachedDataItemKey)
    ensures KeyKind(key) == Kind.Output ==> KeyIsPersistent(key)
    ensures IsLifecycle(KeyKind(key)) ==> !KeyIsPersistent(key)
  {
    match key
    case Output => true
    case Collectible(c) => !c.task.transient
    case Dirty => true
    case DirtyWhenPersisted => true
    case Child(t) => !t.transient
    case CellData(_) => true
    case CellTypeMaxIndex(_) => true
    case OutputDependency(t) => !t.transient
    case CellDependency(c) => !c.task.transient
    case CollectiblesDependency(c) => !c.task.transient
    case OutputDependent(t) => !t.transient
    case CellDependent(_, t) => !t.transient
    case CollectiblesDependent(_, t) => !t.transient
    case AggregationNumber => true
    case Follower(t) => !t.transient
    case Upper(t) => !t.transient
    case AggregatedDirtyContainer(t) => !t.transient
    case AggregatedCollectible(c) => !c.task.transient
    case AggregatedDirtyContainerCount => true
    case AggregateRoot => false
    case InProgress => false
    case InProgressCell(_) => false
    case OutdatedCollectible(_) => false
    case OutdatedOutputDependency(_) => false
    case OutdatedCellDependency(_) => false
    case OutdatedChild(_) => false
    case Error => false
  }

  /** `CachedDataItemValue::is_persistent`. */
  predicate ValueIsPersistent(value: CachedDataItemValue)
    ensures !value.Output? ==> ValueIsPersistent(value)
  {
    match value
    case Output(o) => !OutputIsTransient(o)
    case _ => true
  }

  /** `CachedDataItemIndex`: the secondary-index buckets of a task's records. */
  datatype CachedDataItemIndex =
    | Children | Follower | Upper | AggregatedDirtyContainer | CellData | CellTypeMaxIndex
    | CellDependent | OutputDependent | Dependencies

  /** `Indexed::index` for keys: the bucket a key is enumerated under, if any. */
  function Index(key: CachedDataItemKey): (r: Option<CachedDataItemIndex>)
    ensures r == Some(CachedDataItemIndex.Children) <==> KeyKind(key) in {Kind.Child, Kind.OutdatedChild}
    ensures r == Some(CachedDataItemIndex.Dependencies)
        <==> KeyKind(key) in {Kind.OutputDependency, Kind.CellDependency,
                              Kind.OutdatedOutputDependency, Kind.OutdatedCellDependency}
    ensures r.Some? ==> !IsLifecycle(KeyKind(key))
  {
    match key
    case Child(_) => Some(CachedDataItemIndex.Children)
    case OutdatedChild(_) => Some(CachedDataItemIndex.Children)
    case Follower(_) => Some(CachedDataItemIndex.Follower)
    case Upper(_) => Some(CachedDataItemIndex.Upper)
    case AggregatedDirtyContainer(_) => Some(CachedDataItemIndex.AggregatedDirtyContainer)
    case CellData(_) => Some(CachedDataItemIndex.CellData)
    case CellTypeMaxIndex(_) => Some(CachedDataItemIndex.CellTypeMaxIndex)
    case CellDependent(_, _) => Some(CachedDataItemIndex.CellDependent)
    case OutputDependent(_) => Some(CachedDataItemIndex.OutputDependent)
    case OutputDependency(_) => Some(CachedDataItemIndex.Dependencies)
    case CellDependency(_) => Some(CachedDataItemIndex.Dependencies)
    case OutdatedOutputDependency(_) => Some(CachedDataItemIndex.Dependencies)
    case OutdatedCellDependency(_) => Some(CachedDataItemIndex.Dependencies)
    case _ => None
  }

  /** The three lifecycle kinds, whose values own a synchronization event. */
  predicate IsLifecycle(kind: Kind)
  {
    kind == Kind.AggregateRoot || kind == Kind.InProgress || kind == Kind.InProgressCell
  }

  /** The panic messages of the three `Clone` impls that refuse to duplicate a value. */
  const RootStateCloneMessage := "RootState cannot be cloned"
  const InProgressStateCloneMessage := "InProgressState cannot be cloned"
  const InProgressCellCloneMessage := "InProgressCell cannot be cloned"

  /** `Clone for RootState`: always panics. */
  function CloneRootState(s: RootState): (r: Result<RootState, string>)
    ensures r.Failure? && r.error == RootStateCloneMessage
  {
    Failure(RootStateCloneMessage)
  }

  /** `Clone for InProgressState`: always panics. */
  function CloneInProgressState(s: InProgressState): (r: Result<InProgressState, string>)
    ensures r.Failure? && r.error == InProgressStateCloneMessage
  {
    Failure(InProgressStateCloneMessage)
  }

  /** `Clone for InProgressCellState`: always panics. */
  function CloneInProgressCellState(s: InProgressCellState): (r: Result<InProgressCellState, string>)
    ensures r.Failure? && r.error == InProgressCellCloneMessage
  {
    Failure(InProgressCellCloneMessage)
  }

  /**
   * The derived `Clone` of `CachedDataItem`: it clones each field, so it panics exactly on
   * the records that hold a lifecycle value and otherwise yields an equal record.
   */
  function CloneItem(item: CachedDataItem): (r: Result<CachedDataItem, string>)
    ensures r.Failure? <==> IsLifecycle(ItemKind(item))
    ensures r.Success? ==> r.value == item
  {
    match item
    case AggregateRoot(root) =>
      (match CloneRootState(root)
       case Success(s) => Success(CachedDataItem.AggregateRoot(s))
       case Failure(e) => Failure(e))
    case InProgress(state) =>
      (match CloneInProgressState(state)
       case Success(s) => Success(CachedDataItem.InProgress(s))
       case Failure(e) => Failure(e))
    case InProgressCell(cell, cellState) =>
      (match CloneInProgressCellState(cellState)
       case Success(s) => Success(CachedDataItem.InProgressCell(cell, s))
       case Failure(e) => Failure(e))
    case _ => Success(item)
  }

  /**
   * `CachedDataItem::new_scheduled`: a scheduled `InProgress` record owning the freshly
   * created `doneEvent`. Such a record is never stored durably, is reached by key only, and
   * cannot be duplicated.
   */
  function NewScheduled(doneEvent: Event): (item: CachedDataItem)
    ensures item.InProgress? && item.state.Scheduled? && item.state.doneEvent == doneEvent
    ensures !ItemIsPersistent(item) && !ItemIsPersistentAsWritten(item)
    ensures !KeyIsPersistent(KeyOf(item)) && Index(KeyOf(item)).None?
    ensures CloneItem(item).Failure?
  {
    CachedDataItem.InProgress(Scheduled(doneEvent))
  }

  /**
   * `CachedDataItem::new_scheduled_with_listener`: the same record, together with a listener
   * already registered on the record's own `doneEvent`.
   */
  function NewScheduledWithListener(doneEvent: Event): (r: (CachedDataItem, EventListener))
    ensures r.0 == NewScheduled(doneEvent)
    ensures r.1.event == r.0.state.doneEvent
  {
    (CachedDataItem.InProgress(Scheduled(doneEvent)), EventListener(doneEvent))
  }

  /**
   * `RootState::new`: a fresh root state owns the freshly created `allCleanEvent`. The
   * `AggregateRoot` record that holds it is never stored durably and cannot be duplicated.
   */
  function NewRootState(ty: ActiveType, allCleanEvent: Event): (r: RootState)
    ensures r.ty == ty && r.allCleanEvent == allCleanEvent
    ensures CloneRootState(r).Failure?
    ensures !ItemIsPersistent(CachedDataItem.AggregateRoot(r))
    ensures CloneItem(CachedDataItem.AggregateRoot(r)).Failure?
  {
    RootState(ty, allCleanEvent)
  }

  /**
   * `InProgressCellState::new`: the task and cell only name the event in diagnostics, which
   * are not modelled, so the state is determined by the freshly created event alone. The
   * `InProgressCell` record that holds it for `cell` is never stored durably, is reached by
   * its key only, and cannot be duplicated.
   */
  function NewInProgressCellState(task: TaskId, cell: CellId, event: Event): (r: InProgressCellState)
    ensures r.event == event
    ensures !ItemIsPersistent(CachedDataItem.InProgressCell(cell, r))
    ensures KeyOf(CachedDataItem.InProgressCell(cell, r)) == CachedDataItemKey.InProgressCell(cell)
    ensures Index(CachedDataItemKey.InProgressCell(cell)).None?
    ensures CloneItem(CachedDataItem.InProgressCell(cell, r)).Failure?
  {
    InProgressCellState(event)
  }
}
