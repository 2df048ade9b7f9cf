# turbo-tasks backend record schema, in Dafny

This project models `turbopack/crates/turbo-tasks-backend/src/data.rs`. That file is the
per-task record schema of the turbo-tasks incremental-computation cache. It covers:

- the closed set of 27 record kinds a task can hold (`CachedDataItem`);
- the split of each record into a key and a value (`CachedDataItemKey`, `CachedDataItemValue`),
  which the source derives with a macro and which is written out here (`KeyOf`, `ValueOf`,
  `FromKeyAndValue`);
- `OutputValue::is_transient`, and the three persistability checks on a record, a key and a
  value, which decide whether a record may be stored durably;
- the secondary-index bucket of each key (`Index`, `CachedDataItemIndex`) and the named
  `indicies` constants;
- the lifecycle records (`RootState`, `InProgressState`, `InProgressCellState`), whose `Clone`
  panics, and the `new_scheduled` constructors.

Every function in the source is a pure `match`, a constructor, or a `Clone` that panics, so
the model is datatypes, functions and lemmas. The persistability checks are proved against an
independent description: with the `Output` arm corrected (see "## Findings"), a record may be
stored when its kind is not transient-only and no task it refers to is transient. The buckets
are those `Indexed::index` assigns (data.rs:375-400), characterised kind by kind.

Files:

- `ids.dfy` (module `Ids`): the identifiers and opaque payloads taken from the `turbo_tasks`
  crate. `TaskId` carries the answer of `TaskId::is_transient` as a field.
- `wrappers.dfy` (module `Wrappers`): `Option`, and `Result`, whose `Failure` stands for a panic.
- `data.rs` is modelled by `data.dfy` (module `Data`) and `indicies.dfy` (module `Indicies`).
- `key_value_proofs.dfy`, `persistence_proofs.dfy`, `index_proofs.dfy`: the properties.

Record fields called `value` in Rust are named here by what they hold (`output`, `count`,
`state`, ...), because Dafny needs same-named fields of one datatype to share a type. The unit
values `()` are left implicit.

## Model

| member | source | states |
|---|---|---|
| `Data.OutputIsTransient` | turbopack/crates/turbo-tasks-backend/src/data.rs:30-37 | `Error` and `Panic` are never transient; fully characterised by `PersistenceProofs.OutputTransienceByReferences` |
| `Data.FromKeyAndValue` | turbopack/crates/turbo-tasks-backend/src/data.rs:118-243 | a reassembled record has the key's kind; its inverse properties are `KeyValueProofs.FromKeyAndValueDefinedIffSameKind` and `KeyValueProofs.FromKeyAndValueSplitsBack` |
| `Data.ItemIsPersistentAsWritten` | turbopack/crates/turbo-tasks-backend/src/data.rs:246-278 | `CachedDataItem::is_persistent` as written: lifecycle records are never persistent, and outside `Output` it agrees with the key-level check; its inverted `Output` arm is shown by `PersistenceProofs.AsWrittenOutputNegatesValue` and `PersistenceProofs.AsWrittenOutputMisclassified` |
| `Data.ItemIsPersistent` | turbopack/crates/turbo-tasks-backend/src/data.rs:246-278 | the corrected record-level check: a record is persistent exactly when its key and its value are; characterised by `PersistenceProofs.ItemPersistenceByReferences` |
| `Data.KeyIsPersistent` | turbopack/crates/turbo-tasks-backend/src/data.rs:304-336 | `CachedDataItemKey::is_persistent`: the `Output` key is persistent and lifecycle keys are not; characterised by `PersistenceProofs.KeyPersistenceByReferences` |
| `Data.ValueIsPersistent` | turbopack/crates/turbo-tasks-backend/src/data.rs:404-409 | `CachedDataItemValue::is_persistent`: every non-output value is persistent; characterised by `PersistenceProofs.ValuePersistenceByReferences` |
| `Data.Index` | turbopack/crates/turbo-tasks-backend/src/data.rs:375-400 | `Indexed::index`: `Children` holds exactly `Child` and `OutdatedChild`, `Dependencies` exactly the four dependency kinds, and no lifecycle key is indexed; fully characterised by `IndexProofs.IndexByKind` |
| `Data.KeyOf` | turbopack/crates/turbo-tasks-backend/src/data.rs:118-243 | the key of a record has the record's own kind |
| `Data.ValueOf` | turbopack/crates/turbo-tasks-backend/src/data.rs:118-243 | the value of a record has the record's own kind |
| `KeyValueProofs.KeyValueRoundTrip` | turbopack/crates/turbo-tasks-backend/src/data.rs:118-243 | splitting a record into key and value and reassembling them gives the record back |
| `KeyValueProofs.FromKeyAndValueDefinedIffSameKind` | turbopack/crates/turbo-tasks-backend/src/data.rs:118-243 | a key and a value form a record if and only if they are of the same kind |
| `KeyValueProofs.FromKeyAndValueSplitsBack` | turbopack/crates/turbo-tasks-backend/src/data.rs:118-243 | a reassembled record splits back into exactly the key and value it was built from |
| `KeyValueProofs.KeyAndValueDetermineItem` | turbopack/crates/turbo-tasks-backend/src/data.rs:118-243 | two records with the same key and the same value are the same record |
| `PersistenceProofs.OutputTransienceByReferences` | turbopack/crates/turbo-tasks-backend/src/data.rs:30-37 | an output value is transient if and only if a task it points to (the cell's task, or the delegated task) is transient; `Error` and `Panic` point to none and are never transient |
| `PersistenceProofs.KeyPersistenceByReferences` | turbopack/crates/turbo-tasks-backend/src/data.rs:304-336 | a key is persistent if and only if its kind is not transient-only and no task it refers to is transient |
| `PersistenceProofs.ValuePersistenceByReferences` | turbopack/crates/turbo-tasks-backend/src/data.rs:404-409 | a value is persistent if and only if it refers to no transient task |
| `PersistenceProofs.OutputKeyAndValuePersistence` | turbopack/crates/turbo-tasks-backend/src/data.rs:404-409 | the `Output` key is always persistent (line 306); an `Output` value is persistent exactly when it is not transient |
| `PersistenceProofs.NonOutputValuesPersistent` | turbopack/crates/turbo-tasks-backend/src/data.rs:404-409 | every value that is not an output value is persistent |
| `PersistenceProofs.ItemAgreesWithKeyExceptOutput` | turbopack/crates/turbo-tasks-backend/src/data.rs:246-336 | for every kind except `Output`, the record-level check agrees with the key-level check on the record's key |
| `PersistenceProofs.TransientOnlyNeverPersistent` | turbopack/crates/turbo-tasks-backend/src/data.rs:269-276 | `AggregateRoot`, `InProgress`, `InProgressCell`, the four `Outdated*` kinds and `Error` are never persistent, at record or key level, whatever their tasks |
| `PersistenceProofs.AsWrittenOutputNegatesValue` | turbopack/crates/turbo-tasks-backend/src/data.rs:248 | as written, the record-level check on an `Output` record is the negation of the value-level check on its value |
| `PersistenceProofs.AsWrittenOutputMisclassified` | turbopack/crates/turbo-tasks-backend/src/data.rs:248 | as written, an output delegating to a transient task is declared persistent, and an `Error` output is declared transient although its key and value are persistent |
| `PersistenceProofs.ItemPersistentIffKeyAndValue` | turbopack/crates/turbo-tasks-backend/src/data.rs:246-278 | with the `Output` arm corrected, a record is persistent if and only if both its key and its value are |
| `PersistenceProofs.ItemPersistenceByReferences` | turbopack/crates/turbo-tasks-backend/src/data.rs:246-278 | with the `Output` arm corrected, a record is persistent if and only if its kind is not transient-only and no task referred to by its key or value is transient |
| `PersistenceProofs.CorrectionOnlyAffectsOutput` | turbopack/crates/turbo-tasks-backend/src/data.rs:246-278 | the corrected check differs from the one as written on every `Output` record and on no other |
| `PersistenceProofs.NonCloneableRecordsAreTransient` | turbopack/crates/turbo-tasks-backend/src/data.rs:65-99 | the records whose clone panics are of transient-only kinds and are never persistent |
| `IndexProofs.IndexByKind` | turbopack/crates/turbo-tasks-backend/src/data.rs:375-400 | `Children` holds exactly `Child` and `OutdatedChild`; `Dependencies` exactly the current and outdated output and cell dependencies; each other bucket exactly the kind of its name; every other kind, `CollectiblesDependency`, `CollectiblesDependent` and `OutdatedCollectible` among them, has no bucket |
| `IndexProofs.IndexDependsOnlyOnKind` | turbopack/crates/turbo-tasks-backend/src/data.rs:375-400 | two keys of the same kind are in the same bucket |
| `IndexProofs.OutdatedSharesBucket` | turbopack/crates/turbo-tasks-backend/src/data.rs:375-400 | an outdated child or dependency edge is in the bucket of the live edge it stages |
| `IndexProofs.IndexedTransientOnlyKeysAreOutdatedEdges` | turbopack/crates/turbo-tasks-backend/src/data.rs:375-400 | the only indexed keys of transient-only kinds are the three outdated edge kinds |
| `IndexProofs.EveryBucketUsed` | turbopack/crates/turbo-tasks-backend/src/data.rs:340-350 | each of the nine buckets holds some key |
| `IndexProofs.IndiciesAgreeWithIndex` | turbopack/crates/turbo-tasks-backend/src/data.rs:356-369 | each of the thirteen constants of module `Indicies` (the `indicies` module) is the bucket `Index` gives keys of that kind |
| `Data.CloneRootState` | turbopack/crates/turbo-tasks-backend/src/data.rs:65-69 | cloning a root state always fails with "RootState cannot be cloned" |
| `Data.CloneInProgressState` | turbopack/crates/turbo-tasks-backend/src/data.rs:84-88 | cloning an execution state always fails with "InProgressState cannot be cloned" |
| `Data.CloneInProgressCellState` | turbopack/crates/turbo-tasks-backend/src/data.rs:95-99 | cloning a cell execution state always fails with "InProgressCell cannot be cloned" |
| `Data.CloneItem` | turbopack/crates/turbo-tasks-backend/src/data.rs:118 | cloning a record fails exactly for `AggregateRoot`, `InProgress` and `InProgressCell` records, and otherwise yields an equal record |
| `Data.NewScheduled` | turbopack/crates/turbo-tasks-backend/src/data.rs:280-286 | the new record is `InProgress` in state `Scheduled` owning the given done event; it is not persistent, its key has no bucket, and it cannot be cloned |
| `Data.NewScheduledWithListener` | turbopack/crates/turbo-tasks-backend/src/data.rs:288-300 | the same record as `NewScheduled`, with a listener registered on that record's own done event |
| `Data.NewRootState` | turbopack/crates/turbo-tasks-backend/src/data.rs:47-52 | a new root state has the given activity type and owns the given fresh event; it cannot be cloned, and the `AggregateRoot` record holding it is not persistent and cannot be cloned |
| `Data.NewInProgressCellState` | turbopack/crates/turbo-tasks-backend/src/data.rs:101-108 | a new cell execution state owns the given fresh event; the `InProgressCell` record holding it is not persistent, its key has no bucket, and it cannot be cloned |

## Findings

| source | as written | input that shows it | evidently intended | confidence | as-written member | corrected member |
|---|---|---|---|---|---|---|
| turbopack/crates/turbo-tasks-backend/src/data.rs:248 | `CachedDataItem::is_persistent` answers `value.is_transient()` for an `Output` record | an `Output` record whose value is `OutputValue::Output(t)` with `t` transient is declared persistent; an `Output` record with value `Error` is declared not persistent | `!value.is_transient()`, as in every other arm and in `CachedDataItemValue::is_persistent` (line 406) | high; not executed | `Data.ItemIsPersistentAsWritten`, `PersistenceProofs.AsWrittenOutputMisclassified` | `Data.ItemIsPersistent`, `PersistenceProofs.ItemPersistentIffKeyAndValue` |

## Left out

- `TaskId::is_transient` comes from the `turbo_tasks` crate, which is not part of this model; a task id carries its transience as a field.
- `CellId`, `ValueTypeId`, `SharedReference`, `SharedError`, `Event` and `EventListener` are opaque tokens. Firing, waiting and listening on events are not modelled.
- Creating an event (`Event::new`) is not modelled: the constructors take the fresh event as a parameter.
- The description and note closures and their `format!` messages are diagnostics only and are left out. So `NewInProgressCellState` ignores its task and cell.
- The `KeyValuePair` macro is not part of this model; `KeyOf`, `ValueOf` and `FromKeyAndValue` are the split written out by hand. `FromKeyAndValue` returns `None` for a key and a value of different kinds.
- `Indexed` trait and the record store that maintains the buckets (`crate::backend::indexed`) are not part of this model, so no insert or remove behaviour is modelled.
- `AggregationNumber` and the signed counts are stored fields only; the file has no logic over them. `u32` and `i32` are range-limited newtypes without arithmetic.
- `CachedDataUpdate` is a plain struct with no behaviour and is left out.
- Serialization (`Serialize`, `Deserialize`) and `Debug` are left out.
- `packages/next/src/client/components/client-page.tsx` is a UI wrapper outside this schema and is left out.
