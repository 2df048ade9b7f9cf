/**
 * The identifier domain and opaque payloads that data.rs takes from the `turbo_tasks` crate.
 * Their representations are not part of this model: each is a token that can only be
 * compared, except that a task id exposes its transience (`TaskId::is_transient`).
 */
module Ids {

  /** A task identifier. `transient` is what `TaskId::is_transient` answers for it. */
  datatype TaskId = TaskId(id: nat, transient: bool)

  /** A cell identifier within a task. */
  datatype CellId = CellId(id: nat)

  /** A value type identifier (the type of a cell or of a collectible). */
  datatype ValueTypeId = ValueTypeId(id: nat)

  /** A one-shot broadcast event; only its identity is modelled. */
  datatype Event = Event(id: nat)

  /** A registration of interest in one event. */
  datatype EventListener = EventListener(event: Event)

  /** The shared, reference-counted content of a cell. */
  datatype SharedReference = SharedReference(id: nat)

  /** A captured task failure. */
  datatype SharedError = SharedError(id: nat)
}
