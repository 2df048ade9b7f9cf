/** The `indicies` constants of data.rs: the bucket of each indexed key kind, by name. */
module Indicies {
  import opened Data

  const Child: CachedDataItemIndex := CachedDataItemIndex.Children
  const OutdatedChild: CachedDataItemIndex := CachedDataItemIndex.Children
  const Follower: CachedDataItemIndex := CachedDataItemIndex.Follower
  const Upper: CachedDataItemIndex := CachedDataItemIndex.Upper
  const AggregatedDirtyContainer: CachedDataItemIndex := CachedDataItemIndex.AggregatedDirtyContainer
  const CellData: CachedDataItemIndex := CachedDataItemIndex.CellData
  const CellTypeMaxIndex: CachedDataItemIndex := CachedDataItemIndex.CellTypeMaxIndex
  const CellDependent: CachedDataItemIndex := CachedDataItemIndex.CellDependent
  const OutputDependent: CachedDataItemIndex := CachedDataItemIndex.OutputDependent
  const OutputDependency: CachedDataItemIndex := CachedDataItemIndex.Dependencies
  const CellDependency: CachedDataItemIndex := CachedDataItemIndex.Dependencies
  const OutdatedOutputDependency: CachedDataItemIndex := CachedDataItemIndex.Dependencies
  const OutdatedCellDependency: CachedDataItemIndex := CachedDataItemIndex.Dependencies
}
