/**
 * Restoring a model's weights from a snapshot directory, as both model
 * classes do at the end of their constructor. The file system is a
 * parameter: what exists at `<directory>/model.hdf5` and whether reading it
 * succeeds.
 */
module Snapshots {
  import opened Tensors

  /** What the file system holds at the snapshot path, and whether loading it raises. */
  datatype SnapshotFile = SnapshotFile(present: bool, isFile: bool, loadSucceeds: bool)

  /** Where the model's weights come from once the constructor returns. */
  datatype Weights =
    | Initialised   // freshly initialised, no snapshot was read
    | Loaded        // overwritten by the snapshot
    | LoadFailed    // loading raised; the exception was caught and printed

  /**
   * The snapshot is read only when a non-empty directory is given and the
   * path exists and is a regular file; an exception while reading is caught,
   * so the constructor never fails because of the snapshot.
   */
  function RestoreWeights(snapshotDirectory: Option<string>, file: SnapshotFile): (w: Weights)
    ensures w == Loaded <==>
      snapshotDirectory.Some? && snapshotDirectory.value != [] &&
      file.present && file.isFile && file.loadSucceeds
    ensures w == LoadFailed <==>
      snapshotDirectory.Some? && snapshotDirectory.value != [] &&
      file.present && file.isFile && !file.loadSucceeds
    ensures !file.isFile ==> w == Initialised
  {
    if snapshotDirectory.None? || snapshotDirectory.value == [] then Initialised
    else if !(file.present && file.isFile) then Initialised
    else if file.loadSucceeds then Loaded
    else LoadFailed
  }
}
