/** Values shared by both models: the nullable reference of the source and its error results. */
module Results {

  /** A reference that may be null: None stands for null. */
  datatype Option<+T> = None | Some(value: T)

  /**
   * The exceptions the modelled members throw or let through: an index outside
   * a list, and whatever the partitioning routine throws (for instance for a
   * partition count it refuses).
   */
  datatype Error = IndexOutOfRange | PartitioningFailed

  /** The outcome of a member that either returns a value or throws. */
  datatype Result<+T> = Ok(value: T) | Err(error: Error)
}
