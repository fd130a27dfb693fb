/** The configuration the mapper reads once at start-up, as an immutable record. */
module TraverseConfig {
  import opened Graph

  /** What happens to the original edges that match a pattern label. */
  datatype Action = KEEP | PRUNE

  /** The six settings of the step, already parsed into their enumerations. */
  datatype Config = Config(
    firstDirection: Direction,
    firstLabel: string,
    secondDirection: Direction,
    secondLabel: string,
    newLabel: string,
    action: Action)
}
