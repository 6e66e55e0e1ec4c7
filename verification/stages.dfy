/** The phases of a frame (amethyst_core/src/legion/dispatcher.rs, `enum Stage`). */
module Stages {

  datatype Stage = Begin | Logic | Render | ThreadLocal

  /** The stages that own a bucket of parallel tasks; ThreadLocal work is kept apart. */
  const ParallelStages: set<Stage> := {Begin, Logic, Render}
}
