// The two enumerations of the simulator: which objects carry the behaviour,
// and which phase of a simulation run is in progress.
module Stages {

  /** Modules handle timers and arriving particles, or the events handle themselves. */
  datatype SimulationPattern = BasedOnModulesBehaviours | BasedOnParticlesBehaviours

  datatype SimulationStage =
    | OutOfSimulationStage
    | InitializationStage
    | EventsSimulationStage
    | PostProcessingStage

  /** The simulator is "currently simulating" in every stage but the first. */
  predicate IsSimulating(stage: SimulationStage)
  {
    stage != OutOfSimulationStage
  }
}
