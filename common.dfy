// Shared vocabulary of the simulation kernel: fixed-width integer ranges,
// identifier types and their "invalid" sentinels, handles for objects that
// live on the heap, and the outcome types that stand for C++ exceptions.
module Common {

  /** C++ `unsigned long` / `unsigned long long` on an LP64 platform. */
  const U64_MODULUS: int := 0x1_0000_0000_0000_0000
  type u64 = x: int | 0 <= x < U64_MODULUS

  /** C++ `int` (the kind tag of a BaseObject). */
  type int32 = x: int | -0x8000_0000 <= x < 0x8000_0000

  /** All-ones value of a 64-bit unsigned integer. */
  const U64_MAX: u64 := 0xFFFF_FFFF_FFFF_FFFF

  type ModuleId = u64
  type ParticleId = u64

  /** `invalidModuleId` and `invalidParticleId` are both `~0`. */
  const InvalidModuleId: ModuleId := U64_MAX
  const InvalidParticleId: ParticleId := U64_MAX

  /** Handles standing for the addresses of heap-allocated events and modules. */
  type EventRef = nat
  type ModuleRef = nat

  datatype Option<T> = None | Some(value: T)

  /** Every place where the kernel throws, plus three model-only errors
      (the last three) that stand for undefined behaviour of the source. */
  datatype Error =
    | NotFound                 // std::invalid_argument from a graph lookup
    | TimerWithoutOwner        // scheduling a timer whose owner is invalidModuleId
    | NullModule               // a null module pointer where a module is needed
    | UnspecifiedDestination   // sending a particle to invalidModuleId
    | NotSimulating            // queue operation outside of a simulation
    | PendingEventDestroyed    // destroying a scheduled event during a simulation
    | PatternMismatch          // handler called under the other simulation pattern
    | StageMismatch            // module getReady / terminate outside its stage
    | WrongStage               // prepare / post-process outside its stage
    | AbstractHandler          // default particle arrival / departure handler
    | NoGraph                  // simulate / prepare / post-process without a graph
    | UnscheduledEventInQueue  // the queue yields an event that is not scheduled
    | EventInThePast           // the queue yields an event older than the clock
    | CleanupWhileSimulating   // cleanupSimulator during a simulation
    | HandlerRaised            // a user handler threw its own exception
    | NullString               // std::string built from a null `const char*`
    | DanglingPointer          // model only: use of a destroyed object
    | IllTypedCommand          // model only: a handler command the C++ types forbid
    | UnknownHandle            // model only: a handle that was never allocated

  datatype Result<T> = Ok(value: T) | Err(error: Error)

  /** Result of an operation that returns nothing (`void`, or throws). */
  datatype Outcome = Pass | Fail(error: Error)
}
