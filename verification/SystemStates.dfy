/** The states of the system and which may follow which. */
module SystemStates {
  /** In the order of the program's enumeration, which its comparisons rely on. */
  datatype SystemState =
    | UNINITIALIZED | INITIALIZING | INITIALIZED | STARTING | RUNNING | PAUSING | PAUSED
    | RESUMING | STOPPING | STOPPED | ERROR | FATAL_ERROR

  function Ordinal(s: SystemState): nat {
    match s
    case UNINITIALIZED => 0 case INITIALIZING => 1 case INITIALIZED => 2 case STARTING => 3
    case RUNNING => 4 case PAUSING => 5 case PAUSED => 6 case RESUMING => 7
    case STOPPING => 8 case STOPPED => 9 case ERROR => 10 case FATAL_ERROR => 11
  }

  /** The states that may follow a state; besides, the fatal state may follow every one. */
  function Followers(s: SystemState): set<SystemState> {
    match s
    case UNINITIALIZED => {INITIALIZING}
    case INITIALIZING => {INITIALIZED, ERROR}
    case INITIALIZED => {STARTING}
    case STARTING => {RUNNING, ERROR}
    case RUNNING => {PAUSING, STOPPING, ERROR}
    case PAUSING => {PAUSED, ERROR}
    case PAUSED => {RESUMING, STOPPING, ERROR}
    case RESUMING => {RUNNING, ERROR}
    case STOPPING => {STOPPED}
    case STOPPED => {STARTING, UNINITIALIZED}
    case ERROR => {UNINITIALIZED, INITIALIZING, INITIALIZED, STARTING, RUNNING, PAUSING, PAUSED,
                   RESUMING, STOPPING, STOPPED, ERROR}
    case FATAL_ERROR => {UNINITIALIZED}
  }

  predicate Legal(from: SystemState, to: SystemState) {
    to == FATAL_ERROR || to in Followers(from)
  }
}
