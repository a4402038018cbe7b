/** The five lifecycle state machines: their states and the transitions each table admits. */
module Transitions {

  datatype ProcessState = ProcCreated | ProcStarting | ProcRunning | ProcStopping | ProcExited | ProcFailed

  predicate IsValidProcessTransition(source: ProcessState, target: ProcessState) {
    source == target ||
    match source
    case ProcCreated => target == ProcStarting || target == ProcFailed
    case ProcStarting => target == ProcRunning || target == ProcStopping || target == ProcFailed
    case ProcRunning => target == ProcStopping || target == ProcExited || target == ProcFailed
    case ProcStopping => target == ProcExited || target == ProcFailed
    case ProcExited => false
    case ProcFailed => target == ProcExited
  }

  /** What a component manager runs. */
  datatype Kind = Weston | Ldde | Other(name: string)

  datatype ComponentState = Created | Preparing | Starting | WaitingReady | Running | Stopping | Stopped | Failed

  predicate IsValidWestonTransition(source: ComponentState, target: ComponentState) {
    source == target ||
    match source
    case Created => target == Preparing || target == Stopping || target == Failed
    case Preparing => target == Starting || target == Stopping || target == Failed
    case Starting => target == WaitingReady || target == Stopping || target == Failed
    case WaitingReady => target == Running || target == Stopping || target == Failed
    case Running => target == Stopping || target == Failed
    case Stopping => target == Stopped || target == Failed
    case Failed => target == Stopped
    case Stopped => false
  }

  predicate IsValidLddeTransition(source: ComponentState, target: ComponentState) {
    source == target ||
    match source
    case Created => target == Preparing || target == Stopping || target == Failed
    case Preparing => target == Starting || target == Stopping || target == Failed
    case Starting => target == WaitingReady || target == Stopping || target == Failed
    case WaitingReady => target == Running || target == Stopping || target == Failed
    case Running => target == Stopping || target == Failed
    case Stopping => target == Stopped || target == Failed
    case Failed => target == Stopped || target == Stopping
    case Stopped => false
  }

  /** The table of a component: Weston has no way from Failed to Stopping. */
  predicate IsValidComponentTransition(kind: Kind, source: ComponentState, target: ComponentState) {
    if kind == Weston then IsValidWestonTransition(source, target) else IsValidLddeTransition(source, target)
  }

  datatype SessionState = CREATED | INITIALIZING | READY | STARTING | RUNNING | STOPPING | STOPPED | FAILED | RECOVERING

  predicate IsValidSessionTransition(source: SessionState, target: SessionState) {
    source == target ||
    match source
    case CREATED => target == INITIALIZING || target == FAILED
    case INITIALIZING => target == READY || target == FAILED
    case READY => target == STARTING || target == STOPPING || target == FAILED
    case STARTING => target == RUNNING || target == STOPPING || target == FAILED || target == RECOVERING
    case RUNNING => target == STOPPING || target == FAILED || target == RECOVERING
    case STOPPING => target == STOPPED || target == FAILED
    case STOPPED => target == INITIALIZING || target == RECOVERING
    case FAILED => target == INITIALIZING || target == RECOVERING
    case RECOVERING =>
      target == RUNNING || target == STARTING || target == INITIALIZING || target == STOPPING || target == FAILED
  }

  datatype RecoveryState = Idle | Recovering | Verifying | Recovered | RecoveryFailed

  predicate IsValidRecoveryTransition(source: RecoveryState, target: RecoveryState) {
    source == target ||
    match source
    case Idle => target == Recovering || target == RecoveryFailed
    case Recovering => target == Verifying || target == RecoveryFailed
    case Verifying => target == Recovered || target == RecoveryFailed
    case Recovered => target == Idle || target == Recovering || target == RecoveryFailed
    case RecoveryFailed => target == Idle || target == Recovering
  }

  // ---------------------------------------------------------------------------------------
  // The tables read from the other end: what leads to a state

  lemma WaysOfAProcess(source: ProcessState, target: ProcessState)
    requires source != target
    ensures IsValidProcessTransition(source, target) <==>
              match target
              case ProcCreated => false
              case ProcStarting => source == ProcCreated
              case ProcRunning => source == ProcStarting
              case ProcStopping => source in {ProcStarting, ProcRunning}
              case ProcExited => source in {ProcRunning, ProcStopping, ProcFailed}
              case ProcFailed => source != ProcExited
  {
  }

  /** A component comes up in one order and can fail at any point before it is stopped; it can be stopped from
      everywhere, but Weston, once it has failed, only without a way through Stopping. */
  lemma WaysOfAComponent(kind: Kind, source: ComponentState, target: ComponentState)
    requires source != target
    ensures IsValidComponentTransition(kind, source, target) <==>
              match target
              case Created => false
              case Preparing => source == Created
              case Starting => source == Preparing
              case WaitingReady => source == Starting
              case Running => source == WaitingReady
              case Stopping => source !in {Stopped, Failed} || (source == Failed && kind != Weston)
              case Stopped => source in {Stopping, Failed}
              case Failed => source != Stopped
  {
  }

  lemma WaysOfASession(source: SessionState, target: SessionState)
    requires source != target
    ensures IsValidSessionTransition(source, target) <==>
              match target
              case CREATED => false
              case INITIALIZING => source in {CREATED, STOPPED, FAILED, RECOVERING}
              case READY => source == INITIALIZING
              case STARTING => source in {READY, RECOVERING}
              case RUNNING => source in {STARTING, RECOVERING}
              case STOPPING => source in {READY, STARTING, RUNNING, RECOVERING}
              case STOPPED => source == STOPPING
              case FAILED => source != STOPPED
              case RECOVERING => source in {STARTING, RUNNING, STOPPED, FAILED}
  {
  }

  lemma WaysOfARecovery(source: RecoveryState, target: RecoveryState)
    requires source != target
    ensures IsValidRecoveryTransition(source, target) <==>
              match target
              case Idle => source in {Recovered, RecoveryFailed}
              case Recovering => source in {Idle, Recovered, RecoveryFailed}
              case Verifying => source == Recovering
              case Recovered => source == Verifying
              case RecoveryFailed => true
  {
  }
}
