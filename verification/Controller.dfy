/** The connection controller: a transaction over the backend (crates/varmlen-service-core/src/controller.rs). */
module Controller {
  import opened Wrappers
  import opened Json
  import opened Protocol
  import opened World
  import opened Backend
  import opened ProtocolLanguage
  import Routes

  function BlockedErrorState(operationId: nat): ServiceState {
    ServiceState(BlockedError, operationId, false, false, true)
  }

  function ClearedState(operationId: nat, keepBlocked: bool): ServiceState {
    ServiceState(Cleared(keepBlocked), operationId, false, false, keepBlocked)
  }

  function ConnectedState(operationId: nat, request: ConnectRequest): ServiceState {
    ServiceState(Connected, operationId, request.excludedApps != [], true, false)
  }

  /** What the service reports once a connect that began with `previous` has ended. */
  function EndState(operationId: nat, request: ConnectRequest, previous: ServiceState, ending: Ending): ServiceState {
    match ending
    case NotValidated | NotHeld => previous
    case NotVerified(released) => if released then previous else BlockedErrorState(operationId)
    case NotStopped => BlockedErrorState(operationId)
    case Undone(_, undone, released) =>
      if !undone || (previous.phase == Connected && !released) then BlockedErrorState(operationId)
      else if previous.phase == Connected then previous
      else ClearedState(operationId, request.killswitch)
    case Finished(released) =>
      if released then ConnectedState(operationId, request) else BlockedErrorState(operationId)
  }

  /** How a connect ends on a reliable machine: only what is asked for can stand in its way. */
  ghost function Expected(machine: Machine, t: Transaction): Ending {
    if !Acceptable(machine, t.candidate, t.liveInterface) then NotValidated
    else if t.WantsHold() && !Guardable(machine, t.before.routeFile) then NotHeld
    else CONNECTED
  }

  /** The flags a client may infer from the phase. */
  predicate FlagsAgree(state: ServiceState) {
    && (state.networkBlocked <==> state.phase == Blocked || state.phase == BlockedError)
    && (state.dnsProtected <==> state.phase == Connected)
    && (state.splitActive ==> state.phase == Connected)
  }

  /** The connection that a start of the service would come back to. */
  function ReopenTarget(journal: Journal): Option<ConnectRequest> {
    if !journal.Journaled? then None
    else match journal.state.phase
      case WantConnected(request) => Some(request)
      case WantConnecting(_, previous, _) => previous
      case WantDisconnected | WantDisconnecting(_) | WantBlocked(_) => None
  }

  /** The records a connect of `candidate` may write. */
  function Intended(operationId: nat, candidate: ConnectRequest, live: Option<ConnectRequest>): DesiredState {
    DesiredState(operationId, WantConnecting(candidate, live, candidate.killswitch))
  }

  function Established(operationId: nat, request: ConnectRequest): DesiredState {
    DesiredState(operationId, WantConnected(request))
  }

  function Leaving(operationId: nat, keepBlocked: bool): DesiredState {
    DesiredState(operationId, WantDisconnecting(keepBlocked))
  }

  function Left(operationId: nat, keepBlocked: bool): DesiredState {
    DesiredState(operationId, if keepBlocked then WantBlocked(BLOCK_REASON) else WantDisconnected)
  }

  /**
   A connect: the operation, what it is to connect, the state it began in, and what was remembered of a live
   connection and reported as connected then.
   */
  datatype Transaction = Transaction(
    operationId: nat,
    candidate: ConnectRequest,
    before: Snapshot,
    live: Option<ConnectRequest>,
    liveInterface: Option<string>,
    wasConnected: bool)
  {
    function Intent(): DesiredState {
      Intended(operationId, candidate, live)
    }

    predicate WantsHold() {
      candidate.killswitch || WantsKillSwitch(live)
    }

    /** The journal names the candidate as the connection to come back to. */
    predicate IsCommitted(journal: Journal) {
      journal == Journaled(Established(operationId, candidate))
    }

    /** The journal names the connection that was live, after a restore. */
    predicate IsRestored(journal: Journal) {
      wasConnected && live.Some? && journal == Journaled(Established(operationId, live.value))
    }

    /** What may run while it does: nothing, the old process, the candidate's version or, brought back, the live one. */
    ghost predicate Admits(s: Snapshot) {
      || s.process == before.process
      || s.process.None?
      || s.Runs(candidate.xrayVersion)
      || (wasConnected && live.Some? && s.Runs(live.value.xrayVersion))
    }

    /** Nothing was connected, and the closing clear has begun. */
    predicate IsClearing(journal: Journal) {
      && !wasConnected
      && journal in {Journaled(Leaving(operationId, candidate.killswitch)),
                     Journaled(Left(operationId, candidate.killswitch))}
    }
  }

  /**
   What the machine may look like while a connect runs: the old process untouched; or the intent journaled
   and the gap covered; or one of the two connections journaled and running; or the closing clear.
   */
  ghost predicate ConnectStep(s: Snapshot, t: Transaction) {
    && t.Admits(s)
    && (|| (s.process == t.before.process && (s.journal == t.before.journal || s.journal == Journaled(t.Intent())))
        || (s.journal == Journaled(t.Intent()) && (t.WantsHold() ==> s.Held()))
        || (&& t.IsCommitted(s.journal) && s.Runs(t.candidate.xrayVersion)
            && (t.candidate.killswitch ==> s.Held()))
        || (&& t.IsRestored(s.journal) && s.Runs(t.live.value.xrayVersion)
            && (t.live.value.killswitch ==> s.Held()))
        || (t.IsClearing(s.journal) && (s.journal.state.phase.WantDisconnecting? || s.process.None?)))
  }

  /**
   What a connect that goes back to the state it began in has done to the routes, by its last call: nothing, if
   the candidate was refused; some of an installation, if that failed; and if the hold could not be verified, it
   is released, which leaves it to a live kill switch and removes it otherwise.
   */
  ghost predicate RefusedAs(call: Call, now: Snapshot, t: Transaction) {
    match call
    case Validate => now.SameRoutes(t.before)
    case InstallHold => Routes.AtMostOneMissing(now, t.before) && (!t.WantsHold() ==> now.SameRoutes(t.before))
    case ReleaseHold =>
      if WantsKillSwitch(t.live) then now.Held() else now.halves == {} && now.routeFile.NoRouteFile?
    case _ => false
  }

  /**
   What the machine looks like from the verified hold on: held, until a connection that does without the
   routes is journaled or the closing clear has begun.
   */
  ghost predicate Bridged(s: Snapshot, t: Transaction) {
    || s.Held()
    || (t.IsCommitted(s.journal) && !t.candidate.killswitch)
    || (t.IsRestored(s.journal) && !t.live.value.killswitch)
    || t.IsClearing(s.journal)
  }

  /**
   Exactly when a block that a connect reports has its routes, by its last call: always after a clear; after a
   refused candidate, if it had them before; and once the hold was released, if a live connection asks for them.
   After a failed installation it depends on where that stopped.
   */
  ghost predicate BlockHeldAs(calls: seq<Event>, now: Snapshot, t: Transaction) {
    calls != [] &&
      match calls[|calls| - 1].call
      case Validate => now.Held() <==> t.before.Held()
      case InstallHold => Routes.AtMostOneMissing(now, t.before)
      case ReleaseHold => now.Held() <==> WantsKillSwitch(t.live)
      case ClearNetwork(_) => now.Held()
      case _ => false
  }

  /** Every state passed through is such a step, and its journal is the first one or one that was written. */
  ghost predicate Passed(visited: set<Snapshot>, written: seq<DesiredState>, t: Transaction) {
    forall s | s in visited ::
      && ConnectStep(s, t)
      && (s.journal == t.before.journal || (s.journal.Journaled? && s.journal.state in written))
  }

  /** The same from the verified hold on. */
  ghost predicate Crossed(visited: set<Snapshot>, written: seq<DesiredState>, t: Transaction) {
    && Passed(visited, written, t)
    && (t.WantsHold() ==> forall s | s in visited :: Bridged(s, t))
  }

  lemma CrossedAlso(visited: set<Snapshot>, written: seq<DesiredState>, s: Snapshot, t: Transaction)
    requires Crossed(visited, written, t)
    requires s in visited || t.Admits(s)
    requires s.journal == Journaled(t.Intent()) && t.Intent() in written && (t.WantsHold() ==> s.Held())
    ensures Crossed(visited + {s}, written, t)
  {}

  lemma NothingCrossed(written: seq<DesiredState>, t: Transaction)
    ensures Crossed({}, written, t)
  {}

  lemma CrossedPassed(visited: set<Snapshot>, written: seq<DesiredState>, t: Transaction)
    requires Crossed(visited, written, t)
    ensures Passed(visited, written, t)
  {}

  lemma CrossingBegins(s: Snapshot, written: seq<DesiredState>, t: Transaction)
    requires s.process == t.before.process
    requires s.journal == Journaled(t.Intent()) && t.Intent() in written && (t.WantsHold() ==> s.Held())
    ensures Crossed({s}, written, t)
  {}

  /** Only the closing clear was added to what was passed through. */
  lemma CrossedClear(visited: set<Snapshot>, more: set<Snapshot>, written: seq<DesiredState>, wrote: seq<DesiredState>,
                     flying: Snapshot, t: Transaction)
    requires Crossed(visited, written, t) && flying in visited && !t.wasConnected && written <= wrote
    requires forall s | s in more ::
      || s in visited || s == flying
      || (&& t.IsClearing(s.journal) && s.journal.state in wrote && s.process in {None, flying.process}
          && (s.journal.state.phase.WantDisconnecting? || s.process.None?))
    ensures Crossed(more, wrote, t)
  {}

  /** Only a relaunch under the cover of `flying` was added, and perhaps the record of it. */
  lemma CrossedRelaunch(visited: set<Snapshot>, more: set<Snapshot>, written: seq<DesiredState>,
                        wrote: seq<DesiredState>,
                        flying: Snapshot, now: Snapshot, t: Transaction)
    requires Crossed(visited, written, t) && written <= wrote
    requires flying.journal == Journaled(t.Intent()) && t.Intent() in written && (t.WantsHold() ==> flying.Held())
    requires forall s | s in more ::
      || s in visited
      || (&& s == flying.(activeFile := s.activeFile, process := s.process)
          && (s.process.None? || (t.wasConnected && t.live.Some? && s.Runs(t.live.value.xrayVersion))))
      || (&& s == now && t.IsRestored(s.journal) && s.Runs(t.live.value.xrayVersion) && s.journal.state in wrote
          && s.SameButFiles(flying))
    ensures Crossed(more, wrote, t)
  {}

  /** Nothing but routes changed since a state that was passed through. */
  lemma PassedRoutes(visited: set<Snapshot>, more: set<Snapshot>, written: seq<DesiredState>, held: Snapshot,
                     t: Transaction)
    requires Passed(visited, written, t) && held in visited
    requires held.process == t.before.process && held.journal == Journaled(t.Intent())
    requires forall s | s in more :: s in visited || s.SameButRoutes(held)
    ensures Passed(more, written, t)
  {}

  lemma UntouchedStep(s: Snapshot, t: Transaction)
    requires s.process == t.before.process
    requires s.journal == t.before.journal || s.journal == Journaled(t.Intent())
    ensures ConnectStep(s, t)
  {}

  lemma PassedUntouched(visited: set<Snapshot>, t: Transaction)
    requires forall s | s in visited :: s.process == t.before.process && s.journal == t.before.journal
    ensures Passed(visited, [], t)
  {}

  /** What was passed through before the verified hold and after it, together. */
  lemma PassedBoth(earlier: set<Snapshot>, wrote: seq<DesiredState>, later: set<Snapshot>, written: seq<DesiredState>,
                   t: Transaction)
    requires Passed(earlier, wrote, t) && Passed(later, written, t)
    requires forall state | state in wrote :: state in written
    ensures Passed(later + earlier, written, t)
  {}

  /** The journal records a connect writes, in order. */
  ghost predicate ConnectWrites(written: seq<DesiredState>, t: Transaction) {
    || written == []
    || written == [t.Intent()]
    || written == [t.Intent(), Established(t.operationId, t.candidate)]
    || (t.wasConnected && t.live.Some? && written == [t.Intent(), Established(t.operationId, t.live.value)])
    || (!t.wasConnected && written == [t.Intent(), Leaving(t.operationId, t.candidate.killswitch)])
    || (&& !t.wasConnected
        && written == [t.Intent(), Leaving(t.operationId, t.candidate.killswitch),
                       Left(t.operationId, t.candidate.killswitch)])
  }

  lemma StopFailed(previous: ServiceState, t: Transaction)
    ensures ConnectWrites([t.Intent()], t)
    ensures EndState(t.operationId, t.candidate, previous, NotStopped) == BlockedErrorState(t.operationId)
  {}

  lemma IntentFirst(written: seq<DesiredState>, t: Transaction)
    requires ConnectWrites(written, t) && written != []
    ensures written[0] == t.Intent()
  {}

  /**
   What may be on disk while a disconnect runs that began in `before`; if it is to end in a block, at most
   one route there was is missing at a time.
   */
  ghost predicate DisconnectStep(s: Snapshot, before: Snapshot, operationId: nat, keepBlocked: bool) {
    && (|| s == before
        || s.journal == Journaled(Leaving(operationId, keepBlocked))
        || (s.process.None? && s.journal == Journaled(Left(operationId, keepBlocked))))
    && s.process in {None, before.process}
    && (keepBlocked ==> Routes.AtMostOneMissing(s, before))
  }

  class ConnectionController {
    const backend: WindowsBackend
    const machine: Machine
    var state: ServiceState
    ghost var calls: seq<Event>
    ghost var node: Node

    /** The connection is exactly what the backend remembers, the files hold and the journal names. */
    ghost predicate Live(request: ConnectRequest, interfaceName: string)
      reads backend, machine
    {
      && backend.activeRequest == Some(request)
      && backend.activeInterface == Some(interfaceName)
      && backend.previousRequest.None?
      && ReopenTarget(machine.now.journal) == Some(request)
      && machine.now.activeFile.Some?
      && Effective(request, interfaceName) == Ok(machine.now.activeFile.value)
      && machine.now.process.Some?
      && machine.now.process.value.version == request.xrayVersion
      && machine.now.process.value.config == machine.now.activeFile
    }

    ghost predicate Linked()
      reads this, backend, machine
    {
      && backend.machine == machine
      && backend.Valid()
      && node == Run(calls)
    }

    /** What the backend holds is what `resting` reports. */
    ghost predicate Rests(resting: ServiceState)
      reads backend, machine
    {
      && resting.phase in {Disconnected, Connected, Blocked, BlockedError}
      && FlagsAgree(resting)
      && (resting.phase == Connected ==>
            backend.activeRequest.Some? && backend.activeInterface.Some? &&
            Live(backend.activeRequest.value, backend.activeInterface.value))
      && (resting.phase == Disconnected ==>
            backend.active.None? && backend.activeRequest.None? && backend.previousRequest.None?)
    }

    /** Between operations. */
    ghost predicate Valid()
      reads this, backend, machine
    {
      Linked() && node == Settled(state.phase) && Rests(state)
    }

    constructor (backend: WindowsBackend)
      requires backend.Valid() && backend.Remembered() == EMPTY_SLOTS && backend.active.None?
      ensures Valid() && this.backend == backend && machine == backend.machine
      ensures state == ServiceState(Disconnected, 0, false, false, false) && calls == []
    {
      this.backend := backend;
      this.machine := backend.machine;
      state := ServiceState(Disconnected, 0, false, false, false);
      calls := [];
      node := Settled(Disconnected);
    }

    ghost method Record(call: Call, ok: bool)
      requires node == Run(calls)
      modifies this`calls, this`node
      ensures calls == old(calls) + [Event(call, ok)]
      ensures node == Next(old(node), Event(call, ok)) == Run(calls)
    {
      RunAppend(calls, Event(call, ok));
      calls := calls + [Event(call, ok)];
      node := Next(node, Event(call, ok));
    }

    /** The connect that would begin now. */
    ghost function Begun(operationId: nat, request: ConnectRequest): Transaction
      reads this, backend, machine
    {
      Transaction(operationId, request, machine.now, backend.activeRequest, backend.activeInterface,
                  state.phase == Connected)
    }

    /** The candidate is prepared, the intent is journaled and the hold, if one is wanted, is there. */
    ghost predicate Ready(t: Transaction)
      reads this, backend, machine
    {
      && Linked()
      && backend.pendingOperationId == t.operationId
      && backend.candidateRequest == Some(t.candidate)
      && backend.candidateInterface.Some?
      && (t.liveInterface.Some? ==> backend.candidateInterface == t.liveInterface)
      && backend.preparedCandidate.Some?
      && backend.preparedCandidate.value.version == t.candidate.xrayVersion
      && Effective(t.candidate, backend.candidateInterface.value) == Ok(backend.preparedCandidate.value.contents)
      && machine.now.candidateFile == Some(backend.preparedCandidate.value.contents)
      && machine.now.journal == Journaled(t.Intent())
      && machine.written == [t.Intent()]
      && (t.WantsHold() ==> machine.now.Held())
    }

    /** And so it has been since the hold was verified. */
    ghost predicate Covered(t: Transaction)
      reads this, backend, machine
    {
      Ready(t) && Crossed(machine.visited, machine.written, t)
    }

    /** Covered, with the connection that was live set aside. */
    ghost predicate InFlight(t: Transaction)
      reads this, backend, machine
    {
      && Covered(t)
      && (t.wasConnected ==>
            && t.live.Some? && t.liveInterface.Some?
            && backend.previousRequest == t.live && backend.previousInterface == t.liveInterface
            && backend.activeRequest.None? && backend.activeInterface.None?)
    }

    /** The last call cleared up: nothing runs, and a block has its routes. */
    ghost predicate ClearedUp(keepBlocked: bool)
      reads this, machine
    {
      && calls != [] && calls[|calls| - 1] == Event(ClearNetwork(keepBlocked), true)
      && machine.now.process.None?
      && (keepBlocked ==> machine.now.Held())
    }

    /** Nothing was connected before: clear up, and block if the candidate asked for it. */
    method ClearCandidate(operationId: nat, requestedKillSwitch: bool, ghost t: Transaction) returns (r: Reply)
      requires InFlight(t) && node == Compensating(false) && !t.wasConnected
      requires t.operationId == operationId && t.candidate.killswitch == requestedKillSwitch
      modifies this`state, this`calls, this`node, backend, machine`now, machine`visited,
               machine`written, machine`spawned
      ensures Valid()
      ensures machine.written != [] && ConnectWrites(machine.written, t) && Crossed(machine.visited, machine.written, t)
      ensures backend.activeRequest in {None, old(backend.activeRequest)}
      ensures backend.pendingOperationId == operationId
      ensures state == if r.Done? then ClearedState(operationId, requestedKillSwitch)
              else BlockedErrorState(operationId)
      ensures r.Done? ==> ClearedUp(requestedKillSwitch)
      ensures calls == old(calls) + [Event(ClearNetwork(requestedKillSwitch), r.Done?)]
      ensures r.Failed? ==> r.error == CleanupFailed
      ensures machine.reliable ==>
                (r.Done? <==> (requestedKillSwitch ==> Guardable(machine, old(machine.now).routeFile)))
    {
      hide Effective, Guardable, Run, Next, Crossed, Routes.AtMostOneMissing;
      CompensationRows(requestedKillSwitch);
      ghost var visited, written, flying := machine.visited, machine.written, machine.now;
      r := backend.ClearNetworkState(requestedKillSwitch);
      CrossedClear(visited, machine.visited, written, machine.written, flying, t);
      Record(ClearNetwork(requestedKillSwitch), r.Done?);
      state := if r.Done? then ClearedState(operationId, requestedKillSwitch) else BlockedErrorState(operationId);
    }

    /** Release the hold under a connection that was just journaled, new or restored. */
    method CloseHold(operationId: nat, settled: ServiceState, ghost request: ConnectRequest,
                     ghost interfaceName: string,
                     ghost t: Transaction) returns (r: Reply, ghost read: bool)
      requires Linked() && node in {Committed, Restored} && Live(request, interfaceName) && t.operationId == operationId
      requires machine.now.journal == Journaled(Established(operationId, request))
      requires request == t.candidate || (t.wasConnected && t.live == Some(request))
      requires Crossed(machine.visited, machine.written, t)
      requires request.killswitch ==> machine.now.Held()
      requires Established(operationId, request) in machine.written
      requires FlagsAgree(settled) && settled.phase == Connected
      modifies this`state, this`calls, this`node, machine`now, machine`visited
      ensures Valid()
      ensures Crossed(machine.visited, machine.written, t)
      ensures state == if r.Done? then settled else BlockedErrorState(operationId)
      ensures r.Done? ==> Live(request, interfaceName)
      ensures r.Done? && request.killswitch ==> machine.now == old(machine.now)
      ensures r.Done? && !request.killswitch ==>
        && machine.now.halves == {} && machine.now.routeFile.NoRouteFile?
        && (read ==> machine.now.hosts == old(machine.now).hosts - old(machine.now).Named())
      ensures calls == old(calls) + [Event(ReleaseHold, r.Done?)]
      ensures r.Failed? ==> r.error in {HoldFailed, CleanupFailed}
      ensures machine.reliable ==> r.Done?
    {
      hide Effective, Run, Next;
      CandidateRows(Disconnected, t.wasConnected);
      CompensationRows(false);
      r, read := backend.ReleaseTransitionHold();
      Record(ReleaseHold, r.Done?);
      state := if r.Done? then settled else BlockedErrorState(operationId);
    }

    /** Bring the connection that was live back, under the hold. */
    method Reinstate(ghost t: Transaction) returns (r: Reply)
      requires InFlight(t) && node == Compensating(true) && t.wasConnected
      modifies this`calls, this`node, backend, machine`now, machine`visited,
               machine`written, machine`spawned
      ensures Linked() && Crossed(machine.visited, machine.written, t)
      ensures backend.pendingOperationId == t.operationId
      ensures r.Done? ==>
        && node == Restored && Live(t.live.value, t.liveInterface.value)
        && machine.now.journal == Journaled(Established(t.operationId, t.live.value))
        && machine.written == [t.Intent(), Established(t.operationId, t.live.value)]
        && (t.live.value.killswitch ==> machine.now.Held())
      ensures r.Failed? ==>
        && node == Settled(BlockedError) && backend.activeRequest.None?
        && machine.written == [t.Intent()]
        && r.error == RestoreFailed
      ensures calls == old(calls) + [Event(RestorePrevious, r.Done?)]
      ensures machine.reliable && Runnable(machine, t.live.value, t.liveInterface) ==> r.Done?
    {
      hide Effective, Runnable, Run, Next, Crossed;
      CompensationRows(false);
      ghost var visited, written, flying := machine.visited, machine.written, machine.now;
      r := backend.RestorePrevious();
      Record(RestorePrevious, r.Done?);
      CrossedRelaunch(visited, machine.visited, written, machine.written, flying, machine.now, t);
    }

    /** A connection was live before: bring it back under the hold, then release the hold. */
    method RestoreConnection(operationId: nat, previousState: ServiceState, ghost t: Transaction)
      returns (r: Reply, ghost undone: bool)
      requires InFlight(t) && node == Compensating(true) && t.wasConnected && t.operationId == operationId
      requires FlagsAgree(previousState) && previousState.phase == Connected
      modifies this`state, this`calls, this`node, backend, machine`now, machine`visited,
               machine`written, machine`spawned
      ensures Valid()
      ensures machine.written != [] && ConnectWrites(machine.written, t) && Crossed(machine.visited, machine.written, t)
      ensures backend.activeRequest in {None, t.live} && backend.pendingOperationId == operationId
      ensures state == if r.Done? then previousState else BlockedErrorState(operationId)
      ensures r.Done? ==>
                Live(t.live.value, t.liveInterface.value) && (t.live.value.killswitch ==> machine.now.Held())
      ensures calls == old(calls) + UndoingWord(true, t.candidate.killswitch, undone, r.Done?)
      ensures r.Done? ==> undone
      ensures r.Failed? ==> if undone then r.error in {HoldFailed, CleanupFailed} else r.error == RestoreFailed
      ensures machine.reliable && Runnable(machine, t.live.value, t.liveInterface) ==> r.Done?
    {
      hide Effective, Runnable, Run, Next, Crossed;
      state := state.(phase := Restoring);
      r := Reinstate(t);
      undone := r.Done?;
      if r.Failed? {
        state := BlockedErrorState(operationId);
        return;
      }
      ghost var read;
      r, read := CloseHold(operationId, previousState, t.live.value, t.liveInterface.value, t);
    }

    /** Undo a candidate that failed after the hold was verified. */
    method RecoverCandidateFailure(operationId: nat, wasConnected: bool, requestedKillSwitch: bool,
                                   previousState: ServiceState,
                                   ghost t: Transaction) returns (r: Reply, ghost undone: bool)
      requires InFlight(t) && node == Compensating(wasConnected)
      requires t.operationId == operationId && t.wasConnected == wasConnected
               && t.candidate.killswitch == requestedKillSwitch
      requires FlagsAgree(previousState) && (wasConnected <==> previousState.phase == Connected)
      modifies this`state, this`calls, this`node, backend, machine`now, machine`visited,
               machine`written, machine`spawned
      ensures Valid()
      ensures machine.written != [] && ConnectWrites(machine.written, t) && Crossed(machine.visited, machine.written, t)
      ensures backend.activeRequest in {None, old(backend.activeRequest), t.live}
      ensures backend.pendingOperationId == operationId
      ensures state == if r.Failed? then BlockedErrorState(operationId)
                       else if wasConnected then previousState else ClearedState(operationId, requestedKillSwitch)
      ensures r.Done? && wasConnected ==>
                Live(t.live.value, t.liveInterface.value) && (t.live.value.killswitch ==> machine.now.Held())
      ensures r.Done? && !wasConnected ==> ClearedUp(requestedKillSwitch)
      ensures calls == old(calls) + UndoingWord(wasConnected, requestedKillSwitch, undone, r.Done?)
      ensures if wasConnected then r.Done? ==> undone else r.Done? <==> undone
      ensures r.Failed? ==>
                if undone then r.error in {HoldFailed, CleanupFailed}
                else r.error == if wasConnected then RestoreFailed else CleanupFailed
      ensures machine.reliable && wasConnected && Runnable(machine, t.live.value, t.liveInterface) ==> r.Done?
      ensures machine.reliable && !wasConnected ==>
                (r.Done? <==> (requestedKillSwitch ==> Guardable(machine, old(machine.now).routeFile)))
    {
      hide Effective, Runnable, Guardable, Run, Next, Crossed, ConnectWrites;
      if wasConnected {
        r, undone := RestoreConnection(operationId, previousState, t);
      } else {
        r := ClearCandidate(operationId, requestedKillSwitch, t);
        undone := r.Done?;
      }
    }

    /** Start the candidate. */
    method LaunchCandidate(ghost from: ConnectionPhase, ghost t: Transaction) returns (r: Reply)
      requires InFlight(t)
      requires node == if t.wasConnected then Stopped else HoldVerified(from)
      requires t.wasConnected <==> from == Connected
      modifies this`state, this`calls, this`node, backend`active, machine`now, machine`visited, machine`spawned
      ensures InFlight(t)
      ensures node == if r.Done? then Started(t.wasConnected) else Compensating(t.wasConnected)
      ensures r.Done? ==>
        && machine.now.process.Some?
        && machine.now.process.value.version == t.candidate.xrayVersion
        && machine.now.process.value.config == machine.now.candidateFile
      ensures calls == old(calls) + [Event(StartCandidate, r.Done?)]
      ensures r.Failed? ==> r.error == XrayStartFailed
      ensures machine.reliable ==> r.Done?
    {
      hide Effective, Run, Next, Crossed;
      CandidateRows(from, t.wasConnected);
      state := state.(phase := Starting);
      ghost var visited := machine.visited;
      r := backend.StartCandidate();
      Record(StartCandidate, r.Done?);
      CrossedAlso(visited, machine.written, machine.now, t);
    }

    /** Start the candidate and wait until its adapter is ready. */
    method TryCandidate(ghost from: ConnectionPhase, ghost t: Transaction) returns (r: Reply, ghost stage: Stage)
      requires InFlight(t)
      requires node == if t.wasConnected then Stopped else HoldVerified(from)
      requires t.wasConnected <==> from == Connected
      modifies this`state, this`calls, this`node, backend`active, machine`now, machine`visited, machine`spawned
      ensures InFlight(t)
      ensures node == if r.Done? then Verified(t.wasConnected) else Compensating(t.wasConnected)
      ensures r.Done? ==>
        && machine.now.process.Some?
        && machine.now.process.value.version == t.candidate.xrayVersion
        && machine.now.process.value.config == machine.now.candidateFile
      ensures calls == old(calls) + if r.Done? then [Event(StartCandidate, true), Event(VerifyCandidate, true)]
                                    else TryingWord(stage)
      ensures r.Failed? ==> stage != AtCommit && BlamesCandidate(r.error, stage)
      ensures machine.reliable ==> r.Done?
    {
      hide Effective, Run, Next, Crossed;
      CandidateRows(from, t.wasConnected);
      stage := AtStart;
      r := LaunchCandidate(from, t);
      if r.Failed? {
        return;
      }
      stage := AtVerify;
      r := backend.VerifyCandidate();
      Record(VerifyCandidate, r.Done?);
    }

    /** Commit a candidate that runs and was verified. The hold is still there, whoever asked for it. */
    method CommitCandidate(request: ConnectRequest, ghost t: Transaction) returns (r: Reply)
      requires InFlight(t) && node == Verified(t.wasConnected) && t.candidate == request
      requires machine.now.process.Some?
      requires machine.now.process.value.version == request.xrayVersion
      requires machine.now.process.value.config == machine.now.candidateFile
      modifies this`calls, this`node, backend, machine`now, machine`visited, machine`written
      ensures r.Failed? ==>
        && node == Compensating(t.wasConnected) && InFlight(t)
        && backend.activeRequest == old(backend.activeRequest)
      ensures r.Done? ==>
        && Linked() && node == Committed && Live(request, old(backend.candidateInterface).value)
        && machine.now.journal == Journaled(Established(t.operationId, request))
        && machine.written == [t.Intent(), Established(t.operationId, request)]
        && Crossed(machine.visited, machine.written, t)
      ensures r.Done? && t.WantsHold() ==> machine.now.Held()
      ensures backend.pendingOperationId == t.operationId
      ensures calls == old(calls) + [Event(CommitPolicy, r.Done?)]
      ensures r.Failed? ==> BlamesCandidate(r.error, AtCommit)
      ensures machine.reliable ==> r.Done?
    {
      hide Effective, Run, Next;
      CandidateRows(Disconnected, t.wasConnected);
      r := backend.CommitPolicy(request);
      Record(CommitPolicy, r.Done?);
    }

    /** Start the candidate, verify it and commit it. */
    method EstablishCandidate(request: ConnectRequest, ghost from: ConnectionPhase, ghost t: Transaction)
      returns (r: Reply, ghost stage: Stage)
      requires InFlight(t) && t.candidate == request
      requires node == if t.wasConnected then Stopped else HoldVerified(from)
      requires t.wasConnected <==> from == Connected
      modifies this`state, this`calls, this`node, backend, machine`now, machine`visited, machine`written,
               machine`spawned
      ensures r.Failed? ==>
        && node == Compensating(t.wasConnected) && InFlight(t)
        && backend.activeRequest == old(backend.activeRequest)
        && BlamesCandidate(r.error, stage)
      ensures r.Done? ==>
        && Linked() && node == Committed && Live(request, old(backend.candidateInterface).value)
        && machine.now.journal == Journaled(Established(t.operationId, request))
        && machine.written == [t.Intent(), Established(t.operationId, request)]
        && Crossed(machine.visited, machine.written, t)
        && (t.WantsHold() ==> machine.now.Held())
      ensures backend.pendingOperationId == t.operationId
      ensures calls == old(calls) + if r.Failed? then TryingWord(stage) else
                [Event(StartCandidate, true), Event(VerifyCandidate, true), Event(CommitPolicy, true)]
      ensures machine.reliable ==> r.Done?
    {
      hide Effective, Run, Next, Crossed, BlamesCandidate;
      r, stage := TryCandidate(from, t);
      if r.Failed? {
        return;
      }
      r := CommitCandidate(request, t);
      stage := AtCommit;
    }

    /** Undo a candidate that failed with `error`, and report that error unless undoing it fails as well. */
    method GiveUp(operationId: nat, request: ConnectRequest, wasConnected: bool, previousState: ServiceState,
                  error: ServiceError, ghost stage: Stage, ghost t: Transaction)
      returns (r: Reply, ghost ending: Ending)
      requires InFlight(t) && node == Compensating(wasConnected) && BlamesCandidate(error, stage)
      requires t.operationId == operationId && t.candidate == request && t.wasConnected == wasConnected
      requires FlagsAgree(previousState) && (wasConnected <==> previousState.phase == Connected)
      modifies this`state, this`calls, this`node, backend, machine`now, machine`visited, machine`written,
               machine`spawned
      ensures Valid() && r.Failed?
      ensures machine.written != [] && ConnectWrites(machine.written, t) && Crossed(machine.visited, machine.written, t)
      ensures backend.activeRequest in {None, old(backend.activeRequest), t.live}
      ensures backend.pendingOperationId == operationId
      ensures
        || state == BlockedErrorState(operationId)
        || (&& wasConnected && state == previousState && Live(t.live.value, t.liveInterface.value)
            && (t.live.value.killswitch ==> machine.now.Held()))
        || (&& !wasConnected && state == ClearedState(operationId, request.killswitch)
            && ClearedUp(request.killswitch))
      ensures ending.Undone? && ending.stage == stage
      ensures calls == old(calls) + UndoingWord(wasConnected, request.killswitch, ending.undone, ending.released)
      ensures state == EndState(operationId, request, previousState, ending)
      ensures Answers(r, wasConnected, ending)
    {
      hide Effective, Runnable, Guardable, Run, Next, Crossed, ConnectWrites, UndoingWord, BlamesCandidate, FlagsAgree;
      ghost var undone;
      r, undone := RecoverCandidateFailure(operationId, wasConnected, request.killswitch, previousState, t);
      ending := Undone(stage, undone, r.Done?);
      if r.Done? {
        r := Failed(error);
      }
    }

    /** From the verified hold on: start the candidate, verify it, commit it, release the hold. */
    method StartAndCommit(operationId: nat, request: ConnectRequest, wasConnected: bool, previousState: ServiceState,
                          ghost t: Transaction) returns (r: Reply, ghost ending: Ending)
      requires InFlight(t)
      requires t.operationId == operationId && t.candidate == request && t.wasConnected == wasConnected
      requires node == if wasConnected then Stopped else HoldVerified(previousState.phase)
      requires FlagsAgree(previousState) && (wasConnected <==> previousState.phase == Connected)
      modifies this`state, this`calls, this`node, backend, machine`now, machine`visited,
               machine`written, machine`spawned
      ensures Valid()
      ensures machine.written != [] && ConnectWrites(machine.written, t) && Crossed(machine.visited, machine.written, t)
      ensures backend.activeRequest in {None, old(backend.activeRequest), t.live, Some(request)}
      ensures backend.pendingOperationId == operationId
      ensures r.Done? ==>
        && state == ConnectedState(operationId, request)
        && machine.written == [t.Intent(), Established(operationId, request)]
        && Live(request, backend.activeInterface.value)
        && (t.liveInterface.Some? ==> backend.activeInterface == t.liveInterface)
        && (if request.killswitch then machine.now.Held()
            else machine.now.halves == {} && machine.now.routeFile.NoRouteFile?)
      ensures r.Failed? ==>
        || state == BlockedErrorState(operationId)
        || (&& wasConnected && state == previousState && Live(t.live.value, t.liveInterface.value)
            && (t.live.value.killswitch ==> machine.now.Held()))
        || (&& !wasConnected && state == ClearedState(operationId, request.killswitch)
            && ClearedUp(request.killswitch))
      ensures ending.Undone? || ending.Finished?
      ensures calls == old(calls) + CandidateWord(wasConnected, request.killswitch, ending)
      ensures state == EndState(operationId, request, previousState, ending)
      ensures Answers(r, wasConnected, ending)
      ensures machine.reliable ==> ending == CONNECTED
    {
      hide Effective, Run, Next, Crossed, UndoingWord, TryingWord, BlamesCandidate;
      ghost var stage;
      ghost var wanted := backend.candidateInterface;
      r, stage := EstablishCandidate(request, previousState.phase, t);
      if r.Done? {
        ghost var read;
        r, read := CloseHold(operationId, ConnectedState(operationId, request), request, wanted.value, t);
        ending := Finished(r.Done?);
        return;
      }
      r, ending := GiveUp(operationId, request, wasConnected, previousState, r.error, stage, t);
    }

    /** The routes are as the call leaves them that refused the connect. */
    ghost predicate Refused(t: Transaction)
      reads this, machine
    {
      calls != [] && RefusedAs(calls[|calls| - 1].call, machine.now, t)
    }

    /** What rests does so beside a prepared candidate. */
    twostate lemma RestsStill(resting: ServiceState)
      requires old(Rests(resting))
      requires backend.active == old(backend.active) && backend.activeRequest == old(backend.activeRequest)
      requires backend.activeInterface == old(backend.activeInterface)
      requires backend.previousRequest == old(backend.previousRequest)
      requires machine.now == old(machine.now).(candidateFile := machine.now.candidateFile)
      ensures Rests(resting)
    {
      hide Effective, FlagsAgree, ReopenTarget;
    }

    lemma ValidationRefuses(t: Transaction)
      requires calls != [] && calls[|calls| - 1].call == Validate && machine.now.SameRoutes(t.before)
      ensures Refused(t)
    {}

    /** Validate the candidate; the live connection is not touched. */
    method PrepareCandidate(operationId: nat, request: ConnectRequest) returns (r: Reply)
      requires Valid() && machine.visited == {machine.now} && machine.written == []
      modifies this`state, this`calls, this`node, backend`candidateRequest, backend`preparedCandidate,
               backend`candidateInterface, backend`pendingOperationId, machine`now, machine`visited
      ensures Linked() && Rests(old(state))
      ensures machine.now == old(machine.now).(candidateFile := machine.now.candidateFile)
      ensures machine.visited == {old(machine.now), machine.now}
      ensures backend.pendingOperationId == operationId
      ensures r.Failed? ==>
        && state == old(state) && node == Settled(state.phase)
        && r.error == ValidationFailed && Refused(old(Begun(operationId, request)))
      ensures calls == old(calls) + [Event(Validate, r.Done?)]
      ensures machine.reliable ==> (r.Done? <==> Acceptable(machine, request, backend.activeInterface))
      ensures r.Done? ==>
        && node == Validated(old(state).phase)
        && backend.candidateRequest == Some(request)
        && backend.candidateInterface.Some?
        && (backend.activeInterface.Some? ==> backend.candidateInterface == backend.activeInterface)
        && backend.preparedCandidate.Some?
        && backend.preparedCandidate.value.version == request.xrayVersion
        && Effective(request, backend.candidateInterface.value) == Ok(backend.preparedCandidate.value.contents)
        && machine.now.candidateFile == Some(backend.preparedCandidate.value.contents)
    {
      hide Effective, Acceptable, Run, Next, Rests, Refused;
      HoldRows(state.phase);
      backend.SetOperationId(operationId);
      var previousState := state;
      state := state.(phase := Validating, operationId := operationId);
      r := backend.ValidateCandidate(request);
      Record(Validate, r.Done?);
      RestsStill(previousState);
      if r.Failed? {
        state := previousState;
        ValidationRefuses(old(Begun(operationId, request)));
      }
    }

    /**
     A hold that could not be verified is released at once; the live connection was never touched. Where no live
     connection asks for the routes, they are gone, whatever is reported.
     */
    method RefuseHold(operationId: nat, previousState: ServiceState) returns (r: Reply)
      requires Linked() && node == HoldRefused(previousState.phase) && Rests(previousState)
      modifies this`state, this`calls, this`node, machine`now, machine`visited
      ensures Linked() && node == Settled(state.phase) && Rests(previousState)
      ensures state == if r.Done? then previousState else BlockedErrorState(operationId)
      ensures forall s | s in machine.visited :: s in old(machine.visited) || s.SameButRoutes(old(machine.now))
      ensures machine.now.SameButRoutes(old(machine.now))
      ensures calls == old(calls) + [Event(Call.ReleaseHold, r.Done?)]
      ensures WantsKillSwitch(backend.activeRequest) ==> machine.now == old(machine.now)
      ensures r.Done? && !WantsKillSwitch(backend.activeRequest) ==>
                machine.now.halves == {} && machine.now.routeFile.NoRouteFile?
      ensures machine.reliable && (WantsKillSwitch(backend.activeRequest) ==> old(machine.now).Held()) ==> r.Done?
      ensures r.Failed? ==> r.error in {HoldFailed, CleanupFailed}
    {
      hide Effective, Run, Next;
      HoldRows(previousState.phase);
      ghost var read;
      r, read := backend.ReleaseTransitionHold();
      Record(ReleaseHold, r.Done?);
      state := if r.Done? then previousState else BlockedErrorState(operationId);
    }

    lemma RefusedBlock(t: Transaction)
      requires Refused(t)
      ensures BlockHeldAs(calls, machine.now, t)
    {}

    lemma ClearedBlock(t: Transaction)
      requires ClearedUp(true)
      ensures BlockHeldAs(calls, machine.now, t)
    {}

    /** The candidate of `t` is prepared, and nothing else has happened. */
    ghost predicate Prepared(t: Transaction)
      reads this, backend, machine
    {
      && Linked()
      && backend.candidateRequest == Some(t.candidate) && backend.pendingOperationId == t.operationId
      && backend.activeRequest == t.live
      && machine.now == t.before.(candidateFile := machine.now.candidateFile)
      && machine.visited == {t.before, machine.now} && machine.written == []
    }

    /**
     Journal the intent and install the hold; the live connection is not touched, and no more than one route is
     missing.
     */
    method InstallHold(previousState: ServiceState, ghost t: Transaction) returns (r: Reply)
      requires Prepared(t) && node == Validated(previousState.phase) && Rests(previousState)
      modifies this`state, this`calls, this`node, machine`now, machine`visited, machine`written
      ensures Linked() && Rests(previousState)
      ensures node == if r.Done? then Installed(previousState.phase) else Settled(previousState.phase)
      ensures machine.written == [] || machine.written == [t.Intent()]
      ensures machine.now in machine.visited && Passed(machine.visited, machine.written, t)
      ensures forall s | s in machine.visited :: s.process == t.before.process && Routes.AtMostOneMissing(s, t.before)
      ensures r.Done? ==>
        && machine.now.SameButRoutes(old(machine.now).(journal := machine.now.journal))
        && machine.now.journal == Journaled(t.Intent())
        && machine.written == [t.Intent()]
        && (t.WantsHold() ==> machine.now.Held())
      ensures machine.now.activeFile == t.before.activeFile
      ensures calls == old(calls) + [Event(Call.InstallHold, r.Done?)]
      ensures r.Failed? ==> state == previousState && RefusedAs(Call.InstallHold, machine.now, t)
      ensures r.Failed? ==> r.error in {HoldFailed, Internal}
      ensures machine.reliable ==> (r.Done? <==> (t.WantsHold() ==> Guardable(machine, t.before.routeFile)))
    {
      hide Effective, Guardable, Run, Next, ConnectStep, Routes.LackOne;
      HoldRows(previousState.phase);
      state := state.(phase := Holding);
      Routes.NothingMissing(t.before, t.before);
      ghost var visited, before := machine.visited, machine.now;
      r := backend.InstallTransitionHold();
      Record(Call.InstallHold, r.Done?);
      forall s | s in machine.visited
        ensures s.process == t.before.process && Routes.AtMostOneMissing(s, t.before)
      {
        assert s !in visited ==> Routes.AtMostOneMissing(s, before);
      }
      forall s | s in machine.visited {
        UntouchedStep(s, t);
      }
      if r.Failed? {
        state := previousState;
      }
    }

    /** Verify the hold, and release it at once where that fails. */
    method CheckHold(previousState: ServiceState, ghost t: Transaction) returns (r: Reply, ghost ending: Ending)
      requires Linked() && Rests(previousState) && node == Installed(previousState.phase)
      requires backend.candidateRequest == Some(t.candidate) && backend.activeRequest == t.live
      requires backend.pendingOperationId == t.operationId
      requires Passed(machine.visited, machine.written, t) && machine.now.process == t.before.process
      requires machine.now.journal == Journaled(t.Intent()) && (t.WantsHold() ==> machine.now.Held())
      modifies this`state, this`calls, this`node, machine`now, machine`visited
      ensures Linked() && Rests(previousState)
      ensures Passed(machine.visited, machine.written, t)
      ensures machine.now.SameButRoutes(old(machine.now))
      ensures forall s | s in machine.visited :: s in old(machine.visited) || s.process == t.before.process
      ensures r.Done? ==> ending == CONNECTED && node == HoldVerified(previousState.phase) && unchanged(machine)
      ensures r.Failed? ==>
        && ending.NotVerified? && node == Settled(state.phase)
        && state == EndState(t.operationId, t.candidate, previousState, ending)
        && (state == BlockedErrorState(t.operationId) || Refused(t))
      ensures calls == old(calls) + HoldingWord(ending)[1..]
      ensures Answers(r, t.wasConnected, ending)
      ensures machine.reliable ==> r.Done?
    {
      hide Effective, Guardable, Run, Next, Passed, Rests, Routes.AtMostOneMissing;
      HoldRows(previousState.phase);
      ending := CONNECTED;
      ghost var read;
      r, read := backend.VerifyTransitionHold();
      Record(VerifyHold, r.Done?);
      if r.Failed? {
        ghost var visited, held := machine.visited, machine.now;
        var released := RefuseHold(backend.pendingOperationId, previousState);
        r := if released.Failed? then released else r;
        ending := NotVerified(released.Done?);
        PassedRoutes(visited, machine.visited, machine.written, held, t);
      }
    }

    /** Journal the intent, install the hold and verify it. */
    method HoldCandidate(previousState: ServiceState, ghost t: Transaction) returns (r: Reply, ghost ending: Ending)
      requires Prepared(t) && node == Validated(previousState.phase) && Rests(previousState)
      modifies this`state, this`calls, this`node, machine`now, machine`visited, machine`written
      ensures Linked() && Rests(previousState)
      ensures Passed(machine.visited, machine.written, t) && ConnectWrites(machine.written, t)
      ensures forall s | s in machine.visited :: s.process == t.before.process
      ensures r.Done? ==>
        && node == HoldVerified(previousState.phase)
        && machine.now.SameButRoutes(old(machine.now).(journal := machine.now.journal))
        && machine.now.journal == Journaled(t.Intent())
        && machine.written == [t.Intent()]
        && (t.WantsHold() ==> machine.now.Held())
      ensures r.Failed? ==>
        && ending.Early() && !ending.NotValidated?
        && node == Settled(state.phase)
        && state == EndState(t.operationId, t.candidate, previousState, ending)
      ensures r.Failed? ==> machine.now.activeFile == t.before.activeFile
      ensures r.Failed? ==> state == BlockedErrorState(t.operationId) || Refused(t)
      ensures ending.NotHeld? || machine.written != []
      ensures calls == old(calls) + HoldingWord(ending)
      ensures Answers(r, t.wasConnected, ending)
      ensures machine.reliable ==>
                ending == if t.WantsHold() && !Guardable(machine, t.before.routeFile) then NotHeld else CONNECTED
    {
      hide Effective, Guardable, Run, Next, Passed, Rests, Routes.AtMostOneMissing;
      r := InstallHold(previousState, t);
      if r.Failed? {
        ending := NotHeld;
        return;
      }
      r, ending := CheckHold(previousState, t);
      ghost var install := [Event(Call.InstallHold, true)];
      assert old(calls) + HoldingWord(ending) == old(calls) + install + HoldingWord(ending)[1..];
    }

    /** Set the live connection aside, under the hold. */
    method SetActiveAside(operationId: nat, ghost t: Transaction) returns (r: Reply)
      requires Covered(t) && t.operationId == operationId && t.wasConnected && node == HoldVerified(Connected)
      requires backend.activeRequest == t.live && t.live.Some?
      requires backend.activeInterface == t.liveInterface && t.liveInterface.Some?
      modifies this`state, this`calls, this`node, backend, machine`now, machine`visited
      ensures backend.activeRequest.None? && backend.pendingOperationId == operationId
      ensures r.Done? ==> InFlight(t) && node == Stopped
      ensures r.Failed? ==>
        && Valid() && state == BlockedErrorState(operationId)
        && machine.written == [t.Intent()]
        && Crossed(machine.visited, machine.written, t)
        && r.error == XrayStartFailed
      ensures calls == old(calls) + [Event(StopActive, r.Done?)]
      ensures machine.reliable ==> r.Done?
    {
      hide Effective, Run, Next, Crossed;
      HoldRows(Connected);
      ghost var visited := machine.visited;
      r := backend.StopActive();
      Record(StopActive, r.Done?);
      CrossedAlso(visited, machine.written, machine.now, t);
      if r.Failed? {
        state := BlockedErrorState(operationId);
      }
    }

    /** From the verified hold on: set the live connection aside, if there is one, and replace it. */
    method Replace(operationId: nat, request: ConnectRequest, wasConnected: bool, previousState: ServiceState,
                   ghost t: Transaction) returns (r: Reply, ghost ending: Ending)
      requires Covered(t) && Rests(previousState) && node == HoldVerified(previousState.phase)
      requires t.operationId == operationId && t.candidate == request && t.wasConnected == wasConnected
      requires wasConnected <==> previousState.phase == Connected
      requires backend.activeRequest == t.live && backend.activeInterface == t.liveInterface
      modifies this`state, this`calls, this`node, backend, machine`now, machine`visited,
               machine`written, machine`spawned
      ensures Valid()
      ensures machine.written != [] && ConnectWrites(machine.written, t) && Crossed(machine.visited, machine.written, t)
      ensures backend.activeRequest in {None, t.live, Some(request)} && backend.pendingOperationId == operationId
      ensures r.Done? ==>
        && state == ConnectedState(operationId, request)
        && machine.written == [t.Intent(), Established(operationId, request)]
        && Live(request, backend.activeInterface.value)
        && (t.liveInterface.Some? ==> backend.activeInterface == t.liveInterface)
        && (if request.killswitch then machine.now.Held()
            else machine.now.halves == {} && machine.now.routeFile.NoRouteFile?)
      ensures r.Failed? ==>
        || state == BlockedErrorState(operationId)
        || (&& wasConnected && state == previousState && Live(t.live.value, t.liveInterface.value)
            && (t.live.value.killswitch ==> machine.now.Held()))
        || (&& !wasConnected && state == ClearedState(operationId, request.killswitch)
            && ClearedUp(request.killswitch))
      ensures !ending.Early() && (ending.NotStopped? ==> wasConnected)
      ensures calls == old(calls) + CrossingWord(wasConnected, request.killswitch, ending)
      ensures state == EndState(operationId, request, previousState, ending)
      ensures Answers(r, wasConnected, ending)
      ensures machine.reliable ==> ending == CONNECTED
    {
      hide Effective, Run, Next, Crossed, CandidateWord, ConnectWrites, FlagsAgree, EndState, ReopenTarget;
      if wasConnected {
        r := SetActiveAside(operationId, t);
        if r.Failed? {
          ending := NotStopped;
          StopFailed(previousState, t);
          return;
        }
      }
      r, ending := StartAndCommit(operationId, request, wasConnected, previousState, t);
    }

    /** Replace the live connection, keeping apart what is passed through from here on. */
    method Cross(operationId: nat, request: ConnectRequest, wasConnected: bool, previousState: ServiceState,
                 ghost t: Transaction) returns (r: Reply, ghost crossing: set<Snapshot>, ghost ending: Ending)
      requires Ready(t) && Rests(previousState) && node == HoldVerified(previousState.phase)
      requires t.operationId == operationId && t.candidate == request && t.wasConnected == wasConnected
      requires wasConnected <==> previousState.phase == Connected
      requires backend.activeRequest == t.live && backend.activeInterface == t.liveInterface
      requires Passed(machine.visited, machine.written, t)
      requires forall s | s in machine.visited :: s.process == t.before.process
      modifies this`state, this`calls, this`node, backend, machine`now, machine`visited,
               machine`written, machine`spawned
      ensures Valid()
      ensures ConnectWrites(machine.written, t) && Passed(machine.visited, machine.written, t)
      ensures crossing <= machine.visited && Crossed(crossing, machine.written, t)
      ensures forall s | s in machine.visited && s.process != t.before.process :: s in crossing
      ensures backend.activeRequest in {None, t.live, Some(request)} && backend.pendingOperationId == operationId
      ensures r.Done? ==>
        && state == ConnectedState(operationId, request)
        && machine.written == [t.Intent(), Established(operationId, request)]
        && Live(request, backend.activeInterface.value)
        && (t.liveInterface.Some? ==> backend.activeInterface == t.liveInterface)
        && (if request.killswitch then machine.now.Held()
            else machine.now.halves == {} && machine.now.routeFile.NoRouteFile?)
      ensures r.Failed? ==>
        || state == BlockedErrorState(operationId)
        || (&& wasConnected && state == previousState && Live(t.live.value, t.liveInterface.value)
            && (t.live.value.killswitch ==> machine.now.Held()))
        || (&& !wasConnected && state == ClearedState(operationId, request.killswitch)
            && ClearedUp(request.killswitch))
      ensures !ending.Early() && machine.written != []
      ensures calls == old(calls) + CrossingWord(wasConnected, request.killswitch, ending)
      ensures state == EndState(operationId, request, previousState, ending)
      ensures Answers(r, wasConnected, ending)
      ensures machine.reliable ==> ending == CONNECTED
    {
      hide Effective, Run, Next, Passed, Crossed, FlagsAgree, CrossingWord, EndState, Answers;
      var earlier := machine.visited;
      machine.Mark();
      CrossingBegins(machine.now, machine.written, t);
      r, ending := Replace(operationId, request, wasConnected, previousState, t);
      crossing := machine.visited;
      machine.Recall(earlier);
      CrossedPassed(crossing, machine.written, t);
      PassedBoth(earlier, [t.Intent()], crossing, machine.written, t);
    }

    /** Validate the candidate, then install and verify the hold: everything before the live connection is touched. */
    method Secure(operationId: nat, request: ConnectRequest, ghost t: Transaction)
      returns (r: Reply, ghost ending: Ending)
      requires Valid() && machine.visited == {machine.now} && machine.written == [] && t == Begun(operationId, request)
      modifies this`state, this`calls, this`node, backend`candidateRequest, backend`preparedCandidate,
               backend`candidateInterface, backend`pendingOperationId, machine`now, machine`visited, machine`written
      ensures backend.pendingOperationId == operationId
      ensures Passed(machine.visited, machine.written, t) && ConnectWrites(machine.written, t)
      ensures forall s | s in machine.visited :: s.process == t.before.process
      ensures r.Done? ==>
        && Ready(t) && Rests(old(state)) && node == HoldVerified(old(state).phase)
        && calls == old(calls) + [Event(Validate, true)] + HoldingWord(CONNECTED)
      ensures r.Failed? ==>
        && Valid() && ending.Early()
        && machine.now.process == t.before.process && machine.now.activeFile == t.before.activeFile
        && state == EndState(operationId, request, old(state), ending)
        && calls == old(calls) + ConnectWord(t.wasConnected, request.killswitch, ending)
        && (state == BlockedErrorState(operationId) || (state == old(state) && Refused(t)))
      ensures machine.written == [] ==> ending.NotValidated? || ending.NotHeld?
      ensures Answers(r, t.wasConnected, ending)
      ensures machine.reliable ==> ending == Expected(machine, t)
    {
      hide Effective, Acceptable, Guardable, Run, Next, Passed, Refused, HoldingWord, ConnectWord, Live, ReopenTarget;
      var previousState := state;
      r := PrepareCandidate(operationId, request);
      PassedUntouched(machine.visited, t);
      ending := NotValidated;
      if r.Done? {
        r, ending := HoldCandidate(previousState, t);
      }
      ConnectInParts(old(calls), t.wasConnected, request.killswitch, ending);
    }

    /**
     Replace whatever is live by `request`. The connection to come back to after a crash is the old one
     until the commit and the new one from then on; the routes cover the time in between. `crossing` is
     what was passed through from the verified hold on.
     */
    method Connect(operationId: nat, request: ConnectRequest)
      returns (r: Reply, ghost crossing: set<Snapshot>, ghost ending: Ending)
      requires Valid() && machine.visited == {machine.now} && machine.written == []
      modifies this`state, this`calls, this`node, backend, machine`now, machine`visited,
               machine`written, machine`spawned
      ensures Valid()
      ensures ConnectWrites(machine.written, old(Begun(operationId, request)))
      ensures Passed(machine.visited, machine.written, old(Begun(operationId, request)))
      ensures crossing <= machine.visited
      ensures Crossed(crossing, machine.written, old(Begun(operationId, request)))
      ensures forall s | s in machine.visited && s.process != old(machine.now).process :: s in crossing
      ensures backend.activeRequest in {None, old(backend.activeRequest), Some(request)}
      ensures backend.pendingOperationId == operationId
      ensures r.Done? ==>
        && state == ConnectedState(operationId, request)
        && machine.written == [old(Begun(operationId, request)).Intent(), Established(operationId, request)]
        && Live(request, backend.activeInterface.value)
        && (old(backend.activeInterface).Some? ==> backend.activeInterface == old(backend.activeInterface))
        && (if request.killswitch then machine.now.Held()
            else machine.now.halves == {} && machine.now.routeFile.NoRouteFile?)
      ensures r.Failed? ==>
        || state == BlockedErrorState(operationId)
        || (&& old(state).phase == Connected && state == old(state)
            && (WantsKillSwitch(old(backend.activeRequest)) ==> machine.now.Held()))
        || (&& state == old(state) && machine.now.process == old(machine.now).process
            && Refused(old(Begun(operationId, request))))
        || (&& old(state).phase != Connected && state == ClearedState(operationId, request.killswitch)
            && ClearedUp(request.killswitch))
      ensures calls == old(calls) + ConnectWord(old(state).phase == Connected, request.killswitch, ending)
      ensures state == EndState(operationId, request, old(state), ending)
      ensures Answers(r, old(state).phase == Connected, ending)
      ensures machine.reliable ==> ending == Expected(machine, old(Begun(operationId, request)))
      ensures machine.written == [] ==> ending.NotValidated? || ending.NotHeld?
      ensures ending.Early() ==>
        && backend.activeRequest == old(backend.activeRequest)
        && backend.activeInterface == old(backend.activeInterface)
        && machine.now.process == old(machine.now).process && machine.now.activeFile == old(machine.now).activeFile
      ensures state.phase == Blocked ==> BlockHeldAs(calls, machine.now, old(Begun(operationId, request)))
      ensures r.Failed? && state.phase == Connected ==>
        && state == old(state)
        && backend.activeRequest == old(backend.activeRequest)
        && backend.activeInterface == old(backend.activeInterface)
        && machine.now.activeFile == old(machine.now).activeFile
    {
      hide Effective, Acceptable, Guardable, Run, Next, Passed, Crossed, Refused, ClearedUp, BlockHeldAs;
      hide HoldingWord, CrossingWord, ConnectWord, Expected;
      ghost var t := Begun(operationId, request);
      crossing := {};
      var previousState := state;
      var wasConnected := state.phase == Connected;
      r, ending := Secure(operationId, request, t);
      if r.Failed? {
        NothingCrossed(machine.written, t);
        if state.phase == Blocked {
          RefusedBlock(t);
        }
        return;
      }
      r, crossing, ending := Cross(operationId, request, wasConnected, previousState, t);
      ConnectInParts(old(calls), wasConnected, request.killswitch, ending);
      if state.phase == Blocked {
        ClearedBlock(t);
      }
    }

    /** Clear everything up, from a settled state or behind a process that was found dead. */
    method ClearUp(operationId: nat, keepBlocked: bool) returns (r: Reply)
      requires Linked() && (node == Dead || node.Settled?)
      modifies this`state, this`calls, this`node, backend, machine`now, machine`visited, machine`written
      ensures Valid() && old(machine.visited) <= machine.visited
      ensures forall s | s in machine.visited ::
                || s in old(machine.visited)
                || DisconnectStep(s, old(machine.now), backend.pendingOperationId, keepBlocked)
      ensures state == if r.Done? then ClearedState(operationId, keepBlocked) else BlockedErrorState(operationId)
      ensures calls == old(calls) + [Event(ClearNetwork(keepBlocked), r.Done?)]
      ensures backend.activeRequest in {None, old(backend.activeRequest)}
      ensures backend.pendingOperationId == old(backend.pendingOperationId)
      ensures machine.now.process in {None, old(machine.now).process}
      ensures r.Done? ==>
        && backend.Remembered() == EMPTY_SLOTS
        && machine.now.process.None?
        && machine.now.journal == Journaled(Left(backend.pendingOperationId, keepBlocked))
        && machine.written ==
             old(machine.written)
             + [Leaving(backend.pendingOperationId, keepBlocked), Left(backend.pendingOperationId, keepBlocked)]
        && (if keepBlocked then machine.now.Held() else machine.now.halves == {} && machine.now.routeFile.NoRouteFile?)
      ensures machine.reliable ==> (r.Done? <==> (keepBlocked ==> Guardable(machine, old(machine.now).routeFile)))
      ensures r.Failed? ==> r.error == CleanupFailed
      ensures old(machine.written) <= machine.written
      ensures machine.unwritable ==> r.Failed? && machine.now == old(machine.now)
    {
      hide Effective, Guardable, Run, Next, Live, Routes.LackOne, Routes.AtMostOneMissing;
      ClearRows(if node.Settled? then node.phase else Connected, keepBlocked);
      r := backend.ClearNetworkState(keepBlocked);
      Record(ClearNetwork(keepBlocked), r.Done?);
      state := if r.Done? then ClearedState(operationId, keepBlocked) else BlockedErrorState(operationId);
    }

    /** Clear everything up, whatever state the service is in. */
    method Disconnect(operationId: nat, keepBlocked: bool) returns (r: Reply)
      requires Valid()
      modifies this`state, this`calls, this`node, backend, machine`now, machine`visited, machine`written
      ensures Valid() && old(machine.visited) <= machine.visited
      ensures forall s | s in machine.visited ::
                s in old(machine.visited) || DisconnectStep(s, old(machine.now), operationId, keepBlocked)
      ensures state == if r.Done? then ClearedState(operationId, keepBlocked) else BlockedErrorState(operationId)
      ensures r.Done? ==>
        && backend.Remembered() == EMPTY_SLOTS
        && machine.now.process.None?
        && machine.now.journal == Journaled(Left(operationId, keepBlocked))
        && machine.written == old(machine.written) + [Leaving(operationId, keepBlocked), Left(operationId, keepBlocked)]
        && (if keepBlocked then machine.now.Held() else machine.now.halves == {} && machine.now.routeFile.NoRouteFile?)
      ensures backend.activeRequest in {None, old(backend.activeRequest)}
      ensures machine.now.process in {None, old(machine.now).process}
      ensures calls == old(calls) + [Event(ClearNetwork(keepBlocked), r.Done?)]
      ensures machine.reliable ==> (r.Done? <==> (keepBlocked ==> Guardable(machine, old(machine.now).routeFile)))
      ensures r.Failed? ==> r.error == CleanupFailed
      ensures old(machine.written) <= machine.written
      ensures machine.unwritable ==> r.Failed? && machine.now == old(machine.now)
    {
      hide Effective, Guardable, Run, Next, DisconnectStep;
      backend.SetOperationId(operationId);
      state := ServiceState(Stopping, operationId, false, false, true);
      r := ClearUp(operationId, keepBlocked);
    }

    /** One tick of the monitor: clear up behind a process that exited on its own, and do nothing otherwise. */
    method AuditRuntime() returns (r: Reply, ghost known: bool, ghost running: bool)
      requires Valid()
      modifies this`state, this`calls, this`node, backend, machine`now, machine`visited, machine`written
      ensures Valid() && old(machine.visited) <= machine.visited
      ensures old(state).phase != Connected ==> r.Done? && calls == old(calls)
      ensures old(state).phase == Connected ==>
        && (known ==> (running <==> old(machine.now).process.value.id !in machine.exited))
        && (machine.reliable ==> known)
        && (!known ==> r == Failed(Internal))
        && (known && running ==> r.Done?)
        && calls == old(calls) + [Event(AuditActive(running), known)]
                    + if !known || running then []
                      else [Event(ClearNetwork(old(backend.activeRequest).value.killswitch), r.Done?)]
      ensures old(state).phase != Connected || !known || running ==>
        && state == old(state) && machine.now == old(machine.now) && backend.Remembered() == old(backend.Remembered())
        && machine.visited == old(machine.visited) && machine.written == old(machine.written)
      ensures old(state).phase == Connected && known && !running ==>
        var keepBlocked := old(backend.activeRequest).value.killswitch;
        && state == (if r.Done? then ClearedState(old(state).operationId, keepBlocked)
                     else BlockedErrorState(old(state).operationId))
        && (r.Failed? ==> r.error == CleanupFailed)
        && (machine.reliable ==> (r.Done? <==> (keepBlocked ==> Guardable(machine, old(machine.now).routeFile))))
        && (r.Done? ==> machine.now.process.None? && backend.Remembered() == EMPTY_SLOTS)
      ensures forall s | s in machine.visited :: s in old(machine.visited) ||
                (&& old(backend.activeRequest).Some?
                 && DisconnectStep(s, old(machine.now), backend.pendingOperationId,
                                   old(backend.activeRequest).value.killswitch))
      ensures machine.now.process in {None, old(machine.now).process}
      ensures state.phase in {Blocked, Disconnected} && state != old(state) ==>
        && machine.now.process.None?
        && machine.now.journal == Journaled(Left(backend.pendingOperationId, state.phase == Blocked))
      ensures backend.pendingOperationId == old(backend.pendingOperationId)
      ensures state.phase == Blocked && state != old(state) ==> machine.now.Held()
      ensures state.phase == Disconnected && state != old(state) ==>
                machine.now.halves == {} && machine.now.routeFile.NoRouteFile?
      ensures backend.activeRequest in {None, old(backend.activeRequest)}
    {
      hide Effective, Guardable, Run, Next, DisconnectStep;
      known, running := false, false;
      if state.phase != Connected {
        return Done, known, running;
      }
      var told, alive := backend.ActiveIsRunning();
      known, running := told, alive;
      var keepBlocked := backend.UnexpectedFailureKeepBlocked();
      ClearRows(Connected, keepBlocked);
      Record(AuditActive(running), known);
      if !told {
        return Failed(Internal), known, running;
      }
      if alive {
        return Done, known, running;
      }
      r := ClearUp(state.operationId, keepBlocked);
    }

    /** Report a block; nothing is done about it. */
    method ForceBlocked(operationId: nat)
      requires Valid()
      modifies this`state, this`calls, this`node
      ensures Valid() && state == ClearedState(operationId, true)
      ensures calls == old(calls) + [Event(ForceBlockedCall, true)]
    {
      hide Effective, Run, Next;
      ClearRows(state.phase, true);
      Record(ForceBlockedCall, true);
      state := ClearedState(operationId, true);
    }
  }
}
