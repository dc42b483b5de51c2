/**
 What a client is promised: how the service stands after each command, after a start, and what it replies
 (service/src/pipe.rs).
 */
module Commands {
  import opened Wrappers
  import opened Protocol
  import opened World
  import opened Backend
  import opened Controller
  import opened ProtocolLanguage

  /** Xray's versions are managed elsewhere: a connect is given the active one, a switch the one just activated. */
  datatype Command =
    | ConnectTo(operationId: nat, request: ConnectRequest, version: string)
    | DisconnectFrom(operationId: nat, keepBlocked: bool)
    | Activate(operationId: nat, version: string, restorable: bool)
    | Audit
    | Status

  datatype Response = StateIs(state: ServiceState) | Acknowledged | Refused(error: ServiceError)

  /** What can be seen of the service between commands. */
  datatype Standing =
    Standing(state: ServiceState, calls: seq<Event>, slots: Slots, now: Snapshot, exited: set<nat>)
  {
    /** The connection is what is remembered, journaled and running. */
    predicate Runs(request: ConnectRequest) {
      && slots.activeRequest == Some(request)
      && slots.activeInterface.Some?
      && slots.previousRequest.None?
      && ReopenTarget(now.journal) == Some(request)
      && now.activeFile.Some?
      && Effective(request, slots.activeInterface.value) == Ok(now.activeFile.value)
      && now.process.Some?
      && now.process.value.version == request.xrayVersion
      && now.process.value.config == now.activeFile
    }

    /** The routes of a block, or none of the split defaults. */
    predicate Settled(keepBlocked: bool) {
      if keepBlocked then now.Held() else now.halves == {} && now.routeFile.NoRouteFile?
    }

    /** The process of the live connection exited on its own. */
    predicate Exited() {
      now.process.Some? && now.process.value.id in exited
    }

    /** The connect that would begin now. */
    function Begun(operationId: nat, request: ConnectRequest): Transaction {
      Transaction(operationId, request, now, slots.activeRequest, slots.activeInterface, state.phase == Connected)
    }
  }

  ghost function Stands(controller: ConnectionController): Standing
    reads controller, controller.backend, controller.machine
  {
    Standing(controller.state, controller.calls, controller.backend.Remembered(), controller.machine.now,
             controller.machine.exited)
  }

  /** A connect of `request`: what it calls, reports, replies and leaves. */
  ghost predicate Connects(machine: Machine, operationId: nat, request: ConnectRequest, before: Standing,
                           after: Standing, r: Reply, ending: Ending)
  {
    var replacing := before.state.phase == Connected;
    && after.calls == before.calls + ConnectWord(replacing, request.killswitch, ending)
    && after.state == EndState(operationId, request, before.state, ending)
    && Answers(r, replacing, ending)
    && (machine.reliable ==> ending == Expected(machine, before.Begun(operationId, request)))
    && (ending == CONNECTED ==>
          && after.Runs(request) && after.Settled(request.killswitch)
          && after.state.dnsProtected && !after.state.networkBlocked
          && (after.state.splitActive <==> 0 < |request.excludedApps|))
    && (ending.Early() || (ending != CONNECTED && after.state.phase == Connected) ==>
          && after.slots.activeRequest == before.slots.activeRequest
          && after.slots.activeInterface == before.slots.activeInterface
          && after.now.activeFile == before.now.activeFile)
    && (ending.Early() ==> after.now.process == before.now.process)
    && (replacing && ending == CONNECTED ==> after.slots.activeInterface == before.slots.activeInterface)
  }

  /** A clear: everything about the connection is gone and the routes are settled, or a block is reported. */
  ghost predicate Clears(machine: Machine, operationId: nat, keepBlocked: bool, before: Standing, after: Standing,
                         r: Reply)
  {
    && after.calls == before.calls + [Event(ClearNetwork(keepBlocked), r.Done?)]
    && after.state == (if r.Done? then ClearedState(operationId, keepBlocked) else BlockedErrorState(operationId))
    && (r.Failed? ==> r.error == CleanupFailed)
    && (machine.reliable ==> (r.Done? <==> (keepBlocked ==> Guardable(machine, before.now.routeFile))))
    && (r.Done? ==> after.slots == EMPTY_SLOTS && after.now.process.None? && after.Settled(keepBlocked))
  }

  /** A tick of the monitor: it clears up exactly behind a connection whose process is known to have exited. */
  ghost predicate Audits(machine: Machine, before: Standing, after: Standing, r: Reply, known: bool) {
    if before.state.phase != Connected then r.Done? && after == before
    else
      var asked := before.(calls := before.calls + [Event(AuditActive(!before.Exited()), true)]);
      && (machine.reliable ==> known)
      && before.slots.activeRequest.Some?
      && if known && before.Exited() then
           Clears(machine, before.state.operationId, before.slots.activeRequest.value.killswitch, asked, after, r)
         else if known then r.Done? && after == asked
         else r == Failed(Internal) && exists running ::
           after == before.(calls := before.calls + [Event(AuditActive(running), false)])
  }

  /** What a command does and replies. */
  ghost predicate Carried(machine: Machine, command: Command, before: Standing, after: Standing, response: Response) {
    match command
    case ConnectTo(operationId, request, version) => exists r, ending ::
      && Connects(machine, operationId, request.(xrayVersion := version), before, after, r, ending)
      && response == if r.Done? then StateIs(after.state) else Refused(r.error)
    case DisconnectFrom(operationId, keepBlocked) => exists r ::
      && Clears(machine, operationId, keepBlocked, before, after, r)
      && (r.Done? ==> after.now.journal == Journaled(Left(operationId, keepBlocked)))
      && response == if r.Done? then StateIs(after.state) else Refused(r.error)
    case Activate(operationId, version, restorable) =>
      if before.state.phase != Connected then after == before && response == Acknowledged
      else before.slots.activeRequest.Some? && exists r, ending ::
        && Connects(machine, operationId, before.slots.activeRequest.value.(xrayVersion := version), before, after, r,
                    ending)
        && response == if r.Done? then Acknowledged else Refused(if restorable then r.error else RestoreFailed)
    case Audit => exists r, known ::
      Audits(machine, before, after, r, known) && response == if r.Done? then StateIs(after.state) else Refused(r.error)
    case Status => after == before && response == StateIs(before.state)
  }

  lemma ConnectCarried(machine: Machine, command: Command, before: Standing, after: Standing, response: Response,
                       r: Reply, ending: Ending)
    requires command.ConnectTo?
    requires Connects(machine, command.operationId, command.request.(xrayVersion := command.version), before, after, r,
                      ending)
    requires response == if r.Done? then StateIs(after.state) else Refused(r.error)
    ensures Carried(machine, command, before, after, response)
  {}

  lemma ClearCarried(machine: Machine, command: Command, before: Standing, after: Standing, response: Response,
                     r: Reply)
    requires command.DisconnectFrom? && Clears(machine, command.operationId, command.keepBlocked, before, after, r)
    requires r.Done? ==> after.now.journal == Journaled(Left(command.operationId, command.keepBlocked))
    requires response == if r.Done? then StateIs(after.state) else Refused(r.error)
    ensures Carried(machine, command, before, after, response)
  {}

  /** Where nothing is to be done, nothing changes. */
  lemma NothingCarried(machine: Machine, command: Command, standing: Standing, response: Response)
    requires
      || (command.Status? && response == StateIs(standing.state))
      || (command.Activate? && standing.state.phase != Connected && response == Acknowledged)
    ensures Carried(machine, command, standing, standing, response)
  {}

  lemma SwitchCarried(machine: Machine, command: Command, before: Standing, after: Standing, response: Response,
                      r: Reply, ending: Ending)
    requires command.Activate? && before.state.phase == Connected && before.slots.activeRequest.Some?
    requires Connects(machine, command.operationId,
                      before.slots.activeRequest.value.(xrayVersion := command.version), before, after, r, ending)
    requires
      response == if r.Done? then Acknowledged else Refused(if command.restorable then r.error else RestoreFailed)
    ensures Carried(machine, command, before, after, response)
  {}

  lemma AuditCarried(machine: Machine, before: Standing, after: Standing, response: Response, r: Reply, known: bool)
    requires Audits(machine, before, after, r, known)
    requires response == if r.Done? then StateIs(after.state) else Refused(r.error)
    ensures Carried(machine, Audit, before, after, response)
  {}

  /** The journal demands that a failure leaves the network blocked. */
  predicate Demands(phase: DesiredPhase) {
    match phase
    case WantConnected(request) => request.killswitch
    case WantConnecting(candidate, previous, requested) => requested || candidate.killswitch
      || WantsKillSwitch(previous)
    case WantDisconnecting(keepBlocked) => keepBlocked
    case WantBlocked(_) => true
    case WantDisconnected => false
  }

  /** The connections a record names. */
  function Named(phase: DesiredPhase): set<ConnectRequest> {
    match phase
    case WantConnected(request) => {request}
    case WantConnecting(candidate, previous, _) => {candidate} + if previous.Some? then {previous.value} else {}
    case _ => {}
  }

  /** A failure has to block exactly if a connection named has its kill switch on, or the record asks for it itself. */
  lemma DemandsExactlyWhen(phase: DesiredPhase)
    ensures Demands(phase) <==>
              || (exists request | request in Named(phase) :: request.killswitch)
              || (phase.WantConnecting? && phase.requestedKillSwitch)
              || (phase.WantDisconnecting? && phase.keepBlocked)
              || phase.WantBlocked?
  {
    match phase
    case WantConnected(request) => assert request in Named(phase);
    case WantConnecting(candidate, previous, _) =>
      assert candidate in Named(phase);
      assert previous.Some? ==> previous.value in Named(phase);
    case _ =>
  }

  /** Whether a start that has nothing to reconnect to keeps the network blocked. */
  predicate SettlesBlocked(phase: DesiredPhase) {
    match phase
    case WantConnecting(_, _, requested) => requested
    case WantDisconnecting(keepBlocked) => keepBlocked
    case WantBlocked(_) => true
    case _ => false
  }

  /** The journal names a record that can be read. */
  predicate Loaded(journal: Journal, readable: bool) {
    readable && journal.Journaled?
  }

  /** What a start goes by: the record, if it is loaded, and its consequences. */
  datatype Course = Course(operationId: nat, target: Option<ConnectRequest>, settlesBlocked: bool, demanded: bool)

  function CourseOf(journal: Journal, readable: bool): Course {
    if !Loaded(journal, readable) then Course(0, None, false, false)
    else Course(journal.state.operationId, ReopenTarget(journal), SettlesBlocked(journal.state.phase),
              Demands(journal.state.phase))
  }

  /** The first attempt of a start: a connect to the target, if there is one, and a clear otherwise. */
  datatype Attempt = Tried(ending: Ending) | ClearedAtOnce(ok: bool)
  {
    predicate Succeeded() {
      this == Tried(CONNECTED) || this == ClearedAtOnce(true)
    }

    function Word(course: Course): seq<Event> {
      match this
      case Tried(ending) => ConnectWord(false, WantsKillSwitch(course.target), ending)
      case ClearedAtOnce(ok) => [Event(ClearNetwork(course.settlesBlocked), ok)]
    }
  }

  /** How the first attempt ends on a reliable machine that finds `from` on disk. */
  ghost predicate Foreseen(machine: Machine, course: Course, from: Snapshot, first: Attempt) {
    && (first.Tried? <==> course.target.Some?)
    && (machine.reliable ==>
          match first
          case Tried(ending) =>
            ending == Expected(machine, Transaction(course.operationId, course.target.value, from, None, None, false))
          case ClearedAtOnce(ok) => ok <==> (course.settlesBlocked ==> Guardable(machine, from.routeFile)))
  }

  /** The first attempt of a start, and what it leaves if it succeeds. */
  ghost predicate Attempts(machine: Machine, course: Course, from: Snapshot, after: Standing, first: Attempt) {
    && Foreseen(machine, course, from, first)
    && after.calls == first.Word(course)
    && (first.Succeeded() ==>
          match course.target
          case Some(request) =>
            && after.state == ConnectedState(course.operationId, request)
            && after.Runs(request) && after.Settled(request.killswitch)
          case None =>
            && after.state == ClearedState(course.operationId, course.settlesBlocked)
            && after.slots == EMPTY_SLOTS && after.now.process.None? && after.Settled(course.settlesBlocked))
  }

  /** A connect that finds the service freshly opened is such an attempt. */
  lemma ConnectAttempts(machine: Machine, course: Course, before: Standing, after: Standing, r: Reply, ending: Ending)
    requires course.target.Some? && before.calls == [] && before.state.phase == Disconnected
    requires before.slots == EMPTY_SLOTS
    requires Connects(machine, course.operationId, course.target.value, before, after, r, ending)
    ensures Attempts(machine, course, before.now, after, Tried(ending))
    ensures r.Done? <==> Tried(ending).Succeeded()
  {
    hide ConnectWord, Expected, Standing.Runs;
  }

  lemma ClearAttempts(machine: Machine, course: Course, before: Standing, after: Standing, r: Reply)
    requires course.target.None? && before.calls == []
    requires Clears(machine, course.operationId, course.settlesBlocked, before, after, r)
    ensures Attempts(machine, course, before.now, after, ClearedAtOnce(r.Done?))
  {
    hide Guardable;
  }

  /**
   A start: the attempt the journal asks for and, only if that failed, a clear as the journal demands and then,
   only if that failed as well, a block that is only reported.
   */
  ghost predicate Opens(machine: Machine, readable: bool, from: Snapshot, after: Standing, first: Attempt,
                        forced: bool)
  {
    var course := CourseOf(from.journal, readable);
    if first.Succeeded() then !forced && Attempts(machine, course, from, after, first)
    else
      && Foreseen(machine, course, from, first)
      && after.calls == first.Word(course) + FallBackWord(course.demanded, forced)
      && after.state == ClearedState(course.operationId, course.demanded || forced)
      && (!forced ==> after.slots == EMPTY_SLOTS && after.now.process.None? && after.Settled(course.demanded))
      && (machine.reliable && forced ==> course.demanded)
  }

  lemma AttemptOpens(machine: Machine, readable: bool, from: Snapshot, after: Standing, first: Attempt)
    requires Attempts(machine, CourseOf(from.journal, readable), from, after, first) && first.Succeeded()
    ensures Opens(machine, readable, from, after, first, false)
  {}

  lemma FallBackOpens(machine: Machine, readable: bool, from: Snapshot, attempted: Standing, after: Standing,
                      first: Attempt, forced: bool)
    requires Attempts(machine, CourseOf(from.journal, readable), from, attempted, first) && !first.Succeeded()
    requires var course := CourseOf(from.journal, readable);
      && after.calls == attempted.calls + FallBackWord(course.demanded, forced)
      && after.state == ClearedState(course.operationId, course.demanded || forced)
      && (!forced ==> after.slots == EMPTY_SLOTS && after.now.process.None? && after.Settled(course.demanded))
      && (machine.reliable && forced ==> course.demanded)
    ensures Opens(machine, readable, from, after, first, forced)
  {
    hide Foreseen;
  }

  /** A block is forced exactly behind a clear that failed. */
  lemma ForcedBehindClear(machine: Machine, readable: bool, from: Snapshot, after: Standing, first: Attempt,
                          forced: bool)
    requires Opens(machine, readable, from, after, first, forced)
    ensures forced ==>
      && after.state.phase == Blocked && |after.calls| >= 2
      && after.calls[|after.calls| - 2].call.ClearNetwork? && !after.calls[|after.calls| - 2].ok
    ensures !Loaded(from.journal, readable) ==> (forced <==> Event(ClearNetwork(false), true) !in after.calls)
  {
    hide ConnectWord, Expected;
  }

  /** A reliable machine comes back to the journaled connection whenever that is to be had. */
  lemma ReliableStartConnects(machine: Machine, from: Snapshot, after: Standing, first: Attempt, forced: bool)
    requires Opens(machine, true, from, after, first, forced) && machine.reliable
    requires ReopenTarget(from.journal).Some?
    requires var target := ReopenTarget(from.journal).value;
      Acceptable(machine, target, None) && (target.killswitch ==> Guardable(machine, from.routeFile))
    ensures after.Runs(ReopenTarget(from.journal).value)
    ensures after.state == ConnectedState(from.journal.state.operationId, ReopenTarget(from.journal).value)
  {
    hide ConnectWord, Acceptable, Guardable;
  }
}
