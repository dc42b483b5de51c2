/**
 Starting the service from what is on disk, and whole lifetimes of it: commands, monitor ticks and
 crashes in any order (service/src/pipe.rs).
 */
module Service {
  import opened Wrappers
  import opened Protocol
  import opened World
  import opened Backend
  import opened Commands
  import opened Controller
  import ProtocolLanguage

  /** Everything a start or a command may leave on disk, given that every request has its kill switch on. */
  predicate KillSwitchOnly(journal: Journal) {
    journal.Journaled? ==>
      match journal.state.phase
      case WantConnected(request) => request.killswitch
      case WantConnecting(candidate, previous, requested) =>
        requested && candidate.killswitch && (previous.Some? ==> previous.value.killswitch)
      case _ => true
  }

  predicate DemandsBlock(journal: Journal) {
    journal.Journaled? && Demands(journal.state.phase)
  }

  /** The request to block that a connecting record carries is the one of its candidate. */
  predicate Faithful(journal: Journal) {
    journal.Journaled? && journal.state.phase.WantConnecting? ==>
      journal.state.phase.requestedKillSwitch == journal.state.phase.candidate.killswitch
  }

  /** While a connect with the kill switch on runs, the demand to block is never dropped. */
  lemma ConnectKeepsDemand(s: Snapshot, t: Transaction)
    requires ConnectStep(s, t)
    requires t.candidate.killswitch && (t.live.Some? ==> t.live.value.killswitch)
    requires KillSwitchOnly(t.before.journal)
    ensures KillSwitchOnly(s.journal)
    ensures s.journal == t.before.journal || DemandsBlock(s.journal)
  {}

  lemma ConnectStaysFaithful(s: Snapshot, t: Transaction)
    requires ConnectStep(s, t) && Faithful(t.before.journal)
    ensures Faithful(s.journal)
  {}

  lemma DisconnectKeepsDemand(s: Snapshot, before: Snapshot, operationId: nat, keepBlocked: bool)
    requires DisconnectStep(s, before, operationId, keepBlocked)
    ensures KillSwitchOnly(before.journal) ==> KillSwitchOnly(s.journal)
    ensures KillSwitchOnly(before.journal) && keepBlocked ==> s.journal == before.journal || DemandsBlock(s.journal)
    ensures Faithful(before.journal) ==> Faithful(s.journal)
    ensures ReopenTarget(s.journal) in {ReopenTarget(before.journal), None} && s.process in {None, before.process}
  {}

  /**
   A start without a connection to come back to blocks whenever the journal demands it, for faithful records;
   for any other it blocks only if the record says so itself.
   */
  lemma SettlesWhatIsDemandedExactlyWhen(journal: Journal)
    requires journal.Journaled? && ReopenTarget(journal).None?
    ensures SettlesBlocked(journal.state.phase) <==>
              && Demands(journal.state.phase)
              && (Faithful(journal) || journal.state.phase.requestedKillSwitch)
  {}

  /** The same, for a start that may have something to come back to. */
  lemma SettlesUnless(journal: Journal)
    ensures journal.Journaled? && ReopenTarget(journal).None? && Faithful(journal) ==>
              (SettlesBlocked(journal.state.phase) <==> Demands(journal.state.phase))
  {
    if journal.Journaled? && ReopenTarget(journal).None? {
      SettlesWhatIsDemandedExactlyWhen(journal);
    }
  }

  /** Every state passed through keeps to the kill switch, and to the demand to block once it is made. */
  ghost predicate Guarded(machine: Machine, demanded: bool)
    reads machine
  {
    forall s | s in machine.visited :: KillSwitchOnly(s.journal) && (demanded ==> DemandsBlock(s.journal))
  }

  /** Every record in every state passed through is faithful. */
  ghost predicate FaithfulThroughout(machine: Machine)
    reads machine
  {
    forall s | s in machine.visited :: Faithful(s.journal)
  }

  /** Whatever state the service dies in, the journal names one of these connections to come back to. */
  ghost predicate Targeting(machine: Machine, targets: set<Option<ConnectRequest>>)
    reads machine
  {
    forall s | s in machine.visited :: ReopenTarget(s.journal) in targets
  }

  lemma ConnectTargets(s: Snapshot, t: Transaction)
    requires ConnectStep(s, t)
    ensures ReopenTarget(s.journal) in {ReopenTarget(t.before.journal), t.live, Some(t.candidate), None}
    ensures t.Admits(s)
  {}

  /** Nothing runs, or the version of one of these connections. */
  ghost predicate Serves(process: Option<Process>, targets: set<Option<ConnectRequest>>) {
    process.None? ||
      exists target | target in targets :: target.Some? && target.value.xrayVersion == process.value.version
  }

  ghost predicate RunsOnly(machine: Machine, targets: set<Option<ConnectRequest>>)
    reads machine
  {
    forall s | s in machine.visited :: Serves(s.process, targets)
  }

  /** What is reported promises that the routes of the hold are there. */
  ghost predicate PromisesRoutes(controller: ConnectionController)
    reads controller, controller.backend
  {
    || controller.state.phase == Blocked
    || (controller.state.phase == Connected && WantsKillSwitch(controller.backend.activeRequest))
  }

  /** Before anything is done. */
  lemma NothingYet(machine: Machine, targets: set<Option<ConnectRequest>>)
    requires machine.visited == {machine.now} && machine.now.process.None?
    ensures RunsOnly(machine, targets)
    ensures ReopenTarget(machine.now.journal) in targets ==> Targeting(machine, targets)
    ensures Faithful(machine.now.journal) ==> FaithfulThroughout(machine)
  {}

  /** No request the backend holds has its kill switch off. */
  ghost predicate Armed(controller: ConnectionController)
    reads controller, controller.backend, controller.machine
  {
    controller.Valid() && (controller.backend.activeRequest.Some? ==> controller.backend.activeRequest.value.killswitch)
  }

  /** Connect, as it is seen from outside. */
  method Dial(controller: ConnectionController, operationId: nat, request: ConnectRequest)
    returns (r: Reply, ghost ending: ProtocolLanguage.Ending)
    requires controller.Valid() && controller.machine.visited == {controller.machine.now}
             && controller.machine.written == []
    modifies controller, controller.backend, controller.machine
    ensures controller.Valid()
    ensures Connects(controller.machine, operationId, request, old(Stands(controller)), Stands(controller), r, ending)
    ensures Passed(controller.machine.visited, controller.machine.written, old(controller.Begun(operationId, request)))
    ensures ending.NotValidated? || ending.NotHeld? ||
      (&& controller.machine.written != []
       && controller.machine.written[0] == Intended(operationId, request, old(controller.backend.activeRequest)))
    ensures r.Done? ==>
      && controller.state == ConnectedState(operationId, request)
      && controller.Live(request, controller.backend.activeInterface.value)
    ensures r.Failed? ==>
      || controller.state == BlockedErrorState(operationId)
      || controller.state == old(controller.state)
      || (old(controller.state).phase != Connected && controller.state == ClearedState(operationId, request.killswitch))
    ensures PromisesRoutes(controller) ==>
      || controller.machine.now.Held()
      || (&& r.Failed? && controller.state == old(controller.state) && old(PromisesRoutes(controller))
          && controller.Refused(old(controller.Begun(operationId, request))))
    ensures controller.backend.activeRequest in {None, old(controller.backend.activeRequest), Some(request)}
  {
    hide Backend.Effective, ConnectStep, ProtocolLanguage.Run, ProtocolLanguage.Next, ConnectWrites, Passed, Crossed;
    hide ProtocolLanguage.ConnectWord, ProtocolLanguage.Blames, Expected;
    ghost var t, crossing := controller.Begun(operationId, request), {};
    r, crossing, ending := controller.Connect(operationId, request);
    if controller.machine.written != [] {
      IntentFirst(controller.machine.written, t);
    }
  }

  /** Connect, and what it means for the demand to block. */
  method Reconnect(controller: ConnectionController, operationId: nat, request: ConnectRequest,
                   ghost targets: set<Option<ConnectRequest>>) returns (r: Reply, ghost ending: ProtocolLanguage.Ending)
    requires controller.Valid() && controller.machine.visited == {controller.machine.now}
             && controller.machine.written == []
    modifies controller, controller.backend, controller.machine
    ensures controller.Valid()
    ensures Connects(controller.machine, operationId, request, old(Stands(controller)), Stands(controller), r, ending)
    ensures ending.NotValidated? || ending.NotHeld? ||
      (&& controller.machine.written != []
       && controller.machine.written[0] == Intended(operationId, request, old(controller.backend.activeRequest)))
    ensures r.Done? ==>
      && controller.state == ConnectedState(operationId, request)
      && controller.Live(request, controller.backend.activeInterface.value)
    ensures r.Failed? ==>
      || controller.state == BlockedErrorState(operationId)
      || controller.state == old(controller.state)
      || (old(controller.state).phase != Connected && controller.state == ClearedState(operationId, request.killswitch))
    ensures PromisesRoutes(controller) ==>
      || controller.machine.now.Held()
      || (&& r.Failed? && controller.state == old(controller.state) && old(PromisesRoutes(controller))
          && controller.Refused(old(controller.Begun(operationId, request))))
    ensures old(controller.machine.now).process.None? && old(controller.backend.activeRequest).None?
            && Some(request) in targets ==>
              RunsOnly(controller.machine, targets)
    ensures controller.backend.activeRequest in {None, old(controller.backend.activeRequest), Some(request)}
    ensures {old(ReopenTarget(controller.machine.now.journal)), old(controller.backend.activeRequest),
             Some(request), None} <= targets ==>
              Targeting(controller.machine, targets)
    ensures Faithful(old(controller.machine.now).journal) ==> FaithfulThroughout(controller.machine)
    ensures request.killswitch && old(Armed(controller)) && KillSwitchOnly(old(controller.machine.now).journal) ==>
              Armed(controller) && Guarded(controller.machine, DemandsBlock(old(controller.machine.now).journal))
  {
    hide Backend.Effective, ConnectStep, ProtocolLanguage.Run, ProtocolLanguage.Next, Connects;
    hide ConnectionController.Live, ConnectionController.Refused;
    var machine := controller.machine;
    ghost var t, armed := controller.Begun(operationId, request), Armed(controller);
    r, ending := Dial(controller, operationId, request);
    forall s | s in machine.visited && request.killswitch && armed && KillSwitchOnly(t.before.journal) {
      ConnectKeepsDemand(s, t);
    }
    forall s | s in machine.visited && Faithful(t.before.journal) {
      ConnectStaysFaithful(s, t);
    }
    forall s | s in machine.visited {
      ConnectTargets(s, t);
    }
  }

  /** Disconnect, after whatever was passed through before, and what it means for the demand to block. */
  method Disengage(controller: ConnectionController, operationId: nat, keepBlocked: bool,
                   ghost targets: set<Option<ConnectRequest>>) returns (r: Reply)
    requires controller.Valid()
    modifies controller, controller.backend, controller.machine
    ensures controller.Valid()
    ensures controller.state == if r.Done? then ClearedState(operationId, keepBlocked)
            else BlockedErrorState(operationId)
    ensures r.Done? && !keepBlocked ==>
              controller.machine.now.halves == {} && controller.machine.now.routeFile.NoRouteFile?
    ensures r.Done? && keepBlocked ==> controller.machine.now.Held()
    ensures controller.machine.reliable && !keepBlocked ==> r.Done?
    ensures Clears(controller.machine, operationId, keepBlocked, old(Stands(controller)), Stands(controller), r)
    ensures r.Done? ==> controller.machine.now.journal == Journaled(Left(operationId, keepBlocked))
    ensures old(controller.machine.written) <= controller.machine.written
    ensures controller.calls ==
              old(controller.calls) + [ProtocolLanguage.Event(ProtocolLanguage.ClearNetwork(keepBlocked), r.Done?)]
    ensures old(RunsOnly(controller.machine, targets)) ==> RunsOnly(controller.machine, targets)
    ensures controller.backend.activeRequest in {None, old(controller.backend.activeRequest)}
    ensures None in targets && old(Targeting(controller.machine, targets)) ==> Targeting(controller.machine, targets)
    ensures old(FaithfulThroughout(controller.machine)) ==> FaithfulThroughout(controller.machine)
    ensures old(Armed(controller)) ==> Armed(controller)
    ensures old(Guarded(controller.machine, false)) ==> Guarded(controller.machine, false)
    ensures keepBlocked && old(Guarded(controller.machine, true)) ==> Guarded(controller.machine, true)
  {
    hide Backend.Effective, DisconnectStep, ProtocolLanguage.Run, ProtocolLanguage.Next;
    var machine := controller.machine;
    ghost var visited, between := machine.visited, machine.now;
    r := controller.Disconnect(operationId, keepBlocked);
    forall s | s in machine.visited && s !in visited {
      DisconnectKeepsDemand(s, between, operationId, keepBlocked);
    }
  }

  /** Clear up once more, as far as the journal allows it; if even that fails, report a block. */
  method FallBack(controller: ConnectionController, operationId: nat, keepBlocked: bool,
                  ghost targets: set<Option<ConnectRequest>>) returns (ghost forced: bool)
    requires controller.Valid()
    modifies controller, controller.backend, controller.machine
    ensures controller.Valid() && controller.state == ClearedState(operationId, keepBlocked || forced)
    ensures !forced && !keepBlocked ==>
              controller.machine.now.halves == {} && controller.machine.now.routeFile.NoRouteFile?
    ensures !forced && keepBlocked ==> controller.machine.now.Held()
    ensures controller.machine.reliable && !keepBlocked ==> !forced
    ensures controller.calls == old(controller.calls) + ProtocolLanguage.FallBackWord(keepBlocked, forced)
    ensures !forced ==> controller.backend.Remembered() == EMPTY_SLOTS && controller.machine.now.process.None?
    ensures old(controller.machine.written) <= controller.machine.written
    ensures old(RunsOnly(controller.machine, targets)) ==> RunsOnly(controller.machine, targets)
    ensures controller.backend.activeRequest in {None, old(controller.backend.activeRequest)}
    ensures None in targets && old(Targeting(controller.machine, targets)) ==> Targeting(controller.machine, targets)
    ensures old(FaithfulThroughout(controller.machine)) ==> FaithfulThroughout(controller.machine)
    ensures old(Armed(controller)) && old(Guarded(controller.machine, keepBlocked)) ==>
              Armed(controller) && Guarded(controller.machine, keepBlocked)
  {
    hide Backend.Effective, ProtocolLanguage.Run, ProtocolLanguage.Next;
    var cleared := Disengage(controller, operationId, keepBlocked, targets);
    forced := cleared.Failed?;
    if cleared.Failed? {
      controller.ForceBlocked(operationId);
    }
  }

  /** The first attempt of a start: reconnect to what the journal names, or clear up as it says. */
  method Recover(controller: ConnectionController, readable: bool, ghost targets: set<Option<ConnectRequest>>)
    returns (r: Reply, operationId: nat, keepBlocked: bool, ghost first: Attempt)
    requires controller.Valid() && controller.state.phase == Disconnected && controller.calls == []
    requires controller.backend.Remembered() == EMPTY_SLOTS && controller.machine.now.process.None?
    requires controller.machine.visited == {controller.machine.now} && controller.machine.written == []
    requires targets == {ReopenTarget(controller.machine.now.journal), None}
    modifies controller, controller.backend, controller.machine
    ensures controller.Valid()
    ensures var journal := old(controller.machine.now).journal; var target := ReopenTarget(journal);
      && operationId == (if Loaded(journal, readable) then journal.state.operationId else 0)
      && keepBlocked == (Loaded(journal, readable) && Demands(journal.state.phase))
      && (r.Done? ==>
          if Loaded(journal, readable) && target.Some? then
            && controller.state == ConnectedState(operationId, target.value)
            && controller.Live(target.value, controller.backend.activeInterface.value)
          else
            var keep := Loaded(journal, readable) && SettlesBlocked(journal.state.phase);
            controller.state == ClearedState(operationId, keep))
      && (!Loaded(journal, readable) ==>
          && (controller.machine.reliable ==> r.Done?)
          && controller.calls == [ProtocolLanguage.Event(ProtocolLanguage.ClearNetwork(false), r.Done?)])
    ensures var course := CourseOf(old(controller.machine.now).journal, readable);
      && Attempts(controller.machine, course, old(controller.machine.now), Stands(controller), first)
      && (r.Done? <==> first.Succeeded()) && (first.Tried? ==> course.target.Some?)
      && (first.Tried? && !first.ending.NotValidated? && !first.ending.NotHeld? ==>
            && controller.machine.written != []
            && controller.machine.written[0] == Intended(course.operationId, course.target.value, None))
    ensures r.Done? && controller.state.phase == Disconnected ==>
              controller.machine.now.halves == {} && controller.machine.now.routeFile.NoRouteFile?
    ensures r.Done? && PromisesRoutes(controller) ==> controller.machine.now.Held()
    ensures controller.backend.activeRequest in targets
    ensures RunsOnly(controller.machine, targets) && Targeting(controller.machine, targets)
    ensures Faithful(old(controller.machine.now).journal) ==> FaithfulThroughout(controller.machine)
    ensures KillSwitchOnly(old(controller.machine.now).journal) ==>
              Armed(controller) && Guarded(controller.machine, keepBlocked)
  {
    hide Backend.Effective, ProtocolLanguage.Run, ProtocolLanguage.Next, FlagsAgree, ConnectionController.Live;
    hide RunsOnly, Targeting, FaithfulThroughout, ConnectionController.Refused, Attempts, Connects, Clears;
    var machine := controller.machine;
    ghost var course, before := CourseOf(machine.now.journal, readable), Stands(controller);
    NothingYet(machine, targets);
    if readable && machine.now.journal.Journaled? {
      var wanted := machine.now.journal.state;
      operationId, keepBlocked := wanted.operationId, Demands(wanted.phase);
      match ReopenTarget(machine.now.journal)
      case Some(request) =>
        ghost var ending;
        r, ending := Reconnect(controller, operationId, request, targets);
        first := Tried(ending);
        ConnectAttempts(machine, course, before, Stands(controller), r, ending);
      case None =>
        SettlesWhatIsDemandedExactlyWhen(machine.now.journal);
        r := Disengage(controller, operationId, SettlesBlocked(wanted.phase), targets);
        first := ClearedAtOnce(r.Done?);
        ClearAttempts(machine, course, before, Stands(controller), r);
    } else {
      operationId, keepBlocked := 0, false;
      r := Disengage(controller, 0, false, targets);
      first := ClearedAtOnce(r.Done?);
      ClearAttempts(machine, course, before, Stands(controller), r);
    }
  }

  /**
   Load the journal, if it can be read, and bring the service into a settled state. `forced` means that the last
   attempt to clear up failed, so that the block is only reported; in no other case is a block reported without
   its routes. A journal that demands a block is let down exactly when it cannot be read and an attempt to clear
   up succeeds.
   */
  method Open(machine: Machine, readable: bool)
    returns (controller: ConnectionController, ghost forced: bool, ghost first: Attempt)
    requires machine.Valid() && machine.now.process.None? && machine.visited == {machine.now} && machine.written == []
    modifies machine
    ensures fresh(controller) && fresh(controller.backend) && controller.machine == machine
    ensures controller.Valid()
    ensures Opens(machine, readable, old(machine.now), Stands(controller), first, forced)
    ensures first.Tried? && !first.ending.NotValidated? && !first.ending.NotHeld? ==>
      var record := old(machine.now).journal.state;
      && machine.written != []
      && machine.written[0] == Intended(record.operationId, ReopenTarget(old(machine.now).journal).value, None)
    ensures machine.reliable && readable && ReopenTarget(old(machine.now).journal).Some? ==>
      var target := ReopenTarget(old(machine.now).journal).value;
      Acceptable(machine, target, None) && (target.killswitch ==> Guardable(machine, old(machine.now).routeFile)) ==>
        controller.state == ConnectedState(old(machine.now).journal.state.operationId, target)
    ensures controller.state.phase in {Connected, Blocked, Disconnected}
    ensures readable && old(machine.now).journal.Journaled? ==>
      var wanted, target := old(machine.now).journal.state, ReopenTarget(old(machine.now).journal);
      && controller.state.operationId == wanted.operationId
      && (controller.state.phase == Connected ==>
          target.Some? && controller.Live(target.value, controller.backend.activeInterface.value))
      && (controller.state.phase == Disconnected ==> if target.Some? then !Demands(wanted.phase)
          else !SettlesBlocked(wanted.phase))
      && (Faithful(old(machine.now).journal) && controller.state.phase == Disconnected ==> !Demands(wanted.phase))
    ensures !(readable && old(machine.now).journal.Journaled?) ==>
      && controller.state.operationId == 0
      && controller.state.phase == (if forced then Blocked else Disconnected)
      && (!forced ==> machine.now.halves == {} && machine.now.routeFile.NoRouteFile?)
      && (machine.reliable ==> !forced)
      && (forced <==> ProtocolLanguage.Event(ProtocolLanguage.ClearNetwork(false), true) !in controller.calls)
    ensures forced ==>
      && controller.state.phase == Blocked && |controller.calls| >= 2
      && controller.calls[|controller.calls| - 2].call.ClearNetwork? && !controller.calls[|controller.calls| - 2].ok
    ensures PromisesRoutes(controller) && !forced ==> machine.now.Held()
    ensures RunsOnly(machine, {ReopenTarget(old(machine.now).journal), None})
    ensures Faithful(old(machine.now).journal) && DemandsBlock(old(machine.now).journal) ==>
      (controller.state.phase == Disconnected <==> !readable && !forced)
    ensures Faithful(old(machine.now).journal) ==> FaithfulThroughout(machine)
    ensures KillSwitchOnly(old(machine.now).journal) ==>
      Armed(controller) && Guarded(machine, readable && DemandsBlock(old(machine.now).journal))
    ensures controller.backend.activeRequest in {None, ReopenTarget(old(machine.now).journal)}
    ensures Targeting(machine, {ReopenTarget(old(machine.now).journal), None})
  {
    hide Backend.Effective, ProtocolLanguage.Run, ProtocolLanguage.Next, FlagsAgree, ConnectionController.Live;
    hide RunsOnly, Targeting, FaithfulThroughout, Guarded, Attempts, Opens, Attempt.Word, ProtocolLanguage.FallBackWord;
    hide Backend.Acceptable, Backend.Guardable, KillSwitchOnly, Faithful, ConnectionController.Rests;
    ghost var targets, from := {ReopenTarget(machine.now.journal), None}, machine.now;
    SettlesUnless(machine.now.journal);
    var backend := new WindowsBackend.Open(machine);
    controller := new ConnectionController(backend);
    forced := false;
    var recovery, operationId, keepBlocked;
    recovery, operationId, keepBlocked, first := Recover(controller, readable, targets);
    if recovery.Failed? {
      ghost var attempted := Stands(controller);
      forced := FallBack(controller, operationId, keepBlocked, targets);
      FallBackOpens(machine, readable, from, attempted, Stands(controller), first, forced);
    } else {
      AttemptOpens(machine, readable, from, Stands(controller), first);
    }
    ForcedBehindClear(machine, readable, from, Stands(controller), first, forced);
    if machine.reliable && readable && ReopenTarget(from.journal).Some? &&
      Acceptable(machine, ReopenTarget(from.journal).value, None) &&
      (ReopenTarget(from.journal).value.killswitch ==> Guardable(machine, from.routeFile)) {
      ReliableStartConnects(machine, from, Stands(controller), first, forced);
    }
  }

  /** A command that never asks for an open network. */
  predicate FailClosed(command: Command) {
    match command
    case ConnectTo(_, request, _) => request.killswitch
    case DisconnectFrom(_, keepBlocked) => keepBlocked
    case _ => true
  }

  /** The connect went back to the state it began in, after its hold had failed. */
  ghost predicate WentBack(controller: ConnectionController, r: Reply, before: ServiceState)
    reads controller
  {
    && r.Failed? && controller.state == before
    && controller.calls != []
    && controller.calls[|controller.calls| - 1].call in {ProtocolLanguage.InstallHold, ProtocolLanguage.ReleaseHold}
  }

  /** A tick of the monitor, and what it means for the demand to block. */
  method Monitor(controller: ConnectionController) returns (r: Reply, ghost known: bool)
    requires controller.Valid() && controller.machine.visited == {controller.machine.now}
    modifies controller, controller.backend, controller.machine
    ensures controller.Valid()
    ensures Audits(controller.machine, old(Stands(controller)), Stands(controller), r, known)
    ensures PromisesRoutes(controller) ==>
              controller.machine.now.Held() || (old(PromisesRoutes(controller)) && !old(controller.machine.now).Held())
    ensures Faithful(old(controller.machine.now).journal) ==> FaithfulThroughout(controller.machine)
    ensures old(Armed(controller)) && KillSwitchOnly(old(controller.machine.now).journal) ==>
      && Armed(controller)
      && Guarded(controller.machine, DemandsBlock(old(controller.machine.now).journal))
      && (old(controller.state).phase != Disconnected ==> controller.state.phase != Disconnected)
  {
    hide Backend.Effective, Backend.Guardable, ProtocolLanguage.Run, ProtocolLanguage.Next, DisconnectStep;
    var machine := controller.machine;
    ghost var before, live := machine.now, controller.backend.activeRequest;
    ghost var running;
    r, known, running := controller.AuditRuntime();
    forall s | s in machine.visited && s != before {
      DisconnectKeepsDemand(s, before, controller.backend.pendingOperationId, live.value.killswitch);
    }
  }

  /**
   Another version of Xray was activated: reconnect the live request to it. That a connected service always has a
   live request is what makes the empty branch impossible.
   */
  method SwitchVersion(controller: ConnectionController, operationId: nat, version: string, restorable: bool)
    returns (response: Response, ghost refused: bool)
    requires controller.Valid() && controller.machine.visited == {controller.machine.now}
             && controller.machine.written == []
    modifies controller, controller.backend, controller.machine
    ensures controller.Valid()
    ensures Carried(controller.machine, Activate(operationId, version, restorable), old(Stands(controller)),
                    Stands(controller), response)
    ensures refused ==> controller.state == old(controller.state)
    ensures PromisesRoutes(controller) && !refused ==>
              controller.machine.now.Held() || (old(PromisesRoutes(controller)) && !old(controller.machine.now).Held())
    ensures Faithful(old(controller.machine.now).journal) ==> FaithfulThroughout(controller.machine)
    ensures old(Armed(controller)) && KillSwitchOnly(old(controller.machine.now).journal) ==>
      && Armed(controller)
      && Guarded(controller.machine, DemandsBlock(old(controller.machine.now).journal))
      && (old(controller.state).phase != Disconnected ==> controller.state.phase != Disconnected)
  {
    hide Backend.Effective, ProtocolLanguage.Run, ProtocolLanguage.Next, Connects, ReopenTarget, FlagsAgree, Carried;
    var machine := controller.machine;
    ghost var before, command := Stands(controller), Activate(operationId, version, restorable);
    response, refused := Acknowledged, false;
    if controller.state.phase != Connected {
      NothingCarried(machine, command, before, response);
      return;
    }
    match controller.backend.activeRequest
    case None => assert false;
    case Some(request) =>
      var r;
      ghost var ending;
      r, ending := Reconnect(controller, operationId, request.(xrayVersion := version), {});
      refused := WentBack(controller, r, before.state);
      if r.Failed? {
        response := Refused(if restorable then r.error else RestoreFailed);
      }
      SwitchCarried(machine, command, before, Stands(controller), response, r, ending);
  }

  /**
   Carry out one command. `refused` means that a connect went back to the state it began in after its hold had
   failed.
   */
  method Execute(controller: ConnectionController, command: Command) returns (response: Response, ghost refused: bool)
    requires controller.Valid() && controller.machine.visited == {controller.machine.now}
             && controller.machine.written == []
    modifies controller, controller.backend, controller.machine
    ensures controller.Valid()
    ensures Carried(controller.machine, command, old(Stands(controller)), Stands(controller), response)
    ensures refused ==> (command.ConnectTo? || command.Activate?) && controller.state == old(controller.state)
    ensures PromisesRoutes(controller) && !refused ==>
              controller.machine.now.Held() || (old(PromisesRoutes(controller)) && !old(controller.machine.now).Held())
    ensures Faithful(old(controller.machine.now).journal) ==> FaithfulThroughout(controller.machine)
    ensures FailClosed(command) && old(Armed(controller)) && KillSwitchOnly(old(controller.machine.now).journal) ==>
      && Armed(controller)
      && Guarded(controller.machine, DemandsBlock(old(controller.machine.now).journal))
      && (old(controller.state).phase != Disconnected ==> controller.state.phase != Disconnected)
  {
    hide Backend.Effective, ProtocolLanguage.Run, ProtocolLanguage.Next, Connects, Clears, Audits;
    hide ReopenTarget, FlagsAgree, Carried, ConnectionController.Live;
    var machine := controller.machine;
    ghost var before := Stands(controller);
    refused := false;
    match command
    case ConnectTo(operationId, request, version) =>
      var r;
      ghost var ending;
      r, ending := Reconnect(controller, operationId, request.(xrayVersion := version), {});
      refused := WentBack(controller, r, before.state);
      response := if r.Done? then StateIs(controller.state) else Refused(r.error);
      ConnectCarried(machine, command, before, Stands(controller), response, r, ending);
    case DisconnectFrom(operationId, keepBlocked) =>
      var r := Disengage(controller, operationId, keepBlocked, {});
      response := if r.Done? then StateIs(controller.state) else Refused(r.error);
      ClearCarried(machine, command, before, Stands(controller), response, r);
    case Activate(operationId, version, restorable) =>
      response, refused := SwitchVersion(controller, operationId, version, restorable);
    case Audit =>
      var r;
      ghost var known;
      r, known := Monitor(controller);
      response := if r.Done? then StateIs(controller.state) else Refused(r.error);
      AuditCarried(machine, before, Stands(controller), response, r, known);
    case Status =>
      response := StateIs(controller.state);
      NothingCarried(machine, command, before, response);
  }

  /**
   A command that completes, or one the service dies in, followed by starts that die, each able to read the
   journal or not, and one that does not die; or Xray exits on its own.
   */
  datatype Event =
    | Completed(command: Command)
    | Died(command: Command, failedStarts: seq<bool>, lastStart: bool)
    | XrayExits

  /** Every start of these events can read the journal. */
  predicate AllRead(events: seq<Event>) {
    forall event | event in events && event.Died? :: event.lastStart && forall start | start in event.failedStarts ::
      start
  }

  /** What becomes of the service by an event, and what it replies. */
  ghost predicate Explained(machine: Machine, event: Event, before: Standing, after: Standing,
                            response: Option<Response>)
  {
    match event
    case Completed(command) => response.Some? && Carried(machine, command, before, after, response.value)
    case Died(_, _, lastStart) => response.None? && Reopens(machine, lastStart, after)
    case XrayExits =>
      && response.None?
      && after == if before.now.process.None? then before
                  else before.(exited := before.exited + {before.now.process.value.id})
  }

  /** The service was started from some state of the disk. */
  ghost predicate Reopens(machine: Machine, readable: bool, after: Standing) {
    exists from: Snapshot, first, forced :: from.process.None? && Opens(machine, readable, from, after, first, forced)
  }

  /** Die in some state passed through, then start again, dying in all starts but the last. */
  method DieAndRestart(machine: Machine, failedStarts: seq<bool>, lastStart: bool, ghost closed: bool,
                       ghost demanded: bool)
    returns (controller: ConnectionController, ghost forced: bool)
    requires machine.Valid() && FaithfulThroughout(machine)
    requires closed ==> Guarded(machine, demanded) && lastStart && forall start | start in failedStarts :: start
    modifies machine
    ensures fresh(controller) && fresh(controller.backend) && controller.machine == machine
    ensures controller.Valid() && controller.state.phase in {Connected, Blocked, Disconnected}
    ensures Reopens(machine, lastStart, Stands(controller))
    ensures forced ==> controller.state.phase == Blocked
    ensures PromisesRoutes(controller) && !forced ==> machine.now.Held()
    ensures Faithful(machine.now.journal)
    ensures closed ==>
      && Armed(controller) && KillSwitchOnly(machine.now.journal)
      && (demanded ==> controller.state.phase != Disconnected && DemandsBlock(machine.now.journal))
      && (controller.state.phase == Connected ==> DemandsBlock(machine.now.journal))
  {
    hide Backend.Effective, ProtocolLanguage.Run, ProtocolLanguage.Next, Opens;
    ghost var first;
    machine.Crash();
    for k := 0 to |failedStarts|
      invariant machine.Valid() && machine.now.process.None? && machine.visited == {machine.now}
                && machine.written == []
      invariant Faithful(machine.now.journal)
      invariant closed ==> KillSwitchOnly(machine.now.journal) && (demanded ==> DemandsBlock(machine.now.journal))
    {
      assert failedStarts[k] in failedStarts;
      controller, forced, first := Open(machine, failedStarts[k]);
      machine.Crash();
    }
    controller, forced, first := Open(machine, lastStart);
  }

  /** Once a connection is up, no later settled state is reported as disconnected. */
  ghost predicate StaysClosed(phases: seq<ConnectionPhase>) {
    forall i, j | 0 <= i < j < |phases| && phases[i] == Connected :: phases[j] != Disconnected
  }

  lemma OneStaysClosed(phase: ConnectionPhase)
    ensures StaysClosed([phase])
  {}

  lemma StaysClosedExtended(phases: seq<ConnectionPhase>, phase: ConnectionPhase)
    requires StaysClosed(phases)
    requires Connected in phases ==> phase != Disconnected
    ensures StaysClosed(phases + [phase])
  {}

  /** Nothing in these events asks for an open network or loses the journal. */
  predicate AllClosed(events: seq<Event>) {
    AllRead(events) && forall event | event in events && !event.XrayExits? :: FailClosed(event.command)
  }

  /**
   What a settled state is good for: whether its report promises the routes of the hold, whether they are there,
   and whether it came about by a refused connect or a forced block.
   */
  datatype Cover = Cover(promised: bool, held: bool, doubtful: bool)

  /** A doubtful state lies behind state `i`, and the routes have been promised ever since. */
  ghost predicate Doubted(covers: seq<Cover>, i: nat)
    requires i < |covers|
  {
    exists j | 0 <= j <= i :: covers[j].doubtful && forall k | j <= k <= i :: covers[k].promised
  }

  /** Routes that are promised are there, unless in doubt. */
  ghost predicate Accounted(covers: seq<Cover>) {
    forall i | 0 <= i < |covers| && covers[i].promised :: covers[i].held || Doubted(covers, i)
  }

  lemma AccountedExtended(covers: seq<Cover>, cover: Cover)
    requires Accounted(covers)
    requires cover.promised ==>
      || cover.held || cover.doubtful
      || (covers != [] && covers[|covers| - 1].promised && !covers[|covers| - 1].held)
    ensures Accounted(covers + [cover])
  {
    var longer, last := covers + [cover], |covers|;
    forall i | 0 <= i < |longer| && longer[i].promised && !longer[i].held
      ensures Doubted(longer, i)
    {
      if i == last && cover.doubtful {
        assert longer[last].doubtful;
      } else {
        var k := if i == last then last - 1 else i;
        assert Doubted(covers, k);
        var j :| 0 <= j <= k && covers[j].doubtful && forall m | j <= m <= k :: covers[m].promised;
        assert longer[j].doubtful && forall m | j <= m <= i :: longer[m].promised;
      }
    }
  }

  /** What can make a settled state doubtful: a connect that goes back to where it was, or a start. */
  predicate MayDoubt(event: Event, before: ConnectionPhase, after: ConnectionPhase) {
    match event
    case Completed(command) => (command.ConnectTo? || command.Activate?) && after == before
    case Died(_, _, _) => after == Blocked
    case XrayExits => false
  }

  /** What a connection with its kill switch on promises, and what its journal demands. */
  lemma ArmedDemands(controller: ConnectionController)
    requires controller.Valid()
    ensures controller.machine.now in controller.machine.visited
    ensures Stands(controller).state == controller.state
    ensures controller.state.phase == Blocked ==> PromisesRoutes(controller)
    ensures Armed(controller) && controller.state.phase == Connected ==>
              PromisesRoutes(controller) && DemandsBlock(controller.machine.now.journal)
  {}

  /** One event of a lifetime. */
  method Handle(controller: ConnectionController, event: Event, ghost closed: bool, ghost demanded: bool)
    returns (next: ConnectionController, ghost doubtful: bool, response: Option<Response>)
    requires controller.Valid() && Faithful(controller.machine.now.journal)
    requires closed ==>
      && (event.XrayExits? || FailClosed(event.command)) && AllRead([event])
      && Armed(controller) && KillSwitchOnly(controller.machine.now.journal)
    requires closed && demanded ==>
               controller.state.phase != Disconnected && DemandsBlock(controller.machine.now.journal)
    modifies controller, controller.backend, controller.machine
    ensures next == controller || fresh(next)
    ensures next.backend == controller.backend || fresh(next.backend)
    ensures next.machine == controller.machine && next.Valid() && Faithful(next.machine.now.journal)
    ensures next.state.phase in {Disconnected, Connected, Blocked, BlockedError}
    ensures Explained(controller.machine, event, old(Stands(controller)), Stands(next), response)
    ensures closed ==> Armed(next) && KillSwitchOnly(next.machine.now.journal)
    ensures closed && demanded ==> next.state.phase != Disconnected
    ensures closed && (demanded || next.state.phase == Connected) ==> DemandsBlock(next.machine.now.journal)
    ensures doubtful ==> MayDoubt(event, old(controller.state.phase), next.state.phase)
    ensures PromisesRoutes(next) && !doubtful ==>
              next.machine.now.Held() || (old(PromisesRoutes(controller)) && !old(controller.machine.now).Held())
  {
    hide Backend.Effective, ProtocolLanguage.Run, ProtocolLanguage.Next;
    hide Faithful, KillSwitchOnly, DemandsBlock;
    var machine := controller.machine;
    machine.Begin();
    next, doubtful, response := controller, false, None;
    match event {
      case Completed(command) =>
        var reply;
        reply, doubtful := Execute(controller, command);
        response := Some(reply);
      case Died(command, failedStarts, lastStart) =>
        assert event in [event];
        var reply;
        reply, doubtful := Execute(controller, command);
        next, doubtful := DieAndRestart(machine, failedStarts, lastStart, closed, demanded);
      case XrayExits =>
        machine.Exit();
    }
    ArmedDemands(next);
  }

  lemma ClosedOneByOne(events: seq<Event>, n: nat)
    requires AllClosed(events) && n < |events|
    ensures (events[n].XrayExits? || FailClosed(events[n].command)) && AllRead([events[n]])
  {
    assert events[n] in events;
  }

  /** What was true throughout is true now. */
  lemma TrueNow(machine: Machine, demanded: bool)
    requires machine.now in machine.visited
    ensures FaithfulThroughout(machine) ==> Faithful(machine.now.journal)
    ensures Guarded(machine, demanded) ==>
              KillSwitchOnly(machine.now.journal) && (demanded ==> DemandsBlock(machine.now.journal))
  {}

  /** What is reported against what is there, over the settled states so far. */
  ghost predicate Ledger(events: seq<Event>, phases: seq<ConnectionPhase>, covers: seq<Cover>, closed: bool) {
    && 0 < |phases| == |covers| <= |events| + 1
    && Accounted(covers)
    && (forall i | 0 <= i < |phases| && phases[i] == Blocked :: covers[i].promised)
    && (closed ==> forall i | 0 <= i < |phases| && phases[i] == Connected :: covers[i].promised)
    && (covers[0].doubtful ==> phases[0] == Blocked)
    && (forall n | 0 < n < |phases| && covers[n].doubtful :: MayDoubt(events[n - 1], phases[n - 1], phases[n]))
  }

  lemma LedgerBegins(events: seq<Event>, phase: ConnectionPhase, cover: Cover, closed: bool)
    requires cover.promised ==> cover.held || cover.doubtful
    requires (phase == Blocked ==> cover.promised) && (closed && phase == Connected ==> cover.promised)
    requires cover.doubtful ==> phase == Blocked
    ensures Ledger(events, [phase], [cover], closed)
  {
    AccountedExtended([], cover);
    assert [] + [cover] == [cover];
  }

  lemma LedgerExtended(events: seq<Event>, phases: seq<ConnectionPhase>, covers: seq<Cover>, closed: bool,
                       phase: ConnectionPhase, cover: Cover)
    requires Ledger(events, phases, covers, closed) && |phases| <= |events|
    requires var last := |covers| - 1;
      cover.promised ==> cover.held || cover.doubtful || (covers[last].promised && !covers[last].held)
    requires (phase == Blocked ==> cover.promised) && (closed && phase == Connected ==> cover.promised)
    requires cover.doubtful ==> MayDoubt(events[|phases| - 1], phases[|phases| - 1], phase)
    ensures Ledger(events, phases + [phase], covers + [cover], closed)
  {
    hide Accounted, MayDoubt;
    AccountedExtended(covers, cover);
  }

  /** How a lifetime came about: by a start, and then event by event. */
  ghost predicate Account(machine: Machine, readable: bool, from: Snapshot, events: seq<Event>,
                          standings: seq<Standing>, responses: seq<Option<Response>>)
  {
    && |standings| == |responses| + 1 <= |events| + 1
    && (exists first, forced :: Opens(machine, readable, from, standings[0], first, forced))
    && forall n | 0 <= n < |responses| :: Explained(machine, events[n], standings[n], standings[n + 1], responses[n])
  }

  lemma AccountBegins(machine: Machine, readable: bool, from: Snapshot, events: seq<Event>, standing: Standing,
                      first: Attempt, forced: bool)
    requires Opens(machine, readable, from, standing, first, forced)
    ensures Account(machine, readable, from, events, [standing], [])
  {
    hide Explained, Opens;
    assert [standing][0] == standing;
  }

  /** The phases reported and the standings behind them. */
  predicate Reported(phases: seq<ConnectionPhase>, standings: seq<Standing>) {
    && |phases| == |standings|
    && forall i | 0 <= i < |phases| ::
         phases[i] == standings[i].state.phase && phases[i] in {Disconnected, Connected, Blocked, BlockedError}
  }

  lemma ReportedExtended(phases: seq<ConnectionPhase>, standings: seq<Standing>, standing: Standing)
    requires Reported(phases, standings)
    requires standing.state.phase in {Disconnected, Connected, Blocked, BlockedError}
    ensures Reported(phases + [standing.state.phase], standings + [standing])
  {}

  lemma AccountExtended(machine: Machine, readable: bool, from: Snapshot, events: seq<Event>,
                        standings: seq<Standing>, responses: seq<Option<Response>>,
                        standing: Standing, response: Option<Response>)
    requires Account(machine, readable, from, events, standings, responses) && |responses| < |events|
    requires Explained(machine, events[|responses|], standings[|responses|], standing, response)
    ensures Account(machine, readable, from, events, standings + [standing], responses + [response])
  {
    hide Explained, Opens;
    var longer, more := standings + [standing], responses + [response];
    assert longer[0] == standings[0];
    forall n | 0 <= n < |more|
      ensures Explained(machine, events[n], longer[n], longer[n + 1], more[n])
    {
      assert n < |responses| ==> longer[n] == standings[n] && longer[n + 1] == standings[n + 1];
    }
  }

  /**
   A lifetime of the machine, whatever is asked, wherever the service dies and whatever fails: every record
   stays faithful; the routes that a settled state promises are there, unless a refused connect or a forced block
   lies behind it; and once a connection is up no settled state is ever reported as disconnected, if no command
   asks for it and every start can read the journal.
   */
  method Serve(machine: Machine, readable: bool, events: seq<Event>)
    returns (phases: seq<ConnectionPhase>, responses: seq<Option<Response>>, ghost standings: seq<Standing>,
             ghost covers: seq<Cover>)
    requires machine.Valid() && machine.now.process.None? && machine.visited == {machine.now} && machine.written == []
    requires Faithful(machine.now.journal)
    modifies machine
    ensures |phases| == |events| + 1 == |responses| + 1
    ensures Account(machine, readable, old(machine.now), events, standings, responses) && Reported(phases, standings)
    ensures Faithful(machine.now.journal)
    ensures KillSwitchOnly(old(machine.now).journal) && readable && AllClosed(events) ==> StaysClosed(phases)
    ensures Ledger(events, phases, covers, KillSwitchOnly(old(machine.now).journal) && readable && AllClosed(events))
  {
    hide Backend.Effective, ProtocolLanguage.Run, ProtocolLanguage.Next, Ledger, StaysClosed;
    hide Faithful, KillSwitchOnly, DemandsBlock, PromisesRoutes, MayDoubt, ConnectionController.Live, FlagsAgree;
    hide Account, Reported, Stands;
    hide ConnectionController.Valid, ConnectionController.Rests, Armed, Guarded, FaithfulThroughout, Targeting;
    hide RunsOnly, Demands, SettlesBlocked, AllRead, AllClosed, Explained, Opens;
    ghost var closed := KillSwitchOnly(machine.now.journal) && readable && AllClosed(events);
    ghost var demanded := DemandsBlock(machine.now.journal);
    ghost var forced, first, from := false, ClearedAtOnce(true), machine.now;
    var controller;
    controller, forced, first := Open(machine, readable);
    ArmedDemands(controller);
    standings, responses := [Stands(controller)], [];
    ReportedExtended([], [], Stands(controller));
    assert [] + [Stands(controller)] == [Stands(controller)];
    assert [] + [controller.state.phase] == [controller.state.phase];
    AccountBegins(machine, readable, from, events, Stands(controller), first, forced);
    TrueNow(machine, readable && demanded);
    OneStaysClosed(controller.state.phase);
    phases := [controller.state.phase];
    covers := [Cover(PromisesRoutes(controller), machine.now.Held(), forced)];
    LedgerBegins(events, phases[0], covers[0], closed);
    for n := 0 to |events|
      invariant |phases| == n + 1 == |standings| == |responses| + 1
      invariant Account(machine, readable, from, events, standings, responses)
      invariant standings[n] == Stands(controller)
      invariant Reported(phases, standings)
      invariant fresh(controller) && fresh(controller.backend) && controller.machine == machine
      invariant controller.Valid() && Faithful(machine.now.journal)
      invariant closed ==> Armed(controller) && KillSwitchOnly(machine.now.journal) && StaysClosed(phases)
      invariant |covers| == n + 1 && Ledger(events, phases, covers, closed)
      invariant controller.state.phase == phases[n]
      invariant covers[n].promised == PromisesRoutes(controller) && covers[n].held == machine.now.Held()
      invariant closed && Connected in phases ==>
                  controller.state.phase != Disconnected && DemandsBlock(machine.now.journal)
    {
      if closed {
        ClosedOneByOne(events, n);
      }
      ghost var doubtful;
      var response;
      controller, doubtful, response := Handle(controller, events[n], closed, Connected in phases);
      ArmedDemands(controller);
      AccountExtended(machine, readable, from, events, standings, responses, Stands(controller), response);
      ReportedExtended(phases, standings, Stands(controller));
      standings, responses := standings + [Stands(controller)], responses + [response];
      if closed {
        StaysClosedExtended(phases, controller.state.phase);
      }
      ghost var cover := Cover(PromisesRoutes(controller), machine.now.Held(), doubtful);
      LedgerExtended(events, phases, covers, closed, controller.state.phase, cover);
      phases, covers := phases + [controller.state.phase], covers + [cover];
    }
  }

  /**
   What the exception above comes to: a connection with its kill switch on, all its routes in place, and a
   journal that cannot be read for a moment while nothing else fails. The service ends disconnected, without
   a route.
   */
  method UnreadJournalOpensTheNetwork(machine: Machine, operationId: nat, request: ConnectRequest)
    returns (controller: ConnectionController)
    requires machine.Valid() && machine.now.process.None? && machine.visited == {machine.now} && machine.written == []
    requires machine.reliable && machine.now.Held() && request.killswitch
    requires machine.now.journal == Journaled(Established(operationId, request))
    modifies machine
    ensures DemandsBlock(old(machine.now).journal)
    ensures fresh(controller) && controller.machine == machine && controller.Valid()
            && controller.state.phase == Disconnected
    ensures machine.now.halves == {} && machine.now.routeFile.NoRouteFile?
  {
    ghost var forced, first;
    controller, forced, first := Open(machine, false);
  }
}
