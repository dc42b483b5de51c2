/**
 The effects behind the connection controller: which requests and interfaces are remembered, what is
 journaled, what runs and which routes exist (service/src/windows_backend.rs).
 */
module Backend {
  import opened Wrappers
  import opened Json
  import opened Protocol
  import opened Runtime
  import opened World
  import Routes

  /** A configuration that was written to candidate.json and passed the syntax check. */
  datatype Prepared = Prepared(version: string, contents: Json)

  /** What the backend remembers between calls. */
  datatype Slots = Slots(
    activeRequest: Option<ConnectRequest>,
    previousRequest: Option<ConnectRequest>,
    candidateRequest: Option<ConnectRequest>,
    prepared: Option<Prepared>,
    activeInterface: Option<string>,
    previousInterface: Option<string>,
    candidateInterface: Option<string>)

  const EMPTY_SLOTS := Slots(None, None, None, None, None, None, None)
  const BLOCK_REASON := "kill switch requested while disconnected"

  predicate WantsKillSwitch(request: Option<ConnectRequest>) {
    request.Some? && request.value.killswitch
  }

  /** The configuration a request runs with behind one physical interface. */
  function Effective(request: ConnectRequest, interfaceName: string): Result<Json, ConfigError> {
    RewriteNativeOutboundInterface(request.xrayConfig, interfaceName)
  }

  /** The interface a request would leave by on a reliable machine: the live one, or else the best one. */
  function Leaves(machine: Machine, request: ConnectRequest, live: Option<string>): Option<string> {
    if live.Some? then live
    else if request.serverEndpoints in machine.routed then Some(machine.routed[request.serverEndpoints])
    else None
  }

  /** Behind the interface it would leave by, the request can be run. */
  predicate Runnable(machine: Machine, request: ConnectRequest, live: Option<string>) {
    Leaves(machine, request, live).Some? && Effective(request, Leaves(machine, request, live).value).Ok?
  }

  /** What validation asks of a request on a reliable machine. */
  predicate Acceptable(machine: Machine, request: ConnectRequest, live: Option<string>) {
    && InspectNativeTunConfig(request.xrayConfig).Done?
    && InspectValidationConfig(request.validationConfig).Done?
    && Runnable(machine, request, live)
  }

  /** On a reliable machine an installation of the routes succeeds: there are not too many names to guard. */
  ghost predicate Guardable(machine: Machine, file: RouteFile) {
    !Routes.TooMany(file, machine.adapters, true)
  }

  class WindowsBackend {
    const machine: Machine
    var active: Option<Process>
    var activeRequest: Option<ConnectRequest>
    var previousRequest: Option<ConnectRequest>
    var candidateRequest: Option<ConnectRequest>
    var preparedCandidate: Option<Prepared>
    var activeInterface: Option<string>
    var previousInterface: Option<string>
    var candidateInterface: Option<string>
    var pendingOperationId: nat

    function Remembered(): Slots
      reads this
    {
      Slots(activeRequest, previousRequest, candidateRequest, preparedCandidate,
                  activeInterface, previousInterface, candidateInterface)
    }

    ghost predicate Valid()
      reads this, machine
    {
      machine.Valid() && active == machine.now.process
    }

    /** The record a transition is journaled with before it starts. */
    function Intent(): DesiredState
      requires candidateRequest.Some?
      reads this
    {
      DesiredState(pendingOperationId,
                   WantConnecting(candidateRequest.value, activeRequest, candidateRequest.value.killswitch))
    }

    predicate HoldRequired()
      reads this
    {
      WantsKillSwitch(candidateRequest) || WantsKillSwitch(activeRequest)
    }

    constructor Open(machine: Machine)
      requires machine.Valid() && machine.now.process.None?
      ensures Valid() && this.machine == machine && Remembered() == EMPTY_SLOTS
    {
      this.machine := machine;
      active := None;
      activeRequest, previousRequest, candidateRequest := None, None, None;
      preparedCandidate := None;
      activeInterface, previousInterface, candidateInterface := None, None, None;
      pendingOperationId := 0;
    }

    method SetOperationId(operationId: nat)
      modifies this`pendingOperationId
      ensures pendingOperationId == operationId
    {
      pendingOperationId := operationId;
    }

    method StopProcess() returns (ok: bool)
      requires Valid()
      modifies this`active, machine`now, machine`visited
      ensures Valid()
      ensures machine.now == old(machine.now).(process := None)
      ensures machine.visited == old(machine.visited) + {machine.now}
      ensures old(active).None? || machine.reliable ==> ok
    {
      active := None;
      ok := machine.Kill();
    }

    /** The configuration of a request behind the live interface or, without one, the best one to its servers. */
    method Adapt(request: ConnectRequest, live: Option<string>)
      returns (interfaceName: Option<string>, config: Option<Json>)
      ensures config.Some? ==>
        && interfaceName.Some? && (live.Some? ==> interfaceName == live)
        && Effective(request, interfaceName.value) == Ok(config.value)
      ensures machine.reliable ==>
        && (config.Some? <==> Runnable(machine, request, live))
        && (config.Some? ==> interfaceName == Leaves(machine, request, live))
    {
      hide Effective;
      interfaceName, config := live, None;
      if interfaceName.None? {
        interfaceName := machine.BestInterface(request.serverEndpoints);
      }
      if interfaceName.Some? {
        var effective := Effective(request, interfaceName.value);
        config := if effective.Ok? then Some(effective.value) else None;
      }
    }

    /** Check the request and prepare the configuration it will run with; nothing live is touched. */
    method ValidateCandidate(request: ConnectRequest) returns (r: Reply)
      requires Valid()
      modifies this`candidateRequest, this`preparedCandidate, this`candidateInterface, machine`now, machine`visited
      ensures Valid()
      ensures machine.visited == old(machine.visited) + {machine.now}
      ensures machine.now == old(machine.now).(candidateFile := machine.now.candidateFile)
      ensures r.Failed? ==> Remembered() == old(Remembered()) && r.error == ValidationFailed
      ensures machine.reliable ==>
        && (r.Done? <==> Acceptable(machine, request, activeInterface))
        && (r.Done? ==> candidateInterface == Leaves(machine, request, activeInterface))
      ensures r.Done? ==>
        && InspectNativeTunConfig(request.xrayConfig).Done?
        && InspectValidationConfig(request.validationConfig).Done?
        && candidateRequest == Some(request)
        && candidateInterface.Some?
        && (activeInterface.Some? ==> candidateInterface == activeInterface)
        && preparedCandidate.Some?
        && preparedCandidate.value.version == request.xrayVersion
        && Effective(request, candidateInterface.value) == Ok(preparedCandidate.value.contents)
        && machine.now.candidateFile == Some(preparedCandidate.value.contents)
    {
      hide Effective, Runnable, InspectNativeTunConfig, InspectValidationConfig;
      var accepted := machine.Attempt();
      if !accepted || InspectNativeTunConfig(request.xrayConfig).Failed?
        || InspectValidationConfig(request.validationConfig).Failed? {
        return Failed(ValidationFailed);
      }
      var interfaceName, effective := Adapt(request, activeInterface);
      if effective.None? {
        return Failed(ValidationFailed);
      }
      var written := machine.WriteCandidateFile(effective.value);
      var parses := machine.Attempt();
      if !written || !parses {
        return Failed(ValidationFailed);
      }
      preparedCandidate := Some(Prepared(request.xrayVersion, effective.value));
      candidateRequest := Some(request);
      candidateInterface := interfaceName;
      r := Done;
    }

    /** Journal the intent, then install the routes that will cover the transition. */
    method InstallTransitionHold() returns (r: Reply)
      requires Valid()
      modifies machine`now, machine`visited, machine`written
      ensures Valid() && old(machine.visited) <= machine.visited
      ensures candidateRequest.None? ==>
        && r.Failed? && machine.now == old(machine.now)
        && machine.visited == old(machine.visited) && machine.written == old(machine.written)
      ensures candidateRequest.Some? ==>
              var intent := old(machine.now).(journal := Journaled(Intent()));
              && (forall s | s in machine.visited :: s in old(machine.visited) ||
                    (Routes.RouteStep(s, intent) && Routes.AtMostOneMissing(s, old(machine.now))))
              && (machine.now == old(machine.now) || machine.now.SameButRoutes(intent))
              && (r.Done? ==> machine.now.SameButRoutes(intent))
              && (machine.written == old(machine.written) + [Intent()] ||
                  (r.Failed? && machine.written == old(machine.written) && machine.visited <= old(machine.visited)))
              && (r.Done? && !HoldRequired() ==> machine.now == intent)
      ensures r.Done? && HoldRequired() ==> machine.now.Held()
      ensures r.Failed? && !HoldRequired() ==> machine.now == old(machine.now)
      ensures Routes.AtMostOneMissing(machine.now, old(machine.now))
      ensures r.Failed? ==> r.error in {HoldFailed, Internal}
      ensures machine.reliable && candidateRequest.Some? ==>
                (r.Done? <==> (HoldRequired() ==> Guardable(machine, old(machine.now).routeFile)))
    {
      hide Routes.OneMissing, Routes.LackOne, Routes.TooMany;
      Routes.NothingMissing(machine.now, machine.now);
      if candidateRequest.None? {
        return Failed(Internal);
      }
      ghost var before := machine.now;
      var persisted := machine.PersistDesiredState(Intent());
      Routes.NothingMissing(machine.now, before);
      if !persisted {
        return Failed(Internal);
      }
      if HoldRequired() {
        var installed := InstallRoutes();
        if !installed {
          return Failed(HoldFailed);
        }
      }
      r := Done;
    }

    /** Enumerate the adapters and install the routes. */
    method InstallRoutes() returns (ok: bool)
      requires Valid()
      modifies machine`now, machine`visited
      ensures Valid() && old(machine.visited) <= machine.visited
      ensures Routes.RouteStep(machine.now, old(machine.now)) && Routes.AtMostOneMissing(machine.now, old(machine.now))
      ensures forall s | s in machine.visited :: s in old(machine.visited) ||
                (Routes.RouteStep(s, old(machine.now)) && Routes.AtMostOneMissing(s, old(machine.now)))
      ensures ok ==> machine.now.Held()
      ensures machine.reliable ==> (ok <==> Guardable(machine, old(machine.now).routeFile))
    {
      hide Routes.OneMissing, Routes.LackOne, Routes.TooMany;
      var adapters := machine.EnumerateAdapters();
      var readable := machine.Attempt();
      ghost var deleted;
      ghost var before := machine.now;
      ok, deleted := Routes.InstallRoutes(machine, adapters, readable);
      forall s | Routes.OneMissing(s, before, deleted) { Routes.OneMissingIsAtMostOne(s, before, deleted); }
    }

    /** Verify the routes; the recorded host routes are verified if the file that names them can be read. */
    method VerifyTransitionHold() returns (r: Reply, ghost read: bool)
      requires Valid()
      ensures r.Done? && HoldRequired() ==> machine.now.halves == HALVES
      ensures r.Done? && HoldRequired() && read ==> machine.now.Held()
      ensures machine.reliable && !machine.now.routeFile.UnreadableRouteFile? && HoldRequired() ==> read
      ensures !HoldRequired() ==> r.Done?
      ensures machine.reliable && machine.now.Held() ==> r.Done?
      ensures r.Failed? ==> r.error == HoldFailed
    {
      read := false;
      if HoldRequired() {
        var readable := machine.Attempt();
        read := Routes.LoadRouteState(machine.now.routeFile, readable).Some?;
        var verified := Routes.VerifyRoutes(machine, true, readable);
        if !verified {
          return Failed(HoldFailed), read;
        }
      }
      r := Done;
    }

    /** Set the live connection aside and kill its process. */
    method StopActive() returns (r: Reply)
      requires Valid()
      modifies this, machine`now, machine`visited
      ensures Valid() && pendingOperationId == old(pendingOperationId)
      ensures Remembered() == old(Remembered()).(
                activeRequest := None, previousRequest := old(activeRequest),
                activeInterface := None, previousInterface := old(activeInterface))
      ensures machine.now == old(machine.now).(process := None)
      ensures machine.visited == old(machine.visited) + {machine.now}
      ensures machine.reliable ==> r.Done?
      ensures r.Failed? ==> r.error == XrayStartFailed
    {
      previousRequest, activeRequest := activeRequest, None;
      previousInterface, activeInterface := activeInterface, None;
      var stopped := StopProcess();
      r := if stopped then Done else Failed(XrayStartFailed);
    }

    /** Start Xray on candidate.json. */
    method StartCandidate() returns (r: Reply)
      requires Valid()
      modifies this`active, machine`now, machine`visited, machine`spawned
      ensures Valid()
      ensures machine.visited == old(machine.visited) + {machine.now}
      ensures preparedCandidate.None? ==> r.Failed?
      ensures r.Failed? ==> machine.now == old(machine.now)
      ensures r.Failed? && preparedCandidate.Some? ==> r.error == XrayStartFailed
      ensures machine.reliable && preparedCandidate.Some? ==> r.Done?
      ensures r.Done? ==>
        && machine.now == old(machine.now).(process := machine.now.process)
        && machine.now.process.Some?
        && (old(active).Some? ==> machine.now.process.value.id > old(active).value.id)
        && machine.now.process.value.version == preparedCandidate.value.version
        && machine.now.process.value.config == old(machine.now).candidateFile
    {
      if preparedCandidate.None? {
        return Failed(ValidationFailed);
      }
      var started := machine.Spawn(preparedCandidate.value.version, machine.now.candidateFile);
      if !started {
        return Failed(XrayStartFailed);
      }
      active := machine.now.process;
      r := Done;
    }

    /** Wait for the adapter of the process just started; its health is the environment's choice. */
    method VerifyCandidate() returns (r: Reply)
      requires Valid()
      ensures active.None? ==> r.Failed?
      ensures active.Some? && machine.reliable ==> r.Done?
      ensures r.Failed? ==> r.error == HealthCheckFailed
    {
      var ready := machine.Attempt();
      r := if active.Some? && ready then Done else Failed(HealthCheckFailed);
    }

    /** Make the candidate the connection to come back to. The journal write is the commit point. */
    method CommitPolicy(request: ConnectRequest) returns (r: Reply)
      requires Valid()
      modifies this`activeRequest, this`previousRequest, this`candidateRequest, this`preparedCandidate,
               this`activeInterface, this`previousInterface, this`candidateInterface, machine`now, machine`visited,
               machine`written
      ensures Valid()
      ensures old(preparedCandidate).Some? ==>
        var saved := old(machine.now).(activeFile := Some(old(preparedCandidate).value.contents));
        var committed := saved.(journal := Journaled(DesiredState(pendingOperationId, WantConnected(request))));
        && machine.visited <= old(machine.visited) + {saved, committed}
        && old(machine.visited) <= machine.visited
        && (r.Done? ==> machine.now == committed)
        && (r.Failed? ==> machine.now in {old(machine.now), saved} && machine.visited <= old(machine.visited) + {saved})
      ensures old(preparedCandidate).None? ==>
                r.Failed? && machine.now == old(machine.now) && machine.visited == old(machine.visited)
      ensures r.Failed? ==> Remembered() == old(Remembered()) && machine.written == old(machine.written)
      ensures r.Failed? ==> r.error in {HealthCheckFailed, Internal}
      ensures machine.reliable && old(preparedCandidate).Some? ==> r.Done?
      ensures r.Done? ==>
                machine.written == old(machine.written) + [DesiredState(pendingOperationId, WantConnected(request))]
      ensures r.Done? ==>
                Remembered() == EMPTY_SLOTS.(activeRequest := Some(request), activeInterface := old(candidateInterface))
    {
      var healthy := machine.Attempt();
      if !healthy {
        return Failed(HealthCheckFailed);
      }
      if preparedCandidate.None? {
        return Failed(Internal);
      }
      var saved := machine.WriteActiveFile(preparedCandidate.value.contents);
      if !saved {
        return Failed(Internal);
      }
      var persisted := machine.PersistDesiredState(DesiredState(pendingOperationId, WantConnected(request)));
      if !persisted {
        return Failed(Internal);
      }
      activeRequest := Some(request);
      activeInterface := candidateInterface;
      candidateInterface := None;
      previousRequest, previousInterface := None, None;
      candidateRequest, preparedCandidate := None, None;
      r := Done;
    }

    /** Keep the routes of a kill-switch connection, remove them otherwise. */
    method ReleaseTransitionHold() returns (r: Reply, ghost read: bool)
      requires Valid()
      modifies machine`now, machine`visited
      ensures Valid() && old(machine.visited) <= machine.visited
      ensures machine.now.SameButRoutes(old(machine.now))
      ensures forall s | s in machine.visited :: s in old(machine.visited) || s.SameButRoutes(old(machine.now))
      ensures WantsKillSwitch(activeRequest) ==>
        && machine.now == old(machine.now) && machine.visited == old(machine.visited)
        && (r.Done? ==> machine.now.halves == HALVES)
        && (r.Done? && read ==> machine.now.Held())
      ensures !WantsKillSwitch(activeRequest) && r.Done? ==>
        && machine.now.halves == {} && machine.now.routeFile.NoRouteFile?
        && (read ==> machine.now.hosts == old(machine.now).hosts - old(machine.now).Named())
      ensures machine.reliable && !old(machine.now).routeFile.UnreadableRouteFile? ==> read
      ensures machine.reliable && (WantsKillSwitch(activeRequest) ==> old(machine.now).Held()) ==> r.Done?
      ensures r.Failed? ==> r.error == if WantsKillSwitch(activeRequest) then HoldFailed else CleanupFailed
    {
      if WantsKillSwitch(activeRequest) {
        var readable := machine.Attempt();
        read := Routes.LoadRouteState(machine.now.routeFile, readable).Some?;
        var verified := Routes.VerifyRoutes(machine, true, readable);
        r := if verified then Done else Failed(HoldFailed);
      } else {
        var readable := machine.Attempt();
        var readableAgain := machine.Attempt();
        read := readable && readableAgain;
        var removed := Routes.RemoveRoutes(machine, readable, readableAgain);
        r := if removed then Done else Failed(CleanupFailed);
      }
    }

    /** Write active.json, run it and, once it is healthy, journal the connection. */
    method Relaunch(request: ConnectRequest, config: Json) returns (ok: bool)
      requires Valid()
      modifies this`active, machine`now, machine`visited, machine`written, machine`spawned
      ensures Valid() && old(machine.visited) <= machine.visited
      ensures machine.now == old(machine.now).(
                journal := if ok then Journaled(DesiredState(pendingOperationId, WantConnected(request)))
                           else old(machine.now).journal,
                activeFile := machine.now.activeFile, process := machine.now.process)
      ensures ok ==>
        && machine.now.activeFile == Some(config)
        && machine.now.process.Some?
        && machine.now.process.value.version == request.xrayVersion
        && machine.now.process.value.config == machine.now.activeFile
      ensures forall s | s in machine.visited :: s in old(machine.visited) || (ok && s == machine.now) ||
                s == old(machine.now).(activeFile := s.activeFile, process := s.process)
      ensures forall s | s in machine.visited ::
                s in old(machine.visited) || s.process == old(machine.now).process || s.Runs(request.xrayVersion)
      ensures machine.now.process == old(machine.now).process || machine.now.Runs(request.xrayVersion)
      ensures machine.written ==
                if ok then old(machine.written) + [DesiredState(pendingOperationId, WantConnected(request))]
                else old(machine.written)
      ensures machine.reliable ==> ok
    {
      ok := machine.WriteActiveFile(config);
      if !ok {
        return;
      }
      ok := machine.Spawn(request.xrayVersion, machine.now.activeFile);
      if !ok {
        return;
      }
      active := machine.now.process;
      var healthy := machine.Attempt();
      if !healthy {
        return false;
      }
      ok := machine.PersistDesiredState(DesiredState(pendingOperationId, WantConnected(request)));
    }

    /** Run a request again that was live behind this interface, if it is known, and journal it. */
    method Redial(request: ConnectRequest, live: Option<string>) returns (ok: bool, interfaceName: Option<string>)
      requires Valid()
      modifies this`active, machine`now, machine`visited, machine`written, machine`spawned
      ensures Valid() && old(machine.visited) <= machine.visited
      ensures machine.now == old(machine.now).(
                journal := if ok then Journaled(DesiredState(pendingOperationId, WantConnected(request)))
                           else old(machine.now).journal,
                activeFile := machine.now.activeFile, process := machine.now.process)
      ensures ok ==>
        && interfaceName.Some? && (live.Some? ==> interfaceName == live)
        && machine.now.activeFile.Some?
        && Effective(request, interfaceName.value) == Ok(machine.now.activeFile.value)
        && machine.now.process.Some?
        && machine.now.process.value.version == request.xrayVersion
        && machine.now.process.value.config == machine.now.activeFile
      ensures forall s | s in machine.visited :: s in old(machine.visited) || (ok && s == machine.now) ||
                s == old(machine.now).(activeFile := s.activeFile, process := s.process)
      ensures forall s | s in machine.visited ::
                s in old(machine.visited) || s.process == old(machine.now).process || s.Runs(request.xrayVersion)
      ensures machine.written ==
                if ok then old(machine.written) + [DesiredState(pendingOperationId, WantConnected(request))]
                else old(machine.written)
      ensures machine.reliable ==> (ok <==> Runnable(machine, request, live))
    {
      hide Effective, Runnable;
      var config;
      interfaceName, config := Adapt(request, live);
      var assets := machine.Attempt();
      ok := config.Some? && assets;
      if ok {
        ok := Relaunch(request, config.value);
      }
    }

    /** Bring the connection that was set aside back, and journal it again. */
    method RestorePrevious() returns (r: Reply)
      requires Valid()
      modifies this`active, this`activeRequest, this`previousRequest, this`candidateRequest, this`preparedCandidate,
               this`activeInterface, this`previousInterface, this`candidateInterface, machine`now, machine`visited,
               machine`written, machine`spawned
      ensures Valid() && old(machine.visited) <= machine.visited
      ensures r.Done? ==>
        && old(previousRequest).Some?
        && activeInterface.Some?
        && (old(previousInterface).Some? ==> activeInterface == old(previousInterface))
        && Remembered() == EMPTY_SLOTS.(activeRequest := old(previousRequest), activeInterface := activeInterface)
        && machine.now.process.Some?
        && machine.now.process.value.version == old(previousRequest).value.xrayVersion
        && machine.now.process.value.config == machine.now.activeFile
        && machine.now == old(machine.now).(
             journal := Journaled(DesiredState(pendingOperationId, WantConnected(old(previousRequest).value))),
             activeFile := machine.now.activeFile,
             process := machine.now.process)
        && machine.now.activeFile.Some?
        && Effective(old(previousRequest).value, activeInterface.value) == Ok(machine.now.activeFile.value)
      ensures r.Failed? ==>
        machine.now == old(machine.now).(activeFile := machine.now.activeFile, process := machine.now.process)
      ensures forall s | s in machine.visited :: s in old(machine.visited) || (r.Done? && s == machine.now) ||
                s == old(machine.now).(activeFile := s.activeFile, process := s.process)
      ensures forall s | s in machine.visited :: s in old(machine.visited) || s.process.None? ||
                (old(previousRequest).Some? && s.Runs(old(previousRequest).value.xrayVersion))
      ensures machine.written ==
                if r.Done? then
                  old(machine.written) + [DesiredState(pendingOperationId, WantConnected(old(previousRequest).value))]
                else old(machine.written)
      ensures old(activeRequest).None? && r.Failed? ==> activeRequest.None?
      ensures r.Failed? ==> r.error == RestoreFailed
      ensures machine.reliable ==>
                (r.Done? <==> && old(previousRequest).Some?
                              && Runnable(machine, old(previousRequest).value, old(previousInterface)))
    {
      hide Effective, Runnable;
      var stopped := StopProcess();
      if !stopped {
        return Failed(RestoreFailed);
      }
      if previousRequest.None? {
        return Failed(RestoreFailed);
      }
      var previous := previousRequest.value;
      previousRequest := None;
      var live := previousInterface;
      previousInterface := None;
      var relaunched, interfaceName := Redial(previous, live);
      if !relaunched {
        return Failed(RestoreFailed);
      }
      activeRequest := Some(previous);
      activeInterface := interfaceName;
      candidateInterface, candidateRequest, preparedCandidate := None, None, None;
      r := Done;
    }

    /** The routes of a block, each reinstalled in turn; or none, but for host routes whose names could not be read. */
    method SettleRoutes(keepBlocked: bool) returns (ok: bool, ghost read: bool)
      requires Valid()
      modifies machine`now, machine`visited
      ensures Valid() && old(machine.visited) <= machine.visited
      ensures machine.now.SameButRoutes(old(machine.now))
      ensures forall s | s in machine.visited :: s in old(machine.visited) || s.SameButRoutes(old(machine.now))
      ensures keepBlocked ==> Routes.AtMostOneMissing(machine.now, old(machine.now))
      ensures keepBlocked ==> forall s | s in machine.visited ::
                s in old(machine.visited) || Routes.AtMostOneMissing(s, old(machine.now))
      ensures ok && keepBlocked ==> machine.now.Held()
      ensures ok && !keepBlocked ==>
        && machine.now.halves == {} && machine.now.routeFile.NoRouteFile?
        && (read ==> machine.now.hosts == old(machine.now).hosts - old(machine.now).Named())
      ensures machine.reliable && !keepBlocked ==> ok && read
      ensures machine.reliable && keepBlocked ==> (ok <==> Guardable(machine, old(machine.now).routeFile))
    {
      read := false;
      if keepBlocked {
        ok := InstallRoutes();
      } else {
        var readable := machine.Attempt();
        var readableAgain := machine.Attempt();
        read := readable && readableAgain;
        ok := Routes.RemoveRoutes(machine, readable, readableAgain);
      }
    }

    /** Stop the process, forget everything about it and settle the routes. */
    method TearDown(keepBlocked: bool) returns (ok: bool)
      requires Valid()
      modifies this`active, this`activeRequest, this`previousRequest, this`candidateRequest, this`preparedCandidate,
               this`activeInterface, this`previousInterface, this`candidateInterface, machine`now, machine`visited
      ensures Valid() && old(machine.visited) <= machine.visited
      ensures machine.now.SameButRoutes(old(machine.now).(process := None))
      ensures forall s | s in machine.visited ::
                s in old(machine.visited) || s.SameButRoutes(old(machine.now).(process := None))
      ensures keepBlocked ==> Routes.AtMostOneMissing(machine.now, old(machine.now))
      ensures keepBlocked ==>
                forall s | s in machine.visited ::
                  s in old(machine.visited) || Routes.AtMostOneMissing(s, old(machine.now))
      ensures Remembered() == EMPTY_SLOTS || (!ok && Remembered() == old(Remembered()))
      ensures ok && keepBlocked ==> machine.now.Held()
      ensures ok && !keepBlocked ==> machine.now.halves == {} && machine.now.routeFile.NoRouteFile?
      ensures machine.reliable ==> (ok <==> (keepBlocked ==> Guardable(machine, old(machine.now).routeFile)))
    {
      hide Routes.LackOne, Guardable;
      ghost var before := machine.now;
      ok := StopProcess();
      Routes.NothingMissing(machine.now, before);
      if !ok {
        return;
      }
      activeRequest, previousRequest, candidateRequest := None, None, None;
      preparedCandidate := None;
      activeInterface, previousInterface, candidateInterface := None, None, None;
      ghost var read;
      ok, read := SettleRoutes(keepBlocked);
    }

    /** Journal the disconnection, kill the process, settle the routes, journal the outcome. */
    method ClearNetworkState(keepBlocked: bool) returns (r: Reply)
      requires Valid()
      modifies this`active, this`activeRequest, this`previousRequest, this`candidateRequest, this`preparedCandidate,
               this`activeInterface, this`previousInterface, this`candidateInterface, machine`now, machine`visited,
               machine`written
      ensures Valid() && old(machine.visited) <= machine.visited
      ensures keepBlocked ==> forall s | s in machine.visited ::
                s in old(machine.visited) || Routes.AtMostOneMissing(s, old(machine.now))
      ensures machine.reliable ==> (r.Done? <==> (keepBlocked ==> Guardable(machine, old(machine.now).routeFile)))
      ensures r.Failed? ==> r.error == CleanupFailed
      ensures old(machine.written) <= machine.written
      ensures machine.unwritable ==> r.Failed? && machine.now == old(machine.now)
      ensures var leaving :=
              old(machine.now).(journal := Journaled(DesiredState(pendingOperationId, WantDisconnecting(keepBlocked))));
              var left := Journaled(DesiredState(
                pendingOperationId, if keepBlocked then WantBlocked(BLOCK_REASON) else WantDisconnected));
              && (forall s | s in machine.visited ::
                  s in old(machine.visited) || s == old(machine.now) || s == leaving ||
                    (s.process.None?
                     && (s.journal == leaving.journal || (r.Done? && s == machine.now && s.journal == left))))
              && (r.Done? ==>
                    && Remembered() == EMPTY_SLOTS
                    && machine.now.SameButRoutes(old(machine.now).(journal := left, process := None))
                    && (keepBlocked ==> machine.now.Held())
                    && (!keepBlocked ==> machine.now.halves == {} && machine.now.routeFile.NoRouteFile?))
              && (r.Done? ==> machine.written == old(machine.written) + [leaving.journal.state, left.state])
              && (r.Failed? && machine.written != old(machine.written) ==>
                  machine.written == old(machine.written) + [leaving.journal.state])
              && (r.Failed? && machine.written == old(machine.written) ==> machine.visited <= old(machine.visited))
              && (r.Failed? ==>
                    || (machine.now == old(machine.now) && Remembered() == old(Remembered()))
                    || (machine.now.SameButRoutes(leaving.(process := None))
                        && (Remembered() == EMPTY_SLOTS || Remembered() == old(Remembered()))))
    {
      hide Routes.LackOne, Guardable;
      ghost var before := machine.now;
      var persisted := machine.PersistDesiredState(DesiredState(pendingOperationId, WantDisconnecting(keepBlocked)));
      Routes.NothingMissing(machine.now, before);
      if !persisted {
        return Failed(CleanupFailed);
      }
      var down := TearDown(keepBlocked);
      if !down {
        return Failed(CleanupFailed);
      }
      persisted := machine.PersistDesiredState(
        DesiredState(pendingOperationId, if keepBlocked then WantBlocked(BLOCK_REASON) else WantDisconnected));
      r := if persisted then Done else Failed(CleanupFailed);
    }

    /** Whether the process is still running; the operating system may not be able to tell. */
    method ActiveIsRunning() returns (known: bool, running: bool)
      requires Valid()
      ensures known ==> (running <==> active.Some? && active.value.id !in machine.exited)
      ensures machine.reliable || active.None? ==> known
    {
      if active.None? {
        return true, false;
      }
      known, running := machine.IsRunning();
    }

    predicate UnexpectedFailureKeepBlocked()
      reads this
    {
      WantsKillSwitch(activeRequest)
    }
  }
}
