/**
 What the controller's contracts come to for a user: a reconnect is atomic under crashes, and the
 routes cover the time in which no tunnel does.
 */
module Guarantees {
  import opened Wrappers
  import opened Protocol
  import opened World
  import opened Controller
  import Backend
  import Lookup
  import ProtocolLanguage
  import Routes
  import Service

  /** The connection to come back to once the first `k` records of a connect are on disk. */
  function TargetAfter(initial: Journal, written: seq<DesiredState>, k: nat): Option<ConnectRequest>
    requires k <= |written|
  {
    ReopenTarget(if k == 0 then initial else Journaled(written[k - 1]))
  }

  /** Up to the commit the target is the old connection; after it, and without a restore, the new one. */
  lemma TargetsInOrder(written: seq<DesiredState>, t: Transaction, k: nat)
    requires ConnectWrites(written, t) && k <= |written|
    requires t.wasConnected && t.live.Some? && ReopenTarget(t.before.journal) == t.live
    ensures |written| <= 2
    ensures TargetAfter(t.before.journal, written, k) ==
              if k == 2 && written[1] == Established(t.operationId, t.candidate) then Some(t.candidate) else t.live
  {}

  /** In every state a reconnect passes through there is a connection to come back to, and no third one. */
  lemma ReconnectIsAtomic(s: Snapshot, written: seq<DesiredState>, t: Transaction)
    requires ConnectWrites(written, t)
    requires s.journal == t.before.journal || (s.journal.Journaled? && s.journal.state in written)
    requires t.wasConnected && t.live.Some? && ReopenTarget(t.before.journal) == t.live
    ensures exists k | 0 <= k <= |written| :: ReopenTarget(s.journal) == TargetAfter(t.before.journal, written, k)
    ensures ReopenTarget(s.journal) in {t.live, Some(t.candidate)}
    ensures ReopenTarget(s.journal) != t.live ==>
              && |written| == 2 && written[1] == Established(t.operationId, t.candidate)
              && s.journal == Journaled(written[1])
  {
    if s.journal == t.before.journal {
      assert ReopenTarget(s.journal) == TargetAfter(t.before.journal, written, 0);
    } else {
      var j :| 0 <= j < |written| && written[j] == s.journal.state;
      assert ReopenTarget(s.journal) == TargetAfter(t.before.journal, written, j + 1);
      TargetsInOrder(written, t, j + 1);
    }
  }

  /**
   Wherever a kill switch is involved, in the candidate or in what was live: from the verified hold on, and
   in every state in which the old process is gone, every route of the hold is there until a connection that
   does without them is journaled or, when nothing was connected, the closing clear is.
   */
  method HoldCoversTheGap(controller: ConnectionController, operationId: nat, candidate: ConnectRequest)
    returns (r: Reply, ghost crossing: set<Snapshot>)
    requires controller.Valid()
    requires controller.machine.visited == {controller.machine.now} && controller.machine.written == []
    requires candidate.killswitch || Backend.WantsKillSwitch(controller.backend.activeRequest)
    modifies controller, controller.backend, controller.machine
    ensures controller.Valid()
    ensures forall s | s in crossing :: Bridged(s, old(controller.Begun(operationId, candidate)))
    ensures forall s | s in controller.machine.visited && s.process != old(controller.machine.now).process ::
              s in crossing && Bridged(s, old(controller.Begun(operationId, candidate)))
  {
    hide Backend.Effective, ProtocolLanguage.Run, ProtocolLanguage.Next, Passed, Bridged, ConnectWrites;
    ghost var ending;
    r, crossing, ending := controller.Connect(operationId, candidate);
  }

  /**
   A reconnect in which the old connection or the new one has its kill switch on: unless the old process still
   runs, every route is there, or the connection without the switch is the journaled one.
   */
  method GuardedReconnect(controller: ConnectionController, operationId: nat, candidate: ConnectRequest)
    returns (r: Reply)
    requires controller.Valid() && controller.state.phase == Connected
    requires controller.machine.visited == {controller.machine.now} && controller.machine.written == []
    requires candidate.killswitch || controller.backend.activeRequest.value.killswitch
    modifies controller, controller.backend, controller.machine
    ensures controller.Valid()
    ensures var live, before := old(controller.backend.activeRequest).value, old(controller.machine.now);
      forall s | s in controller.machine.visited ::
        || s.process == before.process
        || s.Held()
        || (s.journal == Journaled(Established(operationId, candidate)) && !candidate.killswitch)
        || (s.journal == Journaled(Established(operationId, live)) && !live.killswitch)
  {
    hide Backend.Effective, ProtocolLanguage.Run, ProtocolLanguage.Next, Passed, ConnectWrites;
    ghost var crossing;
    r, crossing := HoldCoversTheGap(controller, operationId, candidate);
  }

  /**
   The same as a statement about packets: while the old process is gone, what no physical route claims from the
   hold never leaves by one, until a connection that does without the hold is journaled or the closing clear is.
   */
  method GapNeverLeaks(controller: ConnectionController, operationId: nat, candidate: ConnectRequest,
                       ghost tunnel: set<Lookup.Route>, ghost physical: set<Lookup.Route>)
    returns (r: Reply, ghost crossing: set<Snapshot>)
    requires controller.Valid()
    requires controller.machine.visited == {controller.machine.now} && controller.machine.written == []
    requires candidate.killswitch || Backend.WantsKillSwitch(controller.backend.activeRequest)
    requires forall route | route in tunnel :: route.link.Tunnel?
    modifies controller, controller.backend, controller.machine
    ensures controller.Valid()
    ensures forall s | s in controller.machine.visited && s.process != old(controller.machine.now).process ::
              s in crossing
    ensures var t := old(controller.Begun(operationId, candidate));
      forall s | s in crossing ::
        || Lookup.NoLeak(s, tunnel, physical)
        || (t.IsCommitted(s.journal) && !candidate.killswitch)
        || (t.IsRestored(s.journal) && !t.live.value.killswitch)
        || t.IsClearing(s.journal)
  {
    hide Backend.Effective, ProtocolLanguage.Run, ProtocolLanguage.Next, Passed, ConnectWrites, Lookup.NoLeak;
    r, crossing := HoldCoversTheGap(controller, operationId, candidate);
    forall s | s in crossing && s.Held() {
      Lookup.HoldNeverLeaks(s, tunnel, physical);
    }
  }

  /** The service dies somewhere in a reconnect: what comes back is the old connection, the new one, or a block. */
  method InterruptedReconnect(controller: ConnectionController, operationId: nat, candidate: ConnectRequest)
    returns (reopened: ConnectionController)
    requires controller.Valid() && controller.state.phase == Connected
             && Service.Faithful(controller.machine.now.journal)
    requires controller.machine.visited == {controller.machine.now} && controller.machine.written == []
    modifies controller, controller.backend, controller.machine
    ensures reopened.Valid() && reopened.machine == controller.machine
    ensures var live := old(controller.backend.activeRequest).value;
      && (reopened.state.phase == Connected ==> reopened.backend.activeRequest in {Some(live), Some(candidate)})
      && (reopened.state.phase == Disconnected ==> !live.killswitch || !candidate.killswitch)
  {
    hide Backend.Effective, ProtocolLanguage.Run, ProtocolLanguage.Next, ConnectStep, ConnectWrites, Crossed;
    var machine := controller.machine;
    ghost var t, crossing := controller.Begun(operationId, candidate), {};
    var r;
    ghost var ending;
    r, crossing, ending := controller.Connect(operationId, candidate);
    forall s | s in machine.visited
      ensures s.journal.Journaled? && ReopenTarget(s.journal) in {t.live, Some(candidate)}
    {
      ReconnectIsAtomic(s, machine.written, t);
    }
    machine.Crash();
    ghost var forced, first;
    reopened, forced, first := Service.Open(machine, true);
  }

  /**
   The physical adapter is chosen once: along any chain of reconnects it stays the same as long as the connection
   does.
   */
  method ReconnectChain(controller: ConnectionController, wanted: seq<(nat, ConnectRequest)>) returns (stayed: bool)
    requires controller.Valid() && controller.state.phase == Connected
    modifies controller, controller.backend, controller.machine
    ensures controller.Valid()
    ensures stayed ==>
              controller.state.phase == Connected
                && controller.backend.activeInterface == old(controller.backend.activeInterface)
  {
    hide Backend.Effective, ProtocolLanguage.Run, ProtocolLanguage.Next, Passed, Crossed, ConnectWrites;
    stayed := true;
    ghost var interfaceName := controller.backend.activeInterface;
    for i := 0 to |wanted|
      invariant controller.Valid()
      invariant stayed ==> controller.state.phase == Connected && controller.backend.activeInterface == interfaceName
    {
      controller.machine.Begin();
      ghost var crossing, ending;
      var r;
      r, crossing, ending := controller.Connect(wanted[i].0, wanted[i].1);
      stayed := stayed && controller.state.phase == Connected;
    }
  }

  /**
   A disconnect that keeps a block installs the routes again over those that are there: at most one is missing at a
   time.
   */
  method BlockOverHold(controller: ConnectionController, operationId: nat) returns (r: Reply)
    requires controller.Valid() && controller.machine.visited == {controller.machine.now}
    modifies controller, controller.backend, controller.machine
    ensures controller.Valid()
    ensures forall s | s in controller.machine.visited :: Routes.AtMostOneMissing(s, old(controller.machine.now))
    ensures r.Done? ==> controller.machine.now.Held()
  {
    hide Backend.Effective, ProtocolLanguage.Run, ProtocolLanguage.Next, Routes.LackOne;
    Routes.NothingMissing(controller.machine.now, controller.machine.now);
    r := controller.Disconnect(operationId, true);
  }

  /**
   A block that is reported without its routes. The hold of a connect over a block could not be verified; with
   nothing else failing it is released, and the block is reported again.
   */
  method RefusedBlockIsOpen(controller: ConnectionController, operationId: nat, blocked: ServiceState)
    returns (r: Reply)
    requires controller.Linked() && controller.node == ProtocolLanguage.HoldRefused(Blocked)
    requires blocked.phase == Blocked && FlagsAgree(blocked)
    requires controller.machine.reliable && controller.machine.now.Held() && controller.backend.activeRequest.None?
    modifies controller, controller.machine
    ensures r.Done? && controller.Valid() && controller.state == blocked && controller.state.networkBlocked
    ensures old(controller.machine.now).Held() && !controller.machine.now.Held()
    ensures controller.machine.now.halves == {} && controller.machine.now.routeFile.NoRouteFile?
  {
    hide Backend.Effective, ProtocolLanguage.Run, ProtocolLanguage.Next;
    r := controller.RefuseHold(operationId, blocked);
  }

  /**
   Where no foreign call fails, one tick of the monitor decides: behind a process that exited on its own the routes
   are settled as the kill switch asks, unless there are too many names to guard; a healthy one is left alone.
   */
  method ExitIsNoticed(controller: ConnectionController, exits: bool) returns (r: Reply)
    requires controller.Valid() && controller.state.phase == Connected && controller.machine.reliable
    requires controller.machine.now.process.value.id !in controller.machine.exited
    modifies controller, controller.backend, controller.machine
    ensures controller.Valid()
    ensures !exits ==>
              controller.state == old(controller.state) && controller.machine.now == old(controller.machine.now)
    ensures exits ==>
      var keepBlocked := old(controller.backend.activeRequest).value.killswitch;
      if keepBlocked && !Backend.Guardable(controller.machine, old(controller.machine.now).routeFile) then
        controller.state == BlockedErrorState(old(controller.state).operationId)
      else
        && controller.state == ClearedState(old(controller.state).operationId, keepBlocked)
        && controller.machine.now.process.None?
        && (if keepBlocked then controller.machine.now.Held()
            else controller.machine.now.halves == {} && controller.machine.now.routeFile.NoRouteFile?)
  {
    hide Backend.Effective, Backend.Guardable, ProtocolLanguage.Run, ProtocolLanguage.Next, DisconnectStep;
    ghost var known, running;
    if exits {
      controller.machine.Exit();
    }
    r, known, running := controller.AuditRuntime();
  }

  /**
   What the monitor clears after a connect is journaled under the operation of that connect. The service reports
   another one exactly when the connect failed, went back to an older connection and had an operation of its own.
   Xray may exit on its own in between.
   */
  method AuditAfterConnect(controller: ConnectionController, operationId: nat, request: ConnectRequest, exits: bool)
    returns (r: Reply, cleared: bool)
    requires controller.Valid()
    requires controller.machine.visited == {controller.machine.now} && controller.machine.written == []
    modifies controller, controller.backend, controller.machine
    ensures controller.Valid()
    ensures cleared ==>
      && controller.machine.now.journal.Journaled?
      && controller.machine.now.journal.state.operationId == operationId
      && (controller.state.operationId != operationId <==>
          r.Failed? && old(controller.state).operationId != operationId)
  {
    hide Backend.Effective, ProtocolLanguage.Run, ProtocolLanguage.Next, Passed, Crossed, ConnectWrites, DisconnectStep;
    ghost var crossing, ending, known, running;
    r, crossing, ending := controller.Connect(operationId, request);
    if exits {
      controller.machine.Exit();
    }
    var settled := controller.state;
    var audit;
    audit, known, running := controller.AuditRuntime();
    cleared := controller.state != settled && controller.state.phase in {Blocked, Disconnected};
  }
}
