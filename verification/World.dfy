/**
 The part of the machine the service changes: its files, the kill-switch routes on the loopback
 interface, and the one Xray process it runs. Every change is one step, every step may fail, and
 every state passed through is kept in a ghost history, because a crash can happen in any of them.
 */
module World {
  import opened Wrappers
  import opened Json
  import opened Protocol
  import opened Address
  import Adapter

  /** The four halves of the default routes. */
  datatype Half = LowerIpv4 | UpperIpv4 | LowerIpv6 | UpperIpv6

  const HALVES: set<Half> := {LowerIpv4, UpperIpv4, LowerIpv6, UpperIpv6}

  /** killswitch-routes.json. */
  datatype RouteFile = NoRouteFile | Servers(servers: seq<Address>) | UnreadableRouteFile

  /** desired-state.bin. */
  datatype Journal = NoJournal | Journaled(state: DesiredState) | UnreadableJournal

  /** A process, with the configuration it loaded when it was spawned. */
  datatype Process = Process(id: nat, version: string, config: Option<Json>)

  datatype Snapshot = Snapshot(
    journal: Journal,
    routeFile: RouteFile,
    halves: set<Half>,
    hosts: set<Address>,
    candidateFile: Option<Json>,
    activeFile: Option<Json>,
    process: Option<Process>)
  {
    /** The host routes that the route file names. */
    function Named(): set<Address> {
      if routeFile.Servers? then set address | address in routeFile.servers else {}
    }

    /** Every kill-switch route that should exist does. */
    predicate Held() {
      halves == HALVES && Named() <= hosts
    }

    /** A later run can find every host route from the file alone. */
    predicate Recorded() {
      hosts <= Named()
    }

    /** The process runs this version. */
    predicate Runs(version: string) {
      process.Some? && process.value.version == version
    }

    predicate SameRoutes(other: Snapshot) {
      routeFile == other.routeFile && halves == other.halves && hosts == other.hosts
    }

    predicate SameButFiles(other: Snapshot) {
      this == other.(journal := journal, activeFile := activeFile, process := process)
    }

    predicate SameButRoutes(other: Snapshot) {
      this == other.(routeFile := routeFile, halves := halves, hosts := hosts)
    }
  }

  class Machine {
    /** No foreign call fails, and what is deleted is gone. What follows from it is what a run can really come to. */
    const reliable: bool
    /** No journal record can be written. */
    const unwritable: bool
    /** The adapters an enumeration finds. */
    const adapters: seq<Adapter.Adapter>
    /** The physical interface by which each list of endpoints is best reached, where there is one. */
    const routed: map<seq<Endpoint>, string>
    var now: Snapshot
    var spawned: nat
    /** The processes that exited on their own. */
    var exited: set<nat>
    /** Every state passed through since the current operation began. */
    var visited: set<Snapshot>
    /** The journal records written since then, in order. */
    ghost var written: seq<DesiredState>

    ghost predicate Valid()
      reads this
    {
      && now in visited
      && !(reliable && unwritable)
      && (now.process.Some? ==> now.process.value.id < spawned)
      && (forall id | id in exited :: id < spawned)
    }

    /** The outcome of a foreign call. */
    method Attempt() returns (ok: bool)
      ensures reliable ==> ok
    {
      ok := *;
      ok := ok || reliable;
    }

    /** `GetAdaptersAddresses`. */
    method EnumerateAdapters() returns (found: Option<seq<Adapter.Adapter>>)
      ensures reliable ==> found == Some(adapters)
    {
      var listed := Attempt();
      found := *;
      if listed {
        found := Some(adapters);
      }
    }

    /** `best_outbound_interface_name`. */
    method BestInterface(endpoints: seq<Endpoint>) returns (found: Option<string>)
      ensures reliable ==> found == if endpoints in routed then Some(routed[endpoints]) else None
    {
      var asked := Attempt();
      found := *;
      if asked {
        found := if endpoints in routed then Some(routed[endpoints]) else None;
      }
    }

    /** Xray exits on its own; nobody is told. */
    method Exit()
      requires Valid()
      modifies this`exited
      ensures Valid()
      ensures exited == if now.process.Some? then old(exited) + {now.process.value.id} else old(exited)
    {
      if now.process.Some? {
        exited := exited + {now.process.value.id};
      }
    }

    /** Ask the operating system about the process; it may not be able to tell, but it does not lie. */
    method IsRunning() returns (known: bool, running: bool)
      requires now.process.Some?
      ensures known ==> (running <==> now.process.value.id !in exited)
      ensures reliable ==> known
    {
      known := Attempt();
      running := now.process.value.id !in exited;
    }

    /** Start a new count of the states passed through. */
    method Mark()
      requires Valid()
      modifies this`visited
      ensures Valid() && visited == {now}
    {
      visited := {now};
    }

    /** Put the states passed through before a mark back. */
    method Recall(earlier: set<Snapshot>)
      requires Valid()
      modifies this`visited
      ensures Valid() && visited == old(visited) + earlier
    {
      visited := visited + earlier;
    }

    /** A new operation begins. */
    method Begin()
      requires Valid()
      modifies this`visited, this`written
      ensures Valid() && visited == {now} && written == []
    {
      visited := {now};
      written := [];
    }

    /** The service dies in any state the current operation passed through; Xray dies with it. */
    method Crash()
      requires Valid()
      modifies this`now, this`visited, this`written
      ensures Valid() && visited == {now} && written == []
      ensures exists s | s in old(visited) :: now == s.(process := None)
    {
      var s :| s in visited;
      now := s.(process := None);
      visited := {now};
      written := [];
    }

    /** One step of the machine. */
    method Step(next: Snapshot)
      requires Valid()
      requires next.process.Some? ==> next.process.value.id < spawned
      modifies this`now, this`visited
      ensures Valid() && now == next && visited == old(visited) + {next}
    {
      now := next;
      visited := visited + {next};
    }

    /** `atomic_write` of the journal: all or nothing. */
    method PersistDesiredState(state: DesiredState) returns (ok: bool)
      requires Valid()
      modifies this`now, this`visited, this`written
      ensures Valid()
      ensures now == if ok then old(now).(journal := Journaled(state)) else old(now)
      ensures visited == old(visited) + {now}
      ensures written == if ok then old(written) + [state] else old(written)
      ensures reliable ==> ok
      ensures unwritable ==> !ok
    {
      ok := Attempt();
      ok := ok && !unwritable;
      if ok {
        written := written + [state];
        Step(now.(journal := Journaled(state)));
      }
    }

    method WriteCandidateFile(config: Json) returns (ok: bool)
      requires Valid()
      modifies this`now, this`visited
      ensures Valid()
      ensures now == if ok then old(now).(candidateFile := Some(config)) else old(now)
      ensures visited == old(visited) + {now}
      ensures reliable ==> ok
    {
      ok := Attempt();
      if ok {
        Step(now.(candidateFile := Some(config)));
      }
    }

    method WriteActiveFile(config: Json) returns (ok: bool)
      requires Valid()
      modifies this`now, this`visited
      ensures Valid()
      ensures now == if ok then old(now).(activeFile := Some(config)) else old(now)
      ensures visited == old(visited) + {now}
      ensures reliable ==> ok
    {
      ok := Attempt();
      if ok {
        Step(now.(activeFile := Some(config)));
      }
    }

    /** Start Xray on a configuration file. The process it replaces, if any, is killed. */
    method Spawn(version: string, config: Option<Json>) returns (ok: bool)
      requires Valid()
      modifies this`now, this`visited, this`spawned
      ensures Valid() && spawned >= old(spawned)
      ensures now == if ok then old(now).(process := Some(Process(old(spawned), version, config))) else old(now)
      ensures visited == old(visited) + {now}
      ensures reliable ==> ok
    {
      ok := Attempt();
      if ok {
        spawned := spawned + 1;
        Step(now.(process := Some(Process(spawned - 1, version, config))));
      }
    }

    /** Kill the process. Whatever is reported, the handle is gone and with it the process. */
    method Kill() returns (ok: bool)
      requires Valid()
      modifies this`now, this`visited
      ensures Valid()
      ensures now == old(now).(process := None)
      ensures visited == old(visited) + {now}
      ensures old(now.process).None? || reliable ==> ok
    {
      ok := true;
      if now.process.Some? {
        Step(now.(process := None));
        ok := Attempt();
      }
    }
  }
}
