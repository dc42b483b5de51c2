/**
 Any number of clients and the monitor, interleaved at the two mutexes of the service, the one around the
 Xray versions and the one around the controller, with the service dying and starting again at any point
 (service/src/pipe.rs, service/src/core_manager.rs).
 */
module Coherence {
  import opened Wrappers
  import opened Protocol
  import opened Controller
  import World
  import Backend
  import Commands
  import ProtocolLanguage
  import Service

  const BUNDLED := "26.3.27"

  /** The tunnel as the controller reports it: up with a version of Xray, or down, whatever still runs. */
  datatype Tunnel = Down | Up(version: string)

  /** Where a task is. Tasks named `In...` hold a mutex; what they have read so far is theirs. */
  datatype Task =
    | Idle
    | ConnectWaits
    | ConnectReads
    | ConnectWaitsController(version: string)
    | ConnectInController(version: string)
    | ActivateWaits(tag: string)
    | ActivateReads(tag: string)
    | ActivateWrites(tag: string, previous: string)
    | ActivateCompares(previous: string)
    | ActivateWaitsController(previous: string, chosen: string)
    | ActivateInController(previous: string, chosen: string)
    | ActivateRollsBack(previous: string)
    | InstallWaits(tag: string)
    | InstallWrites(tag: string)
    | UninstallWaits(tag: string)
    | UninstallChecks(tag: string)
    | UninstallRemoves(tag: string)
    | StopWaits
    | StopInController
  {
    /** The task was asked for something and has not begun. */
    predicate Waiting() {
      ConnectWaits? || ActivateWaits? || InstallWaits? || UninstallWaits? || StopWaits?
    }

    predicate HoldsVersions() {
      !Idle? && !Waiting() && !StopInController?
    }

    predicate HoldsController() {
      ConnectInController? || ActivateInController? || ActivateRollsBack? || StopInController?
    }
  }

  /**
   The tasks and who holds which mutex; the tunnel; the version of the process that the service started and has
   not stopped; the version of the connection that the journal names to come back to and of the one the backend
   remembers as live; and the files of the version manager.
   */
  datatype State = State(
    tasks: map<nat, Task>,
    versions: Option<nat>,
    controller: Option<nat>,
    tunnel: Tunnel,
    running: Option<string>,
    journal: Option<string>,
    remembered: Option<string>,
    activeFile: Option<string>,
    installed: set<string>)
  {
    /** The version the active file names, if its binary is there; the bundled one otherwise. */
    function ActiveTag(): string {
      if activeFile.Some? && activeFile.value in installed then activeFile.value else BUNDLED
    }

    function At(task: nat): Task {
      if task in tasks then tasks[task] else Idle
    }

    function Move(task: nat, next: Task): State {
      this.(tasks := tasks[task := next])
    }
  }

  predicate Available(s: State, tag: string) {
    tag == BUNDLED || tag in s.installed
  }

  /** The task takes the versions mutex. */
  predicate TakesVersions(s: State, s': State, task: nat, next: Task) {
    s.versions.None? && s' == s.Move(task, next).(versions := Some(task))
  }

  predicate TakesController(s: State, s': State, task: nat, next: Task) {
    s.controller.None? && s' == s.Move(task, next).(controller := Some(task))
  }

  /** The task is done and drops whatever it holds. */
  function Done(s: State, task: nat): State {
    s.Move(task, Idle).(
      versions := if s.versions == Some(task) then None else s.versions,
      controller := if s.controller == Some(task) then None else s.controller)
  }

  /** The connections the journal may name while the controller is at work, on a connect of `version` or a clear. */
  function Journals(s: State, version: Option<string>): set<Option<string>> {
    if version.Some? then {s.journal, s.remembered, version, None} else {s.journal, None}
  }

  /**
   What the controller may leave behind: a tunnel that is up runs and is remembered and journaled; under one that
   is down nothing need run, but the old process or the new one may.
   */
  predicate Settles(s: State, s': State, version: Option<string>) {
    && s'.running in {s.running, version, None}
    && s'.journal in Journals(s, version)
    && s'.remembered in {s.remembered, version, None}
    && Runs(s')
  }

  /** A tunnel that is up is what runs, what is remembered and what is journaled. */
  predicate Runs(s: State) {
    s.tunnel.Up? ==> s.running == s.journal == s.remembered == Some(s.tunnel.version)
  }

  function Controlled(s: State, s': State): State {
    s.(tunnel := s'.tunnel, running := s'.running, journal := s'.journal, remembered := s'.remembered)
  }

  /** A request arrives, or the monitor ticks. */
  ghost predicate Arrives(s: State, s': State, task: nat) {
    exists next: Task :: s' == s.Move(task, next) && next.Waiting()
  }

  /** One step of one task. */
  ghost predicate Step(s: State, s': State, task: nat) {
    match s.At(task)
    case Idle => Arrives(s, s', task)
    case ConnectWaits => TakesVersions(s, s', task, ConnectReads)
    case ConnectReads => s' == s.Move(task, ConnectWaitsController(s.ActiveTag()))
    case ConnectWaitsController(version) => TakesController(s, s', task, ConnectInController(version))
    case ConnectInController(version) =>
      && s' == Controlled(Done(s, task), s') && Settles(s, s', Some(version))
      && s'.tunnel in {Up(version), s.tunnel, Down}
    case ActivateWaits(tag) => TakesVersions(s, s', task, ActivateReads(tag))
    case ActivateReads(tag) => s' == s.Move(task, ActivateWrites(tag, s.ActiveTag()))
    case ActivateWrites(tag, previous) =>
      || s' == Done(s, task)
      || (Available(s, tag) && s' == s.Move(task, ActivateCompares(previous)).(activeFile := Some(tag)))
    case ActivateCompares(previous) =>
      s' == if s.ActiveTag() == previous then Done(s, task)
            else s.Move(task, ActivateWaitsController(previous, s.ActiveTag()))
    case ActivateWaitsController(previous, chosen) =>
      TakesController(s, s', task, ActivateInController(previous, chosen))
    case ActivateInController(previous, chosen) =>
      || (s.tunnel.Down? && s' == Done(s, task))
      || (&& s.tunnel.Up? && s'.tunnel == Up(chosen)
          && s' == Controlled(Done(s, task), s') && Settles(s, s', Some(chosen)))
      || (&& s.tunnel.Up? && s'.tunnel in {s.tunnel, Down}
          && s' == Controlled(s.Move(task, ActivateRollsBack(previous)), s') && Settles(s, s', Some(chosen)))
    case ActivateRollsBack(previous) =>
      || (Available(s, previous) && s' == Done(s, task).(activeFile := Some(previous)))
      || s' == Done(s, task)
    case InstallWaits(tag) => TakesVersions(s, s', task, InstallWrites(tag))
    case InstallWrites(tag) =>
      s' == Done(s, task) || (!Available(s, tag) && s' == Done(s, task).(installed := s.installed + {tag}))
    case UninstallWaits(tag) => TakesVersions(s, s', task, UninstallChecks(tag))
    case UninstallChecks(tag) =>
      s' == if tag == BUNDLED || tag == s.ActiveTag() then Done(s, task) else s.Move(task, UninstallRemoves(tag))
    case UninstallRemoves(tag) => s' == Done(s, task) || s' == Done(s, task).(installed := s.installed - {tag})
    case StopWaits => TakesController(s, s', task, StopInController)
    case StopInController =>
      && s' == Controlled(Done(s, task), s') && Settles(s, s', None)
      && s'.tunnel in {s.tunnel, Down}
  }

  /** The connections the journal may name if the service dies now. */
  function Survivors(s: State): set<Option<string>> {
    match if s.controller.Some? then s.At(s.controller.value) else Idle
    case ConnectInController(version) => Journals(s, Some(version))
    case ActivateInController(_, chosen) => if s.tunnel.Up? then Journals(s, Some(chosen)) else {s.journal}
    case StopInController => Journals(s, None)
    case _ => {s.journal}
  }

  /**
   The service dies, wherever its tasks are, and starts again: only the files are left, and the start comes back
   to the connection `target` that the journal names by then, or to none.
   */
  predicate Restarts(s: State, s': State, target: Option<string>) {
    && target in Survivors(s)
    && s' == State(map[], None, None, s'.tunnel, s'.running, s'.journal, s'.remembered, s.activeFile, s.installed)
    && s'.running in {target, None} && s'.journal in {target, None} && s'.remembered in {target, None}
    && Runs(s')
  }

  datatype Move = Acts(task: nat) | Restart(target: Option<string>)

  ghost predicate Moves(s: State, s': State, move: Move) {
    match move
    case Acts(task) => Step(s, s', task)
    case Restart(target) => Restarts(s, s', target)
  }

  /** The active file names nothing that is missing. */
  predicate Backed(s: State) {
    s.activeFile.Some? ==> Available(s, s.activeFile.value)
  }

  predicate Coherent(s: State) {
    s.tunnel.Up? ==> s.tunnel.version == s.ActiveTag()
  }

  /** What the task that holds the versions mutex knows of the files: only it changes them. */
  predicate Knows(s: State, task: Task) {
    match task
    case ConnectWaitsController(version) => version == s.ActiveTag()
    case ConnectInController(version) => version == s.ActiveTag()
    case ActivateWrites(_, previous) => previous == s.ActiveTag()
    case ActivateCompares(previous) => Available(s, previous)
    case ActivateWaitsController(previous, chosen) => chosen == s.ActiveTag() != previous && Available(s, previous)
    case ActivateInController(previous, chosen) => chosen == s.ActiveTag() != previous && Available(s, previous)
    case ActivateRollsBack(previous) => Available(s, previous) && previous != s.ActiveTag()
    case UninstallRemoves(tag) => tag != BUNDLED && tag != s.ActiveTag()
    case _ => true
  }

  /** The version the tunnel has while `task` holds the versions mutex: the old one until it is switched over. */
  function Expected(s: State, task: Task): string {
    match task
    case ActivateCompares(previous) => previous
    case ActivateWaitsController(previous, _) => previous
    case ActivateInController(previous, _) => previous
    case ActivateRollsBack(previous) => previous
    case _ => s.ActiveTag()
  }

  function Holder(s: State): Task {
    if s.versions.Some? then s.At(s.versions.value) else Idle
  }

  /** Each mutex is held by the one task that says so. */
  ghost predicate Exclusive(s: State) {
    && (forall task: nat :: s.At(task).HoldsVersions() <==> s.versions == Some(task))
    && (forall task: nat :: s.At(task).HoldsController() <==> s.controller == Some(task))
  }

  /** What holds whoever holds what. */
  ghost predicate Kept(s: State) {
    && BUNDLED !in s.installed
    && Backed(s)
    && Knows(s, Holder(s))
    && Runs(s)
  }

  ghost predicate Inv(s: State) {
    Exclusive(s) && Kept(s)
  }

  /** The tunnel has the version it should have while the versions mutex is held by whoever holds it. */
  predicate InStep(s: State) {
    s.tunnel.Up? ==> s.tunnel.version == Expected(s, Holder(s))
  }

  /** The task could not roll the active file back, with the tunnel still on another version. */
  predicate FailsRollback(s: State, s': State, task: nat) {
    s.At(task).ActivateRollsBack? && s' == Done(s, task) && !Coherent(s')
  }

  /** The two ways to a tunnel off the active version: a failed rollback, and a start that comes back to another one. */
  predicate Strays(s: State, s': State, move: Move) {
    match move
    case Acts(task) => FailsRollback(s, s', task)
    case Restart(target) => s'.tunnel.Up? && target != Some(s'.ActiveTag())
  }

  /** In step afterwards if it was before, and whenever the tunnel changed; except by a failed rollback. */
  predicate StaysInStep(s: State, s': State, task: nat) {
    InStep(s) || s'.tunnel != s.tunnel ==> InStep(s') || FailsRollback(s, s', task)
  }

  /** The task takes a mutex that is free, drops the one it holds, or leaves it alone. */
  predicate Passes(before: Option<nat>, after: Option<nat>, task: nat, holds: bool) {
    && (holds <==> after == Some(task))
    && (after == before || (before in {None, Some(task)} && after in {None, Some(task)}))
  }

  /** A task that holds no mutex yet, or the controller alone. */
  lemma OutsiderPasses(s: State, s': State, task: nat)
    requires Step(s, s', task) && !s.At(task).HoldsVersions()
    requires s.versions != Some(task) && (s.At(task).HoldsController() <==> s.controller == Some(task))
    ensures s'.tasks == s.tasks[task := s'.At(task)]
    ensures Passes(s.versions, s'.versions, task, s'.At(task).HoldsVersions())
    ensures Passes(s.controller, s'.controller, task, s'.At(task).HoldsController())
  {}

  lemma HolderPasses(s: State, s': State, task: nat)
    requires Step(s, s', task) && s.At(task).HoldsVersions()
    requires s.versions == Some(task) && (s.At(task).HoldsController() <==> s.controller == Some(task))
    ensures s'.tasks == s.tasks[task := s'.At(task)]
    ensures Passes(s.versions, s'.versions, task, s'.At(task).HoldsVersions())
    ensures Passes(s.controller, s'.controller, task, s'.At(task).HoldsController())
  {}

  lemma StepPasses(s: State, s': State, task: nat)
    requires Exclusive(s) && Step(s, s', task)
    ensures s'.tasks == s.tasks[task := s'.At(task)]
    ensures Passes(s.versions, s'.versions, task, s'.At(task).HoldsVersions())
    ensures Passes(s.controller, s'.controller, task, s'.At(task).HoldsController())
  {
    hide Step, Passes;
    assert s.At(task).HoldsVersions() <==> s.versions == Some(task);
    assert s.At(task).HoldsController() <==> s.controller == Some(task);
    if s.At(task).HoldsVersions() {
      HolderPasses(s, s', task);
    } else {
      OutsiderPasses(s, s', task);
    }
  }

  lemma ExclusiveStep(s: State, s': State, task: nat)
    requires Exclusive(s) && Step(s, s', task)
    ensures Exclusive(s')
  {
    hide Step;
    StepPasses(s, s', task);
    forall other: nat
      ensures s'.At(other).HoldsVersions() <==> s'.versions == Some(other)
      ensures s'.At(other).HoldsController() <==> s'.controller == Some(other)
    {
      assert other != task ==> s'.At(other) == s.At(other);
    }
  }

  lemma ConnectKeeps(s: State, s': State, task: nat)
    requires Inv(s) && Step(s, s', task) && s.versions == Some(task)
    requires s.At(task).ConnectReads? || s.At(task).ConnectWaitsController? || s.At(task).ConnectInController?
    ensures Kept(s') && StaysInStep(s, s', task)
  {}

  lemma ActivateKeeps(s: State, s': State, task: nat)
    requires Inv(s) && Step(s, s', task) && s.versions == Some(task)
    requires s.At(task).ActivateReads? || s.At(task).ActivateWrites? || s.At(task).ActivateCompares?
    ensures Kept(s') && StaysInStep(s, s', task)
  {}

  lemma SwitchKeeps(s: State, s': State, task: nat)
    requires Inv(s) && Step(s, s', task) && s.versions == Some(task)
    requires s.At(task).ActivateWaitsController? || s.At(task).ActivateInController? || s.At(task).ActivateRollsBack?
    ensures Kept(s') && StaysInStep(s, s', task)
  {}

  lemma FilesKeep(s: State, s': State, task: nat)
    requires Inv(s) && Step(s, s', task) && s.versions == Some(task)
    requires s.At(task).InstallWrites? || s.At(task).UninstallChecks? || s.At(task).UninstallRemoves?
    ensures Kept(s') && StaysInStep(s, s', task)
  {
    assert s'.ActiveTag() == s.ActiveTag();
  }

  lemma KeptStep(s: State, s': State, task: nat)
    requires Inv(s) && Step(s, s', task)
    ensures Kept(s') && StaysInStep(s, s', task)
  {
    hide Step, Kept, StaysInStep;
    if s.versions == Some(task) {
      match s.At(task) {
        case ConnectReads | ConnectWaitsController(_) | ConnectInController(_) => ConnectKeeps(s, s', task);
        case ActivateReads(_) | ActivateWrites(_, _) | ActivateCompares(_) => ActivateKeeps(s, s', task);
        case ActivateWaitsController(_, _) => SwitchKeeps(s, s', task);
        case ActivateInController(_, _) => SwitchKeeps(s, s', task);
        case ActivateRollsBack(_) => SwitchKeeps(s, s', task);
        case _ => FilesKeep(s, s', task);
      }
    } else {
      OutsiderKeeps(s, s', task);
    }
  }

  lemma OutsiderKeeps(s: State, s': State, task: nat)
    requires Inv(s) && Step(s, s', task) && s.versions != Some(task)
    ensures Kept(s') && StaysInStep(s, s', task)
  {
    hide Step, Exclusive;
    OutsiderStep(s, s', task);
  }

  /** A task without the versions mutex can take it, or bring the tunnel down; the files are not its to change. */
  lemma OutsiderStep(s: State, s': State, task: nat)
    requires Exclusive(s) && Step(s, s', task) && s.versions != Some(task)
    ensures s' == Controlled(s, s').(tasks := s'.tasks, versions := s'.versions, controller := s'.controller)
    ensures s'.tunnel in {s.tunnel, Down}
    ensures (s'.running == s.running && s'.journal == s.journal && s'.remembered == s.remembered)
            || Settles(s, s', None)
    ensures if s'.versions == s.versions then Holder(s') == Holder(s)
            else && s.versions.None?
                 && (|| Holder(s').ConnectReads? || Holder(s').ActivateReads?
                     || Holder(s').InstallWrites? || Holder(s').UninstallChecks?)
  {
    assert !s.At(task).HoldsVersions();
    match s.At(task)
    case Idle =>
      var next: Task :| s' == s.Move(task, next) && next.Waiting();
    case _ =>
  }

  lemma RestartKeeps(s: State, s': State, target: Option<string>)
    requires Inv(s) && Restarts(s, s', target)
    ensures Inv(s') && (InStep(s') <==> !Strays(s, s', Restart(target)))
  {}

  /** A service that was never started: nothing runs, and the active file names nothing that is missing. */
  ghost predicate Initial(s: State) {
    && s.tasks == map[] && s.versions.None? && s.controller.None? && s.tunnel.Down?
    && s.running.None? && s.remembered.None?
    && BUNDLED !in s.installed && Backed(s)
  }

  /** Any number of lifetimes of the service: `moves[i]` leads from `states[i]` to the next. */
  ghost predicate Run(states: seq<State>, moves: seq<Move>) {
    && |states| == |moves| + 1
    && Initial(states[0])
    && forall i | 0 <= i < |moves| :: Moves(states[i], states[i + 1], moves[i])
  }

  lemma {:induction false} InvThroughout(states: seq<State>, moves: seq<Move>, i: nat)
    requires Run(states, moves) && i < |states|
    ensures Inv(states[i])
  {
    hide Step, Kept, Exclusive, Restarts;
    if i == 0 {
      StartsWell(states[0]);
    } else {
      InvThroughout(states, moves, i - 1);
      MoveKeeps(states[i - 1], states[i], moves[i - 1]);
    }
  }

  lemma StartsWell(s: State)
    requires Initial(s)
    ensures Inv(s)
  {}

  lemma MoveKeeps(s: State, s': State, move: Move)
    requires Inv(s) && Moves(s, s', move)
    ensures Inv(s')
    ensures InStep(s) || s'.tunnel != s.tunnel || move.Restart? ==> InStep(s') || Strays(s, s', move)
  {
    hide Step, Kept, Exclusive, Restarts, InStep, Coherent;
    match move
    case Acts(task) =>
      ExclusiveStep(s, s', task);
      KeptStep(s, s', task);
    case Restart(target) =>
      RestartKeeps(s, s', target);
  }

  /**
   The controller, or a start, has ended without a tunnel and left a process running: the old one or the one it
   had started.
   */
  predicate LeavesBehind(s: State, s': State, move: Move) {
    && s'.tunnel.Down? && s'.running.Some?
    && match move
       case Restart(target) => s'.running == target
       case Acts(task) =>
         match s.At(task)
         case ConnectInController(version) => s'.running in {s.running, Some(version)}
         case ActivateInController(_, chosen) => s'.running in {s.running, Some(chosen)}
         case StopInController => s'.running == s.running
         case _ => false
  }

  /** Only the controller and starts change what runs; no other step leaves anything behind. */
  lemma RunningChanges(s: State, s': State, move: Move)
    requires Moves(s, s', move) && s'.tunnel.Down? && s'.running.Some?
    ensures (s.tunnel.Down? && s'.running == s.running) || LeavesBehind(s, s', move)
  {
    match move
    case Restart(_) =>
    case Acts(task) =>
      match s.At(task)
      case Idle =>
        var next: Task :| s' == s.Move(task, next) && next.Waiting();
      case _ =>
  }

  /** The process of `states[i]` was left behind at move `j`, and has been there without a tunnel since. */
  predicate LeftAt(states: seq<State>, moves: seq<Move>, i: nat, j: nat)
    requires |states| == |moves| + 1 && i < |states|
  {
    && j < i && LeavesBehind(states[j], states[j + 1], moves[j])
    && states[i].running.Some?
    && forall k | j < k <= i :: states[k].tunnel.Down? && states[k].running == states[i].running
  }

  /** What runs is the tunnel, or was left behind. */
  lemma {:induction false} TunnelOrLeft(states: seq<State>, moves: seq<Move>, i: nat)
    requires Run(states, moves) && i < |states| && states[i].running.Some?
    ensures (states[i].tunnel.Up? && states[i].running == Some(states[i].tunnel.version))
            || exists j: nat :: LeftAt(states, moves, i, j)
  {
    hide Step, Exclusive, Restarts, LeavesBehind;
    InvThroughout(states, moves, i);
    if states[i].tunnel.Down? {
      assert i > 0;
      var s, s', move := states[i - 1], states[i], moves[i - 1];
      assert Moves(s, states[i - 1 + 1], move);
      RunningChanges(s, s', move);
      if LeavesBehind(s, s', move) {
        assert LeftAt(states, moves, i, i - 1);
      } else {
        TunnelOrLeft(states, moves, i - 1);
        var j: nat :| LeftAt(states, moves, i - 1, j);
        assert LeftAt(states, moves, i, j);
      }
    }
  }

  /** The tunnel of `states[i]` went astray at move `j`, and has not been touched since. */
  predicate StrayedAt(states: seq<State>, moves: seq<Move>, i: nat, j: nat)
    requires |states| == |moves| + 1 && i < |states|
  {
    && j < i && Strays(states[j], states[j + 1], moves[j])
    && states[i].tunnel.Up?
    && forall k | j < k <= i :: states[k].tunnel == states[i].tunnel
  }

  lemma {:induction false} InStepOrStrayed(states: seq<State>, moves: seq<Move>, i: nat)
    requires Run(states, moves) && i < |states|
    ensures InStep(states[i]) || exists j: nat :: StrayedAt(states, moves, i, j)
  {
    hide Step, Kept, Exclusive, Restarts, Strays;
    if i == 0 {
      assert states[0].tunnel.Down?;
    } else {
      var s, s', move := states[i - 1], states[i], moves[i - 1];
      assert Moves(s, states[i - 1 + 1], move);
      InStepOrStrayed(states, moves, i - 1);
      InvThroughout(states, moves, i - 1);
      MoveKeeps(s, s', move);
      if InStep(s') {
      } else if Strays(s, s', move) {
        assert StrayedAt(states, moves, i, i - 1);
      } else {
        var j: nat :| StrayedAt(states, moves, i - 1, j);
        assert StrayedAt(states, moves, i, j);
      }
    }
  }

  /**
   However the tasks interleave and wherever the service dies: whenever nobody holds the versions mutex, what runs
   is the version the active file names, unless it is a tunnel that was left by a failed rollback or brought up by
   a start from a journal that named another version, or a process left behind where no tunnel is reported.
   */
  lemma CoherentThroughout(states: seq<State>, moves: seq<Move>, i: nat)
    requires Run(states, moves) && i < |states| && states[i].versions.None?
    ensures states[i].running.Some? ==>
      || states[i].running.value == states[i].ActiveTag()
      || (states[i].tunnel.Up? && exists j: nat :: StrayedAt(states, moves, i, j))
      || (states[i].tunnel.Down? && exists j: nat :: LeftAt(states, moves, i, j))
  {
    InvThroughout(states, moves, i);
    InStepOrStrayed(states, moves, i);
    if states[i].running.Some? {
      TunnelOrLeft(states, moves, i);
    }
  }

  /**
   The active version is never uninstalled; and one that runs is, exactly when its tunnel went astray or its
   process was left behind.
   */
  lemma UninstallSparesTheRunning(states: seq<State>, moves: seq<Move>, i: nat, task: nat, tag: string)
    requires Run(states, moves) && i < |moves|
    requires moves[i] == Acts(task) && states[i].At(task) == UninstallRemoves(tag)
    ensures tag != BUNDLED && tag != states[i].ActiveTag() && states[i + 1].ActiveTag() == states[i].ActiveTag()
    ensures states[i].running == Some(tag) == states[i + 1].running <==>
      || (states[i].tunnel == Up(tag) && exists j: nat :: StrayedAt(states, moves, i, j))
      || (exists j: nat :: LeftAt(states, moves, i, j) && states[j + 1].running == Some(tag))
  {
    InvThroughout(states, moves, i);
    InStepOrStrayed(states, moves, i);
    assert Moves(states[i], states[i + 1], moves[i]);
    assert states[i].At(task).HoldsVersions();
    if states[i].running.Some? {
      TunnelOrLeft(states, moves, i);
    }
  }

  /** A failed rollback leaves a mismatch exactly when the old tunnel survived the failed switch. */
  lemma FailedRollbackStraysExactlyWhen(states: seq<State>, moves: seq<Move>, i: nat, task: nat)
    requires Run(states, moves) && i < |moves| && InStep(states[i])
    requires moves[i] == Acts(task) && states[i].At(task).ActivateRollsBack? && states[i + 1] == Done(states[i], task)
    ensures Coherent(states[i + 1]) <==> states[i].tunnel.Down?
  {
    InvThroughout(states, moves, i);
    assert states[i].At(task).HoldsVersions();
  }

  /** A start is coherent exactly when it ends unconnected or the journal named the active version. */
  lemma StartCoherentExactlyWhen(s: State, s': State, target: Option<string>)
    requires Restarts(s, s', target)
    ensures Coherent(s') <==> s'.tunnel.Down? || target == Some(s.ActiveTag())
  {}

  /** Between the write of the active file and the end of the switch, or of its rollback. */
  predicate Switching(s: State) {
    match Holder(s)
    case ActivateCompares(previous) => previous != s.ActiveTag()
    case ActivateWaitsController(_, _) | ActivateInController(_, _) | ActivateRollsBack(_) => true
    case _ => false
  }

  /** Dying with the tunnel up can end in a mismatch exactly in the middle of a switch. */
  lemma CrashStraysExactlyWhen(states: seq<State>, moves: seq<Move>, i: nat)
    requires Run(states, moves) && i < |states| && InStep(states[i]) && states[i].tunnel.Up?
    ensures Switching(states[i]) <==>
              exists s': State, target :: Restarts(states[i], s', target) && !Coherent(s')
  {
    var s := states[i];
    InvThroughout(states, moves, i);
    if Switching(s) {
      var s' := State(map[], None, None, s.tunnel, s.journal, s.journal, s.journal, s.activeFile, s.installed);
      assert Restarts(s, s', s.journal) && !Coherent(s');
    }
  }

  lemma RunExtended(states: seq<State>, moves: seq<Move>, s': State, move: Move)
    requires Run(states, moves) && Moves(states[|moves|], s', move)
    ensures Run(states + [s'], moves + [move])
  {
    hide Step, Restarts;
    var more, path := states + [s'], moves + [move];
    forall i | 0 <= i < |path|
      ensures Moves(more[i], more[i + 1], path[i])
    {
      assert i < |moves| ==> Moves(states[i], states[i + 1], moves[i]);
    }
  }

  /** A task goes from idle over the given stages. */
  lemma Staged(states: seq<State>, moves: seq<Move>, task: nat, stages: seq<State>)
    returns (more: seq<State>, path: seq<Move>)
    requires Run(states, moves) && stages != []
    requires Step(states[|moves|], stages[0], task)
    requires forall k | 0 < k < |stages| :: Step(stages[k - 1], stages[k], task)
    ensures Run(more, path) && more == states + stages && |path| == |moves| + |stages|
    ensures path[|moves|..] == seq(|stages|, k => Acts(task))
  {
    hide Step, Restarts, Initial;
    more, path := states, moves;
    for n := 0 to |stages|
      invariant Run(more, path) && more == states + stages[..n] && |path| == |moves| + n
      invariant path == moves + seq(n, k => Acts(task))
    {
      assert more[|path|] == if n == 0 then states[|moves|] else stages[n - 1];
      RunExtended(more, path, stages[n], Acts(task));
      more, path := more + [stages[n]], path + [Acts(task)];
      assert stages[..n + 1] == stages[..n] + [stages[n]];
    }
    assert stages[..|stages|] == stages;
  }

  /** A service that is connected on the given version, with two installed and the first of them active. */
  function OnVersion(version: string, activeFile: string): State {
    State(map[], None, None, Up(version), Some(version), Some(version), Some(version), Some(activeFile),
          {"1.0.0", "2.0.0"})
  }

  /** The stages of activating the second version, up to the switch. */
  function Activating(s: State): seq<State> {
    var written := s.(versions := Some(0), activeFile := Some("2.0.0"));
    [ s.Move(0, ActivateWaits("2.0.0")),
      s.Move(0, ActivateReads("2.0.0")).(versions := Some(0)),
      s.Move(0, ActivateWrites("2.0.0", "1.0.0")).(versions := Some(0)),
      written.Move(0, ActivateCompares("1.0.0")),
      written.Move(0, ActivateWaitsController("1.0.0", "2.0.0")) ]
  }

  /** The service comes up on the first version, and is asked to activate the second. */
  lemma ActivationBegins() returns (states: seq<State>, moves: seq<Move>)
    ensures Run(states, moves)
    ensures states[|moves|] == Activating(OnVersion("1.0.0", "1.0.0"))[4]
  {
    var s := OnVersion("1.0.0", "1.0.0");
    states, moves := [s.(tunnel := Down, running := None, remembered := None)], [];
    RunExtended(states, moves, s, Restart(Some("1.0.0")));
    states, moves := states + [s], moves + [Restart(Some("1.0.0"))];
    var stages := Activating(s);
    assert s.At(0) == Idle && Arrives(s, stages[0], 0);
    forall k | 0 < k < |stages|
      ensures Step(stages[k - 1], stages[k], 0)
    {
      assert k in {1, 2, 3, 4};
    }
    states, moves := Staged(states, moves, 0, stages);
  }

  /** A version that is neither bundled nor active is uninstalled. */
  lemma Uninstalled(states: seq<State>, moves: seq<Move>, tag: string) returns (more: seq<State>, path: seq<Move>)
    requires Run(states, moves)
    requires var s := states[|moves|]; s.At(0) == Idle && s.versions.None? && s.controller.None?
    requires tag != BUNDLED && tag != states[|moves|].ActiveTag()
    ensures Run(more, path)
    ensures var s := states[|moves|]; more[|path|] == s.Move(0, Idle).(installed := s.installed - {tag})
  {
    var s := states[|moves|];
    var stages := [
      s.Move(0, UninstallWaits(tag)),
      s.Move(0, UninstallChecks(tag)).(versions := Some(0)),
      s.Move(0, UninstallRemoves(tag)).(versions := Some(0)),
      s.Move(0, Idle).(installed := s.installed - {tag}) ];
    assert Arrives(s, stages[0], 0);
    forall k | 0 < k < |stages|
      ensures Step(stages[k - 1], stages[k], 0)
    {
      assert k in {1, 2, 3};
    }
    more, path := Staged(states, moves, 0, stages);
  }

  /**
   Dying in that wait, the service comes back on the first version with the second one active; uninstalling the
   first then removes the core that is running.
   */
  lemma CrashStrandsTheRunning() returns (states: seq<State>, moves: seq<Move>)
    ensures Run(states, moves)
    ensures var s := states[|moves|];
      && s.versions.None? && s.ActiveTag() == "2.0.0" && s.tunnel == Up("1.0.0") && s.running == Some("1.0.0")
      && !Available(s, "1.0.0")
  {
    states, moves := ActivationBegins();
    var s := OnVersion("1.0.0", "2.0.0");
    RunExtended(states, moves, s, Restart(Some("1.0.0")));
    states, moves := states + [s], moves + [Restart(Some("1.0.0"))];
    states, moves := Uninstalled(states, moves, "1.0.0");
  }

  /** The switch fails, the tunnel comes back on the first version, and the file cannot be rolled back to it. */
  lemma FailedRollbackStrands() returns (states: seq<State>, moves: seq<Move>)
    ensures Run(states, moves) && |moves| > 0
    ensures FailsRollback(states[|moves| - 1], states[|moves|], 0) && moves[|moves| - 1] == Acts(0)
    ensures states[|moves|].versions.None? && states[|moves|].tunnel == Up("1.0.0") && !Coherent(states[|moves|])
  {
    states, moves := ActivationBegins();
    var s := states[|moves|].(controller := Some(0));
    var stages := [
      s.Move(0, ActivateInController("1.0.0", "2.0.0")),
      s.Move(0, ActivateRollsBack("1.0.0")),
      s.Move(0, Idle).(versions := None, controller := None) ];
    assert states[|moves|].At(0) == ActivateWaitsController("1.0.0", "2.0.0");
    forall k | 0 < k < |stages|
      ensures Step(stages[k - 1], stages[k], 0)
    {
      assert k in {1, 2};
    }
    states, moves := Staged(states, moves, 0, stages);
  }

  /** A connected service is told to disconnect and cannot journal anything: it only reports a block. */
  lemma DisconnectFails() returns (states: seq<State>, moves: seq<Move>)
    ensures Run(states, moves)
    ensures states[|moves|] == OnVersion("1.0.0", "1.0.0").(tunnel := Down).Move(0, Idle)
  {
    var s := OnVersion("1.0.0", "1.0.0");
    states, moves := [s.(tunnel := Down, running := None, remembered := None)], [];
    RunExtended(states, moves, s, Restart(Some("1.0.0")));
    states, moves := states + [s], moves + [Restart(Some("1.0.0"))];
    var stages := [
      s.Move(0, StopWaits),
      s.Move(0, StopInController).(controller := Some(0)),
      s.(tunnel := Down).Move(0, Idle) ];
    assert s.At(0) == Idle && Arrives(s, stages[0], 0);
    forall k | 0 < k < |stages|
      ensures Step(stages[k - 1], stages[k], 0)
    {
      assert k in {1, 2};
    }
    states, moves := Staged(states, moves, 0, stages);
  }

  /** After that, the second version is activated without a switch. */
  lemma ActivatedWithoutSwitch() returns (states: seq<State>, moves: seq<Move>)
    ensures Run(states, moves) && |moves| > 0
    ensures states[|moves|] == OnVersion("1.0.0", "2.0.0").(tunnel := Down).Move(0, Idle)
  {
    states, moves := DisconnectFails();
    var down := states[|moves|];
    var begun := Activating(down);
    var stages := begun + [
      begun[4].Move(0, ActivateInController("1.0.0", "2.0.0")).(controller := Some(0)),
      begun[4].Move(0, Idle).(versions := None) ];
    assert down.At(0) == Idle && Arrives(down, stages[0], 0);
    forall k | 0 < k < |stages|
      ensures Step(stages[k - 1], stages[k], 0)
    {
      assert k in {1, 2, 3, 4, 5, 6};
    }
    states, moves := Staged(states, moves, 0, stages);
    assert states[|moves|] == stages[6];
  }

  /** No tunnel needs to be reported when the service dies: the next start then comes back on the first version. */
  lemma StaleJournalStrands() returns (states: seq<State>, moves: seq<Move>)
    ensures Run(states, moves) && |moves| > 0
    ensures states[|moves| - 1].tunnel.Down? && states[|moves| - 1].versions.None?
    ensures states[|moves|].tunnel == Up("1.0.0") && !Coherent(states[|moves|])
  {
    states, moves := ActivatedWithoutSwitch();
    RunExtended(states, moves, OnVersion("1.0.0", "2.0.0"), Restart(Some("1.0.0")));
    states, moves := states + [OnVersion("1.0.0", "2.0.0")], moves + [Restart(Some("1.0.0"))];
  }

  /** Nor does it need to die: the process of the failed disconnect still runs, and its core is uninstalled. */
  lemma LeftProcessLosesItsCore() returns (states: seq<State>, moves: seq<Move>)
    ensures Run(states, moves)
    ensures var s := states[|moves|];
      && s.versions.None? && s.controller.None? && s.tunnel.Down? && s.running == Some("1.0.0")
      && s.ActiveTag() == "2.0.0" && !Available(s, "1.0.0")
  {
    states, moves := ActivatedWithoutSwitch();
    states, moves := Uninstalled(states, moves, "1.0.0");
  }

  /**
   The same after a switch: the new version runs and is journaled, the hold cannot be released, and the active
   file is rolled back; the core of the new version is then uninstalled under its process.
   */
  lemma LostSwitchLosesItsCore() returns (states: seq<State>, moves: seq<Move>)
    ensures Run(states, moves)
    ensures var s := states[|moves|];
      && s.versions.None? && s.controller.None? && s.tunnel.Down? && s.running == Some("2.0.0")
      && s.ActiveTag() == "1.0.0" && !Available(s, "2.0.0")
  {
    states, moves := ActivationBegins();
    var s := states[|moves|].(controller := Some(0));
    var lost := s.(tunnel := Down, running := Some("2.0.0"), journal := Some("2.0.0"), remembered := Some("2.0.0"));
    var stages := [
      s.Move(0, ActivateInController("1.0.0", "2.0.0")),
      lost.Move(0, ActivateRollsBack("1.0.0")),
      lost.Move(0, Idle).(versions := None, controller := None, activeFile := Some("1.0.0")) ];
    assert states[|moves|].At(0) == ActivateWaitsController("1.0.0", "2.0.0");
    forall k | 0 < k < |stages|
      ensures Step(stages[k - 1], stages[k], 0)
    {
      assert k in {1, 2};
    }
    states, moves := Staged(states, moves, 0, stages);
    states, moves := Uninstalled(states, moves, "2.0.0");
  }

  /** Why a start must not name a missing version: installing it makes a live tunnel stale, and nothing else does. */
  lemma InstallKeepsCoherenceExactlyWhen(s: State, tag: string)
    requires Coherent(s) && s.tunnel.Up? && !Available(s, tag)
    ensures Coherent(s.(installed := s.installed + {tag})) <==> s.activeFile != Some(tag)
  {
    if s.activeFile == Some(tag) {
      assert s.(installed := s.installed + {tag}).ActiveTag() == tag != BUNDLED == s.ActiveTag();
    } else {
      assert s.(installed := s.installed + {tag}).ActiveTag() == s.ActiveTag();
    }
  }

  function VersionOf(request: Option<ConnectRequest>): Option<string> {
    if request.Some? then Some(request.value.xrayVersion) else None
  }

  /** The version of the connection a start would come back to from this state of the machine. */
  function JournaledVersion(s: World.Snapshot): Option<string> {
    VersionOf(ReopenTarget(s.journal))
  }

  /** The controller, as the tasks above see it. */
  ghost function View(controller: ConnectionController): State
    requires controller.Valid()
    reads controller, controller.backend, controller.machine
  {
    var remembered := VersionOf(controller.backend.activeRequest);
    var tunnel := if controller.state.phase == Connected then Up(remembered.value) else Down;
    var process := controller.machine.now.process;
    var running := if process.Some? then Some(process.value.version) else None;
    State(map[], None, None, tunnel, running, JournaledVersion(controller.machine.now), remembered, None, {})
  }

  /** A process runs although no tunnel is reported. */
  ghost predicate LeftBehind(controller: ConnectionController)
    requires controller.Valid()
    reads controller, controller.backend, controller.machine
  {
    View(controller).tunnel.Down? && View(controller).running.Some?
  }

  /** Whatever state the service dies in, the journal names one of these versions. */
  ghost predicate DiesNaming(machine: World.Machine, versions: set<Option<string>>)
    reads machine
  {
    forall s | s in machine.visited :: JournaledVersion(s) in versions
  }

  /** A connect moves the tunnel to the version asked for, or leaves it as it was, or brings it down. */
  method SwitchTunnel(controller: ConnectionController, operationId: nat, request: ConnectRequest) returns (r: Reply)
    requires controller.Valid()
    requires controller.machine.visited == {controller.machine.now} && controller.machine.written == []
    modifies controller, controller.backend, controller.machine
    ensures controller.Valid()
    ensures Settles(old(View(controller)), View(controller), Some(request.xrayVersion))
    ensures if r.Done? then View(controller).tunnel == Up(request.xrayVersion)
            else View(controller).tunnel in {old(View(controller).tunnel), Down}
    ensures LeftBehind(controller) ==>
              || controller.state.phase == BlockedError
              || (old(LeftBehind(controller)) && controller.state == old(controller.state))
    ensures DiesNaming(controller.machine, Journals(old(View(controller)), Some(request.xrayVersion)))
  {
    hide Backend.Effective, ProtocolLanguage.Run, ProtocolLanguage.Next, ConnectStep, ConnectWrites, Crossed;
    hide ProtocolLanguage.ConnectWord, ProtocolLanguage.Answers, EndState, Expected, BlockHeldAs;
    ghost var t, crossing := controller.Begun(operationId, request), {};
    ghost var ending;
    r, crossing, ending := controller.Connect(operationId, request);
    forall s | s in controller.machine.visited {
      Service.ConnectTargets(s, t);
    }
  }

  /** A disconnect brings the tunnel down; the monitor leaves it as it was or brings it down. */
  method StopTunnel(controller: ConnectionController, audit: bool, operationId: nat, keepBlocked: bool)
    returns (r: Reply)
    requires controller.Valid() && controller.machine.visited == {controller.machine.now}
    modifies controller, controller.backend, controller.machine
    ensures controller.Valid()
    ensures Settles(old(View(controller)), View(controller), None)
    ensures View(controller).tunnel in {old(View(controller).tunnel), Down}
    ensures !audit ==> View(controller).tunnel == Down
    ensures r.Done? && !audit ==> View(controller).running.None?
    ensures LeftBehind(controller) ==>
              || controller.state.phase == BlockedError
              || (old(LeftBehind(controller)) && controller.state == old(controller.state))
    ensures DiesNaming(controller.machine, Journals(old(View(controller)), None))
  {
    hide Backend.Effective, ProtocolLanguage.Run, ProtocolLanguage.Next;
    if audit {
      ghost var known, running;
      r, known, running := controller.AuditRuntime();
    } else {
      r := controller.Disconnect(operationId, keepBlocked);
    }
  }

  /** How the controller comes to leave one behind: no record can be written, so the process is not even stopped. */
  method FailedDisconnectLeavesBehind(controller: ConnectionController, operationId: nat, keepBlocked: bool)
    returns (r: Reply)
    requires controller.Valid() && controller.state.phase == Connected && controller.machine.unwritable
    modifies controller, controller.backend, controller.machine
    ensures r.Failed? && controller.Valid() && controller.state == BlockedErrorState(operationId)
    ensures LeftBehind(controller) && View(controller).running == Some(old(View(controller).tunnel.version))
    ensures controller.machine.now == old(controller.machine.now)
  {
    hide Backend.Effective, ProtocolLanguage.Run, ProtocolLanguage.Next, DisconnectStep;
    r := controller.Disconnect(operationId, keepBlocked);
  }

  /** A start comes back to the connection that the journal names, or to none, and names no other on the way. */
  method OpenTunnel(machine: World.Machine, readable: bool) returns (controller: ConnectionController)
    requires machine.Valid() && machine.now.process.None? && machine.visited == {machine.now} && machine.written == []
    modifies machine
    ensures fresh(controller) && fresh(controller.backend) && controller.machine == machine && controller.Valid()
    ensures var target := old(JournaledVersion(machine.now));
      && Restarts(State(map[], None, None, Down, None, target, None, None, {}), View(controller), target)
      && DiesNaming(machine, {target, None})
    ensures LeftBehind(controller) ==> controller.state.phase == Blocked
  {
    hide Backend.Effective, ProtocolLanguage.Run, ProtocolLanguage.Next, FlagsAgree;
    hide Service.Faithful, Service.FaithfulThroughout, Service.Armed, Service.Guarded;
    hide Commands.Demands, Commands.SettlesBlocked, Commands.Opens, Service.DemandsBlock, Service.KillSwitchOnly;
    ghost var forced, first;
    controller, forced, first := Service.Open(machine, readable);
  }
}
