/**
 The order in which the controller may call its backend: one automaton over call outcomes. Its
 settled states carry the phase the service reports between operations.
 */
module ProtocolLanguage {
  import opened Protocol
  import opened Wrappers

  datatype Call =
    | Validate
    | InstallHold
    | VerifyHold
    | StopActive
    | StartCandidate
    | VerifyCandidate
    | CommitPolicy
    | ReleaseHold
    | RestorePrevious
    | ClearNetwork(keepBlocked: bool)
    | AuditActive(running: bool)
    | ForceBlockedCall

  /** A call and whether it succeeded; an audit that succeeds has found the process running or not. */
  datatype Event = Event(call: Call, ok: bool)

  datatype Node =
    | Settled(phase: ConnectionPhase)
    | Validated(from: ConnectionPhase)
    | Installed(from: ConnectionPhase)
    | HoldVerified(from: ConnectionPhase)
    | HoldRefused(from: ConnectionPhase)
    | Stopped
    | Started(replacing: bool)
    | Verified(replacing: bool)
    | Committed
    | Compensating(replacing: bool)
    | Restored
    | Dead
    | Rejected

  function Cleared(keepBlocked: bool): ConnectionPhase {
    if keepBlocked then Blocked else Disconnected
  }

  function Next(node: Node, event: Event): Node {
    match node
    case Settled(p) => FromSettled(p, event)
    case Validated(p) => if event.call != InstallHold then Rejected else if event.ok then Installed(p) else Settled(p)
    case Installed(p) => if event.call != VerifyHold then Rejected else if event.ok then HoldVerified(p)
      else HoldRefused(p)
    case HoldRefused(p) => if event.call != ReleaseHold then Rejected else Settled(if event.ok then p else BlockedError)
    case HoldVerified(p) =>
      if p == Connected then
        if event.call != StopActive then Rejected else if event.ok then Stopped else Settled(BlockedError)
      else
        if event.call != StartCandidate then Rejected else if event.ok then Started(false) else Compensating(false)
    case Stopped => if event.call != StartCandidate then Rejected else if event.ok then Started(true)
      else Compensating(true)
    case Started(r) => if event.call != VerifyCandidate then Rejected else if event.ok then Verified(r)
      else Compensating(r)
    case Verified(r) => if event.call != CommitPolicy then Rejected else if event.ok then Committed else Compensating(r)
    case Committed => if event.call != ReleaseHold then Rejected
      else Settled(if event.ok then Connected else BlockedError)
    case Compensating(true) =>
      if event.call != RestorePrevious then Rejected else if event.ok then Restored else Settled(BlockedError)
    case Compensating(false) => Clear(event)
    case Restored => if event.call != ReleaseHold then Rejected
      else Settled(if event.ok then Connected else BlockedError)
    case Dead => Clear(event)
    case Rejected => Rejected
  }

  /** What may begin an operation. */
  function FromSettled(p: ConnectionPhase, event: Event): Node {
    match event.call
    case Validate => if event.ok then Validated(p) else Settled(p)
    case ClearNetwork(_) => Clear(event)
    case AuditActive(running) => if p != Connected then Rejected else if event.ok && !running then Dead
      else Settled(Connected)
    case ForceBlockedCall => Settled(Blocked)
    case _ => Rejected
  }

  function Clear(event: Event): Node {
    if event.call.ClearNetwork? then Settled(if event.ok then Cleared(event.call.keepBlocked) else BlockedError)
      else Rejected
  }

  /** How far a candidate got that failed under the verified hold. */
  datatype Stage = AtStart | AtVerify | AtCommit

  /**
   How a connect ends. A hold that was not verified is released. A candidate that failed is undone: the
   connection it replaced is restored and the hold released after it, or everything is cleared up.
   */
  datatype Ending =
    | NotValidated
    | NotHeld
    | NotVerified(released: bool)
    | NotStopped
    | Undone(stage: Stage, undone: bool, released: bool)
    | Finished(released: bool)
  {
    /** The candidate never ran, and what was there before was left alone but for the routes. */
    predicate Early() {
      NotValidated? || NotHeld? || NotVerified?
    }
  }

  const CONNECTED := Finished(true)

  /** The calls that try a candidate, up to the one that fails. */
  function TryingWord(stage: Stage): seq<Event> {
    match stage
    case AtStart => [Event(StartCandidate, false)]
    case AtVerify => [Event(StartCandidate, true), Event(VerifyCandidate, false)]
    case AtCommit => [Event(StartCandidate, true), Event(VerifyCandidate, true), Event(CommitPolicy, false)]
  }

  /** The calls that undo a candidate. */
  function UndoingWord(replacing: bool, keepBlocked: bool, undone: bool, released: bool): seq<Event> {
    if !replacing then [Event(ClearNetwork(keepBlocked), undone)]
    else if !undone then [Event(RestorePrevious, false)]
    else [Event(RestorePrevious, true), Event(ReleaseHold, released)]
  }

  /** From the start of the candidate on. */
  function CandidateWord(replacing: bool, keepBlocked: bool, ending: Ending): seq<Event> {
    match ending
    case Undone(stage, undone, released) => TryingWord(stage) + UndoingWord(replacing, keepBlocked, undone, released)
    case Finished(released) =>
      [Event(StartCandidate, true), Event(VerifyCandidate, true), Event(CommitPolicy, true),
       Event(ReleaseHold, released)]
    case _ => []
  }

  /** From the verified hold on. */
  function CrossingWord(replacing: bool, keepBlocked: bool, ending: Ending): seq<Event> {
    if ending.NotStopped? then [Event(StopActive, false)]
    else (if replacing then [Event(StopActive, true)] else []) + CandidateWord(replacing, keepBlocked, ending)
  }

  /** The calls that install the hold and verify it; where they fail, up to the end of the connect. */
  function HoldingWord(ending: Ending): seq<Event> {
    match ending
    case NotHeld => [Event(InstallHold, false)]
    case NotVerified(released) =>
      [Event(InstallHold, true), Event(VerifyHold, false), Event(ReleaseHold, released)]
    case _ => [Event(InstallHold, true), Event(VerifyHold, true)]
  }

  /** The calls of a whole connect, over a live connection or not; `keepBlocked` is the candidate's kill switch. */
  function ConnectWord(replacing: bool, keepBlocked: bool, ending: Ending): seq<Event> {
    if ending.NotValidated? then [Event(Validate, false)]
    else if ending.Early() then [Event(Validate, true)] + HoldingWord(ending)
    else [Event(Validate, true)] + HoldingWord(ending) + CrossingWord(replacing, keepBlocked, ending)
  }

  /** The parts of a connect, appended one after the other. */
  lemma ConnectInParts(word: seq<Event>, replacing: bool, keepBlocked: bool, ending: Ending)
    ensures ending.NotValidated? ==>
              word + [Event(Validate, false)] == word + ConnectWord(replacing, keepBlocked, ending)
    ensures ending.NotHeld? || ending.NotVerified? ==>
              word + [Event(Validate, true)] + HoldingWord(ending) == word + ConnectWord(replacing, keepBlocked, ending)
    ensures !ending.Early() ==>
              word + [Event(Validate, true)] + HoldingWord(CONNECTED) + CrossingWord(replacing, keepBlocked, ending)
                == word + ConnectWord(replacing, keepBlocked, ending)
  {
    hide CrossingWord;
    if !ending.NotValidated? {
      var validate, holding := [Event(Validate, true)], HoldingWord(ending);
      assert ending.Early() || holding == HoldingWord(CONNECTED);
      Joined(word, validate, holding, if ending.Early() then [] else CrossingWord(replacing, keepBlocked, ending));
    }
  }

  lemma Joined(a: seq<Event>, b: seq<Event>, c: seq<Event>, d: seq<Event>)
    ensures a + b + c + d == a + (b + c + d) && a + b + c == a + (b + c)
  {}

  /** The calls of a clear behind a failure, and of the block that is reported if it fails as well. */
  function FallBackWord(keepBlocked: bool, forced: bool): seq<Event> {
    [Event(ClearNetwork(keepBlocked), !forced)] + if forced then [Event(ForceBlockedCall, true)] else []
  }

  /** The phase in which a connect from `p` ends. */
  function EndPhase(p: ConnectionPhase, keepBlocked: bool, ending: Ending): ConnectionPhase {
    match ending
    case NotValidated | NotHeld => p
    case NotVerified(released) => if released then p else BlockedError
    case NotStopped => BlockedError
    case Undone(_, undone, released) =>
      if !undone || (p == Connected && !released) then BlockedError
      else if p == Connected then Connected else Cleared(keepBlocked)
    case Finished(released) => if released then Connected else BlockedError
  }

  /** Which errors a connect may report: those of the call that failed last. */
  predicate Blames(error: ServiceError, replacing: bool, ending: Ending) {
    match ending
    case NotValidated => error == ValidationFailed
    case NotHeld => error in {HoldFailed, Internal}
    case NotVerified(released) => error == HoldFailed || (!released && error == CleanupFailed)
    case NotStopped => error == XrayStartFailed
    case Undone(stage, undone, released) =>
      if !undone then error == if replacing then RestoreFailed else CleanupFailed
      else if replacing && !released then error in {HoldFailed, CleanupFailed}
      else BlamesCandidate(error, stage)
    case Finished(_) => error in {HoldFailed, CleanupFailed}
  }

  /** The reply of a connect that ends like this. */
  predicate Answers(reply: Reply, replacing: bool, ending: Ending) {
    if ending == CONNECTED then reply.Done? else reply.Failed? && Blames(reply.error, replacing, ending)
  }

  predicate BlamesCandidate(error: ServiceError, stage: Stage) {
    match stage
    case AtStart => error == XrayStartFailed
    case AtVerify => error == HealthCheckFailed
    case AtCommit => error in {HealthCheckFailed, Internal}
  }

  /** Where a word of calls leads from a freshly opened, disconnected service. */
  function Run(word: seq<Event>): Node {
    if word == [] then Settled(Disconnected) else Next(Run(word[..|word| - 1]), word[|word| - 1])
  }

  lemma RunAppend(word: seq<Event>, event: Event)
    ensures Run(word + [event]) == Next(Run(word), event)
  {
    assert (word + [event])[..|word|] == word;
  }

  /** Where a word leads from a node. */
  function RunFrom(node: Node, word: seq<Event>): Node
    decreases |word|
  {
    if word == [] then node else RunFrom(Next(node, word[0]), word[1..])
  }

  lemma {:induction false} RunConcat(word: seq<Event>, more: seq<Event>)
    ensures Run(word + more) == RunFrom(Run(word), more)
    decreases |more|
  {
    hide Next;
    if more == [] {
      assert word + more == word;
    } else {
      RunAppend(word, more[0]);
      RunConcat(word + [more[0]], more[1..]);
      assert word + more == word + [more[0]] + more[1..];
    }
  }

  lemma {:induction false} RunFromSplit(node: Node, word: seq<Event>, more: seq<Event>)
    ensures RunFrom(node, word + more) == RunFrom(RunFrom(node, word), more)
    decreases |word|
  {
    hide Next;
    if word == [] {
      assert word + more == more;
    } else {
      assert (word + more)[1..] == word[1..] + more;
      RunFromSplit(Next(node, word[0]), word[1..], more);
    }
  }

  lemma RunFromFew(node: Node, a: Event, b: Event, c: Event, d: Event)
    ensures RunFrom(node, [a]) == Next(node, a)
    ensures RunFrom(node, [a, b]) == Next(Next(node, a), b)
    ensures RunFrom(node, [a, b, c]) == Next(Next(Next(node, a), b), c)
    ensures RunFrom(node, [a, b, c, d]) == Next(Next(Next(Next(node, a), b), c), d)
  {
    hide Next;
    assert forall n: Node, e: Event :: RunFrom(n, [e]) == RunFrom(Next(n, e), [e][1..]) == Next(n, e);
    assert [a, b][1..] == [b] && [c, d][1..] == [d];
    assert RunFrom(Next(node, a), [b, c]) == Next(Next(Next(node, a), b), c) by { assert [b, c][1..] == [c]; }
    assert RunFrom(Next(Next(node, a), b), [c, d]) == Next(Next(Next(Next(node, a), b), c), d);
    assert [a, b, c][1..] == [b, c] && [a, b, c, d][1..] == [b, c, d] && [b, c, d][1..] == [c, d];
  }

  lemma HoldingLeads(p: ConnectionPhase, ending: Ending)
    ensures RunFrom(Validated(p), HoldingWord(ending)) ==
              match ending
              case NotHeld => Settled(p)
              case NotVerified(released) => Settled(if released then p else BlockedError)
              case _ => HoldVerified(p)
  {
    var word := HoldingWord(ending);
    var last := word[|word| - 1];
    RunFromFew(Validated(p), word[0], if |word| > 1 then word[1] else last, last, last);
  }

  /** The node in which a candidate is started. */
  function BeforeCandidate(p: ConnectionPhase): Node {
    if p == Connected then Stopped else HoldVerified(p)
  }

  lemma TryingLeads(p: ConnectionPhase, stage: Stage)
    ensures RunFrom(BeforeCandidate(p), TryingWord(stage)) == Compensating(p == Connected)
  {
    hide Next;
    CandidateRows(p, p == Connected);
    var word := TryingWord(stage);
    var last := word[|word| - 1];
    RunFromFew(BeforeCandidate(p), word[0], if |word| > 1 then word[1] else last, last, last);
  }

  lemma CandidateLeads(p: ConnectionPhase, keepBlocked: bool, ending: Ending)
    requires ending.Undone? || ending.Finished?
    ensures RunFrom(BeforeCandidate(p), CandidateWord(p == Connected, keepBlocked, ending))
              == Settled(EndPhase(p, keepBlocked, ending))
  {
    hide Next, TryingWord;
    CandidateRows(p, p == Connected);
    CompensationRows(keepBlocked);
    match ending
    case Undone(stage, undone, released) =>
      var undo := UndoingWord(p == Connected, keepBlocked, undone, released);
      RunFromSplit(BeforeCandidate(p), TryingWord(stage), undo);
      TryingLeads(p, stage);
      RunFromFew(Compensating(p == Connected), undo[0], undo[|undo| - 1], undo[0], undo[0]);
    case Finished(released) =>
      var word := CandidateWord(p == Connected, keepBlocked, ending);
      RunFromFew(BeforeCandidate(p), word[0], word[1], word[2], word[3]);
  }

  lemma CrossingLeads(p: ConnectionPhase, keepBlocked: bool, ending: Ending)
    requires !ending.Early() && (ending.NotStopped? ==> p == Connected)
    ensures RunFrom(HoldVerified(p), CrossingWord(p == Connected, keepBlocked, ending))
              == Settled(EndPhase(p, keepBlocked, ending))
  {
    var stop := Event(StopActive, !ending.NotStopped?);
    RunFromFew(HoldVerified(p), stop, stop, stop, stop);
    if !ending.NotStopped? {
      CandidateLeads(p, keepBlocked, ending);
      if p == Connected {
        RunFromSplit(HoldVerified(p), [stop], CandidateWord(true, keepBlocked, ending));
      } else {
        assert CrossingWord(false, keepBlocked, ending) == CandidateWord(false, keepBlocked, ending);
      }
    }
  }

  /** The automaton accepts every connect, wherever the service rests, and ends in its phase. */
  lemma ConnectAccepted(word: seq<Event>, p: ConnectionPhase, keepBlocked: bool, ending: Ending)
    requires Run(word) == Settled(p) && (ending.NotStopped? ==> p == Connected)
    ensures Run(word + ConnectWord(p == Connected, keepBlocked, ending)) == Settled(EndPhase(p, keepBlocked, ending))
  {
    var more, validate := ConnectWord(p == Connected, keepBlocked, ending), Event(Validate, !ending.NotValidated?);
    RunConcat(word, more);
    RunFromFew(Settled(p), validate, validate, validate, validate);
    if !ending.NotValidated? {
      var holding := HoldingWord(ending);
      HoldingLeads(p, ending);
      RunFromSplit(Settled(p), [validate], holding);
      if !ending.Early() {
        RunFromSplit(Settled(p), [validate] + holding, CrossingWord(p == Connected, keepBlocked, ending));
        CrossingLeads(p, keepBlocked, ending);
      }
    }
  }

  /** The rows of the table, one lemma per group of calls. */
  lemma HoldRows(p: ConnectionPhase)
    ensures forall ok :: Next(Settled(p), Event(Validate, ok)) == if ok then Validated(p) else Settled(p)
    ensures forall ok :: Next(Validated(p), Event(InstallHold, ok)) == if ok then Installed(p) else Settled(p)
    ensures forall ok :: Next(Installed(p), Event(VerifyHold, ok)) == if ok then HoldVerified(p) else HoldRefused(p)
    ensures forall ok :: Next(HoldRefused(p), Event(ReleaseHold, ok)) == Settled(if ok then p else BlockedError)
    ensures forall ok ::
              Next(HoldVerified(Connected), Event(StopActive, ok)) == if ok then Stopped else Settled(BlockedError)
  {}

  lemma CandidateRows(p: ConnectionPhase, replacing: bool)
    ensures p != Connected ==> forall ok ::
              Next(HoldVerified(p), Event(StartCandidate, ok)) == if ok then Started(false) else Compensating(false)
    ensures forall ok :: Next(Stopped, Event(StartCandidate, ok)) == if ok then Started(true) else Compensating(true)
    ensures forall ok ::
              Next(Started(replacing), Event(VerifyCandidate, ok))
              == if ok then Verified(replacing) else Compensating(replacing)
    ensures forall ok ::
              Next(Verified(replacing), Event(CommitPolicy, ok)) == if ok then Committed else Compensating(replacing)
    ensures forall ok :: Next(Committed, Event(ReleaseHold, ok)) == Settled(if ok then Connected else BlockedError)
  {}

  lemma CompensationRows(keepBlocked: bool)
    ensures forall ok ::
              Next(Compensating(true), Event(RestorePrevious, ok)) == if ok then Restored else Settled(BlockedError)
    ensures forall ok :: Next(Restored, Event(ReleaseHold, ok)) == Settled(if ok then Connected else BlockedError)
    ensures forall ok ::
              Next(Compensating(false), Event(ClearNetwork(keepBlocked), ok))
                == Settled(if ok then Cleared(keepBlocked) else BlockedError)
  {}

  lemma ClearRows(p: ConnectionPhase, keepBlocked: bool)
    ensures forall ok ::
              Next(Settled(p), Event(ClearNetwork(keepBlocked), ok))
                == Settled(if ok then Cleared(keepBlocked) else BlockedError)
    ensures forall ok, running ::
              Next(Settled(Connected), Event(AuditActive(running), ok))
              == if ok && !running then Dead else Settled(Connected)
    ensures forall ok ::
              Next(Dead, Event(ClearNetwork(keepBlocked), ok))
                == Settled(if ok then Cleared(keepBlocked) else BlockedError)
    ensures Next(Settled(p), Event(ForceBlockedCall, true)) == Settled(Blocked)
  {}

  /** No word recovers from a call out of order. */
  lemma {:induction false} PrefixAccepted(word: seq<Event>, k: nat)
    requires k <= |word| && Run(word) != Rejected
    ensures Run(word[..k]) != Rejected
  {
    if k == |word| {
      assert word[..k] == word;
    } else {
      var shorter := word[..|word| - 1];
      PrefixAccepted(shorter, k);
      assert shorter[..k] == word[..k];
    }
  }

  /** The call at `i`, as a transition between two accepted prefixes. */
  lemma StepAt(word: seq<Event>, i: nat)
    requires i < |word| && Run(word) != Rejected
    ensures Run(word[..i + 1]) == Next(Run(word[..i]), word[i]) != Rejected
  {
    PrefixAccepted(word, i + 1);
    assert word[..i + 1][..i] == word[..i];
  }

  /** The only way to a verified hold is to validate, install and verify, all three successfully. */
  lemma BeforeHoldVerified(word: seq<Event>, i: nat)
    requires i <= |word| && Run(word) != Rejected && Run(word[..i]).HoldVerified?
    ensures i >= 3
    ensures word[i - 3] == Event(Validate, true) && word[i - 2] == Event(InstallHold, true)
            && word[i - 1] == Event(VerifyHold, true)
    ensures Run(word[..i - 3]) == Settled(Run(word[..i]).from)
  {
    hide Next;
    assert i > 0 by { assert word[..0] == []; }
    StepAt(word, i - 1);
    IntoHold(Run(word[..i - 1]), word[i - 1]);
    assert i > 1 by { assert word[..0] == []; }
    StepAt(word, i - 2);
    IntoHold(Run(word[..i - 2]), word[i - 2]);
    assert i > 2 by { assert word[..0] == []; }
    StepAt(word, i - 3);
    IntoHold(Run(word[..i - 3]), word[i - 3]);
  }

  lemma IntoHold(node: Node, event: Event)
    ensures Next(node, event).HoldVerified? ==>
              event == Event(VerifyHold, true) && node == Installed(Next(node, event).from)
    ensures Next(node, event).Installed? ==>
              event == Event(InstallHold, true) && node == Validated(Next(node, event).from)
    ensures Next(node, event).Validated? ==> event == Event(Validate, true) && node == Settled(Next(node, event).from)
  {}

  /** A live connection is stopped only under a hold that was installed and verified in the same connect. */
  lemma StopOnlyUnderHold(word: seq<Event>, i: nat)
    requires i < |word| && Run(word) != Rejected && word[i].call == StopActive
    ensures i >= 3
    ensures word[i - 3] == Event(Validate, true) && word[i - 2] == Event(InstallHold, true)
            && word[i - 1] == Event(VerifyHold, true)
    ensures Run(word[..i - 3]) == Settled(Connected)
  {
    StepAt(word, i);
    BeforeHoldVerified(word, i);
  }

  lemma IntoCandidate(node: Node, event: Event)
    ensures Next(node, event) == Stopped ==> event == Event(StopActive, true) && node == HoldVerified(Connected)
    ensures Next(node, event) == Started(true) ==> event == Event(StartCandidate, true) && node == Stopped
    ensures Next(node, event) == Verified(true) ==> event == Event(VerifyCandidate, true) && node == Started(true)
    ensures Next(node, event) == Compensating(true) ==>
              !event.ok && ((event.call == StartCandidate && node == Stopped)
                            || (event.call == VerifyCandidate && node == Started(true))
                            || (event.call == CommitPolicy && node == Verified(true)))
  {}

  /** A candidate that replaces a connection was started right after the stop. */
  lemma BeforeStarted(word: seq<Event>, i: nat)
    requires i <= |word| && Run(word) != Rejected && Run(word[..i]) == Started(true)
    ensures i >= 5 && word[i - 2] == Event(StopActive, true) && word[i - 1] == Event(StartCandidate, true)
  {
    hide Next;
    assert i > 0 by { assert word[..0] == []; }
    StepAt(word, i - 1);
    IntoCandidate(Run(word[..i - 1]), word[i - 1]);
    BeforeStopped(word, i - 1);
  }

  lemma BeforeStopped(word: seq<Event>, i: nat)
    requires i <= |word| && Run(word) != Rejected && Run(word[..i]) == Stopped
    ensures i >= 4 && word[i - 1] == Event(StopActive, true)
  {
    hide Next;
    assert i > 0 by { assert word[..0] == []; }
    StepAt(word, i - 1);
    IntoCandidate(Run(word[..i - 1]), word[i - 1]);
    BeforeHoldVerified(word, i - 1);
  }

  lemma RestoreFrom(node: Node, event: Event)
    requires event.call == RestorePrevious && Next(node, event) != Rejected
    ensures node == Compensating(true)
    ensures !event.ok ==> Next(node, event) == Settled(BlockedError)
  {}

  /** A connection is restored only after it was stopped and the candidate that replaced it failed. */
  lemma RestoreOnlyAfterStop(word: seq<Event>, i: nat)
    requires i < |word| && Run(word) != Rejected && word[i].call == RestorePrevious
    ensures i >= 5 && !word[i - 1].ok
    ensures match word[i - 1].call
            case StartCandidate => word[i - 2] == Event(StopActive, true)
            case VerifyCandidate => i >= 6 && word[i - 3] == Event(StopActive, true)
              && word[i - 2] == Event(StartCandidate, true)
            case CommitPolicy => i >= 7 && word[i - 4] == Event(StopActive, true)
              && word[i - 3] == Event(StartCandidate, true) && word[i - 2] == Event(VerifyCandidate, true)
            case _ => false
  {
    hide Next;
    StepAt(word, i);
    RestoreFrom(Run(word[..i]), word[i]);
    assert i > 0 by { assert word[..0] == []; }
    StepAt(word, i - 1);
    IntoCandidate(Run(word[..i - 1]), word[i - 1]);
    if word[i - 1].call == StartCandidate {
      BeforeStopped(word, i - 1);
    } else if word[i - 1].call == VerifyCandidate {
      BeforeStarted(word, i - 1);
    } else {
      assert i > 1 by { assert word[..0] == []; }
      StepAt(word, i - 2);
      IntoCandidate(Run(word[..i - 2]), word[i - 2]);
      BeforeStarted(word, i - 2);
    }
  }

  lemma FromBlockedError(event: Event)
    requires Next(Settled(BlockedError), event) != Rejected
    ensures event.call in {Validate, ForceBlockedCall, ClearNetwork(true), ClearNetwork(false)}
  {}

  /** A failed restore leaves the hold alone: the next call starts an operation of its own. */
  lemma NoReleaseAfterFailedRestore(word: seq<Event>, i: nat)
    requires i + 1 < |word| && Run(word) != Rejected && word[i] == Event(RestorePrevious, false)
    ensures Run(word[..i + 1]) == Settled(BlockedError)
    ensures word[i + 1].call in {Validate, ForceBlockedCall, ClearNetwork(true), ClearNetwork(false)}
  {
    hide Next;
    StepAt(word, i);
    RestoreFrom(Run(word[..i]), word[i]);
    StepAt(word, i + 1);
    FromBlockedError(word[i + 1]);
  }
}
