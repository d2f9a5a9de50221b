/**
 A streamed model step: the SDK's copy waits at its `finish` part for the gate
 that the observer's copy opens.

 Both copies come from one tee and read every part of the source. A step is one
 thing that can happen: the source produces, the SDK pulls, reads, resumes or
 cancels, the observer reads, its gate decides, it fails or it stops.
 */
module FinishLatch {
  import opened Json

  datatype Part = Chunk(id: nat) | ErrorPart | Finish(id: nat)

  datatype End = Open | Done | Failed

  /** A settled latch: go on, or error the SDK's stream with the run's abort. */
  datatype Verdict = GoOn | AbortWith

  class Latch {
    var verdict: Option<Verdict>
    var abandoned: bool

    constructor ()
      ensures verdict == None && !abandoned
    {
      verdict, abandoned := None, false;
    }

    /** A promise settles once: later calls change nothing. */
    method Release(v: Verdict)
      modifies this`verdict
      ensures verdict == Released(old(verdict), v) && verdict.Some?
    {
      if verdict.None? {
        verdict := Some(v);
      }
    }

    /** The SDK cancelled its copy. */
    method Abandon()
      modifies this
      ensures abandoned && verdict == Released(old(verdict), GoOn)
    {
      abandoned := true;
      Release(GoOn);
    }
  }

  function Released(latch: Option<Verdict>, v: Verdict): Option<Verdict> { if latch.None? then Some(v) else latch }

  datatype Sdk = Resting | Pulling | AtFinish(part: Part) | Closed | Aborted | SourceFailed | Cancelled

  datatype Observer = Watching | Gating | Stopped

  datatype Action = Continue | Abort

  datatype State = State(
    produced: seq<Part>, end: End,
    sdk: Sdk, sdkRead: nat, delivered: seq<Part>,
    observer: Observer, seen: nat, sawError: bool, action: Option<Action>, gates: nat,
    latch: Option<Verdict>, abandoned: bool)

  const START := State([], Open, Resting, 0, [], Watching, 0, false, None, 0, None, false)

  datatype Step =
    | Produce(part: Part)
    | EndSource(how: End)
    | Pull
    | SdkRead
    | SdkResume
    | Cancel
    | Watch            // the observer reads one part, or the end of its copy
    | Decide(action: Action)
    | GateFails        // the gate call itself throws: treated as continue
    | ObserverFails

  function Stop(s: State): State { s.(observer := Stopped, latch := Released(s.latch, GoOn)) }

  function ReadNext(s: State): State
  {
    if s.sdkRead < |s.produced| then
      var part := s.produced[s.sdkRead];
      if part.Finish? then s.(sdkRead := s.sdkRead + 1, sdk := AtFinish(part))
      else s.(sdkRead := s.sdkRead + 1, sdk := Resting, delivered := s.delivered + [part])
    else if s.end.Done? then s.(sdk := Closed)
    else if s.end.Failed? then s.(sdk := SourceFailed)
    else s
  }

  function WatchNext(s: State): State
  {
    if s.seen < |s.produced| then
      var part := s.produced[s.seen];
      var next := s.(seen := s.seen + 1);
      if part.ErrorPart? then next.(sawError := true)
      else if part.Finish? && !s.abandoned && s.action.None? && !s.sawError then next.(observer := Gating, gates := s.gates + 1)
      else next
    else if s.end.Open? then s
    else Stop(s)
  }

  function Gated(s: State, a: Action): State
  {
    s.(observer := Watching, action := Some(a), latch := Released(s.latch, if a.Abort? then AbortWith else GoOn))
  }

  function Next(s: State, k: Step): State
  {
    match k
    case Produce(part) => if s.end.Open? then s.(produced := s.produced + [part]) else s
    case EndSource(how) => if s.end.Open? then s.(end := how) else s
    case Pull => if s.sdk.Resting? then s.(sdk := Pulling) else s
    case SdkRead => if s.sdk.Pulling? then ReadNext(s) else s
    case SdkResume =>
      if s.sdk.AtFinish? && s.latch.Some? then
        if s.latch.value.AbortWith? then s.(sdk := Aborted) else s.(sdk := Resting, delivered := s.delivered + [s.sdk.part])
      else s
    case Cancel =>
      if s.sdk.Resting? || s.sdk.Pulling? || s.sdk.AtFinish? then
        s.(sdk := Cancelled, abandoned := true, latch := Released(s.latch, GoOn))
      else s
    case Watch => if s.observer.Watching? then WatchNext(s) else s
    case Decide(a) => if s.observer.Gating? then Gated(s, a) else s
    case GateFails => if s.observer.Gating? then Gated(s, Continue) else s
    case ObserverFails => if s.observer.Stopped? then s else Stop(s)
  }

  function Run(steps: seq<Step>): State
  {
    if steps == [] then START else Next(Run(steps[..|steps| - 1]), steps[|steps| - 1])
  }

  // ---- safety ----

  /** How many parts the SDK has passed on: the one it holds at its finish is not. */
  function Passed(s: State): int { if s.sdk.AtFinish? then s.sdkRead - 1 else s.sdkRead }

  predicate HasFinish(parts: seq<Part>) { exists i | 0 <= i < |parts| :: parts[i].Finish? }

  predicate Ok(s: State)
  {
    && s.sdkRead <= |s.produced| && s.seen <= |s.produced|
    && (s.sdk.AtFinish? ==> s.sdkRead > 0 && s.produced[s.sdkRead - 1] == s.sdk.part && s.sdk.part.Finish?)
    && (s.sdk.Aborted? || s.sdk.Cancelled? ==> s.sdkRead >= |s.delivered|)
    && |s.delivered| <= |s.produced| && s.delivered == s.produced[..|s.delivered|]
    && (!s.sdk.Aborted? && !s.sdk.Cancelled? ==> |s.delivered| == Passed(s))
    && (HasFinish(s.delivered) ==> s.latch == Some(GoOn))
    && (s.sdk.Aborted? ==> s.latch == Some(AbortWith))
    && (s.sdk.Closed? ==> s.end.Done? && s.sdkRead == |s.produced|)
    && (s.sdk.SourceFailed? ==> s.end.Failed?)
    && (s.observer.Stopped? ==> s.latch.Some?)
    && (s.abandoned <==> s.sdk.Cancelled?) && (s.abandoned ==> s.latch.Some?)
    && (s.latch == Some(AbortWith) ==> s.action == Some(Abort))
    && (s.action.Some? ==> s.latch.Some?)
    && s.gates <= 1 && (s.observer.Watching? && s.action.None? ==> s.gates == 0) && (s.observer.Gating? ==> s.action.None?)
  }

  lemma FinishAppend(parts: seq<Part>, p: Part)
    ensures HasFinish(parts + [p]) <==> HasFinish(parts) || p.Finish?
  {
    var all := parts + [p];
    assert all[|parts|] == p && forall i | 0 <= i < |parts| :: all[i] == parts[i];
  }

  lemma ReadOk(s: State)
    requires Ok(s) && s.sdk.Pulling?
    ensures Ok(ReadNext(s))
  {
    if s.sdkRead < |s.produced| {
      FinishAppend(s.delivered, s.produced[s.sdkRead]);
      assert s.produced[..s.sdkRead + 1] == s.produced[..s.sdkRead] + [s.produced[s.sdkRead]];
    }
  }

  lemma ResumeOk(s: State)
    requires Ok(s) && s.sdk.AtFinish?
    ensures Ok(Next(s, SdkResume))
  {
    FinishAppend(s.delivered, s.sdk.part);
    assert s.produced[..s.sdkRead] == s.produced[..s.sdkRead - 1] + [s.produced[s.sdkRead - 1]];
  }

  lemma StopOk(s: State)
    requires Ok(s)
    ensures Ok(Stop(s))
  {
  }

  lemma WatchOk(s: State)
    requires Ok(s) && s.observer.Watching?
    ensures Ok(WatchNext(s))
  {
    hide HasFinish;
    if s.seen == |s.produced| {
      StopOk(s);
    }
  }

  lemma GatedOk(s: State, a: Action)
    requires Ok(s) && s.observer.Gating?
    ensures Ok(Gated(s, a))
  {
  }

  lemma CancelOk(s: State)
    requires Ok(s)
    ensures Ok(Next(s, Cancel))
  {
  }

  lemma ProduceOk(s: State, part: Part)
    requires Ok(s)
    ensures Ok(Next(s, Produce(part)))
  {
    assert (s.produced + [part])[..|s.delivered|] == s.produced[..|s.delivered|];
  }

  lemma NextOk(s: State, k: Step)
    requires Ok(s)
    ensures Ok(Next(s, k))
  {
    hide HasFinish, ReadNext, WatchNext, Gated, Stop;
    match k {
      case Produce(part) => ProduceOk(s, part);
      case EndSource(_) =>
      case Pull =>
      case SdkRead => if s.sdk.Pulling? { ReadOk(s); }
      case SdkResume => if s.sdk.AtFinish? { ResumeOk(s); }
      case Cancel => CancelOk(s);
      case Watch => if s.observer.Watching? { WatchOk(s); }
      case Decide(a) => if s.observer.Gating? { GatedOk(s, a); }
      case GateFails => if s.observer.Gating? { GatedOk(s, Continue); }
      case ObserverFails => StopOk(s);
    }
  }

  lemma {:induction false} RunOk(steps: seq<Step>)
    ensures Ok(Run(steps))
  {
    if steps != [] {
      RunOk(steps[..|steps| - 1]);
      NextOk(Run(steps[..|steps| - 1]), steps[|steps| - 1]);
    }
  }

  /** In any interleaving the SDK receives a prefix of the source, in order, all of it when its copy closes. */
  lemma DeliveredInOrder(steps: seq<Step>)
    ensures var s := Run(steps);
            && |s.delivered| <= |s.produced| && s.delivered == s.produced[..|s.delivered|]
            && (s.sdk.Closed? ==> s.end.Done? && s.delivered == s.produced)
  {
    RunOk(steps);
  }

  /** No finish part before the latch is released without abort; on abort an error instead of it. */
  lemma FinishAfterRelease(steps: seq<Step>)
    ensures var s := Run(steps);
            && (HasFinish(s.delivered) ==> s.latch == Some(GoOn))
            && (s.latch == Some(AbortWith) ==> s.action == Some(Abort) && !HasFinish(s.delivered))
            && (s.sdk.AtFinish? && s.latch == Some(AbortWith) ==> Next(s, SdkResume).sdk.Aborted? && Next(s, SdkResume).delivered == s.delivered)
            && (s.sdk.Aborted? ==> s.latch == Some(AbortWith))
  {
    RunOk(steps);
  }

  /** One gate at most, and none once the SDK has cancelled. */
  lemma GatesOnce(steps: seq<Step>)
    ensures Run(steps).gates <= 1
    ensures Run(steps).abandoned && !Run(steps).observer.Gating? ==> forall k :: Next(Run(steps), k).gates == Run(steps).gates
  {
    RunOk(steps);
  }

  // ---- nothing waits on a dead observer ----

  /** The SDK waits only for an observer that is still there: once it stopped, the wait is over. */
  lemma NeverWaitsOnStopped(steps: seq<Step>)
    requires Run(steps).observer.Stopped?
    ensures Run(steps).latch.Some? && (Run(steps).sdk.AtFinish? ==> !Next(Run(steps), SdkResume).sdk.AtFinish?)
  {
    RunOk(steps);
  }

  /** What the observer still has to do once the source has ended. */
  function Rest(s: State): nat
    requires s.seen <= |s.produced|
  {
    match s.observer
    case Stopped => 0
    case Watching => 2 * (|s.produced| - s.seen) + 1
    case Gating => 2 * (|s.produced| - s.seen) + 2
  }

  /** Steps that move the observer on: its own read, its gate's decision, its failure. */
  predicate Moves(s: State, k: Step)
  {
    (s.observer.Watching? && k.Watch?) || (s.observer.Gating? && (k.Decide? || k.GateFails?)) || k.ObserverFails?
  }

  /** After the source ends every move brings the observer closer to stopping, and no other step takes it back. */
  lemma ObserverMovesOn(s: State, k: Step)
    requires Ok(s) && !s.end.Open?
    ensures Ok(Next(s, k)) && !Next(s, k).end.Open? && Rest(Next(s, k)) <= Rest(s)
    ensures Moves(s, k) && !s.observer.Stopped? ==> Rest(Next(s, k)) < Rest(s)
    ensures Rest(s) == 0 <==> s.observer.Stopped?
  {
    hide Next, Moves;
    NextOk(s, k);
    RestDrops(s, k);
  }

  lemma RestDrops(s: State, k: Step)
    requires s.seen <= |s.produced| && !s.end.Open?
    ensures var r := Next(s, k); r.seen <= |r.produced| && !r.end.Open? && Rest(r) <= Rest(s)
    ensures Moves(s, k) && !s.observer.Stopped? ==> Rest(Next(s, k)) < Rest(s)
  {
    hide ReadNext, Released;
    if k.SdkRead? {
      ReadKeepsRest(s);
    }
  }

  lemma ReadKeepsRest(s: State)
    ensures var r := ReadNext(s); r.produced == s.produced && r.seen == s.seen && r.observer == s.observer && r.end == s.end
  {
  }

  function Runs(s: State, steps: seq<Step>): State
    decreases |steps|
  {
    if steps == [] then s else Runs(Next(s, steps[0]), steps[1..])
  }

  function MoveCount(s: State, steps: seq<Step>): nat
    decreases |steps|
  {
    if steps == [] then 0 else (if Moves(s, steps[0]) then 1 else 0) + MoveCount(Next(s, steps[0]), steps[1..])
  }

  /** Once the source has ended and the observer has moved often enough, the latch is released: the SDK's wait ends. */
  lemma {:induction false} LatchReleased(s: State, steps: seq<Step>)
    requires Ok(s) && !s.end.Open? && MoveCount(s, steps) >= Rest(s)
    ensures Runs(s, steps).observer.Stopped? && Runs(s, steps).latch.Some?
    decreases |steps|
  {
    if steps != [] {
      ObserverMovesOn(s, steps[0]);
      LatchReleased(Next(s, steps[0]), steps[1..]);
    }
  }

  // ---- nothing is swallowed, and the gate opens when it should ----

  /** A pull takes the next part: an ordinary one is passed on, a finish is held. */
  lemma PullTakesNext(s: State)
    requires Ok(s) && s.sdk == Pulling && s.sdkRead < |s.produced|
    ensures var r, part := Next(s, SdkRead), s.produced[s.sdkRead];
            && r.sdkRead == s.sdkRead + 1
            && if part.Finish? then r.sdk == AtFinish(part) && r.delivered == s.delivered
               else r.sdk == Resting && r.delivered == s.delivered + [part]
  {
  }

  /** At the end of the source the SDK's copy ends as the source did. */
  lemma PullAtEnd(s: State)
    requires s.sdk == Pulling && s.sdkRead == |s.produced|
    ensures Next(s, SdkRead).sdk == if s.end == End.Done then Closed else if s.end == End.Failed then SourceFailed else Pulling
  {
  }

  /** A released finish is passed on, and an abort errors the copy. */
  lemma ReleasedFinish(s: State)
    requires s.sdk.AtFinish? && s.latch.Some?
    ensures var r := Next(s, SdkResume);
            if s.latch == Some(AbortWith) then r.sdk == Aborted && r.delivered == s.delivered
            else r.sdk == Resting && r.delivered == s.delivered + [s.sdk.part]
  {
  }

  /** Until it cancels or is aborted the SDK has passed on everything it read but the finish it holds. */
  lemma NothingSwallowed(steps: seq<Step>)
    ensures var s := Run(steps);
            !s.sdk.Aborted? && !s.sdk.Cancelled? ==>
              s.sdkRead <= |s.produced| && (s.sdk.AtFinish? ==> s.sdkRead > 0)
              && s.delivered == s.produced[..if s.sdk.AtFinish? then s.sdkRead - 1 else s.sdkRead]
  {
    RunOk(steps);
  }

  predicate SawError(s: State) { exists i | 0 <= i < s.seen && i < |s.produced| :: s.produced[i] == ErrorPart }

  predicate ErrorsNoted(s: State) { s.seen <= |s.produced| && (s.sawError <==> SawError(s)) }

  lemma ErrorsNotedStep(s: State, k: Step)
    requires ErrorsNoted(s)
    ensures ErrorsNoted(Next(s, k))
  {
    hide Released;
    var r := Next(s, k);
    assert forall i | 0 <= i < |s.produced| :: r.produced[i] == s.produced[i] by {
      ProducedKept(s, k);
    }
    if k.Watch? && s.observer.Watching? && s.seen < |s.produced| {
      assert r.seen == s.seen + 1;
      if s.produced[s.seen].ErrorPart? {
        assert r.produced[s.seen] == ErrorPart;
      } else if SawError(r) {
        var i :| 0 <= i < r.seen && i < |r.produced| && r.produced[i] == ErrorPart;
        assert s.produced[i] == ErrorPart;
      }
      if SawError(s) {
        var i :| 0 <= i < s.seen && i < |s.produced| && s.produced[i] == ErrorPart;
        assert r.produced[i] == ErrorPart;
      }
    } else {
      SameErrors(s, r, k);
    }
  }

  lemma ProducedKept(s: State, k: Step)
    ensures |Next(s, k).produced| >= |s.produced| && Next(s, k).produced[..|s.produced|] == s.produced
  {
    hide Released;
  }

  lemma SameErrors(s: State, r: State, k: Step)
    requires ErrorsNoted(s) && r == Next(s, k) && !(k.Watch? && s.observer.Watching? && s.seen < |s.produced|)
    ensures ErrorsNoted(r)
  {
    hide Released;
    ProducedKept(s, k);
    assert r.seen == s.seen && r.sawError == s.sawError;
    assert forall i | 0 <= i < |s.produced| :: r.produced[..|s.produced|][i] == r.produced[i];
  }

  lemma {:induction false} ErrorsNotedAlways(steps: seq<Step>)
    ensures ErrorsNoted(Run(steps))
  {
    if steps != [] {
      hide ErrorsNoted, Next;
      ErrorsNotedAlways(steps[..|steps| - 1]);
      ErrorsNotedStep(Run(steps[..|steps| - 1]), steps[|steps| - 1]);
    } else {
      assert ErrorsNoted(START);
    }
  }

  /** The observer opens its gate at a finish exactly when nothing before it was an error, no gate has decided and the SDK has not cancelled. */
  lemma GateOpensExactly(steps: seq<Step>)
    requires Run(steps).observer == Watching && Run(steps).seen < |Run(steps).produced|
    ensures var s := Run(steps);
            var r := Next(s, Watch);
            && r.seen == s.seen + 1
            && (r.observer == Gating <==> s.produced[s.seen].Finish? && !SawError(s) && s.action.None? && !s.sdk.Cancelled?)
            && (r.gates == s.gates + if r.observer == Gating then 1 else 0)
  {
    hide SawError, HasFinish;
    RunOk(steps);
    ErrorsNotedAlways(steps);
  }

  /** What the gate decides reaches a latch nobody settled before: an abort aborts, anything else lets go. */
  lemma DecisionReachesLatch(s: State, a: Action)
    requires s.observer == Gating && s.latch.None?
    ensures Next(s, Decide(a)).latch == Some(if a == Abort then AbortWith else GoOn)
    ensures Next(s, GateFails).latch == Some(GoOn)
  {
  }
}
