/**
 What a host is told: over every run, the decision it leaves with is the one
 resume or verdict that settled its gate, word for word.
 */
module GateDecisions {
  import opened Json
  import opened Gate
  import opened Session

  // ---- a resume ----

  /** A gate that takes a resume: in the table, and no edit of it is being validated. */
  predicate Resumable(c: Call) { c.held && c.gate.Some? && !c.gate.value.validating }

  /** What a resume asks for: its action, the output if it injects one, never an input. */
  predicate Asks(d: Decision, a: Action, o: Json)
  {
    d.action == a && d.output == (if a == Inject then o else Null) && d.input == None
  }

  /** Step `at` resumed the call with this action and output, and found it resumable. */
  predicate ResumedAt(cfg: Config, h: seq<Step>, p: nat, at: nat, a: Action, o: Json)
  {
    at < |h| && h[at] == Thread(p, Resume(a, o)) &&
    var s := State(cfg, h[..at]);
    p < |s.calls| && Resumable(s.calls[p])
  }

  ghost predicate ResumeKnown(cfg: Config, h: seq<Step>, p: nat, c: Call)
  {
    c.settled.Some? && c.settled.value.ByResume? ==>
      exists at, a, o :: ResumedAt(cfg, h, p, at, a, o) && Asks(c.settled.value.decision, a, o)
  }

  lemma HostSettles(c: Call, env: Env, outcome: Outcome)
    ensures var d := HostStep(c, env, outcome); d.settled == c.settled || (d.settled.Some? && !d.settled.value.ByResume?)
  {
    hide Passes, IsOverdue, BoxAt, Box, WireCopy, EditedOf;
  }

  lemma OtherSettles(c: Call, o: Other)
    requires CallOk(c)
    ensures var d := OtherStep(c, o);
            || d.settled == c.settled
            || (d.settled.Some? && !d.settled.value.ByResume?)
            || (o.Resume? && Resumable(c) && d.settled.Some? && d.settled.value.ByResume? && Asks(d.settled.value.decision, o.action, o.output))
  {
    hide PhaseOk, HostOk, Box, EditedOf;
  }

  lemma StepSettles(cfg: Config, s: Sys, k: Step, p: nat)
    requires SysOk(s) && p < |s.calls|
    ensures p < |Session.Next(cfg, s, k).calls|
    ensures var c, d := s.calls[p], Session.Next(cfg, s, k).calls[p];
            || d.settled == c.settled
            || (d.settled.Some? && !d.settled.value.ByResume?)
            || (k.Thread? && k.p == p && k.other.Resume? && Resumable(c) && d.settled.Some? && d.settled.value.ByResume?
                && Asks(d.settled.value.decision, k.other.action, k.other.output))
  {
    hide CallOk, HostStep, OtherStep, TurnOk, RecordOk, OfferOk, Asks, Resumable, Allowed, Offer;
    if k.Host? && k.p == p {
      HostSettles(s.calls[p], EnvOf(cfg, s), k.outcome);
    } else if k.Thread? && k.p == p {
      OtherSettles(s.calls[p], k.other);
    } else if k.Hand? && s.transport.Built? && s.transport.p == p {
      OtherSettles(s.calls[p], Begin(HandedRequest(s.transport)));
    }
  }

  lemma ResumeKept(cfg: Config, h: seq<Step>, k: Step, p: nat, c: Call, d: Call)
    requires ResumeKnown(cfg, h, p, c) && d.settled == c.settled
    ensures ResumeKnown(cfg, h + [k], p, d)
  {
    if c.settled.Some? && c.settled.value.ByResume? {
      var at: nat, a: Action, o: Json :| ResumedAt(cfg, h, p, at, a, o) && Asks(c.settled.value.decision, a, o);
      assert (h + [k])[..at] == h[..at];
      assert ResumedAt(cfg, h + [k], p, at, a, o);
    }
  }

  /** Every gate settled by a resume was settled by one that was asked, as it was asked. */
  lemma {:induction false} ResumesKnown(cfg: Config, h: seq<Step>, p: nat)
    requires p < |State(cfg, h).calls|
    ensures ResumeKnown(cfg, h, p, State(cfg, h).calls[p])
    decreases |h|
  {
    hide State, Session.Next, SysOk, Resumable, Asks;
    if h == [] {
      NoCalls(cfg);
      assert false;
    }
    var before, k := h[..|h| - 1], h[|h| - 1];
    assert before + [k] == h;
    StateAfter(cfg, before, k);
    StateOk(cfg, before);
    var s := State(cfg, before);
    if p < |s.calls| {
      ResumesKnown(cfg, before, p);
      StepSettles(cfg, s, k, p);
      if State(cfg, h).calls[p].settled == s.calls[p].settled {
        ResumeKept(cfg, before, k, p, s.calls[p], State(cfg, h).calls[p]);
      } else if k.Thread? && k.p == p && k.other.Resume? {
        assert h[..|before|] == before;
        if Resumable(s.calls[p]) {
          assert ResumedAt(cfg, h, p, |before|, k.other.action, k.other.output);
        }
      }
    } else {
      EntersUnsettled(cfg, s, k, p);
    }
  }

  lemma NoCalls(cfg: Config)
    ensures State(cfg, []).calls == []
  {
  }

  lemma EntersUnsettled(cfg: Config, s: Sys, k: Step, p: nat)
    requires |s.calls| <= p < |Session.Next(cfg, s, k).calls|
    ensures Session.Next(cfg, s, k).calls[p].settled.None?
  {
    hide HostStep, OtherStep, Allowed, Offer;
  }

  /** A resumable gate is settled by the resume at once. */
  lemma ResumeSettles(cfg: Config, s: Sys, p: nat, a: Action, o: Json)
    requires p < |s.calls| && Resumable(s.calls[p]) && HasGate(s.calls[p])
    ensures var d := Session.Next(cfg, s, Thread(p, Resume(a, o))).calls[p];
            && d.settled.Some? && d.settled.value.ByResume? && Asks(d.settled.value.decision, a, o) && !d.held
    ensures var c := s.calls[p]; !Resumable(c) ==> Session.Next(cfg, s, Thread(p, Resume(a, o))).calls[p] == c
  {
  }

  /**
   A host that leaves with a decision of its own got exactly what one resume asked,
   or the edit of a verdict.
   */
  lemma DecisionAsked(cfg: Config, h: seq<Step>, p: nat) returns (at: nat, a: Action, o: Json)
    requires HostLeft(State(cfg, h), p) && State(cfg, h).calls[p].host.decision != CONTINUE
    requires State(cfg, h).calls[p].host.decision.input.None?
    ensures ResumedAt(cfg, h, p, at, a, o) && Asks(State(cfg, h).calls[p].host.decision, a, o)
  {
    hide State, ResumedAt, Asks;
    LeavesPlainly(cfg, h, p);
    ResumesKnown(cfg, h, p);
    VerdictHasInput(State(cfg, h).calls[p]);
    at, a, o :| ResumedAt(cfg, h, p, at, a, o) && Asks(State(cfg, h).calls[p].settled.value.decision, a, o);
  }

  lemma VerdictHasInput(c: Call)
    ensures c.settled.Some? && c.settled.value.ByVerdict? ==> DecisionOf(c.settled.value).input.Some?
    ensures c.settled.Some? && c.settled.value.ByResume? ==> DecisionOf(c.settled.value) == c.settled.value.decision
  {
  }

  // ---- an attached host is told what settled its gate ----

  /** The mailbox a host looks at does not hold the request it has just handled. */
  predicate NewsOnly(c: Call)
  {
    match c.host
    case Reading(handled) => handled.Some? ==> HasGate(c) && Box(c.gate.value) != Requested(handled.value)
    case Checking(box, handled) => handled.Some? ==> BoxAt(c, box) != Requested(handled.value)
    case Waiting(box, handled) => handled.Some? ==> BoxAt(c, box) != Requested(handled.value)
    case _ => true
  }

  predicate NoneCancelled(c: Call) { HasGate(c) ==> forall i | 0 <= i < |c.gate.value.boxes| :: !c.gate.value.boxes[i].Cancelled? }

  /** The host has not given up on its gate. */
  predicate Listening(c: Call)
  {
    && NoneCancelled(c) && NewsOnly(c)
    && !c.host.Discarding? && !c.host.Grace? && (c.host.Finishing? ==> c.host.next.ToReading?)
    && (c.host.Left? ==> c.settled.Some? && c.host.decision == DecisionOf(c.settled.value))
  }

  /** A ticket that is not current is not in the mailbox either. */
  lemma NotInMailbox(c: Call, t: Ticket)
    requires PhaseOk(c) && HasGate(c) && (c.gate.value.ticket != Some(t) || !c.held)
    ensures Box(c.gate.value) != Requested(t)
  {
    hide BoxesOk, CountResumed;
  }

  lemma NewBoxes(c: Call, guard: Guard, cause: Cause, t: Ticket)
    requires PhaseOk(c) && HasGate(c) && NoneCancelled(c)
    ensures NoneCancelled(SettleLocked(c, guard, cause, true)) && NoneCancelled(ReopenLocked(c, t)) && NoneCancelled(Advance(c))
    ensures Passes(c, WithTicket(t)) ==> HasGate(ReopenLocked(c, t)) && Box(ReopenLocked(c, t).gate.value) == Pending
  {
    hide BoxesOk, CountResumed, Passes;
  }

  lemma SameBoxes(c: Call, d: Call)
    ensures d.gate == c.gate && NoneCancelled(c) ==> NoneCancelled(d)
  {
  }

  lemma ReceiveListens(c: Call, box: nat, handled: Option<Ticket>)
    requires CallOk(c) && TurnOk(c) && Listening(c) && (c.host == Checking(box, handled) || c.host == Waiting(box, handled))
    requires c.host.Checking? ==> Done(BoxAt(c, box))
    ensures Listening(Receive(c, BoxAt(c, box), handled))
  {
    hide CountResumed;
    BoxAtOk(c, box);
  }

  lemma VerdictListens(c: Call, env: Env, outcome: Outcome)
    requires CallOk(c) && TurnOk(c) && Listening(c)
    requires c.host.Accepted? || c.host.Completing? || c.host.Refusing? || c.host.Overrun?
    ensures Listening(HostStep(c, env, outcome))
  {
    hide PhaseOk, NoneCancelled, SettleLocked, ReopenLocked, WireCopy, IsOverdue, EditedOf, Box;
    var t := c.host.ticket;
    var d := HostStep(c, env, outcome);
    if !Passes(c, WithTicket(t)) {
      NotInMailbox(c, t);
    }
    var cause := if c.host.Completing? && t < |c.requests| then
                   ByVerdict(t, c.requests[t].action, c.host.value, c.host.copy, c.host.validatedAt, c.host.checkedAt)
                 else ByOverrun;
    NewBoxes(c, WithTicket(t), cause, t);
    SameBoxes(c, d);
    SameBoxes(SettleLocked(c, WithTicket(t), cause, true), d);
    SameBoxes(ReopenLocked(c, t), d);
  }

  lemma FinishListens(c: Call, env: Env, outcome: Outcome)
    requires CallOk(c) && TurnOk(c) && Listening(c) && c.host.Finishing?
    ensures Listening(HostStep(c, env, outcome))
  {
    hide PhaseOk, NoneCancelled, Advance, Box;
    var d := HostStep(c, env, outcome);
    NotInMailbox(c, c.host.next.ticket);
    NewBoxes(c, Always, ByRelease, 0);
    AdvanceKeeps(c);
    SameBoxes(c, d);
  }

  lemma HostListens(c: Call, env: Env, outcome: Outcome)
    requires CallOk(c) && TurnOk(c) && Listening(c) && env.attached
    ensures Listening(HostStep(c, env, outcome))
  {
    hide PhaseOk, NoneCancelled, SettleLocked, ReopenLocked, Advance, Judge, Receive, HostSettle, WireCopy, IsOverdue, CallOk, TurnOk;
    match c.host
    case Prepared => OpeningListens(c, env, outcome);
    case Opened => OpeningListens(c, env, outcome);
    case Reading(_) => OpeningListens(c, env, outcome);
    case Checking(box, handled) =>
      if Done(BoxAt(c, box)) {
        ReceiveListens(c, box, handled);
      } else {
        OpeningListens(c, env, outcome);
      }
    case Waiting(box, handled) => ReceiveListens(c, box, handled);
    case Judging(_) => JudgeListens(c, env, outcome);
    case Finishing(_) => FinishListens(c, env, outcome);
    case Left(_) =>
    case _ => VerdictListens(c, env, outcome);
  }

  lemma OpeningListens(c: Call, env: Env, outcome: Outcome)
    requires CallOk(c) && Listening(c) && env.attached
    requires c.host.Prepared? || c.host.Opened? || c.host.Reading? || (c.host.Checking? && !Done(BoxAt(c, c.host.box)))
    ensures Listening(HostStep(c, env, outcome))
  {
    hide PhaseOk, WireCopy, IsOverdue, Judge, HostSettle, Receive, ReopenLocked, Advance;
  }

  lemma JudgeListens(c: Call, env: Env, outcome: Outcome)
    requires Listening(c) && c.host.Judging?
    ensures Listening(HostStep(c, env, outcome))
  {
    hide WireCopy, IsOverdue, HostSettle, Receive, ReopenLocked, Advance, BoxAt, Box;
  }

  lemma OtherListens(c: Call, o: Other)
    requires CallOk(c) && TurnOk(c) && Listening(c) && !o.Cancel?
    ensures Listening(OtherStep(c, o))
  {
    hide CountResumed, BoxesOk, EditedOf, ResumeDecision;
    match o
    case Resume(action, output) => LockedListens(c, WhileHeld, ByResume(ResumeDecision(action, output)));
    case Release => LockedListens(c, Always, ByRelease);
    case Finish => AdvanceListens(c);
    case Begin(r) => BeginListens(c, r);
  }

  lemma LockedListens(c: Call, guard: Guard, cause: Cause)
    requires CallOk(c) && TurnOk(c) && Listening(c)
    ensures Listening(SettleLocked(c, guard, cause, false))
  {
    hide CountResumed, BoxesOk, EditedOf;
  }

  lemma AdvanceListens(c: Call)
    requires CallOk(c) && TurnOk(c) && Listening(c)
    ensures Listening(Advance(c))
  {
    hide CountResumed, BoxesOk, EditedOf;
  }

  lemma BeginListens(c: Call, r: Request)
    requires CallOk(c) && TurnOk(c) && Listening(c)
    ensures Listening(BeginValidation(c, r))
  {
    hide CountResumed, BoxesOk;
  }

  /** The connection is not lost and the call's waiter not cancelled. */
  predicate Undisturbed(h: seq<Step>, p: nat) { forall i | 0 <= i < |h| :: !h[i].Lose? && h[i] != Thread(p, Cancel) }

  predicate Connected(s: Sys) { s.calls != [] ==> s.attached }

  lemma StaysConnected(cfg: Config, s: Sys, k: Step)
    requires Connected(s) && !k.Lose?
    ensures Connected(Session.Next(cfg, s, k))
  {
    hide HostStep, OtherStep, Allowed, Offer, RefuseEdit;
  }

  lemma StepListens(cfg: Config, s: Sys, k: Step, p: nat)
    requires SysOk(s) && p < |s.calls| && s.attached && Listening(s.calls[p]) && k != Thread(p, Cancel)
    ensures Listening(Session.Next(cfg, s, k).calls[p])
  {
    hide HostStep, OtherStep, CallOk, TurnOk, RecordOk, OfferOk, Allowed, Offer, NoneCancelled, NewsOnly;
    var c := s.calls[p];
    if k.Host? && k.p == p {
      HostListens(c, EnvOf(cfg, s), k.outcome);
    } else if k.Thread? && k.p == p {
      OtherListens(c, k.other);
    } else if k.Hand? && s.transport.Built? && s.transport.p == p {
      OtherListens(c, Begin(HandedRequest(s.transport)));
    } else {
      LogListens(c, Session.Next(cfg, s, k).calls[p]);
    }
  }

  lemma LogListens(c: Call, d: Call)
    requires Listening(c) && d == c.(log := d.log)
    ensures Listening(d)
  {
  }

  lemma EntersListening(cfg: Config, s: Sys, k: Step, p: nat)
    requires |s.calls| <= p < |Session.Next(cfg, s, k).calls|
    ensures Listening(Session.Next(cfg, s, k).calls[p])
  {
    hide HostStep, OtherStep, Allowed, Offer;
  }

  lemma {:induction false} HostsListen(cfg: Config, h: seq<Step>, p: nat)
    requires Undisturbed(h, p)
    ensures Connected(State(cfg, h)) && (p < |State(cfg, h).calls| ==> Listening(State(cfg, h).calls[p]))
    decreases |h|
  {
    hide State, Session.Next, SysOk, Listening;
    if h == [] {
      NoCalls(cfg);
    } else {
      var before, k := h[..|h| - 1], h[|h| - 1];
      assert before + [k] == h;
      assert Undisturbed(before, p);
      StateAfter(cfg, before, k);
      StateOk(cfg, before);
      HostsListen(cfg, before, p);
      StaysConnected(cfg, State(cfg, before), k);
      if p < |State(cfg, h).calls| {
        if p < |State(cfg, before).calls| {
          StepListens(cfg, State(cfg, before), k, p);
        } else {
          EntersListening(cfg, State(cfg, before), k, p);
        }
      }
    }
  }

  /** While the connection lasts and the waiter is not cancelled, a host leaves with exactly what settled its gate. */
  lemma AttachedHostIsTold(cfg: Config, h: seq<Step>, p: nat)
    requires Undisturbed(h, p) && HostLeft(State(cfg, h), p)
    ensures var c := State(cfg, h).calls[p]; c.settled.Some? && c.host.decision == DecisionOf(c.settled.value)
  {
    hide State, DecisionOf;
    HostsListen(cfg, h, p);
  }

  /** So a resume reaches it as it was asked. */
  lemma ResumeIsObeyed(cfg: Config, h: seq<Step>, p: nat) returns (at: nat, a: Action, o: Json)
    requires Undisturbed(h, p) && HostLeft(State(cfg, h), p)
    requires var c := State(cfg, h).calls[p]; c.settled.Some? && c.settled.value.ByResume?
    ensures ResumedAt(cfg, h, p, at, a, o) && Asks(State(cfg, h).calls[p].host.decision, a, o)
  {
    hide State, ResumedAt, Asks;
    AttachedHostIsTold(cfg, h, p);
    ResumesKnown(cfg, h, p);
    VerdictHasInput(State(cfg, h).calls[p]);
    at, a, o :| ResumedAt(cfg, h, p, at, a, o) && Asks(State(cfg, h).calls[p].settled.value.decision, a, o);
  }
}
