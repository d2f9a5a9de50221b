/**
 One held gate: its mailboxes, its ticket, and the host thread that waits on it.

 Every lock-protected section of the gate engine and of the session's waiting
 loop is one step. A settle takes the gate out of the held table in one step,
 and emits `exec.resumed` and resolves the mailbox in later ones.
 */
module Gate {
  import opened Json
  import opened ShrinkSpec

  const VALIDATION_TIMEOUT := 4000

  datatype Point = Before | After | Error
  datatype Action = Continue | Retry | Inject | Abort

  datatype Decision = Decision(action: Action, output: Json, input: Option<Json>)

  const CONTINUE := Decision(Continue, Null, None)

  type Ticket = nat

  /** A mailbox: a future that carries a validation request or the final decision. */
  datatype Content = Pending | Requested(ticket: Ticket) | Final(decision: Decision) | Cancelled

  predicate Done(c: Content) { c != Pending }

  /** A gate's mailboxes so far; the last one is what the host reads next. */
  datatype Gate = Gate(point: Point, openedAt: nat, boxes: seq<Content>, validating: bool, ticket: Option<Ticket>)

  datatype Validator = NoValidator | Function(id: nat)

  /** An edit handed to the host; `at` is the step that let it through. */
  datatype Request = Request(action: Action, proposed: Json, validator: Validator, startedAt: nat, at: nat)

  /** What settled a gate. */
  datatype Cause =
    | ByResume(decision: Decision)
    | ByVerdict(ticket: Ticket, action: Action, value: Json, copy: Json, validatedAt: nat, checkedAt: nat)
    | ByRelease    // the pause timeout, a discard, a detach or the end of the process
    | ByOverrun    // a verdict after the pause deadline

  function DecisionOf(cause: Cause): Decision
  {
    match cause
    case ByResume(d) => d
    case ByVerdict(_, action, value, _, _, _) => Decision(action, Null, Some(value))
    case ByRelease => CONTINUE
    case ByOverrun => CONTINUE
  }

  /** A plain resume: an injected output, or the action alone. */
  function ResumeDecision(action: Action, output: Json): Decision
  {
    Decision(action, if action == Inject then output else Null, None)
  }

  datatype Settling = Settling(emitted: bool, byHost: bool)

  datatype Emitted = Paused(editable: bool) | Resumed(action: Action, edited: Option<Json>) | Refused

  /** Where the host thread of a gate call is. */
  datatype Host =
    | Prepared                                        // decided to hold, not registered yet
    | Opened                                          // registered, exec.paused not emitted yet
    | Reading(handled: Option<Ticket>)
    | Checking(box: nat, handled: Option<Ticket>)
    | Waiting(box: nat, handled: Option<Ticket>)
    | Judging(ticket: Ticket)                         // the validator runs
    | Accepted(ticket: Ticket, value: Json, copy: Json, validatedAt: nat)
    | Completing(ticket: Ticket, value: Json, copy: Json, validatedAt: nat, checkedAt: nat)
    | Refusing(ticket: Ticket)
    | Overrun(ticket: Ticket)
    | Discarding(leave: bool)
    | Finishing(next: Next)                           // its own settle is not over yet
    | Grace
    | Left(decision: Decision)

  datatype Next = ToReading(ticket: Ticket) | ToGrace | ToLeave

  function Go(n: Next): Host
  {
    match n
    case ToReading(t) => Reading(Some(t))
    case ToGrace => Grace
    case ToLeave => Left(CONTINUE)
  }

  datatype Call = Call(
    host: Host,
    point: Point,
    offer: Option<Validator>,       // what the hold will register, when it is offered as editable
    gate: Option<Gate>,
    held: bool,
    editable: Option<Validator>,    // the entry in the table of editable pauses
    requests: seq<Request>,
    settling: Option<Settling>,
    settled: Option<Cause>,
    log: seq<Emitted>)

  function NewCall(point: Point, offer: Option<Validator>): Call
  {
    Call(Prepared, point, offer, None, false, None, [], None, None, [])
  }

  function Box(g: Gate): Content
    requires g.boxes != []
  {
    g.boxes[|g.boxes| - 1]
  }

  function SetBox(g: Gate, c: Content): Gate
    requires g.boxes != []
  {
    g.(boxes := g.boxes[|g.boxes| - 1 := c])
  }

  predicate HasGate(c: Call) { c.gate.Some? && c.gate.value.boxes != [] }

  // ---- the engine's steps on one gate ----

  datatype Guard = Always | WhileHeld | WithTicket(ticket: Ticket)

  predicate Passes(c: Call, guard: Guard)
  {
    c.held && HasGate(c) &&
    match guard
    case Always => true
    case WhileHeld => !c.gate.value.validating
    case WithTicket(t) => c.gate.value.ticket == Some(t)
  }

  /** The locked part of a settle: the gate leaves the table, and gets a fresh mailbox if its last is done. */
  function SettleLocked(c: Call, guard: Guard, cause: Cause, byHost: bool): Call
  {
    if !Passes(c, guard) then c
    else
      var g := c.gate.value;
      c.(held := false,
         gate := Some(g.(ticket := None, boxes := if Done(Box(g)) then g.boxes + [Pending] else g.boxes)),
         settling := Some(Settling(false, byHost)),
         settled := Some(cause))
  }

  function EditedOf(cause: Cause): Option<Json> { if cause.ByVerdict? then Some(cause.copy) else None }

  /** Outside the lock: exec.resumed, then the mailbox. */
  function Advance(c: Call): Call
  {
    if c.settling.None? || c.settled.None? || !HasGate(c) then c
    else if !c.settling.value.emitted then
      c.(settling := Some(c.settling.value.(emitted := true)), editable := None,
         log := c.log + [Resumed(DecisionOf(c.settled.value).action, EditedOf(c.settled.value))])
    else
      var g := c.gate.value;
      c.(settling := None,
         gate := Some(if Box(g) == Pending then SetBox(g, Final(DecisionOf(c.settled.value))) else g))
  }

  /** held -> validating: the request goes to the host through the mailbox. */
  function BeginValidation(c: Call, r: Request): Call
  {
    if !Passes(c, WhileHeld) || Done(Box(c.gate.value)) then c
    else
      var t := |c.requests|;
      c.(requests := c.requests + [r], gate := Some(SetBox(c.gate.value, Requested(t)).(validating := true, ticket := Some(t))))
  }

  /** validating -> held, with a fresh mailbox. */
  function ReopenLocked(c: Call, t: Ticket): Call
  {
    if !Passes(c, WithTicket(t)) then c
    else
      var g := c.gate.value;
      c.(gate := Some(g.(validating := false, ticket := None, boxes := g.boxes + [Pending])))
  }

  predicate IsOverdue(g: Gate, now: nat, timeout: Option<nat>) { timeout.Some? && now >= g.openedAt + timeout.value }

  function CancelBox(c: Call): Call
  {
    if HasGate(c) && Box(c.gate.value) == Pending then c.(gate := Some(SetBox(c.gate.value, Cancelled))) else c
  }

  // ---- the host's steps ----

  /** `hostForm`: what the serializer makes of a value with host objects in it, if it makes anything. */
  datatype Env = Env(attached: bool, now: nat, timeout: Option<nat>, step: nat, hostForm: Json -> Option<Json>)

  datatype Outcome = Accept(value: Json) | Refuse

  /** A round trip through the event serializer; a value with no JSON form has none. */
  function WireCopy(v: Json, hostForm: Json -> Option<Json>): Option<Json> { if Serializable(v) then Some(Plain(v)) else hostForm(v) }

  function Hold(c: Call, now: nat): Call
  {
    c.(host := Opened, held := true, gate := Some(Gate(c.point, now, [Pending], false, None)))
  }

  /** on_paused: an editable pause is registered first. */
  function Announce(c: Call): Call
  {
    c.(host := Reading(None), editable := if c.offer.Some? then c.offer else c.editable,
       log := c.log + [Paused(c.offer.Some?)])
  }

  /** What the host does with a mailbox that is done. */
  function Receive(c: Call, content: Content, handled: Option<Ticket>): Call
  {
    match content
    case Final(d) => c.(host := Left(d))
    case Requested(t) => c.(host := if handled == Some(t) then Discarding(true) else Judging(t))
    case Cancelled => c.(host := Discarding(false))
    case Pending => c.(host := Reading(handled))
  }

  function BoxAt(c: Call, box: nat): Content { if HasGate(c) && box < |c.gate.value.boxes| then c.gate.value.boxes[box] else Cancelled }

  /** The verdict, refused when it came too late or cannot be recorded. */
  function Judge(c: Call, t: Ticket, env: Env, outcome: Outcome): Call
  {
    if t >= |c.requests| then c.(host := Refusing(t))
    else
      var r := c.requests[t];
      var result := if r.validator.NoValidator? then Accept(r.proposed) else outcome;
      if env.now >= r.startedAt + VALIDATION_TIMEOUT || result.Refuse? || WireCopy(result.value, env.hostForm).None? then c.(host := Refusing(t))
      else c.(host := Accepted(t, result.value, WireCopy(result.value, env.hostForm).value, env.step))
  }

  /** A settle by the host: it goes on once the settle is over. */
  function HostSettle(c: Call, guard: Guard, cause: Cause, next: Next): Call
  {
    if Passes(c, guard) then SettleLocked(c, guard, cause, true).(host := Finishing(next)) else c.(host := Go(next))
  }

  function HostStep(c: Call, env: Env, outcome: Outcome): Call
  {
    match c.host
    case Prepared => Hold(c, env.now)
    case Opened => Announce(c)
    case Reading(handled) => if HasGate(c) then c.(host := Checking(|c.gate.value.boxes| - 1, handled)) else c
    case Checking(box, handled) =>
      if Done(BoxAt(c, box)) then Receive(c, BoxAt(c, box), handled)
      else if !env.attached then c.(host := Discarding(false))
      else c.(host := Waiting(box, handled))
    case Waiting(box, handled) => Receive(c, BoxAt(c, box), handled)
    case Judging(t) => Judge(c, t, env, outcome)
    case Accepted(t, value, copy, at) =>
      if !Passes(c, WithTicket(t)) then c.(host := Reading(Some(t)))
      else if IsOverdue(c.gate.value, env.now, env.timeout) then c.(host := Overrun(t))
      else c.(host := Completing(t, value, copy, at, env.step))
    case Completing(t, value, copy, at, checked) =>
      if t >= |c.requests| then c.(host := Reading(Some(t)))
      else HostSettle(c, WithTicket(t), ByVerdict(t, c.requests[t].action, value, copy, at, checked), ToReading(t))
    case Refusing(t) =>
      if !Passes(c, WithTicket(t)) then c.(host := Reading(Some(t)))
      else if IsOverdue(c.gate.value, env.now, env.timeout) then c.(host := Overrun(t))
      else ReopenLocked(c, t).(host := Reading(Some(t)), log := c.log + [Refused])
    case Overrun(t) => HostSettle(c, WithTicket(t), ByOverrun, ToReading(t))
    case Discarding(leave) => HostSettle(c, Always, ByRelease, if leave then ToLeave else ToGrace)
    case Finishing(next) => if c.settling.Some? then Advance(c) else c.(host := Go(next))
    case Grace =>
      if HasGate(c) && Box(c.gate.value).Final? then c.(host := Left(Box(c.gate.value).decision)) else c.(host := Left(CONTINUE))
    case Left(_) => c
  }

  /** A step of another thread on this gate. */
  datatype Other =
    | Resume(action: Action, output: Json)
    | Release
    | Finish              // the rest of a settle the host did not do
    | Cancel              // an abandoned waiter cancels the mailbox
    | Begin(request: Request)

  function OtherStep(c: Call, o: Other): Call
  {
    match o
    case Resume(action, output) => SettleLocked(c, WhileHeld, ByResume(ResumeDecision(action, output)), false)
    case Release => SettleLocked(c, Always, ByRelease, false)
    case Finish => if c.settling.Some? && !c.settling.value.byHost then Advance(c) else c
    case Cancel => CancelBox(c)
    case Begin(r) => BeginValidation(c, r)
  }

  // ---- the invariant ----

  function CountResumed(log: seq<Emitted>): nat
  {
    if log == [] then 0 else (if log[|log| - 1].Resumed? then 1 else 0) + CountResumed(log[..|log| - 1])
  }

  predicate ValidTicket(c: Call, t: Ticket) { t < |c.requests| }

  /** A box that was replaced is done, and never with a decision. */
  predicate Replaced(c: Call, content: Content)
  {
    content.Cancelled? || (content.Requested? && ValidTicket(c, content.ticket))
  }

  predicate BoxesOk(c: Call)
    requires HasGate(c)
  {
    var boxes := c.gate.value.boxes;
    && (forall i | 0 <= i < |boxes| - 1 :: Replaced(c, boxes[i]))
    && (boxes[|boxes| - 1].Requested? ==> ValidTicket(c, boxes[|boxes| - 1].ticket))
  }

  /** Exactly one of: not registered, held, being settled, released. */
  predicate PhaseOk(c: Call)
  {
    if !HasGate(c) then !c.held && c.settling.None? && c.settled.None? && CountResumed(c.log) == 0
    else
      var g := c.gate.value;
      && BoxesOk(c)
      && (c.held <==> c.settled.None?)
      && (c.held ==>
            && c.settling.None? && CountResumed(c.log) == 0
            && (g.validating <==> g.ticket.Some?)
            && (g.ticket.Some? ==> Box(g) == Requested(g.ticket.value))
            && (g.ticket.None? ==> Box(g).Pending? || Box(g).Cancelled?))
      && (!c.held ==> g.ticket.None?)
      && (c.settling.Some? ==>
            && (Box(g).Pending? || Box(g).Cancelled?)
            && CountResumed(c.log) == if c.settling.value.emitted then 1 else 0)
      && (!c.held && c.settling.None? ==>
            && (Box(g) == Final(DecisionOf(c.settled.value)) || Box(g).Cancelled?)
            && CountResumed(c.log) == 1)
  }

  predicate HostOk(c: Call)
  {
    && ((c.host.Prepared? <==> !HasGate(c)) && (c.host.Prepared? ==> c.gate.None?))
    && (c.settled.Some? && c.settled.value.ByVerdict? ==> ValidTicket(c, c.settled.value.ticket))
    && (c.settled.Some? && c.settled.value.ByResume? ==> c.settled.value.decision.input.None?)
    && match c.host
       case Checking(box, _) => box < |c.gate.value.boxes|
       case Waiting(box, _) => box < |c.gate.value.boxes|
       case Judging(t) => ValidTicket(c, t)
       case Accepted(t, _, _, _) => ValidTicket(c, t)
       case Completing(t, _, _, _, _) => ValidTicket(c, t)
       case Finishing(_) => c.settled.Some?
       case Grace => c.settled.Some?
       case Left(d) => c.settled.Some? && (d == CONTINUE || (d == DecisionOf(c.settled.value) && c.settling.None?))
       case _ => true
  }

  predicate CallOk(c: Call) { PhaseOk(c) && HostOk(c) }

  lemma CountAppend(log: seq<Emitted>, e: Emitted)
    ensures CountResumed(log + [e]) == CountResumed(log) + if e.Resumed? then 1 else 0
  {
    assert (log + [e])[..|log|] == log;
  }

  lemma NewCallOk(point: Point, offer: Option<Validator>)
    ensures CallOk(NewCall(point, offer))
  {
  }

  lemma SettleOk(c: Call, guard: Guard, cause: Cause, byHost: bool)
    requires PhaseOk(c)
    ensures PhaseOk(SettleLocked(c, guard, cause, byHost))
  {
  }

  lemma AdvanceOk(c: Call)
    requires PhaseOk(c)
    ensures PhaseOk(Advance(c))
  {
    if c.settling.Some? && !c.settling.value.emitted {
      CountAppend(c.log, Resumed(DecisionOf(c.settled.value).action, EditedOf(c.settled.value)));
    }
  }

  lemma BeginOk(c: Call, r: Request)
    requires PhaseOk(c)
    ensures PhaseOk(BeginValidation(c, r))
  {
  }

  lemma ReopenOk(c: Call, t: Ticket)
    requires PhaseOk(c)
    ensures PhaseOk(ReopenLocked(c, t))
    ensures var d := ReopenLocked(c, t);
            d.requests == c.requests && d.log == c.log && d.settled == c.settled && (HasGate(c) ==> HasGate(d))
  {
  }

  /** The invariant of the gate does not depend on where the host is. */
  lemma PhaseSame(c: Call, d: Call)
    requires PhaseOk(c)
    requires d.gate == c.gate && d.held == c.held && d.settling == c.settling && d.settled == c.settled
    requires d.requests == c.requests && CountResumed(d.log) == CountResumed(c.log)
    ensures PhaseOk(d)
  {
    hide CountResumed;
  }

  lemma CancelOk(c: Call)
    requires PhaseOk(c)
    ensures PhaseOk(CancelBox(c))
  {
  }

  lemma OtherOk(c: Call, o: Other)
    requires CallOk(c)
    ensures CallOk(OtherStep(c, o))
  {
    match o
    case Resume(action, output) => SettleOk(c, WhileHeld, ByResume(ResumeDecision(action, output)), false);
    case Release => SettleOk(c, Always, ByRelease, false);
    case Finish => AdvanceOk(c);
    case Cancel => CancelOk(c);
    case Begin(r) => BeginOk(c, r);
  }

  lemma ReceiveOk(c: Call, content: Content, handled: Option<Ticket>)
    requires CallOk(c) && HasGate(c)
    requires content.Requested? ==> ValidTicket(c, content.ticket)
    requires content.Final? ==> c.settled.Some? && content.decision == DecisionOf(c.settled.value) && c.settling.None?
    ensures CallOk(Receive(c, content, handled))
  {
  }

  /** What a box of the gate may hold. */
  lemma BoxAtOk(c: Call, box: nat)
    requires PhaseOk(c) && HasGate(c)
    ensures var content := BoxAt(c, box);
            && (content.Requested? ==> ValidTicket(c, content.ticket))
            && (content.Final? ==> c.settled.Some? && content.decision == DecisionOf(c.settled.value) && c.settling.None?)
  {
  }

  lemma HostSettleOk(c: Call, guard: Guard, cause: Cause, next: Next)
    requires CallOk(c) && HasGate(c)
    requires (cause.ByVerdict? ==> ValidTicket(c, cause.ticket)) && !cause.ByResume?
    requires next.ToReading? || guard == Always
    ensures CallOk(HostSettle(c, guard, cause, next))
  {
    var d := HostSettle(c, guard, cause, next);
    SettleOk(c, guard, cause, true);
    SettledBy(c, guard, cause);
    hide PhaseOk, SettleLocked, Passes;
    if Passes(c, guard) {
      PhaseSame(SettleLocked(c, guard, cause, true), d);
    } else {
      PhaseSame(c, d);
    }
  }

  lemma SettledBy(c: Call, guard: Guard, cause: Cause)
    requires PhaseOk(c) && HasGate(c)
    ensures var d := SettleLocked(c, guard, cause, true);
            && (Passes(c, guard) ==> d.settled == Some(cause) && HasGate(d) && d.requests == c.requests)
            && (!Passes(c, guard) && guard == Always ==> c.settled.Some?)
  {
    hide CountResumed, BoxesOk;
  }

  lemma OpeningOk(c: Call, env: Env, outcome: Outcome)
    requires CallOk(c) && (c.host.Prepared? || c.host.Opened?)
    ensures CallOk(HostStep(c, env, outcome))
  {
    hide WireCopy, Receive, Judge, HostSettle, Advance, ReopenLocked, SettleLocked, IsOverdue, CountResumed;
    CountAppend(c.log, Paused(c.offer.Some?));
  }

  lemma VerdictOk(c: Call, env: Env, outcome: Outcome)
    requires CallOk(c) && (c.host.Judging? || c.host.Accepted? || c.host.Refusing?)
    ensures CallOk(HostStep(c, env, outcome))
  {
    hide WireCopy, Hold, Announce, Receive, HostSettle, Advance, ReopenLocked, SettleLocked, IsOverdue, CountResumed;
    hide PhaseOk;
    var d := HostStep(c, env, outcome);
    if c.host.Refusing? && Passes(c, WithTicket(c.host.ticket)) && !IsOverdue(c.gate.value, env.now, env.timeout) {
      CountAppend(c.log, Refused);
      ReopenOk(c, c.host.ticket);
      PhaseSame(ReopenLocked(c, c.host.ticket), d);
    } else {
      PhaseSame(c, d);
    }
  }

  lemma AdvanceKeeps(c: Call)
    requires HasGate(c)
    ensures var d := Advance(c);
            && d.host == c.host && d.requests == c.requests && d.settled == c.settled
            && d.held == c.held && HasGate(d) && d.gate.value.ticket == c.gate.value.ticket
            && |d.gate.value.boxes| == |c.gate.value.boxes|
  {
    hide CountResumed;
  }

  lemma EndingOk(c: Call, env: Env, outcome: Outcome)
    requires CallOk(c) && (c.host.Finishing? || c.host.Grace? || c.host.Left?)
    ensures CallOk(HostStep(c, env, outcome))
  {
    hide WireCopy, Hold, Announce, Receive, Judge, HostSettle, Advance, ReopenLocked, SettleLocked, IsOverdue, CountResumed;
    if c.host.Finishing? && c.settling.Some? {
      hide PhaseOk;
      AdvanceOk(c);
      AdvanceKeeps(c);
    }
  }

  lemma HostStepOk(c: Call, env: Env, outcome: Outcome)
    requires CallOk(c)
    ensures CallOk(HostStep(c, env, outcome))
  {
    hide WireCopy, Announce, Judge, Advance, ReopenLocked, SettleLocked, IsOverdue, CountResumed, PhaseOk;
    match c.host
    case Prepared => OpeningOk(c, env, outcome);
    case Opened => OpeningOk(c, env, outcome);
    case Reading(_) => PhaseSame(c, HostStep(c, env, outcome));
    case Checking(box, handled) =>
      if !Done(BoxAt(c, box)) {
        PhaseSame(c, HostStep(c, env, outcome));
      }
      BoxAtOk(c, box);
      ReceiveOk(c, BoxAt(c, box), handled);
    case Waiting(box, handled) =>
      BoxAtOk(c, box);
      ReceiveOk(c, BoxAt(c, box), handled);
    case Judging(_) => VerdictOk(c, env, outcome);
    case Accepted(_, _, _, _) => VerdictOk(c, env, outcome);
    case Completing(t, value, copy, at, checked) =>
      HostSettleOk(c, WithTicket(t), ByVerdict(t, c.requests[t].action, value, copy, at, checked), ToReading(t));
    case Refusing(_) => VerdictOk(c, env, outcome);
    case Overrun(t) => HostSettleOk(c, WithTicket(t), ByOverrun, ToReading(t));
    case Discarding(leave) => HostSettleOk(c, Always, ByRelease, if leave then ToLeave else ToGrace);
    case Finishing(_) => EndingOk(c, env, outcome);
    case Grace => EndingOk(c, env, outcome);
    case Left(_) => EndingOk(c, env, outcome);
  }

  // ---- what the invariant gives ----

  /** A verdict whose ticket is not the gate's current one changes nothing. */
  lemma StaleTicketInert(c: Call, t: Ticket, cause: Cause, byHost: bool)
    requires HasGate(c) && c.gate.value.ticket != Some(t)
    ensures SettleLocked(c, WithTicket(t), cause, byHost) == c && ReopenLocked(c, t) == c
  {
  }

  /** A mailbox is replaced only when it is done, and boxes are never taken back. */
  predicate BoxesGrow(c: Call, d: Call)
  {
    HasGate(c) ==>
      && HasGate(d) && |d.gate.value.boxes| >= |c.gate.value.boxes|
      && (|d.gate.value.boxes| > |c.gate.value.boxes| ==> Done(Box(c.gate.value)))
      && forall i | 0 <= i < |c.gate.value.boxes| && Done(c.gate.value.boxes[i]) :: d.gate.value.boxes[i] == c.gate.value.boxes[i]
  }

  /** A gate is settled once, and gets a new ticket only for a new request. */
  predicate SettlesOnce(c: Call, d: Call)
  {
    && (c.settled.Some? ==> d.settled == c.settled && !d.held)
    && (HasGate(c) ==>
          && HasGate(d)
          && (d.gate.value.ticket.None? || d.gate.value.ticket == c.gate.value.ticket
              || d.gate.value.ticket == Some(|c.requests|)))
  }

  predicate Follows(c: Call, d: Call) { BoxesGrow(c, d) && SettlesOnce(c, d) }

  lemma SettleFollows(c: Call, guard: Guard, cause: Cause, byHost: bool)
    requires PhaseOk(c)
    ensures Follows(c, SettleLocked(c, guard, cause, byHost))
  {
    hide CountResumed, BoxesOk;
  }

  lemma AdvanceFollows(c: Call)
    requires PhaseOk(c)
    ensures Follows(c, Advance(c))
  {
    hide CountResumed, BoxesOk;
  }

  lemma ReopenFollows(c: Call, t: Ticket)
    requires PhaseOk(c)
    ensures Follows(c, ReopenLocked(c, t))
  {
    hide CountResumed, BoxesOk;
  }

  lemma OtherFollows(c: Call, o: Other)
    requires CallOk(c)
    ensures Follows(c, OtherStep(c, o))
  {
    hide CountResumed, BoxesOk, SettleLocked, Advance;
    match o
    case Resume(action, output) => SettleFollows(c, WhileHeld, ByResume(ResumeDecision(action, output)), false);
    case Release => SettleFollows(c, Always, ByRelease, false);
    case Finish => AdvanceFollows(c);
    case Cancel =>
    case Begin(_) =>
  }

  lemma ItselfFollows(c: Call)
    requires PhaseOk(c)
    ensures Follows(c, c)
  {
    hide CountResumed, BoxesOk;
  }

  /** Only the gate itself matters. */
  lemma SameFollows(c: Call, d: Call, e: Call)
    requires Follows(c, d) && e.gate == d.gate && e.held == d.held && e.settled == d.settled
    ensures Follows(c, e)
  {
  }

  lemma HostFollows(c: Call, env: Env, outcome: Outcome)
    requires CallOk(c)
    ensures Follows(c, HostStep(c, env, outcome))
  {
    hide PhaseOk, HostOk, HasGate, Follows, Box, Passes, BoxAt, Done, SettleLocked, Advance, ReopenLocked, WireCopy, IsOverdue;
    var d := HostStep(c, env, outcome);
    ItselfFollows(c);
    if c.host.Prepared? {
      PreparedFollows(c, env.now);
    } else if c.host.Finishing? && c.settling.Some? {
      AdvanceFollows(c);
    } else if c.host.Refusing? {
      ReopenFollows(c, c.host.ticket);
      SameFollows(c, if d.log == c.log then c else ReopenLocked(c, c.host.ticket), d);
    } else if c.host.Completing? || c.host.Overrun? || c.host.Discarding? {
      HostSettleFollows(c, env, outcome);
    } else {
      SameFollows(c, c, d);
    }
  }

  lemma PreparedFollows(c: Call, now: nat)
    requires CallOk(c) && c.host.Prepared?
    ensures Follows(c, Hold(c, now))
  {
    hide CountResumed, BoxesOk;
  }

  lemma HostSettleFollows(c: Call, env: Env, outcome: Outcome)
    requires CallOk(c) && (c.host.Completing? || c.host.Overrun? || c.host.Discarding?)
    ensures Follows(c, HostStep(c, env, outcome))
  {
    hide PhaseOk, HostOk, Follows, Passes, SettleLocked;
    var d := HostStep(c, env, outcome);
    ItselfFollows(c);
    var (guard, cause) := match c.host
      case Completing(t, value, copy, at, checked) =>
        (WithTicket(t), if t < |c.requests| then ByVerdict(t, c.requests[t].action, value, copy, at, checked) else ByOverrun)
      case Overrun(t) => (WithTicket(t), ByOverrun)
      case _ => (Always, ByRelease);
    SettleFollows(c, guard, cause, true);
    SameFollows(c, if d.gate == c.gate && d.held == c.held && d.settled == c.settled then c else SettleLocked(c, guard, cause, true), d);
  }

  /** A ticket that is stale, or whose gate was settled, is never current again. */
  lemma StaleTicketStays(c: Call, t: Ticket, env: Env, outcome: Outcome, o: Other)
    requires CallOk(c) && HasGate(c) && ValidTicket(c, t) && c.gate.value.ticket != Some(t)
    ensures HasGate(HostStep(c, env, outcome)) && HostStep(c, env, outcome).gate.value.ticket != Some(t)
    ensures HasGate(OtherStep(c, o)) && OtherStep(c, o).gate.value.ticket != Some(t)
  {
    hide CallOk, HostStep, OtherStep, BoxesGrow;
    HostFollows(c, env, outcome);
    OtherFollows(c, o);
  }

  /** Once settled a gate stays settled, by the same cause. */
  lemma SettledOnce(c: Call, env: Env, outcome: Outcome, o: Other)
    requires CallOk(c) && c.settled.Some?
    ensures HostStep(c, env, outcome).settled == c.settled && OtherStep(c, o).settled == c.settled
    ensures !HostStep(c, env, outcome).held && !OtherStep(c, o).held
  {
    hide CallOk, HostStep, OtherStep, BoxesGrow;
    HostFollows(c, env, outcome);
    OtherFollows(c, o);
  }

  /** exec.resumed goes out at most once, and exactly once by the time the settle is over. */
  lemma ReleasedExactlyOnce(c: Call)
    requires CallOk(c)
    ensures CountResumed(c.log) <= 1
    ensures c.settled.None? ==> CountResumed(c.log) == 0
    ensures c.settled.Some? && c.settling.None? ==> CountResumed(c.log) == 1
    ensures c.host.Left? ==> c.settled.Some? && !c.held
  {
  }

  lemma OtherBoxesGrow(c: Call, o: Other)
    requires CallOk(c)
    ensures BoxesGrow(c, OtherStep(c, o))
  {
    hide CallOk, OtherStep, BoxesGrow;
    OtherFollows(c, o);
  }

  lemma HostBoxesGrow(c: Call, env: Env, outcome: Outcome)
    requires CallOk(c)
    ensures BoxesGrow(c, HostStep(c, env, outcome))
  {
    hide CallOk, HostStep, BoxesGrow;
    HostFollows(c, env, outcome);
  }

  /** The box a host waits on is done, or is the gate's own and still to be resolved. */
  lemma NeverAbandoned(c: Call)
    requires CallOk(c) && (c.host.Waiting? || c.host.Checking?)
    ensures var b := c.host.box;
            Done(BoxAt(c, b)) || (b == |c.gate.value.boxes| - 1 && (c.held || c.settling.Some?))
  {
  }

  // ---- a detached host leaves ----

  function Count(handled: Option<Ticket>): nat { if handled.None? then 0 else handled.value + 1 }

  /** How many requests the host has taken up. */
  function HandledCount(h: Host): nat
  {
    match h
    case Reading(handled) => Count(handled)
    case Checking(_, handled) => Count(handled)
    case Waiting(_, handled) => Count(handled)
    case Judging(t) => t + 1
    case Accepted(t, _, _, _) => t + 1
    case Completing(t, _, _, _, _) => t + 1
    case Refusing(t) => t + 1
    case Overrun(t) => t + 1
    case Finishing(next) => if next.ToReading? then next.ticket + 1 else 0
    case _ => 0
  }

  predicate Leaving(h: Host) { h.Discarding? || h.Grace? || h.Left? || (h.Finishing? && !h.next.ToReading?) }

  function Stage(c: Call): nat { if c.settling.None? then 0 else if c.settling.value.emitted then 1 else 2 }

  function HostRank(c: Call): nat
  {
    match c.host
    case Left(_) => 0
    case Grace => 1
    case Finishing(next) => (if next.ToReading? then 9 else 2) + Stage(c)
    case Discarding(_) => 5
    case Checking(_, _) => 6
    case Reading(_) => 7
    case Waiting(_, _) => 8
    case Opened => 8
    case Prepared => 9
    case Completing(_, _, _, _, _) => 12
    case Overrun(_) => 12
    case Accepted(_, _, _, _) => 13
    case Refusing(_) => 13
    case Judging(_) => 14
  }

  /** Steps of its own a detached host is at most away from leaving. */
  function Rank(c: Call): int
  {
    HostRank(c) + if Leaving(c.host) then 0 else 20 * (|c.requests| - HandledCount(c.host))
  }

  predicate Latest(c: Call, content: Content) { content.Requested? ==> content.ticket == |c.requests| - 1 }

  /** A host only ever finds the latest request. */
  predicate TurnOk(c: Call)
  {
    && (HasGate(c) ==> Latest(c, Box(c.gate.value)))
    && (!HasGate(c) ==> c.requests == [])
    && HandledCount(c.host) <= |c.requests|
    && (c.host.Finishing? ==> !c.held)
    && (c.host.Checking? || c.host.Waiting? ==>
          && HasGate(c)
          && (c.held ==> c.host.box == |c.gate.value.boxes| - 1)
          && Latest(c, BoxAt(c, c.host.box)))
  }

  lemma TurnSettled(c: Call, guard: Guard, cause: Cause, byHost: bool)
    requires CallOk(c) && TurnOk(c)
    ensures var r := SettleLocked(c, guard, cause, byHost); (c.host.Finishing? ==> r == c) && TurnOk(r)
    ensures Rank(SettleLocked(c, guard, cause, byHost)) <= Rank(c)
  {
    hide CountResumed, BoxesOk;
  }

  lemma TurnAdvanced(c: Call)
    requires CallOk(c) && TurnOk(c)
    ensures TurnOk(Advance(c))
    ensures Rank(Advance(c)) <= Rank(c) && (c.settling.Some? && c.host.Finishing? ==> Rank(Advance(c)) < Rank(c))
  {
    hide CountResumed, BoxesOk;
  }

  lemma TurnOther(c: Call, o: Other)
    requires CallOk(c) && TurnOk(c)
    ensures TurnOk(OtherStep(c, o))
    ensures !o.Begin? ==> Rank(OtherStep(c, o)) <= Rank(c)
  {
    hide CountResumed, BoxesOk, SettleLocked, Advance, Rank, TurnOk;
    match o
    case Resume(action, output) => TurnSettled(c, WhileHeld, ByResume(ResumeDecision(action, output)), false);
    case Release => TurnSettled(c, Always, ByRelease, false);
    case Finish => TurnAdvanced(c);
    case Cancel => TurnCancel(c);
    case Begin(r) => TurnBegin(c, r);
  }

  lemma TurnCancel(c: Call)
    requires CallOk(c) && TurnOk(c)
    ensures TurnOk(CancelBox(c)) && Rank(CancelBox(c)) <= Rank(c)
  {
    hide CountResumed, BoxesOk;
  }

  lemma TurnBegin(c: Call, r: Request)
    requires CallOk(c) && TurnOk(c)
    ensures TurnOk(BeginValidation(c, r))
  {
    hide CountResumed, BoxesOk;
  }

  lemma TurnReceive(c: Call, handled: Option<Ticket>, box: nat)
    requires CallOk(c) && TurnOk(c) && (c.host == Checking(box, handled) || c.host == Waiting(box, handled))
    ensures var r := Receive(c, BoxAt(c, box), handled);
            && TurnOk(r)
            && (Done(BoxAt(c, box)) ==> 0 <= Rank(r) < Rank(c))
            && (c.host.Waiting? ==> 0 <= Rank(r) < Rank(c))
  {
    hide CountResumed, WireCopy, BoxesOk, HostOk, BoxAt, IsOverdue, Judge, HostSettle;
    BoxAtOk(c, box);
  }

  lemma TurnLooked(c: Call, env: Env, outcome: Outcome)
    requires CallOk(c) && TurnOk(c) && c.host.Checking? && !Done(BoxAt(c, c.host.box))
    ensures var r := HostStep(c, env, outcome); TurnOk(r) && (!env.attached ==> 0 <= Rank(r) < Rank(c))
  {
    hide CountResumed, WireCopy, BoxesOk, IsOverdue, Judge, HostSettle;
  }

  lemma TurnLocked(c: Call, guard: Guard, cause: Cause)
    requires TurnOk(c) && Passes(c, guard)
    ensures var d := SettleLocked(c, guard, cause, true);
            && HasGate(d) && Latest(d, Box(d.gate.value)) && !d.held && d.requests == c.requests
            && d.settling == Some(Settling(false, true))
  {
  }

  lemma TurnSettle(c: Call, guard: Guard, cause: Cause, next: Next)
    requires CallOk(c) && TurnOk(c) && HasGate(c)
    requires next.ToReading? ==> (c.host.Completing? || c.host.Overrun?) && c.host.ticket == next.ticket
    requires !next.ToReading? ==> c.host.Discarding?
    ensures var r := HostSettle(c, guard, cause, next); TurnOk(r) && 0 <= Rank(r) < Rank(c)
  {
    hide CallOk, Passes, SettleLocked, Box;
    if Passes(c, guard) {
      TurnLocked(c, guard, cause);
    }
  }

  lemma TurnVerdict(c: Call, env: Env, outcome: Outcome)
    requires CallOk(c) && TurnOk(c) && (c.host.Judging? || c.host.Accepted? || c.host.Refusing?)
    ensures var r := HostStep(c, env, outcome); TurnOk(r) && 0 <= Rank(r) < Rank(c)
  {
    hide PhaseOk, HostOk, WireCopy, IsOverdue, Hold, Announce, Receive, HostSettle, Advance;
  }

  lemma TurnOpening(c: Call, env: Env, outcome: Outcome)
    requires CallOk(c) && TurnOk(c) && (c.host.Prepared? || c.host.Opened? || c.host.Reading?)
    ensures var r := HostStep(c, env, outcome); TurnOk(r) && 0 <= Rank(r) < Rank(c)
  {
    hide CountResumed, WireCopy, BoxesOk;
  }

  lemma TurnEnding(c: Call, env: Env, outcome: Outcome)
    requires CallOk(c) && TurnOk(c) && (c.host.Finishing? || c.host.Grace?)
    ensures var r := HostStep(c, env, outcome); TurnOk(r) && 0 <= Rank(r) < Rank(c)
  {
    hide CountResumed, WireCopy, BoxesOk, HostOk, BoxAt, IsOverdue, Judge, HostSettle;
  }

  lemma TurnHost(c: Call, env: Env, outcome: Outcome)
    requires CallOk(c) && TurnOk(c)
    ensures TurnOk(HostStep(c, env, outcome))
    ensures !env.attached && !c.host.Left? ==> 0 <= Rank(HostStep(c, env, outcome)) < Rank(c)
  {
    hide CountResumed, WireCopy, PhaseOk, Rank, HostSettle, Receive, Judge, SettleLocked, ReopenLocked, Advance;
    match c.host
    case Prepared => TurnOpening(c, env, outcome);
    case Opened => TurnOpening(c, env, outcome);
    case Reading(_) => TurnOpening(c, env, outcome);
    case Checking(box, handled) =>
      TurnReceive(c, handled, box);
      if !Done(BoxAt(c, box)) {
        TurnLooked(c, env, outcome);
      }
    case Waiting(box, handled) => TurnReceive(c, handled, box);
    case Judging(_) => TurnVerdict(c, env, outcome);
    case Accepted(_, _, _, _) => TurnVerdict(c, env, outcome);
    case Completing(t, value, copy, at, checked) =>
      TurnSettle(c, WithTicket(t), ByVerdict(t, c.requests[t].action, value, copy, at, checked), ToReading(t));
    case Refusing(_) => TurnVerdict(c, env, outcome);
    case Overrun(t) => TurnSettle(c, WithTicket(t), ByOverrun, ToReading(t));
    case Discarding(leave) => TurnSettle(c, Always, ByRelease, if leave then ToLeave else ToGrace);
    case Finishing(_) => TurnEnding(c, env, outcome);
    case Grace => TurnEnding(c, env, outcome);
    case Left(_) =>
  }

  /** Every step of a detached host brings it closer to leaving. */
  lemma DetachedHostMovesOn(c: Call, env: Env, outcome: Outcome)
    requires CallOk(c) && TurnOk(c) && !env.attached && !c.host.Left?
    ensures 0 <= Rank(HostStep(c, env, outcome)) < Rank(c)
  {
    TurnHost(c, env, outcome);
  }

  /** The host leaves with what settled the gate, or with a plain continue; an edited input comes from a verdict. */
  lemma LeavesWithDecision(c: Call)
    requires CallOk(c) && c.host.Left?
    ensures c.host.decision != CONTINUE ==>
              c.settled.Some? && c.host.decision == DecisionOf(c.settled.value)
              && (c.settled.value.ByResume? || c.settled.value.ByVerdict?)
    ensures c.host.decision.input.Some? ==>
              c.settled.Some? && c.settled.value.ByVerdict? && c.host.decision.input == Some(c.settled.value.value)
  {
  }

  // ---- the record ----

  /** Every exec.resumed of a gate says how it was settled, with the wire copy of an accepted edit. */
  predicate RecordOk(c: Call)
  {
    forall i | 0 <= i < |c.log| && c.log[i].Resumed? ::
      c.settled.Some? && c.log[i] == Resumed(DecisionOf(c.settled.value).action, EditedOf(c.settled.value))
  }

  lemma RecordOther(c: Call, o: Other)
    requires CallOk(c) && RecordOk(c)
    ensures RecordOk(OtherStep(c, o))
  {
    NoResumed(c.log);
  }

  /** exec.paused and exec.refused say nothing about how a gate was settled. */
  lemma RecordSame(c: Call, d: Call)
    requires RecordOk(c) && (d.settled == c.settled || c.settled.None?)
    requires d.log == c.log || (d.log != [] && d.log[..|d.log| - 1] == c.log && !d.log[|d.log| - 1].Resumed?)
    ensures RecordOk(d)
  {
    if d.log != c.log {
      assert forall i | 0 <= i < |c.log| :: d.log[i] == d.log[..|d.log| - 1][i];
    }
  }

  lemma RecordHost(c: Call, env: Env, outcome: Outcome)
    requires CallOk(c) && RecordOk(c)
    ensures RecordOk(HostStep(c, env, outcome))
  {
    var d := HostStep(c, env, outcome);
    if c.host.Finishing? && c.settling.Some? {
      hide BoxesOk;
      NoResumed(c.log);
    } else {
      hide BoxesOk, RecordOk, WireCopy, IsOverdue, Advance, Box, CountResumed;
      RecordSame(c, d);
    }
  }

  lemma {:induction false} NoResumed(log: seq<Emitted>)
    ensures CountResumed(log) == 0 <==> forall i | 0 <= i < |log| :: !log[i].Resumed?
  {
    if log != [] {
      NoResumed(log[..|log| - 1]);
    }
  }
}
