/**
 The gate engine as an object: the table of gates and the methods the session
 calls. Run without interference each method is a sequence of the steps of
 `Gate`; a settle is its locked part, then exec.resumed, then the mailbox.
 */
module GateEngine {
  import opened Json
  import opened Gate

  /** A settle from start to end. */
  function Settled(c: Call, guard: Guard, cause: Cause): Call
  {
    if Passes(c, guard) then Advance(Advance(SettleLocked(c, guard, cause, false))) else c
  }

  lemma SettledExactly(c: Call, guard: Guard, cause: Cause)
    requires PhaseOk(c) && Passes(c, guard)
    ensures var r := Settled(c, guard, cause);
            && PhaseOk(r) && HasGate(r) && !r.held && r.settling.None? && r.settled == Some(cause) && r.editable.None?
            && r.log == c.log + [Resumed(DecisionOf(cause).action, EditedOf(cause))]
            && Box(r.gate.value) == Final(DecisionOf(cause))
  {
    hide BoxesOk, CountResumed;
    SettleOk(c, guard, cause, false);
    var s := SettleLocked(c, guard, cause, false);
    AdvanceOk(s);
    AdvanceOk(Advance(s));
  }

  predicate AllOk(gates: map<nat, Call>) { forall p | p in gates :: PhaseOk(gates[p]) && HasGate(gates[p]) }

  function HeldIn(gates: map<nat, Call>): set<nat> { set p | p in gates && gates[p].held }

  lemma HoldOk(point: Point, offer: Option<Validator>, now: nat)
    ensures var c := Announce(Hold(NewCall(point, offer), now)); PhaseOk(c) && HasGate(c) && c.held
  {
    CountAppend([], Paused(offer.Some?));
  }

  lemma SettleKeepsAll(gates: map<nat, Call>, pause: nat, guard: Guard, cause: Cause)
    requires AllOk(gates) && pause in gates && Passes(gates[pause], guard)
    ensures HasGate(gates[pause]) && AllOk(gates[pause := Settled(gates[pause], guard, cause)])
  {
    hide PhaseOk, Settled;
    SettledExactly(gates[pause], guard, cause);
  }

  class Engine {
    const timeout: Option<nat>
    var gates: map<nat, Call>
    var next: nat

    ghost predicate Valid()
      reads this
    {
      AllOk(gates) && forall p | p in gates :: p < next
    }

    function Held(): set<nat>
      reads this
    {
      HeldIn(gates)
    }

    constructor (timeout: Option<nat>)
      ensures Valid() && gates == map[]
    {
      this.timeout := timeout;
      gates, next := map[], 0;
    }

    /** Registers a gate under a fresh pause id, then announces it. */
    method HoldGate(point: Point, offer: Option<Validator>, now: nat) returns (pause: nat)
      requires Valid()
      modifies this
      ensures Valid() && pause !in old(gates)
      ensures gates == old(gates)[pause := Announce(Hold(NewCall(point, offer), now))] && gates[pause].held
    {
      hide PhaseOk, Hold, Announce, NewCall;
      pause := next;
      next := next + 1;
      gates := gates[pause := Hold(NewCall(point, offer), now)];
      HoldOk(point, offer, now);
      gates := gates[pause := Announce(gates[pause])];
    }

    method Settle(pause: nat, guard: Guard, cause: Cause) returns (settled: bool)
      requires Valid()
      modifies this`gates
      ensures Valid()
      ensures settled <==> pause in old(gates) && Passes(old(gates)[pause], guard)
      ensures gates == if settled then old(gates)[pause := Settled(old(gates)[pause], guard, cause)] else old(gates)
    {
      hide AllOk, PhaseOk, Advance, Passes, DecisionOf, EditedOf;
      if pause !in gates || !Passes(gates[pause], guard) {
        return false;
      }
      SettleKeepsAll(gates, pause, guard, cause);
      var c := gates[pause];
      var g := c.gate.value.(ticket := None);
      if Done(Box(g)) {
        // The host holds a request, or its waiter was cancelled: it reads the gate's mailbox again.
        g := g.(boxes := g.boxes + [Pending]);
      }
      c := c.(held := false, gate := Some(g), settling := Some(Settling(false, false)), settled := Some(cause));
      assert c == SettleLocked(gates[pause], guard, cause, false);
      gates := gates[pause := c];
      gates := gates[pause := Advance(gates[pause])];
      gates := gates[pause := Advance(gates[pause])];
      assert gates == old(gates)[pause := Settled(old(gates)[pause], guard, cause)];
      return true;
    }

    method ResumeGate(pause: nat, action: Action, output: Json) returns (resumed: bool)
      requires Valid()
      modifies this`gates
      ensures Valid()
      ensures resumed <==> pause in old(gates) && Passes(old(gates)[pause], WhileHeld)
      ensures gates == if resumed then
                         old(gates)[pause := Settled(old(gates)[pause], WhileHeld, ByResume(ResumeDecision(action, output)))]
                       else old(gates)
    {
      hide PhaseOk, Settled;
      var decision := if action == Inject then Decision(Inject, output, None) else Decision(action, Null, None);
      resumed := Settle(pause, WhileHeld, ByResume(decision));
    }

    /** held -> validating; the ticket the verdict must present, none when the gate cannot take the edit. */
    method Begin(pause: nat, request: Request) returns (ticket: Option<Ticket>)
      requires Valid()
      modifies this`gates
      ensures Valid()
      ensures ticket.Some? <==> pause in old(gates) && Passes(old(gates)[pause], WhileHeld) && !Done(Box(old(gates)[pause].gate.value))
      ensures ticket.Some? ==>
                && gates == old(gates)[pause := BeginValidation(old(gates)[pause], request)]
                && gates[pause].gate.value.ticket == ticket && gates[pause].requests[ticket.value..] == [request]
      ensures ticket.None? ==> gates == old(gates)
    {
      hide PhaseOk;
      if pause !in gates || !gates[pause].held || gates[pause].gate.value.validating || Done(Box(gates[pause].gate.value)) {
        return None;
      }
      BeginOk(gates[pause], request);
      ticket := Some(|gates[pause].requests|);
      gates := gates[pause := BeginValidation(gates[pause], request)];
    }

    /** validating -> held after a refusal; past the deadline the gate continues instead. */
    method Reopen(pause: nat, t: Ticket, now: nat) returns (reopened: bool)
      requires Valid()
      modifies this`gates
      ensures Valid()
      ensures pause in old(gates) && Passes(old(gates)[pause], WithTicket(t)) ==>
                (reopened <==> !IsOverdue(old(gates)[pause].gate.value, now, timeout))
                && gates == old(gates)[pause := if reopened then ReopenLocked(old(gates)[pause], t)
                                                else Settled(old(gates)[pause], WithTicket(t), ByOverrun)]
      ensures !(pause in old(gates) && Passes(old(gates)[pause], WithTicket(t))) ==> !reopened && gates == old(gates)
    {
      hide PhaseOk, Settled;
      if pause !in gates || !Passes(gates[pause], WithTicket(t)) {
        return false;
      }
      if !IsOverdue(gates[pause].gate.value, now, timeout) {
        ReopenOk(gates[pause], t);
        gates := gates[pause := ReopenLocked(gates[pause], t)];
        return true;
      }
      var settled := Settle(pause, WithTicket(t), ByOverrun);
      return false;
    }

    /** validating -> released with the accepted edit; past the deadline the gate continues without it. */
    method Complete(pause: nat, t: Ticket, verdict: Cause, now: nat) returns (completed: bool)
      requires Valid() && verdict.ByVerdict? && verdict.ticket == t
      modifies this`gates
      ensures Valid()
      ensures pause in old(gates) && Passes(old(gates)[pause], WithTicket(t)) ==>
                (completed <==> !IsOverdue(old(gates)[pause].gate.value, now, timeout))
                && gates == old(gates)[pause := Settled(old(gates)[pause], WithTicket(t), if completed then verdict else ByOverrun)]
      ensures !(pause in old(gates) && Passes(old(gates)[pause], WithTicket(t))) ==> !completed && gates == old(gates)
    {
      hide PhaseOk, Settled;
      if pause !in gates || !Passes(gates[pause], WithTicket(t)) {
        return false;
      }
      if IsOverdue(gates[pause].gate.value, now, timeout) {
        var settled := Settle(pause, WithTicket(t), ByOverrun);
        return false;
      }
      completed := Settle(pause, WithTicket(t), verdict);
    }

    method Discard(pause: nat) returns (discarded: bool)
      requires Valid()
      modifies this`gates
      ensures Valid() && (discarded <==> pause in old(Held()))
      ensures gates == if discarded then old(gates)[pause := Settled(old(gates)[pause], Always, ByRelease)] else old(gates)
    {
      hide PhaseOk, Settled;
      discarded := Settle(pause, Always, ByRelease);
    }

    method ReleaseOne(p: nat, ghost start: map<nat, Call>, ghost done: set<nat>) returns (settled: bool)
      requires Valid() && p in start && p !in done && start[p].held && gates == ReleasedIn(start, done)
      modifies this`gates
      ensures Valid() && settled && gates == ReleasedIn(start, done + {p})
    {
      hide PhaseOk, Settled;
      settled := Settle(p, Always, ByRelease);
    }

    /** Every gate held when it is called is continued; the others are left alone. */
    method ReleaseAll() returns (released: nat)
      requires Valid()
      modifies this`gates
      ensures Valid() && Held() == {} && released == |old(Held())|
      ensures gates == ReleasedIn(old(gates), old(Held()))
    {
      hide AllOk, ReleasedIn;
      ghost var start, all := gates, Held();
      ghost var done: set<nat> := {};
      var pauses := Held();
      NoneReleased(start);
      released := 0;
      while pauses != {}
        invariant Valid() && done + pauses == all && done !! pauses && released == |done|
        invariant gates == ReleasedIn(start, done)
        decreases |pauses|
      {
        var p :| p in pauses;
        var settled := ReleaseOne(p, start, done);
        if settled {
          released := released + 1;
        }
        pauses := pauses - {p};
        done := done + {p};
      }
      assert done == all;
      NoneHeld(start);
    }
  }

  function Released(c: Call): Call { Settled(c, Always, ByRelease) }

  function ReleasedIn(gates: map<nat, Call>, done: set<nat>): map<nat, Call>
  {
    map p | p in gates :: if p in done then Released(gates[p]) else gates[p]
  }

  lemma NoneReleased(gates: map<nat, Call>)
    ensures ReleasedIn(gates, {}) == gates
  {
  }

  lemma NoneHeld(gates: map<nat, Call>)
    requires AllOk(gates)
    ensures HeldIn(ReleasedIn(gates, HeldIn(gates))) == {}
  {
    hide PhaseOk, Settled;
    var released := ReleasedIn(gates, HeldIn(gates));
    forall p | p in gates ensures !released[p].held {
      if gates[p].held {
        SettledExactly(gates[p], Always, ByRelease);
      }
    }
  }
}
