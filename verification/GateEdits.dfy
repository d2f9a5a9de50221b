/**
 When an edited input is let through, what becomes of it, and what a host that
 runs with one can be sure of, said from the states of the run.
 */
module GateEdits {
  import opened Json
  import ShrinkSpec
  import opened Gate
  import opened Session
  import opened GateDecisions

  /** The gate is held, both sides enabled edits, the pause was offered as editable, the action fits the point, the value is clean. */
  predicate MayEdit(cfg: Config, s: Sys, p: nat, a: Action, v: Json)
  {
    && p < |s.calls| && Resumable(s.calls[p])
    && cfg.appEdits && s.hubEdits && s.calls[p].editable.Some?
    && ((a == Continue && s.calls[p].gate.value.point == Before)
        || (a == Retry && (s.calls[p].gate.value.point == After || s.calls[p].gate.value.point == Error)))
    && cfg.clean(v)
  }

  lemma AllowedMeans(cfg: Config, s: Sys, p: nat, a: Action, v: Json)
    requires SysOk(s)
    ensures Allowed(cfg, s, p, a, v) <==> MayEdit(cfg, s, p, a, v)
  {
    hide TurnOk, RecordOk, OfferOk, HostOk, BoxesOk;
    if p < |s.calls| {
      assert CallSound(s.calls[p]);
    }
  }

  /** An edit that may run is taken up; another is refused, aloud while its gate is held. */
  lemma EditAnswered(cfg: Config, s: Sys, p: nat, a: Action, v: Json)
    requires SysOk(s) && s.attached && s.transport.Idle? && p < |s.calls|
    ensures var r := Session.Next(cfg, s, Edit(p, a, v));
            if MayEdit(cfg, s, p, a, v) then r == s.(transport := Checked(p, a, v, s.step), step := s.step + 1)
            else
              r.transport.Idle? && r.calls[p] == if Resumable(s.calls[p]) then s.calls[p].(log := s.calls[p].log + [Refused]) else s.calls[p]
  {
    hide Allowed, MayEdit, TurnOk, RecordOk, OfferOk, HostOk, BoxesOk;
    AllowedMeans(cfg, s, p, a, v);
    assert CallSound(s.calls[p]);
  }

  /** The request a host is handed. */
  predicate Handed(c: Call, d: Call, r: Request)
  {
    && d.requests == c.requests + [r] && HasGate(d) && Box(d.gate.value) == Requested(|c.requests|)
    && d.gate.value.ticket == Some(|c.requests|) && d.gate.value.validating && d.held
  }

  /** Left alone, an edit that may run reaches its host: with its action, its value, the pause's own validator, its time. */
  lemma EditReachesHost(cfg: Config, s: Sys, p: nat, a: Action, v: Json)
    requires SysOk(s) && s.attached && s.transport.Idle? && MayEdit(cfg, s, p, a, v)
    requires Box(s.calls[p].gate.value) == Pending
    ensures var r := Session.Next(cfg, Session.Next(cfg, Session.Next(cfg, s, Edit(p, a, v)), Build), Hand);
            && p < |r.calls| && r.transport.Idle?
            && Handed(s.calls[p], r.calls[p], Request(a, v, s.calls[p].editable.value, s.now, s.step))
  {
    hide Allowed, TurnOk, RecordOk, OfferOk, HostOk, BoxesOk, HostStep;
    EditAnswered(cfg, s, p, a, v);
    assert CallSound(s.calls[p]);
  }

  // ---- the verdict ----

  /** What the validator makes of a request: its value, or nothing when it refuses. */
  function Verdict(r: Request, outcome: Outcome): Option<Json>
  {
    if r.validator.NoValidator? then Some(r.proposed) else if outcome.Accept? then Some(outcome.value) else None
  }

  function JsonForm(v: Json, hostForm: Json -> Option<Json>): Option<Json> { if ShrinkSpec.Serializable(v) then Some(Plain(v)) else hostForm(v) }

  /** In time, accepted, and with a JSON form: that is what runs and what is recorded. Otherwise the edit is refused. */
  lemma VerdictTaken(c: Call, env: Env, outcome: Outcome)
    requires c.host.Judging? && c.host.ticket < |c.requests|
    ensures var r := c.requests[c.host.ticket];
            var v := Verdict(r, outcome);
            HostStep(c, env, outcome) ==
            c.(host :=
                 if env.now < r.startedAt + 4000 && v.Some? && JsonForm(v.value, env.hostForm).Some?
                 then Accepted(c.host.ticket, v.value, JsonForm(v.value, env.hostForm).value, env.step)
                 else Refusing(c.host.ticket))
  {
  }

  predicate Overdue(g: Gate, now: nat, timeout: Option<nat>) { timeout.Some? && now >= g.openedAt + timeout.value }

  predicate CurrentTicket(c: Call, t: Ticket) { c.held && HasGate(c) && c.gate.value.ticket == Some(t) }

  /** An accepted edit settles a gate that still validates it and is in time; past the deadline the gate continues without it. */
  lemma AcceptedSettles(c: Call, env: Env, later: Env, outcome: Outcome)
    requires c.host.Accepted? && CurrentTicket(c, c.host.ticket) && c.host.ticket < |c.requests|
    ensures var d := HostStep(HostStep(c, env, outcome), later, outcome);
            && !d.held
            && d.settled == Some(if Overdue(c.gate.value, env.now, env.timeout) then ByOverrun
                                 else ByVerdict(c.host.ticket, c.requests[c.host.ticket].action, c.host.value, c.host.copy,
                                                c.host.validatedAt, env.step))
  {
  }

  /** A refused edit is refused aloud, and the gate is held again with a fresh mailbox; past the deadline it continues. */
  lemma RefusedReopens(c: Call, env: Env, outcome: Outcome)
    requires c.host.Refusing? && CurrentTicket(c, c.host.ticket) && !Overdue(c.gate.value, env.now, env.timeout)
    ensures var d := HostStep(c, env, outcome);
            && Resumable(d) && HasGate(d) && Box(d.gate.value) == Pending && d.gate.value.ticket.None?
            && d.log == c.log + [Refused] && d.host == Reading(Some(c.host.ticket))
  {
  }

  /** A pause timeout, a discard or a detach settles a held gate with a plain continue. */
  lemma ReleaseContinues(c: Call)
    requires c.held && HasGate(c)
    ensures var d := OtherStep(c, Release);
            && !d.held && d.settled.Some? && DecisionOf(d.settled.value) == Decision(Continue, Null, None)
  {
  }

  // ---- when a request was made ----

  /** Step `b` built this request from an edit just checked. */
  predicate BuiltAt(cfg: Config, h: seq<Step>, p: nat, a: Action, v: Json, at: nat, startedAt: nat, b: nat)
  {
    b < |h| && h[b] == Build && State(cfg, h[..b]).transport == Checked(p, a, v, at) && startedAt == State(cfg, h[..b]).now
  }

  ghost predicate Timed(cfg: Config, h: seq<Step>, p: nat, a: Action, v: Json, at: nat, startedAt: nat)
  {
    exists b :: BuiltAt(cfg, h, p, a, v, at, startedAt, b)
  }

  ghost predicate CallTimed(cfg: Config, h: seq<Step>, p: nat, c: Call)
  {
    forall t | 0 <= t < |c.requests| ::
      Timed(cfg, h, p, c.requests[t].action, c.requests[t].proposed, c.requests[t].at, c.requests[t].startedAt)
  }

  ghost predicate TransportTimed(cfg: Config, h: seq<Step>, t: Transport)
  {
    t.Built? ==> Timed(cfg, h, t.p, t.action, t.proposed, t.at, t.startedAt)
  }

  lemma TimedStays(cfg: Config, h: seq<Step>, k: Step, p: nat, a: Action, v: Json, at: nat, startedAt: nat)
    requires Timed(cfg, h, p, a, v, at, startedAt)
    ensures Timed(cfg, h + [k], p, a, v, at, startedAt)
  {
    hide State;
    var b: nat :| BuiltAt(cfg, h, p, a, v, at, startedAt, b);
    assert (h + [k])[..b] == h[..b];
    assert BuiltAt(cfg, h + [k], p, a, v, at, startedAt, b);
  }

  lemma CallTimedStays(cfg: Config, h: seq<Step>, k: Step, p: nat, c: Call, d: Call)
    requires CallTimed(cfg, h, p, c)
    requires d.requests == c.requests
             || (|d.requests| == |c.requests| + 1 && d.requests[..|c.requests|] == c.requests
                 && var r := d.requests[|c.requests|]; Timed(cfg, h, p, r.action, r.proposed, r.at, r.startedAt))
    ensures CallTimed(cfg, h + [k], p, d)
  {
    hide Timed;
    forall t | 0 <= t < |d.requests|
      ensures Timed(cfg, h + [k], p, d.requests[t].action, d.requests[t].proposed, d.requests[t].at, d.requests[t].startedAt)
    {
      if t < |c.requests| {
        assert d.requests[t] == c.requests[t];
      }
      TimedStays(cfg, h, k, p, d.requests[t].action, d.requests[t].proposed, d.requests[t].at, d.requests[t].startedAt);
    }
  }

  lemma TransportTimedStep(cfg: Config, h: seq<Step>, k: Step)
    requires TransportTimed(cfg, h, State(cfg, h).transport)
    ensures TransportTimed(cfg, h + [k], Session.Next(cfg, State(cfg, h), k).transport)
  {
    hide State, HostStep, OtherStep, Allowed, Offer, RefuseEdit, Timed;
    var t := State(cfg, h).transport;
    if t.Built? {
      TimedStays(cfg, h, k, t.p, t.action, t.proposed, t.at, t.startedAt);
    }
    if k.Build? && t.Checked? {
      BuildTimes(cfg, h, t);
    }
  }

  lemma BuildTimes(cfg: Config, h: seq<Step>, t: Transport)
    requires t == State(cfg, h).transport && t.Checked?
    ensures Timed(cfg, h + [Build], t.p, t.action, t.proposed, t.at, State(cfg, h).now)
  {
    hide State;
    assert (h + [Build])[..|h|] == h;
    assert BuiltAt(cfg, h + [Build], t.p, t.action, t.proposed, t.at, State(cfg, h).now, |h|);
  }

  lemma HostRequests(c: Call, env: Env, outcome: Outcome)
    ensures HostStep(c, env, outcome).requests == c.requests
  {
    hide Passes, IsOverdue, BoxAt, Box, WireCopy, EditedOf, DecisionOf;
  }

  lemma OtherRequests(c: Call, o: Other)
    ensures !o.Begin? ==> OtherStep(c, o).requests == c.requests
    ensures o.Begin? ==> OtherStep(c, o).requests == c.requests || OtherStep(c, o).requests == c.requests + [o.request]
  {
    hide Passes, Box, EditedOf, DecisionOf;
  }

  lemma StepTimed(cfg: Config, h: seq<Step>, k: Step, p: nat)
    requires p < |State(cfg, h).calls| && CallTimed(cfg, h, p, State(cfg, h).calls[p])
    requires TransportTimed(cfg, h, State(cfg, h).transport)
    ensures p < |Session.Next(cfg, State(cfg, h), k).calls|
    ensures CallTimed(cfg, h + [k], p, Session.Next(cfg, State(cfg, h), k).calls[p])
  {
    hide State, HostStep, OtherStep, Allowed, Offer, Passes, Timed, CallTimed;
    var s := State(cfg, h);
    var c, d := s.calls[p], Session.Next(cfg, s, k).calls[p];
    if k.Host? && k.p == p {
      HostRequests(c, EnvOf(cfg, s), k.outcome);
    } else if k.Thread? && k.p == p {
      OtherRequests(c, k.other);
    } else if k.Hand? && s.transport.Built? && s.transport.p == p {
      OtherRequests(c, Begin(HandedRequest(s.transport)));
    }
    CallTimedStays(cfg, h, k, p, c, d);
  }

  lemma {:induction false} RequestsTimed(cfg: Config, h: seq<Step>, p: nat)
    ensures TransportTimed(cfg, h, State(cfg, h).transport)
    ensures p < |State(cfg, h).calls| ==> CallTimed(cfg, h, p, State(cfg, h).calls[p])
    decreases |h|
  {
    hide State, Session.Next, CallTimed, TransportTimed;
    if h == [] {
      NothingTimed(cfg, p);
    } else {
      var before, k := h[..|h| - 1], h[|h| - 1];
      assert before + [k] == h;
      StateAfter(cfg, before, k);
      RequestsTimed(cfg, before, p);
      TransportTimedStep(cfg, before, k);
      if p < |State(cfg, h).calls| {
        if p < |State(cfg, before).calls| {
          StepTimed(cfg, before, k, p);
        } else {
          EntersTimed(cfg, h, State(cfg, before), k, p);
        }
      }
    }
  }

  lemma NothingTimed(cfg: Config, p: nat)
    ensures TransportTimed(cfg, [], State(cfg, []).transport) && State(cfg, []).calls == []
  {
  }

  lemma EntersTimed(cfg: Config, h: seq<Step>, s: Sys, k: Step, p: nat)
    requires |s.calls| <= p < |Session.Next(cfg, s, k).calls|
    ensures CallTimed(cfg, h, p, Session.Next(cfg, s, k).calls[p])
  {
    hide HostStep, OtherStep, Allowed, Offer;
  }

  /** A call's requests are only ever added to. */
  lemma StepRequests(cfg: Config, s: Sys, k: Step, p: nat)
    requires p < |s.calls|
    ensures p < |Session.Next(cfg, s, k).calls|
    ensures var a, b := s.calls[p].requests, Session.Next(cfg, s, k).calls[p].requests; |a| <= |b| && b[..|a|] == a
  {
    hide HostStep, OtherStep, Allowed, Offer, Passes;
    var c := s.calls[p];
    if k.Host? && k.p == p {
      HostRequests(c, EnvOf(cfg, s), k.outcome);
    } else if k.Thread? && k.p == p {
      OtherRequests(c, k.other);
    } else if k.Hand? && s.transport.Built? && s.transport.p == p {
      OtherRequests(c, Begin(HandedRequest(s.transport)));
    }
  }

  lemma {:induction false} RequestsGrow(cfg: Config, h: seq<Step>, p: nat, n: nat)
    requires n <= |h| && p < |State(cfg, h[..n]).calls|
    ensures p < |State(cfg, h).calls|
    ensures var a, b := State(cfg, h[..n]).calls[p].requests, State(cfg, h).calls[p].requests; |a| <= |b| && b[..|a|] == a
    decreases |h|
  {
    hide State, Session.Next;
    if n == |h| {
      assert h[..n] == h;
    } else {
      var before, k := h[..|h| - 1], h[|h| - 1];
      assert before + [k] == h && h[..n] == before[..n];
      StateAfter(cfg, before, k);
      RequestsGrow(cfg, before, p, n);
      StepRequests(cfg, State(cfg, before), k, p);
    }
  }

  // ---- what an edited input went through ----

  /**
   A host that leaves with an edited input: at `sent` everything allowed the edit,
   at `built` its clock started, at `judged` the offered validator accepted it within
   four seconds of that, and at `checked` its gate was held, still validating it and
   not past its deadline. What is recorded is the JSON form of what runs.
   */
  lemma EditedInputConditions(cfg: Config, h: seq<Step>, p: nat) returns (sent: nat, built: nat, judged: nat, checked: nat)
    requires HostLeft(State(cfg, h), p) && State(cfg, h).calls[p].host.decision.input.Some?
    ensures sent < |h| && h[sent].Edit? && h[sent].p == p
            && MayEdit(cfg, State(cfg, h[..sent]), p, h[sent].action, h[sent].proposed)
            && h[sent].action == State(cfg, h).calls[p].host.decision.action
    ensures built < |h| && h[built] == Build && State(cfg, h[..built]).transport == Checked(p, h[sent].action, h[sent].proposed, sent)
    ensures judged < |h| && h[judged].Host? && h[judged].p == p && State(cfg, h[..judged]).now < State(cfg, h[..built]).now + 4000
    ensures var c := State(cfg, h).calls[p];
            && c.offer.Some?
            && if c.offer == Some(NoValidator) then c.host.decision.input == Some(h[sent].proposed)
               else h[judged].outcome == Accept(c.host.decision.input.value)
    ensures checked < |h| && h[checked].Host? && h[checked].p == p
            && var s := State(cfg, h[..checked]);
               p < |s.calls| && s.calls[p].held && HasGate(s.calls[p]) && s.calls[p].gate.value.ticket.Some?
               && var t := s.calls[p].gate.value.ticket.value;
               t < |State(cfg, h).calls[p].requests| && State(cfg, h).calls[p].requests[t].at == sent
               && !Overdue(s.calls[p].gate.value, s.now, cfg.timeout)
    ensures var c := State(cfg, h).calls[p];
            exists i | 0 <= i < |c.log| ::
              c.log[i].Resumed? && c.log[i].action == h[sent].action && c.log[i].edited.Some?
              && c.log[i].edited == JsonForm(c.host.decision.input.value, cfg.hostForm)
  {
    hide State, Allowed, MayEdit, Plain, ShrinkSpec.Serializable;
    EditProvenance(cfg, h, p);
    RequestsTimed(cfg, h, p);
    var c := State(cfg, h).calls[p];
    var v := c.settled.value;
    var r := c.requests[v.ticket];
    sent, judged, checked := r.at, v.validatedAt, v.checkedAt;
    built :| BuiltAt(cfg, h, p, r.action, r.proposed, r.at, r.startedAt, built);
    RequestsGrow(cfg, h, p, judged);
    assert State(cfg, h[..judged]).calls[p].requests[v.ticket] == r;
    StateOk(cfg, h[..sent]);
    AllowedMeans(cfg, State(cfg, h[..sent]), p, r.action, r.proposed);
    var i :| 0 <= i < |c.log| && c.log[i] == Resumed(r.action, Some(v.copy));
    FormOf(v.value, cfg.hostForm);
    assert c.log[i].Resumed? && c.log[i].action == h[sent].action;
  }

  lemma FormOf(v: Json, hostForm: Json -> Option<Json>)
    ensures WireCopy(v, hostForm) == JsonForm(v, hostForm)
  {
  }

  // ---- what a pause offers ----

  /** A pause is offered as editable when the caller asked with a usable validator and both sides enabled edits; exec.paused says so. */
  lemma OfferMeans(cfg: Config, s: Sys, point: Point, asked: Asked, env: Env, outcome: Outcome)
    requires s.attached
    ensures var r := Session.Next(cfg, s, Enter(point, asked));
            && |r.calls| == |s.calls| + 1 && r.calls[..|s.calls|] == s.calls
            && var c := r.calls[|s.calls|];
               var paused := HostStep(HostStep(c, env, outcome), env, outcome);
               && c.host.Prepared? && c.point == point && paused.held && paused.host.Reading?
               && c.offer == (if asked.EditableWith? && cfg.appEdits && s.hubEdits then Some(asked.validator) else None)
               && paused.log == [Paused(c.offer.Some?)] && paused.editable == c.offer
  {
  }
}
