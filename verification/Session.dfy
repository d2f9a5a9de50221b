/**
 Gate calls, the transport thread and the clock, in any interleaving.

 A history is a sequence of steps. `DetachedHostLeaves`: after a detach every
 waiting host leaves. `EditProvenance`: an edited input leaves a gate only when
 every condition on it held at the step that checked it.
 */
module Session {
  import opened Json
  import opened Gate

  /**
   `clean`: no placeholder, no truncation marker, no prototype key. `hostForm`: the
   serializer's form of a value with host objects in it, if it has one.
   */
  datatype Config = Config(appEdits: bool, timeout: Option<nat>, clean: Json -> bool, hostForm: Json -> Option<Json>)

  /** What the integration asked of a gate. */
  datatype Asked = NotEditable | NotCallable | EditableWith(validator: Validator)

  /** An exec.resume with an input, on the transport thread. */
  datatype Transport =
    | Idle
    | Checked(p: nat, action: Action, proposed: Json, at: nat)
    | Built(p: nat, action: Action, proposed: Json, validator: Validator, startedAt: nat, at: nat)

  datatype Sys = Sys(attached: bool, hubEdits: bool, now: nat, calls: seq<Call>, transport: Transport, step: nat)

  const INITIAL := Sys(false, false, 0, [], Idle, 0)

  datatype Step =
    | Attach(hub: bool)
    | Lose                       // the connection is gone
    | Forget                     // on_detached: the debugger's capabilities go
    | Tick(ms: nat)
    | Enter(point: Point, asked: Asked)
    | Host(p: nat, outcome: Outcome)
    | Thread(p: nat, other: Other)
    | Edit(p: nat, action: Action, proposed: Json)
    | Build
    | Hand

  predicate Fits(action: Action, point: Point)
  {
    (action == Continue && point == Before) || (action == Retry && (point == After || point == Error))
  }

  /** The gate is held, both sides enabled edits, the pause was offered, the action fits, the value is clean. */
  predicate Allowed(cfg: Config, s: Sys, p: nat, action: Action, proposed: Json)
  {
    && p < |s.calls| && Passes(s.calls[p], WhileHeld)
    && cfg.appEdits && s.hubEdits && s.calls[p].editable.Some?
    && Fits(action, s.calls[p].gate.value.point) && cfg.clean(proposed)
  }

  function Offer(cfg: Config, s: Sys, asked: Asked): Option<Validator>
  {
    if asked.EditableWith? && cfg.appEdits && s.hubEdits then Some(asked.validator) else None
  }

  function EnvOf(cfg: Config, s: Sys): Env { Env(s.attached, s.now, cfg.timeout, s.step, cfg.hostForm) }

  function RefuseEdit(c: Call): Call { if Passes(c, WhileHeld) then c.(log := c.log + [Refused]) else c }

  function Move(cfg: Config, s: Sys, k: Step): Sys
  {
    match k
    case Attach(hub) => if s.transport.Idle? then s.(attached := true, hubEdits := hub) else s
    case Lose => if s.transport.Idle? then s.(attached := false) else s
    case Forget => if !s.attached then s.(hubEdits := false) else s
    case Tick(n) => s.(now := s.now + n)
    case Enter(point, asked) => if s.attached then s.(calls := s.calls + [NewCall(point, Offer(cfg, s, asked))]) else s
    case Host(p, outcome) =>
      if p < |s.calls| then s.(calls := s.calls[p := HostStep(s.calls[p], EnvOf(cfg, s), outcome)]) else s
    case Thread(p, other) =>
      if p < |s.calls| && !other.Begin? then s.(calls := s.calls[p := OtherStep(s.calls[p], other)]) else s
    case Edit(p, action, proposed) =>
      if !s.attached || !s.transport.Idle? || p >= |s.calls| then s
      else if Allowed(cfg, s, p, action, proposed) then s.(transport := Checked(p, action, proposed, s.step))
      else s.(calls := s.calls[p := RefuseEdit(s.calls[p])])
    case Build =>
      if !s.transport.Checked? || s.transport.p >= |s.calls| then s
      else
        var r := s.transport;
        var entry := s.calls[r.p].editable;
        s.(transport := Built(r.p, r.action, r.proposed, if entry.Some? then entry.value else NoValidator, s.now, r.at))
    case Hand =>
      if !s.transport.Built? || s.transport.p >= |s.calls| then s
      else
        var r := s.transport;
        s.(transport := Idle,
           calls := s.calls[r.p := OtherStep(s.calls[r.p], Begin(Request(r.action, r.proposed, r.validator, r.startedAt, r.at)))])
  }

  function Next(cfg: Config, s: Sys, k: Step): Sys { Move(cfg, s, k).(step := s.step + 1) }

  function Run(cfg: Config, s: Sys, steps: seq<Step>): Sys
    decreases |steps|
  {
    if steps == [] then s else Run(cfg, Next(cfg, s, steps[0]), steps[1..])
  }

  function State(cfg: Config, h: seq<Step>): Sys
  {
    if h == [] then INITIAL else Next(cfg, State(cfg, h[..|h| - 1]), h[|h| - 1])
  }

  // ---- the invariant of a state ----

  /** The table of editable pauses holds what the gate was offered with, for as long as it is held. */
  predicate OfferOk(c: Call)
  {
    && (c.editable.Some? ==> c.editable == c.offer && !c.host.Prepared? && !c.host.Opened?)
    && (c.held && !c.host.Opened? ==> c.editable == c.offer)
  }

  predicate CallSound(c: Call) { CallOk(c) && TurnOk(c) && RecordOk(c) && OfferOk(c) }

  predicate TransportOk(s: Sys)
  {
    match s.transport
    case Idle => true
    case Checked(p, _, _, _) =>
      && s.attached && p < |s.calls| && HasGate(s.calls[p]) && !s.calls[p].host.Opened? && s.calls[p].offer.Some?
    case Built(p, _, _, validator, _, _) =>
      && s.attached && p < |s.calls| && HasGate(s.calls[p]) && (s.calls[p].held ==> s.calls[p].offer == Some(validator))
  }

  predicate SysOk(s: Sys)
  {
    TransportOk(s) && forall p | 0 <= p < |s.calls| :: CallSound(s.calls[p])
  }

  lemma HostKeepsGate(c: Call, env: Env, outcome: Outcome)
    requires CallOk(c)
    ensures HasGate(c) ==> HasGate(HostStep(c, env, outcome)) && (!c.host.Opened? ==> !HostStep(c, env, outcome).host.Opened?)
    ensures HasGate(c) && HostStep(c, env, outcome).held ==> c.held
    ensures HostStep(c, env, outcome).offer == c.offer
  {
    hide PhaseOk, BoxesGrow, HostStep;
    HostFollows(c, env, outcome);
    HostKeepsOpen(c, env, outcome);
  }

  /** The engine's operations leave the host where it is, and hold nothing. */
  predicate Settles(c: Call, d: Call)
  {
    && d.offer == c.offer && d.host == c.host && (d.held ==> c.held)
    && (d.editable == c.editable || (d.editable.None? && c.settling.Some?))
  }

  lemma OperationsSettle(c: Call, guard: Guard, cause: Cause, byHost: bool, t: Ticket)
    ensures Settles(c, SettleLocked(c, guard, cause, byHost)) && Settles(c, Advance(c)) && Settles(c, ReopenLocked(c, t))
  {
    hide Passes, Box, EditedOf, DecisionOf;
  }

  /** A verdict or a mailbox moves the host alone. */
  lemma MovesAlone(c: Call, t: Ticket, env: Env, outcome: Outcome, content: Content, handled: Option<Ticket>)
    ensures var d := Judge(c, t, env, outcome); !d.host.Opened? && !d.host.Prepared? && d == c.(host := d.host)
    ensures var d := Receive(c, content, handled); !d.host.Opened? && !d.host.Prepared? && d == c.(host := d.host)
  {
    hide WireCopy;
  }

  lemma HostKeepsOpen(c: Call, env: Env, outcome: Outcome)
    ensures var d := HostStep(c, env, outcome);
            && d.offer == c.offer && (!c.host.Prepared? ==> !d.host.Opened? && !d.host.Prepared? && (d.held ==> c.held))
            && (c.host.Opened? || d.editable == c.editable || (d.editable.None? && c.settling.Some?))
  {
    hide Passes, IsOverdue, BoxAt, Box, SettleLocked, Advance, ReopenLocked, Judge, Receive;
    match c.host
    case Checking(box, handled) => MovesAlone(c, 0, env, outcome, BoxAt(c, box), handled);
    case Waiting(box, handled) => MovesAlone(c, 0, env, outcome, BoxAt(c, box), handled);
    case Judging(t) => MovesAlone(c, t, env, outcome, Pending, None);
    case Completing(t, value, copy, at, checked) =>
      OperationsSettle(c, WithTicket(t), if t < |c.requests| then ByVerdict(t, c.requests[t].action, value, copy, at, checked) else ByOverrun, true, t);
    case Refusing(t) => OperationsSettle(c, Always, ByRelease, true, t);
    case Overrun(t) => OperationsSettle(c, WithTicket(t), ByOverrun, true, t);
    case Discarding(_) => OperationsSettle(c, Always, ByRelease, true, 0);
    case Finishing(_) => OperationsSettle(c, Always, ByRelease, true, 0);
    case _ =>
  }

  lemma HostKeepsOffer(c: Call, env: Env, outcome: Outcome)
    requires CallOk(c) && OfferOk(c)
    ensures OfferOk(HostStep(c, env, outcome))
  {
    HostKeepsOpen(c, env, outcome);
    if !c.host.Prepared? && !c.host.Opened? {
      hide HostStep, BoxesOk, CountResumed;
    }
  }

  lemma HostSound(c: Call, env: Env, outcome: Outcome)
    requires CallSound(c)
    ensures CallSound(HostStep(c, env, outcome))
  {
    hide CallOk, TurnOk, RecordOk, OfferOk, HostStep;
    HostStepOk(c, env, outcome);
    TurnHost(c, env, outcome);
    RecordHost(c, env, outcome);
    HostKeepsOffer(c, env, outcome);
  }

  lemma OtherSound(c: Call, o: Other)
    requires CallSound(c)
    ensures CallSound(OtherStep(c, o))
    ensures HasGate(c) ==> HasGate(OtherStep(c, o))
    ensures OtherStep(c, o).host == c.host && OtherStep(c, o).offer == c.offer
    ensures OtherStep(c, o).held ==> c.held
  {
    hide BoxesOk, HostOk, TurnOk, RecordOk, CountResumed;
    OtherOk(c, o);
    TurnOther(c, o);
    RecordOther(c, o);
  }

  lemma RefuseSound(c: Call)
    requires CallSound(c)
    ensures CallSound(RefuseEdit(c)) && Rank(RefuseEdit(c)) == Rank(c)
  {
    hide PhaseOk;
    var d := RefuseEdit(c);
    CountAppend(c.log, Refused);
    PhaseSame(c, d);
    RecordSame(c, d);
  }

  /** One call changed, the rest as they were. */
  lemma UpdateOk(s: Sys, p: nat, c: Call, t: Transport)
    requires SysOk(s) && p < |s.calls| && CallSound(c) && TransportOk(s.(calls := s.calls[p := c], transport := t))
    ensures SysOk(s.(calls := s.calls[p := c], transport := t))
  {
  }

  lemma HostNextOk(cfg: Config, s: Sys, p: nat, outcome: Outcome)
    requires SysOk(s) && p < |s.calls|
    ensures SysOk(Move(cfg, s, Host(p, outcome)))
  {
    hide CallOk, TurnOk, RecordOk, OfferOk, HostStep;
    var c := HostStep(s.calls[p], EnvOf(cfg, s), outcome);
    HostSound(s.calls[p], EnvOf(cfg, s), outcome);
    HostKeepsGate(s.calls[p], EnvOf(cfg, s), outcome);
    UpdateOk(s, p, c, s.transport);
  }

  lemma OtherNextOk(s: Sys, p: nat, o: Other, t: Transport)
    requires SysOk(s) && p < |s.calls| && (t == s.transport || t.Idle?)
    ensures SysOk(s.(calls := s.calls[p := OtherStep(s.calls[p], o)], transport := t))
  {
    hide CallSound, OtherStep;
    OtherSound(s.calls[p], o);
    UpdateOk(s, p, OtherStep(s.calls[p], o), t);
  }

  lemma EditNextOk(cfg: Config, s: Sys, p: nat, action: Action, proposed: Json)
    requires SysOk(s) && p < |s.calls|
    ensures SysOk(Move(cfg, s, Edit(p, action, proposed)))
  {
    hide HostOk, TurnOk, PhaseOk, RecordOk, HostStep, OtherStep;
    RefuseSound(s.calls[p]);
    if s.transport.Idle? {
      UpdateOk(s, p, RefuseEdit(s.calls[p]), Idle);
    }
  }

  lemma BuildNextOk(cfg: Config, s: Sys)
    requires SysOk(s)
    ensures SysOk(Move(cfg, s, Build))
  {
    hide PhaseOk, TurnOk, RecordOk, HostStep, OtherStep;
    if s.transport.Checked? {
      assert CallSound(s.calls[s.transport.p]);
    }
  }

  lemma EnterNextOk(cfg: Config, s: Sys, point: Point, asked: Asked)
    requires SysOk(s)
    ensures SysOk(Move(cfg, s, Enter(point, asked)))
  {
    NewCallOk(point, Offer(cfg, s, asked));
  }

  lemma StepFree(s: Sys, n: nat)
    requires SysOk(s)
    ensures SysOk(s.(step := n))
  {
  }

  lemma NextOk(cfg: Config, s: Sys, k: Step)
    requires SysOk(s)
    ensures SysOk(Next(cfg, s, k)) && |Next(cfg, s, k).calls| >= |s.calls|
  {
    hide CallSound, HostStep, OtherStep, Allowed, RefuseEdit, Offer;
    match k {
      case Attach(_) =>
      case Lose =>
      case Forget =>
      case Tick(_) =>
      case Enter(point, asked) => EnterNextOk(cfg, s, point, asked);
      case Host(p, outcome) => if p < |s.calls| { HostNextOk(cfg, s, p, outcome); }
      case Thread(p, other) => if p < |s.calls| { OtherNextOk(s, p, other, s.transport); }
      case Edit(p, action, proposed) => if p < |s.calls| { EditNextOk(cfg, s, p, action, proposed); }
      case Build => BuildNextOk(cfg, s);
      case Hand =>
        if s.transport.Built? && s.transport.p < |s.calls| {
          var r := s.transport;
          OtherNextOk(s, r.p, Begin(Request(r.action, r.proposed, r.validator, r.startedAt, r.at)), Idle);
        }
    }
    StepFree(Move(cfg, s, k), s.step + 1);
  }

  lemma {:induction false} StateOk(cfg: Config, h: seq<Step>)
    ensures SysOk(State(cfg, h)) && State(cfg, h).step == |h|
  {
    if h != [] {
      StateOk(cfg, h[..|h| - 1]);
      NextOk(cfg, State(cfg, h[..|h| - 1]), h[|h| - 1]);
    }
  }

  // ---- fail-open ----

  /** How many of the steps are the host's own. */
  function Turns(steps: seq<Step>, p: nat): nat
  {
    if steps == [] then 0 else (if steps[0].Host? && steps[0].p == p then 1 else 0) + Turns(steps[1..], p)
  }

  predicate NoAttach(steps: seq<Step>) { forall i | 0 <= i < |steps| :: !steps[i].Attach? }

  predicate HostLeft(s: Sys, p: nat) { p < |s.calls| && s.calls[p].host.Left? }

  lemma LeftStays(c: Call, env: Env, outcome: Outcome)
    requires c.host.Left?
    ensures HostStep(c, env, outcome) == c
  {
  }

  lemma DetachedStep(cfg: Config, s: Sys, k: Step, p: nat)
    requires SysOk(s) && !s.attached && !k.Attach? && p < |s.calls|
    ensures !Next(cfg, s, k).attached
    ensures HostLeft(s, p) ==> HostLeft(Next(cfg, s, k), p)
    ensures Rank(Next(cfg, s, k).calls[p]) <= Rank(s.calls[p])
    ensures k.Host? && k.p == p && !HostLeft(s, p) ==> Rank(Next(cfg, s, k).calls[p]) < Rank(s.calls[p])
  {
    hide CallOk, TurnOk, RecordOk, OfferOk, HostStep, OtherStep, Allowed, Rank;
    if k.Host? && k.p < |s.calls| {
      TurnHost(s.calls[k.p], EnvOf(cfg, s), k.outcome);
      if s.calls[k.p].host.Left? {
        LeftStays(s.calls[k.p], EnvOf(cfg, s), k.outcome);
      }
    } else if k.Thread? && k.p < |s.calls| && !k.other.Begin? {
      TurnOther(s.calls[k.p], k.other);
      OtherSound(s.calls[k.p], k.other);
    }
  }

  lemma RankPositive(c: Call)
    requires CallSound(c)
    ensures Rank(c) >= 0 && (Rank(c) == 0 <==> c.host.Left?)
  {
  }

  /**
   After a detach that is not followed by a re-attach, every host leaves its gate
   within `Rank` steps of its own, whatever every other thread does in between,
   and wherever the host was: even before it had registered the hold.
   */
  lemma {:induction false} DetachedHostLeaves(cfg: Config, s: Sys, steps: seq<Step>, p: nat)
    requires SysOk(s) && !s.attached && NoAttach(steps) && p < |s.calls|
    requires Turns(steps, p) >= Rank(s.calls[p])
    ensures HostLeft(Run(cfg, s, steps), p)
    decreases |steps|
  {
    RankPositive(s.calls[p]);
    if steps != [] {
      var k := steps[0];
      DetachedStep(cfg, s, k, p);
      NextOk(cfg, s, k);
      RankPositive(Next(cfg, s, k).calls[p]);
      assert NoAttach(steps[1..]);
      DetachedHostLeaves(cfg, Next(cfg, s, k), steps[1..], p);
    }
  }

  /** A host leaves with a plain continue unless a resume or a verdict settled its gate. */
  lemma LeavesPlainly(cfg: Config, h: seq<Step>, p: nat)
    requires HostLeft(State(cfg, h), p)
    ensures var c := State(cfg, h).calls[p];
            c.host.decision == CONTINUE
            || (c.settled.Some? && c.host.decision == DecisionOf(c.settled.value)
                && (c.settled.value.ByResume? || c.settled.value.ByVerdict?))
  {
    StateOk(cfg, h);
    LeavesWithDecision(State(cfg, h).calls[p]);
  }

  /** In every reachable state each pause is released at most once, and once it is over, exactly once. */
  lemma EachPauseReleasedOnce(cfg: Config, h: seq<Step>, p: nat)
    requires p < |State(cfg, h).calls|
    ensures var c := State(cfg, h).calls[p];
            && CountResumed(c.log) <= 1
            && (c.held ==> CountResumed(c.log) == 0)
            && (c.settled.Some? && c.settling.None? ==> CountResumed(c.log) == 1)
            && (c.held || c.settled.Some? || c.host.Prepared?) && !(c.held && c.settled.Some?)
            && (c.host.Left? ==> c.settled.Some? && (c.settling.None? ==> CountResumed(c.log) == 1))
  {
    StateOk(cfg, h);
    ReleasedExactlyOnce(State(cfg, h).calls[p]);
  }

  // ---- where an edited input comes from ----

  /** Step `at` let this edit through: every condition held in the state before it. */
  predicate LetThrough(cfg: Config, h: seq<Step>, p: nat, action: Action, proposed: Json, at: nat)
  {
    at < |h| && h[at] == Edit(p, action, proposed) && Allowed(cfg, State(cfg, h[..at]), p, action, proposed)
  }

  /** Step `at` is the host's verdict: in time, accepted by the gate's validator, with this wire copy. */
  predicate Validated(cfg: Config, h: seq<Step>, p: nat, t: Ticket, value: Json, copy: Json, at: nat)
  {
    at < |h| && h[at].Host? && h[at].p == p &&
    var s := State(cfg, h[..at]);
    p < |s.calls| && t < |s.calls[p].requests| && s.calls[p].host == Judging(t) &&
    var r := s.calls[p].requests[t];
    && s.now < r.startedAt + VALIDATION_TIMEOUT && WireCopy(value, cfg.hostForm) == Some(copy)
    && if r.validator.NoValidator? then value == r.proposed else h[at].outcome == Accept(value)
  }

  /** At step `at` the gate was still validating this ticket and not past its deadline. */
  predicate Timely(cfg: Config, h: seq<Step>, p: nat, t: Ticket, at: nat)
  {
    at < |h| && h[at].Host? && h[at].p == p &&
    var s := State(cfg, h[..at]);
    p < |s.calls| && Passes(s.calls[p], WithTicket(t)) && !IsOverdue(s.calls[p].gate.value, s.now, cfg.timeout)
  }

  predicate VerdictSound(cfg: Config, h: seq<Step>, p: nat, c: Call, v: Cause)
  {
    v.ByVerdict? ==>
      && v.ticket < |c.requests| && v.action == c.requests[v.ticket].action
      && Validated(cfg, h, p, v.ticket, v.value, v.copy, v.validatedAt) && Timely(cfg, h, p, v.ticket, v.checkedAt)
  }

  predicate CallTraced(cfg: Config, h: seq<Step>, p: nat, c: Call)
  {
    && (forall t | 0 <= t < |c.requests| ::
          LetThrough(cfg, h, p, c.requests[t].action, c.requests[t].proposed, c.requests[t].at) && c.offer == Some(c.requests[t].validator))
    && (c.host.Accepted? ==> Validated(cfg, h, p, c.host.ticket, c.host.value, c.host.copy, c.host.validatedAt))
    && (c.host.Completing? ==>
          Validated(cfg, h, p, c.host.ticket, c.host.value, c.host.copy, c.host.validatedAt)
          && Timely(cfg, h, p, c.host.ticket, c.host.checkedAt))
    && (c.settled.Some? ==> VerdictSound(cfg, h, p, c, c.settled.value))
  }

  predicate TransportTraced(cfg: Config, h: seq<Step>, t: Transport)
  {
    match t
    case Idle => true
    case Checked(p, action, proposed, at) => LetThrough(cfg, h, p, action, proposed, at)
    case Built(p, action, proposed, _, _, at) => LetThrough(cfg, h, p, action, proposed, at)
  }

  predicate Traced(cfg: Config, h: seq<Step>, s: Sys)
  {
    TransportTraced(cfg, h, s.transport) && forall p | 0 <= p < |s.calls| :: CallTraced(cfg, h, p, s.calls[p])
  }

  lemma LetThroughStays(cfg: Config, h: seq<Step>, k: Step, p: nat, action: Action, proposed: Json, at: nat)
    requires LetThrough(cfg, h, p, action, proposed, at)
    ensures LetThrough(cfg, h + [k], p, action, proposed, at)
  {
    assert (h + [k])[..at] == h[..at];
  }

  lemma ValidatedStays(cfg: Config, h: seq<Step>, k: Step, p: nat, t: Ticket, value: Json, copy: Json, at: nat)
    requires Validated(cfg, h, p, t, value, copy, at)
    ensures Validated(cfg, h + [k], p, t, value, copy, at)
  {
    assert (h + [k])[..at] == h[..at];
  }

  lemma TimelyStays(cfg: Config, h: seq<Step>, k: Step, p: nat, t: Ticket, at: nat)
    requires Timely(cfg, h, p, t, at)
    ensures Timely(cfg, h + [k], p, t, at)
  {
    assert (h + [k])[..at] == h[..at];
  }

  lemma CallTracedStays(cfg: Config, h: seq<Step>, k: Step, p: nat, c: Call)
    requires CallTraced(cfg, h, p, c)
    ensures CallTraced(cfg, h + [k], p, c)
  {
    forall t | 0 <= t < |c.requests|
      ensures LetThrough(cfg, h + [k], p, c.requests[t].action, c.requests[t].proposed, c.requests[t].at)
    {
      LetThroughStays(cfg, h, k, p, c.requests[t].action, c.requests[t].proposed, c.requests[t].at);
    }
    if c.host.Accepted? || c.host.Completing? {
      ValidatedStays(cfg, h, k, p, c.host.ticket, c.host.value, c.host.copy, c.host.validatedAt);
    }
    if c.host.Completing? {
      TimelyStays(cfg, h, k, p, c.host.ticket, c.host.checkedAt);
    }
    if c.settled.Some? && c.settled.value.ByVerdict? {
      var v := c.settled.value;
      ValidatedStays(cfg, h, k, p, v.ticket, v.value, v.copy, v.validatedAt);
      TimelyStays(cfg, h, k, p, v.ticket, v.checkedAt);
    }
  }

  /** What a step must keep of a call for its trace to carry over. */
  predicate Carries(c: Call, d: Call)
  {
    && d.requests == c.requests && d.offer == c.offer
    && (d.host.Accepted? || d.host.Completing? ==> d.host == c.host)
    && (d.settled == c.settled || (d.settled.Some? && !d.settled.value.ByVerdict?))
  }

  lemma CarriedTrace(cfg: Config, h: seq<Step>, k: Step, p: nat, c: Call, d: Call)
    requires CallTraced(cfg, h, p, c) && Carries(c, d)
    ensures CallTraced(cfg, h + [k], p, d)
  {
    CallTracedStays(cfg, h, k, p, c);
  }

  lemma HostCarries(c: Call, env: Env, outcome: Outcome)
    requires CallOk(c) && !c.host.Judging? && !c.host.Accepted? && !c.host.Completing?
    ensures Carries(c, HostStep(c, env, outcome))
  {
    hide PhaseOk, HostOk, WireCopy, IsOverdue, BoxAt, Box, EditedOf, DecisionOf;
  }

  lemma OtherCarries(c: Call, o: Other)
    requires !o.Begin?
    ensures Carries(c, OtherStep(c, o))
  {
    hide Box, EditedOf, DecisionOf;
  }

  lemma JudgedHere(cfg: Config, h: seq<Step>, p: nat, outcome: Outcome)
    requires State(cfg, h).step == |h| && p < |State(cfg, h).calls| && State(cfg, h).calls[p].host.Judging?
    ensures var s := State(cfg, h);
            var t := s.calls[p].host.ticket;
            var d := Judge(s.calls[p], t, EnvOf(cfg, s), outcome);
            && (d.host == Refusing(t) || d.host.Accepted?) && d == s.calls[p].(host := d.host)
            && (d.host.Accepted? ==>
                  Validated(cfg, h + [Host(p, outcome)], p, d.host.ticket, d.host.value, d.host.copy, d.host.validatedAt))
  {
    hide State;
    assert (h + [Host(p, outcome)])[..|h|] == h;
  }

  lemma RehostedTrace(cfg: Config, h: seq<Step>, p: nat, c: Call, host: Host)
    requires CallTraced(cfg, h, p, c) && !host.Completing?
    requires host.Accepted? ==> Validated(cfg, h, p, host.ticket, host.value, host.copy, host.validatedAt)
    ensures CallTraced(cfg, h, p, c.(host := host))
  {
  }

  lemma JudgedTrace(cfg: Config, h: seq<Step>, p: nat, outcome: Outcome)
    requires SysOk(State(cfg, h)) && State(cfg, h).step == |h| && p < |State(cfg, h).calls|
    requires var c := State(cfg, h).calls[p]; CallTraced(cfg, h, p, c) && c.host.Judging?
    ensures var s := State(cfg, h);
            CallTraced(cfg, h + [Host(p, outcome)], p, HostStep(s.calls[p], EnvOf(cfg, s), outcome))
  {
    hide State, Validated, LetThrough, Timely, CallTraced, CallSound;
    var s := State(cfg, h);
    var c := s.calls[p];
    JudgedHere(cfg, h, p, outcome);
    CallTracedStays(cfg, h, Host(p, outcome), p, c);
    RehostedTrace(cfg, h + [Host(p, outcome)], p, c, Judge(c, c.host.ticket, EnvOf(cfg, s), outcome).host);
  }

  lemma CheckedTrace(cfg: Config, h: seq<Step>, p: nat, outcome: Outcome)
    requires SysOk(State(cfg, h)) && State(cfg, h).step == |h| && p < |State(cfg, h).calls|
    requires var c := State(cfg, h).calls[p]; CallTraced(cfg, h, p, c) && c.host.Accepted?
    ensures var s := State(cfg, h);
            CallTraced(cfg, h + [Host(p, outcome)], p, HostStep(s.calls[p], EnvOf(cfg, s), outcome))
  {
    hide State, WireCopy, Validated, LetThrough, CallSound;
    var s := State(cfg, h);
    var c := s.calls[p];
    var k := Host(p, outcome);
    assert (h + [k])[..|h|] == h;
    CallTracedStays(cfg, h, k, p, c);
  }

  lemma CompletedTrace(cfg: Config, h: seq<Step>, p: nat, outcome: Outcome)
    requires SysOk(State(cfg, h)) && p < |State(cfg, h).calls|
    requires var c := State(cfg, h).calls[p]; CallTraced(cfg, h, p, c) && c.host.Completing?
    ensures var s := State(cfg, h);
            CallTraced(cfg, h + [Host(p, outcome)], p, HostStep(s.calls[p], EnvOf(cfg, s), outcome))
  {
    hide State, Validated, LetThrough, Timely, CallSound;
    var s := State(cfg, h);
    CallTracedStays(cfg, h, Host(p, outcome), p, s.calls[p]);
  }

  lemma HostTrace(cfg: Config, h: seq<Step>, p: nat, outcome: Outcome)
    requires SysOk(State(cfg, h)) && State(cfg, h).step == |h| && p < |State(cfg, h).calls|
    requires CallTraced(cfg, h, p, State(cfg, h).calls[p])
    ensures var s := State(cfg, h);
            CallTraced(cfg, h + [Host(p, outcome)], p, HostStep(s.calls[p], EnvOf(cfg, s), outcome))
  {
    var s := State(cfg, h);
    var c := s.calls[p];
    if c.host.Judging? {
      JudgedTrace(cfg, h, p, outcome);
    } else if c.host.Accepted? {
      CheckedTrace(cfg, h, p, outcome);
    } else if c.host.Completing? {
      CompletedTrace(cfg, h, p, outcome);
    } else {
      assert CallSound(c);
      HostCarries(c, EnvOf(cfg, s), outcome);
      CarriedTrace(cfg, h, Host(p, outcome), p, c, HostStep(c, EnvOf(cfg, s), outcome));
    }
  }

  lemma BegunTrace(cfg: Config, h: seq<Step>, p: nat, c: Call, r: Request)
    requires CallTraced(cfg, h, p, c) && LetThrough(cfg, h, p, r.action, r.proposed, r.at)
    requires c.held ==> c.offer == Some(r.validator)
    ensures CallTraced(cfg, h + [Hand], p, OtherStep(c, Begin(r)))
  {
    hide LetThrough, Validated, Timely;
    CallTracedStays(cfg, h, Hand, p, c);
    LetThroughStays(cfg, h, Hand, p, r.action, r.proposed, r.at);
  }

  /** The request the transport thread hands over. */
  function HandedRequest(t: Transport): Request
    requires t.Built?
  {
    Request(t.action, t.proposed, t.validator, t.startedAt, t.at)
  }

  /** In every reachable state the request handed over is one that was let through, for the validator its gate was offered with. */
  lemma HandedTrace(cfg: Config, h: seq<Step>)
    requires State(cfg, h).transport.Built?
    ensures var s := State(cfg, h);
            var t := s.transport;
            && t.p < |s.calls| && LetThrough(cfg, h, t.p, t.action, t.proposed, t.at)
            && (s.calls[t.p].held ==> s.calls[t.p].offer == Some(t.validator))
            && CallTraced(cfg, h + [Hand], t.p, OtherStep(s.calls[t.p], Begin(HandedRequest(t))))
  {
    hide State, CallTraced, LetThrough, OtherStep, CallSound;
    StateOk(cfg, h);
    StateTraced(cfg, h);
    var s := State(cfg, h);
    BegunTrace(cfg, h, s.transport.p, s.calls[s.transport.p], HandedRequest(s.transport));
  }

  lemma TransportTrace(cfg: Config, h: seq<Step>, k: Step)
    requires SysOk(State(cfg, h)) && State(cfg, h).step == |h| && TransportTraced(cfg, h, State(cfg, h).transport)
    ensures TransportTraced(cfg, h + [k], Next(cfg, State(cfg, h), k).transport)
  {
    hide State, HostStep, OtherStep, CallSound, Allowed;
    var s := State(cfg, h);
    assert (h + [k])[..|h|] == h;
    if !s.transport.Idle? {
      LetThroughStays(cfg, h, k, s.transport.p, s.transport.action, s.transport.proposed, s.transport.at);
    }
  }

  /** What a step does to one call: the host's own step, the request handed over, or nothing a trace depends on. */
  lemma StepOnCall(cfg: Config, s: Sys, k: Step, p: nat)
    requires p < |s.calls|
    ensures p < |Next(cfg, s, k).calls|
    ensures var c, d := s.calls[p], Next(cfg, s, k).calls[p];
            if k.Host? && k.p == p then d == HostStep(c, EnvOf(cfg, s), k.outcome)
            else if k.Hand? && s.transport.Built? && s.transport.p == p then
              var t := s.transport;
              d == OtherStep(c, Begin(Request(t.action, t.proposed, t.validator, t.startedAt, t.at)))
            else Carries(c, d)
  {
    hide HostStep;
    if k.Thread? && k.p == p && !k.other.Begin? {
      OtherCarries(s.calls[p], k.other);
    }
  }

  lemma TracedCall(cfg: Config, h: seq<Step>, k: Step, p: nat)
    requires SysOk(State(cfg, h)) && State(cfg, h).step == |h| && Traced(cfg, h, State(cfg, h)) && p < |State(cfg, h).calls|
    ensures p < |Next(cfg, State(cfg, h), k).calls| && CallTraced(cfg, h + [k], p, Next(cfg, State(cfg, h), k).calls[p])
  {
    hide HostStep, OtherStep, Next, State, CallTraced, Carries, LetThrough;
    var s := State(cfg, h);
    StepOnCall(cfg, s, k, p);
    if k.Host? && k.p == p {
      HostTrace(cfg, h, p, k.outcome);
    } else if k.Hand? && s.transport.Built? && s.transport.p == p {
      var t := s.transport;
      BegunTrace(cfg, h, p, s.calls[p], HandedRequest(t));
    } else {
      CarriedTrace(cfg, h, k, p, s.calls[p], Next(cfg, s, k).calls[p]);
    }
  }

  lemma EnteredTrace(cfg: Config, h: seq<Step>, s: Sys, k: Step, p: nat)
    requires |s.calls| <= p < |Next(cfg, s, k).calls|
    ensures CallTraced(cfg, h, p, Next(cfg, s, k).calls[p])
  {
  }

  lemma TracedStep(cfg: Config, h: seq<Step>, k: Step)
    requires SysOk(State(cfg, h)) && State(cfg, h).step == |h| && Traced(cfg, h, State(cfg, h))
    ensures Traced(cfg, h + [k], Next(cfg, State(cfg, h), k))
  {
    hide SysOk, State, Next, CallTraced, TransportTraced;
    var s := State(cfg, h);
    var r := Next(cfg, s, k);
    TransportTrace(cfg, h, k);
    forall p | 0 <= p < |r.calls| ensures CallTraced(cfg, h + [k], p, r.calls[p]) {
      if p < |s.calls| {
        TracedCall(cfg, h, k, p);
      } else {
        EnteredTrace(cfg, h + [k], s, k, p);
      }
    }
  }

  lemma StateAfter(cfg: Config, h: seq<Step>, k: Step)
    ensures State(cfg, h + [k]) == Next(cfg, State(cfg, h), k)
  {
    hide Next;
    assert (h + [k])[..|h|] == h;
  }

  lemma TracedInitially(cfg: Config)
    ensures Traced(cfg, [], State(cfg, []))
  {
  }

  lemma {:induction false} StateTraced(cfg: Config, h: seq<Step>)
    ensures Traced(cfg, h, State(cfg, h))
    decreases |h|
  {
    hide Traced, SysOk, Next, State;
    if h == [] {
      TracedInitially(cfg);
    } else {
      var before, k := h[..|h| - 1], h[|h| - 1];
      StateOk(cfg, before);
      StateTraced(cfg, before);
      TracedStep(cfg, before, k);
      StateAfter(cfg, before, k);
      assert before + [k] == h;
    }
  }

  /**
   A host leaves with an edited input only if one step let the edit through with
   every condition holding, the gate's own validator accepted that value in time,
   and the gate was still validating it before its deadline. exec.resumed then
   records the wire copy of what runs.
   */
  lemma EditProvenance(cfg: Config, h: seq<Step>, p: nat)
    requires HostLeft(State(cfg, h), p) && State(cfg, h).calls[p].host.decision.input.Some?
    ensures var c := State(cfg, h).calls[p];
            c.settled.Some? && c.settled.value.ByVerdict? &&
            var v := c.settled.value;
            && v.ticket < |c.requests| && c.host.decision == Decision(c.requests[v.ticket].action, Null, Some(v.value))
            && var r := c.requests[v.ticket];
               && LetThrough(cfg, h, p, r.action, r.proposed, r.at) && c.offer == Some(r.validator)
               && Validated(cfg, h, p, v.ticket, v.value, v.copy, v.validatedAt)
               && Timely(cfg, h, p, v.ticket, v.checkedAt)
               && exists i | 0 <= i < |c.log| :: c.log[i] == Resumed(r.action, Some(v.copy))
  {
    CallSoundAt(cfg, h, p);
    ProvenanceOf(cfg, h, p, State(cfg, h).calls[p]);
  }

  lemma CallSoundAt(cfg: Config, h: seq<Step>, p: nat)
    requires p < |State(cfg, h).calls|
    ensures CallSound(State(cfg, h).calls[p]) && CallTraced(cfg, h, p, State(cfg, h).calls[p])
  {
    StateOk(cfg, h);
    StateTraced(cfg, h);
  }

  lemma ProvenanceOf(cfg: Config, h: seq<Step>, p: nat, c: Call)
    requires CallSound(c) && CallTraced(cfg, h, p, c) && c.host.Left? && c.host.decision.input.Some?
    ensures c.settled.Some? && c.settled.value.ByVerdict? &&
            var v := c.settled.value;
            && v.ticket < |c.requests| && c.host.decision == Decision(c.requests[v.ticket].action, Null, Some(v.value))
            && var r := c.requests[v.ticket];
               && LetThrough(cfg, h, p, r.action, r.proposed, r.at) && c.offer == Some(r.validator)
               && Validated(cfg, h, p, v.ticket, v.value, v.copy, v.validatedAt)
               && Timely(cfg, h, p, v.ticket, v.checkedAt)
               && exists i | 0 <= i < |c.log| :: c.log[i] == Resumed(r.action, Some(v.copy))
  {
    hide LetThrough, Validated, Timely;
    LeavesWithDecision(c);
    ReleasedExactlyOnce(c);
    NoResumed(c.log);
  }
}
