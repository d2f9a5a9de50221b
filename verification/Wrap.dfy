/**
 The attempt loop of a wrapped tool: gate, run the body, gate again, and on a
 retry go round with the latest accepted edit.

 What the debugger and the body do is given as a script of rounds; a call whose
 script runs out is still running.
 */
module Wrap {
  import opened Json
  import opened Gate
  import opened Session

  /** `binds`: the function can be called with these arguments. */
  datatype Tool = Tool(hasSignature: bool, binds: Json -> bool)

  datatype Body = Gave(value: Json) | Raised(ordinary: bool, aborted: bool)

  /** One attempt: the before gate, the body, then the after gate or the error gate. */
  datatype Round = Round(pre: Decision, body: Body, post: Decision)

  datatype Status = Ok | Errored | Aborted

  /** One node.finished. */
  datatype NodeFinished = NodeFinished(output: Option<Json>, status: Status, injected: bool, recovered: bool)

  datatype End = Result(value: Json) | AbortRaised | Reraised | Unfinished

  datatype Trace = Trace(ran: seq<Json>, finished: seq<NodeFinished>, end: End)

  // ---- what the loop does ----

  /** The edit of a decision a call can adopt. */
  function EditedArgs(f: Tool, d: Decision): Option<Json>
  {
    if (d.action == Continue || d.action == Retry) && d.input.Some? && f.hasSignature
       && d.input.value.Obj? && f.binds(d.input.value) then d.input
    else None
  }

  function Adopt(f: Tool, args: Json, d: Decision): Json
  {
    var edited := EditedArgs(f, d);
    if edited.Some? then edited.value else args
  }

  datatype Verdict = Ends(finish: NodeFinished, end: End) | Again

  function Before(d: Decision): Verdict
  {
    if d.action == Abort then Ends(NodeFinished(None, Aborted, false, false), AbortRaised)
    else if d.action == Inject then Ends(NodeFinished(Some(d.output), Ok, true, false), Result(d.output))
    else Again
  }

  function AfterBody(body: Body, d: Decision): Verdict
  {
    match body
    case Gave(value) =>
      if d.action == Inject then Ends(NodeFinished(Some(d.output), Ok, true, false), Result(d.output))
      else if d.action == Retry then Again
      else if d.action == Abort then Ends(NodeFinished(Some(value), Aborted, false, false), AbortRaised)
      else Ends(NodeFinished(Some(value), Ok, false, false), Result(value))
    case Raised(ordinary, aborted) =>
      if !ordinary || aborted then Ends(NodeFinished(None, if aborted then Aborted else Errored, false, false), Reraised)
      else if d.action == Inject then Ends(NodeFinished(Some(d.output), Ok, true, true), Result(d.output))
      else if d.action == Retry then Again
      else if d.action == Abort then Ends(NodeFinished(None, Aborted, false, false), AbortRaised)
      else Ends(NodeFinished(None, Errored, false, false), Reraised)
  }

  function RunCall(f: Tool, args: Json, rounds: seq<Round>): Trace
    decreases |rounds|
  {
    if rounds == [] then Trace([], [], Unfinished)
    else
      var r := rounds[0];
      var before := Before(r.pre);
      if before.Ends? then Trace([], [before.finish], before.end)
      else
        var live := Adopt(f, args, r.pre);
        var after := AfterBody(r.body, r.post);
        if after.Ends? then Trace([live], [after.finish], after.end)
        else
          var rest := RunCall(f, Adopt(f, live, r.post), rounds[1..]);
          Trace([live] + rest.ran, rest.finished, rest.end)
  }

  class CallArgs {
    const f: Tool
    var args: Json

    constructor (f: Tool, args: Json)
      ensures this.f == f && this.args == args
    {
      this.f := f;
      this.args := args;
    }

    /** Adopts the accepted edit a decision carries, if any. */
    method Apply(d: Decision)
      modifies this
      ensures args == Adopt(f, old(args), d)
    {
      if !((d.action == Continue || d.action == Retry) && d.input.Some?) {
        return;
      }
      if !f.hasSignature || !d.input.value.Obj? {
        return;
      }
      if !f.binds(d.input.value) {
        return;
      }
      args := d.input.value;
    }
  }

  /** The attempts so far, then the rest. */
  function Joined(ran: seq<Json>, t: Trace): Trace { Trace(ran + t.ran, t.finished, t.end) }

  lemma StartsJoined(t: Trace)
    ensures Joined([], t) == t
  {
  }

  lemma NothingLeft(f: Tool, args: Json, ran: seq<Json>)
    ensures Joined(ran, RunCall(f, args, [])) == Trace(ran, [], Unfinished)
  {
  }

  /** One round, whatever ran before it. */
  lemma RoundRuns(f: Tool, args: Json, rounds: seq<Round>, ran: seq<Json>)
    requires rounds != []
    ensures var r := rounds[0];
            var before, live, after := Before(r.pre), Adopt(f, args, r.pre), AfterBody(r.body, r.post);
            Joined(ran, RunCall(f, args, rounds)) ==
            if before.Ends? then Trace(ran, [before.finish], before.end)
            else if after.Ends? then Trace(ran + [live], [after.finish], after.end)
            else Joined(ran + [live], RunCall(f, Adopt(f, live, r.post), rounds[1..]))
  {
    hide Before, AfterBody, Adopt;
    var live := Adopt(f, args, rounds[0].pre);
    var rest := RunCall(f, Adopt(f, live, rounds[0].post), rounds[1..]);
    assert ran + ([live] + rest.ran) == ran + [live] + rest.ran;
  }

  method RunSync(f: Tool, host: Json, rounds: seq<Round>) returns (t: Trace)
    ensures t == RunCall(f, host, rounds)
  {
    hide RunCall, Joined, Adopt, EditedArgs;
    StartsJoined(RunCall(f, host, rounds));
    var call := new CallArgs(f, host);
    var ran: seq<Json> := [];
    var i := 0;
    while i < |rounds|
      invariant i <= |rounds| && fresh(call) && call.f == f
      invariant RunCall(f, host, rounds) == Joined(ran, RunCall(f, call.args, rounds[i..]))
    {
      var pre, body, post := rounds[i].pre, rounds[i].body, rounds[i].post;
      ghost var left := rounds[i..];
      assert left[0] == rounds[i] && left[1..] == rounds[i + 1..];
      RoundRuns(f, call.args, left, ran);
      i := i + 1;
      if pre.action == Abort {
        return Trace(ran, [NodeFinished(None, Aborted, false, false)], AbortRaised);
      }
      if pre.action == Inject {
        return Trace(ran, [NodeFinished(Some(pre.output), Ok, true, false)], Result(pre.output));
      }
      call.Apply(pre);
      ran := ran + [call.args];
      if body.Raised? {
        if !body.ordinary || body.aborted {
          return Trace(ran, [NodeFinished(None, if body.aborted then Aborted else Errored, false, false)], Reraised);
        }
        if post.action == Inject {
          return Trace(ran, [NodeFinished(Some(post.output), Ok, true, true)], Result(post.output));
        }
        if post.action == Retry {
          call.Apply(post);
          continue;
        }
        if post.action == Abort {
          return Trace(ran, [NodeFinished(None, Aborted, false, false)], AbortRaised);
        }
        return Trace(ran, [NodeFinished(None, Errored, false, false)], Reraised);
      }
      if post.action == Inject {
        return Trace(ran, [NodeFinished(Some(post.output), Ok, true, false)], Result(post.output));
      }
      if post.action == Retry {
        call.Apply(post);
        continue;
      }
      if post.action == Abort {
        return Trace(ran, [NodeFinished(Some(body.value), Aborted, false, false)], AbortRaised);
      }
      return Trace(ran, [NodeFinished(Some(body.value), Ok, false, false)], Result(body.value));
    }
    assert rounds[i..] == [];
    NothingLeft(f, call.args, ran);
    return Trace(ran, [], Unfinished);
  }

  // ---- what it promises ----

  /** The decisions a call received up to its k-th attempt. */
  function Offered(rounds: seq<Round>, k: nat): seq<Decision>
    requires k < |rounds|
    decreases |rounds|
  {
    if k == 0 then [rounds[0].pre] else [rounds[0].pre, rounds[0].post] + Offered(rounds[1..], k - 1)
  }

  /** The latest edit among some decisions, else the host's own arguments. */
  function Latest(f: Tool, host: Json, ds: seq<Decision>): Json
  {
    if ds == [] then host
    else
      var edited := EditedArgs(f, ds[|ds| - 1]);
      if edited.Some? then edited.value else Latest(f, host, ds[..|ds| - 1])
  }

  lemma {:induction false} LatestAfter(f: Tool, host: Json, d: Decision, ds: seq<Decision>)
    ensures Latest(f, host, [d] + ds) == Latest(f, Adopt(f, host, d), ds)
    decreases |ds|
  {
    if ds == [] {
      assert ([d] + ds)[..0] == [];
    } else {
      assert ([d] + ds)[..|ds|] == [d] + ds[..|ds| - 1];
      LatestAfter(f, host, d, ds[..|ds| - 1]);
    }
  }

  /** Attempt k runs with the latest accepted edit, and with the host's arguments before the first. */
  lemma {:induction false} RunsLatestEdit(f: Tool, host: Json, rounds: seq<Round>, k: nat)
    requires k < |RunCall(f, host, rounds).ran|
    ensures k < |rounds| && RunCall(f, host, rounds).ran[k] == Latest(f, host, Offered(rounds, k))
    decreases |rounds|
  {
    hide EditedArgs, Adopt;
    var r := rounds[0];
    var live := Adopt(f, host, r.pre);
    if k == 0 {
      LatestAfter(f, host, r.pre, []);
      assert [r.pre] + [] == [r.pre];
    } else {
      var next := Adopt(f, live, r.post);
      RunsLatestEdit(f, next, rounds[1..], k - 1);
      var rest := Offered(rounds[1..], k - 1);
      LatestAfter(f, live, r.post, rest);
      LatestAfter(f, host, r.pre, [r.post] + rest);
      assert [r.pre] + ([r.post] + rest) == [r.pre, r.post] + rest;
    }
  }

  /** A call that ends is finished exactly once; one that goes on not at all. */
  lemma {:induction false} FinishedOnce(f: Tool, host: Json, rounds: seq<Round>)
    ensures var t := RunCall(f, host, rounds); |t.finished| == if t.end.Unfinished? then 0 else 1
    decreases |rounds|
  {
    if rounds != [] && Before(rounds[0].pre).Again? && AfterBody(rounds[0].body, rounds[0].post).Again? {
      FinishedOnce(f, Adopt(f, Adopt(f, host, rounds[0].pre), rounds[0].post), rounds[1..]);
    }
  }

  lemma {:induction false} LatestComesFrom(f: Tool, host: Json, ds: seq<Decision>) returns (i: nat)
    requires Latest(f, host, ds) != host
    ensures i < |ds| && ds[i].input == Some(Latest(f, host, ds))
  {
    if EditedArgs(f, ds[|ds| - 1]).Some? {
      i := |ds| - 1;
    } else {
      i := LatestComesFrom(f, host, ds[..|ds| - 1]);
    }
  }

  /** The decision is what the gate call of pause p returned: the shared continue, or what its host left with. */
  predicate Gated(cfg: Config, h: seq<Step>, p: nat, d: Decision)
  {
    d == CONTINUE || (HostLeft(State(cfg, h), p) && State(cfg, h).calls[p].host.decision == d)
  }

  /**
   A body that runs with anything but the host's arguments runs with a value that
   one of the call's own gates let through, validated and recorded.
   */
  lemma EditedRunProvenance(cfg: Config, h: seq<Step>, f: Tool, host: Json, rounds: seq<Round>, k: nat, pauses: seq<nat>)
    returns (p: nat)
    requires k < |RunCall(f, host, rounds).ran| && RunCall(f, host, rounds).ran[k] != host
    requires k < |rounds| && |pauses| == |Offered(rounds, k)|
    requires forall i | 0 <= i < |pauses| :: Gated(cfg, h, pauses[i], Offered(rounds, k)[i])
    ensures p in pauses && p < |State(cfg, h).calls|
    ensures var c := State(cfg, h).calls[p];
            c.settled.Some? && c.settled.value.ByVerdict? && c.settled.value.value == RunCall(f, host, rounds).ran[k] &&
            var v := c.settled.value;
            && v.ticket < |c.requests|
            && var r := c.requests[v.ticket];
               && LetThrough(cfg, h, p, r.action, r.proposed, r.at) && c.offer == Some(r.validator)
               && Validated(cfg, h, p, v.ticket, v.value, v.copy, v.validatedAt)
               && Timely(cfg, h, p, v.ticket, v.checkedAt)
               && WireCopy(v.value, cfg.hostForm) == Some(v.copy)
               && exists i | 0 <= i < |c.log| :: c.log[i] == Resumed(r.action, Some(v.copy))
  {
    RunsLatestEdit(f, host, rounds, k);
    var i := LatestComesFrom(f, host, Offered(rounds, k));
    p := pauses[i];
    EditProvenance(cfg, h, p);
  }

  // ---- how a call ends ----

  /** The before gate let the body run. */
  predicate BodyRuns(r: Round) { r.pre.action != Abort && r.pre.action != Inject }

  /** The body returned, or raised what the error gate may look at: the after or error gate decides. */
  predicate SecondGate(r: Round) { BodyRuns(r) && (r.body.Gave? || (r.body.ordinary && !r.body.aborted)) }

  predicate Retries(r: Round) { SecondGate(r) && r.post.action == Retry }

  predicate Aborts(r: Round) { r.pre.action == Abort || (SecondGate(r) && r.post.action == Abort) }

  /** A gate of the round injected this output. */
  predicate Injects(r: Round, v: Json)
  {
    (r.pre.action == Inject && v == r.pre.output) || (SecondGate(r) && r.post.action == Inject && v == r.post.output)
  }

  predicate Returns(r: Round, v: Json) { BodyRuns(r) && r.body == Gave(v) && r.post.action == Continue }

  /** The body raised, and no gate injected, retried or aborted. */
  predicate Raises(r: Round) { BodyRuns(r) && r.body.Raised? && (!SecondGate(r) || r.post.action == Continue) }

  /** The one node.finished of a call that ends in this round. */
  ghost predicate RecordOf(r: Round, n: NodeFinished)
  {
    && (forall v :: Injects(r, v) ==> n.output == Some(v))
    && (r.pre.action != Inject && !(SecondGate(r) && r.post.action == Inject) ==>
          n.output == if BodyRuns(r) && r.body.Gave? then Some(r.body.value) else None)
    && (n.injected <==> r.pre.action == Inject || (SecondGate(r) && r.post.action == Inject))
    && (n.recovered <==> SecondGate(r) && r.body.Raised? && r.post.action == Inject)
    && (n.status == Aborted <==> Aborts(r) || (Raises(r) && r.body.aborted))
    && (n.status == Errored <==> Raises(r) && !r.body.aborted)
  }

  lemma RoundEnds(f: Tool, host: Json, rounds: seq<Round>, v: Json)
    requires rounds != [] && !Retries(rounds[0])
    ensures var r, t := rounds[0], RunCall(f, host, rounds);
            && (t.end == Result(v) <==> Returns(r, v) || Injects(r, v))
            && (t.end == AbortRaised <==> Aborts(r)) && (t.end == Reraised <==> Raises(r)) && !t.end.Unfinished?
            && |t.finished| == 1 && RecordOf(r, t.finished[0]) && |t.ran| == if BodyRuns(r) then 1 else 0
  {
  }

  lemma RoundRetries(f: Tool, host: Json, rounds: seq<Round>) returns (next: Json)
    requires rounds != [] && Retries(rounds[0])
    ensures var t, rest := RunCall(f, host, rounds), RunCall(f, next, rounds[1..]);
            t.end == rest.end && t.finished == rest.finished && |t.ran| == 1 + |rest.ran|
  {
    next := Adopt(f, Adopt(f, host, rounds[0].pre), rounds[0].post);
  }

  /**
   A call ends in its first round that is no retry: with what the body gave under a
   continue or what a gate injected, with an abort a gate decided, or with what the
   body raised past its gates; and with the one record that says so.
   */
  lemma {:induction false} CallEnds(f: Tool, host: Json, rounds: seq<Round>, i: nat, v: Json)
    requires i < |rounds| && !Retries(rounds[i]) && forall j | 0 <= j < i :: Retries(rounds[j])
    ensures var r, t := rounds[i], RunCall(f, host, rounds);
            && (t.end == Result(v) <==> Returns(r, v) || Injects(r, v))
            && (t.end == AbortRaised <==> Aborts(r)) && (t.end == Reraised <==> Raises(r)) && !t.end.Unfinished?
            && |t.finished| == 1 && RecordOf(r, t.finished[0]) && |t.ran| == i + if BodyRuns(r) then 1 else 0
    decreases |rounds|
  {
    if i == 0 {
      RoundEnds(f, host, rounds, v);
    } else {
      hide RunCall, RecordOf, Retries, Injects, Returns, Aborts, Raises, BodyRuns;
      var next := RoundRetries(f, host, rounds);
      assert rounds[1..][i - 1] == rounds[i];
      assert forall j | 0 <= j < i - 1 :: rounds[1..][j] == rounds[j + 1];
      CallEnds(f, next, rounds[1..], i - 1, v);
    }
  }

  /** While every round is a retry the call goes on. */
  lemma {:induction false} CallGoesOn(f: Tool, host: Json, rounds: seq<Round>)
    requires forall j | 0 <= j < |rounds| :: Retries(rounds[j])
    ensures var t := RunCall(f, host, rounds); t.end.Unfinished? && t.finished == [] && |t.ran| == |rounds|
    decreases |rounds|
  {
    if rounds != [] {
      hide Retries;
      var next := RoundRetries(f, host, rounds);
      assert forall j | 0 <= j < |rounds| - 1 :: rounds[1..][j] == rounds[j + 1];
      CallGoesOn(f, next, rounds[1..]);
    }
  }

  // ---- what an attempt runs with ----

  /** A decision the call can run with: a continue or a retry with an input that is a mapping the function takes. */
  predicate Usable(f: Tool, d: Decision)
  {
    && (d.action == Continue || d.action == Retry) && d.input.Some? && d.input.value.Obj?
    && f.hasSignature && f.binds(d.input.value)
  }

  /** The last usable decision is the j-th, or there is none. */
  predicate LastUsable(f: Tool, ds: seq<Decision>, j: Option<nat>)
  {
    match j
    case Some(n) => n < |ds| && Usable(f, ds[n]) && forall k | n < k < |ds| :: !Usable(f, ds[k])
    case None => forall k | 0 <= k < |ds| :: !Usable(f, ds[k])
  }

  lemma {:induction false} LatestExactly(f: Tool, host: Json, ds: seq<Decision>) returns (j: Option<nat>)
    ensures LastUsable(f, ds, j) && Latest(f, host, ds) == if j.Some? then ds[j.value].input.value else host
  {
    if ds == [] {
      j := None;
    } else {
      var n := |ds| - 1;
      UsableMeans(f, ds[n]);
      hide Usable, EditedArgs;
      if Usable(f, ds[n]) {
        j := Some(n);
      } else {
        j := LatestExactly(f, host, ds[..n]);
        assert forall k | 0 <= k < n :: ds[..n][k] == ds[k];
      }
    }
  }

  lemma UsableMeans(f: Tool, d: Decision)
    ensures EditedArgs(f, d) == if Usable(f, d) then d.input else None
    ensures Usable(f, d) ==> d.input.Some?
  {
  }

  /** Attempt k runs with the input of the last usable decision before it, else with the host's own arguments. */
  lemma AttemptRunsWith(f: Tool, host: Json, rounds: seq<Round>, k: nat) returns (j: Option<nat>)
    requires k < |RunCall(f, host, rounds).ran|
    ensures k < |rounds| && LastUsable(f, Offered(rounds, k), j)
    ensures RunCall(f, host, rounds).ran[k] == if j.Some? then Offered(rounds, k)[j.value].input.value else host
  {
    hide RunCall, Latest, LastUsable;
    RunsLatestEdit(f, host, rounds, k);
    j := LatestExactly(f, host, Offered(rounds, k));
  }
}
