/**
 The redactor as an object: two bounded dictionaries and the loops that build
 redacted copies, each method proved equal to its function in `Redaction`.
 */
module Redactor {
  import opened Utf16
  import opened Json
  import opened Schema
  import opened ShrinkSpec
  import opened OrderedDict
  import opened Redaction

  function Suffixed(rest: Inspect<(seq<Json>, nat)>, last: Inspect<(Json, nat)>): Inspect<(seq<Json>, nat)>
  {
    if rest.Bad? || last.Bad? then Bad else Good((rest.value.0 + [last.value.0], rest.value.1 + last.value.1))
  }

  lemma BothEnds(first: Inspect<(Json, nat)>, rest: Inspect<(seq<Json>, nat)>, last: Inspect<(Json, nat)>)
    ensures Prefixed(first, Suffixed(rest, last)) == Suffixed(Prefixed(first, rest), last)
    ensures Prefixed(last, Good(([], 0))) == Suffixed(Good(([], 0)), last)
  {
    if first.Good? && rest.Good? && last.Good? {
      assert [first.value.0] + (rest.value.0 + [last.value.0]) == ([first.value.0] + rest.value.0) + [last.value.0];
    }
    assert last.Good? ==> [last.value.0] + [] == [] + [last.value.0];
  }

  lemma {:induction false} HideDeltasPrefix(a: seq<Json>, d: Json, all: bool, args: bool)
    ensures HideDeltas(a + [d], all, args) == Suffixed(HideDeltas(a, all, args), HideDelta(d, all, args))
    decreases |a|
  {
    if a == [] {
      assert [] + [d] == [d] && [d][1..] == [];
      BothEnds(HideDelta(d, all, args), Good(([], 0)), HideDelta(d, all, args));
    } else {
      assert (a + [d])[1..] == a[1..] + [d] && (a + [d])[0] == a[0];
      HideDeltasPrefix(a[1..], d, all, args);
      BothEnds(HideDelta(a[0], all, args), HideDeltas(a[1..], all, args), HideDelta(d, all, args));
    }
  }

  lemma {:induction false} HideDeltasBad(a: seq<Json>, b: seq<Json>, all: bool, args: bool)
    requires HideDeltas(a, all, args).Bad?
    ensures HideDeltas(a + b, all, args).Bad?
    decreases |a|
  {
    if a != [] {
      assert (a + b)[1..] == a[1..] + b;
      if HideDelta(a[0], all, args).Good? {
        HideDeltasBad(a[1..], b, all, args);
      }
    }
  }

  lemma NoDeltas(all: bool, args: bool)
    ensures HideDeltas([], all, args) == Good(([], 0))
  {
  }

  /** The loop over a batch of deltas, each read once into a copy. */
  method HideBatch(deltas: seq<Json>, all: bool, args: bool) returns (r: Inspect<(seq<Json>, nat)>)
    ensures r == HideDeltas(deltas, all, args)
  {
    hide HideDeltas, Identity, SetKey, Count;
    var count := 0;
    var out: seq<Json> := [];
    NoDeltas(all, args);
    var i := 0;
    while i < |deltas|
      invariant i <= |deltas| && HideDeltas(deltas[..i], all, args) == Good((out, count))
    {
      var delta := deltas[i];
      assert deltas[..i + 1] == deltas[..i] + [delta];
      assert deltas == deltas[..i + 1] + deltas[i + 1..];
      HideDeltasPrefix(deltas[..i], delta, all, args);
      i := i + 1;
      if delta.Null? {
        out := out + [delta];
        continue;
      }
      if !delta.Obj? {
        HideDeltasBad(deltas[..i], deltas[i..], all, args);
        return Bad;
      }
      var channel := Identity(delta.fields, TYPE_KEY);
      if channel.Bad? {
        HideDeltasBad(deltas[..i], deltas[i..], all, args);
        return Bad;
      }
      var covered := all || (args && channel.value == Some(TOOL_ARGS));
      var value := Get(delta.fields, VALUE_KEY);
      if !covered || value.None? {
        out := out + [delta];
        continue;
      }
      if !value.value.Str? {
        HideDeltasBad(deltas[..i], deltas[i..], all, args);
        return Bad;
      }
      if value.value.text == [] {
        out := out + [delta];
        continue;
      }
      count := count + 1;
      out := out + [Obj(SetKey(SetKey(delta.fields, VALUE_KEY, Str([])), CHARS, Count(|value.value.text|)))];
    }
    assert deltas[..i] == deltas;
    return Good((out, count));
  }

  /** The loop over the argument fields of one call. */
  method HideEntry(call: seq<Field>) returns (entry: seq<Field>, count: nat)
    ensures (entry, count) == HideArgs(call, ARG_KEYS)
  {
    entry, count := call, 0;
    var k := 0;
    while k < |ARG_KEYS|
      invariant k <= |ARG_KEYS|
      invariant HideArgs(call, ARG_KEYS) == (HideArgs(entry, ARG_KEYS[k..]).0, count + HideArgs(entry, ARG_KEYS[k..]).1)
    {
      var key := ARG_KEYS[k];
      assert ARG_KEYS[k..][1..] == ARG_KEYS[k + 1..];
      if Visible(entry, key) {
        entry := SetKey(entry, key, Str(REDACTED));
        count := count + 1;
      }
      k := k + 1;
    }
  }

  lemma {:induction false} HideCallsPrefix(a: seq<Json>, c: Json)
    ensures HideCalls(a + [c]) == (HideCalls(a).0 + [HideCall(c).0], HideCalls(a).1 + HideCall(c).1)
    decreases |a|
  {
    hide HideCall;
    if a == [] {
      assert [] + [c] == [c] && [c][1..] == [];
      var x: Json := HideCall(c).0;
      assert [x] + [] == [] + [x];
    } else {
      assert (a + [c])[1..] == a[1..] + [c] && (a + [c])[0] == a[0];
      HideCallsPrefix(a[1..], c);
      var first, rest, last := HideCall(a[0]).0, HideCalls(a[1..]).0, HideCall(c).0;
      assert [first] + (rest + [last]) == ([first] + rest) + [last];
    }
  }

  /** The loop over the tool calls a model requested. */
  method HideRequested(calls: seq<Json>) returns (hidden: seq<Json>, count: nat)
    ensures (hidden, count) == HideCalls(calls)
  {
    hidden, count := [], 0;
    var i := 0;
    while i < |calls|
      invariant i <= |calls| && (hidden, count) == HideCalls(calls[..i])
    {
      var call := calls[i];
      assert calls[..i + 1] == calls[..i] + [call];
      HideCallsPrefix(calls[..i], call);
      i := i + 1;
      if call.Null? || IsPlaceholder(call) {
        hidden := hidden + [call];
        continue;
      }
      if !call.Obj? {
        count := count + 1;
        hidden := hidden + [Str(REDACTED)];
        continue;
      }
      var entry, n := HideEntry(call.fields);
      count := count + n;
      hidden := hidden + [Obj(entry)];
    }
    assert calls[..i] == calls;
  }

  /** The oldest entries go until n are left. */
  method EvictOldest<K, V>(d: Dict<K, V>, n: nat) returns (r: Dict<K, V>)
    ensures r == Newest(d, n)
  {
    r := d;
    while |r| > n
      invariant |r| <= |d| && r == d[|d| - |r|..] && (|r| >= n || r == d)
    {
      r := r[1..];
    }
  }

  class Redactor {
    const switches: Switches
    const max: nat
    var nodes: Dict<NodeKey, Text>
    var instances: Dict<InstanceKey, Text>

    function Value(): Tracking
      reads this
    {
      Tracking(max, nodes, instances)
    }

    constructor (switches: Switches, max: int)
      ensures this.switches == switches && Value() == Tracking(if max < 1 then 1 else max, [], [])
    {
      this.switches, this.max := switches, if max < 1 then 1 else max;
      nodes, instances := [], [];
    }

    method Learn(run: Text, node: Text, id: Option<Text>, kind: Text)
      modifies this
      ensures Value() == Remember(old(Value()), run, node, id, kind)
    {
      nodes := Remove(nodes, (run, node));
      nodes := EvictOldest(Put(nodes, (run, node), kind), MAX_TRACKED_NODES);
      if id.Some? {
        instances := EvictOldest(Put(instances, (run, node, id.value), kind), max);
      }
    }

    method Drop(run: Text, node: Option<Text>, id: Option<Text>)
      modifies this`instances
      ensures Value() == ForgetInstance(old(Value()), run, node, id)
    {
      if node.Some? && id.Some? {
        instances := Remove(instances, (run, node.value, id.value));
      }
    }

    method StartedEvent(fs: seq<Field>, run: Text) returns (r: Inspect<Json>)
      modifies this
      ensures r == OnStarted(switches, fs)
      ensures Value() == if r.Good? then AfterStarted(old(Value()), fs, run) else old(Value())
    {
      var kind, node, id := Identity(fs, KIND), Identity(fs, NODE_ID), Identity(fs, INSTANCE_ID);
      if kind.Bad? || node.Bad? || id.Bad? {
        return Bad;
      }
      if node.value.Some? && kind.value.Some? {
        Learn(run, node.value.value, id.value, kind.value.value);
      }
      if !HidesInput(switches, kind.value) || !Visible(fs, INPUT) {
        return Good(Obj(fs));
      }
      return Good(HideField(fs, INPUT, Str(REDACTED)));
    }

    method FinishedEvent(fs: seq<Field>, run: Text) returns (r: Inspect<Json>)
      modifies this`instances
      ensures r == OnFinished(switches, old(Value()), fs, run)
      ensures Value() == if r.Good? then ForgetInstance(old(Value()), run, IdOf(fs, NODE_ID), IdOf(fs, INSTANCE_ID)) else old(Value())
    {
      var node, id := Identity(fs, NODE_ID), Identity(fs, INSTANCE_ID);
      if node.Bad? || id.Bad? {
        return Bad;
      }
      var kind := if node.value.Some? then KindOf(Value(), run, node.value.value, id.value) else None;
      Drop(run, node.value, id.value);
      if HidesOutput(switches, kind) {
        return if Visible(fs, OUTPUT) then Good(HideField(fs, OUTPUT, Str(REDACTED))) else Good(Obj(fs));
      }
      if switches.hideToolArgs || switches.hideInputs {
        var out := ToolCallArgs(fs);
        return Good(out);
      }
      return Good(Obj(fs));
    }

    method ToolCallArgs(fs: seq<Field>) returns (r: Json)
      ensures r == HideToolCallArgs(fs)
    {
      if !CarriesCalls(fs) {
        return Obj(fs);
      }
      var inner := Get(fs, OUTPUT).value.fields;
      var calls := Get(inner, TOOL_CALLS).value;
      if !calls.Arr? {
        return WithCalls(fs, inner, Str(REDACTED), 1);
      }
      var hidden, count := HideRequested(calls.items);
      return WithCalls(fs, inner, Arr(hidden), count);
    }

    method TokenEvent(fs: seq<Field>, run: Text) returns (r: Inspect<Json>)
      ensures r == OnToken(switches, Value(), fs, run)
    {
      var node := Identity(fs, NODE_ID);
      if node.Bad? {
        return Bad;
      }
      var all := HidesAllDeltas(switches, Value(), fs, run);
      var args := switches.hideToolArgs || switches.hideInputs;
      if !all && !args {
        return Good(Obj(fs));
      }
      var deltas := Get(fs, DELTAS);
      if deltas.None? || !deltas.value.Arr? {
        return Bad;
      }
      var hidden := HideBatch(deltas.value.items, all, args);
      if hidden.Bad? {
        return Bad;
      }
      var out := SetKey(fs, DELTAS, Arr(hidden.value.0));
      if hidden.value.1 == 0 {
        return Good(Obj(out));
      }
      return Good(Obj(SetKey(out, REDACTION, MergeSummary(Get(fs, REDACTION), hidden.value.1, DELTAS))));
    }

    /** The failed form, or nothing; a start is still learned and a finish still forgotten. */
    method FailClosed(e: Event) returns (out: Out)
      requires IsNodeEvent(e.t) || IsAnswer(e.t)
      modifies this
      ensures var form := FailedForm(e.t, e.payload); out == if form.Some? then Sent(form.value) else Dropped
      ensures Value() == AfterFailed(old(Value()), e.t, e.payload, e.run)
    {
      var form := FailedForm(e.t, e.payload);
      var node, id := ReadText(e.payload, NODE_ID), ReadText(e.payload, INSTANCE_ID);
      if e.t == NodeStarted && form.Some? {
        Learn(e.run, node.value, id, ReadText(e.payload, KIND).value);
      } else if e.t == NodeFinished {
        Drop(e.run, node, id);
      }
      return if form.Some? then Sent(form.value) else Dropped;
    }

    method ApplyOne(e: Event) returns (out: Out)
      modifies this
      ensures (out, Value()) == Apply(switches, old(Value()), e)
    {
      if !Inspected(switches, e) {
        return Unchanged;
      }
      var r: Inspect<Json> := Bad;
      if e.payload.Dictionary? {
        var fs := e.payload.fields;
        if e.t == NodeStarted {
          r := StartedEvent(fs, e.run);
        } else if e.t == NodeFinished {
          r := FinishedEvent(fs, e.run);
        } else if e.t == NodeToken {
          r := TokenEvent(fs, e.run);
        } else {
          r := OnAnswer(e.t, fs);
        }
      }
      if r.Good? {
        return Sent(r.value);
      }
      out := FailClosed(e);
    }
  }
}
