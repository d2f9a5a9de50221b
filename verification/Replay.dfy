/**
 Sequence numbers, the replay buffer and the outbox: replay then live is one
 gapless run of events.

 A host thread numbers and buffers an event under the session lock and, still
 under it, queues the frame; the queue's own state check and its append are two
 steps, so a lost connection can fall in between.
 */
module Replay {
  import opened Json

  const MAX_OUTBOX := 10000

  /** An event frame: its sequence number and what it carries. */
  datatype Frame = Frame(seqNo: nat, content: nat)

  function LastOf<T>(s: seq<T>, n: nat): seq<T> { if |s| > n then s[|s| - n..] else s }

  // ---- the buffer ----

  class RingBuffer<T> {
    const capacity: nat
    var items: seq<T>
    var dropped: nat
    ghost var pushed: seq<T>

    /** The buffer holds the last `capacity` items of all that were pushed. */
    ghost predicate Valid()
      reads this
    {
      capacity > 0 && items == LastOf(pushed, capacity) && dropped == |pushed| - |items|
    }

    constructor (capacity: nat)
      requires capacity > 0
      ensures Valid() && this.capacity == capacity && pushed == []
    {
      this.capacity := capacity;
      items, dropped, pushed := [], 0, [];
    }

    method Push(item: T)
      requires Valid()
      modifies this
      ensures Valid() && pushed == old(pushed) + [item] && items == LastOf(old(items) + [item], capacity)
    {
      if |items| == capacity {
        dropped := dropped + 1;
        items := items[1..];
      }
      items := items + [item];
      pushed := pushed + [item];
    }

    method ToList() returns (list: seq<T>)
      requires Valid()
      ensures list == LastOf(pushed, capacity)
    {
      list := items;
    }
  }

  /** Queues a frame; past the limit the oldest ones go. */
  method Append(outbox: seq<Frame>, frame: Frame) returns (r: seq<Frame>)
    ensures r == LastOf(outbox + [frame], MAX_OUTBOX)
  {
    r := outbox + [frame];
    ghost var all := r;
    while |r| > MAX_OUTBOX
      invariant |r| <= |all| && r == all[|all| - |r|..]
      invariant |r| >= MAX_OUTBOX || r == all
      decreases |r|
    {
      r := r[1..];
    }
  }

  // ---- the session and its transport ----

  datatype Phase = Idle | Handshaking | Acked | Attached | Lost

  /** `numbered` says for each sequence number whether an event or a hello took it. */
  datatype Sys = Sys(
    capacity: nat,
    numbered: seq<bool>,
    history: seq<Frame>,       // every event frame ever numbered
    buffer: seq<Frame>,
    mirror: bool,              // the session forwards frames
    pending: Option<Frame>,    // numbered, the queue's check passed, not appended yet
    phase: Phase,
    outbox: seq<Frame>,
    sent: seq<Frame>,          // on this attachment
    start: nat,                // where in the history this attachment began
    overflowed: bool)          // the outbox has dropped a frame on this attachment

  function Start(capacity: nat): Sys { Sys(capacity, [], [], [], false, None, Idle, [], [], 0, false) }

  datatype Step =
    | Emit(content: nat)       // numbers, buffers, and passes the queue's check
    | EmitDropped              // the redactor dropped the event
    | EmitEnd                  // the frame is appended, the lock released
    | Hello
    | HandshakeFails
    | Ack
    | Replays                  // on_attached: the buffer is queued, oldest first
    | Write
    | Lose
    | Detached                 // on_detached

  predicate IsAttached(s: Sys) { s.phase == Acked || s.phase == Attached }

  /** One frame onto the outbox. */
  function Enqueue(s: Sys, f: Frame): Sys
  {
    s.(outbox := LastOf(s.outbox + [f], MAX_OUTBOX), overflowed := s.overflowed || |s.outbox| >= MAX_OUTBOX)
  }

  function EnqueueAll(s: Sys, fs: seq<Frame>): Sys
    decreases |fs|
  {
    if fs == [] then s else EnqueueAll(Enqueue(s, fs[0]), fs[1..])
  }

  /** Frames are forwarded from here on; the buffer's oldest frame is where the attachment begins. */
  function Forwarding(s: Sys): Sys
  {
    s.(mirror := true, phase := Attached, start := if |s.history| >= |s.buffer| then |s.history| - |s.buffer| else 0)
  }

  function Next(s: Sys, k: Step): Sys
  {
    match k
    case Emit(content) =>
      if s.pending.Some? then s
      else
        var f := Frame(|s.numbered|, content);
        s.(numbered := s.numbered + [true], history := s.history + [f], buffer := LastOf(s.buffer + [f], s.capacity),
           pending := if s.mirror && IsAttached(s) then Some(f) else None)
    case EmitDropped => s
    case EmitEnd => if s.pending.Some? then Enqueue(s, s.pending.value).(pending := None) else s
    case Hello =>
      if s.pending.None? && s.phase == Idle then s.(numbered := s.numbered + [false], phase := Handshaking) else s
    case HandshakeFails => if s.phase == Handshaking then s.(phase := Idle, outbox := []) else s
    case Ack => if s.phase == Handshaking then s.(phase := Acked, outbox := [], sent := [], overflowed := false) else s
    case Replays =>
      if s.phase == Acked && s.pending.None? then
        EnqueueAll(Forwarding(s), s.buffer)
      else s
    case Write =>
      if s.phase == Attached && s.outbox != [] then s.(sent := s.sent + [s.outbox[0]], outbox := s.outbox[1..]) else s
    case Lose => if s.phase == Attached then s.(phase := Lost, outbox := []) else s
    case Detached => if s.phase == Lost && s.pending.None? then s.(phase := Idle, mirror := false) else s
  }

  function Run(capacity: nat, steps: seq<Step>): Sys
  {
    if steps == [] then Start(capacity) else Next(Run(capacity, steps[..|steps| - 1]), steps[|steps| - 1])
  }

  // ---- the invariant ----

  function Pending(s: Sys): seq<Frame> { if s.pending.Some? then [s.pending.value] else [] }

  /** Sequence numbers grow along a list of frames. */
  predicate Increasing(fs: seq<Frame>) { forall i, j | 0 <= i < j < |fs| :: fs[i].seqNo < fs[j].seqNo }

  /** Each event frame has the number it took, and each number an event took is in the history once. */
  predicate NumbersOk(s: Sys)
  {
    && Increasing(s.history)
    && forall i | 0 <= i < |s.history| :: s.history[i].seqNo < |s.numbered| && s.numbered[s.history[i].seqNo]
  }

  /** The frames of an attachment, sent or waiting. */
  function OnWire(s: Sys): seq<Frame> { s.sent + s.outbox + Pending(s) }

  /** In order, up to the end of the history, and gapless from `start` unless something was dropped. */
  predicate Stretch(w: seq<Frame>, history: seq<Frame>, start: nat, overflowed: bool)
    requires start <= |history|
  {
    && Increasing(w)
    && (!overflowed ==> w == history[start..])
    && (w != [] ==> history != [] && w[|w| - 1] == history[|history| - 1])
  }

  lemma StretchAppend(w: seq<Frame>, history: seq<Frame>, start: nat, overflowed: bool, f: Frame)
    requires start <= |history| && Stretch(w, history, start, overflowed)
    requires history != [] ==> history[|history| - 1].seqNo < f.seqNo
    ensures Stretch(w + [f], history + [f], start, overflowed)
  {
    assert (history + [f])[start..] == history[start..] + [f];
    IncreasingAppend(w, f);
  }

  lemma StretchSuffix(history: seq<Frame>, n: nat, start: nat, overflowed: bool)
    requires Increasing(history) && n <= |history| && start <= |history| && (!overflowed ==> n == |history| - start)
    ensures Stretch(history[|history| - n..], history, start, overflowed)
  {
  }

  predicate WireOk(s: Sys)
  {
    && s.start <= |s.history|
    && (s.phase == Attached ==>
          && s.mirror
          && Stretch(OnWire(s), s.history, s.start, s.overflowed))
    && (s.mirror ==> s.phase == Attached || s.phase == Lost)
    && (s.pending.Some? ==> s.phase == Attached || s.phase == Lost)
  }

  predicate Ok(s: Sys)
  {
    s.capacity > 0 && s.buffer == LastOf(s.history, s.capacity) && NumbersOk(s) && WireOk(s)
  }

  lemma LastOfPush<T>(s: seq<T>, x: T, n: nat)
    requires n > 0
    ensures LastOf(LastOf(s, n) + [x], n) == LastOf(s + [x], n)
  {
  }

  lemma IncreasingAppend(fs: seq<Frame>, f: Frame)
    requires Increasing(fs) && (fs != [] ==> fs[|fs| - 1].seqNo < f.seqNo)
    ensures Increasing(fs + [f])
  {
  }

  lemma IncreasingSlice(fs: seq<Frame>, a: nat, b: nat)
    requires Increasing(fs) && a <= b <= |fs|
    ensures Increasing(fs[a..b])
  {
  }

  lemma EmitNumbers(s: Sys, f: Frame)
    requires NumbersOk(s) && f.seqNo == |s.numbered|
    ensures NumbersOk(s.(numbered := s.numbered + [true], history := s.history + [f]))
  {
    IncreasingAppend(s.history, f);
    var h := s.history + [f];
    forall i | 0 <= i < |h| ensures h[i].seqNo < |s.numbered| + 1 && (s.numbered + [true])[h[i].seqNo] {
      assert i < |s.history| ==> h[i] == s.history[i];
    }
  }

  lemma EmitWire(s: Sys, f: Frame, r: Sys)
    requires WireOk(s) && NumbersOk(s) && s.pending.None? && f.seqNo == |s.numbered|
    requires r.history == s.history + [f] && r.start == s.start && r.phase == s.phase && r.sent == s.sent && r.outbox == s.outbox
    requires r.overflowed == s.overflowed && r.mirror == s.mirror
    requires r.pending == if s.mirror && IsAttached(s) then Some(f) else None
    ensures WireOk(r)
  {
    if s.phase == Attached {
      assert OnWire(s) == s.sent + s.outbox && OnWire(r) == OnWire(s) + [f];
      StretchAppend(OnWire(s), s.history, s.start, s.overflowed, f);
    }
  }

  lemma EmitOk(s: Sys, content: nat)
    requires Ok(s) && s.pending.None?
    ensures Ok(Next(s, Emit(content)))
  {
    var f := Frame(|s.numbered|, content);
    LastOfPush(s.history, f, s.capacity);
    EmitNumbers(s, f);
    EmitWire(s, f, Next(s, Emit(content)));
  }

  /** Dropping the oldest waiting frame keeps what is left in order. */
  lemma EnqueueOnWire(s: Sys, f: Frame)
    ensures var r := Enqueue(s, f);
            && (!r.overflowed ==> !s.overflowed && s.sent + r.outbox == s.sent + s.outbox + [f])
            && (Increasing(s.sent + s.outbox + [f]) ==> Increasing(s.sent + r.outbox))
            && s.sent + r.outbox != [] && (s.sent + r.outbox)[|s.sent + r.outbox| - 1] == f
  {
    var all := s.outbox + [f];
    var r := Enqueue(s, f);
    assert s.sent + s.outbox + [f] == s.sent + all;
    if Increasing(s.sent + all) {
      var w := s.sent + r.outbox;
      var gap := |all| - |r.outbox|;
      forall i, j | 0 <= i < j < |w| ensures w[i].seqNo < w[j].seqNo {
        var i', j' := if i < |s.sent| then i else i + gap, if j < |s.sent| then j else j + gap;
        assert w[i] == (s.sent + all)[i'] && w[j] == (s.sent + all)[j'];
      }
    }
  }

  lemma EmitEndOk(s: Sys)
    requires Ok(s) && s.pending.Some?
    ensures Ok(Next(s, EmitEnd))
  {
    var f := s.pending.value;
    var r := Next(s, EmitEnd);
    EnqueueOnWire(s, f);
    if s.phase == Attached {
      assert OnWire(s) == s.sent + s.outbox + [f];
      assert OnWire(r) == s.sent + r.outbox;
    }
  }

  /** Queueing a stretch of history, oldest first. */
  lemma {:induction false} EnqueueAllOk(s: Sys, fs: seq<Frame>, past: seq<Frame>)
    requires s.sent == [] && Increasing(past + fs)
    requires (!s.overflowed ==> s.outbox == past) && |s.outbox| <= |past| && s.outbox == past[|past| - |s.outbox|..]
    ensures var r := EnqueueAll(s, fs);
            && r == s.(outbox := r.outbox, overflowed := r.overflowed)
            && (!r.overflowed ==> r.outbox == past + fs)
            && |r.outbox| <= |past + fs| && r.outbox == (past + fs)[|past + fs| - |r.outbox|..]
            && (past + fs != [] ==> r.outbox != [] || s.outbox == [])
    decreases |fs|
  {
    if fs == [] {
      assert past + fs == past;
    } else {
      var t := Enqueue(s, fs[0]);
      var past' := past + [fs[0]];
      assert past' + fs[1..] == past + fs;
      assert s.outbox + [fs[0]] == past'[|past'| - |s.outbox| - 1..];
      EnqueueAllOk(t, fs[1..], past');
    }
  }

  lemma {:induction false} EnqueueAllKeeps(s: Sys, fs: seq<Frame>)
    ensures var r := EnqueueAll(s, fs); r == s.(outbox := r.outbox, overflowed := r.overflowed)
    decreases |fs|
  {
    if fs != [] {
      EnqueueAllKeeps(Enqueue(s, fs[0]), fs[1..]);
    }
  }

  lemma WireFromStretch(r: Sys)
    requires r.phase == Attached && r.mirror && r.pending.None? && r.sent == []
    requires r.start <= |r.history| && Stretch(r.outbox, r.history, r.start, r.overflowed)
    ensures WireOk(r)
  {
    assert OnWire(r) == r.outbox;
  }

  lemma QueuedStretch(history: seq<Frame>, buffer: seq<Frame>, outbox: seq<Frame>, capacity: nat, overflowed: bool)
    requires Increasing(history) && buffer == LastOf(history, capacity)
    requires |outbox| <= |buffer| && outbox == buffer[|buffer| - |outbox|..] && (!overflowed ==> |outbox| == |buffer|)
    ensures |buffer| <= |history| && Stretch(outbox, history, |history| - |buffer|, overflowed)
  {
    BufferSuffix(history, capacity);
    SuffixOfSuffix(history, |buffer|, |outbox|);
    StretchSuffix(history, |outbox|, |history| - |buffer|, overflowed);
  }

  lemma SuffixOfSuffix<T>(s: seq<T>, b: nat, n: nat)
    requires n <= b <= |s|
    ensures s[|s| - b..][b - n..] == s[|s| - n..]
  {
  }

  lemma BufferSuffix(s: seq<Frame>, n: nat)
    ensures |LastOf(s, n)| <= |s| && LastOf(s, n) == s[|s| - |LastOf(s, n)|..]
  {
  }

  lemma ReplayOutbox(t: Sys, fs: seq<Frame>)
    requires t.sent == [] && t.outbox == [] && !t.overflowed && Increasing(fs)
    ensures var r := EnqueueAll(t, fs);
            && r == t.(outbox := r.outbox, overflowed := r.overflowed)
            && |r.outbox| <= |fs| && r.outbox == fs[|fs| - |r.outbox|..] && (!r.overflowed ==> |r.outbox| == |fs|)
  {
    hide EnqueueAll, Increasing;
    assert [] + fs == fs;
    EnqueueAllOk(t, fs, []);
  }

  lemma BufferIncreasing(s: Sys)
    requires Ok(s)
    ensures Increasing(s.buffer) && |s.buffer| <= |s.history|
  {
    BufferSuffix(s.history, s.capacity);
    IncreasingSlice(s.history, |s.history| - |s.buffer|, |s.history|);
    assert s.history[|s.history| - |s.buffer|..|s.history|] == s.buffer;
  }

  lemma ReplaysOk(s: Sys)
    requires Ok(s) && s.pending.None? && s.outbox == [] && s.sent == [] && !s.overflowed
    ensures Ok(EnqueueAll(Forwarding(s), s.buffer))
  {
    hide EnqueueAll, Increasing, Stretch;
    BufferIncreasing(s);
    ReplayOutbox(Forwarding(s), s.buffer);
    var r := EnqueueAll(Forwarding(s), s.buffer);
    QueuedStretch(s.history, s.buffer, r.outbox, s.capacity, r.overflowed);
    WireFromStretch(r);
  }

  lemma WriteOk(s: Sys)
    requires Ok(s) && s.phase == Attached && s.outbox != []
    ensures Ok(Next(s, Write))
  {
    var r := Next(s, Write);
    assert OnWire(r) == OnWire(s);
  }

  /** Between the ack and the replay nothing is queued. */
  predicate FreshlyAcked(s: Sys) { s.phase == Acked ==> s.pending.None? && s.outbox == [] && s.sent == [] && !s.overflowed && !s.mirror }

  lemma NextOk(s: Sys, k: Step)
    requires Ok(s) && FreshlyAcked(s)
    ensures Ok(Next(s, k)) && FreshlyAcked(Next(s, k)) && Next(s, k).capacity == s.capacity
  {
    match k {
      case Emit(content) => if s.pending.None? { EmitOk(s, content); }
      case EmitDropped =>
      case EmitEnd => if s.pending.Some? { EmitEndOk(s); }
      case Hello =>
      case HandshakeFails =>
      case Ack =>
      case Replays =>
        if s.phase == Acked && s.pending.None? {
          ReplaysOk(s);
          EnqueueAllKeeps(Forwarding(s), s.buffer);
        }
      case Write => if s.phase == Attached && s.outbox != [] { WriteOk(s); }
      case Lose =>
      case Detached =>
    }
  }

  lemma {:induction false} RunOk(capacity: nat, steps: seq<Step>)
    requires capacity > 0
    ensures Ok(Run(capacity, steps)) && FreshlyAcked(Run(capacity, steps)) && Run(capacity, steps).capacity == capacity
  {
    if steps != [] {
      RunOk(capacity, steps[..|steps| - 1]);
      NextOk(Run(capacity, steps[..|steps| - 1]), steps[|steps| - 1]);
    }
  }

  // ---- the main results ----

  /** Each number goes to one event frame or hello, in order; a dropped event takes none. */
  lemma NumberedOnce(capacity: nat, steps: seq<Step>, i: nat)
    requires capacity > 0 && i < |Run(capacity, steps).numbered|
    ensures var s := Run(capacity, steps);
            && (s.numbered[i] ==> exists j | 0 <= j < |s.history| :: s.history[j].seqNo == i && forall k | 0 <= k < |s.history| && k != j :: s.history[k].seqNo != i)
            && (!s.numbered[i] ==> forall j | 0 <= j < |s.history| :: s.history[j].seqNo != i)
    ensures Next(Run(capacity, steps), EmitDropped) == Run(capacity, steps)
  {
    RunOk(capacity, steps);
    var s := Run(capacity, steps);
    if s.numbered[i] {
      var j := EventOf(capacity, steps, i);
      assert s.history[j].seqNo == i;
    }
  }

  /** The event frame that took a number. */
  lemma {:induction false} EventOf(capacity: nat, steps: seq<Step>, i: nat) returns (j: nat)
    requires capacity > 0 && i < |Run(capacity, steps).numbered| && Run(capacity, steps).numbered[i]
    ensures j < |Run(capacity, steps).history| && Run(capacity, steps).history[j].seqNo == i
    decreases |steps|
  {
    var before := steps[..|steps| - 1];
    var s, k := Run(capacity, before), steps[|steps| - 1];
    NextNumbers(s, k);
    if i < |s.numbered| {
      j := EventOf(capacity, before, i);
    } else {
      j := |s.history|;
    }
  }

  /** A step hands out one number at most. */
  lemma NextNumbers(s: Sys, k: Step)
    ensures var r := Next(s, k);
            || (r.numbered == s.numbered && r.history == s.history)
            || (r.numbered == s.numbered + [true] && |r.history| == |s.history| + 1 && r.history[..|s.history|] == s.history
                && r.history[|s.history|].seqNo == |s.numbered|)
            || (r.numbered == s.numbered + [false] && r.history == s.history)
  {
    EnqueueAllKeeps(Forwarding(s), s.buffer);
  }

  /** The buffer always holds the last `capacity` event frames. */
  lemma BufferExact(capacity: nat, steps: seq<Step>)
    requires capacity > 0
    ensures var s := Run(capacity, steps); s.buffer == LastOf(s.history, capacity)
  {
    RunOk(capacity, steps);
  }

  /** Step n queued the buffer of an attachment that has lasted since. */
  predicate OpenedAt(capacity: nat, steps: seq<Step>, n: nat)
  {
    && n < |steps| && steps[n] == Replays && Run(capacity, steps[..n]).phase == Acked && Run(capacity, steps[..n]).pending.None?
    && forall m | n < m <= |steps| :: Run(capacity, steps[..m]).phase == Attached
  }

  /** A step leaves the attachment and its beginning as they were, or opens one where the buffer begins. */
  lemma NextStart(s: Sys, k: Step)
    requires Ok(s) && Next(s, k).phase == Attached
    ensures s.phase == Attached ==> Next(s, k).start == s.start
    ensures s.phase != Attached ==>
              s.phase == Acked && s.pending.None? && k == Replays && |s.buffer| <= |s.history|
              && Next(s, k).start == |s.history| - |s.buffer|
  {
    hide NumbersOk, WireOk;
    EnqueueAllKeeps(Forwarding(s), s.buffer);
    BufferSuffix(s.history, s.capacity);
  }

  lemma {:induction false} AttachmentOpened(capacity: nat, steps: seq<Step>) returns (n: nat)
    requires capacity > 0 && Run(capacity, steps).phase == Attached
    ensures OpenedAt(capacity, steps, n)
    ensures var o := Run(capacity, steps[..n]);
            |o.buffer| <= |o.history| && Run(capacity, steps).start == |o.history| - |o.buffer|
    decreases |steps|
  {
    hide Ok, Next;
    if steps == [] {
      NotAttachedYet(capacity);
      assert false;
    }
    var before := steps[..|steps| - 1];
    RunOk(capacity, before);
    NextStart(Run(capacity, before), steps[|steps| - 1]);
    assert steps[..|steps|] == steps;
    if Run(capacity, before).phase == Attached {
      n := AttachmentOpened(capacity, before);
      assert steps[..n] == before[..n];
      forall m | n < m <= |steps| ensures Run(capacity, steps[..m]).phase == Attached {
        if m < |steps| {
          assert steps[..m] == before[..m];
        }
      }
    } else {
      n := |before|;
    }
  }

  lemma NotAttachedYet(capacity: nat)
    ensures Run(capacity, []).phase == Idle
  {
  }

  /**
   Within one attachment the frames sent and the frames waiting are one
   contiguous stretch of event history, from where the buffer began when the
   attachment opened up to the end, until the outbox first drops one; the
   sequence numbers increase even then.
   */
  lemma ReplayThenLive(capacity: nat, steps: seq<Step>) returns (n: nat)
    requires capacity > 0 && Run(capacity, steps).phase == Attached
    ensures OpenedAt(capacity, steps, n)
    ensures var s, o := Run(capacity, steps), Run(capacity, steps[..n]);
            && Increasing(s.sent + s.outbox + Pending(s))
            && |o.buffer| <= |o.history| <= |s.history|
            && (!s.overflowed ==> s.sent + s.outbox + Pending(s) == s.history[|o.history| - |o.buffer|..])
            && s.history[..|o.history|] == o.history && o.buffer == o.history[|o.history| - |o.buffer|..]
  {
    hide Increasing, Run;
    RunOk(capacity, steps);
    n := AttachmentOpened(capacity, steps);
    RunOk(capacity, steps[..n]);
    HistoryPrefix(capacity, steps, n);
    BufferSuffix(Run(capacity, steps[..n]).history, capacity);
  }

  /** History is never taken back. */
  lemma {:induction false} HistoryPrefix(capacity: nat, steps: seq<Step>, n: nat)
    requires n <= |steps|
    ensures var a, b := Run(capacity, steps[..n]).history, Run(capacity, steps).history; |a| <= |b| && b[..|a|] == a
    decreases |steps|
  {
    hide Next;
    if n == |steps| {
      assert steps[..n] == steps;
    } else {
      var before := steps[..|steps| - 1];
      assert steps[..n] == before[..n];
      HistoryPrefix(capacity, before, n);
      NextNumbers(Run(capacity, before), steps[|steps| - 1]);
    }
  }

  // ---- no event is lost on the way in ----

  /** An emitted event takes the next number, joins the history and the buffer, and is queued while an attachment lasts. */
  lemma EmitRecords(s: Sys, content: nat)
    requires Ok(s) && s.pending.None?
    ensures var f := Frame(|s.numbered|, content);
            var r := Next(s, Emit(content));
            && r.numbered == s.numbered + [true] && r.history == s.history + [f]
            && r.buffer != [] && r.buffer[|r.buffer| - 1] == f
            && (s.phase == Attached ==>
                  var q := Next(r, EmitEnd); q.outbox != [] && q.outbox[|q.outbox| - 1] == f && q.pending.None?)
            && (s.phase != Attached && s.phase != Lost ==> r.pending.None? && r.outbox == s.outbox)
  {
    hide NumbersOk, Stretch;
  }

  /** A hello takes a number of its own. */
  lemma HelloNumbered(s: Sys)
    requires s.pending.None? && s.phase == Idle
    ensures Next(s, Hello).numbered == s.numbered + [false] && Next(s, Hello).history == s.history && Next(s, Hello).buffer == s.buffer
  {
  }

  /** An attachment opens with the whole buffer queued, and each write sends the oldest frame waiting. */
  lemma WritesInOrder(s: Sys)
    requires s.phase == Attached && s.outbox != []
    ensures Next(s, Write).sent == s.sent + [s.outbox[0]] && Next(s, Write).outbox == s.outbox[1..]
  {
  }
}
