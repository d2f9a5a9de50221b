/**
 The loop guard: one streak per run and node kind, in a least-recently-used
 dictionary of runs.

 `Step` is what each call does to the guard's dictionaries; the class below does
 it in place. `StreakRefinement` says what a streak is in terms of the calls made
 so far, `StreakExact` when nothing was lost to eviction, `EvictedAfter` and
 `Retained` when something is.
 */
module LoopGuard {
  import opened Utf16
  import opened Json
  import opened OrderedDict

  const MAX_LOOP_RUNS := 64

  datatype Config = Config(enabled: bool, threshold: nat, kinds: set<Text>, allow: set<Text>)

  datatype Streak = Streak(node: Text, digest: Text, repeats: nat, first: nat, last: nat, tripped: bool, warned: bool)

  type Streaks = Dict<Text, Streak>
  type Runs = Dict<Text, Streaks>

  datatype Info = Info(repeats: nat, first: nat, last: nat, digest: Text)

  /** A kind, node id or name that is not a string is None, and so is an unreadable fingerprint. */
  datatype Event =
    | Started(run: Text, kind: Option<Text>, node: Option<Text>, name: Option<Text>, digest: Option<Text>, at: nat)
    | Consulted(run: Text, kind: Option<Text>, node: Option<Text>, name: Option<Text>)
    | Claimed(run: Text, node: Option<Text>, kind: Option<Text>)
    | Forgotten(run: Text)

  // ---- what each call does ----

  predicate Watched(c: Config, kind: Option<Text>, node: Option<Text>, name: Option<Text>)
  {
    && c.enabled && kind.Some? && kind.value in c.kinds
    && !(node.Some? && node.value in c.allow) && !(name.Some? && name.value in c.allow)
  }

  predicate WatchedStart(c: Config, e: Event) { e.Started? && Watched(c, e.kind, e.node, e.name) }

  predicate Readable(e: Event) { e.Started? && e.node.Some? && e.digest.Some? }

  /** The run's streaks moved to the recent end; a new run may push the oldest out. */
  function Touch(runs: Runs, run: Text): Runs
  {
    var found := Find(runs, run);
    var rest := Remove(runs, run);
    if found.Some? then rest + [(run, found.value)]
    else if |rest| >= MAX_LOOP_RUNS then rest[1..] + [(run, [])]
    else rest + [(run, [])]
  }

  function Extend(s: Option<Streak>, node: Text, digest: Text, at: nat): Streak
  {
    if s.Some? && s.value.node == node && s.value.digest == digest then
      s.value.(repeats := s.value.repeats + 1, last := at, tripped := false)
    else Streak(node, digest, 1, at, at, false, false)
  }

  function StreaksOf(runs: Runs, run: Text): Streaks
  {
    var found := Find(runs, run);
    if found.Some? then found.value else []
  }

  function StreakAt(runs: Runs, run: Text, kind: Text): Option<Streak> { Find(StreaksOf(runs, run), kind) }

  function Record(c: Config, runs: Runs, e: Event): Runs
    requires e.Started?
  {
    if !WatchedStart(c, e) then runs
    else if !Readable(e) then
      if Has(runs, e.run) then Put(runs, e.run, Remove(StreaksOf(runs, e.run), e.kind.value)) else runs
    else
      var touched := Touch(runs, e.run);
      var streaks := StreaksOf(touched, e.run);
      Put(touched, e.run, Put(streaks, e.kind.value, Extend(Find(streaks, e.kind.value), e.node.value, e.digest.value, e.at)))
  }

  /** The streak a consult trips, when it does. */
  function Trips(c: Config, runs: Runs, e: Event): Option<Streak>
    requires e.Consulted?
  {
    if !Watched(c, e.kind, e.node, e.name) then None
    else
      var s := StreakAt(runs, e.run, e.kind.value);
      if s.None? || Some(s.value.node) != e.node || s.value.tripped || s.value.repeats < c.threshold then None else s
  }

  function Consult(c: Config, runs: Runs, e: Event): Runs
    requires e.Consulted?
  {
    var s := Trips(c, runs, e);
    if s.None? then runs
    else Put(runs, e.run, Put(StreaksOf(runs, e.run), e.kind.value, s.value.(tripped := true)))
  }

  /** The kind of the first streak of this node, among those asked for. */
  function Candidate(streaks: Streaks, node: Option<Text>, kind: Option<Text>): (r: Option<Text>)
    ensures r.Some? ==> exists i | 0 <= i < |streaks| :: streaks[i].0 == r.value && Some(streaks[i].1.node) == node
    ensures r.Some? && kind.Some? ==> r == kind
  {
    if streaks == [] then None
    else if (kind.None? || streaks[0].0 == kind.value) && Some(streaks[0].1.node) == node then
      assert streaks[0].0 == streaks[0].0;
      Some(streaks[0].0)
    else
      var r := Candidate(streaks[1..], node, kind);
      assert forall i | 0 <= i < |streaks[1..]| :: streaks[1..][i] == streaks[i + 1];
      r
  }

  /** The kind whose streak gives its one warning to this claim. */
  function Warns(runs: Runs, e: Event): Option<Text>
    requires e.Claimed?
  {
    var streaks := StreaksOf(runs, e.run);
    var k := Candidate(streaks, e.node, e.kind);
    if k.None? || Find(streaks, k.value).None? || Find(streaks, k.value).value.warned then None else k
  }

  function Claim(runs: Runs, e: Event): Runs
    requires e.Claimed?
  {
    var k := Warns(runs, e);
    if k.None? then runs
    else
      var streaks := StreaksOf(runs, e.run);
      Put(runs, e.run, Put(streaks, k.value, Find(streaks, k.value).value.(warned := true)))
  }

  function Step(c: Config, runs: Runs, e: Event): Runs
  {
    match e
    case Started(_, _, _, _, _, _) => Record(c, runs, e)
    case Consulted(_, _, _, _) => Consult(c, runs, e)
    case Claimed(_, _, _) => Claim(runs, e)
    case Forgotten(run) => Remove(runs, run)
  }

  /** The guard's dictionaries after a history of calls. */
  function State(c: Config, h: seq<Event>): Runs
  {
    if h == [] then [] else Step(c, State(c, h[..|h| - 1]), h[|h| - 1])
  }

  // ---- what a streak should be ----

  datatype Call = Call(node: Text, digest: Text, at: nat)

  predicate SameCall(a: Call, b: Call) { a.node == b.node && a.digest == b.digest }

  /** A readable watched start of this run and kind. */
  predicate Extends(c: Config, e: Event, run: Text, kind: Text)
  {
    WatchedStart(c, e) && Readable(e) && e.run == run && e.kind == Some(kind)
  }

  /** After this event the kind's next call follows nothing. */
  predicate Clears(c: Config, e: Event, run: Text, kind: Text)
  {
    || (WatchedStart(c, e) && !Readable(e) && e.run == run && e.kind == Some(kind))
    || e == Forgotten(run)
  }

  /** The kind's watched calls in this run since the last unreadable one. */
  function Calls(c: Config, h: seq<Event>, run: Text, kind: Text): seq<Call>
  {
    if h == [] then []
    else
      var before := Calls(c, h[..|h| - 1], run, kind);
      var e := h[|h| - 1];
      if Extends(c, e, run, kind) then before + [Call(e.node.value, e.digest.value, e.at)]
      else if Clears(c, e, run, kind) then []
      else before
  }

  /** The same, counted from when the guard last picked the run up. */
  function KeptCalls(c: Config, h: seq<Event>, run: Text, kind: Text): seq<Call>
  {
    if h == [] || !Has(State(c, h), run) then []
    else
      var before := KeptCalls(c, h[..|h| - 1], run, kind);
      var e := h[|h| - 1];
      if Extends(c, e, run, kind) then before + [Call(e.node.value, e.digest.value, e.at)]
      else if Clears(c, e, run, kind) then []
      else before
  }

  /** The length of the longest suffix of one repeated call. */
  function ConstantSuffix(calls: seq<Call>): (n: nat)
    ensures n <= |calls| && (calls != [] ==> n > 0)
  {
    if |calls| < 2 then |calls|
    else if SameCall(calls[|calls| - 2], calls[|calls| - 1]) then 1 + ConstantSuffix(calls[..|calls| - 1])
    else 1
  }

  lemma {:induction false} ConstantSuffixLongest(calls: seq<Call>)
    ensures var n := ConstantSuffix(calls);
            && (forall i | |calls| - n <= i < |calls| :: SameCall(calls[i], calls[|calls| - 1]))
            && (n < |calls| ==> !SameCall(calls[|calls| - n - 1], calls[|calls| - 1]))
  {
    if |calls| >= 2 && SameCall(calls[|calls| - 2], calls[|calls| - 1]) {
      ConstantSuffixLongest(calls[..|calls| - 1]);
    }
  }

  lemma {:induction false} ConstantSuffixOfSuffix(a: seq<Call>, b: seq<Call>)
    ensures ConstantSuffix(b) <= ConstantSuffix(a + b)
  {
    var all := a + b;
    if |b| >= 2 {
      assert all[..|all| - 1] == a + b[..|b| - 1];
      ConstantSuffixOfSuffix(a, b[..|b| - 1]);
    }
  }

  /** Whether the count of the kind's latest call already tripped, and whether its streak already warned. */
  predicate Tripped(c: Config, h: seq<Event>, run: Text, kind: Text)
    decreases |h|, 0
  {
    h != [] &&
    var e := h[|h| - 1];
    if Extends(c, e, run, kind) then false
    else if e.Consulted? && e.run == run && e.kind == Some(kind) && ShouldTrip(c, h[..|h| - 1], e) then true
    else Tripped(c, h[..|h| - 1], run, kind)
  }

  /** A consult trips when the node's latest call closes a long enough streak, once per call. */
  predicate ShouldTrip(c: Config, h: seq<Event>, e: Event)
    requires e.Consulted?
    decreases |h|, 1
  {
    && Watched(c, e.kind, e.node, e.name)
    && var calls := KeptCalls(c, h, e.run, e.kind.value);
       && calls != [] && Some(calls[|calls| - 1].node) == e.node
       && ConstantSuffix(calls) >= c.threshold && !Tripped(c, h, e.run, e.kind.value)
  }

  predicate MatchesStreak(calls: seq<Call>, s: Option<Streak>, tripped: bool)
  {
    if calls == [] then s.None?
    else
      var n := ConstantSuffix(calls);
      var l := calls[|calls| - 1];
      && s.Some? && s.value.node == l.node && s.value.digest == l.digest
      && s.value.repeats == n && s.value.first == calls[|calls| - n].at && s.value.last == l.at
      && s.value.tripped == tripped
  }

  // ---- the dictionaries stay dictionaries ----

  predicate WellKept(runs: Runs)
  {
    && Unique(runs) && |runs| <= MAX_LOOP_RUNS
    && forall i | 0 <= i < |runs| :: Unique(runs[i].1)
  }

  lemma StreaksUnique(runs: Runs, run: Text)
    requires WellKept(runs)
    ensures Unique(StreaksOf(runs, run))
  {
  }

  lemma PutKept(runs: Runs, run: Text, streaks: Streaks)
    requires WellKept(runs) && Unique(streaks) && Has(runs, run)
    ensures WellKept(Put(runs, run, streaks))
  {
    PutUnique(runs, run, streaks);
    var r := Put(runs, run, streaks);
    forall i | 0 <= i < |r| ensures Unique(r[i].1) {
      PutMembers(runs, run, streaks, r[i]);
    }
  }

  lemma RemoveKept(runs: Runs, run: Text)
    requires WellKept(runs)
    ensures WellKept(Remove(runs, run))
  {
    RemoveUnique(runs, run);
    var r := Remove(runs, run);
    forall i | 0 <= i < |r| ensures Unique(r[i].1) {
      RemoveMembers(runs, run, r[i]);
    }
  }

  lemma RemoveShorter<K, V>(d: Dict<K, V>, k: K)
    requires Unique(d) && Has(d, k)
    ensures |Remove(d, k)| < |d|
  {
    var i :| 0 <= i < |d| && d[i].0 == k;
    RemoveAt(d, i);
  }

  lemma AppendUnique<K, V>(d: Dict<K, V>, k: K, v: V)
    requires Unique(d) && !Has(d, k)
    ensures Unique(d + [(k, v)])
  {
    assert forall i | 0 <= i < |d| :: d[i].0 != k;
  }

  lemma TouchKept(runs: Runs, run: Text)
    requires WellKept(runs)
    ensures WellKept(Touch(runs, run)) && Has(Touch(runs, run), run)
  {
    hide Find, Remove, Unique;
    var rest := Remove(runs, run);
    RemoveKept(runs, run);
    RemoveUnique(runs, run);
    var streaks := StreaksOf(runs, run);
    StreaksUnique(runs, run);
    var kept := if Find(runs, run).None? && |rest| >= MAX_LOOP_RUNS then rest[1..] else rest;
    assert forall i | 0 <= i < |kept| :: kept[i] in rest;
    if Has(runs, run) {
      RemoveShorter(runs, run);
    }
    AppendUnique(kept, run, streaks);
    assert Touch(runs, run) == kept + [(run, streaks)];
    assert Touch(runs, run)[|kept|].0 == run;
  }

  lemma StepKept(c: Config, runs: Runs, e: Event)
    requires WellKept(runs)
    ensures WellKept(Step(c, runs, e))
  {
    StreaksUnique(runs, e.run);
    match e
    case Started(_, _, _, _, _, _) =>
      if WatchedStart(c, e) {
        if Readable(e) {
          var touched := Touch(runs, e.run);
          TouchKept(runs, e.run);
          var streaks := StreaksOf(touched, e.run);
          StreaksUnique(touched, e.run);
          var s := Extend(Find(streaks, e.kind.value), e.node.value, e.digest.value, e.at);
          PutUnique(streaks, e.kind.value, s);
          PutKept(touched, e.run, Put(streaks, e.kind.value, s));
        } else if Has(runs, e.run) {
          RemoveUnique(StreaksOf(runs, e.run), e.kind.value);
          PutKept(runs, e.run, Remove(StreaksOf(runs, e.run), e.kind.value));
        }
      }
    case Consulted(_, _, _, _) =>
      var s := Trips(c, runs, e);
      if s.Some? {
        PutUnique(StreaksOf(runs, e.run), e.kind.value, s.value.(tripped := true));
        PutKept(runs, e.run, Put(StreaksOf(runs, e.run), e.kind.value, s.value.(tripped := true)));
      }
    case Claimed(_, _, _) =>
      var k := Warns(runs, e);
      if k.Some? {
        var streaks := StreaksOf(runs, e.run);
        var s := Find(streaks, k.value).value.(warned := true);
        PutUnique(streaks, k.value, s);
        PutKept(runs, e.run, Put(streaks, k.value, s));
      }
    case Forgotten(run) => RemoveKept(runs, run);
  }

  lemma {:induction false} StateKept(c: Config, h: seq<Event>)
    ensures WellKept(State(c, h))
  {
    if h != [] {
      StateKept(c, h[..|h| - 1]);
      StepKept(c, State(c, h[..|h| - 1]), h[|h| - 1]);
    }
  }

  // ---- what each call does to one streak ----

  lemma FindTouch(runs: Runs, run: Text, q: Text)
    requires WellKept(runs)
    ensures q == run ==> Find(Touch(runs, run), q) == Some(StreaksOf(runs, run))
    ensures q != run && Has(Touch(runs, run), q) ==> Find(Touch(runs, run), q) == Find(runs, q)
  {
    var rest := Remove(runs, run);
    RemoveUnique(runs, run);
    RemoveKept(runs, run);
    FindRemove(runs, run, q);
    FindRemove(runs, run, run);
    var streaks := StreaksOf(runs, run);
    if Find(runs, run).None? && |rest| >= MAX_LOOP_RUNS {
      FindTail(rest, q);
      FindTail(rest, run);
      FindAppend(rest[1..], run, streaks, q);
    } else {
      FindAppend(rest, run, streaks, q);
    }
  }

  /** A readable watched start extends its own streak and, but for an eviction, no other. */
  lemma RecordReadable(c: Config, runs: Runs, e: Event, run: Text, kind: Text)
    requires WellKept(runs) && WatchedStart(c, e) && Readable(e) && Has(Record(c, runs, e), run)
    ensures StreakAt(Record(c, runs, e), run, kind) ==
            if e.run == run && e.kind == Some(kind) then Some(Extend(StreakAt(runs, run, kind), e.node.value, e.digest.value, e.at))
            else StreakAt(runs, run, kind)
  {
    var touched := Touch(runs, e.run);
    var streaks := StreaksOf(touched, e.run);
    var s := Extend(Find(streaks, e.kind.value), e.node.value, e.digest.value, e.at);
    FindTouch(runs, e.run, run);
    FindTouch(runs, e.run, e.run);
    FindPut(touched, e.run, Put(streaks, e.kind.value, s), run);
    FindPut(streaks, e.kind.value, s, kind);
  }

  lemma RecordUnreadable(c: Config, runs: Runs, e: Event, run: Text, kind: Text)
    requires WatchedStart(c, e) && !Readable(e)
    ensures StreakAt(Record(c, runs, e), run, kind) ==
            if e.run == run && e.kind == Some(kind) then None else StreakAt(runs, run, kind)
    ensures Has(Record(c, runs, e), run) <==> Has(runs, run)
  {
    if Has(runs, e.run) {
      var streaks := StreaksOf(runs, e.run);
      FindPut(runs, e.run, Remove(streaks, e.kind.value), run);
      FindRemove(streaks, e.kind.value, kind);
    }
  }

  lemma ConsultEffect(c: Config, runs: Runs, e: Event, run: Text, kind: Text)
    requires e.Consulted?
    ensures StreakAt(Consult(c, runs, e), run, kind) ==
            if Trips(c, runs, e).Some? && e.run == run && e.kind == Some(kind)
            then Some(Trips(c, runs, e).value.(tripped := true)) else StreakAt(runs, run, kind)
    ensures Has(Consult(c, runs, e), run) <==> Has(runs, run)
  {
    var s := Trips(c, runs, e);
    if s.Some? {
      var streaks := StreaksOf(runs, e.run);
      var t := s.value.(tripped := true);
      FindPut(runs, e.run, Put(streaks, e.kind.value, t), run);
      FindPut(streaks, e.kind.value, t, kind);
    }
  }

  lemma ClaimEffect(runs: Runs, e: Event, run: Text, kind: Text)
    requires e.Claimed?
    ensures StreakAt(Claim(runs, e), run, kind) ==
            if Warns(runs, e) == Some(kind) && e.run == run
            then Some(StreakAt(runs, run, kind).value.(warned := true)) else StreakAt(runs, run, kind)
    ensures Has(Claim(runs, e), run) <==> Has(runs, run)
  {
    var k := Warns(runs, e);
    if k.Some? {
      var streaks := StreaksOf(runs, e.run);
      var t := Find(streaks, k.value).value.(warned := true);
      FindPut(runs, e.run, Put(streaks, k.value, t), run);
      FindPut(streaks, k.value, t, kind);
    }
  }

  // ---- refinement ----

  lemma ExtendMatches(calls: seq<Call>, s: Option<Streak>, tripped: bool, call: Call)
    requires MatchesStreak(calls, s, tripped)
    ensures MatchesStreak(calls + [call], Some(Extend(s, call.node, call.digest, call.at)), false)
  {
    var all := calls + [call];
    assert all[..|all| - 1] == calls;
    if calls != [] {
      assert all[|all| - 2] == calls[|calls| - 1];
      ConstantSuffixLongest(calls);
    }
  }

  /** Each retained streak is the longest constant suffix of its kind's kept calls. */
  lemma {:induction false} StreakRefinement(c: Config, h: seq<Event>, run: Text, kind: Text)
    ensures MatchesStreak(KeptCalls(c, h, run, kind), StreakAt(State(c, h), run, kind), Tripped(c, h, run, kind))
    decreases |h|
  {
    if h != [] {
      var before, e := h[..|h| - 1], h[|h| - 1];
      StreakRefinement(c, before, run, kind);
      StateKept(c, before);
      StreakStep(c, before, e, run, kind);
      assert h == before + [e];
    }
  }

  lemma Unfold(c: Config, h: seq<Event>, e: Event, run: Text, kind: Text)
    ensures State(c, h + [e]) == Step(c, State(c, h), e)
    ensures KeptCalls(c, h + [e], run, kind) ==
            if !Has(State(c, h + [e]), run) || Clears(c, e, run, kind) then []
            else if Extends(c, e, run, kind) then KeptCalls(c, h, run, kind) + [Call(e.node.value, e.digest.value, e.at)]
            else KeptCalls(c, h, run, kind)
    ensures Tripped(c, h + [e], run, kind) ==
            if Extends(c, e, run, kind) then false
            else (e.Consulted? && e.run == run && e.kind == Some(kind) && ShouldTrip(c, h, e)) || Tripped(c, h, run, kind)
  {
    assert (h + [e])[..|h|] == h;
  }

  lemma StartStep(c: Config, runs: Runs, e: Event, run: Text, kind: Text, calls: seq<Call>, tripped: bool)
    requires MatchesStreak(calls, StreakAt(runs, run, kind), tripped) && WellKept(runs)
    requires e.Started? && Has(Record(c, runs, e), run)
    ensures var s := StreakAt(Record(c, runs, e), run, kind);
            if Extends(c, e, run, kind) then MatchesStreak(calls + [Call(e.node.value, e.digest.value, e.at)], s, false)
            else if Clears(c, e, run, kind) then MatchesStreak([], s, tripped)
            else MatchesStreak(calls, s, tripped)
  {
    if WatchedStart(c, e) {
      if Readable(e) {
        RecordReadable(c, runs, e, run, kind);
        if Extends(c, e, run, kind) {
          ExtendMatches(calls, StreakAt(runs, run, kind), tripped, Call(e.node.value, e.digest.value, e.at));
        }
      } else {
        RecordUnreadable(c, runs, e, run, kind);
      }
    }
  }

  predicate TripsHere(c: Config, runs: Runs, e: Event, run: Text, kind: Text)
  {
    e.Consulted? && e.run == run && e.kind == Some(kind) && Trips(c, runs, e).Some?
  }

  lemma OtherStep(c: Config, runs: Runs, e: Event, run: Text, kind: Text, calls: seq<Call>, tripped: bool)
    requires MatchesStreak(calls, StreakAt(runs, run, kind), tripped)
    requires !e.Started? && e != Forgotten(run)
    ensures MatchesStreak(calls, StreakAt(Step(c, runs, e), run, kind), TripsHere(c, runs, e, run, kind) || tripped)
  {
    match e
    case Consulted(_, _, _, _) => ConsultEffect(c, runs, e, run, kind);
    case Claimed(_, _, _) => ClaimEffect(runs, e, run, kind);
    case Forgotten(r) => FindRemove(runs, r, run);
  }

  lemma TripsMatch(c: Config, h: seq<Event>, e: Event, run: Text, kind: Text)
    requires MatchesStreak(KeptCalls(c, h, run, kind), StreakAt(State(c, h), run, kind), Tripped(c, h, run, kind))
    requires e.Consulted? && e.run == run && e.kind == Some(kind)
    ensures Trips(c, State(c, h), e).Some? <==> ShouldTrip(c, h, e)
  {
  }

  lemma StreakStep(c: Config, h: seq<Event>, e: Event, run: Text, kind: Text)
    requires MatchesStreak(KeptCalls(c, h, run, kind), StreakAt(State(c, h), run, kind), Tripped(c, h, run, kind))
    requires WellKept(State(c, h))
    ensures MatchesStreak(KeptCalls(c, h + [e], run, kind), StreakAt(State(c, h + [e]), run, kind), Tripped(c, h + [e], run, kind))
  {
    var runs, calls, tripped := State(c, h), KeptCalls(c, h, run, kind), Tripped(c, h, run, kind);
    Unfold(c, h, e, run, kind);
    if !Has(Step(c, runs, e), run) {
      assert StreaksOf(Step(c, runs, e), run) == [];
    } else if e.Started? {
      StartStep(c, runs, e, run, kind, calls, tripped);
    } else {
      if e == Forgotten(run) {
        FindRemove(runs, run, run);
        assert false;
      }
      OtherStep(c, runs, e, run, kind, calls, tripped);
      if e.Consulted? && e.run == run && e.kind == Some(kind) {
        TripsMatch(c, h, e, run, kind);
      }
    }
  }

  /** A consult answers with the streak exactly when the latest call closes one, once per call. */
  lemma ConsultExact(c: Config, h: seq<Event>, e: Event)
    requires e.Consulted?
    ensures Trips(c, State(c, h), e).Some? <==> ShouldTrip(c, h, e)
    ensures ShouldTrip(c, h, e) ==>
              var calls := KeptCalls(c, h, e.run, e.kind.value);
              var n := ConstantSuffix(calls);
              var s := Trips(c, State(c, h), e).value;
              Info(s.repeats, s.first, s.last, s.digest) ==
              Info(n, calls[|calls| - n].at, calls[|calls| - 1].at, calls[|calls| - 1].digest)
  {
    if Watched(c, e.kind, e.node, e.name) {
      StreakRefinement(c, h, e.run, e.kind.value);
      TripsMatch(c, h, e, e.run, e.kind.value);
    }
  }

  /** After a trip no consult of that run and kind trips again before its next call. */
  lemma {:induction false} TripsOncePerCall(c: Config, h: seq<Event>, e: Event, more: seq<Event>, e': Event)
    requires e.Consulted? && ShouldTrip(c, h, e)
    requires e'.Consulted? && e'.run == e.run && e'.kind == e.kind
    requires forall i | 0 <= i < |more| :: !Extends(c, more[i], e.run, e.kind.value)
    ensures !ShouldTrip(c, h + [e] + more, e')
    ensures Tripped(c, h + [e] + more, e.run, e.kind.value)
  {
    if more == [] {
      assert h + [e] + more == h + [e];
      Unfold(c, h, e, e.run, e.kind.value);
    } else {
      var last := more[|more| - 1];
      TripsOncePerCall(c, h, e, more[..|more| - 1], e');
      assert h + [e] + more == (h + [e] + more[..|more| - 1]) + [last];
      Unfold(c, h + [e] + more[..|more| - 1], last, e.run, e.kind.value);
    }
  }

  /** A streak warns at most once: what was warned stays warned until its call is no longer repeated. */
  lemma WarnsOnce(c: Config, runs: Runs, e: Event, run: Text, kind: Text)
    requires WellKept(runs) && StreakAt(runs, run, kind).Some? && StreakAt(runs, run, kind).value.warned
    requires StreakAt(Step(c, runs, e), run, kind).Some?
    ensures StreakAt(Step(c, runs, e), run, kind).value.warned || StreakAt(Step(c, runs, e), run, kind).value.repeats == 1
    ensures e.Claimed? && e.run == run ==> Warns(runs, e) != Some(kind)
  {
    match e
    case Started(_, _, _, _, _, _) =>
      if WatchedStart(c, e) {
        if Readable(e) {
          RecordReadable(c, runs, e, run, kind);
        } else {
          RecordUnreadable(c, runs, e, run, kind);
        }
      }
    case Consulted(_, _, _, _) => ConsultEffect(c, runs, e, run, kind);
    case Claimed(_, _, _) => ClaimEffect(runs, e, run, kind);
    case Forgotten(r) => FindRemove(runs, r, run);
  }

  // ---- eviction ----

  /** Only a readable watched start makes a run the most recently used. */
  predicate Touches(c: Config, e: Event) { WatchedStart(c, e) && Readable(e) }

  /** The other runs with a readable watched start since this run's last one. */
  function Recent(c: Config, h: seq<Event>, run: Text): set<Text>
  {
    if h == [] then {}
    else
      var before := Recent(c, h[..|h| - 1], run);
      var e := h[|h| - 1];
      if !Touches(c, e) then before else if e.run == run then {} else before + {e.run}
  }

  /** Every run further on has been used since. */
  predicate Ordered(c: Config, h: seq<Event>, runs: Runs)
  {
    forall i, j | 0 <= i < j < |runs| :: runs[j].0 in Recent(c, h, runs[i].0)
  }

  lemma RecentStep(c: Config, h: seq<Event>, e: Event, run: Text)
    ensures Recent(c, h + [e], run) ==
            if !Touches(c, e) then Recent(c, h, run) else if e.run == run then {} else Recent(c, h, run) + {e.run}
  {
    assert (h + [e])[..|h|] == h;
  }

  lemma OrderedRemove(c: Config, h: seq<Event>, runs: Runs, run: Text)
    requires Unique(runs) && Ordered(c, h, runs)
    ensures Ordered(c, h, Remove(runs, run))
  {
    if Has(runs, run) {
      var i :| 0 <= i < |runs| && runs[i].0 == run;
      RemoveAt(runs, i);
    } else {
      RemoveAbsent(runs, run);
    }
  }

  lemma OrderedTouch(c: Config, h: seq<Event>, runs: Runs, e: Event)
    requires WellKept(runs) && Ordered(c, h, runs) && Touches(c, e)
    ensures Ordered(c, h + [e], Touch(runs, e.run))
  {
    var rest := Remove(runs, e.run);
    OrderedRemove(c, h, runs, e.run);
    RemoveUnique(runs, e.run);
    var t := Touch(runs, e.run);
    var drop := |rest| + 1 - |t|;
    assert t[..|t| - 1] == rest[drop..];
    forall i, j | 0 <= i < j < |t| ensures t[j].0 in Recent(c, h + [e], t[i].0) {
      RecentStep(c, h, e, t[i].0);
      assert t[i] == rest[i + drop];
      if j < |t| - 1 {
        assert t[j] == rest[j + drop];
      }
    }
  }

  lemma OrderedPut(c: Config, h: seq<Event>, runs: Runs, run: Text, streaks: Streaks)
    requires Has(runs, run) && Ordered(c, h, runs)
    ensures Ordered(c, h, Put(runs, run, streaks))
  {
    PutInPlace(runs, run, streaks);
  }

  lemma OrderedStill(c: Config, h: seq<Event>, e: Event, runs: Runs)
    requires Ordered(c, h, runs) && !Touches(c, e)
    ensures Ordered(c, h + [e], runs)
  {
    forall i, j | 0 <= i < j < |runs| ensures runs[j].0 in Recent(c, h + [e], runs[i].0) {
      RecentStep(c, h, e, runs[i].0);
    }
  }

  lemma OrderedStep(c: Config, h: seq<Event>, e: Event, runs: Runs)
    requires WellKept(runs) && Ordered(c, h, runs)
    ensures Ordered(c, h + [e], Step(c, runs, e))
  {
    if Touches(c, e) {
      OrderedTouch(c, h, runs, e);
      TouchKept(runs, e.run);
      var touched := Touch(runs, e.run);
      var streaks := StreaksOf(touched, e.run);
      OrderedPut(c, h + [e], touched, e.run,
                 Put(streaks, e.kind.value, Extend(Find(streaks, e.kind.value), e.node.value, e.digest.value, e.at)));
    } else {
      OrderedStill(c, h, e, runs);
      match e
      case Started(_, _, _, _, _, _) =>
        if WatchedStart(c, e) && Has(runs, e.run) {
          OrderedPut(c, h + [e], runs, e.run, Remove(StreaksOf(runs, e.run), e.kind.value));
        }
      case Consulted(_, _, _, _) =>
        var s := Trips(c, runs, e);
        if s.Some? {
          OrderedPut(c, h + [e], runs, e.run, Put(StreaksOf(runs, e.run), e.kind.value, s.value.(tripped := true)));
        }
      case Claimed(_, _, _) =>
        var k := Warns(runs, e);
        if k.Some? {
          var streaks := StreaksOf(runs, e.run);
          OrderedPut(c, h + [e], runs, e.run, Put(streaks, k.value, Find(streaks, k.value).value.(warned := true)));
        }
      case Forgotten(run) => OrderedRemove(c, h + [e], runs, run);
    }
  }

  lemma {:induction false} StateOrdered(c: Config, h: seq<Event>)
    ensures Ordered(c, h, State(c, h))
    decreases |h|
  {
    if h != [] {
      var before, e := h[..|h| - 1], h[|h| - 1];
      StateKept(c, before);
      StateOrdered(c, before);
      OrderedStep(c, before, e, State(c, before));
      assert before + [e] == h;
    }
  }

  lemma {:induction false} KeyCount<K, V>(d: Dict<K, V>)
    requires Unique(d)
    ensures |KeySet(d)| == |d| && forall k :: k in KeySet(d) <==> Has(d, k)
  {
    if d != [] {
      KeyCount(d[1..]);
      assert forall i | 0 < i < |d| :: d[i] == d[1..][i - 1];
      assert forall i | 0 <= i < |d[1..]| :: d[1..][i] == d[i + 1];
      assert d[0].0 !in KeySet(d[1..]);
      assert KeySet(d) == {d[0].0} + KeySet(d[1..]);
    }
  }

  lemma {:induction false} SubsetCount<T>(a: set<T>, b: set<T>)
    requires a <= b
    ensures |a| <= |b|
  {
    if a != {} {
      var x :| x in a;
      SubsetCount(a - {x}, b - {x});
    }
  }

  lemma TouchKeeps(runs: Runs, run: Text, q: Text)
    requires WellKept(runs) && Has(runs, q) && !Has(Touch(runs, run), q)
    ensures q != run && !Has(runs, run) && |runs| == MAX_LOOP_RUNS && runs[0].0 == q
  {
    var rest := Remove(runs, run);
    RemoveUnique(runs, run);
    RemoveKept(runs, run);
    FindRemove(runs, run, q);
    FindTouch(runs, run, run);
    if Has(runs, run) || |rest| < MAX_LOOP_RUNS {
      FindAppend(rest, run, StreaksOf(runs, run), q);
      assert false;
    }
    RemoveAbsent(runs, run);
    FindTail(rest, q);
    FindTail(rest, run);
    FindAppend(rest[1..], run, [], q);
  }

  lemma TouchingStep(c: Config, runs: Runs, e: Event, q: Text)
    requires WellKept(runs) && Touches(c, e)
    ensures Has(Step(c, runs, e), q) <==> Has(Touch(runs, e.run), q)
  {
    TouchKept(runs, e.run);
    var touched := Touch(runs, e.run);
    var streaks := StreaksOf(touched, e.run);
    FindPut(touched, e.run,
            Put(streaks, e.kind.value, Extend(Find(streaks, e.kind.value), e.node.value, e.digest.value, e.at)), q);
  }

  lemma StillStep(c: Config, runs: Runs, e: Event, q: Text)
    requires !Touches(c, e) && e != Forgotten(q)
    ensures Has(Step(c, runs, e), q) <==> Has(runs, q)
  {
    match e
    case Started(_, _, _, _, _, _) =>
      if WatchedStart(c, e) && Has(runs, e.run) {
        FindPut(runs, e.run, Remove(StreaksOf(runs, e.run), e.kind.value), q);
      }
    case Consulted(_, _, _, _) =>
      var s := Trips(c, runs, e);
      if s.Some? {
        FindPut(runs, e.run, Put(StreaksOf(runs, e.run), e.kind.value, s.value.(tripped := true)), q);
      }
    case Claimed(_, _, _) =>
      var k := Warns(runs, e);
      if k.Some? {
        var streaks := StreaksOf(runs, e.run);
        FindPut(runs, e.run, Put(streaks, k.value, Find(streaks, k.value).value.(warned := true)), q);
      }
    case Forgotten(run) => FindRemove(runs, run, q);
  }

  /** A run is lost only when 64 other runs had readable watched starts since its own last one. */
  lemma EvictedAfter(c: Config, h: seq<Event>, e: Event, run: Text)
    requires Has(State(c, h), run) && !Has(State(c, h + [e]), run) && e != Forgotten(run)
    ensures |Recent(c, h + [e], run)| >= MAX_LOOP_RUNS && run !in Recent(c, h + [e], run)
  {
    var runs := State(c, h);
    assert (h + [e])[..|h|] == h;
    StateKept(c, h);
    StateOrdered(c, h);
    RecentOthers(c, h + [e], run);
    if !Touches(c, e) {
      StillStep(c, runs, e, run);
      assert false;
    } else {
      TouchingStep(c, runs, e, run);
      TouchKeeps(runs, e.run, run);
      RecentStep(c, h, e, run);
      var others := KeySet(runs[1..]);
      KeyCount(runs[1..]);
      forall q | q in others ensures q in Recent(c, h, run) {
        var j :| 0 <= j < |runs[1..]| && runs[1..][j].0 == q;
        assert runs[j + 1].0 == q;
      }
      assert e.run !in others by {
        assert forall i | 0 <= i < |runs[1..]| :: runs[1..][i] == runs[i + 1];
      }
      SubsetCount(others + {e.run}, Recent(c, h + [e], run));
    }
  }

  lemma {:induction false} RecentOthers(c: Config, h: seq<Event>, run: Text)
    ensures run !in Recent(c, h, run)
  {
    if h != [] {
      RecentOthers(c, h[..|h| - 1], run);
    }
  }

  /** Used, and since then neither forgotten nor followed by 64 other used runs. */
  predicate Alive(c: Config, h: seq<Event>, run: Text)
  {
    h != [] &&
    var e := h[|h| - 1];
    if Touches(c, e) && e.run == run then true
    else e != Forgotten(run) && Alive(c, h[..|h| - 1], run) && |Recent(c, h, run)| < MAX_LOOP_RUNS
  }

  lemma {:induction false} Retained(c: Config, h: seq<Event>, run: Text)
    requires Alive(c, h, run)
    ensures Has(State(c, h), run)
    decreases |h|
  {
    var before, e := h[..|h| - 1], h[|h| - 1];
    assert h == before + [e];
    if Touches(c, e) && e.run == run {
      StateKept(c, before);
      TouchingStep(c, State(c, before), e, run);
      TouchKept(State(c, before), run);
    } else {
      Retained(c, before, run);
      if !Has(State(c, h), run) {
        EvictedAfter(c, before, e, run);
        assert false;
      }
    }
  }

  /** What the guard counts from is the end of the kind's true calls. */
  lemma {:induction false} KeptIsSuffix(c: Config, h: seq<Event>, run: Text, kind: Text) returns (lost: seq<Call>)
    ensures Calls(c, h, run, kind) == lost + KeptCalls(c, h, run, kind)
    decreases |h|
  {
    if h == [] {
      lost := [];
    } else if !Has(State(c, h), run) {
      lost := Calls(c, h, run, kind);
    } else {
      lost := KeptIsSuffix(c, h[..|h| - 1], run, kind);
      if Clears(c, h[|h| - 1], run, kind) {
        lost := [];
      }
    }
  }

  /** Eviction can only make the guard count fewer repeats than there were. */
  lemma NeverOvercounts(c: Config, h: seq<Event>, run: Text, kind: Text)
    ensures var s := StreakAt(State(c, h), run, kind);
            s.Some? ==> Calls(c, h, run, kind) != [] && s.value.repeats <= ConstantSuffix(Calls(c, h, run, kind))
  {
    StreakRefinement(c, h, run, kind);
    var lost := KeptIsSuffix(c, h, run, kind);
    ConstantSuffixOfSuffix(lost, KeptCalls(c, h, run, kind));
  }

  /** The run has stayed alive for as long as the kind's current calls go back. */
  predicate Intact(c: Config, h: seq<Event>, run: Text, kind: Text)
    decreases |h|
  {
    Calls(c, h, run, kind) == [] || (Alive(c, h, run) && Intact(c, h[..|h| - 1], run, kind))
  }

  lemma {:induction false} IntactKeepsAll(c: Config, h: seq<Event>, run: Text, kind: Text)
    requires Intact(c, h, run, kind)
    ensures KeptCalls(c, h, run, kind) == Calls(c, h, run, kind)
    decreases |h|
  {
    if Calls(c, h, run, kind) == [] {
      var lost := KeptIsSuffix(c, h, run, kind);
    } else {
      Retained(c, h, run);
      IntactKeepsAll(c, h[..|h| - 1], run, kind);
    }
  }

  /** While its run is kept, a streak is the longest constant suffix of the kind's true calls. */
  lemma StreakExact(c: Config, h: seq<Event>, run: Text, kind: Text)
    requires Intact(c, h, run, kind)
    ensures MatchesStreak(Calls(c, h, run, kind), StreakAt(State(c, h), run, kind), Tripped(c, h, run, kind))
  {
    IntactKeepsAll(c, h, run, kind);
    StreakRefinement(c, h, run, kind);
  }

  // ---- the guard ----

  class LoopGuard {
    const config: Config
    var runs: Runs

    constructor (config: Config)
      ensures this.config == config && runs == State(config, []) && WellKept(runs)
    {
      this.config := config;
      runs := [];
    }

    /** The run's streaks, moved to the recent end. */
    method TouchRun(run: Text) returns (streaks: Streaks)
      modifies this`runs
      ensures runs == Touch(old(runs), run) && streaks == StreaksOf(old(runs), run)
    {
      var found := Find(runs, run);
      runs := Remove(runs, run);
      if found.None? {
        if |runs| >= MAX_LOOP_RUNS {
          runs := runs[1..];
        }
        streaks := [];
      } else {
        streaks := found.value;
      }
      runs := runs + [(run, streaks)];
    }

    method RecordStart(e: Event) returns (r: Option<Info>, atThreshold: bool)
      requires e.Started? && WellKept(runs)
      modifies this`runs
      ensures runs == Step(config, old(runs), e) && WellKept(runs)
      ensures r.Some? <==> Touches(config, e)
      ensures r.Some? ==>
                var s := StreakAt(runs, e.run, e.kind.value);
                && s.Some? && r.value == Info(s.value.repeats, s.value.first, s.value.last, s.value.digest)
                && s.value.node == e.node.value && s.value.digest == e.digest.value
                && (atThreshold <==> s.value.repeats >= config.threshold)
    {
      hide WellKept, Put, Find, Remove;
      StepKept(config, runs, e);
      r, atThreshold := None, false;
      if !Watched(config, e.kind, e.node, e.name) {
        return;
      }
      if e.digest.None? || e.node.None? {
        var streaks := Find(runs, e.run);
        if streaks.Some? {
          runs := Put(runs, e.run, Remove(streaks.value, e.kind.value));
        }
        return;
      }
      FindTouch(runs, e.run, e.run);
      var streaks := TouchRun(e.run);
      var streak := Find(streaks, e.kind.value);
      var next: Streak;
      if streak.Some? && streak.value.node == e.node.value && streak.value.digest == e.digest.value {
        next := streak.value.(repeats := streak.value.repeats + 1, last := e.at, tripped := false);
      } else {
        next := Streak(e.node.value, e.digest.value, 1, e.at, e.at, false, false);
      }
      FindPut(runs, e.run, Put(streaks, e.kind.value, next), e.run);
      FindPut(streaks, e.kind.value, next, e.kind.value);
      runs := Put(runs, e.run, Put(streaks, e.kind.value, next));
      r, atThreshold := Some(Info(next.repeats, next.first, next.last, e.digest.value)), next.repeats >= config.threshold;
    }

    method ConsultStreak(e: Event) returns (r: Option<Info>)
      requires e.Consulted? && WellKept(runs)
      modifies this`runs
      ensures runs == Step(config, old(runs), e) && WellKept(runs)
      ensures var s := Trips(config, old(runs), e);
              r == if s.None? then None else Some(Info(s.value.repeats, s.value.first, s.value.last, s.value.digest))
    {
      StepKept(config, runs, e);
      if !Watched(config, e.kind, e.node, e.name) {
        return None;
      }
      var streaks := Find(runs, e.run);
      var streak := if streaks.Some? then Find(streaks.value, e.kind.value) else None;
      if streak.None? || Some(streak.value.node) != e.node || streak.value.tripped || streak.value.repeats < config.threshold {
        return None;
      }
      runs := Put(runs, e.run, Put(streaks.value, e.kind.value, streak.value.(tripped := true)));
      return Some(Info(streak.value.repeats, streak.value.first, streak.value.last, streak.value.digest));
    }

    method ClaimWarning(e: Event) returns (claimed: bool)
      requires e.Claimed? && WellKept(runs)
      modifies this`runs
      ensures runs == Step(config, old(runs), e) && WellKept(runs)
      ensures claimed <==> Warns(old(runs), e).Some?
    {
      StepKept(config, runs, e);
      var found := Find(runs, e.run);
      if found.None? {
        return false;
      }
      var streaks := found.value;
      var i := 0;
      while i < |streaks|
        invariant i <= |streaks| && runs == old(runs)
        invariant Candidate(streaks, e.node, e.kind) == Candidate(streaks[i..], e.node, e.kind)
      {
        var kind, streak := streaks[i].0, streaks[i].1;
        assert streaks[i..][1..] == streaks[i + 1..];
        if (e.kind.None? || kind == e.kind.value) && Some(streak.node) == e.node {
          FindAt(streaks, i);
          if streak.warned {
            return false;
          }
          runs := Put(runs, e.run, Put(streaks, kind, streak.(warned := true)));
          return true;
        }
        i := i + 1;
      }
      return false;
    }

    method Forget(run: Text)
      requires WellKept(runs)
      modifies this`runs
      ensures runs == Step(config, old(runs), Forgotten(run)) && WellKept(runs)
    {
      StepKept(config, runs, Forgotten(run));
      runs := Remove(runs, run);
    }
  }
}
