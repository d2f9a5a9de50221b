/**
 What the loop guard watches, answers and warns about, said from the call itself
 and the streak the guard holds.
 */
module LoopPolicy {
  import opened Utf16
  import opened Json
  import opened OrderedDict
  import opened LoopGuard

  /** The guard is on, the kind is one it watches, and neither the node nor its name is exempt. */
  predicate Applies(c: Config, kind: Option<Text>, node: Option<Text>, name: Option<Text>)
  {
    && c.enabled
    && (exists k | k in c.kinds :: kind == Some(k))
    && (forall a | a in c.allow :: node != Some(a) && name != Some(a))
  }

  lemma AppliesMeans(c: Config, kind: Option<Text>, node: Option<Text>, name: Option<Text>)
    ensures Watched(c, kind, node, name) <==> Applies(c, kind, node, name)
  {
  }

  /** A watched call goes on with its kind's streak or begins one, an unreadable one ends it, any other touches nothing. */
  lemma StartAnswer(c: Config, runs: Runs, e: Event, kind: Text)
    requires WellKept(runs) && e.Started?
    ensures !Applies(c, e.kind, e.node, e.name) ==> Step(c, runs, e) == runs
    ensures Applies(c, e.kind, e.node, e.name) ==>
              var s, r := StreakAt(runs, e.run, kind), StreakAt(Step(c, runs, e), e.run, kind);
              if e.kind != Some(kind) then r == s
              else if e.node.None? || e.digest.None? then r.None?
              else if s.Some? && e.node == Some(s.value.node) && e.digest == Some(s.value.digest) then
                r == Some(Streak(s.value.node, s.value.digest, s.value.repeats + 1, s.value.first, e.at, false, s.value.warned))
              else r == Some(Streak(e.node.value, e.digest.value, 1, e.at, e.at, false, false))
  {
    hide WellKept, Applies, StreakAt, Touch;
    AppliesMeans(c, e.kind, e.node, e.name);
    if WatchedStart(c, e) {
      if Readable(e) {
        HasRecorded(c, runs, e);
        RecordReadable(c, runs, e, e.run, kind);
      } else {
        RecordUnreadable(c, runs, e, e.run, kind);
      }
    }
  }

  lemma HasRecorded(c: Config, runs: Runs, e: Event)
    requires WellKept(runs) && WatchedStart(c, e) && Readable(e)
    ensures Has(Record(c, runs, e), e.run)
  {
    hide WellKept, Touch, Has;
    TouchKept(runs, e.run);
    var touched := Touch(runs, e.run);
    var streaks := StreaksOf(touched, e.run);
    FindPut(touched, e.run, Put(streaks, e.kind.value, Extend(Find(streaks, e.kind.value), e.node.value, e.digest.value, e.at)), e.run);
    Found(Record(c, runs, e), e.run);
  }

  lemma Found<K, V>(d: Dict<K, V>, k: K)
    ensures Find(d, k).Some? <==> Has(d, k)
  {
  }

  /** A consult answers exactly for a watched node whose own streak is long enough and has not been answered since its last call. */
  lemma ConsultAnswer(c: Config, runs: Runs, e: Event, kind: Text)
    requires e.Consulted? && e.kind == Some(kind)
    ensures var s, t := StreakAt(runs, e.run, kind), Trips(c, runs, e);
            && (t.Some? <==> Applies(c, e.kind, e.node, e.name) && s.Some? && e.node == Some(s.value.node)
                             && !s.value.tripped && s.value.repeats >= c.threshold)
            && (t.Some? ==> t == s && StreakAt(Step(c, runs, e), e.run, kind) == Some(s.value.(tripped := true)))
            && (t.None? ==> Step(c, runs, e) == runs)
  {
    hide Applies, StreakAt;
    AppliesMeans(c, e.kind, e.node, e.name);
    ConsultEffect(c, runs, e, e.run, kind);
  }

  /** The first streak of this node, among those of the kind asked for. */
  predicate FirstOf(streaks: Streaks, i: nat, node: Option<Text>, kind: Option<Text>)
  {
    && i < |streaks| && Mine(streaks[i], node, kind)
    && forall j | 0 <= j < i :: !Mine(streaks[j], node, kind)
  }

  predicate Mine(s: (Text, Streak), node: Option<Text>, kind: Option<Text>)
  {
    Some(s.1.node) == node && (kind == None || kind == Some(s.0))
  }

  lemma {:induction false} CandidateExactly(streaks: Streaks, node: Option<Text>, kind: Option<Text>)
    ensures var r := Candidate(streaks, node, kind);
            && (r.Some? ==> exists i | 0 <= i < |streaks| :: FirstOf(streaks, i, node, kind) && streaks[i].0 == r.value)
            && (r.None? ==> forall i | 0 <= i < |streaks| :: !Mine(streaks[i], node, kind))
  {
    if streaks != [] {
      if Mine(streaks[0], node, kind) {
        assert FirstOf(streaks, 0, node, kind);
      } else {
        CandidateExactly(streaks[1..], node, kind);
        assert forall i | 0 <= i < |streaks[1..]| :: streaks[1..][i] == streaks[i + 1];
        assert forall i | 0 < i < |streaks| :: streaks[i] == streaks[1..][i - 1];
        if Candidate(streaks[1..], node, kind).Some? {
          var i :| 0 <= i < |streaks[1..]| && FirstOf(streaks[1..], i, node, kind) && streaks[1..][i].0 == Candidate(streaks, node, kind).value;
          assert FirstOf(streaks, i + 1, node, kind) && streaks[i + 1].0 == Candidate(streaks, node, kind).value;
        }
      }
    }
  }

  /** A claim is granted to the first streak of the node asked for, once. */
  lemma ClaimAnswer(runs: Runs, e: Event, i: nat)
    requires WellKept(runs) && e.Claimed?
    ensures var streaks := StreaksOf(runs, e.run);
            && ((forall j | 0 <= j < |streaks| :: !Mine(streaks[j], e.node, e.kind)) ==> Warns(runs, e).None?)
            && (FirstOf(streaks, i, e.node, e.kind) ==>
                  && Warns(runs, e) == (if streaks[i].1.warned then None else Some(streaks[i].0))
                  && StreakAt(Claim(runs, e), e.run, streaks[i].0) == Some(streaks[i].1.(warned := true)))
  {
    hide WellKept, Candidate, Mine;
    var streaks := StreaksOf(runs, e.run);
    StreaksUnique(runs, e.run);
    CandidateExactly(streaks, e.node, e.kind);
    if FirstOf(streaks, i, e.node, e.kind) {
      FindAt(streaks, i);
      FirstOnce(streaks, e.node, e.kind);
      ClaimEffect(runs, e, e.run, streaks[i].0);
    }
  }

  lemma FirstOnce(streaks: Streaks, node: Option<Text>, kind: Option<Text>)
    ensures forall i, j | FirstOf(streaks, i, node, kind) && FirstOf(streaks, j, node, kind) :: i == j
  {
    hide Mine;
  }
}
