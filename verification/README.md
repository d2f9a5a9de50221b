# GraphMind client: a verified model

GraphMind's client records a running agent as events, holds its threads at gates
for a live debugger, and sends every event through one pipeline: redact, shrink,
number, buffer, send. This project models that runtime in Dafny and proves what
its documentation promises. `dafny verify dfyconfig.toml` checks all of it.

What is modelled, by component:

- **Text and JSON.** Texts are sequences of UTF-16 units (`Utf16.dfy`). A JSON value
  prints to the compact text of ECMA-262 section 25.5.2 and is read back by the
  grammar of sections 2 to 7 of RFC 8259 (`Json.dfy`). A number is the token it
  prints to; `JsNumber.dfy` is how that token is spelled (ECMA-262 section 6.1.6.1.20),
  `JsLayout.dfy` which layout a value gets.
- **Payload budget.** The wire schema and skeleton plans are data (`Schema.dfy`), the
  four tiers functions (`ShrinkSpec.dfy`), the client's loops methods (`Spans.dfy`,
  `Shrink.dfy`). `Budget.dfy`, `FieldTrim.dfy` and `Idempotence.dfy` hold the promises;
  what a degraded payload holds is in `ShrinkShape.dfy`, which tier answers in
  `ShrinkTiers.dfy`.
- **Loop guard.** Canonical JSON (`Canonical.dfy`) and streak counters under
  least-recently-used eviction (`LoopGuard.dfy`); what is watched, answered and warned
  about (`LoopPolicy.dfy`).
- **Held-time ledger.** Five indexes (`HeldLedger.dfy`), the timeline of holds
  (`HoldTimeline.dfy`), what is reported (`HeldTime.dfy`), who a hold is
  charged to (`HeldPins.dfy`), the object (`Held.dfy`).
- **Gates.** One held gate and its host thread as a machine of lock-protected steps
  (`Gate.dfy`), the engine object (`GateEngine.dfy`), all gate calls with the transport
  thread and the clock in any interleaving (`Session.dfy`), what a host is told
  (`GateDecisions.dfy`) and what an edit goes through (`GateEdits.dfy`), the attempt loop
  of a wrapped tool (`Wrap.dfy`).
- **Redaction.** What is sent and remembered (`Redaction.dfy`), the object
  (`Redactor.dfy`), what each switch hides (`RedactionPolicy.dfy`), privacy
  (`RedactionPrivacy.dfy`), validity (`RedactionValid.dfy`).
- **Replay.** Sequence numbers, the ring buffer and the outbox (`Replay.dfy`).
- **Finish latch.** The two copies of a streamed model step (`FinishLatch.dfy`).
- **Pollution search.** The worklist search of a cyclic object graph (`Pollution.dfy`).

`OrderedDict.dfy` holds Python's insertion-ordered dictionary.

A pause emitted late is not ruled out: a gate is registered before `exec.paused`
is emitted, so a release in between emits `exec.resumed` first. What is proved
is that each pause is released exactly once.

Where code and documentation disagree the model follows the code. `serialize_payload`
is documented as idempotent. Two kinds of results are returned with no check of their
size, and are shrunk again when they are over the budget: a whole-payload marker, which
happens below 16384 bytes only (`Idempotence.SmallBudgetNotIdempotent`), and the trimmed
form of a dictionary that holds host objects and is of no known type, which happens at
any budget (`Idempotence.UnknownTypeNotIdempotent`). `Idempotence.IdempotentExactly` is
the exact condition over all payloads and budgets.

## Model

| member | source | states |
|---|---|---|
| Utf16.Utf16LengthExact | python/graphmind/shrink.py:104-114 | the fast length of any code-point string, lone and split surrogates included, is its number of UTF-16 units |
| Utf16.Utf16PrefixExact | python/graphmind/shrink.py:117-125 | the fast prefix encodes to exactly the first n units, also when the cut falls inside a pair |
| Utf16.Utf8LengthExact | python/graphmind/shrink.py:128-138 | the fast byte count is 4 per pair, joined or split, and 3 per lone surrogate |
| Utf16.CutExact | python/graphmind/shrink.py:662-666 | cutting a Python string is cutting its units, the early length test included |
| Json.ParsePrinted | python/graphmind/shrink.py:287-306 | reading back the text of any value gives the value, non-finite numbers as null, whatever delimiter follows |
| Json.PrintInjective | python/graphmind/loop_guard.py:252-270 | two values print alike exactly when they read back alike |
| JsNumber.JsNumberExact | python/graphmind/loop_guard.py:273-297 | over all four layouts the printed number reads back as the same real value and sign |
| JsNumber.JsNumberInjective | python/graphmind/loop_guard.py:273-297 | two numbers print alike exactly when their values are equal |
| JsNumber.DoubleTokenLength | python/graphmind/loop_guard.py:273-297 | a double of at most 17 digits prints to at most 25 units |
| JsLayout.LayoutExact | python/graphmind/loop_guard.py:273-297 | an exponent exactly from 10^21 on and below 10^-6, otherwise a point exactly when the value is no integer, and no digit too many |
| Canonical.CanonicalCallExact | python/graphmind/loop_guard.py:334-404 | two calls nested at most 64 deep have one canonical string exactly when their nodes are equal and their inputs are equal up to key order and ignored keys |
| Canonical.SortedUnique | python/graphmind/loop_guard.py:300-309 | the order by UTF-16 unit leaves one arrangement of a set of fields, so key order cannot show |
| Canonical.DepthLimitTight | python/graphmind/loop_guard.py:334-391 | one level deeper the markers take over: different inputs get one canonical string |
| Canonical.KeysAscend | python/graphmind/loop_guard.py:300-309 | printed keys are those not ignored, ascending by UTF-16 unit |
| Canonical.EscapeTable | python/graphmind/loop_guard.py:252-270 | each unit that is no half of a pair is escaped as the table of ECMA-262 section 25.5.2 has it |
| Canonical.PairsRaw | python/graphmind/loop_guard.py:252-270 | a surrogate pair stays raw, every other unit is escaped on its own |
| Spans.TopLevelSpans | python/graphmind/shrink.py:704-734 | the scanning loop returns what the grammar says |
| Spans.SpansOfPrinted | python/graphmind/shrink.py:704-734 | on the text of any object it finds every key, each with exactly the text its value prints to |
| Spans.SpansSound | python/graphmind/shrink.py:704-734 | whatever text it accepts is a JSON object text with exactly those keys |
| Budget.PlansFit | python/graphmind/shrink.py:598-652 | all ten skeleton plans keep what their schema requires in a form it accepts |
| Budget.PlanWeights | python/graphmind/shrink.py:598-652 | every plan's smallest skeleton weighs at most 3600 bytes before its markers |
| Budget.PrintBytes | python/graphmind/shrink.py:128-138 | no value's text takes more UTF-8 bytes than the sum of its parts' bounds |
| Budget.KeptValid | python/graphmind/shrink.py:808-839 | the planned fields of a valid payload are a valid payload |
| Budget.SmallestSkeletonFits | python/graphmind/shrink.py:845-877 | the last skeleton attempt of a valid payload is valid and within 4096 bytes |
| Budget.SerializeWithinBudget | python/graphmind/shrink.py:883-917 | for every known type, valid payload and budget of 4096 bytes or more, the result is valid and within the budget, host objects included |
| Budget.UnchangedExactly | python/graphmind/shrink.py:895-902 | a payload comes back unchanged exactly when its text is within the budget |
| Budget.SerializeIdempotent | python/graphmind/shrink.py:883-945 | from 16384 bytes on a result is within the budget and comes back as it is, exactly when it is not a trimmed dictionary of unknown type that is still over the budget |
| Idempotence.IdempotentExactly | python/graphmind/shrink.py:883-945 | for every payload, host objects included, and every budget: a result comes back as it is unless it is one of those returned without a size check and is over the budget |
| Idempotence.SmallBudgetNotIdempotent | python/graphmind/shrink.py:911-917 | a payload whose marker is shrunk again at 4096 bytes |
| Idempotence.UnknownTypeNotIdempotent | python/graphmind/shrink.py:925-930 | for every budget a payload of unknown type with a host object whose trimmed form is shrunk again |
| FieldTrim.BiggestFirstOrder | python/graphmind/shrink.py:745-751 | the trimming order is a stable sort by size: descending, a permutation, ties in payload order |
| FieldTrim.TrimShortest | python/graphmind/shrink.py:752-760 | exactly the shortest biggest-first prefix that brings the rest to half the budget is trimmed, or every field if none does |
| FieldTrim.TrimEffect | python/graphmind/shrink.py:669-697 | each other field is as it was, each trimmed one keeps its JSON type |
| FieldTrim.TrimMarked | python/graphmind/shrink.py:763-770 | the marker keys say what was trimmed, from what, and how large it was |
| FieldTrim.TrimAddsNothing | python/graphmind/shrink.py:737-775 | no key appears or disappears but the markers |
| ShrinkShape.ShrinkTrims | python/graphmind/shrink.py:669-697 | a text becomes its first 2000 units and the suffix, a list empty, a dictionary the trimmed values of its first 256 fields with its own markers |
| ShrinkShape.TrimHolds | python/graphmind/shrink.py:737-775 | every dropped field of a trimmed payload holds such a value, every other its own |
| ShrinkShape.KeepsPlan | python/graphmind/shrink.py:808-839 | a skeleton keeps of every planned field its cut text, scalar, empty list, planned dictionary or marker, skips an optional container, and keeps nothing else |
| ShrinkShape.VerbatimExactly | python/graphmind/shrink.py:808-839 | the keys counted as verbatim are those whose value was kept whole, at every level of the plan |
| ShrinkShape.SkeletonHolds | python/graphmind/shrink.py:845-877 | a skeleton is what the plan kept, the markers, and in the full one the payload keys in order that were not kept whole |
| ShrinkShape.EqualThoughListed | python/graphmind/shrink.py:828-839 | a listed leaf equals its value only when it was cut or omitted before |
| ShrinkTiers.TrimTierExactly | python/graphmind/shrink.py:737-775 | the trim answers exactly when the shortest sufficient number of biggest fields leaves a payload that fits and is valid |
| ShrinkTiers.SerializeAnswers | python/graphmind/shrink.py:883-917 | the payload itself within the budget, else the trim whenever it fits and is valid, else the first skeleton that does, else the marker |
| ShrinkTiers.HostObjectsTrimmed | python/graphmind/shrink.py:778-800 | a host object becomes a marker and a list with one is emptied, in place; their keys are listed in order and the rest is untouched |
| ShrinkTiers.UnserializableAnswers | python/graphmind/shrink.py:925-945 | for a known type the host-free form when it fits and is valid, else its trim, the skeleton, the marker |
| ShrinkTiers.UnserializableOthers | python/graphmind/shrink.py:925-945 | for an unknown type the host-free form as it is, for no dictionary the marker |
| Shrink.ShrinkOne | python/graphmind/shrink.py:669-697 | the recursive loop over at most 256 keys computes the shrunk value |
| Shrink.Measure | python/graphmind/shrink.py:740-750 | sizes sliced from the payload's text are the sizes of the fields printed on their own |
| Shrink.TrimBiggest | python/graphmind/shrink.py:751-760 | the loop over sorted sizes trims exactly the dropped keys |
| Shrink.TrimFields | python/graphmind/shrink.py:737-775 | the field trim as a whole |
| Shrink.TrimUnserializable | python/graphmind/shrink.py:778-798 | host objects become markers in place, their keys are listed |
| Shrink.KeepPlannedFields | python/graphmind/shrink.py:808-825 | the loop over a plan keeps the planned fields, which keys stayed verbatim, and how many |
| Shrink.VerbatimCount | python/graphmind/shrink.py:828-839 | comparing two counts tells whether every kept field is verbatim |
| Shrink.ListLost | python/graphmind/shrink.py:855-866 | giving up early on the lost keys decides as the full sum would |
| Shrink.SkeletonOf | python/graphmind/shrink.py:845-877 | the attempts in order, the first that fits and is valid |
| Shrink.SerializePayload | python/graphmind/shrink.py:883-917 | the four tiers as run, whether or not the text was clean |
| Shrink.SerializeOpaque | python/graphmind/shrink.py:925-945 | the same for a payload with host objects |
| LoopGuard.LoopGuard.TouchRun | python/graphmind/loop_guard.py:636-645 | a run moves to the recent end, a new one may push the oldest out |
| LoopGuard.LoopGuard.RecordStart | python/graphmind/loop_guard.py:550-588 | a start's effect on the streaks and the record it returns |
| LoopGuard.LoopGuard.ConsultStreak | python/graphmind/loop_guard.py:590-607 | a consult's effect and answer |
| LoopGuard.LoopGuard.ClaimWarning | python/graphmind/loop_guard.py:609-630 | the first streak of the node gives its warning |
| LoopGuard.ConstantSuffixLongest | python/graphmind/loop_guard.py:22-41 | a streak length is the longest run of one call at the end of a history |
| LoopGuard.StreakRefinement | python/graphmind/loop_guard.py:550-588 | after any history a retained streak is the longest constant suffix of the kind's calls, with its first and last seq |
| LoopGuard.StreakExact | python/graphmind/loop_guard.py:550-588 | while its run is kept that is the suffix of all watched starts since the last unreadable one |
| LoopGuard.NeverOvercounts | python/graphmind/loop_guard.py:636-645 | eviction can only make a count smaller than the true suffix |
| LoopGuard.ConsultExact | python/graphmind/loop_guard.py:590-607 | a consult answers exactly when the node's latest call closes a suffix at the threshold that no consult answered yet |
| LoopGuard.TripsOncePerCall | python/graphmind/loop_guard.py:590-607 | no second answer for one count |
| LoopGuard.WarnsOnce | python/graphmind/loop_guard.py:609-630 | a warned streak stays warned until its call is no longer repeated |
| LoopGuard.EvictedAfter | python/graphmind/loop_guard.py:636-645 | a run is lost only when 64 other runs had readable watched starts since its own last one |
| LoopGuard.Retained | python/graphmind/loop_guard.py:636-645 | a used run that was not forgotten and not followed by 64 others is still there |
| LoopPolicy.StartAnswer | python/graphmind/loop_guard.py:526-588 | a watched start goes on with its kind's streak or begins one, an unreadable one ends it, any other changes nothing; watched is enabled, of a watched kind, and exempt neither by node nor by name |
| LoopPolicy.ConsultAnswer | python/graphmind/loop_guard.py:590-607 | a consult answers exactly for a watched node whose own streak is at the threshold and unanswered, and marks it answered |
| LoopPolicy.ClaimAnswer | python/graphmind/loop_guard.py:609-630 | a warning is granted to the first streak of the node asked for, unless it already warned |
| HeldLedger.RemoveIndexed | python/graphmind/held.py:231-250 | removing an instance keeps all five indexes consistent |
| HeldLedger.StartedIndexed | python/graphmind/held.py:84-103 | so does starting one, within the instance limit |
| HeldLedger.PinsKnown | python/graphmind/held.py:136-182 | a pin list names open instances, each once |
| HeldLedger.HoldOpenedIndexed | python/graphmind/held.py:136-184 | opening a hold keeps the indexes, and each count the number of live holds that name the instance |
| HeldLedger.HoldClosedIndexed | python/graphmind/held.py:186-194 | so does closing one |
| HoldTimeline.MeasureSplit | python/graphmind/held.py:26-29 | the measure of the union of hold intervals grows with the clock exactly while a hold is open |
| HeldTime.HistoryKept | python/graphmind/held.py:62-250 | after any history all indexes are filters of one instance list and every total is the timeline's |
| HeldTime.HeldExact | python/graphmind/held.py:111-134 | the reported total is the measure of the union of the intervals of all holds pinned to the instance |
| HeldTime.HeldWithinAge | python/graphmind/held.py:209-212 | it lies between zero and now minus the instance's start |
| HeldTime.PickExact | python/graphmind/held.py:222-229 | a call names the node's instance with that id, or with no id the one started last; never the newest for an unknown id |
| HeldTime.RootExact | python/graphmind/held.py:101-102 | a run's root is the newest instance started under the run's id, and only while that one is open |
| HeldPins.HoldCharges | python/graphmind/held.py:136-184 | an opened hold is charged to the run's open root, to the newest open instance of every node up to 64 parent links above, to its own target, and to nothing else |
| HeldPins.CountedHolds | python/graphmind/held.py:136-184 | over a whole history these are the holds an instance's reported time counts |
| HeldPins.TargetExactly | python/graphmind/held.py:139-152 | the target is the oldest instance after a call, the newest that errored at an error if any did, otherwise the newest |
| HeldPins.AncestorExactly | python/graphmind/held.py:158-174 | the ancestors are the newest instances of the nodes a repetition-free climb of recorded parents ends in |
| HeldPins.MarkConsumed | python/graphmind/held.py:139-152 | an error hold unmarks its target and nothing else |
| HeldPins.FailMarks | python/graphmind/held.py:105-109 | a failure marks the instance it names, or the newest, and no other |
| HeldPins.ParentRecorded | python/graphmind/held.py:95-98 | a start records the parent it declares; the table starts over at four times the limit |
| HeldPins.StartEvicts | python/graphmind/held.py:84-103 | a start removes the instance with its key, or the oldest when there is no room, and no other |
| Held.Ledgers.Start | python/graphmind/held.py:84-103 | the method's whole effect |
| Held.Ledgers.Finish | python/graphmind/held.py:119-132 | the method's whole effect and its report |
| Held.Ledgers.Peek | python/graphmind/held.py:111-117 | its report |
| Held.Ledgers.Fail | python/graphmind/held.py:105-109 | the method's whole effect |
| Held.Ledgers.TargetOf | python/graphmind/held.py:139-156 | the reversed search finds the instance a hold is pinned to first |
| Held.Ledgers.AncestorsOf | python/graphmind/held.py:163-177 | the bounded climb finds the newest open instance of each parent |
| Held.Ledgers.OpenHold | python/graphmind/held.py:136-184 | the method's whole effect |
| Held.Ledgers.CloseHold | python/graphmind/held.py:186-194 | the method's whole effect |
| Held.Ledgers.Unpin | python/graphmind/held.py:243-249 | the loop over holds drops one instance from each |
| Gate.HostStepOk | python/graphmind/session.py:734-760 | every step of a waiting host keeps its gate in exactly one phase |
| Gate.OtherOk | python/graphmind/gate.py:329-510 | so does every step of another thread |
| Gate.ReleasedExactlyOnce | python/graphmind/gate.py:481-514 | exec.resumed at most once per pause, exactly once when its settle is over, and a host that left leaves no gate held |
| Gate.SettledOnce | python/graphmind/gate.py:489-494 | a settled gate is never held again and keeps its cause |
| Gate.StaleTicketInert | python/graphmind/gate.py:397-434 | a verdict with a stale ticket changes nothing |
| Gate.StaleTicketStays | python/graphmind/gate.py:371-395 | a stale ticket never becomes current again |
| Gate.HostBoxesGrow | python/graphmind/gate.py:411-413 | the host replaces a mailbox only when it is done |
| Gate.OtherBoxesGrow | python/graphmind/gate.py:497-502 | so do the other threads |
| Gate.NeverAbandoned | python/graphmind/session.py:734-760 | the mailbox a host waits on is done, or is the gate's own and still to be resolved |
| Gate.DetachedHostMovesOn | python/graphmind/session.py:730-760 | each step of a detached host brings it closer to leaving |
| Gate.LeavesWithDecision | python/graphmind/session.py:784-791 | it leaves with what settled the gate or a plain continue |
| Gate.RecordHost | python/graphmind/session.py:1604-1621 | what exec.resumed records is what settled the gate |
| GateEngine.SettledExactly | python/graphmind/gate.py:481-514 | a settle run to its end: one record, the mailbox resolved, nothing held |
| GateEngine.Engine.Settle | python/graphmind/gate.py:481-514 | the locked part, the callback and the mailbox in order |
| GateEngine.Engine.HoldGate | python/graphmind/gate.py:329-346 | a fresh pause, registered and then announced |
| GateEngine.Engine.ResumeGate | python/graphmind/gate.py:355-361 | releases a held gate that is not validating |
| GateEngine.Engine.Begin | python/graphmind/gate.py:371-395 | hands the request over exactly when the gate is held and its mailbox pending |
| GateEngine.Engine.Reopen | python/graphmind/gate.py:397-415 | same gate, fresh mailbox; past the deadline it continues |
| GateEngine.Engine.Complete | python/graphmind/gate.py:417-434 | released with the edit only for the current ticket and before the deadline |
| GateEngine.Engine.ReleaseAll | python/graphmind/gate.py:436-447 | every gate held at the call is continued, the others untouched, and the count is theirs |
| GateEngine.Engine.Discard | python/graphmind/gate.py:449-455 | releases the gate if it is still held |
| GateDecisions.ResumesKnown | python/graphmind/gate.py:355-369 | in every interleaving a gate settled by a resume was settled by one that found it held and not validating, with exactly its action and its output if it injects |
| GateDecisions.DecisionAsked | python/graphmind/session.py:641-668 | a decision that is no plain continue and no edit is exactly what one resume asked |
| GateDecisions.AttachedHostIsTold | python/graphmind/session.py:730-754 | while the connection lasts and the waiter is not cancelled, a host leaves with exactly what settled its gate |
| GateDecisions.ResumeIsObeyed | python/graphmind/gate.py:355-369 | so an abort aborts and an injected output arrives |
| GateEdits.EditAnswered | python/graphmind/session.py:872-970 | an edit is taken up exactly when its gate is held, both sides enabled edits, the pause was offered, the action fits and the value is clean; otherwise it is refused |
| GateEdits.EditReachesHost | python/graphmind/session.py:936-949 | left alone, it reaches the host with its value, the pause's validator and its start time |
| GateEdits.VerdictTaken | python/graphmind/session.py:1072-1111 | accepted within four seconds and with a JSON form it goes on, otherwise it is refused |
| GateEdits.AcceptedSettles | python/graphmind/gate.py:417-434 | an accepted edit settles the gate that validates it, or past the deadline the gate continues without it |
| GateEdits.RefusedReopens | python/graphmind/gate.py:397-415 | a refusal is announced and the same gate held again with a fresh mailbox |
| GateEdits.EditedInputConditions | python/graphmind/session.py:928-972 | a host with an edited input: the steps at which the edit was allowed, timed, accepted and found in time, each condition said of the state then |
| GateEdits.OfferMeans | python/graphmind/session.py:641-668 | a pause is offered as editable exactly when it was asked with a usable validator and both sides enabled edits |
| Session.StateOk | python/graphmind/session.py:604-800 | every reachable state keeps every call's invariant |
| Session.EachPauseReleasedOnce | python/graphmind/gate.py:329-514 | in every interleaving each pause is held or settled, never both, and released exactly once; the gate of a finished call is settled |
| Session.DetachedHostLeaves | python/graphmind/session.py:641-668 | after a detach without a re-attach every host leaves within a bounded number of its own steps, also one that had not registered its hold yet |
| Session.LeavesPlainly | python/graphmind/session.py:1532-1543 | with a plain continue unless a resume or a verdict settled the gate |
| Session.EditProvenance | python/graphmind/session.py:928-972 | an edited input leaves a gate only if one step checked every condition, the gate's own validator accepted it in time, and the gate was neither settled nor overdue; the record is its wire copy |
| Session.HandedTrace | python/graphmind/session.py:936-949 | in every reachable state the request about to be handed over is one that was let through, and while its gate is held it names the validator the pause was offered with |
| Wrap.CallArgs.Apply | python/graphmind/wrap.py:236-246 | adopts the accepted edit of a decision, if it can be called |
| Wrap.RunSync | python/graphmind/wrap.py:307-369 | the attempt loop: what ran, what was finished, how it ended |
| Wrap.RunsLatestEdit | python/graphmind/wrap.py:211-246 | every attempt runs with the latest accepted edit, before the first one with the host's arguments |
| Wrap.FinishedOnce | python/graphmind/wrap.py:334-369 | a call that ends is finished exactly once |
| Wrap.CallEnds | python/graphmind/wrap.py:211-246 | a call ends in its first round that is no retry, with what the body gave, a gate injected, an abort decided or the body raised past its gates, and the one record that says so |
| Wrap.CallGoesOn | python/graphmind/wrap.py:334-367 | while every round is a retry it goes on |
| Wrap.AttemptRunsWith | python/graphmind/wrap.py:211-246 | an attempt runs with the input of the last continue or retry whose input is a mapping the function takes, else with the host's arguments |
| Wrap.EditedRunProvenance | python/graphmind/wrap.py:334-367 | a body that runs with other arguments than the host's runs with a value one of its own gates let through, validated and recorded |
| RedactionPrivacy.MaskUnseen | python/graphmind/redaction.py:377-401 | what is sent and remembered for an event depends only on its mask, every hidden value erased |
| RedactionPrivacy.NonInterference | python/graphmind/redaction.py:377-401 | two streams that differ only in what is hidden give equal outputs and equal tracking state |
| RedactionPrivacy.HiddenInputMasked | python/graphmind/redaction.py:606-616 | any two hidden inputs have one mask |
| RedactionPrivacy.HiddenOutputMasked | python/graphmind/redaction.py:618-634 | any two hidden outputs have one mask |
| RedactionPrivacy.HiddenTokenMasked | python/graphmind/redaction.py:686-735 | any two hidden delta texts of one UTF-16 length have one mask, whichever switch covers the delta |
| RedactionPrivacy.HiddenDeltaMasked | python/graphmind/redaction.py:718-733 | the same for one delta: all are covered, or its channel is tool-args and an argument switch is on |
| RedactionPrivacy.HiddenEditMasked | python/graphmind/redaction.py:419-433 | any two hidden edits of exec.resumed have one mask |
| RedactionPrivacy.HiddenMessageMasked | python/graphmind/redaction.py:434-438 | any two refusal messages of exec.refused have one mask |
| RedactionPrivacy.HiddenCallArgumentMasked | python/graphmind/redaction.py:640-684 | any two values of a hidden argument of a requested call have one mask |
| RedactionPrivacy.UnreadMasked | python/graphmind/redaction.py:461-591 | any two values of a field that a failed form never reads have one mask |
| RedactionPrivacy.ToolCallsMasked | python/graphmind/redaction.py:642-684 | requested tool-call arguments are unseen, entry by entry |
| RedactionPrivacy.ToolTokensHidden | python/graphmind/redaction.py:686-735 | the deltas a tool node streams show no text while tool results are hidden, the failed form included |
| RedactionPrivacy.ToolResultsStayHidden | python/graphmind/redaction.py:618-762 | if every start of a tool node says so, a hidden tool result is never sent, neither with the finish nor streamed, whatever was evicted |
| RedactionPolicy.StartPolicy | python/graphmind/redaction.py:606-616 | `hide_inputs` hides every input and `hide_tool_args` a tool's, the failed form included; nothing else changes and other starts are sent as they were |
| RedactionPolicy.FinishPolicy | python/graphmind/redaction.py:618-684 | `hide_outputs` hides every output and `hide_tool_results` a tool's; the argument switches hide the arguments of requested calls and nothing else |
| RedactionPolicy.TokenPolicy | python/graphmind/redaction.py:686-735 | covered deltas lose their text and show its length, uncovered ones are sent as they were |
| RedactionPolicy.AnswerPolicy | python/graphmind/redaction.py:405-440 | a covered answer shows neither edit nor message, an uncovered one is sent as it was |
| RedactionPolicy.OthersPolicy | python/graphmind/redaction.py:377-401 | no switch touches another event |
| RedactionPolicy.SummaryExact | python/graphmind/redaction.py:234-255 | a summary counts the hidden values and names their field once, on top of an earlier one while the sum is a safe integer |
| RedactionPolicy.StartRemembered | python/graphmind/redaction.py:737-762 | a readable start decides the kind its instance and node are known by |
| RedactionPolicy.ApplyTracked | python/graphmind/redaction.py:737-750 | what is remembered keeps its bounds |
| RedactionValid.RedactionKeepsValid | python/graphmind/redaction.py:606-735 | a valid event is sent, and sent valid, under every switch setting |
| RedactionValid.MergedValid | python/graphmind/redaction.py:234-255 | a merged summary is valid, whatever was there before |
| RedactionValid.FailedFormValid | python/graphmind/redaction.py:523-591 | the failed form of an uninspectable event is valid, or the event is dropped |
| Redactor.Redactor.ApplyOne | python/graphmind/redaction.py:377-401 | the redactor's whole effect on one event |
| Redactor.Redactor.Learn | python/graphmind/redaction.py:739-750 | both bounded maps after a start, oldest out first |
| Redactor.HideBatch | python/graphmind/redaction.py:702-726 | the loop over a batch of deltas |
| Redactor.HideRequested | python/graphmind/redaction.py:659-676 | the loop over requested calls |
| Replay.RingBuffer.Push | python/graphmind/ring_buffer.py:26-29 | the buffer holds the last items of all that were pushed |
| Replay.RingBuffer.ToList | python/graphmind/ring_buffer.py:31-33 | the list is the last `capacity` items pushed, oldest first |
| Replay.Append | python/graphmind/transport.py:121-132 | the queue drops its oldest frames past the limit |
| Replay.NumberedOnce | python/graphmind/session.py:1218-1240 | each number goes to one event frame or hello, in order; a dropped event takes none |
| Replay.EmitRecords | python/graphmind/session.py:1196-1240 | an emitted event takes the next number, joins history and buffer, and is queued while an attachment lasts |
| Replay.BufferExact | python/graphmind/session.py:1237-1238 | the buffer always holds the last `capacity` event frames |
| Replay.ReplayThenLive | python/graphmind/session.py:1521-1526 | within one attachment frames sent and waiting are one contiguous stretch of history, from where the buffer began when the attachment opened, until the outbox drops one, and increase even then |
| FinishLatch.Latch.Release | packages/ai-sdk/src/middleware.ts:334-336 | a latch settles once |
| FinishLatch.Latch.Abandon | packages/ai-sdk/src/middleware.ts:339-347 | a cancelled copy releases it without abort |
| FinishLatch.DeliveredInOrder | packages/ai-sdk/src/middleware.ts:365-413 | in every interleaving the SDK receives a prefix of the source, all of it when its copy closes |
| FinishLatch.FinishAfterRelease | packages/ai-sdk/src/middleware.ts:376-392 | no finish part before a release without abort; on abort an error instead of it |
| FinishLatch.PullTakesNext | packages/ai-sdk/src/middleware.ts:365-413 | a pull takes exactly the next part, passing on an ordinary one and holding a finish |
| FinishLatch.ReleasedFinish | packages/ai-sdk/src/middleware.ts:365-413 | a released finish is passed on, an abort errors the copy |
| FinishLatch.NothingSwallowed | packages/ai-sdk/src/middleware.ts:365-413 | whatever was read was passed on, but for the finish being held |
| FinishLatch.GateOpensExactly | packages/ai-sdk/src/middleware.ts:448-555 | the observer opens its gate at a finish exactly when no part before it was an error, no gate has decided and the SDK has not cancelled |
| FinishLatch.GatesOnce | packages/ai-sdk/src/middleware.ts:499-505 | at most one gate per step, none once the SDK has cancelled |
| FinishLatch.NeverWaitsOnStopped | packages/ai-sdk/src/middleware.ts:551-554 | the SDK never waits on a latch whose observer has stopped |
| FinishLatch.LatchReleased | packages/ai-sdk/src/middleware.ts:448-555 | once the source has ended the observer's own moves release the latch |
| Pollution.PollutionPath | python/graphmind/edit_input.py:281-308 | terminates on every finite graph, cyclic ones included, and finds a path exactly when some reachable mapping is polluted |
| Pollution.Inspect | python/graphmind/edit_input.py:294-301 | which path one object carries |

## Left out

- Numbers are the tokens they print to, at most 25 units; the re-spelling heuristics of CPython's float text (`_scan`, `_js_numbers`) and the choice of a double's shortest digits are not modelled.
- Byte budgets are integers; the source also takes floats, and compares a remaining size with half a budget, which is modelled by doubling.
- Budget.SerializeWithinBudget: assumes the byte count of the payload's own text is a safe integer, which a text in memory always is.
- Spans.SpansOf: the Python decoder also accepts `NaN` and `Infinity`; printed texts never hold them.
- Python objects without a JSON form (models, bytes, hostile mappings) are one opaque leaf, and in redaction a mapping whose reads may raise.
- Canonical JSON is compared as a string: SHA-256 and its truncation are not modelled, nor the cycle marker, since values are trees.
- LoopGuard: configuration parsing, warning texts and the fingerprint's coercions are not modelled; a `_Streak` is a value in its dictionary.
- Held: an `_Instance` is a record named by a serial number, so that identity is not field equality; the clock counts whole ticks and the final rounding to two decimals is not modelled. Pause ids are taken as fresh.
- Breakpoint matching, modes, `should_pause`, exec.paused payload fields and loop holds in `gate` are not modelled: a call enters the model once it has decided to hold.
- Session: threads, asyncio, sockets and real timers are steps that may happen at any time; the asynchronous gate is the same machine, its cancelled waiter the cancelled mailbox.
- Session.EditProvenance: the placeholder, truncation and prototype-key checks are one predicate on the proposed value; `normalize_validation` and the refusal messages are not modelled. The look at the held gate, the capability and the table of editable pauses is one step; in the source a settle can fall between the first and the last, and the edit is then refused as not editable.
- Session.LeavesPlainly: an exception raised inside a waiting `gate` call, which discards the gate and continues, is not a step of its own.
- Wrap: `inspect.Signature` binding is a predicate on arguments; the async loop is the sync loop with awaits.
- RedactionValid.RedactionKeepsValid: assumes lists of fewer than 2^50 entries, so that a count stays a safe integer.
- Redaction: reading the switches from options and the environment, and the warnings, are not modelled.
- Replay: the handshake's own errors and `dispose` are not modelled.
- FinishLatch: a stream that cannot be wrapped or teed, the observer's bookkeeping of text, usage and tool calls, and the generate path are not modelled; the SDK's cancel releasing an open hold is the gate's decision arriving at any time.
- Reading host code's sinks, the viewer, the hub, the TypeScript client twins, token batchers, ids, environment parsing and `llm_capture.py` are not modelled.
