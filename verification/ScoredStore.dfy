/** The server a scored run talks to: attempts recorded case by case, sealed evidence, and an
    acknowledgement. A script that refuses late has already written: Lua replies do not roll
    anything back. */
module ScoredStore {
  import opened Prelude

  type Digest = nat
  type RunnerHash = nat

  datatype Status = Active | Complete | Invalid | Acknowledged

  datatype Evidence = Evidence(digest: Digest, manifest: Digest, attempts: nat)

  /** The run: where it stands, what has been recorded, and its permanent evidence. */
  datatype Store = Store(cases: nat, status: Status, ordinal: nat, attempt: nat, runner: RunnerHash,
                         recorded: map<(nat, nat), Digest>, attempts: nat, completed: nat, failures: nat,
                         evidence: Option<Evidence>, terminal: Status, data: bool)

  datatype Disposition = Scored | InfrastructureInvalid | AnythingElse

  datatype Attempt = Attempt(ordinal: nat, attempt: nat, runner: RunnerHash, digest: Digest,
                             disposition: Disposition, mayReplace: bool, next: Option<RunnerHash>)

  datatype Reply =
    | Recorded
    | ReplacementAdmitted
    | TerminalComplete
    | TerminalInvalid
    | AttemptExisting
    | AdmissionInvalid
    | SequenceMismatch
    | AttemptConflict
    | DispositionInvalid
    | NextCaseMissing

  function Created(cases: nat, runner: RunnerHash): Store {
    Store(cases, Active, 0, 0, runner, map[], 0, 0, 0, None, Active, true)
  }

  function RecordReply(s: Store, a: Attempt, admitted: bool): Reply {
    if !admitted || !s.data || !s.status.Active? then AdmissionInvalid
    else if s.ordinal != a.ordinal || s.attempt != a.attempt || s.runner != a.runner then SequenceMismatch
    else if (a.ordinal, a.attempt) in s.recorded then
      if s.recorded[(a.ordinal, a.attempt)] == a.digest then AttemptExisting else AttemptConflict
    else if a.disposition.InfrastructureInvalid? then
      if a.mayReplace && a.attempt == 0 then ReplacementAdmitted else TerminalInvalid
    else if !a.disposition.Scored? || a.mayReplace then DispositionInvalid
    else if a.ordinal + 1 == s.cases then TerminalComplete
    else if a.next.None? then NextCaseMissing
    else Recorded
  }

  /** The attempt and its count are written before the disposition is looked at. */
  function Noted(s: Store, a: Attempt): Store {
    s.(recorded := s.recorded[(a.ordinal, a.attempt) := a.digest], attempts := s.attempts + 1)
  }

  function Record(s: Store, a: Attempt, admitted: bool): Store {
    var n := Noted(s, a);
    match RecordReply(s, a, admitted)
    case ReplacementAdmitted => n.(failures := s.failures + 1, attempt := 1)
    case TerminalInvalid => n.(failures := s.failures + 1, status := Invalid)
    case DispositionInvalid => n
    case NextCaseMissing => n.(completed := s.completed + 1)
    case TerminalComplete => n.(completed := s.completed + 1, status := Complete, ordinal := a.ordinal + 1, attempt := 0)
    case Recorded =>
      n.(completed := s.completed + 1, ordinal := a.ordinal + 1, attempt := 0, runner := a.next.value)
    case _ => s
  }

  /** Sealing, and acknowledging what was sealed. */
  function Seal(s: Store, e: Evidence): (Store, bool) {
    if !s.data || (!s.status.Complete? && !s.status.Invalid?) || s.attempts != e.attempts
       || |s.recorded| != e.attempts then (s, false)
    else if s.evidence.Some? then (s, s.evidence.value == e)
    else (s.(evidence := Some(e)), true)
  }

  function Acknowledge(s: Store, digest: Digest): (Store, bool) {
    if s.evidence.None? || s.evidence.value.digest != digest || s.evidence.value.attempts != s.attempts then (s, false)
    else if s.status.Acknowledged? then (s.(data := false), true)
    else if !s.status.Complete? && !s.status.Invalid? then (s, false)
    else (s.(terminal := s.status, status := Acknowledged, data := false), true)
  }

  // ----- the sequence --------------------------------------------------------------------------

  /** The run as it ended, before it was acknowledged. */
  function Ended(s: Store): Status {
    if s.status.Acknowledged? then s.terminal else s.status
  }

  /** Every recorded attempt was followed by the one after it, or ended the run. */
  predicate InOrder(s: Store) {
    forall k | k in s.recorded ::
      k.1 <= 1 && (k.0 < s.ordinal || (k.0 == s.ordinal && (k.1 < s.attempt || (Ended(s).Invalid? && k.1 == s.attempt))))
  }

  predicate Sequence(s: Store) {
    && InOrder(s)
    && |s.recorded| == s.attempts == s.completed + s.failures
    && s.completed == s.ordinal <= s.cases && s.attempt <= 1
    && s.failures <= s.ordinal + s.attempt + (if Ended(s).Invalid? then 1 else 0)
    && (Ended(s).Active? || Ended(s).Complete? || Ended(s).Invalid?)
    && (Ended(s).Complete? <==> s.ordinal == s.cases)
    && (Ended(s).Complete? ==> s.attempt == 0)
    && (Ended(s).Active? ==> !s.status.Acknowledged?)
    && (s.evidence.Some? ==> !Ended(s).Active? && s.evidence.value.attempts == s.attempts)
  }

  /** The calls the route builds: scored calls are never replaceable, and name the next case
      unless they are the last. */
  predicate WellFormed(s: Store, a: Attempt) {
    (a.disposition.Scored? && !a.mayReplace && (a.ordinal + 1 == s.cases || a.next.Some?))
    || a.disposition.InfrastructureInvalid?
  }

  lemma NotedCount(s: Store, a: Attempt)
    requires (a.ordinal, a.attempt) !in s.recorded
    ensures |Noted(s, a).recorded| == |s.recorded| + 1
  {
    assert Noted(s, a).recorded.Keys == s.recorded.Keys + {(a.ordinal, a.attempt)};
  }

  /** In a run that keeps the sequence, the attempt about to be made is never already there, so
      the replay branch is never taken: a repeated call is refused. */
  lemma CurrentAttemptIsNew(s: Store)
    requires Sequence(s) && s.status.Active?
    ensures (s.ordinal, s.attempt) !in s.recorded && s.ordinal < s.cases
  {
  }

  lemma OrderedAfter(s: Store, a: Attempt, s': Store)
    requires InOrder(s) && s'.recorded == s.recorded[(a.ordinal, a.attempt) := a.digest]
    requires a.ordinal == s.ordinal && a.attempt == s.attempt && !Ended(s).Invalid? && a.attempt <= 1
    requires s'.ordinal > s.ordinal || (s'.ordinal == s.ordinal && s'.attempt > s.attempt)
             || (s'.ordinal == s.ordinal && s'.attempt == s.attempt && Ended(s').Invalid?)
    ensures InOrder(s')
  {
  }

  lemma WrittenKeepsSequence(s: Store, a: Attempt)
    requires Sequence(s) && RecordReply(s, a, true) in {ReplacementAdmitted, TerminalInvalid, TerminalComplete, Recorded}
    ensures Sequence(Record(s, a, true))
  {
    CurrentAttemptIsNew(s);
    NotedCount(s, a);
    OrderedAfter(s, a, Record(s, a, true));
  }

  lemma LateRefusalBreaksSequence(s: Store, a: Attempt)
    requires Sequence(s) && RecordReply(s, a, true) in {DispositionInvalid, NextCaseMissing}
    ensures !Sequence(Record(s, a, true)) && !WellFormed(s, a)
  {
    CurrentAttemptIsNew(s);
    NotedCount(s, a);
  }

  /** The call gets past the checks made before anything is written: it is admitted to a run that
      is still active, and names the ordinal, attempt and runner the run is at. */
  predicate GetsThrough(s: Store, a: Attempt, admitted: bool) {
    admitted && s.data && s.status.Active? && a.ordinal == s.ordinal && a.attempt == s.attempt && a.runner == s.runner
  }

  /** Recording keeps the sequence exactly when the call does not get that far, or is well formed:
      the two late refusals leave a half-recorded attempt behind. */
  lemma RecordKeepsSequenceIff(s: Store, a: Attempt, admitted: bool)
    requires Sequence(s)
    ensures Sequence(Record(s, a, admitted)) <==> !GetsThrough(s, a, admitted) || WellFormed(s, a)
  {
    var reply := RecordReply(s, a, admitted);
    if !reply.AdmissionInvalid? && !reply.SequenceMismatch? {
      CurrentAttemptIsNew(s);
      if reply.DispositionInvalid? || reply.NextCaseMissing? {
        LateRefusalBreaksSequence(s, a);
      } else {
        WrittenKeepsSequence(s, a);
      }
    }
  }

  lemma SealAndAcknowledgeKeepSequence(s: Store, e: Evidence, digest: Digest)
    requires Sequence(s)
    ensures Sequence(Seal(s, e).0) && Sequence(Acknowledge(s, digest).0)
  {
  }

  /** Each case is attempted at most twice, so a run never records more than two attempts per
      case; and what completed counts are exactly the cases passed. */
  lemma AttemptsAreBounded(s: Store)
    requires Sequence(s)
    ensures s.attempts <= 2 * s.cases && s.completed == s.ordinal
  {
    if Ended(s).Invalid? {
      assert s.ordinal < s.cases;
    }
  }

  /** A call whose reply was lost is refused when it is made again, and changes nothing. */
  lemma LostReplyIsNotRecordedTwice(s: Store, a: Attempt, admitted: bool)
    requires Sequence(s) && WellFormed(s, a) && Record(s, a, true) != s
    ensures var s' := Record(s, a, true);
            Record(s', a, admitted) == s'
            && (RecordReply(s', a, admitted).SequenceMismatch? || RecordReply(s', a, admitted).AdmissionInvalid?)
  {
  }

  // ----- whole runs ----------------------------------------------------------------------------

  datatype Call = Recording(a: Attempt, admitted: bool) | Sealing(e: Evidence) | Acknowledging(digest: Digest)

  function Apply(s: Store, c: Call): Store {
    match c
    case Recording(a, admitted) => Record(s, a, admitted)
    case Sealing(e) => Seal(s, e).0
    case Acknowledging(digest) => Acknowledge(s, digest).0
  }

  function ApplyAll(s: Store, calls: seq<Call>): Store
    decreases |calls|
  {
    if calls == [] then s else ApplyAll(Apply(s, calls[0]), calls[1..])
  }

  predicate AllWellFormed(s: Store, calls: seq<Call>)
    decreases |calls|
  {
    calls == [] || ((calls[0].Recording? ==> WellFormed(s, calls[0].a)) && AllWellFormed(Apply(s, calls[0]), calls[1..]))
  }

  lemma {:induction false} RunsKeepSequence(s: Store, calls: seq<Call>)
    requires Sequence(s) && AllWellFormed(s, calls)
    ensures Sequence(ApplyAll(s, calls))
    decreases |calls|
  {
    if calls != [] {
      match calls[0] {
        case Recording(a, admitted) => RecordKeepsSequenceIff(s, a, admitted);
        case Sealing(e) => SealAndAcknowledgeKeepSequence(s, e, 0);
        case Acknowledging(digest) => SealAndAcknowledgeKeepSequence(s, Evidence(0, 0, 0), digest);
      }
      RunsKeepSequence(Apply(s, calls[0]), calls[1..]);
    }
  }

  /** From a new run on, whatever is recorded, repeated, sealed and acknowledged: at most two
      attempts per case, and as many cases completed as passed. */
  lemma EveryRunIsBounded(cases: nat, runner: RunnerHash, calls: seq<Call>)
    requires cases > 0 && AllWellFormed(Created(cases, runner), calls)
    ensures var end := ApplyAll(Created(cases, runner), calls);
            Sequence(end) && end.attempts <= 2 * end.cases && end.completed == end.ordinal
  {
    assert Sequence(Created(cases, runner));
    RunsKeepSequence(Created(cases, runner), calls);
    AttemptsAreBounded(ApplyAll(Created(cases, runner), calls));
  }

  /** Once a run is acknowledged, nothing that is called changes anything but that its data is
      gone. */
  lemma {:induction false} AcknowledgedForGood(s: Store, calls: seq<Call>)
    requires s.status.Acknowledged? && !s.data
    ensures ApplyAll(s, calls) == s
    decreases |calls|
  {
    if calls != [] {
      AcknowledgedForGood(Apply(s, calls[0]), calls[1..]);
    }
  }

  /** An acknowledgement succeeds exactly for the sealed digest of an ended run; and whatever is
      called after it, the same one succeeds again and no other ever does. */
  lemma AcknowledgeIff(s: Store, digest: Digest, calls: seq<Call>, again: Digest)
    requires Sequence(s)
    ensures Acknowledge(s, digest).1 <==> s.evidence.Some? && s.evidence.value.digest == digest
    ensures Acknowledge(s, digest).1 ==>
              var end := ApplyAll(Acknowledge(s, digest).0, calls);
              end.status.Acknowledged? && (Acknowledge(end, again).1 <==> again == digest)
              && Acknowledge(end, again).0 == end
  {
    if Acknowledge(s, digest).1 {
      AcknowledgedForGood(Acknowledge(s, digest).0, calls);
    }
  }

  // ----- a run that goes through ---------------------------------------------------------------------

  /** How the cases of a run go: whether the first attempt of a case fails and is replaced, the digest
      of each attempt, and the runner each case is for. */
  datatype Plan = Plan(fails: nat -> bool, digest: (nat, nat) -> Digest, runner: nat -> RunnerHash)

  function Failure(p: Plan, k: nat): Call {
    Recording(Attempt(k, 0, p.runner(k), p.digest(k, 0), InfrastructureInvalid, true, None), true)
  }

  function Success(p: Plan, cases: nat, k: nat): Call {
    var attempt := if p.fails(k) then 1 else 0;
    Recording(Attempt(k, attempt, p.runner(k), p.digest(k, attempt), Scored, false,
                      if k + 1 == cases then None else Some(p.runner(k + 1))), true)
  }

  /** The calls for the first `k` cases. */
  function CallsFor(p: Plan, cases: nat, k: nat): seq<Call> {
    if k == 0 then []
    else CallsFor(p, cases, k - 1) + (if p.fails(k - 1) then [Failure(p, k - 1)] else []) + [Success(p, cases, k - 1)]
  }

  function FailuresIn(p: Plan, k: nat): nat {
    if k == 0 then 0 else FailuresIn(p, k - 1) + if p.fails(k - 1) then 1 else 0
  }

  lemma {:induction false} AppliedInTurn(s: Store, first: seq<Call>, last: Call)
    ensures ApplyAll(s, first + [last]) == Apply(ApplyAll(s, first), last)
    decreases |first|
  {
    if first == [] {
      assert first + [last] == [last] && [last][1..] == [];
    } else {
      assert (first + [last])[1..] == first[1..] + [last];
      AppliedInTurn(Apply(s, first[0]), first[1..], last);
    }
  }

  /** The run stands before case `k`, or at its end. */
  predicate StandsAt(s: Store, p: Plan, cases: nat, k: nat) {
    && Sequence(s) && s.cases == cases && s.data && s.ordinal == k && s.attempt == 0
    && s.attempts == k + FailuresIn(p, k) && s.completed == k && s.failures == FailuresIn(p, k)
    && (if k < cases then s.status.Active? && s.runner == p.runner(k) else s.status.Complete?)
    && s.evidence.None?
  }

  /** A first attempt that fails may be replaced once: the same case stands at its second attempt, for
      the same runner. */
  lemma FailureIsReplaced(s: Store, p: Plan, cases: nat, k: nat)
    requires StandsAt(s, p, cases, k) && k < cases
    ensures var s' := Apply(s, Failure(p, k));
            && Sequence(s') && s' == s.(recorded := s.recorded[(k, 0) := p.digest(k, 0)], attempts := s.attempts + 1,
                                        failures := s.failures + 1, attempt := 1)
            && RecordReply(s, Failure(p, k).a, true) == ReplacementAdmitted
  {
    CurrentAttemptIsNew(s);
    RecordKeepsSequenceIff(s, Failure(p, k).a, true);
  }

  /** And a scored attempt moves on to the next case and its runner, or completes the run. */
  lemma SuccessMovesOn(s: Store, p: Plan, cases: nat, k: nat)
    requires Sequence(s) && s.cases == cases && s.data && s.status.Active? && s.ordinal == k && s.runner == p.runner(k)
    requires s.attempt == if p.fails(k) then 1 else 0
    ensures var s' := Apply(s, Success(p, cases, k));
            && Sequence(s') && s'.ordinal == k + 1 && s'.attempt == 0 && s'.attempts == s.attempts + 1
            && s'.completed == s.completed + 1 && s'.failures == s.failures && s'.data && s'.cases == cases
            && s'.evidence == s.evidence
            && if k + 1 < cases then s'.status.Active? && s'.runner == p.runner(k + 1) else s'.status.Complete?
  {
    CurrentAttemptIsNew(s);
    RecordKeepsSequenceIff(s, Success(p, cases, k).a, true);
  }

  lemma OneMoreCase(s: Store, p: Plan, cases: nat, k: nat)
    requires StandsAt(s, p, cases, k) && k < cases
    ensures var tried := if p.fails(k) then Apply(s, Failure(p, k)) else s;
            StandsAt(Apply(tried, Success(p, cases, k)), p, cases, k + 1)
  {
    if p.fails(k) {
      FailureIsReplaced(s, p, cases, k);
      SuccessMovesOn(Apply(s, Failure(p, k)), p, cases, k);
    } else {
      SuccessMovesOn(s, p, cases, k);
    }
  }

  /** Whatever cases fail once, a run whose other attempts are scored gets through all of them, for the
      runners it was told, with one attempt more for each failure; and is then complete. */
  lemma {:induction false} RunGoesThrough(p: Plan, cases: nat, k: nat)
    requires 0 < cases && k <= cases
    ensures StandsAt(ApplyAll(Created(cases, p.runner(0)), CallsFor(p, cases, k)), p, cases, k)
    decreases k
  {
    if k == 0 {
      StandsAtFirst(p, cases);
    } else {
      var m := k - 1;
      RunGoesThrough(p, cases, m);
      GoesOneFurther(Created(cases, p.runner(0)), p, cases, m);
    }
  }

  lemma StandsAtFirst(p: Plan, cases: nat)
    requires cases > 0
    ensures StandsAt(Created(cases, p.runner(0)), p, cases, 0)
  {
  }

  lemma GoesOneFurther(start: Store, p: Plan, cases: nat, k: nat)
    requires k < cases && StandsAt(ApplyAll(start, CallsFor(p, cases, k)), p, cases, k)
    ensures StandsAt(ApplyAll(start, CallsFor(p, cases, k + 1)), p, cases, k + 1)
  {
    OneMoreCase(ApplyAll(start, CallsFor(p, cases, k)), p, cases, k);
    CaseInTurn(start, p, cases, k, CallsFor(p, cases, k));
  }

  lemma CaseInTurn(s: Store, p: Plan, cases: nat, k: nat, before: seq<Call>)
    ensures var reached := ApplyAll(s, before);
            var tried := if p.fails(k) then Apply(reached, Failure(p, k)) else reached;
            ApplyAll(s, before + (if p.fails(k) then [Failure(p, k)] else []) + [Success(p, cases, k)])
            == Apply(tried, Success(p, cases, k))
  {
    if p.fails(k) {
      AppliedInTurn(s, before, Failure(p, k));
      AppliedInTurn(s, before + [Failure(p, k)], Success(p, cases, k));
    } else {
      assert before + [] == before;
      AppliedInTurn(s, before, Success(p, cases, k));
    }
  }

  /** A failure that may not be replaced, or that repeats one, ends the run as invalid. */
  lemma SecondFailureEnds(s: Store, a: Attempt)
    requires Sequence(s) && GetsThrough(s, a, true) && a.disposition.InfrastructureInvalid? && (a.attempt > 0 || !a.mayReplace)
    ensures var s' := Record(s, a, true);
            s'.status.Invalid? && s'.failures == s.failures + 1 && s'.ordinal == s.ordinal && s'.completed == s.completed
            && RecordReply(s, a, true) == TerminalInvalid
  {
    CurrentAttemptIsNew(s);
  }

  /** An ended run is sealed once, with all its attempts, and the sealed evidence can be acknowledged. */
  lemma EndedRunIsSealed(s: Store, e: Evidence)
    requires Sequence(s) && s.data && (s.status.Complete? || s.status.Invalid?) && s.evidence.None? && e.attempts == s.attempts
    ensures Seal(s, e) == (s.(evidence := Some(e)), true) && Acknowledge(Seal(s, e).0, e.digest).1
    ensures forall e2: Evidence :: Seal(Seal(s, e).0, e2) == (Seal(s, e).0, e2 == e)
  {
  }

  /** An attempt that is on record already is told apart by its digest, and changes nothing. */
  lemma RecordedAttemptIsToldApart(s: Store, a: Attempt)
    requires GetsThrough(s, a, true) && (a.ordinal, a.attempt) in s.recorded
    ensures Record(s, a, true) == s
    ensures RecordReply(s, a, true) == if s.recorded[(a.ordinal, a.attempt)] == a.digest then AttemptExisting else AttemptConflict
  {
  }
}
