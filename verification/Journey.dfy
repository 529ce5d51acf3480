/** A journey of several steps: which verdict lets it go on, and the score shown when it
    stops. Continuous journeys stop at the first step that does not pass; regression runs go
    through every case. */
module Journey {
  import opened Prelude

  type RunId = nat
  type Digest = nat

  datatype Mode = Continuous | Regression

  datatype Verdict = Pass | Issue | Incomplete | Unavailable

  datatype Outcome = Outcome(verdict: Verdict, digest: Digest)

  datatype StepResult = StepResult(run: RunId, outcome: Outcome)

  /** The stored journey, and the outcome each run reported to the handoff ledger. */
  datatype Record = Record(mode: Mode, steps: seq<RunId>, position: nat, results: seq<StepResult>,
                           previous: Option<(RunId, Digest)>, reports: map<RunId, Outcome>)

  datatype Reply = New | Existing | Denied

  /** The ledger keeps the first outcome of a run and accepts only that one again. */
  function Report(r: Record, run: RunId, o: Outcome): (Record, Reply) {
    if run in r.reports then (r, if r.reports[run] == o then Existing else Denied)
    else (r.(reports := r.reports[run := o]), New)
  }

  /** The journey's copy of a reported outcome. */
  function Keep(r: Record, run: RunId, o: Outcome): (Record, Reply) {
    if exists i :: 0 <= i < |r.results| && r.results[i].run == run then
      (r, if StepResult(run, o) in r.results then Existing else Denied)
    else if r.position >= |r.steps| || r.steps[r.position] != run then (r, Denied)
    else (r.(results := r.results + [StepResult(run, o)]), New)
  }

  /** The route's own check before it asks the store to advance. */
  predicate MayAdvance(r: Record, run: RunId, digest: Digest) {
    && run in r.reports && r.reports[run].digest == digest
    && (r.mode.Continuous? ==> r.reports[run].verdict.Pass?)
  }

  function Advance(r: Record, run: RunId, digest: Digest): (Record, Reply) {
    if r.previous == Some((run, digest)) then (r, Existing)
    else if r.position + 1 >= |r.steps| || r.steps[r.position] != run || !MayAdvance(r, run, digest) then (r, Denied)
    else if r.results == [] || r.results[|r.results| - 1].run != run
            || r.results[|r.results| - 1].outcome.digest != digest then (r, Denied)
    else (r.(position := r.position + 1, previous := Some((run, digest))), New)
  }

  datatype Call =
    | ReportAndKeep(run: RunId, outcome: Outcome)
    | ReportOnly(run: RunId, outcome: Outcome)      // the journey's copy was lost on the way
    | AdvanceFrom(run: RunId, digest: Digest)

  function Apply(r: Record, c: Call): Record {
    match c
    case ReportAndKeep(run, o) => if Report(r, run, o).1.Denied? then r else Keep(Report(r, run, o).0, run, o).0
    case ReportOnly(run, o) => Report(r, run, o).0
    case AdvanceFrom(run, d) => Advance(r, run, d).0
  }

  function ApplyAll(r: Record, calls: seq<Call>): Record
    decreases |calls|
  {
    if calls == [] then r else ApplyAll(Apply(r, calls[0]), calls[1..])
  }

  function Planned(mode: Mode, steps: seq<RunId>): Record {
    Record(mode, steps, 0, [], None, map[])
  }

  predicate Distinct(steps: seq<RunId>) {
    forall i, j | 0 <= i < j < |steps| :: steps[i] != steps[j]
  }

  predicate ResultOk(r: Record, i: nat)
    requires i < |r.results| && |r.results| <= |r.steps|
  {
    && r.results[i].run == r.steps[i]
    && r.steps[i] in r.reports && r.results[i].outcome == r.reports[r.steps[i]]
    && (r.mode.Continuous? && i < r.position ==> r.results[i].outcome.verdict.Pass?)
  }

  predicate Inv(r: Record) {
    && Distinct(r.steps) && r.position < |r.steps|
    && r.position <= |r.results| <= r.position + 1
    && (r.previous.Some? ==> r.position >= 1 && r.previous.value.0 == r.steps[r.position - 1])
    && forall i | 0 <= i < |r.results| :: ResultOk(r, i)
  }

  lemma KeepKeepsInv(r: Record, run: RunId, o: Outcome)
    requires Inv(r) && run in r.reports && r.reports[run] == o
    ensures Inv(Keep(r, run, o).0)
  {
    var r' := Keep(r, run, o).0;
    assert |r.results| == r.position + 1 ==> ResultOk(r, r.position);
    if r' != r {
      forall i | 0 <= i < |r'.results| ensures ResultOk(r', i) {
        if i < |r.results| {
          assert ResultOk(r, i);
        }
      }
    }
  }

  lemma ReportKeepsInv(r: Record, run: RunId, o: Outcome)
    requires Inv(r)
    ensures Inv(Report(r, run, o).0)
    ensures !Report(r, run, o).1.Denied? ==> run in Report(r, run, o).0.reports && Report(r, run, o).0.reports[run] == o
  {
    var r' := Report(r, run, o).0;
    forall i | 0 <= i < |r'.results| ensures ResultOk(r', i) {
      assert ResultOk(r, i);
    }
  }

  lemma AdvanceKeepsInv(r: Record, run: RunId, digest: Digest)
    requires Inv(r)
    ensures Inv(Advance(r, run, digest).0)
  {
    var r' := Advance(r, run, digest).0;
    if r' != r {
      var last := |r.results| - 1;
      assert ResultOk(r, last);
      assert r.steps[last] == r.steps[r.position];
      assert last == r.position;
      forall i | 0 <= i < |r'.results| ensures ResultOk(r', i) {
        assert ResultOk(r, i);
      }
    }
  }

  lemma StepKeepsInv(r: Record, c: Call)
    requires Inv(r)
    ensures Inv(Apply(r, c))
  {
    match c
    case ReportAndKeep(run, o) =>
      ReportKeepsInv(r, run, o);
      if !Report(r, run, o).1.Denied? {
        KeepKeepsInv(Report(r, run, o).0, run, o);
      }
    case ReportOnly(run, o) => ReportKeepsInv(r, run, o);
    case AdvanceFrom(run, d) => AdvanceKeepsInv(r, run, d);
  }

  lemma {:induction false} RunKeepsInv(r: Record, calls: seq<Call>)
    requires Inv(r)
    ensures Inv(ApplyAll(r, calls)) && ApplyAll(r, calls).mode == r.mode && ApplyAll(r, calls).steps == r.steps
    decreases |calls|
  {
    if calls != [] {
      StepKeepsInv(r, calls[0]);
      RunKeepsInv(Apply(r, calls[0]), calls[1..]);
    }
  }

  // ----- stopping and not stopping -------------------------------------------------------------------

  function Verdicts(r: Record): seq<Verdict> {
    seq(|r.results|, i requires 0 <= i < |r.results| => r.results[i].outcome.verdict)
  }

  predicate PassesThenAtMostOneOther(v: seq<Verdict>) {
    forall i | 0 <= i < |v| - 1 :: v[i].Pass?
  }

  /** Whatever is reported, repeated or lost, a continuous journey's verdicts are passes followed
      by at most one other. */
  lemma ContinuousStopsAtFirstFailure(steps: seq<RunId>, calls: seq<Call>)
    requires steps != [] && Distinct(steps)
    ensures PassesThenAtMostOneOther(Verdicts(ApplyAll(Planned(Continuous, steps), calls)))
  {
    RunKeepsInv(Planned(Continuous, steps), calls);
    var r := ApplyAll(Planned(Continuous, steps), calls);
    forall i | 0 <= i < |r.results| - 1 ensures Verdicts(r)[i].Pass? {
      assert ResultOk(r, i);
    }
  }

  /** A step with a kept result lets the journey go on exactly when it passed, or the run is a
      regression run; so a regression run is never held up by a verdict. */
  lemma AdvanceIff(r: Record)
    requires Inv(r) && |r.results| == r.position + 1 && r.position + 1 < |r.steps|
    ensures var last := r.results[r.position];
            Advance(r, last.run, last.outcome.digest).1.New? <==>
            r.mode.Regression? || last.outcome.verdict.Pass?
  {
    assert ResultOk(r, r.position);
  }

  predicate Complete(r: Record) {
    (r.mode.Continuous? && exists v :: v in Verdicts(r) && !v.Pass?) || |r.results| == |r.steps|
  }

  /** A regression run is complete exactly when every case has run. */
  lemma RegressionRunsEverything(steps: seq<RunId>, calls: seq<Call>)
    requires steps != [] && Distinct(steps)
    ensures var r := ApplyAll(Planned(Regression, steps), calls);
            Complete(r) <==> |r.results| == |steps| && forall i | 0 <= i < |steps| :: r.results[i].run == steps[i]
  {
    RunKeepsInv(Planned(Regression, steps), calls);
    var r := ApplyAll(Planned(Regression, steps), calls);
    if |r.results| == |steps| {
      forall i | 0 <= i < |steps| ensures r.results[i].run == steps[i] {
        assert ResultOk(r, i);
      }
    }
  }

  // ----- the score -------------------------------------------------------------------------------

  function Count(v: seq<Verdict>, w: Verdict): nat {
    multiset(v)[w]
  }

  /** The first verdict that is not a pass, or the last one. */
  function Deciding(v: seq<Verdict>): Option<Verdict> {
    if v == [] then None
    else if !v[0].Pass? || |v| == 1 then Some(v[0])
    else Deciding(v[1..])
  }

  predicate Stopped(r: Record) {
    r.mode.Continuous? && Complete(r) && Deciding(Verdicts(r)).Some? && Deciding(Verdicts(r)) != Some(Pass)
  }

  function NotRun(r: Record): nat {
    if |r.steps| < |r.results| then 0 else |r.steps| - |r.results|
  }

  /** "N passed, M issue, K not run", with 1 shown where no verdict is literally an issue. */
  function ShownIssues(r: Record): nat {
    if Count(Verdicts(r), Issue) == 0 then 1 else Count(Verdicts(r), Issue)
  }

  lemma {:induction false} StoppedCounts(v: seq<Verdict>)
    requires v != [] && PassesThenAtMostOneOther(v) && Deciding(v) != Some(Pass)
    ensures Count(v, Pass) == |v| - 1 && Count(v, Issue) <= 1
  {
    if |v| > 1 {
      assert v[0].Pass?;
      var tail := v[1..];
      assert v == [v[0]] + tail;
      assert PassesThenAtMostOneOther(tail) by {
        assert forall i | 0 <= i < |tail| - 1 :: tail[i] == v[i + 1];
      }
      StoppedCounts(tail);
    } else {
      assert v == [v[0]];
    }
  }

  /** The numbers shown for a stopped journey always add up to its length. */
  lemma StoppedScoreAddsUp(steps: seq<RunId>, calls: seq<Call>)
    requires steps != [] && Distinct(steps)
    ensures var r := ApplyAll(Planned(Continuous, steps), calls);
            Stopped(r) ==> Count(Verdicts(r), Pass) + ShownIssues(r) + NotRun(r) == |steps|
  {
    RunKeepsInv(Planned(Continuous, steps), calls);
    ContinuousStopsAtFirstFailure(steps, calls);
    var r := ApplyAll(Planned(Continuous, steps), calls);
    if Stopped(r) {
      StoppedCounts(Verdicts(r));
    }
  }

  // ----- a journey that goes through -----------------------------------------------------------------

  /** The calls of one step: its report, its copy in the journey, repeated if the first was lost, and
      the way to the next step. */
  function StepCalls(run: RunId, o: Outcome, lost: bool): seq<Call> {
    (if lost then [ReportOnly(run, o)] else []) + [ReportAndKeep(run, o), AdvanceFrom(run, o.digest)]
  }

  function JourneyCalls(steps: seq<RunId>, outcomes: seq<Outcome>, lost: nat -> bool, k: nat): seq<Call>
    requires k <= |steps| == |outcomes|
  {
    if k == 0 then []
    else JourneyCalls(steps, outcomes, lost, k - 1) + StepCalls(steps[k - 1], outcomes[k - 1], lost(k - 1))
  }

  lemma {:induction false} AppliedInTurn(r: Record, first: seq<Call>, more: seq<Call>)
    ensures ApplyAll(r, first + more) == ApplyAll(ApplyAll(r, first), more)
    decreases |first|
  {
    if first == [] {
      assert first + more == more;
    } else {
      assert (first + more)[1..] == first[1..] + more;
      AppliedInTurn(Apply(r, first[0]), first[1..], more);
    }
  }

  /** The first `k` outcomes are kept, and the journey is at the step after them, or at its last. */
  predicate HasKept(r: Record, mode: Mode, steps: seq<RunId>, outcomes: seq<Outcome>, k: nat)
    requires k <= |steps| == |outcomes|
  {
    && Inv(r) && r.mode == mode && r.steps == steps && r.position == (if k < |steps| then k else |steps| - 1)
    && |r.results| == k && (forall i | 0 <= i < k :: r.results[i] == StepResult(steps[i], outcomes[i]))
    && (forall i | k <= i < |steps| :: steps[i] !in r.reports)
    && (r.previous.Some? ==> r.previous.value.0 in steps[..k])
  }

  /** Reporting keeps the outcome, also when the journey's first copy of it was lost. */
  lemma ReportIsKept(r: Record, mode: Mode, steps: seq<RunId>, outcomes: seq<Outcome>, k: nat, lost: bool)
    requires k < |steps| == |outcomes| && HasKept(r, mode, steps, outcomes, k)
    ensures var reported := if lost then Apply(r, ReportOnly(steps[k], outcomes[k])) else r;
            var r' := Apply(reported, ReportAndKeep(steps[k], outcomes[k]));
            r' == r.(reports := r.reports[steps[k] := outcomes[k]], results := r.results + [StepResult(steps[k], outcomes[k])])
  {
    forall i | 0 <= i < |r.results| ensures r.results[i].run != steps[k] {
    }
  }

  lemma KeptAdvances(r: Record, mode: Mode, steps: seq<RunId>, outcomes: seq<Outcome>, k: nat)
    requires k < |steps| == |outcomes| && HasKept(r, mode, steps, outcomes, k)
    requires mode.Continuous? && k + 1 < |steps| ==> outcomes[k].verdict.Pass?
    ensures var kept := r.(reports := r.reports[steps[k] := outcomes[k]],
                           results := r.results + [StepResult(steps[k], outcomes[k])]);
            HasKept(Apply(kept, AdvanceFrom(steps[k], outcomes[k].digest)), mode, steps, outcomes, k + 1)
  {
    var kept := r.(reports := r.reports[steps[k] := outcomes[k]],
                   results := r.results + [StepResult(steps[k], outcomes[k])]);
    forall i | 0 <= i < |kept.results| ensures ResultOk(kept, i) {
      if i < |r.results| {
        assert ResultOk(r, i);
      }
    }
    assert Inv(kept);
    AdvanceKeepsInv(kept, steps[k], outcomes[k].digest);
    assert steps[k] in steps[..k + 1] && steps[..k] <= steps[..k + 1];
  }

  lemma StepGoesOn(r: Record, mode: Mode, steps: seq<RunId>, outcomes: seq<Outcome>, k: nat, lost: bool)
    requires k < |steps| == |outcomes| && HasKept(r, mode, steps, outcomes, k)
    requires mode.Continuous? && k + 1 < |steps| ==> outcomes[k].verdict.Pass?
    ensures HasKept(ApplyAll(r, StepCalls(steps[k], outcomes[k], lost)), mode, steps, outcomes, k + 1)
  {
    var run, o := steps[k], outcomes[k];
    var reported := if lost then Apply(r, ReportOnly(run, o)) else r;
    var kept := Apply(reported, ReportAndKeep(run, o));
    ReportIsKept(r, mode, steps, outcomes, k, lost);
    KeptAdvances(r, mode, steps, outcomes, k);
    assert ApplyAll(reported, [ReportAndKeep(run, o), AdvanceFrom(run, o.digest)])
           == ApplyAll(kept, [ReportAndKeep(run, o), AdvanceFrom(run, o.digest)][1..]);
    assert [ReportAndKeep(run, o), AdvanceFrom(run, o.digest)][1..] == [AdvanceFrom(run, o.digest)];
    assert ApplyAll(kept, [AdvanceFrom(run, o.digest)]) == ApplyAll(Apply(kept, AdvanceFrom(run, o.digest)), []);
    if lost {
      assert StepCalls(run, o, lost)[1..] == [ReportAndKeep(run, o), AdvanceFrom(run, o.digest)];
    } else {
      assert StepCalls(run, o, lost) == [ReportAndKeep(run, o), AdvanceFrom(run, o.digest)];
    }
  }

  /** A regression journey, whatever its verdicts, and a continuous one whose steps pass, goes through
      all its steps whichever copies are lost, and keeps every outcome in order. */
  lemma {:induction false} JourneyGoesThrough(mode: Mode, steps: seq<RunId>, outcomes: seq<Outcome>, lost: nat -> bool,
                                              k: nat)
    requires steps != [] && Distinct(steps) && k <= |steps| == |outcomes|
    requires mode.Continuous? ==> forall i | 0 <= i < k && i + 1 < |steps| :: outcomes[i].verdict.Pass?
    ensures HasKept(ApplyAll(Planned(mode, steps), JourneyCalls(steps, outcomes, lost, k)), mode, steps, outcomes, k)
    decreases k
  {
    if k > 0 {
      JourneyGoesThrough(mode, steps, outcomes, lost, k - 1);
      var before := JourneyCalls(steps, outcomes, lost, k - 1);
      AppliedInTurn(Planned(mode, steps), before, StepCalls(steps[k - 1], outcomes[k - 1], lost(k - 1)));
      StepGoesOn(ApplyAll(Planned(mode, steps), before), mode, steps, outcomes, k - 1, lost(k - 1));
    }
  }

  /** Whatever got through once is recognised when it is repeated, and changes nothing; a different
      outcome is denied. */
  lemma RepeatsAreRecognised(r: Record, run: RunId, o: Outcome, other: Outcome)
    requires Inv(r)
    ensures Report(r, run, o).1.New? ==>
              Report(Report(r, run, o).0, run, other) == (Report(r, run, o).0, if other == o then Existing else Denied)
    ensures Keep(r, run, o).1.New? ==>
              Keep(Keep(r, run, o).0, run, other) == (Keep(r, run, o).0, if other == o then Existing else Denied)
    ensures Advance(r, run, o.digest).1.New? ==>
              Advance(Advance(r, run, o.digest).0, run, o.digest) == (Advance(r, run, o.digest).0, Existing)
  {
    var k := Keep(r, run, o).0;
    if Keep(r, run, o).1.New? {
      var n := |r.results|;
      assert k.results[n] == StepResult(run, o);
      forall i | 0 <= i < n ensures k.results[i].run != run {
        assert k.results[i] == r.results[i];
      }
    }
  }
}
