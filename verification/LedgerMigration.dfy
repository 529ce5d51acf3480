/** Moving the guard to its next policy: what the four migration scripts check and write, and
    what any mix of migrations and calls keeps. */
module LedgerMigration {
  import opened Prelude
  import opened LedgerModel
  import opened LedgerAccounting
  import opened LedgerQuarantine

  /** Where the scripts differ: how many settled calls they list, and which limits they write. */
  datatype Script = Script(listed: nat, written: set<Purpose>)

  /** The policy and script a call was authorised under. */
  datatype Origin = Origin(policyHash: Hash, scriptHash: Hash)

  /** The receipt that must already be filed, compared whole or by its identity only. */
  datatype Predecessor = Predecessor(key: Name, manifest: Manifest, whole: bool)

  /** The one authorisation that the last script expects never to have been begun. */
  datatype Spare = Spare(jti: Jti, claims: Hash, subject: Hash, issuedAt: int, rate: RateKey, count: int)

  /** The counters a script expects to find. */
  datatype Expected = Expected(claimed: int, committed: int, known: int, sequence: int)

  /** The arguments of one migration: where its receipt is filed, the receipt before it, what it
      expects to find, under what each listed call was authorised, and the limits it installs. */
  datatype Migration = Migration(script: Script, key: Name, predecessor: Option<Predecessor>, manifest: Manifest,
                                 origins: seq<Origin>, terms: Terms, expected: Expected, previous: PerPurpose,
                                 next: PerPurpose, spare: Option<Spare>)

  /** When a migration runs, and whether the run index holds the acknowledgement that the last
      script looks for. */
  datatype Moment = Moment(nowMs: nat, anchored: bool)

  /** The guard is open and idle, and every call so far was a settled calibration call. */
  predicate CoreMatches(l: Ledger, m: Migration) {
    var c, t := l.config, l.totals;
    && c.status.Open? && c.identity.guardInstance == m.manifest.guardInstance
    && c.identity.commit == m.manifest.commit && c.globalLimit == m.terms.globalLimit
    && c.ceiling == m.terms.ceiling && c.reservation == m.terms.reservation && c.model == m.terms.model
    && c.maxConcurrency == m.terms.maxConcurrency && c.closesAtMs == m.terms.closesAtMs
    && c.haltReason.None? && c.uncertainJti.None?
    && t.claimed == m.expected.claimed && t.committed == m.expected.committed && t.pending == 0
    && t.known == m.expected.known && t.uncertain == 0 && t.knownActual == m.manifest.knownActual
    && t.uncertainUpper == 0 && t.sequence == m.expected.sequence
    && l.counts.calibration == m.expected.claimed && l.counts.baseline == 0 && l.counts.repair == 0
    && l.counts.revised == 0 && l.counts.judge == 0
    && |l.inflight| == 0
  }

  predicate ConfigMatches(l: Ledger, p: Policy, limits: PerPurpose) {
    l.config.version == p.version && l.config.identity.policyHash == p.policyHash
    && l.config.identity.scriptHash == p.scriptHash && l.limits == limits
  }

  predicate PredecessorMatches(l: Ledger, m: Migration) {
    m.predecessor.Some? ==>
      var p := m.predecessor.value;
      && p.key in l.receipts
      && var r := l.receipts[p.key];
         if p.whole then r == p.manifest
         else r.id == p.manifest.id && r.digest == p.manifest.digest && r.program == p.manifest.program
  }

  /** The listed call is on record exactly as listed, in its turn, and authorised under the policy
      and script expected of its turn. */
  predicate CallMatches(l: Ledger, m: Migration, i: nat)
    requires i < |m.manifest.calls|
  {
    var c := m.manifest.calls[i];
    && c.jti in l.auths && i < |m.origins|
    && var a := l.auths[c.jti];
       && a.state.Known? && a.jti == c.jti && a.purpose.Calibration?
       && a.identity.guardInstance == m.manifest.guardInstance
       && a.identity.policyHash == m.origins[i].policyHash && a.identity.scriptHash == m.origins[i].scriptHash
       && a.state.reservation == m.terms.reservation && a.state.sequence == c.sequence == i + 1
       && a.state.actual == c.actual && a.state.response == c.response && a.state.digest == c.digest
       && a.state.usage == c.usage
       && c.response in l.providers && l.providers[c.response] == c.jti
  }

  function ActualSum(calls: seq<KnownCall>): int {
    if calls == [] then 0 else ActualSum(calls[..|calls| - 1]) + calls[|calls| - 1].actual
  }

  predicate CallsMatch(l: Ledger, m: Migration) {
    var calls := m.manifest.calls;
    && |calls| == m.script.listed
    && (forall i, j | 0 <= i < j < |calls| :: calls[i].jti != calls[j].jti && calls[i].response != calls[j].response)
    && (forall i | 0 <= i < |calls| :: CallMatches(l, m, i))
    && ActualSum(calls) == m.manifest.knownActual
  }

  function ListedIds(calls: seq<KnownCall>): set<Jti> {
    set i | 0 <= i < |calls| :: calls[i].jti
  }

  function ListedResponses(calls: seq<KnownCall>): set<Hash> {
    set i | 0 <= i < |calls| :: calls[i].response
  }

  /** Only the last script counts what there is: the listed calls and the spare authorisation, and
      nothing else. */
  predicate InventoryMatches(l: Ledger, m: Migration)
    requires m.spare.Some?
  {
    l.auths.Keys == ListedIds(m.manifest.calls) + {m.spare.value.jti}
    && l.providers.Keys == ListedResponses(m.manifest.calls)
  }

  /** The spare authorisation was issued under the policy being replaced, ran out unused, and is
      all that its actor's hours account for. */
  predicate SpareMatches(l: Ledger, m: Migration, at: Moment)
    requires m.spare.Some?
  {
    var s := m.spare.value;
    && s.jti in l.auths
    && var a := l.auths[s.jti];
       && a.state.Issued? && a.jti == s.jti && a.claims == s.claims && a.purpose.Calibration?
       && a.issuedAt == s.issuedAt && a.expiresAt == s.issuedAt + TOKEN_TTL && a.expiresAt <= at.nowMs / 1000
       && a.identity.guardInstance == m.manifest.guardInstance
       && a.identity.policyHash == m.manifest.previous.policyHash
       && a.identity.scriptHash == m.manifest.previous.scriptHash
       && s.subject in l.subjects && l.subjects[s.subject] == s.jti
       && s.rate.purpose.Calibration? && s.rate in l.rates && l.rates[s.rate] == s.count
       && forall k | k in l.rates && k.purpose == s.rate.purpose && k.actor == s.rate.actor :: k == s.rate
  }

  /** What is refused before the script looks at the state it would replay over. */
  function SpareRefusal(l: Ledger, m: Migration, at: Moment): Option<Error> {
    if m.spare.None? then None
    else if !InventoryMatches(l, m) then Some(InventoryMismatch)
    else if !SpareMatches(l, m, at) then Some(SpareMismatch)
    else None
  }

  predicate AnchorMissing(m: Migration, at: Moment) {
    m.spare.Some? && !at.anchored
  }

  function ReplayReply(l: Ledger, m: Migration, at: Moment): Reply {
    if SpareRefusal(l, m, at).Some? then Refused(SpareRefusal(l, m, at).value)
    else if !CoreMatches(l, m) || !ConfigMatches(l, m.manifest.next, m.next) || !PredecessorMatches(l, m)
            || AnchorMissing(m, at) || !CallsMatch(l, m) then Refused(ReplayStateMismatch)
    else MigratedExisting
  }

  function MigrateReply(l: Ledger, m: Migration, at: Moment): Reply {
    if m.key in l.receipts then
      if l.receipts[m.key] != m.manifest then Refused(ReceiptConflict) else ReplayReply(l, m, at)
    else if !CoreMatches(l, m) then Refused(StateMismatch)
    else if !ConfigMatches(l, m.manifest.previous, m.previous) then
      Refused(if m.spare.Some? then StateMismatch else OldConfigMismatch)
    else if !PredecessorMatches(l, m) then Refused(PredecessorMismatch)
    else if AnchorMissing(m, at) then Refused(AnchorMismatch)
    else if !CallsMatch(l, m) then Refused(KnownCallMismatch)
    else if SpareRefusal(l, m, at).Some? then Refused(SpareRefusal(l, m, at).value)
    else if at.nowMs >= m.terms.closesAtMs then Refused(ChallengeClosed)
    else MigratedNew
  }

  /** Only the script's own limits are written, whatever the next policy says about the others. */
  function Rewritten(before: PerPurpose, next: PerPurpose, written: set<Purpose>): PerPurpose {
    PerPurpose(if Calibration in written then next.calibration else before.calibration,
               if Baseline in written then next.baseline else before.baseline,
               if Repair in written then next.repair else before.repair,
               if Revised in written then next.revised else before.revised,
               if Judge in written then next.judge else before.judge)
  }

  function Migrate(l: Ledger, m: Migration, at: Moment): Ledger {
    if !MigrateReply(l, m, at).MigratedNew? then l else
    var p := m.manifest.next;
    l.(config := l.config.(version := p.version,
                           identity := l.config.identity.(policyHash := p.policyHash, scriptHash := p.scriptHash)),
       limits := Rewritten(l.limits, m.next, m.script.written),
       receipts := l.receipts[m.key := m.manifest])
  }

  /** The next policy keeps every limit that its script does not write. */
  predicate UnwrittenKept(m: Migration) {
    Rewritten(m.previous, m.next, m.script.written) == m.next
  }

  /** A migration that is denied, replayed, in conflict or looking at tampered history changes
      nothing; one that succeeds changes nothing that has been counted or recorded. */
  lemma MigrationIsAllOrNothing(l: Ledger, m: Migration, at: Moment)
    ensures var l' := Migrate(l, m, at);
            && (l' != l ==> MigrateReply(l, m, at).MigratedNew? && m.key !in l.receipts)
            && l'.totals == l.totals && l'.counts == l.counts && l'.inflight == l.inflight && l'.auths == l.auths
            && l'.subjects == l.subjects && l'.rates == l.rates && l'.providers == l.providers
            && (forall k | k in l.receipts :: k in l'.receipts && l'.receipts[k] == l.receipts[k])
            && (forall p: Purpose | p !in m.script.written :: l'.limits.Of(p) == l.limits.Of(p))
  {
    forall p: Purpose | p !in m.script.written ensures Rewritten(l.limits, m.next, m.script.written).Of(p) == l.limits.Of(p) {
    }
  }

  /** What the sum of the written limits gains. */
  function Gain(m: Migration): int {
    (if Calibration in m.script.written then m.next.calibration - m.previous.calibration else 0)
    + (if Baseline in m.script.written then m.next.baseline - m.previous.baseline else 0)
    + (if Repair in m.script.written then m.next.repair - m.previous.repair else 0)
    + (if Revised in m.script.written then m.next.revised - m.previous.revised else 0)
    + (if Judge in m.script.written then m.next.judge - m.previous.judge else 0)
  }

  lemma CallsCovered(counts: PerPurpose, before: PerPurpose, next: PerPurpose, written: set<Purpose>)
    requires counts.baseline == counts.repair == counts.revised == counts.judge == 0 && counts.AtMost(before)
    ensures counts.AtMost(Rewritten(before, next, written)) <==>
              (Calibration in written ==> counts.calibration <= next.calibration)
              && forall p | p in written && p != Calibration :: 0 <= next.Of(p)
  {
    var limits := Rewritten(before, next, written);
    forall p: Purpose ensures limits.Of(p) == if p in written then next.Of(p) else before.Of(p) {
    }
    assert before.Of(Baseline) >= 0 && before.Of(Repair) >= 0 && before.Of(Revised) >= 0 && before.Of(Judge) >= 0;
    if counts.AtMost(limits) {
      assert limits.Of(Baseline) >= 0 && limits.Of(Repair) >= 0 && limits.Of(Revised) >= 0 && limits.Of(Judge) >= 0;
    }
  }

  lemma AcceptedLimits(l: Ledger, m: Migration, at: Moment)
    requires MigrateReply(l, m, at).MigratedNew?
    ensures l.limits == m.previous && Migrate(l, m, at).limits == Rewritten(m.previous, m.next, m.script.written)
    ensures l.counts.calibration == l.totals.claimed && l.counts.baseline == l.counts.repair == 0
    ensures l.counts.revised == l.counts.judge == 0 && Migrate(l, m, at).counts == l.counts
  {
  }

  /** What the migration does to the limits: the overall allowance is kept exactly when what some
      purposes gain the others give up, and the calls already made stay within their limits
      exactly when the calibration limit still covers them and no written limit is negative. */
  lemma LimitsAfterMigration(l: Ledger, m: Migration, at: Moment)
    requires MigrateReply(l, m, at).MigratedNew? && l.counts.AtMost(l.limits)
    ensures var l' := Migrate(l, m, at);
            && (l'.limits.Sum() == l.limits.Sum() <==> Gain(m) == 0)
            && (l'.counts.AtMost(l'.limits) <==>
                (Calibration in m.script.written ==> l.totals.claimed <= m.next.calibration)
                && forall p | p in m.script.written && p != Calibration :: 0 <= m.next.Of(p))
  {
    AcceptedLimits(l, m, at);
    CallsCovered(l.counts, m.previous, m.next, m.script.written);
  }

  function SettledOf(m: map<Jti, Auth>): set<Jti> {
    set j | j in m && m[j].state.Known?
  }

  lemma {:induction false} SettledAreCounted(m: map<Jti, Auth>)
    ensures Sum(m, Settled) == |SettledOf(m)|
  {
    if m == map[] {
      assert SettledOf(m) == {};
    } else {
      var j :| j in m;
      SumWithout(m, j, Settled);
      SettledAreCounted(m - {j});
      assert SettledOf(m) == SettledOf(m - {j}) + (if m[j].state.Known? then {j} else {});
    }
  }

  lemma {:induction false} DistinctIds(calls: seq<KnownCall>)
    requires forall i, j | 0 <= i < j < |calls| :: calls[i].jti != calls[j].jti
    ensures |ListedIds(calls)| == |calls|
    decreases |calls|
  {
    if calls == [] {
      assert ListedIds(calls) == {};
    } else {
      var front := calls[..|calls| - 1];
      DistinctIds(front);
      assert ListedIds(calls) == ListedIds(front) + {calls[|calls| - 1].jti};
    }
  }

  lemma SubsetOfSameSize<T>(a: set<T>, b: set<T>)
    requires a <= b && |a| == |b|
    ensures a == b
  {
    assert b == a + (b - a) && |b| == |a| + |b - a|;
  }

  lemma ListedAreSettled(l: Ledger, m: Migration)
    requires Balanced(l) && CallsMatch(l, m) && l.totals.known == m.script.listed
    ensures ListedIds(m.manifest.calls) == SettledOf(l.auths)
  {
    var calls := m.manifest.calls;
    forall i | 0 <= i < |calls| ensures calls[i].jti in SettledOf(l.auths) {
      assert CallMatches(l, m, i);
    }
    DistinctIds(calls);
    SettledAreCounted(l.auths);
    assert Stored(l, Settled) == Sum(l.auths, Settled);
    SubsetOfSameSize(ListedIds(calls), SettledOf(l.auths));
  }

  lemma IdleMeansSettled(l: Ledger, j: Jti)
    requires Balanced(l) && l.totals.pending == 0 && l.totals.uncertain == 0
    ensures j in l.auths && Dispatched(l.auths[j]) <==> j in SettledOf(l.auths)
  {
    if j in l.auths && l.auths[j].state.InFlight? {
      SomethingThere(l, j, Pending);
    }
    if j in l.auths && l.auths[j].state.Uncertain? {
      SomethingThere(l, j, Unsure);
    }
  }

  lemma AcceptedMatches(l: Ledger, m: Migration, at: Moment)
    requires MigrateReply(l, m, at).MigratedNew? || MigrateReply(l, m, at).MigratedExisting?
    ensures CallsMatch(l, m) && l.totals.known == m.expected.known && l.totals.pending == 0 && l.totals.uncertain == 0
    ensures l.totals.knownActual == m.manifest.knownActual == ActualSum(m.manifest.calls)
  {
  }

  lemma CompleteManifest(l: Ledger, m: Migration, j: Jti)
    requires Balanced(l) && CallsMatch(l, m) && l.totals.known == m.script.listed
    requires l.totals.pending == 0 && l.totals.uncertain == 0
    ensures j in l.auths && Dispatched(l.auths[j]) <==> j in ListedIds(m.manifest.calls)
  {
    ListedAreSettled(l, m);
    IdleMeansSettled(l, j);
  }

  /** With balanced books, a migration that is carried out or recognised, and expects as many
      settled calls as it lists, has listed every call ever dispatched, and its costs are all
      that was ever spent. */
  lemma ManifestIsComplete(l: Ledger, m: Migration, at: Moment, j: Jti)
    requires Balanced(l) && m.expected.known == m.script.listed
    requires MigrateReply(l, m, at).MigratedNew? || MigrateReply(l, m, at).MigratedExisting?
    ensures j in l.auths && Dispatched(l.auths[j]) <==> j in ListedIds(m.manifest.calls)
    ensures l.totals.knownActual == ActualSum(m.manifest.calls) && l.totals.pending == l.totals.uncertain == 0
  {
    AcceptedMatches(l, m, at);
    CompleteManifest(l, m, j);
  }

  lemma MigrationKeepsBooks(l: Ledger, m: Migration, at: Moment)
    requires Books(l)
    ensures Books(Migrate(l, m, at))
  {
    var l' := Migrate(l, m, at);
    SameBalance(l, l');
  }

  lemma MigrationKeepsCounterLaws(l: Ledger, m: Migration, at: Moment)
    requires CounterLaws(l)
    ensures CounterLaws(Migrate(l, m, at))
    ensures Migrate(l, m, at).config.ceiling == l.config.ceiling
  {
  }

  lemma MigrationKeepsExclusive(l: Ledger, m: Migration, at: Moment)
    requires Exclusive(l)
    ensures Exclusive(Migrate(l, m, at))
  {
    var l' := Migrate(l, m, at);
    assert forall j: Jti :: IsActive(l', j) ==> IsActive(l, j);
    assert forall j: Jti :: IsUncertain(l', j) <==> IsUncertain(l, j);
  }

  // ----- chains of migrations interleaved with calls -----------------------------------------------

  datatype Step = Calling(call: Call) | Migrating(migration: Migration, at: Moment)

  function Take(l: Ledger, s: Step): Ledger {
    match s
    case Calling(c) => Apply(l, c)
    case Migrating(m, at) => Migrate(l, m, at)
  }

  function TakeAll(l: Ledger, steps: seq<Step>): Ledger
    decreases |steps|
  {
    if steps == [] then l else TakeAll(Take(l, steps[0]), steps[1..])
  }

  predicate FreshSteps(l: Ledger, steps: seq<Step>)
    decreases |steps|
  {
    steps != [] ==>
      && (steps[0].Calling? && steps[0].call.IssueCall? ==>
            !Overwrites(l, steps[0].call.issue, steps[0].call.now))
      && FreshSteps(Take(l, steps[0]), steps[1..])
  }

  /** Any chain of migrations interleaved with calls stays within the spending bound. */
  lemma {:induction false} MixedRunsStayBounded(l: Ledger, steps: seq<Step>)
    requires CounterLaws(l) && l.config.ceiling >= 0
    ensures var end := TakeAll(l, steps).totals;
            CounterLaws(TakeAll(l, steps))
            && end.knownActual + end.uncertainUpper + end.pending * TakeAll(l, steps).config.reservation
               <= end.committed <= l.config.ceiling
    decreases |steps|
  {
    if steps == [] {
      SpendingIsBounded(l);
    } else {
      match steps[0]
      case Calling(c) =>
        StepKeepsCounterLaws(l, c);
        StepKeepsTerms(l, c);
        MixedRunsStayBounded(Apply(l, c), steps[1..]);
      case Migrating(m, at) =>
        MigrationKeepsCounterLaws(l, m, at);
        MixedRunsStayBounded(Migrate(l, m, at), steps[1..]);
    }
  }

  /** With fresh ids and one call at a time, it also keeps the records and counters balanced and
      an open guard settled. */
  lemma {:induction false} MixedRunsStaySound(l: Ledger, steps: seq<Step>)
    requires Sound(l) && FreshSteps(l, steps)
    ensures Sound(TakeAll(l, steps)) && OpenIsSettled(TakeAll(l, steps)) && Laws(TakeAll(l, steps))
    decreases |steps|
  {
    if steps == [] {
      BooksGiveLaws(l);
    } else {
      match steps[0]
      case Calling(c) =>
        StepKeepsSound(l, c);
        MixedRunsStaySound(Apply(l, c), steps[1..]);
      case Migrating(m, at) =>
        MigrationKeepsBooks(l, m, at);
        MigrationKeepsExclusive(l, m, at);
        MixedRunsStaySound(Migrate(l, m, at), steps[1..]);
    }
  }
}
