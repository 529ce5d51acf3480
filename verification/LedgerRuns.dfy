/** What the ledger still remembers after any run of calls and migrations: a granted token, a
    call in flight, a subject, a settlement, a receipt, and the calls already made. */
module LedgerRuns {
  import opened Prelude
  import opened LedgerModel
  import opened LedgerAccounting
  import opened LedgerQuarantine
  import opened LedgerMigration

  /** Something that one step may do to one token, or to the guard. */
  datatype Deed =
    | Reissues(jti: Jti)   // an authorisation is filed under this id
    | Uses(jti: Jti)       // the authorisation is begun, found expired, or filed over
    | TakesBack(jti: Jti)  // the call leaves flight, settled or given up
    | Grants               // some begin is granted

  predicate Does(l: Ledger, s: Step, d: Deed) {
    s.Calling? &&
    match s.call
    case IssueCall(r, now) =>
      IssueReply(l, r, now).IssuedNew? && (d == Reissues(r.jti) || d == Uses(r.jti))
    case BeginCall(r, now) =>
      || (BeginReply(l, r, now).Granted? && (d == Grants || d == Uses(r.jti)))
      || (BeginReply(l, r, now) == Refused(TokenExpired) && d == Uses(r.jti))
    case KnownCallOf(r) => KnownReply(l, r).KnownNew? && l.auths[r.jti].state.InFlight? && d == TakesBack(r.jti)
    case UncertainCall(r) => UncertainReply(l, r, None).UncertainNew? && d == TakesBack(r.jti)
    case ReapCall(r, now) => UncertainReply(l, r, Some(now)).UncertainNew? && d == TakesBack(r.jti)
  }

  /** Some step of the run does this. */
  predicate Happens(l: Ledger, steps: seq<Step>, d: Deed)
    decreases |steps|
  {
    steps != [] && (Does(l, steps[0], d) || Happens(Take(l, steps[0]), steps[1..], d))
  }

  /** No step changes the global limit, the deadline or how many calls may be in flight. */
  predicate SameFrame(c: Config, c': Config) {
    c'.globalLimit == c.globalLimit && c'.maxConcurrency == c.maxConcurrency && c'.closesAtMs == c.closesAtMs
    && c'.identity.guardInstance == c.identity.guardInstance && c'.identity.commit == c.identity.commit
    && c'.ceiling == c.ceiling && c'.reservation == c.reservation && c'.model == c.model
  }

  lemma TakeKeepsFrame(l: Ledger, s: Step)
    ensures SameFrame(l.config, Take(l, s).config)
  {
    if s.Calling? {
      StepKeepsTerms(l, s.call);
    }
  }

  // ----- the calls already made ----------------------------------------------------------------------

  lemma BeginCounts(l: Ledger, r: BeginRequest, now: nat)
    ensures Begin(l, r, now).totals.claimed == l.totals.claimed + if BeginReply(l, r, now).Granted? then 1 else 0
  {
    if BeginRefusal(l, r, now).Some? {
      RefusedBegin(l, r, now);
    }
  }

  lemma SettlingCountsNothing(l: Ledger, r: KnownRequest)
    ensures SettleKnown(l, r).totals.claimed == l.totals.claimed
  {
    if KnownReply(l, r).KnownNew? {
      assert FileKnown(l, r).totals.claimed == l.totals.claimed;
    }
  }

  lemma GivingUpCountsNothing(l: Ledger, r: UncertainRequest, reapAt: Option<nat>)
    ensures SettleUncertain(l, r, reapAt).totals.claimed == l.totals.claimed
  {
    if UncertainReply(l, r, reapAt).UncertainNew? {
      assert SettleUncertain(l, r, reapAt) == GiveUp(l, r);
    }
  }

  lemma TakeCounts(l: Ledger, s: Step)
    ensures Take(l, s).totals.claimed == l.totals.claimed + if Does(l, s, Grants) then 1 else 0
  {
    if s.Calling? {
      match s.call
      case IssueCall(_, _) =>
      case BeginCall(r, now) => BeginCounts(l, r, now);
      case KnownCallOf(r) => SettlingCountsNothing(l, r);
      case UncertainCall(r) => GivingUpCountsNothing(l, r, None);
      case ReapCall(r, now) => GivingUpCountsNothing(l, r, Some(now));
    }
  }

  /** The count of calls never falls, and stands still exactly while no begin is granted. */
  lemma {:induction false} ClaimedNeverFalls(l: Ledger, steps: seq<Step>)
    ensures TakeAll(l, steps).totals.claimed >= l.totals.claimed
    ensures TakeAll(l, steps).totals.claimed == l.totals.claimed <==> !Happens(l, steps, Grants)
    ensures SameFrame(l.config, TakeAll(l, steps).config)
    decreases |steps|
  {
    if steps != [] {
      TakeCounts(l, steps[0]);
      TakeKeepsFrame(l, steps[0]);
      ClaimedNeverFalls(Take(l, steps[0]), steps[1..]);
    }
  }

  /** Once the global limit is reached no begin is ever granted again, whatever happens, and an
      otherwise acceptable one is told so and changes nothing. */
  lemma NothingBeyondTheLimit(l: Ledger, steps: seq<Step>, r: BeginRequest, now: nat)
    requires l.totals.claimed >= l.config.globalLimit
    ensures !Happens(l, steps, Grants)
    ensures var end := TakeAll(l, steps);
            && !BeginReply(end, r, now).Granted?
            && (GuardRefusal(end, r).None? && TurnRefusal(end, r, now).None? && Laws(end)
                && NonNegative(end.totals, end.counts) && end.counts.AtMost(end.limits)
                ==> BeginReply(end, r, now) == Refused(GlobalCallLimit) && Begin(end, r, now) == end)
  {
    NoGrantAtLimit(l, steps);
    ClaimedNeverFalls(l, steps);
  }

  lemma {:induction false} NoGrantAtLimit(l: Ledger, steps: seq<Step>)
    requires l.totals.claimed >= l.config.globalLimit
    ensures !Happens(l, steps, Grants)
    decreases |steps|
  {
    if steps != [] {
      assert !Does(l, steps[0], Grants);
      TakeCounts(l, steps[0]);
      TakeKeepsFrame(l, steps[0]);
      NoGrantAtLimit(Take(l, steps[0]), steps[1..]);
    }
  }

  // ----- a token's record ------------------------------------------------------------------------------

  lemma BeginTouches(l: Ledger, r: BeginRequest, now: nat, j: Jti)
    requires j in l.auths
    ensures var l' := Begin(l, r, now);
            && j in l'.auths
            && (l'.auths[j] != l.auths[j] ==>
                  j == r.jti && l.auths[j].state.Issued? && Does(l, Calling(BeginCall(r, now)), Uses(j)))
  {
    if BeginRefusal(l, r, now).Some? {
      RefusedBegin(l, r, now);
    }
  }

  lemma SettlingTouches(l: Ledger, r: KnownRequest, j: Jti)
    requires j in l.auths
    ensures var l' := SettleKnown(l, r);
            && j in l'.auths
            && (l'.auths[j] != l.auths[j] ==> j == r.jti && KnownReply(l, r).KnownNew? && l'.auths[j].state.Known?)
  {
    if KnownReply(l, r).KnownNew? {
      FileKnownActive(l, r);
    }
  }

  lemma GivingUpTouches(l: Ledger, r: UncertainRequest, reapAt: Option<nat>, j: Jti)
    requires j in l.auths
    ensures var l' := SettleUncertain(l, r, reapAt);
            && j in l'.auths
            && (l'.auths[j] != l.auths[j] ==>
                  j == r.jti && UncertainReply(l, r, reapAt).UncertainNew? && l'.auths[j].state.Uncertain?)
  {
    if UncertainReply(l, r, reapAt).UncertainNew? {
      assert SettleUncertain(l, r, reapAt) == GiveUp(l, r);
    }
  }

  /** How one step may change one record: an issued one is begun or expires, one in flight is
      settled or given up, an uncertain one is settled, and any is filed over; nothing else. */
  lemma RecordMoves(l: Ledger, s: Step, j: Jti)
    requires j in l.auths
    ensures j in Take(l, s).auths
    ensures Take(l, s).auths[j] == l.auths[j] || Does(l, s, Reissues(j))
            || (l.auths[j].state.Issued? && Does(l, s, Uses(j)))
            || (Dispatched(l.auths[j]) && !l.auths[j].state.Known? && Dispatched(Take(l, s).auths[j]))
    ensures Does(l, s, Reissues(j)) ==> Take(l, s).auths[j] == NewAuth(s.call.issue, s.call.now)
  {
    if s.Calling? {
      match s.call
      case IssueCall(_, _) =>
      case BeginCall(r, now) => BeginTouches(l, r, now, j);
      case KnownCallOf(r) => SettlingTouches(l, r, j);
      case UncertainCall(r) => GivingUpTouches(l, r, None, j);
      case ReapCall(r, now) => GivingUpTouches(l, r, Some(now), j);
    }
  }

  /** A record that stands for a call goes on doing so exactly until its id is filed over. */
  lemma DispatchedUntilReissued(l: Ledger, s: Step, j: Jti)
    requires j in l.auths && Dispatched(l.auths[j])
    ensures j in Take(l, s).auths && (Dispatched(Take(l, s).auths[j]) <==> !Does(l, s, Reissues(j)))
  {
    RecordMoves(l, s, j);
  }

  lemma {:induction false} DispatchedForGood(l: Ledger, steps: seq<Step>, j: Jti)
    requires j in l.auths && Dispatched(l.auths[j]) && !Happens(l, steps, Reissues(j))
    ensures j in TakeAll(l, steps).auths && Dispatched(TakeAll(l, steps).auths[j])
    decreases |steps|
  {
    if steps != [] {
      DispatchedUntilReissued(l, steps[0], j);
      DispatchedForGood(Take(l, steps[0]), steps[1..], j);
    }
  }

  lemma {:induction false} FreshNeverReissues(l: Ledger, steps: seq<Step>, j: Jti)
    requires j in l.auths && Dispatched(l.auths[j]) && FreshSteps(l, steps)
    ensures !Happens(l, steps, Reissues(j))
    decreases |steps|
  {
    if steps != [] {
      DispatchedUntilReissued(l, steps[0], j);
      FreshNeverReissues(Take(l, steps[0]), steps[1..], j);
    }
  }

  lemma GrantedIsDispatched(l: Ledger, r: BeginRequest, now: nat)
    requires BeginReply(l, r, now).Granted?
    ensures var l' := Begin(l, r, now);
            && l' == Dispatch(l, r, now) && r.jti in l'.auths && l'.auths[r.jti].state.InFlight?
            && l'.auths[r.jti].state.lease == now + LEASE && l'.inflight == l.inflight[r.jti := now + LEASE]
  {
  }

  /** After a grant, whatever happens and whoever asks, the token is refused, and the refusal
      changes nothing, as long as its id is not issued again; and with fresh ids it never is. */
  lemma ReusedTokenIsRefused(l: Ledger, r: BeginRequest, now: nat, steps: seq<Step>, again: BeginRequest, later: nat)
    requires BeginReply(l, r, now).Granted? && again.jti == r.jti
    ensures var start := Begin(l, r, now);
            var end := TakeAll(start, steps);
            && (FreshSteps(start, steps) ==> !Happens(start, steps, Reissues(r.jti)))
            && (!Happens(start, steps, Reissues(r.jti)) ==>
                  && !BeginReply(end, again, later).Granted?
                  && (GuardRefusal(end, again).None? ==>
                        BeginReply(end, again, later) == Refused(TokenNotIssued) && Begin(end, again, later) == end))
  {
    var start := Begin(l, r, now);
    GrantedIsDispatched(l, r, now);
    if FreshSteps(start, steps) {
      FreshNeverReissues(start, steps, r.jti);
    }
    if !Happens(start, steps, Reissues(r.jti)) {
      DispatchedForGood(start, steps, r.jti);
    }
  }

  /** What the issue script looks at before it files a new authorisation. */
  predicate MayIssue(l: Ledger, r: IssueRequest, now: nat) {
    && l.config.status.Open? && WrongIdentity(l.config.identity, r.identity).None?
    && now * 1000 < l.config.closesAtMs && NotAdmitted(r.admission).None?
    && r.subject !in l.subjects && Get(l.rates, RateKeyOf(r, now), 0) < r.purposeLimit
  }

  /** What breaks it, exactly: of all steps, only a request to issue the used id again that passes
      every check of the issue script, for a subject not yet claimed, makes the token acceptable,
      and then for the claims and the purpose it was issued for. */
  lemma RevivedIff(l: Ledger, s: Step, again: BeginRequest)
    requires again.jti in l.auths && Dispatched(l.auths[again.jti])
    ensures TokenRefusal(Take(l, s), again).None? <==>
              s.Calling? && s.call.IssueCall? && s.call.issue.jti == again.jti && MayIssue(l, s.call.issue, s.call.now)
              && s.call.issue.claims == again.claims && s.call.issue.purpose == again.purpose
  {
    DispatchedUntilReissued(l, s, again.jti);
    RecordMoves(l, s, again.jti);
  }

  // ----- a call in flight --------------------------------------------------------------------------------

  lemma OnlyLease(m: map<Jti, int>, j: Jti, lease: int)
    requires m == map[j := lease]
    ensures |m| == 1 && m - {j} == map[] && forall k: Jti | k in m :: k == j
  {
    assert m.Keys == {j};
  }

  lemma BeginInFlight(l: Ledger, r: BeginRequest, now: nat)
    requires |l.inflight| >= l.config.maxConcurrency
    ensures Begin(l, r, now).inflight == l.inflight && !BeginReply(l, r, now).Granted?
  {
    assert BeginRefusal(l, r, now).Some?;
    RefusedBegin(l, r, now);
  }

  lemma SettlingInFlight(l: Ledger, r: KnownRequest)
    requires RecordsOk(l)
    ensures SettleKnown(l, r).inflight ==
            if KnownReply(l, r).KnownNew? && l.auths[r.jti].state.InFlight? then l.inflight - {r.jti} else l.inflight
    ensures KnownReply(l, r).KnownNew? && l.auths[r.jti].state.InFlight? ==> r.jti in l.inflight
  {
    if KnownReply(l, r).KnownNew? {
      assert RecordOk(r.jti, l.auths[r.jti], l.config.reservation);
      assert FileKnown(l, r).inflight == l.inflight;
    }
  }

  lemma GivingUpInFlight(l: Ledger, r: UncertainRequest, reapAt: Option<nat>)
    ensures SettleUncertain(l, r, reapAt).inflight ==
            if UncertainReply(l, r, reapAt).UncertainNew? then l.inflight - {r.jti} else l.inflight
    ensures UncertainReply(l, r, reapAt).UncertainNew? ==> r.jti in l.inflight
  {
    if UncertainReply(l, r, reapAt).UncertainNew? {
      assert SettleUncertain(l, r, reapAt) == GiveUp(l, r);
    }
  }

  /** While one call is in flight and no more may be, the lease stays alone until it is taken
      back. */
  lemma LeaseUntilTakenBack(l: Ledger, s: Step, j: Jti, lease: int)
    requires RecordsOk(l) && l.config.maxConcurrency <= 1 && l.inflight == map[j := lease]
    ensures Take(l, s).inflight == if Does(l, s, TakesBack(j)) then map[] else l.inflight
    ensures !Does(l, s, Grants)
  {
    OnlyLease(l.inflight, j, lease);
    if s.Calling? {
      match s.call
      case IssueCall(_, _) =>
      case BeginCall(r, now) => BeginInFlight(l, r, now);
      case KnownCallOf(r) => SettlingInFlight(l, r);
      case UncertainCall(r) => GivingUpInFlight(l, r, None);
      case ReapCall(r, now) => GivingUpInFlight(l, r, Some(now));
    }
  }

  lemma BeginKeepsRecordsOk(l: Ledger, r: BeginRequest, now: nat)
    requires RecordsOk(l)
    ensures RecordsOk(Begin(l, r, now))
  {
    if BeginRefusal(l, r, now).Some? {
      RefusedBegin(l, r, now);
    }
  }

  lemma SettlingKeepsRecordsOk(l: Ledger, r: KnownRequest)
    requires RecordsOk(l)
    ensures RecordsOk(SettleKnown(l, r))
  {
    if KnownReply(l, r).KnownNew? {
      assert SettleKnown(l, r).auths == FileKnown(l, r).auths;
      assert RecordOk(r.jti, l.auths[r.jti], l.config.reservation);
    }
  }

  lemma GivingUpKeepsRecordsOk(l: Ledger, r: UncertainRequest, reapAt: Option<nat>)
    requires RecordsOk(l)
    ensures RecordsOk(SettleUncertain(l, r, reapAt))
  {
    if UncertainReply(l, r, reapAt).UncertainNew? {
      assert SettleUncertain(l, r, reapAt) == GiveUp(l, r);
    }
  }

  /** Every record stays under its own id, at the policy's reservation. */
  lemma TakeKeepsRecordsOk(l: Ledger, s: Step)
    requires RecordsOk(l)
    ensures RecordsOk(Take(l, s))
  {
    if s.Calling? {
      match s.call
      case IssueCall(r, now) =>
      case BeginCall(r, now) => BeginKeepsRecordsOk(l, r, now);
      case KnownCallOf(r) => SettlingKeepsRecordsOk(l, r);
      case UncertainCall(r) => GivingUpKeepsRecordsOk(l, r, None);
      case ReapCall(r, now) => GivingUpKeepsRecordsOk(l, r, Some(now));
    }
  }

  lemma {:induction false} LeaseStays(l: Ledger, steps: seq<Step>, j: Jti, lease: int)
    requires RecordsOk(l) && l.config.maxConcurrency <= 1 && l.inflight == map[j := lease]
    requires !Happens(l, steps, TakesBack(j))
    ensures TakeAll(l, steps).inflight == l.inflight && !Happens(l, steps, Grants) && RecordsOk(TakeAll(l, steps))
    ensures SameFrame(l.config, TakeAll(l, steps).config)
    decreases |steps|
  {
    if steps != [] {
      LeaseUntilTakenBack(l, steps[0], j, lease);
      TakeKeepsRecordsOk(l, steps[0]);
      TakeKeepsFrame(l, steps[0]);
      LeaseStays(Take(l, steps[0]), steps[1..], j, lease);
    }
  }

  /** Nothing but the lease set stands in the way of this begin. */
  predicate TurnOtherwise(l: Ledger, r: BeginRequest, now: nat) {
    GuardRefusal(l, r).None? && TokenRefusal(l, r).None? && now * 1000 < r.terms.closesAtMs
    && NotAdmitted(r.admission).None? && now < l.auths[r.jti].expiresAt
  }

  lemma RefusedInFlight(l: Ledger, j: Jti, lease: int, r: BeginRequest, now: nat)
    requires l.config.maxConcurrency == 1 && l.inflight == map[j := lease]
    ensures !BeginReply(l, r, now).Granted?
    ensures TurnOtherwise(l, r, now) ==>
              BeginReply(l, r, now) == Refused(if now < lease then ConcurrencyLimit else StaleInflight) && Begin(l, r, now) == l
  {
    OnlyLease(l.inflight, j, lease);
    BeginInFlight(l, r, now);
    assert j in l.inflight;
  }

  lemma AloneAfterGrant(l: Ledger, r: BeginRequest, now: nat)
    requires BeginReply(l, r, now).Granted? && l.config.maxConcurrency == 1
    ensures var start := Begin(l, r, now);
            start.inflight == map[r.jti := now + LEASE] && start.config.maxConcurrency == 1
  {
    GrantedIsDispatched(l, r, now);
    assert l.inflight == map[];
  }

  /** Where one call may be in flight, no begin of any token is granted from a grant until that
      call is settled or given up; one that is otherwise acceptable is told why, and changes
      nothing. The step that takes the call back leaves nothing in flight. */
  lemma SecondBeginIsRefused(l: Ledger, r: BeginRequest, now: nat, steps: seq<Step>, other: BeginRequest, later: nat,
                             s: Step)
    requires RecordsOk(l) && BeginReply(l, r, now).Granted? && l.config.maxConcurrency == 1
    requires !Happens(Begin(l, r, now), steps, TakesBack(r.jti))
    ensures var start := Begin(l, r, now);
            var end := TakeAll(start, steps);
            && !Happens(start, steps, Grants) && !BeginReply(end, other, later).Granted?
            && (TurnOtherwise(end, other, later) ==>
                  BeginReply(end, other, later) == Refused(if later < now + LEASE then ConcurrencyLimit else StaleInflight)
                  && Begin(end, other, later) == end)
            && Take(end, s).inflight == if Does(end, s, TakesBack(r.jti)) then map[] else map[r.jti := now + LEASE]
  {
    var start := Begin(l, r, now);
    AloneAfterGrant(l, r, now);
    BeginKeepsRecordsOk(l, r, now);
    LeaseStays(start, steps, r.jti, now + LEASE);
    var end := TakeAll(start, steps);
    LeaseUntilTakenBack(end, s, r.jti, now + LEASE);
    RefusedInFlight(end, r.jti, now + LEASE, other, later);
  }

  // ----- subjects, settlements and receipts ----------------------------------------------------------------

  /** Entries that are written once stay as they are. */
  ghost predicate Kept<K, V>(m: map<K, V>, m': map<K, V>) {
    forall k | k in m :: k in m' && m'[k] == m[k]
  }

  lemma BeginKeepsEntries(l: Ledger, r: BeginRequest, now: nat)
    ensures Begin(l, r, now).subjects == l.subjects && Begin(l, r, now).receipts == l.receipts
  {
    if BeginRefusal(l, r, now).Some? {
      RefusedBegin(l, r, now);
    }
  }

  lemma SettlingKeepsEntries(l: Ledger, r: KnownRequest)
    ensures SettleKnown(l, r).subjects == l.subjects && SettleKnown(l, r).receipts == l.receipts
  {
    if KnownReply(l, r).KnownNew? {
      assert FileKnown(l, r).subjects == l.subjects && FileKnown(l, r).receipts == l.receipts;
    }
  }

  lemma GivingUpKeepsEntries(l: Ledger, r: UncertainRequest, reapAt: Option<nat>)
    ensures var l' := SettleUncertain(l, r, reapAt); l'.subjects == l.subjects && l'.receipts == l.receipts
  {
    if UncertainReply(l, r, reapAt).UncertainNew? {
      assert SettleUncertain(l, r, reapAt) == GiveUp(l, r);
    }
  }

  lemma TakeKeepsEntries(l: Ledger, s: Step)
    ensures Kept(l.subjects, Take(l, s).subjects) && Kept(l.receipts, Take(l, s).receipts)
  {
    if s.Calling? {
      match s.call
      case IssueCall(_, _) =>
      case BeginCall(r, now) => BeginKeepsEntries(l, r, now);
      case KnownCallOf(r) => SettlingKeepsEntries(l, r);
      case UncertainCall(r) => GivingUpKeepsEntries(l, r, None);
      case ReapCall(r, now) => GivingUpKeepsEntries(l, r, Some(now));
    }
  }

  lemma {:induction false} EntriesStay(l: Ledger, steps: seq<Step>)
    ensures Kept(l.subjects, TakeAll(l, steps).subjects) && Kept(l.receipts, TakeAll(l, steps).receipts)
    decreases |steps|
  {
    if steps != [] {
      TakeKeepsEntries(l, steps[0]);
      EntriesStay(Take(l, steps[0]), steps[1..]);
    }
  }

  /** A subject that was given an authorisation is never given another, whatever happens. */
  lemma SubjectIsTaken(l: Ledger, r: IssueRequest, now: nat, steps: seq<Step>, other: IssueRequest, later: nat)
    requires IssueReply(l, r, now).IssuedNew? && other.subject == r.subject
    ensures var end := TakeAll(Issue(l, r, now), steps);
            !IssueReply(end, other, later).IssuedNew? && Issue(end, other, later) == end
  {
    EntriesStay(Issue(l, r, now), steps);
    assert r.subject in Issue(l, r, now).subjects;
  }

  lemma {:induction false} IssuedUntilUsed(l: Ledger, steps: seq<Step>, j: Jti)
    requires j in l.auths && l.auths[j].state.Issued? && !Happens(l, steps, Uses(j))
    ensures j in TakeAll(l, steps).auths && TakeAll(l, steps).auths[j] == l.auths[j]
    decreases |steps|
  {
    if steps != [] {
      RecordMoves(l, steps[0], j);
      IssuedUntilUsed(Take(l, steps[0]), steps[1..], j);
    }
  }

  /** Asked for again by the same subject at any later time, an unused authorisation is returned
      unchanged until it expires and refused after that; nothing changes either way. */
  lemma IssuingTwice(l: Ledger, r: IssueRequest, now: nat, steps: seq<Step>, again: IssueRequest, later: nat)
    requires IssueReply(l, r, now).IssuedNew? && !Happens(Issue(l, r, now), steps, Uses(r.jti))
    requires again.subject == r.subject && again.jti == r.jti && again.claims == r.claims
    ensures var end := TakeAll(Issue(l, r, now), steps);
            && Issue(end, again, later) == end
            && (end.config.status.Open? && WrongIdentity(end.config.identity, again.identity).None?
                && later * 1000 < end.config.closesAtMs && NotAdmitted(again.admission).None? ==>
                  IssueReply(end, again, later) == if later < now + TOKEN_TTL then IssuedExisting(now, now + TOKEN_TTL)
                                                   else Refused(SubjectAlreadyClaimed))
  {
    var start := Issue(l, r, now);
    assert start.auths[r.jti] == NewAuth(r, now) && start.subjects[r.subject] == r.jti;
    IssuedUntilUsed(start, steps, r.jti);
    EntriesStay(start, steps);
    SubjectIsTaken(l, r, now, steps, again, later);
  }

  lemma {:induction false} KnownForGood(l: Ledger, steps: seq<Step>, j: Jti)
    requires j in l.auths && l.auths[j].state.Known? && FreshSteps(l, steps)
    ensures j in TakeAll(l, steps).auths && TakeAll(l, steps).auths[j] == l.auths[j]
    decreases |steps|
  {
    if steps != [] {
      RecordMoves(l, steps[0], j);
      DispatchedUntilReissued(l, steps[0], j);
      KnownForGood(Take(l, steps[0]), steps[1..], j);
    }
  }

  /** At any later time, with fresh ids, the same settlement is recognised and changes nothing,
      and a different one for the same call halts the guard. */
  lemma SettlingTwice(l: Ledger, r: KnownRequest, steps: seq<Step>, again: KnownRequest)
    requires KnownReply(l, r).KnownNew? && FreshSteps(SettleKnown(l, r), steps) && again.jti == r.jti
    ensures var end := TakeAll(SettleKnown(l, r), steps);
            end.config.identity == again.identity ==>
              if again.digest == r.digest then
                KnownReply(end, again) == KnownExisting(r.actual) && SettleKnown(end, again) == end
              else
                KnownReply(end, again) == Refused(ConflictingSettlement)
                && SettleKnown(end, again).config.status.Halted?
  {
    var start := SettleKnown(l, r);
    SettledRecord(l, r);
    KnownForGood(start, steps, r.jti);
  }

  lemma SettledRecord(l: Ledger, r: KnownRequest)
    requires KnownReply(l, r).KnownNew?
    ensures r.jti in SettleKnown(l, r).auths
    ensures var a := SettleKnown(l, r).auths[r.jti]; a.state.Known? && a.state.actual == r.actual && a.state.digest == r.digest
  {
    assert SettleKnown(l, r).auths == FileKnown(l, r).auths;
  }

  /** A second, different migration under the same name is refused at any later time, and changes
      nothing. */
  lemma ConflictIsRefused(l: Ledger, m: Migration, at: Moment, steps: seq<Step>, other: Migration, later: Moment)
    requires MigrateReply(l, m, at).MigratedNew? && other.key == m.key && other.manifest != m.manifest
    ensures var end := TakeAll(Migrate(l, m, at), steps);
            MigrateReply(end, other, later) == Refused(ReceiptConflict) && Migrate(end, other, later) == end
  {
    EntriesStay(Migrate(l, m, at), steps);
    assert m.key in Migrate(l, m, at).receipts;
  }

  // ----- a migration run again -------------------------------------------------------------------------------

  /** No call is in flight or uncertain. */
  ghost predicate Idle(l: Ledger) {
    forall j: Jti :: !IsActive(l, j)
  }

  /** What stays as it was while no begin is granted: everything but the policy, the limits, the
      receipts, new authorisations, and a guard that was open and may now be halted. */
  ghost predicate Quiet(l: Ledger, l': Ledger) {
    && l'.totals == l.totals && l'.counts == l.counts && l'.inflight == l.inflight && l'.providers == l.providers
    && (l'.config.status.Open? ==> l'.config.haltReason == l.config.haltReason && l.config.status.Open?)
    && l'.config.uncertainJti == l.config.uncertainJti
    && forall j: Jti | j in l.auths && l.auths[j].state.Known? :: j in l'.auths && l'.auths[j] == l.auths[j]
  }

  lemma SameRecordsAreQuiet(l: Ledger, l': Ledger)
    requires Idle(l) && l'.auths == l.auths && l'.totals == l.totals && l'.counts == l.counts
    requires l'.inflight == l.inflight && l'.providers == l.providers
    requires l'.config == l.config || exists e :: l'.config == Halt(l.config, e)
    ensures Quiet(l, l') && Idle(l')
  {
    assert forall j: Jti :: IsActive(l', j) ==> IsActive(l, j);
  }

  lemma ExpiryIsQuiet(l: Ledger, j: Jti)
    requires Idle(l) && j in l.auths && l.auths[j].state.Issued?
    ensures var l' := l.(auths := l.auths[j := l.auths[j].(state := Expired)]); Quiet(l, l') && Idle(l')
  {
    var l' := l.(auths := l.auths[j := l.auths[j].(state := Expired)]);
    assert forall k: Jti :: IsActive(l', k) ==> IsActive(l, k);
  }

  lemma BeginRefusedIsQuiet(l: Ledger, r: BeginRequest, now: nat)
    requires Idle(l) && !BeginReply(l, r, now).Granted?
    ensures Quiet(l, Begin(l, r, now)) && Idle(Begin(l, r, now))
  {
    RefusedBegin(l, r, now);
    if BeginRefusal(l, r, now).value.TokenExpired? {
      ExpiryIsQuiet(l, r.jti);
    } else {
      SameRecordsAreQuiet(l, Begin(l, r, now));
    }
  }

  lemma SettlingIdleIsQuiet(l: Ledger, r: KnownRequest)
    requires Idle(l)
    ensures Quiet(l, SettleKnown(l, r)) && Idle(SettleKnown(l, r))
  {
    var reply := KnownReply(l, r);
    assert !IsActive(l, r.jti);
    assert SettleKnown(l, r) == if reply.Refused? && KnownHalts(reply.error) then l.(config := Halt(l.config, reply.error))
                                else l;
    SameRecordsAreQuiet(l, SettleKnown(l, r));
  }

  lemma GivingUpIdleIsQuiet(l: Ledger, r: UncertainRequest, reapAt: Option<nat>)
    requires Idle(l)
    ensures Quiet(l, SettleUncertain(l, r, reapAt)) && Idle(SettleUncertain(l, r, reapAt))
  {
    assert !IsActive(l, r.jti);
    var reply := UncertainReply(l, r, reapAt);
    assert SettleUncertain(l, r, reapAt) == if reply == Refused(MissingInflightLease) then
                                              l.(config := Halt(l.config, MissingInflightLease))
                                            else l;
    SameRecordsAreQuiet(l, SettleUncertain(l, r, reapAt));
  }

  lemma IssueIsQuiet(l: Ledger, r: IssueRequest, now: nat)
    requires Idle(l) && !Overwrites(l, r, now)
    ensures Quiet(l, Issue(l, r, now)) && Idle(Issue(l, r, now))
  {
    var l' := Issue(l, r, now);
    assert forall j: Jti :: IsActive(l', j) ==> IsActive(l, j);
  }

  lemma MigrationIsQuiet(l: Ledger, m: Migration, at: Moment)
    requires Idle(l)
    ensures Quiet(l, Migrate(l, m, at)) && Idle(Migrate(l, m, at))
  {
    var l' := Migrate(l, m, at);
    assert forall j: Jti :: IsActive(l', j) ==> IsActive(l, j);
  }

  lemma TakeIsQuiet(l: Ledger, s: Step)
    requires Idle(l) && !Does(l, s, Grants)
    requires s.Calling? && s.call.IssueCall? ==> !Overwrites(l, s.call.issue, s.call.now)
    ensures Quiet(l, Take(l, s)) && Idle(Take(l, s))
  {
    match s
    case Migrating(m, at) => MigrationIsQuiet(l, m, at);
    case Calling(c) =>
      match c
      case IssueCall(r, now) => IssueIsQuiet(l, r, now);
      case BeginCall(r, now) => BeginRefusedIsQuiet(l, r, now);
      case KnownCallOf(r) => SettlingIdleIsQuiet(l, r);
      case UncertainCall(r) => GivingUpIdleIsQuiet(l, r, None);
      case ReapCall(r, now) => GivingUpIdleIsQuiet(l, r, Some(now));
  }

  lemma {:induction false} QuietRun(l: Ledger, steps: seq<Step>)
    requires Idle(l) && FreshSteps(l, steps) && !Happens(l, steps, Grants)
    ensures Quiet(l, TakeAll(l, steps)) && Idle(TakeAll(l, steps))
    decreases |steps|
  {
    if steps != [] {
      TakeIsQuiet(l, steps[0]);
      QuietRun(Take(l, steps[0]), steps[1..]);
    }
  }

  lemma IdleAfterMigration(l: Ledger, m: Migration, at: Moment)
    requires Balanced(l) && MigrateReply(l, m, at).MigratedNew?
    ensures Idle(Migrate(l, m, at))
  {
    var l' := Migrate(l, m, at);
    forall j: Jti ensures !IsActive(l', j) {
      IdleMeansSettled(l, j);
    }
  }

  lemma CallsStillMatch(l: Ledger, m: Migration, l': Ledger)
    requires CallsMatch(l, m) && l'.providers == l.providers
    requires forall j: Jti | j in l.auths && l.auths[j].state.Known? :: j in l'.auths && l'.auths[j] == l.auths[j]
    ensures CallsMatch(l', m)
  {
    forall i | 0 <= i < |m.manifest.calls| ensures CallMatches(l', m, i) {
      assert CallMatches(l, m, i);
    }
  }

  lemma CoreStillMatches(l: Ledger, m: Migration, l': Ledger)
    requires CoreMatches(l, m) && Quiet(l, l') && SameFrame(l.config, l'.config)
    ensures CoreMatches(l', m) <==> l'.config.status.Open?
  {
  }

  lemma CoreCounts(l: Ledger, m: Migration, l': Ledger)
    requires CoreMatches(l, m) && CoreMatches(l', m)
    ensures l'.totals.claimed == l.totals.claimed && l'.config.status.Open?
  {
  }

  /** What only the last script looks at besides: the acknowledgement, the inventory and the spare
      authorisation. */
  predicate ExtrasMatch(l: Ledger, m: Migration, at: Moment) {
    SpareRefusal(l, m, at).None? && !AnchorMissing(m, at)
  }

  lemma ReplayReplies(l: Ledger, m: Migration, at: Moment)
    requires m.key in l.receipts && l.receipts[m.key] == m.manifest
    ensures Migrate(l, m, at) == l
    ensures MigrateReply(l, m, at).MigratedExisting? <==>
              CoreMatches(l, m) && ConfigMatches(l, m.manifest.next, m.next) && PredecessorMatches(l, m)
              && CallsMatch(l, m) && ExtrasMatch(l, m, at)
  {
  }

  lemma MigratedState(l: Ledger, m: Migration, at: Moment)
    requires MigrateReply(l, m, at).MigratedNew?
    ensures var l' := Migrate(l, m, at);
            && CoreMatches(l', m) && CallsMatch(l', m) && PredecessorMatches(l', m)
            && m.key in l'.receipts && l'.receipts[m.key] == m.manifest
            && (ConfigMatches(l', m.manifest.next, m.next) <==> UnwrittenKept(m))
  {
    var l' := Migrate(l, m, at);
    CallsStillMatch(l, m, l');
    assert l'.limits == Rewritten(m.previous, m.next, m.script.written);
  }

  /** A successful migration run again, after any steps with fresh ids, never changes anything; and
      it is recognised exactly while no begin has been granted since, the guard is open, and its
      policy and limits are still the ones in force (and, for the last script, while its extra
      evidence is still in place). */
  lemma ReplayIsRecognisedIff(l: Ledger, m: Migration, at: Moment, steps: seq<Step>, later: Moment)
    requires Balanced(l) && MigrateReply(l, m, at).MigratedNew? && FreshSteps(Migrate(l, m, at), steps)
    ensures var start := Migrate(l, m, at);
            var end := TakeAll(start, steps);
            && Migrate(end, m, later) == end
            && (MigrateReply(end, m, later).MigratedExisting? <==>
                !Happens(start, steps, Grants) && end.config.status.Open?
                && ConfigMatches(end, m.manifest.next, m.next) && ExtrasMatch(end, m, later))
  {
    var start := Migrate(l, m, at);
    var end := TakeAll(start, steps);
    MigratedState(l, m, at);
    EntriesStay(start, steps);
    ClaimedNeverFalls(start, steps);
    ReplayReplies(end, m, later);
    if !Happens(start, steps, Grants) {
      IdleAfterMigration(l, m, at);
      QuietRun(start, steps);
      CoreStillMatches(start, m, end);
      CallsStillMatch(start, m, end);
    } else if CoreMatches(end, m) {
      CoreCounts(start, m, end);
    }
  }

  predicate OnlyCalls(steps: seq<Step>) {
    forall i | 0 <= i < |steps| :: steps[i].Calling?
  }

  lemma {:induction false} CallsKeepPolicy(l: Ledger, steps: seq<Step>)
    requires OnlyCalls(steps)
    ensures var end := TakeAll(l, steps); SameTerms(l.config, end.config) && end.limits == l.limits
    decreases |steps|
  {
    if steps != [] {
      StepKeepsTerms(l, steps[0].call);
      CallsKeepPolicy(Take(l, steps[0]), steps[1..]);
    }
  }

  /** With calls only in between, the policy in force is still the migration's own exactly when it
      keeps every limit its script does not write. */
  lemma PolicyStillMatchesIff(l: Ledger, m: Migration, at: Moment, steps: seq<Step>)
    requires MigrateReply(l, m, at).MigratedNew? && OnlyCalls(steps)
    ensures ConfigMatches(TakeAll(Migrate(l, m, at), steps), m.manifest.next, m.next) <==> UnwrittenKept(m)
  {
    MigratedState(l, m, at);
    CallsKeepPolicy(Migrate(l, m, at), steps);
  }
}
