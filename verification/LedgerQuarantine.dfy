/** The quarantine marker of the spend ledger: an open guard has nothing uncertain behind it,
    as long as only one call may be in flight. */
module LedgerQuarantine {
  import opened Prelude
  import opened LedgerModel
  import opened LedgerAccounting

  predicate IsUncertain(l: Ledger, j: Jti) {
    j in l.auths && l.auths[j].state.Uncertain?
  }

  predicate IsActive(l: Ledger, j: Jti) {
    IsUncertain(l, j) || (j in l.auths && l.auths[j].state.InFlight?)
  }

  /** What the three states and the two markers of the guard mean. */
  predicate MarkersOk(c: Config) {
    match c.status
    case Open => c.haltReason.None? && c.uncertainJti.None?
    case Quarantined => c.haltReason.None? && c.uncertainJti.Some?
    case Halted => c.haltReason.Some?
  }

  /** At most one call is unsettled, and the marker names it exactly when it is uncertain. */
  ghost predicate Exclusive(l: Ledger) {
    && (forall i: Jti, j: Jti :: IsActive(l, i) && IsActive(l, j) ==> i == j)
    && (forall j: Jti :: IsUncertain(l, j) <==> l.config.uncertainJti == Some(j))
    && MarkersOk(l.config)
  }

  ghost predicate Sound(l: Ledger) {
    Books(l) && Exclusive(l) && l.config.maxConcurrency <= 1
  }

  /** An open guard has no uncertain call behind it. */
  ghost predicate OpenIsSettled(l: Ledger) {
    l.config.status.Open? ==> forall j: Jti :: !IsUncertain(l, j)
  }

  lemma IssueKeepsExclusive(l: Ledger, r: IssueRequest, now: nat)
    requires Exclusive(l) && !Overwrites(l, r, now)
    ensures Exclusive(Issue(l, r, now))
  {
    assert forall j: Jti :: IsActive(Issue(l, r, now), j) ==> IsActive(l, j);
  }

  lemma DispatchKeepsExclusive(l: Ledger, r: BeginRequest, now: nat)
    requires Sound(l) && BeginRefusal(l, r, now).None?
    ensures Exclusive(Dispatch(l, r, now))
  {
    var l' := Dispatch(l, r, now);
    assert l.inflight == map[];
    assert forall j: Jti :: !IsActive(l, j);
    assert forall j: Jti :: IsActive(l', j) ==> j == r.jti || IsActive(l, j);
  }

  lemma SameRecordsKeepExclusive(l: Ledger, e: Error)
    requires Exclusive(l)
    ensures Exclusive(l.(config := Halt(l.config, e)))
  {
    assert forall j: Jti :: IsActive(l.(config := Halt(l.config, e)), j) ==> IsActive(l, j);
  }

  lemma ExpiryKeepsExclusive(l: Ledger, j: Jti)
    requires Exclusive(l) && j in l.auths && l.auths[j].state.Issued?
    ensures Exclusive(l.(auths := l.auths[j := l.auths[j].(state := Expired)]))
  {
    var l' := l.(auths := l.auths[j := l.auths[j].(state := Expired)]);
    assert forall k: Jti :: IsActive(l', k) ==> IsActive(l, k);
    assert forall k: Jti :: IsUncertain(l', k) <==> IsUncertain(l, k);
  }

  lemma BeginKeepsExclusive(l: Ledger, r: BeginRequest, now: nat)
    requires Sound(l)
    ensures Exclusive(Begin(l, r, now))
  {
    var refusal := BeginRefusal(l, r, now);
    if refusal.None? {
      DispatchKeepsExclusive(l, r, now);
    } else if BeginHalts(refusal.value) {
      SameRecordsKeepExclusive(l, refusal.value);
    } else if refusal.value.TokenExpired? {
      ExpiryKeepsExclusive(l, r.jti);
    }
  }

  lemma FileKnownActive(l: Ledger, r: KnownRequest)
    requires KnownReply(l, r).KnownNew?
    ensures IsActive(l, r.jti) && !IsActive(SettleKnown(l, r), r.jti)
    ensures forall j: Jti :: IsActive(SettleKnown(l, r), j) ==> IsActive(l, j)
    ensures forall j: Jti | j != r.jti :: j in SettleKnown(l, r).auths <==> j in l.auths
    ensures forall j: Jti | j != r.jti && j in l.auths :: SettleKnown(l, r).auths[j] == l.auths[j]
    ensures r.jti in SettleKnown(l, r).auths && SettleKnown(l, r).auths[r.jti].state.Known?
    ensures SettleKnown(l, r).config ==
            if l.auths[r.jti].state.InFlight? then l.config else ClearMarker(l.config, l.auths[r.jti].jti)
  {
  }

  lemma SettlingKeepsExclusive(l: Ledger, r: KnownRequest)
    requires Sound(l) && KnownReply(l, r).KnownNew?
    ensures Exclusive(SettleKnown(l, r))
  {
    FileKnownActive(l, r);
    var l' := SettleKnown(l, r);
    assert l.auths[r.jti].jti == r.jti;
    assert l.config.uncertainJti.Some? ==> IsUncertain(l, l.config.uncertainJti.value);
    assert forall j: Jti :: IsActive(l', j) ==> IsActive(l, j) && j != r.jti;
  }

  lemma SettleKnownKeepsExclusive(l: Ledger, r: KnownRequest)
    requires Sound(l)
    ensures Exclusive(SettleKnown(l, r))
  {
    var reply := KnownReply(l, r);
    if reply.KnownNew? {
      SettlingKeepsExclusive(l, r);
    } else if reply.Refused? {
      SameRecordsKeepExclusive(l, reply.error);
    }
  }

  lemma GivingUpKeepsExclusive(l: Ledger, r: UncertainRequest, reapAt: Option<nat>)
    requires Sound(l)
    ensures Exclusive(SettleUncertain(l, r, reapAt))
  {
    var l' := SettleUncertain(l, r, reapAt);
    if UncertainReply(l, r, reapAt).UncertainNew? {
      assert IsActive(l, r.jti);
      assert forall j: Jti :: IsActive(l', j) ==> IsActive(l, j);
      assert forall j: Jti :: IsUncertain(l', j) ==> IsActive(l', j);
    } else {
      SameRecordsKeepExclusive(l, MissingInflightLease);
    }
  }

  lemma StepKeepsSound(l: Ledger, c: Call)
    requires Sound(l) && (c.IssueCall? ==> !Overwrites(l, c.issue, c.now))
    ensures Sound(Apply(l, c))
  {
    StepKeepsBooks(l, c);
    StepKeepsTerms(l, c);
    match c
    case IssueCall(r, now) => IssueKeepsExclusive(l, r, now);
    case BeginCall(r, now) => BeginKeepsExclusive(l, r, now);
    case KnownCallOf(r) => SettleKnownKeepsExclusive(l, r);
    case UncertainCall(r) => GivingUpKeepsExclusive(l, r, None);
    case ReapCall(r, now) => GivingUpKeepsExclusive(l, r, Some(now));
  }

  lemma {:induction false} RunsKeepSound(l: Ledger, calls: seq<Call>)
    requires Sound(l) && FreshIds(l, calls)
    ensures Sound(ApplyAll(l, calls)) && OpenIsSettled(ApplyAll(l, calls))
    decreases |calls|
  {
    if calls != [] {
      StepKeepsSound(l, calls[0]);
      RunsKeepSound(Apply(l, calls[0]), calls[1..]);
    }
  }

  lemma InitiallySound(identity: Identity, t: Terms)
    requires t.reservation >= 0 && t.maxConcurrency <= 1
    ensures Sound(Initialised(identity, t))
  {
    assert forall j: Jti :: !IsActive(Initialised(identity, t), j);
    assert forall j: Jti :: !IsUncertain(Initialised(identity, t), j);
  }

  // ----- what the status reader and the reap command expect -----------------------------------------

  lemma {:induction false} NothingThere(m: map<Jti, Auth>, c: Column)
    requires forall j | j in m :: Weigh(c, m[j]) == 0
    ensures Sum(m, c) == 0
  {
    if m != map[] {
      var j :| j in m;
      SumWithout(m, j, c);
      NothingThere(m - {j}, c);
    }
  }

  lemma SomethingThere(l: Ledger, j: Jti, c: Column)
    requires Balanced(l) && j in l.auths && Weigh(c, l.auths[j]) == 1 && !c.Actual? && !c.Upper?
    ensures Stored(l, c) >= 1
  {
    SumWithout(l.auths, j, c);
    SumsNonNegative(l.auths - {j}, c);
  }

  /** The consistency check of the status reader, field by field. */
  predicate StatusConsistent(l: Ledger, identity: Identity, t: Terms) {
    && l.config.status.Open? && l.config.identity == identity && TermsMatch(l, t)
    && Laws(l) && l.counts.AtMost(t.limits)
    && l.totals.claimed <= t.globalLimit && l.totals.committed <= t.ceiling
    && l.config.haltReason.None? && l.config.uncertainJti.None?
    && l.totals.pending == 0 && l.totals.uncertain == 0
  }

  /** For a guard that only its scripts have touched, all those numbers come down to two
      questions: is it open, and is nothing in flight? */
  lemma StatusConsistentIff(l: Ledger, t: Terms)
    requires Sound(l) && TermsMatch(l, t) && l.counts.AtMost(t.limits) && t.globalLimit >= 0 && t.ceiling >= 0
    ensures StatusConsistent(l, l.config.identity, t) <==>
              l.config.status.Open? && forall j | j in l.auths :: !l.auths[j].state.InFlight?
  {
    BooksGiveLaws(l);
    if l.config.status.Open? {
      forall j | j in l.auths ensures Weigh(Unsure, l.auths[j]) == 0 {
        assert !IsUncertain(l, j);
      }
      NothingThere(l.auths, Unsure);
      assert Stored(l, Unsure) == 0;
    }
    if forall j | j in l.auths :: !l.auths[j].state.InFlight? {
      NothingThere(l.auths, Pending);
      assert Stored(l, Pending) == 0;
    } else {
      var j :| j in l.auths && l.auths[j].state.InFlight?;
      SomethingThere(l, j, Pending);
    }
  }

  /** After a reap that was carried out or recognised, the guard is quarantined with nothing in
      flight and something uncertain, as the reap command checks. */
  lemma ReapReceiptMatches(l: Ledger, r: UncertainRequest, now: nat)
    requires Sound(l)
    requires UncertainReply(l, r, Some(now)).UncertainNew? || UncertainReply(l, r, Some(now)).UncertainExisting?
    ensures var l' := SettleUncertain(l, r, Some(now));
            l'.config.status.Quarantined? && l'.totals.pending == 0 && l'.totals.uncertain >= 1 && |l'.inflight| == 0
  {
    var l' := SettleUncertain(l, r, Some(now));
    StepKeepsSound(l, ReapCall(r, now));
    assert IsUncertain(l', r.jti);
    SomethingThere(l', r.jti, Unsure);
    forall j | j in l'.auths ensures Weigh(Pending, l'.auths[j]) == 0 {
      assert IsActive(l', r.jti) && (l'.auths[j].state.InFlight? ==> IsActive(l', j));
    }
    NothingThere(l'.auths, Pending);
    assert Stored(l', Pending) == 0;
    BooksGiveLaws(l');
  }

  // ----- with two calls in flight the marker is not enough ------------------------------------------

  /** Room for two calibration calls at once, before the deadline. */
  predicate RoomForTwo(t: Terms) {
    t.globalLimit >= 2 && t.limits.calibration >= 2 && t.reservation >= 0 && t.ceiling >= 2 * t.reservation
    && t.limits.AreNonNegative() && t.closesAtMs > 0
  }

  function IssueOf(identity: Identity, t: Terms, j: Jti): Call {
    IssueCall(IssueRequest(identity, j, 0, Calibration, j, 0, t.limits.calibration, NotRequired), 0)
  }

  function BeginOf(identity: Identity, t: Terms, j: Jti): Call {
    BeginCall(BeginRequest(identity, j, 0, Calibration, t, NotRequired), 0)
  }

  function GiveUpOf(identity: Identity, j: Jti): Call {
    UncertainCall(UncertainRequest(identity, j, 0))
  }

  function Fresh(identity: Identity, t: Terms, j: Jti): Auth {
    Auth(j, 0, Calibration, identity, 0, TOKEN_TTL, Issued)
  }

  lemma TwoIssued(identity: Identity, t: Terms, l: Ledger) returns (l2: Ledger)
    requires RoomForTwo(t) && l == Initialised(identity, t)
    ensures l2 == Apply(Apply(l, IssueOf(identity, t, 1)), IssueOf(identity, t, 2))
    ensures 2 !in Apply(l, IssueOf(identity, t, 1)).auths
    ensures OnlyBegun(identity, t, l2, 0)
    ensures 1 in l2.auths && 2 in l2.auths
    ensures l2.auths[1] == Fresh(identity, t, 1) && l2.auths[2] == Fresh(identity, t, 2)
    ensures l2.inflight == map[]
  {
    var l1 := Apply(l, IssueOf(identity, t, 1));
    assert l1.auths == l.auths[1 := Fresh(identity, t, 1)];
    l2 := Apply(l1, IssueOf(identity, t, 2));
  }

  function Reserved(t: Terms, n: nat): int {
    if n == 0 then 0 else if n == 1 then t.reservation else 2 * t.reservation
  }

  predicate AllLeased(m: map<Jti, int>) {
    forall j: Jti | j in m :: m[j] == LEASE
  }

  /** `n` calibration calls are in flight, nothing else ever happened. */
  predicate OnlyBegun(identity: Identity, t: Terms, l: Ledger, n: nat) {
    && l.config == InitialConfig(identity, t) && l.limits == t.limits && l.providers == map[]
    && l.totals.claimed == l.totals.pending == l.totals.sequence == l.counts.calibration == n
    && l.totals.committed == Reserved(t, n) && l.totals.known == l.totals.uncertain == 0
    && l.totals.knownActual == l.totals.uncertainUpper == 0
    && l.counts.baseline == l.counts.repair == l.counts.revised == l.counts.judge == 0
    && |l.inflight| == n && AllLeased(l.inflight)
  }

  function Flying(identity: Identity, t: Terms, j: Jti, n: nat): Auth {
    Fresh(identity, t, j).(state := InFlight(t.reservation, n, LEASE))
  }

  /** With sound counters and at most one call so far there is room for this one. */
  lemma Admitted(identity: Identity, t: Terms, l: Ledger, j: Jti)
    requires RoomForTwo(t) && l.config == InitialConfig(identity, t) && l.limits == t.limits
    requires j in l.auths && l.auths[j] == Fresh(identity, t, j)
    requires AllLeased(l.inflight) && |l.inflight| < t.maxConcurrency
    requires NonNegative(l.totals, l.counts) && Laws(l) && l.counts.AtMost(t.limits)
    requires l.totals.claimed <= 1 && l.totals.committed <= t.reservation && l.counts.calibration <= 1
    ensures Apply(l, BeginOf(identity, t, j)) == Dispatch(l, BeginOf(identity, t, j).begin, 0)
  {
    assert BeginRefusal(l, BeginOf(identity, t, j).begin, 0).None?;
  }

  lemma DispatchedOne(identity: Identity, t: Terms, l: Ledger, j: Jti, l': Ledger)
    requires j in l.auths && l' == Dispatch(l, BeginOf(identity, t, j).begin, 0)
    ensures l'.config == l.config && l'.limits == l.limits && l'.providers == l.providers
    ensures l'.subjects == l.subjects && l'.rates == l.rates
    ensures l'.totals == l.totals.(sequence := l.totals.sequence + 1, claimed := l.totals.claimed + 1,
                                   committed := l.totals.committed + l.config.reservation,
                                   pending := l.totals.pending + 1)
    ensures l'.counts == l.counts.(calibration := l.counts.calibration + 1)
    ensures l'.inflight == l.inflight[j := LEASE]
    ensures l'.auths == l.auths[j := l.auths[j].(state := InFlight(l.config.reservation, l.totals.sequence + 1, LEASE))]
  {
  }

  lemma ReservedIsProduct(t: Terms, n: nat)
    requires n <= 2
    ensures Reserved(t, n) == n * t.reservation
  {
  }

  lemma OnlyBegunIsLawful(identity: Identity, t: Terms, l: Ledger, n: nat)
    requires RoomForTwo(t) && n <= 1 && OnlyBegun(identity, t, l, n)
    ensures NonNegative(l.totals, l.counts) && Laws(l) && l.counts.AtMost(t.limits)
    ensures l.totals.claimed <= 1 && l.totals.committed <= t.reservation && l.counts.calibration <= 1
  {
    ReservedIsProduct(t, n);
  }

  lemma OneMoreLease(m: map<Jti, int>, j: Jti)
    requires j !in m
    ensures |m[j := LEASE]| == |m| + 1 && (AllLeased(m) ==> AllLeased(m[j := LEASE]))
  {
    assert m[j := LEASE].Keys == m.Keys + {j};
  }

  lemma OneMoreDispatched(identity: Identity, t: Terms, l: Ledger, j: Jti, n: nat) returns (l': Ledger)
    requires n <= 1 && OnlyBegun(identity, t, l, n)
    requires j in l.auths && l.auths[j] == Fresh(identity, t, j) && j !in l.inflight
    ensures l' == Dispatch(l, BeginOf(identity, t, j).begin, 0) && OnlyBegun(identity, t, l', n + 1)
    ensures l'.auths == l.auths[j := Flying(identity, t, j, n + 1)] && l'.inflight == l.inflight[j := LEASE]
    ensures l'.subjects == l.subjects && l'.rates == l.rates
  {
    l' := Dispatch(l, BeginOf(identity, t, j).begin, 0);
    DispatchedOne(identity, t, l, j, l');
    NextOnlyBegun(identity, t, l, j, n, l');
  }

  lemma NextOnlyBegun(identity: Identity, t: Terms, l: Ledger, j: Jti, n: nat, l': Ledger)
    requires n <= 1 && OnlyBegun(identity, t, l, n) && j !in l.inflight
    requires l'.config == l.config && l'.limits == l.limits && l'.providers == l.providers
    requires l'.totals == l.totals.(sequence := l.totals.sequence + 1, claimed := l.totals.claimed + 1,
                                    committed := l.totals.committed + l.config.reservation,
                                    pending := l.totals.pending + 1)
    requires l'.counts == l.counts.(calibration := l.counts.calibration + 1)
    requires l'.inflight == l.inflight[j := LEASE]
    ensures OnlyBegun(identity, t, l', n + 1)
  {
    OneMoreLease(l.inflight, j);
  }

  lemma BothLostOneSettled(identity: Identity, t: Terms, l: Ledger) returns (l3: Ledger)
    requires RoomForTwo(t) && OnlyBegun(identity, t, l, 2)
    requires 1 in l.inflight && 2 in l.inflight && 1 in l.auths && 2 in l.auths
    requires l.auths[1] == Flying(identity, t, 1, 1) && l.auths[2] == Flying(identity, t, 2, 2)
    ensures l3 == Apply(Apply(Apply(l, GiveUpOf(identity, 1)), GiveUpOf(identity, 2)),
                        KnownCallOf(KnownRequest(identity, 2, 0, 0, 0, 0)))
    ensures l3.config.status.Open? && IsUncertain(l3, 1)
  {
    var l1 := Apply(l, GiveUpOf(identity, 1));
    assert l1.config == l.config.(status := Quarantined, uncertainJti := Some(1));
    var l2 := Apply(l1, GiveUpOf(identity, 2));
    assert l2.config == l.config.(status := Quarantined, uncertainJti := Some(2));
    l3 := Apply(l2, KnownCallOf(KnownRequest(identity, 2, 0, 0, 0, 0)));
  }

  /** Runs these calls with fresh ids and ends there. */
  predicate Leads(l: Ledger, calls: seq<Call>, end: Ledger) {
    FreshIds(l, calls) && ApplyAll(l, calls) == end
  }

  lemma LeadsOn(l: Ledger, c: Call, next: Ledger, rest: seq<Call>, end: Ledger)
    requires next == Apply(l, c) && Leads(next, rest, end)
    requires c.IssueCall? ==> !Overwrites(l, c.issue, c.now)
    ensures Leads(l, [c] + rest, end)
  {
    assert ([c] + rest)[1..] == rest;
  }

  /** Two calls are given up, then only the second is settled: the marker kept the second only,
      so the guard reopens over the first. */
  lemma TwoLostReopens(identity: Identity, t: Terms, start: Ledger) returns (calls: seq<Call>, end: Ledger)
    requires RoomForTwo(t) && t.maxConcurrency >= 2 && start == Initialised(identity, t)
    ensures Leads(start, calls, end) && end.config.status.Open? && IsUncertain(end, 1)
  {
    var l2 := TwoIssued(identity, t, start);
    OnlyBegunIsLawful(identity, t, l2, 0);
    Admitted(identity, t, l2, 1);
    var l3 := OneMoreDispatched(identity, t, l2, 1, 0);
    OnlyBegunIsLawful(identity, t, l3, 1);
    Admitted(identity, t, l3, 2);
    var l4 := OneMoreDispatched(identity, t, l3, 2, 1);
    end := BothLostOneSettled(identity, t, l4);
    var issue1, issue2 := IssueOf(identity, t, 1), IssueOf(identity, t, 2);
    var l1 := Apply(start, issue1);
    var l5 := Apply(l4, GiveUpOf(identity, 1));
    var l6 := Apply(l5, GiveUpOf(identity, 2));
    calls := FiveLead(l2, l3, l4, l5, l6, end, BeginOf(identity, t, 1), BeginOf(identity, t, 2),
                      GiveUpOf(identity, 1), GiveUpOf(identity, 2), KnownCallOf(KnownRequest(identity, 2, 0, 0, 0, 0)));
    LeadsOn(l1, issue2, l2, calls, end);
    LeadsOn(start, issue1, l1, [issue2] + calls, end);
    calls := [issue1] + ([issue2] + calls);
  }

  lemma FiveLead(l2: Ledger, l3: Ledger, l4: Ledger, l5: Ledger, l6: Ledger, end: Ledger,
                 c2: Call, c3: Call, c4: Call, c5: Call, c6: Call) returns (calls: seq<Call>)
    requires l3 == Apply(l2, c2) && l4 == Apply(l3, c3) && l5 == Apply(l4, c4) && l6 == Apply(l5, c5)
    requires end == Apply(l6, c6)
    requires !c2.IssueCall? && !c3.IssueCall? && !c4.IssueCall? && !c5.IssueCall? && !c6.IssueCall?
    ensures Leads(l2, calls, end)
  {
    LeadsOn(l6, c6, end, [], end);
    LeadsOn(l5, c5, l6, [c6] + [], end);
    LeadsOn(l4, c4, l5, [c5] + ([c6] + []), end);
    LeadsOn(l3, c3, l4, [c4] + ([c5] + ([c6] + [])), end);
    LeadsOn(l2, c2, l3, [c3] + ([c4] + ([c5] + ([c6] + []))), end);
    calls := [c2] + ([c3] + ([c4] + ([c5] + ([c6] + []))));
  }

  /** Every run with fresh ids from here ends with nothing uncertain behind an open guard. */
  ghost predicate AlwaysSettled(start: Ledger) {
    forall calls, end | Leads(start, calls, end) :: OpenIsSettled(end)
  }

  lemma SoundIsAlwaysSettled(start: Ledger)
    requires Sound(start)
    ensures AlwaysSettled(start)
  {
    forall calls, end | Leads(start, calls, end) ensures OpenIsSettled(end) {
      RunsKeepSound(start, calls);
    }
  }

  /** "Open means nothing uncertain" is a property of every run exactly when the policy allows
      no second call in flight. */
  lemma OpenIsSettledIff(identity: Identity, t: Terms)
    requires RoomForTwo(t)
    ensures AlwaysSettled(Initialised(identity, t)) <==> t.maxConcurrency <= 1
  {
    if t.maxConcurrency <= 1 {
      InitiallySound(identity, t);
      SoundIsAlwaysSettled(Initialised(identity, t));
    } else {
      var calls, end := TwoLostReopens(identity, t, Initialised(identity, t));
      assert !OpenIsSettled(end);
    }
  }

  // ----- an id used twice -----------------------------------------------------------------------

  function Reissue(identity: Identity, t: Terms): IssueRequest {
    IssueRequest(identity, 1, 0, Calibration, 2, 1, t.limits.calibration, NotRequired)
  }

  lemma OneIssued(identity: Identity, t: Terms, l: Ledger) returns (l1: Ledger)
    requires RoomForTwo(t) && l == Initialised(identity, t)
    ensures l1 == Apply(l, IssueOf(identity, t, 1)) && OnlyBegun(identity, t, l1, 0) && Books(l1)
    ensures 1 in l1.auths && l1.auths[1] == Fresh(identity, t, 1) && 1 !in l1.inflight
    ensures 2 !in l1.subjects && RateKey(Calibration, 1, 0) !in l1.rates
  {
    l1 := Apply(l, IssueOf(identity, t, 1));
    InitialBooks(identity, t);
    StepKeepsBooks(l, IssueOf(identity, t, 1));
    assert l1.auths == l.auths[1 := Fresh(identity, t, 1)];
  }

  /** A concrete run that reuses the id of a call in flight for another subject: the record of
      the call is gone, while it is still counted and leased. */
  lemma ReusedIdBreaksBooks(identity: Identity, t: Terms, start: Ledger) returns (l1: Ledger, l2: Ledger, l3: Ledger)
    requires RoomForTwo(t) && t.maxConcurrency >= 1 && start == Initialised(identity, t)
    ensures l1 == Apply(start, IssueOf(identity, t, 1)) && l2 == Apply(l1, BeginOf(identity, t, 1))
    ensures l3 == Issue(l2, Reissue(identity, t), 0) && Books(l2) && !Books(l3)
  {
    l1 := OneIssued(identity, t, start);
    OnlyBegunIsLawful(identity, t, l1, 0);
    Admitted(identity, t, l1, 1);
    l2 := OneMoreDispatched(identity, t, l1, 1, 0);
    BeginKeepsBooks(l1, BeginOf(identity, t, 1).begin, 0);
    l3 := Issue(l2, Reissue(identity, t), 0);
    ReissueOverwrites(identity, t, l2);
    IssueKeepsBooksIff(l2, Reissue(identity, t), 0);
  }

  lemma ReissueOverwrites(identity: Identity, t: Terms, l: Ledger)
    requires RoomForTwo(t) && l.config == InitialConfig(identity, t) && 2 !in l.subjects
    requires RateKey(Calibration, 1, 0) !in l.rates && 1 in l.auths && l.auths[1].state.InFlight?
    ensures Overwrites(l, Reissue(identity, t), 0)
  {
    assert RateKeyOf(Reissue(identity, t), 0) == RateKey(Calibration, 1, 0);
  }
}
