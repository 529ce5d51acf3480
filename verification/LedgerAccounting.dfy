/** The stored counters against an independent count: what the token records themselves add up
    to. Every script keeps the two equal, and all the published laws follow. */
module LedgerAccounting {
  import opened Prelude
  import opened LedgerModel

  /** A column of the books: one stored counter each. */
  datatype Column = Pending | Settled | Unsure | Actual | Upper | Calls(purpose: Purpose)

  function Stored(l: Ledger, c: Column): int {
    match c
    case Pending => l.totals.pending
    case Settled => l.totals.known
    case Unsure => l.totals.uncertain
    case Actual => l.totals.knownActual
    case Upper => l.totals.uncertainUpper
    case Calls(p) => l.counts.Of(p)
  }

  predicate Dispatched(a: Auth) {
    a.state.InFlight? || a.state.Known? || a.state.Uncertain?
  }

  /** What one token record stands for in a column. */
  function Weigh(c: Column, a: Auth): int {
    match c
    case Pending => if a.state.InFlight? then 1 else 0
    case Settled => if a.state.Known? then 1 else 0
    case Unsure => if a.state.Uncertain? then 1 else 0
    case Actual => if a.state.Known? then a.state.actual else 0
    case Upper => if a.state.Uncertain? then a.state.reservation else 0
    case Calls(p) => if Dispatched(a) && a.purpose == p then 1 else 0
  }

  function By(c: Column): Auth -> int {
    a => Weigh(c, a)
  }

  /** The total of a column, by its first-order weight. */
  ghost function Sum(m: map<Jti, Auth>, c: Column): int {
    Total(m, By(c))
  }

  /** A record filed under its own id, reserving exactly the policy's amount and costing no
      more than that. */
  predicate RecordOk(j: Jti, a: Auth, reservation: int) {
    && a.jti == j
    && (Dispatched(a) ==> a.state.reservation == reservation)
    && (a.state.Known? ==> 0 <= a.state.actual <= reservation)
  }

  ghost predicate RecordsOk(l: Ledger) {
    forall j | j in l.auths :: RecordOk(j, l.auths[j], l.config.reservation)
  }

  /** Every counter is what the records add up to. */
  ghost predicate Balanced(l: Ledger) {
    forall c: Column :: Stored(l, c) == Sum(l.auths, c)
  }

  /** The lease set is the set of records in flight. */
  ghost predicate LeasesOk(l: Ledger) {
    && (forall j: Jti :: j in l.inflight <==> j in l.auths && l.auths[j].state.InFlight?)
    && (forall j | j in l.inflight :: l.inflight[j] == l.auths[j].state.lease)
  }

  predicate CommitmentOk(l: Ledger) {
    && l.config.reservation >= 0
    && l.totals.claimed == l.totals.sequence == l.counts.Sum()
    && l.totals.committed == l.totals.claimed * l.config.reservation
    && (l.totals.claimed == 0 || l.totals.claimed <= l.config.globalLimit)
    && (l.totals.committed == 0 || l.totals.committed <= l.config.ceiling)
  }

  /** The books balance, and nothing has been promised beyond the limits. */
  ghost predicate Books(l: Ledger) {
    RecordsOk(l) && Balanced(l) && LeasesOk(l) && CommitmentOk(l)
  }

  // ----- the laws follow -----------------------------------------------------------------------

  function InFlightOf(m: map<Jti, Auth>): set<Jti> {
    set j | j in m && m[j].state.InFlight?
  }

  lemma SumWithout(m: map<Jti, Auth>, j: Jti, c: Column)
    requires j in m
    ensures Sum(m, c) == Weigh(c, m[j]) + Sum(m - {j}, c)
  {
    TotalWithout(m, j, By(c));
  }

  ghost function CallsIn(m: map<Jti, Auth>): int {
    Sum(m, Calls(Calibration)) + Sum(m, Calls(Baseline)) + Sum(m, Calls(Repair)) + Sum(m, Calls(Revised))
    + Sum(m, Calls(Judge))
  }

  lemma CallsWithout(m: map<Jti, Auth>, j: Jti)
    requires j in m
    ensures CallsIn(m) == (if Dispatched(m[j]) then 1 else 0) + CallsIn(m - {j})
  {
    SumWithout(m, j, Calls(Calibration));
    SumWithout(m, j, Calls(Baseline));
    SumWithout(m, j, Calls(Repair));
    SumWithout(m, j, Calls(Revised));
    SumWithout(m, j, Calls(Judge));
  }

  lemma {:induction false} TotalsAddUp(m: map<Jti, Auth>)
    ensures Sum(m, Pending) + Sum(m, Settled) + Sum(m, Unsure) == CallsIn(m)
  {
    if m != map[] {
      var j :| j in m;
      CallsWithout(m, j);
      SumWithout(m, j, Pending);
      SumWithout(m, j, Settled);
      SumWithout(m, j, Unsure);
      TotalsAddUp(m - {j});
    }
  }

  lemma {:induction false} PendingAreInFlight(m: map<Jti, Auth>)
    ensures Sum(m, Pending) == |InFlightOf(m)|
  {
    if m == map[] {
      assert InFlightOf(m) == {};
    } else {
      var j :| j in m;
      SumWithout(m, j, Pending);
      PendingAreInFlight(m - {j});
      assert InFlightOf(m) == InFlightOf(m - {j}) + (if m[j].state.InFlight? then {j} else {});
    }
  }

  lemma {:induction false} CostsStayInReservation(m: map<Jti, Auth>, r: int)
    requires r >= 0 && forall j | j in m :: RecordOk(j, m[j], r)
    ensures 0 <= Sum(m, Actual) <= Sum(m, Settled) * r
    ensures Sum(m, Upper) == Sum(m, Unsure) * r
  {
    if m != map[] {
      var j :| j in m;
      SumWithout(m, j, Actual);
      SumWithout(m, j, Settled);
      SumWithout(m, j, Upper);
      SumWithout(m, j, Unsure);
      CostsStayInReservation(m - {j}, r);
      OneMore(Sum(m - {j}, Settled), r);
      OneMore(Sum(m - {j}, Unsure), r);
    }
  }

  lemma {:induction false} SumsNonNegative(m: map<Jti, Auth>, c: Column)
    requires !c.Actual? && !c.Upper?
    ensures Sum(m, c) >= 0
  {
    if m != map[] {
      var j :| j in m;
      SumWithout(m, j, c);
      SumsNonNegative(m - {j}, c);
    }
  }

  lemma StoredNonNegative(l: Ledger, c: Column)
    requires Balanced(l) && !c.Actual? && !c.Upper?
    ensures Stored(l, c) >= 0
  {
    SumsNonNegative(l.auths, c);
  }

  lemma CallCountsNonNegative(l: Ledger)
    requires Balanced(l)
    ensures l.counts.AreNonNegative()
  {
    StoredNonNegative(l, Calls(Calibration));
    StoredNonNegative(l, Calls(Baseline));
    StoredNonNegative(l, Calls(Repair));
    StoredNonNegative(l, Calls(Revised));
    StoredNonNegative(l, Calls(Judge));
  }

  lemma CallsAddUp(l: Ledger)
    requires Balanced(l)
    ensures l.counts.Sum() == CallsIn(l.auths)
  {
    assert Stored(l, Calls(Calibration)) == Sum(l.auths, Calls(Calibration));
    assert Stored(l, Calls(Baseline)) == Sum(l.auths, Calls(Baseline));
    assert Stored(l, Calls(Repair)) == Sum(l.auths, Calls(Repair));
    assert Stored(l, Calls(Revised)) == Sum(l.auths, Calls(Revised));
    assert Stored(l, Calls(Judge)) == Sum(l.auths, Calls(Judge));
  }

  lemma StatesAddUp(l: Ledger)
    requires Balanced(l)
    ensures l.totals.pending >= 0 && l.totals.known >= 0 && l.totals.uncertain >= 0
    ensures l.totals.pending + l.totals.known + l.totals.uncertain == l.counts.Sum()
    ensures l.totals.pending == |InFlightOf(l.auths)|
  {
    StoredNonNegative(l, Pending);
    StoredNonNegative(l, Settled);
    StoredNonNegative(l, Unsure);
    TotalsAddUp(l.auths);
    PendingAreInFlight(l.auths);
    CallsAddUp(l);
  }

  lemma CostsAddUp(l: Ledger)
    requires Balanced(l) && RecordsOk(l) && l.config.reservation >= 0
    ensures 0 <= l.totals.knownActual <= l.totals.known * l.config.reservation
    ensures l.totals.uncertainUpper == l.totals.uncertain * l.config.reservation
  {
    CostsStayInReservation(l.auths, l.config.reservation);
    assert Stored(l, Actual) == Sum(l.auths, Actual) && Stored(l, Settled) == Sum(l.auths, Settled);
    assert Stored(l, Upper) == Sum(l.auths, Upper) && Stored(l, Unsure) == Sum(l.auths, Unsure);
  }

  /** Balanced books satisfy every law the status reader reports and begin checks. */
  lemma BooksGiveLaws(l: Ledger)
    requires Books(l)
    ensures Laws(l) && NonNegative(l.totals, l.counts)
  {
    CallCountsNonNegative(l);
    StatesAddUp(l);
    CostsAddUp(l);
    assert l.inflight.Keys == InFlightOf(l.auths);
    NonNegativeProduct(l.totals.uncertain, l.config.reservation);
    NonNegativeProduct(l.totals.claimed, l.config.reservation);
  }

  // ----- every script keeps the books ----------------------------------------------------------

  /** What one record used to stand for in a column. */
  function Was(l: Ledger, j: Jti, c: Column): int {
    if j in l.auths then Weigh(c, l.auths[j]) else 0
  }

  /** If the counters move by what one filed record changed, the books still balance, and only
      then. */
  lemma FilingKeepsBalance(l: Ledger, l': Ledger, j: Jti, a: Auth)
    requires Balanced(l) && l'.auths == l.auths[j := a]
    ensures Balanced(l') <==> forall c: Column :: Stored(l', c) == Stored(l, c) + Weigh(c, a) - Was(l, j, c)
  {
    forall c: Column
      ensures Sum(l'.auths, c) == Stored(l, c) + Weigh(c, a) - Was(l, j, c)
    {
      TotalFiled(l.auths, j, a, By(c));
    }
  }

  /** A new authorisation is being filed over a record that already stands for a call. */
  predicate Overwrites(l: Ledger, r: IssueRequest, now: nat) {
    IssueReply(l, r, now).IssuedNew? && r.jti in l.auths && Dispatched(l.auths[r.jti])
  }

  /** Issuing keeps the books exactly when it does not reuse the id of a dispatched call: the
      script never looks at the record it writes over. */
  lemma IssueKeepsBooksIff(l: Ledger, r: IssueRequest, now: nat)
    requires Books(l)
    ensures Books(Issue(l, r, now)) <==> !Overwrites(l, r, now)
  {
    if IssueReply(l, r, now).IssuedNew? {
      var l' := Issue(l, r, now);
      FilingKeepsBalance(l, l', r.jti, NewAuth(r, now));
      if Overwrites(l, r, now) {
        var c := Calls(l.auths[r.jti].purpose);
        assert Stored(l', c) == Stored(l, c) && Was(l, r.jti, c) == 1;
      } else {
        assert forall c: Column :: Was(l, r.jti, c) == 0;
      }
    }
  }

  /** What a dispatch takes up: an issued token, and room for one more call. */
  predicate HasRoom(l: Ledger, r: BeginRequest) {
    && r.jti in l.auths && l.auths[r.jti].state.Issued? && l.auths[r.jti].jti == r.jti
    && l.totals.claimed < l.config.globalLimit && l.totals.committed + l.config.reservation <= l.config.ceiling
    && |l.inflight| < l.config.maxConcurrency
  }

  lemma GrantHasRoom(l: Ledger, r: BeginRequest, now: nat)
    requires BeginRefusal(l, r, now).None?
    ensures HasRoom(l, r)
  {
  }

  lemma DispatchKeepsRecords(l: Ledger, r: BeginRequest, now: nat)
    requires RecordsOk(l) && LeasesOk(l) && HasRoom(l, r)
    ensures RecordsOk(Dispatch(l, r, now)) && LeasesOk(Dispatch(l, r, now))
  {
  }

  lemma DispatchKeepsCommitment(l: Ledger, r: BeginRequest, now: nat)
    requires CommitmentOk(l) && HasRoom(l, r)
    ensures CommitmentOk(Dispatch(l, r, now))
  {
    OneMore(l.totals.claimed, l.config.reservation);
  }

  lemma DispatchKeepsBalance(l: Ledger, r: BeginRequest, now: nat)
    requires Balanced(l) && r.jti in l.auths && l.auths[r.jti].state.Issued? && l.auths[r.jti].purpose == r.purpose
    ensures Balanced(Dispatch(l, r, now))
  {
    var l' := Dispatch(l, r, now);
    FilingKeepsBalance(l, l', r.jti, l'.auths[r.jti]);
  }

  lemma SameBalance(l: Ledger, l': Ledger)
    requires Balanced(l) && l'.auths == l.auths && l'.totals == l.totals && l'.counts == l.counts
    ensures Balanced(l')
  {
    assert forall c: Column :: Stored(l', c) == Stored(l, c);
  }

  lemma ExpiryKeepsBooks(l: Ledger, j: Jti)
    requires Books(l) && j in l.auths && l.auths[j].state.Issued?
    ensures Books(l.(auths := l.auths[j := l.auths[j].(state := Expired)]))
  {
    var l' := l.(auths := l.auths[j := l.auths[j].(state := Expired)]);
    FilingKeepsBalance(l, l', j, l'.auths[j]);
  }

  lemma HaltKeepsBooks(l: Ledger, e: Error)
    requires Books(l)
    ensures Books(l.(config := Halt(l.config, e)))
  {
    SameBalance(l, l.(config := Halt(l.config, e)));
  }

  lemma BeginKeepsBooks(l: Ledger, r: BeginRequest, now: nat)
    requires Books(l)
    ensures Books(Begin(l, r, now))
  {
    var refusal := BeginRefusal(l, r, now);
    if refusal.None? {
      GrantHasRoom(l, r, now);
      DispatchKeepsRecords(l, r, now);
      DispatchKeepsCommitment(l, r, now);
      DispatchKeepsBalance(l, r, now);
    } else if BeginHalts(refusal.value) {
      HaltKeepsBooks(l, refusal.value);
    } else if refusal.value.TokenExpired? {
      ExpiryKeepsBooks(l, r.jti);
    }
  }

  lemma FlightSettledKeepsBooks(l: Ledger, r: KnownRequest)
    requires Books(l) && r.jti in l.auths && l.auths[r.jti].state.InFlight?
    requires 0 <= r.actual <= l.auths[r.jti].state.reservation
    ensures Books(LeaveFlight(FileKnown(l, r), l.auths[r.jti].jti))
  {
    var l' := LeaveFlight(FileKnown(l, r), l.auths[r.jti].jti);
    FilingKeepsBalance(l, l', r.jti, l'.auths[r.jti]);
  }

  lemma UncertainSettledKeepsBooks(l: Ledger, r: KnownRequest)
    requires Books(l) && r.jti in l.auths && l.auths[r.jti].state.Uncertain?
    requires 0 <= r.actual <= l.auths[r.jti].state.reservation
    ensures Books(LeaveUncertain(FileKnown(l, r), l.auths[r.jti].jti, l.auths[r.jti].state.reservation))
  {
    var l' := LeaveUncertain(FileKnown(l, r), l.auths[r.jti].jti, l.auths[r.jti].state.reservation);
    FilingKeepsBalance(l, l', r.jti, l'.auths[r.jti]);
  }

  lemma SettleKnownKeepsBooks(l: Ledger, r: KnownRequest)
    requires Books(l)
    ensures Books(SettleKnown(l, r))
  {
    var reply := KnownReply(l, r);
    if reply.Refused? && KnownHalts(reply.error) {
      HaltKeepsBooks(l, reply.error);
    } else if reply.KnownNew? {
      if l.auths[r.jti].state.InFlight? {
        FlightSettledKeepsBooks(l, r);
      } else {
        UncertainSettledKeepsBooks(l, r);
      }
    }
  }

  lemma GivingUpKeepsBooks(l: Ledger, r: UncertainRequest)
    requires Books(l) && r.jti in l.auths && l.auths[r.jti].state.InFlight?
    ensures Books(GiveUp(l, r))
  {
    var l' := GiveUp(l, r);
    FilingKeepsBalance(l, l', r.jti, l'.auths[r.jti]);
  }

  lemma SettleUncertainKeepsBooks(l: Ledger, r: UncertainRequest, reapAt: Option<nat>)
    requires Books(l)
    ensures Books(SettleUncertain(l, r, reapAt))
  {
    var reply := UncertainReply(l, r, reapAt);
    if reply.UncertainNew? {
      GivingUpKeepsBooks(l, r);
    } else if reply.Refused? {
      HaltKeepsBooks(l, reply.error);
    }
  }

  // ----- whole runs ----------------------------------------------------------------------------

  /** A caller that mints a fresh id for every authorisation never overwrites a call. */
  predicate FreshIds(l: Ledger, calls: seq<Call>)
    decreases |calls|
  {
    calls != [] ==>
      && (calls[0].IssueCall? ==> !Overwrites(l, calls[0].issue, calls[0].now))
      && FreshIds(Apply(l, calls[0]), calls[1..])
  }

  function ApplyAll(l: Ledger, calls: seq<Call>): Ledger
    decreases |calls|
  {
    if calls == [] then l else ApplyAll(Apply(l, calls[0]), calls[1..])
  }

  lemma InitialBooks(identity: Identity, t: Terms)
    requires t.reservation >= 0
    ensures Books(Initialised(identity, t))
  {
  }

  lemma StepKeepsBooks(l: Ledger, c: Call)
    requires Books(l) && (c.IssueCall? ==> !Overwrites(l, c.issue, c.now))
    ensures Books(Apply(l, c))
  {
    match c
    case IssueCall(r, now) => IssueKeepsBooksIff(l, r, now);
    case BeginCall(r, now) => BeginKeepsBooks(l, r, now);
    case KnownCallOf(r) => SettleKnownKeepsBooks(l, r);
    case UncertainCall(r) => SettleUncertainKeepsBooks(l, r, None);
    case ReapCall(r, now) => SettleUncertainKeepsBooks(l, r, Some(now));
  }

  /** Every run of issue, begin, settle and reap from balanced books keeps all the laws, and so
      the bound on spending. */
  lemma {:induction false} RunsKeepBooks(l: Ledger, calls: seq<Call>)
    requires Books(l) && FreshIds(l, calls)
    ensures Books(ApplyAll(l, calls)) && Laws(ApplyAll(l, calls))
    decreases |calls|
  {
    if calls == [] {
      BooksGiveLaws(l);
    } else {
      StepKeepsBooks(l, calls[0]);
      RunsKeepBooks(Apply(l, calls[0]), calls[1..]);
    }
  }

  // ----- what begin really decides ---------------------------------------------------------------

  /** The number of records that stand for a call of this purpose. */
  ghost function CallsOf(l: Ledger, p: Purpose): int {
    Sum(l.auths, Calls(p))
  }

  /** With balanced books and a count within its limits no counter can have drifted: begin never
      halts the guard for its own counters, and admits a call on exactly these grounds. */
  lemma BeginAdmitsIff(l: Ledger, r: BeginRequest, now: nat)
    requires Books(l) && l.counts.AtMost(l.limits)
    requires l.config.ceiling == l.config.globalLimit * l.config.reservation && l.config.globalLimit >= 0
    ensures BeginRefusal(l, r, now) !in {Some(MalformedCounter), Some(CounterDrift), Some(SpendLimit)}
    ensures BeginReply(l, r, now).Granted? <==>
              && l.config.status.Open? && l.config.haltReason.None? && l.config.uncertainJti.None?
              && l.config.identity == r.identity && TermsMatch(l, r.terms)
              && r.jti in l.auths && l.auths[r.jti].state.Issued? && l.auths[r.jti].claims == r.claims
              && l.auths[r.jti].purpose == r.purpose && now < l.auths[r.jti].expiresAt
              && now * 1000 < l.config.closesAtMs && NotAdmitted(r.admission).None?
              && |InFlightOf(l.auths)| < l.config.maxConcurrency
              && (forall j | j in l.auths && l.auths[j].state.InFlight? :: now < l.auths[j].state.lease)
              && l.totals.claimed < l.config.globalLimit
              && CallsOf(l, r.purpose) < l.limits.Of(r.purpose)
  {
    BooksGiveLaws(l);
    assert l.inflight.Keys == InFlightOf(l.auths);
    assert Stored(l, Calls(r.purpose)) == CallsOf(l, r.purpose);
    if l.totals.claimed < l.config.globalLimit {
      RoomForOneMore(l.totals.claimed, l.config.globalLimit, l.config.reservation);
    }
  }

  // ----- without trusting the ids ----------------------------------------------------------------

  /** What the counters promise even if callers reuse token ids. */
  ghost predicate CounterLaws(l: Ledger) {
    var t := l.totals;
    && RecordsOk(l) && CommitmentOk(l)
    && t.pending + t.known + t.uncertain == t.claimed
    && t.knownActual <= t.known * l.config.reservation
    && t.uncertainUpper == t.uncertain * l.config.reservation
    && (l.config.maxConcurrency <= 1 ==> |l.inflight| == t.pending)
  }

  lemma DispatchKeepsCounterLaws(l: Ledger, r: BeginRequest, now: nat)
    requires CounterLaws(l) && HasRoom(l, r)
    ensures CounterLaws(Dispatch(l, r, now))
  {
    DispatchKeepsCommitment(l, r, now);
    if l.config.maxConcurrency <= 1 {
      assert l.inflight == map[];
      assert l.inflight[r.jti := now + LEASE].Keys == {r.jti};
    }
  }

  lemma FlightSettledKeepsCounterLaws(l: Ledger, r: KnownRequest)
    requires CounterLaws(l) && KnownReply(l, r).KnownNew? && l.auths[r.jti].state.InFlight?
    ensures CounterLaws(LeaveFlight(FileKnown(l, r), l.auths[r.jti].jti))
  {
    OneMore(l.totals.known, l.config.reservation);
    assert (l.inflight - {r.jti}).Keys == l.inflight.Keys - {r.jti};
  }

  lemma UncertainSettledKeepsCounterLaws(l: Ledger, r: KnownRequest)
    requires CounterLaws(l) && KnownReply(l, r).KnownNew? && l.auths[r.jti].state.Uncertain?
    ensures CounterLaws(LeaveUncertain(FileKnown(l, r), l.auths[r.jti].jti, l.auths[r.jti].state.reservation))
  {
    OneMore(l.totals.known, l.config.reservation);
    OneMore(l.totals.uncertain - 1, l.config.reservation);
  }

  lemma GivingUpKeepsCounterLaws(l: Ledger, r: UncertainRequest)
    requires CounterLaws(l) && r.jti in l.auths && l.auths[r.jti].state.InFlight? && r.jti in l.inflight
    ensures CounterLaws(GiveUp(l, r))
  {
    OneMore(l.totals.uncertain, l.config.reservation);
    assert (l.inflight - {r.jti}).Keys == l.inflight.Keys - {r.jti};
  }

  lemma HaltKeepsCounterLaws(l: Ledger, e: Error)
    requires CounterLaws(l)
    ensures CounterLaws(l.(config := Halt(l.config, e)))
  {
  }

  lemma BeginKeepsCounterLaws(l: Ledger, r: BeginRequest, now: nat)
    requires CounterLaws(l)
    ensures CounterLaws(Begin(l, r, now))
  {
    var refusal := BeginRefusal(l, r, now);
    if refusal.None? {
      GrantHasRoom(l, r, now);
      DispatchKeepsCounterLaws(l, r, now);
    } else if BeginHalts(refusal.value) {
      HaltKeepsCounterLaws(l, refusal.value);
    }
  }

  lemma SettleKnownKeepsCounterLaws(l: Ledger, r: KnownRequest)
    requires CounterLaws(l)
    ensures CounterLaws(SettleKnown(l, r))
  {
    var reply := KnownReply(l, r);
    if reply.Refused? {
      HaltKeepsCounterLaws(l, reply.error);
    } else if reply.KnownNew? {
      if l.auths[r.jti].state.InFlight? {
        FlightSettledKeepsCounterLaws(l, r);
      } else {
        UncertainSettledKeepsCounterLaws(l, r);
      }
    }
  }

  lemma SettleUncertainKeepsCounterLaws(l: Ledger, r: UncertainRequest, reapAt: Option<nat>)
    requires CounterLaws(l)
    ensures CounterLaws(SettleUncertain(l, r, reapAt))
  {
    var reply := UncertainReply(l, r, reapAt);
    if reply.Refused? {
      HaltKeepsCounterLaws(l, reply.error);
    } else if reply.UncertainNew? {
      GivingUpKeepsCounterLaws(l, r);
    }
  }

  lemma StepKeepsCounterLaws(l: Ledger, c: Call)
    requires CounterLaws(l)
    ensures CounterLaws(Apply(l, c))
  {
    match c
    case IssueCall(r, now) =>
      assert RecordsOk(Issue(l, r, now));
    case BeginCall(r, now) => BeginKeepsCounterLaws(l, r, now);
    case KnownCallOf(r) => SettleKnownKeepsCounterLaws(l, r);
    case UncertainCall(r) => SettleUncertainKeepsCounterLaws(l, r, None);
    case ReapCall(r, now) => SettleUncertainKeepsCounterLaws(l, r, Some(now));
  }

  /** No script but a migration touches what the guard was set up with. */
  predicate SameTerms(c: Config, c': Config) {
    && c'.identity == c.identity && c'.version == c.version && c'.model == c.model
    && c'.globalLimit == c.globalLimit && c'.ceiling == c.ceiling && c'.reservation == c.reservation
    && c'.maxConcurrency == c.maxConcurrency && c'.closesAtMs == c.closesAtMs
  }

  lemma SettleKnownKeepsTerms(l: Ledger, r: KnownRequest)
    ensures SameTerms(l.config, SettleKnown(l, r).config) && SettleKnown(l, r).limits == l.limits
  {
    if KnownReply(l, r).KnownNew? {
      var j := l.auths[r.jti].jti;
      assert FileKnown(l, r).config == l.config && SameTerms(l.config, ClearMarker(l.config, j));
    }
  }

  lemma BeginKeepsTerms(l: Ledger, r: BeginRequest, now: nat)
    ensures SameTerms(l.config, Begin(l, r, now).config) && Begin(l, r, now).limits == l.limits
  {
    var refusal := BeginRefusal(l, r, now);
    if refusal.None? {
      assert Dispatch(l, r, now).config == l.config;
    }
  }

  lemma SettleUncertainKeepsTerms(l: Ledger, r: UncertainRequest, reapAt: Option<nat>)
    ensures SameTerms(l.config, SettleUncertain(l, r, reapAt).config)
    ensures SettleUncertain(l, r, reapAt).limits == l.limits
  {
    var reply := UncertainReply(l, r, reapAt);
    if reply.UncertainNew? {
      var l' := GiveUp(l, r);
      assert l'.config == l.config.(status := Quarantined, uncertainJti := Some(r.jti)) && l'.limits == l.limits;
    }
  }

  lemma StepKeepsTerms(l: Ledger, c: Call)
    ensures SameTerms(l.config, Apply(l, c).config) && Apply(l, c).limits == l.limits
  {
    match c
    case IssueCall(_, _) =>
    case BeginCall(r, now) => BeginKeepsTerms(l, r, now);
    case KnownCallOf(r) => SettleKnownKeepsTerms(l, r);
    case UncertainCall(r) => SettleUncertainKeepsTerms(l, r, None);
    case ReapCall(r, now) => SettleUncertainKeepsTerms(l, r, Some(now));
  }

  /** Nothing is assumed of the callers: every run of issue, begin, settle and reap keeps the
      accounting laws of the counters. */
  lemma {:induction false} EveryRunKeepsCounterLaws(l: Ledger, calls: seq<Call>)
    requires CounterLaws(l)
    ensures CounterLaws(ApplyAll(l, calls)) && SameTerms(l.config, ApplyAll(l, calls).config)
    decreases |calls|
  {
    if calls != [] {
      StepKeepsCounterLaws(l, calls[0]);
      StepKeepsTerms(l, calls[0]);
      EveryRunKeepsCounterLaws(Apply(l, calls[0]), calls[1..]);
    }
  }

  /** What has been spent, may have been spent, or may still be spent, never exceeds what was
      committed, and that never exceeds the ceiling. */
  lemma SpendingIsBounded(l: Ledger)
    requires CounterLaws(l) && l.config.ceiling >= 0
    ensures l.totals.knownActual + l.totals.uncertainUpper + l.totals.pending * l.config.reservation
            <= l.totals.committed <= l.config.ceiling
  {
    var t, r := l.totals, l.config.reservation;
    assert t.claimed * r == (t.pending + t.known + t.uncertain) * r == t.pending * r + t.known * r + t.uncertain * r;
  }

  /** The bound over whole runs: whatever is called, in whatever order, with whatever ids. */
  lemma NoRunOverspends(l: Ledger, calls: seq<Call>)
    requires CounterLaws(l) && l.config.ceiling >= 0
    ensures var end := ApplyAll(l, calls).totals;
            end.knownActual + end.uncertainUpper + end.pending * l.config.reservation
            <= end.committed <= l.config.ceiling
  {
    EveryRunKeepsCounterLaws(l, calls);
    SpendingIsBounded(ApplyAll(l, calls));
  }

  /** So it holds of every guard that has been initialised, at any later time. */
  lemma NothingIsOverspent(identity: Identity, t: Terms, calls: seq<Call>)
    requires t.reservation >= 0 && t.ceiling >= 0
    ensures var l := ApplyAll(Initialised(identity, t), calls);
            && CounterLaws(l)
            && l.totals.knownActual + l.totals.uncertainUpper + l.totals.pending * t.reservation
               <= l.totals.committed <= t.ceiling
  {
    var start := Initialised(identity, t);
    assert CounterLaws(start);
    EveryRunKeepsCounterLaws(start, calls);
    NoRunOverspends(start, calls);
  }
}
