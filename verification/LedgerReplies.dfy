/** What the ledger's scripts answer: when exactly a settlement is new, and what no run of calls
    ever does: settle two calls with one response, or authorise an actor too often in an hour. */
module LedgerReplies {
  import opened Prelude
  import opened LedgerModel
  import opened LedgerAccounting

  /** With balanced books no lease is ever missing: a settlement is new exactly for a call in
      flight or uncertain, at a cost within its reservation, under a response never seen. */
  lemma KnownIff(l: Ledger, r: KnownRequest)
    requires Books(l)
    ensures KnownReply(l, r).KnownNew? <==>
              && l.config.identity == r.identity && r.jti in l.auths
              && (l.auths[r.jti].state.InFlight? || l.auths[r.jti].state.Uncertain?)
              && 0 <= r.actual <= l.config.reservation && r.response !in l.providers
    ensures KnownReply(l, r) != Refused(MissingInflightLease)
  {
    assert r.jti in l.auths ==> RecordOk(r.jti, l.auths[r.jti], l.config.reservation);
  }

  /** Giving a call up is new exactly while it is in flight and the guard is not halted, and by
      a reap only once its lease has run out. */
  lemma GiveUpIff(l: Ledger, r: UncertainRequest, reapAt: Option<nat>)
    requires Books(l)
    ensures UncertainReply(l, r, reapAt).UncertainNew? <==>
              && !l.config.status.Halted? && l.config.identity == r.identity
              && r.jti in l.auths && l.auths[r.jti].state.InFlight?
              && (reapAt.Some? ==> l.auths[r.jti].state.lease <= reapAt.value)
    ensures UncertainReply(l, r, reapAt) !in {Refused(MissingInflightLease), Refused(InvalidReservation)}
  {
    assert r.jti in l.auths ==> RecordOk(r.jti, l.auths[r.jti], l.config.reservation);
  }

  // ----- what holds across calls -----------------------------------------------------------------

  /** Every settled call has a provider response of its own. */
  ghost predicate ResponsesOk(l: Ledger) {
    forall j: Jti | j in l.auths && l.auths[j].state.Known? ::
      l.auths[j].jti == j && l.auths[j].state.response in l.providers && l.providers[l.auths[j].state.response] == j
  }

  /** No hour's authorisations of a purpose for one actor exceed this bound on the purpose. */
  ghost predicate RatesWithin(l: Ledger, bound: PerPurpose) {
    forall k | k in l.rates :: l.rates[k] <= bound.Of(k.purpose)
  }

  lemma SettleKnownKeepsResponses(l: Ledger, r: KnownRequest)
    requires ResponsesOk(l) && RecordsOk(l)
    ensures ResponsesOk(SettleKnown(l, r))
  {
    if KnownReply(l, r).KnownNew? {
      assert RecordOk(r.jti, l.auths[r.jti], l.config.reservation);
      assert SettleKnown(l, r).auths == FileKnown(l, r).auths && SettleKnown(l, r).providers == FileKnown(l, r).providers;
    }
  }

  lemma DispatchKeepsSettlements(l: Ledger, r: BeginRequest, now: nat)
    requires r.jti in l.auths && l.auths[r.jti].state.Issued?
    ensures Dispatch(l, r, now).rates == l.rates
    ensures ResponsesOk(l) ==> ResponsesOk(Dispatch(l, r, now))
  {
  }

  lemma ExpiryKeepsSettlements(l: Ledger, j: Jti)
    requires ResponsesOk(l) && j in l.auths && l.auths[j].state.Issued?
    ensures ResponsesOk(l.(auths := l.auths[j := l.auths[j].(state := Expired)]))
  {
  }

  lemma HaltKeepsSettlements(l: Ledger, e: Error)
    requires ResponsesOk(l)
    ensures ResponsesOk(l.(config := Halt(l.config, e)))
  {
  }

  lemma BeginKeepsSettlements(l: Ledger, r: BeginRequest, now: nat)
    ensures Begin(l, r, now).rates == l.rates
    ensures ResponsesOk(l) ==> ResponsesOk(Begin(l, r, now))
  {
    if BeginRefusal(l, r, now).None? {
      DispatchKeepsSettlements(l, r, now);
    } else {
      RefusedBegin(l, r, now);
      if ResponsesOk(l) {
        HaltKeepsSettlements(l, BeginRefusal(l, r, now).value);
        if BeginRefusal(l, r, now).value.TokenExpired? {
          ExpiryKeepsSettlements(l, r.jti);
        }
      }
    }
  }

  lemma GivingUpKeepsSettlements(l: Ledger, r: UncertainRequest, reapAt: Option<nat>)
    ensures SettleUncertain(l, r, reapAt).rates == l.rates
    ensures ResponsesOk(l) ==> ResponsesOk(SettleUncertain(l, r, reapAt))
  {
    if UncertainReply(l, r, reapAt).UncertainNew? {
      assert SettleUncertain(l, r, reapAt) == GiveUp(l, r);
    }
  }

  lemma SettlingKeepsRates(l: Ledger, r: KnownRequest)
    ensures SettleKnown(l, r).rates == l.rates
  {
    if KnownReply(l, r).KnownNew? {
      assert FileKnown(l, r).rates == l.rates;
    }
  }

  lemma StepKeepsResponses(l: Ledger, c: Call)
    requires ResponsesOk(l) && RecordsOk(l)
    ensures ResponsesOk(Apply(l, c))
  {
    match c
    case IssueCall(_, _) =>
    case BeginCall(r, now) => BeginKeepsSettlements(l, r, now);
    case KnownCallOf(r) => SettleKnownKeepsResponses(l, r);
    case UncertainCall(r) => GivingUpKeepsSettlements(l, r, None);
    case ReapCall(r, now) => GivingUpKeepsSettlements(l, r, Some(now));
  }

  /** The limits that the callers of a run state when they ask for authorisations. */
  predicate AsksWithin(calls: seq<Call>, bound: PerPurpose) {
    forall i | 0 <= i < |calls| && calls[i].IssueCall? :: calls[i].issue.purposeLimit <= bound.Of(calls[i].issue.purpose)
  }

  lemma StepKeepsRates(l: Ledger, c: Call, bound: PerPurpose)
    requires RatesWithin(l, bound) && (c.IssueCall? ==> c.issue.purposeLimit <= bound.Of(c.issue.purpose))
    ensures RatesWithin(Apply(l, c), bound)
  {
    match c
    case IssueCall(_, _) =>
    case BeginCall(r, now) => BeginKeepsSettlements(l, r, now);
    case KnownCallOf(r) => SettlingKeepsRates(l, r);
    case UncertainCall(r) => GivingUpKeepsSettlements(l, r, None);
    case ReapCall(r, now) => GivingUpKeepsSettlements(l, r, Some(now));
  }

  /** Whatever the run: the authorisations of one actor for one purpose within an hour never
      exceed the largest limit any caller stated for that purpose. */
  lemma {:induction false} IssuesAreRateLimited(l: Ledger, calls: seq<Call>, bound: PerPurpose)
    requires RatesWithin(l, bound) && AsksWithin(calls, bound)
    ensures RatesWithin(ApplyAll(l, calls), bound)
    decreases |calls|
  {
    if calls != [] {
      StepKeepsRates(l, calls[0], bound);
      assert AsksWithin(calls[1..], bound) by {
        assert forall i | 0 <= i < |calls[1..]| :: calls[1..][i] == calls[i + 1];
      }
      IssuesAreRateLimited(Apply(l, calls[0]), calls[1..], bound);
    }
  }

  /** No provider response ever settles two calls, whatever the run, and whatever ids its callers
      use. */
  lemma {:induction false} EachResponseSettlesOneCall(l: Ledger, calls: seq<Call>)
    requires CounterLaws(l) && ResponsesOk(l)
    ensures var end := ApplyAll(l, calls).auths;
            forall i: Jti, j: Jti | i in end && j in end && end[i].state.Known? && end[j].state.Known?
              && end[i].state.response == end[j].state.response :: i == j
    ensures ResponsesOk(ApplyAll(l, calls))
    decreases |calls|
  {
    if calls != [] {
      StepKeepsCounterLaws(l, calls[0]);
      StepKeepsResponses(l, calls[0]);
      EachResponseSettlesOneCall(Apply(l, calls[0]), calls[1..]);
    }
  }
}
