/** What each of the ledger's scripts leaves behind, told on the stored fields: what is filed, what
    halts the guard and for good, and on what records a migration insists. */
module LedgerOutcomes {
  import opened Prelude
  import opened LedgerModel
  import opened LedgerAccounting
  import opened LedgerQuarantine
  import opened LedgerMigration
  import opened LedgerRuns

  // ----- the guard halts -----------------------------------------------------------------------------

  /** Nothing but the status and its reason. */
  predicate HaltedBy(l: Ledger, l': Ledger, e: Error) {
    && l'.config.status == Halted && l'.config.haltReason == Some(e)
    && l' == l.(config := l'.config)
    && l'.config == l.config.(status := l'.config.status, haltReason := l'.config.haltReason)
  }

  /** A call that can still be settled. */
  predicate Unsettled(l: Ledger, j: Jti) {
    j in l.auths && (l.auths[j].state.InFlight? || l.auths[j].state.Uncertain?) && l.auths[j].state.reservation >= 0
  }

  /** Settling halts the guard exactly for a second, different settlement of a settled call, and for a
      call in flight or uncertain whose response has been seen, whose cost is above its reservation,
      or whose lease is gone; in that order, and nothing is counted, filed or released. */
  lemma SettlingHaltsIff(l: Ledger, r: KnownRequest)
    requires !l.config.status.Halted?
    ensures var l' := SettleKnown(l, r);
            var mine := l.config.identity == r.identity;
            && (l'.config.status.Halted? <==>
                  mine && r.jti in l.auths
                  && ((l.auths[r.jti].state.Known? && l.auths[r.jti].state.digest != r.digest)
                      || (Unsettled(l, r.jti) && r.actual >= 0
                          && (r.response in l.providers || r.actual > l.auths[r.jti].state.reservation
                              || (l.auths[r.jti].state.InFlight? && l.auths[r.jti].jti !in l.inflight)))))
            && (mine && Unsettled(l, r.jti) && r.actual >= 0 && r.response in l.providers ==>
                  HaltedBy(l, l', DuplicateProviderResponse))
            && (mine && Unsettled(l, r.jti) && r.response !in l.providers && r.actual > l.auths[r.jti].state.reservation ==>
                  HaltedBy(l, l', CostOverReservation))
            && (mine && r.jti in l.auths && l.auths[r.jti].state.Known? && l.auths[r.jti].state.digest != r.digest ==>
                  HaltedBy(l, l', ConflictingSettlement))
  {
    if KnownReply(l, r).KnownNew? {
      SettlementFiles(l, r);
    }
  }

  /** What a new settlement files and releases. */
  lemma SettlementFiles(l: Ledger, r: KnownRequest)
    requires KnownReply(l, r).KnownNew?
    ensures r.jti in l.auths
    ensures var l', a, t := SettleKnown(l, r), l.auths[r.jti], l.totals;
            && (a.state.InFlight? || a.state.Uncertain?)
            && l'.auths == l.auths[r.jti := a.(state := Known(a.state.reservation, a.state.sequence, r.actual, r.response,
                                                              r.digest, r.usage))]
            && l'.providers == l.providers[r.response := a.jti]
            && l'.inflight == (if a.state.InFlight? then l.inflight - {a.jti} else l.inflight)
            && l'.totals.known == t.known + 1 && l'.totals.knownActual == t.knownActual + r.actual
            && l'.totals.claimed == t.claimed && l'.totals.committed == t.committed && l'.totals.sequence == t.sequence
            && l'.totals.pending == (if a.state.InFlight? then t.pending - 1 else t.pending)
            && l'.totals.uncertain == (if a.state.InFlight? then t.uncertain else t.uncertain - 1)
            && l'.totals.uncertainUpper == (if a.state.InFlight? then t.uncertainUpper
                                            else t.uncertainUpper - a.state.reservation)
            && (l'.config.status == if a.state.Uncertain? && l.config.uncertainJti == Some(a.jti)
                                       && l.config.status.Quarantined? && l.config.haltReason.None? then Open
                                    else l.config.status)
            && (l'.config.uncertainJti == if a.state.Uncertain? && l.config.uncertainJti == Some(a.jti) then None
                                          else l.config.uncertainJti)
            && l'.config.haltReason == l.config.haltReason
            && l'.limits == l.limits && l'.counts == l.counts && l'.subjects == l.subjects && l'.rates == l.rates
            && l'.receipts == l.receipts
  {
  }

  /** The identity and terms that the caller was built with are those of the guard, and nothing has
      been held against it. */
  predicate InAgreement(l: Ledger, r: BeginRequest) {
    var c, t := l.config, r.terms;
    && c.globalLimit == t.globalLimit && c.ceiling == t.ceiling && c.reservation == t.reservation
    && c.maxConcurrency == t.maxConcurrency && c.version == t.version && c.model == t.model
    && c.closesAtMs == t.closesAtMs && l.limits == t.limits && c.haltReason.None? && c.uncertainJti.None?
  }

  /** It is this token's turn: issued for these claims, in time, and no call in the way. */
  predicate InTurn(l: Ledger, r: BeginRequest, now: nat) {
    && r.jti in l.auths && l.auths[r.jti].state.Issued? && l.auths[r.jti].jti == r.jti
    && l.auths[r.jti].claims == r.claims && l.auths[r.jti].purpose == r.purpose
    && now * 1000 < l.config.closesAtMs && (r.admission.NotRequired? || r.admission == Required(true))
    && now < l.auths[r.jti].expiresAt
    && (forall j | j in l.inflight :: now < l.inflight[j]) && |l.inflight| < l.config.maxConcurrency
  }

  /** Some counter is negative, the counters do not add up, or a purpose is over its limit. */
  predicate CountersDrifted(l: Ledger) {
    var t, c := l.totals, l.counts;
    || t.claimed < 0 || t.committed < 0 || t.pending < 0 || t.known < 0 || t.uncertain < 0 || t.knownActual < 0
    || t.uncertainUpper < 0 || t.sequence < 0
    || c.calibration < 0 || c.baseline < 0 || c.repair < 0 || c.revised < 0 || c.judge < 0
    || t.committed != t.claimed * l.config.reservation || t.pending + t.known + t.uncertain != t.claimed
    || c.calibration + c.baseline + c.repair + c.revised + c.judge != t.claimed || t.sequence != t.claimed
    || |l.inflight| != t.pending || t.knownActual > t.known * l.config.reservation
    || t.uncertainUpper != t.uncertain * l.config.reservation
    || c.calibration > l.limits.calibration || c.baseline > l.limits.baseline || c.repair > l.limits.repair
    || c.revised > l.limits.revised || c.judge > l.limits.judge
  }

  lemma AgreementIff(l: Ledger, r: BeginRequest)
    ensures GuardRefusal(l, r).None? <==> l.config.status.Open? && l.config.identity == r.identity && InAgreement(l, r)
    ensures GuardRefusal(l, r) == Some(ConfigDrift) <==>
              l.config.status.Open? && l.config.identity == r.identity && !InAgreement(l, r)
    ensures GuardRefusal(l, r).Some? ==> GuardRefusal(l, r).value !in {TokenExpired, MalformedCounter, CounterDrift}
  {
  }

  lemma TurnIff(l: Ledger, r: BeginRequest, now: nat)
    requires l.config.closesAtMs == r.terms.closesAtMs
    ensures TurnRefusal(l, r, now).None? <==> InTurn(l, r, now)
    ensures TurnRefusal(l, r, now).Some? ==> !BeginHalts(TurnRefusal(l, r, now).value)
    ensures TurnRefusal(l, r, now) == Some(TokenExpired) <==>
              r.jti in l.auths && l.auths[r.jti].state.Issued? && l.auths[r.jti].jti == r.jti
              && l.auths[r.jti].claims == r.claims && l.auths[r.jti].purpose == r.purpose
              && now * 1000 < l.config.closesAtMs && (r.admission.NotRequired? || r.admission == Required(true))
              && l.auths[r.jti].expiresAt <= now
  {
  }

  lemma CountersIff(l: Ledger, r: BeginRequest)
    requires l.limits == r.terms.limits
    ensures CounterRefusal(l, r).Some? && BeginHalts(CounterRefusal(l, r).value) <==> CountersDrifted(l)
    ensures CounterRefusal(l, r).Some? ==> !CounterRefusal(l, r).value.TokenExpired?
    ensures CounterRefusal(l, r).None? ==>
              l.totals.claimed < l.config.globalLimit && l.counts.Of(r.purpose) < l.limits.Of(r.purpose)
              && l.totals.committed + l.config.reservation <= l.config.ceiling
  {
  }

  /** Begin halts an open guard exactly when its caller was built for other terms or something is held
      against the guard, or when it is the token's turn and the counters have drifted. */
  lemma BeginHaltsIff(l: Ledger, r: BeginRequest, now: nat)
    requires l.config.status.Open?
    ensures var l' := Begin(l, r, now);
            && (l'.config.status.Halted? <==>
                  l.config.identity == r.identity
                  && (!InAgreement(l, r) || (InTurn(l, r, now) && CountersDrifted(l))))
            && (l'.config.status.Halted? ==> l'.config.haltReason.Some? && HaltedBy(l, l', l'.config.haltReason.value))
            && (l'.config.status.Halted? && !InAgreement(l, r) ==> l'.config.haltReason == Some(ConfigDrift))
  {
    AgreementIff(l, r);
    if GuardRefusal(l, r).None? {
      TurnIff(l, r, now);
      CountersIff(l, r);
    }
    if BeginRefusal(l, r, now).Some? {
      RefusedBegin(l, r, now);
    }
  }

  /** What a grant files and counts, and that nothing else changes. */
  lemma GrantFiles(l: Ledger, r: BeginRequest, now: nat)
    requires BeginReply(l, r, now).Granted?
    ensures InAgreement(l, r) && InTurn(l, r, now) && !CountersDrifted(l) && l.config.status.Open?
    ensures l.totals.claimed < l.config.globalLimit && l.counts.Of(r.purpose) < l.limits.Of(r.purpose)
    ensures var l', n := Begin(l, r, now), l.totals.sequence + 1;
            && BeginReply(l, r, now) == Granted(n, n, n * l.config.reservation, now + LEASE)
            && l'.auths == l.auths[r.jti := l.auths[r.jti].(state := InFlight(l.config.reservation, n, now + LEASE))]
            && l'.inflight == l.inflight[r.jti := now + LEASE]
            && l'.totals == l.totals.(sequence := n, claimed := n, committed := n * l.config.reservation,
                                      pending := l.totals.pending + 1)
            && (forall p: Purpose :: l'.counts.Of(p) == l.counts.Of(p) + if p == r.purpose then 1 else 0)
            && l' == l.(auths := l'.auths, inflight := l'.inflight, totals := l'.totals, counts := l'.counts)
  {
    AgreementIff(l, r);
    TurnIff(l, r, now);
    CountersIff(l, r);
    OneMore(l.totals.claimed, l.config.reservation);
    GrantedIsDispatched(l, r, now);
  }

  /** A begin that is neither granted nor halts expires its token, in its turn, or changes nothing. */
  lemma RefusalOnlyExpires(l: Ledger, r: BeginRequest, now: nat)
    requires !BeginReply(l, r, now).Granted?
    ensures var l' := Begin(l, r, now);
            || l' == l || (l'.config.haltReason.Some? && HaltedBy(l, l', l'.config.haltReason.value))
            || (r.jti in l.auths && l.auths[r.jti].state.Issued? && l.auths[r.jti].expiresAt <= now
                && l' == l.(auths := l.auths[r.jti := l.auths[r.jti].(state := Expired)]))
  {
    RefusedBegin(l, r, now);
    if GuardRefusal(l, r).None? {
      TurnIff(l, r, now);
      CountersIff(l, r);
    } else {
      AgreementIff(l, r);
    }
  }

  // ----- a call is given up --------------------------------------------------------------------------

  /** What giving up files and releases; and a reap only after the lease has run out. */
  lemma GivingUpFiles(l: Ledger, r: UncertainRequest, reapAt: Option<nat>)
    requires UncertainReply(l, r, reapAt).UncertainNew?
    ensures !l.config.status.Halted? && l.config.identity == r.identity
    ensures r.jti in l.auths && l.auths[r.jti].state.InFlight? && r.jti in l.inflight
    ensures reapAt.Some? ==> l.inflight[r.jti] <= reapAt.value
    ensures var l', a, t := SettleUncertain(l, r, reapAt), l.auths[r.jti], l.totals;
            && l'.auths == l.auths[r.jti := a.(state := Uncertain(a.state.reservation, a.state.sequence, r.digest))]
            && l'.inflight == l.inflight - {r.jti}
            && l'.totals == t.(pending := t.pending - 1, uncertain := t.uncertain + 1,
                               uncertainUpper := t.uncertainUpper + a.state.reservation)
            && l'.config == l.config.(status := Quarantined, uncertainJti := Some(r.jti))
            && l' == l.(auths := l'.auths, inflight := l'.inflight, totals := l'.totals, config := l'.config)
  {
  }

  /** Giving up halts the guard exactly for a call on record in flight whose lease is gone. */
  lemma GivingUpHaltsIff(l: Ledger, r: UncertainRequest, reapAt: Option<nat>)
    requires !l.config.status.Halted?
    ensures var l' := SettleUncertain(l, r, reapAt);
            && (l'.config.status.Halted? <==>
                  l.config.identity == r.identity && r.jti in l.auths && l.auths[r.jti].jti == r.jti
                  && l.auths[r.jti].state.InFlight? && r.jti !in l.inflight
                  && (reapAt.Some? || l.auths[r.jti].state.reservation >= 0))
            && (l'.config.status.Halted? ==> HaltedBy(l, l', MissingInflightLease))
            && (!UncertainReply(l, r, reapAt).UncertainNew? && !l'.config.status.Halted? ==> l' == l)
  {
  }

  /** With fresh ids a call that was given up stays on record as it is until its cost is known. */
  lemma {:induction false} UncertainUntilKnown(l: Ledger, steps: seq<Step>, j: Jti)
    requires j in l.auths && l.auths[j].state.Uncertain? && FreshSteps(l, steps)
    ensures var end := TakeAll(l, steps);
            j in end.auths && (end.auths[j] == l.auths[j] || end.auths[j].state.Known?)
    decreases |steps|
  {
    if steps != [] {
      UncertainMoves(l, steps[0], j);
      DispatchedUntilReissued(l, steps[0], j);
      if Take(l, steps[0]).auths[j] == l.auths[j] {
        UncertainUntilKnown(Take(l, steps[0]), steps[1..], j);
      } else {
        KnownForGood(Take(l, steps[0]), steps[1..], j);
      }
    }
  }

  lemma UncertainMoves(l: Ledger, s: Step, j: Jti)
    requires j in l.auths && l.auths[j].state.Uncertain? && !Does(l, s, Reissues(j))
    ensures j in Take(l, s).auths && (Take(l, s).auths[j] == l.auths[j] || Take(l, s).auths[j].state.Known?)
  {
    if s.Calling? {
      match s.call
      case IssueCall(_, _) =>
      case BeginCall(r, now) => BeginTouches(l, r, now, j);
      case KnownCallOf(r) => SettlingTouches(l, r, j);
      case UncertainCall(r) => GivingUpTouches(l, r, None, j);
      case ReapCall(r, now) => GivingUpTouches(l, r, Some(now), j);
    }
  }

  /** Given up on again at any later time, by settlement or reap, with fresh ids, nothing changes: the
      same digest is recognised and another is a conflict, until the cost of the call is known. */
  lemma GivingUpTwice(l: Ledger, r: UncertainRequest, reapAt: Option<nat>, steps: seq<Step>, again: UncertainRequest,
                      later: Option<nat>)
    requires UncertainReply(l, r, reapAt).UncertainNew? && l.auths[r.jti].jti == r.jti && again.jti == r.jti
    requires FreshSteps(SettleUncertain(l, r, reapAt), steps)
    ensures var end := TakeAll(SettleUncertain(l, r, reapAt), steps);
            && SettleUncertain(end, again, later) == end && r.jti in end.auths
            && (!end.config.status.Halted? && end.config.identity == again.identity ==>
                  UncertainReply(end, again, later) == if end.auths[r.jti].state.Known? then Refused(TokenNotInFlight)
                                                       else if again.digest == r.digest then UncertainExisting
                                                       else Refused(ConflictingSettlement))
  {
    GivingUpFiles(l, r, reapAt);
    var start := SettleUncertain(l, r, reapAt);
    UncertainUntilKnown(start, steps, r.jti);
    KeepsOwnId(start, steps, r.jti);
  }

  lemma {:induction false} KeepsOwnId(l: Ledger, steps: seq<Step>, j: Jti)
    requires j in l.auths && l.auths[j].jti == j
    ensures j in TakeAll(l, steps).auths && TakeAll(l, steps).auths[j].jti == j
    decreases |steps|
  {
    if steps != [] {
      IdMoves(l, steps[0], j);
      KeepsOwnId(Take(l, steps[0]), steps[1..], j);
    }
  }

  lemma BeginKeepsId(l: Ledger, r: BeginRequest, now: nat, j: Jti)
    requires j in l.auths
    ensures j in Begin(l, r, now).auths && Begin(l, r, now).auths[j].jti == l.auths[j].jti
  {
    if BeginRefusal(l, r, now).Some? {
      RefusedBegin(l, r, now);
    }
  }

  lemma SettlingKeepsId(l: Ledger, r: KnownRequest, j: Jti)
    requires j in l.auths
    ensures j in SettleKnown(l, r).auths && SettleKnown(l, r).auths[j].jti == l.auths[j].jti
  {
    if KnownReply(l, r).KnownNew? {
      SettlementFiles(l, r);
    }
  }

  lemma GivingUpKeepsId(l: Ledger, r: UncertainRequest, reapAt: Option<nat>, j: Jti)
    requires j in l.auths
    ensures j in SettleUncertain(l, r, reapAt).auths && SettleUncertain(l, r, reapAt).auths[j].jti == l.auths[j].jti
  {
    if UncertainReply(l, r, reapAt).UncertainNew? {
      GivingUpFiles(l, r, reapAt);
    }
  }

  lemma IdMoves(l: Ledger, s: Step, j: Jti)
    requires j in l.auths
    ensures j in Take(l, s).auths && (Take(l, s).auths[j].jti == l.auths[j].jti || Take(l, s).auths[j].jti == j)
  {
    if s.Calling? {
      match s.call
      case IssueCall(_, _) =>
      case BeginCall(r, now) => BeginKeepsId(l, r, now, j);
      case KnownCallOf(r) => SettlingKeepsId(l, r, j);
      case UncertainCall(r) => GivingUpKeepsId(l, r, None, j);
      case ReapCall(r, now) => GivingUpKeepsId(l, r, Some(now), j);
    }
  }

  // ----- halted for good -----------------------------------------------------------------------------

  /** All that a halted guard still does is to file a known cost. */
  lemma HaltedOnlySettles(l: Ledger, s: Step)
    requires l.config.status.Halted? && !(s.Calling? && s.call.KnownCallOf?)
    ensures Take(l, s) == l && !Does(l, s, Grants)
  {
    if s.Calling? {
      match s.call
      case IssueCall(r, now) =>
      case BeginCall(r, now) => assert BeginRefusal(l, r, now) == Some(GuardNotOpen);
      case UncertainCall(r) => assert UncertainReply(l, r, None) == Refused(GuardHalted);
      case ReapCall(r, now) => assert UncertainReply(l, r, Some(now)) == Refused(GuardHalted);
    } else {
      assert !CoreMatches(l, s.migration);
    }
  }

  lemma HaltedStep(l: Ledger, s: Step)
    requires l.config.status.Halted?
    ensures Take(l, s).config.status.Halted? && !Does(l, s, Grants)
    ensures Take(l, s).limits == l.limits && Take(l, s).receipts == l.receipts && Take(l, s).subjects == l.subjects
  {
    if s.Calling? && s.call.KnownCallOf? {
      if KnownReply(l, s.call.known).KnownNew? {
        SettlementFiles(l, s.call.known);
      }
    } else {
      HaltedOnlySettles(l, s);
    }
  }

  /** A halted guard stays halted, whatever is called or migrated after that: no begin is granted, no
      subject authorised, no policy, limit or receipt written. */
  lemma {:induction false} HaltedForGood(l: Ledger, steps: seq<Step>)
    requires l.config.status.Halted?
    ensures var end := TakeAll(l, steps);
            && end.config.status.Halted? && !Happens(l, steps, Grants)
            && end.limits == l.limits && end.receipts == l.receipts && end.subjects == l.subjects
    decreases |steps|
  {
    if steps != [] {
      HaltedStep(l, steps[0]);
      HaltedForGood(Take(l, steps[0]), steps[1..]);
    }
  }

  // ----- an authorisation ----------------------------------------------------------------------------

  /** A new authorisation is filed exactly when every check passes: under its id, for its subject, and
      as one more of its actor's hour. Otherwise nothing changes. */
  lemma IssueFiles(l: Ledger, r: IssueRequest, now: nat)
    ensures var l', key := Issue(l, r, now), RateKey(r.purpose, r.actor, now / RATE_WINDOW);
            if MayIssue(l, r, now) then
              && IssueReply(l, r, now) == IssuedNew(now, now + TOKEN_TTL)
              && l' == l.(auths := l.auths[r.jti := Auth(r.jti, r.claims, r.purpose, r.identity, now, now + TOKEN_TTL, Issued)],
                          subjects := l.subjects[r.subject := r.jti],
                          rates := l.rates[key := (if key in l.rates then l.rates[key] else 0) + 1])
            else l' == l && !IssueReply(l, r, now).IssuedNew?
  {
  }

  /** An authorisation is returned again exactly to the subject it was issued to, under its id and for
      its claims, while it is unused and in time; nothing changes then. */
  lemma ReturnedIff(l: Ledger, r: IssueRequest, now: nat)
    ensures IssueReply(l, r, now).IssuedExisting? <==>
              && l.config.status.Open? && l.config.identity == r.identity && now * 1000 < l.config.closesAtMs
              && (r.admission.NotRequired? || r.admission == Required(true))
              && r.subject in l.subjects && l.subjects[r.subject] == r.jti
              && r.jti in l.auths && l.auths[r.jti].state.Issued? && l.auths[r.jti].claims == r.claims
              && now < l.auths[r.jti].expiresAt
    ensures IssueReply(l, r, now).IssuedExisting? ==>
              IssueReply(l, r, now) == IssuedExisting(l.auths[r.jti].issuedAt, l.auths[r.jti].expiresAt)
              && Issue(l, r, now) == l
  {
  }

  // ----- what a migration insists on -----------------------------------------------------------------

  predicate Accepted(l: Ledger, m: Migration, at: Moment) {
    MigrateReply(l, m, at).MigratedNew? || MigrateReply(l, m, at).MigratedExisting?
  }

  /** The record of the listed call is exactly as listed, in its turn and under the policy of its time. */
  predicate RecordedAsListed(l: Ledger, m: Migration, i: nat)
    requires i < |m.manifest.calls|
  {
    var c := m.manifest.calls[i];
    && i < |m.origins| && c.sequence == i + 1 && c.jti in l.auths && c.response in l.providers
    && l.auths[c.jti].state == Known(m.terms.reservation, i + 1, c.actual, c.response, c.digest, c.usage)
    && l.auths[c.jti].jti == c.jti && l.auths[c.jti].purpose == Calibration
    && l.auths[c.jti].identity.guardInstance == m.manifest.guardInstance
    && l.auths[c.jti].identity.policyHash == m.origins[i].policyHash
    && l.auths[c.jti].identity.scriptHash == m.origins[i].scriptHash
    && l.providers[c.response] == c.jti
  }

  /** If a migration is carried out or recognised, every call it lists is on record exactly as listed;
      and one that differs from its record in any field, at any place, changes nothing. */
  lemma ListedCallsAreOnRecord(l: Ledger, m: Migration, at: Moment, i: nat)
    requires i < |m.manifest.calls|
    ensures Accepted(l, m, at) ==> RecordedAsListed(l, m, i) && |m.manifest.calls| == m.script.listed
    ensures !RecordedAsListed(l, m, i) ==> !Accepted(l, m, at) && Migrate(l, m, at) == l
  {
    if Accepted(l, m, at) {
      assert CallMatches(l, m, i);
    }
  }

  /** The receipt of the migration before it is the one filed: whole, or by its identity. */
  lemma PredecessorIsFiled(l: Ledger, m: Migration, at: Moment)
    requires Accepted(l, m, at) && m.predecessor.Some?
    ensures m.predecessor.value.key in l.receipts
    ensures var p, filed := m.predecessor.value, l.receipts[m.predecessor.value.key];
            && (p.whole ==> filed == p.manifest)
            && filed.id == p.manifest.id && filed.digest == p.manifest.digest && filed.program == p.manifest.program
  {
  }

  /** The last script goes through, or recognises itself, only over the acknowledgement it looks for,
      over the listed calls and the spare authorisation and nothing else, and over a spare that was
      issued under the policy being replaced, ran out unused, and is all its actor's hours hold. */
  lemma SpareIsInPlace(l: Ledger, m: Migration, at: Moment)
    requires Accepted(l, m, at) && m.spare.Some?
    ensures at.anchored && m.spare.value.jti in l.auths
    ensures l.auths.Keys == (set i | 0 <= i < |m.manifest.calls| :: m.manifest.calls[i].jti) + {m.spare.value.jti}
    ensures l.providers.Keys == set i | 0 <= i < |m.manifest.calls| :: m.manifest.calls[i].response
    ensures var s, a := m.spare.value, l.auths[m.spare.value.jti];
            && a.state == Issued && a.jti == s.jti && a.claims == s.claims && a.purpose == Calibration
            && a.issuedAt == s.issuedAt && a.expiresAt == s.issuedAt + 120 && a.expiresAt <= at.nowMs / 1000
            && a.identity.guardInstance == m.manifest.guardInstance
            && a.identity.policyHash == m.manifest.previous.policyHash
            && a.identity.scriptHash == m.manifest.previous.scriptHash
            && s.subject in l.subjects && l.subjects[s.subject] == s.jti
            && s.rate.purpose == Calibration && s.rate in l.rates && l.rates[s.rate] == s.count
            && forall k | k in l.rates && k.purpose == Calibration && k.actor == s.rate.actor :: k == s.rate
  {
  }

  /** Tampering with the record of any one listed call, in its cost, response, digest or usage, gets a
      migration refused that would otherwise go through, and nothing is written. */
  lemma TamperedCallIsRefused(l: Ledger, m: Migration, at: Moment, i: nat, tampered: TokenState)
    requires MigrateReply(l, m, at).MigratedNew? && i < |m.manifest.calls|
    requires m.manifest.calls[i].jti in l.auths && tampered != l.auths[m.manifest.calls[i].jti].state
    ensures var j := m.manifest.calls[i].jti;
            var l2 := l.(auths := l.auths[j := l.auths[j].(state := tampered)]);
            MigrateReply(l2, m, at) == Refused(KnownCallMismatch) && Migrate(l2, m, at) == l2
  {
    var j := m.manifest.calls[i].jti;
    var l2 := l.(auths := l.auths[j := l.auths[j].(state := tampered)]);
    ListedCallsAreOnRecord(l, m, at, i);
    assert !CallMatches(l2, m, i);
  }

  /** What is in force when a migration is carried out, told on the fields. */
  lemma MigrationRequires(l: Ledger, m: Migration, at: Moment)
    requires MigrateReply(l, m, at).MigratedNew?
    ensures m.key !in l.receipts && at.nowMs < l.config.closesAtMs
    ensures l.config.status.Open? && l.config.haltReason.None? && l.config.uncertainJti.None? && l.inflight.Keys == {}
    ensures l.config.identity == Identity(m.manifest.guardInstance, m.manifest.previous.policyHash,
                                          m.manifest.previous.scriptHash, m.manifest.commit)
    ensures l.config.version == m.manifest.previous.version && l.limits == m.previous
    ensures l.config.globalLimit == m.terms.globalLimit && l.config.ceiling == m.terms.ceiling
            && l.config.reservation == m.terms.reservation && l.config.model == m.terms.model
            && l.config.maxConcurrency == m.terms.maxConcurrency && l.config.closesAtMs == m.terms.closesAtMs
    ensures l.totals == Totals(m.expected.claimed, m.expected.committed, 0, m.expected.known, 0, m.manifest.knownActual, 0,
                               m.expected.sequence)
    ensures l.counts == PerPurpose(m.expected.claimed, 0, 0, 0, 0)
  {
    assert |l.inflight| == |l.inflight.Keys| == 0;
  }

  /** What it writes. */
  lemma MigrationInstalls(l: Ledger, m: Migration, at: Moment)
    requires MigrateReply(l, m, at).MigratedNew?
    ensures var l', next := Migrate(l, m, at), m.manifest.next;
            && l'.config.version == next.version && l'.config.identity.policyHash == next.policyHash
            && l'.config.identity.scriptHash == next.scriptHash
            && l'.config == l.config.(version := next.version, identity := l'.config.identity)
            && l'.config.identity.guardInstance == l.config.identity.guardInstance
            && l'.config.identity.commit == l.config.identity.commit
            && l'.receipts == l.receipts[m.key := m.manifest]
            && forall p: Purpose :: l'.limits.Of(p) == if p in m.script.written then m.next.Of(p) else l.limits.Of(p)
  {
    forall p: Purpose
      ensures Rewritten(l.limits, m.next, m.script.written).Of(p) == if p in m.script.written then m.next.Of(p) else l.limits.Of(p)
    {
    }
  }

  /** With balanced books a ledger has one listing: any two migrations it accepts, that expect as many
      settled calls as they list, list the same calls in the same order with the same costs. */
  lemma OnlyOneListing(l: Ledger, m: Migration, at: Moment, m2: Migration, at2: Moment)
    requires Balanced(l) && m.expected.known == m.script.listed && m2.expected.known == m2.script.listed
    requires Accepted(l, m, at) && Accepted(l, m2, at2)
    ensures m.manifest.calls == m2.manifest.calls
  {
    var calls, calls2 := m.manifest.calls, m2.manifest.calls;
    AcceptedMatches(l, m, at);
    AcceptedMatches(l, m2, at2);
    forall i | 0 <= i < |calls| ensures i < |calls2| && calls[i] == calls2[i] {
      ListedCallsAreOnRecord(l, m, at, i);
      CompleteManifest(l, m2, calls[i].jti);
      assert calls[i].jti in ListedIds(calls2);
      var k :| 0 <= k < |calls2| && calls2[k].jti == calls[i].jti;
      ListedCallsAreOnRecord(l, m2, at2, k);
    }
  }
}
