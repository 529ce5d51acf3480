/** The guard as the stored hashes it really is. Each script reads and rewrites them step by
    step; each is proved to do exactly what its specification in `LedgerModel` says. */
module LedgerGuard {
  import opened Prelude
  import opened LedgerModel

  class Guard {
    var config: Config
    var totals: Totals
    var limits: PerPurpose
    var counts: PerPurpose
    var inflight: map<Jti, int>
    var auths: map<Jti, Auth>
    var subjects: map<Hash, Jti>
    var rates: map<RateKey, int>
    var providers: map<Hash, Jti>
    var receipts: map<Name, Manifest>

    function State(): Ledger
      reads this
    {
      Ledger(config, totals, limits, counts, inflight, auths, subjects, rates, providers, receipts)
    }

    constructor (identity: Identity, t: Terms)
      ensures State() == Initialised(identity, t)
    {
      config := InitialConfig(identity, t);
      totals := Totals(0, 0, 0, 0, 0, 0, 0, 0);
      limits := t.limits;
      counts := PerPurpose(0, 0, 0, 0, 0);
      inflight, auths, subjects, rates, providers, receipts := map[], map[], map[], map[], map[], map[];
    }

    method HaltWith(e: Error) returns (reply: Reply)
      modifies this`config
      ensures State() == old(State()).(config := Halt(old(config), e)) && reply == Refused(e)
    {
      config := config.(status := Halted, haltReason := Some(e));
      return Refused(e);
    }

    method Issue(r: IssueRequest, now: nat) returns (reply: Reply)
      modifies this`subjects, this`auths, this`rates
      ensures State() == LedgerModel.Issue(old(State()), r, now) && reply == IssueReply(old(State()), r, now)
    {
      if config.status != Open {
        return Refused(GuardNotOpen);
      }
      var wrong := WrongIdentity(config.identity, r.identity);
      if wrong.Some? {
        return Refused(wrong.value);
      }
      if now * 1000 >= config.closesAtMs {
        return Refused(ChallengeClosed);
      }
      var denied := NotAdmitted(r.admission);
      if denied.Some? {
        return Refused(denied.value);
      }
      if r.subject in subjects {
        if subjects[r.subject] == r.jti && r.jti in auths && auths[r.jti].state.Issued?
           && auths[r.jti].claims == r.claims && auths[r.jti].expiresAt > now {
          return IssuedExisting(auths[r.jti].issuedAt, auths[r.jti].expiresAt);
        }
        return Refused(SubjectAlreadyClaimed);
      }
      var key := RateKey(r.purpose, r.actor, now / RATE_WINDOW);
      var issued := Get(rates, key, 0);
      if issued >= r.purposeLimit {
        return Refused(IssueRateLimit);
      }
      subjects := subjects[r.subject := r.jti];
      auths := auths[r.jti := Auth(r.jti, r.claims, r.purpose, r.identity, now, now + TOKEN_TTL, Issued)];
      rates := rates[key := issued + 1];
      return IssuedNew(now, now + TOKEN_TTL);
    }

    method CheckGuard(r: BeginRequest) returns (refusal: Option<Error>)
      ensures refusal == GuardRefusal(State(), r)
    {
      if config.status != Open {
        return Some(GuardNotOpen);
      }
      if config.identity.guardInstance != r.identity.guardInstance {
        return Some(GuardMismatch);
      }
      if config.identity.policyHash != r.identity.policyHash {
        return Some(PolicyMismatch);
      }
      if config.identity.scriptHash != r.identity.scriptHash {
        return Some(ScriptMismatch);
      }
      if config.identity.commit != r.identity.commit {
        return Some(CommitMismatch);
      }
      if config.globalLimit != r.terms.globalLimit || config.ceiling != r.terms.ceiling
         || config.reservation != r.terms.reservation || config.maxConcurrency != r.terms.maxConcurrency
         || config.version != r.terms.version || config.model != r.terms.model
         || config.closesAtMs != r.terms.closesAtMs || limits != r.terms.limits
         || config.haltReason.Some? || config.uncertainJti.Some? {
        return Some(ConfigDrift);
      }
      return None;
    }

    method CheckToken(r: BeginRequest) returns (refusal: Option<Error>)
      ensures refusal == TokenRefusal(State(), r)
    {
      if r.jti !in auths {
        return Some(UnknownToken);
      }
      var a := auths[r.jti];
      if a.state != Issued {
        return Some(TokenNotIssued);
      }
      if a.jti != r.jti {
        return Some(JtiMismatch);
      }
      if a.claims != r.claims {
        return Some(ClaimsMismatch);
      }
      if a.purpose != r.purpose {
        return Some(PurposeMismatch);
      }
      return None;
    }

    method CheckTurn(r: BeginRequest, now: nat) returns (refusal: Option<Error>)
      ensures refusal == TurnRefusal(State(), r, now)
    {
      refusal := CheckToken(r);
      if refusal.Some? {
        return;
      }
      if now * 1000 >= r.terms.closesAtMs {
        return Some(ChallengeClosed);
      }
      refusal := NotAdmitted(r.admission);
      if refusal.Some? {
        return;
      }
      if auths[r.jti].expiresAt <= now {
        return Some(TokenExpired);
      }
      if exists j | j in inflight :: inflight[j] <= now {
        return Some(StaleInflight);
      }
      if |inflight| >= config.maxConcurrency {
        return Some(ConcurrencyLimit);
      }
    }

    method CheckCounters(r: BeginRequest) returns (refusal: Option<Error>)
      ensures refusal == CounterRefusal(State(), r)
    {
      var t, active := totals, |inflight|;
      var sum := counts.calibration + counts.baseline + counts.repair + counts.revised + counts.judge;
      if t.claimed < 0 || t.committed < 0 || t.pending < 0 || t.known < 0 || t.uncertain < 0 || t.knownActual < 0
         || t.uncertainUpper < 0 || t.sequence < 0 || counts.calibration < 0 || counts.baseline < 0 || counts.repair < 0
         || counts.revised < 0 || counts.judge < 0 {
        return Some(MalformedCounter);
      }
      if t.committed != t.claimed * config.reservation || t.pending + t.known + t.uncertain != t.claimed
         || sum != t.claimed || t.sequence != t.claimed || active != t.pending
         || t.knownActual > t.known * config.reservation || t.uncertainUpper != t.uncertain * config.reservation
         || counts.calibration > r.terms.limits.calibration || counts.baseline > r.terms.limits.baseline
         || counts.repair > r.terms.limits.repair || counts.revised > r.terms.limits.revised
         || counts.judge > r.terms.limits.judge {
        return Some(CounterDrift);
      }
      if t.claimed + 1 > config.globalLimit {
        return Some(GlobalCallLimit);
      }
      if counts.Of(r.purpose) + 1 > limits.Of(r.purpose) {
        return Some(PurposeCallLimit);
      }
      if t.committed + config.reservation > config.ceiling {
        return Some(SpendLimit);
      }
      return None;
    }

    method Grant(r: BeginRequest, now: nat) returns (reply: Reply)
      requires r.jti in auths
      modifies this`totals, this`counts, this`auths, this`inflight
      ensures State() == Dispatch(old(State()), r, now)
      ensures reply == Granted(totals.sequence, totals.claimed, totals.committed, now + LEASE)
    {
      totals := totals.(sequence := totals.sequence + 1);
      var lease := now + LEASE;
      totals := totals.(claimed := totals.claimed + 1);
      totals := totals.(committed := totals.committed + config.reservation);
      totals := totals.(pending := totals.pending + 1);
      counts := counts.Bump(r.purpose);
      auths := auths[r.jti := auths[r.jti].(state := InFlight(config.reservation, totals.sequence, lease))];
      inflight := inflight[r.jti := lease];
      return Granted(totals.sequence, totals.claimed, totals.committed, lease);
    }

    method Begin(r: BeginRequest, now: nat) returns (reply: Reply)
      modifies this`config, this`totals, this`counts, this`auths, this`inflight
      ensures State() == LedgerModel.Begin(old(State()), r, now) && reply == BeginReply(old(State()), r, now)
    {
      var refusal := CheckGuard(r);
      if refusal.None? {
        refusal := CheckTurn(r, now);
        if refusal.None? {
          refusal := CheckCounters(r);
        }
      }
      assert refusal == BeginRefusal(State(), r, now);
      if refusal.None? {
        reply := Grant(r, now);
      } else if BeginHalts(refusal.value) {
        reply := HaltWith(refusal.value);
      } else {
        if refusal.value.TokenExpired? {
          auths := auths[r.jti := auths[r.jti].(state := Expired)];
        }
        reply := Refused(refusal.value);
      }
    }

    /** What a settlement, an uncertain settlement and a reap check first. */
    method CheckIdentity(mine: Identity) returns (refusal: Option<Error>)
      ensures refusal == WrongIdentity(config.identity, mine)
    {
      if config.identity.guardInstance != mine.guardInstance {
        return Some(GuardMismatch);
      }
      if config.identity.policyHash != mine.policyHash {
        return Some(PolicyMismatch);
      }
      if config.identity.scriptHash != mine.scriptHash {
        return Some(ScriptMismatch);
      }
      if config.identity.commit != mine.commit {
        return Some(CommitMismatch);
      }
      return None;
    }

    /** Settling a call in flight or uncertain: the lease or the uncertain amounts go first, and the
        marker if it names this call; then the cost, the response and the record are filed. */
    method FileSettlement(r: KnownRequest)
      requires r.jti in auths && Dispatchable(auths[r.jti])
      modifies this`config, this`totals, this`auths, this`inflight, this`providers
      ensures var a := old(auths[r.jti]);
              State() == if a.state.InFlight? then LeaveFlight(FileKnown(old(State()), r), a.jti)
                         else LeaveUncertain(FileKnown(old(State()), r), a.jti, a.state.reservation)
    {
      var a := auths[r.jti];
      if a.state.InFlight? {
        inflight := inflight - {a.jti};
        totals := totals.(pending := totals.pending - 1);
      } else {
        totals := totals.(uncertain := totals.uncertain - 1);
        totals := totals.(uncertainUpper := totals.uncertainUpper - a.state.reservation);
        if config.uncertainJti == Some(a.jti) {
          config := config.(uncertainJti := None);
          if config.status == Quarantined && config.haltReason.None? {
            config := config.(status := Open);
          }
        }
      }
      totals := totals.(known := totals.known + 1);
      totals := totals.(knownActual := totals.knownActual + r.actual);
      providers := providers[r.response := a.jti];
      auths := auths[r.jti := a.(state := Known(a.state.reservation, a.state.sequence, r.actual, r.response, r.digest,
                                                r.usage))];
    }

    method SettleKnown(r: KnownRequest) returns (reply: Reply)
      modifies this`config, this`totals, this`auths, this`inflight, this`providers
      ensures State() == LedgerModel.SettleKnown(old(State()), r) && reply == KnownReply(old(State()), r)
    {
      var wrong := CheckIdentity(r.identity);
      if wrong.Some? {
        return Refused(wrong.value);
      }
      if r.jti !in auths {
        return Refused(UnknownToken);
      }
      var a := auths[r.jti];
      if a.state.Known? {
        if a.state.digest == r.digest {
          return KnownExisting(a.state.actual);
        }
        reply := HaltWith(ConflictingSettlement);
        return;
      }
      if !a.state.InFlight? && !a.state.Uncertain? {
        return Refused(TokenNotSettleable);
      }
      if a.state.reservation < 0 || r.actual < 0 {
        return Refused(InvalidCost);
      }
      if r.response in providers {
        reply := HaltWith(DuplicateProviderResponse);
        return;
      }
      if r.actual > a.state.reservation {
        reply := HaltWith(CostOverReservation);
        return;
      }
      if a.state.InFlight? && a.jti !in inflight {
        reply := HaltWith(MissingInflightLease);
        return;
      }
      FileSettlement(r);
      return KnownNew(r.actual);
    }

    method GiveUpOn(r: UncertainRequest)
      requires r.jti in auths && auths[r.jti].state.InFlight?
      modifies this`config, this`totals, this`auths, this`inflight
      ensures State() == GiveUp(old(State()), r)
    {
      var a := auths[r.jti];
      inflight := inflight - {r.jti};
      totals := totals.(pending := totals.pending - 1);
      totals := totals.(uncertain := totals.uncertain + 1);
      totals := totals.(uncertainUpper := totals.uncertainUpper + a.state.reservation);
      config := config.(status := Quarantined, uncertainJti := Some(r.jti));
      auths := auths[r.jti := a.(state := Uncertain(a.state.reservation, a.state.sequence, r.digest))];
    }

    /** What both ways to give up on a call check before they look at the lease: a reply, or
        nothing when the call is in flight. */
    method CheckGivingUp(r: UncertainRequest) returns (reply: Option<Reply>)
      ensures reply.Some? ==> forall at :: reply.value == UncertainReply(State(), r, at)
      ensures reply.Some? ==> reply.value != Refused(MissingInflightLease) && !reply.value.UncertainNew?
      ensures reply.None? ==> !config.status.Halted? && WrongIdentity(config.identity, r.identity).None?
                              && r.jti in auths && auths[r.jti].jti == r.jti && auths[r.jti].state.InFlight?
    {
      if config.status == Halted {
        return Some(Refused(GuardHalted));
      }
      var wrong := CheckIdentity(r.identity);
      if wrong.Some? {
        return Some(Refused(wrong.value));
      }
      if r.jti !in auths || auths[r.jti].jti != r.jti {
        return Some(Refused(JtiMismatch));
      }
      var a := auths[r.jti];
      if a.state.Uncertain? {
        return Some(if a.state.digest == r.digest then UncertainExisting else Refused(ConflictingSettlement));
      }
      if !a.state.InFlight? {
        return Some(Refused(TokenNotInFlight));
      }
      return None;
    }

    method SettleUncertain(r: UncertainRequest) returns (reply: Reply)
      modifies this`config, this`totals, this`auths, this`inflight
      ensures State() == LedgerModel.SettleUncertain(old(State()), r, None)
      ensures reply == UncertainReply(old(State()), r, None)
    {
      var early := CheckGivingUp(r);
      if early.Some? {
        return early.value;
      }
      var reservation := auths[r.jti].state.reservation;
      if reservation < 0 {
        return Refused(InvalidReservation);
      }
      if r.jti !in inflight {
        reply := HaltWith(MissingInflightLease);
        return;
      }
      GiveUpOn(r);
      return UncertainNew(reservation);
    }

    method Reap(r: UncertainRequest, now: nat) returns (reply: Reply)
      modifies this`config, this`totals, this`auths, this`inflight
      ensures State() == LedgerModel.SettleUncertain(old(State()), r, Some(now))
      ensures reply == UncertainReply(old(State()), r, Some(now))
    {
      var early := CheckGivingUp(r);
      if early.Some? {
        return early.value;
      }
      if r.jti !in inflight {
        reply := HaltWith(MissingInflightLease);
        return;
      }
      if inflight[r.jti] > now {
        return Refused(LeaseNotExpired);
      }
      var reservation := auths[r.jti].state.reservation;
      if reservation < 0 {
        return Refused(InvalidReservation);
      }
      GiveUpOn(r);
      return UncertainNew(reservation);
    }
  }
}
