/** The spend ledger: its stored state and what each of its scripts does to it. A script runs
    atomically, so each is one function from a state and its arguments to a new state and a
    reply. Integers are unbounded here; every stored total stays below 2^53. */
module LedgerModel {
  import opened Prelude

  /** Token ids, digests and version names are opaque: only equality matters. */
  type Jti = nat
  type Hash = nat
  type Name = nat

  const TOKEN_TTL := 120
  const RATE_WINDOW := 3600
  const LEASE := 45

  datatype Purpose = Calibration | Baseline | Repair | Revised | Judge

  datatype PerPurpose = PerPurpose(calibration: int, baseline: int, repair: int, revised: int, judge: int) {
    function Of(p: Purpose): int {
      match p
      case Calibration => calibration
      case Baseline => baseline
      case Repair => repair
      case Revised => revised
      case Judge => judge
    }

    /** One more call of this purpose. */
    function Bump(p: Purpose): PerPurpose {
      match p
      case Calibration => this.(calibration := calibration + 1)
      case Baseline => this.(baseline := baseline + 1)
      case Repair => this.(repair := repair + 1)
      case Revised => this.(revised := revised + 1)
      case Judge => this.(judge := judge + 1)
    }

    predicate AreNonNegative() {
      calibration >= 0 && baseline >= 0 && repair >= 0 && revised >= 0 && judge >= 0
    }

    function Sum(): int {
      calibration + baseline + repair + revised + judge
    }

    predicate AtMost(that: PerPurpose) {
      calibration <= that.calibration && baseline <= that.baseline && repair <= that.repair
      && revised <= that.revised && judge <= that.judge
    }
  }

  datatype Identity = Identity(guardInstance: Name, policyHash: Hash, scriptHash: Hash, commit: Name)

  /** The policy constants a caller was built with. */
  datatype Terms = Terms(version: Name, model: Name, globalLimit: int, ceiling: int, reservation: int,
                         maxConcurrency: int, closesAtMs: int, limits: PerPurpose)

  datatype Status = Open | Quarantined | Halted

  datatype Config = Config(status: Status, identity: Identity, version: Name, model: Name, globalLimit: int,
                           ceiling: int, reservation: int, maxConcurrency: int, closesAtMs: int,
                           haltReason: Option<Error>, uncertainJti: Option<Jti>)

  datatype Totals = Totals(claimed: int, committed: int, pending: int, known: int, uncertain: int,
                           knownActual: int, uncertainUpper: int, sequence: int)

  datatype TokenState =
    | Issued
    | Expired
    | InFlight(reservation: int, sequence: int, lease: int)
    | Known(reservation: int, sequence: int, actual: int, response: Hash, digest: Hash, usage: Hash)
    | Uncertain(reservation: int, sequence: int, digest: Hash)

  datatype Auth = Auth(jti: Jti, claims: Hash, purpose: Purpose, identity: Identity, issuedAt: int, expiresAt: int,
                       state: TokenState)

  datatype RateKey = RateKey(purpose: Purpose, actor: Hash, bucket: int)

  datatype KnownCall = KnownCall(jti: Jti, sequence: int, actual: int, response: Hash, digest: Hash, usage: Hash)

  datatype Policy = Policy(version: Name, policyHash: Hash, scriptHash: Hash)

  /** Everything a migration receipt stores and a replay compares. `program` stands for the
      commit and the program that carried the migration out. */
  datatype Manifest = Manifest(id: Name, digest: Hash, program: Hash, predecessorId: Name, guardInstance: Name,
                               commit: Name, previous: Policy, next: Policy, knownActual: int,
                               calls: seq<KnownCall>)

  datatype Ledger = Ledger(config: Config, totals: Totals, limits: PerPurpose, counts: PerPurpose,
                           inflight: map<Jti, int>, auths: map<Jti, Auth>, subjects: map<Hash, Jti>,
                           rates: map<RateKey, int>, providers: map<Hash, Jti>,
                           receipts: map<Name, Manifest>)

  datatype Error =
    | GuardNotOpen | GuardHalted | GuardMismatch | PolicyMismatch | ScriptMismatch | CommitMismatch
    | ChallengeClosed | RunAdmissionInvalid | RunAdmissionModeInvalid | SubjectAlreadyClaimed | IssueRateLimit
    | ConfigDrift | UnknownToken | TokenNotIssued | JtiMismatch | ClaimsMismatch | PurposeMismatch | TokenExpired
    | StaleInflight | ConcurrencyLimit | MalformedCounter | CounterDrift | GlobalCallLimit | PurposeCallLimit
    | SpendLimit | ConflictingSettlement | TokenNotSettleable | InvalidCost | DuplicateProviderResponse
    | CostOverReservation | MissingInflightLease | TokenNotInFlight | LeaseNotExpired | InvalidReservation
    | ReceiptConflict | ReplayStateMismatch | StateMismatch | OldConfigMismatch | PredecessorMismatch
    | KnownCallMismatch | AnchorMismatch | InventoryMismatch | SpareMismatch

  datatype Reply =
    | IssuedNew(issuedAt: int, expiresAt: int)
    | IssuedExisting(issuedAt: int, expiresAt: int)
    | Granted(sequence: int, claimed: int, committed: int, lease: int)
    | KnownNew(actual: int)
    | KnownExisting(actual: int)
    | UncertainNew(upper: int)
    | UncertainExisting
    | MigratedNew
    | MigratedExisting
    | Refused(error: Error)

  /** The separate run-admission record a call may have to present, judged elsewhere. */
  datatype Admission = NotRequired | Required(valid: bool) | UnknownMode

  datatype IssueRequest = IssueRequest(identity: Identity, jti: Jti, claims: Hash, purpose: Purpose, subject: Hash,
                                       actor: Hash, purposeLimit: int, admission: Admission)

  datatype BeginRequest = BeginRequest(identity: Identity, jti: Jti, claims: Hash, purpose: Purpose, terms: Terms,
                                       admission: Admission)

  datatype KnownRequest = KnownRequest(identity: Identity, jti: Jti, actual: int, response: Hash, digest: Hash,
                                       usage: Hash)

  datatype UncertainRequest = UncertainRequest(identity: Identity, jti: Jti, digest: Hash)

  function InitialConfig(identity: Identity, t: Terms): Config {
    Config(Open, identity, t.version, t.model, t.globalLimit, t.ceiling, t.reservation, t.maxConcurrency,
           t.closesAtMs, None, None)
  }

  /** A freshly initialised guard. */
  function Initialised(identity: Identity, t: Terms): Ledger {
    Ledger(InitialConfig(identity, t), Totals(0, 0, 0, 0, 0, 0, 0, 0), t.limits, PerPurpose(0, 0, 0, 0, 0),
           map[], map[], map[], map[], map[], map[])
  }

  function Halt(c: Config, e: Error): Config {
    c.(status := Halted, haltReason := Some(e))
  }

  function WrongIdentity(mine: Identity, yours: Identity): Option<Error> {
    if mine.guardInstance != yours.guardInstance then Some(GuardMismatch)
    else if mine.policyHash != yours.policyHash then Some(PolicyMismatch)
    else if mine.scriptHash != yours.scriptHash then Some(ScriptMismatch)
    else if mine.commit != yours.commit then Some(CommitMismatch)
    else None
  }

  function NotAdmitted(a: Admission): Option<Error> {
    match a
    case NotRequired => None
    case Required(valid) => if valid then None else Some(RunAdmissionInvalid)
    case UnknownMode => Some(RunAdmissionModeInvalid)
  }

  function Get<K, V>(m: map<K, V>, k: K, absent: V): V {
    if k in m then m[k] else absent
  }

  // ----- issue ---------------------------------------------------------------------------

  function RateKeyOf(r: IssueRequest, now: nat): RateKey {
    RateKey(r.purpose, r.actor, now / RATE_WINDOW)
  }

  function IssueReply(l: Ledger, r: IssueRequest, now: nat): Reply {
    if !l.config.status.Open? then Refused(GuardNotOpen) else
    var wrong := WrongIdentity(l.config.identity, r.identity);
    if wrong.Some? then Refused(wrong.value)
    else if now * 1000 >= l.config.closesAtMs then Refused(ChallengeClosed) else
    var admitted := NotAdmitted(r.admission);
    if admitted.Some? then Refused(admitted.value)
    else if r.subject in l.subjects then
      if l.subjects[r.subject] == r.jti && r.jti in l.auths && l.auths[r.jti].state.Issued?
         && l.auths[r.jti].claims == r.claims && l.auths[r.jti].expiresAt > now then
        IssuedExisting(l.auths[r.jti].issuedAt, l.auths[r.jti].expiresAt)
      else Refused(SubjectAlreadyClaimed)
    else if Get(l.rates, RateKeyOf(r, now), 0) >= r.purposeLimit then Refused(IssueRateLimit)
    else IssuedNew(now, now + TOKEN_TTL)
  }

  function NewAuth(r: IssueRequest, now: nat): Auth {
    Auth(r.jti, r.claims, r.purpose, r.identity, now, now + TOKEN_TTL, Issued)
  }

  function Issue(l: Ledger, r: IssueRequest, now: nat): Ledger {
    if !IssueReply(l, r, now).IssuedNew? then l else
    l.(subjects := l.subjects[r.subject := r.jti],
       auths := l.auths[r.jti := NewAuth(r, now)],
       rates := l.rates[RateKeyOf(r, now) := Get(l.rates, RateKeyOf(r, now), 0) + 1])
  }

  // ----- begin ---------------------------------------------------------------------------

  predicate TermsMatch(l: Ledger, t: Terms) {
    l.config.globalLimit == t.globalLimit && l.config.ceiling == t.ceiling && l.config.reservation == t.reservation
    && l.config.maxConcurrency == t.maxConcurrency && l.config.version == t.version && l.config.model == t.model
    && l.config.closesAtMs == t.closesAtMs && l.limits == t.limits
  }

  predicate NonNegative(t: Totals, c: PerPurpose) {
    t.claimed >= 0 && t.committed >= 0 && t.pending >= 0 && t.known >= 0 && t.uncertain >= 0 && t.knownActual >= 0
    && t.uncertainUpper >= 0 && t.sequence >= 0 && c.AreNonNegative()
  }

  /** The conservation laws that begin checks and the status reader reports. */
  predicate Laws(l: Ledger) {
    var t := l.totals;
    && t.committed == t.claimed * l.config.reservation
    && t.pending + t.known + t.uncertain == t.claimed
    && l.counts.Sum() == t.claimed
    && t.sequence == t.claimed
    && |l.inflight| == t.pending
    && t.knownActual <= t.known * l.config.reservation
    && t.uncertainUpper == t.uncertain * l.config.reservation
  }

  function TokenRefusal(l: Ledger, r: BeginRequest): Option<Error> {
    if r.jti !in l.auths then Some(UnknownToken) else
    var a := l.auths[r.jti];
    if !a.state.Issued? then Some(TokenNotIssued)
    else if a.jti != r.jti then Some(JtiMismatch)
    else if a.claims != r.claims then Some(ClaimsMismatch)
    else if a.purpose != r.purpose then Some(PurposeMismatch)
    else None
  }

  function CounterRefusal(l: Ledger, r: BeginRequest): Option<Error> {
    if !NonNegative(l.totals, l.counts) then Some(MalformedCounter)
    else if !Laws(l) || !l.counts.AtMost(r.terms.limits) then Some(CounterDrift)
    else if l.totals.claimed + 1 > l.config.globalLimit then Some(GlobalCallLimit)
    else if l.counts.Of(r.purpose) + 1 > l.limits.Of(r.purpose) then Some(PurposeCallLimit)
    else if l.totals.committed + l.config.reservation > l.config.ceiling then Some(SpendLimit)
    else None
  }

  /** Is the guard open, and is the caller built for this very policy? */
  function GuardRefusal(l: Ledger, r: BeginRequest): Option<Error> {
    if !l.config.status.Open? then Some(GuardNotOpen)
    else if WrongIdentity(l.config.identity, r.identity).Some? then WrongIdentity(l.config.identity, r.identity)
    else if !TermsMatch(l, r.terms) || l.config.haltReason.Some? || l.config.uncertainJti.Some? then Some(ConfigDrift)
    else None
  }

  /** Is it this token's turn? */
  function TurnRefusal(l: Ledger, r: BeginRequest, now: nat): Option<Error> {
    if TokenRefusal(l, r).Some? then TokenRefusal(l, r)
    else if now * 1000 >= r.terms.closesAtMs then Some(ChallengeClosed)
    else if NotAdmitted(r.admission).Some? then NotAdmitted(r.admission)
    else if l.auths[r.jti].expiresAt <= now then Some(TokenExpired)
    else if exists j | j in l.inflight :: l.inflight[j] <= now then Some(StaleInflight)
    else if |l.inflight| >= l.config.maxConcurrency then Some(ConcurrencyLimit)
    else None
  }

  function BeginRefusal(l: Ledger, r: BeginRequest, now: nat): Option<Error> {
    if GuardRefusal(l, r).Some? then GuardRefusal(l, r)
    else if TurnRefusal(l, r, now).Some? then TurnRefusal(l, r, now)
    else CounterRefusal(l, r)
  }

  predicate BeginHalts(e: Error) {
    e.ConfigDrift? || e.MalformedCounter? || e.CounterDrift?
  }

  function BeginReply(l: Ledger, r: BeginRequest, now: nat): Reply {
    var refusal := BeginRefusal(l, r, now);
    if refusal.Some? then Refused(refusal.value)
    else Granted(l.totals.sequence + 1, l.totals.claimed + 1, l.totals.committed + l.config.reservation, now + LEASE)
  }

  function Dispatch(l: Ledger, r: BeginRequest, now: nat): Ledger
    requires r.jti in l.auths
  {
    var t := l.totals;
    l.(totals := t.(sequence := t.sequence + 1, claimed := t.claimed + 1,
                    committed := t.committed + l.config.reservation, pending := t.pending + 1),
       counts := l.counts.Bump(r.purpose),
       auths := l.auths[r.jti := l.auths[r.jti].(state := InFlight(l.config.reservation, t.sequence + 1, now + LEASE))],
       inflight := l.inflight[r.jti := now + LEASE])
  }

  function Begin(l: Ledger, r: BeginRequest, now: nat): Ledger {
    match BeginRefusal(l, r, now)
    case None => Dispatch(l, r, now)
    case Some(e) =>
      if BeginHalts(e) then l.(config := Halt(l.config, e))
      else if e.TokenExpired? then l.(auths := l.auths[r.jti := l.auths[r.jti].(state := Expired)])
      else l
  }

  /** A begin that is not granted expires its token, halts the guard, or changes nothing. */
  lemma RefusedBegin(l: Ledger, r: BeginRequest, now: nat)
    requires BeginRefusal(l, r, now).Some?
    ensures var e := BeginRefusal(l, r, now).value;
            if e.TokenExpired? then
              r.jti in l.auths && l.auths[r.jti].state.Issued?
              && Begin(l, r, now) == l.(auths := l.auths[r.jti := l.auths[r.jti].(state := Expired)])
            else Begin(l, r, now) == if BeginHalts(e) then l.(config := Halt(l.config, e)) else l
  {
  }

  // ----- settle with a known cost ----------------------------------------------------------

  function KnownReply(l: Ledger, r: KnownRequest): Reply {
    var wrong := WrongIdentity(l.config.identity, r.identity);
    if wrong.Some? then Refused(wrong.value)
    else if r.jti !in l.auths then Refused(UnknownToken) else
    var a := l.auths[r.jti];
    if a.state.Known? then
      if a.state.digest == r.digest then KnownExisting(a.state.actual) else Refused(ConflictingSettlement)
    else if !a.state.InFlight? && !a.state.Uncertain? then Refused(TokenNotSettleable)
    else if a.state.reservation < 0 || r.actual < 0 then Refused(InvalidCost)
    else if r.response in l.providers then Refused(DuplicateProviderResponse)
    else if r.actual > a.state.reservation then Refused(CostOverReservation)
    else if a.state.InFlight? && a.jti !in l.inflight then Refused(MissingInflightLease)
    else KnownNew(r.actual)
  }

  predicate KnownHalts(e: Error) {
    e.ConflictingSettlement? || e.DuplicateProviderResponse? || e.CostOverReservation? || e.MissingInflightLease?
  }

  /** Settling the token named by the quarantine marker clears it, and reopens the guard. */
  function ClearMarker(c: Config, jti: Jti): Config {
    if c.uncertainJti != Some(jti) then c
    else if c.status.Quarantined? && c.haltReason.None? then c.(uncertainJti := None, status := Open)
    else c.(uncertainJti := None)
  }

  function FileKnown(l: Ledger, r: KnownRequest): Ledger
    requires r.jti in l.auths && Dispatchable(l.auths[r.jti])
  {
    var a := l.auths[r.jti];
    l.(auths := l.auths[r.jti := a.(state := Known(a.state.reservation, a.state.sequence, r.actual, r.response,
                                                   r.digest, r.usage))],
       providers := l.providers[r.response := a.jti],
       totals := l.totals.(known := l.totals.known + 1, knownActual := l.totals.knownActual + r.actual))
  }

  predicate Dispatchable(a: Auth) {
    a.state.InFlight? || a.state.Uncertain?
  }

  function LeaveFlight(l: Ledger, jti: Jti): Ledger {
    l.(inflight := l.inflight - {jti}, totals := l.totals.(pending := l.totals.pending - 1))
  }

  function LeaveUncertain(l: Ledger, jti: Jti, reservation: int): Ledger {
    l.(config := ClearMarker(l.config, jti),
       totals := l.totals.(uncertain := l.totals.uncertain - 1,
                           uncertainUpper := l.totals.uncertainUpper - reservation))
  }

  function SettleKnown(l: Ledger, r: KnownRequest): Ledger {
    var reply := KnownReply(l, r);
    if reply.Refused? then
      if KnownHalts(reply.error) then l.(config := Halt(l.config, reply.error)) else l
    else if !reply.KnownNew? then l else
    var a := l.auths[r.jti];
    if a.state.InFlight? then LeaveFlight(FileKnown(l, r), a.jti)
    else LeaveUncertain(FileKnown(l, r), a.jti, a.state.reservation)
  }

  // ----- settle as uncertain, and reap -------------------------------------------------------

  function UncertainReply(l: Ledger, r: UncertainRequest, reapAt: Option<nat>): Reply {
    if l.config.status.Halted? then Refused(GuardHalted) else
    var wrong := WrongIdentity(l.config.identity, r.identity);
    if wrong.Some? then Refused(wrong.value)
    else if r.jti !in l.auths || l.auths[r.jti].jti != r.jti then Refused(JtiMismatch) else
    var a := l.auths[r.jti];
    if a.state.Uncertain? then
      if a.state.digest == r.digest then UncertainExisting else Refused(ConflictingSettlement)
    else if !a.state.InFlight? then Refused(TokenNotInFlight)
    else if reapAt.Some? && r.jti !in l.inflight then Refused(MissingInflightLease)
    else if reapAt.Some? && l.inflight[r.jti] > reapAt.value then Refused(LeaseNotExpired)
    else if a.state.reservation < 0 then Refused(InvalidReservation)
    else if r.jti !in l.inflight then Refused(MissingInflightLease)
    else UncertainNew(a.state.reservation)
  }

  function GiveUp(l: Ledger, r: UncertainRequest): Ledger
    requires r.jti in l.auths && l.auths[r.jti].state.InFlight?
  {
    var a, t := l.auths[r.jti], l.totals;
    l.(inflight := l.inflight - {r.jti},
       totals := t.(pending := t.pending - 1, uncertain := t.uncertain + 1,
                    uncertainUpper := t.uncertainUpper + a.state.reservation),
       config := l.config.(status := Quarantined, uncertainJti := Some(r.jti)),
       auths := l.auths[r.jti := a.(state := Uncertain(a.state.reservation, a.state.sequence, r.digest))])
  }

  /** Both ways to give up on a call: an explicit settlement (`reapAt` absent), or a reap at a
      given time, which also needs the lease to have run out. */
  function SettleUncertain(l: Ledger, r: UncertainRequest, reapAt: Option<nat>): Ledger {
    var reply := UncertainReply(l, r, reapAt);
    if reply.UncertainNew? then GiveUp(l, r)
    else if reply == Refused(MissingInflightLease) then l.(config := Halt(l.config, MissingInflightLease))
    else l
  }

  // ----- any call ------------------------------------------------------------------------------

  datatype Call =
    | IssueCall(issue: IssueRequest, now: nat)
    | BeginCall(begin: BeginRequest, now: nat)
    | KnownCallOf(known: KnownRequest)
    | UncertainCall(uncertain: UncertainRequest)
    | ReapCall(uncertain: UncertainRequest, now: nat)

  function Apply(l: Ledger, c: Call): Ledger {
    match c
    case IssueCall(r, now) => Issue(l, r, now)
    case BeginCall(r, now) => Begin(l, r, now)
    case KnownCallOf(r) => SettleKnown(l, r)
    case UncertainCall(r) => SettleUncertain(l, r, None)
    case ReapCall(r, now) => SettleUncertain(l, r, Some(now))
  }
}
