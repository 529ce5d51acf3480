/** The chain of migrations as it really runs: calls under one policy, a migration that lists them
    all, calls under the next policy, and so on. Every such chain goes through, whatever the ids,
    costs and times; the four migrations of the repository are one of them. */
module LedgerChain {
  import opened Prelude
  import opened LedgerModel
  import opened LedgerAccounting
  import opened LedgerMigration
  import opened LedgerSchedule

  /** A call that was made, and the policy and script it was authorised under. */
  datatype Made = Made(call: Planned, origin: Origin)

  /** What has happened so far, told without the ledger: the policy in force, the calls made, the
      receipts filed, the authorisation left unused under this policy, all ids left unused, and
      the actors seen. */
  datatype History = History(identity: Identity, terms: Terms, made: seq<Made>, receipts: map<Name, Manifest>,
                             left: Option<Planned>, unused: set<Jti>, actors: set<Hash>)

  /** One migration, as its operator sees it. */
  datatype Adoption = Adoption(key: Name, id: Name, digest: Hash, program: Hash, predecessor: Option<Predecessor>,
                               next: Policy, limits: PerPurpose, written: set<Purpose>, inventory: bool, at: Moment)

  datatype Move = Make(call: Planned) | Leave(call: Planned) | Adopt(adoption: Adoption)

  function CallsOf(made: seq<Made>): seq<Planned> {
    seq(|made|, i requires 0 <= i < |made| => made[i].call)
  }

  function ListedAt(m: Made, i: nat): KnownCall {
    KnownCall(m.call.jti, i + 1, m.call.actual, m.call.response, m.call.digest, m.call.usage)
  }

  function Listed(made: seq<Made>): seq<KnownCall> {
    seq(|made|, i requires 0 <= i < |made| => ListedAt(made[i], i))
  }

  function Origins(made: seq<Made>): seq<Origin> {
    seq(|made|, i requires 0 <= i < |made| => made[i].origin)
  }

  function OriginNow(h: History): Origin {
    Origin(h.identity.policyHash, h.identity.scriptHash)
  }

  function PolicyNow(h: History): Policy {
    Policy(h.terms.version, h.identity.policyHash, h.identity.scriptHash)
  }

  function ManifestOf(h: History, a: Adoption): Manifest {
    Manifest(a.id, a.digest, a.program, if a.predecessor.Some? then a.predecessor.value.manifest.id else 0,
             h.identity.guardInstance, h.identity.commit, PolicyNow(h), a.next, ActualSum(Listed(h.made)), Listed(h.made))
  }

  function ExpectedOf(h: History): Expected {
    Expected(|h.made|, |h.made| * h.terms.reservation, |h.made|, |h.made|)
  }

  function SpareOf(p: Planned): Spare {
    Spare(p.jti, p.claims, p.subject, p.issueAt, RateKey(p.purpose, p.actor, p.issueAt / RATE_WINDOW), 1)
  }

  /** The migration that lists every call made so far. */
  function MigrationOf(h: History, a: Adoption): Migration {
    Migration(Script(|h.made|, a.written), a.key, a.predecessor, ManifestOf(h, a), Origins(h.made), h.terms,
              ExpectedOf(h), h.terms.limits, a.limits,
              if a.inventory && h.left.Some? then Some(SpareOf(h.left.value)) else None)
  }

  function AfterMake(h: History, p: Planned): History {
    h.(made := h.made + [Made(p, OriginNow(h))], actors := h.actors + {p.actor})
  }

  function AfterLeave(h: History, p: Planned): History {
    h.(left := Some(p), unused := h.unused + {p.jti}, actors := h.actors + {p.actor})
  }

  function AfterAdopt(h: History, a: Adoption): History {
    h.(identity := h.identity.(policyHash := a.next.policyHash, scriptHash := a.next.scriptHash),
       terms := h.terms.(version := a.next.version, limits := Rewritten(h.terms.limits, a.limits, a.written)),
       receipts := h.receipts[a.key := ManifestOf(h, a)], left := None)
  }

  function Next(h: History, m: Move): History {
    match m
    case Make(p) => AfterMake(h, p)
    case Leave(p) => AfterLeave(h, p)
    case Adopt(a) => AfterAdopt(h, a)
  }

  function Moved(l: Ledger, h: History, m: Move): Ledger {
    match m
    case Make(p) => AfterSettle(l, h.identity, h.terms, p)
    case Leave(p) => AfterIssue(l, h.identity, h.terms, p)
    case Adopt(a) => Migrate(l, MigrationOf(h, a), a.at)
  }

  /** The move does what it sets out to do. */
  predicate Succeeds(l: Ledger, h: History, m: Move) {
    match m
    case Make(p) => Admitted(l, h.identity, h.terms, p)
    case Leave(p) => IssueReply(l, IssueOf(h.identity, h.terms, p), p.issueAt).IssuedNew?
    case Adopt(a) => MigrateReply(l, MigrationOf(h, a), a.at).MigratedNew?
  }

  predicate AllSucceed(l: Ledger, h: History, moves: seq<Move>)
    decreases |moves|
  {
    moves == [] || (Succeeds(l, h, moves[0]) && AllSucceed(Moved(l, h, moves[0]), Next(h, moves[0]), moves[1..]))
  }

  function EndOf(l: Ledger, h: History, moves: seq<Move>): Ledger
    decreases |moves|
  {
    if moves == [] then l else EndOf(Moved(l, h, moves[0]), Next(h, moves[0]), moves[1..])
  }

  function HistoryAfter(h: History, moves: seq<Move>): History
    decreases |moves|
  {
    if moves == [] then h else HistoryAfter(Next(h, moves[0]), moves[1..])
  }

  // ----- what the history has to respect ---------------------------------------------------------------

  predicate FitsMake(h: History, p: Planned) {
    p.purpose.Calibration? && TimelyAndCheap(h.terms, p) && |h.made| < h.terms.limits.calibration
    && (h.left.Some? ==> p.actor != h.left.value.actor)
  }

  predicate FitsLeave(h: History, p: Planned) {
    p.purpose.Calibration? && p.issueAt * 1000 < h.terms.closesAtMs && p.actor !in h.actors && h.left.None?
    && h.made != []
  }

  predicate FitsAdopt(h: History, a: Adoption) {
    && a.key !in h.receipts && a.at.nowMs < h.terms.closesAtMs
    && TermsOk(AfterAdopt(h, a).terms) && |h.made| <= AfterAdopt(h, a).terms.limits.calibration
    && (a.predecessor.Some? ==> a.predecessor.value.key in h.receipts
                                && h.receipts[a.predecessor.value.key] == a.predecessor.value.manifest)
    && (a.inventory ==> h.left.Some? && h.unused == {h.left.value.jti} && a.at.anchored
                        && h.left.value.issueAt + TOKEN_TTL <= a.at.nowMs / 1000)
  }

  predicate Fits(h: History, m: Move) {
    match m
    case Make(p) => FitsMake(h, p)
    case Leave(p) => FitsLeave(h, p)
    case Adopt(a) => FitsAdopt(h, a)
  }

  predicate AllFit(h: History, moves: seq<Move>)
    decreases |moves|
  {
    moves == [] || (Fits(h, moves[0]) && AllFit(Next(h, moves[0]), moves[1..]))
  }

  /** No id of this call has been seen. */
  predicate New(l: Ledger, p: Planned) {
    p.jti !in l.auths && p.subject !in l.subjects && p.response !in l.providers
  }

  predicate Apart(p: Planned, q: Planned) {
    p.jti != q.jti && p.subject != q.subject && p.response != q.response
  }

  /** The calls that are issued, in order. */
  function Issues(moves: seq<Move>): seq<Planned>
    decreases |moves|
  {
    if moves == [] then [] else (if moves[0].Adopt? then [] else [moves[0].call]) + Issues(moves[1..])
  }

  predicate NewAndApart(l: Ledger, calls: seq<Planned>) {
    && (forall i | 0 <= i < |calls| :: New(l, calls[i]))
    && (forall i, j | 0 <= i < j < |calls| :: Apart(calls[i], calls[j]))
  }

  // ----- what the ledger then holds ----------------------------------------------------------------------

  function RecordOfCall(guardInstance: Name, commit: Name, m: Made, i: nat, reservation: int): Auth {
    var p := m.call;
    Auth(p.jti, p.claims, Calibration, Identity(guardInstance, m.origin.policyHash, m.origin.scriptHash, commit), p.issueAt,
         p.issueAt + TOKEN_TTL, Known(reservation, i + 1, p.actual, p.response, p.digest, p.usage))
  }

  predicate OnRecord(l: Ledger, h: History, i: nat)
    requires i < |h.made|
  {
    var p := h.made[i].call;
    && p.purpose.Calibration?
    && p.jti in l.auths
    && l.auths[p.jti] == RecordOfCall(h.identity.guardInstance, h.identity.commit, h.made[i], i, h.terms.reservation)
    && p.response in l.providers && l.providers[p.response] == p.jti
  }

  function Ids(made: seq<Made>): set<Jti> {
    set i | 0 <= i < |made| :: made[i].call.jti
  }

  function Responses(made: seq<Made>): set<Hash> {
    set i | 0 <= i < |made| :: made[i].call.response
  }

  predicate Records(l: Ledger, h: History) {
    && (forall i | 0 <= i < |h.made| :: OnRecord(l, h, i))
    && l.auths.Keys == Ids(h.made) + h.unused && l.providers.Keys == Responses(h.made)
    && (forall i, j | 0 <= i < j < |h.made| ::
          h.made[i].call.jti != h.made[j].call.jti && h.made[i].call.response != h.made[j].call.response)
  }

  predicate LeftOver(l: Ledger, h: History) {
    && (forall k | k in l.rates :: k.actor in h.actors)
    && (h.left.Some? ==>
          var p := h.left.value;
          && p.jti in h.unused && p.jti in l.auths && l.auths[p.jti] == NewAuth(IssueOf(h.identity, h.terms, p), p.issueAt)
          && p.purpose.Calibration? && p.subject in l.subjects && l.subjects[p.subject] == p.jti
          && SpareOf(p).rate in l.rates && l.rates[SpareOf(p).rate] == 1
          && forall k | k in l.rates && k.actor == p.actor :: k == SpareOf(p).rate)
  }

  /** The ledger is at rest and holds exactly what the history tells. */
  ghost predicate Tells(l: Ledger, h: History) {
    && TermsOk(h.terms) && |h.made| <= h.terms.limits.calibration
    && Between(l, h.identity, h.terms, Purposes(CallsOf(h.made)), [])
    && Records(l, h) && LeftOver(l, h)
    && l.totals.knownActual == ActualSum(Listed(h.made)) && l.receipts == h.receipts
  }

  // ----- a call ------------------------------------------------------------------------------------------

  lemma {:induction false} CalibrationUses(made: seq<Made>, p: Purpose)
    requires forall i | 0 <= i < |made| :: made[i].call.purpose.Calibration?
    ensures Uses(Purposes(CallsOf(made)), p) == if p.Calibration? then |made| else 0
    decreases |made|
  {
    if made == [] {
      assert Purposes(CallsOf(made)) == [];
    } else {
      var front, last := made[..|made| - 1], made[|made| - 1];
      CalibrationUses(front, p);
      assert Purposes(CallsOf(made)) == Purposes(CallsOf(front)) + [Calibration];
      UsesAppend(Purposes(CallsOf(front)), Calibration, p);
    }
  }

  lemma MadeWithinLimits(l: Ledger, h: History)
    requires Tells(l, h)
    ensures WithinLimits(h.terms, Purposes(CallsOf(h.made)))
    ensures |h.made| < h.terms.limits.calibration ==>
              WithinLimits(h.terms, Purposes(CallsOf(h.made)) + [Calibration])
  {
    var done := Purposes(CallsOf(h.made));
    forall i | 0 <= i < |h.made| ensures h.made[i].call.purpose.Calibration? {
      assert OnRecord(l, h, i);
    }
    forall p: Purpose ensures Uses(done, p) == if p.Calibration? then |h.made| else 0 {
      CalibrationUses(h.made, p);
    }
    forall p: Purpose ensures Uses(done + [Calibration], p) == if p.Calibration? then |h.made| + 1 else 0 {
      UsesAppend(done, Calibration, p);
    }
    assert forall p: Purpose :: h.terms.limits.Of(p) >= 0;
  }

  function SettledAuth(a: Auth, t: Terms, sequence: int, p: Planned): Auth {
    a.(state := Known(t.reservation, sequence, p.actual, p.response, p.digest, p.usage))
  }

  /** What is filed over one token by its begin and its settlement. */
  lemma TwoFilings(i: Ledger, l': Ledger, b: BeginRequest, k: KnownRequest, now: nat, p: Planned, t: Terms)
    requires p.jti in i.auths && i.auths[p.jti].jti == p.jti && i.config.reservation == t.reservation
    requires b.jti == k.jti == p.jti && k.response == p.response && k.actual == p.actual && k.digest == p.digest
    requires k.usage == p.usage && l' == LeaveFlight(FileKnown(Dispatch(i, b, now), k), p.jti)
    ensures l'.auths == i.auths[p.jti := SettledAuth(i.auths[p.jti], t, i.totals.sequence + 1, p)]
    ensures l'.providers == i.providers[p.response := p.jti] && l'.subjects == i.subjects && l'.rates == i.rates
    ensures l'.receipts == i.receipts && l'.totals.knownActual == i.totals.knownActual + p.actual
  {
    var d := Dispatch(i, b, now);
    assert d.auths == i.auths[p.jti := d.auths[p.jti]];
    assert d.auths[p.jti] == i.auths[p.jti].(state := InFlight(t.reservation, i.totals.sequence + 1, now + LEASE));
  }

  /** What one admitted call files, from before it is issued to after it is settled. */
  predicate Filed(l: Ledger, identity: Identity, t: Terms, p: Planned, l': Ledger) {
    var r := IssueOf(identity, t, p);
    && l'.auths == l.auths[p.jti := SettledAuth(NewAuth(r, p.issueAt), t, l.totals.sequence + 1, p)]
    && l'.providers == l.providers[p.response := p.jti] && l'.subjects == l.subjects[p.subject := p.jti]
    && l'.rates == l.rates[RateKeyOf(r, p.issueAt) := Get(l.rates, RateKeyOf(r, p.issueAt), 0) + 1]
    && l'.receipts == l.receipts && l'.totals.knownActual == l.totals.knownActual + p.actual
  }

  lemma FiledAfterIssue(l: Ledger, identity: Identity, t: Terms, p: Planned, i: Ledger, l': Ledger)
    requires IssuedFor(l, identity, t, p, i) && l.config.reservation == t.reservation && p.jti in i.auths
    requires l' == LeaveFlight(FileKnown(Dispatch(i, BeginOf(identity, t, p), p.beginAt), KnownOf(identity, p)), p.jti)
    ensures Filed(l, identity, t, p, l')
  {
    TwoFilings(i, l', BeginOf(identity, t, p), KnownOf(identity, p), p.beginAt, p, t);
  }

  lemma FiledCall(l: Ledger, identity: Identity, t: Terms, p: Planned) returns (l': Ledger)
    requires TermsOk(t) && TimelyAndCheap(t, p) && Room(l, identity, t, p)
    ensures l' == AfterSettle(l, identity, t, p) && Filed(l, identity, t, p, l')
  {
    var i := IssueFiles(l, identity, t, p);
    SettleUpdates(l, identity, t, p, i);
    l' := AfterSettle(l, identity, t, p);
    FiledAfterIssue(l, identity, t, p, i, l');
  }

  lemma {:induction false} SumAppends(calls: seq<KnownCall>, c: KnownCall)
    ensures ActualSum(calls + [c]) == ActualSum(calls) + c.actual
  {
    assert (calls + [c])[..|calls|] == calls;
  }

  lemma ListAppends(h: History, p: Planned)
    ensures var h' := AfterMake(h, p);
            && Purposes(CallsOf(h'.made)) == Purposes(CallsOf(h.made)) + [p.purpose]
            && Listed(h'.made) == Listed(h.made) + [ListedAt(Made(p, OriginNow(h)), |h.made|)]
  {
  }

  lemma IdsAppend(h: History, p: Planned)
    ensures var h' := AfterMake(h, p);
            Ids(h'.made) == Ids(h.made) + {p.jti} && Responses(h'.made) == Responses(h.made) + {p.response}
  {
    var h' := AfterMake(h, p);
    assert h'.made[|h.made|].call == p;
    forall i | 0 <= i < |h.made| ensures h.made[i].call.jti in Ids(h'.made) && h.made[i].call.response in Responses(h'.made) {
      assert h'.made[i].call == h.made[i].call;
    }
  }

  lemma BetweenForNext(l: Ledger, h: History, p: Planned)
    requires Tells(l, h) && New(l, p)
    ensures Between(l, h.identity, h.terms, Purposes(CallsOf(h.made)), [p])
  {
  }

  lemma MakeGoesThrough(l: Ledger, h: History, p: Planned)
    requires Tells(l, h) && New(l, p) && FitsMake(h, p)
    ensures Admitted(l, h.identity, h.terms, p) && Room(l, h.identity, h.terms, p)
    ensures Between(AfterSettle(l, h.identity, h.terms, p), h.identity, h.terms, Purposes(CallsOf(h.made)) + [p.purpose], [])
  {
    MadeWithinLimits(l, h);
    BetweenForNext(l, h, p);
    OneGoesThrough(l, h.identity, h.terms, Purposes(CallsOf(h.made)), p);
  }

  lemma OneGoesThrough(l: Ledger, identity: Identity, t: Terms, done: seq<Purpose>, p: Planned)
    requires TermsOk(t) && TimelyAndCheap(t, p) && Between(l, identity, t, done, [p]) && WithinLimits(t, done + [p.purpose])
    ensures Admitted(l, identity, t, p) && Room(l, identity, t, p)
    ensures Between(AfterSettle(l, identity, t, p), identity, t, done + [p.purpose], [])
  {
    assert PlanOk(t, [p]) && [p][1..] == [];
    NextAdmitted(l, identity, t, done, [p]);
    RoomForNext(l, identity, t, done, [p]);
  }

  lemma OneMoreRecord(l: Ledger, h: History, p: Planned, l': Ledger)
    requires Records(l, h) && p.jti !in l.auths && p.response !in l.providers && p.purpose.Calibration?
    requires l'.auths == l.auths[p.jti := RecordOfCall(h.identity.guardInstance, h.identity.commit, Made(p, OriginNow(h)),
                                                       |h.made|, h.terms.reservation)]
    requires l'.providers == l.providers[p.response := p.jti]
    ensures Records(l', AfterMake(h, p))
  {
    var h' := AfterMake(h, p);
    KeysAfter(l, h, p, l');
    forall i | 0 <= i < |h'.made| ensures OnRecord(l', h', i) {
      OnRecordAfter(l, h, p, l', i);
    }
    ApartAfter(l, h, p, h'.made);
  }

  lemma KeysAfter(l: Ledger, h: History, p: Planned, l': Ledger)
    requires Records(l, h) && l'.auths.Keys == l.auths.Keys + {p.jti} && l'.providers.Keys == l.providers.Keys + {p.response}
    ensures var h' := AfterMake(h, p);
            l'.auths.Keys == Ids(h'.made) + h'.unused && l'.providers.Keys == Responses(h'.made)
  {
    IdsAppend(h, p);
  }

  lemma OnRecordAfter(l: Ledger, h: History, p: Planned, l': Ledger, i: nat)
    requires Records(l, h) && p.jti !in l.auths && p.response !in l.providers && p.purpose.Calibration?
    requires l'.auths == l.auths[p.jti := RecordOfCall(h.identity.guardInstance, h.identity.commit, Made(p, OriginNow(h)),
                                                       |h.made|, h.terms.reservation)]
    requires l'.providers == l.providers[p.response := p.jti] && i < |AfterMake(h, p).made|
    ensures OnRecord(l', AfterMake(h, p), i)
  {
    if i < |h.made| {
      assert OnRecord(l, h, i) && AfterMake(h, p).made[i] == h.made[i];
    }
  }

  lemma ApartAfter(l: Ledger, h: History, p: Planned, made: seq<Made>)
    requires Records(l, h) && p.jti !in l.auths && p.response !in l.providers
    requires |made| == |h.made| + 1 && made[..|h.made|] == h.made && made[|h.made|].call == p
    ensures forall i, j | 0 <= i < j < |made| ::
              made[i].call.jti != made[j].call.jti && made[i].call.response != made[j].call.response
  {
    forall i, j | 0 <= i < j < |made|
      ensures made[i].call.jti != made[j].call.jti && made[i].call.response != made[j].call.response
    {
      assert made[i] == h.made[i] && OnRecord(l, h, i);
      assert j < |h.made| ==> made[j] == h.made[j];
    }
  }

  lemma FiledAsTold(h: History, p: Planned)
    requires p.purpose.Calibration?
    ensures SettledAuth(NewAuth(IssueOf(h.identity, h.terms, p), p.issueAt), h.terms, |h.made| + 1, p)
            == RecordOfCall(h.identity.guardInstance, h.identity.commit, Made(p, OriginNow(h)), |h.made|, h.terms.reservation)
  {
  }

  lemma MakeKeepsRecords(l: Ledger, h: History, p: Planned, l': Ledger)
    requires Tells(l, h) && New(l, p) && FitsMake(h, p) && Filed(l, h.identity, h.terms, p, l')
    ensures Records(l', AfterMake(h, p))
  {
    FiledAsTold(h, p);
    assert l.totals.sequence == |h.made|;
    OneMoreRecord(l, h, p, l');
  }

  lemma MakeKeepsLeftOver(l: Ledger, h: History, p: Planned, l': Ledger)
    requires LeftOver(l, h) && New(l, p) && FitsMake(h, p) && Filed(l, h.identity, h.terms, p, l')
    ensures LeftOver(l', AfterMake(h, p))
  {
  }

  lemma MakeKeepsSums(l: Ledger, h: History, p: Planned, l': Ledger)
    requires l.totals.knownActual == ActualSum(Listed(h.made)) && Filed(l, h.identity, h.terms, p, l')
    ensures l'.totals.knownActual == ActualSum(Listed(AfterMake(h, p).made))
  {
    ListAppends(h, p);
    SumAppends(Listed(h.made), ListedAt(Made(p, OriginNow(h)), |h.made|));
  }

  lemma MakeKeepsTold(l: Ledger, h: History, p: Planned)
    requires Tells(l, h) && New(l, p) && FitsMake(h, p)
    ensures Admitted(l, h.identity, h.terms, p) && Tells(AfterSettle(l, h.identity, h.terms, p), AfterMake(h, p))
  {
    MakeGoesThrough(l, h, p);
    ListAppends(h, p);
    var l' := FiledCall(l, h.identity, h.terms, p);
    MakeKeepsRecords(l, h, p, l');
    MakeKeepsLeftOver(l, h, p, l');
    MakeKeepsSums(l, h, p, l');
  }

  // ----- an authorisation left unused ----------------------------------------------------------------------

  lemma CountsTold(l: Ledger, h: History)
    requires Tells(l, h)
    ensures l.totals.claimed == l.totals.sequence == l.totals.known == |h.made| && l.totals.pending == 0
    ensures l.counts.calibration == |h.made| && l.counts.baseline == l.counts.repair == 0
    ensures l.counts.revised == l.counts.judge == 0 && l.totals.uncertain == l.totals.uncertainUpper == 0
    ensures l.totals.committed == |h.made| * h.terms.reservation
    ensures forall p: Purpose :: Uses(Purposes(CallsOf(h.made)), p) == if p.Calibration? then |h.made| else 0
  {
    forall i | 0 <= i < |h.made| ensures h.made[i].call.purpose.Calibration? {
      assert OnRecord(l, h, i);
    }
    forall p: Purpose ensures l.counts.Of(p) == Uses(Purposes(CallsOf(h.made)), p) == if p.Calibration? then |h.made| else 0 {
      CalibrationUses(h.made, p);
    }
    assert |l.inflight| == 0;
    assert l.counts.Of(Calibration) == |h.made| && l.counts.Of(Baseline) == 0 && l.counts.Of(Repair) == 0
           && l.counts.Of(Revised) == 0 && l.counts.Of(Judge) == 0;
  }

  lemma LeaveGoesThrough(l: Ledger, h: History, p: Planned) returns (l': Ledger)
    requires Tells(l, h) && New(l, p) && FitsLeave(h, p)
    ensures IssueReply(l, IssueOf(h.identity, h.terms, p), p.issueAt).IssuedNew?
    ensures l' == AfterIssue(l, h.identity, h.terms, p) && IssuedFor(l, h.identity, h.terms, p, l')
  {
    assert RateKeyOf(IssueOf(h.identity, h.terms, p), p.issueAt) !in l.rates;
    RatesAfterOne(l, IssueOf(h.identity, h.terms, p), p.issueAt);
    l' := AfterIssue(l, h.identity, h.terms, p);
  }

  lemma LeaveKeepsRecords(l: Ledger, h: History, p: Planned, l': Ledger)
    requires Records(l, h) && New(l, p) && IssuedFor(l, h.identity, h.terms, p, l')
    ensures Records(l', AfterLeave(h, p))
  {
    forall i | 0 <= i < |h.made| ensures OnRecord(l', AfterLeave(h, p), i) {
      assert OnRecord(l, h, i);
    }
  }

  /** The hour that a new actor is counted in has seen nothing of it before. */
  lemma LeaveKeepsRates(l: Ledger, h: History, p: Planned, l': Ledger)
    requires LeftOver(l, h) && FitsLeave(h, p) && IssuedFor(l, h.identity, h.terms, p, l')
    ensures forall k | k in l'.rates ::
              l'.rates[k] == if k == RateKeyOf(IssueOf(h.identity, h.terms, p), p.issueAt) then 1 else Get(l.rates, k, 0)
  {
  }

  lemma LeaveKeepsLeftOver(l: Ledger, h: History, p: Planned, l': Ledger)
    requires LeftOver(l, h) && FitsLeave(h, p) && IssuedFor(l, h.identity, h.terms, p, l')
    ensures LeftOver(l', AfterLeave(h, p))
  {
    assert RateKeyOf(IssueOf(h.identity, h.terms, p), p.issueAt) == SpareOf(p).rate;
  }

  lemma LeaveKeepsTold(l: Ledger, h: History, p: Planned)
    requires Tells(l, h) && New(l, p) && FitsLeave(h, p)
    ensures Succeeds(l, h, Leave(p)) && Tells(Moved(l, h, Leave(p)), AfterLeave(h, p))
  {
    var l' := LeaveGoesThrough(l, h, p);
    CountsTold(l, h);
    LeaveKeepsRates(l, h, p, l');
    LeaveKeepsRecords(l, h, p, l');
    LeaveKeepsLeftOver(l, h, p, l');
  }

  // ----- a migration ---------------------------------------------------------------------------------------

  lemma CoreFound(l: Ledger, h: History, a: Adoption)
    requires Tells(l, h)
    ensures CoreMatches(l, MigrationOf(h, a)) && ConfigMatches(l, PolicyNow(h), h.terms.limits)
  {
    CountsTold(l, h);
    assert |l.inflight| == 0;
  }

  lemma CallsFound(l: Ledger, h: History, a: Adoption)
    requires Records(l, h) && l.totals.knownActual == ActualSum(Listed(h.made))
    ensures CallsMatch(l, MigrationOf(h, a))
  {
    var m := MigrationOf(h, a);
    forall i | 0 <= i < |h.made| ensures CallMatches(l, m, i) {
      assert OnRecord(l, h, i);
    }
  }

  lemma SpareFound(l: Ledger, h: History, a: Adoption)
    requires Records(l, h) && LeftOver(l, h) && FitsAdopt(h, a)
    ensures SpareRefusal(l, MigrationOf(h, a), a.at).None?
  {
    if a.inventory {
      var m := MigrationOf(h, a);
      assert ListedIds(m.manifest.calls) == Ids(h.made) by {
        assert forall i | 0 <= i < |h.made| :: m.manifest.calls[i].jti == h.made[i].call.jti;
      }
      assert ListedResponses(m.manifest.calls) == Responses(h.made) by {
        assert forall i | 0 <= i < |h.made| :: m.manifest.calls[i].response == h.made[i].call.response;
      }
    }
  }

  lemma AdoptGoesThrough(l: Ledger, h: History, a: Adoption)
    requires Tells(l, h) && FitsAdopt(h, a)
    ensures MigrateReply(l, MigrationOf(h, a), a.at).MigratedNew?
  {
    CoreFound(l, h, a);
    CallsFound(l, h, a);
    SpareFound(l, h, a);
  }

  lemma AdoptKeepsBetween(l: Ledger, h: History, a: Adoption, l': Ledger)
    requires Tells(l, h) && FitsAdopt(h, a) && MigrateReply(l, MigrationOf(h, a), a.at).MigratedNew?
    requires l' == Migrate(l, MigrationOf(h, a), a.at)
    ensures Between(l', AfterAdopt(h, a).identity, AfterAdopt(h, a).terms, Purposes(CallsOf(h.made)), [])
  {
  }

  lemma AdoptKeepsRecords(l: Ledger, h: History, a: Adoption, l': Ledger)
    requires Records(l, h) && LeftOver(l, h) && l'.auths == l.auths && l'.providers == l.providers && l'.rates == l.rates
    ensures Records(l', AfterAdopt(h, a)) && LeftOver(l', AfterAdopt(h, a))
  {
    forall i | 0 <= i < |h.made| ensures OnRecord(l', AfterAdopt(h, a), i) {
      assert OnRecord(l, h, i);
    }
  }

  lemma AdoptKeepsTold(l: Ledger, h: History, a: Adoption)
    requires Tells(l, h) && FitsAdopt(h, a)
    ensures Succeeds(l, h, Adopt(a)) && Tells(Moved(l, h, Adopt(a)), AfterAdopt(h, a))
  {
    AdoptGoesThrough(l, h, a);
    var l' := Migrate(l, MigrationOf(h, a), a.at);
    AdoptKeepsBetween(l, h, a, l');
    AdoptKeepsRecords(l, h, a, l');
  }

  // ----- the whole chain -------------------------------------------------------------------------------------

  lemma MoveKeepsTold(l: Ledger, h: History, m: Move)
    requires Tells(l, h) && Fits(h, m) && (!m.Adopt? ==> New(l, m.call))
    ensures Succeeds(l, h, m) && Tells(Moved(l, h, m), Next(h, m))
  {
    match m
    case Make(p) => MakeKeepsTold(l, h, p);
    case Leave(p) => LeaveKeepsTold(l, h, p);
    case Adopt(a) => AdoptKeepsTold(l, h, a);
  }

  lemma MoveLeavesNew(l: Ledger, h: History, m: Move, q: Planned)
    requires Tells(l, h) && Fits(h, m) && New(l, q) && (!m.Adopt? ==> New(l, m.call) && Apart(m.call, q))
    ensures New(Moved(l, h, m), q)
  {
    match m
    case Make(p) =>
      MakeGoesThrough(l, h, p);
      var l' := FiledCall(l, h.identity, h.terms, p);
    case Leave(p) =>
      var l' := LeaveGoesThrough(l, h, p);
    case Adopt(a) =>
  }

  lemma FirstOfIssues(l: Ledger, p: Planned, rest: seq<Planned>)
    requires NewAndApart(l, [p] + rest)
    ensures New(l, p) && NewAndApart(l, rest) && forall i | 0 <= i < |rest| :: Apart(p, rest[i])
  {
    var all := [p] + rest;
    assert all[0] == p;
    forall i | 0 <= i < |rest| ensures New(l, rest[i]) && Apart(p, rest[i]) {
      assert all[i + 1] == rest[i];
    }
    forall i, j | 0 <= i < j < |rest| ensures Apart(rest[i], rest[j]) {
      assert all[i + 1] == rest[i] && all[j + 1] == rest[j];
    }
  }

  lemma NewAfterMove(l: Ledger, h: History, moves: seq<Move>)
    requires moves != [] && Tells(l, h) && Fits(h, moves[0]) && NewAndApart(l, Issues(moves))
    ensures !moves[0].Adopt? ==> New(l, moves[0].call)
    ensures NewAndApart(Moved(l, h, moves[0]), Issues(moves[1..]))
  {
    var m, rest := moves[0], Issues(moves[1..]);
    if m.Adopt? {
      assert Issues(moves) == rest;
    } else {
      FirstOfIssues(l, m.call, rest);
    }
    forall i | 0 <= i < |rest| ensures New(Moved(l, h, m), rest[i]) {
      MoveLeavesNew(l, h, m, rest[i]);
    }
  }

  /** A chain of calls and migrations in which every id is new, every call is in time and within
      the limits, and every migration lists all calls so far, goes through in full: every call is
      admitted, every migration is carried out, and the ledger ends as the history tells. */
  lemma {:induction false} ChainGoesThrough(l: Ledger, h: History, moves: seq<Move>)
    requires Tells(l, h) && AllFit(h, moves) && NewAndApart(l, Issues(moves))
    ensures AllSucceed(l, h, moves) && Tells(EndOf(l, h, moves), HistoryAfter(h, moves))
    decreases |moves|
  {
    if moves != [] {
      var m, rest := moves[0], moves[1..];
      NewAfterMove(l, h, moves);
      MoveKeepsTold(l, h, m);
      ChainGoesThrough(Moved(l, h, m), Next(h, m), rest);
    }
  }

  function Begun(identity: Identity, t: Terms): History {
    History(identity, t, [], map[], None, {}, {})
  }

  lemma InitiallyTold(identity: Identity, t: Terms)
    requires TermsOk(t)
    ensures Tells(Initialised(identity, t), Begun(identity, t))
  {
    InitiallyBetween(identity, t, []);
    ToldAtFirst(Initialised(identity, t), identity, t);
  }

  lemma ToldAtFirst(l: Ledger, identity: Identity, t: Terms)
    requires TermsOk(t) && Between(l, identity, t, [], []) && l.totals.knownActual == 0
    requires l.auths == map[] && l.providers == map[] && l.rates == map[] && l.receipts == map[]
    ensures Tells(l, Begun(identity, t))
  {
    assert Purposes(CallsOf([])) == [];
    assert Listed([]) == [];
  }

  // ----- a chain is a run ------------------------------------------------------------------------------------

  /** The scripts that one move calls. */
  function StepsOf(h: History, m: Move): seq<Step> {
    match m
    case Make(p) =>
      [Calling(IssueCall(IssueOf(h.identity, h.terms, p), p.issueAt)),
       Calling(BeginCall(BeginOf(h.identity, h.terms, p), p.beginAt)), Calling(KnownCallOf(KnownOf(h.identity, p)))]
    case Leave(p) => [Calling(IssueCall(IssueOf(h.identity, h.terms, p), p.issueAt))]
    case Adopt(a) => [Migrating(MigrationOf(h, a), a.at)]
  }

  function AllStepsOf(h: History, moves: seq<Move>): seq<Step>
    decreases |moves|
  {
    if moves == [] then [] else StepsOf(h, moves[0]) + AllStepsOf(Next(h, moves[0]), moves[1..])
  }

  lemma OneStep(l: Ledger, s: Step, rest: seq<Step>)
    ensures TakeAll(l, [s] + rest) == TakeAll(Take(l, s), rest)
    ensures FreshSteps(l, [s] + rest) <==>
              (s.Calling? && s.call.IssueCall? ==> !Overwrites(l, s.call.issue, s.call.now)) && FreshSteps(Take(l, s), rest)
  {
    assert ([s] + rest)[1..] == rest;
  }

  lemma MoveIsARun(l: Ledger, h: History, m: Move, rest: seq<Step>)
    requires !m.Adopt? ==> m.call.jti !in l.auths
    ensures TakeAll(l, StepsOf(h, m) + rest) == TakeAll(Moved(l, h, m), rest)
    ensures FreshSteps(l, StepsOf(h, m) + rest) <==> FreshSteps(Moved(l, h, m), rest)
  {
    var steps := StepsOf(h, m);
    if m.Make? {
      assert steps + rest == [steps[0]] + ([steps[1]] + ([steps[2]] + rest));
      OneStep(l, steps[0], [steps[1]] + ([steps[2]] + rest));
      var i := AfterIssue(l, h.identity, h.terms, m.call);
      OneStep(i, steps[1], [steps[2]] + rest);
      OneStep(AfterBegin(l, h.identity, h.terms, m.call), steps[2], rest);
    } else {
      assert steps + rest == [steps[0]] + rest;
      OneStep(l, steps[0], rest);
    }
  }

  /** A chain is one of the runs of calls and migrations that the ledger's theorems speak of, and
      it never reuses an id. */
  lemma {:induction false} ChainIsARun(l: Ledger, h: History, moves: seq<Move>)
    requires Tells(l, h) && AllFit(h, moves) && NewAndApart(l, Issues(moves))
    ensures TakeAll(l, AllStepsOf(h, moves)) == EndOf(l, h, moves) && FreshSteps(l, AllStepsOf(h, moves))
    decreases |moves|
  {
    if moves != [] {
      var m, rest := moves[0], moves[1..];
      NewAfterMove(l, h, moves);
      MoveKeepsTold(l, h, m);
      ChainIsARun(Moved(l, h, m), Next(h, m), rest);
      MoveIsARun(l, h, m, AllStepsOf(Next(h, m), rest));
    }
  }

  // ----- the four migrations of the repository ------------------------------------------------------------------

  function Limits01(): PerPurpose { PerPurpose(4, 72, 2, 72, 10) }

  function Limits02(): PerPurpose { PerPurpose(8, 72, 2, 72, 6) }

  function Limits03(): PerPurpose { PerPurpose(9, 72, 2, 72, 5) }

  function Limits04(): PerPurpose { PerPurpose(13, 72, 2, 72, 1) }

  function Limits05(): PerPurpose { PerPurpose(17, 70, 2, 70, 1) }

  function TwoLimits(): set<Purpose> { {Calibration, Judge} }

  function AllLimits(): set<Purpose> { {Calibration, Baseline, Repair, Revised, Judge} }

  /** What one operator brings: where the receipt goes, the next policy, and when. */
  datatype Order = Order(key: Name, id: Name, digest: Hash, program: Hash, next: Policy, at: Moment)

  function AdoptionOf(o: Order, before: Option<Predecessor>, limits: PerPurpose, written: set<Purpose>, inventory: bool): Adoption {
    Adoption(o.key, o.id, o.digest, o.program, before, o.next, limits, written, inventory, o.at)
  }

  function Makes(calls: seq<Planned>): seq<Move> {
    seq(|calls|, i requires 0 <= i < |calls| => Make(calls[i]))
  }

  function MadeUnder(calls: seq<Planned>, origin: Origin): seq<Made> {
    seq(|calls|, i requires 0 <= i < |calls| => Made(calls[i], origin))
  }

  function ActorsOf(calls: seq<Planned>): set<Hash> {
    set i | 0 <= i < |calls| :: calls[i].actor
  }

  function AfterMakes(h: History, calls: seq<Planned>): History {
    h.(made := h.made + MadeUnder(calls, OriginNow(h)), actors := h.actors + ActorsOf(calls))
  }

  predicate Suit(t: Terms, calls: seq<Planned>) {
    forall i | 0 <= i < |calls| :: calls[i].purpose.Calibration? && TimelyAndCheap(t, calls[i])
  }

  lemma {:induction false} FitAppends(h: History, first: seq<Move>, more: seq<Move>)
    requires AllFit(h, first) && AllFit(HistoryAfter(h, first), more)
    ensures AllFit(h, first + more) && HistoryAfter(h, first + more) == HistoryAfter(HistoryAfter(h, first), more)
    decreases |first|
  {
    if first == [] {
      assert first + more == more;
    } else {
      assert (first + more)[1..] == first[1..] + more;
      FitAppends(Next(h, first[0]), first[1..], more);
    }
  }

  lemma {:induction false} MakesFit(h: History, calls: seq<Planned>)
    requires Suit(h.terms, calls) && h.left.None? && |h.made| + |calls| <= h.terms.limits.calibration
    ensures AllFit(h, Makes(calls)) && HistoryAfter(h, Makes(calls)) == AfterMakes(h, calls)
    decreases |calls|
  {
    if calls == [] {
      assert Makes(calls) == [] && h.made + MadeUnder(calls, OriginNow(h)) == h.made;
      assert ActorsOf(calls) == {};
    } else {
      var h' := AfterMake(h, calls[0]);
      assert Makes(calls)[1..] == Makes(calls[1..]);
      MakesFit(h', calls[1..]);
      assert h.made + MadeUnder(calls, OriginNow(h)) == h'.made + MadeUnder(calls[1..], OriginNow(h'));
      assert h.actors + ActorsOf(calls) == h'.actors + ActorsOf(calls[1..]) by {
        assert ActorsOf(calls) == {calls[0].actor} + ActorsOf(calls[1..]) by {
          assert forall i | 0 < i < |calls| :: calls[i] == calls[1..][i - 1];
        }
      }
    }
  }

  /** Calls under one policy, then the migration that lists them. */
  lemma StageFits(h: History, calls: seq<Planned>, a: Adoption) returns (h': History)
    requires Suit(h.terms, calls) && h.left.None? && |h.made| + |calls| <= h.terms.limits.calibration
    requires FitsAdopt(AfterMakes(h, calls), a)
    ensures h' == AfterAdopt(AfterMakes(h, calls), a)
    ensures AllFit(h, Makes(calls) + [Adopt(a)]) && HistoryAfter(h, Makes(calls) + [Adopt(a)]) == h'
  {
    MakesFit(h, calls);
    h' := AfterAdopt(AfterMakes(h, calls), a);
    assert [Adopt(a)][1..] == [];
    FitAppends(h, Makes(calls), [Adopt(a)]);
  }

  /** One stage with these limits, and what it leaves behind. */
  lemma StageOf(h: History, calls: seq<Planned>, o: Order, before: Option<Predecessor>, limits: PerPurpose) returns (h': History)
    requires TermsOk(h.terms) && Suit(h.terms, calls) && h.left.None?
    requires |h.made| + |calls| <= h.terms.limits.calibration <= limits.calibration
    requires Rewritten(h.terms.limits, limits, TwoLimits()) == limits && limits.AreNonNegative()
    requires limits.Sum() == h.terms.globalLimit
    requires o.key !in h.receipts && o.at.nowMs < h.terms.closesAtMs
    requires before.Some? ==> before.value.key in h.receipts && h.receipts[before.value.key] == before.value.manifest
    ensures var a := AdoptionOf(o, before, limits, TwoLimits(), false);
            && AllFit(h, Makes(calls) + [Adopt(a)]) && HistoryAfter(h, Makes(calls) + [Adopt(a)]) == h'
            && h'.terms == h.terms.(version := o.next.version, limits := limits) && TermsOk(h'.terms)
            && h'.receipts == h.receipts[o.key := ManifestOf(AfterMakes(h, calls), a)]
    ensures h' == AfterAdopt(AfterMakes(h, calls), AdoptionOf(o, before, limits, TwoLimits(), false))
    ensures h'.made == h.made + MadeUnder(calls, OriginNow(h)) && h'.left.None? && h'.unused == h.unused
    ensures h'.actors == h.actors + ActorsOf(calls) && OriginNow(h') == Origin(o.next.policyHash, o.next.scriptHash)
  {
    var a := AdoptionOf(o, before, limits, TwoLimits(), false);
    assert FitsAdopt(AfterMakes(h, calls), a);
    h' := StageFits(h, calls, a);
  }

  /** The last stage: calls, one authorisation that is never begun, and the migration that takes
      inventory and writes all limits. */
  lemma LastStageOf(h: History, calls: seq<Planned>, spare: Planned, o: Order, before: Predecessor, limits: PerPurpose)
      returns (h': History)
    requires TermsOk(h.terms) && Suit(h.terms, calls) && calls != [] && h.left.None? && h.unused == {}
    requires |h.made| + |calls| <= h.terms.limits.calibration <= limits.calibration
    requires limits.AreNonNegative() && limits.Sum() == h.terms.globalLimit
    requires o.key !in h.receipts && o.at.nowMs < h.terms.closesAtMs && o.at.anchored
    requires before.key in h.receipts && h.receipts[before.key] == before.manifest
    requires spare.purpose.Calibration? && spare.issueAt + TOKEN_TTL <= o.at.nowMs / 1000
    requires spare.actor !in h.actors + ActorsOf(calls)
    ensures var a := AdoptionOf(o, Some(before), limits, AllLimits(), true);
            && AllFit(h, Makes(calls) + [Leave(spare), Adopt(a)])
            && HistoryAfter(h, Makes(calls) + [Leave(spare), Adopt(a)]) == h'
    ensures h'.terms == h.terms.(version := o.next.version, limits := limits) && h'.receipts.Keys == h.receipts.Keys + {o.key}
    ensures h'.made == h.made + MadeUnder(calls, OriginNow(h)) && OriginNow(h') == Origin(o.next.policyHash, o.next.scriptHash)
  {
    var a := AdoptionOf(o, Some(before), limits, AllLimits(), true);
    var h1 := AfterMakes(h, calls);
    MakesFit(h, calls);
    assert |h1.made| > 0;
    assert spare.issueAt * 1000 < h.terms.closesAtMs;
    var h2 := AfterLeave(h1, spare);
    assert FitsAdopt(h2, a);
    h' := AfterAdopt(h2, a);
    assert [Leave(spare), Adopt(a)][1..] == [Adopt(a)] && [Adopt(a)][1..] == [];
    assert AllFit(h2, [Adopt(a)]) && HistoryAfter(h2, [Adopt(a)]) == h';
    FitAppends(h, Makes(calls), [Leave(spare), Adopt(a)]);
  }

  /** The orders name four receipts, all in time, the last one with the acknowledgement in place. */
  predicate OrdersOk(t: Terms, orders: seq<Order>) {
    && |orders| == 4
    && (forall i, j | 0 <= i < j < 4 :: orders[i].key != orders[j].key)
    && (forall i | 0 <= i < 4 :: orders[i].at.nowMs < t.closesAtMs)
    && orders[3].at.anchored
  }

  /** Thirteen calls in time, and one authorisation of another actor that has run out unused when
      the last migration comes. */
  predicate CallsOk(t: Terms, calls: seq<Planned>, spare: Planned, last: Order) {
    && |calls| == 13 && Suit(t, calls)
    && spare.purpose.Calibration? && spare.actor !in ActorsOf(calls) && spare.issueAt + TOKEN_TTL <= last.at.nowMs / 1000
  }

  function OriginFor(o: Order): Origin {
    Origin(o.next.policyHash, o.next.scriptHash)
  }

  /** The receipt that the next migration looks for. */
  function FiledBy(h: History, a: Adoption, whole: bool): Option<Predecessor> {
    Some(Predecessor(a.key, ManifestOf(h, a), whole))
  }

  /** The four migrations, each over the history before it: four calls and no predecessor; one more
      call; four more; and four more, with an inventory and all limits written. */
  function To02(o: seq<Order>): Adoption
    requires |o| == 4
  {
    AdoptionOf(o[0], None, Limits02(), TwoLimits(), false)
  }

  function Before02(h: History, calls: seq<Planned>): History
    requires |calls| == 13
  {
    AfterMakes(h, calls[..4])
  }

  function To03(h: History, calls: seq<Planned>, o: seq<Order>): Adoption
    requires |calls| == 13 && |o| == 4
  {
    AdoptionOf(o[1], FiledBy(Before02(h, calls), To02(o), true), Limits03(), TwoLimits(), false)
  }

  function Before03(h: History, calls: seq<Planned>, o: seq<Order>): History
    requires |calls| == 13 && |o| == 4
  {
    AfterMakes(AfterAdopt(Before02(h, calls), To02(o)), calls[4..5])
  }

  function To04(h: History, calls: seq<Planned>, o: seq<Order>): Adoption
    requires |calls| == 13 && |o| == 4
  {
    AdoptionOf(o[2], FiledBy(Before03(h, calls, o), To03(h, calls, o), true), Limits04(), TwoLimits(), false)
  }

  function Before04(h: History, calls: seq<Planned>, o: seq<Order>): History
    requires |calls| == 13 && |o| == 4
  {
    AfterMakes(AfterAdopt(Before03(h, calls, o), To03(h, calls, o)), calls[5..9])
  }

  function To05(h: History, calls: seq<Planned>, o: seq<Order>): Adoption
    requires |calls| == 13 && |o| == 4
  {
    AdoptionOf(o[3], FiledBy(Before04(h, calls, o), To04(h, calls, o), false), Limits05(), AllLimits(), true)
  }

  /** The moves of the real chain, from the history it starts with. */
  function FourStages(h: History, calls: seq<Planned>, spare: Planned, o: seq<Order>): seq<Move>
    requires |calls| == 13 && |o| == 4
  {
    (Makes(calls[..4]) + [Adopt(To02(o))]) + ((Makes(calls[4..5]) + [Adopt(To03(h, calls, o))])
      + ((Makes(calls[5..9]) + [Adopt(To04(h, calls, o))]) + (Makes(calls[9..]) + [Leave(spare), Adopt(To05(h, calls, o))])))
  }

  lemma {:induction false} IssuesAppend(first: seq<Move>, more: seq<Move>)
    ensures Issues(first + more) == Issues(first) + Issues(more)
    decreases |first|
  {
    if first == [] {
      assert first + more == more;
    } else {
      assert (first + more)[1..] == first[1..] + more;
      IssuesAppend(first[1..], more);
    }
  }

  lemma {:induction false} IssuesOfMakes(calls: seq<Planned>)
    ensures Issues(Makes(calls)) == calls
    decreases |calls|
  {
    if calls != [] {
      assert Makes(calls)[1..] == Makes(calls[1..]);
      IssuesOfMakes(calls[1..]);
    }
  }

  lemma IssuesOfStage(calls: seq<Planned>, a: Adoption)
    ensures Issues(Makes(calls) + [Adopt(a)]) == calls
  {
    IssuesAppend(Makes(calls), [Adopt(a)]);
    IssuesOfMakes(calls);
    assert [Adopt(a)][1..] == [] && Issues([]) == [];
  }

  lemma IssuesOfLastStage(calls: seq<Planned>, spare: Planned, a: Adoption)
    ensures Issues(Makes(calls) + [Leave(spare), Adopt(a)]) == calls + [spare]
  {
    IssuesAppend(Makes(calls), [Leave(spare), Adopt(a)]);
    IssuesOfMakes(calls);
    assert [Leave(spare), Adopt(a)][1..] == [Adopt(a)] && [Adopt(a)][1..] == [] && Issues([]) == [];
    assert Issues([Adopt(a)]) == [];
  }

  lemma IssuesOfFourStages(h: History, calls: seq<Planned>, spare: Planned, o: seq<Order>)
    requires |calls| == 13 && |o| == 4
    ensures Issues(FourStages(h, calls, spare, o)) == calls + [spare]
  {
    var s2, s3 := Makes(calls[..4]) + [Adopt(To02(o))], Makes(calls[4..5]) + [Adopt(To03(h, calls, o))];
    var s4 := Makes(calls[5..9]) + [Adopt(To04(h, calls, o))];
    var s5 := Makes(calls[9..]) + [Leave(spare), Adopt(To05(h, calls, o))];
    IssuesOfStage(calls[..4], To02(o));
    IssuesOfStage(calls[4..5], To03(h, calls, o));
    IssuesOfStage(calls[5..9], To04(h, calls, o));
    IssuesOfLastStage(calls[9..], spare, To05(h, calls, o));
    IssuesAppend(s4, s5);
    IssuesAppend(s3, s4 + s5);
    IssuesAppend(s2, s3 + (s4 + s5));
    assert calls + [spare] == calls[..4] + (calls[4..5] + (calls[5..9] + (calls[9..] + [spare])));
  }

  /** Which policy and script each of the thirteen calls was authorised under. */
  predicate OriginsAre(made: seq<Made>, first: Origin, o: seq<Order>)
    requires |o| == 4
  {
    |made| == 13 && forall i | 0 <= i < 13 ::
      made[i].origin == if i < 4 then first else if i == 4 then OriginFor(o[0]) else if i < 9 then OriginFor(o[1])
                        else OriginFor(o[2])
  }

  lemma SuitSlice(t: Terms, calls: seq<Planned>, lo: nat, hi: nat, t': Terms)
    requires lo <= hi <= |calls| && Suit(t, calls) && t'.closesAtMs == t.closesAtMs && t'.reservation == t.reservation
    ensures Suit(t', calls[lo..hi]) && ActorsOf(calls[lo..hi]) <= ActorsOf(calls)
  {
    assert forall i | 0 <= i < hi - lo :: calls[lo..hi][i] == calls[lo + i];
  }

  /** The first three stages. */
  lemma ThreeStages(identity: Identity, t: Terms, calls: seq<Planned>, o: seq<Order>)
      returns (h2: History, h3: History, h4: History)
    requires TermsOk(t) && t.limits == Limits01() && |calls| == 13 && Suit(t, calls) && OrdersOk(t, o)
    ensures var h := Begun(identity, t);
            && AllFit(h, Makes(calls[..4]) + [Adopt(To02(o))])
            && HistoryAfter(h, Makes(calls[..4]) + [Adopt(To02(o))]) == h2
            && AllFit(h2, Makes(calls[4..5]) + [Adopt(To03(h, calls, o))])
            && HistoryAfter(h2, Makes(calls[4..5]) + [Adopt(To03(h, calls, o))]) == h3
            && AllFit(h3, Makes(calls[5..9]) + [Adopt(To04(h, calls, o))])
            && HistoryAfter(h3, Makes(calls[5..9]) + [Adopt(To04(h, calls, o))]) == h4
            && h4.receipts.Keys == {o[0].key, o[1].key, o[2].key}
            && h4.receipts[o[2].key] == ManifestOf(Before04(h, calls, o), To04(h, calls, o))
    ensures TermsOk(h4.terms) && h4.terms == t.(version := o[2].next.version, limits := Limits04())
    ensures h4.made == MadeUnder(calls[..4], OriginNow(Begun(identity, t))) + MadeUnder(calls[4..5], OriginFor(o[0]))
                       + MadeUnder(calls[5..9], OriginFor(o[1]))
    ensures OriginNow(h4) == OriginFor(o[2]) && h4.left.None? && h4.unused == {} && h4.actors <= ActorsOf(calls)
  {
    var h := Begun(identity, t);
    SuitSlice(t, calls, 0, 4, t);
    h2 := StageOf(h, calls[..4], o[0], None, Limits02());
    SuitSlice(t, calls, 4, 5, h2.terms);
    h3 := StageOf(h2, calls[4..5], o[1], FiledBy(Before02(h, calls), To02(o), true), Limits03());
    SuitSlice(t, calls, 5, 9, h3.terms);
    h4 := StageOf(h3, calls[5..9], o[2], FiledBy(Before03(h, calls, o), To03(h, calls, o), true), Limits04());
  }

  lemma FourStagesFit(identity: Identity, t: Terms, calls: seq<Planned>, spare: Planned, o: seq<Order>)
      returns (h: History)
    requires TermsOk(t) && t.limits == Limits01() && OrdersOk(t, o) && CallsOk(t, calls, spare, o[3])
    ensures AllFit(Begun(identity, t), FourStages(Begun(identity, t), calls, spare, o))
    ensures h == HistoryAfter(Begun(identity, t), FourStages(Begun(identity, t), calls, spare, o))
    ensures h.terms == t.(version := o[3].next.version, limits := Limits05()) && OriginNow(h) == OriginFor(o[3])
    ensures h.receipts.Keys == {o[0].key, o[1].key, o[2].key, o[3].key}
    ensures OriginsAre(h.made, OriginNow(Begun(identity, t)), o)
  {
    var start := Begun(identity, t);
    var h2, h3, h4 := ThreeStages(identity, t, calls, o);
    SuitSlice(t, calls, 9, 13, h4.terms);
    assert calls[9..13] == calls[9..];
    h := LastStageOf(h4, calls[9..], spare, o[3], FiledBy(Before04(start, calls, o), To04(start, calls, o), false).value,
                     Limits05());
    var s4 := Makes(calls[5..9]) + [Adopt(To04(start, calls, o))];
    var s5 := Makes(calls[9..]) + [Leave(spare), Adopt(To05(start, calls, o))];
    FitAppends(h3, s4, s5);
    FitAppends(h2, Makes(calls[4..5]) + [Adopt(To03(start, calls, o))], s4 + s5);
    FitAppends(start, Makes(calls[..4]) + [Adopt(To02(o))],
               (Makes(calls[4..5]) + [Adopt(To03(start, calls, o))]) + (s4 + s5));
  }

  lemma AllNewAtFirst(identity: Identity, t: Terms, calls: seq<Planned>)
    requires forall i, j | 0 <= i < j < |calls| :: Apart(calls[i], calls[j])
    ensures NewAndApart(Initialised(identity, t), calls)
  {
  }

  lemma EndTold(l: Ledger, h: History)
    requires Tells(l, h)
    ensures l.limits == h.terms.limits && l.config.version == h.terms.version && l.config.identity == h.identity
    ensures l.totals.claimed == l.totals.known == |h.made| && l.receipts.Keys == h.receipts.Keys
  {
    CountsTold(l, h);
  }

  /** The real chain goes through: from a fresh guard under the first policy, four calls and the
      0.2 migration, one call and 0.3, four calls and 0.4, four calls, one authorisation left
      unused, and 0.5. Every call is granted and settled and every migration is carried out; in the
      end the last policy and all its limits are in force, thirteen calls are on record, each under
      the policy and script of its own time, and all four receipts are filed. The whole is one run
      without a reused id. */
  lemma FourMigrationsGoThrough(identity: Identity, t: Terms, calls: seq<Planned>, spare: Planned, o: seq<Order>)
      returns (moves: seq<Move>, h: History, end: Ledger)
    requires TermsOk(t) && t.limits == Limits01() && OrdersOk(t, o) && CallsOk(t, calls, spare, o[3])
    requires forall i, j | 0 <= i < j < 14 :: Apart((calls + [spare])[i], (calls + [spare])[j])
    ensures moves == FourStages(Begun(identity, t), calls, spare, o)
    ensures AllSucceed(Initialised(identity, t), Begun(identity, t), moves)
    ensures end == TakeAll(Initialised(identity, t), AllStepsOf(Begun(identity, t), moves))
    ensures FreshSteps(Initialised(identity, t), AllStepsOf(Begun(identity, t), moves))
    ensures Tells(end, h) && OriginsAre(h.made, OriginNow(Begun(identity, t)), o)
    ensures end.limits == Limits05() && end.config.version == o[3].next.version
    ensures end.config.identity.policyHash == o[3].next.policyHash && end.config.identity.scriptHash == o[3].next.scriptHash
    ensures end.totals.claimed == end.totals.known == 13 && end.receipts.Keys == {o[0].key, o[1].key, o[2].key, o[3].key}
  {
    moves := FourStages(Begun(identity, t), calls, spare, o);
    h := FourStagesFit(identity, t, calls, spare, o);
    FourStagesAreNew(identity, t, calls, spare, o);
    InitiallyTold(identity, t);
    end := EndOf(Initialised(identity, t), Begun(identity, t), moves);
    ChainGoesThrough(Initialised(identity, t), Begun(identity, t), moves);
    ChainIsARun(Initialised(identity, t), Begun(identity, t), moves);
    EndTold(end, h);
  }

  lemma FourStagesAreNew(identity: Identity, t: Terms, calls: seq<Planned>, spare: Planned, o: seq<Order>)
    requires |calls| == 13 && |o| == 4
    requires forall i, j | 0 <= i < j < 14 :: Apart((calls + [spare])[i], (calls + [spare])[j])
    ensures NewAndApart(Initialised(identity, t), Issues(FourStages(Begun(identity, t), calls, spare, o)))
  {
    IssuesOfFourStages(Begun(identity, t), calls, spare, o);
    AllNewAtFirst(identity, t, calls + [spare]);
  }
}
