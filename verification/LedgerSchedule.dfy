/** The whole allowance, spent one call at a time in any order, and what happens after that. */
module LedgerSchedule {
  import opened Prelude
  import opened LedgerModel
  import opened LedgerMigration
  import opened LedgerRuns

  function Repeat(p: Purpose, n: int): (s: seq<Purpose>)
    ensures |s| == if n < 0 then 0 else n
    ensures forall i | 0 <= i < |s| :: s[i] == p
    decreases n
  {
    if n <= 0 then [] else [p] + Repeat(p, n - 1)
  }

  /** Every purpose as often as its limit allows. */
  function Schedule(limits: PerPurpose): seq<Purpose> {
    Repeat(Calibration, limits.calibration) + Repeat(Baseline, limits.baseline) + Repeat(Repair, limits.repair)
    + Repeat(Revised, limits.revised) + Repeat(Judge, limits.judge)
  }

  function Uses(s: seq<Purpose>, p: Purpose): nat {
    multiset(s)[p]
  }

  lemma {:induction false} RepeatUses(p: Purpose, n: int, q: Purpose)
    requires n >= 0
    ensures Uses(Repeat(p, n), q) == if p == q then n else 0
    decreases n
  {
    if n > 0 {
      RepeatUses(p, n - 1, q);
    }
  }

  lemma ScheduleUses(limits: PerPurpose, q: Purpose)
    requires limits.AreNonNegative()
    ensures Uses(Schedule(limits), q) == limits.Of(q)
  {
    RepeatUses(Calibration, limits.calibration, q);
    RepeatUses(Baseline, limits.baseline, q);
    RepeatUses(Repair, limits.repair, q);
    RepeatUses(Revised, limits.revised, q);
    RepeatUses(Judge, limits.judge, q);
  }

  lemma ScheduleLength(limits: PerPurpose)
    requires limits.AreNonNegative()
    ensures |Schedule(limits)| == limits.Sum()
  {
  }

  /** One call of the plan: its token, its settlement, and when it is issued and begun. */
  datatype Planned = Planned(purpose: Purpose, jti: Jti, claims: Hash, subject: Hash, actor: Hash, response: Hash,
                             digest: Hash, usage: Hash, actual: int, issueAt: nat, beginAt: nat)

  function Purposes(plan: seq<Planned>): seq<Purpose> {
    seq(|plan|, i requires 0 <= i < |plan| => plan[i].purpose)
  }

  function IssueOf(identity: Identity, t: Terms, p: Planned): IssueRequest {
    IssueRequest(identity, p.jti, p.claims, p.purpose, p.subject, p.actor, t.limits.Of(p.purpose), NotRequired)
  }

  function BeginOf(identity: Identity, t: Terms, p: Planned): BeginRequest {
    BeginRequest(identity, p.jti, p.claims, p.purpose, t, NotRequired)
  }

  function KnownOf(identity: Identity, p: Planned): KnownRequest {
    KnownRequest(identity, p.jti, p.actual, p.response, p.digest, p.usage)
  }

  function AfterIssue(l: Ledger, identity: Identity, t: Terms, p: Planned): Ledger {
    Issue(l, IssueOf(identity, t, p), p.issueAt)
  }

  function AfterBegin(l: Ledger, identity: Identity, t: Terms, p: Planned): Ledger {
    Begin(AfterIssue(l, identity, t, p), BeginOf(identity, t, p), p.beginAt)
  }

  function AfterSettle(l: Ledger, identity: Identity, t: Terms, p: Planned): Ledger {
    SettleKnown(AfterBegin(l, identity, t, p), KnownOf(identity, p))
  }

  /** Issued new, granted and settled new: nothing was refused on the way. */
  predicate Admitted(l: Ledger, identity: Identity, t: Terms, p: Planned) {
    && IssueReply(l, IssueOf(identity, t, p), p.issueAt).IssuedNew?
    && BeginReply(AfterIssue(l, identity, t, p), BeginOf(identity, t, p), p.beginAt).Granted?
    && KnownReply(AfterBegin(l, identity, t, p), KnownOf(identity, p)).KnownNew?
  }

  /** The policy's own arithmetic. */
  predicate TermsOk(t: Terms) {
    t.limits.AreNonNegative() && t.limits.Sum() == t.globalLimit && t.reservation >= 0
    && t.ceiling == t.globalLimit * t.reservation && t.maxConcurrency >= 1
  }

  predicate TimelyAndCheap(t: Terms, p: Planned) {
    p.issueAt <= p.beginAt < p.issueAt + TOKEN_TTL && p.beginAt * 1000 < t.closesAtMs
    && 0 <= p.actual <= t.reservation
  }

  predicate PlanOk(t: Terms, plan: seq<Planned>) {
    && (forall i | 0 <= i < |plan| :: TimelyAndCheap(t, plan[i]))
    && (forall i, j | 0 <= i < j < |plan| ::
          plan[i].subject != plan[j].subject && plan[i].response != plan[j].response)
  }

  /** Between two calls: `done` has been called, everything is settled, and no subject or response
      of the calls to come has been seen. Token ids may repeat: no script asks. */
  ghost predicate Between(l: Ledger, identity: Identity, t: Terms, done: seq<Purpose>, todo: seq<Planned>) {
    && l.config == InitialConfig(identity, t) && l.limits == t.limits
    && Laws(l) && NonNegative(l.totals, l.counts) && l.inflight == map[]
    && l.totals.claimed == |done| && l.totals.uncertain == 0
    && (forall p: Purpose :: l.counts.Of(p) == Uses(done, p))
    && (forall k | k in l.rates :: l.rates[k] <= Uses(done, k.purpose))
    && Unseen(l, todo)
  }

  /** Everything the call needs from the state before it. */
  predicate Room(l: Ledger, identity: Identity, t: Terms, p: Planned) {
    && l.config == InitialConfig(identity, t) && l.limits == t.limits
    && Laws(l) && NonNegative(l.totals, l.counts) && |l.inflight| == 0
    && l.counts.AtMost(t.limits) && l.counts.Of(p.purpose) < t.limits.Of(p.purpose)
    && l.totals.claimed < t.globalLimit && l.totals.committed + t.reservation <= t.ceiling
    && Get(l.rates, RateKeyOf(IssueOf(identity, t, p), p.issueAt), 0) < t.limits.Of(p.purpose)
    && p.subject !in l.subjects && p.response !in l.providers
  }

  lemma IssueAdmitted(l: Ledger, identity: Identity, t: Terms, p: Planned)
    requires TermsOk(t) && TimelyAndCheap(t, p) && Room(l, identity, t, p)
    ensures IssueReply(l, IssueOf(identity, t, p), p.issueAt).IssuedNew?
    ensures var l' := AfterIssue(l, identity, t, p);
            && l'.auths == l.auths[p.jti := NewAuth(IssueOf(identity, t, p), p.issueAt)]
            && l'.subjects == l.subjects[p.subject := p.jti]
            && l' == l.(auths := l'.auths, subjects := l'.subjects, rates := l'.rates)
  {
  }

  lemma BeginAdmitted(l: Ledger, identity: Identity, t: Terms, p: Planned)
    requires TermsOk(t) && TimelyAndCheap(t, p) && Room(l, identity, t, p)
    ensures BeginRefusal(AfterIssue(l, identity, t, p), BeginOf(identity, t, p), p.beginAt).None?
    ensures AfterBegin(l, identity, t, p) == Dispatch(AfterIssue(l, identity, t, p), BeginOf(identity, t, p), p.beginAt)
  {
    IssueAdmitted(l, identity, t, p);
    var l' := AfterIssue(l, identity, t, p);
    assert GuardRefusal(l', BeginOf(identity, t, p)).None?;
    assert TurnRefusal(l', BeginOf(identity, t, p), p.beginAt).None?;
    assert CounterRefusal(l', BeginOf(identity, t, p)).None?;
  }

  /** What one admitted call leaves behind. */
  predicate OneCallLater(l: Ledger, t: Terms, p: Planned, l': Ledger) {
    && l'.config == l.config && l'.limits == l.limits && l'.inflight == l.inflight
    && l'.totals == l.totals.(sequence := l.totals.sequence + 1, claimed := l.totals.claimed + 1,
                              committed := l.totals.committed + t.reservation, known := l.totals.known + 1,
                              knownActual := l.totals.knownActual + p.actual)
    && l'.counts == l.counts.Bump(p.purpose)
    && l'.auths.Keys == l.auths.Keys + {p.jti} && l'.subjects.Keys == l.subjects.Keys + {p.subject}
    && l'.providers.Keys == l.providers.Keys + {p.response}
    && (forall k | k in l'.rates :: l'.rates[k] <= Get(l.rates, k, 0) + (if k.purpose == p.purpose then 1 else 0))
  }

  lemma SettleAdmitted(l: Ledger, identity: Identity, t: Terms, p: Planned)
    requires TermsOk(t) && TimelyAndCheap(t, p) && Room(l, identity, t, p)
    ensures Admitted(l, identity, t, p)
    ensures AfterSettle(l, identity, t, p)
            == LeaveFlight(FileKnown(AfterBegin(l, identity, t, p), KnownOf(identity, p)), p.jti)
    ensures var a := AfterBegin(l, identity, t, p).auths; p.jti in a && a[p.jti].state.InFlight?
  {
    IssueAdmitted(l, identity, t, p);
    BeginAdmitted(l, identity, t, p);
    assert KnownReply(AfterBegin(l, identity, t, p), KnownOf(identity, p)) == KnownNew(p.actual);
  }

  lemma RatesAfterOne(l: Ledger, r: IssueRequest, now: nat)
    requires IssueReply(l, r, now).IssuedNew?
    ensures Issue(l, r, now).rates == l.rates[RateKeyOf(r, now) := Get(l.rates, RateKeyOf(r, now), 0) + 1]
  {
  }

  /** The ledger right after this call was issued. */
  predicate IssuedFor(l: Ledger, identity: Identity, t: Terms, p: Planned, i: Ledger) {
    var r := IssueOf(identity, t, p);
    i == l.(auths := l.auths[p.jti := NewAuth(r, p.issueAt)], subjects := l.subjects[p.subject := p.jti],
            rates := l.rates[RateKeyOf(r, p.issueAt) := Get(l.rates, RateKeyOf(r, p.issueAt), 0) + 1])
  }

  lemma IssueFiles(l: Ledger, identity: Identity, t: Terms, p: Planned) returns (i: Ledger)
    requires TermsOk(t) && TimelyAndCheap(t, p) && Room(l, identity, t, p)
    ensures i == AfterIssue(l, identity, t, p) && IssuedFor(l, identity, t, p, i)
  {
    IssueAdmitted(l, identity, t, p);
    RatesAfterOne(l, IssueOf(identity, t, p), p.issueAt);
    i := AfterIssue(l, identity, t, p);
  }

  /** The three updates of one call, taken together. */
  lemma ThreeUpdates(l: Ledger, identity: Identity, t: Terms, p: Planned, i: Ledger, l': Ledger)
    requires IssuedFor(l, identity, t, p, i) && l.inflight == map[] && l.config.reservation == t.reservation
    requires p.jti in i.auths
    requires l' == LeaveFlight(FileKnown(Dispatch(i, BeginOf(identity, t, p), p.beginAt), KnownOf(identity, p)), p.jti)
    ensures OneCallLater(l, t, p, l')
  {
    assert l'.inflight == map[];
    assert l'.rates == i.rates;
  }

  lemma SettleUpdates(l: Ledger, identity: Identity, t: Terms, p: Planned, i: Ledger)
    requires TermsOk(t) && TimelyAndCheap(t, p) && Room(l, identity, t, p) && i == AfterIssue(l, identity, t, p)
    ensures p.jti in i.auths
    ensures AfterSettle(l, identity, t, p)
            == LeaveFlight(FileKnown(Dispatch(i, BeginOf(identity, t, p), p.beginAt), KnownOf(identity, p)), p.jti)
  {
    IssueAdmitted(l, identity, t, p);
    BeginAdmitted(l, identity, t, p);
    SettleAdmitted(l, identity, t, p);
  }

  lemma CallAdmitted(l: Ledger, identity: Identity, t: Terms, p: Planned) returns (l': Ledger)
    requires TermsOk(t) && TimelyAndCheap(t, p) && Room(l, identity, t, p)
    ensures l' == AfterSettle(l, identity, t, p) && OneCallLater(l, t, p, l')
  {
    l' := AfterSettle(l, identity, t, p);
    var i := IssueFiles(l, identity, t, p);
    SettleUpdates(l, identity, t, p, i);
    assert l.inflight.Keys == {};
    ThreeUpdates(l, identity, t, p, i, l');
  }

  // ----- the whole plan --------------------------------------------------------------------------

  lemma UsesAppend(done: seq<Purpose>, p: Purpose, q: Purpose)
    ensures Uses(done + [p], q) == Uses(done, q) + if p == q then 1 else 0
  {
  }

  lemma BumpCounts(c: PerPurpose, p: Purpose, q: Purpose)
    ensures c.Bump(p).Of(q) == c.Of(q) + if p == q then 1 else 0
  {
  }

  lemma BumpSum(c: PerPurpose, p: Purpose)
    ensures c.Bump(p).Sum() == c.Sum() + 1 && (c.AreNonNegative() ==> c.Bump(p).AreNonNegative())
  {
  }

  lemma LawsOneLater(l: Ledger, t: Terms, p: Planned, l': Ledger)
    requires OneCallLater(l, t, p, l') && l.config.reservation == t.reservation && TimelyAndCheap(t, p)
    requires Laws(l) && NonNegative(l.totals, l.counts) && t.reservation >= 0
    ensures Laws(l') && NonNegative(l'.totals, l'.counts)
  {
    BumpSum(l.counts, p.purpose);
    OneMore(l.totals.claimed, l'.config.reservation);
    OneMore(l.totals.known, l'.config.reservation);
  }

  lemma CountsOneLater(c: PerPurpose, p: Purpose, done: seq<Purpose>)
    requires forall q: Purpose :: c.Of(q) == Uses(done, q)
    ensures forall q: Purpose :: c.Bump(p).Of(q) == Uses(done + [p], q)
  {
    forall q: Purpose ensures c.Bump(p).Of(q) == Uses(done + [p], q) {
      UsesAppend(done, p, q);
      BumpCounts(c, p, q);
    }
  }

  predicate Unseen(l: Ledger, todo: seq<Planned>) {
    forall i | 0 <= i < |todo| :: todo[i].subject !in l.subjects && todo[i].response !in l.providers
  }

  lemma UnseenOneLater(t: Terms, todo: seq<Planned>, l: Ledger, l': Ledger)
    requires PlanOk(t, todo) && todo != [] && Unseen(l, todo)
    requires l'.subjects.Keys == l.subjects.Keys + {todo[0].subject}
    requires l'.providers.Keys == l.providers.Keys + {todo[0].response}
    ensures Unseen(l', todo[1..])
  {
    forall i | 0 <= i < |todo[1..]| ensures todo[1..][i].subject !in l'.subjects && todo[1..][i].response !in l'.providers {
      assert todo[1..][i] == todo[i + 1];
      assert todo[i + 1].subject !in l.subjects.Keys && todo[i + 1].response !in l.providers.Keys;
    }
  }

  lemma RatesOneLater(l: Ledger, t: Terms, p: Planned, l': Ledger, done: seq<Purpose>)
    requires OneCallLater(l, t, p, l') && forall k | k in l.rates :: l.rates[k] <= Uses(done, k.purpose)
    ensures forall k | k in l'.rates :: l'.rates[k] <= Uses(done + [p.purpose], k.purpose)
  {
    forall k | k in l'.rates ensures l'.rates[k] <= Uses(done + [p.purpose], k.purpose) {
      UsesAppend(done, p.purpose, k.purpose);
    }
  }

  lemma BetweenOneLater(l: Ledger, identity: Identity, t: Terms, done: seq<Purpose>, todo: seq<Planned>, l': Ledger)
    requires PlanOk(t, todo) && todo != [] && t.reservation >= 0
    requires Between(l, identity, t, done, todo) && OneCallLater(l, t, todo[0], l')
    ensures Between(l', identity, t, done + [todo[0].purpose], todo[1..])
  {
    var p := todo[0];
    LawsOneLater(l, t, p, l');
    CountsOneLater(l.counts, p.purpose, done);
    RatesOneLater(l, t, p, l', done);
    UnseenOneLater(t, todo, l, l');
  }

  predicate WithinLimits(t: Terms, done: seq<Purpose>) {
    |done| <= t.globalLimit && forall p: Purpose :: Uses(done, p) <= t.limits.Of(p)
  }

  lemma RoomForNext(l: Ledger, identity: Identity, t: Terms, done: seq<Purpose>, todo: seq<Planned>)
    requires TermsOk(t) && PlanOk(t, todo) && todo != [] && Between(l, identity, t, done, todo)
    requires WithinLimits(t, done + [todo[0].purpose])
    ensures Room(l, identity, t, todo[0])
  {
    var p := todo[0].purpose;
    UsesAppend(done, p, p);
    forall q: Purpose ensures l.counts.Of(q) <= t.limits.Of(q) {
      UsesAppend(done, p, q);
    }
    assert l.counts.Of(Calibration) <= t.limits.Of(Calibration) && l.counts.Of(Baseline) <= t.limits.Of(Baseline);
    assert l.counts.Of(Repair) <= t.limits.Of(Repair) && l.counts.Of(Revised) <= t.limits.Of(Revised);
    assert l.counts.Of(Judge) <= t.limits.Of(Judge);
    RoomForOneMore(l.totals.claimed, t.globalLimit, t.reservation);
  }

  /** The calls of the plan, one after the other. */
  function Spend(l: Ledger, identity: Identity, t: Terms, plan: seq<Planned>): Ledger
    decreases |plan|
  {
    if plan == [] then l else Spend(AfterSettle(l, identity, t, plan[0]), identity, t, plan[1..])
  }

  predicate AllAdmitted(l: Ledger, identity: Identity, t: Terms, plan: seq<Planned>)
    decreases |plan|
  {
    plan == [] || (Admitted(l, identity, t, plan[0])
                   && AllAdmitted(AfterSettle(l, identity, t, plan[0]), identity, t, plan[1..]))
  }

  lemma PurposesTail(plan: seq<Planned>)
    requires plan != []
    ensures Purposes(plan) == [plan[0].purpose] + Purposes(plan[1..])
  {
  }

  lemma PrefixWithinLimits(t: Terms, done: seq<Purpose>, more: seq<Purpose>)
    requires WithinLimits(t, done + more)
    ensures WithinLimits(t, done)
  {
    forall p: Purpose ensures Uses(done, p) <= Uses(done + more, p) {
    }
  }

  lemma NextAdmitted(l: Ledger, identity: Identity, t: Terms, done: seq<Purpose>, todo: seq<Planned>)
    requires TermsOk(t) && PlanOk(t, todo) && todo != [] && Between(l, identity, t, done, todo)
    requires WithinLimits(t, done + [todo[0].purpose])
    ensures Admitted(l, identity, t, todo[0])
    ensures Between(AfterSettle(l, identity, t, todo[0]), identity, t, done + [todo[0].purpose], todo[1..])
  {
    RoomForNext(l, identity, t, done, todo);
    SettleAdmitted(l, identity, t, todo[0]);
    var l' := CallAdmitted(l, identity, t, todo[0]);
    BetweenOneLater(l, identity, t, done, todo, l');
  }

  lemma PlanTail(t: Terms, plan: seq<Planned>)
    requires PlanOk(t, plan) && plan != []
    ensures PlanOk(t, plan[1..])
  {
  }

  /** A call beyond a limit is not admitted. */
  lemma NextRefused(l: Ledger, identity: Identity, t: Terms, done: seq<Purpose>, todo: seq<Planned>)
    requires todo != [] && Between(l, identity, t, done, todo)
    requires WithinLimits(t, done) && !WithinLimits(t, done + [todo[0].purpose])
    ensures !Admitted(l, identity, t, todo[0])
  {
    var p := todo[0].purpose;
    if |done| + 1 <= t.globalLimit {
      var q: Purpose :| Uses(done + [p], q) > t.limits.Of(q);
      UsesAppend(done, p, q);
      assert l.counts.Of(p) + 1 > l.limits.Of(p);
    }
    var i := AfterIssue(l, identity, t, todo[0]);
    assert i.totals == l.totals && i.counts == l.counts && i.limits == l.limits && i.config == l.config;
    assert CounterRefusal(i, BeginOf(identity, t, todo[0])).Some?;
  }

  /** Run one at a time with known settlement, a plan goes through entirely exactly when no
      purpose and not the whole is planned beyond its limit; the order does not matter. */
  lemma {:induction false} PlanAdmittedIff(l: Ledger, identity: Identity, t: Terms, done: seq<Purpose>,
                                           todo: seq<Planned>)
    requires TermsOk(t) && PlanOk(t, todo) && Between(l, identity, t, done, todo) && WithinLimits(t, done)
    ensures AllAdmitted(l, identity, t, todo) <==> WithinLimits(t, done + Purposes(todo))
    ensures AllAdmitted(l, identity, t, todo) ==>
              Between(Spend(l, identity, t, todo), identity, t, done + Purposes(todo), [])
    decreases |todo|
  {
    if todo == [] {
      assert done + Purposes(todo) == done;
    } else {
      var now := done + [todo[0].purpose];
      PurposesTail(todo);
      assert done + Purposes(todo) == now + Purposes(todo[1..]);
      if WithinLimits(t, now) {
        NextAdmitted(l, identity, t, done, todo);
        PlanTail(t, todo);
        PlanAdmittedIff(AfterSettle(l, identity, t, todo[0]), identity, t, now, todo[1..]);
      } else {
        NextRefused(l, identity, t, done, todo);
        if WithinLimits(t, now + Purposes(todo[1..])) {
          PrefixWithinLimits(t, now, Purposes(todo[1..]));
        }
      }
    }
  }

  /** Nothing has been asked of this guard yet. */
  ghost predicate NothingCalled(l: Ledger, identity: Identity, t: Terms) {
    && l.config == InitialConfig(identity, t) && l.limits == t.limits && l.inflight == map[] && l.rates == map[]
    && Laws(l) && NonNegative(l.totals, l.counts) && l.totals.claimed == l.totals.uncertain == 0
    && l.subjects == map[] && l.providers == map[] && forall p: Purpose :: l.counts.Of(p) == 0
  }

  lemma InitiallyNothing(l: Ledger, identity: Identity, t: Terms)
    requires l.config == InitialConfig(identity, t) && l.limits == t.limits
    requires l.totals == Totals(0, 0, 0, 0, 0, 0, 0, 0) && l.counts == PerPurpose(0, 0, 0, 0, 0)
    requires l.inflight == map[] && l.rates == map[] && l.subjects == map[] && l.providers == map[]
    ensures NothingCalled(l, identity, t)
  {
    NothingCounted(l);
  }

  lemma NothingCounted(l: Ledger)
    requires l.totals == Totals(0, 0, 0, 0, 0, 0, 0, 0) && l.counts == PerPurpose(0, 0, 0, 0, 0) && l.inflight == map[]
    ensures Laws(l) && NonNegative(l.totals, l.counts) && l.totals.claimed == l.totals.uncertain == 0
    ensures forall p: Purpose :: l.counts.Of(p) == 0
  {
  }

  lemma BetweenAtFirst(l: Ledger, identity: Identity, t: Terms, plan: seq<Planned>)
    requires NothingCalled(l, identity, t)
    ensures Between(l, identity, t, [], plan)
  {
    assert forall p: Purpose :: Uses([], p) == 0;
  }

  /** A freshly initialised guard is ready for any plan. */
  lemma InitiallyBetween(identity: Identity, t: Terms, plan: seq<Planned>)
    requires TermsOk(t)
    ensures Between(Initialised(identity, t), identity, t, [], plan) && WithinLimits(t, [])
  {
    InitiallyNothing(Initialised(identity, t), identity, t);
    BetweenAtFirst(Initialised(identity, t), identity, t, plan);
    NothingDone(t);
  }

  lemma NothingDone(t: Terms)
    requires TermsOk(t)
    ensures WithinLimits(t, [])
  {
    assert forall p: Purpose :: Uses([], p) == 0 <= t.limits.Of(p);
  }

  lemma FullSchedule(t: Terms, s: seq<Purpose>)
    requires TermsOk(t) && multiset(s) == multiset(Schedule(t.limits))
    ensures WithinLimits(t, s) && |s| == t.globalLimit
    ensures forall p: Purpose :: Uses(s, p) == t.limits.Of(p)
  {
    forall p: Purpose ensures Uses(s, p) == t.limits.Of(p) {
      ScheduleUses(t.limits, p);
    }
    ScheduleLength(t.limits);
    assert |s| == |multiset(s)| == |multiset(Schedule(t.limits))| == |Schedule(t.limits)|;
  }

  lemma FullyUsed(l: Ledger, t: Terms)
    requires forall p: Purpose :: l.counts.Of(p) == t.limits.Of(p)
    ensures l.counts == t.limits
  {
    assert l.counts.Of(Calibration) == t.limits.Of(Calibration) && l.counts.Of(Baseline) == t.limits.Of(Baseline);
    assert l.counts.Of(Repair) == t.limits.Of(Repair) && l.counts.Of(Revised) == t.limits.Of(Revised);
    assert l.counts.Of(Judge) == t.limits.Of(Judge);
  }

  lemma AtRest(l: Ledger)
    requires Laws(l) && l.inflight == map[] && l.totals.uncertain == 0
    ensures l.totals.pending == 0 && l.totals.known == l.totals.claimed
    ensures l.totals.committed == l.totals.claimed * l.config.reservation
  {
    assert |l.inflight| == 0;
  }

  /** Every permutation of the schedule, run one call at a time with known settlement, is fully
      admitted, and ends with every purpose at its limit and the commitment at the ceiling. The
      start is any state without calls, such as a freshly initialised guard. */
  lemma EveryOrderIsAdmitted(identity: Identity, t: Terms, plan: seq<Planned>, start: Ledger, end: Ledger)
    requires TermsOk(t) && PlanOk(t, plan) && multiset(Purposes(plan)) == multiset(Schedule(t.limits))
    requires Between(start, identity, t, [], plan) && end == Spend(start, identity, t, plan)
    ensures AllAdmitted(start, identity, t, plan)
    ensures end.counts == t.limits && end.totals.claimed == end.totals.known == t.globalLimit
    ensures end.totals.committed == t.ceiling && end.totals.pending == end.totals.uncertain == 0
    ensures end.config.status.Open? && end.inflight == map[]
  {
    NothingDone(t);
    FullSchedule(t, Purposes(plan));
    assert [] + Purposes(plan) == Purposes(plan);
    PlanAdmittedIff(start, identity, t, [], plan);
    FullyUsed(end, t);
    AtRest(end);
  }

  /** And nothing more, ever: after the last call of any permutation, whatever calls and migrations
      follow, no begin is granted again. */
  lemma NothingAfterTheSchedule(identity: Identity, t: Terms, plan: seq<Planned>, start: Ledger, steps: seq<Step>,
                                r: BeginRequest, now: nat)
    requires TermsOk(t) && PlanOk(t, plan) && multiset(Purposes(plan)) == multiset(Schedule(t.limits))
    requires Between(start, identity, t, [], plan)
    ensures var full := Spend(start, identity, t, plan);
            !Happens(full, steps, Grants) && !BeginReply(TakeAll(full, steps), r, now).Granted?
  {
    var full := Spend(start, identity, t, plan);
    assert [] + Purposes(plan) == Purposes(plan);
    NothingDone(t);
    FullSchedule(t, Purposes(plan));
    PlanAdmittedIff(start, identity, t, [], plan);
    EveryOrderIsAdmitted(identity, t, plan, start, full);
    NothingBeyondTheLimit(full, steps, r, now);
  }

  lemma TwoOfAKind(t: Terms, p: Purpose)
    requires TermsOk(t) && t.limits.Of(p) >= 2
    ensures WithinLimits(t, [p, p]) && WithinLimits(t, [])
  {
    NothingDone(t);
    forall q: Purpose ensures Uses([p, p], q) <= t.limits.Of(q) {
      assert [p, p] == [] + [p] + [p];
      UsesAppend([], p, q);
      UsesAppend([p], p, q);
    }
  }

  /** From any guard without calls. */
  lemma SameTokenFrom(start: Ledger, identity: Identity, t: Terms, p: Planned, q: Planned)
    requires TermsOk(t) && t.limits.Of(p.purpose) >= 2 && PlanOk(t, [p, q])
    requires q.jti == p.jti && q.claims == p.claims && q.purpose == p.purpose
    requires Between(start, identity, t, [], [p, q])
    ensures TokenGrantedTwice(start, identity, t, p, q)
  {
    var plan := [p, q];
    TwoOfAKind(t, p.purpose);
    assert [] + Purposes(plan) == [p.purpose, p.purpose];
    PlanAdmittedIff(start, identity, t, [], plan);
    assert plan[1..] == [q];
    assert BeginOf(identity, t, q) == BeginOf(identity, t, p);
  }

  /** A call is granted and settled, its id is issued for another subject, and the very same begin is
      granted once more. */
  predicate TokenGrantedTwice(start: Ledger, identity: Identity, t: Terms, p: Planned, q: Planned) {
    var r := BeginOf(identity, t, p);
    var settled := AfterSettle(start, identity, t, p);
    && BeginReply(AfterIssue(start, identity, t, p), r, p.beginAt).Granted?
    && Does(settled, Calling(IssueCall(IssueOf(identity, t, q), q.issueAt)), Reissues(p.jti))
    && BeginReply(Issue(settled, IssueOf(identity, t, q), q.issueAt), r, q.beginAt).Granted?
  }

  /** Reusing an id gets a used token granted again, from a fresh guard on. */
  lemma SameTokenTwice(identity: Identity, t: Terms, p: Planned, q: Planned)
    requires TermsOk(t) && t.limits.Of(p.purpose) >= 2 && PlanOk(t, [p, q])
    requires q.jti == p.jti && q.claims == p.claims && q.purpose == p.purpose
    ensures TokenGrantedTwice(Initialised(identity, t), identity, t, p, q)
  {
    InitiallyBetween(identity, t, [p, q]);
    SameTokenFrom(Initialised(identity, t), identity, t, p, q);
  }
}
