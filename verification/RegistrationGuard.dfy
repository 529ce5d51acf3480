/** Catalog registrations that overlap. Each takes the next epoch, gives back the lease of the one
    before it and takes its own; its status callback may be called any number of times, also long
    after it was superseded; and it returns only once the registry has settled. Disposing takes an
    epoch and gives the lease back. */
module RegistrationGuard {
  import opened Prelude
  import opened EpochGuard

  /** What the registry reports; `matches` says that the names and the generation are as expected. */
  datatype Status = Quiet | Transition | ReadyWith(matches: bool) | Error

  datatype Registration = Registration(epoch: nat, latest: Status, settled: bool)

  /** The page's variables, the leases the registry still holds, and what has happened. */
  datatype Page = Page(epoch: nat, registrations: map<TaskId, Registration>, leases: set<TaskId>,
                       release: Option<TaskId>, log: seq<Event>)

  datatype Move =
    | Register(task: TaskId)
    | Reports(task: TaskId, status: Status)  // the registry calls the status callback
    | Settles(task: TaskId)                  // the awaited registry has settled
    | DisposeRegistration

  /** The lease that the page still holds is given back. */
  function Released(p: Page): Page {
    p.(leases := if p.release.Some? then p.leases - {p.release.value} else p.leases, release := None)
  }

  predicate IsCurrent(p: Page, t: TaskId) {
    t in p.registrations && p.registrations[t].epoch == p.epoch
  }

  function Step(p: Page, m: Move): Option<Page> {
    match m
    case Register(t) =>
      if t in p.registrations then None
      else
        var q := Released(p.(epoch := p.epoch + 1));
        Some(q.(registrations := q.registrations[t := Registration(p.epoch + 1, Quiet, false)], leases := q.leases + {t},
                release := Some(t), log := q.log + [Began(t)]))
    case Reports(t, s) =>
      if t !in p.registrations then None
      else if !IsCurrent(p, t) then Some(p)
      else Some(p.(registrations := p.registrations[t := p.registrations[t].(latest := s)], log := p.log + [Stored(t, Report)]))
    case Settles(t) =>
      if t !in p.registrations || p.registrations[t].settled then None
      else
        var q := p.(registrations := p.registrations[t := p.registrations[t].(settled := true)]);
        if IsCurrent(p, t) && p.registrations[t].latest == ReadyWith(true) then Some(q.(log := p.log + [Stored(t, Returned)]))
        else Some(q)
    case DisposeRegistration => Some(Released(p.(epoch := p.epoch + 1)).(log := p.log + [Bumped]))
  }

  function Fresh(): Page {
    Page(0, map[], {}, None, [])
  }

  function RunPage(p: Page, moves: seq<Move>): Option<Page>
    decreases |moves|
  {
    if moves == [] then Some(p) else
    match Step(p, moves[0])
    case None => None
    case Some(next) => RunPage(next, moves[1..])
  }

  ghost predicate PageOk(p: Page) {
    && AllTimely(p.log)
    && (forall t | t in p.registrations :: p.registrations[t].epoch <= p.epoch)
    && (forall t | t in p.registrations && p.registrations[t].epoch == p.epoch :: Newest(p.log) == Some(Began(t)))
    && (forall t: TaskId :: Disposed(t) !in p.log)
    && p.leases == (if p.release.Some? then {p.release.value} else {})
    && (forall t: TaskId :: p.release == Some(t) <==> IsCurrent(p, t))
  }

  lemma RegisterKeepsOk(p: Page, t: TaskId)
    requires PageOk(p) && t !in p.registrations
    ensures PageOk(Step(p, Register(t)).value)
  {
    Append(p.log, Began(t));
  }

  lemma ReportKeepsOk(p: Page, t: TaskId, s: Status)
    requires PageOk(p) && t in p.registrations
    ensures PageOk(Step(p, Reports(t, s)).value)
  {
    if IsCurrent(p, t) {
      Append(p.log, Stored(t, Report));
    }
  }

  lemma SettleKeepsOk(p: Page, t: TaskId)
    requires PageOk(p) && t in p.registrations && !p.registrations[t].settled
    ensures PageOk(Step(p, Settles(t)).value)
  {
    if IsCurrent(p, t) {
      Append(p.log, Stored(t, Returned));
    }
  }

  lemma DisposeKeepsOk(p: Page)
    requires PageOk(p)
    ensures PageOk(Step(p, DisposeRegistration).value)
  {
    var p' := Step(p, DisposeRegistration).value;
    Append(p.log, Bumped);
    assert forall t | t in p'.registrations :: p'.registrations[t].epoch < p'.epoch;
  }

  lemma StepKeepsOk(p: Page, m: Move, p': Page)
    requires PageOk(p) && Step(p, m) == Some(p')
    ensures PageOk(p')
  {
    match m
    case Register(t) => RegisterKeepsOk(p, t);
    case Reports(t, s) => ReportKeepsOk(p, t, s);
    case Settles(t) => SettleKeepsOk(p, t);
    case DisposeRegistration => DisposeKeepsOk(p);
  }

  lemma {:induction false} RunKeepsOk(p: Page, moves: seq<Move>, p': Page)
    requires PageOk(p) && RunPage(p, moves) == Some(p')
    ensures PageOk(p')
    decreases |moves|
  {
    if moves != [] {
      StepKeepsOk(p, moves[0], Step(p, moves[0]).value);
      RunKeepsOk(Step(p, moves[0]).value, moves[1..], p');
    }
  }

  /** However often and however late the callbacks come: only the newest registration forwards a
      status or returns, and none that began before the page was disposed does so after it. */
  lemma OnlyTheNewestReports(moves: seq<Move>, p: Page)
    requires RunPage(Fresh(), moves) == Some(p)
    ensures AllTimely(p.log)
    ensures forall i, j | 0 <= i < j < |p.log| && p.log[i].Bumped? && p.log[j].Stored? ::
              exists k :: i < k < j && p.log[k] == Began(p.log[j].task)
  {
    RunKeepsOk(Fresh(), moves, p);
    forall i, j | 0 <= i < j < |p.log| && p.log[i].Bumped? && p.log[j].Stored?
      ensures exists k :: i < k < j && p.log[k] == Began(p.log[j].task)
    {
      BegunInBetween(p.log, i, j);
    }
  }

  /** The registry holds the lease of the newest registration and of no other, and none at all
      exactly when nothing was registered since the page was disposed. */
  lemma OneLease(moves: seq<Move>, p: Page)
    requires RunPage(Fresh(), moves) == Some(p)
    ensures forall t: TaskId :: t in p.leases <==> IsCurrent(p, t)
    ensures forall t: TaskId :: t in p.leases ==> Newest(p.log) == Some(Began(t))
    ensures |p.leases| <= 1
  {
    RunKeepsOk(Fresh(), moves, p);
  }

  /** No other registration, and no disposal. */
  predicate NoneAfter(moves: seq<Move>) {
    forall i | 0 <= i < |moves| :: !moves[i].Register? && !moves[i].DisposeRegistration?
  }

  /** What was reported to this registration last. */
  function LastStatus(moves: seq<Move>, t: TaskId, before: Status): Status
    decreases |moves|
  {
    if moves == [] then before
    else LastStatus(moves[1..], t, if moves[0].Reports? && moves[0].task == t then moves[0].status else before)
  }

  predicate HasSettled(moves: seq<Move>, t: TaskId) {
    Settles(t) in moves
  }

  lemma {:induction false} StaysNewest(p: Page, moves: seq<Move>, p': Page, t: TaskId)
    requires IsCurrent(p, t) && RunPage(p, moves) == Some(p') && NoneAfter(moves)
    ensures IsCurrent(p', t) && p'.registrations[t].latest == LastStatus(moves, t, p.registrations[t].latest)
    ensures p'.registrations[t].settled <==> p.registrations[t].settled || HasSettled(moves, t)
    decreases |moves|
  {
    if moves != [] {
      StaysNewest(Step(p, moves[0]).value, moves[1..], p', t);
      assert HasSettled(moves, t) <==> moves[0] == Settles(t) || HasSettled(moves[1..], t);
    }
  }

  /** A registration is heard until the next one, or disposal: every status is forwarded, and when the
      registry settles it returns exactly if the last status said ready with what was expected. */
  lemma NewestIsHeard(p: Page, t: TaskId, moves: seq<Move>, p': Page, s: Status)
    requires t !in p.registrations && NoneAfter(moves)
    requires Step(p, Register(t)).Some? ==> RunPage(Step(p, Register(t)).value, moves) == Some(p')
    ensures Step(p', Reports(t, s)).Some? && Step(p', Reports(t, s)).value.log == p'.log + [Stored(t, Report)]
    ensures !HasSettled(moves, t) ==>
              Step(p', Settles(t)).Some?
              && Step(p', Settles(t)).value.log
                 == p'.log + if LastStatus(moves, t, Quiet) == ReadyWith(true) then [Stored(t, Returned)] else []
  {
    StaysNewest(Step(p, Register(t)).value, moves, p', t);
  }
}
