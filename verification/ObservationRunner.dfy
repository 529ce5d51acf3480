/** The steps of the live runner: the gate callback, the registry callback, the 120-second timer
    and the awaited server calls interleave in any order, the requests for the next step among them.
    The server's part in a step is its handoff record: it is started once and ended once. The start
    button is taken to be activated once per received session. */
module ObservationRunner {
  import opened Prelude

  // ----- the session ---------------------------------------------------------------------------

  datatype Stage = Received | ReadyToArm | Preparing | ProviderReady | Armed | Observing | Evaluating
                 | Pass | Issue | Incomplete | Unavailable

  /** A session is its chain of stamped stages, the newest outermost. */
  datatype Session = First(at: int) | Then(before: Session, stage: Stage, at: int)

  function Now(s: Session): Stage {
    if s.First? then Received else s.stage
  }

  predicate MayFollow(from: Stage, to: Stage) {
    match from
    case Received => to.ReadyToArm? || to.Incomplete? || to.Unavailable?
    case ReadyToArm => to.Preparing? || to.Incomplete? || to.Unavailable?
    case Preparing => to.ProviderReady? || to.Incomplete? || to.Unavailable?
    case ProviderReady => to.Armed? || to.Incomplete? || to.Unavailable?
    case Armed => to.Observing? || to.Incomplete? || to.Unavailable?
    case Observing => to.Evaluating? || to.Incomplete?
    case Evaluating => to.Pass? || to.Issue? || to.Incomplete?
    case _ => false
  }

  /** A later stamp than the last one, whatever the wall clock says. */
  function NextTimestamp(s: Session, clock: int): int {
    if clock > s.at + 1 then clock else s.at + 1
  }

  function Moved(s: Session, to: Stage, clock: int): Session {
    Then(s, to, NextTimestamp(s, clock))
  }

  predicate ValidSession(s: Session) {
    s.Then? ==> ValidSession(s.before) && MayFollow(Now(s.before), s.stage) && s.before.at < s.at
  }

  function Length(s: Session): nat {
    if s.First? then 1 else 1 + Length(s.before)
  }

  // ----- the step ------------------------------------------------------------------------------

  /** A step is one run of the journey, numbered from its first. */
  type RunId = nat

  datatype Claim = NoClaim | InFlight | Settled

  datatype Gate = Gate(active: bool, claim: Claim)

  datatype Kind = Settle | Timeout | NotAvailable

  datatype Verdict = Passed | HasIssue | NotComplete | NoProvider

  /** Where one finalizer stands in its awaits. */
  datatype Point =
    | Controlling
    | Revealing
    | Judging
    | Writing(verdict: Verdict)
    | Reporting(verdict: Verdict)
    | Finished(verdict: Verdict)
    | Failed

  datatype Deed =
    | Control(kind: Kind)        // the control call is sent
    | Controlled(kind: Kind)     // it returned, granted
    | Reveal                     // the reveal is asked for
    | Revealed
    | Persisted(verdict: Verdict)
    | Reported(verdict: Verdict)

  /** One finalizer: the run it acts for, the session it began with, where it stands, what it has
      done so far, and whether the server granted its control call, answer seen or not. */
  datatype Finalizer = Finalizer(run: RunId, kind: Kind, from: Session, at: Point, did: seq<Deed>, granted: bool)

  datatype StartPoint = Idle | Requested(run: RunId) | Building | Started | StartFailed

  /** The single-shot flags and the arm time, shared by every callback of the step. */
  datatype Latch = Latch(terminal: bool, claimed: bool, armed: bool)

  /** A callback that the page still knows, and one that it lost track of but that is still
      connected. */
  datatype Connection = Connection(known: bool, stray: bool)

  /** Which callbacks are connected; `retained` marks a later step of the same page. */
  datatype Wiring = Wiring(timer: Connection, listener: Connection, registered: bool, readyHandled: bool, retained: bool)

  /** The way to the next step: whether the result and its Continue control are on display, and the
      advance requests under way, each with the run whose result it names. The page sets no bound
      on them; `cap` is the bound whose effect is studied. */
  datatype Link = Link(cap: nat, pending: seq<RunId>, shown: bool)

  /** The runs whose handoff the server has started, and those it has ended. */
  datatype Server = Server(started: set<RunId>, ended: set<RunId>)

  datatype Runner = Runner(session: Session, run: RunId, latch: Latch, wiring: Wiring, gate: Gate, start: StartPoint,
                           finalizers: seq<Finalizer>, server: Server, link: Link)

  datatype Environment = Supported | Unsupported | Broken

  /** How an awaited server call ends: carried out and answered, not carried out, or carried out
      with the answer lost. */
  datatype Reply = Arrives | Fails | Lost

  datatype Action =
    | MarkReady(clock: int)
    | Start
    | StartReply(reply: Reply, clock: int)
    | Build(environment: Environment, clock: int)
    | RegistryReady(clock: int)
    | RegistryError
    | Attempt(clock: int)                                           // a native invocation reaches the gate
    | SettleCall(clock: int)                                        // the admitted handler settles
    | TimerFires(stray: bool)
    | Advance(i: nat, reply: Reply, verdict: Verdict, clock: int)   // an await of a finalizer completes
    | Continue                                                      // the control under the result is clicked
    | Advanced(request: nat, ok: bool, at: int)                     // the server answers an advance request

  function TerminalStage(v: Verdict): Stage {
    match v
    case Passed => Pass
    case HasIssue => Issue
    case NoProvider => Unavailable
    case NotComplete => Incomplete
  }

  /** Begins a finalizer: the flag is claimed and the control call sent in one turn. */
  function Claimed(s: Runner, kind: Kind): Runner {
    s.(latch := s.latch.(claimed := true),
       finalizers := s.finalizers + [Finalizer(s.run, kind, s.session, Controlling, [Control(kind)], false)])
  }

  function FinalizeObserved(s: Runner, clock: int): Runner {
    if s.latch.terminal || !Now(s.session).Observing? || s.latch.claimed then s
    else Claimed(s.(session := Moved(s.session, Evaluating, clock)), Settle)
  }

  function FinalizeNoInvocation(s: Runner, kind: Kind): Runner {
    if s.latch.terminal || s.latch.claimed then s else Claimed(s, kind)
  }

  /** The gate tells its listeners that the claim changed or was contended. */
  function Publish(s: Runner, clock: int): Runner {
    if (!s.wiring.listener.known && !s.wiring.listener.stray) || s.gate.claim.NoClaim? || s.latch.terminal then s
    else if s.gate.claim.InFlight? then
      if Now(s.session).Armed? then s.(session := Moved(s.session, Observing, clock)) else s
    else FinalizeObserved(s, clock)
  }

  /** A timer set before this one, if still pending, can no longer be cleared. */
  function SetTimer(w: Wiring): Wiring {
    w.(timer := Connection(true, w.timer.known || w.timer.stray))
  }

  /** Clearing the timer and the gate listener that the page knows. */
  function Disconnect(w: Wiring): Wiring {
    w.(timer := w.timer.(known := false), listener := w.listener.(known := false))
  }

  function Arm(s: Runner, clock: int): Runner {
    if !Now(s.session).Preparing? then s else
    var ready := Moved(s.session, ProviderReady, clock);
    s.(session := Moved(ready, Armed, clock), latch := s.latch.(armed := true), wiring := SetTimer(s.wiring))
  }

  function DoBuild(s: Runner, e: Environment, clock: int): Runner {
    if e.Broken? || (s.wiring.retained && (s.gate.active || s.gate.claim.InFlight?)) then s.(start := StartFailed) else
    var s1 := s.(start := Started, gate := Gate(true, NoClaim));
    var heard := s.wiring.(listener := Connection(true, s.wiring.listener.known || s.wiring.listener.stray));
    if e.Unsupported? then FinalizeNoInvocation(s1, NotAvailable)
    else if s.wiring.retained then Arm(s1.(wiring := heard), clock)
    else s1.(wiring := heard.(registered := true))
  }

  function JudgedVerdict(kind: Kind, evaluated: Verdict): Verdict {
    match kind
    case Settle => evaluated
    case Timeout => NotComplete
    case NotAvailable => NoProvider
  }

  function With(s: Runner, i: nat, f: Finalizer): Runner
    requires i < |s.finalizers|
  {
    s.(finalizers := s.finalizers[i := f])
  }

  /** A finalizer that fails disconnects what is connected, and does nothing more. */
  function Fail(s: Runner, i: nat): Runner
    requires i < |s.finalizers|
  {
    With(s.(wiring := Disconnect(s.wiring)), i, s.finalizers[i].(at := Failed))
  }

  /** The server grants one control call of a run it has started, and no other after it. */
  predicate Grants(server: Server, run: RunId) {
    run in server.started && run !in server.ended
  }

  function DoControl(s: Runner, i: nat, reply: Reply): Runner
    requires i < |s.finalizers|
  {
    var f := s.finalizers[i];
    if reply.Fails? || !Grants(s.server, f.run) then Fail(s, i) else
    var s1 := s.(server := s.server.(ended := s.server.ended + {f.run}));
    if reply.Lost? then With(s1.(wiring := Disconnect(s.wiring)), i, f.(at := Failed, granted := true))
    else With(s1, i, f.(at := Revealing, did := f.did + [Controlled(f.kind), Reveal], granted := true))
  }

  /** The synchronous part of persisting: whoever gets here second does nothing. */
  function BeginPersist(s: Runner, i: nat, v: Verdict): Runner
    requires i < |s.finalizers|
  {
    var f := s.finalizers[i];
    if s.latch.terminal then With(s, i, f.(at := Failed))
    else With(s.(latch := s.latch.(terminal := true), wiring := Disconnect(s.wiring), gate := s.gate.(active := false)),
              i, f.(at := Writing(v)))
  }

  function DoAdvance(s: Runner, i: nat, reply: Reply, evaluated: Verdict, clock: int): Option<Runner>
    requires i < |s.finalizers|
  {
    var f := s.finalizers[i];
    var ok := reply.Arrives?;
    match f.at
    case Controlling => Some(DoControl(s, i, reply))
    case Revealing => Some(if !ok then Fail(s, i) else With(s, i, f.(at := Judging, did := f.did + [Revealed])))
    case Judging =>
      Some(if !ok || (f.kind.Settle? && !s.latch.armed) then Fail(s, i)
           else BeginPersist(s, i, JudgedVerdict(f.kind, evaluated)))
    case Writing(v) =>
      Some(if !ok || !MayFollow(Now(f.from), TerminalStage(v)) then Fail(s, i)
           else With(s.(session := Moved(f.from, TerminalStage(v), clock), run := f.run), i,
                     f.(at := Reporting(v), did := f.did + [Persisted(v)])))
    case Reporting(v) =>
      Some(if !ok then Fail(s, i)
           else With(s.(link := s.link.(shown := true)), i, f.(at := Finished(v), did := f.did + [Reported(v)])))
    case _ => None
  }

  /** Clicking Continue disconnects the gate listener and the timer, then asks the server. */
  function DoContinue(s: Runner): Runner {
    s.(wiring := Disconnect(s.wiring), link := s.link.(pending := s.link.pending + [s.run]))
  }

  /** What every admitted answer does, early or late: it clears the flags and the result, forgets the
      gate listener, and puts in place the session of the run after the one it names. */
  function Reset(s: Runner, run: RunId, at: int): Runner {
    s.(session := First(at), run := run, latch := Latch(false, false, false),
       wiring := s.wiring.(retained := true,
                           listener := Connection(false, s.wiring.listener.known || s.wiring.listener.stray)),
       start := if s.start.Started? || s.start.StartFailed? then Idle else s.start, link := s.link.(shown := false))
  }

  /** The server answers a repeated request with the same next run. */
  function DoAdvanced(s: Runner, k: nat, ok: bool, at: int): Runner
    requires k < |s.link.pending|
  {
    var s1 := s.(link := s.link.(pending := s.link.pending[..k] + s.link.pending[k + 1..]));
    if ok then Reset(s1, s.link.pending[k] + 1, at) else s1
  }

  /** The server starts a run once. */
  function DoStartReply(s: Runner, reply: Reply, clock: int): Runner
    requires s.start.Requested?
  {
    var run := s.start.run;
    if reply.Fails? || run in s.server.started then s.(start := StartFailed) else
    var s1 := s.(server := s.server.(started := s.server.started + {run}));
    if reply.Lost? || !Now(s.session).ReadyToArm? then s1.(start := StartFailed)
    else s1.(start := Building, session := Moved(s.session, Preparing, clock))
  }

  function DoTimer(s: Runner, stray: bool): Option<Runner> {
    if stray then
      if s.wiring.timer.stray then Some(FinalizeNoInvocation(s, Timeout)) else None
    else if s.wiring.timer.known then
      Some(FinalizeNoInvocation(s.(wiring := s.wiring.(timer := s.wiring.timer.(known := false))), Timeout))
    else None
  }

  function Do(s: Runner, a: Action): Option<Runner> {
    match a
    case MarkReady(clock) =>
      if Now(s.session).Received? then Some(s.(session := Moved(s.session, ReadyToArm, clock))) else None
    case Start => if Now(s.session).ReadyToArm? && s.start.Idle? then Some(s.(start := Requested(s.run))) else None
    case StartReply(reply, clock) => if s.start.Requested? then Some(DoStartReply(s, reply, clock)) else None
    case Build(e, clock) => if s.start.Building? then Some(DoBuild(s, e, clock)) else None
    case RegistryReady(clock) =>
      if !s.wiring.registered then None
      else if s.latch.terminal || s.wiring.readyHandled then Some(s)
      else Some(Arm(s.(wiring := s.wiring.(readyHandled := true)), clock))
    case RegistryError => if s.wiring.registered then Some(FinalizeNoInvocation(s, NotAvailable)) else None
    case Attempt(clock) =>
      if !s.gate.active then Some(s)
      else if s.gate.claim.NoClaim? then Some(Publish(s.(gate := s.gate.(claim := InFlight)), clock))
      else Some(Publish(s, clock))
    case SettleCall(clock) =>
      if s.gate.claim.InFlight? then Some(Publish(s.(gate := s.gate.(claim := Settled)), clock)) else None
    case TimerFires(stray) => DoTimer(s, stray)
    case Advance(i, reply, v, clock) => if i < |s.finalizers| then DoAdvance(s, i, reply, v, clock) else None
    case Continue => if s.link.shown && |s.link.pending| < s.link.cap then Some(DoContinue(s)) else None
    case Advanced(k, ok, at) => if k < |s.link.pending| then Some(DoAdvanced(s, k, ok, at)) else None
  }

  function Opened(at: int, cap: nat): Runner {
    Runner(First(at), 0, Latch(false, false, false),
           Wiring(Connection(false, false), Connection(false, false), false, false, false), Gate(false, NoClaim), Idle, [],
           Server({}, {}), Link(cap, [], false))
  }

  function Run(s: Runner, actions: seq<Action>): Option<Runner>
    decreases |actions|
  {
    if actions == [] then Some(s) else
    match Do(s, actions[0])
    case None => None
    case Some(next) => Run(next, actions[1..])
  }

  /** Some run gets there with at most this many advance requests under way at a time. */
  ghost predicate Reachable(cap: nat, s: Runner) {
    exists at, actions :: Run(Opened(at, cap), actions) == Some(s)
  }

  // ----- what every run keeps, however many requests are under way -----------------------------------

  /** The life of one finalizer: one control call, then one reveal, then one verdict that fits the
      control call, then its report. */
  function Life(kind: Kind, v: Verdict): seq<Deed> {
    [Control(kind), Controlled(kind), Reveal, Revealed, Persisted(v), Reported(v)]
  }

  predicate Fits(kind: Kind, v: Verdict) {
    match kind
    case Settle => !v.NoProvider?
    case Timeout => v.NotComplete?
    case NotAvailable => v.NoProvider?
  }

  predicate BeginsALife(kind: Kind, did: seq<Deed>) {
    did != [] && exists v | Fits(kind, v) :: did <= Life(kind, v)
  }

  /** What a finalizer has done by the time it gets to a point. */
  function DoneBy(kind: Kind, at: Point): seq<Deed> {
    match at
    case Controlling => [Control(kind)]
    case Revealing => [Control(kind), Controlled(kind), Reveal]
    case Reporting(v) => [Control(kind), Controlled(kind), Reveal, Revealed, Persisted(v)]
    case Finished(v) => Life(kind, v)
    case _ => [Control(kind), Controlled(kind), Reveal, Revealed]
  }

  predicate VerdictFits(kind: Kind, at: Point) {
    match at
    case Writing(v) => v == JudgedVerdict(kind, v)
    case Reporting(v) => Fits(kind, v)
    case Finished(v) => Fits(kind, v)
    case _ => true
  }

  predicate FinalizerOk(f: Finalizer) {
    && ValidSession(f.from)
    && (f.at.Failed? ==> BeginsALife(f.kind, f.did) && (!f.granted ==> f.did == [Control(f.kind)]))
    && (!f.at.Failed? ==>
          f.did == DoneBy(f.kind, f.at) && VerdictFits(f.kind, f.at) && (f.granted <==> !f.at.Controlling?)
          && (f.kind.Settle? ==> Now(f.from).Evaluating?))
  }

  /** At most one finalizer of a run was ever granted its control call, and then the run has ended. */
  predicate GrantedOnce(finalizers: seq<Finalizer>, ended: set<RunId>) {
    && (forall i | 0 <= i < |finalizers| && finalizers[i].granted :: finalizers[i].run in ended)
    && (forall i, j | 0 <= i < j < |finalizers| && finalizers[i].granted && finalizers[j].granted ::
          finalizers[i].run != finalizers[j].run)
  }

  predicate AllOk(finalizers: seq<Finalizer>) {
    forall i | 0 <= i < |finalizers| :: FinalizerOk(finalizers[i])
  }

  predicate Inv(s: Runner) {
    ValidSession(s.session) && AllOk(s.finalizers) && GrantedOnce(s.finalizers, s.server.ended)
  }

  lemma MovedIsValid(s: Session, to: Stage, clock: int)
    requires ValidSession(s) && MayFollow(Now(s), to)
    ensures ValidSession(Moved(s, to, clock)) && Now(Moved(s, to, clock)) == to
  {
  }

  lemma ClaimKeepsInv(s: Runner, kind: Kind)
    requires Inv(s) && (kind.Settle? ==> Now(s.session).Evaluating?)
    ensures Inv(Claimed(s, kind))
  {
    var v := JudgedVerdict(kind, Passed);
    assert FinalizerOk(Finalizer(s.run, kind, s.session, Controlling, [Control(kind)], false));
  }

  lemma PublishKeepsInv(s: Runner, clock: int)
    requires Inv(s)
    ensures Inv(Publish(s, clock))
  {
    if Now(s.session).Armed? {
      MovedIsValid(s.session, Observing, clock);
    }
    if Now(s.session).Observing? {
      MovedIsValid(s.session, Evaluating, clock);
      ClaimKeepsInv(s.(session := Moved(s.session, Evaluating, clock)), Settle);
    }
  }

  lemma ArmKeepsInv(s: Runner, clock: int)
    requires Inv(s)
    ensures Inv(Arm(s, clock))
  {
    if Now(s.session).Preparing? {
      MovedIsValid(s.session, ProviderReady, clock);
      MovedIsValid(Moved(s.session, ProviderReady, clock), Armed, clock);
    }
  }

  lemma BuildKeepsInv(s: Runner, e: Environment, clock: int)
    requires Inv(s)
    ensures Inv(DoBuild(s, e, clock))
  {
    var s1 := s.(start := Started, gate := Gate(true, NoClaim));
    var heard := s.wiring.(listener := Connection(true, s.wiring.listener.known || s.wiring.listener.stray));
    ClaimKeepsInv(s1, NotAvailable);
    ArmKeepsInv(s1.(wiring := heard), clock);
  }

  /** One finalizer moves on to a sound point without a new grant. */
  lemma MovingOnKeepsInv(s: Runner, s': Runner, i: nat, f: Finalizer)
    requires Inv(s) && i < |s.finalizers| && FinalizerOk(f) && f.run == s.finalizers[i].run
    requires f.granted == s.finalizers[i].granted
    requires s'.finalizers == s.finalizers[i := f] && s'.server == s.server && ValidSession(s'.session)
    ensures Inv(s')
  {
  }

  lemma PrefixBeginsALife(kind: Kind, did: seq<Deed>, at: Point)
    requires did == DoneBy(kind, at) && VerdictFits(kind, at)
    ensures BeginsALife(kind, did)
  {
    var v := if at.Reporting? || at.Finished? then at.verdict else JudgedVerdict(kind, Passed);
    assert Fits(kind, v) && DoneBy(kind, at) <= Life(kind, v);
  }

  lemma FailKeepsInv(s: Runner, i: nat)
    requires Inv(s) && i < |s.finalizers| && !s.finalizers[i].at.Failed?
    ensures Inv(Fail(s, i)) && Inv(With(s, i, s.finalizers[i].(at := Failed)))
  {
    var f := s.finalizers[i];
    PrefixBeginsALife(f.kind, f.did, f.at);
    MovingOnKeepsInv(s, Fail(s, i), i, f.(at := Failed));
    MovingOnKeepsInv(s, With(s, i, f.(at := Failed)), i, f.(at := Failed));
  }

  lemma GrantKeepsInv(s: Runner, i: nat, f: Finalizer, s': Runner)
    requires Inv(s) && i < |s.finalizers| && FinalizerOk(f) && f.granted && f.run == s.finalizers[i].run
    requires f.run !in s.server.ended
    requires s'.finalizers == s.finalizers[i := f] && s'.server.ended == s.server.ended + {f.run}
    requires s'.session == s.session
    ensures Inv(s')
  {
    forall j | 0 <= j < |s.finalizers| && j != i && s.finalizers[j].granted ensures s.finalizers[j].run != f.run {
      assert s.finalizers[j].run in s.server.ended;
    }
  }

  lemma ControlKeepsInv(s: Runner, i: nat, reply: Reply)
    requires Inv(s) && i < |s.finalizers| && s.finalizers[i].at.Controlling?
    ensures Inv(DoControl(s, i, reply))
  {
    var f := s.finalizers[i];
    assert FinalizerOk(f);
    if reply.Fails? || !Grants(s.server, f.run) {
      FailKeepsInv(s, i);
    } else if reply.Lost? {
      PrefixBeginsALife(f.kind, f.did, Controlling);
      GrantKeepsInv(s, i, f.(at := Failed, granted := true), DoControl(s, i, reply));
    } else {
      GrantKeepsInv(s, i, f.(at := Revealing, did := f.did + [Controlled(f.kind), Reveal], granted := true),
                    DoControl(s, i, reply));
    }
  }

  lemma PersistKeepsInv(s: Runner, i: nat, v: Verdict)
    requires Inv(s) && i < |s.finalizers| && s.finalizers[i].at.Judging? && v == JudgedVerdict(s.finalizers[i].kind, v)
    ensures Inv(BeginPersist(s, i, v))
  {
    var f := s.finalizers[i];
    assert FinalizerOk(f);
    if s.latch.terminal {
      FailKeepsInv(s, i);
    } else {
      MovingOnKeepsInv(s, BeginPersist(s, i, v), i, f.(at := Writing(v)));
    }
  }

  lemma WritingKeepsInv(s: Runner, i: nat, v: Verdict, clock: int)
    requires Inv(s) && i < |s.finalizers| && s.finalizers[i].at == Writing(v)
    requires MayFollow(Now(s.finalizers[i].from), TerminalStage(v))
    ensures Inv(DoAdvance(s, i, Arrives, v, clock).value)
  {
    var f := s.finalizers[i];
    assert FinalizerOk(f);
    MovedIsValid(f.from, TerminalStage(v), clock);
    MovingOnKeepsInv(s, DoAdvance(s, i, Arrives, v, clock).value, i, f.(at := Reporting(v), did := f.did + [Persisted(v)]));
  }

  lemma AdvanceKeepsInv(s: Runner, i: nat, reply: Reply, evaluated: Verdict, clock: int)
    requires Inv(s) && i < |s.finalizers| && DoAdvance(s, i, reply, evaluated, clock).Some?
    ensures Inv(DoAdvance(s, i, reply, evaluated, clock).value)
  {
    var f := s.finalizers[i];
    assert FinalizerOk(f);
    var s' := DoAdvance(s, i, reply, evaluated, clock).value;
    match f.at
    case Controlling => ControlKeepsInv(s, i, reply);
    case Revealing =>
      if reply.Arrives? {
        MovingOnKeepsInv(s, s', i, f.(at := Judging, did := f.did + [Revealed]));
      } else {
        FailKeepsInv(s, i);
      }
    case Judging =>
      FailKeepsInv(s, i);
      PersistKeepsInv(s, i, JudgedVerdict(f.kind, evaluated));
    case Writing(v) =>
      FailKeepsInv(s, i);
      if MayFollow(Now(f.from), TerminalStage(v)) {
        WritingKeepsInv(s, i, v, clock);
      }
    case Reporting(v) =>
      if reply.Arrives? {
        MovingOnKeepsInv(s, s', i, f.(at := Finished(v), did := f.did + [Reported(v)]));
      } else {
        FailKeepsInv(s, i);
      }
    case _ =>
  }

  lemma CallbackKeepsInv(s: Runner, a: Action, s': Runner)
    requires Inv(s) && Do(s, a) == Some(s')
    requires a.Attempt? || a.SettleCall? || a.TimerFires? || a.RegistryError? || a.RegistryReady?
    ensures Inv(s')
  {
    if a.Attempt? {
      PublishKeepsInv(s.(gate := s.gate.(claim := InFlight)), a.clock);
      PublishKeepsInv(s, a.clock);
    } else if a.SettleCall? {
      PublishKeepsInv(s.(gate := s.gate.(claim := Settled)), a.clock);
    } else if a.RegistryReady? {
      ArmKeepsInv(s.(wiring := s.wiring.(readyHandled := true)), a.clock);
    } else if a.TimerFires? {
      ClaimKeepsInv(s, Timeout);
      ClaimKeepsInv(s.(wiring := s.wiring.(timer := s.wiring.timer.(known := false))), Timeout);
    } else {
      ClaimKeepsInv(s, NotAvailable);
    }
  }

  lemma StartKeepsInv(s: Runner, a: Action, s': Runner)
    requires Inv(s) && Do(s, a) == Some(s') && (a.MarkReady? || a.Start? || a.StartReply?)
    ensures Inv(s')
  {
    if a.MarkReady? {
      MovedIsValid(s.session, ReadyToArm, a.clock);
    } else if a.StartReply? && Now(s.session).ReadyToArm? {
      MovedIsValid(s.session, Preparing, a.clock);
    }
  }

  lemma StepKeepsInv(s: Runner, a: Action, s': Runner)
    requires Inv(s) && Do(s, a) == Some(s')
    ensures Inv(s')
  {
    if a.MarkReady? || a.Start? || a.StartReply? {
      StartKeepsInv(s, a, s');
    } else if a.Build? {
      BuildKeepsInv(s, a.environment, a.clock);
    } else if a.Advance? {
      AdvanceKeepsInv(s, a.i, a.reply, a.verdict, a.clock);
    } else if !a.Continue? && !a.Advanced? {
      CallbackKeepsInv(s, a, s');
    }
  }

  lemma {:induction false} RunKeepsInv(s: Runner, actions: seq<Action>, s': Runner)
    requires Inv(s) && Run(s, actions) == Some(s')
    ensures Inv(s')
    decreases |actions|
  {
    if actions != [] {
      StepKeepsInv(s, actions[0], Do(s, actions[0]).value);
      RunKeepsInv(Do(s, actions[0]).value, actions[1..], s');
    }
  }

  lemma ReachableInv(cap: nat, s: Runner)
    requires Reachable(cap, s)
    ensures Inv(s)
  {
    var at, actions :| Run(Opened(at, cap), actions) == Some(s);
    RunKeepsInv(Opened(at, cap), actions, s);
  }

  // ----- the guarantees of every run --------------------------------------------------------------

  /** It did no more than send its control call: nothing was granted to it that it knows of, nothing
      revealed, no verdict. */
  predicate OnlySent(f: Finalizer) {
    f.did == [Control(f.kind)]
  }

  /** However callbacks, awaits and advance requests interleave, and however many finalizers are
      started for one run: each lives the beginning of one life, and of those of one run at most one
      gets beyond sending its control call. So a run has at most one control call granted, one
      reveal, after that call returned, and one verdict, which fits the call. */
  lemma OneRevealOneVerdict(cap: nat, s: Runner)
    requires Reachable(cap, s)
    ensures forall i | 0 <= i < |s.finalizers| :: BeginsALife(s.finalizers[i].kind, s.finalizers[i].did)
    ensures forall i, j | 0 <= i < j < |s.finalizers| && s.finalizers[i].run == s.finalizers[j].run ::
              OnlySent(s.finalizers[i]) || OnlySent(s.finalizers[j])
  {
    ReachableInv(cap, s);
    forall i | 0 <= i < |s.finalizers|
      ensures BeginsALife(s.finalizers[i].kind, s.finalizers[i].did)
      ensures !s.finalizers[i].granted ==> OnlySent(s.finalizers[i])
    {
      assert FinalizerOk(s.finalizers[i]);
      if !s.finalizers[i].at.Failed? {
        PrefixBeginsALife(s.finalizers[i].kind, s.finalizers[i].did, s.finalizers[i].at);
      }
    }
  }

  /** What the beginning of one life means, deed by deed. */
  lemma LifeOrder(kind: Kind, did: seq<Deed>)
    requires BeginsALife(kind, did)
    ensures did[0] == Control(kind)
    ensures forall i | 0 <= i < |did| :: did[i].Control? ==> i == 0
    ensures forall i | 0 <= i < |did| :: did[i].Reveal? ==> i == 2 && did[1] == Controlled(kind)
    ensures forall i | 0 <= i < |did| :: did[i].Persisted? ==> i == 4 && did[3] == Revealed && Fits(kind, did[i].verdict)
  {
  }

  /** The stored session is always one unbroken chain of allowed stages with strictly advancing
      times, whatever the clock does, and never longer than eight stages. */
  lemma SessionStaysValid(cap: nat, s: Runner)
    requires Reachable(cap, s)
    ensures ValidSession(s.session) && Length(s.session) <= 8
  {
    ReachableInv(cap, s);
    ChainIsShort(s.session);
  }

  function Depth(g: Stage): nat {
    match g
    case Received => 0
    case ReadyToArm => 1
    case Preparing => 2
    case ProviderReady => 3
    case Armed => 4
    case Observing => 5
    case Evaluating => 6
    case _ => 7
  }

  lemma {:induction false} ChainIsShort(s: Session)
    requires ValidSession(s)
    ensures Length(s) <= Depth(Now(s)) + 1
  {
    if s.Then? {
      ChainIsShort(s.before);
    }
  }

  // ----- a finalizer that failed ----------------------------------------------------------------------

  /** A finalizer that has failed stays as it is, and none is ever forgotten. */
  lemma FailedStays(s: Runner, a: Action, s': Runner, i: nat)
    requires Do(s, a) == Some(s') && i < |s.finalizers|
    ensures i < |s'.finalizers| && s'.finalizers[i].run == s.finalizers[i].run
    ensures s.finalizers[i].at.Failed? ==> s'.finalizers[i] == s.finalizers[i]
    ensures s.finalizers[i].granted ==> s'.finalizers[i].granted
  {
    if a.Advance? {
      AdvanceTouchesOne(s, a, s');
    } else {
      OthersOnlyAppend(s, a, s');
    }
  }

  lemma AdvanceTouchesOne(s: Runner, a: Action, s': Runner)
    requires a.Advance? && Do(s, a) == Some(s')
    ensures a.i < |s.finalizers| == |s'.finalizers| && !s.finalizers[a.i].at.Failed?
    ensures forall j | 0 <= j < |s.finalizers| && j != a.i :: s'.finalizers[j] == s.finalizers[j]
    ensures s'.finalizers[a.i].run == s.finalizers[a.i].run && s'.finalizers[a.i].kind == s.finalizers[a.i].kind
    ensures s.finalizers[a.i].granted ==> s'.finalizers[a.i].granted
  {
  }

  lemma OthersOnlyAppend(s: Runner, a: Action, s': Runner)
    requires !a.Advance? && Do(s, a) == Some(s')
    ensures s.finalizers <= s'.finalizers && |s'.finalizers| <= |s.finalizers| + 1
    ensures |s'.finalizers| > |s.finalizers| ==> !s.latch.claimed && s'.finalizers[|s.finalizers|].run == s.run
  {
  }

  lemma {:induction false} FailedStaysInRun(s: Runner, actions: seq<Action>, s': Runner, i: nat)
    requires Run(s, actions) == Some(s') && i < |s.finalizers|
    ensures i < |s'.finalizers| && s'.finalizers[i].run == s.finalizers[i].run
    ensures s.finalizers[i].at.Failed? ==> s'.finalizers[i] == s.finalizers[i]
    ensures s.finalizers[i].granted ==> s'.finalizers[i].granted
    decreases |actions|
  {
    if actions != [] {
      FailedStays(s, actions[0], Do(s, actions[0]).value, i);
      FailedStaysInRun(Do(s, actions[0]).value, actions[1..], s', i);
    }
  }

  /** A finalizer that failed, at whatever await, does nothing more in any continuation; and if the
      server had granted its control call, no other finalizer of its run ever gets beyond sending
      one: no later reveal, no later verdict. */
  lemma FailedFinalizerStaysSilent(cap: nat, s: Runner, actions: seq<Action>, s': Runner, i: nat)
    requires Reachable(cap, s) && Run(s, actions) == Some(s') && i < |s.finalizers| && s.finalizers[i].at.Failed?
    ensures i < |s'.finalizers| && s'.finalizers[i] == s.finalizers[i]
    ensures s.finalizers[i].granted ==>
              forall j | 0 <= j < |s'.finalizers| && j != i && s'.finalizers[j].run == s.finalizers[i].run ::
                OnlySent(s'.finalizers[j])
  {
    ReachableInv(cap, s);
    RunKeepsInv(s, actions, s');
    FailedStaysInRun(s, actions, s', i);
    if s.finalizers[i].granted {
      forall j | 0 <= j < |s'.finalizers| && j != i && s'.finalizers[j].run == s.finalizers[i].run
        ensures OnlySent(s'.finalizers[j])
      {
        assert s'.finalizers[i].granted && FinalizerOk(s'.finalizers[j]);
        assert !s'.finalizers[j].granted;
      }
    }
  }

  predicate HasVerdict(f: Finalizer) {
    exists k :: 0 <= k < |f.did| && f.did[k].Persisted?
  }

  /** After a failed reveal no verdict is ever persisted for that run, by this finalizer or any
      other. */
  lemma FailedRevealHasNoVerdict(cap: nat, s: Runner, i: nat, reply: Reply, v: Verdict, clock: int,
                                 actions: seq<Action>, s1: Runner, s': Runner)
    requires Reachable(cap, s) && i < |s.finalizers| && s.finalizers[i].at.Revealing? && !reply.Arrives?
    requires Do(s, Advance(i, reply, v, clock)) == Some(s1) && Run(s1, actions) == Some(s')
    ensures forall j | 0 <= j < |s'.finalizers| && s'.finalizers[j].run == s.finalizers[i].run :: !HasVerdict(s'.finalizers[j])
  {
    ReachableInv(cap, s);
    assert FinalizerOk(s.finalizers[i]);
    Reaches(cap, s, Advance(i, reply, v, clock), s1);
    FailedFinalizerStaysSilent(cap, s1, actions, s', i);
    assert s'.finalizers[i].did == [Control(s.finalizers[i].kind), Controlled(s.finalizers[i].kind), Reveal];
  }

  // ----- the verdict is the evaluation ------------------------------------------------------------------

  /** Whatever this finalizer persists or reports, before and after, says this verdict. */
  predicate Says(f: Finalizer, v: Verdict) {
    && (forall k | 0 <= k < |f.did| && (f.did[k].Persisted? || f.did[k].Reported?) :: f.did[k].verdict == v)
    && (f.at.Writing? || f.at.Reporting? || f.at.Finished? ==> f.at.verdict == v)
    && (f.at.Writing? || f.at.Reporting? || f.at.Finished? || f.at.Failed?)
  }

  lemma SaysStays(s: Runner, a: Action, s': Runner, i: nat, v: Verdict)
    requires Do(s, a) == Some(s') && i < |s.finalizers| && Says(s.finalizers[i], v)
    ensures i < |s'.finalizers| && Says(s'.finalizers[i], v)
  {
    if a.Advance? {
      AdvanceTouchesOne(s, a, s');
    } else {
      OthersOnlyAppend(s, a, s');
    }
  }

  lemma {:induction false} SaysStaysInRun(s: Runner, actions: seq<Action>, s': Runner, i: nat, v: Verdict)
    requires Run(s, actions) == Some(s') && i < |s.finalizers| && Says(s.finalizers[i], v)
    ensures i < |s'.finalizers| && Says(s'.finalizers[i], v)
    decreases |actions|
  {
    if actions != [] {
      SaysStays(s, actions[0], Do(s, actions[0]).value, i, v);
      SaysStaysInRun(Do(s, actions[0]).value, actions[1..], s', i, v);
    }
  }

  function VerdictOf(kind: Kind, evaluated: Verdict): Verdict {
    if kind == Settle then evaluated else if kind == Timeout then NotComplete else NoProvider
  }

  lemma JudgedSays(s: Runner, i: nat, v: Verdict, clock: int, s1: Runner)
    requires i < |s.finalizers| && FinalizerOk(s.finalizers[i]) && s.finalizers[i].at.Judging?
    requires Do(s, Advance(i, Arrives, v, clock)) == Some(s1)
    ensures i < |s1.finalizers| && Says(s1.finalizers[i], VerdictOf(s.finalizers[i].kind, v))
  {
  }

  /** Once a finalizer's evaluation has returned, every verdict it ever persists or reports is that
      evaluation; after a timeout it is "incomplete", and without a provider "unavailable". */
  lemma EvaluationIsKept(cap: nat, s: Runner, i: nat, v: Verdict, clock: int, s1: Runner, actions: seq<Action>, s': Runner)
    requires Reachable(cap, s) && i < |s.finalizers| && s.finalizers[i].at.Judging?
    requires Do(s, Advance(i, Arrives, v, clock)) == Some(s1) && Run(s1, actions) == Some(s')
    ensures i < |s'.finalizers|
    ensures forall w: Verdict | Persisted(w) in s'.finalizers[i].did || Reported(w) in s'.finalizers[i].did ::
              w == VerdictOf(s.finalizers[i].kind, v)
  {
    ReachableInv(cap, s);
    assert FinalizerOk(s.finalizers[i]);
    JudgedSays(s, i, v, clock, s1);
    SaysStaysInRun(s1, actions, s', i, VerdictOf(s.finalizers[i].kind, v));
  }

  /** The stage that stands for a verdict. */
  predicate StageSays(g: Stage, v: Verdict) {
    && (g == Pass <==> v == Passed) && (g == Issue <==> v == HasIssue)
    && (g == Incomplete <==> v == NotComplete) && (g == Unavailable <==> v == NoProvider)
  }

  /** The step that persists a verdict stores, for the finalizer's own run, the session it began with
      and the stage that stands for the verdict. */
  lemma PersistedStage(s: Runner, a: Action, s': Runner, i: nat, v: Verdict)
    requires Do(s, a) == Some(s') && i < |s.finalizers|
    requires i < |s'.finalizers| && Persisted(v) !in s.finalizers[i].did && Persisted(v) in s'.finalizers[i].did
    ensures s'.run == s.finalizers[i].run && s'.session.Then? && s'.session.before == s.finalizers[i].from
    ensures StageSays(s'.session.stage, v)
  {
    if !a.Advance? {
      OthersOnlyAppend(s, a, s');
    } else {
      AdvanceTouchesOne(s, a, s');
      AwaitPersists(s, a, s', v);
    }
  }

  lemma AwaitPersists(s: Runner, a: Action, s': Runner, v: Verdict)
    requires a.Advance? && Do(s, a) == Some(s') && a.i < |s.finalizers| == |s'.finalizers|
    requires Persisted(v) !in s.finalizers[a.i].did && Persisted(v) in s'.finalizers[a.i].did
    ensures s'.run == s.finalizers[a.i].run && s'.session.Then? && s'.session.before == s.finalizers[a.i].from
    ensures StageSays(s'.session.stage, v)
  {
  }

  /** No action is an await of this finalizer. */
  predicate Rests(actions: seq<Action>, i: nat) {
    forall j | 0 <= j < |actions| :: actions[j].Advance? ==> actions[j].i != i
  }

  lemma {:induction false} RestingStays(s: Runner, actions: seq<Action>, s': Runner, i: nat)
    requires Run(s, actions) == Some(s') && i < |s.finalizers| && Rests(actions, i)
    ensures i < |s'.finalizers| && s'.finalizers[i] == s.finalizers[i]
    decreases |actions|
  {
    if actions != [] {
      var a, next := actions[0], Do(s, actions[0]).value;
      if a.Advance? {
        AdvanceTouchesOne(s, a, next);
      } else {
        OthersOnlyAppend(s, a, next);
      }
      RestingStays(next, actions[1..], s', i);
    }
  }

  lemma JudgingArrives(s: Runner, i: nat, v: Verdict, clock: int)
    requires i < |s.finalizers| && s.finalizers[i].kind.Settle? && s.finalizers[i].at.Judging?
    requires s.latch.armed && !s.latch.terminal
    ensures var r := Do(s, Advance(i, Arrives, v, clock));
            r.Some? && i < |r.value.finalizers| && r.value.finalizers[i] == s.finalizers[i].(at := Writing(v))
  {
  }

  lemma WritingArrives(s: Runner, i: nat, v: Verdict, clock: int)
    requires i < |s.finalizers| && s.finalizers[i].at == Writing(v) && Now(s.finalizers[i].from).Evaluating?
    requires v != NoProvider
    ensures var r := Do(s, Advance(i, Arrives, v, clock));
            && r.Some? && i < |r.value.finalizers|
            && r.value.finalizers[i] == s.finalizers[i].(at := Reporting(v), did := s.finalizers[i].did + [Persisted(v)])
            && r.value.session.Then? && r.value.session.before == s.finalizers[i].from
            && StageSays(r.value.session.stage, v)
  {
  }

  lemma ReportingArrives(s: Runner, i: nat, v: Verdict, clock: int)
    requires i < |s.finalizers| && s.finalizers[i].at == Reporting(v)
    ensures var r := Do(s, Advance(i, Arrives, v, clock));
            && r.Some? && i < |r.value.finalizers| && r.value.link.shown
            && r.value.finalizers[i] == s.finalizers[i].(at := Finished(v), did := s.finalizers[i].did + [Reported(v)])
  {
  }

  /** Some action of a run is this finalizer's await, and what is done in between is not. */
  predicate Arriving(s: Runner, i: nat, v: Verdict, clock: int, others: seq<Action>, s': Runner) {
    Rests(others, i)
    && var r := Do(s, Advance(i, Arrives, v, clock)); r.Some? ==> Run(r.value, others) == Some(s')
  }

  /** What a finalizer's awaits come to when they arrive: a settled invocation, evaluated while the arm
      time is set and nothing else has been persisted, is persisted with its evaluation and then
      reported, whatever happens in between. */
  lemma EvaluationIsPersisted(cap: nat, s: Runner, i: nat, v: Verdict, c1: int, then1: seq<Action>, s1: Runner, c2: int,
                              then2: seq<Action>, s2: Runner, c3: int, then3: seq<Action>, s3: Runner)
    requires Reachable(cap, s) && i < |s.finalizers| && s.finalizers[i].kind.Settle? && s.finalizers[i].at.Judging?
    requires s.latch.armed && !s.latch.terminal && v != NoProvider
    requires Arriving(s, i, v, c1, then1, s1) && Arriving(s1, i, v, c2, then2, s2) && Arriving(s2, i, v, c3, then3, s3)
    ensures i < |s3.finalizers| && s3.finalizers[i].did == s.finalizers[i].did + [Persisted(v), Reported(v)]
    ensures Do(s1, Advance(i, Arrives, v, c2)).Some?
    ensures var persisted := Do(s1, Advance(i, Arrives, v, c2)).value;
            persisted.session.Then? && persisted.session.before == s.finalizers[i].from
            && StageSays(persisted.session.stage, v)
    ensures Do(s2, Advance(i, Arrives, v, c3)).Some? && Do(s2, Advance(i, Arrives, v, c3)).value.link.shown
  {
    ReachableInv(cap, s);
    assert FinalizerOk(s.finalizers[i]);
    JudgingArrives(s, i, v, c1);
    RestingStays(Do(s, Advance(i, Arrives, v, c1)).value, then1, s1, i);
    WritingArrives(s1, i, v, c2);
    RestingStays(Do(s1, Advance(i, Arrives, v, c2)).value, then2, s2, i);
    ReportingArrives(s2, i, v, c3);
    RestingStays(Do(s2, Advance(i, Arrives, v, c3)).value, then3, s3, i);
    assert s.finalizers[i].did + [Persisted(v)] + [Reported(v)] == s.finalizers[i].did + [Persisted(v), Reported(v)];
  }

  lemma {:induction false} RunSnoc(s: Runner, actions: seq<Action>, mid: Runner, a: Action, end: Runner)
    requires Run(s, actions) == Some(mid) && Do(mid, a) == Some(end)
    ensures Run(s, actions + [a]) == Some(end)
    decreases |actions|
  {
    if actions == [] {
      assert actions + [a] == [a];
      assert Run(end, []) == Some(end);
    } else {
      assert (actions + [a])[1..] == actions[1..] + [a];
      RunSnoc(Do(s, actions[0]).value, actions[1..], mid, a, end);
    }
  }

  lemma Reaches(cap: nat, s: Runner, a: Action, s': Runner)
    requires Reachable(cap, s) && Do(s, a) == Some(s')
    ensures Reachable(cap, s')
  {
    var at, actions :| Run(Opened(at, cap), actions) == Some(s);
    RunSnoc(Opened(at, cap), actions, s, a, s');
  }

  // ----- what starts a finalizer -----------------------------------------------------------------------

  /** The step starts a finalizer of this kind, or leaves them as they are because the run is already
      being finalized. */
  predicate StartsUnlessClaimed(s: Runner, s': Runner, kind: Kind) {
    if s.latch.terminal || s.latch.claimed then s'.finalizers == s.finalizers
    else
      && s'.latch.claimed && |s'.finalizers| == |s.finalizers| + 1 && s.finalizers <= s'.finalizers
      && var f := s'.finalizers[|s.finalizers|];
         f.run == s.run && f.kind == kind && f.at == Controlling && f.did == [Control(kind)] && f.from == s'.session
  }

  /** Each cause starts its own kind: the timer a timeout, a registry error or an unsupported browser
      "unavailable"; and nothing else but the gate starts any. */
  lemma CauseStartsItsKind(s: Runner, a: Action, s': Runner)
    requires Do(s, a) == Some(s')
    ensures a.TimerFires? ==> StartsUnlessClaimed(s, s', Timeout)
    ensures a.RegistryError? ==> StartsUnlessClaimed(s, s', NotAvailable)
    ensures a.Build? && a.environment.Unsupported? && s'.start.Started? ==> StartsUnlessClaimed(s, s', NotAvailable)
    ensures !a.TimerFires? && !a.RegistryError? && !a.Build? && !a.Attempt? && !a.SettleCall? ==>
              |s'.finalizers| == |s.finalizers|
    ensures a.Build? && !(a.environment.Unsupported? && s'.start.Started?) ==> |s'.finalizers| == |s.finalizers|
  {
  }

  /** An invocation that settles while it is being observed starts the settlement, and one that is
      admitted while armed is observed first. */
  lemma GateStartsSettlement(s: Runner, a: Action, s': Runner)
    requires Do(s, a) == Some(s') && (a.Attempt? || a.SettleCall?)
    ensures a.SettleCall? && Now(s.session).Observing? && (s.wiring.listener.known || s.wiring.listener.stray) ==>
              StartsUnlessClaimed(s, s', Settle)
              && (!s.latch.terminal && !s.latch.claimed ==> Now(s'.session).Evaluating? && s'.session.before == s.session)
    ensures a.Attempt? && s.gate == Gate(true, NoClaim) && Now(s.session).Armed? && !s.latch.terminal
            && (s.wiring.listener.known || s.wiring.listener.stray) ==>
              Now(s'.session).Observing? && s'.session.before == s.session && s'.gate.claim.InFlight?
    ensures |s'.finalizers| > |s.finalizers| ==>
              s'.finalizers[|s.finalizers|].kind.Settle? && s'.gate.claim.Settled? && Now(s.session).Observing?
  {
  }

  // ----- what callbacks may still do ---------------------------------------------------------------------

  /** A stamp is the earliest time that is later than the last stamp and not before the clock. */
  lemma StampIsEarliest(s: Session, to: Stage, clock: int, later: int)
    ensures Moved(s, to, clock).at > s.at && Moved(s, to, clock).at >= clock
    ensures later > s.at && later >= clock ==> later >= Moved(s, to, clock).at
  {
  }

  /** No timer or gate callback that the page knows is left, so only one it lost track of can fire. */
  predicate Disconnected(s: Runner) {
    !s.wiring.timer.known && !s.wiring.listener.known && Do(s, TimerFires(false)).None?
  }

  /** Continue, a persisted result and a failed await leave the page without its timer and listener; and
      a finalizer that comes to persist when the step is terminal already does nothing at all. */
  lemma PageLetsGo(s: Runner, a: Action, s': Runner)
    requires Do(s, a) == Some(s')
    ensures a.Continue? ==> Disconnected(s') && s'.link.pending == s.link.pending + [s.run]
    ensures a.Advance? && !s.latch.terminal && s'.latch.terminal ==> Disconnected(s') && !s'.gate.active
    ensures a.Advance? && s'.finalizers[a.i].at.Failed? ==> Disconnected(s') || (s.finalizers[a.i].at.Judging? && s.latch.terminal)
    ensures a.Advance? && s.finalizers[a.i].at.Judging? && s.latch.terminal ==>
              s'.finalizers[a.i].at.Failed? && s'.finalizers[a.i].did == s.finalizers[a.i].did && s'.latch == s.latch
  {
  }

  lemma AdvanceWiring(s: Runner, a: Action, s': Runner)
    requires a.Advance? && Do(s, a) == Some(s')
    ensures s'.wiring == s.wiring || s'.wiring == Disconnect(s.wiring)
  {
  }

  /** A timer that is set over one that was not cleared cuts nothing off: both can still fire. */
  lemma LostTimerStays(s: Runner, a: Action, s': Runner)
    requires Do(s, a) == Some(s')
    ensures s.wiring.timer.stray ==> s'.wiring.timer.stray
  {
    if a.Advance? {
      AdvanceWiring(s, a, s');
    }
  }

  lemma TimerIsSetOver(s: Runner, a: Action, s': Runner)
    requires Do(s, a) == Some(s')
    ensures s.wiring.timer.known && !a.Continue? && !a.Advance? && !a.TimerFires? ==>
              s'.wiring.timer.known && (Now(s'.session).Armed? && !Now(s.session).Armed? ==> s'.wiring.timer.stray)
  {
  }

  /** Nor does subscribing again, or forgetting the listener. */
  lemma LostListenerStays(s: Runner, a: Action, s': Runner)
    requires Do(s, a) == Some(s')
    ensures s.wiring.listener.stray ==> s'.wiring.listener.stray
  {
    if a.Advance? {
      AdvanceWiring(s, a, s');
    }
  }

  lemma ListenerIsForgotten(s: Runner, a: Action, s': Runner)
    requires Do(s, a) == Some(s')
    ensures s.wiring.listener.known && a.Advanced? && a.ok ==> s'.wiring.listener.stray
    ensures s.wiring.listener.known && a.Build? && s'.start.Started? && !a.environment.Unsupported? ==> s'.wiring.listener.stray
  {
  }

  /** The gate keeps its first claim until the next step is built, and a step on the retained catalog is
      built only over a gate that is inactive with no claim in flight. */
  lemma GateKeepsItsClaim(s: Runner, a: Action, s': Runner)
    requires Do(s, a) == Some(s')
    ensures s'.gate.claim != s.gate.claim ==>
              || (a.Attempt? && s.gate == Gate(true, NoClaim) && s'.gate.claim == InFlight)
              || (a.SettleCall? && s.gate.claim == InFlight && s'.gate.claim == Settled)
              || (a.Build? && s'.start.Started? && s'.gate == Gate(true, NoClaim))
    ensures a.Attempt? && s.gate == Gate(true, NoClaim) ==> s'.gate.claim == InFlight
    ensures a.SettleCall? ==> s'.gate.claim == Settled
    ensures a.Build? && s.wiring.retained && (s.gate.active || s.gate.claim == InFlight) ==>
              s' == s.(start := StartFailed)
  {
  }

  /** A step is prepared only on the answer of a start that the server carried out, and for a run it
      had not started before. */
  lemma StartedOnce(s: Runner, a: Action, s': Runner)
    requires Do(s, a) == Some(s')
    ensures Now(s'.session).Preparing? && !Now(s.session).Preparing? ==>
              a.StartReply? && a.reply == Arrives && s.start.Requested? && s.start.run !in s.server.started
              && s'.server.started == s.server.started + {s.start.run} && Now(s.session).ReadyToArm? && s'.start.Building?
    ensures a.StartReply? && s.start.run !in s.server.started && a.reply != Fails ==>
              s'.server.started == s.server.started + {s.start.run}
    ensures a.StartReply? && a.reply == Arrives && s.start.run !in s.server.started && Now(s.session).ReadyToArm? ==>
              Now(s'.session).Preparing? && s'.start.Building?
    ensures a.StartReply? && (a.reply != Arrives || s.start.run in s.server.started) ==>
              s'.start.StartFailed? && s'.session == s.session
  {
  }

  /** The registry's readiness arms a step that is preparing, once. */
  lemma ReadyArmsOnce(s: Runner, clock: int, s': Runner)
    requires Do(s, RegistryReady(clock)) == Some(s')
    ensures s.wiring.readyHandled || s.latch.terminal ==> s' == s
    ensures !s.wiring.readyHandled && !s.latch.terminal ==> s'.wiring.readyHandled
    ensures !s.wiring.readyHandled && !s.latch.terminal && Now(s.session).Preparing? ==>
              Now(s'.session).Armed? && s'.latch.armed && s'.wiring.timer.known
  {
  }

  // ----- with one advance request under way at a time --------------------------------------------------

  /** Every finalizer belongs to a run of its own, a later one to a later run. */
  predicate RunsIncrease(finalizers: seq<Finalizer>) {
    forall i, j | 0 <= i < j < |finalizers| :: finalizers[i].run < finalizers[j].run
  }

  /** The finalizers of the runs before this one, all of them finished. */
  predicate AllBefore(finalizers: seq<Finalizer>, run: RunId) {
    forall i | 0 <= i < |finalizers| :: finalizers[i].at.Finished? && finalizers[i].run < run
  }

  /** The finalizer of the current run, once its flag is claimed. */
  predicate CurrentOk(s: Runner) {
    && s.finalizers != []
    && var k := |s.finalizers| - 1;
       && AllBefore(s.finalizers[..k], s.run) && s.finalizers[k].run == s.run
       && (s.finalizers[k].kind.Settle? ==> s.latch.armed)
       && (s.link.shown ==> s.finalizers[k].at.Finished?)
  }

  /** No request names a run other than the finished one on display. */
  predicate LinkOk(s: Runner) {
    && |s.link.pending| <= s.link.cap <= 1
    && (s.link.pending != [] ==> s.link.shown && s.link.pending[0] == s.run)
    && (s.link.shown ==> s.latch.claimed)
  }

  predicate OneInv(s: Runner) {
    && LinkOk(s)
    && (if s.latch.claimed then CurrentOk(s) else AllBefore(s.finalizers, s.run))
    && (Now(s.session).Armed? || Now(s.session).Observing? ==> s.latch.armed)
  }

  lemma ClaimKeepsOne(s: Runner, kind: Kind)
    requires OneInv(s) && !s.latch.claimed && (kind.Settle? ==> s.latch.armed)
    ensures OneInv(Claimed(s, kind))
  {
    assert Claimed(s, kind).finalizers[..|s.finalizers|] == s.finalizers;
  }

  lemma PublishKeepsOne(s: Runner, clock: int)
    requires OneInv(s)
    ensures OneInv(Publish(s, clock))
  {
    if Now(s.session).Observing? && !s.latch.claimed {
      ClaimKeepsOne(s.(session := Moved(s.session, Evaluating, clock)), Settle);
    }
  }

  lemma NoInvocationKeepsOne(s: Runner, kind: Kind)
    requires OneInv(s) && !kind.Settle?
    ensures OneInv(FinalizeNoInvocation(s, kind))
  {
    if !s.latch.claimed {
      ClaimKeepsOne(s, kind);
    }
  }

  /** Callbacks and the environment change neither the flags nor the link. */
  lemma SameFlagsKeepOne(s: Runner, s': Runner)
    requires OneInv(s) && s'.session == s.session && s'.run == s.run && s'.latch == s.latch
    requires s'.finalizers == s.finalizers && s'.link == s.link
    ensures OneInv(s')
  {
  }

  lemma ArmKeepsOne(s: Runner, clock: int)
    requires OneInv(s)
    ensures OneInv(Arm(s, clock))
  {
  }

  lemma BuildKeepsOne(s: Runner, e: Environment, clock: int)
    requires OneInv(s)
    ensures OneInv(DoBuild(s, e, clock))
  {
    var s1 := s.(start := Started, gate := Gate(true, NoClaim));
    var heard := s.wiring.(listener := Connection(true, s.wiring.listener.known || s.wiring.listener.stray));
    SameFlagsKeepOne(s, s.(start := StartFailed));
    SameFlagsKeepOne(s, s1);
    SameFlagsKeepOne(s, s1.(wiring := heard));
    SameFlagsKeepOne(s, s1.(wiring := heard.(registered := true)));
    NoInvocationKeepsOne(s1, NotAvailable);
    ArmKeepsOne(s1.(wiring := heard), clock);
  }

  lemma OthersAreFinished(s: Runner, i: nat)
    requires OneInv(s) && i < |s.finalizers|
    ensures s.finalizers[i].at.Finished? || (s.latch.claimed && i == |s.finalizers| - 1)
  {
    if s.latch.claimed && i < |s.finalizers| - 1 {
      assert s.finalizers[..|s.finalizers| - 1][i] == s.finalizers[i];
    }
  }

  /** An await completes: only the current run's finalizer is still under way. */
  lemma AdvanceKeepsOne(s: Runner, i: nat, reply: Reply, evaluated: Verdict, clock: int)
    requires OneInv(s) && i < |s.finalizers| && DoAdvance(s, i, reply, evaluated, clock).Some?
    ensures OneInv(DoAdvance(s, i, reply, evaluated, clock).value)
  {
    var s', k := DoAdvance(s, i, reply, evaluated, clock).value, |s.finalizers| - 1;
    OthersAreFinished(s, i);
    assert s'.finalizers[..k] == s.finalizers[..k];
  }

  lemma AdvancedKeepsOne(s: Runner, k: nat, ok: bool, at: int)
    requires OneInv(s) && k < |s.link.pending|
    ensures OneInv(DoAdvanced(s, k, ok, at))
  {
    var last := |s.finalizers| - 1;
    forall i | 0 <= i < |s.finalizers| ensures s.finalizers[i].at.Finished? && s.finalizers[i].run < s.run + 1 {
      if i < last {
        assert s.finalizers[..last][i].run < s.run;
      }
    }
  }

  lemma GateKeepsOne(s: Runner, gate: Gate, clock: int)
    requires OneInv(s)
    ensures OneInv(Publish(s.(gate := gate), clock))
  {
    SameFlagsKeepOne(s, s.(gate := gate));
    PublishKeepsOne(s.(gate := gate), clock);
  }

  lemma TimerKeepsOne(s: Runner, stray: bool)
    requires OneInv(s) && DoTimer(s, stray).Some?
    ensures OneInv(DoTimer(s, stray).value)
  {
    var unset := s.(wiring := s.wiring.(timer := s.wiring.timer.(known := false)));
    SameFlagsKeepOne(s, unset);
    NoInvocationKeepsOne(s, Timeout);
    NoInvocationKeepsOne(unset, Timeout);
  }

  lemma CallbackKeepsOne(s: Runner, a: Action, s': Runner)
    requires OneInv(s) && Do(s, a) == Some(s')
    requires a.Attempt? || a.SettleCall? || a.TimerFires? || a.RegistryError? || a.RegistryReady?
    ensures OneInv(s')
  {
    match a
    case Attempt(clock) =>
      GateKeepsOne(s, s.gate.(claim := InFlight), clock);
      PublishKeepsOne(s, clock);
    case SettleCall(clock) => GateKeepsOne(s, s.gate.(claim := Settled), clock);
    case TimerFires(stray) => TimerKeepsOne(s, stray);
    case RegistryError => NoInvocationKeepsOne(s, NotAvailable);
    case RegistryReady(clock) =>
      SameFlagsKeepOne(s, s.(wiring := s.wiring.(readyHandled := true)));
      ArmKeepsOne(s.(wiring := s.wiring.(readyHandled := true)), clock);
    case _ =>
  }

  lemma StepKeepsOne(s: Runner, a: Action, s': Runner)
    requires OneInv(s) && Do(s, a) == Some(s')
    ensures OneInv(s')
  {
    if a.Build? {
      BuildKeepsOne(s, a.environment, a.clock);
    } else if a.Advance? {
      AdvanceKeepsOne(s, a.i, a.reply, a.verdict, a.clock);
    } else if a.Advanced? {
      AdvancedKeepsOne(s, a.request, a.ok, a.at);
    } else if a.Attempt? || a.SettleCall? || a.TimerFires? || a.RegistryError? || a.RegistryReady? {
      CallbackKeepsOne(s, a, s');
    }
  }

  lemma StepKeepsIncreasing(s: Runner, a: Action, s': Runner)
    requires OneInv(s) && RunsIncrease(s.finalizers) && Do(s, a) == Some(s')
    ensures RunsIncrease(s'.finalizers)
  {
    if a.Advance? {
      AdvanceTouchesOne(s, a, s');
    } else {
      OthersOnlyAppend(s, a, s');
    }
  }

  lemma {:induction false} RunKeepsOne(s: Runner, actions: seq<Action>, s': Runner)
    requires OneInv(s) && RunsIncrease(s.finalizers) && Run(s, actions) == Some(s')
    ensures OneInv(s') && RunsIncrease(s'.finalizers)
    decreases |actions|
  {
    if actions != [] {
      StepKeepsOne(s, actions[0], Do(s, actions[0]).value);
      StepKeepsIncreasing(s, actions[0], Do(s, actions[0]).value);
      RunKeepsOne(Do(s, actions[0]).value, actions[1..], s');
    }
  }

  /** With at most one request under way, a run has one finalizer: one control call is sent. */
  lemma OneControl(cap: nat, s: Runner)
    requires cap <= 1 && Reachable(cap, s)
    ensures RunsIncrease(s.finalizers)
  {
    var at, actions :| Run(Opened(at, cap), actions) == Some(s);
    RunKeepsOne(Opened(at, cap), actions, s);
  }

  /** What the missing-boundary error looks for: an observed invocation is about to be judged. */
  predicate JudgesInvocation(f: Finalizer) {
    f.kind.Settle? && f.at.Judging?
  }

  ghost predicate BoundaryIsSet(s: Runner) {
    forall i | 0 <= i < |s.finalizers| && JudgesInvocation(s.finalizers[i]) :: s.latch.armed
  }

  lemma ArmBoundaryIsSet(cap: nat, s: Runner)
    requires cap <= 1 && Reachable(cap, s)
    ensures BoundaryIsSet(s)
  {
    var at, actions :| Run(Opened(at, cap), actions) == Some(s);
    RunKeepsOne(Opened(at, cap), actions, s);
    forall i | 0 <= i < |s.finalizers| && JudgesInvocation(s.finalizers[i]) ensures s.latch.armed {
      OthersAreFinished(s, i);
    }
  }

  // ----- concrete runs ---------------------------------------------------------------------------------

  lemma ReachesOpened(cap: nat, at: int) returns (s: Runner)
    ensures s == Opened(at, cap) && Reachable(cap, s)
  {
    s := Opened(at, cap);
    assert Run(s, []) == Some(s);
  }

  lemma Next(cap: nat, s: Runner, a: Action) returns (s': Runner)
    requires Reachable(cap, s) && Do(s, a).Some?
    ensures Do(s, a) == Some(s') && Reachable(cap, s')
  {
    s' := Do(s, a).value;
    Reaches(cap, s, a, s');
  }

  /** Armed for this run, with nothing invoked yet. */
  predicate IsArmed(s: Runner, run: RunId) {
    Now(s.session).Armed? && s.run == run && s.wiring.timer.known && s.wiring.listener.known
    && s.gate == Gate(true, NoClaim) && s.latch == Latch(false, false, true) && Grants(s.server, run)
  }

  /** The start control is clicked and the server starts the run. */
  lemma PreparingRun(cap: nat, s0: Runner) returns (s: Runner)
    requires Reachable(cap, s0) && Now(s0.session).Received? && s0.start.Idle? && s0.run !in s0.server.started
    ensures Reachable(cap, s) && Now(s.session).Preparing? && s.start.Building?
    ensures s.server == Server(s0.server.started + {s0.run}, s0.server.ended) && s.finalizers == s0.finalizers
    ensures s.run == s0.run && s.latch == s0.latch && s.wiring == s0.wiring && s.gate == s0.gate && s.link == s0.link
  {
    s := Next(cap, s0, MarkReady(0));
    assert Now(s.session).ReadyToArm?;
    s := Next(cap, s, Start);
    s := Next(cap, s, StartReply(Arrives, 0));
  }

  lemma ArmedRun(cap: nat, at: int) returns (s: Runner)
    ensures Reachable(cap, s) && IsArmed(s, 0) && s.finalizers == [] && s.link == Link(cap, [], false)
    ensures s.start.Started? && s.server == Server({0}, {})
  {
    s := ReachesOpened(cap, at);
    s := PreparingRun(cap, s);
    s := Next(cap, s, Build(Supported, 0));
    s := Next(cap, s, RegistryReady(0));
  }

  /** The control call of this finalizer and the reveal return. */
  lemma RevealedRun(cap: nat, s0: Runner, i: nat) returns (s: Runner)
    requires Reachable(cap, s0) && i < |s0.finalizers| && s0.finalizers[i].at.Controlling?
    requires Grants(s0.server, s0.finalizers[i].run)
    ensures var f := s0.finalizers[i];
            && Reachable(cap, s)
            && s.finalizers == s0.finalizers[i := f.(at := Judging, did := f.did + [Controlled(f.kind), Reveal, Revealed],
                                                     granted := true)]
            && s.server == Server(s0.server.started, s0.server.ended + {f.run})
            && s.session == s0.session && s.run == s0.run && s.latch == s0.latch && s.gate == s0.gate
            && s.wiring == s0.wiring && s.link == s0.link && s.start == s0.start
  {
    var f := s0.finalizers[i];
    s := Next(cap, s0, Advance(i, Arrives, Passed, 0));
    assert s.finalizers[i] == f.(at := Revealing, did := f.did + [Controlled(f.kind), Reveal], granted := true);
    s := Next(cap, s, Advance(i, Arrives, Passed, 0));
    assert f.did + [Controlled(f.kind), Reveal] + [Revealed] == f.did + [Controlled(f.kind), Reveal, Revealed];
  }

  /** The verdict of the only finalizer is reached and written. */
  lemma WrittenRun(cap: nat, s0: Runner, f: Finalizer, v: Verdict) returns (s: Runner)
    requires Reachable(cap, s0) && s0.finalizers == [f] && f.at.Judging? && !s0.latch.terminal && f.run == s0.run
    requires (f.kind.Settle? ==> s0.latch.armed) && JudgedVerdict(f.kind, v) == v && MayFollow(Now(f.from), TerminalStage(v))
    ensures Reachable(cap, s) && s.finalizers == [f.(at := Reporting(v), did := f.did + [Persisted(v)])]
    ensures s.session == Moved(f.from, TerminalStage(v), 0) && s.run == s0.run && !s.gate.active
    ensures s.gate.claim == s0.gate.claim && s.link == s0.link && s.start == s0.start && s.server == s0.server
  {
    s := Next(cap, s0, Advance(0, Arrives, v, 0));
    assert s.finalizers == [f.(at := Writing(v))];
    s := Next(cap, s, Advance(0, Arrives, v, 0));
  }

  /** The timer's control call is under way when an invocation is admitted and settles. */
  lemma OvertakenRun(cap: nat, armed: Runner) returns (s: Runner)
    requires Reachable(cap, armed) && IsArmed(armed, 0) && armed.finalizers == []
    ensures Reachable(cap, s) && s.gate == Gate(true, Settled) && !s.latch.terminal && s.run == 0
    ensures s.finalizers == [Finalizer(0, Timeout, armed.session, Controlling, [Control(Timeout)], false)]
    ensures s.server == armed.server
  {
    s := Next(cap, armed, TimerFires(false));
    s := Next(cap, s, Attempt(0));
    assert Now(s.session).Observing?;
    s := Next(cap, s, SettleCall(0));
  }

  /** The timer is not cancelled by the first invocation: one that is admitted, and even
      settled, while the timeout's control call is under way is still reported as incomplete,
      and the stored session forgets that it was ever observed. */
  lemma LateInvocationIsReportedIncomplete(cap: nat, at: int) returns (s: Runner)
    ensures Reachable(cap, s) && s.gate.claim.Settled? && |s.finalizers| == 1
    ensures Persisted(NotComplete) in s.finalizers[0].did
    ensures s.session.Then? && s.session.stage.Incomplete? && Now(s.session.before).Armed?
  {
    var armed := ArmedRun(cap, at);
    s := OvertakenRun(cap, armed);
    s := RevealedRun(cap, s, 0);
    var f := s.finalizers[0];
    s := WrittenRun(cap, s, f, NotComplete);
    assert s.finalizers[0].did[|f.did|] == Persisted(NotComplete);
  }

  // ----- Continue clicked twice --------------------------------------------------------------------

  function Settling(run: RunId, from: Session): Finalizer {
    Finalizer(run, Settle, from, Controlling, [Control(Settle)], false)
  }

  /** An invocation is observed and settled; its control call is under way. */
  lemma ObservedRun(cap: nat, armed: Runner, run: RunId) returns (s: Runner)
    requires Reachable(cap, armed) && IsArmed(armed, run)
    ensures Reachable(cap, s) && s.finalizers == armed.finalizers + [Settling(run, s.session)]
    ensures Now(s.session).Evaluating? && s.latch == Latch(false, true, true) && s.gate == Gate(true, Settled)
    ensures s.run == run && s.wiring == armed.wiring && s.link == armed.link && s.start == armed.start && s.server == armed.server
  {
    s := Next(cap, armed, Attempt(0));
    s := Next(cap, s, SettleCall(0));
  }

  /** The first run passes, and its result is on display. */
  lemma PassedRun(cap: nat, at: int) returns (s: Runner)
    ensures Reachable(cap, s) && s.link == Link(cap, [], true) && s.gate == Gate(false, Settled) && s.run == 0
    ensures s.start.Started? && |s.finalizers| == 1 && s.finalizers[0].run == 0 && s.server == Server({0}, {0})
  {
    s := ArmedRun(cap, at);
    s := ObservedRun(cap, s, 0);
    s := RevealedRun(cap, s, 0);
    var f := s.finalizers[0];
    s := WrittenRun(cap, s, f, Passed);
    s := Next(cap, s, Advance(0, Arrives, Passed, 0));
  }

  /** Continue is clicked twice, and the first answer opens the second run. */
  lemma SecondRunOpened(cap: nat, at: int) returns (s: Runner)
    requires cap >= 2
    ensures Reachable(cap, s) && s.link == Link(cap, [0], false) && s.session == First(0) && s.run == 1
    ensures |s.finalizers| == 1 && s.finalizers[0].run == 0 && s.latch == Latch(false, false, false) && s.start.Idle?
    ensures s.wiring.retained && s.gate == Gate(false, Settled) && s.server == Server({0}, {0})
  {
    s := PassedRun(cap, at);
    s := Next(cap, s, Continue);
    s := Next(cap, s, Continue);
    assert s.link.pending == [0, 0];
    s := Next(cap, s, Advanced(0, true, 0));
    assert s.link.pending == [0];
  }

  /** That run is armed on the retained catalog while the second answer is still under way. */
  lemma SecondRunArmed(cap: nat, at: int) returns (s: Runner)
    requires cap >= 2
    ensures Reachable(cap, s) && IsArmed(s, 1) && s.link == Link(cap, [0], false)
    ensures |s.finalizers| == 1 && s.finalizers[0].run == 0
  {
    s := SecondRunOpened(cap, at);
    s := PreparingRun(cap, s);
    s := Next(cap, s, Build(Supported, 0));
  }

  /** The second answer arrives while the settle call of the second run is under way, and clears
      the flags and the arm time under it. */
  lemma FlagsCleared(cap: nat, at: int) returns (s: Runner)
    requires cap >= 2
    ensures Reachable(cap, s) && |s.finalizers| == 2 && s.run == 1 && Grants(s.server, 1) && s.wiring.timer.known
    ensures s.finalizers[1].run == 1 && s.finalizers[1].kind.Settle? && s.finalizers[1].at.Controlling?
    ensures OnlySent(s.finalizers[1]) && s.latch == Latch(false, false, false)
  {
    s := SecondRunArmed(cap, at);
    s := ObservedRun(cap, s, 1);
    s := Next(cap, s, Advanced(0, true, 0));
  }

  /** The pending timer then starts a second finalizer: two control calls are sent for one run. The
      server grants only one of them. */
  lemma TwoClicksTwoControls(cap: nat, at: int) returns (s: Runner)
    requires cap >= 2
    ensures Reachable(cap, s) && |s.finalizers| == 3 && s.finalizers[1].run == s.finalizers[2].run == 1
    ensures s.finalizers[1].did == [Control(Settle)] && s.finalizers[2].did == [Control(Timeout)]
  {
    s := FlagsCleared(cap, at);
    s := Next(cap, s, TimerFires(false));
  }

  /** Without the timer the settle call is granted and the reveal returns, and the invocation is
      judged without its arm time: the error that the page takes for impossible is thrown. */
  lemma TwoClicksLoseTheBoundary(cap: nat, at: int) returns (s: Runner)
    requires cap >= 2
    ensures Reachable(cap, s) && !BoundaryIsSet(s)
  {
    s := FlagsCleared(cap, at);
    s := RevealedRun(cap, s, 1);
    assert JudgesInvocation(s.finalizers[1]);
  }

  /** "One control call is sent per run" holds in every run exactly when at most one advance request
      is under way at a time. */
  lemma OneControlIff(cap: nat)
    ensures (forall s | Reachable(cap, s) :: RunsIncrease(s.finalizers)) <==> cap <= 1
  {
    if cap <= 1 {
      forall s | Reachable(cap, s) ensures RunsIncrease(s.finalizers) {
        OneControl(cap, s);
      }
    } else {
      var s := TwoClicksTwoControls(cap, 0);
      assert !RunsIncrease(s.finalizers);
    }
  }

  /** So does "an invocation is never judged without its arm time". */
  lemma ArmBoundaryIff(cap: nat)
    ensures (forall s | Reachable(cap, s) :: BoundaryIsSet(s)) <==> cap <= 1
  {
    if cap <= 1 {
      forall s | Reachable(cap, s) ensures BoundaryIsSet(s) {
        ArmBoundaryIsSet(cap, s);
      }
    } else {
      var s := TwoClicksLoseTheBoundary(cap, 0);
      assert Reachable(cap, s);
    }
  }
}
