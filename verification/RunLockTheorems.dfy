/** What every reachable state of the one-run protocol keeps, whatever the tabs do. */
module RunLockTheorems {
  import opened Prelude
  import opened RunLockMarkers
  import opened RunLockProtocol

  /** The events of one complete run of a tab, before its terminal record. */
  function FullRun(t: TabId, c: Claim): (r: seq<Event>)
    ensures |r| == 10 && r[0] == Armed(t, c) && r[9] == Approved(t, c)
    ensures forall k | 0 <= k < CALLS :: r[1 + 2 * k] == Dispatched(t, c, k) && r[2 + 2 * k] == Accepted(t, c, k)
  {
    [Armed(t, c), Dispatched(t, c, 0), Accepted(t, c, 0), Dispatched(t, c, 1), Accepted(t, c, 1),
     Dispatched(t, c, 2), Accepted(t, c, 2), Dispatched(t, c, 3), Accepted(t, c, 3), Approved(t, c)]
  }

  predicate IsSealed(log: seq<Event>) {
    log != [] && log[|log| - 1].Sealed?
  }

  /** The log without its terminal record. */
  function Body(log: seq<Event>): seq<Event> {
    if IsSealed(log) then log[..|log| - 1] else log
  }

  /** The body is the beginning of a single run, or empty. */
  predicate OneRun(start: Cell, body: seq<Event>) {
    body == [] ||
    (start.Absent? && body[0].Armed? && |body| <= 10 && body == FullRun(body[0].tab, body[0].claim)[..|body|])
  }

  /** What the cell holds after the body. */
  function Claimed(start: Cell, body: seq<Event>): Cell {
    if body != [] && body[0].Armed? then Held(InProgress(body[0].claim)) else start
  }

  predicate SealOk(start: Cell, body: seq<Event>, e: Event) {
    && e.Sealed? && e.marker.Terminal?
    && Claimed(start, body) == Held(InProgress(e.marker.claim))
    && (e.actor.Runner? ==> body != [] && e.tab == body[0].tab)
    && (e.actor.Recovery? ==> e.marker.phase.Failed?)
    && (e.marker.phase.Verified? ==> |body| == 10)
  }

  /** The log is the beginning of one run, then at most one terminal record, and determines
      the cell. */
  predicate History(start: Cell, log: seq<Event>, cell: Cell) {
    && OneRun(start, Body(log))
    && (IsSealed(log) ==> SealOk(start, Body(log), log[|log| - 1]) && cell == Held(log[|log| - 1].marker))
    && (!IsSealed(log) ==> cell == Claimed(start, log))
  }

  /** This tab armed this claim. */
  predicate Mine(log: seq<Event>, t: TabId, c: Claim) {
    log != [] && log[0] == Armed(t, c)
  }

  predicate OwnSeal(log: seq<Event>, t: TabId)
    requires IsSealed(log)
  {
    log[|log| - 1].tab == t && log[|log| - 1].actor.Runner?
  }

  /** No terminal record yet, or a verified one of this tab whose write threw after storing. */
  predicate OpenOrOwnVerified(log: seq<Event>, t: TabId) {
    IsSealed(log) ==> OwnSeal(log, t) && log[|log| - 1].marker.Terminal? && log[|log| - 1].marker.phase.Verified?
  }

  predicate RunnerSealOk(s: State, t: TabId, pc: Pc)
    requires pc.Sealing?
  {
    && Mine(s.log, t, pc.claim)
    && (pc.phase.Verified? ==> |Body(s.log)| == 10)
    && match pc.at
       case Decided(m) => !IsSealed(s.log) && m.Terminal? && m.claim == pc.claim && m.phase == pc.phase
       case Finished(Some(m)) =>
         s.cell == Held(m) && m.Terminal? && m.claim == pc.claim && m.phase == pc.phase
         && IsSealed(s.log) && OwnSeal(s.log, t)
       case Finished(None) =>
         if pc.phase.Verified? then OpenOrOwnVerified(s.log, t) else IsSealed(s.log) ==> OwnSeal(s.log, t)
       case _ => if pc.phase.Verified? then !IsSealed(s.log) else OpenOrOwnVerified(s.log, t)
  }

  predicate RecoverySealOk(s: State, pc: Pc)
    requires pc.Sealing?
  {
    && pc.phase.Failed?
    && match pc.at
       case Decided(m) => s.cell == Held(InProgress(pc.claim)) && m.Terminal? && m.claim == pc.claim && m.phase.Failed?
       case Finished(Some(m)) => s.cell == Held(m) && m.Terminal? && m.claim == pc.claim && m.phase.Failed?
       case Finished(None) => true
       case _ => s.cell == Held(InProgress(pc.claim))
  }

  /** What the one tab that holds the owner lock knows. */
  predicate ActiveOk(s: State, t: TabId, pc: Pc) {
    match pc
    case Arming(Decided(m)) => s.cell.Absent? && s.log == [] && m.InProgress?
    case Arming(Finished(Some(m))) => m.InProgress? && s.log == [Armed(t, m.claim)]
    case Running(c, k) => Mine(s.log, t, c) && !IsSealed(s.log) && k <= CALLS && |s.log| == 1 + 2 * k
    case Calling(c, k) => Mine(s.log, t, c) && !IsSealed(s.log) && k < CALLS && |s.log| == 2 + 2 * k
    case Failing(c) => Mine(s.log, t, c) && OpenOrOwnVerified(s.log, t)
    case Sealing(_, _, _, actor, _) => if actor.Runner? then RunnerSealOk(s, t, pc) else RecoverySealOk(s, pc)
    case Interrupting(c) => s.cell == Held(InProgress(c))
    case Recovered(c) => s.cell.Held? && s.cell.marker.Terminal? && s.cell.marker.claim == c && s.cell.marker.phase.Failed?
    case _ => true
  }

  /** The owner lock has exactly the holders the counters say, and the run lock is only ever
      held by the owner. */
  ghost predicate Locks(s: State) {
    && (forall t | t in s.tabs :: HoldsOwner(s.tabs[t].pc) ==> s.owner == Some(t))
    && (s.owner.Some? ==> s.owner.value in s.tabs && HoldsOwner(s.tabs[s.owner.value].pc))
    && s.run == (if s.owner.Some? && s.owner.value in s.tabs && InRun(s.tabs[s.owner.value].pc) then s.owner else None)
  }

  ghost predicate Inv(start: Cell, s: State) {
    && Locks(s)
    && History(start, s.log, s.cell)
    && (s.owner.Some? ==> ActiveOk(s, s.owner.value, s.tabs[s.owner.value].pc))
  }

  /** How any step of one tab may change the locks: it enters or leaves its own hold, and
      touches nobody else's. */
  ghost predicate LockEffect(s: State, t: TabId, s': State) {
    && t in s'.tabs
    && s'.tabs == s.tabs[t := s'.tabs[t]]
    && (if HoldsOwner(s'.tabs[t].pc) then
          && (s.owner.None? || s.owner == Some(t))
          && s'.owner == Some(t)
          && s'.run == (if InRun(s'.tabs[t].pc) then Some(t) else None)
        else
          && s'.owner == (if s.owner == Some(t) then None else s.owner)
          && s'.run == (if s.run == Some(t) then None else s.run))
  }

  /** What the lock counters say about one tab. */
  predicate OwnLocks(s: State, t: TabId) {
    && (t in s.tabs && HoldsOwner(s.tabs[t].pc) <==> s.owner == Some(t))
    && (s.run == Some(t) <==> t in s.tabs && InRun(s.tabs[t].pc))
    && (s.run.Some? ==> s.run == s.owner)
  }

  lemma AfterRunLockEffect(s: State, t: TabId, ok: bool)
    requires OwnLocks(s, t) && t in s.tabs && (s.tabs[t].pc.Arming? || s.tabs[t].pc.Sealing?)
    ensures LockEffect(s, t, AfterRun(s.(run := if s.run == Some(t) then None else s.run), t, ok))
  {
  }

  lemma ThrowLockEffect(s: State, t: TabId)
    requires OwnLocks(s, t) && t in s.tabs && DoThrow(s, t).Some?
    ensures LockEffect(s, t, DoThrow(s, t).value)
  {
    if (s.tabs[t].pc.Arming? || s.tabs[t].pc.Sealing?) && s.tabs[t].pc.at.Waiting? {
      AfterRunLockEffect(s, t, false);
    }
  }

  lemma StepLockEffect(s: State, a: Action, s': State)
    requires OwnLocks(s, a.tab) && Do(s, a) == Some(s')
    ensures LockEffect(s, a.tab, s')
  {
    if a.Throw? {
      ThrowLockEffect(s, a.tab);
    } else if a.LeaveRun? {
      AfterRunLockEffect(s, a.tab, s.tabs[a.tab].pc.at.result.Some?);
    }
  }

  lemma StepKeepsLocks(s: State, a: Action, s': State)
    requires Locks(s) && Do(s, a) == Some(s')
    ensures Locks(s')
  {
    StepLockEffect(s, a, s');
  }

  /** Only a run's own events touch the cell or the log. */
  lemma QuietStep(s: State, a: Action, s': State)
    requires Do(s, a) == Some(s') && !a.Write? && !a.Dispatch? && !a.Observe? && !a.Verify?
    ensures s'.cell == s.cell && s'.log == s.log
  {
  }

  lemma DecideKeepsActive(start: Cell, s: State, a: Action, s': State)
    requires Inv(start, s) && Do(s, a) == Some(s') && a.Decide? && s'.owner == Some(a.tab)
    ensures ActiveOk(s', a.tab, s'.tabs[a.tab].pc)
  {
  }

  lemma LeaveKeepsActive(s: State, a: Action, s': State)
    requires OwnLocks(s, a.tab) && (s.owner == Some(a.tab) ==> ActiveOk(s, a.tab, s.tabs[a.tab].pc))
    requires Do(s, a) == Some(s') && a.LeaveRun? && s'.owner == Some(a.tab)
    ensures ActiveOk(s', a.tab, s'.tabs[a.tab].pc)
  {
  }

  lemma ThrowKeepsActive(s: State, a: Action, s': State)
    requires OwnLocks(s, a.tab) && (s.owner == Some(a.tab) ==> ActiveOk(s, a.tab, s.tabs[a.tab].pc))
    requires Do(s, a) == Some(s') && a.Throw? && s'.owner == Some(a.tab)
    ensures ActiveOk(s', a.tab, s'.tabs[a.tab].pc)
  {
  }

  lemma OtherQuietStepKeepsActive(s: State, a: Action, s': State)
    requires OwnLocks(s, a.tab) && (s.owner == Some(a.tab) ==> ActiveOk(s, a.tab, s.tabs[a.tab].pc))
    requires Do(s, a) == Some(s') && s'.owner == Some(a.tab)
    requires a.RequestOwner? || a.EnterRun? || a.Finish? || a.Reread? || a.Dispose?
    ensures ActiveOk(s', a.tab, s'.tabs[a.tab].pc)
  {
  }

  lemma QuietStepKeepsActive(start: Cell, s: State, a: Action, s': State)
    requires Inv(start, s) && Do(s, a) == Some(s') && !a.Write? && !a.Dispatch? && !a.Observe? && !a.Verify?
    requires LockEffect(s, a.tab, s') && s'.cell == s.cell && s'.log == s.log
    ensures s'.owner.Some? ==> ActiveOk(s', s'.owner.value, s'.tabs[s'.owner.value].pc)
  {
    if s'.owner == Some(a.tab) {
      if a.Decide? {
        DecideKeepsActive(start, s, a, s');
      } else if a.LeaveRun? {
        LeaveKeepsActive(s, a, s');
      } else if a.Throw? {
        ThrowKeepsActive(s, a, s');
      } else if a.RequestOwner? || a.EnterRun? || a.Finish? || a.Reread? || a.Dispose? {
        OtherQuietStepKeepsActive(s, a, s');
      }
    }
  }

  lemma EventExtendsRun(start: Cell, log: seq<Event>, cell: Cell, t: TabId, c: Claim, e: Event)
    requires History(start, log, cell) && !IsSealed(log) && Mine(log, t, c) && |log| < 10
    requires e == FullRun(t, c)[|log|]
    ensures History(start, log + [e], cell) && !IsSealed(log + [e]) && Mine(log + [e], t, c)
  {
    assert !e.Sealed?;
    assert FullRun(t, c)[..|log|] + [FullRun(t, c)[|log|]] == FullRun(t, c)[..|log| + 1];
  }

  /** A call step of the owner adds the next event of its run, or a rejected call adds none. */
  lemma CallStepEvent(start: Cell, s: State, a: Action, s': State)
    requires Inv(start, s) && Do(s, a) == Some(s') && (a.Dispatch? || a.Observe? || a.Verify?)
    ensures s.owner == Some(a.tab) == s'.owner && s'.cell == s.cell && a.tab in s.tabs
    ensures s.tabs[a.tab].pc.Running? || s.tabs[a.tab].pc.Calling?
    ensures var c := s.tabs[a.tab].pc.claim;
            && Mine(s.log, a.tab, c) && !IsSealed(s.log)
            && (s'.log == s.log || (|s.log| < 10 && s'.log == s.log + [FullRun(a.tab, c)[|s.log|]]))
  {
  }

  lemma CallStepKeepsActive(s: State, a: Action, s': State)
    requires a.tab in s.tabs && ActiveOk(s, a.tab, s.tabs[a.tab].pc) && Do(s, a) == Some(s')
    requires (a.Dispatch? || a.Observe? || a.Verify?) && !IsSealed(s'.log) && Mine(s'.log, a.tab, s.tabs[a.tab].pc.claim)
    ensures ActiveOk(s', a.tab, s'.tabs[a.tab].pc)
  {
  }

  lemma CallStepKeepsInv(start: Cell, s: State, a: Action, s': State)
    requires Inv(start, s) && Do(s, a) == Some(s') && (a.Dispatch? || a.Observe? || a.Verify?)
    requires Locks(s')
    ensures Inv(start, s')
  {
    CallStepEvent(start, s, a, s');
    var c := s.tabs[a.tab].pc.claim;
    if s'.log != s.log {
      EventExtendsRun(start, s.log, s.cell, a.tab, c, FullRun(a.tab, c)[|s.log|]);
    }
    CallStepKeepsActive(s, a, s');
  }

  lemma ArmStoresClaim(start: Cell, s: State, t: TabId, m: Marker)
    requires History(start, s.log, s.cell) && s.cell.Absent? && s.log == [] && m.InProgress?
    ensures History(start, s.log + [Armed(t, m.claim)], Held(m))
  {
    assert FullRun(t, m.claim)[..1] == [Armed(t, m.claim)];
  }

  lemma SealStoresTerminal(start: Cell, log: seq<Event>, cell: Cell, e: Event)
    requires History(start, log, cell) && !IsSealed(log) && SealOk(start, log, e)
    ensures History(start, log + [e], Held(e.marker))
    ensures IsSealed(log + [e]) && Body(log + [e]) == log && Body(log) == log
  {
    assert (log + [e])[..|log|] == log;
  }

  lemma WriteKeepsHistory(start: Cell, s: State, a: Action, s': State)
    requires Inv(start, s) && Do(s, a) == Some(s') && a.Write?
    ensures History(start, s'.log, s'.cell)
  {
    var t, pc := a.tab, s.tabs[a.tab].pc;
    if !a.outcome.Refused? {
      if pc.Arming? {
        ArmStoresClaim(start, s, t, pc.at.marker);
      } else {
        SealStoresTerminal(start, s.log, s.cell, Sealed(t, pc.at.marker, pc.actor));
      }
    }
  }

  lemma ArmWriteKeepsActive(s: State, a: Action, s': State)
    requires a.tab in s.tabs && ActiveOk(s, a.tab, s.tabs[a.tab].pc) && Do(s, a) == Some(s') && a.Write?
    requires s.tabs[a.tab].pc.Arming?
    ensures ActiveOk(s', a.tab, s'.tabs[a.tab].pc)
  {
  }

  lemma SealedLog(log: seq<Event>, e: Event)
    requires e.Sealed?
    ensures IsSealed(log + [e]) && (log + [e])[|log + [e]| - 1] == e && Body(log + [e]) == log
    ensures !IsSealed(log) ==> Body(log) == log
    ensures log != [] ==> (log + [e])[0] == log[0]
  {
    assert (log + [e])[..|log|] == log;
  }

  lemma StoredSealIsOwn(s: State, t: TabId, pc: Pc, m: Marker, ok: bool, s': State)
    requires pc.Sealing? && pc.actor.Runner? && pc.at == Decided(m) && RunnerSealOk(s, t, pc)
    requires s'.log == s.log + [Sealed(t, m, Runner)] && s'.cell == Held(m)
    ensures RunnerSealOk(s', t, pc.(at := Finished(if ok then Some(m) else None)))
  {
    SealedLog(s.log, Sealed(t, m, Runner));
  }

  lemma RunnerSealWriteKeepsActive(s: State, a: Action, s': State)
    requires a.tab in s.tabs && ActiveOk(s, a.tab, s.tabs[a.tab].pc) && Do(s, a) == Some(s') && a.Write?
    requires s.tabs[a.tab].pc.Sealing? && s.tabs[a.tab].pc.actor.Runner?
    ensures ActiveOk(s', a.tab, s'.tabs[a.tab].pc)
  {
    var pc := s.tabs[a.tab].pc;
    if !a.outcome.Refused? {
      StoredSealIsOwn(s, a.tab, pc, pc.at.marker, a.outcome.Stored?, s');
    }
  }

  lemma RecoverySealWriteKeepsActive(s: State, a: Action, s': State)
    requires a.tab in s.tabs && ActiveOk(s, a.tab, s.tabs[a.tab].pc) && Do(s, a) == Some(s') && a.Write?
    requires s.tabs[a.tab].pc.Sealing? && s.tabs[a.tab].pc.actor.Recovery?
    ensures ActiveOk(s', a.tab, s'.tabs[a.tab].pc)
  {
  }

  lemma WriteKeepsActive(s: State, a: Action, s': State)
    requires a.tab in s.tabs && ActiveOk(s, a.tab, s.tabs[a.tab].pc) && Do(s, a) == Some(s') && a.Write?
    ensures ActiveOk(s', a.tab, s'.tabs[a.tab].pc)
  {
    if s.tabs[a.tab].pc.Arming? {
      ArmWriteKeepsActive(s, a, s');
    } else if s.tabs[a.tab].pc.actor.Runner? {
      RunnerSealWriteKeepsActive(s, a, s');
    } else {
      RecoverySealWriteKeepsActive(s, a, s');
    }
  }

  lemma WriteStepKeepsInv(start: Cell, s: State, a: Action, s': State)
    requires Inv(start, s) && Do(s, a) == Some(s') && a.Write?
    requires Locks(s')
    ensures Inv(start, s')
  {
    WriteKeepsHistory(start, s, a, s');
    WriteKeepsActive(s, a, s');
  }

  lemma StepKeepsInv(start: Cell, s: State, a: Action, s': State)
    requires Inv(start, s) && Do(s, a) == Some(s')
    ensures Inv(start, s')
  {
    StepLockEffect(s, a, s');
    StepKeepsLocks(s, a, s');
    if a.Write? {
      WriteStepKeepsInv(start, s, a, s');
    } else if a.Dispatch? || a.Observe? || a.Verify? {
      CallStepKeepsInv(start, s, a, s');
    } else {
      QuietStep(s, a, s');
      QuietStepKeepsActive(start, s, a, s');
    }
  }

  lemma {:induction false} RunKeepsInv(start: Cell, s: State, actions: seq<Action>, s': State)
    requires Inv(start, s) && Run(s, actions) == Some(s')
    ensures Inv(start, s')
    decreases |actions|
  {
    if actions != [] {
      var next := Do(s, actions[0]).value;
      StepKeepsInv(start, s, actions[0], next);
      RunKeepsInv(start, next, actions[1..], s');
    }
  }

  lemma ReachableInv(start: Cell, s: State)
    requires Reachable(start, s)
    ensures Inv(start, s)
  {
    var actions :| Run(Start(start), actions) == Some(s);
    RunKeepsInv(start, Start(start), actions, s);
  }

  lemma EventAt(start: Cell, log: seq<Event>, cell: Cell, i: nat)
    requires History(start, log, cell) && i < |log|
    ensures log[i].Sealed? ==> i == |log| - 1
    ensures !log[i].Sealed? ==> start.Absent? && i < 10 && log[0].Armed?
                                && log[..i + 1] == FullRun(log[0].tab, log[0].claim)[..i + 1]
  {
    var body := Body(log);
    if i < |body| {
      var full := FullRun(body[0].tab, body[0].claim);
      assert body[0] == log[0] && body[i] == log[i] == full[i];
      assert log[..i + 1] == body[..i + 1] == full[..i + 1];
    }
  }

  /** At most one claim is ever armed, over an empty cell only, and each of the four native
      calls is sent at most once, in order, by the arming tab. */
  lemma OneClaimOneSequence(start: Cell, s: State)
    requires Reachable(start, s)
    ensures forall i | 0 <= i < |s.log| :: s.log[i].Armed? ==> i == 0 && start.Absent?
    ensures forall i | 0 <= i < |s.log| :: s.log[i].Dispatched? ==> start.Absent? && InTurn(s.log, i)
    ensures forall i | 0 <= i < |s.log| :: s.log[i].Sealed? ==> i == |s.log| - 1
  {
    ReachableInv(start, s);
    forall i | 0 <= i < |s.log|
      ensures s.log[i].Armed? ==> i == 0 && start.Absent?
      ensures s.log[i].Dispatched? ==> start.Absent? && InTurn(s.log, i)
      ensures s.log[i].Sealed? ==> i == |s.log| - 1
    {
      EventAt(start, s.log, s.cell, i);
      if !s.log[i].Sealed? {
        PrefixInTurn(s.log, i);
      }
    }
  }

  /** The call sent at this place is the arming tab's next one, all earlier ones accepted. */
  predicate InTurn(log: seq<Event>, i: nat)
    requires i < |log| && log[i].Dispatched?
  {
    var e := log[i];
    && i == 1 + 2 * e.index && e.index < CALLS && log[0] == Armed(e.tab, e.claim)
    && forall k | 0 <= k < e.index :: log[2 + 2 * k] == Accepted(e.tab, e.claim, k)
  }

  lemma PrefixInTurn(log: seq<Event>, i: nat)
    requires i < |log| && i < 10 && log[0].Armed?
    requires log[..i + 1] == FullRun(log[0].tab, log[0].claim)[..i + 1]
    ensures log[i].Armed? ==> i == 0
    ensures log[i].Dispatched? ==> InTurn(log, i)
  {
    var full := FullRun(log[0].tab, log[0].claim);
    forall k | 0 <= k <= i ensures log[k] == full[k] {
      assert log[..i + 1][k] == full[..i + 1][k];
    }
    assert full[0].Armed? && full[2].Accepted? && full[4].Accepted? && full[6].Accepted? && full[8].Accepted?;
    assert i in {0, 1, 2, 3, 4, 5, 6, 7, 8, 9};
  }

  /** The tab is between a successful arm and the end of its own seal. Its run begins with the
      write: the arming request need not have returned yet. */
  predicate IsLive(pc: Pc) {
    pc.Running? || pc.Calling? || pc.Failing? || (pc.Sealing? && pc.actor.Runner?)
    || (pc.Arming? && pc.at.Finished? && pc.at.result.Some?)
  }

  function LiveClaim(pc: Pc): Claim
    requires IsLive(pc)
  {
    if pc.Arming? then pc.at.result.value.claim else pc.claim
  }

  /** A live run holds the owner lock, and the cell holds its own claim in progress unless it
      wrote the terminal record itself. */
  lemma LiveRunIsNotInterrupted(start: Cell, s: State, t: TabId)
    requires Reachable(start, s) && t in s.tabs && IsLive(s.tabs[t].pc)
    ensures s.owner == Some(t)
    ensures var c := LiveClaim(s.tabs[t].pc);
            (s.cell == Held(InProgress(c)) && !IsSealed(s.log))
            || (IsSealed(s.log) && s.cell.Held? && s.log[|s.log| - 1] == Sealed(t, s.cell.marker, Runner)
                && s.cell.marker.claim == c)
  {
    ReachableInv(start, s);
    LiveCell(start, s, t);
  }

  lemma LiveCell(start: Cell, s: State, t: TabId)
    requires Inv(start, s) && t in s.tabs && IsLive(s.tabs[t].pc)
    ensures s.owner == Some(t)
    ensures var c := LiveClaim(s.tabs[t].pc);
            (s.cell == Held(InProgress(c)) && !IsSealed(s.log))
            || (IsSealed(s.log) && s.cell.Held? && s.log[|s.log| - 1] == Sealed(t, s.cell.marker, Runner)
                && s.cell.marker.claim == c)
  {
    assert Mine(s.log, t, LiveClaim(s.tabs[t].pc));
    if IsSealed(s.log) {
      assert Body(s.log) != [];
    }
  }

  /** What a write does, by the decision it carries out. */
  lemma WriteEffect(start: Cell, s: State, a: Action, s': State)
    requires Inv(start, s) && Do(s, a) == Some(s') && a.Write?
    ensures s.owner == Some(a.tab) && a.tab in s.tabs
    ensures var pc := s.tabs[a.tab].pc;
            if a.outcome.Refused? then s'.cell == s.cell && s'.log == s.log
            else if pc.Arming? then
              s.cell.Absent? && pc.at.marker.InProgress? && s'.cell == Held(pc.at.marker)
              && s'.log == s.log + [Armed(a.tab, pc.at.marker.claim)]
            else
              pc.Sealing? && pc.at.marker.Terminal? && s.cell == Held(InProgress(pc.at.marker.claim))
              && pc.at.marker.phase == pc.phase && (pc.actor.Recovery? ==> pc.phase.Failed?)
              && s'.cell == Held(pc.at.marker) && s'.log == s.log + [Sealed(a.tab, pc.at.marker, pc.actor)]
  {
  }

  /** When recovery writes, no tab is in the middle of a run, and it writes a failure over the
      claim it found. */
  lemma RecoverySealsOnlyAbandonedClaims(start: Cell, s: State, a: Action, s': State, m: Marker)
    requires Reachable(start, s) && Do(s, a) == Some(s') && s'.log == s.log + [Sealed(a.tab, m, Recovery)]
    ensures forall t | t in s.tabs :: !IsLive(s.tabs[t].pc)
    ensures m.Terminal? && m.phase.Failed? && s.cell == Held(InProgress(m.claim)) && s'.cell == Held(m)
  {
    ReachableInv(start, s);
    assert s'.log[|s.log|] == Sealed(a.tab, m, Recovery);
    if a.Write? {
      WriteEffect(start, s, a, s');
    } else if !a.Dispatch? && !a.Observe? && !a.Verify? {
      QuietStep(s, a, s');
    }
  }

  /** One step either keeps the cell, arms an absent one, or ends the claim in it. */
  predicate Advances(before: Cell, after: Cell) {
    || after == before
    || (before.Absent? && after.Held? && after.marker.InProgress?)
    || (before.Held? && before.marker.InProgress? && after.Held? && after.marker.Terminal?
        && after.marker.claim == before.marker.claim)
  }

  lemma StepAdvances(start: Cell, s: State, a: Action, s': State)
    requires Inv(start, s) && Do(s, a) == Some(s')
    ensures Advances(s.cell, s'.cell)
  {
    if a.Write? {
      WriteEffect(start, s, a, s');
    } else {
      assert s'.cell == s.cell by {
        if !a.Dispatch? && !a.Observe? && !a.Verify? {
          QuietStep(s, a, s');
        }
      }
    }
  }

  /** A terminal or unreadable record never changes again. */
  lemma {:induction false} TerminalIsAbsorbing(start: Cell, s: State, actions: seq<Action>, s': State)
    requires Reachable(start, s) && Run(s, actions) == Some(s')
    requires s.cell.Garbage? || (s.cell.Held? && s.cell.marker.Terminal?)
    ensures s'.cell == s.cell
  {
    ReachableInv(start, s);
    StaysPut(start, s, actions, s');
  }

  lemma {:induction false} StaysPut(start: Cell, s: State, actions: seq<Action>, s': State)
    requires Inv(start, s) && Run(s, actions) == Some(s')
    requires s.cell.Garbage? || (s.cell.Held? && s.cell.marker.Terminal?)
    ensures s'.cell == s.cell
    decreases |actions|
  {
    if actions != [] {
      var next := Do(s, actions[0]).value;
      StepKeepsInv(start, s, actions[0], next);
      StepAdvances(start, s, actions[0], next);
      StaysPut(start, next, actions[1..], s');
    }
  }

  /** Where a terminal record comes from: a claim and start time armed in this run (or retained
      from before it); "verified" only after the arming tab had all four calls accepted and the
      verifier accepted the whole, and sealed by that tab; and recovery only ever says "failed". */
  lemma TerminalKeepsItsOrigin(start: Cell, s: State)
    requires Reachable(start, s) && s.cell.Held? && s.cell.marker.Terminal? && s.cell != start
    ensures IsSealed(s.log) && s.log[|s.log| - 1].marker == s.cell.marker
    ensures if start.Absent? then s.log[0].Armed? && s.log[0].claim == s.cell.marker.claim
            else start == Held(InProgress(s.cell.marker.claim))
    ensures s.cell.marker.phase.Verified? ==>
              start.Absent? && s.log[0].Armed?
              && s.log == FullRun(s.log[0].tab, s.cell.marker.claim) + [Sealed(s.log[0].tab, s.cell.marker, Runner)]
    ensures s.log[|s.log| - 1].actor.Recovery? ==> s.cell.marker.phase.Failed?
  {
    ReachableInv(start, s);
    var body := Body(s.log);
    SealedBody(s.log);
    if s.cell.marker.phase.Verified? {
      CompleteBody(start, body);
    }
  }

  lemma SealedBody(log: seq<Event>)
    requires IsSealed(log)
    ensures log == Body(log) + [log[|log| - 1]] && (Body(log) != [] ==> log[0] == Body(log)[0])
  {
  }

  lemma CompleteBody(start: Cell, body: seq<Event>)
    requires OneRun(start, body) && |body| == 10
    ensures start.Absent? && body[0].Armed? && body == FullRun(body[0].tab, body[0].claim)
  {
    var full := FullRun(body[0].tab, body[0].claim);
    assert full[..10] == full;
  }

  predicate SaysVerified(c: Cell) {
    c.Held? && c.marker.Terminal? && c.marker.phase.Verified?
  }

  /** The complete run of this tab, accepted by the verifier, is all there is, and this is the
      write of its seal. */
  predicate SealsVerified(s: State, a: Action) {
    && a.Write? && a.tab in s.tabs
    && var pc := s.tabs[a.tab].pc;
       pc.Sealing? && pc.actor.Runner? && pc.phase.Verified? && pc.at.Decided?
       && s.log == FullRun(a.tab, pc.claim) && s.cell == Held(InProgress(pc.claim))
  }

  /** Exactly one step makes the cell say "verified": the write of the arming tab's own seal, after
      four accepted calls and the verifier's acceptance, and only if the storage took it. If it did
      not, the same complete run ends as failed. */
  lemma StepVerifiesIff(start: Cell, s: State, a: Action, s': State)
    requires Reachable(start, s) && Do(s, a) == Some(s') && !SaysVerified(s.cell)
    ensures SaysVerified(s'.cell) <==> SealsVerified(s, a) && !a.outcome.Refused?
  {
    ReachableInv(start, s);
    if a.Write? {
      WriteEffect(start, s, a, s');
      var pc := s.tabs[a.tab].pc;
      if pc.Sealing? && pc.phase.Verified? {
        assert RunnerSealOk(s, a.tab, pc);
        assert s.log == Body(s.log) == FullRun(a.tab, pc.claim);
      }
    } else if !a.Dispatch? && !a.Observe? && !a.Verify? {
      QuietStep(s, a, s');
    }
  }

  lemma BystanderIsQuiet(s: State, a: Action, s': State)
    requires Do(s, a) == Some(s') && (a.tab in s.tabs ==> !HoldsOwner(s.tabs[a.tab].pc))
    ensures s'.cell == s.cell && s'.log == s.log
  {
    if !a.Write? && !a.Dispatch? && !a.Observe? && !a.Verify? {
      QuietStep(s, a, s');
    }
  }

  /** While a tab holds the owner lock, nobody else can touch the cell, the log, the locks or
      that tab. */
  lemma OwnerWritesAlone(start: Cell, s: State, t: TabId, a: Action, s': State)
    requires Reachable(start, s) && s.owner == Some(t) && a.tab != t && Do(s, a) == Some(s')
    ensures s'.cell == s.cell && s'.log == s.log && s'.owner == s.owner && s'.run == s.run
    ensures t in s.tabs && t in s'.tabs && s'.tabs[t] == s.tabs[t]
  {
    ReachableInv(start, s);
    StepLockEffect(s, a, s');
    BystanderIsQuiet(s, a, s');
  }

  /** The run lock is never contended: whoever waits for it can enter at once. */
  lemma RunLockNeverBlocks(start: Cell, s: State, t: TabId)
    requires Reachable(start, s) && t in s.tabs
    requires (s.tabs[t].pc.Arming? || s.tabs[t].pc.Sealing?) && s.tabs[t].pc.at.Waiting?
    ensures s.run.None? && s.owner == Some(t) && Do(s, EnterRun(t)).Some?
  {
    ReachableInv(start, s);
  }

  function SectionRank(at: Section): nat {
    match at case Waiting => 4 case Inside => 3 case Decided(_) => 2 case Finished(_) => 1
  }

  /** Bounds the steps a tab has left. */
  function Rank(pc: Pc): nat {
    match pc
    case Mounted => 27
    case Preparing => 26
    case Ready => 25
    case Clicked => 24
    case Arming(at) => 19 + SectionRank(at)
    case Running(_, done) => 11 + (if done < CALLS then 2 * (CALLS - done) else 0)
    case Calling(_, done) => 10 + (if done < CALLS then 2 * (CALLS - done) else 2)
    case Failing(_) => 6
    case Sealing(_, phase, _, actor, at) => SectionRank(at) + (if phase.Verified? && actor.Runner? then 6 else 1)
    case Recovering(_, attempt) => if attempt == 0 then 9 else 8
    case Owned(_) => 7
    case Interrupting(_) => 6
    case Recovered(_) => 1
    case Ended => 0
  }

  lemma AfterRunLowersRank(s: State, t: TabId, ok: bool)
    requires t in s.tabs && (s.tabs[t].pc.Arming? || s.tabs[t].pc.Sealing?)
    ensures t in AfterRun(s, t, ok).tabs && Rank(AfterRun(s, t, ok).tabs[t].pc) < Rank(s.tabs[t].pc)
  {
  }

  lemma ThrowLowersRank(s: State, t: TabId, s': State)
    requires t in s.tabs && DoThrow(s, t) == Some(s')
    ensures t in s'.tabs && Rank(s'.tabs[t].pc) < Rank(s.tabs[t].pc)
  {
    var pc := s.tabs[t].pc;
    if (pc.Arming? || pc.Sealing?) && pc.at.Waiting? {
      AfterRunLowersRank(s, t, false);
    }
  }

  lemma SectionStepLowersRank(s: State, a: Action, s': State)
    requires Do(s, a) == Some(s') && (a.EnterRun? || a.Decide? || a.Write? || a.LeaveRun?)
    ensures Rank(s'.tabs[a.tab].pc) < Rank(s.tabs[a.tab].pc)
  {
    if a.LeaveRun? {
      AfterRunLowersRank(s.(run := None), a.tab, s.tabs[a.tab].pc.at.result.Some?);
    }
  }

  lemma CallStepLowersRank(s: State, a: Action, s': State)
    requires Do(s, a) == Some(s') && (a.Dispatch? || a.Observe? || a.Verify? || a.Finish?)
    ensures Rank(s'.tabs[a.tab].pc) < Rank(s.tabs[a.tab].pc)
  {
  }

  lemma OtherStepLowersRank(s: State, a: Action, s': State)
    requires Do(s, a) == Some(s')
    requires a.Crash? || a.Look? || a.Prepare? || a.Click? || a.RequestOwner? || a.Reread?
    ensures Rank(s'.tabs[a.tab].pc) < Rank(s.tabs[a.tab].pc)
  {
  }

  lemma OwnStepLowersRank(s: State, a: Action, s': State)
    requires Do(s, a) == Some(s') && !a.Mount? && !a.Dispose?
    ensures Rank(s'.tabs[a.tab].pc) < Rank(s.tabs[a.tab].pc)
  {
    if a.Throw? {
      ThrowLowersRank(s, a.tab, s');
    } else if a.EnterRun? || a.Decide? || a.Write? || a.LeaveRun? {
      SectionStepLowersRank(s, a, s');
    } else if a.Dispatch? || a.Observe? || a.Verify? || a.Finish? {
      CallStepLowersRank(s, a, s');
    } else {
      OtherStepLowersRank(s, a, s');
    }
  }

  /** A tab's next step when nothing goes wrong. */
  function NextAction(t: TabId, pc: Pc, minted: Claim, now: string, artifact: Record): Action {
    match pc
    case Mounted => Look(t)
    case Preparing => Prepare(t)
    case Ready => Click(t)
    case Clicked => RequestOwner(t)
    case Recovering(_, _) => RequestOwner(t)
    case Running(_, done) => if done < CALLS then Dispatch(t) else Verify(t, artifact)
    case Calling(_, _) => Observe(t, true)
    case Failing(_) => Finish(t, artifact)
    case Interrupting(_) => Finish(t, artifact)
    case Owned(_) => Reread(t)
    case Recovered(_) => Reread(t)
    case Ended => Dispose(t)
    case _ =>
      match pc.at
      case Waiting => EnterRun(t)
      case Inside => Decide(t, Some(minted), now)
      case Decided(_) => Write(t, Stored)
      case Finished(_) => LeaveRun(t)
  }

  lemma NextActionIsEnabled(s: State, t: TabId, minted: Claim, now: string, artifact: Record)
    requires t in s.tabs && !s.tabs[t].pc.Ended?
    requires s.tabs[t].pc.Running? ==> s.tabs[t].pc.done <= CALLS
    requires (s.tabs[t].pc.Arming? || s.tabs[t].pc.Sealing?) && s.tabs[t].pc.at.Waiting? ==> s.run.None?
    ensures Do(s, NextAction(t, s.tabs[t].pc, minted, now, artifact)).Some?
  {
  }

  /** The tab is on its way to end the abandoned claim, with nothing in its way. */
  predicate WillRecover(s: State, t: TabId, c: Claim, now: string, artifact: Record)
    requires t in s.tabs
  {
    var terminal := Terminal(c, Failed, now, artifact);
    match s.tabs[t].pc
    case Mounted => s.owner.None? && s.cell == Held(InProgress(c)) && !s.tabs[t].disposed
    case Recovering(seen, _) => seen == c && s.owner.None? && s.cell == Held(InProgress(c)) && !s.tabs[t].disposed
    case Owned(seen) => seen == c && s.cell == Held(InProgress(c)) && !s.tabs[t].disposed
    case Interrupting(d) => d == c && s.cell == Held(InProgress(c))
    case Sealing(d, phase, art, actor, at) =>
      d == c && phase.Failed? && art == artifact && actor.Recovery? &&
      (match at
       case Decided(m) => m == terminal
       case Finished(r) => r == Some(terminal) && s.cell == Held(terminal)
       case _ => s.cell == Held(InProgress(c)))
    case Recovered(_) => s.cell == Held(terminal)
    case Ended => s.cell == Held(terminal)
    case _ => false
  }

  lemma RecoveryMovesOn(s: State, t: TabId, c: Claim, now: string, artifact: Record, s': State)
    requires t in s.tabs && WillRecover(s, t, c, now, artifact) && !s.tabs[t].pc.Ended?
    requires Do(s, NextAction(t, s.tabs[t].pc, c, now, artifact)) == Some(s')
    ensures t in s'.tabs && WillRecover(s', t, c, now, artifact)
  {
  }

  lemma NextStep(start: Cell, s: State, t: TabId, c: Claim, now: string, artifact: Record)
      returns (a: Action, s': State)
    requires Inv(start, s) && t in s.tabs && !s.tabs[t].pc.Ended?
    ensures a.tab == t && !a.Crash? && !a.Throw? && Do(s, a) == Some(s')
    ensures Inv(start, s') && t in s'.tabs && Rank(s'.tabs[t].pc) < Rank(s.tabs[t].pc)
    ensures WillRecover(s, t, c, now, artifact) ==> WillRecover(s', t, c, now, artifact)
  {
    a := NextAction(t, s.tabs[t].pc, c, now, artifact);
    NextActionIsEnabled(s, t, c, now, artifact);
    s' := Do(s, a).value;
    StepKeepsInv(start, s, a, s');
    StepLockEffect(s, a, s');
    OwnStepLowersRank(s, a, s');
    if WillRecover(s, t, c, now, artifact) {
      RecoveryMovesOn(s, t, c, now, artifact, s');
    }
  }

  lemma RunCons(s: State, a: Action, rest: seq<Action>)
    requires Do(s, a).Some?
    ensures Run(s, [a] + rest) == Run(Do(s, a).value, rest)
  {
    assert ([a] + rest)[1..] == rest;
  }

  /** Only this tab acts, and it neither crashes nor has anything thrown at it. */
  predicate Alone(actions: seq<Action>, t: TabId) {
    forall i | 0 <= i < |actions| :: actions[i].tab == t && !actions[i].Crash? && !actions[i].Throw?
  }

  /** The two locks never deadlock: from every reachable state any tab can run to its end on
      its own, in at most 27 steps. If the cell then holds a claim whose owner is gone, a fresh
      tab that runs so ends that claim. */
  lemma {:induction false} AnyTabCanFinishAlone(start: Cell, s: State, t: TabId, c: Claim, now: string,
                                                artifact: Record)
      returns (actions: seq<Action>, s': State)
    requires Inv(start, s) && t in s.tabs
    ensures Run(s, actions) == Some(s') && t in s'.tabs && s'.tabs[t].pc.Ended?
    ensures |actions| <= Rank(s.tabs[t].pc) <= 27 && Alone(actions, t)
    ensures WillRecover(s, t, c, now, artifact) ==> s'.cell == Held(Terminal(c, Failed, now, artifact))
    decreases Rank(s.tabs[t].pc)
  {
    if s.tabs[t].pc.Ended? {
      return [], s;
    }
    var a, next := NextStep(start, s, t, c, now, artifact);
    var rest, last := AnyTabCanFinishAlone(start, next, t, c, now, artifact);
    RunCons(s, a, rest);
    AloneCons(a, rest, t);
    return [a] + rest, last;
  }

  lemma AloneCons(a: Action, rest: seq<Action>, t: TabId)
    requires a.tab == t && !a.Crash? && !a.Throw? && Alone(rest, t)
    ensures Alone([a] + rest, t) && |[a] + rest| == |rest| + 1
  {
  }

  /** A claim whose owner is gone can be ended by a fresh tab. */
  lemma RecoveryIsPossible(start: Cell, s: State, t: TabId, c: Claim, now: string, artifact: Record)
      returns (actions: seq<Action>, s': State)
    requires Reachable(start, s) && s.owner.None? && s.cell == Held(InProgress(c)) && t !in s.tabs
    ensures Run(s, actions) == Some(s') && Alone(actions, t)
    ensures s'.cell == Held(Terminal(c, Failed, now, artifact))
  {
    ReachableInv(start, s);
    var mounted := Do(s, Mount(t)).value;
    StepKeepsInv(start, s, Mount(t), mounted);
    var rest, last := AnyTabCanFinishAlone(start, mounted, t, c, now, artifact);
    RunCons(s, Mount(t), rest);
    return [Mount(t)] + rest, last;
  }

  // ----- every recovery that is let finish -------------------------------------------------------------

  predicate EndsFailed(cell: Cell, c: Claim) {
    cell.Held? && cell.marker.Terminal? && cell.marker.phase.Failed? && cell.marker.claim == c
  }

  /** The recovering owner is on its way to end this claim, or has ended it. */
  predicate OnItsWay(s: State, t: TabId, c: Claim) {
    && t in s.tabs
    && match s.tabs[t].pc
       case Owned(seen) => seen == c && s.cell == Held(InProgress(c)) && !s.tabs[t].disposed
       case Interrupting(d) => d == c && s.cell == Held(InProgress(c))
       case Sealing(d, phase, _, actor, at) =>
         d == c && phase.Failed? && actor.Recovery? &&
         (match at
          case Finished(r) => r.Some? && EndsFailed(s.cell, c)
          case Decided(m) => s.cell == Held(InProgress(c)) && EndsFailed(Held(m), c)
          case _ => s.cell == Held(InProgress(c)))
       case Recovered(_) => EndsFailed(s.cell, c)
       case Ended => EndsFailed(s.cell, c)
       case _ => false
  }

  /** This tab is not closed, nothing is thrown at it, its writes are stored, and it is not disposed
      before it has looked at the cell under the owner lock. */
  predicate LeavesAlone(s: State, a: Action, t: TabId) {
    a.tab == t ==> !a.Crash? && !a.Throw? && (a.Write? ==> a.outcome.Stored?)
                   && (a.Dispose? ==> t in s.tabs && !s.tabs[t].pc.Owned?)
  }

  predicate LetFinish(s: State, actions: seq<Action>, t: TabId)
    decreases |actions|
  {
    actions == [] || (LeavesAlone(s, actions[0], t)
                      && (Do(s, actions[0]).Some? ==> LetFinish(Do(s, actions[0]).value, actions[1..], t)))
  }

  lemma OwnRecoveryStep(s: State, t: TabId, c: Claim, a: Action, s': State)
    requires OnItsWay(s, t, c) && a.tab == t && LeavesAlone(s, a, t) && Do(s, a) == Some(s')
    ensures OnItsWay(s', t, c)
  {
  }

  /** Another tab's step leaves the recovering tab and the cell alone: the tab holds the owner lock,
      or the cell is terminal already. */
  lemma OtherStepLeavesCell(start: Cell, s: State, t: TabId, c: Claim, a: Action, s': State)
    requires Inv(start, s) && OnItsWay(s, t, c) && a.tab != t && Do(s, a) == Some(s')
    ensures s'.cell == s.cell && t in s'.tabs && s'.tabs[t] == s.tabs[t]
  {
    StepLockEffect(s, a, s');
    if HoldsOwner(s.tabs[t].pc) {
      BystanderIsQuiet(s, a, s');
    } else {
      StepAdvances(start, s, a, s');
    }
  }

  lemma OtherStepLeavesRecovery(start: Cell, s: State, t: TabId, c: Claim, a: Action, s': State)
    requires Inv(start, s) && OnItsWay(s, t, c) && a.tab != t && Do(s, a) == Some(s')
    ensures OnItsWay(s', t, c) && s'.tabs[t] == s.tabs[t]
  {
    OtherStepLeavesCell(start, s, t, c, a, s');
  }

  function OwnSteps(actions: seq<Action>, t: TabId): nat {
    if actions == [] then 0
    else OwnSteps(actions[1..], t) + if actions[0].tab == t && !actions[0].Dispose? then 1 else 0
  }

  /** Every run in which a recovering owner of the claim in the cell is left alone, whatever all
      other tabs do: the claim is on its way to a failed terminal record, is one as soon as the tab
      has ended, and the tab ends within seven steps of its own. */
  lemma {:induction false} AbandonedClaimIsRecovered(start: Cell, s: State, t: TabId, c: Claim, actions: seq<Action>,
                                                     s': State)
    requires Inv(start, s) && OnItsWay(s, t, c) && Run(s, actions) == Some(s') && LetFinish(s, actions, t)
    ensures OnItsWay(s', t, c) && Rank(s'.tabs[t].pc) + OwnSteps(actions, t) <= Rank(s.tabs[t].pc) <= 7
    ensures s'.tabs[t].pc.Ended? || OwnSteps(actions, t) >= 7 ==> EndsFailed(s'.cell, c)
    decreases |actions|
  {
    if actions != [] {
      var a, next := actions[0], Do(s, actions[0]).value;
      StepKeepsInv(start, s, a, next);
      if a.tab == t {
        OwnRecoveryStep(s, t, c, a, next);
        if !a.Dispose? {
          OwnStepLowersRank(s, a, next);
        }
      } else {
        OtherStepLeavesRecovery(start, s, t, c, a, next);
      }
      AbandonedClaimIsRecovered(start, next, t, c, actions[1..], s');
    }
  }

  /** The case of a mounting tab that has just won the owner lock over the claim it saw. */
  lemma MountingTabRecovers(start: Cell, s: State, t: TabId, c: Claim, actions: seq<Action>, s': State)
    requires Reachable(start, s) && t in s.tabs && s.tabs[t] == Tab(Owned(c), false) && s.cell == Held(InProgress(c))
    requires Run(s, actions) == Some(s') && LetFinish(s, actions, t)
    ensures t in s'.tabs && (s'.tabs[t].pc.Ended? || OwnSteps(actions, t) >= 7 ==> EndsFailed(s'.cell, c))
  {
    ReachableInv(start, s);
    AbandonedClaimIsRecovered(start, s, t, c, actions, s');
  }
}
