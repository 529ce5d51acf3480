/** How a run is recorded: from the actions of the tab that arms it, whatever all other tabs do. */
module RunLockCourse {
  import opened Prelude
  import opened RunLockMarkers
  import opened RunLockProtocol
  import opened RunLockTheorems

  /** At which step of its request the verified seal fails to be stored. */
  datatype Obstacle = NoLock | NoRead | NotStored(minted: Option<Claim>, at: string)

  /** How the calls come to an end. */
  datatype Turn =
    | Approved                                      // four calls and the whole transcript are accepted
    | Rejected                                      // the call after the accepted ones is not
    | Broken(sent: bool)                            // something is thrown, with or without a call under way
    | Unsealed(receipt: Record, obstacle: Obstacle)       // all is accepted, and the verified seal is not stored

  /** What the page puts into its run, and what it meets: the claim, how many calls are accepted, how
      they come to an end, and the artifact and time of the terminal record. */
  datatype Course = Course(claim: Claim, armedAt: string, calls: nat, turn: Turn, artifact: Record,
                           minted: Option<Claim>, sealedAt: string)

  predicate CourseOk(p: Course) {
    && p.calls <= CALLS
    && (p.turn.Approved? || p.turn.Unsealed? ==> p.calls == CALLS)
    && (p.turn.Rejected? || (p.turn.Broken? && p.turn.sent) ==> p.calls < CALLS)
  }

  /** From opening the page to the first call. */
  function Opening(t: TabId, p: Course): (r: seq<Action>)
    ensures |r| == 9
  {
    [Mount(t), Look(t), Prepare(t), Click(t), RequestOwner(t), EnterRun(t), Decide(t, Some(p.claim), p.armedAt),
     Write(t, Stored), LeaveRun(t)]
  }

  /** What goes wrong after the accepted calls. */
  function Trouble(t: TabId, turn: Turn): seq<Action> {
    match turn
    case Approved => []
    case Rejected => [Dispatch(t), Observe(t, false)]
    case Broken(sent) => if sent then [Dispatch(t), Throw(t)] else [Throw(t)]
    case Unsealed(receipt, obstacle) =>
      match obstacle
      case NoLock => [Verify(t, receipt), Throw(t)]
      case NoRead => [Verify(t, receipt), EnterRun(t), Throw(t), LeaveRun(t)]
      case NotStored(minted, at) =>
        [Verify(t, receipt), EnterRun(t), Decide(t, minted, at), Write(t, Refused), LeaveRun(t)]
  }

  /** The last section: the artifact, and its record. */
  function Closing(t: TabId, p: Course): (r: seq<Action>)
    ensures |r| == 5
  {
    [if p.turn.Approved? then Verify(t, p.artifact) else Finish(t, p.artifact), EnterRun(t),
     Decide(t, p.minted, p.sealedAt), Write(t, Stored), LeaveRun(t)]
  }

  function AfterCalls(p: Course): nat {
    9 + 2 * p.calls
  }

  function BeforeClosing(p: Course): nat {
    AfterCalls(p) + |Trouble(0, p.turn)|
  }

  function Length(p: Course): nat {
    BeforeClosing(p) + 5
  }

  lemma SameTrouble(t: TabId, turn: Turn)
    ensures |Trouble(t, turn)| == |Trouble(0, turn)|
  {
  }

  /** The actions of the tab, one after the other. */
  function ActionAt(t: TabId, p: Course, i: nat): Action
    requires i < Length(p)
  {
    SameTrouble(t, p.turn);
    if i < 9 then Opening(t, p)[i]
    else if i < AfterCalls(p) then if i % 2 == 1 then Dispatch(t) else Observe(t, true)
    else if i < BeforeClosing(p) then Trouble(t, p.turn)[i - AfterCalls(p)]
    else Closing(t, p)[i - BeforeClosing(p)]
  }

  predicate IsOwn(a: Action, t: TabId) {
    a.tab == t && !a.Dispose?
  }

  /** Of all these actions, those of this tab are the course's, in order, from its `n`-th on. */
  predicate Performs(actions: seq<Action>, t: TabId, p: Course, n: nat)
    decreases |actions|
  {
    actions == [] ||
    if IsOwn(actions[0], t) then n < Length(p) && actions[0] == ActionAt(t, p, n) && Performs(actions[1..], t, p, n + 1)
    else Performs(actions[1..], t, p, n)
  }

  /** The record that the course comes to. */
  function RecordOf(p: Course): Cell {
    Held(Terminal(p.claim, if p.turn.Approved? then Verified else Failed, p.sealedAt, p.artifact))
  }

  // ----- where the tab stands ---------------------------------------------------------------------

  predicate ArmedBy(log: seq<Event>, t: TabId) {
    log != [] && log[0].Armed? && log[0].tab == t
  }

  /** Before the claim is stored. */
  predicate StandsOpening(s: State, t: TabId, p: Course, n: nat)
    requires t in s.tabs && 1 <= n < 8
  {
    var pc := s.tabs[t].pc;
    && !ArmedBy(s.log, t)
    && (n >= 5 ==> s.cell.Absent?)
    && pc == if n == 1 then Mounted else if n == 2 then Pc.Preparing else if n == 3 then Pc.Ready else if n == 4 then Clicked
             else if n == 5 then Arming(Waiting) else if n == 6 then Arming(Inside)
             else Arming(Decided(InProgress(p.claim)))
  }

  function TroublePc(p: Course, o: nat): Pc {
    match p.turn
    case Unsealed(receipt, obstacle) =>
      Sealing(p.claim, Verified, receipt, Runner,
              if o <= 1 then Waiting else if o == 2 then Inside
              else if o == 3 && obstacle.NotStored? then Decided(Terminal(p.claim, Verified, obstacle.at, receipt)) else Finished(None))
    case _ => Calling(p.claim, p.calls)
  }

  /** From the stored claim to the last section. */
  function RunningPc(p: Course, n: nat): Pc
    requires 8 <= n <= BeforeClosing(p)
  {
    if n == 8 then Arming(Finished(Some(InProgress(p.claim))))
    else if n <= AfterCalls(p) then
      if n % 2 == 1 then Running(p.claim, (n - 9) / 2) else Calling(p.claim, (n - 9) / 2)
    else if n < BeforeClosing(p) then TroublePc(p, n - AfterCalls(p))
    else Failing(p.claim)
  }

  function ClosingPc(p: Course, o: nat): Pc
    requires 1 <= o <= 5
  {
    var phase := if p.turn.Approved? then Verified else Failed;
    var m := Terminal(p.claim, phase, p.sealedAt, p.artifact);
    if o == 5 then Pc.Ended
    else Sealing(p.claim, phase, p.artifact, Runner,
                 if o == 1 then Waiting else if o == 2 then Inside else if o == 3 then Decided(m) else Finished(Some(m)))
  }

  /** The tab has done the first `n` actions of the course. */
  predicate Stands(s: State, t: TabId, p: Course, n: nat) {
    if n == 0 then t !in s.tabs && !ArmedBy(s.log, t)
    else
      && t in s.tabs && n <= Length(p)
      && if n < 8 then StandsOpening(s, t, p, n)
         else if n <= BeforeClosing(p) then s.tabs[t].pc == RunningPc(p, n) && s.cell == Held(InProgress(p.claim))
         else s.tabs[t].pc == ClosingPc(p, n - BeforeClosing(p))
              && s.cell == if n - BeforeClosing(p) < 4 then Held(InProgress(p.claim)) else RecordOf(p)
  }

  /** Nobody is in this tab's way: when it looks, and when it asks for the owner lock, the cell is
      absent, and the lock is free. */
  predicate Free(s: State, a: Action, t: TabId) {
    a.tab == t ==> (a.Look? || a.RequestOwner? ==> s.cell.Absent?) && (a.RequestOwner? ==> s.owner.None?)
  }

  predicate Unhindered(s: State, actions: seq<Action>, t: TabId)
    decreases |actions|
  {
    actions == [] || (Free(s, actions[0], t)
                      && (Do(s, actions[0]).Some? ==> Unhindered(Do(s, actions[0]).value, actions[1..], t)))
  }

  // ----- one action of the course --------------------------------------------------------------------

  lemma OpeningStep(s: State, t: TabId, p: Course, n: nat, s': State)
    requires CourseOk(p) && n < 8 && Stands(s, t, p, n) && Do(s, ActionAt(t, p, n)) == Some(s')
    requires Free(s, ActionAt(t, p, n), t)
    ensures Stands(s', t, p, n + 1)
  {
  }

  lemma CallStep(s: State, t: TabId, p: Course, n: nat, s': State)
    requires CourseOk(p) && 8 <= n < AfterCalls(p) && Stands(s, t, p, n) && Do(s, ActionAt(t, p, n)) == Some(s')
    ensures Stands(s', t, p, n + 1)
  {
  }

  lemma ThrownUnsealedStep(s: State, t: TabId, p: Course, n: nat, s': State)
    requires CourseOk(p) && p.turn.Unsealed? && !p.turn.obstacle.NotStored? && AfterCalls(p) <= n < BeforeClosing(p)
    requires Stands(s, t, p, n) && Do(s, ActionAt(t, p, n)) == Some(s')
    ensures Stands(s', t, p, n + 1)
  {
  }

  lemma NotStoredStep(s: State, t: TabId, p: Course, n: nat, s': State)
    requires CourseOk(p) && p.turn.Unsealed? && p.turn.obstacle.NotStored? && AfterCalls(p) <= n < BeforeClosing(p)
    requires Stands(s, t, p, n) && Do(s, ActionAt(t, p, n)) == Some(s')
    ensures Stands(s', t, p, n + 1)
  {
  }

  lemma TroubleStep(s: State, t: TabId, p: Course, n: nat, s': State)
    requires CourseOk(p) && AfterCalls(p) <= n < BeforeClosing(p) && Stands(s, t, p, n)
    requires Do(s, ActionAt(t, p, n)) == Some(s')
    ensures Stands(s', t, p, n + 1)
  {
    match p.turn
    case Approved =>
    case Rejected =>
    case Broken(_) =>
    case Unsealed(_, obstacle) =>
      if obstacle.NotStored? {
        NotStoredStep(s, t, p, n, s');
      } else {
        ThrownUnsealedStep(s, t, p, n, s');
      }
  }

  lemma ClosingStep(s: State, t: TabId, p: Course, n: nat, s': State)
    requires CourseOk(p) && BeforeClosing(p) <= n < Length(p) && Stands(s, t, p, n)
    requires Do(s, ActionAt(t, p, n)) == Some(s')
    ensures Stands(s', t, p, n + 1)
  {
  }

  lemma CourseStep(s: State, t: TabId, p: Course, n: nat, s': State)
    requires CourseOk(p) && n < Length(p) && Stands(s, t, p, n) && Do(s, ActionAt(t, p, n)) == Some(s')
    requires Free(s, ActionAt(t, p, n), t)
    ensures Stands(s', t, p, n + 1)
  {
    if n < 8 {
      OpeningStep(s, t, p, n, s');
    } else if n < AfterCalls(p) {
      CallStep(s, t, p, n, s');
    } else if n < BeforeClosing(p) {
      TroubleStep(s, t, p, n, s');
    } else {
      ClosingStep(s, t, p, n, s');
    }
  }

  lemma CanEnter(s: State, t: TabId)
    requires Inv(Absent, s) && t in s.tabs
    ensures (s.tabs[t].pc.Arming? || s.tabs[t].pc.Sealing?) && s.tabs[t].pc.at.Waiting? ==> s.run.None?
  {
  }

  /** Possible as far as the tab's own place in the course goes: only entering the run lock depends on
      anyone else. */
  predicate RunIsFree(s: State, t: TabId) {
    t in s.tabs && (s.tabs[t].pc.Arming? || s.tabs[t].pc.Sealing?) && s.tabs[t].pc.at.Waiting? ==> s.run.None?
  }

  lemma OpeningNeverSticks(s: State, t: TabId, p: Course, n: nat)
    requires RunIsFree(s, t) && CourseOk(p) && n < AfterCalls(p) && Stands(s, t, p, n)
    ensures Do(s, ActionAt(t, p, n)).Some?
  {
  }

  lemma TroubleNeverSticks(s: State, t: TabId, p: Course, n: nat)
    requires RunIsFree(s, t) && CourseOk(p) && AfterCalls(p) <= n < BeforeClosing(p) && Stands(s, t, p, n)
    ensures Do(s, ActionAt(t, p, n)).Some?
  {
  }

  lemma ClosingNeverSticks(s: State, t: TabId, p: Course, n: nat)
    requires RunIsFree(s, t) && CourseOk(p) && BeforeClosing(p) <= n < Length(p) && Stands(s, t, p, n)
    ensures Do(s, ActionAt(t, p, n)).Some?
  {
  }

  lemma CourseNeverSticks(s: State, t: TabId, p: Course, n: nat)
    requires Inv(Absent, s) && CourseOk(p) && n < Length(p) && Stands(s, t, p, n)
    ensures Do(s, ActionAt(t, p, n)).Some?
  {
    if t in s.tabs {
      CanEnter(s, t);
    }
    if n < AfterCalls(p) {
      OpeningNeverSticks(s, t, p, n);
    } else if n < BeforeClosing(p) {
      TroubleNeverSticks(s, t, p, n);
    } else {
      ClosingNeverSticks(s, t, p, n);
    }
  }

  // ----- what everybody else does --------------------------------------------------------------------

  /** A step adds at most one event, and its own. */
  lemma StepLog(s: State, a: Action, s': State)
    requires Do(s, a) == Some(s')
    ensures s'.log == s.log || (|s'.log| == |s.log| + 1 && s'.log[..|s.log|] == s.log && s'.log[|s.log|].tab == a.tab)
  {
    if !a.Write? && !a.Dispatch? && !a.Observe? && !a.Verify? {
      QuietStep(s, a, s');
    }
  }

  /** The log has grown, if at all, by what others did. */
  predicate GrewByOthers(log: seq<Event>, log': seq<Event>, t: TabId) {
    && |log| <= |log'| && (forall i | 0 <= i < |log| :: log'[i] == log[i])
    && forall i | |log| <= i < |log'| :: log'[i].tab != t
  }

  lemma OthersLog(s: State, t: TabId, a: Action, s': State)
    requires Do(s, a) == Some(s') && a.tab != t
    ensures GrewByOthers(s.log, s'.log, t)
  {
    StepLog(s, a, s');
    if |s'.log| > |s.log| {
      forall i | 0 <= i < |s.log| ensures s'.log[i] == s.log[i] {
        assert s'.log[i] == s'.log[..|s.log|][i];
      }
    }
  }

  /** What another tab's step can do, seen from this tab. */
  lemma OthersEffect(start: Cell, s: State, t: TabId, a: Action, s': State)
    requires Inv(start, s) && a.tab != t && Do(s, a) == Some(s')
    ensures (t in s'.tabs <==> t in s.tabs) && (t in s.tabs ==> s'.tabs[t] == s.tabs[t])
    ensures GrewByOthers(s.log, s'.log, t) && Advances(s.cell, s'.cell)
  {
    StepLockEffect(s, a, s');
    OthersLog(s, t, a, s');
    StepAdvances(start, s, a, s');
  }

  /** All that the tab's place in its course depends on. */
  predicate SameFor(s: State, s': State, t: TabId, n: nat) {
    && (t in s'.tabs <==> t in s.tabs)
    && (t in s.tabs ==> s'.tabs[t].pc == s.tabs[t].pc)
    && (n < 8 ==> (ArmedBy(s'.log, t) ==> ArmedBy(s.log, t)))
    && (n >= 5 ==> s'.cell == s.cell)
  }

  lemma SamePlace(s: State, s': State, t: TabId, p: Course, n: nat)
    requires Stands(s, t, p, n) && SameFor(s, s', t, n)
    ensures Stands(s', t, p, n)
  {
  }

  lemma StandingHoldsOwner(s: State, t: TabId, p: Course, n: nat)
    requires CourseOk(p) && Stands(s, t, p, n) && n >= 5
    ensures n == Length(p) || HoldsOwner(s.tabs[t].pc)
    ensures n == Length(p) ==> s.cell.Held? && s.cell.marker.Terminal?
  {
  }

  /** Past the owner lock nobody else touches the cell, and a terminal record is final. */
  lemma CellIsSafe(s: State, t: TabId, p: Course, n: nat, a: Action, s': State)
    requires Inv(Absent, s) && CourseOk(p) && Stands(s, t, p, n) && n >= 5 && a.tab != t && Do(s, a) == Some(s')
    ensures s'.cell == s.cell
  {
    StandingHoldsOwner(s, t, p, n);
    if n == Length(p) {
      StepAdvances(Absent, s, a, s');
    } else {
      BystanderIsQuiet(s, a, s');
    }
  }

  lemma OtherTabsStep(s: State, t: TabId, p: Course, n: nat, a: Action, s': State)
    requires Inv(Absent, s) && CourseOk(p) && Stands(s, t, p, n) && a.tab != t && Do(s, a) == Some(s')
    ensures SameFor(s, s', t, n)
  {
    OthersEffect(Absent, s, t, a, s');
    if n >= 5 {
      CellIsSafe(s, t, p, n, a, s');
    }
  }

  /** Another tab's step, or this tab's disposal, leaves this tab's place in its course alone. */
  lemma OtherStepInCourse(s: State, t: TabId, p: Course, n: nat, a: Action, s': State)
    requires Inv(Absent, s) && CourseOk(p) && Stands(s, t, p, n) && !IsOwn(a, t) && Do(s, a) == Some(s')
    ensures Stands(s', t, p, n)
  {
    if a.tab != t {
      OtherTabsStep(s, t, p, n, a, s');
    }
    SamePlace(s, s', t, p, n);
  }

  lemma CourseMovesOn(s: State, t: TabId, p: Course, n: nat, a: Action, next: State)
    requires Inv(Absent, s) && CourseOk(p) && Stands(s, t, p, n) && Do(s, a) == Some(next) && Free(s, a, t)
    requires IsOwn(a, t) ==> n < Length(p) && a == ActionAt(t, p, n)
    ensures Inv(Absent, next) && Stands(next, t, p, if IsOwn(a, t) then n + 1 else n)
  {
    StepKeepsInv(Absent, s, a, next);
    if IsOwn(a, t) {
      CourseStep(s, t, p, n, next);
    } else {
      OtherStepInCourse(s, t, p, n, a, next);
    }
  }

  lemma {:induction false} CourseRun(s: State, actions: seq<Action>, s': State, t: TabId, p: Course, n: nat, end: nat)
    requires Inv(Absent, s) && CourseOk(p) && Stands(s, t, p, n) && Run(s, actions) == Some(s')
    requires Performs(actions, t, p, n) && Unhindered(s, actions, t) && end == n + OwnSteps(actions, t)
    ensures Stands(s', t, p, end)
    decreases |actions|
  {
    if actions != [] {
      var next, m := FirstAction(s, actions, s', t, p, n);
      CourseMovesOn(s, t, p, n, actions[0], next);
      CourseRun(next, actions[1..], s', t, p, m, end);
    }
  }

  lemma FirstAction(s: State, actions: seq<Action>, s': State, t: TabId, p: Course, n: nat)
      returns (next: State, m: nat)
    requires actions != [] && Run(s, actions) == Some(s') && Performs(actions, t, p, n) && Unhindered(s, actions, t)
    ensures Do(s, actions[0]) == Some(next) && Run(next, actions[1..]) == Some(s')
    ensures Free(s, actions[0], t) && Unhindered(next, actions[1..], t)
    ensures IsOwn(actions[0], t) ==> n < Length(p) && actions[0] == ActionAt(t, p, n)
    ensures m == (if IsOwn(actions[0], t) then n + 1 else n) && Performs(actions[1..], t, p, m)
    ensures m + OwnSteps(actions[1..], t) == n + OwnSteps(actions, t)
  {
    next, m := Do(s, actions[0]).value, if IsOwn(actions[0], t) then n + 1 else n;
  }

  /** In every run in which a tab is unhindered and does what its course says, whatever all other
      tabs do: its next action is always possible, and once it has done them all, the cell holds the
      record the course comes to. That is "verified" with the verifier's receipt when all was
      accepted and stored, and "failed" with the failure's artifact when a call was rejected,
      something was thrown, or the verified seal could not be stored. */
  lemma CourseIsRecorded(actions: seq<Action>, s: State, t: TabId, p: Course)
    requires CourseOk(p) && Run(Start(Absent), actions) == Some(s)
    requires Performs(actions, t, p, 0) && Unhindered(Start(Absent), actions, t)
    ensures var n := OwnSteps(actions, t);
            && n <= Length(p)
            && (n < Length(p) ==> Do(s, ActionAt(t, p, n)).Some?)
            && (n == Length(p) ==> s.cell == RecordOf(p) && t in s.tabs && s.tabs[t].pc.Ended?)
  {
    var n := OwnSteps(actions, t);
    CourseRun(Start(Absent), actions, s, t, p, 0, n);
    RunKeepsInv(Absent, Start(Absent), actions, s);
    if n < Length(p) {
      CourseNeverSticks(s, t, p, n);
    }
  }

  // ----- every armed run has a course ------------------------------------------------------------------

  /** The tab is not closed, nothing is thrown at it, its writes are stored, and it gets a claim id. */
  predicate Untroubled(a: Action, t: TabId) {
    a.tab == t ==> !a.Crash? && !a.Throw? && (a.Write? ==> a.outcome.Stored?) && (a.Decide? ==> a.minted.Some?)
  }

  predicate AllUntroubled(actions: seq<Action>, t: TabId) {
    forall i | 0 <= i < |actions| :: Untroubled(actions[i], t)
  }

  predicate Agree(t: TabId, p: Course, q: Course, n: nat) {
    && n <= Length(p) && n <= Length(q)
    && forall i | 0 <= i < n :: ActionAt(t, p, i) == ActionAt(t, q, i)
  }

  /** What is known of the course after `n` actions: a call may still be rejected until all four are
      accepted. */
  predicate Guess(p: Course, n: nat) {
    CourseOk(p) && (p.turn.Approved? || (p.turn.Rejected? && n >= BeforeClosing(p)))
  }

  /** The tab will not arm: it recovers, it found the cell taken, or it has ended. */
  predicate OffCourse(s: State, t: TabId) {
    && t in s.tabs && !ArmedBy(s.log, t)
    && match s.tabs[t].pc
       case Recovering(_, _) => true
       case Owned(_) => true
       case Interrupting(_) => true
       case Recovered(_) => true
       case Ended => true
       case Sealing(_, _, _, actor, _) => actor.Recovery?
       case Arming(at) => !s.cell.Absent? && !at.Decided?
                          && (at.Finished? ==> at.result.None?)
       case _ => false
  }

  lemma OffCourseStays(s: State, t: TabId, a: Action, s': State)
    requires Inv(Absent, s) && OffCourse(s, t) && Do(s, a) == Some(s') && Untroubled(a, t)
    ensures OffCourse(s', t)
  {
    if a.tab == t {
      OwnStepOffCourse(s, t, a, s');
    } else {
      OtherStepOffCourse(s, t, a, s');
    }
  }

  lemma OtherStepOffCourse(s: State, t: TabId, a: Action, s': State)
    requires Inv(Absent, s) && OffCourse(s, t) && a.tab != t && Do(s, a) == Some(s')
    ensures OffCourse(s', t)
  {
    OthersEffect(Absent, s, t, a, s');
    StillOffCourse(s, t, s');
  }

  lemma StillOffCourse(s: State, t: TabId, s': State)
    requires OffCourse(s, t) && t in s'.tabs && s'.tabs[t] == s.tabs[t] && !ArmedBy(s'.log, t)
    requires s'.cell.Absent? ==> s.cell.Absent?
    ensures OffCourse(s', t)
  {
  }

  lemma OwnStepOffCourse(s: State, t: TabId, a: Action, s': State)
    requires OffCourse(s, t) && a.tab == t && Do(s, a) == Some(s') && Untroubled(a, t)
    ensures OffCourse(s', t)
  {
  }

  /** If somebody is in its way, the tab leaves its course. */
  lemma HinderedLeavesCourse(s: State, t: TabId, p: Course, n: nat, a: Action, s': State)
    requires CourseOk(p) && Stands(s, t, p, n) && IsOwn(a, t) && Untroubled(a, t) && Do(s, a) == Some(s') && !Free(s, a, t)
    ensures OffCourse(s', t)
  {
  }

  /** What the tab does next tells more of its course. */
  lemma ChooseOpening(s: State, t: TabId, p: Course, n: nat, a: Action) returns (q: Course)
    requires Guess(p, n) && n < 8 && Stands(s, t, p, n) && IsOwn(a, t) && Untroubled(a, t) && Do(s, a).Some?
    ensures Guess(q, n) && n < Length(q) && ActionAt(t, q, n) == a && Stands(s, t, q, n) && Agree(t, p, q, n)
  {
    q := if n == 6 then p.(claim := a.minted.value, armedAt := a.now) else p;
  }

  lemma ChooseCall(s: State, t: TabId, p: Course, n: nat, a: Action) returns (q: Course)
    requires Guess(p, n) && 8 <= n < AfterCalls(p) && Stands(s, t, p, n) && IsOwn(a, t) && Untroubled(a, t)
    requires Do(s, a).Some?
    ensures Guess(q, n + 1) && n < Length(q) && ActionAt(t, q, n) == a && Stands(s, t, q, n) && Agree(t, p, q, n)
  {
    q := if a == Observe(t, false) then p.(calls := (n - 10) / 2, turn := Rejected) else p;
  }

  lemma ChooseArtifact(s: State, t: TabId, p: Course, n: nat, a: Action) returns (q: Course)
    requires Guess(p, n) && BeforeClosing(p) == n && Stands(s, t, p, n) && IsOwn(a, t) && Untroubled(a, t)
    requires Do(s, a).Some?
    ensures Guess(q, n) && n < Length(q) && ActionAt(t, q, n) == a && Stands(s, t, q, n) && Agree(t, p, q, n)
  {
    q := p.(artifact := a.artifact);
  }

  lemma ChooseClosing(s: State, t: TabId, p: Course, n: nat, a: Action) returns (q: Course)
    requires Guess(p, n) && BeforeClosing(p) < n && Stands(s, t, p, n) && IsOwn(a, t) && Untroubled(a, t)
    requires Do(s, a).Some?
    ensures Guess(q, n) && n < Length(q) && ActionAt(t, q, n) == a && Stands(s, t, q, n) && Agree(t, p, q, n)
  {
    q := if n == BeforeClosing(p) + 2 then p.(minted := a.minted, sealedAt := a.now) else p;
  }

  lemma Choose(s: State, t: TabId, p: Course, n: nat, a: Action) returns (q: Course)
    requires Guess(p, n) && Stands(s, t, p, n) && IsOwn(a, t) && Untroubled(a, t) && Do(s, a).Some?
    ensures Guess(q, n + 1) && n < Length(q) && ActionAt(t, q, n) == a && Stands(s, t, q, n) && Agree(t, p, q, n)
  {
    if n < 8 {
      q := ChooseOpening(s, t, p, n, a);
    } else if n < AfterCalls(p) {
      q := ChooseCall(s, t, p, n, a);
    } else if n == BeforeClosing(p) {
      q := ChooseArtifact(s, t, p, n, a);
    } else {
      q := ChooseClosing(s, t, p, n, a);
    }
  }

  /** From its `n`-th action on the tab does what this course says, which agrees with what was known. */
  predicate Fulfils(actions: seq<Action>, t: TabId, p: Course, q: Course, n: nat, end: State) {
    && Guess(q, n + OwnSteps(actions, t)) && Agree(t, p, q, n) && Performs(actions, t, q, n)
    && Stands(end, t, q, n + OwnSteps(actions, t))
  }

  lemma FulfilsNothing(t: TabId, p: Course, n: nat, s: State)
    requires Guess(p, n) && Stands(s, t, p, n)
    ensures Fulfils([], t, p, p, n, s)
  {
  }

  lemma FulfilsFromOwn(actions: seq<Action>, t: TabId, p: Course, p1: Course, q: Course, n: nat, end: State)
    requires actions != [] && IsOwn(actions[0], t) && n < Length(p1) && ActionAt(t, p1, n) == actions[0]
    requires Agree(t, p, p1, n) && Fulfils(actions[1..], t, p1, q, n + 1, end)
    ensures Fulfils(actions, t, p, q, n, end)
  {
    assert ActionAt(t, p1, n) == ActionAt(t, q, n);
  }

  lemma FulfilsFromOther(actions: seq<Action>, t: TabId, p: Course, q: Course, n: nat, end: State)
    requires actions != [] && !IsOwn(actions[0], t) && Fulfils(actions[1..], t, p, q, n, end)
    ensures Fulfils(actions, t, p, q, n, end)
  {
  }

  lemma UntroubledTail(actions: seq<Action>, t: TabId)
    requires actions != [] && AllUntroubled(actions, t)
    ensures Untroubled(actions[0], t) && AllUntroubled(actions[1..], t)
  {
  }

  /** One action of any tab, seen from this tab's course. */
  lemma CourseGoesOn(s: State, t: TabId, p: Course, n: nat, a: Action, next: State) returns (p1: Course)
    requires Inv(Absent, s) && Guess(p, n) && Stands(s, t, p, n) && Untroubled(a, t) && Do(s, a) == Some(next)
    ensures !OffCourse(next, t) ==>
              if IsOwn(a, t) then
                Guess(p1, n + 1) && Stands(next, t, p1, n + 1) && Agree(t, p, p1, n)
                && n < Length(p1) && ActionAt(t, p1, n) == a
              else p1 == p && Stands(next, t, p, n)
    ensures Inv(Absent, next)
  {
    StepKeepsInv(Absent, s, a, next);
    p1 := p;
    if !IsOwn(a, t) {
      OtherStepInCourse(s, t, p, n, a, next);
    } else if !Free(s, a, t) {
      HinderedLeavesCourse(s, t, p, n, a, next);
    } else {
      p1 := Choose(s, t, p, n, a);
      CourseStep(s, t, p1, n, next);
    }
  }

  lemma {:induction false} CourseOfRun(s: State, actions: seq<Action>, s': State, t: TabId, p: Course, n: nat)
      returns (q: Course)
    requires Inv(Absent, s) && Guess(p, n) && Stands(s, t, p, n) && Run(s, actions) == Some(s') && AllUntroubled(actions, t)
    ensures OffCourse(s', t) || Fulfils(actions, t, p, q, n, s')
    decreases |actions|
  {
    q := p;
    if actions == [] {
      FulfilsNothing(t, p, n, s);
      return;
    }
    var a, next := actions[0], Do(s, actions[0]).value;
    UntroubledTail(actions, t);
    var p1 := CourseGoesOn(s, t, p, n, a, next);
    if OffCourse(next, t) {
      OffCourseToTheEnd(next, actions[1..], s', t);
      return;
    }
    q := CourseOfRun(next, actions[1..], s', t, p1, if IsOwn(a, t) then n + 1 else n);
    if !OffCourse(s', t) {
      if IsOwn(a, t) {
        FulfilsFromOwn(actions, t, p, p1, q, n, s');
      } else {
        FulfilsFromOther(actions, t, p, q, n, s');
      }
    }
  }

  lemma {:induction false} OffCourseToTheEnd(s: State, actions: seq<Action>, s': State, t: TabId)
    requires Inv(Absent, s) && OffCourse(s, t) && Run(s, actions) == Some(s') && AllUntroubled(actions, t)
    ensures OffCourse(s', t)
    decreases |actions|
  {
    if actions != [] {
      var next := Do(s, actions[0]).value;
      StepKeepsInv(Absent, s, actions[0], next);
      OffCourseStays(s, t, actions[0], next);
      OffCourseToTheEnd(next, actions[1..], s', t);
    }
  }

  /** Every run from an absent cell in which the tab that armed it is not closed, has nothing thrown at
      it and its writes stored, whatever all other tabs do: what that tab did is one whole course,
      with all four calls accepted or one rejected, and once the tab has ended the cell says so with
      the artifact of the verifier, or of the failure. */
  lemma ArmedRunIsRecorded(actions: seq<Action>, s: State, t: TabId, c: Claim) returns (p: Course)
    requires Run(Start(Absent), actions) == Some(s) && AllUntroubled(actions, t)
    requires s.log != [] && s.log[0] == Armed(t, c) && t in s.tabs && s.tabs[t].pc.Ended?
    ensures CourseOk(p) && p.claim == c && (p.turn.Approved? || p.turn.Rejected?)
    ensures Performs(actions, t, p, 0) && OwnSteps(actions, t) == Length(p)
    ensures s.cell == Held(Terminal(c, if p.turn.Approved? then Verified else Failed, p.sealedAt, p.artifact))
    ensures p.turn.Rejected? <==> Observe(t, false) in actions
  {
    var unknown := Course(c, "", CALLS, Turn.Approved, map[], None, "");
    p := CourseOfRun(Start(Absent), actions, s, t, unknown, 0);
    EndedCourse(s, t, p, OwnSteps(actions, t));
    RunKeepsInv(Absent, Start(Absent), actions, s);
    ClaimInCell(s, c);
    RejectionShows(actions, t, p, 0);
  }

  lemma EndedCourse(s: State, t: TabId, p: Course, n: nat)
    requires CourseOk(p) && Stands(s, t, p, n) && t in s.tabs && s.tabs[t].pc.Ended?
    ensures n == Length(p) && s.cell == RecordOf(p)
  {
  }

  /** A terminal record carries the claim that was armed. */
  lemma ClaimInCell(s: State, c: Claim)
    requires Inv(Absent, s) && s.log != [] && s.log[0].Armed? && s.log[0].claim == c && s.cell.Held?
    ensures s.cell.marker.claim == c
  {
    if IsSealed(s.log) {
      SealedBody(s.log);
    }
  }

  lemma {:induction false} RejectionShows(actions: seq<Action>, t: TabId, p: Course, n: nat)
    requires CourseOk(p) && (p.turn.Approved? || p.turn.Rejected?) && n <= Length(p) && Performs(actions, t, p, n)
    requires n + OwnSteps(actions, t) == Length(p)
    ensures p.turn.Rejected? && n < BeforeClosing(p) <==> Observe(t, false) in actions
    decreases |actions|
  {
    if actions != [] {
      RejectionShows(actions[1..], t, p, if IsOwn(actions[0], t) then n + 1 else n);
      if IsOwn(actions[0], t) {
        RejectionIsOneAction(t, p, n);
      }
    }
  }

  lemma RejectionIsOneAction(t: TabId, p: Course, n: nat)
    requires CourseOk(p) && (p.turn.Approved? || p.turn.Rejected?) && n < Length(p)
    ensures ActionAt(t, p, n) == Observe(t, false) <==> p.turn.Rejected? && n == BeforeClosing(p) - 1
  {
  }

  // ----- a recovery that finds the lock taken ------------------------------------------------------------

  predicate NotMine(actions: seq<Action>, t: TabId) {
    forall i | 0 <= i < |actions| :: actions[i].tab != t
  }

  lemma {:induction false} OthersLeaveTab(start: Cell, s: State, actions: seq<Action>, s': State, t: TabId)
    requires Inv(start, s) && t in s.tabs && Run(s, actions) == Some(s') && NotMine(actions, t)
    ensures t in s'.tabs && s'.tabs[t] == s.tabs[t]
    decreases |actions|
  {
    if actions != [] {
      var next := Do(s, actions[0]).value;
      StepKeepsInv(start, s, actions[0], next);
      StepLockEffect(s, actions[0], next);
      OthersLeaveTab(start, next, actions[1..], s', t);
    }
  }

  /** What asking for the owner lock comes to for a tab that has found this claim. */
  predicate Asks(s: State, t: TabId, c: Claim, s': State) {
    && t in s.tabs && s.tabs[t].pc.Recovering? && Do(s, RequestOwner(t)) == Some(s')
    && s'.cell == s.cell && s'.log == s.log && t in s'.tabs
    && if s.owner.None? then s'.owner == Some(t) && (s.cell == Held(InProgress(c)) ==> OnItsWay(s', t, c))
       else s'.owner == s.owner
            && if s.tabs[t].pc.attempt == 0 then s'.tabs[t] == Tab(Recovering(c, 1), false) else s'.tabs[t].pc.Ended?
  }

  lemma AskingNow(s: State, t: TabId, c: Claim, attempt: nat)
    requires t in s.tabs && s.tabs[t] == Tab(Recovering(c, attempt), false) && s.owner != Some(t)
    ensures Do(s, RequestOwner(t)).Some? && Asks(s, t, c, Do(s, RequestOwner(t)).value)
  {
  }

  lemma NotYetOwner(start: Cell, s: State, t: TabId)
    requires Inv(start, s) && t in s.tabs && s.tabs[t].pc.Recovering?
    ensures s.owner != Some(t)
  {
  }

  lemma AskingAfter(start: Cell, s: State, t: TabId, c: Claim, attempt: nat, between: seq<Action>, s1: State)
    requires Inv(start, s) && t in s.tabs && s.tabs[t] == Tab(Recovering(c, attempt), false)
    requires Run(s, between) == Some(s1) && NotMine(between, t)
    ensures Do(s1, RequestOwner(t)).Some? && Asks(s1, t, c, Do(s1, RequestOwner(t)).value)
    ensures s1.tabs[t] == s.tabs[t]
  {
    OthersLeaveTab(start, s, between, s1, t);
    RunKeepsInv(start, s, between, s1);
    NotYetOwner(start, s1, t);
    AskingNow(s1, t, c, attempt);
  }

  /** A mounting tab that finds a claim asks for the owner lock, once more when it was taken, and a
      third time not at all. If it gets the lock either time, and the claim is still there, it is on
      its way to recover it; if not, it has ended without touching anything. */
  lemma RecoveryAsksTwice(start: Cell, s: State, t: TabId, c: Claim, between: seq<Action>, s1: State,
                          more: seq<Action>, s2: State)
    requires Inv(start, s) && t in s.tabs && s.tabs[t] == Tab(Mounted, false) && s.cell == Held(InProgress(c))
    requires NotMine(between, t) && NotMine(more, t)
    requires Do(s, Look(t)).Some? ==> Run(Do(s, Look(t)).value, between) == Some(s1)
    requires Do(s1, RequestOwner(t)).Some? ==> Run(Do(s1, RequestOwner(t)).value, more) == Some(s2)
    ensures Do(s, Look(t)).Some? && Do(s1, RequestOwner(t)).Some? && Asks(s1, t, c, Do(s1, RequestOwner(t)).value)
    ensures s1.owner.Some? ==>
              Do(s2, RequestOwner(t)).Some? && s2.tabs[t].pc == Recovering(c, 1) && Asks(s2, t, c, Do(s2, RequestOwner(t)).value)
  {
    var looked := Do(s, Look(t)).value;
    StepKeepsInv(start, s, Look(t), looked);
    AskingAfter(start, looked, t, c, 0, between, s1);
    var asked := Do(s1, RequestOwner(t)).value;
    if s1.owner.Some? {
      RunKeepsInv(start, looked, between, s1);
      StepKeepsInv(start, s1, RequestOwner(t), asked);
      AskingAfter(start, asked, t, c, 1, more, s2);
    }
  }

  // ----- a write that is not confirmed, and a tab that was disposed of --------------------------------

  /** What a tab does once its write has returned. Over a write that threw, or was not stored, a run does
      not begin, a verified seal becomes a failure, and anything else ends; a confirmed one begins the
      run, ends it, or lets a recovery look at the cell once more, still holding the owner lock. */
  predicate GoesOnAfter(pc: Pc, outcome: WriteOutcome, s': State, t: TabId)
    requires (pc.Arming? || pc.Sealing?) && pc.at.Decided?
  {
    && t in s'.tabs
    && var pc' := s'.tabs[t].pc;
       if pc.Arming? then pc' == if outcome.Stored? then Running(pc.at.marker.claim, 0) else Pc.Ended
       else if pc.actor.Recovery? then pc' == (if outcome.Stored? then Recovered(pc.claim) else Pc.Ended)
                                       && (outcome.Stored? ==> s'.owner == Some(t) && Do(s', Reread(t)).Some?)
       else pc' == if !outcome.Stored? && pc.phase.Verified? then Failing(pc.claim) else Pc.Ended
  }

  lemma WriteIsBelievedIff(start: Cell, s: State, t: TabId, outcome: WriteOutcome, between: seq<Action>, s1: State)
    requires Inv(start, s) && t in s.tabs && (s.tabs[t].pc.Arming? || s.tabs[t].pc.Sealing?) && s.tabs[t].pc.at.Decided?
    requires Do(s, Write(t, outcome)).Some? ==> Run(Do(s, Write(t, outcome)).value, between) == Some(s1)
    requires NotMine(between, t)
    ensures Do(s, Write(t, outcome)).Some? && Do(s1, LeaveRun(t)).Some?
    ensures GoesOnAfter(s.tabs[t].pc, outcome, Do(s1, LeaveRun(t)).value, t)
  {
    var written := Do(s, Write(t, outcome)).value;
    StepKeepsInv(start, s, Write(t, outcome), written);
    OthersLeaveTab(start, written, between, s1, t);
    RunKeepsInv(start, written, between, s1);
    FinishedHoldsOwner(start, s1, t);
    LeavingAfterWrite(s.tabs[t].pc, outcome, s1, t);
  }

  lemma FinishedHoldsOwner(start: Cell, s: State, t: TabId)
    requires Inv(start, s) && t in s.tabs && (s.tabs[t].pc.Arming? || s.tabs[t].pc.Sealing?)
    ensures s.owner == Some(t)
  {
  }

  lemma LeavingAfterWrite(pc: Pc, outcome: WriteOutcome, s1: State, t: TabId)
    requires s1.owner == Some(t) && (pc.Arming? || pc.Sealing?) && pc.at.Decided? && t in s1.tabs
    requires s1.tabs[t].pc == pc.(at := Finished(if outcome.Stored? then Some(pc.at.marker) else None))
    ensures Do(s1, LeaveRun(t)).Some? && GoesOnAfter(pc, outcome, Do(s1, LeaveRun(t)).value, t)
  {
  }

  /** A mounting tab that was disposed of before it looked under the owner lock never writes. */
  predicate SetAside(s: State, t: TabId) {
    t in s.tabs && s.tabs[t].disposed && (s.tabs[t].pc.Recovering? || s.tabs[t].pc.Owned? || s.tabs[t].pc.Ended?)
  }

  lemma SetAsideOwnStep(s: State, t: TabId, a: Action, s': State)
    requires SetAside(s, t) && a.tab == t && Do(s, a) == Some(s')
    ensures SetAside(s', t) && s'.log == s.log && s'.cell == s.cell
  {
  }

  lemma SetAsideStep(start: Cell, s: State, t: TabId, a: Action, s': State)
    requires Inv(start, s) && SetAside(s, t) && Do(s, a) == Some(s')
    ensures SetAside(s', t) && GrewByOthers(s.log, s'.log, t)
  {
    if a.tab == t {
      SetAsideOwnStep(s, t, a, s');
    } else {
      OthersEffect(start, s, t, a, s');
    }
  }

  lemma {:induction false} DisposedTabWritesNothing(start: Cell, s: State, t: TabId, actions: seq<Action>, s': State)
    requires Inv(start, s) && SetAside(s, t) && Run(s, actions) == Some(s')
    ensures SetAside(s', t) && GrewByOthers(s.log, s'.log, t)
    decreases |actions|
  {
    if actions != [] {
      var next := Do(s, actions[0]).value;
      StepKeepsInv(start, s, actions[0], next);
      SetAsideStep(start, s, t, actions[0], next);
      DisposedTabWritesNothing(start, next, t, actions[1..], s');
    }
  }
}
