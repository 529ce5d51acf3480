/** The one-run protocol of the invocation-integrity page, as a state machine over any number
    of tabs that share one storage cell and two browser locks.

    The run lock guards each read-decide-write of the cell. The owner lock is requested with
    `ifAvailable` (section 3.2 of the Web Locks API) and is kept across a whole run or a whole
    recovery. A tab is one activation of the page: a second click on the same page before it
    renders is a second tab. Ending a tab frees its locks and keeps the cell. */
module RunLockProtocol {
  import opened Prelude
  import opened RunLockMarkers

  type TabId = nat

  datatype Actor = Runner | Recovery

  /** Where a tab stands in an exclusive run-lock request. The callback's read, write and
      return are separate steps, so a tab can also die between them. */
  datatype Section =
    | Waiting
    | Inside
    | Decided(marker: Marker)
    | Finished(result: Option<Marker>)

  datatype Pc =
    | Mounted
    | Preparing
    | Ready
    | Clicked
    | Arming(at: Section)
    | Running(claim: Claim, done: nat)
    | Calling(claim: Claim, done: nat)
    | Failing(claim: Claim)
    | Sealing(claim: Claim, phase: Phase, artifact: Record, actor: Actor, at: Section)
    | Recovering(seen: Claim, attempt: nat)
    | Owned(seen: Claim)
    | Interrupting(claim: Claim)
    | Recovered(claim: Claim)
    | Ended

  datatype Tab = Tab(pc: Pc, disposed: bool)

  /** What the world can tell about a run: the claim it armed, each native call it sent and
      had accepted, the verifier's acceptance, and the terminal record written. */
  datatype Event =
    | Armed(tab: TabId, claim: Claim)
    | Dispatched(tab: TabId, claim: Claim, index: nat)
    | Accepted(tab: TabId, claim: Claim, index: nat)
    | Approved(tab: TabId, claim: Claim)
    | Sealed(tab: TabId, marker: Marker, actor: Actor)

  datatype State = State(tabs: map<TabId, Tab>, cell: Cell, owner: Option<TabId>, run: Option<TabId>,
                         log: seq<Event>)

  const CALLS: nat := 4

  datatype Action =
    | Mount(tab: TabId)                                       // a new activation
    | Crash(tab: TabId)                                       // the tab ends at any point
    | Dispose(tab: TabId)                                     // the mount effect is cleaned up
    | Throw(tab: TabId)                                       // the awaited platform call throws
    | Look(tab: TabId)                                        // the unlocked read on mount
    | Prepare(tab: TabId)
    | Click(tab: TabId)
    | RequestOwner(tab: TabId)                                // decided at once, ifAvailable
    | EnterRun(tab: TabId)
    | Decide(tab: TabId, minted: Option<Claim>, now: string)  // read the cell inside the run lock
    | Write(tab: TabId, outcome: WriteOutcome)
    | LeaveRun(tab: TabId)
    | Dispatch(tab: TabId)
    | Observe(tab: TabId, accepted: bool)
    | Verify(tab: TabId, artifact: Record)                    // the verifier accepted the transcript
    | Finish(tab: TabId, artifact: Record)                    // build a failure artifact, then seal it
    | Reread(tab: TabId)                                      // read the cell under the owner lock

  predicate HoldsOwner(pc: Pc) {
    pc.Arming? || pc.Running? || pc.Calling? || pc.Failing? || pc.Sealing? || pc.Owned? || pc.Interrupting?
    || pc.Recovered?
  }

  predicate InRun(pc: Pc) {
    (pc.Arming? || pc.Sealing?) && !pc.at.Waiting?
  }

  function Goto(s: State, t: TabId, pc: Pc): State
    requires t in s.tabs
  {
    s.(tabs := s.tabs[t := s.tabs[t].(pc := pc)])
  }

  /** Leaves the program for good; the platform frees whatever the tab still held. */
  function End(s: State, t: TabId): State
    requires t in s.tabs
  {
    var s' := Goto(s, t, Ended);
    s'.(owner := if s.owner == Some(t) then None else s.owner,
        run := if s.run == Some(t) then None else s.run)
  }

  function Store(s: State, m: Marker, e: Event): State {
    s.(cell := Held(m), log := s.log + [e])
  }

  /** Continues after the run-lock request settled: `ok` says its promise was fulfilled. */
  function AfterRun(s: State, t: TabId, ok: bool): State
    requires t in s.tabs && (s.tabs[t].pc.Arming? || s.tabs[t].pc.Sealing?)
  {
    var pc := s.tabs[t].pc;
    match pc
    case Arming(at) =>
      if ok && at.Finished? && at.result.Some? then Goto(s, t, Running(at.result.value.claim, 0)) else End(s, t)
    case Sealing(claim, phase, _, actor, _) =>
      if ok && actor.Recovery? then Goto(s, t, Recovered(claim))
      else if !ok && actor.Runner? && phase.Verified? then Goto(s, t, Failing(claim))
      else End(s, t)
  }

  function DoThrow(s: State, t: TabId): Option<State>
    requires t in s.tabs
  {
    var pc := s.tabs[t].pc;
    if pc.Ended? || pc.Ready? then None
    else if pc.Running? || pc.Calling? then Some(Goto(s, t, Failing(pc.claim)))
    else if pc.Arming? || pc.Sealing? then
      if pc.at.Waiting? then Some(AfterRun(s, t, false))
      else if pc.at.Inside? then Some(Goto(s, t, pc.(at := Finished(None))))
      else None
    else Some(End(s, t))
  }

  function DoLook(s: State, t: TabId): State
    requires t in s.tabs
  {
    match s.cell
    case Absent => Goto(s, t, Preparing)
    case Garbage => End(s, t)
    case Held(InProgress(c)) => Goto(s, t, Recovering(c, 0))
    case Held(Terminal(_, _, _, _)) => End(s, t)
  }

  function DoRequestOwner(s: State, t: TabId): Option<State>
    requires t in s.tabs
  {
    match s.tabs[t].pc
    case Clicked =>
      Some(if s.owner.None? then Goto(s, t, Arming(Waiting)).(owner := Some(t)) else End(s, t))
    case Recovering(c, attempt) =>
      Some(if s.owner.None? then Goto(s, t, Owned(c)).(owner := Some(t))
           else if attempt == 0 then Goto(s, t, Recovering(c, 1))
           else End(s, t))
    case _ => None
  }

  function DoDecide(s: State, t: TabId, minted: Option<Claim>, now: string): Option<State>
    requires t in s.tabs
  {
    var pc := s.tabs[t].pc;
    if !(pc.Arming? || pc.Sealing?) || !pc.at.Inside? then None else
    var decision := if pc.Arming? then ArmDecision(s.cell, minted)
                    else SealDecision(s.cell, pc.claim, pc.phase, now, pc.artifact);
    Some(Goto(s, t, pc.(at := if decision.Some? then Decided(decision.value) else Finished(None))))
  }

  function DoWrite(s: State, t: TabId, outcome: WriteOutcome): Option<State>
    requires t in s.tabs
  {
    var pc := s.tabs[t].pc;
    if !(pc.Arming? || pc.Sealing?) || !pc.at.Decided? then None else
    var m := pc.at.marker;
    var e := if pc.Arming? then Armed(t, m.claim) else Sealed(t, m, pc.actor);
    var s1 := Goto(s, t, pc.(at := Finished(if outcome.Stored? then Some(m) else None)));
    Some(if outcome.Refused? then s1 else Store(s1, m, e))
  }

  function DoReread(s: State, t: TabId): Option<State>
    requires t in s.tabs
  {
    match s.tabs[t].pc
    case Owned(seen) =>
      Some(if s.cell == Held(InProgress(seen)) && !s.tabs[t].disposed then Goto(s, t, Interrupting(seen))
           else End(s, t))
    case Recovered(_) => Some(End(s, t))
    case _ => None
  }

  /** One step; nothing when the action is not possible in this state. */
  function Do(s: State, a: Action): (r: Option<State>) {
    if a.Mount? then
      if a.tab in s.tabs then None else Some(s.(tabs := s.tabs[a.tab := Tab(Mounted, false)]))
    else if a.tab !in s.tabs then None else
    var t := a.tab;
    var pc := s.tabs[t].pc;
    match a
    case Mount(_) => None
    case Crash(_) => if pc.Ended? then None else Some(End(s, t))
    case Dispose(_) => Some(s.(tabs := s.tabs[t := s.tabs[t].(disposed := true)]))
    case Throw(_) => DoThrow(s, t)
    case Look(_) => if pc.Mounted? then Some(DoLook(s, t)) else None
    case Prepare(_) => if pc.Preparing? then Some(Goto(s, t, Ready)) else None
    case Click(_) => if pc.Ready? then Some(Goto(s, t, Clicked)) else None
    case RequestOwner(_) => DoRequestOwner(s, t)
    case EnterRun(_) =>
      if (pc.Arming? || pc.Sealing?) && pc.at.Waiting? && s.run.None? then
        Some(Goto(s, t, pc.(at := Inside)).(run := Some(t)))
      else None
    case Decide(_, minted, now) => DoDecide(s, t, minted, now)
    case Write(_, outcome) => DoWrite(s, t, outcome)
    case LeaveRun(_) =>
      if (pc.Arming? || pc.Sealing?) && pc.at.Finished? then
        Some(AfterRun(s.(run := None), t, pc.at.result.Some?))
      else None
    case Dispatch(_) =>
      if pc.Running? && pc.done < CALLS then
        Some(Goto(s, t, Calling(pc.claim, pc.done)).(log := s.log + [Dispatched(t, pc.claim, pc.done)]))
      else None
    case Observe(_, accepted) =>
      if !pc.Calling? then None
      else if accepted then
        Some(Goto(s, t, Running(pc.claim, pc.done + 1)).(log := s.log + [Accepted(t, pc.claim, pc.done)]))
      else Some(Goto(s, t, Failing(pc.claim)))
    case Verify(_, artifact) =>
      if pc.Running? && pc.done == CALLS then
        Some(Goto(s, t, Sealing(pc.claim, Verified, artifact, Runner, Waiting)).(log := s.log + [Approved(t, pc.claim)]))
      else None
    case Finish(_, artifact) =>
      if pc.Failing? then Some(Goto(s, t, Sealing(pc.claim, Failed, artifact, Runner, Waiting)))
      else if pc.Interrupting? then Some(Goto(s, t, Sealing(pc.claim, Failed, artifact, Recovery, Waiting)))
      else None
    case Reread(_) => DoReread(s, t)
  }

  /** Before any tab opened, over whatever the profile retained from earlier sessions. */
  function Start(cell: Cell): State {
    State(map[], cell, None, None, [])
  }

  function Run(s: State, actions: seq<Action>): Option<State>
    decreases |actions|
  {
    if actions == [] then Some(s) else
    match Do(s, actions[0])
    case None => None
    case Some(s') => Run(s', actions[1..])
  }

  ghost predicate Reachable(start: Cell, s: State) {
    exists actions :: Run(Start(start), actions) == Some(s)
  }
}
