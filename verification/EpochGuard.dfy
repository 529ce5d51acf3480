/** Readiness computations that overlap: each takes the next epoch when it begins, awaits several
    things, and may store a result only while its epoch is the newest and its effect is still
    mounted. A reset takes an epoch of its own. */
module EpochGuard {
  import opened Prelude

  type TaskId = nat

  /** Where a computation stands: waiting for its first receipt, for the compatibility call and
      second receipt, or finished. */
  datatype Point = First | Second | Finished

  datatype Task = Task(epoch: nat, disposed: bool, at: Point)

  datatype Kind = Hash | Ready | Failure | Report | Returned

  datatype Event = Began(task: TaskId) | Bumped | Disposed(task: TaskId) | Stored(task: TaskId, kind: Kind)

  datatype State = State(epoch: nat, tasks: map<TaskId, Task>, readiness: Option<TaskId>, log: seq<Event>)

  datatype Receipt = Discovered | ConsumerReady | NotReady | Throws

  datatype Action =
    | Begin(task: TaskId)
    | Dispose(task: TaskId)
    | Bump                                   // a reset forgets the current readiness
    | Unready                                // the registry reports a transition
    | Arrive(task: TaskId, receipt: Receipt) // the awaited receipt of a computation arrives

  predicate Current(s: State, t: TaskId) {
    t in s.tasks && s.tasks[t].epoch == s.epoch && !s.tasks[t].disposed
  }

  function Store(s: State, t: TaskId, kind: Kind): State {
    s.(log := s.log + [Stored(t, kind)],
       readiness := match kind case Ready => Some(t) case Failure => None case _ => s.readiness)
  }

  function Goto(s: State, t: TaskId, at: Point): State
    requires t in s.tasks
  {
    s.(tasks := s.tasks[t := s.tasks[t].(at := at)])
  }

  function DoFirst(s: State, t: TaskId, r: Receipt): State
    requires t in s.tasks
  {
    if !Current(s, t) then Goto(s, t, Finished)
    else if r.Throws? then Store(Goto(s, t, Finished), t, Failure)
    else if r.Discovered? then Store(Goto(s, t, Second), t, Hash)
    else if r.ConsumerReady? then Store(Store(Goto(s, t, Finished), t, Hash), t, Ready)
    else Store(Goto(s, t, Finished), t, Hash)
  }

  function DoSecond(s: State, t: TaskId, r: Receipt): State
    requires t in s.tasks
  {
    var s1 := Goto(s, t, Finished);
    if !Current(s, t) then s1
    else if r.Throws? then Store(s1, t, Failure)
    else if r.ConsumerReady? then Store(Store(s1, t, Hash), t, Ready)
    else s1
  }

  function Do(s: State, a: Action): Option<State> {
    match a
    case Begin(t) =>
      if t in s.tasks then None
      else Some(s.(epoch := s.epoch + 1, tasks := s.tasks[t := Task(s.epoch + 1, false, First)], log := s.log + [Began(t)]))
    case Dispose(t) =>
      if t !in s.tasks then None
      else Some(s.(tasks := s.tasks[t := s.tasks[t].(disposed := true)], log := s.log + [Disposed(t)]))
    case Bump => Some(s.(epoch := s.epoch + 1, readiness := None, log := s.log + [Bumped]))
    case Unready => Some(s.(readiness := None))
    case Arrive(t, r) =>
      if t !in s.tasks || s.tasks[t].at.Finished? then None
      else Some(if s.tasks[t].at.First? then DoFirst(s, t, r) else DoSecond(s, t, r))
  }

  function Opened(): State {
    State(0, map[], None, [])
  }

  function Run(s: State, actions: seq<Action>): Option<State>
    decreases |actions|
  {
    if actions == [] then Some(s) else
    match Do(s, actions[0])
    case None => None
    case Some(next) => Run(next, actions[1..])
  }

  // ----- what the log shows ----------------------------------------------------------------------

  /** The latest event that took an epoch. */
  function Newest(log: seq<Event>): Option<Event> {
    if log == [] then None
    else
      var e := log[|log| - 1];
      if e.Began? || e.Bumped? then Some(e) else Newest(log[..|log| - 1])
  }

  /** Whether this event was allowed where it stands: whatever stores a result is the newest
      computation, and its effect has not been disposed. */
  predicate Timely(before: seq<Event>, e: Event) {
    e.Stored? ==> Newest(before) == Some(Began(e.task)) && Disposed(e.task) !in before
  }

  predicate AllTimely(log: seq<Event>)
    decreases |log|
  {
    log == [] || (AllTimely(log[..|log| - 1]) && Timely(log[..|log| - 1], log[|log| - 1]))
  }

  /** Whether the readiness on display was begun after the last reset. */
  predicate SinceReset(log: seq<Event>, t: TaskId)
    decreases |log|
  {
    log != [] &&
    var e := log[|log| - 1];
    e == Began(t) || (!e.Bumped? && SinceReset(log[..|log| - 1], t))
  }

  ghost predicate Inv(s: State) {
    && AllTimely(s.log)
    && (forall t | t in s.tasks :: s.tasks[t].epoch <= s.epoch)
    && (forall t | t in s.tasks && s.tasks[t].epoch == s.epoch :: Newest(s.log) == Some(Began(t)))
    && (forall t | t in s.tasks && !s.tasks[t].disposed :: Disposed(t) !in s.log)
    && (forall t: TaskId :: Began(t) in s.log || Disposed(t) in s.log ==> t in s.tasks)
    && (s.readiness.Some? ==> SinceReset(s.log, s.readiness.value))
  }

  lemma Append(log: seq<Event>, e: Event)
    requires AllTimely(log) && Timely(log, e)
    ensures AllTimely(log + [e])
    ensures Newest(log + [e]) == if e.Began? || e.Bumped? then Some(e) else Newest(log)
    ensures forall t: TaskId :: SinceReset(log + [e], t) <==> e == Began(t) || (!e.Bumped? && SinceReset(log, t))
  {
    assert (log + [e])[..|log|] == log;
  }

  lemma {:induction false} NewestSinceReset(log: seq<Event>, t: TaskId)
    requires Newest(log) == Some(Began(t))
    ensures SinceReset(log, t)
    decreases |log|
  {
    if log[|log| - 1] != Began(t) {
      NewestSinceReset(log[..|log| - 1], t);
    }
  }

  lemma StoreKeepsInv(s: State, t: TaskId, kind: Kind)
    requires Inv(s) && Current(s, t)
    ensures Inv(Store(s, t, kind)) && Current(Store(s, t, kind), t)
  {
    Append(s.log, Stored(t, kind));
    NewestSinceReset(s.log, t);
  }

  lemma GotoKeepsInv(s: State, t: TaskId, at: Point)
    requires Inv(s) && t in s.tasks
    ensures Inv(Goto(s, t, at)) && (Current(s, t) ==> Current(Goto(s, t, at), t))
  {
  }

  /** What an arrival may leave behind once its computation has moved on. */
  lemma StoresKeepInv(s: State, t: TaskId)
    requires Inv(s) && Current(s, t)
    ensures Inv(Store(s, t, Failure)) && Inv(Store(s, t, Hash)) && Inv(Store(Store(s, t, Hash), t, Ready))
  {
    StoreKeepsInv(s, t, Failure);
    StoreKeepsInv(s, t, Hash);
    StoreKeepsInv(Store(s, t, Hash), t, Ready);
  }

  lemma ArriveKeepsInv(s: State, t: TaskId, r: Receipt)
    requires Inv(s) && t in s.tasks
    ensures Inv(DoFirst(s, t, r)) && Inv(DoSecond(s, t, r))
  {
    GotoKeepsInv(s, t, Finished);
    GotoKeepsInv(s, t, Second);
    if Current(s, t) {
      StoresKeepInv(Goto(s, t, Finished), t);
      StoresKeepInv(Goto(s, t, Second), t);
    }
  }

  lemma BeginKeepsInv(s: State, t: TaskId)
    requires Inv(s) && t !in s.tasks
    ensures Inv(Do(s, Begin(t)).value)
  {
    Append(s.log, Began(t));
  }

  lemma DisposeKeepsInv(s: State, t: TaskId)
    requires Inv(s) && t in s.tasks
    ensures Inv(Do(s, Dispose(t)).value)
  {
    Append(s.log, Disposed(t));
  }

  lemma BumpKeepsInv(s: State)
    requires Inv(s)
    ensures Inv(Do(s, Bump).value)
  {
    Append(s.log, Bumped);
  }

  lemma StepKeepsInv(s: State, a: Action, s': State)
    requires Inv(s) && Do(s, a) == Some(s')
    ensures Inv(s')
  {
    match a
    case Begin(t) => BeginKeepsInv(s, t);
    case Dispose(t) => DisposeKeepsInv(s, t);
    case Bump => BumpKeepsInv(s);
    case Unready =>
    case Arrive(t, r) => ArriveKeepsInv(s, t, r);
  }

  lemma {:induction false} RunKeepsInv(s: State, actions: seq<Action>, s': State)
    requires Inv(s) && Run(s, actions) == Some(s')
    ensures Inv(s')
    decreases |actions|
  {
    if actions != [] {
      StepKeepsInv(s, actions[0], Do(s, actions[0]).value);
      RunKeepsInv(Do(s, actions[0]).value, actions[1..], s');
    }
  }

  /** In whatever order the receipts arrive, every result that is stored comes from the newest
      computation, whose effect is still mounted. */
  lemma OnlyTheNewestStores(actions: seq<Action>, s: State)
    requires Run(Opened(), actions) == Some(s)
    ensures AllTimely(s.log)
  {
    RunKeepsInv(Opened(), actions, s);
  }

  lemma {:induction false} NewestIsLast(log: seq<Event>, t: TaskId, i: nat)
    requires Newest(log) == Some(Began(t)) && i < |log| && log[i].Bumped?
    ensures exists k :: i < k < |log| && log[k] == Began(t)
    decreases |log|
  {
    var last := |log| - 1;
    if !log[last].Began? {
      NewestIsLast(log[..last], t, i);
      var k :| i < k < last && log[..last][k] == Began(t);
      assert log[k] == Began(t);
    }
  }

  lemma {:induction false} TimelyAt(log: seq<Event>, j: nat)
    requires AllTimely(log) && j < |log|
    ensures Timely(log[..j], log[j])
    decreases |log|
  {
    var last := |log| - 1;
    if j < last {
      TimelyAt(log[..last], j);
      assert log[..last][..j] == log[..j];
    }
  }

  /** In a timely log, between a bump of the epoch and any later result, the task that stored it
      began. */
  lemma BegunInBetween(log: seq<Event>, i: nat, j: nat)
    requires AllTimely(log) && i < j < |log| && log[i].Bumped? && log[j].Stored?
    ensures exists k :: i < k < j && log[k] == Began(log[j].task)
  {
    TimelyAt(log, j);
    NewestIsLast(log[..j], log[j].task, i);
    var k :| i < k < j && log[..j][k] == Began(log[j].task);
    assert log[k] == Began(log[j].task);
  }

  /** Nothing begun before a reset is stored after it: between the reset and any later result,
      the computation that stored it began. The same holds of the readiness on display. */
  lemma NothingSurvivesAReset(actions: seq<Action>, s: State, i: nat, j: nat)
    requires Run(Opened(), actions) == Some(s)
    requires i < j < |s.log| && s.log[i].Bumped? && s.log[j].Stored?
    ensures exists k :: i < k < j && s.log[k] == Began(s.log[j].task)
    ensures s.readiness.Some? ==> SinceReset(s.log, s.readiness.value)
  {
    RunKeepsInv(Opened(), actions, s);
    BegunInBetween(s.log, i, j);
  }

  // ----- the newest computation is heard ---------------------------------------------------------------

  /** Nobody takes a newer epoch, disposes of this computation or brings it a receipt. */
  predicate Undisturbed(actions: seq<Action>, t: TaskId) {
    forall i | 0 <= i < |actions| ::
      match actions[i]
      case Begin(_) => false
      case Bump => false
      case Dispose(u) => u != t
      case Arrive(u, _) => u != t
      case Unready => true
  }

  lemma UndisturbedStep(s: State, a: Action, s': State, t: TaskId)
    requires Current(s, t) && Do(s, a) == Some(s') && Undisturbed([a], t)
    ensures Current(s', t) && s'.tasks[t] == s.tasks[t]
  {
    assert [a][0] == a;
  }

  lemma {:induction false} StaysCurrent(s: State, actions: seq<Action>, s': State, t: TaskId)
    requires Current(s, t) && Run(s, actions) == Some(s') && Undisturbed(actions, t)
    ensures Current(s', t) && s'.tasks[t] == s.tasks[t]
    decreases |actions|
  {
    if actions != [] {
      assert Undisturbed([actions[0]], t) by {
        assert [actions[0]][0] == actions[0];
      }
      UndisturbedStep(s, actions[0], Do(s, actions[0]).value, t);
      StaysCurrent(Do(s, actions[0]).value, actions[1..], s', t);
    }
  }

  /** What a receipt of the newest computation puts on display, and what it records: the hash and then
      readiness when the consumer is ready, a failure that takes readiness away when it throws, the
      hash alone otherwise; and a second receipt is awaited exactly after a discovery. */
  predicate Heard(s: State, t: TaskId, r: Receipt, s': State) {
    var first := t in s.tasks && s.tasks[t].at.First?;
    && Do(s, Arrive(t, r)) == Some(s') && t in s'.tasks
    && s'.readiness == (if r.ConsumerReady? then Some(t)
                        else if r.Throws? then None else s.readiness)
    && s'.log == s.log + (if r.Throws? then [Stored(t, Failure)]
                          else if r.ConsumerReady? then [Stored(t, Hash), Stored(t, Ready)]
                          else if first then [Stored(t, Hash)] else [])
    && s'.tasks[t].at == if first && r.Discovered? then Second else Finished
  }

  /** A computation that begins is heard, however many others are still under way: its first receipt,
      and a second one after a discovery, unless a newer epoch is taken or it is disposed of. */
  lemma NewestIsHeard(s: State, t: TaskId, first: seq<Action>, s1: State, r1: Receipt, more: seq<Action>, s2: State,
                      r2: Receipt)
    requires t !in s.tasks && Do(s, Begin(t)).Some? ==> Run(Do(s, Begin(t)).value, first) == Some(s1)
    requires t !in s.tasks && Undisturbed(first, t) && Undisturbed(more, t)
    requires r1.Discovered? && Do(s1, Arrive(t, r1)).Some? ==> Run(Do(s1, Arrive(t, r1)).value, more) == Some(s2)
    ensures Do(s1, Arrive(t, r1)).Some? && Heard(s1, t, r1, Do(s1, Arrive(t, r1)).value)
    ensures r1.Discovered? ==> Do(s2, Arrive(t, r2)).Some? && Heard(s2, t, r2, Do(s2, Arrive(t, r2)).value)
  {
    var begun := Do(s, Begin(t)).value;
    StaysCurrent(begun, first, s1, t);
    if r1.Discovered? {
      StaysCurrent(Do(s1, Arrive(t, r1)).value, more, s2, t);
    }
  }

  /** A reset or a transition of the registry takes readiness off the display; a reset also silences
      every computation begun before it. */
  lemma ResetsForget(s: State, a: Action, s': State)
    requires Inv(s) && Do(s, a) == Some(s') && (a.Bump? || a.Unready?)
    ensures s'.readiness.None? && s'.tasks == s.tasks
    ensures a.Bump? ==> forall t: TaskId :: !Current(s', t)
    ensures a.Unready? ==> s'.epoch == s.epoch && s'.log == s.log
  {
  }
}
