/** The measured four-call sequence against the append-only trace ledger: a call is accepted only
    if the ledger grew by exactly its own trace, linked to the one before. */
module FixedSequence {
  import opened Prelude

  type EventId = nat

  datatype Source = Native | Interface

  datatype Tool = CartGet | CartUpdate | CheckoutRequest | CheckoutFinish | FixtureReset

  /** What the store reports about one operation; the ledger adds the parent. */
  datatype Operation = Operation(id: EventId, session: nat, run: nat, sequence: nat, source: Source, tool: Tool)

  datatype Trace = Trace(id: EventId, parent: Option<EventId>, session: nat, run: nat, sequence: nat, source: Source,
                         tool: Tool)

  /** The ledger's own fields, the traces whose digests are still being computed, and every trace in
      the order it was appended. */
  datatype Ledger = Ledger(current: seq<Trace>, archived: seq<seq<Trace>>, resets: seq<Trace>,
                           last: Option<EventId>, pending: seq<Trace>, history: seq<Trace>)

  datatype AppendError = OtherSession | SequenceGap | DuplicateId

  /** What a reset hands over when it asks for the current log to be archived. */
  datatype Summary = Summary(run: nat, count: nat, ids: seq<EventId>)

  datatype ArchiveError = OtherTrajectory | CountMismatch | EntryMismatch

  function TraceOf(l: Ledger, o: Operation): Trace {
    Trace(o.id, l.last, o.session, o.run, o.sequence, o.source, o.tool)
  }

  /** An append reads the newest id before it awaits the digests: two that overlap take the same
      parent. */
  function Begun(l: Ledger, o: Operation): Ledger {
    l.(pending := l.pending + [TraceOf(l, o)])
  }

  function AppendRefusal(current: seq<Trace>, t: Trace): Option<AppendError> {
    if t.tool.FixtureReset? then None
    else if current != [] && t.session != current[|current| - 1].session then Some(OtherSession)
    else if current != [] && t.sequence != current[|current| - 1].sequence + 1 then Some(SequenceGap)
    else if exists i | 0 <= i < |current| :: current[i].id == t.id then Some(DuplicateId)
    else None
  }

  function Appended(l: Ledger, t: Trace): Ledger {
    if AppendRefusal(l.current, t).Some? then l else
    var l1 := if t.tool.FixtureReset? then l.(resets := l.resets + [t]) else l.(current := l.current + [t]);
    l1.(last := Some(t.id), history := l.history + [t])
  }

  function Completed(l: Ledger, k: nat): Ledger {
    if k >= |l.pending| then l
    else Appended(l.(pending := l.pending[..k] + l.pending[k + 1..]), l.pending[k])
  }

  predicate EntryDiffers(current: seq<Trace>, a: Summary, i: nat)
    requires i < |a.ids|
  {
    i >= |current| || a.ids[i] != current[i].id
  }

  function ArchiveRefusal(current: seq<Trace>, a: Summary): Option<ArchiveError> {
    if current != [] && a.run != current[0].run then Some(OtherTrajectory)
    else if a.count != |current| then Some(CountMismatch)
    else if exists i | 0 <= i < |a.ids| :: EntryDiffers(current, a, i) then Some(EntryMismatch)
    else None
  }

  function ArchivedAway(l: Ledger, a: Summary): Ledger {
    if ArchiveRefusal(l.current, a).Some? then l else l.(archived := l.archived + [l.current], current := [])
  }

  function Lengths(s: seq<seq<Trace>>): nat {
    if s == [] then 0 else Lengths(s[..|s| - 1]) + |s[|s| - 1]|
  }

  function Total(l: Ledger): nat {
    |l.current| + Lengths(l.archived) + |l.resets|
  }

  function Latest(l: Ledger): Option<Trace> {
    if l.current != [] then Some(l.current[|l.current| - 1])
    else if l.resets != [] then Some(l.resets[|l.resets| - 1])
    else None
  }

  /** The ledger as the page updates it. */
  class TraceLedger {
    var current: seq<Trace>
    var archived: seq<seq<Trace>>
    var resets: seq<Trace>
    var last: Option<EventId>
    ghost var pending: seq<Trace>
    ghost var history: seq<Trace>

    ghost function State(): Ledger
      reads this
    {
      Ledger(current, archived, resets, last, pending, history)
    }

    constructor ()
      ensures State() == Ledger([], [], [], None, [], [])
    {
      current, archived, resets, last, pending, history := [], [], [], None, [], [];
    }

    /** Up to the await: the trace is put together with the parent of this moment. */
    method BeginAppend(o: Operation) returns (t: Trace)
      modifies this`pending
      ensures State() == Begun(old(State()), o) && t == TraceOf(old(State()), o)
    {
      t := Trace(o.id, last, o.session, o.run, o.sequence, o.source, o.tool);
      pending := pending + [t];
    }

    /** Does the current log already hold this id? */
    method Holds(id: EventId) returns (found: bool)
      ensures found <==> exists i | 0 <= i < |current| :: current[i].id == id
    {
      for i := 0 to |current|
        invariant forall j | 0 <= j < i :: current[j].id != id
      {
        if current[i].id == id {
          return true;
        }
      }
      return false;
    }

    /** After the await: the `k`-th pending trace is appended, or refused and dropped. */
    method Append(t: Trace, ghost k: nat) returns (error: Option<AppendError>)
      requires k < |pending| && pending[k] == t
      modifies this
      ensures State() == Completed(old(State()), k) && error == AppendRefusal(old(current), t)
    {
      pending := pending[..k] + pending[k + 1..];
      if t.tool == FixtureReset {
        resets := resets + [t];
      } else {
        if |current| > 0 {
          var previous := current[|current| - 1];
          if t.session != previous.session {
            return Some(OtherSession);
          }
          if t.sequence != previous.sequence + 1 {
            return Some(SequenceGap);
          }
        }
        var found := Holds(t.id);
        if found {
          return Some(DuplicateId);
        }
        current := current + [t];
      }
      last := Some(t.id);
      history := history + [t];
      return None;
    }

    method Archive(a: Summary) returns (error: Option<ArchiveError>)
      modifies this
      ensures State() == ArchivedAway(old(State()), a) && error == ArchiveRefusal(old(current), a)
    {
      if |current| > 0 && a.run != current[0].run {
        return Some(OtherTrajectory);
      }
      if a.count != |current| {
        return Some(CountMismatch);
      }
      for i := 0 to |a.ids|
        invariant forall j | 0 <= j < i :: !EntryDiffers(current, a, j)
        invariant State() == old(State())
      {
        if i >= |current| || a.ids[i] != current[i].id {
          assert EntryDiffers(current, a, i);
          return Some(EntryMismatch);
        }
      }
      archived := archived + [current];
      current := [];
      return None;
    }
  }

  // ----- one observed call -------------------------------------------------------------------------

  /** Anything that can happen to the ledger while the sequence is not looking. */
  datatype Happening = Begins(operation: Operation) | Completes(which: nat) | Archives(summary: Summary)

  function Happened(l: Ledger, e: Happening): Ledger {
    match e
    case Begins(o) => Begun(l, o)
    case Completes(k) => Completed(l, k)
    case Archives(a) => ArchivedAway(l, a)
  }

  function Play(l: Ledger, h: seq<Happening>): Ledger {
    if h == [] then l else Happened(Play(l, h[..|h| - 1]), h[|h| - 1])
  }

  /** What surrounds one call: everything before it is admitted, everything until its receipt,
      whether its hold is granted, and the trace id its receipt names unless it throws. */
  datatype Surroundings = Surroundings(before: seq<Happening>, held: bool, during: seq<Happening>,
                                       receipt: Option<EventId>)

  function Observe(l: Ledger, tool: Tool, count: nat, parent: EventId, w: Surroundings): Option<Ledger> {
    var admitted := Play(l, w.before);
    var prior := Latest(admitted);
    if Total(admitted) != count || prior.None? || prior.value.id != parent || !w.held || w.receipt.None? then None else
    var after := Play(admitted, w.during);
    if Total(after) != count + 1 || after.current == [] then None else
    var t := after.current[|after.current| - 1];
    if Some(t.id) != w.receipt || t.parent != Some(parent) || t.sequence != count + 1 || t.source != Native
       || t.tool != tool then None
    else Some(after)
  }

  /** The ledger counts every trace it ever took, and remembers the newest. */
  predicate Sound(l: Ledger) {
    && Total(l) == |l.history|
    && l.last == (if l.history == [] then None else Some(l.history[|l.history| - 1].id))
  }

  /** History only grows at its end, and by at most this trace. */
  lemma AppendKeepsSound(l: Ledger, t: Trace)
    requires Sound(l)
    ensures var l' := Appended(l, t);
            && Sound(l') && l'.pending == l.pending
            && l'.history == if AppendRefusal(l.current, t).Some? then l.history else l.history + [t]
  {
  }

  lemma LengthsAppend(s: seq<seq<Trace>>, x: seq<Trace>)
    ensures Lengths(s + [x]) == Lengths(s) + |x|
  {
    assert (s + [x])[..|s|] == s;
  }

  lemma ArchiveKeepsSound(l: Ledger, a: Summary)
    requires Sound(l)
    ensures Sound(ArchivedAway(l, a)) && ArchivedAway(l, a).history == l.history
  {
    LengthsAppend(l.archived, l.current);
  }

  lemma StepKeepsSound(l: Ledger, e: Happening)
    requires Sound(l)
    ensures Sound(Happened(l, e)) && l.history <= Happened(l, e).history && |Happened(l, e).history| <= |l.history| + 1
  {
    match e
    case Begins(_) =>
    case Completes(k) =>
      if k < |l.pending| {
        AppendKeepsSound(l.(pending := l.pending[..k] + l.pending[k + 1..]), l.pending[k]);
      }
    case Archives(a) => ArchiveKeepsSound(l, a);
  }

  lemma {:induction false} PlayKeepsSound(l: Ledger, h: seq<Happening>)
    requires Sound(l)
    ensures Sound(Play(l, h)) && l.history <= Play(l, h).history && Total(Play(l, h)) >= Total(l)
    decreases |h|
  {
    if h != [] {
      var front := h[..|h| - 1];
      PlayKeepsSound(l, front);
      StepKeepsSound(Play(l, front), h[|h| - 1]);
    }
  }

  /** What one happening does to the current log. */
  lemma CurrentAfterStep(l: Ledger, e: Happening)
    ensures var l' := Happened(l, e);
            if l'.history == l.history then l'.current == l.current || l'.current == []
            else l'.history != [] && (l'.current == l.current || (l'.current != []
                   && l'.current[|l'.current| - 1] == l'.history[|l'.history| - 1]))
  {
  }

  lemma {:induction false} QuietPlay(l: Ledger, h: seq<Happening>)
    requires Sound(l) && |Play(l, h).history| == |l.history|
    ensures Play(l, h).history == l.history && (Play(l, h).current == l.current || Play(l, h).current == [])
    decreases |h|
  {
    if h != [] {
      var front := h[..|h| - 1];
      PlayKeepsSound(l, front);
      StepKeepsSound(Play(l, front), h[|h| - 1]);
      QuietPlay(l, front);
      CurrentAfterStep(Play(l, front), h[|h| - 1]);
    }
  }

  /** When history has grown by one trace, what is left of the current log is as before, or ends in
      that trace. */
  lemma {:induction false} CurrentIsNewest(l: Ledger, h: seq<Happening>)
    requires Sound(l) && |Play(l, h).history| == |l.history| + 1
    ensures var after := Play(l, h);
            after.current == [] || after.current == l.current
            || after.current[|after.current| - 1] == after.history[|l.history|]
    decreases |h|
  {
    if h != [] {
      var front, e := h[..|h| - 1], h[|h| - 1];
      PlayKeepsSound(l, front);
      StepKeepsSound(Play(l, front), e);
      CurrentAfterStep(Play(l, front), e);
      if |Play(l, front).history| == |l.history| {
        QuietPlay(l, front);
      } else {
        CurrentIsNewest(l, front);
      }
    }
  }

  predicate IsCallTrace(t: Trace, tool: Tool, count: nat, parent: EventId) {
    t.parent == Some(parent) && t.sequence == count + 1 && t.source.Native? && t.tool == tool
  }

  /** The next call's sequence number is not taken: the current log is empty, as the page checks
      after the reset, or its newest trace has another number. */
  predicate NumberIsFree(l: Ledger, count: nat) {
    l.current == [] || l.current[|l.current| - 1].sequence != count + 1
  }

  /** The trace that the check looks at is the one that was recorded, or it was there before. */
  lemma CheckedTrace(l: Ledger, tool: Tool, count: nat, parent: EventId, w: Surroundings, l': Ledger)
      returns (t: Trace)
    requires Sound(l) && |l.history| == count && Observe(l, tool, count, parent, w) == Some(l')
    ensures Sound(l') && Play(l, w.before).history == l.history && |l'.history| == count + 1
    ensures l'.current != [] && l'.current[|l'.current| - 1] == t && w.receipt == Some(t.id) && IsCallTrace(t, tool, count, parent)
    ensures l'.history == l.history + [t]
            || (l.current != [] && l.current[|l.current| - 1] == t && t.id == parent)
  {
    var admitted := Play(l, w.before);
    PlayKeepsSound(l, w.before);
    PlayKeepsSound(admitted, w.during);
    QuietPlay(l, w.before);
    CurrentIsNewest(admitted, w.during);
    t := l'.current[|l'.current| - 1];
    assert l'.current == admitted.current ==> Latest(admitted) == Some(t);
    assert l'.history == l.history + [l'.history[count]];
  }

  /** One accepted call, whatever else happened and whatever was still being appended: nothing was
      recorded before it was admitted or beside it while it ran; the history grew by exactly its
      own trace, which is native, names the right tool, carries the next sequence number, is linked
      to the given parent and is the one its receipt names. The next number is free again. */
  lemma AcceptedCall(l: Ledger, tool: Tool, count: nat, parent: EventId, w: Surroundings, l': Ledger)
      returns (t: Trace)
    requires Sound(l) && |l.history| == count && NumberIsFree(l, count)
    requires Observe(l, tool, count, parent, w) == Some(l')
    ensures Sound(l') && Play(l, w.before).history == l.history && l'.history == l.history + [t]
    ensures w.receipt == Some(t.id) && IsCallTrace(t, tool, count, parent) && NumberIsFree(l', count + 1)
  {
    t := CheckedTrace(l, tool, count, parent, w, l');
  }

  /** Every acceptance from this ledger means that exactly the accepted trace was recorded. */
  ghost predicate AcceptsOnlyItsOwn(l: Ledger, tool: Tool, count: nat, parent: EventId) {
    forall w, l' | Observe(l, tool, count, parent, w) == Some(l') :: l'.history == l.history + [l'.current[|l'.current| - 1]]
  }

  /** The newest current trace is its own parent and would pass for the call's trace. */
  predicate HoldsItsOwnParent(l: Ledger, tool: Tool, count: nat, parent: EventId) {
    l.current != [] && l.current[|l.current| - 1].id == parent && IsCallTrace(l.current[|l.current| - 1], tool, count, parent)
  }

  /** What the boundary protects from: of all ledgers, exactly one whose newest current trace already
      passes for the call's could have a foreign record accepted in its place. A ledger that has
      just been archived, or one that keeps the number free, is never such a ledger. */
  lemma AcceptsOnlyItsOwnIff(l: Ledger, tool: Tool, count: nat, parent: EventId)
    requires Sound(l) && |l.history| == count
    ensures AcceptsOnlyItsOwn(l, tool, count, parent) <==> !HoldsItsOwnParent(l, tool, count, parent)
  {
    if HoldsItsOwnParent(l, tool, count, parent) {
      var w, l' := ForeignReset(l, tool, count, parent);
      assert Observe(l, tool, count, parent, w) == Some(l');
      assert l'.history[count] != l'.current[|l'.current| - 1];
    } else {
      forall w, l' | Observe(l, tool, count, parent, w) == Some(l')
        ensures l'.history == l.history + [l'.current[|l'.current| - 1]]
      {
        var t := CheckedTrace(l, tool, count, parent, w, l');
      }
    }
  }

  /** There a reset by someone else, recorded while the call runs, is taken for it. */
  lemma ForeignReset(l: Ledger, tool: Tool, count: nat, parent: EventId) returns (w: Surroundings, l': Ledger)
    requires Sound(l) && |l.history| == count && HoldsItsOwnParent(l, tool, count, parent)
    ensures Observe(l, tool, count, parent, w) == Some(l') && l'.current == l.current && |l'.history| == count + 1
    ensures l'.history[count].source.Interface?
  {
    var foreign := Operation(parent, 0, 0, 0, Interface, FixtureReset);
    var h := [Begins(foreign), Completes(|l.pending|)];
    w := Surroundings([], true, h, Some(parent));
    assert h[..1] == [Begins(foreign)] && h[..1][..0] == [];
    assert Play(l, h[..1]) == Begun(l, foreign);
    l' := Completed(Begun(l, foreign), |l.pending|);
    assert Play(l, h) == l';
  }

  // ----- the four calls ----------------------------------------------------------------------------

  /** The calls so far, each admitted after the one before it; nothing when one was rejected. */
  function ObserveAll(l: Ledger, tools: seq<Tool>, count: nat, parent: EventId, w: seq<Surroundings>): Option<Ledger>
    requires |w| == |tools|
    decreases |tools|
  {
    if tools == [] then Some(l) else
    match Observe(l, tools[0], count, parent, w[0])
    case None => None
    case Some(next) => if w[0].receipt.None? then None else ObserveAll(next, tools[1..], count + 1, w[0].receipt.value, w[1..])
  }

  predicate LinkAt(ts: seq<Trace>, tools: seq<Tool>, count: nat, parent: EventId, i: nat)
    requires i < |ts| == |tools|
  {
    IsCallTrace(ts[i], tools[i], count + i, if i == 0 then parent else ts[i - 1].id)
  }

  /** Contiguous and parent-linked, starting from this parent. */
  predicate Chain(ts: seq<Trace>, tools: seq<Tool>, count: nat, parent: EventId)
    requires |ts| == |tools|
  {
    forall i | 0 <= i < |ts| :: LinkAt(ts, tools, count, parent, i)
  }

  /** If all calls are accepted, the ledger after the reset is exactly their traces, contiguous in
      sequence and parent-linked from the reset; so no foreign trace was recorded before, between
      or during them. */
  lemma {:induction false} AllAccepted(l: Ledger, tools: seq<Tool>, count: nat, parent: EventId, w: seq<Surroundings>,
                                       end: Ledger) returns (ts: seq<Trace>)
    requires |w| == |tools| && Sound(l) && |l.history| == count && NumberIsFree(l, count)
    requires ObserveAll(l, tools, count, parent, w) == Some(end)
    ensures |ts| == |tools| && end.history == l.history + ts && Chain(ts, tools, count, parent)
    ensures forall i | 0 <= i < |w| :: w[i].receipt == Some(ts[i].id)
    decreases |tools|
  {
    if tools == [] {
      ts := [];
      assert l.history + [] == l.history;
    } else {
      var next := FirstThenRest(l, tools, count, parent, w, end);
      var t := AcceptedCall(l, tools[0], count, parent, w[0], next);
      var rest := AllAccepted(next, tools[1..], count + 1, t.id, w[1..], end);
      ts := [t] + rest;
      HistoryPrepends(l.history, t, rest, end.history);
      ChainPrepends(t, rest, tools, count, parent);
      forall i | 0 <= i < |w| ensures w[i].receipt == Some(ts[i].id) {
        if i > 0 {
          assert w[i] == w[1..][i - 1] && ts[i] == rest[i - 1];
        }
      }
    }
  }

  lemma FirstThenRest(l: Ledger, tools: seq<Tool>, count: nat, parent: EventId, w: seq<Surroundings>, end: Ledger)
      returns (next: Ledger)
    requires |w| == |tools| && tools != [] && ObserveAll(l, tools, count, parent, w) == Some(end)
    ensures Observe(l, tools[0], count, parent, w[0]) == Some(next) && w[0].receipt.Some?
    ensures ObserveAll(next, tools[1..], count + 1, w[0].receipt.value, w[1..]) == Some(end)
  {
    next := Observe(l, tools[0], count, parent, w[0]).value;
  }

  lemma HistoryPrepends(h: seq<Trace>, t: Trace, rest: seq<Trace>, end: seq<Trace>)
    requires end == (h + [t]) + rest
    ensures end == h + ([t] + rest)
  {
  }

  lemma ChainPrepends(t: Trace, rest: seq<Trace>, tools: seq<Tool>, count: nat, parent: EventId)
    requires |tools| == |rest| + 1 && IsCallTrace(t, tools[0], count, parent)
    requires Chain(rest, tools[1..], count + 1, t.id)
    ensures Chain([t] + rest, tools, count, parent)
  {
    var ts := [t] + rest;
    forall i | 0 <= i < |ts| ensures LinkAt(ts, tools, count, parent, i) {
      if i > 0 {
        assert LinkAt(rest, tools[1..], count + 1, t.id, i - 1);
      }
    }
  }

  /** The case the page measures: two traces before it, the second one the reset that has just
      archived the first, then the four contracted calls. */
  lemma FourAcceptedCalls(l: Ledger, reset: Trace, tools: seq<Tool>, w: seq<Surroundings>, end: Ledger)
      returns (ts: seq<Trace>)
    requires |w| == |tools| == 4 && Sound(l) && |l.history| == 2 && l.history[1] == reset && l.current == []
    requires ObserveAll(l, tools, 2, reset.id, w) == Some(end)
    ensures |ts| == 4 && end.history == l.history + ts
    ensures ts[0].parent == Some(reset.id) && ts[1].parent == Some(ts[0].id) && ts[2].parent == Some(ts[1].id)
            && ts[3].parent == Some(ts[2].id)
    ensures forall i | 0 <= i < 4 :: ts[i].sequence == 3 + i && ts[i].source.Native? && ts[i].tool == tools[i]
  {
    ts := AllAccepted(l, tools, 2, reset.id, w, end);
    FourLinks(ts, tools, reset.id);
  }

  lemma FourLinks(ts: seq<Trace>, tools: seq<Tool>, parent: EventId)
    requires |ts| == |tools| == 4 && Chain(ts, tools, 2, parent)
    ensures ts[0].parent == Some(parent) && ts[1].parent == Some(ts[0].id) && ts[2].parent == Some(ts[1].id)
            && ts[3].parent == Some(ts[2].id)
    ensures forall i | 0 <= i < 4 :: ts[i].sequence == 3 + i && ts[i].source.Native? && ts[i].tool == tools[i]
  {
    assert LinkAt(ts, tools, 2, parent, 0) && LinkAt(ts, tools, 2, parent, 1);
    assert LinkAt(ts, tools, 2, parent, 2) && LinkAt(ts, tools, 2, parent, 3);
  }

  // ----- the current log ----------------------------------------------------------------------------

  /** One session, one number after the other, no id twice, and no reset among them. */
  predicate InSequence(current: seq<Trace>) {
    && (forall i | 0 <= i < |current| ::
          current[i].session == current[0].session && current[i].sequence == current[0].sequence + i
          && !current[i].tool.FixtureReset?)
    && (forall i, j | 0 <= i < j < |current| :: current[i].id != current[j].id)
  }

  predicate LogsOk(l: Ledger) {
    && InSequence(l.current) && (forall i | 0 <= i < |l.archived| :: InSequence(l.archived[i]))
    && (forall i | 0 <= i < |l.resets| :: l.resets[i].tool.FixtureReset?)
  }

  /** A trace is filed exactly if it is a reset, or goes on where the current log ends: the same
      session, the next number, an id not yet in it. */
  lemma FiledIff(l: Ledger, t: Trace)
    requires InSequence(l.current)
    ensures var l', n := Appended(l, t), |l.current|;
            if t.tool.FixtureReset? then l'.resets == l.resets + [t] && l'.current == l.current && l'.history == l.history + [t]
            else
              && l'.resets == l.resets && (l'.current == l.current + [t] || l' == l)
              && (l'.current == l.current + [t] <==>
                    n == 0 || (t.session == l.current[0].session && t.sequence == l.current[0].sequence + n
                               && forall i | 0 <= i < n :: l.current[i].id != t.id))
              && (l'.current == l.current + [t] ==> InSequence(l'.current) && l'.history == l.history + [t])
  {
    var l' := Appended(l, t);
    assert |l.current + [t]| == |l.current| + 1;
  }

  lemma HappeningKeepsLogs(l: Ledger, e: Happening)
    requires LogsOk(l)
    ensures LogsOk(Happened(l, e))
  {
    match e
    case Begins(_) =>
    case Archives(_) =>
    case Completes(k) =>
      if k < |l.pending| {
        FiledIff(l.(pending := l.pending[..k] + l.pending[k + 1..]), l.pending[k]);
      }
  }

  /** Whatever is begun, completed, in whatever order, and archived: the current log and every archived
      one is one session, numbered without a gap and without a repeated id. */
  lemma {:induction false} PlayKeepsLogs(l: Ledger, h: seq<Happening>)
    requires LogsOk(l)
    ensures LogsOk(Play(l, h))
    decreases |h|
  {
    if h != [] {
      PlayKeepsLogs(l, h[..|h| - 1]);
      HappeningKeepsLogs(Play(l, h[..|h| - 1]), h[|h| - 1]);
    }
  }

  /** And a measured call that is let alone is accepted: admitted after its parent, with its number free,
      its own trace filed and named by its receipt. */
  lemma CallLetAloneIsAccepted(l: Ledger, tool: Tool, o: Operation, before: EventId)
    requires Sound(l) && LogsOk(l) && l.last == Some(before) && Latest(l).Some? && Latest(l).value.id == before
    requires o.tool == tool && !tool.FixtureReset? && o.source.Native? && o.sequence == |l.history| + 1
    requires l.current == [] || (o.session == l.current[0].session && o.sequence == l.current[0].sequence + |l.current|
                                 && forall i | 0 <= i < |l.current| :: l.current[i].id != o.id)
    ensures var w := Surroundings([], true, [Begins(o), Completes(|l.pending|)], Some(o.id));
            var r := Observe(l, tool, |l.history|, before, w);
            r.Some? && r.value.history == l.history + [TraceOf(l, o)] && r.value.current == l.current + [TraceOf(l, o)]
  {
    var h := [Begins(o), Completes(|l.pending|)];
    assert h[..1] == [Begins(o)] && h[..1][..0] == [];
    assert Play(l, h[..1]) == Begun(l, o);
    var begun, t := Begun(l, o), TraceOf(l, o);
    assert begun.pending[..|l.pending|] + begun.pending[|l.pending| + 1..] == l.pending;
    assert begun.(pending := l.pending) == l;
    FiledIff(l, t);
    assert Play(l, h) == Appended(l, t);
    AppendKeepsSound(l, t);
  }

  /** The current log is archived, and empty after that, exactly if the summary is of its run, counts it
      and names its entries; otherwise nothing changes. */
  lemma ArchivedIff(l: Ledger, a: Summary)
    ensures var l' := ArchivedAway(l, a);
            if (l.current == [] || a.run == l.current[0].run) && a.count == |l.current| && |a.ids| <= |l.current|
               && forall i | 0 <= i < |a.ids| :: a.ids[i] == l.current[i].id
            then l' == l.(archived := l.archived + [l.current], current := [])
            else l' == l && ArchiveRefusal(l.current, a).Some?
  {
    if |a.ids| > |l.current| {
      assert EntryDiffers(l.current, a, |l.current|);
    } else if exists i :: 0 <= i < |a.ids| && a.ids[i] != l.current[i].id {
      var i :| 0 <= i < |a.ids| && a.ids[i] != l.current[i].id;
      assert EntryDiffers(l.current, a, i);
    }
  }
}
