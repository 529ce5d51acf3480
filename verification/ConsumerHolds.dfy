/** Holds that keep a catalog in place while a native call is delivered. Every way out of the
    measured sequence, whichever step throws, gives back exactly the holds it took, while other
    consumers take and give back their own. */
module ConsumerHolds {
  import opened Prelude

  type Tool = nat

  /** A tool as registered in one generation of the registry. */
  datatype Slot = Slot(tool: Tool, generation: nat)

  /** One hold that was granted. Its release function remembers that it has been called. */
  datatype Hold = Hold(slot: Slot, released: bool)

  /** What the registry looks like when a step resumes, which holds other consumers have by then,
      and whether the step then throws. */
  datatype Moment = Moment(generation: nat, transitioning: bool, ready: set<Tool>, foreign: map<Slot, int>, throws: bool)

  /** Whether a hold on this tool would be granted at this moment. */
  predicate Grants(m: Moment, tool: Tool, gen: nat) {
    !m.transitioning && gen == m.generation && tool in m.ready
  }

  predicate GrantsAll(m: Moment, tools: seq<Tool>, gen: nat) {
    forall i | 0 <= i < |tools| :: Grants(m, tools[i], gen)
  }

  /** A call at one moment goes through: its hold is granted, and nothing is thrown by the next. */
  predicate CallGoes(moments: nat -> Moment, at: nat, tool: Tool, gen: nat) {
    Grants(moments(at), tool, gen) && !moments(at + 1).throws
  }

  predicate CallsGo(moments: nat -> Moment, from: nat, calls: seq<Tool>, gen: nat) {
    forall k | 0 <= k < |calls| :: CallGoes(moments, from + k, calls[k], gen)
  }

  /** Nothing is thrown on admission, and the whole catalog is ready then. */
  predicate OpensAt(moments: nat -> Moment, from: nat, catalog: seq<Tool>, gen: nat) {
    !moments(from).throws && GrantsAll(moments(from), catalog, gen)
  }

  /** A stretch of holds that one catalog release function stands for. */
  datatype Stretch = Stretch(lo: nat, hi: nat)

  /** How many of the first `n` holds still keep this slot. */
  ghost function Kept(holds: seq<Hold>, n: nat, s: Slot): nat
    requires n <= |holds|
  {
    if n == 0 then 0
    else Kept(holds, n - 1, s) + if !holds[n - 1].released && holds[n - 1].slot == s then 1 else 0
  }

  function At(counts: map<Slot, int>, s: Slot): int {
    if s in counts then counts[s] else 0
  }

  predicate Same(before: seq<Hold>, after: seq<Hold>, n: nat)
    requires n <= |before| && n <= |after|
  {
    forall i | 0 <= i < n :: before[i] == after[i]
  }

  lemma {:induction false} SameKept(before: seq<Hold>, after: seq<Hold>, n: nat, s: Slot)
    requires n <= |before| && n <= |after| && Same(before, after, n)
    ensures Kept(before, n, s) == Kept(after, n, s)
  {
    if n > 0 {
      SameKept(before, after, n - 1, s);
    }
  }

  /** Releasing one hold takes its slot out once. */
  lemma {:induction false} ReleasedOne(before: seq<Hold>, after: seq<Hold>, k: nat, n: nat, s: Slot)
    requires k < n <= |before| && after == before[k := before[k].(released := true)] && !before[k].released
    ensures Kept(before, n, s) == Kept(after, n, s) + if before[k].slot == s then 1 else 0
    decreases n
  {
    if k == n - 1 {
      SameKept(before, after, n - 1, s);
    } else {
      ReleasedOne(before, after, k, n - 1, s);
    }
  }

  /** Holds that are all released keep nothing. */
  lemma {:induction false} ReleasedKeepNothing(holds: seq<Hold>, lo: nat, hi: nat, s: Slot)
    requires lo <= hi <= |holds| && forall i | lo <= i < hi :: holds[i].released
    ensures Kept(holds, hi, s) == Kept(holds, lo, s)
    decreases hi - lo
  {
    if lo < hi {
      ReleasedKeepNothing(holds, lo, hi - 1, s);
    }
  }

  /** The holds after a stretch was given back. */
  function GivenBackHolds(holds: seq<Hold>, lo: nat, hi: nat): (r: seq<Hold>)
    requires lo <= hi <= |holds|
    ensures |r| == |holds|
    ensures forall i | 0 <= i < |holds| :: r[i] == if lo <= i < hi then holds[i].(released := true) else holds[i]
    decreases hi - lo
  {
    if lo == hi then holds else GivenBackHolds(holds, lo, hi - 1)[hi - 1 := holds[hi - 1].(released := true)]
  }

  class Registry {
    var generation: nat
    var transitioning: bool
    var ready: set<Tool>
    var foreign: map<Slot, int>
    var holds: seq<Hold>
    var inFlight: map<Slot, int>

    /** The registry counts this page's holds and everybody else's, and nothing more. */
    ghost predicate Valid()
      reads this`holds, this`inFlight, this`foreign
    {
      forall s: Slot :: At(inFlight, s) == At(foreign, s) + Kept(holds, |holds|, s)
    }

    /** The tool can be held, as registered in this generation. */
    predicate IsReady(tool: Tool, gen: nat)
      reads this`generation, this`transitioning, this`ready
    {
      !transitioning && gen == generation && tool in ready
    }

    /** The registry is as this moment found it. */
    predicate IsAt(m: Moment)
      reads this`generation, this`transitioning, this`ready
    {
      generation == m.generation && transitioning == m.transitioning && ready == m.ready
    }

    constructor ()
      ensures Valid() && holds == [] && foreign == map[]
    {
      generation, transitioning, ready, holds := 0, true, {}, [];
      foreign, inFlight := map[], map[];
    }

    /** Control comes back from an await: the registry may have moved on meanwhile, and others may
        have taken and given back holds of their own. */
    method Resume(m: Moment)
      requires Valid()
      modifies this`generation, this`transitioning, this`ready, this`foreign, this`inFlight
      ensures Valid() && foreign == m.foreign
      ensures generation == m.generation && transitioning == m.transitioning && ready == m.ready
    {
      generation, transitioning, ready := m.generation, m.transitioning, m.ready;
      inFlight := map s | s in inFlight.Keys + foreign.Keys + m.foreign.Keys ::
                    At(inFlight, s) - At(foreign, s) + At(m.foreign, s);
      foreign := m.foreign;
    }

    method HoldCall(tool: Tool, gen: nat) returns (hold: Option<nat>)
      requires Valid()
      modifies this`holds, this`inFlight
      ensures Valid()
      ensures hold.Some? <==> IsReady(tool, gen)
      ensures hold.Some? ==> hold.value == |old(holds)| && holds == old(holds) + [Hold(Slot(tool, gen), false)]
                             && inFlight == old(inFlight)[Slot(tool, gen) := At(old(inFlight), Slot(tool, gen)) + 1]
      ensures hold.None? ==> holds == old(holds) && inFlight == old(inFlight)
    {
      if transitioning || gen != generation || tool !in ready {
        return None;
      }
      ghost var before := holds;
      inFlight := inFlight[Slot(tool, gen) := At(inFlight, Slot(tool, gen)) + 1];
      holds := holds + [Hold(Slot(tool, gen), false)];
      forall s: Slot ensures Kept(before, |before|, s) == Kept(holds, |before|, s) {
        SameKept(before, holds, |before|, s);
      }
      return Some(|holds| - 1);
    }

    /** Calling a release function again does nothing. */
    method Release(hold: nat)
      requires Valid() && hold < |holds|
      modifies this`holds, this`inFlight
      ensures Valid()
      ensures old(holds[hold].released) ==> holds == old(holds) && inFlight == old(inFlight)
      ensures !old(holds[hold].released) ==>
                var s := old(holds[hold].slot);
                holds == old(holds)[hold := old(holds[hold]).(released := true)]
                && inFlight == old(inFlight)[s := At(old(inFlight), s) - 1]
    {
      if holds[hold].released {
        return;
      }
      ghost var before := holds;
      var s := holds[hold].slot;
      inFlight := inFlight[s := At(inFlight, s) - 1];
      holds := holds[hold := holds[hold].(released := true)];
      forall o: Slot ensures Kept(before, |before|, o) == Kept(holds, |before|, o) + if s == o then 1 else 0 {
        ReleasedOne(before, holds, hold, |before|, o);
      }
    }

    /** Releases the holds of a stretch, newest first; those already released are left alone,
        so doing it again changes nothing. */
    method ReleaseDown(s: Stretch)
      requires Valid() && s.lo <= s.hi <= |holds|
      modifies this`holds, this`inFlight
      ensures Valid() && holds == GivenBackHolds(old(holds), s.lo, s.hi)
      ensures (forall k | s.lo <= k < s.hi :: old(holds[k]).released) ==> holds == old(holds) && inFlight == old(inFlight)
    {
      var i := s.hi;
      while s.lo < i
        invariant s.lo <= i <= s.hi && |holds| == |old(holds)| && Valid()
        invariant (forall k | s.lo <= k < s.hi :: old(holds[k]).released) ==> holds == old(holds) && inFlight == old(inFlight)
        invariant forall k | 0 <= k < |holds| :: holds[k] == if i <= k < s.hi then old(holds[k]).(released := true)
                                                             else old(holds[k])
      {
        i := i - 1;
        Release(i);
      }
    }

    /** Takes a hold on each tool; if one is not granted, all earlier ones are given back. */
    method HoldCatalog(tools: seq<Tool>, gen: nat) returns (held: Option<Stretch>)
      requires Valid()
      modifies this`holds, this`inFlight
      ensures Valid() && |old(holds)| <= |holds| && Same(old(holds), holds, |old(holds)|)
      ensures held.Some? <==> forall i | 0 <= i < |tools| :: IsReady(tools[i], gen)
      ensures held.Some? ==> held.value == Stretch(|old(holds)|, |holds|) && |holds| == |old(holds)| + |tools|
                             && forall i | 0 <= i < |tools| :: holds[|old(holds)| + i] == Hold(Slot(tools[i], gen), false)
      ensures held.None? ==> (forall i | |old(holds)| <= i < |holds| :: holds[i].released)
                             && forall s: Slot :: At(inFlight, s) == At(old(inFlight), s)
    {
      var lo := |holds|;
      for k := 0 to |tools|
        invariant |holds| == lo + k && Same(old(holds), holds, lo) && Valid()
        invariant forall i | 0 <= i < k :: IsReady(tools[i], gen)
        invariant forall i | 0 <= i < k :: holds[lo + i] == Hold(Slot(tools[i], gen), false)
      {
        var hold := HoldCall(tools[k], gen);
        if hold.None? {
          ReleaseDown(Stretch(lo, |holds|));
          NothingKept(old(holds));
          assert !IsReady(tools[k], gen);
          return None;
        }
      }
      return Some(Stretch(lo, |holds|));
    }

    /** When everything taken since is released, the holds keep what they kept then. */
    lemma NothingKept(before: seq<Hold>)
      requires |before| <= |holds| && Same(before, holds, |before|) && forall i | |before| <= i < |holds| :: holds[i].released
      ensures forall s: Slot :: Kept(holds, |holds|, s) == Kept(before, |before|, s)
    {
      forall s: Slot ensures Kept(holds, |holds|, s) == Kept(before, |before|, s) {
        ReleasedKeepNothing(holds, |before|, |holds|, s);
        SameKept(before, holds, |before|, s);
      }
    }

    /** One observed call: its own hold is released whether or not the call throws. */
    method Call(tool: Tool, gen: nat, m: Moment) returns (ok: bool)
      requires Valid()
      modifies this
      ensures Valid() && |old(holds)| <= |holds| && Same(old(holds), holds, |old(holds)|)
      ensures forall i | |old(holds)| <= i < |holds| :: holds[i].released
      ensures ok <==> old(IsReady(tool, gen)) && !m.throws
      ensures ok ==> IsAt(m)
    {
      var hold := HoldCall(tool, gen);
      if hold.None? {
        return false;
      }
      Resume(m);
      Release(hold.value);
      return !m.throws;
    }

    /** The calls made under one catalog, until one of them throws. */
    method CallAll(calls: seq<Tool>, gen: nat, from: nat, moments: nat -> Moment) returns (ok: bool)
      requires Valid() && IsAt(moments(from))
      modifies this
      ensures Valid() && |old(holds)| <= |holds| && Same(old(holds), holds, |old(holds)|)
      ensures forall i | |old(holds)| <= i < |holds| :: holds[i].released
      ensures ok <==> CallsGo(moments, from, calls, gen)
    {
      for k := 0 to |calls|
        invariant Valid() && |old(holds)| <= |holds| && Same(old(holds), holds, |old(holds)|)
        invariant forall i | |old(holds)| <= i < |holds| :: holds[i].released
        invariant IsAt(moments(from + k)) && forall i | 0 <= i < k :: CallGoes(moments, from + i, calls[i], gen)
      {
        var done := Call(calls[k], gen, moments(from + k + 1));
        if !done {
          assert !CallGoes(moments, from + k, calls[k], gen);
          return false;
        }
      }
      return true;
    }

    /** Everything taken since there were this many holds is given back, outside this stretch. */
    ghost predicate GivenBack(n: nat, kept: Option<Stretch>)
      reads this`holds
    {
      n <= |holds| && (kept.Some? ==> n <= kept.value.lo <= kept.value.hi <= |holds|)
      && forall i | n <= i < |holds| :: holds[i].released || (kept.Some? && kept.value.lo <= i < kept.value.hi)
    }

    /** Admission, a hold over one catalog, and the calls under it. The hold stays with the caller,
        who gives it back. */
    method Open(catalog: seq<Tool>, calls: seq<Tool>, gen: nat, from: nat, moments: nat -> Moment)
      returns (hold: Option<Stretch>, ok: bool)
      requires Valid()
      modifies this
      ensures Valid() && |old(holds)| <= |holds| && Same(old(holds), holds, |old(holds)|)
      ensures GivenBack(|old(holds)|, hold) && (ok ==> hold.Some?)
      ensures ok <==> OpensAt(moments, from, catalog, gen) && CallsGo(moments, from, calls, gen)
    {
      Resume(moments(from));
      if moments(from).throws {
        return None, false;
      }
      hold := HoldCatalog(catalog, gen);
      assert forall tool: Tool :: IsReady(tool, gen) <==> Grants(moments(from), tool, gen);
      if hold.None? {
        return None, false;
      }
      ok := CallAll(calls, gen, from, moments);
    }

    /** Gives back what may still be owed. */
    method GiveBack(owed: Option<Stretch>, ghost n: nat)
      requires Valid() && GivenBack(n, owed)
      modifies this`holds, this`inFlight
      ensures Valid() && GivenBack(n, None) && |holds| == |old(holds)| && Same(old(holds), holds, n)
    {
      if owed.Some? {
        ReleaseDown(owed.value);
      }
    }

    /** The fourth call, under a hold over the second catalog, and the verification after it. */
    method RunPending(pending: seq<Tool>, calls: seq<Tool>, gen: nat, moments: nat -> Moment)
      returns (releasePending: Option<Stretch>, ok: bool)
      requires Valid() && |calls| == 1
      modifies this
      ensures Valid() && |old(holds)| <= |holds| && Same(old(holds), holds, |old(holds)|)
      ensures GivenBack(|old(holds)|, releasePending) && (ok ==> releasePending.None?)
      ensures ok <==> OpensAt(moments, 4, pending, gen) && CallsGo(moments, 4, calls, gen) && !moments(6).throws
    {
      releasePending, ok := Open(pending, calls, gen, 4, moments);
      if ok {
        GiveBack(releasePending, |old(holds)|);
        releasePending := None;
        Resume(moments(6));
        ok := !moments(6).throws;
      }
    }

    /** The measured sequence, with the two release functions it may still owe: a hold over the first
        catalog for three calls, given back before the catalog changes; then one over the second
        catalog for the fourth call; then verification. Whatever throws, the handler gives back what
        is still owed, and this page's holds are as they were, whatever others hold by then. */
    method RunSequence(initial: seq<Tool>, pending: seq<Tool>, calls: seq<Tool>, gen: nat, nextGen: nat,
                       moments: nat -> Moment) returns (ok: bool)
      requires Valid() && |calls| == 4
      modifies this
      ensures Valid() && forall s: Slot :: At(inFlight, s) - At(foreign, s) == At(old(inFlight), s) - At(old(foreign), s)
      ensures ok <==> OpensAt(moments, 0, initial, gen) && CallsGo(moments, 0, calls[..3], gen)
                      && OpensAt(moments, 4, pending, nextGen) && CallsGo(moments, 4, calls[3..], nextGen)
                      && !moments(6).throws
    {
      ghost var n := |holds|;
      var releaseInitial: Option<Stretch>, releasePending: Option<Stretch> := None, None;
      releaseInitial, ok := Open(initial, calls[..3], gen, 0, moments);
      if ok {
        GiveBack(releaseInitial, n);
        releaseInitial := None;
        releasePending, ok := RunPending(pending, calls[3..], nextGen, moments);
      }
      if !ok {
        if releaseInitial.Some? {
          GiveBack(releaseInitial, n);
        }
        GiveBack(releasePending, n);
      }
      NothingKept(old(holds));
    }
  }
}
