/** The scored client's recovery record: three files on disk, written so that a crash never
    tears a record that was already there, and a run that may crash anywhere, deleted only when
    nothing can be lost any more. */
module ScoredRecovery {
  import opened Prelude
  import Server = ScoredStore

  type Digest = Server.Digest
  type Key = nat

  /** The record of one phase. Version and phase are fixed for the files of that phase. */
  datatype Record = Record(launch: nat, document: nat, capability: Option<nat>, cookie: Option<nat>,
                           commit: Option<nat>)

  /** A file whose writing may have been cut short; a torn file decodes to nothing. */
  datatype File<T> = Whole(content: T) | Torn

  /** Encrypted under a key; only that key opens it. */
  datatype Sealed = Sealed(key: Key, record: Record)

  datatype Disk = Disk(key: Option<File<Key>>, artifact: Option<File<Sealed>>, temporary: Option<File<Sealed>>)

  datatype LoadError = Partial | KeyInvalid | ArtifactInvalid

  datatype DeleteError = UnlinkFailed | DeleteFailed

  function Load(d: Disk): Result<Option<Record>, LoadError> {
    if d.artifact.None? && d.key.None? then Ok(None)
    else if d.artifact.None? || d.key.None? then Err(Partial)
    else if d.key.value.Torn? then Err(KeyInvalid)
    else if d.artifact.value.Torn? || d.artifact.value.content.key != d.key.value.content then Err(ArtifactInvalid)
    else Ok(Some(d.artifact.value.content.record))
  }

  /** Whether saving gets past reading the key that is already there. */
  predicate CanSave(d: Disk) {
    d.key.Some? ==> d.key.value.Whole?
  }

  function SaveKey(d: Disk, newKey: Key): Key
    requires CanSave(d)
  {
    if d.key.Some? then d.key.value.content else newKey
  }

  /** The disk after each step of saving; the last one is the finished save. The key is written
      only when there is none, the temporary file is replaced, and a rename puts it in place. */
  function SaveSteps(d: Disk, r: Record, newKey: Key): (s: seq<Disk>)
    requires CanSave(d)
    ensures |s| == 7 && s[0] == d
  {
    var k := SaveKey(d, newKey);
    var keyed := d.(key := Some(Whole(k)));
    var sealed := Whole(Sealed(k, r));
    [d,
     if d.key.None? then d.(key := Some(Torn)) else d,
     keyed,
     keyed.(temporary := None),
     keyed.(temporary := Some(Torn)),
     keyed.(temporary := Some(sealed)),
     keyed.(temporary := None, artifact := Some(sealed))]
  }

  function Saved(d: Disk, r: Record, newKey: Key): Disk
    requires CanSave(d)
  {
    SaveSteps(d, r, newKey)[6]
  }

  /** Artifact first, then the key, then what a crashed save left over. */
  function DeleteSteps(d: Disk): (s: seq<Disk>)
    ensures |s| == 4 && s[0] == d
  {
    [d, d.(artifact := None), d.(artifact := None, key := None), Disk(None, None, None)]
  }

  /** The files themselves. `trail` remembers every disk a crash could have left behind. */
  class Files {
    var key: Option<File<Key>>
    var artifact: Option<File<Sealed>>
    var temporary: Option<File<Sealed>>
    ghost var trail: seq<Disk>

    function Now(): Disk
      reads this
    {
      Disk(key, artifact, temporary)
    }

    constructor ()
      ensures Now() == Disk(None, None, None) && trail == [Now()]
    {
      key, artifact, temporary := None, None, None;
      trail := [Disk(None, None, None)];
    }

    method Save(r: Record, newKey: Key) returns (ok: bool)
      modifies this
      ensures ok <==> CanSave(old(Now()))
      ensures ok ==> Now() == Saved(old(Now()), r, newKey) && trail == old(trail) + SaveSteps(old(Now()), r, newKey)[1..]
      ensures !ok ==> Now() == old(Now()) && trail == old(trail)
    {
      if key.Some? && key.value.Torn? {
        return false;
      }
      if key.None? {
        key := Some(Torn);
        trail := trail + [Now()];
        key := Some(Whole(newKey));
      } else {
        trail := trail + [Now()];
      }
      trail := trail + [Now()];
      var k := key.value.content;
      temporary := None;
      trail := trail + [Now()];
      temporary := Some(Torn);
      trail := trail + [Now()];
      temporary := Some(Whole(Sealed(k, r)));
      trail := trail + [Now()];
      artifact, temporary := temporary, None;
      trail := trail + [Now()];
      return true;
    }

    /** Deleting stops at an unlink that fails; and if, once all are gone, an artifact has come back
        from elsewhere, it says so. */
    method Delete(failsAt: nat, back: Option<File<Sealed>>) returns (error: Option<DeleteError>)
      modifies this
      ensures error.None? <==> failsAt >= 3 && back.None?
      ensures error.None? ==> Now() == Disk(None, None, None)
      ensures error == Some(DeleteFailed) <==> failsAt >= 3 && back.Some?
      ensures failsAt < 3 ==> Now() == DeleteSteps(old(Now()))[failsAt]
      ensures failsAt >= 3 ==> Now() == Disk(None, back, None)
      ensures trail == old(trail) + DeleteSteps(old(Now()))[1..if failsAt < 3 then failsAt + 1 else 4]
    {
      ghost var steps := DeleteSteps(old(Now()));
      if failsAt == 0 {
        return Some(UnlinkFailed);
      }
      artifact := None;
      trail := trail + [Now()];
      assert steps[1..2] == [steps[1]] && trail == old(trail) + [steps[1]];
      if failsAt == 1 {
        return Some(UnlinkFailed);
      }
      key := None;
      trail := trail + [Now()];
      assert steps[1..3] == [steps[1], steps[2]] && trail == old(trail) + [steps[1], steps[2]];
      if failsAt == 2 {
        return Some(UnlinkFailed);
      }
      temporary := None;
      trail := trail + [Now()];
      assert steps[1..4] == [steps[1], steps[2], steps[3]] && trail == old(trail) + [steps[1], steps[2], steps[3]];
      artifact := back;
      if artifact.Some? || key.Some? {
        return Some(DeleteFailed);
      }
      return None;
    }
  }

  /** A finished save can be read back. */
  lemma SaveThenLoad(d: Disk, r: Record, newKey: Key)
    requires CanSave(d)
    ensures Load(Saved(d, r, newKey)) == Ok(Some(r))
  {
  }

  /** Where a record was readable, a save cut short anywhere leaves the old record readable or
      has already put the new one in its place: never anything torn. */
  lemma SaveIsAtomic(d: Disk, before: Record, r: Record, newKey: Key, i: nat)
    requires Load(d) == Ok(Some(before)) && i < 7
    ensures Load(SaveSteps(d, r, newKey)[i]) == Ok(Some(if i == 6 then r else before))
  {
    assert CanSave(d);
  }

  /** A save cut short can always be read, and taken up again, exactly when a record was there
      before, or it was cut short before touching the key or after the rename: the first save
      has a window in which the key lies there alone. */
  lemma CrashIsReadableIff(d: Disk, r: Record, newKey: Key, i: nat)
    requires Load(d).Ok? && i < 7
    ensures Load(SaveSteps(d, r, newKey)[i]).Ok? <==> Load(d).value.Some? || i == 0 || i == 6
    ensures !Load(SaveSteps(d, r, newKey)[i]).Ok? ==> Load(SaveSteps(d, r, newKey)[i]) == Err(Partial)
  {
    assert CanSave(d);
  }

  /** Deleting ends with nothing to load, and on the way either still loads the record, or
      refuses to guess. */
  lemma DeleteIsOrderly(d: Disk, r: Record, i: nat)
    requires Load(d) == Ok(Some(r)) && i < 4
    ensures Load(DeleteSteps(d)[i]) == if i == 0 then Ok(Some(r)) else if i == 1 then Err(Partial) else Ok(None)
  {
  }

  // ----- the run -------------------------------------------------------------------------------

  predicate ExactlyOne(r: Record) {
    r.capability.Some? != r.cookie.Some?
  }

  /** Where the one client process is. */
  datatype Process =
    | Down
    | Running(launch: nat, document: nat, capability: Option<nat>, cookie: Option<nat>, commit: Option<nat>)
    | Terminal(launch: nat, document: nat)
    | Verified(launch: nat, document: nat, digest: Digest)
    | Written(launch: nat, document: nat, digest: Digest)
    | Approved(launch: nat, document: nat, digest: Digest, tries: nat)
    | Acknowledged(digest: Digest)

  /** The whole system: files, process, evidence written so far, and the server's run. `saved` and
      `deleting` only remember how far the files have come. */
  datatype System = System(disk: Disk, process: Process, evidence: set<Digest>, server: Server.Store,
                           ids: Option<(nat, nat)>, saved: bool, deleting: bool)

  datatype Reply = Arrives | Fails | Lost

  /** How far a save got, and whether the process went on after it threw. */
  datatype Cut = Cut(step: nat, survives: bool)

  datatype Action =
    | Boot
    | FirstSave(capability: nat, launch: nat, document: nat, key: Key, step: nat)  // a throw ends the process
    | StartSession(cookie: nat, commit: nat, key: Key, cut: Cut)  // a throw is one failed document
    | CookieUnread                                               // the session started, its cookie was lost
    | Document(terminal: bool)
    | Serve(call: Server.Call)                                   // the server records or seals
    | Reveal(digest: Digest)
    | WriteEvidence
    | Approve
    | SendAcknowledgement(reply: Reply)
    | Delete(step: nat)
    | Crash

  function DoBoot(s: System): Option<System> {
    if !s.process.Down? || s.deleting then None else
    match Load(s.disk)
    case Ok(Some(r)) => Some(s.(process := Running(r.launch, r.document, r.capability, r.cookie, r.commit)))
    case _ => None
  }

  function DoFirstSave(s: System, capability: nat, launch: nat, document: nat, key: Key, step: nat): Option<System> {
    if !s.process.Down? || s.deleting || Load(s.disk) != Ok(None) || step >= 7 then None else
    var r := Record(launch, document, Some(capability), None, None);
    var d := SaveSteps(s.disk, r, key)[step];
    Some(if step == 6 then
           s.(disk := d, process := Running(launch, document, Some(capability), None, None),
              ids := Some((launch, document)), saved := true)
         else s.(disk := d))
  }

  /** The server accepted the capability, and the cookie replaces it in one save. A save that
      throws is caught with the other failures of the document: the process goes on with the
      cookie, over files that still hold the capability. */
  function DoStartSession(s: System, cookie: nat, commit: nat, key: Key, cut: Cut): Option<System> {
    match s.process
    case Running(launch, document, Some(_), None, _) =>
      if !CanSave(s.disk) || cut.step >= 7 then None else
      var r := Record(launch, document, None, Some(cookie), Some(commit));
      Some(s.(disk := SaveSteps(s.disk, r, key)[cut.step],
              process := if cut.step == 6 || cut.survives then Running(launch, document, None, Some(cookie), Some(commit))
                         else Down))
    case _ => None
  }

  function DoAcknowledge(s: System, p: Process, reply: Reply): System
    requires p.Approved?
  {
    var (server, granted) := if reply.Fails? then (s.server, false) else Server.Acknowledge(s.server, p.digest);
    s.(server := server,
       process := if granted && reply.Arrives? then Acknowledged(p.digest)
                  else if p.tries == 0 then p.(tries := 1)
                  else Down)
  }

  function Do(s: System, a: Action): Option<System> {
    match a
    case Boot => DoBoot(s)
    case FirstSave(c, launch, document, key, step) => DoFirstSave(s, c, launch, document, key, step)
    case StartSession(cookie, commit, key, cut) => DoStartSession(s, cookie, commit, key, cut)
    case CookieUnread =>
      if s.process.Running? && s.process.capability.Some? then Some(s.(process := s.process.(capability := None))) else None
    case Document(terminal) =>
      if s.process.Running? && s.process.cookie.Some? && s.process.commit.Some? then
        Some(if terminal then s.(process := Terminal(s.process.launch, s.process.document)) else s)
      else None
    case Serve(call) => if call.Acknowledging? then None else Some(s.(server := Server.Apply(s.server, call)))
    case Reveal(digest) =>
      if s.process.Terminal? then
        Some(s.(process := Verified(s.process.launch, s.process.document, digest)))
      else None
    case WriteEvidence =>
      if s.process.Verified? then
        Some(s.(evidence := s.evidence + {s.process.digest},
                process := Written(s.process.launch, s.process.document, s.process.digest)))
      else None
    case Approve =>
      if s.process.Written? then
        Some(s.(process := Approved(s.process.launch, s.process.document, s.process.digest, 0)))
      else None
    case SendAcknowledgement(reply) => if s.process.Approved? then Some(DoAcknowledge(s, s.process, reply)) else None
    case Delete(step) =>
      if s.process.Acknowledged? && 0 < step < 4 then
        Some(s.(disk := DeleteSteps(s.disk)[step], process := Down, deleting := true))
      else None
    case Crash => Some(s.(process := Down))
  }

  function Fresh(cases: nat, runner: Server.RunnerHash): System {
    System(Disk(None, None, None), Down, {}, Server.Created(cases, runner), None, false, false)
  }

  function Run(s: System, actions: seq<Action>): Option<System>
    decreases |actions|
  {
    if actions == [] then Some(s) else
    match Do(s, actions[0])
    case None => None
    case Some(next) => Run(next, actions[1..])
  }

  // ----- what every crash leaves behind ----------------------------------------------------------

  /** The saved record is whole, keeps the run's ids, and holds exactly one credential. */
  predicate DiskHolds(s: System) {
    && s.ids.Some? && Load(s.disk).Ok? && Load(s.disk).value.Some?
    && var r := Load(s.disk).value.value;
       ExactlyOne(r) && (r.launch, r.document) == s.ids.value && (r.cookie.Some? <==> r.commit.Some?)
  }

  /** The server sealed this digest, and acknowledged it. */
  predicate HasAcknowledged(s: System, digest: Digest) {
    s.server.status.Acknowledged? && s.server.evidence.Some? && s.server.evidence.value.digest == digest
  }

  predicate ProcessOk(s: System) {
    match s.process
    case Down => true
    case Running(l, d, cap, cookie, commit) =>
      s.saved && !s.deleting && s.ids == Some((l, d)) && !(cap.Some? && cookie.Some?) && (cookie.Some? <==> commit.Some?)
    case Terminal(l, d) => s.saved && !s.deleting && s.ids == Some((l, d))
    case Verified(l, d, _) => s.saved && !s.deleting && s.ids == Some((l, d))
    case Written(l, d, g) => s.saved && !s.deleting && s.ids == Some((l, d)) && g in s.evidence
    case Approved(l, d, g, _) => s.saved && !s.deleting && s.ids == Some((l, d)) && g in s.evidence
    case Acknowledged(g) => s.saved && !s.deleting && g in s.evidence && HasAcknowledged(s, g)
  }

  predicate Inv(s: System) {
    && (s.saved && !s.deleting ==> DiskHolds(s))
    && (!s.saved ==> s.disk.artifact.None? && !s.deleting)
    && (s.server.status.Acknowledged? ==> !s.server.data)
    && (s.deleting ==> s.server.evidence.Some? && s.server.evidence.value.digest in s.evidence
                       && HasAcknowledged(s, s.server.evidence.value.digest))
    && ProcessOk(s)
  }

  lemma FirstSaveKeepsInv(s: System, a: Action, s': System)
    requires Inv(s) && a.FirstSave? && Do(s, a) == Some(s')
    ensures Inv(s')
  {
    assert s.saved && !s.deleting ==> DiskHolds(s);
  }

  lemma StartKeepsInv(s: System, a: Action, s': System)
    requires Inv(s) && a.StartSession? && Do(s, a) == Some(s')
    ensures Inv(s')
  {
    var p := s.process;
    var r := Record(p.launch, p.document, None, Some(a.cookie), Some(a.commit));
    SaveIsAtomic(s.disk, Load(s.disk).value.value, r, a.key, a.cut.step);
  }

  /** Which credential is on disk after a session was started: the cookie exactly when the save
      finished, and else the capability the server has already used, even if the process survived
      and goes on with the cookie. */
  lemma CredentialOnDiskIff(s: System, a: Action, s': System)
    requires Inv(s) && a.StartSession? && Do(s, a) == Some(s') && Load(s.disk).value.value.capability.Some?
    ensures DiskHolds(s')
    ensures var r := Load(s'.disk).value.value;
            && (r.cookie == Some(a.cookie) <==> a.cut.step == 6)
            && (r.capability.Some? <==> a.cut.step < 6)
    ensures s'.process.Running? <==> a.cut.step == 6 || a.cut.survives
    ensures s'.process.Running? ==> s'.process.cookie == Some(a.cookie) && s'.process.capability.None?
  {
    StartKeepsInv(s, a, s');
    var p := s.process;
    var r := Record(p.launch, p.document, None, Some(a.cookie), Some(a.commit));
    SaveIsAtomic(s.disk, Load(s.disk).value.value, r, a.key, a.cut.step);
  }

  /** What the server has acknowledged stays so, whatever else it is asked. */
  lemma ServeKeepsInv(s: System, a: Action, s': System)
    requires Inv(s) && a.Serve? && Do(s, a) == Some(s')
    ensures Inv(s')
  {
    if s.server.status.Acknowledged? {
      Server.AcknowledgedForGood(s.server, [a.call]);
    }
  }

  lemma AcknowledgingKeepsInv(s: System, a: Action, s': System)
    requires Inv(s) && a.SendAcknowledgement? && Do(s, a) == Some(s')
    ensures Inv(s')
  {
  }

  lemma StepKeepsInv(s: System, a: Action, s': System)
    requires Inv(s) && Do(s, a) == Some(s')
    ensures Inv(s')
  {
    match a
    case FirstSave(_, _, _, _, _) => FirstSaveKeepsInv(s, a, s');
    case StartSession(_, _, _, _) => StartKeepsInv(s, a, s');
    case Serve(_) => ServeKeepsInv(s, a, s');
    case SendAcknowledgement(_) => AcknowledgingKeepsInv(s, a, s');
    case _ =>
  }

  lemma {:induction false} RunKeepsInv(s: System, actions: seq<Action>, s': System)
    requires Inv(s) && Run(s, actions) == Some(s')
    ensures Inv(s')
    decreases |actions|
  {
    if actions != [] {
      StepKeepsInv(s, actions[0], Do(s, actions[0]).value);
      RunKeepsInv(Do(s, actions[0]).value, actions[1..], s');
    }
  }

  /** At every crash point from the first finished save until deletion begins, the files hold one
      whole record with the run's own launch and document id and exactly one of the capability
      and the recovery cookie, also after a save that threw and was survived. */
  lemma RecordSurvivesEveryCrash(cases: nat, runner: Server.RunnerHash, actions: seq<Action>, s: System)
    requires Run(Fresh(cases, runner), actions) == Some(s) && s.saved && !s.deleting
    ensures DiskHolds(s)
  {
    RunKeepsInv(Fresh(cases, runner), actions, s);
  }

  /** Deletion begins only when the evidence with this digest was verified and written, and the
      server sealed and acknowledged that very digest, whether or not its first reply was lost. */
  lemma DeletedOnlyWhenAcknowledged(cases: nat, runner: Server.RunnerHash, actions: seq<Action>, s: System, step: nat,
                                    s': System)
    requires Run(Fresh(cases, runner), actions) == Some(s) && Do(s, Delete(step)) == Some(s')
    ensures s.process.digest in s.evidence && HasAcknowledged(s, s.process.digest) && DiskHolds(s)
  {
    RunKeepsInv(Fresh(cases, runner), actions, s);
  }

  lemma IdsStay(s: System, a: Action, s': System)
    requires Inv(s) && Do(s, a) == Some(s') && s.ids.Some? && s.saved
    ensures s'.ids == s.ids && s'.saved
  {
    assert s.saved && !s.deleting ==> DiskHolds(s);
  }

  lemma {:induction false} IdsStayInRun(s: System, more: seq<Action>, s': System)
    requires Inv(s) && Run(s, more) == Some(s') && s.ids.Some? && s.saved
    ensures s'.ids == s.ids && s'.saved
    decreases |more|
  {
    if more != [] {
      var next := Do(s, more[0]).value;
      StepKeepsInv(s, more[0], next);
      IdsStay(s, more[0], next);
      IdsStayInRun(next, more[1..], s');
    }
  }

  /** The ids never change once the first record is saved, across any crashes and restarts; and
      until deletion begins they are the ones on disk. */
  lemma IdsNeverChange(cases: nat, runner: Server.RunnerHash, actions: seq<Action>, s: System, more: seq<Action>,
                       s': System)
    requires Run(Fresh(cases, runner), actions) == Some(s) && s.saved && s.ids.Some? && Run(s, more) == Some(s')
    ensures s'.saved && s'.ids == s.ids
    ensures !s'.deleting ==> Load(s'.disk).Ok? && Load(s'.disk).value.Some?
                             && (Load(s'.disk).value.value.launch, Load(s'.disk).value.value.document) == s.ids.value
  {
    RunKeepsInv(Fresh(cases, runner), actions, s);
    IdsStayInRun(s, more, s');
    RunKeepsInv(s, more, s');
  }

  /** Losing the reply to an acknowledgement the server granted does not lose the deletion:
      whatever the server is asked meanwhile, the second call is granted for the same digest. */
  lemma LostAcknowledgementIsRepeated(s: System, s': System, calls: seq<Server.Call>)
    requires s.process.Approved? && s.process.tries == 0 && Server.Acknowledge(s.server, s.process.digest).1
    requires Do(s, SendAcknowledgement(Lost)) == Some(s')
    ensures HasAcknowledged(s', s.process.digest)
    ensures var later := s'.(server := Server.ApplyAll(s'.server, calls));
            var end := Do(later, SendAcknowledgement(Arrives)).value;
            later == s' && end.process == Process.Acknowledged(s.process.digest)
  {
    Server.AcknowledgedForGood(s'.server, calls);
  }

  /** After any crash before deletion, the next process takes up the run's own ids with the one
      credential that is on disk. */
  lemma CrashIsTakenUp(cases: nat, runner: Server.RunnerHash, actions: seq<Action>, s: System)
    requires Run(Fresh(cases, runner), actions) == Some(s) && s.saved && !s.deleting && s.process.Down?
    ensures Load(s.disk).Ok? && Load(s.disk).value.Some? && s.ids.Some?
    ensures var r := Load(s.disk).value.value;
            && Do(s, Boot) == Some(s.(process := Running(s.ids.value.0, s.ids.value.1, r.capability, r.cookie, r.commit)))
            && ExactlyOne(r) && (r.cookie.Some? <==> r.commit.Some?)
  {
    RecordSurvivesEveryCrash(cases, runner, actions, s);
  }

  /** And if the credential is the cookie and the server has sealed the run, that process goes on to
      its end: the evidence is written, acknowledged, and every file is gone. */
  lemma ResumedRunFinishes(cases: nat, runner: Server.RunnerHash, actions: seq<Action>, s: System, digest: Digest)
    requires Run(Fresh(cases, runner), actions) == Some(s) && s.saved && !s.deleting && s.process.Down?
    requires Load(s.disk).Ok? && Load(s.disk).value.Some? ==> Load(s.disk).value.value.cookie.Some?
    requires Server.Acknowledge(s.server, digest).1
    ensures var end := Run(s, [Boot, Document(true), Reveal(digest), WriteEvidence, Approve, SendAcknowledgement(Arrives),
                               Delete(3)]);
            && end.Some? && end.value.disk == Disk(None, None, None) && digest in end.value.evidence
            && end.value.server.status.Acknowledged?
  {
    CrashIsTakenUp(cases, runner, actions, s);
    var s1 := Do(s, Boot).value;
    CookieRunFinishes(s1, digest);
    RunsFirst(s, Boot, [Document(true), Reveal(digest), WriteEvidence, Approve, SendAcknowledgement(Arrives), Delete(3)]);
  }

  /** A process with a cookie, over a sealed run. */
  lemma CookieRunFinishes(s1: System, digest: Digest)
    requires s1.process.Running? && s1.process.cookie.Some? && s1.process.commit.Some?
    requires Server.Acknowledge(s1.server, digest).1
    ensures var end := Run(s1, [Document(true), Reveal(digest), WriteEvidence, Approve, SendAcknowledgement(Arrives),
                                Delete(3)]);
            && end.Some? && end.value.disk == Disk(None, None, None) && digest in end.value.evidence
            && end.value.server.status.Acknowledged?
  {
    var s2 := Do(s1, Document(true)).value;
    var s3 := Do(s2, Reveal(digest)).value;
    VerifiedRunFinishes(s3);
    RunsFirst(s2, Reveal(digest), [WriteEvidence, Approve, SendAcknowledgement(Arrives), Delete(3)]);
    RunsFirst(s1, Document(true), [Reveal(digest), WriteEvidence, Approve, SendAcknowledgement(Arrives), Delete(3)]);
  }

  lemma VerifiedRunFinishes(s3: System)
    requires s3.process.Verified? && Server.Acknowledge(s3.server, s3.process.digest).1
    ensures var end := Run(s3, [WriteEvidence, Approve, SendAcknowledgement(Arrives), Delete(3)]);
            && end.Some? && end.value.disk == Disk(None, None, None) && s3.process.digest in end.value.evidence
            && end.value.server.status.Acknowledged?
  {
    var s4 := Do(s3, WriteEvidence).value;
    var s5 := Do(s4, Approve).value;
    var s6 := Do(s5, SendAcknowledgement(Arrives)).value;
    var s7 := Do(s6, Delete(3)).value;
    assert Run(s7, []) == Some(s7);
    RunsFirst(s6, Delete(3), []);
    RunsFirst(s5, SendAcknowledgement(Arrives), [Delete(3)]);
    RunsFirst(s4, Approve, [SendAcknowledgement(Arrives), Delete(3)]);
    RunsFirst(s3, WriteEvidence, [Approve, SendAcknowledgement(Arrives), Delete(3)]);
  }

  lemma RunsFirst(s: System, a: Action, rest: seq<Action>)
    requires Do(s, a).Some?
    ensures Run(s, [a] + rest) == Run(Do(s, a).value, rest)
  {
    assert ([a] + rest)[1..] == rest;
  }

  /** A session whose cookie was lost leaves the process with nothing to go on with, and the used
      capability on disk. */
  lemma LostCookieStrandsTheProcess(cases: nat, runner: Server.RunnerHash, actions: seq<Action>, s: System, a: Action)
    requires Run(Fresh(cases, runner), actions) == Some(s) && s.process.Running? && s.process.capability.Some?
    requires a.StartSession? || a.Document?
    ensures var s' := Do(s, CookieUnread);
            && s'.Some? && s'.value.process.Running? && s'.value.process.capability.None? && s'.value.process.cookie.None?
            && s'.value.disk == s.disk && DiskHolds(s'.value) && Do(s'.value, a).None?
  {
    RunKeepsInv(Fresh(cases, runner), actions, s);
  }

  /** A run that nothing interrupts: the first save starts the process, the session puts the cookie in the
      capability's place, and a sealed run is written, acknowledged and deleted. */
  lemma UninterruptedRunFinishes(s: System, capability: nat, launch: nat, document: nat, key: Key, cookie: nat, commit: nat,
                                 digest: Digest)
    requires s.disk == Disk(None, None, None) && s.process.Down? && !s.deleting && !s.saved
    requires Server.Acknowledge(s.server, digest).1
    ensures var started := Run(s, [FirstSave(capability, launch, document, key, 6)]);
            && started.Some? && started.value.process == Running(launch, document, Some(capability), None, None)
            && started.value.ids == Some((launch, document))
            && Load(started.value.disk) == Ok(Some(Record(launch, document, Some(capability), None, None)))
    ensures var end := Run(s, [FirstSave(capability, launch, document, key, 6),
                               StartSession(cookie, commit, key, Cut(6, false)), Document(true), Reveal(digest),
                               WriteEvidence, Approve, SendAcknowledgement(Arrives), Delete(3)]);
            && end.Some? && end.value.disk == Disk(None, None, None) && digest in end.value.evidence
            && end.value.server.status.Acknowledged?
  {
    var first := FirstSave(capability, launch, document, key, 6);
    var s1 := Do(s, first).value;
    assert Run(s1, []) == Some(s1);
    RunsFirst(s, first, []);
    assert s1.process == Running(launch, document, Some(capability), None, None);
    var session := StartSession(cookie, commit, key, Cut(6, false));
    var s2 := Do(s1, session).value;
    assert s2.process == Running(launch, document, None, Some(cookie), Some(commit)) && s2.server == s.server;
    CookieRunFinishes(s2, digest);
    var rest := [Document(true), Reveal(digest), WriteEvidence, Approve, SendAcknowledgement(Arrives), Delete(3)];
    RunsFirst(s1, session, rest);
    RunsFirst(s, first, [session] + rest);
  }
}
