/** The browser-local one-run record of the invocation-integrity page: how a record is
    read, and how the two guarded writers (arm and seal) change the storage cell. */
module RunLockMarkers {
  import opened Prelude

  datatype Json =
    | JNull
    | JBool(b: bool)
    | JNumber(n: int)
    | JString(s: string)
    | JArray(items: seq<Json>)
    | JObject(fields: map<string, Json>)

  type Record = map<string, Json>

  /** What a page knows about itself. Calendar arithmetic is not modelled: `isIso` is the
      page's test that a string is exactly what `toISOString` prints. */
  datatype Build = Build(commit: string, origin: string, isIso: string -> bool)

  datatype Claim = Claim(origin: string, id: string, startedAt: string)

  datatype Phase = Verified | Failed

  datatype Marker =
    | InProgress(claim: Claim)
    | Terminal(claim: Claim, phase: Phase, completedAt: string, artifact: Record)

  const VERSION := "thurstone-invocation-integrity-run-lock@1"

  const IN_PROGRESS_KEYS := {"version", "appCommit", "origin", "claimId", "state", "startedAt"}

  const TERMINAL_KEYS := IN_PROGRESS_KEYS + {"terminalPhase", "completedAt", "artifact"}

  predicate IsLowerHex(c: char) {
    '0' <= c <= '9' || 'a' <= c <= 'f'
  }

  /** A lower-case version 4 UUID. */
  predicate IsClaimId(s: string) {
    && |s| == 36
    && (forall i :: 0 <= i < 36 ==> if i in {8, 13, 18, 23} then s[i] == '-' else IsLowerHex(s[i]))
    && s[14] == '4'
    && s[19] in {'8', '9', 'a', 'b'}
  }

  predicate ValidClaim(b: Build, c: Claim) {
    c.origin == b.origin && IsClaimId(c.id) && b.isIso(c.startedAt)
  }

  predicate ValidMarker(b: Build, m: Marker) {
    ValidClaim(b, m.claim) && (m.Terminal? ==> b.isIso(m.completedAt))
  }

  function PhaseName(p: Phase): string {
    if p.Verified? then "verified" else "failed"
  }

  function CommonFields(b: Build, c: Claim, state: string): Record {
    map["version" := JString(VERSION), "appCommit" := JString(b.commit), "origin" := JString(c.origin),
        "claimId" := JString(c.id), "state" := JString(state), "startedAt" := JString(c.startedAt)]
  }

  /** The object each writer builds. */
  function Serialize(b: Build, m: Marker): Json {
    match m
    case InProgress(c) => JObject(CommonFields(b, c, "in-progress"))
    case Terminal(c, p, at, artifact) =>
      JObject(CommonFields(b, c, "terminal")
              + map["terminalPhase" := JString(PhaseName(p)), "completedAt" := JString(at),
                    "artifact" := JObject(artifact)])
  }

  predicate Holds(fields: Record, key: string, value: string) {
    key in fields && fields[key] == JString(value)
  }

  predicate HasString(fields: Record, key: string) {
    key in fields && fields[key].JString?
  }

  /** The reader's checks, in the reader's order. */
  function Parse(b: Build, j: Json): Option<Marker> {
    if !j.JObject? then None else
    var f := j.fields;
    if !(Holds(f, "version", VERSION) && Holds(f, "appCommit", b.commit) && Holds(f, "origin", b.origin)
         && HasString(f, "claimId") && IsClaimId(f["claimId"].s)
         && HasString(f, "startedAt") && b.isIso(f["startedAt"].s)) then None else
    var claim := Claim(b.origin, f["claimId"].s, f["startedAt"].s);
    if Holds(f, "state", "in-progress") && f.Keys == IN_PROGRESS_KEYS then Some(InProgress(claim))
    else if Holds(f, "state", "terminal")
         && (Holds(f, "terminalPhase", "verified") || Holds(f, "terminalPhase", "failed"))
         && HasString(f, "completedAt") && b.isIso(f["completedAt"].s)
         && "artifact" in f && f["artifact"].JObject?
         && f.Keys == TERMINAL_KEYS then
      Some(Terminal(claim, if Holds(f, "terminalPhase", "verified") then Verified else Failed,
                    f["completedAt"].s, f["artifact"].fields))
    else None
  }

  lemma CommonFieldsHold(b: Build, c: Claim, state: string)
    ensures var f := CommonFields(b, c, state);
            && f.Keys == IN_PROGRESS_KEYS
            && f["version"] == JString(VERSION) && f["appCommit"] == JString(b.commit)
            && f["origin"] == JString(c.origin) && f["claimId"] == JString(c.id)
            && f["state"] == JString(state) && f["startedAt"] == JString(c.startedAt)
  {
    assert CommonFields(b, c, state).Keys == IN_PROGRESS_KEYS;
  }

  lemma StateNamesDiffer()
    ensures "in-progress" != "terminal" && "verified" != "failed"
  {
    assert |"in-progress"| != |"terminal"| && |"verified"| != |"failed"|;
  }

  lemma KeysApart()
    ensures IN_PROGRESS_KEYS !! {"terminalPhase", "completedAt", "artifact"}
  {
    assert "terminalPhase"[0] == 't' && "completedAt"[1] == 'o' && "artifact"[1] == 'r';
    assert forall k | k in IN_PROGRESS_KEYS :: k[0] != 't' && k[1] != 'o' && (k[0] == 'a' ==> k[1] == 'p');
  }

  lemma TerminalFieldsHold(b: Build, m: Marker)
    requires m.Terminal?
    ensures var f := Serialize(b, m).fields;
            && f.Keys == TERMINAL_KEYS
            && (forall k | k in IN_PROGRESS_KEYS :: f[k] == CommonFields(b, m.claim, "terminal")[k])
            && f["terminalPhase"] == JString(PhaseName(m.phase)) && f["completedAt"] == JString(m.completedAt)
            && f["artifact"] == JObject(m.artifact)
  {
    CommonFieldsHold(b, m.claim, "terminal");
    var extra := map["terminalPhase" := JString(PhaseName(m.phase)), "completedAt" := JString(m.completedAt),
                     "artifact" := JObject(m.artifact)];
    KeysApart();
    assert extra.Keys == {"terminalPhase", "completedAt", "artifact"};
  }

  lemma ParseAcceptsWritten(b: Build, m: Marker)
    requires ValidMarker(b, m)
    ensures Parse(b, Serialize(b, m)) == Some(m)
  {
    StateNamesDiffer();
    if m.InProgress? {
      CommonFieldsHold(b, m.claim, "in-progress");
    } else {
      CommonFieldsHold(b, m.claim, "terminal");
      TerminalFieldsHold(b, m);
    }
  }

  lemma ParsedIsWritten(b: Build, j: Json, m: Marker)
    requires Parse(b, j) == Some(m)
    ensures ValidMarker(b, m) && Serialize(b, m) == j
  {
    var f := j.fields;
    if m.InProgress? {
      CommonFieldsHold(b, m.claim, "in-progress");
      assert f == Serialize(b, m).fields;
    } else {
      CommonFieldsHold(b, m.claim, "terminal");
      TerminalFieldsHold(b, m);
      SameTerminalFields(f, Serialize(b, m).fields);
    }
  }

  lemma SameTerminalFields(f: Record, g: Record)
    requires f.Keys == TERMINAL_KEYS == g.Keys
    requires forall k | k in IN_PROGRESS_KEYS :: f[k] == g[k]
    requires f["terminalPhase"] == g["terminalPhase"] && f["completedAt"] == g["completedAt"]
    requires f["artifact"] == g["artifact"]
    ensures f == g
  {
  }

  /** The reader accepts exactly the records the writers of this build and origin produce. */
  lemma ParseIffWritten(b: Build, j: Json, m: Marker)
    ensures Parse(b, j) == Some(m) <==> ValidMarker(b, m) && j == Serialize(b, m)
  {
    if Parse(b, j) == Some(m) {
      ParsedIsWritten(b, j, m);
    }
    if ValidMarker(b, m) {
      ParseAcceptsWritten(b, m);
    }
  }

  /** What a reader can make of the storage cell. */
  datatype Cell = Absent | Garbage | Held(marker: Marker)

  /** What `setItem` followed by the read-back comparison can do. */
  datatype WriteOutcome = Stored | Refused | StoredButThrew

  /** What the storage does with one write: whether it takes the text, and whether the write or the
      read-back throws. */
  datatype Storage = Storage(takes: bool, throws: bool)

  function OutcomeOf(e: Storage): WriteOutcome {
    if !e.takes then Refused else if e.throws then StoredButThrew else Stored
  }

  /** The text under the key: text that is not JSON at all, or JSON. */
  datatype Item = Malformed | Text(json: Json)

  function View(b: Build, item: Option<Item>): Cell {
    match item
    case None => Absent
    case Some(Malformed) => Garbage
    case Some(Text(j)) => match Parse(b, j) case None => Garbage case Some(m) => Held(m)
  }

  /** What arming decides to write when it looks at the cell; nothing means it throws. */
  function ArmDecision(cell: Cell, minted: Option<Claim>): Option<Marker> {
    if cell.Absent? && minted.Some? then Some(InProgress(minted.value)) else None
  }

  /** What sealing decides to write when it looks at the cell; nothing means it throws. */
  function SealDecision(cell: Cell, claim: Claim, phase: Phase, at: string, artifact: Record): Option<Marker> {
    if cell == Held(InProgress(claim)) then Some(Terminal(claim, phase, at, artifact)) else None
  }

  datatype LockError = AlreadyConsumed | ClaimUnavailable | WriteFailed | Missing | Invalid | ClaimMismatch

  /** The storage cell with the bodies of the two run-lock callbacks. */
  class RunLockStore {
    const build: Build
    var item: Option<Item>

    constructor (build: Build, item: Option<Item>)
      ensures this.build == build && this.item == item
    {
      this.build := build;
      this.item := item;
    }

    ghost function Seen(): Cell
      reads this
    {
      View(build, item)
    }

    /** Stores the serialized record and compares what it reads back. */
    method Write(m: Marker, e: Storage) returns (ok: bool)
      requires ValidMarker(build, m)
      modifies this
      ensures ok <==> !e.throws && (e.takes || old(item) == Some(Text(Serialize(build, m))))
      ensures !e.takes ==> item == old(item)
      ensures e.takes || ok ==> Seen() == Held(m)
      ensures old(Seen()) != Held(m) ==> (ok <==> OutcomeOf(e).Stored?)
    {
      var serialized := Text(Serialize(build, m));
      ParseAcceptsWritten(build, m);
      if e.takes {
        item := Some(serialized);
      }
      if e.throws {
        return false;
      }
      return item == Some(serialized);
    }

    /** Arming succeeds only over an absent record, and then the cell holds its claim. Every
        failure but a write that threw after storing leaves the cell as it was. */
    method Arm(minted: Option<Claim>, e: Storage) returns (r: Result<Marker, LockError>)
      requires minted.Some? ==> ValidClaim(build, minted.value)
      modifies this
      ensures r.Ok? <==> old(item) == None && minted.Some? && OutcomeOf(e).Stored?
      ensures r.Ok? ==> r.value == InProgress(minted.value) && Seen() == Held(r.value)
      ensures r.Err? ==> item == old(item) || (OutcomeOf(e).StoredButThrew? && r.error.WriteFailed?)
      ensures item != old(item) ==> old(item) == None && minted.Some? && Seen() == Held(InProgress(minted.value))
      ensures Seen() == match ArmDecision(old(Seen()), minted)
                        case None => old(Seen())
                        case Some(m) => if OutcomeOf(e).Refused? then old(Seen()) else Held(m)
    {
      if item.Some? {
        return Err(AlreadyConsumed);
      }
      if minted.None? {
        return Err(ClaimUnavailable);
      }
      var marker := InProgress(minted.value);
      var ok := Write(marker, e);
      return if ok then Ok(marker) else Err(WriteFailed);
    }

    /** Sealing succeeds only over the in-progress record of this very claim, and carries its
        origin, id and start time over. */
    method Seal(claim: Claim, phase: Phase, at: string, artifact: Record, e: Storage)
      returns (r: Result<Marker, LockError>)
      requires ValidClaim(build, claim) && build.isIso(at)
      modifies this
      ensures r.Ok? <==> old(Seen()) == Held(InProgress(claim)) && OutcomeOf(e).Stored?
      ensures r.Ok? ==> r.value == Terminal(claim, phase, at, artifact) && Seen() == Held(r.value)
      ensures r.Err? ==> item == old(item) || (OutcomeOf(e).StoredButThrew? && r.error.WriteFailed?)
      ensures r.Err? && r.error.Missing? <==> old(item).None?
      ensures r.Err? && r.error.Invalid? <==> old(Seen()).Garbage?
      ensures r.Err? && r.error.ClaimMismatch? <==> old(Seen()).Held? && old(Seen()) != Held(InProgress(claim))
      ensures Seen() == match SealDecision(old(Seen()), claim, phase, at, artifact)
                        case None => old(Seen())
                        case Some(m) => if OutcomeOf(e).Refused? then old(Seen()) else Held(m)
    {
      if item.None? {
        return Err(Missing);
      }
      if item.value.Malformed? {
        return Err(Invalid);
      }
      var current := Parse(build, item.value.json);
      if current.None? {
        return Err(Invalid);
      }
      if !current.value.InProgress? || current.value.claim.origin != claim.origin
         || current.value.claim.id != claim.id || current.value.claim.startedAt != claim.startedAt {
        return Err(ClaimMismatch);
      }
      var terminal := Terminal(claim, phase, at, artifact);
      var ok := Write(terminal, e);
      return if ok then Ok(terminal) else Err(WriteFailed);
    }
  }
}
