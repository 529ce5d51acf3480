/** The calibration client that drives a remote sequential run through lossy responses: one
    browser document per attempt, at most twelve documents, given up after two consecutive
    failures. The run is advanced by this client alone. */
module FallbackLoop {
  import opened Prelude

  const MAX_DOCUMENTS := 12

  /** What happens to the session part of a document: it opens, it fails, or the run was armed
      and the recovery cookie could not be read back. */
  datatype Opening = Opens | OpenFails | CookieUnread

  /** What happens to the trial: sealed, failed before the run advanced, or failed after it. */
  datatype Trial = Seals | FailsBefore | ResponseLost

  datatype Weather = Weather(opening: Opening, trial: Trial)

  /** What the client can present: the typed capability, the recovery cookie together with the
      continuation it last saw, or nothing any more. */
  datatype Credential = Capability | Cookie(known: nat) | Spent

  /** The client's variables, and the hidden ordinal of the run it talks to. */
  datatype Client = Client(ordinal: nat, credential: Credential, terminal: bool, failures: nat)

  function Begun(): Client {
    Client(0, Capability, false, 0)
  }

  function Fail(c: Client): Client {
    c.(failures := c.failures + 1)
  }

  function Visit(cases: nat, c: Client, known: nat, t: Trial): Client {
    if c.ordinal >= cases then c.(terminal := true)
    else if known != c.ordinal then c.(credential := Cookie(c.ordinal), failures := 0)
    else
      match t
      case Seals =>
        c.(ordinal := c.ordinal + 1, credential := Cookie(c.ordinal + 1), failures := 0,
           terminal := c.ordinal + 1 >= cases)
      case FailsBefore => Fail(c)
      case ResponseLost => Fail(c.(ordinal := c.ordinal + 1))
  }

  /** One turn of the document loop. */
  function Document(cases: nat, c: Client, w: Weather): Client {
    match c.credential
    case Cookie(known) => if w.opening.Opens? then Visit(cases, c, known, w.trial) else Fail(c)
    case Spent => Fail(c)
    case Capability =>
      match w.opening
      case OpenFails => Fail(c)
      case CookieUnread => Fail(c.(credential := Spent))
      case Opens => Visit(cases, c.(credential := Cookie(c.ordinal)), c.ordinal, w.trial)
  }

  predicate Stopped(c: Client) {
    c.terminal || c.failures >= 2
  }

  /** The client after `n` documents, or where it stopped before that. */
  function After(cases: nat, weather: nat -> Weather, n: nat): Client {
    if n == 0 then Begun() else
    var c := After(cases, weather, n - 1);
    if Stopped(c) then c else Document(cases, c, weather(n - 1))
  }

  /** How many documents have been used, counting only those opened before the client stopped. */
  function Used(cases: nat, weather: nat -> Weather, n: nat): nat {
    if n == 0 then 0 else
    Used(cases, weather, n - 1) + if Stopped(After(cases, weather, n - 1)) then 0 else 1
  }

  datatype Outcome = Terminal | TwoFailures | Exhausted

  /** The run index the client talks to: only a trial that gets through advances it. */
  class RunIndex {
    const cases: nat
    var ordinal: nat

    constructor (cases: nat)
      ensures this.cases == cases && ordinal == 0
    {
      this.cases := cases;
      ordinal := 0;
    }

    method RunTrial(t: Trial) returns (sealed: bool)
      modifies this
      ensures sealed <==> t.Seals?
      ensures ordinal == old(ordinal) + if t.FailsBefore? then 0 else 1
    {
      if !t.FailsBefore? {
        ordinal := ordinal + 1;
      }
      return t.Seals?;
    }
  }

  function Presented(capability: bool, known: Option<nat>): Credential {
    if known.Some? then Cookie(known.value) else if capability then Capability else Spent
  }

  /** The loop as the script runs it, in its own variables. */
  method Calibrate(run: RunIndex, weather: nat -> Weather, maxDocuments: nat)
    returns (outcome: Outcome, documents: nat)
    requires run.ordinal == 0
    modifies run
    ensures documents == Used(run.cases, weather, maxDocuments)
    ensures var end := After(run.cases, weather, maxDocuments);
            run.ordinal == end.ordinal
            && outcome == if end.terminal then Terminal else if end.failures >= 2 then TwoFailures else Exhausted
    ensures outcome.Terminal? ==> run.ordinal >= run.cases
    ensures maxDocuments >= 2 * run.cases && run.cases > 0 ==> !outcome.Exhausted? && documents <= 2 * run.cases
    ensures outcome.Terminal? && run.cases > 0 ==>
              documents == run.cases + Count(weather, Idle, documents) + Losses(weather, documents)
  {
    var capability, known: Option<nat>, terminal, failures := true, None, false, 0;
    documents := 0;
    while documents < maxDocuments && !terminal && failures < 2
      invariant documents <= maxDocuments
      invariant known.Some? ==> !capability
      invariant Client(run.ordinal, Presented(capability, known), terminal, failures)
                == After(run.cases, weather, documents)
      invariant Used(run.cases, weather, documents) == documents
      invariant terminal ==> run.ordinal >= run.cases
    {
      NextDocument(run.cases, weather, documents);
      var w := weather(documents);
      documents := documents + 1;
      var isOpen := w.opening.Opens?;
      if known.None? {
        isOpen := isOpen && capability;
        if capability && !w.opening.OpenFails? {
          capability := false;
        }
        if isOpen {
          known := Some(run.ordinal);
        }
      }
      if !isOpen {
        failures := failures + 1;
      } else if run.ordinal >= run.cases {
        terminal := true;
      } else if known.value != run.ordinal {
        known := Some(run.ordinal);
        failures := 0;
      } else {
        var sealed := run.RunTrial(w.trial);
        if sealed {
          known := Some(run.ordinal);
          failures := 0;
          terminal := run.ordinal >= run.cases;
        } else {
          failures := failures + 1;
        }
      }
    }
    outcome := if terminal then Terminal else if failures >= 2 then TwoFailures else Exhausted;
    StoppedStays(run.cases, weather, documents, maxDocuments);
    if run.cases > 0 {
      StopsInTime(run.cases, weather, maxDocuments);
      if terminal {
        DocumentsOfAFinishedRun(run.cases, weather, maxDocuments);
      }
    }
  }

  lemma NextDocument(cases: nat, weather: nat -> Weather, n: nat)
    requires !Stopped(After(cases, weather, n))
    ensures After(cases, weather, n + 1) == Document(cases, After(cases, weather, n), weather(n))
    ensures Used(cases, weather, n + 1) == Used(cases, weather, n) + 1
  {
  }

  lemma {:induction false} StoppedStays(cases: nat, weather: nat -> Weather, n: nat, m: nat)
    requires n <= m && (n == m || Stopped(After(cases, weather, n)))
    ensures After(cases, weather, m) == After(cases, weather, n)
    ensures Used(cases, weather, m) == Used(cases, weather, n)
    decreases m
  {
    if n < m {
      StoppedStays(cases, weather, n, m - 1);
    }
  }

  /** Where a client that has not stopped can stand after `d` documents. Without a pending
      failure it knows the ordinal and has used at most two documents per case; with one, it
      either still knows it or is exactly one lost response behind. */
  predicate OnCourse(cases: nat, c: Client, d: nat) {
    && c.ordinal <= cases && c.failures <= 1 && !c.terminal
    && match c.credential
       case Cookie(known) =>
         if c.failures == 0 then known == c.ordinal < cases && d <= 2 * c.ordinal
         else (known == c.ordinal < cases && d <= 2 * c.ordinal + 1) || (known + 1 == c.ordinal && d <= 2 * c.ordinal - 1)
       case _ => c.ordinal == 0 && d == c.failures
  }

  lemma DocumentStaysOnCourse(cases: nat, c: Client, d: nat, w: Weather)
    requires cases > 0 && OnCourse(cases, c, d)
    ensures var c' := Document(cases, c, w);
            && d + 1 <= 2 * cases
            && c'.ordinal <= cases && c'.failures <= 2
            && (c'.terminal ==> c'.ordinal == cases)
            && (!Stopped(c') ==> OnCourse(cases, c', d + 1))
  {
  }

  lemma {:induction false} EitherWay(cases: nat, weather: nat -> Weather, n: nat)
    requires cases > 0
    ensures var c := After(cases, weather, n);
            && Used(cases, weather, n) <= 2 * cases
            && c.ordinal <= cases && c.failures <= 2 && (c.terminal ==> c.ordinal == cases)
            && (!Stopped(c) ==> OnCourse(cases, c, n) && Used(cases, weather, n) == n)
  {
    if n > 0 {
      EitherWay(cases, weather, n - 1);
      var c := After(cases, weather, n - 1);
      if !Stopped(c) {
        DocumentStaysOnCourse(cases, c, n - 1, weather(n - 1));
      }
    }
  }

  /** Whatever is lost, the loop has stopped within two documents per case: at the end of the
      run, or on two consecutive failures. So four cases never use up twelve documents. */
  lemma StopsInTime(cases: nat, weather: nat -> Weather, n: nat)
    requires cases > 0
    ensures Used(cases, weather, n) <= 2 * cases
    ensures n >= 2 * cases ==> Stopped(After(cases, weather, n))
    ensures cases == 4 ==> Used(cases, weather, MAX_DOCUMENTS) <= 8 < MAX_DOCUMENTS
  {
    EitherWay(cases, weather, n);
    EitherWay(cases, weather, MAX_DOCUMENTS);
    if n >= 2 * cases && !Stopped(After(cases, weather, n)) {
      var c := After(cases, weather, n);
      DocumentStaysOnCourse(cases, c, n, weather(n));
    }
  }

  lemma DocumentCountsFailures(cases: nat, c: Client, w: Weather)
    ensures var c' := Document(cases, c, w); c'.terminal || c'.failures == 0 || c'.failures == c.failures + 1
  {
  }

  /** The client gives up only on two consecutive failed documents: the one before `d` and the
      one before that. */
  lemma {:induction false} GivesUpOnTwoInARow(cases: nat, weather: nat -> Weather, n: nat) returns (d: nat)
    requires cases > 0 && After(cases, weather, n).failures >= 2 && !After(cases, weather, n).terminal
    ensures 2 <= d <= n && After(cases, weather, d) == After(cases, weather, n)
    ensures After(cases, weather, d - 2).failures == 0 && !Stopped(After(cases, weather, d - 2))
    ensures After(cases, weather, d - 1).failures == 1 && !Stopped(After(cases, weather, d - 1))
  {
    var c := After(cases, weather, n - 1);
    if Stopped(c) {
      d := GivesUpOnTwoInARow(cases, weather, n - 1);
    } else {
      d := n;
      DocumentCountsFailures(cases, c, weather(n - 1));
      OneFailurePending(cases, weather, n - 1);
    }
  }

  lemma OneFailurePending(cases: nat, weather: nat -> Weather, n: nat)
    requires !Stopped(After(cases, weather, n)) && After(cases, weather, n).failures == 1
    ensures n > 0 && After(cases, weather, n - 1).failures == 0 && !Stopped(After(cases, weather, n - 1))
  {
    DocumentCountsFailures(cases, After(cases, weather, n - 1), weather(n - 1));
  }

  function EveryOtherLost(): nat -> Weather {
    (d: nat) => Weather(Opens, if d % 2 == 0 then ResponseLost else Seals)
  }

  /** The client knows case `k` and has nothing pending. */
  predicate AtCase(cases: nat, c: Client, k: nat) {
    c.ordinal == k && c.failures == 0 && !c.terminal && k < cases
    && (c.credential == Cookie(k) || (c.credential.Capability? && k == 0))
  }

  /** A lost response and the document after it: one case in two documents. */
  lemma TwoDocumentsForOneCase(cases: nat, c: Client, k: nat)
    requires AtCase(cases, c, k)
    ensures var middle := Document(cases, c, Weather(Opens, ResponseLost));
            var end := Document(cases, middle, Weather(Opens, Seals));
            !Stopped(middle) && end.ordinal == k + 1
            && if k + 1 == cases then end.terminal else AtCase(cases, end, k + 1)
  {
  }

  lemma TwoMore(cases: nat, weather: nat -> Weather, n: nat)
    requires !Stopped(After(cases, weather, n))
    requires !Stopped(Document(cases, After(cases, weather, n), weather(n)))
    ensures After(cases, weather, n + 2)
            == Document(cases, Document(cases, After(cases, weather, n), weather(n)), weather(n + 1))
    ensures Used(cases, weather, n + 2) == Used(cases, weather, n) + 2
  {
    assert After(cases, weather, n + 1) == Document(cases, After(cases, weather, n), weather(n));
    assert Used(cases, weather, n + 1) == Used(cases, weather, n) + 1;
  }

  lemma EvenThenOdd(k: nat)
    ensures (k + k) % 2 == 0 && (k + k + 1) % 2 == 1
  {
  }

  /** The response to the `k`-th document pair is lost, then the next one seals. */
  predicate LosesPair(weather: nat -> Weather, k: nat) {
    weather(k + k) == Weather(Opens, ResponseLost) && weather(k + k + 1) == Weather(Opens, Seals)
  }

  /** Two documents later the client has advanced by one case. */
  lemma OneCaseLater(cases: nat, weather: nat -> Weather, n: nat, k: nat)
    requires AtCase(cases, After(cases, weather, n), k) && n == k + k && LosesPair(weather, k)
    ensures Used(cases, weather, n + 2) == Used(cases, weather, n) + 2
    ensures if k + 1 < cases then AtCase(cases, After(cases, weather, n + 2), k + 1) else After(cases, weather, n + 2).terminal
  {
    TwoDocumentsForOneCase(cases, After(cases, weather, n), k);
    TwoMore(cases, weather, n);
  }

  lemma {:induction false} LosesEveryOther(cases: nat, weather: nat -> Weather, k: nat)
    requires k <= cases && cases > 0 && forall j: nat :: LosesPair(weather, j)
    ensures Used(cases, weather, k + k) == k + k
    ensures if k < cases then AtCase(cases, After(cases, weather, k + k), k) else After(cases, weather, k + k).terminal
    decreases k
  {
    if k > 0 {
      LosesEveryOther(cases, weather, k - 1);
      var n := (k - 1) + (k - 1);
      assert LosesPair(weather, k - 1);
      OneCaseLater(cases, weather, n, k - 1);
      assert n + 2 == k + k;
    }
  }

  /** The bound cannot be lowered: losing every sealed response takes two documents per case. */
  lemma BoundIsReached(cases: nat)
    requires cases > 0
    ensures Used(cases, EveryOtherLost(), 2 * cases) == 2 * cases
    ensures After(cases, EveryOtherLost(), 2 * cases).terminal
  {
    forall k: nat ensures LosesPair(EveryOtherLost(), k) {
      EvenThenOdd(k);
    }
    LosesEveryOther(cases, EveryOtherLost(), cases);
    assert cases + cases == 2 * cases;
  }

  // ----- what the weather alone tells ------------------------------------------------------------------

  /** The first document that did not plainly fail to open could not read its cookie back: from then
      on nothing can be presented any more. */
  predicate NothingToPresent(weather: nat -> Weather, n: nat) {
    exists d | 0 <= d < n :: weather(d).opening.CookieUnread? && forall e | 0 <= e < d :: weather(e).opening.OpenFails?
  }

  predicate Works(weather: nat -> Weather, d: nat) {
    weather(d).opening.Opens? && !NothingToPresent(weather, d)
  }

  /** A response was lost, and no document has worked since. */
  predicate Behind(weather: nat -> Weather, n: nat) {
    n > 0 && if Works(weather, n - 1) then !Behind(weather, n - 1) && weather(n - 1).trial.ResponseLost?
             else Behind(weather, n - 1)
  }

  /** What a document is good for: one case further, learning what was lost, or nothing. */
  datatype Use = Advances | CatchesUp | Idle

  function UseOf(weather: nat -> Weather, d: nat): Use {
    if !Works(weather, d) then Idle
    else if Behind(weather, d) then CatchesUp
    else if weather(d).trial.FailsBefore? then Idle
    else Advances
  }

  function Count(weather: nat -> Weather, u: Use, n: nat): nat {
    if n == 0 then 0 else Count(weather, u, n - 1) + if UseOf(weather, n - 1) == u then 1 else 0
  }

  predicate LosesResponse(weather: nat -> Weather, d: nat) {
    UseOf(weather, d).Advances? && weather(d).trial.ResponseLost?
  }

  function Losses(weather: nat -> Weather, n: nat): nat {
    if n == 0 then 0 else Losses(weather, n - 1) + if LosesResponse(weather, n - 1) then 1 else 0
  }

  /** The number of documents in a row, up to here, that came to nothing or whose response was lost. */
  function InARow(weather: nat -> Weather, n: nat): nat {
    if n == 0 || (!UseOf(weather, n - 1).Idle? && !LosesResponse(weather, n - 1)) then 0
    else 1 + InARow(weather, n - 1)
  }

  /** With this document all cases are done and the client knows. */
  predicate Finishes(cases: nat, weather: nat -> Weather, d: nat) {
    Works(weather, d) && Count(weather, Advances, d + 1) >= cases && !Behind(weather, d + 1)
  }

  /** What the client can present. */
  predicate Holds(weather: nat -> Weather, n: nat, credential: Credential) {
    credential == if forall d | 0 <= d < n :: weather(d).opening.OpenFails? then Capability
                  else if NothingToPresent(weather, n) then Spent
                  else Cookie(var a := Count(weather, Advances, n); if Behind(weather, n) && a > 0 then a - 1 else a)
  }

  /** The client as the weather so far tells it, while it has not stopped. */
  predicate Told(cases: nat, weather: nat -> Weather, n: nat, c: Client) {
    && c.ordinal == Count(weather, Advances, n) && c.failures == InARow(weather, n) && !c.terminal
    && Holds(weather, n, c.credential) && (Behind(weather, n) ==> c.ordinal > 0 && !c.credential.Capability?)
    && (c.ordinal >= cases ==> Behind(weather, n)) && (c.credential.Capability? || c.credential.Spent? ==> c.ordinal == 0)
  }

  lemma PresentedNext(weather: nat -> Weather, n: nat)
    ensures NothingToPresent(weather, n + 1) <==>
              NothingToPresent(weather, n)
              || (weather(n).opening.CookieUnread? && forall e | 0 <= e < n :: weather(e).opening.OpenFails?)
  {
  }

  lemma DocumentAsTold(cases: nat, weather: nat -> Weather, n: nat, c: Client)
    requires cases > 0 && Told(cases, weather, n, c) && !Stopped(c)
    ensures var c' := Document(cases, c, weather(n));
            && c'.ordinal == Count(weather, Advances, n + 1)
            && (c'.terminal <==> Finishes(cases, weather, n))
            && (!c'.terminal ==> c'.failures == InARow(weather, n + 1) && Told(cases, weather, n + 1, c'))
  {
    PresentedNext(weather, n);
  }

  /** No document so far has finished the run, and none was the second in a row to fail. */
  predicate GoesOn(cases: nat, weather: nat -> Weather, n: nat) {
    (forall d | 0 <= d < n :: !Finishes(cases, weather, d)) && forall k | 0 <= k <= n :: InARow(weather, k) < 2
  }

  lemma GoesOnOneMore(cases: nat, weather: nat -> Weather, n: nat)
    ensures GoesOn(cases, weather, n + 1) <==>
              GoesOn(cases, weather, n) && !Finishes(cases, weather, n) && InARow(weather, n + 1) < 2
  {
  }

  /** The client after `n` documents is as the weather tells. */
  predicate AsTold(cases: nat, weather: nat -> Weather, n: nat) {
    && (!Stopped(After(cases, weather, n)) <==> GoesOn(cases, weather, n))
    && (GoesOn(cases, weather, n) ==> Told(cases, weather, n, After(cases, weather, n)) && Used(cases, weather, n) == n)
  }

  /** What document `n` leaves behind. */
  predicate EndsAsTold(cases: nat, weather: nat -> Weather, n: nat, c: Client) {
    c.ordinal == Count(weather, Advances, n + 1) && (c.terminal <==> Finishes(cases, weather, n))
    && (!c.terminal ==> c.failures == InARow(weather, n + 1))
  }

  lemma AsToldOneMore(cases: nat, weather: nat -> Weather, n: nat)
    requires cases > 0 && AsTold(cases, weather, n)
    ensures AsTold(cases, weather, n + 1)
    ensures GoesOn(cases, weather, n) ==>
              EndsAsTold(cases, weather, n, After(cases, weather, n + 1)) && Used(cases, weather, n + 1) == n + 1
  {
    var c := After(cases, weather, n);
    GoesOnOneMore(cases, weather, n);
    if Stopped(c) {
      StoppedStays(cases, weather, n, n + 1);
    } else {
      NextDocument(cases, weather, n);
      DocumentAsTold(cases, weather, n, c);
    }
  }

  lemma NothingYet(cases: nat, weather: nat -> Weather)
    requires cases > 0
    ensures AsTold(cases, weather, 0)
  {
  }

  lemma {:induction false} AllAsTold(cases: nat, weather: nat -> Weather, n: nat)
    requires cases > 0
    ensures AsTold(cases, weather, n)
  {
    if n == 0 {
      NothingYet(cases, weather);
    } else {
      var m := n - 1;
      AllAsTold(cases, weather, m);
      AsToldOneMore(cases, weather, m);
    }
  }

  /** The loop, told from the weather alone: it goes on exactly until a document finishes the run or a
      second one in a row fails; the first of these decides how it ends; and the run it talks to has
      advanced by one case for each document that worked, with nothing to catch up on. */
  lemma ToldByWeather(cases: nat, weather: nat -> Weather, n: nat)
    requires cases > 0
    ensures !Stopped(After(cases, weather, n)) <==> GoesOn(cases, weather, n)
    ensures GoesOn(cases, weather, n) ==>
              EndsAsTold(cases, weather, n, After(cases, weather, n + 1)) && Used(cases, weather, n + 1) == n + 1
  {
    AllAsTold(cases, weather, n);
    AsToldOneMore(cases, weather, n);
  }

  /** Every document is good for one thing, and every lost response is caught up on, but perhaps the
      last. */
  lemma {:induction false} DocumentsAddUp(weather: nat -> Weather, n: nat)
    ensures n == Count(weather, Advances, n) + Count(weather, CatchesUp, n) + Count(weather, Idle, n)
    ensures Losses(weather, n) == Count(weather, CatchesUp, n) + if Behind(weather, n) then 1 else 0
  {
    if n > 0 {
      DocumentsAddUp(weather, n - 1);
    }
  }

  lemma {:induction false} LastDocument(cases: nat, weather: nat -> Weather, n: nat) returns (d: nat)
    requires cases > 0 && After(cases, weather, n).terminal
    ensures d < n && GoesOn(cases, weather, d) && Finishes(cases, weather, d) && Used(cases, weather, n) == d + 1
    ensures After(cases, weather, n).ordinal == Count(weather, Advances, d + 1)
  {
    assert n > 0;
    d := n - 1;
    ToldByWeather(cases, weather, d);
    if !GoesOn(cases, weather, d) {
      StoppedStays(cases, weather, d, n);
      d := LastDocument(cases, weather, d);
    }
  }

  /** What a finished run costs: one document for each case, one for each that came to nothing, and
      one to catch up for each response that was lost. */
  lemma DocumentsOfAFinishedRun(cases: nat, weather: nat -> Weather, n: nat)
    requires cases > 0 && After(cases, weather, n).terminal
    ensures var used := Used(cases, weather, n);
            used == cases + Count(weather, Idle, used) + Losses(weather, used)
  {
    var d := LastDocument(cases, weather, n);
    DocumentsAddUp(weather, d + 1);
    EitherWay(cases, weather, n);
  }

  lemma {:induction false} AllSeal(weather: nat -> Weather, n: nat)
    requires forall d | 0 <= d < n :: weather(d) == Weather(Opens, Seals)
    ensures Count(weather, Advances, n) == n && !Behind(weather, n) && InARow(weather, n) == 0
    ensures forall d | 0 <= d < n :: Works(weather, d) && UseOf(weather, d).Advances?
  {
    if n > 0 {
      AllSeal(weather, n - 1);
    }
  }

  lemma {:induction false} SealingGoesOn(cases: nat, weather: nat -> Weather, n: nat)
    requires cases > 0 && n < cases && forall d | 0 <= d < n :: weather(d) == Weather(Opens, Seals)
    ensures GoesOn(cases, weather, n)
  {
    forall d | 0 <= d < n ensures !Finishes(cases, weather, d) {
      AllSeal(weather, d + 1);
    }
    forall k | 0 <= k <= n ensures InARow(weather, k) < 2 {
      AllSeal(weather, k);
    }
  }

  /** Without a failure a run takes exactly one document for each case. */
  lemma NoFailureNoDelay(cases: nat, weather: nat -> Weather, n: nat)
    requires 0 < cases <= n && forall d | 0 <= d < cases :: weather(d) == Weather(Opens, Seals)
    ensures After(cases, weather, n).terminal && After(cases, weather, n).ordinal == cases
    ensures Used(cases, weather, n) == cases
  {
    SealingGoesOn(cases, weather, cases - 1);
    AllSeal(weather, cases);
    ToldByWeather(cases, weather, cases - 1);
    StoppedStays(cases, weather, cases, n);
  }
}
