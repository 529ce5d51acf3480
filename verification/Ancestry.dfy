/** The bounded walk that checks one commit to be an ancestor of another through commits with a
    single parent. */
module Ancestry {
  import opened Prelude

  type Oid = nat

  const MAX_DEPTH := 512

  /** A line of a printed commit: either it looks like a parent header, or it does not. */
  datatype Line = ParentLine(oid: Oid) | OtherLine

  datatype Commit = Commit(headers: seq<Line>, message: seq<Line>)

  /** Printing a commit that is not in the object store fails. */
  type Repository = Oid -> Option<Commit>

  function ParentsIn(lines: seq<Line>): seq<Oid> {
    if lines == [] then []
    else (if lines[0].ParentLine? then [lines[0].oid] else []) + ParentsIn(lines[1..])
  }

  /** The walk reads every printed line, the message included. */
  function ParentsRead(c: Commit): seq<Oid> {
    ParentsIn(c.headers + c.message)
  }

  datatype Failure = Missing | NonLinear | TooDeep

  /** The commit `d` single-parent steps away, if there is one. */
  function Reach(repo: Repository, from: Oid, d: nat): Result<Oid, Failure> {
    if d == 0 then Ok(from) else
    match Reach(repo, from, d - 1)
    case Err(e) => Err(e)
    case Ok(c) =>
      match repo(c)
      case None => Err(Missing)
      case Some(commit) => if |ParentsRead(commit)| == 1 then Ok(ParentsRead(commit)[0]) else Err(NonLinear)
  }

  predicate Within(repo: Repository, ancestor: Oid, descendant: Oid, limit: nat) {
    exists d | 0 <= d <= limit :: Reach(repo, descendant, d) == Ok(ancestor)
  }

  /** The walk succeeds exactly when the ancestor is at most 512 single-parent steps away, and
      otherwise reports the first obstacle on the way, or that there was none. */
  method AssertFirstParentAncestor(repo: Repository, ancestor: Oid, descendant: Oid) returns (r: Result<nat, Failure>)
    ensures r.Ok? <==> Within(repo, ancestor, descendant, MAX_DEPTH)
    ensures r.Ok? ==> r.value <= MAX_DEPTH && Reach(repo, descendant, r.value) == Ok(ancestor)
                      && forall d | 0 <= d < r.value :: Reach(repo, descendant, d) != Ok(ancestor)
    ensures r == Err(TooDeep) <==>
              !Within(repo, ancestor, descendant, MAX_DEPTH) && Reach(repo, descendant, MAX_DEPTH + 1).Ok?
    ensures r.Err? && !r.error.TooDeep? ==> Reach(repo, descendant, MAX_DEPTH + 1) == Err(r.error)
  {
    var cursor := descendant;
    var depth := 0;
    while depth <= MAX_DEPTH
      invariant 0 <= depth <= MAX_DEPTH + 1
      invariant Reach(repo, descendant, depth) == Ok(cursor)
      invariant forall d | 0 <= d < depth :: Reach(repo, descendant, d) != Ok(ancestor)
    {
      if cursor == ancestor {
        return Ok(depth);
      }
      var commit := repo(cursor);
      var parents := if commit.Some? then ParentsRead(commit.value) else [];
      if commit.None? || |parents| != 1 {
        var failure := if commit.None? then Missing else NonLinear;
        assert Reach(repo, descendant, depth + 1) == Err(failure);
        StaysFailed(repo, descendant, depth + 1, MAX_DEPTH + 1);
        NoneBeyond(repo, ancestor, descendant, depth + 1, MAX_DEPTH);
        return Err(failure);
      }
      cursor := parents[0];
      depth := depth + 1;
    }
    return Err(TooDeep);
  }

  lemma {:induction false} StaysFailed(repo: Repository, from: Oid, d: nat, e: nat)
    requires d <= e && Reach(repo, from, d).Err?
    ensures Reach(repo, from, e) == Reach(repo, from, d)
    decreases e
  {
    if d < e {
      StaysFailed(repo, from, d, e - 1);
    }
  }

  lemma NoneBeyond(repo: Repository, ancestor: Oid, from: Oid, d: nat, limit: nat)
    requires Reach(repo, from, d).Err? && forall k | 0 <= k < d :: Reach(repo, from, k) != Ok(ancestor)
    ensures !Within(repo, ancestor, from, limit)
  {
    forall k | 0 <= k <= limit ensures Reach(repo, from, k) != Ok(ancestor) {
      if d <= k {
        StaysFailed(repo, from, d, k);
      }
    }
  }

  lemma {:induction false} ReachFurther(repo: Repository, a: Oid, b: Oid, d: nat, e: nat)
    requires Reach(repo, a, d) == Ok(b)
    ensures Reach(repo, a, d + e) == Reach(repo, b, e)
    decreases e
  {
    if e > 0 {
      ReachFurther(repo, a, b, d, e - 1);
      assert d + e - 1 == d + (e - 1);
    }
  }

  /** Successful walks compose when their distances add up to at most 512. */
  lemma WalksCompose(repo: Repository, a: Oid, b: Oid, c: Oid, d: nat, e: nat)
    requires Reach(repo, a, d) == Ok(b) && Reach(repo, b, e) == Ok(c) && d + e <= MAX_DEPTH
    ensures Within(repo, c, a, MAX_DEPTH)
  {
    ReachFurther(repo, a, b, d, e);
  }

  /** Parents come strictly before their children, as in any real history. */
  ghost predicate Acyclic(repo: Repository, age: Oid -> nat) {
    forall c | repo(c).Some? && |ParentsRead(repo(c).value)| == 1 :: age(ParentsRead(repo(c).value)[0]) < age(c)
  }

  lemma {:induction false} AgeFalls(repo: Repository, age: Oid -> nat, a: Oid, d: nat)
    requires Acyclic(repo, age) && Reach(repo, a, d).Ok?
    ensures age(Reach(repo, a, d).value) + d <= age(a)
    decreases d
  {
    if d > 0 {
      AgeFalls(repo, age, a, d - 1);
    }
  }

  lemma DistanceIsUnique(repo: Repository, age: Oid -> nat, a: Oid, c: Oid, d: nat, e: nat)
    requires Acyclic(repo, age) && Reach(repo, a, d) == Ok(c) == Reach(repo, a, e)
    ensures d == e
  {
    var lo, hi := if d < e then d else e, if d < e then e else d;
    ReachFurther(repo, a, c, lo, hi - lo);
    AgeFalls(repo, age, c, hi - lo);
  }

  /** In a real history the composed walk succeeds exactly when the distances add up to at most
      512: two accepted walks need not make a third. */
  lemma WalksComposeIff(repo: Repository, age: Oid -> nat, a: Oid, b: Oid, c: Oid, d: nat, e: nat)
    requires Acyclic(repo, age) && Reach(repo, a, d) == Ok(b) && Reach(repo, b, e) == Ok(c)
    ensures Within(repo, c, a, MAX_DEPTH) <==> d + e <= MAX_DEPTH
  {
    ReachFurther(repo, a, b, d, e);
    forall k | 0 <= k <= MAX_DEPTH && Reach(repo, a, k) == Ok(c) ensures k == d + e {
      DistanceIsUnique(repo, age, a, c, k, d + e);
    }
  }

  lemma ParentsInFirst(first: Line, rest: seq<Line>)
    ensures ParentsIn([first] + rest) == (if first.ParentLine? then [first.oid] else []) + ParentsIn(rest)
  {
    assert ([first] + rest)[1..] == rest;
  }

  lemma {:induction false} ParentsInAppend(x: seq<Line>, y: seq<Line>)
    ensures ParentsIn(x + y) == ParentsIn(x) + ParentsIn(y)
    decreases |x|
  {
    if x == [] {
      assert x + y == y;
    } else {
      ParentsInAppend(x[1..], y);
      ParentsInFirst(x[0], x[1..] + y);
      ParentsInFirst(x[0], x[1..]);
      assert x + y == [x[0]] + (x[1..] + y) && x == [x[0]] + x[1..];
    }
  }

  /** What the walk reads as parents is what the commit records as parents exactly when no line
      of the message looks like a parent header. */
  lemma ReadsRecordedParentsIff(c: Commit)
    ensures ParentsRead(c) == ParentsIn(c.headers) <==> ParentsIn(c.message) == []
  {
    ParentsInAppend(c.headers, c.message);
    assert |ParentsRead(c)| == |ParentsIn(c.headers)| + |ParentsIn(c.message)|;
  }
}
