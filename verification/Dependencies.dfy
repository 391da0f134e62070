/** Which queued entries can never run, why, and how that is explained.
    A graph maps the identity of each inbox entry to the identities it needs;
    `base` holds the identities that are merged or in flight. */
module Dependencies {
  type Id = string
  type Graph = map<Id, seq<Id>>

  predicate Satisfied(need: seq<Id>, have: set<Id>) {
    forall d :: d in need ==> d in have
  }

  /** X contains every entry all of whose prerequisites are in base or in X. */
  ghost predicate Closed(g: Graph, base: set<Id>, X: set<Id>) {
    && X <= g.Keys
    && forall n :: n in g.Keys && Satisfied(g[n], base + X) ==> n in X
  }

  ghost predicate LeastClosed(g: Graph, base: set<Id>, X: set<Id>) {
    Closed(g, base, X) && forall Y :: Closed(g, base, Y) ==> X <= Y
  }

  /** Every member waits for something outside base that is a member too or is not queued at all. */
  ghost predicate Blocking(g: Graph, base: set<Id>, B: set<Id>) {
    && B <= g.Keys
    && forall n :: n in B ==> exists d :: d in g[n] && d !in base && (d in B || d !in g.Keys)
  }

  /** Closed sets and mutually blocking sets are complements of each other. */
  lemma ClosedIffComplementBlocks(g: Graph, base: set<Id>, X: set<Id>)
    requires X <= g.Keys
    ensures Closed(g, base, X) <==> Blocking(g, base, g.Keys - X)
  {
    var B := g.Keys - X;
    forall n | n in B
      ensures (exists d :: d in g[n] && d !in base && (d in B || d !in g.Keys)) <==> !Satisfied(g[n], base + X)
    {
      if !Satisfied(g[n], base + X) {
        var d :| d in g[n] && d !in base + X;
        assert d in B || d !in g.Keys;
      }
    }
    if Blocking(g, base, B) {
      forall n | n in g.Keys && Satisfied(g[n], base + X) ensures n in X {
        assert n !in B;
      }
    }
  }

  /** What is left outside the least closed set is the greatest mutually blocking set. */
  lemma LeftoverIsGreatestBlocking(g: Graph, base: set<Id>, ok: set<Id>)
    requires LeastClosed(g, base, ok)
    ensures Blocking(g, base, g.Keys - ok)
    ensures forall B :: Blocking(g, base, B) ==> B <= g.Keys - ok
  {
    ClosedIffComplementBlocks(g, base, ok);
    forall B | Blocking(g, base, B) ensures B <= g.Keys - ok {
      assert g.Keys - (g.Keys - B) == B;
      ClosedIffComplementBlocks(g, base, g.Keys - B);
    }
  }

  /** The sweep of the queue: rescan all entries until a whole pass adds nothing. */
  method EventuallyRunnable(order: seq<Id>, g: Graph, base: set<Id>) returns (ok: set<Id>)
    requires forall n :: n in order <==> n in g.Keys
    ensures LeastClosed(g, base, ok)
  {
    ok := {};
    var grew := true;
    while grew
      invariant ok <= g.Keys
      invariant forall Y :: Closed(g, base, Y) ==> ok <= Y
      invariant !grew ==> Closed(g, base, ok)
      decreases |g.Keys - ok|, if grew then 1 else 0
    {
      grew := false;
      ghost var before := ok;
      for i := 0 to |order|
        invariant before <= ok <= g.Keys
        invariant grew <==> before != ok
        invariant forall Y :: Closed(g, base, Y) ==> ok <= Y
        invariant !grew ==> forall j :: 0 <= j < i && order[j] !in ok ==> !Satisfied(g[order[j]], base + ok)
      {
        var name := order[i];
        if name !in ok && Satisfied(g[name], base + ok) {
          forall Y | Closed(g, base, Y) ensures name in Y {
            assert Satisfied(g[name], base + Y);
          }
          ok := ok + {name};
          grew := true;
        }
      }
      if grew {
        ShrinkingRest(g.Keys, before, ok);
      }
    }
  }

  lemma ShrinkingRest(all: set<Id>, small: set<Id>, large: set<Id>)
    requires small < large <= all
    ensures |all - large| < |all - small|
  {
    var x :| x in large && x !in small;
    Smaller(all - large, all - small, x);
  }

  lemma Smaller(a: set<Id>, b: set<Id>, x: Id)
    requires a <= b && x in b && x !in a
    ensures |a| < |b|
  {
    Subset(a, b - {x});
  }

  lemma {:induction false} Subset<T>(a: set<T>, b: set<T>)
    requires a <= b
    ensures |a| <= |b|
  {
    if a != {} {
      var x :| x in a;
      Subset(a - {x}, b - {x});
    }
  }

  // ---------- reachability ----------

  ghost predicate IsPath(g: Graph, p: seq<Id>) {
    && p != []
    && forall i :: 0 <= i < |p| - 1 ==> p[i] in g && p[i + 1] in g[p[i]]
  }

  ghost predicate PathBetween(g: Graph, p: seq<Id>, a: Id, b: Id) {
    IsPath(g, p) && p[0] == a && p[|p| - 1] == b
  }

  ghost predicate Reachable(g: Graph, a: Id, b: Id) {
    exists p :: PathBetween(g, p, a, b)
  }

  lemma ReachableSelf(g: Graph, a: Id)
    ensures Reachable(g, a, a)
  {
    assert PathBetween(g, [a], a, a);
  }

  lemma ReachableStep(g: Graph, a: Id, b: Id, c: Id)
    requires Reachable(g, a, b) && b in g && c in g[b]
    ensures Reachable(g, a, c)
  {
    var p :| PathBetween(g, p, a, b);
    assert PathBetween(g, p + [c], a, c);
  }

  /** A set that is closed under prerequisites is never left by a path. */
  lemma {:induction false} PathStaysInside(g: Graph, p: seq<Id>, S: set<Id>)
    requires IsPath(g, p) && p[0] in S
    requires forall n, d :: n in S && n in g && d in g[n] ==> d in S
    ensures p[|p| - 1] in S
  {
    if |p| > 1 {
      assert p[1] in S;
      PathStaysInside(g, p[1..], S);
    }
  }

  function Mentioned(g: Graph): set<Id> {
    set n, d | n in g.Keys && d in g[n] :: d
  }

  /** What the search keeps: it has only seen reachable names, and nothing is forgotten. */
  ghost predicate Searching(g: Graph, start: Id, all: set<Id>, seen: set<Id>, stack: seq<Id>) {
    && (forall s :: s in stack || s in seen ==> s in all && Reachable(g, start, s))
    && (start in seen || start in stack)
    && (forall n, d :: n in seen && n in g && d in g[n] ==> d in seen || d in stack)
  }

  function Successors(g: Graph, n: Id): seq<Id> {
    if n in g then g[n] else []
  }

  lemma Visit(g: Graph, start: Id, all: set<Id>, seen: set<Id>, rest: seq<Id>, cur: Id)
    requires Mentioned(g) <= all && Searching(g, start, all, seen, rest + [cur])
    ensures Searching(g, start, all, seen + {cur}, rest + Successors(g, cur))
  {
    assert cur in rest + [cur];
    forall d | d in Successors(g, cur) ensures d in all && Reachable(g, start, d) {
      ReachableStep(g, start, cur, d);
    }
    assert forall s :: s in rest + Successors(g, cur) <==> s in rest || s in Successors(g, cur);
    assert forall s :: s in rest + [cur] <==> s in rest || s == cur;
  }

  lemma Revisit(g: Graph, start: Id, all: set<Id>, seen: set<Id>, rest: seq<Id>, cur: Id)
    requires Searching(g, start, all, seen, rest + [cur]) && cur in seen
    ensures Searching(g, start, all, seen, rest)
  {
    assert forall s :: s in rest + [cur] <==> s in rest || s == cur;
  }

  lemma Exhausted(g: Graph, start: Id, target: Id, all: set<Id>, seen: set<Id>)
    requires Searching(g, start, all, seen, []) && target !in seen
    ensures !Reachable(g, start, target)
  {
    forall p | PathBetween(g, p, start, target) ensures false {
      PathStaysInside(g, p, seen);
    }
  }

  /** The depth-first search that tells a cycle from a chain. */
  method Reaches(start: Id, target: Id, g: Graph) returns (found: bool)
    ensures found <==> Reachable(g, start, target)
  {
    var seen: set<Id> := {};
    var stack := [start];
    ghost var all := {start} + g.Keys + Mentioned(g);
    ReachableSelf(g, start);
    while stack != []
      invariant Searching(g, start, all, seen, stack) && target !in seen
      decreases |all - seen|, |stack|
    {
      var cur, rest := stack[|stack| - 1], stack[..|stack| - 1];
      assert stack == rest + [cur];
      if cur == target {
        return true;
      }
      if cur in seen {
        Revisit(g, start, all, seen, rest, cur);
        stack := rest;
      } else {
        Visit(g, start, all, seen, rest, cur);
        ShrinkingRest(all, seen, seen + {cur});
        seen := seen + {cur};
        stack := rest + Successors(g, cur);
      }
    }
    Exhausted(g, start, target, all, seen);
    return false;
  }

  // ---------- why an entry is deadlocked ----------

  /** The prerequisites of n that are not merged, not in flight and will not run. */
  predicate Missing(g: Graph, have: set<Id>, n: Id, d: Id) {
    n in g && d in g[n] && d !in have
  }

  /** A walk along missing prerequisites. */
  ghost predicate Chain(g: Graph, have: set<Id>, p: seq<Id>) {
    p != [] && forall i :: 0 <= i < |p| - 1 ==> Missing(g, have, p[i], p[i + 1])
  }

  /** The walk leaves the queue at its end or runs into itself. */
  ghost predicate Conclusive(g: Graph, base: set<Id>, p: seq<Id>) {
    p != [] && ((p[|p| - 1] !in g.Keys && p[|p| - 1] !in base) || exists i :: 0 <= i < |p| - 1 && p[i] == p[|p| - 1])
  }

  /** Following missing prerequisites from a deadlocked entry ends at a name that is neither
      queued nor running nor merged, or closes a cycle of deadlocked entries. */
  lemma DeadlockHasACause(g: Graph, base: set<Id>, ok: set<Id>, n: Id) returns (p: seq<Id>)
    requires LeastClosed(g, base, ok) && n in g.Keys - ok
    ensures p != [] && p[0] == n && Chain(g, base + ok, p) && Conclusive(g, base, p)
    ensures forall i :: 0 <= i < |p| - 1 ==> p[i] in g.Keys - ok
  {
    p := FollowMissing(g, base, ok, [n], g.Keys - ok - {n});
  }

  /** Each step goes to a deadlocked name not yet on the walk, of which only `left` remain. */
  lemma {:induction false} FollowMissing(g: Graph, base: set<Id>, ok: set<Id>, p: seq<Id>, left: set<Id>)
    returns (q: seq<Id>)
    requires LeastClosed(g, base, ok) && Chain(g, base + ok, p)
    requires forall i :: 0 <= i < |p| ==> p[i] in g.Keys - ok
    requires forall x :: x in g.Keys - ok ==> x in p || x in left
    ensures q != [] && q[0] == p[0] && Chain(g, base + ok, q) && Conclusive(g, base, q)
    ensures forall i :: 0 <= i < |q| - 1 ==> q[i] in g.Keys - ok
    decreases left
  {
    var d := MissingOf(g, base, ok, p[|p| - 1]);
    q := p + [d];
    if d in p {
      var i :| 0 <= i < |p| && p[i] == d;
      assert q[i] == q[|q| - 1];
    } else if d in g.Keys {
      assert d in left;
      q := FollowMissing(g, base, ok, q, left - {d});
    }
  }

  lemma MissingOf(g: Graph, base: set<Id>, ok: set<Id>, n: Id) returns (d: Id)
    requires LeastClosed(g, base, ok) && n in g.Keys - ok
    ensures Missing(g, base + ok, n, d)
  {
    assert !Satisfied(g[n], base + ok);
    d :| d in g[n] && d !in base + ok;
  }

  /** Where a missing prerequisite is, as the report to a human says it. */
  datatype Whereabouts = CycleWithIt | WaitsToo | FailedReview | HardGated | NotQueued

  method Explain(name: Id, d: Id, g: Graph, ok: set<Id>, needsHuman: set<Id>, blocked: set<Id>)
    returns (w: Whereabouts)
    ensures w == CycleWithIt <==> d in g.Keys && d !in ok && Reachable(g, d, name)
    ensures w == WaitsToo <==> d in g.Keys && d !in ok && !Reachable(g, d, name)
    ensures w == FailedReview <==> (d !in g.Keys || d in ok) && d in needsHuman
    ensures w == HardGated <==> (d !in g.Keys || d in ok) && d !in needsHuman && d in blocked
    ensures w == NotQueued <==> (d !in g.Keys || d in ok) && d !in needsHuman && d !in blocked
  {
    if d in g.Keys && d !in ok {
      var cyclic := Reaches(d, name, g);
      return if cyclic then CycleWithIt else WaitsToo;
    }
    return if d in needsHuman then FailedReview else if d in blocked then HardGated else NotQueued;
  }

  /** The queue without the entries whose identity is merged or in flight already. */
  function Unmerged(g: Graph, base: set<Id>): Graph {
    map n | n in g.Keys && n !in base :: g[n]
  }

  /** There is a cycle of missing prerequisites through `name` and `d`. */
  ghost predicate InCycle(g: Graph, have: set<Id>, name: Id, d: Id) {
    Missing(g, have, name, d) && exists p :: Chain(g, have, p) && p[0] == d && p[|p| - 1] == name
  }

  /** For a deadlocked entry and a prerequisite it misses, there is such a cycle exactly when the
      entry's identity is not merged or in flight and it can be reached from the prerequisite
      without passing one that is. The report asks for reachability alone. */
  lemma CyclesAvoidTheMerged(g: Graph, base: set<Id>, ok: set<Id>, name: Id, d: Id)
    requires LeastClosed(g, base, ok) && name in g.Keys - ok && Missing(g, base + ok, name, d)
    ensures InCycle(g, base + ok, name, d) <==> name !in base && Reachable(Unmerged(g, base), d, name)
  {
    if InCycle(g, base + ok, name, d) {
      var p :| Chain(g, base + ok, p) && p[0] == d && p[|p| - 1] == name;
      forall i | 0 <= i < |p| ensures p[i] !in base {
        if i > 0 { assert Missing(g, base + ok, p[i - 1], p[i]); }
      }
      forall i | 0 <= i < |p| - 1 ensures p[i] in Unmerged(g, base) && p[i + 1] in g[p[i]] {
        assert Missing(g, base + ok, p[i], p[i + 1]);
      }
      assert PathBetween(Unmerged(g, base), p, d, name);
    }
    if name !in base && Reachable(Unmerged(g, base), d, name) {
      var q :| PathBetween(Unmerged(g, base), q, d, name);
      OnlyDeadOnTheWay(g, base, ok, q);
      assert Chain(g, base + ok, q);
    }
  }

  /** A path through unmerged entries to a deadlocked one leads through deadlocked ones only. */
  lemma OnlyDeadOnTheWay(g: Graph, base: set<Id>, ok: set<Id>, q: seq<Id>)
    requires LeastClosed(g, base, ok) && IsPath(Unmerged(g, base), q)
    requires q[|q| - 1] in g.Keys - ok && q[|q| - 1] !in base
    ensures forall i :: 0 <= i < |q| ==> q[i] in g.Keys - ok && q[i] !in base
    decreases |q|
  {
    if |q| > 1 {
      OnlyDeadOnTheWay(g, base, ok, q[1..]);
      OkNeedsOnlyOk(g, base, ok);
      assert q[1] in g[q[0]] && q[1..][0] == q[1];
      forall i | 0 < i < |q| ensures q[i] in g.Keys - ok && q[i] !in base {
        assert q[i] == q[1..][i - 1];
      }
    }
  }

  /** So when no queued identity is merged or in flight already, every reported cycle is a cycle,
      and it leads through deadlocked entries only. */
  lemma ReportedCycleIsGenuine(g: Graph, base: set<Id>, ok: set<Id>, name: Id, d: Id) returns (p: seq<Id>)
    requires LeastClosed(g, base, ok) && g.Keys !! base
    requires name in g.Keys - ok && Missing(g, base + ok, name, d) && Reachable(g, d, name)
    ensures Chain(g, base + ok, p) && p[0] == name && p[|p| - 1] == name && |p| >= 2 && p[1] == d
    ensures forall i :: 0 <= i < |p| ==> p[i] in g.Keys - ok
  {
    assert Unmerged(g, base) == g;
    CyclesAvoidTheMerged(g, base, ok, name, d);
    var q :| Chain(g, base + ok, q) && q[0] == d && q[|q| - 1] == name;
    forall i | 0 <= i < |q| - 1 ensures q[i] in g && q[i + 1] in g[q[i]] {
      assert Missing(g, base + ok, q[i], q[i + 1]);
    }
    OnlyDeadOnTheWay(g, base, ok, q);
    p := [name] + q;
  }

  /** Members of the least closed set need nothing outside base and the set. */
  lemma OkNeedsOnlyOk(g: Graph, base: set<Id>, ok: set<Id>)
    requires LeastClosed(g, base, ok)
    ensures forall n :: n in ok ==> Satisfied(g[n], base + ok)
  {
    var needed := set n | n in ok && Satisfied(g[n], base + ok);
    forall m | m in g.Keys && Satisfied(g[m], base + needed) ensures m in needed {
      assert Satisfied(g[m], base + ok);
    }
    assert Closed(g, base, needed);
  }

  /** With such an identity the report can be wrong: `a` and `d` are deadlocked only because
      `z` is not queued, `m` is merged already and queued again, and still `d` is reported as
      being in a cycle with `a`. */
  lemma ReportedCycleCanBeFalse()
    ensures var g: Graph := map["a" := ["d"], "d" := ["m", "z"], "m" := ["a"]];
            var base := {"m"};
            && LeastClosed(g, base, {})
            && Missing(g, base, "a", "d")
            && Reachable(g, "d", "a")
            && forall p :: Chain(g, base, p) && p[0] == "d" ==> p[|p| - 1] != "a"
  {
    var g: Graph := map["a" := ["d"], "d" := ["m", "z"], "m" := ["a"]];
    var base := {"m"};
    assert "d" in g["a"] && "z" in g["d"] && "a" in g["m"];
    assert PathBetween(g, ["d", "m", "a"], "d", "a");
    assert "a" !in base && "d" !in base && "z" !in base;
    forall p | Chain(g, base, p) && p[0] == "d" ensures p[|p| - 1] != "a" {
      if |p| > 1 {
        assert p[1] == "z";
        assert |p| > 2 ==> Missing(g, base, p[1], p[2]);
      }
    }
  }
}
