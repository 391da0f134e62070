/** The unattended batch loop: what stops it, how much it can spend, and in which order it dispatches. */
module Loop {
  import opened Names
  import opened Dependencies
  import opened Queue
  import opened Backlog

  datatype Idle = Once | Drain | Watch

  /** Zero means no limit, field by field. */
  datatype Limits = Limits(maxTasks: int, budget: real, maxRuntime: real, idle: Idle, maxUnpricedStreak: int)

  datatype TaskRun = TaskRun(outcome: Outcome, cost: real, unpriced: bool)
  datatype Dispatch = Returned(run: TaskRun) | Raised

  /** A dispatch that raises counts as an error whose true cost is unknown. */
  function One(d: Dispatch): TaskRun {
    match d case Returned(run) => run case Raised => TaskRun(Error, 0.0, true)
  }

  datatype Stop =
    | NoStop
    | Requested | OnceDone | MaxTasks | Budget | Runtime | Unpriced
    | WaitingForDeps | QueueEmpty | ArchiveFull | ScriptEnd

  predicate IsLimit(s: Stop) {
    s in {Requested, OnceDone, MaxTasks, Budget, Runtime, Unpriced}
  }

  /** What the world does during one dispatch or one sleep. `late` arrives after the loop has found
      nothing to claim and before it looks at what is waiting. */
  datatype Tick = Tick(result: Dispatch, seconds: real, arrivals: seq<(FileName, Entry)>,
                       late: seq<(FileName, Entry)>, stopRequested: bool)

  // ---------- the trail of dispatches and what the report says of it ----------

  datatype Dispatched = Dispatched(name: FileName, needs: seq<Id>, run: TaskRun)

  function Spend(trail: seq<Dispatched>): real {
    if trail == [] then 0.0 else Spend(trail[..|trail| - 1]) + trail[|trail| - 1].run.cost
  }

  /** Length of the run of unpriced dispatches at the end. */
  function Streak(trail: seq<Dispatched>): nat {
    if trail == [] || !trail[|trail| - 1].run.unpriced then 0 else 1 + Streak(trail[..|trail| - 1])
  }

  function Count(trail: seq<Dispatched>, outcomes: set<Outcome>): nat {
    if trail == [] then 0
    else Count(trail[..|trail| - 1], outcomes) + if trail[|trail| - 1].run.outcome in outcomes then 1 else 0
  }

  lemma {:induction false} OutcomesPartition(trail: seq<Dispatched>)
    ensures |trail| == Count(trail, {Merged}) + Count(trail, {Escalated}) + Count(trail, {BlockedHardGate})
                       + Count(trail, {Error, Unknown})
  {
    if trail != [] {
      OutcomesPartition(trail[..|trail| - 1]);
      match trail[|trail| - 1].run.outcome {
        case Merged =>
        case Escalated =>
        case BlockedHardGate =>
        case Error =>
        case Unknown =>
      }
    }
  }

  function Extend(trail: seq<Dispatched>, d: Dispatched): (r: seq<Dispatched>)
    ensures |r| == |trail| + 1 && r[|r| - 1] == d && r[..|r| - 1] == trail
  {
    trail + [d]
  }

  class LoopReport {
    var dispatched: nat
    var merged: nat
    var escalated: nat
    var blocked: nat
    var errors: nat
    var cost: real
    var recovered: nat
    var idlePolls: nat
    var unpricedStreak: nat
    var unpricedTotal: nat
    var depDeadlocked: nat
    var stoppedBy: Stop
    ghost var trail: seq<Dispatched>

    /** Every figure is the one that the dispatches so far determine. */
    ghost predicate Valid()
      reads this
    {
      && dispatched == |trail| && cost == Spend(trail) && unpricedStreak == Streak(trail)
      && merged == Count(trail, {Merged}) && escalated == Count(trail, {Escalated})
      && blocked == Count(trail, {BlockedHardGate}) && errors == Count(trail, {Error, Unknown})
    }

    constructor ()
      ensures Valid() && trail == [] && stoppedBy == NoStop
    {
      dispatched, merged, escalated, blocked, errors := 0, 0, 0, 0, 0;
      recovered, idlePolls, unpricedStreak, unpricedTotal, depDeadlocked := 0, 0, 0, 0, 0;
      cost, stoppedBy, trail := 0.0, NoStop, [];
    }

    lemma CountsAddUp()
      requires Valid()
      ensures dispatched == merged + escalated + blocked + errors
    {
      OutcomesPartition(trail);
    }

    method Bump(outcome: Outcome)
      modifies this`merged, this`escalated, this`blocked, this`errors
      ensures merged == old(merged) + if outcome == Merged then 1 else 0
      ensures escalated == old(escalated) + if outcome == Escalated then 1 else 0
      ensures blocked == old(blocked) + if outcome == BlockedHardGate then 1 else 0
      ensures errors == old(errors) + if outcome == Error || outcome == Unknown then 1 else 0
    {
      match outcome
      case Merged => merged := merged + 1;
      case Escalated => escalated := escalated + 1;
      case BlockedHardGate => blocked := blocked + 1;
      case _ => errors := errors + 1;
    }

    /** The bookkeeping of one finished dispatch. */
    method Record(d: Dispatched)
      requires Valid()
      modifies this
      ensures Valid() && trail == Extend(old(trail), d)
      ensures stoppedBy == old(stoppedBy) && dispatched == old(dispatched) + 1
      ensures cost == old(cost) + d.run.cost
      ensures unpricedStreak == (if d.run.unpriced then old(unpricedStreak) + 1 else 0)
      ensures unpricedTotal == old(unpricedTotal) + (if d.run.unpriced then 1 else 0)
      ensures merged == old(merged) + (if d.run.outcome == Merged then 1 else 0)
      ensures errors == old(errors) + (if d.run.outcome in {Error, Unknown} then 1 else 0)
    {
      dispatched := dispatched + 1;
      cost := cost + d.run.cost;
      if d.run.unpriced {
        unpricedStreak := unpricedStreak + 1;
        unpricedTotal := unpricedTotal + 1;
      } else {
        unpricedStreak := 0;
      }
      Bump(d.run.outcome);
      trail := Extend(trail, d);
    }
  }

  // ---------- what the gates at the loop head guarantee ----------

  /** None of the figures that grow with dispatches has reached its limit. */
  predicate Admits(lim: Limits, trail: seq<Dispatched>) {
    && !(lim.idle == Once && |trail| >= 1)
    && !(lim.maxTasks != 0 && |trail| >= lim.maxTasks)
    && !(lim.budget != 0.0 && Spend(trail) >= lim.budget)
    && !(lim.maxUnpricedStreak != 0 && Streak(trail) >= lim.maxUnpricedStreak)
  }

  /** How long the run of unpriced dispatches at the end is. */
  lemma {:induction false} StreakIs(trail: seq<Dispatched>, n: nat)
    ensures Streak(trail) >= n <==> n <= |trail| && forall i :: |trail| - n <= i < |trail| ==> trail[i].run.unpriced
    decreases |trail|
  {
    if n > 0 && trail != [] {
      StreakIs(trail[..|trail| - 1], n - 1);
      assert forall i :: 0 <= i < |trail| - 1 ==> trail[..|trail| - 1][i] == trail[i];
    }
  }

  /** What the limits amount to: a positive number of tasks is never exceeded, Once means at most one
      dispatch, a negative limit none, and only the last one can take the spend to the budget. */
  lemma LimitsHold(lim: Limits, trail: seq<Dispatched>)
    requires Gated(lim, trail)
    ensures lim.maxTasks > 0 ==> |trail| <= lim.maxTasks
    ensures lim.idle == Once ==> |trail| <= 1
    ensures lim.maxTasks < 0 || lim.budget < 0.0 || lim.maxUnpricedStreak < 0 ==> trail == []
    ensures lim.budget > 0.0 && trail != [] ==> Spend(trail[..|trail| - 1]) < lim.budget
  {
    if trail != [] {
      assert Admits(lim, trail[..|trail| - 1]) && Admits(lim, trail[..0]);
    }
  }

  /** A breaker of k lets no dispatch follow k unpriced ones in a row. */
  lemma BreakerHolds(lim: Limits, trail: seq<Dispatched>, k: nat, i: nat) returns (j: nat)
    requires Gated(lim, trail) && k == lim.maxUnpricedStreak > 0 && i + k < |trail|
    ensures i <= j < i + k && !trail[j].run.unpriced
  {
    var init := trail[..i + k];
    assert Admits(lim, init);
    StreakIs(init, k);
    j :| |init| - k <= j < |init| && !init[j].run.unpriced;
  }

  /** Every dispatch was let through by the limits as they stood then. */
  ghost predicate Gated(lim: Limits, trail: seq<Dispatched>) {
    forall i :: 0 <= i < |trail| ==> Admits(lim, trail[..i])
  }

  function Ceil(x: real): (n: int)
    ensures n as real >= x > (n - 1) as real
    ensures x > 0.0 ==> n >= 1
  {
    -((-x).Floor)
  }

  function Priced(trail: seq<Dispatched>): nat {
    if trail == [] then 0
    else Priced(trail[..|trail| - 1]) + if trail[|trail| - 1].run.unpriced then 0 else 1
  }

  /** Each priced dispatch costs at least c and none is negative. */
  ghost predicate CostsAtLeast(trail: seq<Dispatched>, c: real) {
    forall d :: d in trail ==> 0.0 <= d.run.cost && (!d.run.unpriced ==> c <= d.run.cost)
  }

  function Worth(n: nat, c: real): real {
    n as real * c
  }

  lemma WorthStep(n: nat, c: real)
    ensures Worth(n + 1, c) == Worth(n, c) + c
  {
    assert (n + 1) as real == n as real + 1.0;
  }

  lemma {:induction false} SpendCoversPriced(trail: seq<Dispatched>, c: real)
    requires CostsAtLeast(trail, c)
    ensures Worth(Priced(trail), c) <= Spend(trail)
    decreases |trail|
  {
    if trail != [] {
      var init, last := trail[..|trail| - 1], trail[|trail| - 1];
      assert last in trail && forall d :: d in init ==> d in trail;
      SpendCoversPriced(init, c);
      if !last.run.unpriced {
        WorthStep(Priced(init), c);
        assert Priced(trail) == Priced(init) + 1;
      } else {
        assert Priced(trail) == Priced(init);
      }
    }
  }

  /** With a breaker of k, at most k - 1 unpriced dispatches come before each priced one. */
  lemma {:induction false} LengthBound(lim: Limits, trail: seq<Dispatched>)
    requires Gated(lim, trail) && lim.maxUnpricedStreak >= 1
    ensures |trail| <= lim.maxUnpricedStreak * Priced(trail) + Streak(trail)
    ensures Streak(trail) <= lim.maxUnpricedStreak
  {
    if trail != [] {
      var init := trail[..|trail| - 1];
      assert forall i :: 0 <= i < |init| ==> init[..i] == trail[..i];
      LengthBound(lim, init);
      assert Admits(lim, trail[..|trail| - 1]);
      assert lim.maxUnpricedStreak * (Priced(init) + 1) == lim.maxUnpricedStreak * Priced(init) + lim.maxUnpricedStreak;
    }
  }

  /** However long the queue, a budget B and a breaker k admit at most k * ceil(B / c) dispatches
      when every priced one costs at least c; only the last dispatch can take the spend to B. */
  lemma BudgetBoundsDispatches(lim: Limits, trail: seq<Dispatched>, c: real)
    requires Gated(lim, trail) && CostsAtLeast(trail, c)
    requires lim.budget > 0.0 && c > 0.0 && lim.maxUnpricedStreak >= 1
    ensures |trail| <= lim.maxUnpricedStreak * Ceil(lim.budget / c)
    ensures trail != [] ==> Spend(trail) < lim.budget + trail[|trail| - 1].run.cost
  {
    var init := if trail == [] then [] else trail[..|trail| - 1];
    assert Gated(lim, init) by {
      assert forall i :: 0 <= i < |init| ==> init[..i] == trail[..i];
    }
    if trail != [] {
      assert Admits(lim, init);
    }
    RoomForOneMore(lim, init, c);
  }

  lemma RoomForOneMore(lim: Limits, init: seq<Dispatched>, c: real)
    requires Gated(lim, init) && CostsAtLeast(init, c)
    requires lim.budget > 0.0 && c > 0.0 && lim.maxUnpricedStreak >= 1
    requires Spend(init) < lim.budget && (Streak(init) < lim.maxUnpricedStreak || init == [])
    ensures |init| + 1 <= lim.maxUnpricedStreak * Ceil(lim.budget / c)
  {
    var p := PricedSoFar(lim, init, c);
    OneMore(|init|, lim.maxUnpricedStreak, p, Streak(init), lim.budget, c);
  }

  lemma PricedSoFar(lim: Limits, init: seq<Dispatched>, c: real) returns (p: nat)
    requires Gated(lim, init) && CostsAtLeast(init, c) && lim.maxUnpricedStreak >= 1
    requires Spend(init) < lim.budget
    ensures p as real * c < lim.budget && |init| <= lim.maxUnpricedStreak * p + Streak(init)
  {
    LengthBound(lim, init);
    PricedBelowBudget(init, c, lim.budget);
    p := Priced(init);
  }

  lemma PricedBelowBudget(init: seq<Dispatched>, c: real, budget: real)
    requires CostsAtLeast(init, c) && Spend(init) < budget
    ensures Priced(init) as real * c < budget
  {
    SpendCoversPriced(init, c);
  }

  lemma OneMore(n: nat, k: int, priced: nat, streak: nat, budget: real, c: real)
    requires k >= 1 && c > 0.0 && priced as real * c < budget
    requires n <= k * priced + streak && (streak < k || n == 0)
    ensures n + 1 <= k * Ceil(budget / c)
  {
    BelowCeil(priced, budget, c);
    MulMonotone(k, priced + 1, Ceil(budget / c));
  }

  lemma MulMonotone(k: int, p: int, q: int)
    requires k >= 1 && p <= q
    ensures k * (p - 1) + k <= k * q
  {
    assert k * (p - 1) + k == k * p;
  }

  lemma MulMonotoneReal(p: real, q: real, c: real)
    requires c > 0.0 && q <= p
    ensures q * c <= p * c
  {
  }

  lemma BelowCeil(p: nat, b: real, c: real)
    requires c > 0.0 && p as real * c < b
    ensures p + 1 <= Ceil(b / c)
  {
    var x := b / c;
    assert x * c == b;
    if p as real >= x {
      MulMonotoneReal(p as real, x, c);
    }
  }

  /** The worst run: each priced dispatch, at c, comes after k - 1 unpriced ones; `q` priced
      ones are through and `r` unpriced ones have followed. */
  function Worst(q: nat, r: nat, k: nat, c: real, d: Dispatched): seq<Dispatched>
    requires r < k
    decreases q, r
  {
    if r > 0 then Worst(q, r - 1, k, c, d) + [d.(run := TaskRun(Escalated, 0.0, true))]
    else if q > 0 then Worst(q - 1, k - 1, k, c, d) + [d.(run := TaskRun(Merged, c, false))]
    else []
  }

  lemma {:induction false} WorstFigures(q: nat, r: nat, k: nat, c: real, d: Dispatched)
    requires r < k
    ensures Spend(Worst(q, r, k, c, d)) == Worth(q, c)
    ensures Streak(Worst(q, r, k, c, d)) == r
    decreases q, r
  {
    var t := Worst(q, r, k, c, d);
    if r > 0 {
      assert t[..|t| - 1] == Worst(q, r - 1, k, c, d);
      WorstFigures(q, r - 1, k, c, d);
    } else if q > 0 {
      assert t[..|t| - 1] == Worst(q - 1, k - 1, k, c, d);
      WorstFigures(q - 1, k - 1, k, c, d);
      WorthStep(q - 1, c);
    }
  }

  lemma {:induction false} WorstLength(q: nat, r: nat, k: nat, c: real, d: Dispatched)
    requires r < k
    ensures |Worst(q, r, k, c, d)| == k * q + r
    decreases q, r
  {
    if r > 0 {
      WorstLength(q, r - 1, k, c, d);
    } else if q > 0 {
      WorstLength(q - 1, k - 1, k, c, d);
      MulMonotone(k, q, q);
    }
  }

  /** Every proper prefix of a worst run is a worst run that has got less far. */
  lemma {:induction false} WorstPrefix(q: nat, r: nat, k: nat, c: real, d: Dispatched, i: nat)
    returns (q': nat, r': nat)
    requires r < k && i < |Worst(q, r, k, c, d)|
    ensures r' < k && (q' < q || (q' == q && r' < r))
    ensures Worst(q, r, k, c, d)[..i] == Worst(q', r', k, c, d)
    decreases q, r
  {
    var t := Worst(q, r, k, c, d);
    q', r' := if r > 0 then q else q - 1, if r > 0 then r - 1 else k - 1;
    var init := Worst(q', r', k, c, d);
    assert t[..|t| - 1] == init;
    if i < |init| {
      assert t[..i] == init[..i];
      q', r' := WorstPrefix(q', r', k, c, d, i);
    }
  }

  /** The bound is exact: some run of dispatches that the limits let through is that long. */
  lemma BudgetBoundIsReached(lim: Limits, c: real, d: Dispatched) returns (trail: seq<Dispatched>)
    requires c > 0.0 && lim.budget > 0.0 && lim.maxUnpricedStreak >= 1
    requires lim.idle != Once && lim.maxTasks == 0
    ensures Gated(lim, trail) && CostsAtLeast(trail, c)
    ensures |trail| == lim.maxUnpricedStreak * Ceil(lim.budget / c)
    ensures trail == Worst(Ceil(lim.budget / c), 0, lim.maxUnpricedStreak, c, d)
  {
    var k: nat, m := lim.maxUnpricedStreak, Ceil(lim.budget / c);
    trail := Worst(m, 0, k, c, d);
    WorstCosts(m, 0, k, c, d);
    WorstLength(m, 0, k, c, d);
    forall i | 0 <= i < |trail| ensures Admits(lim, trail[..i]) {
      var q, r := WorstPrefix(m, 0, k, c, d, i);
      WorstAdmits(lim, q, r, c, d);
    }
  }

  lemma WorstAdmits(lim: Limits, q: nat, r: nat, c: real, d: Dispatched)
    requires c > 0.0 && lim.budget > 0.0 && r < lim.maxUnpricedStreak && q < Ceil(lim.budget / c)
    requires lim.idle != Once && lim.maxTasks == 0
    ensures Admits(lim, Worst(q, r, lim.maxUnpricedStreak, c, d))
  {
    WorstFigures(q, r, lim.maxUnpricedStreak, c, d);
    BelowBudget(q, lim.budget, c);
  }

  lemma BelowBudget(q: nat, budget: real, c: real)
    requires c > 0.0 && q < Ceil(budget / c)
    ensures Worth(q, c) < budget
  {
    var x := budget / c;
    assert x * c == budget;
    assert q as real < x;
    MulStrictReal(q as real, x, c);
  }

  lemma MulStrictReal(p: real, q: real, c: real)
    requires c > 0.0 && p < q
    ensures p * c < q * c
  {
  }

  lemma {:induction false} WorstCosts(q: nat, r: nat, k: nat, c: real, d: Dispatched)
    requires r < k && c > 0.0
    ensures CostsAtLeast(Worst(q, r, k, c, d), c)
    decreases q, r
  {
    if r > 0 {
      WorstCosts(q, r - 1, k, c, d);
    } else if q > 0 {
      WorstCosts(q - 1, k - 1, k, c, d);
    }
  }

  // ---------- a queue in which nothing can be claimed ----------

  /** With nothing running and nothing ready, every queued identity is deadlocked. */
  lemma NothingReadyMeansAllDeadlocked(fs: Fs, entries: map<Id, FileName>, ok: set<Id>)
    requires Sweep(fs, entries, ok) && Drained(fs)
    ensures ok == {}
  {
    var g, base := SweepGraph(fs, entries), Base(fs);
    assert forall p :: p in fs && p.dir == Running ==> p.name in NamesIn(fs, Running);
    assert Closed(g, base, {}) by {
      forall id | id in g.Keys ensures !Satisfied(g[id], base + {}) {
        assert !Ready(fs, entries[id]);
        assert base + {} == IdsIn(fs, Done);
      }
    }
  }

  /** The files that stand for deadlocked identities. */
  function DeadFiles(entries: map<Id, FileName>, ok: set<Id>): set<FileName> {
    set id | id in entries && id !in ok :: entries[id]
  }

  /** After all deadlocked entries were archived, the inbox is empty exactly when no two entries
      shared an identity. */
  lemma AfterParkingAll(was: Fs, fs: Fs, entries: map<Id, FileName>)
    requires Representatives(was, entries)
    requires LeftInbox(fs, was, DeadFiles(entries, {}))
    ensures NamesIn(fs, Inbox) == {} <==> UniqueIds(was)
  {
    var gone := DeadFiles(entries, {});
    forall n | n in NamesIn(was, Inbox) ensures n in NamesIn(fs, Inbox) <==> entries[IdOf(n)] != n {
      assert Path(Inbox, n) in was;
      assert n in gone <==> entries[IdOf(n)] == n;
      assert n in NamesIn(fs, Inbox) <==> Path(Inbox, n) in fs;
    }
    forall m, n | m in NamesIn(was, Inbox) && n in NamesIn(was, Inbox) && IdOf(m) == IdOf(n) && m != n
      ensures NamesIn(fs, Inbox) != {}
    {
      assert entries[IdOf(m)] != m || entries[IdOf(n)] != n;
    }
    if NamesIn(fs, Inbox) != {} {
      var n :| n in NamesIn(fs, Inbox);
      assert Path(Inbox, n) in was;
      var m := entries[IdOf(n)];
      assert Path(Inbox, m) in was && IdOf(m) == IdOf(n) && m != n;
      assert m in NamesIn(was, Inbox) && n in NamesIn(was, Inbox);
    }
  }

  /** The raw stem of every queued file is the identity of some queued file. */
  ghost predicate StemsAreIds(fs: Fs) {
    forall n :: n in NamesIn(fs, Inbox) ==> n.stem in IdsIn(fs, Inbox)
  }

  lemma PlainStemsAreIds(fs: Fs)
    requires forall n :: n in NamesIn(fs, Inbox) ==> Plain(n.stem)
    ensures StemsAreIds(fs)
  {
    forall n | n in NamesIn(fs, Inbox) ensures n.stem in IdsIn(fs, Inbox) {
      assert Path(Inbox, n) in fs && IdOf(n) == n.stem;
    }
  }

  /** How an idle loop leaves the queue `was`: exactly the files that stand for deadlocked identities
      have gone, and it reports "waiting" exactly when the raw stem of some file that is not ready is
      no such identity. */
  ghost predicate SweptBy(was: Fs, fs: Fs, stop: Stop, entries: map<Id, FileName>, ok: set<Id>) {
    && Sweep(was, entries, ok) && LeftInbox(fs, was, DeadFiles(entries, ok))
    && (stop == WaitingForDeps <==> SomeWait(was, entries.Keys - ok))
  }

  predicate Waits(fs: Fs, n: FileName) {
    Path(Inbox, n) in fs && !Ready(fs, n)
  }

  /** A file waits whose raw stem is none of these identities. */
  ghost predicate SomeWait(fs: Fs, ids: set<Id>) {
    exists n :: Waits(fs, n) && n.stem !in ids
  }

  ghost predicate Swept(was: Fs, fs: Fs, stop: Stop) {
    exists entries, ok :: SweptBy(was, fs, stop, entries, ok)
  }

  /** When nothing was left to do, the inbox has been emptied unless two files shared an identity,
      and the report is "waiting" exactly when some stem is no queued identity. */
  ghost predicate Emptied(was: Fs, fs: Fs, stop: Stop) {
    && (NamesIn(fs, Inbox) == {} <==> UniqueIds(was))
    && (stop == WaitingForDeps <==> !StemsAreIds(was))
  }

  lemma SweptMeansEmptied(was: Fs, fs: Fs, stop: Stop)
    requires Swept(was, fs, stop) && Drained(was)
    ensures Emptied(was, fs, stop)
  {
    var entries, ok :| SweptBy(was, fs, stop, entries, ok);
    NothingReadyMeansAllDeadlocked(was, entries, ok);
    AllSwept(was, fs, stop, entries);
  }

  lemma AllSwept(was: Fs, fs: Fs, stop: Stop, entries: map<Id, FileName>)
    requires SweptBy(was, fs, stop, entries, {}) && Drained(was)
    ensures Emptied(was, fs, stop)
  {
    AfterParkingAll(was, fs, entries);
    WaitingMeansNoId(was, entries);
  }

  lemma WaitingMeansNoId(was: Fs, entries: map<Id, FileName>)
    requires Drained(was) && Representatives(was, entries)
    ensures SomeWait(was, entries.Keys - {}) <==> !StemsAreIds(was)
  {
    forall n | n in NamesIn(was, Inbox) ensures Waits(was, n) && (n.stem in entries <==> n.stem in IdsIn(was, Inbox)) {
      assert Path(Inbox, n) in was;
      if n.stem in entries { assert Path(Inbox, entries[n.stem]) in was; }
    }
    forall n | Waits(was, n) ensures n in NamesIn(was, Inbox) {
      assert Path(Inbox, n) in was;
    }
  }

  /** Exactly the files that stand for deadlocked identities have left the inbox. */
  ghost predicate Cleared(was: Fs, fs: Fs) {
    Swept(was, fs, WaitingForDeps) || Swept(was, fs, QueueEmpty)
  }

  /** A file that can be claimed now. */
  predicate Claimable(fs: Fs, n: FileName) {
    Ready(fs, n) && Path(Running, n) !in fs
  }

  // ---------- what each pass has to do ----------

  /** One pass: the queue it found, what it claimed, and the queue it left, before the world went on. */
  datatype Pass = Pass(found: Fs, claim: Option<FileName>, left: Fs)

  /** It claims the first file in name order that can be claimed. When there is none it archives the
      deadlocked files, `late` being what came in meanwhile. */
  ghost predicate RightPass(p: Pass, late: set<FileName>) {
    match p.claim
    case Some(n) =>
      && Claimable(p.found, n) && (forall m :: Claimable(p.found, m) ==> m == n || Before(n, m))
      && p.left == Move(p.found, Path(Inbox, n), Path(Running, n))
    case None =>
      && (forall m :: !Claimable(p.found, m))
      && exists looked :: LateOnly(looked, p.found, late) && Cleared(looked, p.left)
  }

  ghost predicate LateOnly(looked: Fs, found: Fs, late: set<FileName>) {
    && SameOutside(looked, found, {Inbox}) && Gained(looked, found)
    && NamesIn(looked, Inbox) <= NamesIn(found, Inbox) + late
  }

  function LeftBy(passes: seq<Pass>, begun: Fs): Fs {
    if passes == [] then begun else passes[|passes| - 1].left
  }

  /** What the passes claimed, in order. */
  function ClaimsOf(passes: seq<Pass>): seq<FileName> {
    if passes == [] then []
    else
      var p := passes[|passes| - 1];
      ClaimsOf(passes[..|passes| - 1]) + if p.claim.Some? then [p.claim.value] else []
  }

  function NamesOfTrail(trail: seq<Dispatched>): (names: seq<FileName>)
    ensures |names| == |trail| && forall i :: 0 <= i < |trail| ==> names[i] == trail[i].name
  {
    seq(|trail|, i requires 0 <= i < |trail| => trail[i].name)
  }

  /** A history of passes: each found at least what the one before left and did what it had to, and
      what they claimed is what was dispatched. */
  ghost predicate Passes(passes: seq<Pass>, begun: Fs, trail: seq<Dispatched>, late: set<FileName>) {
    && (forall i :: 0 <= i < |passes| ==> GoesOn(passes, begun, late, i))
    && NamesOfTrail(trail) == ClaimsOf(passes)
  }

  ghost predicate GoesOn(passes: seq<Pass>, begun: Fs, late: set<FileName>, i: nat)
    requires i < |passes|
  {
    RightPass(passes[i], late) && Gained(passes[i].found, if i == 0 then begun else passes[i - 1].left)
  }

  lemma OnePassMore(passes: seq<Pass>, begun: Fs, was: seq<Dispatched>, trail: seq<Dispatched>, p: Pass,
                    late: set<FileName>)
    requires Passes(passes, begun, was, late) && RightPass(p, late) && Gained(p.found, LeftBy(passes, begun))
    requires if p.claim.Some? then |trail| == |was| + 1 && trail[..|was|] == was && trail[|was|].name == p.claim.value
             else trail == was
    ensures Passes(passes + [p], begun, trail, late) && LeftBy(passes + [p], begun) == p.left
  {
    var longer := passes + [p];
    assert longer[..|passes|] == passes;
    forall i | 0 <= i < |longer| ensures GoesOn(longer, begun, late, i) {
      assert i < |passes| ==> GoesOn(passes, begun, late, i);
    }
    NamesMore(was, trail, p);
  }

  lemma NamesMore(was: seq<Dispatched>, trail: seq<Dispatched>, p: Pass)
    requires if p.claim.Some? then |trail| == |was| + 1 && trail[..|was|] == was && trail[|was|].name == p.claim.value
             else trail == was
    ensures NamesOfTrail(trail) == NamesOfTrail(was) + if p.claim.Some? then [p.claim.value] else []
  {
  }

  /** A ready file does not stand for a deadlocked identity. */
  lemma ReadyStays(looked: Fs, left: Fs, n: FileName)
    requires Cleared(looked, left) && Ready(looked, n)
    ensures Path(Inbox, n) in left && left[Path(Inbox, n)] == looked[Path(Inbox, n)]
  {
    var stop := if Swept(looked, left, WaitingForDeps) then WaitingForDeps else QueueEmpty;
    var entries, ok :| SweptBy(looked, left, stop, entries, ok);
    forall id | id in entries && entries[id] == n ensures id in ok {
      assert Satisfied(SweepGraph(looked, entries)[id], Base(looked) + ok);
    }
    assert n !in DeadFiles(entries, ok);
  }

  lemma StillQueued(p: Pass, late: set<FileName>, n: FileName)
    requires RightPass(p, late) && Path(Inbox, n) in p.found && p.found[Path(Inbox, n)].needs == []
    requires p.claim != Some(n)
    ensures Path(Inbox, n) in p.left && p.left[Path(Inbox, n)].needs == []
  {
    if p.claim.None? {
      var looked :| LateOnly(looked, p.found, late) && Cleared(looked, p.left);
      assert Ready(looked, n);
      ReadyStays(looked, p.left, n);
    }
  }

  /** None of the first i passes claimed n. */
  ghost predicate Unclaimed(passes: seq<Pass>, n: FileName, i: nat) {
    forall j :: 0 <= j < i && j < |passes| ==> passes[j].claim != Some(n)
  }

  lemma {:induction false} StaysQueued(passes: seq<Pass>, begun: Fs, trail: seq<Dispatched>, late: set<FileName>,
                                       n: FileName, i: nat)
    requires Passes(passes, begun, trail, late) && i < |passes|
    requires Path(Inbox, n) in begun && begun[Path(Inbox, n)].needs == []
    requires Unclaimed(passes, n, i)
    ensures var f := passes[i].found; Path(Inbox, n) in f && f[Path(Inbox, n)].needs == []
  {
    PassAt(passes, begun, trail, late, i);
    if i > 0 {
      StaysQueued(passes, begun, trail, late, n, i - 1);
      PassAt(passes, begun, trail, late, i - 1);
      StillQueued(passes[i - 1], late, n);
    }
  }

  lemma PassAt(passes: seq<Pass>, begun: Fs, trail: seq<Dispatched>, late: set<FileName>, i: nat)
    requires Passes(passes, begun, trail, late) && i < |passes|
    ensures RightPass(passes[i], late) && Gained(passes[i].found, if i == 0 then begun else passes[i - 1].left)
  {
    assert GoesOn(passes, begun, late, i);
  }

  /** Whatever the idle mode: until a file without prerequisites has been claimed, every pass finds it
      queued, and unless one is running under its name every pass claims it or a file before it. */
  lemma NobodyIsSkipped(passes: seq<Pass>, begun: Fs, trail: seq<Dispatched>, late: set<FileName>,
                        n: FileName, i: nat)
    requires Passes(passes, begun, trail, late) && i < |passes|
    requires Path(Inbox, n) in begun && begun[Path(Inbox, n)].needs == []
    requires Unclaimed(passes, n, i)
    ensures var f := passes[i].found;
            && Path(Inbox, n) in f && f[Path(Inbox, n)].needs == []
            && (Path(Running, n) !in f ==>
                  passes[i].claim.Some? && (passes[i].claim.value == n || Before(passes[i].claim.value, n)))
  {
    StaysQueued(passes, begun, trail, late, n, i);
    PassAt(passes, begun, trail, late, i);
    if Claimable(passes[i].found, n) {
      FirstInLine(passes[i], late, n);
    }
  }

  lemma FirstInLine(p: Pass, late: set<FileName>, n: FileName)
    requires RightPass(p, late) && Claimable(p.found, n)
    ensures p.claim.Some? && (p.claim.value == n || Before(p.claim.value, n))
  {
  }

  /** An entry that could not be archived because all its names are taken. */
  ghost predicate NoRoom(fs: Fs) {
    exists n :: Path(Inbox, n) in fs && Full(fs, NeedsHuman, n)
  }

  /** Why archiving failed: the names are taken, or the outcome is not a known one. */
  ghost predicate Clogged(fs: Fs, trail: seq<Dispatched>) {
    || NoRoom(fs)
    || (exists n, dir :: Path(Running, n) in fs && Full(fs, dir, n))
    || (trail != [] && trail[|trail| - 1].run.outcome == Unknown)
  }

  /** Every file that was queued then is still queued as it was, or has been dispatched. */
  ghost predicate KeptOrDispatched(begun: Fs, fs: Fs, trail: seq<Dispatched>) {
    forall p :: p in begun && p.dir == Inbox ==>
      (p in fs && fs[p] == begun[p]) || exists d :: d in trail && d.name == p.name
  }

  // ---------- the order of dispatches ----------

  /** What a merged file can be read back as. */
  function Marks(name: FileName): set<Id> {
    {IdOf(name), name.stem}
  }

  function MergedBy(trail: seq<Dispatched>): set<Id> {
    if trail == [] then {}
    else
      var d := trail[|trail| - 1];
      MergedBy(trail[..|trail| - 1]) + if d.run.outcome == Merged then Marks(d.name) else {}
  }

  /** Whatever a dispatched task needs was merged before the loop started or by an earlier dispatch. */
  ghost predicate DepsFirst(done: set<Id>, trail: seq<Dispatched>) {
    forall i :: 0 <= i < |trail| ==> Satisfied(trail[i].needs, done + MergedBy(trail[..i]))
  }

  lemma DepsFirstExtends(done: set<Id>, trail: seq<Dispatched>, d: Dispatched)
    requires DepsFirst(done, trail) && Satisfied(d.needs, done + MergedBy(trail))
    ensures DepsFirst(done, Extend(trail, d))
    ensures MergedBy(Extend(trail, d)) == MergedBy(trail) + if d.run.outcome == Merged then Marks(d.name) else {}
  {
    var longer := Extend(trail, d);
    assert longer == trail + [d] && longer[..|trail|] == trail;
    forall i | 0 <= i < |longer| ensures Satisfied(longer[i].needs, done + MergedBy(longer[..i])) {
      assert longer[..i] == trail[..i];
      assert i == |trail| ==> trail[..i] == trail;
    }
  }

  lemma GatedExtends(lim: Limits, trail: seq<Dispatched>, d: Dispatched)
    requires Gated(lim, trail) && Admits(lim, trail)
    ensures Gated(lim, Extend(trail, d))
  {
    var longer := Extend(trail, d);
    forall i | 0 <= i < |longer| ensures Admits(lim, longer[..i]) {
      assert longer[..i] == trail[..i];
      assert i == |trail| ==> trail[..i] == trail;
    }
  }

  lemma RunningAfterMove(fs: Fs, src: Path, dst: Path)
    requires src in fs && dst !in fs
    ensures src.dir == Running && dst.dir != Running ==>
              NamesIn(Move(fs, src, dst), Running) == NamesIn(fs, Running) - {src.name}
    ensures src.dir != Running && dst.dir == Running ==>
              NamesIn(Move(fs, src, dst), Running) == NamesIn(fs, Running) + {dst.name}
    ensures dst.dir != Inbox ==> NamesIn(Move(fs, src, dst), Inbox) <= NamesIn(fs, Inbox)
  {
    var v := Move(fs, src, dst);
    assert dst in v;
    forall n | n in NamesIn(fs, Running) && Path(Running, n) != src ensures n in NamesIn(v, Running) {
      assert Path(Running, n) in v;
    }
    forall n | dst.dir != Inbox && n in NamesIn(v, Inbox) ensures n in NamesIn(fs, Inbox) {
      assert Path(Inbox, n) in fs;
    }
  }

  /** The names under which files arrive while the script runs. */
  function Arrivals(script: seq<Tick>): set<FileName> {
    (set t, a | t in script && a in t.arrivals :: a.0) + Late(script)
  }

  function Late(script: seq<Tick>): set<FileName> {
    set t, a | t in script && a in t.late :: a.0
  }

  /** Whatever was queued still is. */
  ghost predicate Gained(fs: Fs, was: Fs) {
    forall p :: p in was && p.dir == Inbox ==> p in fs && fs[p] == was[p]
  }

  // ---------- the loop itself ----------

  /** What is remembered of the start of a run: what was merged, every name under which a file can be
      queued, whether nothing was running, whether a stop had been asked for, the time, and the queue. */
  datatype Beginning = Beginning(done: set<Id>, origin: set<FileName>, quiet: bool, asked: bool, since: real, fs: Fs)

  /** A stop is asked for in the first n ticks. */
  predicate StopIn(script: seq<Tick>, n: nat) {
    exists i :: 0 <= i < n && i < |script| && script[i].stopRequested
  }

  /** How long the first n ticks take. */
  function Elapsed(script: seq<Tick>, n: nat): real
    requires n <= |script|
  {
    if n == 0 then 0.0 else Elapsed(script, n - 1) + script[n - 1].seconds
  }

  /** A pass may begin after n ticks: no stop has been asked for and the time limit is not reached. */
  predicate MayBegin(limits: Limits, script: seq<Tick>, asked: bool, n: nat)
    requires n <= |script|
  {
    !asked && !StopIn(script, n) && (limits.maxRuntime != 0.0 ==> Elapsed(script, n) < limits.maxRuntime)
  }

  /** Each of the first n passes may begin. */
  ghost predicate InTime(limits: Limits, script: seq<Tick>, asked: bool, n: nat) {
    n <= |script| && forall i :: 0 <= i < n ==> MayBegin(limits, script, asked, i)
  }

  lemma OneTickMore(script: seq<Tick>, n: nat)
    requires n < |script|
    ensures StopIn(script, n + 1) <==> StopIn(script, n) || script[n].stopRequested
    ensures Elapsed(script, n + 1) == Elapsed(script, n) + script[n].seconds
  {
    if StopIn(script, n) {
      var i :| 0 <= i < n && i < |script| && script[i].stopRequested;
      assert 0 <= i < n + 1;
    }
  }

  class BacklogLoop {
    const store: Store
    const limits: Limits
    const script: seq<Tick>
    var tick: nat
    var clock: real
    var stopping: bool

    constructor (store: Store, limits: Limits, script: seq<Tick>)
      ensures this.store == store && this.limits == limits && this.script == script
      ensures tick == 0 && clock == 0.0 && !stopping
    {
      this.store, this.limits, this.script := store, limits, script;
      tick, clock, stopping := 0, 0.0, false;
    }

    /** The reason to stop at the loop head; planned ends take precedence over the breaker. */
    method LimitHit(report: LoopReport, started: real) returns (stop: Stop)
      requires report.Valid()
      ensures stop == NoStop || IsLimit(stop)
      ensures stop == NoStop <==>
                && !stopping && Admits(limits, report.trail)
                && !(limits.maxRuntime != 0.0 && clock - started >= limits.maxRuntime)
      ensures stop == Requested <==> stopping
      ensures stop == Runtime ==> clock - started >= limits.maxRuntime
      ensures stop == Unpriced ==> Admits(limits.(maxUnpricedStreak := 0), report.trail)
      ensures stop in {OnceDone, MaxTasks, Budget, Unpriced} ==> !Admits(limits, report.trail)
      ensures stop == Runtime ==> limits.maxRuntime != 0.0
      ensures stop == OnceDone ==> limits.idle == Once && |report.trail| >= 1
      ensures stop == MaxTasks ==> limits.maxTasks != 0 && |report.trail| >= limits.maxTasks
      ensures stop == Unpriced ==> limits.maxUnpricedStreak != 0 && Streak(report.trail) >= limits.maxUnpricedStreak
      ensures stop == Budget ==> limits.budget != 0.0 && Spend(report.trail) >= limits.budget
    {
      if stopping {
        return Requested;
      }
      if limits.idle == Once && report.dispatched >= 1 {
        return OnceDone;
      }
      if limits.maxTasks != 0 && report.dispatched >= limits.maxTasks {
        return MaxTasks;
      }
      if limits.budget != 0.0 && report.cost >= limits.budget {
        return Budget;
      }
      if limits.maxRuntime != 0.0 && clock - started >= limits.maxRuntime {
        return Runtime;
      }
      if limits.maxUnpricedStreak != 0 && report.unpricedStreak >= limits.maxUnpricedStreak {
        return Unpriced;
      }
      return NoStop;
    }

    /** Producers add entries; a name that is taken is refused. */
    method AddAll(arrivals: seq<(FileName, Entry)>)
      requires store.Valid() && forall a :: a in arrivals ==> a.0 in Arrivals(script)
      modifies store
      ensures store.Valid() && SameOutside(store.fs, old(store.fs), {Inbox}) && Gained(store.fs, old(store.fs))
      ensures NamesIn(store.fs, Inbox) <= NamesIn(old(store.fs), Inbox) + set a | a in arrivals :: a.0
      ensures Since(old(store.log), store.log, Arrivals(script))
      ensures arrivals == [] ==> store.fs == old(store.fs)
    {
      for i := 0 to |arrivals|
        invariant i == 0 ==> store.fs == old(store.fs)
        invariant store.Valid() && Since(old(store.log), store.log, Arrivals(script))
        invariant SameOutside(store.fs, old(store.fs), {Inbox}) && Gained(store.fs, old(store.fs))
        invariant NamesIn(store.fs, Inbox) <= NamesIn(old(store.fs), Inbox) + set a | a in arrivals[..i] :: a.0
      {
        ghost var was := store.fs;
        assert arrivals[..i + 1] == arrivals[..i] + [arrivals[i]];
        var _ := store.Add(arrivals[i].0, arrivals[i].1);
        OneArrival(was, store.fs, arrivals[i].0);
      }
      assert arrivals[..|arrivals|] == arrivals;
    }

    /** At most one tick has gone by since the tick t, and clock and stop request are those of it. */
    predicate Moved(t: nat, time: real, asked: bool)
      reads this
    {
      if tick == t then clock == time && stopping == asked
      else
        && tick == t + 1 <= |script| && clock == time + script[t].seconds
        && stopping == (asked || script[t].stopRequested)
    }

    /** Time passes, and an operator may ask to stop. */
    method TimePasses()
      requires store.Valid() && tick < |script|
      modifies this, store
      ensures store.Valid() && tick == old(tick) + 1
      ensures SameOutside(store.fs, old(store.fs), {Inbox}) && Gained(store.fs, old(store.fs))
      ensures NamesIn(store.fs, Inbox) <= NamesIn(old(store.fs), Inbox) + Arrivals(script)
      ensures Since(old(store.log), store.log, Arrivals(script))
      ensures Moved(old(tick), old(clock), old(stopping))
    {
      var t := script[tick];
      assert t in script;
      AddAll(t.arrivals);
      clock := clock + t.seconds;
      stopping := stopping || t.stopRequested;
      tick := tick + 1;
    }

    static lemma OneArrival(was: Fs, fs: Fs, name: FileName)
      requires forall p :: p in fs && p != Path(Inbox, name) ==> p in was
      ensures NamesIn(fs, Inbox) <= NamesIn(was, Inbox) + {name}
    {
      forall n | n in NamesIn(fs, Inbox) && n != name ensures n in NamesIn(was, Inbox) {
        assert Path(Inbox, n) in was;
      }
    }

    /** The file that was running under this name is now in that archive, under a name that was free. */
    static ghost predicate ArchivedIn(dir: Dir, name: FileName, was: Fs, fs: Fs)
      requires Path(Running, name) in was
    {
      exists k :: 1 <= k && Path(dir, Candidate(name, k)) !in was && Path(dir, Candidate(name, k)) in fs
                  && fs[Path(dir, Candidate(name, k))] == was[Path(Running, name)]
    }

    /** Dispatches a claimed entry and archives it; false when it cannot be archived. */
    method DispatchOne(report: LoopReport, name: FileName) returns (ok: bool)
      requires store.Valid() && report.Valid() && tick < |script| && Path(Running, name) in store.fs
      modifies this, report, store
      ensures store.Valid() && report.Valid() && tick == old(tick) + 1
      ensures report.stoppedBy == old(report.stoppedBy)
      ensures report.trail == Extend(old(report.trail),
                Dispatched(name, old(store.fs)[Path(Running, name)].needs, One(script[old(tick)].result)))
      ensures script[old(tick)].result.Raised? ==>
                && report.errors == old(report.errors) + 1 && report.unpricedStreak == old(report.unpricedStreak) + 1
                && report.cost == old(report.cost) && (ok ==> ArchivedIn(NeedsHuman, name, old(store.fs), store.fs))
      ensures script[old(tick)].result.Returned? ==>
                var run := script[old(tick)].result.run;
                && report.cost == old(report.cost) + run.cost
                && report.unpricedStreak == (if run.unpriced then old(report.unpricedStreak) + 1 else 0)
                && (ok ==> match run.outcome
                           case Merged => ArchivedIn(Done, name, old(store.fs), store.fs)
                           case BlockedHardGate => ArchivedIn(Blocked, name, old(store.fs), store.fs)
                           case _ => ArchivedIn(NeedsHuman, name, old(store.fs), store.fs))
      ensures ok ==> NamesIn(store.fs, Running) == NamesIn(old(store.fs), Running) - {name}
      ensures !ok ==> Clogged(store.fs, report.trail)
      ensures NamesIn(store.fs, Inbox) <= NamesIn(old(store.fs), Inbox) + Arrivals(script)
      ensures Gained(store.fs, old(store.fs)) && Since(old(store.log), store.log, Arrivals(script))
      ensures Moved(old(tick), old(clock), old(stopping))
      ensures IdsIn(store.fs, Done) <= IdsIn(old(store.fs), Done)
                + if One(script[old(tick)].result).outcome == Merged then Marks(name) else {}
    {
      var run := One(script[tick].result);
      var needs := store.fs[Path(Running, name)].needs;
      TimePasses();
      SameOutsideMeans(store.fs, old(store.fs));
      report.Record(Dispatched(name, needs, run));
      ghost var was := store.fs;
      ghost var log := store.log;
      var r := store.Finish(name, run.outcome);
      SinceGrows(old(store.log), log, store.log, Arrivals(script));
      ok := r.Ok?;
      assert !ok && run.outcome != Unknown ==> Full(store.fs, OutcomeDir(run.outcome).value, name);
      if r.Ok? {
        ArchivedMove(old(store.fs), was, name, r.value);
      }
    }

    static lemma ArchivedMove(found: Fs, was: Fs, name: FileName, dst: Path)
      requires SameOutside(was, found, {Inbox})
      requires Path(Running, name) in was && dst !in was && dst.dir != Running && dst.dir != Inbox
      requires exists k :: 1 <= k && dst.name == Candidate(name, k)
      ensures Path(Running, name) in found && ArchivedIn(dst.dir, name, found, Move(was, Path(Running, name), dst))
      ensures var v := Move(was, Path(Running, name), dst);
              && NamesIn(v, Running) == NamesIn(was, Running) - {name}
              && NamesIn(v, Inbox) <= NamesIn(was, Inbox)
              && IdsIn(v, Done) <= IdsIn(was, Done) + if dst.dir == Done then Marks(name) else {}
    {
      var k :| 1 <= k && dst.name == Candidate(name, k);
      assert dst == Path(dst.dir, Candidate(name, k)) && dst !in found;
      RunningAfterMove(was, Path(Running, name), dst);
      IdsAfterMove(was, Path(Running, name), dst, Done);
      ArchivedIdentity(name, k);
    }

    static lemma SameOutsideMeans(fs: Fs, was: Fs)
      requires SameOutside(fs, was, {Inbox})
      ensures NamesIn(fs, Running) == NamesIn(was, Running) && IdsIn(fs, Done) == IdsIn(was, Done)
    {
      forall p | p in was && p.dir != Inbox ensures p in fs {
      }
    }

    /** What the loop does when it could claim nothing: archive what waits forever, then tell
        waiting from an empty queue. The result says whether to sleep, to leave or that
        archiving failed. */
    method NothingToClaim(report: LoopReport) returns (stop: Stop)
      requires store.Valid() && report.Valid()
      modifies report, store
      ensures store.Valid() && report.Valid() && report.trail == old(report.trail)
      ensures exists gone :: Parked(store.fs, old(store.fs), gone)
      ensures Since(old(store.log), store.log, {})
      ensures stop in {NoStop, WaitingForDeps, QueueEmpty, ArchiveFull}
      ensures stop == NoStop ==> limits.idle == Watch
      ensures limits.idle == Watch ==> stop == NoStop || stop == ArchiveFull
      ensures stop == ArchiveFull ==> NoRoom(store.fs)
      ensures stop != ArchiveFull && limits.idle != Watch ==> Swept(old(store.fs), store.fs, stop)
      ensures stop != ArchiveFull ==> Cleared(old(store.fs), store.fs)
    {
      var ok, waiting := ArchiveWaiting(report);
      if !ok {
        return ArchiveFull;
      }
      SweptClears(old(store.fs), store.fs, if waiting != {} then WaitingForDeps else QueueEmpty);
      if limits.idle == Watch {
        report.idlePolls := report.idlePolls + 1;
        return NoStop;
      }
      return if waiting != {} then WaitingForDeps else QueueEmpty;
    }

    static lemma SweptClears(was: Fs, fs: Fs, stop: Stop)
      requires Swept(was, fs, stop) && (stop == WaitingForDeps || stop == QueueEmpty)
      ensures Cleared(was, fs)
    {
    }

    /** Archives the deadlocked entries; `waiting` is what the loop believes is still waiting. */
    method ArchiveWaiting(report: LoopReport) returns (ok: bool, waiting: set<FileName>)
      requires store.Valid() && report.Valid()
      modifies report`depDeadlocked, store
      ensures store.Valid() && exists gone :: Parked(store.fs, old(store.fs), gone)
      ensures Since(old(store.log), store.log, {})
      ensures !ok ==> NoRoom(store.fs)
      ensures ok ==> Swept(old(store.fs), store.fs, if waiting != {} then WaitingForDeps else QueueEmpty)
    {
      var blocked := store.BlockedByDeps();
      ghost var was := store.fs;
      if blocked == map[] {
        assert Parked(store.fs, was, {});
        NothingBlocked(was);
        return true, {};
      }
      ghost var entries, runnable;
      var dead;
      ok, dead, entries, runnable := store.ParkDeadlocked();
      report.depDeadlocked := report.depDeadlocked + |dead|;
      waiting := set n | n in blocked && n.stem !in dead;
      if ok {
        AllArchived(was, store.fs, entries, runnable, dead, waiting,
                    if waiting != {} then WaitingForDeps else QueueEmpty);
      }
    }

    /** When every queued file is ready the sweep finds nothing. */
    static lemma NothingBlocked(fs: Fs)
      requires (exists entries :: Representatives(fs, entries)) && forall n :: !Waits(fs, n)
      ensures Swept(fs, fs, QueueEmpty)
    {
      var entries :| Representatives(fs, entries);
      AllRunnable(fs, entries);
      NothingDead(fs, entries);
      assert SweptBy(fs, fs, QueueEmpty, entries, entries.Keys);
    }

    static lemma AllRunnable(fs: Fs, entries: map<Id, FileName>)
      requires Representatives(fs, entries) && forall n :: !Waits(fs, n)
      ensures Sweep(fs, entries, entries.Keys)
    {
      forall id | id in entries ensures Satisfied(SweepGraph(fs, entries)[id], Base(fs)) {
        assert !Waits(fs, entries[id]);
      }
      EveryoneRuns(SweepGraph(fs, entries), Base(fs));
    }

    static lemma NothingDead(fs: Fs, entries: map<Id, FileName>)
      ensures DeadFiles(entries, entries.Keys) == {} && LeftInbox(fs, fs, {})
    {
    }

    static lemma EveryoneRuns(g: Graph, base: set<Id>)
      requires forall id :: id in g ==> Satisfied(g[id], base)
      ensures LeastClosed(g, base, g.Keys)
    {
      forall X: set<Id> | X <= g.Keys && Closed(g, base, X) ensures g.Keys <= X {
        assert forall id :: id in g ==> Satisfied(g[id], base + X);
      }
    }

    static lemma AllArchived(was: Fs, fs: Fs, entries: map<Id, FileName>, runnable: set<Id>,
                             dead: map<Id, Deadlock>, waiting: set<FileName>, stop: Stop)
      requires Sweep(was, entries, runnable)
      requires dead.Keys == entries.Keys - runnable && forall id :: id in dead ==> dead[id].name == entries[id]
      requires LeftInbox(fs, was, set id | id in dead :: dead[id].name)
      requires forall n :: n in waiting <==> Waits(was, n) && n.stem !in dead.Keys
      requires stop == WaitingForDeps <==> waiting != {}
      ensures Swept(was, fs, stop)
    {
      assert (set id | id in dead :: dead[id].name) == DeadFiles(entries, runnable);
      SomeoneWaits(was, waiting, dead.Keys);
      assert SweptBy(was, fs, stop, entries, runnable);
    }

    static lemma SomeoneWaits(was: Fs, waiting: set<FileName>, ids: set<Id>)
      requires forall n :: n in waiting <==> Waits(was, n) && n.stem !in ids
      ensures waiting != {} <==> SomeWait(was, ids)
    {
      if waiting != {} {
        var n :| n in waiting;
      }
    }

    /** What holds at the loop head. */
    ghost predicate AtHead(report: LoopReport, b: Beginning)
      reads this, store, report
    {
      && store.Valid() && report.Valid() && Gated(limits, report.trail) && tick <= |script|
      && (b.quiet ==> NamesIn(store.fs, Running) == {})
      && (limits.idle != Watch ==> |report.trail| == tick)
      && DepsFirst(b.done, report.trail) && IdsIn(store.fs, Done) <= b.done + MergedBy(report.trail)
      && NamesIn(store.fs, Inbox) <= b.origin && Arrivals(script) <= b.origin
    }

    /** A loop that does not watch dispatches once a tick, and skips nothing that was queued. */
    ghost predicate Follows(trail: seq<Dispatched>, begun: Fs, fs: Fs) {
      limits.idle != Watch ==>
        && |trail| <= |script| && (forall i :: 0 <= i < |trail| ==> trail[i].run == One(script[i].result))
        && KeptOrDispatched(begun, fs, trail)
    }

    /** One poll of a watching loop with nothing to claim. */
    method Sleep(report: LoopReport, ghost b: Beginning)
      requires AtHead(report, b) && tick < |script| && limits.idle == Watch
      modifies this, store
      ensures AtHead(report, b) && tick == old(tick) + 1 && Moved(old(tick), old(clock), old(stopping))
      ensures Since(old(store.log), store.log, Arrivals(script))
      ensures report.trail == old(report.trail) && Gained(store.fs, old(store.fs))
    {
      TimePasses();
      SameOutsideMeans(store.fs, old(store.fs));
    }

    /** Dispatches the entry that was just claimed from the state `was`. */
    method Work(report: LoopReport, name: FileName, ghost was: Fs, ghost b: Beginning) returns (ok: bool)
      requires store.Valid() && report.Valid() && Gated(limits, report.trail) && Admits(limits, report.trail)
      requires tick < |script| && Ready(was, name) && Path(Running, name) !in was
      requires store.fs == Move(was, Path(Inbox, name), Path(Running, name))
      requires b.quiet ==> NamesIn(was, Running) == {}
      requires limits.idle != Watch ==> |report.trail| == tick
      requires DepsFirst(b.done, report.trail) && IdsIn(was, Done) <= b.done + MergedBy(report.trail)
      requires NamesIn(was, Inbox) <= b.origin && Arrivals(script) <= b.origin && Follows(report.trail, b.fs, was)
      modifies this, report, store
      ensures Moved(old(tick), old(clock), old(stopping))
      ensures AtHead(report, b.(quiet := b.quiet && ok)) && tick == old(tick) + 1
      ensures report.stoppedBy == old(report.stoppedBy) && (!ok ==> Clogged(store.fs, report.trail))
      ensures Follows(report.trail, b.fs, store.fs) && Follows(report.trail, b.fs, was)
      ensures Since(old(store.log), store.log, Arrivals(script)) && Gained(store.fs, old(store.fs))
      ensures |report.trail| == |old(report.trail)| + 1 && report.trail[..|old(report.trail)|] == old(report.trail)
      ensures report.trail[|old(report.trail)|].name == name
    {
      ghost var trail := report.trail;
      RunningAfterMove(was, Path(Inbox, name), Path(Running, name));
      IdsAfterMove(was, Path(Inbox, name), Path(Running, name), Done);
      ok := DispatchOne(report, name);
      ghost var d := report.trail[|report.trail| - 1];
      GatedExtends(limits, trail, d);
      DepsFirstExtends(b.done, trail, d);
      FollowsExtends(trail, d, b.fs, was, store.fs);
    }

    lemma FollowsExtends(trail: seq<Dispatched>, d: Dispatched, begun: Fs, was: Fs, fs: Fs)
      requires Follows(trail, begun, was) && Ready(was, d.name) && Path(Running, d.name) !in was
      requires limits.idle != Watch ==> |trail| < |script| && d.run == One(script[|trail|].result)
      requires Gained(fs, Move(was, Path(Inbox, d.name), Path(Running, d.name)))
      ensures Follows(Extend(trail, d), begun, fs) && Follows(Extend(trail, d), begun, was)
    {
      var longer := Extend(trail, d);
      assert d in longer && forall e :: e in trail ==> e in longer;
      assert forall p :: p in was && p.dir == Inbox && p.name != d.name ==> p in fs && fs[p] == was[p];
    }

    /** No limit stops the loop before its first dispatch. */
    static predicate OpenAtFirst(limits: Limits) {
      Admits(limits, []) && !(limits.maxRuntime != 0.0 && 0.0 >= limits.maxRuntime)
    }

    ghost predicate FirstPass(report: LoopReport, started: real)
      reads this, report
    {
      && tick < |script| && script[tick].late == [] && !stopping
      && report.trail == [] && clock == started && OpenAtFirst(limits)
    }

    /** How a loop that may not watch leaves a queue in which nothing is left to do. */
    static ghost predicate Leaves(was: Fs, fs: Fs, stop: Stop) {
      && stop in {WaitingForDeps, QueueEmpty, ArchiveFull} && (stop == ArchiveFull ==> NoRoom(fs))
      && exists gone :: Parked(fs, was, gone)
    }

    /** Nothing could be claimed; some entries may come in before the loop looks at the others. */
    method Idling(report: LoopReport) returns (stop: Stop, ghost was: Fs)
      requires store.Valid() && report.Valid() && tick < |script|
      requires forall n :: Ready(store.fs, n) ==> Path(Running, n) in store.fs
      modifies report, store
      ensures store.Valid() && report.Valid() && report.trail == old(report.trail)
      ensures SameOutside(was, old(store.fs), {Inbox}) && Gained(was, old(store.fs))
      ensures NamesIn(was, Inbox) <= NamesIn(old(store.fs), Inbox) + Late(script)
      ensures script[tick].late == [] ==> was == old(store.fs)
      ensures exists gone :: Parked(store.fs, was, gone)
      ensures Since(old(store.log), store.log, Arrivals(script))
      ensures stop in {NoStop, WaitingForDeps, QueueEmpty, ArchiveFull}
      ensures stop == NoStop ==> limits.idle == Watch
      ensures limits.idle == Watch ==> stop == NoStop || stop == ArchiveFull
      ensures stop == ArchiveFull ==> NoRoom(store.fs)
      ensures stop != ArchiveFull && limits.idle != Watch ==> Swept(was, store.fs, stop)
      ensures stop != ArchiveFull ==> Cleared(was, store.fs)
    {
      assert script[tick] in script;
      AddAll(script[tick].late);
      was := store.fs;
      ghost var log := store.log;
      stop := NothingToClaim(report);
      SinceGrows(old(store.log), log, store.log, Arrivals(script));
    }

    /** What each reason to stop says of the queue `last` that the loop found. */
    ghost predicate StopsFor(report: LoopReport, stop: Stop, b: Beginning, last: Fs)
      reads this, store, report
    {
      && (stop == ScriptEnd ==> tick == |script|)
      && Justified(stop, report.trail, stopping, clock - b.since, b.quiet, last, store.fs)
    }

    /** After these dispatches and this time, with or without a request to stop, the loop may stop for
        this reason: a limit only when it is reached, and as waiting or empty only when it has swept
        the queue `last` and, if nothing was running, nothing was left there to claim. */
    ghost predicate Justified(stop: Stop, trail: seq<Dispatched>, asked: bool, elapsed: real, quiet: bool,
                              last: Fs, fs: Fs) {
      && (stop in {OnceDone, MaxTasks, Budget, Unpriced} ==> !Admits(limits, trail))
      && (stop == OnceDone ==> limits.idle == Once && |trail| >= 1)
      && (stop == MaxTasks ==> limits.maxTasks != 0 && |trail| >= limits.maxTasks)
      && (stop == Budget ==> limits.budget != 0.0 && Spend(trail) >= limits.budget)
      && (stop == Unpriced ==> limits.maxUnpricedStreak != 0 && Streak(trail) >= limits.maxUnpricedStreak)
      && (stop == Runtime ==> limits.maxRuntime != 0.0 && elapsed >= limits.maxRuntime)
      && (stop == Requested ==> asked)
      && (stop == ArchiveFull ==> Clogged(fs, trail))
      && (stop in {WaitingForDeps, QueueEmpty} ==>
            && limits.idle != Watch && Swept(last, fs, stop)
            && (quiet ==> NothingLeft(last)))
    }

    /** What holds after any number of passes, the last of which found the queue `last`. */
    ghost predicate Going(report: LoopReport, stop: Stop, b: Beginning, last: Fs)
      reads this, store, report
    {
      && AtHead(report, b.(quiet := b.quiet && stop != ArchiveFull))
      && Follows(report.trail, b.fs, if stop == NoStop then store.fs else last)
      && StopsFor(report, stop, b, last) && NamesIn(last, Inbox) <= b.origin
    }

    /** No stop has been asked for and the time limit is not reached. */
    predicate OnTime(since: real)
      reads this
    {
      !stopping && (limits.maxRuntime != 0.0 ==> clock - since < limits.maxRuntime)
    }

    /** A limit, or the end of the script. */
    method HeadStop(report: LoopReport, started: real, ghost b: Beginning) returns (stop: Stop)
      requires AtHead(report, b) && started == b.since
      ensures stop == NoStop ==> Admits(limits, report.trail) && tick < |script| && OnTime(b.since)
      ensures StopsFor(report, stop, b, store.fs) && stop !in {WaitingForDeps, QueueEmpty, ArchiveFull}
      ensures FirstPass(report, started) ==> stop == NoStop
    {
      stop := LimitHit(report, started);
      if stop == NoStop && tick == |script| {
        return ScriptEnd;
      }
    }

    /** One pass through the loop; a reason to stop or NoStop to go on. `was` is the queue it found,
        when it looked for what is waiting if there was nothing to claim. */
    method Iterate(report: LoopReport, started: real, ghost b: Beginning)
      returns (stop: Stop, ghost was: Fs, ghost pass: Option<Pass>)
      requires AtHead(report, b) && Follows(report.trail, b.fs, store.fs) && started == b.since
      modifies this, report, store
      ensures Moved(old(tick), old(clock), old(stopping)) && (pass.Some? ==> old(OnTime(b.since)))
      ensures Going(report, stop, b, was)
      ensures Since(old(store.log), store.log, Arrivals(script))
      ensures tick >= old(tick) && (stop == NoStop ==> tick == old(tick) + 1)
      ensures Drained(old(store.fs)) && limits.idle != Watch && old(FirstPass(report, started)) ==>
                was == old(store.fs) && Leaves(was, store.fs, stop)
      ensures tick == old(tick) + (if pass.Some? then 1 else 0) && (stop == NoStop ==> pass.Some?)
      ensures Passed(pass, stop, was, old(store.fs), old(report.trail), report)
    {
      was, pass := store.fs, None;
      stop := HeadStop(report, started, b);
      if stop != NoStop {
        return;
      }
      var claimed;
      ghost var p;
      claimed, stop, p := ClaimPass(report, b);
      if claimed {
        return stop, was, Some(p);
      }
      ghost var log := store.log;
      stop, was, p := IdlePass(report, b);
      SinceGrows(old(store.log), log, store.log, Arrivals(script));
      pass := if stop == NoStop then Some(p) else None;
    }

    /** The pass of a loop that finds something to claim. */
    method ClaimPass(report: LoopReport, ghost b: Beginning) returns (claimed: bool, stop: Stop, ghost pass: Pass)
      requires AtHead(report, b) && Follows(report.trail, b.fs, store.fs)
      requires tick < |script| && Admits(limits, report.trail)
      modifies this, report, store
      ensures Since(old(store.log), store.log, Arrivals(script)) && stop in {NoStop, ArchiveFull}
      ensures Moved(old(tick), old(clock), old(stopping))
      ensures claimed ==>
                && AtHead(report, b.(quiet := b.quiet && stop != ArchiveFull)) && tick == old(tick) + 1
                && Follows(report.trail, b.fs, store.fs) && Follows(report.trail, b.fs, old(store.fs))
                && StopsFor(report, stop, b, old(store.fs)) && !Drained(old(store.fs))
                && pass.claim.Some? && Played(pass, old(store.fs), old(report.trail), report)
      ensures !claimed ==>
                && AtHead(report, b) && store.fs == old(store.fs) && report.trail == old(report.trail)
                && tick == old(tick) && clock == old(clock) && stopping == old(stopping)
                && forall n :: Ready(store.fs, n) ==> Path(Running, n) in store.fs
    {
      ghost var was := store.fs;
      var claim := store.ClaimNext();
      pass := Pass(was, claim, store.fs);
      if claim.None? {
        return false, NoStop, pass;
      }
      ghost var log := store.log;
      var ok := Work(report, claim.value, was, b);
      SinceGrows(old(store.log), log, store.log, Arrivals(script));
      return true, if ok then NoStop else ArchiveFull, pass;
    }

    /** The pass did what it had to, and the queue and the trail are what it made of them. */
    /** What one round did: nothing but look when it leaves the loop, a pass otherwise. */
    ghost predicate Passed(pass: Option<Pass>, stop: Stop, last: Fs, found: Fs, was: seq<Dispatched>,
                           report: LoopReport)
      reads this, store, report
    {
      match pass
      case None => Gained(last, found) && report.trail == was
      case Some(p) => stop in {NoStop, ArchiveFull} && Played(p, found, was, report)
    }

    ghost predicate Played(p: Pass, found: Fs, was: seq<Dispatched>, report: LoopReport)
      reads this, store, report
    {
      && p.found == found && RightPass(p, Late(script)) && Gained(store.fs, p.left)
      && if p.claim.Some? then |report.trail| == |was| + 1 && report.trail[..|was|] == was
                               && report.trail[|was|].name == p.claim.value
         else report.trail == was
    }

    lemma GainedKeeps(begun: Fs, found: Fs, was: Fs, trail: seq<Dispatched>)
      requires Follows(trail, begun, found) && Gained(was, found)
      ensures Follows(trail, begun, was)
    {
    }

    /** The pass of a loop that found nothing to claim. */
    method IdlePass(report: LoopReport, ghost b: Beginning) returns (stop: Stop, ghost was: Fs, ghost pass: Pass)
      requires AtHead(report, b) && tick < |script| && Follows(report.trail, b.fs, store.fs)
      requires forall n :: Ready(store.fs, n) ==> Path(Running, n) in store.fs
      modifies this, report, store
      ensures AtHead(report, b.(quiet := b.quiet && stop != ArchiveFull))
      ensures Follows(report.trail, b.fs, if stop == NoStop then store.fs else was)
      ensures Since(old(store.log), store.log, Arrivals(script))
      ensures tick == if stop == NoStop then old(tick) + 1 else old(tick)
      ensures Moved(old(tick), old(clock), old(stopping))
      ensures stop == NoStop ==> limits.idle == Watch
      ensures StopsFor(report, stop, b, was) && NamesIn(was, Inbox) <= b.origin
      ensures limits.idle != Watch && script[old(tick)].late == [] ==>
                was == old(store.fs) && Leaves(was, store.fs, stop)
      ensures Gained(was, old(store.fs)) && report.trail == old(report.trail)
      ensures stop == NoStop ==> pass.claim.None? && Played(pass, old(store.fs), old(report.trail), report)
    {
      ghost var found := store.fs;
      stop, was := Idling(report);
      pass := Pass(found, None, store.fs);
      assert LateOnly(was, found, Late(script));
      IdleKeeps(old(store.fs), was, store.fs);
      LateMeansLeft(old(store.fs), was);
      GainedKeeps(b.fs, old(store.fs), was, report.trail);
      if stop == NoStop {
        ghost var log := store.log;
        Sleep(report, b);
        SinceGrows(old(store.log), log, store.log, Arrivals(script));
      }
    }

    /** Nothing is running, and nothing is ready but what came in while the loop was looking. */
    ghost predicate NothingLeft(fs: Fs) {
      NamesIn(fs, Running) == {} && forall n :: Ready(fs, n) ==> n in Late(script)
    }

    /** The loop. The script is any finite stretch of what the world does: results of dispatches,
        arrivals, elapsed time and stop requests; the run is cut off when it ends. `begun` is the
        queue after recovery, `last` the queue as the loop found it when it stopped, `passes` what
        each tick of the script was used for. */
    method Run(report: LoopReport, stale: set<FileName>)
      returns (ghost begun: Fs, ghost last: Fs, ghost passes: seq<Pass>)
      requires store.Valid() && report.Valid() && report.trail == [] && tick == 0
      modifies this, report, store
      ensures store.Valid() && report.Valid() && Since(old(store.log), store.log, Arrivals(script))
      ensures DepsFirst(IdsIn(old(store.fs), Done), report.trail)
      ensures Recovered(begun, old(store.fs), stale)
      ensures NamesIn(last, Inbox) <= NamesIn(old(store.fs), Inbox) + Arrivals(script)
      ensures Stopped(report.trail, report.stoppedBy, begun, last, passes, old(stopping))
      ensures Drained(begun) && limits.idle != Watch && |script| > 0 && script[0].late == []
              && !old(stopping) && OpenAtFirst(limits) ==>
                last == begun && Leaves(begun, store.fs, report.stoppedBy)
    {
      ghost var done, origin := IdsIn(store.fs, Done), NamesIn(store.fs, Inbox) + Arrivals(script);
      Start(report, stale);
      begun := store.fs;
      ghost var log := store.log;
      var stop;
      ghost var b := Beginning(done, origin, NamesIn(begun, Running) == {}, stopping, clock, begun);
      stop, last, passes := Rounds(report, b);
      SinceGrows(old(store.log), log, store.log, Arrivals(script));
      Conclude(report, stop, b, last, passes);
      report.stoppedBy := stop;
    }

    /** What holds of a run that has stopped: no pass began after a request to stop or beyond the time
        limit, each was one that the queue it found called for, what they claimed was dispatched within
        the limits, and the reason to stop is one that holds. */
    ghost predicate Stopped(trail: seq<Dispatched>, stop: Stop, begun: Fs, last: Fs, passes: seq<Pass>, asked: bool)
      reads this, store
    {
      && Gated(limits, trail) && Follows(trail, begun, last) && InTime(limits, script, asked, tick)
      && Passes(passes, begun, trail, Late(script)) && |passes| == tick
      && stop != NoStop && (stop != ArchiveFull ==> Gained(last, LeftBy(passes, begun)))
      && (stop == ScriptEnd ==> tick == |script| && (limits.idle != Watch ==> |trail| == tick))
      && Justified(stop, trail, asked || StopIn(script, tick), Elapsed(script, tick),
                   NamesIn(begun, Running) == {}, last, store.fs)
      && (stop in {WaitingForDeps, QueueEmpty} && NamesIn(begun, Running) == {} && Drained(last) ==>
            Emptied(last, store.fs, stop))
    }

    lemma Conclude(report: LoopReport, stop: Stop, b: Beginning, last: Fs, passes: seq<Pass>)
      requires Going(report, stop, b, last) && Lived(passes, b, stop, last, report) && Noted(b) && stop != NoStop
      requires b.quiet == (NamesIn(b.fs, Running) == {})
      ensures Stopped(report.trail, stop, b.fs, last, passes, b.asked)
    {
      assert (b.asked || StopIn(script, tick)) == stopping && Elapsed(script, tick) == clock - b.since;
      if stop in {WaitingForDeps, QueueEmpty} && b.quiet && Drained(last) {
        SweptMeansEmptied(last, store.fs, stop);
      }
    }

    /** Every tick so far was a right pass, and what the last one left has only grown since. */
    ghost predicate Lived(passes: seq<Pass>, b: Beginning, stop: Stop, last: Fs, report: LoopReport)
      reads this, store, report
    {
      && Passes(passes, b.fs, report.trail, Late(script)) && |passes| == tick
      && (stop != ArchiveFull ==> Gained(if stop == NoStop then store.fs else last, LeftBy(passes, b.fs)))
    }

    /** One more pass, remembered. */
    method Round(report: LoopReport, started: real, ghost b: Beginning, ghost passes: seq<Pass>)
      returns (stop: Stop, ghost last: Fs, ghost more: seq<Pass>)
      requires AtHead(report, b) && Follows(report.trail, b.fs, store.fs) && Lived(passes, b, NoStop, store.fs, report)
      requires started == b.since
      modifies this, report, store
      ensures Going(report, stop, b, last) && Lived(more, b, stop, last, report)
      ensures Moved(old(tick), old(clock), old(stopping)) && (tick > old(tick) ==> old(OnTime(b.since)))
      ensures Since(old(store.log), store.log, Arrivals(script))
      ensures tick >= old(tick) && (stop == NoStop ==> tick == old(tick) + 1)
      ensures Drained(old(store.fs)) && limits.idle != Watch && old(FirstPass(report, started)) ==>
                last == old(store.fs) && Leaves(last, store.fs, stop)
    {
      ghost var trail, found := report.trail, store.fs;
      ghost var pass;
      stop, last, pass := Iterate(report, started, b);
      more := passes + if pass.Some? then [pass.value] else [];
      if pass.Some? {
        PassLived(passes, b, stop, last, report, pass.value, found, trail);
      } else {
        GainedTwice(LeftBy(passes, b.fs), found, last);
        assert more == passes;
      }
    }

    /** Clock and stop request are those of the ticks so far, and no pass began after a request to stop
        or beyond the time limit. */
    ghost predicate Noted(b: Beginning)
      reads this
    {
      NotedAt(b, tick, clock, stopping)
    }

    ghost predicate NotedAt(b: Beginning, n: nat, time: real, asked: bool) {
      && InTime(limits, script, b.asked, n)
      && (asked <==> b.asked || StopIn(script, n)) && time == b.since + Elapsed(script, n)
    }

    lemma StillNoted(b: Beginning, n: nat, time: real, asked: bool)
      requires NotedAt(b, n, time, asked) && Moved(n, time, asked)
      requires tick > n ==> !asked && (limits.maxRuntime != 0.0 ==> time - b.since < limits.maxRuntime)
      ensures Noted(b)
    {
      if tick > n { OneTickMore(script, n); }
    }

    lemma PassLived(passes: seq<Pass>, b: Beginning, stop: Stop, last: Fs, report: LoopReport,
                    p: Pass, found: Fs, trail: seq<Dispatched>)
      requires Passes(passes, b.fs, trail, Late(script)) && |passes| + 1 == tick
      requires Gained(found, LeftBy(passes, b.fs)) && Played(p, found, trail, report)
      requires stop == NoStop || stop == ArchiveFull
      ensures Lived(passes + [p], b, stop, last, report)
    {
      OnePassMore(passes, b.fs, trail, report.trail, p, Late(script));
    }

    /** Rounds through the loop until there is a reason to stop. */
    method Rounds(report: LoopReport, ghost b: Beginning)
      returns (stop: Stop, ghost last: Fs, ghost passes: seq<Pass>)
      requires AtHead(report, b) && report.trail == [] && tick == 0 && store.fs == b.fs
      requires b.asked == stopping && b.since == clock
      modifies this, report, store
      ensures stop != NoStop && Going(report, stop, b, last) && Lived(passes, b, stop, last, report) && Noted(b)
      ensures Since(old(store.log), store.log, Arrivals(script))
      ensures Drained(b.fs) && limits.idle != Watch && |script| > 0 && script[0].late == []
              && !old(stopping) && OpenAtFirst(limits) ==>
                last == b.fs && Leaves(b.fs, store.fs, stop)
    {
      var started := clock;
      ghost var first := Drained(b.fs) && limits.idle != Watch && FirstPass(report, started);
      stop, last, passes := NoStop, b.fs, [];
      while stop == NoStop
        invariant Going(report, stop, b, last) && Lived(passes, b, stop, last, report) && Noted(b)
        invariant Since(old(store.log), store.log, Arrivals(script))
        invariant first ==>
                    last == b.fs
                    && if stop == NoStop then store.fs == b.fs && FirstPass(report, started)
                       else Leaves(b.fs, store.fs, stop)
        decreases |script| - tick, if stop == NoStop then 1 else 0
      {
        ghost var log, before, time, asked := store.log, tick, clock, stopping;
        stop, last, passes := Round(report, started, b, passes);
        StillNoted(b, before, time, asked);
        SinceGrows(old(store.log), log, store.log, Arrivals(script));
      }
    }

    static lemma GainedTwice(a: Fs, b: Fs, c: Fs)
      requires Gained(b, a) && Gained(c, b)
      ensures Gained(c, a)
    {
    }

    /** After recovery only those stale entries run on whose archive is full; the rest of the queue is
        as it was, and all of it is when nothing was running. */
    static ghost predicate Recovered(fs: Fs, was: Fs, stale: set<FileName>) {
      && SameOutside(fs, was, {Running, NeedsHuman}) && NamesIn(fs, Running) <= NamesIn(was, Running)
      && (NamesIn(was, Running) == {} ==> fs == was)
      && forall n :: n in stale && n in NamesIn(fs, Running) ==> Full(fs, NeedsHuman, n)
    }

    /** Crash leftovers are dealt with before the first dispatch. */
    method Start(report: LoopReport, stale: set<FileName>)
      requires store.Valid() && report.Valid() && report.trail == [] && tick == 0
      modifies report, store
      ensures AtHead(report, Beginning(IdsIn(old(store.fs), Done), NamesIn(old(store.fs), Inbox) + Arrivals(script),
                                       NamesIn(store.fs, Running) == {}, stopping, clock, store.fs))
      ensures report.trail == [] && Since(old(store.log), store.log, {})
      ensures Recovered(store.fs, old(store.fs), stale)
    {
      var recovered := store.Recover(stale);
      report.recovered := |recovered|;
      RecoverKeeps(old(store.fs), store.fs);
    }

    static lemma RecoverKeeps(was: Fs, fs: Fs)
      requires SameOutside(fs, was, {Running, NeedsHuman})
      ensures IdsIn(fs, Done) == IdsIn(was, Done) && NamesIn(fs, Inbox) == NamesIn(was, Inbox)
    {
      forall p | p in was && p.dir !in {Running, NeedsHuman} ensures p in fs {
      }
    }

    static lemma IdleKeeps(found: Fs, was: Fs, fs: Fs)
      requires SameOutside(was, found, {Inbox}) && exists gone :: Parked(fs, was, gone)
      ensures NamesIn(fs, Running) == NamesIn(was, Running) == NamesIn(found, Running)
      ensures IdsIn(fs, Done) == IdsIn(was, Done) == IdsIn(found, Done)
      ensures NamesIn(fs, Inbox) <= NamesIn(was, Inbox)
    {
      var gone :| Parked(fs, was, gone);
      ParkedOnlyRemoves(fs, was, gone);
      SameOutsideMeans(was, found);
      forall p | p in was && p.dir !in {Inbox, NeedsHuman} ensures p in fs {
      }
    }

    /** What is ready when the loop looks at the others, but was not when it tried to claim. */
    lemma LateMeansLeft(found: Fs, was: Fs)
      requires SameOutside(was, found, {Inbox}) && Gained(was, found)
      requires NamesIn(was, Inbox) <= NamesIn(found, Inbox) + Late(script)
      requires forall n :: Ready(found, n) ==> Path(Running, n) in found
      ensures NamesIn(found, Running) == {} ==> NothingLeft(was)
    {
      SameOutsideMeans(was, found);
      if NamesIn(found, Running) == {} {
        forall n | Ready(was, n) ensures n in Late(script) {
          if n !in Late(script) { NotLateWasReady(found, was, n); }
        }
      }
    }

    lemma NotLateWasReady(found: Fs, was: Fs, n: FileName)
      requires SameOutside(was, found, {Inbox}) && Gained(was, found)
      requires NamesIn(was, Inbox) <= NamesIn(found, Inbox) + Late(script)
      requires forall n :: Ready(found, n) ==> Path(Running, n) in found
      requires Ready(was, n) && n !in Late(script)
      ensures n in NamesIn(found, Running)
    {
      SameOutsideMeans(was, found);
      assert n in NamesIn(was, Inbox) && Path(Inbox, n) in found;
      assert Ready(found, n);
    }
  }

  // ---------- what a drain leaves behind ----------

  /** When every name under which a file can be queued is plain, a loop that starts with nothing
      running never leaves because something waits for prerequisites; when no two of those names
      share an identity, an emptied queue means an empty inbox. */
  lemma DrainedMeansEmpty(last: Fs, fs: Fs, stop: Stop, origin: set<FileName>)
    requires Emptied(last, fs, stop) && NamesIn(last, Inbox) <= origin
    ensures (forall n :: n in origin ==> Plain(n.stem)) ==> stop != WaitingForDeps
    ensures (forall m, n :: m in origin && n in origin && IdOf(m) == IdOf(n) ==> m == n) ==> NamesIn(fs, Inbox) == {}
  {
    if forall n :: n in origin ==> Plain(n.stem) {
      PlainStemsAreIds(last);
    }
  }

  /** A queue that holds nothing but one entry, and that waits for something that never comes. */
  function OneEntry(n: FileName, d: Id): Fs {
    map[Path(Inbox, n) := Entry(0, [d])]
  }

  lemma OnlySuffixedEntry(n: FileName, d: Id)
    requires !Plain(n.stem)
    ensures UniqueIds(OneEntry(n, d)) && !StemsAreIds(OneEntry(n, d)) && Drained(OneEntry(n, d))
  {
    var fs := OneEntry(n, d);
    assert NamesIn(fs, Inbox) == {n} && NamesIn(fs, Running) == {} && d in fs[Path(Inbox, n)].needs;
    assert IdsIn(fs, Done) == {} && IdsIn(fs, Inbox) == {IdOf(n)};
    forall m | Path(Inbox, m) in fs ensures m == n {}
  }

  /** When that entry has a suffix, like a revived `T.2`, a drain archives it, the inbox is empty, and
      still the loop reports that something waits for prerequisites. */
  method RevivedEntryIsReportedAsWaiting(n: FileName, d: Id) returns (inbox: set<FileName>, stop: Stop)
    requires !Plain(n.stem)
    ensures inbox == {} && stop == WaitingForDeps
  {
    var store := new Store();
    var added := store.Add(n, Entry(0, [d]));
    var report := new LoopReport();
    var tick := Tick(Raised, 0.0, [], [], false);
    var loop := new BacklogLoop(store, Limits(0, 0.0, 0.0, Drain, 0), [tick]);
    assert store.fs == OneEntry(n, d);
    OnlySuffixedEntry(n, d);
    ghost var begun, last, passes := loop.Run(report, {});
    RoomForOne(begun, store.fs, n, d);
    return NamesIn(store.fs, Inbox), report.stoppedBy;
  }

  lemma RoomForOne(was: Fs, fs: Fs, n: FileName, d: Id)
    requires was == OneEntry(n, d)
    requires exists gone :: Parked(fs, was, gone)
    ensures !NoRoom(fs)
  {
    var gone :| Parked(fs, was, gone);
    if Full(fs, NeedsHuman, n) {
      var p := Path(NeedsHuman, Candidate(n, 1));
      assert p in fs && CameFrom(was, gone, fs[p]);
    }
    forall m | Path(Inbox, m) in fs ensures !Full(fs, NeedsHuman, m) {
      assert Path(Inbox, m) in was;
    }
  }
}
