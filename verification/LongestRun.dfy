/** The bound that budget and breaker put on the number of dispatches is reached by the loop itself. */
module LongestRun {
  import opened Names
  import opened Dependencies
  import opened Queue
  import opened Backlog
  import opened Loop

  // ---------- a queue in which no archive name is ever taken ----------

  /** All names are plain, and each is in one directory only. */
  ghost predicate OwnNames(fs: Fs) {
    && (forall p :: p in fs ==> Plain(p.name.stem))
    && forall p, q :: p in fs && q in fs && p.name == q.name ==> p == q
  }

  predicate Moves(op: Op) {
    !op.Add? && !op.Revive?
  }

  lemma OwnNameIsFree(fs: Fs, src: Path, dir: Dir)
    requires OwnNames(fs) && src in fs && src.dir != dir
    ensures Archive(fs, src, dir) == Some((src, Path(dir, src.name)))
  {
    assert Path(dir, src.name) !in fs;
    assert Slot(fs, dir, src.name, 1) == Some(1);
  }

  lemma MoveKeepsOwnNames(fs: Fs, src: Path, dir: Dir)
    requires OwnNames(fs) && src in fs && Path(dir, src.name) !in fs
    ensures OwnNames(Move(fs, src, Path(dir, src.name)))
  {
  }

  lemma StepKeepsOwnNames(w: World, op: Op)
    requires OwnNames(w.fs) && Moves(op)
    ensures OwnNames(Apply(w, op).fs)
  {
    if Route(w.fs, op).Some? {
      var src, dst := Route(w.fs, op).value.0, Route(w.fs, op).value.1;
      RouteCounts(w, op, src, dst);
      if !op.Claim? && !op.Take? { OwnNameIsFree(w.fs, src, dst.dir); }
      MoveKeepsOwnNames(w.fs, src, dst.dir);
    }
  }

  lemma {:induction false} RunKeepsOwnNames(w: World, ops: seq<Op>)
    requires OwnNames(w.fs) && forall op :: op in ops ==> Moves(op)
    ensures OwnNames(Exec(w, ops).fs)
    decreases |ops|
  {
    if ops != [] {
      StepKeepsOwnNames(w, ops[0]);
      RunKeepsOwnNames(Apply(w, ops[0]), ops[1..]);
    }
  }

  lemma NothingIsFull(fs: Fs, dir: Dir, n: FileName)
    requires OwnNames(fs)
    ensures !Full(fs, dir, n)
  {
    SuffixIsStripped(n, 2);
    assert Path(dir, Candidate(n, 2)) !in fs;
  }

  lemma {:induction false} ExecSplits(w: World, first: seq<Op>, rest: seq<Op>)
    ensures Exec(w, first + rest) == Exec(Exec(w, first), rest)
    decreases |first|
  {
    if first == [] {
      assert first + rest == rest;
    } else {
      assert (first + rest)[1..] == first[1..] + rest;
      ExecSplits(Apply(w, first[0]), first[1..], rest);
    }
  }

  /** Whatever a loop does to such a queue, no archive fills up. */
  lemma NeverClogged(was: seq<Op>, now: seq<Op>, trail: seq<Dispatched>)
    requires Since(was, now, {})
    requires trail != [] ==> trail[|trail| - 1].run.outcome != Unknown
    ensures var empty := World(map[], multiset{}, multiset{});
            OwnNames(Exec(empty, was).fs) ==> !Clogged(Exec(empty, now).fs, trail)
  {
    var empty := World(map[], multiset{}, multiset{});
    assert now == was + now[|was|..];
    ExecSplits(empty, was, now[|was|..]);
    if OwnNames(Exec(empty, was).fs) {
      RunKeepsOwnNames(Exec(empty, was), now[|was|..]);
      forall dir, n ensures !Full(Exec(empty, now).fs, dir, n) {
        NothingIsFull(Exec(empty, now).fs, dir, n);
      }
    }
  }

  // ---------- the queue ----------

  function Letters(n: nat): (s: string)
    ensures |s| == n && forall c :: c in s ==> c == 'a'
  {
    if n == 0 then "" else Letters(n - 1) + ['a']
  }

  function Name(i: nat): FileName {
    FileName(Letters(i + 1), Yaml)
  }

  lemma NamesArePlain(i: nat)
    ensures Plain(Name(i).stem)
  {
    assert Name(i).stem[i] == 'a';
  }

  lemma NamesDiffer(i: nat, j: nat)
    requires i != j
    ensures Name(i) != Name(j)
  {
    assert |Name(i).stem| != |Name(j).stem|;
  }

  /** n entries that depend on nothing. */
  ghost predicate Loose(fs: Fs, n: nat) {
    && (forall i: nat :: i < n ==> Path(Inbox, Name(i)) in fs && fs[Path(Inbox, Name(i))].needs == [])
    && forall p :: p in fs ==> p.dir == Inbox && exists i: nat :: i < n && p.name == Name(i) && fs[p].item == i
  }

  lemma LooseMeansOwnNames(fs: Fs, n: nat)
    requires Loose(fs, n)
    ensures OwnNames(fs)
  {
    forall p | p in fs ensures Plain(p.name.stem) {
      var i: nat :| i < n && p.name == Name(i);
      NamesArePlain(i);
    }
  }

  lemma OneMoreEntry(fs: Fs, n: nat)
    requires Loose(fs, n)
    ensures Path(Inbox, Name(n)) !in fs && n !in Items(fs)
    ensures Loose(fs[Path(Inbox, Name(n)) := Entry(n, [])], n + 1)
  {
    forall p | p in fs ensures p.name != Name(n) && fs[p].item != n {
      var i: nat :| i < n && p.name == Name(i) && fs[p].item == i;
      NamesDiffer(i, n);
    }
  }

  method QueueOf(n: nat) returns (store: Store)
    ensures fresh(store) && store.Valid() && Loose(store.fs, n)
  {
    store := new Store();
    for i := 0 to n
      invariant fresh(store) && store.Valid() && Loose(store.fs, i)
    {
      OneMoreEntry(store.fs, i);
      var _ := store.Add(Name(i), Entry(i, []));
    }
  }

  // ---------- the run ----------

  function AllNames(n: nat): (r: set<FileName>)
    ensures |r| == n && forall x :: x in r ==> |x.stem| <= n
  {
    if n == 0 then {} else AllNames(n - 1) + {Name(n - 1)}
  }

  lemma {:induction false} IndexOf(n: nat, x: FileName) returns (i: nat)
    requires x in AllNames(n)
    ensures i < n && x == Name(i)
  {
    if x == Name(n - 1) { i := n - 1; } else { i := IndexOf(n - 1, x); }
  }

  function NamesOf(trail: seq<Dispatched>): (r: set<FileName>)
    ensures |r| <= |trail| && forall d :: d in trail ==> d.name in r
  {
    if trail == [] then {} else NamesOf(trail[1..]) + {trail[0].name}
  }

  /** With fewer dispatches than entries one of the entries was not dispatched. */
  lemma OneIsLeft(trail: seq<Dispatched>, n: nat) returns (i: nat)
    requires |trail| < n
    ensures i < n && forall d :: d in trail ==> d.name != Name(i)
  {
    if AllNames(n) <= NamesOf(trail) {
      Subset(AllNames(n), NamesOf(trail));
    }
    var x :| x in AllNames(n) && x !in NamesOf(trail);
    i := IndexOf(n, x);
  }

  /** Two trails with the same results. */
  ghost predicate SameRuns(a: seq<Dispatched>, b: seq<Dispatched>) {
    |a| == |b| && forall i :: 0 <= i < |a| ==> a[i].run == b[i].run
  }

  lemma {:induction false} SameFigures(a: seq<Dispatched>, b: seq<Dispatched>)
    requires SameRuns(a, b)
    ensures Spend(a) == Spend(b) && Streak(a) == Streak(b)
    decreases |a|
  {
    if a != [] { SameFigures(a[..|a| - 1], b[..|b| - 1]); }
  }

  function ScriptOf(runs: seq<Dispatched>): (script: seq<Tick>)
    ensures |script| == |runs|
    ensures forall i :: 0 <= i < |runs| ==> script[i] == Tick(Returned(runs[i].run), 0.0, [], [], false)
  {
    seq(|runs|, i requires 0 <= i < |runs| => Tick(Returned(runs[i].run), 0.0, [], [], false))
  }

  lemma NothingElseHappens(runs: seq<Dispatched>)
    ensures Arrivals(ScriptOf(runs)) == {} && forall n :: !StopIn(ScriptOf(runs), n)
  {
    forall t | t in ScriptOf(runs) ensures t.arrivals == [] && t.late == [] && !t.stopRequested {}
  }

  /** While dispatches are left over, some entry is queued and ready. */
  lemma SomethingIsReady(begun: Fs, last: Fs, trail: seq<Dispatched>, n: nat) returns (name: FileName)
    requires Loose(begun, n) && KeptOrDispatched(begun, last, trail) && |trail| < n
    ensures Ready(last, name)
  {
    var i := OneIsLeft(trail, n);
    name := Name(i);
    assert Path(Inbox, name) in begun;
  }

  lemma StillAdmitted(lim: Limits, runs: seq<Dispatched>, trail: seq<Dispatched>)
    requires Gated(lim, runs) && |trail| < |runs|
    requires forall i :: 0 <= i < |trail| ==> trail[i].run == runs[i].run
    ensures Admits(lim, trail)
  {
    SameFigures(trail, runs[..|trail|]);
  }

  lemma {:induction false} KnownOutcomes(q: nat, r: nat, k: nat, c: real, d: Dispatched)
    requires r < k
    ensures forall e :: e in Worst(q, r, k, c, d) ==> e.run.outcome != Unknown
    decreases q, r
  {
    if r > 0 {
      KnownOutcomes(q, r - 1, k, c, d);
    } else if q > 0 {
      KnownOutcomes(q - 1, k - 1, k, c, d);
    }
  }

  /** On such a queue nothing stops the loop before the limits do. */
  lemma AllDispatched(lim: Limits, runs: seq<Dispatched>, trail: seq<Dispatched>, stop: Stop, begun: Fs, last: Fs)
    requires Gated(lim, runs) && Loose(begun, |runs|) && KeptOrDispatched(begun, last, trail)
    requires |trail| <= |runs| && forall i :: 0 <= i < |trail| ==> trail[i].run == runs[i].run
    requires stop !in {NoStop, Runtime, Requested, ArchiveFull}
    requires stop in {OnceDone, MaxTasks, Budget, Unpriced} ==> !Admits(lim, trail)
    requires stop in {WaitingForDeps, QueueEmpty} ==> forall n :: !Ready(last, n)
    requires stop == ScriptEnd ==> |trail| == |runs|
    ensures SameRuns(trail, runs)
  {
    if |trail| < |runs| {
      StillAdmitted(lim, runs, trail);
      var name := SomethingIsReady(begun, last, trail, |runs|);
    }
  }

  lemma SameCosts(runs: seq<Dispatched>, trail: seq<Dispatched>, c: real)
    requires SameRuns(trail, runs) && CostsAtLeast(runs, c)
    ensures CostsAtLeast(trail, c)
  {
    forall d | d in trail ensures 0.0 <= d.run.cost && (!d.run.unpriced ==> c <= d.run.cost) {
      var i :| 0 <= i < |trail| && trail[i] == d;
      assert runs[i] in runs;
    }
  }

  lemma NobodyRuns(fs: Fs, n: nat)
    requires Loose(fs, n)
    ensures NamesIn(fs, Running) == {}
  {
  }

  /** One run of the loop with these results and nothing else happening. */
  method Drive(store: Store, lim: Limits, runs: seq<Dispatched>) returns (report: LoopReport, ghost last: Fs)
    requires store.Valid() && OwnNames(store.fs) && NamesIn(store.fs, Running) == {}
    requires lim.idle == Drain && lim.maxRuntime == 0.0 && forall d :: d in runs ==> d.run.outcome != Unknown
    modifies store
    ensures fresh(report) && Gated(lim, report.trail) && KeptOrDispatched(old(store.fs), last, report.trail)
    ensures |report.trail| <= |runs| && forall i :: 0 <= i < |report.trail| ==> report.trail[i].run == runs[i].run
    ensures report.stoppedBy !in {NoStop, Runtime, Requested, ArchiveFull}
    ensures report.stoppedBy in {OnceDone, MaxTasks, Budget, Unpriced} ==> !Admits(lim, report.trail)
    ensures report.stoppedBy in {WaitingForDeps, QueueEmpty} ==> forall n :: !Ready(last, n)
    ensures report.stoppedBy == ScriptEnd ==> |report.trail| == |runs|
  {
    NothingElseHappens(runs);
    report := new LoopReport();
    var loop := new BacklogLoop(store, lim, ScriptOf(runs));
    ghost var was, fs := store.log, store.fs;
    ghost var begun;
    ghost var passes;
    begun, last, passes := loop.Run(report, {});
    assert begun == fs && loop.Follows(report.trail, fs, last);
    ResultsOf(runs, report.trail);
    NeverClogged(was, store.log, report.trail);
  }

  lemma ResultsOf(runs: seq<Dispatched>, trail: seq<Dispatched>)
    requires |trail| <= |runs| && forall d :: d in runs ==> d.run.outcome != Unknown
    requires forall i :: 0 <= i < |trail| ==> trail[i].run == One(ScriptOf(runs)[i].result)
    ensures forall i :: 0 <= i < |trail| ==> trail[i].run == runs[i].run
    ensures trail != [] ==> trail[|trail| - 1].run.outcome != Unknown
  {
    if trail != [] { assert runs[|trail| - 1] in runs; }
  }

  /** One such run on that queue. */
  method RunOn(lim: Limits, runs: seq<Dispatched>) returns (report: LoopReport)
    requires Gated(lim, runs) && forall d :: d in runs ==> d.run.outcome != Unknown
    requires lim.idle == Drain && lim.maxRuntime == 0.0
    ensures fresh(report) && Gated(lim, report.trail) && SameRuns(report.trail, runs)
  {
    var store := QueueOf(|runs|);
    LooseMeansOwnNames(store.fs, |runs|);
    ghost var fs := store.fs;
    NobodyRuns(fs, |runs|);
    ghost var last;
    report, last := Drive(store, lim, runs);
    AllDispatched(lim, runs, report.trail, report.stoppedBy, fs, last);
  }

  /** The loop on a long enough queue, with results that cost as little and are unpriced as often as
      the limits allow, makes exactly as many dispatches as the bound says. */
  method BoundIsReachedByTheLoop(lim: Limits, c: real) returns (report: LoopReport)
    requires c > 0.0 && lim.budget > 0.0 && lim.maxUnpricedStreak >= 1
    requires lim.idle == Drain && lim.maxTasks == 0 && lim.maxRuntime == 0.0
    ensures fresh(report) && Gated(lim, report.trail) && CostsAtLeast(report.trail, c)
    ensures |report.trail| == lim.maxUnpricedStreak * Ceil(lim.budget / c)
  {
    var k: nat, m: nat := lim.maxUnpricedStreak, Ceil(lim.budget / c);
    var d := Dispatched(Name(0), [], TaskRun(Merged, c, false));
    var runs := Worst(m, 0, k, c, d);
    ghost var _ := BudgetBoundIsReached(lim, c, d);
    KnownOutcomes(m, 0, k, c, d);
    report := RunOn(lim, runs);
    SameCosts(runs, report.trail, c);
  }
}
