/** Ordering the tasks of a saved plan by depth-first search, and deciding which finished tasks
    may be replayed onto the new branch. */
module TaskOrder {
  type Id = string
  datatype Task = Task(id: Id, deps: seq<Id>)
  datatype Error = NoTasks | UnsafeId | DuplicateId | BadDependencies
  datatype Result<+T> = Ok(value: T) | Err(error: Error)

  // ---------- what a plan has to be ----------

  /** Usable as one component of a git ref. */
  predicate SafeRef(id: Id) {
    id != "" && forall c :: c in id ==> 'a' <= c <= 'z' || 'A' <= c <= 'Z' || '0' <= c <= '9' || c == '_' || c == '-'
  }

  /** An id with a separator, a dot or a space in it, or none at all, is not. */
  lemma UnsafeIds(id: Id)
    ensures id == "" || '/' in id || '.' in id || ' ' in id || '~' in id || ':' in id ==> !SafeRef(id)
    ensures |id| >= 1 && (forall c :: c in id ==> c in "abcxyzABCXYZ0189_-") ==> SafeRef(id)
  {
  }

  ghost predicate Distinct(ts: seq<Task>) {
    forall i, j :: 0 <= i < j < |ts| ==> ts[i].id != ts[j].id
  }

  ghost predicate Named(ts: seq<Task>, id: Id) {
    exists k :: 0 <= k < |ts| && ts[k].id == id
  }

  /** Every dependency names a task of the plan. */
  ghost predicate DepsExist(ts: seq<Task>) {
    forall t, d :: t in ts && d in t.deps ==> Named(ts, d)
  }

  /** `p` walks along dependencies: each task depends on the one after it. */
  ghost predicate Walk(ts: seq<Task>, p: seq<Task>) {
    && (forall t :: t in p ==> t in ts)
    && forall k :: 0 <= k < |p| - 1 ==> p[k + 1].id in p[k].deps
  }

  ghost predicate Cycle(ts: seq<Task>, p: seq<Task>) {
    p != [] && Walk(ts, p) && p[0].id in p[|p| - 1].deps
  }

  ghost predicate Acyclic(ts: seq<Task>) {
    !exists p :: Cycle(ts, p)
  }

  ghost predicate DepsEarlier(ts: seq<Task>) {
    forall k, d :: 0 <= k < |ts| && d in ts[k].deps ==> Named(ts[..k], d)
  }

  // ---------- an order with dependencies first rules out cycles ----------

  lemma EarlierStays(ts: seq<Task>, k: nat, d: Id)
    requires k <= |ts| && Named(ts[..k], d)
    ensures exists j :: 0 <= j < k && ts[j].id == d
  {
    var j :| 0 <= j < k && ts[..k][j].id == d;
    assert ts[j].id == d;
  }

  /** Walking along dependencies in such an order only goes backwards. */
  lemma {:induction false} WalksGoBack(ts: seq<Task>, p: seq<Task>, i: nat) returns (j: nat)
    requires Distinct(ts) && DepsEarlier(ts) && Walk(ts, p) && p != []
    requires i < |ts| && ts[i] == p[0]
    ensures j <= i && ts[j] == p[|p| - 1]
    decreases |p|
  {
    if |p| == 1 {
      j := i;
    } else {
      assert p[1].id in ts[i].deps && p[1] in ts;
      EarlierStays(ts, i, p[1].id);
      var k :| 0 <= k < i && ts[k].id == p[1].id;
      var l :| 0 <= l < |ts| && ts[l] == p[1];
      assert k == l;
      j := WalksGoBack(ts, p[1..], k);
    }
  }

  lemma OrderedMeansAcyclic(ts: seq<Task>)
    requires Distinct(ts) && DepsEarlier(ts)
    ensures Acyclic(ts)
  {
    forall p: seq<Task> | Cycle(ts, p)
      ensures false
    {
      assert p[0] in ts;
      var i :| 0 <= i < |ts| && ts[i] == p[0];
      var j := WalksGoBack(ts, p, i);
      EarlierStays(ts, j, p[0].id);
    }
  }

  lemma SameTasksSameCycles(a: seq<Task>, b: seq<Task>)
    requires forall t :: t in a <==> t in b
    ensures Acyclic(a) ==> Acyclic(b)
  {
    forall p | Cycle(b, p) ensures Cycle(a, p) {}
  }

  lemma NamedAppend(ts: seq<Task>, t: Task)
    ensures forall i :: Named(ts + [t], i) <==> Named(ts, i) || i == t.id
  {
    forall i
      ensures Named(ts + [t], i) <==> Named(ts, i) || i == t.id
    {
      if Named(ts, i) {
        var k :| 0 <= k < |ts| && ts[k].id == i;
        assert (ts + [t])[k].id == i;
      }
      if i == t.id { assert (ts + [t])[|ts|].id == i; }
    }
  }

  // ---------- the search ----------

  class Search {
    const plan: seq<Task>
    const tasks: map<Id, Task>
    var ordered: seq<Task>
    var visiting: set<Id>
    var seen: set<Id>

    constructor (plan: seq<Task>, tasks: map<Id, Task>)
      requires Keyed(plan, tasks)
      ensures this.plan == plan && this.tasks == tasks && ordered == [] && visiting == {} && Valid()
    {
      this.plan := plan;
      this.tasks := tasks;
      ordered, visiting, seen := [], {}, {};
    }

    static ghost predicate Keyed(plan: seq<Task>, tasks: map<Id, Task>) {
      && (forall i :: i in tasks ==> tasks[i].id == i && tasks[i] in plan)
      && (forall t :: t in plan ==> t.id in tasks && tasks[t.id] == t)
    }

    ghost predicate Valid()
      reads this
    {
      && Keyed(plan, tasks)
      && (forall i :: i in seen <==> Named(ordered, i))
      && (forall t :: t in ordered ==> t in plan)
      && Distinct(ordered) && DepsEarlier(ordered)
      && seen !! visiting && visiting <= tasks.Keys
    }

    ghost predicate Broken() {
      !DepsExist(plan) || !Acyclic(plan)
    }

    /** Puts `ident` and all it depends on into `ordered`; `path` is what is being visited. */
    method Visit(ident: Id, ghost path: seq<Task>) returns (ok: bool)
      requires Valid() && Walk(plan, path)
      requires forall i :: i in visiting <==> Named(path, i)
      requires if path == [] then ident in tasks else ident in path[|path| - 1].deps
      modifies this
      ensures Valid() && old(ordered) <= ordered && old(seen) <= seen
      ensures ok ==> visiting == old(visiting) && ident in seen
      ensures !ok ==> Broken()
      decreases tasks.Keys - visiting
    {
      if ident in visiting || ident !in tasks {
        BreaksThePlan(ident, path);
        return false;
      }
      if ident in seen {
        return true;
      }
      var task := tasks[ident];
      visiting := visiting + {ident};
      ghost var deeper := path + [task];
      for k := 0 to |task.deps|
        invariant Valid() && visiting == old(visiting) + {ident}
        invariant old(ordered) <= ordered && old(seen) <= seen
        invariant forall j :: 0 <= j < k ==> task.deps[j] in seen
      {
        NamedAppend(path, task);
        ok := Visit(task.deps[k], deeper);
        if !ok { return; }
      }
      Extends(task);
      visiting := visiting - {ident};
      seen := seen + {ident};
      ordered := ordered + [task];
      ok := true;
    }

    lemma Extends(t: Task)
      requires Valid() && t in plan && t.id !in seen
      requires forall d :: d in t.deps ==> d in seen
      ensures Distinct(ordered + [t]) && DepsEarlier(ordered + [t])
      ensures forall i :: Named(ordered + [t], i) <==> i in seen + {t.id}
    {
      NamedAppend(ordered, t);
      var now := ordered + [t];
      forall k | 0 <= k < |ordered| ensures now[..k] == ordered[..k] {}
      assert now[..|ordered|] == ordered;
      forall k | 0 <= k < |ordered| ensures now[k].id != t.id {
        assert ordered[k].id == now[k].id;
      }
    }

    /** Meeting a task that is being visited closes a cycle along the path. */
    lemma BreaksThePlan(ident: Id, path: seq<Task>)
      requires Valid() && Walk(plan, path)
      requires ident in visiting ==> Named(path, ident)
      requires if path == [] then ident in tasks else ident in path[|path| - 1].deps
      requires ident in visiting || ident !in tasks
      ensures Broken()
    {
      if ident in visiting {
        var k :| 0 <= k < |path| && path[k].id == ident;
        var p := path[k..];
        assert p[0].id == ident && p[|p| - 1] == path[|path| - 1];
        assert Cycle(plan, p);
      } else {
        assert path[|path| - 1] in plan && !Named(plan, ident);
      }
    }
  }

  ghost predicate WellFormed(raw: seq<Task>) {
    raw != [] && (forall t :: t in raw ==> SafeRef(t.id)) && Distinct(raw)
  }

  /** The tasks by id, in the order of the plan. */
  method Index(raw: seq<Task>) returns (r: Result<map<Id, Task>>)
    ensures r.Ok? <==> (forall t :: t in raw ==> SafeRef(t.id)) && Distinct(raw)
    ensures r.Ok? ==> Search.Keyed(raw, r.value)
    ensures r.Err? ==> r.error == UnsafeId || r.error == DuplicateId
    ensures r == Err(UnsafeId) ==> exists t :: t in raw && !SafeRef(t.id)
    ensures r == Err(DuplicateId) ==> !Distinct(raw)
  {
    var tasks: map<Id, Task> := map[];
    for i := 0 to |raw|
      invariant Distinct(raw[..i]) && Search.Keyed(raw[..i], tasks)
      invariant forall t :: t in raw[..i] ==> SafeRef(t.id)
    {
      if !SafeRef(raw[i].id) {
        return Err(UnsafeId);
      }
      if raw[i].id in tasks {
        assert tasks[raw[i].id] in raw[..i];
        return Err(DuplicateId);
      }
      assert raw[..i + 1] == raw[..i] + [raw[i]];
      tasks := tasks[raw[i].id := raw[i]];
    }
    assert raw[..|raw|] == raw;
    return Ok(tasks);
  }

  /** Succeeds exactly on the plans that can be ordered, and then returns a permutation of the
      plan with every dependency in front of what needs it. */
  method OrderedTasks(raw: seq<Task>) returns (r: Result<seq<Task>>)
    ensures r.Ok? <==> WellFormed(raw) && DepsExist(raw) && Acyclic(raw)
    ensures r.Ok? ==> multiset(r.value) == multiset(raw) && Distinct(r.value) && DepsEarlier(r.value)
    ensures r == Err(NoTasks) <==> raw == []
    ensures r == Err(UnsafeId) ==> exists t :: t in raw && !SafeRef(t.id)
    ensures r == Err(DuplicateId) ==> !Distinct(raw)
    ensures r == Err(BadDependencies) <==> WellFormed(raw) && !(DepsExist(raw) && Acyclic(raw))
  {
    if raw == [] {
      return Err(NoTasks);
    }
    var indexed := Index(raw);
    if indexed.Err? {
      return Err(indexed.error);
    }
    var search := new Search(raw, indexed.value);
    for i := 0 to |raw|
      invariant search.Valid() && fresh(search) && search.visiting == {}
      invariant forall k :: 0 <= k < i ==> raw[k].id in search.seen
    {
      assert raw[i] in raw;
      var ok := search.Visit(raw[i].id, []);
      if !ok {
        return Err(BadDependencies);
      }
    }
    SearchCompletes(raw, search.ordered);
    return Ok(search.ordered);
  }

  lemma {:induction false} DistinctCounts(ts: seq<Task>, t: Task)
    requires Distinct(ts)
    ensures multiset(ts)[t] == if t in ts then 1 else 0
    decreases |ts|
  {
    if ts != [] {
      assert ts == [ts[0]] + ts[1..];
      DistinctCounts(ts[1..], t);
    }
  }

  lemma SearchCompletes(raw: seq<Task>, ordered: seq<Task>)
    requires Distinct(raw) && Distinct(ordered) && DepsEarlier(ordered)
    requires forall t :: t in ordered ==> t in raw
    requires forall k :: 0 <= k < |raw| ==> Named(ordered, raw[k].id)
    ensures multiset(ordered) == multiset(raw)
    ensures DepsExist(raw) && Acyclic(raw)
  {
    forall t | t in raw
      ensures t in ordered
    {
      var k :| 0 <= k < |raw| && raw[k] == t;
      var j :| 0 <= j < |ordered| && ordered[j].id == t.id;
      assert ordered[j] in raw;
    }
    forall t ensures multiset(ordered)[t] == multiset(raw)[t] {
      DistinctCounts(ordered, t);
      DistinctCounts(raw, t);
    }
    OrderedMeansAcyclic(ordered);
    SameTasksSameCycles(ordered, raw);
    forall t, d | t in raw && d in t.deps
      ensures Named(raw, d)
    {
      var k :| 0 <= k < |ordered| && ordered[k] == t;
      EarlierStays(ordered, k, d);
      var j :| 0 <= j < k && ordered[j].id == d;
      assert ordered[j] in raw;
    }
  }

  // ---------- replaying finished work ----------

  /** What the old run recorded about one task. */
  datatype Evidence = Evidence(id: Id, status: string, work: bool)
  datatype Refusal = DuplicateEvidence | WorkOutsidePlan | UnfinishedDependency
  datatype Verdict = Replay(completed: seq<Task>, unfinished: seq<Task>) | Refused(reason: Refusal)

  predicate Done(status: string) {
    status == "verified" || status == "completed"
  }

  ghost predicate DistinctEvidence(es: seq<Evidence>) {
    forall i, j :: 0 <= i < j < |es| ==> es[i].id != es[j].id
  }

  ghost predicate InsidePlan(ts: seq<Task>, e: Evidence) {
    e.work ==> Named(ts, e.id)
  }

  ghost predicate FinishedIn(es: seq<Evidence>, id: Id) {
    exists e :: e in es && e.id == id && (e.status == "verified" || e.status == "completed")
  }

  /** No finished task waits for an unfinished one. */
  ghost predicate FinishedIsClosed(ts: seq<Task>, es: seq<Evidence>) {
    forall t, d :: t in ts && d in t.deps && FinishedIn(es, t.id) ==> FinishedIn(es, d)
  }

  function Pick(ts: seq<Task>, keep: set<Id>): seq<Task> {
    if ts == [] then []
    else Pick(ts[..|ts| - 1], keep) + if ts[|ts| - 1].id in keep then [ts[|ts| - 1]] else []
  }

  lemma PickAppend(ts: seq<Task>, t: Task, keep: set<Id>)
    ensures Pick(ts + [t], keep) == Pick(ts, keep) + if t.id in keep then [t] else []
  {
    assert (ts + [t])[..|ts|] == ts;
  }

  lemma {:induction false} PickMembers(ts: seq<Task>, keep: set<Id>)
    ensures forall t :: t in Pick(ts, keep) <==> t in ts && t.id in keep
    decreases |ts|
  {
    if ts != [] {
      PickMembers(ts[..|ts| - 1], keep);
      assert ts == ts[..|ts| - 1] + [ts[|ts| - 1]];
    }
  }

  lemma PickKeeps(ts: seq<Task>, keep: set<Id>)
    ensures forall t :: t in Pick(ts, keep) <==> t in ts && t.id in keep
    ensures forall i :: Named(Pick(ts, keep), i) <==> Named(ts, i) && i in keep
  {
    PickMembers(ts, keep);
    forall i ensures Named(Pick(ts, keep), i) <==> Named(ts, i) && i in keep {
      if Named(Pick(ts, keep), i) {
        var k :| 0 <= k < |Pick(ts, keep)| && Pick(ts, keep)[k].id == i;
        assert Pick(ts, keep)[k] in ts;
      }
      if Named(ts, i) && i in keep {
        var k :| 0 <= k < |ts| && ts[k].id == i;
        assert ts[k] in Pick(ts, keep);
      }
    }
  }

  /** The picked tasks are those tasks of the plan, each once, in the order of the plan. */
  lemma {:induction false} PickInOrder(ts: seq<Task>, keep: set<Id>) returns (at: seq<nat>)
    ensures |at| == |Pick(ts, keep)| && forall i, j :: 0 <= i < j < |at| ==> at[i] < at[j]
    ensures forall i :: 0 <= i < |at| ==> at[i] < |ts| && Pick(ts, keep)[i] == ts[at[i]]
    decreases |ts|
  {
    at := [];
    if ts != [] {
      var init, k: nat := ts[..|ts| - 1], |ts| - 1;
      at := PickInOrder(init, keep);
      if ts[k].id in keep { at := at + [k]; }
    }
  }

  ghost predicate InPlanOrder(some: seq<Task>, ts: seq<Task>) {
    exists at: seq<nat> ::
      && |at| == |some| && (forall i, j :: 0 <= i < j < |at| ==> at[i] < at[j])
      && forall i :: 0 <= i < |at| ==> at[i] < |ts| && some[i] == ts[at[i]]
  }

  lemma PickIsInOrder(ts: seq<Task>, keep: set<Id>)
    ensures InPlanOrder(Pick(ts, keep), ts)
  {
    var at := PickInOrder(ts, keep);
  }

  /** Every task is picked on exactly one side. */
  lemma {:induction false} PickSplits(ts: seq<Task>, keep: set<Id>, rest: set<Id>)
    requires keep !! rest && forall t :: t in ts ==> t.id in keep + rest
    ensures multiset(Pick(ts, keep)) + multiset(Pick(ts, rest)) == multiset(ts)
    decreases |ts|
  {
    if ts != [] {
      var init, last := ts[..|ts| - 1], ts[|ts| - 1];
      assert ts == init + [last] && last in ts && forall t :: t in init ==> t in ts;
      PickSplits(init, keep, rest);
    }
  }

  lemma OrderAppends(ts: seq<Task>, t: Task)
    ensures DepsEarlier(ts + [t]) <==> DepsEarlier(ts) && forall d :: d in t.deps ==> Named(ts, d)
  {
    var now := ts + [t];
    forall k | 0 <= k < |ts| ensures now[..k] == ts[..k] && now[k] == ts[k] {}
    assert now[..|ts|] == ts && now[|ts|] == t;
  }

  lemma ReplayAppends(ts: seq<Task>, t: Task, keep: set<Id>)
    requires DepsEarlier(Pick(ts, keep)) && forall d :: d in t.deps ==> Named(ts, d)
    requires t.id in keep ==> forall d :: d in t.deps ==> d in keep
    ensures DepsEarlier(Pick(ts + [t], keep))
  {
    PickAppend(ts, t, keep);
    if t.id in keep {
      PickKeeps(ts, keep);
      OrderAppends(Pick(ts, keep), t);
    } else {
      assert Pick(ts, keep) + [] == Pick(ts, keep);
    }
  }

  /** Replaying a closed set of tasks in plan order never replays a task before what it needs. */
  lemma {:induction false} ReplayKeepsOrder(ts: seq<Task>, keep: set<Id>)
    requires DepsEarlier(ts)
    requires forall t, d :: t in ts && t.id in keep && d in t.deps ==> d in keep
    ensures DepsEarlier(Pick(ts, keep))
    decreases |ts|
  {
    if ts != [] {
      var init, last := ts[..|ts| - 1], ts[|ts| - 1];
      assert ts == init + [last];
      OrderAppends(init, last);
      assert forall t :: t in init ==> t in ts;
      ReplayKeepsOrder(init, keep);
      ReplayAppends(init, last, keep);
    }
  }

  datatype Loaded = Loaded(states: map<Id, Evidence>) | Rejected(reason: Refusal)

  /** The evidence by task; every task may appear once, and work only for tasks of the plan. */
  method LoadEvidence(ordered: seq<Task>, evidence: seq<Evidence>) returns (r: Loaded)
    ensures r.Loaded? <==> DistinctEvidence(evidence) && forall e :: e in evidence ==> InsidePlan(ordered, e)
    ensures r.Loaded? ==> forall i :: FinishedIn(evidence, i) <==> i in r.states && Done(r.states[i].status)
    ensures r == Rejected(DuplicateEvidence) ==> !DistinctEvidence(evidence)
    ensures r == Rejected(WorkOutsidePlan) ==> exists e :: e in evidence && !InsidePlan(ordered, e)
    ensures r.Rejected? ==> r.reason != UnfinishedDependency
  {
    var states: map<Id, Evidence> := map[];
    for i := 0 to |evidence|
      invariant DistinctEvidence(evidence[..i])
      invariant forall e :: e in evidence[..i] ==> InsidePlan(ordered, e) && e.id in states && states[e.id] == e
      invariant forall k :: k in states ==> states[k].id == k && states[k] in evidence[..i]
    {
      var e := evidence[i];
      assert evidence[..i + 1] == evidence[..i] + [e];
      if e.id in states {
        assert states[e.id] in evidence[..i];
        return Rejected(DuplicateEvidence);
      }
      if e.work && !exists k :: 0 <= k < |ordered| && ordered[k].id == e.id {
        assert !InsidePlan(ordered, e);
        return Rejected(WorkOutsidePlan);
      }
      states := states[e.id := e];
    }
    assert evidence[..|evidence|] == evidence;
    return Loaded(states);
  }

  /** Reads the old run's evidence; the completed tasks of an accepted plan form a
      dependency-closed set and come in an order fit for replay. */
  method Replayable(ordered: seq<Task>, evidence: seq<Evidence>) returns (v: Verdict)
    requires Distinct(ordered) && DepsEarlier(ordered)
    ensures v.Replay? <==> DistinctEvidence(evidence) && (forall e :: e in evidence ==> InsidePlan(ordered, e))
                           && FinishedIsClosed(ordered, evidence)
    ensures v.Replay? ==>
              && (forall t :: t in v.completed <==> t in ordered && FinishedIn(evidence, t.id))
              && (forall t :: t in v.unfinished <==> t in ordered && !FinishedIn(evidence, t.id))
              && DepsEarlier(v.completed)
              && multiset(v.completed) + multiset(v.unfinished) == multiset(ordered)
              && InPlanOrder(v.completed, ordered) && InPlanOrder(v.unfinished, ordered)
    ensures v == Refused(DuplicateEvidence) ==> !DistinctEvidence(evidence)
    ensures v == Refused(WorkOutsidePlan) ==> exists e :: e in evidence && !InsidePlan(ordered, e)
    ensures v == Refused(UnfinishedDependency) ==> !FinishedIsClosed(ordered, evidence)
  {
    var loaded := LoadEvidence(ordered, evidence);
    if loaded.Rejected? {
      return Refused(loaded.reason);
    }
    var ids := set t | t in ordered :: t.id;
    var keep := set i | i in ids && i in loaded.states && Done(loaded.states[i].status);
    for k := 0 to |ordered|
      invariant forall j, d :: 0 <= j < k && d in ordered[j].deps && ordered[j].id in keep ==> d in keep
    {
      if ordered[k].id in keep && exists d :: d in ordered[k].deps && d !in keep {
        ghost var d :| d in ordered[k].deps && d !in keep;
        EarlierStays(ordered, k, d);
        assert FinishedIn(evidence, ordered[k].id) && !FinishedIn(evidence, d);
        return Refused(UnfinishedDependency);
      }
    }
    ReplayKeepsOrder(ordered, keep);
    PickKeeps(ordered, keep);
    PickKeeps(ordered, ids - keep);
    PickSplits(ordered, keep, ids - keep);
    PickIsInOrder(ordered, keep);
    PickIsInOrder(ordered, ids - keep);
    return Replay(Pick(ordered, keep), Pick(ordered, ids - keep));
  }
}
