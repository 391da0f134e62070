/** Revision lineages of adaptation tasks: idempotency keys that stand for one task, successor and
    predecessor links, and execution references that are bound once. */
module Revisions {
  type Id = string
  datatype Option<+T> = None | Some(value: T)
  datatype Record = Record(id: Id, revision: nat, predecessor: Option<Id>, successor: Option<Id>,
                           execution: Option<Id>, cancel: bool, fingerprint: string, project: Id)
  datatype KeyRow = KeyRow(task: Id, fingerprint: string)
  datatype State = State(tasks: map<Id, Record>, keys: map<string, KeyRow>)
  datatype Reply =
    | Created(record: Record) | Existing(record: Record) | Linked(record: Record)
    | Conflict | Missing | Taken
  /** The fields a link may set; absent ones are left alone. */
  datatype Changes = Changes(execution: Option<Option<Id>>, successor: Option<Option<Id>>, cancel: Option<bool>)

  datatype Op =
    | Claim(key: string, id: Id, fingerprint: string, project: Id, prior: Option<Record>)
    | Link(task: Id, changes: Changes)

  // ---------- the two transactions ----------

  function NewRecord(op: Op): Record
    requires op.Claim?
  {
    Record(op.id, if op.prior.Some? then op.prior.value.revision + 1 else 1,
           if op.prior.Some? then Some(op.prior.value.id) else None, None, None, false, op.fingerprint, op.project)
  }

  function ClaimStep(s: State, op: Op): (State, Reply)
    requires op.Claim?
  {
    if op.key in s.keys then
      var row := s.keys[op.key];
      if row.fingerprint != op.fingerprint || row.task !in s.tasks then (s, Conflict)
      else (s, Existing(s.tasks[row.task]))
    else if op.id in s.tasks then (s, Taken)
    else
      var made := State(s.tasks[op.id := NewRecord(op)], s.keys[op.key := KeyRow(op.id, op.fingerprint)]);
      match op.prior
      case None => (made, Created(NewRecord(op)))
      case Some(prior) =>
        if prior.id !in made.tasks then (s, Missing)
        else if made.tasks[prior.id].successor.Some? then (s, Conflict)
        else
          (made.(tasks := made.tasks[prior.id := made.tasks[prior.id].(successor := Some(op.id))]),
           Created(NewRecord(op)))
  }

  function Changed(r: Record, c: Changes): Record {
    r.(execution := if c.execution.Some? then c.execution.value else r.execution,
       successor := if c.successor.Some? then c.successor.value else r.successor,
       cancel := if c.cancel.Some? then c.cancel.value else r.cancel)
  }

  predicate Rebinds(r: Record, c: Changes) {
    c.execution.Some? && r.execution != None && r.execution != c.execution.value
  }

  function LinkStep(s: State, op: Op): (State, Reply)
    requires op.Link?
  {
    if op.task !in s.tasks then (s, Missing)
    else if Rebinds(s.tasks[op.task], op.changes) then (s, Conflict)
    else
      var r := Changed(s.tasks[op.task], op.changes);
      (s.(tasks := s.tasks[op.task := r]), Linked(r))
  }

  function Step(s: State, op: Op): (State, Reply) {
    if op.Claim? then ClaimStep(s, op) else LinkStep(s, op)
  }

  function Exec(s: State, run: seq<Op>): State
    decreases |run|
  {
    if run == [] then s else Exec(Step(s, run[0]).0, run[1..])
  }

  lemma {:induction false} ExecSplits(s: State, run: seq<Op>, k: nat)
    requires k <= |run|
    ensures Exec(s, run) == Exec(Exec(s, run[..k]), run[k..])
    ensures k + 1 == |run| ==> Exec(s, run) == Step(Exec(s, run[..k]), run[k]).0
    decreases |run|
  {
    if k == 0 {
      assert run[0..] == run && run[..0] == [];
    } else {
      assert run[..k][0] == run[0] && run[..k][1..] == run[1..][..k - 1] && run[1..][k - 1..] == run[k..];
      ExecSplits(Step(s, run[0]).0, run[1..], k - 1);
    }
    if k + 1 == |run| {
      assert run[k..][1..] == [];
    }
  }

  class AdaptationStore {
    var tasks: map<Id, Record>
    var keys: map<string, KeyRow>
    /** The transactions this store has seen since it was empty. */
    ghost var log: seq<Op>

    ghost predicate Valid()
      reads this
    {
      View() == Exec(State(map[], map[]), log)
    }

    /** At any time each key stands for a task with its content, and whatever keys, places in a
        lineage and executions the store had at an earlier time it still has. */
    lemma NothingIsRebound(k: nat)
      requires Valid() && k <= |log|
      ensures KeysOk(View()) && Lasts(Exec(State(map[], map[]), log[..k]), View())
    {
      KeysRun(State(map[], map[]), log);
      ExecSplits(State(map[], map[]), log, k);
      EverythingLasts(Exec(State(map[], map[]), log[..k]), log[k..]);
    }

    function View(): State
      reads this
    {
      State(tasks, keys)
    }

    constructor ()
      ensures Valid() && log == []
    {
      tasks, keys, log := map[], map[], [];
    }

    /** Rows are written before the predecessor is checked; a failed check takes them back. */
    method Claim(key: string, id: Id, fingerprint: string, project: Id, prior: Option<Record>) returns (r: Reply)
      requires Valid()
      modifies this
      ensures Valid() && log == old(log) + [Op.Claim(key, id, fingerprint, project, prior)]
      ensures (View(), r) == Step(old(View()), Op.Claim(key, id, fingerprint, project, prior))
      ensures key !in old(keys) && id !in old(tasks) ==>
                (r.Created? <==> prior.None? || prior.value.id == id
                                 || (prior.value.id in old(tasks) && old(tasks)[prior.value.id].successor.None?))
      ensures r.Created? ==>
                && id in tasks && tasks[id].id == id && tasks[id].fingerprint == fingerprint
                && tasks[id].project == project && tasks[id].execution.None? && !tasks[id].cancel
                && tasks[id].revision == (if prior.Some? then prior.value.revision + 1 else 1)
                && tasks[id].predecessor == (if prior.Some? then Some(prior.value.id) else None)
                && keys == old(keys)[key := KeyRow(id, fingerprint)]
                && (prior.Some? ==> tasks[prior.value.id].successor == Some(id))
      ensures !r.Created? ==> tasks == old(tasks) && keys == old(keys)
      ensures key in old(keys) && old(keys)[key].task in old(tasks) ==>
                r == if old(keys)[key].fingerprint == fingerprint then Existing(old(tasks)[old(keys)[key].task])
                     else Conflict
    {
      ExecSplits(State(map[], map[]), log + [Op.Claim(key, id, fingerprint, project, prior)], |log|);
      log := log + [Op.Claim(key, id, fingerprint, project, prior)];
      if key in keys {
        var row := keys[key];
        if row.fingerprint != fingerprint || row.task !in tasks {
          return Conflict;
        }
        return Existing(tasks[row.task]);
      }
      if id in tasks {
        return Taken;
      }
      var wasTasks, wasKeys := tasks, keys;
      var record := NewRecord(Op.Claim(key, id, fingerprint, project, prior));
      keys := keys[key := KeyRow(id, fingerprint)];
      tasks := tasks[id := record];
      if prior.Some? {
        if prior.value.id !in tasks {
          tasks, keys := wasTasks, wasKeys;
          return Missing;
        }
        var before := tasks[prior.value.id];
        if before.successor.Some? {
          tasks, keys := wasTasks, wasKeys;
          return Conflict;
        }
        tasks := tasks[prior.value.id := before.(successor := Some(id))];
      }
      return Created(record);
    }

    method Link(task: Id, changes: Changes) returns (r: Reply)
      requires Valid()
      modifies this
      ensures Valid() && log == old(log) + [Op.Link(task, changes)]
      ensures (View(), r) == Step(old(View()), Op.Link(task, changes))
      ensures r == Missing <==> task !in old(tasks)
      ensures r == Conflict <==>
                && task in old(tasks) && changes.execution.Some? && old(tasks)[task].execution.Some?
                && changes.execution.value != old(tasks)[task].execution
      ensures r.Linked? ==>
                && task in tasks && r.record == tasks[task]
                && (changes.execution.Some? ==> tasks[task].execution == changes.execution.value)
                && (changes.successor.Some? ==> tasks[task].successor == changes.successor.value)
                && (changes.cancel.Some? ==> tasks[task].cancel == changes.cancel.value)
                && (changes.execution.None? ==> tasks[task].execution == old(tasks)[task].execution)
                && (changes.successor.None? ==> tasks[task].successor == old(tasks)[task].successor)
                && (changes.cancel.None? ==> tasks[task].cancel == old(tasks)[task].cancel)
                && RecordLasts(old(tasks)[task], tasks[task])
      ensures !r.Linked? ==> tasks == old(tasks)
      ensures keys == old(keys) && forall i :: i in tasks && i != task ==> i in old(tasks) && tasks[i] == old(tasks)[i]
    {
      ExecSplits(State(map[], map[]), log + [Op.Link(task, changes)], |log|);
      log := log + [Op.Link(task, changes)];
      if task !in tasks {
        return Missing;
      }
      var record := tasks[task];
      if changes.execution.Some? && record.execution != None && record.execution != changes.execution.value {
        return Conflict;
      }
      record := Changed(record, changes);
      tasks := tasks[task := record];
      return Linked(record);
    }

    /** Imports a next revision of a task that was read before the transaction. */
    method Revise(previous: Record, key: string, id: Id, fingerprint: string, project: Id) returns (r: Reply)
      requires Valid()
      modifies this
      ensures Valid()
      ensures if project != previous.project || fingerprint == previous.fingerprint
              then r == Conflict && View() == old(View())
              else (View(), r) == Step(old(View()), Op.Claim(key, id, fingerprint, project, Some(previous)))
    {
      if project != previous.project || fingerprint == previous.fingerprint {
        return Conflict;
      }
      r := Claim(key, id, fingerprint, project, Some(previous));
    }
  }

  // ---------- chains ----------

  predicate LinksOk(s: State, i: Id)
    requires i in s.tasks
  {
    var r := s.tasks[i];
    && r.id == i && r.revision >= 1
    && (r.predecessor.None? ==> r.revision == 1)
    && (r.predecessor.Some? ==> var p := r.predecessor.value;
          p in s.tasks && s.tasks[p].successor == Some(i) && r.revision == s.tasks[p].revision + 1)
    && (r.successor.Some? ==> r.successor.value in s.tasks && s.tasks[r.successor.value].predecessor == Some(i))
  }

  ghost predicate Chains(s: State) {
    forall i :: i in s.tasks ==> LinksOk(s, i)
  }

  predicate KeyOk(s: State, k: string)
    requires k in s.keys
  {
    s.keys[k].task in s.tasks && s.tasks[s.keys[k].task].fingerprint == s.keys[k].fingerprint
  }

  ghost predicate KeysOk(s: State) {
    && (forall k :: k in s.keys ==> KeyOk(s, k))
    && (forall k, l :: k in s.keys && l in s.keys && s.keys[k].task == s.keys[l].task ==> k == l)
  }

  /** The predecessor a claim names is as the store has it, and no successor is set by a link. */
  predicate Genuine(s: State, op: Op) {
    && (op.Claim? && op.prior.Some? ==>
          if op.prior.value.id in s.tasks then op.prior.value.revision == s.tasks[op.prior.value.id].revision
          else op.prior.value.id != op.id)
    && (op.Link? ==> op.changes.successor.None?)
  }

  lemma ClaimKeepsChains(s: State, op: Op)
    requires op.Claim? && Chains(s) && Genuine(s, op)
    ensures Chains(Step(s, op).0)
  {
    var n := Step(s, op).0;
    if n != s {
      forall i | i in n.tasks ensures LinksOk(n, i) {
        if i in s.tasks { assert LinksOk(s, i); }
        if op.prior.Some? && op.prior.value.id in s.tasks { assert LinksOk(s, op.prior.value.id); }
      }
    }
  }

  lemma LinkKeepsChains(s: State, op: Op)
    requires op.Link? && Chains(s) && Genuine(s, op)
    ensures Chains(Step(s, op).0)
  {
    var n := Step(s, op).0;
    forall i | i in n.tasks ensures LinksOk(n, i) { assert LinksOk(s, i); }
  }

  lemma KeyStays(s: State, op: Op, key: string)
    requires KeysOk(s) && key in s.keys
    ensures var n := Step(s, op).0;
            KeyOk(n, key) && n.keys[key].task == s.keys[key].task && s.keys[key].task in s.tasks
  {
    assert KeyOk(s, key);
  }

  lemma KeysStep(s: State, op: Op)
    requires KeysOk(s)
    ensures KeysOk(Step(s, op).0)
  {
    var n := Step(s, op).0;
    forall k | k in s.keys ensures KeyOk(n, k) && n.keys[k].task == s.keys[k].task && s.keys[k].task in s.tasks {
      KeyStays(s, op, k);
    }
    forall k | k in n.keys ensures KeyOk(n, k) {
    }
  }

  lemma {:induction false} KeysRun(s: State, run: seq<Op>)
    requires KeysOk(s)
    ensures KeysOk(Exec(s, run))
    decreases |run|
  {
    if run != [] {
      KeysStep(s, run[0]);
      KeysRun(Step(s, run[0]).0, run[1..]);
    }
  }

  /** The tasks from the first revision down to this one. */
  ghost function Lineage(s: State, i: Id): seq<Id>
    requires Chains(s) && i in s.tasks
    decreases if LinksOk(s, i) then s.tasks[i].revision else 0
  {
    assert LinksOk(s, i);
    if s.tasks[i].predecessor.None? then [i] else Lineage(s, s.tasks[i].predecessor.value) + [i]
  }

  /** A lineage counts its revisions from 1: its k-th task has revision k. */
  lemma {:induction false} LineageCounts(s: State, i: Id)
    requires Chains(s) && i in s.tasks
    ensures |Lineage(s, i)| == s.tasks[i].revision && Lineage(s, i)[s.tasks[i].revision - 1] == i
    ensures forall k :: 0 <= k < |Lineage(s, i)| ==>
              Lineage(s, i)[k] in s.tasks && s.tasks[Lineage(s, i)[k]].revision == k + 1
    ensures forall k :: 0 <= k < |Lineage(s, i)| - 1 ==>
              s.tasks[Lineage(s, i)[k]].successor == Some(Lineage(s, i)[k + 1])
    decreases s.tasks[i].revision
  {
    assert LinksOk(s, i);
    if s.tasks[i].predecessor.Some? {
      LineageCounts(s, s.tasks[i].predecessor.value);
    }
  }

  /** No forks: two tasks of one lineage with the same revision are the same task. */
  lemma {:induction false} NoForks(s: State, a: Id, b: Id)
    requires Chains(s) && a in s.tasks && b in s.tasks
    requires Lineage(s, a)[0] == Lineage(s, b)[0] && s.tasks[a].revision == s.tasks[b].revision
    ensures a == b
    decreases s.tasks[a].revision
  {
    assert LinksOk(s, a) && LinksOk(s, b);
    if s.tasks[a].predecessor.Some? {
      LineageCounts(s, s.tasks[a].predecessor.value);
      LineageCounts(s, s.tasks[b].predecessor.value);
      NoForks(s, s.tasks[a].predecessor.value, s.tasks[b].predecessor.value);
    }
  }

  // ---------- what never changes ----------

  ghost predicate Lasts(a: State, b: State) {
    && (forall k :: k in a.keys ==> k in b.keys && b.keys[k] == a.keys[k])
    && (forall i :: i in a.tasks ==> i in b.tasks && RecordLasts(a.tasks[i], b.tasks[i]))
  }

  predicate RecordLasts(r: Record, q: Record) {
    && q.id == r.id && q.revision == r.revision && q.predecessor == r.predecessor
    && q.fingerprint == r.fingerprint && q.project == r.project
    && (r.execution.Some? ==> q.execution == r.execution)
  }

  lemma StepLasts(s: State, op: Op)
    ensures Lasts(s, Step(s, op).0)
  {
  }

  /** A key denotes one task and one content forever, and a bound execution never changes. */
  lemma {:induction false} EverythingLasts(s: State, run: seq<Op>)
    ensures Lasts(s, Exec(s, run))
    decreases |run|
  {
    if run != [] {
      StepLasts(s, run[0]);
      EverythingLasts(Step(s, run[0]).0, run[1..]);
    }
  }

  /** Claiming a key again after any run returns the task it created, untouched by the repetition;
      with other content it is refused. */
  lemma RepeatedClaims(s: State, op: Op, run: seq<Op>, again: Op)
    requires op.Claim? && Step(s, op).1.Created? && again.Claim? && again.key == op.key
    ensures var n := Exec(Step(s, op).0, run);
            && op.id in n.tasks
            && Step(n, again) == (n, if again.fingerprint == op.fingerprint then Existing(n.tasks[op.id]) else Conflict)
  {
    EverythingLasts(Step(s, op).0, run);
  }

  /** Setting a successor through a link is allowed by the store but keeps the chains intact
      exactly when it sets what is there already. */
  lemma LinkingSuccessors(s: State, task: Id, successor: Option<Id>)
    requires Chains(s) && task in s.tasks
    ensures Chains(Step(s, Link(task, Changes(None, Some(successor), None))).0) <==>
              successor == s.tasks[task].successor
  {
    var n := Step(s, Link(task, Changes(None, Some(successor), None))).0;
    assert LinksOk(s, task);
    if successor == s.tasks[task].successor {
      assert n.tasks == s.tasks;
    } else if s.tasks[task].successor.Some? {
      var m := s.tasks[task].successor.value;
      assert LinksOk(s, m) && !LinksOk(n, m);
    } else if successor.value in s.tasks {
      assert LinksOk(s, successor.value) && !LinksOk(n, task);
    } else {
      assert !LinksOk(n, task);
    }
  }

  // ---------- callers that read first and claim later ----------

  /** The store and what each caller holds of a task it has read. */
  datatype World = World(store: State, held: map<nat, Record>)

  /** Reading a task is a step of its own; a revision claims with whatever its caller read. */
  datatype Move =
    | Read(caller: nat, task: Id)
    | Create(key: string, id: Id, fingerprint: string, project: Id)
    | ReviseHeld(caller: nat, key: string, id: Id, fingerprint: string, project: Id)
    | BindExecution(task: Id, execution: Id)
    | AskCancel(task: Id)

  /** The transaction a move comes to; a revision into another project or without a change stops
      before it. */
  function Transaction(w: World, m: Move): Option<Op> {
    match m
    case Read(_, _) => None
    case Create(key, id, fingerprint, project) => Some(Claim(key, id, fingerprint, project, None))
    case ReviseHeld(caller, key, id, fingerprint, project) =>
      if caller !in w.held || w.held[caller].project != project || w.held[caller].fingerprint == fingerprint then None
      else Some(Claim(key, id, fingerprint, project, Some(w.held[caller])))
    case BindExecution(task, execution) => Some(Link(task, Changes(Some(Some(execution)), None, None)))
    case AskCancel(task) => Some(Link(task, Changes(None, None, Some(true))))
  }

  function Do(w: World, m: Move): World {
    var op := Transaction(w, m);
    World(if op.Some? then Step(w.store, op.value).0 else w.store,
          if m.Read? && m.task in w.store.tasks then w.held[m.caller := w.store.tasks[m.task]] else w.held)
  }

  /** What one caller's move does under a key and an id not used before: a revision takes place exactly
      when it stays in the project, changes the content and the task held has no successor yet. */
  lemma RevisesWhen(w: World, m: Move)
    requires m.ReviseHeld? && m.key !in w.store.keys && m.id !in w.store.tasks
    requires m.caller in w.held && w.held[m.caller].id in w.store.tasks
    ensures var h, n := w.held[m.caller], Do(w, m).store;
            && (n != w.store <==> h.project == m.project && h.fingerprint != m.fingerprint
                                  && w.store.tasks[h.id].successor.None?)
            && (n != w.store ==>
                  && n.tasks == w.store.tasks[h.id := w.store.tasks[h.id].(successor := Some(m.id))][m.id :=
                       Record(m.id, h.revision + 1, Some(h.id), None, None, false, m.fingerprint, m.project)]
                  && n.keys == w.store.keys[m.key := KeyRow(m.id, m.fingerprint)])
  {
    assert m.key in Step(w.store, Claim(m.key, m.id, m.fingerprint, m.project, Some(w.held[m.caller]))).0.keys
           || w.store.tasks[w.held[m.caller].id].successor.Some?;
  }

  /** The other moves: a new task stands alone, an execution is bound unless there is one, a cancel
      request is noted, and reading hands out what is stored. */
  lemma MovesDo(w: World, m: Move)
    ensures m.Create? && m.key !in w.store.keys && m.id !in w.store.tasks ==>
              && Do(w, m).store.keys == w.store.keys[m.key := KeyRow(m.id, m.fingerprint)]
              && Do(w, m).store.tasks == w.store.tasks[m.id :=
                   Record(m.id, 1, None, None, None, false, m.fingerprint, m.project)]
    ensures m.BindExecution? && m.task in w.store.tasks && w.store.tasks[m.task].execution == None ==>
              Do(w, m).store.tasks == w.store.tasks[m.task := w.store.tasks[m.task].(execution := Some(m.execution))]
    ensures m.AskCancel? && m.task in w.store.tasks ==>
              Do(w, m).store.tasks == w.store.tasks[m.task := w.store.tasks[m.task].(cancel := true)]
    ensures m.Read? ==>
              Do(w, m) == if m.task in w.store.tasks then w.(held := w.held[m.caller := w.store.tasks[m.task]]) else w
  {
  }

  function Play(w: World, run: seq<Move>): World
    decreases |run|
  {
    if run == [] then w else Play(Do(w, run[0]), run[1..])
  }

  /** What a caller holds may be old, but its task is there and keeps its place in the lineage. */
  ghost predicate HeldOk(w: World) {
    forall c :: c in w.held ==> w.held[c].id in w.store.tasks && RecordLasts(w.held[c], w.store.tasks[w.held[c].id])
  }

  lemma HeldKept(w: World, m: Move)
    requires HeldOk(w) && Chains(w.store)
    ensures HeldOk(Do(w, m))
  {
    var op := Transaction(w, m);
    if op.Some? { StepLasts(w.store, op.value); }
    if m.Read? && m.task in w.store.tasks { assert LinksOk(w.store, m.task); }
  }

  lemma ChainsKept(w: World, m: Move)
    requires HeldOk(w) && Chains(w.store)
    ensures Chains(Do(w, m).store)
  {
    var op := Transaction(w, m);
    if op.Some? {
      if op.value.Claim? { ClaimKeepsChains(w.store, op.value); } else { LinkKeepsChains(w.store, op.value); }
    }
  }

  lemma {:induction false} ChainsInEveryRun(w: World, run: seq<Move>)
    requires HeldOk(w) && Chains(w.store)
    ensures HeldOk(Play(w, run)) && Chains(Play(w, run).store)
    decreases |run|
  {
    if run != [] {
      HeldKept(w, run[0]);
      ChainsKept(w, run[0]);
      ChainsInEveryRun(Do(w, run[0]), run[1..]);
    }
  }

  function Start(): World {
    World(State(map[], map[]), map[])
  }

  /** However reads, claims and links of any number of callers interleave, the lineages are simple
      chains in every state that is reached. */
  lemma LineagesAreChains(run: seq<Move>, a: Id, b: Id)
    requires a in Play(Start(), run).store.tasks && b in Play(Start(), run).store.tasks
    ensures var s := Play(Start(), run).store;
            && Chains(s)
            && (Lineage(s, a)[0] == Lineage(s, b)[0] && s.tasks[a].revision == s.tasks[b].revision ==> a == b)
            && (s.tasks[a].successor == Some(b) <==> s.tasks[b].predecessor == Some(a))
            && (s.tasks[a].successor == Some(b) ==> s.tasks[b].revision == s.tasks[a].revision + 1)
  {
    var s := Play(Start(), run).store;
    ChainsInEveryRun(Start(), run);
    if Lineage(s, a)[0] == Lineage(s, b)[0] && s.tasks[a].revision == s.tasks[b].revision { NoForks(s, a, b); }
    assert LinksOk(s, a) && LinksOk(s, b);
  }

  lemma {:induction false} SuccessorsStay(w: World, run: seq<Move>, i: Id)
    requires i in w.store.tasks && w.store.tasks[i].successor.Some?
    ensures i in Play(w, run).store.tasks
    ensures Play(w, run).store.tasks[i].successor == w.store.tasks[i].successor
    decreases |run|
  {
    if run != [] { SuccessorsStay(Do(w, run[0]), run[1..], i); }
  }

  predicate CreatesSuccessor(w: World, m: Move, of: Id) {
    m.ReviseHeld? && m.caller in w.held && w.held[m.caller].id == of
    && Transaction(w, m).Some? && Step(w.store, Transaction(w, m).value).1.Created?
  }

  /** Of all revisions of one task, by whichever callers, at most one ever creates a successor. */
  lemma OneSuccessor(w: World, m: Move, run: seq<Move>, other: Move, of: Id)
    requires CreatesSuccessor(w, m, of)
    ensures !CreatesSuccessor(Play(Do(w, m), run), other, of)
  {
    SuccessorsStay(Do(w, m), run, of);
  }

  // ---------- lineages of any length ----------

  function Nth(i: nat): (id: Id)
    ensures |id| == i + 1
  {
    if i == 0 then "x" else Nth(i - 1) + "x"
  }

  /** The task of revision i + 1 in a lineage of n + 1 tasks. */
  predicate Links(s: State, i: nat, n: nat) {
    Nth(i) in s.tasks
    && s.tasks[Nth(i)] == Record(Nth(i), i + 1, if i == 0 then None else Some(Nth(i - 1)),
                                 if i == n then None else Some(Nth(i + 1)), None, false, Nth(i), "")
  }

  ghost predicate OneLineage(s: State, n: nat) {
    && (forall i :: 0 <= i <= n ==> Links(s, i, n))
    && forall k :: k in s.tasks || k in s.keys ==> |k| <= n + 1
  }

  lemma {:induction false} PlayExtends(w: World, run: seq<Move>, m: Move)
    ensures Play(w, run + [m]) == Do(Play(w, run), m)
    decreases |run|
  {
    if run == [] {
      assert [m][1..] == [] && run + [m] == [m];
      assert Play(Do(w, m), []) == Do(w, m);
    } else {
      assert (run + [m])[1..] == run[1..] + [m];
      PlayExtends(Do(w, run[0]), run[1..], m);
    }
  }

  /** A caller that always reads before it revises can make a lineage as long as it likes. */
  lemma {:induction false} LineagesGrow(n: nat) returns (run: seq<Move>)
    ensures OneLineage(Play(Start(), run).store, n)
  {
    if n == 0 {
      var m := Create(Nth(0), Nth(0), Nth(0), "");
      run := [] + [m];
      PlayExtends(Start(), [], m);
      MovesDo(Start(), m);
    } else {
      run := LineagesGrow(n - 1);
      var w := Play(Start(), run);
      var look, revise := Read(0, Nth(n - 1)), ReviseHeld(0, Nth(n), Nth(n), Nth(n), "");
      assert Links(w.store, n - 1, n - 1);
      MovesDo(w, look);
      PlayExtends(Start(), run, look);
      PlayExtends(Start(), run + [look], revise);
      run := run + [look] + [revise];
      OneMore(Do(w, look), revise, n);
    }
  }

  lemma OneMore(w: World, m: Move, n: nat)
    requires n > 0 && OneLineage(w.store, n - 1) && m == ReviseHeld(0, Nth(n), Nth(n), Nth(n), "")
    requires 0 in w.held && Nth(n - 1) in w.store.tasks && w.held[0] == w.store.tasks[Nth(n - 1)]
    ensures OneLineage(Do(w, m).store, n)
  {
    assert Links(w.store, n - 1, n - 1);
    RevisesWhen(w, m);
    var t := Do(w, m).store;
    forall i | 0 <= i <= n ensures Links(t, i, n) {
      if i < n { assert Links(w.store, i, n - 1); }
    }
  }
}
