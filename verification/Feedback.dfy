/** Feedback sent to a conversation while its run is busy: kept in order, adopted in bounded
    batches, each batch into one successor run. */
module Feedback {
  type Id = string
  datatype Option<+T> = None | Some(value: T)
  datatype Standing = NotFeedback | Pending | Adopted(run: Id)
  datatype Message = Message(id: Id, content: string, standing: Standing)
  datatype Item = Item(id: Id, content: string)
  /** `ready` at a safe boundary; `applied` already answered inside the run; `batch` it was made for. */
  datatype Run = Run(ready: bool, applied: set<Id>, batch: seq<Item>)
  datatype State = State(messages: seq<Message>, run: Option<Id>, runs: map<Id, Run>)

  const LIMIT := 50_000
  const NOTE := "已自动接续补充需求，正在基于上一轮成果继续工作。"

  // ---------- batches ----------

  function Size(items: seq<Item>): nat {
    if items == [] then 0 else Size(items[..|items| - 1]) + |items[|items| - 1].content|
  }

  /** How many of the items go into one batch, `k` of them being in already. */
  function Extend(items: seq<Item>, k: nat, size: nat): (n: nat)
    requires k <= |items|
    ensures k <= n <= |items|
    decreases |items| - k
  {
    if k == |items| || (k > 0 && size + |items[k].content| > LIMIT) then k
    else Extend(items, k + 1, size + |items[k].content|)
  }

  function Batch(items: seq<Item>): seq<Item> {
    items[..Extend(items, 0, 0)]
  }

  lemma SizeGrows(items: seq<Item>, k: nat)
    requires k < |items|
    ensures Size(items[..k + 1]) == Size(items[..k]) + |items[k].content|
  {
    assert items[..k + 1][..k] == items[..k];
  }

  lemma {:induction false} ExtendFacts(items: seq<Item>, k: nat)
    requires k <= |items| && (k <= 1 || Size(items[..k]) <= LIMIT)
    ensures var n := Extend(items, k, Size(items[..k]));
            && (items != [] ==> n >= 1) && (n <= 1 || Size(items[..n]) <= LIMIT)
            && (n < |items| ==> Size(items[..n + 1]) > LIMIT)
    decreases |items| - k
  {
    if k < |items| {
      SizeGrows(items, k);
      if k == 0 || Size(items[..k + 1]) <= LIMIT {
        ExtendFacts(items, k + 1);
      }
    }
  }

  /** A batch is the longest run of the oldest items within the limit, or the oldest item alone. */
  lemma BatchFacts(items: seq<Item>)
    ensures Batch(items) <= items && (items != [] ==> Batch(items) != [])
    ensures Size(Batch(items)) <= LIMIT || |Batch(items)| == 1
    ensures |Batch(items)| < |items| ==> Size(items[..|Batch(items)| + 1]) > LIMIT
  {
    ExtendFacts(items, 0);
  }

  // ---------- the requests ----------

  function ItemOf(m: Message): Item {
    Item(m.id, m.content)
  }

  /** The feedback still waiting whose id is not in `done`, oldest first. */
  function Waiting(ms: seq<Message>, done: set<Id>): seq<Item> {
    if ms == [] then []
    else
      var m := ms[|ms| - 1];
      Waiting(ms[..|ms| - 1], done) + if m.standing == Pending && m.id !in done then [ItemOf(m)] else []
  }

  function Ids(items: seq<Item>): set<Id> {
    set i | i in items :: i.id
  }

  function MarkOne(m: Message, ids: set<Id>, run: Id): Message {
    if m.standing == Pending && m.id in ids then m.(standing := Adopted(run)) else m
  }

  function Mark(ms: seq<Message>, ids: set<Id>, run: Id): (r: seq<Message>)
    ensures |r| == |ms| && forall i :: 0 <= i < |ms| ==> r[i] == MarkOne(ms[i], ids, run)
  {
    seq(|ms|, i requires 0 <= i < |ms| => MarkOne(ms[i], ids, run))
  }

  function PendingIds(ms: seq<Message>): set<Id> {
    set m | m in ms && m.standing == Pending :: m.id
  }

  predicate Bound(s: State) {
    s.run.Some? && s.run.value in s.runs
  }

  function Applied(s: State): set<Id> {
    if Bound(s) then s.runs[s.run.value].applied else {}
  }

  /** The feedback the next successor run has to carry. */
  function Unapplied(s: State): seq<Item> {
    Waiting(s.messages, Applied(s))
  }

  /** Whether an adoption makes a successor run. */
  predicate Adopts(s: State, rid: Id) {
    Bound(s) && rid !in s.runs && s.runs[s.run.value].ready && Unapplied(s) != []
  }

  function AdoptStep(s: State, rid: Id, note: Id): State {
    if !Bound(s) || rid in s.runs then s
    else
      var marked := Mark(s.messages, Applied(s), s.run.value);
      if !Adopts(s, rid) then s.(messages := marked)
      else
        var batch := Batch(Unapplied(s));
        State(Mark(marked, Ids(batch), rid) + [Message(note, NOTE, NotFeedback)], Some(rid),
              s.runs[rid := Run(false, {}, batch)])
  }

  datatype Event =
    | Append(id: Id, content: string, feedback: bool)
    | Ready(run: Id, now: bool)
    | Adopt(rid: Id, note: Id)
    | Apply(run: Id, ids: set<Id>)
    | Settle(run: Id, only: Option<set<Id>>)
    | Start(rid: Id)
    | Retry(rid: Id)

  function Step(s: State, e: Event): State {
    match e
    case Append(id, content, feedback) =>
      s.(messages := s.messages + [Message(id, content, if feedback then Pending else NotFeedback)])
    case Ready(run, now) => if run in s.runs then s.(runs := s.runs[run := s.runs[run].(ready := now)]) else s
    case Adopt(rid, note) => AdoptStep(s, rid, note)
    case Apply(run, ids) =>
      if run in s.runs then s.(runs := s.runs[run := s.runs[run].(applied := s.runs[run].applied + ids)]) else s
    case Settle(run, ids) =>
      s.(messages := Mark(s.messages, if ids.Some? then ids.value else PendingIds(s.messages), run))
    case Start(rid) => if rid in s.runs then s else s.(run := Some(rid), runs := s.runs[rid := Run(false, {}, [])])
    case Retry(rid) =>
      if !Bound(s) || rid in s.runs then s else s.(run := Some(rid), runs := s.runs[rid := Run(false, Applied(s), [])])
  }

  /** What an adoption does to a message that is there: answered in the run, it settles with the run;
      in the successor's batch, it goes to the successor; otherwise it stays as it is. */
  lemma AdoptionMarks(s: State, rid: Id, note: Id, i: nat)
    requires s.run.Some? && s.run.value in s.runs && rid !in s.runs && i < |s.messages|
    ensures var m, t := s.messages[i], Step(s, Adopt(rid, note));
            && i < |t.messages|
            && t.messages[i] ==
               if m.standing == Pending && m.id in s.runs[s.run.value].applied then m.(standing := Adopted(s.run.value))
               else if m.standing == Pending && rid in t.runs && (exists x :: x in t.runs[rid].batch && x.id == m.id)
               then m.(standing := Adopted(rid)) else m
  {
    var m := s.messages[i];
    if Adopts(s, rid) {
      assert m.id in Ids(Batch(Unapplied(s))) <==> exists x :: x in Batch(Unapplied(s)) && x.id == m.id;
    }
  }

  function Exec(s: State, run: seq<Event>): State
    decreases |run|
  {
    if run == [] then s else Exec(Step(s, run[0]), run[1..])
  }

  lemma {:induction false} ExecSplits(s: State, run: seq<Event>, k: nat)
    requires k <= |run|
    ensures Exec(s, run) == Exec(Exec(s, run[..k]), run[k..])
    ensures k + 1 == |run| ==> Exec(s, run) == Step(Exec(s, run[..k]), run[k])
    decreases |run|
  {
    if k == 0 {
      assert run[0..] == run && run[..0] == [];
    } else {
      assert run[..k][0] == run[0] && run[..k][1..] == run[1..][..k - 1] && run[1..][k - 1..] == run[k..];
      ExecSplits(Step(s, run[0]), run[1..], k - 1);
    }
    if k + 1 == |run| {
      assert run[k..][1..] == [];
    }
  }

  // ---------- the stored conversation ----------

  function Fresh(): State {
    State([], None, map[])
  }

  class Conversation {
    var messages: seq<Message>
    var run: Option<Id>
    var runs: map<Id, Run>
    /** Everything this conversation has been through since it was empty. */
    ghost var log: seq<Event>

    function View(): State
      reads this
    {
      State(messages, run, runs)
    }

    ghost predicate Valid()
      reads this
    {
      View() == Exec(Fresh(), log)
    }

    constructor ()
      ensures Valid() && log == []
    {
      messages, run, runs, log := [], None, map[], [];
    }

    /** Every message this conversation ever had is still there, and an adopted one is with the run
        it was adopted into. */
    lemma NothingIsLost(k: nat)
      requires Valid() && k <= |log|
      ensures Keeps(Exec(Fresh(), log[..k]).messages, messages)
    {
      ExecSplits(Fresh(), log, k);
      AdoptedOnce(Exec(Fresh(), log[..k]), log[k..]);
    }

    /** The messages its successor runs were made for, one batch after another, stand in this order
        in the conversation, none of them twice. */
    lemma SuccessorsGotInOrder() returns (places: seq<nat>)
      requires Valid()
      ensures Places(messages, Taken(Fresh(), log), places, 0)
    {
      places := TakenInOrder(Fresh(), log, 0);
    }

    ghost method Log(e: Event)
      modifies this`log
      ensures log == old(log) + [e]
      ensures Exec(Fresh(), log) == Step(Exec(Fresh(), old(log)), e)
    {
      ExecSplits(Fresh(), log + [e], |log|);
      log := log + [e];
    }

    method AppendMessage(id: Id, content: string, feedback: bool)
      requires Valid()
      modifies this
      ensures Valid() && log == old(log) + [Append(id, content, feedback)]
      ensures messages == old(messages) + [Message(id, content, if feedback then Pending else NotFeedback)]
      ensures View() == Step(old(View()), Append(id, content, feedback))
    {
      Log(Append(id, content, feedback));
      messages := messages + [Message(id, content, if feedback then Pending else NotFeedback)];
    }

    /** A new run is attached to the conversation; refused when the id is in use. */
    method AttachRun(rid: Id) returns (ok: bool)
      requires Valid()
      modifies this
      ensures Valid() && log == old(log) + [Event.Start(rid)]
      ensures View() == Step(old(View()), Event.Start(rid))
      ensures ok <==> rid !in old(runs)
      ensures messages == old(messages) && runs == if ok then old(runs)[rid := Run(false, {}, [])] else old(runs)
      ensures run == if ok then Some(rid) else old(run)
    {
      Log(Event.Start(rid));
      ok := rid !in runs;
      if ok {
        run, runs := Some(rid), runs[rid := Run(false, {}, [])];
      }
    }

    /** A retry takes over what the run has answered already. */
    method CreateRetry(rid: Id) returns (ok: bool)
      requires Valid()
      modifies this
      ensures Valid() && log == old(log) + [Event.Retry(rid)]
      ensures View() == Step(old(View()), Event.Retry(rid))
      ensures ok <==> old(run.Some? && run.value in runs && rid !in runs)
      ensures ok ==> run == Some(rid)
                     && runs == old(runs)[rid := Run(false, old(runs)[old(run).value].applied, [])]
      ensures messages == old(messages) && (!ok ==> run == old(run) && runs == old(runs))
    {
      Log(Event.Retry(rid));
      ok := run.Some? && run.value in runs && rid !in runs;
      if ok {
        var applied := runs[run.value].applied;
        run, runs := Some(rid), runs[rid := Run(false, applied, [])];
      }
    }

    /** A run reaches a safe boundary or leaves it. */
    method UpdateRun(rid: Id, now: bool)
      requires Valid()
      modifies this
      ensures Valid() && log == old(log) + [Ready(rid, now)]
      ensures View() == Step(old(View()), Ready(rid, now))
      ensures messages == old(messages) && run == old(run)
      ensures runs == if rid in old(runs) then old(runs)[rid := old(runs)[rid].(ready := now)] else old(runs)
    {
      Log(Ready(rid, now));
      if rid in runs {
        runs := runs[rid := runs[rid].(ready := now)];
      }
    }

    /** A clarification carries these messages into the run itself. */
    method Clarify(rid: Id, ids: set<Id>)
      requires Valid()
      modifies this
      ensures Valid() && log == old(log) + [Apply(rid, ids)]
      ensures View() == Step(old(View()), Apply(rid, ids))
      ensures messages == old(messages) && run == old(run) && runs.Keys == old(runs).Keys
      ensures forall k :: k in runs ==>
                && runs[k].ready == old(runs)[k].ready && runs[k].batch == old(runs)[k].batch
                && forall i :: i in runs[k].applied <==> i in old(runs)[k].applied || (k == rid && i in ids)
    {
      Log(Apply(rid, ids));
      if rid in runs {
        runs := runs[rid := runs[rid].(applied := runs[rid].applied + ids)];
      }
    }

    method MarkAdopted(ids: set<Id>, rid: Id)
      modifies this`messages
      ensures messages == Mark(old(messages), ids, rid)
    {
      for i := 0 to |messages|
        invariant |messages| == |old(messages)|
        invariant forall k :: 0 <= k < i ==> messages[k] == MarkOne(old(messages)[k], ids, rid)
        invariant forall k :: i <= k < |messages| ==> messages[k] == old(messages)[k]
      {
        if messages[i].standing == Pending && messages[i].id in ids {
          messages := messages[i := messages[i].(standing := Adopted(rid))];
        }
      }
    }

    method SettleFeedback(rid: Id, ids: Option<set<Id>>)
      requires Valid()
      modifies this
      ensures Valid() && log == old(log) + [Settle(rid, ids)]
      ensures |messages| == |old(messages)|
      ensures forall i :: 0 <= i < |messages| ==>
                messages[i] == if old(messages)[i].standing == Pending
                                  && (ids == None || old(messages)[i].id in ids.value)
                               then old(messages)[i].(standing := Adopted(rid)) else old(messages)[i]
      ensures View() == Step(old(View()), Settle(rid, ids))
    {
      Log(Settle(rid, ids));
      MarkAdopted(if ids.Some? then ids.value else PendingIds(messages), rid);
    }

    static method TakeBatch(pending: seq<Item>) returns (batch: seq<Item>)
      ensures batch == Batch(pending)
    {
      batch := [];
      var size: nat := 0;
      for k := 0 to |pending|
        invariant batch == pending[..k] && Extend(pending, k, size) == Extend(pending, 0, 0)
      {
        if batch != [] && size + |pending[k].content| > LIMIT {
          return;
        }
        batch := batch + [pending[k]];
        size := size + |pending[k].content|;
      }
    }

    method AdoptFeedback(rid: Id, note: Id) returns (successor: Option<Id>)
      requires Valid() && rid !in runs
      modifies this
      ensures Valid() && log == old(log) + [Adopt(rid, note)]
      ensures View() == Step(old(View()), Adopt(rid, note))
      ensures successor == Some(rid) || successor == None
      ensures successor.Some? <==>
                old(run.Some? && run.value in runs && runs[run.value].ready
                    && exists m :: m in messages && m.standing == Pending && m.id !in runs[run.value].applied)
      ensures successor.Some? ==>
                && run == Some(rid) && rid in runs && !runs[rid].ready && runs[rid].applied == {}
                && runs[rid].batch == Batch(Unapplied(old(View()))) && runs[rid].batch != []
                && |messages| == |old(messages)| + 1
                && messages[|messages| - 1] == Message(note, NOTE, NotFeedback)
      ensures successor.None? ==> run == old(run) && runs == old(runs) && |messages| == |old(messages)|
    {
      Log(Adopt(rid, note));
      WaitingIs(messages, if run.Some? && run.value in runs then runs[run.value].applied else {});
      BatchFacts(Unapplied(View()));
      if run.None? || run.value !in runs {
        return None;
      }
      var prior := run.value;
      var pending := Waiting(messages, runs[prior].applied);
      MarkAdopted(runs[prior].applied, prior);
      if pending == [] || !runs[prior].ready {
        return None;
      }
      var batch := TakeBatch(pending);
      MarkAdopted(Ids(batch), rid);
      messages := messages + [Message(note, NOTE, NotFeedback)];
      run := Some(rid);
      runs := runs[rid := Run(false, {}, batch)];
      return Some(rid);
    }
  }

  // ---------- a message is adopted once ----------

  /** Messages keep their place and content; once adopted they stay with that run. */
  ghost predicate Keeps(was: seq<Message>, now: seq<Message>) {
    && |was| <= |now|
    && forall i :: 0 <= i < |was| ==>
      && now[i].id == was[i].id && now[i].content == was[i].content
      && (was[i].standing != Pending ==> now[i].standing == was[i].standing)
      && (was[i].standing == Pending ==> now[i].standing != NotFeedback)
  }

  /** In every run a message is adopted at most once, into exactly one run, and never lost. */
  lemma {:induction false} AdoptedOnce(s: State, run: seq<Event>)
    ensures Keeps(s.messages, Exec(s, run).messages)
    decreases |run|
  {
    if run != [] {
      AdoptedOnce(Step(s, run[0]), run[1..]);
    }
  }

  // ---------- in order of arrival ----------

  /** The items stand at these places of the conversation, one after another, from `low` on. */
  ghost predicate Places(ms: seq<Message>, items: seq<Item>, places: seq<nat>, low: nat) {
    && |places| == |items|
    && (forall i :: 0 <= i < |places| ==> low <= places[i] < |ms| && ItemOf(ms[places[i]]) == items[i])
    && forall i, j :: 0 <= i < j < |places| ==> places[i] < places[j]
  }

  ghost predicate NonePending(ms: seq<Message>, low: nat) {
    forall i :: 0 <= i < low && i < |ms| ==> ms[i].standing != Pending
  }

  lemma {:induction false} WaitingPlaces(ms: seq<Message>, done: set<Id>, low: nat) returns (places: seq<nat>)
    requires low <= |ms| && NonePending(ms, low)
    ensures Places(ms, Waiting(ms, done), places, low)
    ensures forall i :: 0 <= i < |ms| && ms[i].standing == Pending && ms[i].id !in done ==> i in places
    decreases |ms|
  {
    if low == |ms| {
      NothingWaits(ms, done);
      places := [];
    } else {
      var k := |ms| - 1;
      places := WaitingPlaces(ms[..k], done, low);
      if ms[k].standing == Pending && ms[k].id !in done {
        places := places + [k];
      }
    }
  }

  lemma {:induction false} NothingWaits(ms: seq<Message>, done: set<Id>)
    requires NonePending(ms, |ms|)
    ensures Waiting(ms, done) == []
    decreases |ms|
  {
    if ms != [] { NothingWaits(ms[..|ms| - 1], done); }
  }

  /** After an adoption nothing waits up to the last message of its batch. */
  lemma NothingLeftBehind(s: State, rid: Id, note: Id, places: seq<nat>, low: nat)
    requires Adopts(s, rid) && low <= |s.messages| && NonePending(s.messages, low)
    requires Places(s.messages, Unapplied(s), places, low)
    requires forall i :: 0 <= i < |s.messages| ==>
               s.messages[i].standing == Pending && s.messages[i].id !in Applied(s) ==> i in places
    ensures var n := |Batch(Unapplied(s))|;
            n >= 1 && NonePending(AdoptStep(s, rid, note).messages, places[n - 1] + 1)
  {
    var items := Unapplied(s);
    BatchFacts(items);
    var n := |Batch(items)|;
    var now := AdoptStep(s, rid, note).messages;
    forall i | 0 <= i <= places[n - 1] ensures now[i].standing != Pending {
      if s.messages[i].standing == Pending && s.messages[i].id !in Applied(s) {
        var k :| 0 <= k < |places| && places[k] == i;
        assert k < n && items[k] == ItemOf(s.messages[i]) && Batch(items)[k] in Batch(items);
      }
    }
  }

  lemma PlacesStay(was: seq<Message>, now: seq<Message>, items: seq<Item>, places: seq<nat>, low: nat)
    requires Keeps(was, now) && Places(was, items, places, low)
    ensures Places(now, items, places, low)
  {
  }

  lemma StepKeeps(s: State, e: Event)
    ensures Keeps(s.messages, Step(s, e).messages)
  {
  }

  /** What one step hands on stands from `low` on and before `next`, where nothing waits any more. */
  lemma GivenPlaces(s: State, e: Event, low: nat) returns (places: seq<nat>, next: nat)
    requires low <= |s.messages| && NonePending(s.messages, low)
    ensures low <= next <= |s.messages| && NonePending(Step(s, e).messages, next)
    ensures Places(s.messages, Given(s, e), places, low) && forall i :: 0 <= i < |places| ==> places[i] < next
  {
    places, next := [], low;
    StepKeeps(s, e);
    if e.Adopt? && Adopts(s, e.rid) {
      var waiting := WaitingPlaces(s.messages, Applied(s), low);
      NothingLeftBehind(s, e.rid, e.note, waiting, low);
      BatchFacts(Unapplied(s));
      var n := |Batch(Unapplied(s))|;
      places, next := waiting[..n], waiting[n - 1] + 1;
    }
  }

  /** In every run, whatever is appended, answered inside a run, clarified, retried or settled in
      between, the messages handed to successor runs stand at increasing places: they are handed
      on in order of arrival, each at most once. */
  lemma {:induction false} TakenInOrder(s: State, run: seq<Event>, low: nat) returns (places: seq<nat>)
    requires low <= |s.messages| && NonePending(s.messages, low)
    ensures Places(Exec(s, run).messages, Taken(s, run), places, low)
    decreases |run|
  {
    places := [];
    if run != [] {
      var n := Step(s, run[0]);
      var first, next := GivenPlaces(s, run[0], low);
      StepKeeps(s, run[0]);
      AdoptedOnce(n, run[1..]);
      var rest := TakenInOrder(n, run[1..], next);
      PlacesStay(s.messages, n.messages, Given(s, run[0]), first, low);
      PlacesStay(n.messages, Exec(s, run).messages, Given(s, run[0]), first, low);
      places := first + rest;
    }
  }

  // ---------- first in, first out ----------

  ghost predicate UniqueIds(ms: seq<Message>) {
    forall i, j :: 0 <= i < j < |ms| ==> ms[i].id != ms[j].id
  }

  ghost predicate UniqueItems(items: seq<Item>) {
    forall i, j :: 0 <= i < j < |items| ==> items[i].id != items[j].id
  }

  function Without(items: seq<Item>, ids: set<Id>): seq<Item> {
    if items == [] then []
    else
      var last := items[|items| - 1];
      Without(items[..|items| - 1], ids) + if last.id in ids then [] else [last]
  }

  lemma {:induction false} WaitingWithout(ms: seq<Message>, done: set<Id>, ids: set<Id>)
    ensures Waiting(ms, done + ids) == Without(Waiting(ms, done), ids)
    decreases |ms|
  {
    if ms != [] {
      var init, m := ms[..|ms| - 1], ms[|ms| - 1];
      WaitingWithout(init, done, ids);
      if m.standing == Pending && m.id !in done {
        var items := Waiting(ms, done);
        assert items[..|items| - 1] == Waiting(init, done) && items[|items| - 1] == ItemOf(m);
      } else {
        assert Waiting(ms, done) == Waiting(init, done);
      }
    }
  }

  lemma {:induction false} MarkedWaits(ms: seq<Message>, ids: set<Id>, run: Id, done: set<Id>)
    ensures Waiting(Mark(ms, ids, run), done) == Waiting(ms, done + ids)
    decreases |ms|
  {
    if ms != [] {
      var init := ms[..|ms| - 1];
      MarkedWaits(init, ids, run, done);
      assert Mark(ms, ids, run)[..|ms| - 1] == Mark(init, ids, run);
    }
  }

  lemma {:induction false} WithoutAll(items: seq<Item>, ids: set<Id>)
    requires forall i :: i in items ==> i.id in ids
    ensures Without(items, ids) == []
    decreases |items|
  {
    if items != [] {
      assert forall i :: i in items[..|items| - 1] ==> i in items;
      WithoutAll(items[..|items| - 1], ids);
    }
  }

  lemma {:induction false} WithoutPrefix(items: seq<Item>, k: nat)
    requires UniqueItems(items) && k <= |items|
    ensures Without(items, Ids(items[..k])) == items[k..]
    decreases |items|
  {
    if k == |items| {
      assert items[..k] == items;
      WithoutAll(items, Ids(items));
    } else {
      var init, last := items[..|items| - 1], items[|items| - 1];
      WithoutPrefix(init, k);
      assert init[..k] == items[..k];
      assert last.id !in Ids(items[..k]);
      assert items[k..] == init[k..] + [last];
    }
  }

  lemma {:induction false} WaitingIsUnique(ms: seq<Message>, done: set<Id>)
    requires UniqueIds(ms)
    ensures UniqueItems(Waiting(ms, done))
    ensures forall i :: i in Waiting(ms, done) ==> exists m :: m in ms && m.id == i.id
    decreases |ms|
  {
    if ms != [] {
      var init, m := ms[..|ms| - 1], ms[|ms| - 1];
      WaitingIsUnique(init, done);
      assert m in ms;
      assert forall x :: x in init ==> x in ms && x.id != m.id;
      var before := Waiting(init, done);
      forall k | 0 <= k < |before| ensures before[k].id != m.id {
        assert before[k] in before;
      }
    }
  }

  /** An adoption takes a batch off the front of what waits and leaves the rest in place. */
  lemma AdoptionTakesBatch(s: State, rid: Id, note: Id)
    requires UniqueIds(s.messages) && rid !in s.runs
    ensures var n := AdoptStep(s, rid, note);
            Unapplied(n) == if Adopts(s, rid) then Unapplied(s)[|Batch(Unapplied(s))|..] else Unapplied(s)
    ensures Adopts(s, rid) ==> AdoptStep(s, rid, note).runs[rid].batch == Batch(Unapplied(s))
  {
    if Bound(s) {
      var items := Unapplied(s);
      var done := Applied(s);
      var marked := Mark(s.messages, done, s.run.value);
      if Adopts(s, rid) {
        var ids := Ids(Batch(items));
        var now := Mark(marked, ids, rid);
        MarkedWaits(marked, ids, rid, {});
        assert {} + ids == ids;
        MarkedWaits(s.messages, done, s.run.value, ids);
        assert ids + done == done + ids;
        WaitingWithout(s.messages, done, ids);
        WaitingIsUnique(s.messages, done);
        WithoutPrefix(items, |Batch(items)|);
        var note' := Message(note, NOTE, NotFeedback);
        assert (now + [note'])[..|now|] == now;
        assert Waiting(now + [note'], {}) == Waiting(now, {});
      } else {
        MarkedWaits(s.messages, done, s.run.value, done);
        assert done + done == done;
      }
    }
  }

  /** What waits: pending feedback that has not been answered inside the run. */
  lemma {:induction false} WaitingIs(ms: seq<Message>, done: set<Id>)
    ensures forall m :: m in ms && m.standing == Pending && m.id !in done ==> ItemOf(m) in Waiting(ms, done)
    ensures Waiting(ms, done) != [] <==> exists m :: m in ms && m.standing == Pending && m.id !in done
    decreases |ms|
  {
    if ms != [] {
      var init, last := ms[..|ms| - 1], ms[|ms| - 1];
      WaitingIs(init, done);
      assert ms == init + [last] && last in ms && forall m :: m in init ==> m in ms;
    }
  }

  lemma {:induction false} WaitingAre(ms: seq<Message>, done: set<Id>)
    ensures forall i :: i in Waiting(ms, done) ==>
              i.id !in done && exists m :: m in ms && m.standing == Pending && ItemOf(m) == i
    decreases |ms|
  {
    if ms != [] {
      WaitingAre(ms[..|ms| - 1], done);
      assert ms[|ms| - 1] in ms;
      assert forall m :: m in ms[..|ms| - 1] ==> m in ms;
    }
  }

  /** The messages that go to the successor run are exactly its batch; what the current run has
      already answered goes to the current run. */
  lemma BatchIsAdopted(s: State, rid: Id, note: Id, i: nat)
    requires UniqueIds(s.messages) && Adopts(s, rid) && i < |s.messages| && s.messages[i].standing == Pending
    ensures var m := s.messages[i];
            AdoptStep(s, rid, note).messages[i].standing ==
              if m.id in Applied(s) then Adopted(s.run.value)
              else if ItemOf(m) in Batch(Unapplied(s)) then Adopted(rid) else Pending
  {
    var m := s.messages[i];
    WaitingAre(s.messages, Applied(s));
    if m.id in Ids(Batch(Unapplied(s))) {
      var item :| item in Batch(Unapplied(s)) && item.id == m.id;
      assert item in Unapplied(s);
      var o :| o in s.messages && o.standing == Pending && ItemOf(o) == item;
      assert o == m;
    }
  }

  /** Ids are drawn fresh, and nothing but the queue deals with feedback. */
  ghost predicate QueueOnly(s: State, run: seq<Event>)
    decreases |run|
  {
    run == []
    || (Queues(s, run[0]) && QueueOnly(Step(s, run[0]), run[1..]))
  }

  predicate IsNew(s: State, id: Id) {
    id !in Applied(s) && forall m :: m in s.messages ==> m.id != id
  }

  predicate Queues(s: State, e: Event) {
    match e
    case Append(id, _, _) => IsNew(s, id)
    case Ready(_, _) => true
    case Adopt(rid, note) => rid !in s.runs && IsNew(s, note)
    case Apply(_, _) => false
    case Settle(_, _) => false
    case Start(_) => false
    case Retry(rid) => rid !in s.runs
  }

  /** What one step hands to a successor run. */
  function Given(s: State, e: Event): seq<Item> {
    if e.Adopt? && Adopts(s, e.rid) then Batch(Unapplied(s)) else []
  }

  /** All that the adoptions of a run hand to successor runs, in order. */
  function Taken(s: State, run: seq<Event>): seq<Item>
    decreases |run|
  {
    if run == [] then []
    else Given(s, run[0]) + Taken(Step(s, run[0]), run[1..])
  }

  function Arrived(run: seq<Event>): seq<Item> {
    if run == [] then []
    else (if run[0].Append? && run[0].feedback then [Item(run[0].id, run[0].content)] else []) + Arrived(run[1..])
  }

  lemma AppendStep(s: State, e: Event)
    requires e.Append? && UniqueIds(s.messages) && IsNew(s, e.id)
    ensures UniqueIds(Step(s, e).messages)
    ensures Unapplied(Step(s, e)) == Unapplied(s) + if e.feedback then [Item(e.id, e.content)] else []
  {
    assert Step(s, e).messages[..|s.messages|] == s.messages;
    assert forall i :: 0 <= i < |s.messages| ==> s.messages[i] in s.messages;
  }

  lemma AdoptKeepsIds(s: State, rid: Id, note: Id)
    requires UniqueIds(s.messages) && IsNew(s, note)
    ensures UniqueIds(AdoptStep(s, rid, note).messages)
  {
    assert forall i :: 0 <= i < |s.messages| ==> s.messages[i] in s.messages;
  }

  lemma QueueStep(s: State, e: Event)
    requires UniqueIds(s.messages) && Queues(s, e)
    ensures UniqueIds(Step(s, e).messages)
    ensures Given(s, e) + Unapplied(Step(s, e))
            == Unapplied(s) + if e.Append? && e.feedback then [Item(e.id, e.content)] else []
  {
    if e.Adopt? {
      AdoptKeepsIds(s, e.rid, e.note);
      AdoptionTakesBatch(s, e.rid, e.note);
      BatchFacts(Unapplied(s));
    } else if e.Append? {
      AppendStep(s, e);
    } else {
      assert Step(s, e).messages == s.messages && Applied(Step(s, e)) == Applied(s);
    }
  }

  /** Feedback is first in, first out: what successor runs got plus what still waits is what waited
      plus what arrived, in order of arrival, over any run with new arrivals in between. */
  lemma {:induction false} FirstInFirstOut(s: State, run: seq<Event>)
    requires UniqueIds(s.messages) && QueueOnly(s, run)
    ensures Taken(s, run) + Unapplied(Exec(s, run)) == Unapplied(s) + Arrived(run)
    decreases |run|
  {
    if run != [] {
      var n := Step(s, run[0]);
      QueueStep(s, run[0]);
      FirstInFirstOut(n, run[1..]);
      Regroup(Given(s, run[0]),
              Taken(n, run[1..]), Unapplied(Exec(n, run[1..])), Unapplied(n), Arrived(run[1..]), Unapplied(s),
              if run[0].Append? && run[0].feedback then [Item(run[0].id, run[0].content)] else []);
    }
  }

  lemma Regroup(first: seq<Item>, taken: seq<Item>, left: seq<Item>, now: seq<Item>, arrived: seq<Item>,
                before: seq<Item>, arrival: seq<Item>)
    requires taken + left == now + arrived && first + now == before + arrival
    ensures (first + taken) + left == before + (arrival + arrived)
  {
    assert (first + taken) + left == first + (now + arrived) == (before + arrival) + arrived;
  }

  // ---------- draining ----------

  /** The current run reaches a safe boundary and feedback is adopted, again and again. */
  function Boundaries(current: Id, rids: seq<(Id, Id)>): seq<Event>
    decreases |rids|
  {
    if rids == [] then []
    else [Ready(current, true), Adopt(rids[0].0, rids[0].1)] + Boundaries(rids[0].0, rids[1..])
  }

  lemma TwoSteps(s: State, e: Event, f: Event, rest: seq<Event>)
    ensures Exec(s, [e, f] + rest) == Exec(Step(Step(s, e), f), rest)
    ensures QueueOnly(s, [e, f] + rest) ==> Queues(Step(s, e), f) && QueueOnly(Step(Step(s, e), f), rest)
  {
    assert ([e, f] + rest)[1..] == [f] + rest && ([f] + rest)[1..] == rest;
    assert Exec(Step(s, e), [f] + rest) == Exec(Step(Step(s, e), f), rest);
    if QueueOnly(s, [e, f] + rest) {
      assert QueueOnly(Step(s, e), [f] + rest);
    }
  }

  /** As many boundaries as messages empty the queue, and the batches are then the whole queue in
      order of arrival. */
  lemma {:induction false} BoundariesDrain(s: State, current: Id, rids: seq<(Id, Id)>)
    requires UniqueIds(s.messages) && QueueOnly(s, Boundaries(current, rids))
    requires Unapplied(s) == [] || (s.run == Some(current) && current in s.runs)
    requires |rids| >= |Unapplied(s)|
    ensures Unapplied(Exec(s, Boundaries(current, rids))) == []
    decreases |rids|
  {
    if rids != [] {
      TwoSteps(s, Ready(current, true), Adopt(rids[0].0, rids[0].1), Boundaries(rids[0].0, rids[1..]));
      var a := Step(s, Ready(current, true));
      assert Unapplied(a) == Unapplied(s);
      var b := Step(a, Adopt(rids[0].0, rids[0].1));
      AdoptionTakesBatch(a, rids[0].0, rids[0].1);
      QueueStep(a, Adopt(rids[0].0, rids[0].1));
      BatchFacts(Unapplied(a));
      BoundariesDrain(b, rids[0].0, rids[1..]);
    }
  }

  lemma {:induction false} NothingArrives(current: Id, rids: seq<(Id, Id)>)
    ensures Arrived(Boundaries(current, rids)) == []
    decreases |rids|
  {
    if rids != [] {
      var run := Boundaries(current, rids);
      assert run[1..][1..] == Boundaries(rids[0].0, rids[1..]);
      NothingArrives(rids[0].0, rids[1..]);
    }
  }

  lemma {:induction false} DrainsInOrder(s: State, current: Id, rids: seq<(Id, Id)>)
    requires UniqueIds(s.messages) && QueueOnly(s, Boundaries(current, rids))
    requires s.run == Some(current) && current in s.runs && |rids| >= |Unapplied(s)|
    ensures Taken(s, Boundaries(current, rids)) == Unapplied(s)
  {
    BoundariesDrain(s, current, rids);
    NothingArrives(current, rids);
    var run := Boundaries(current, rids);
    FirstInFirstOut(s, run);
    assert Taken(s, run) + [] == Taken(s, run) && Unapplied(s) + [] == Unapplied(s);
  }
}
