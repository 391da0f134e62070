/** The queue of rounds to run: one row per run and phase, stamped with a generation that tells a
    slow worker's round from the one after it. */
module DurableQueue {
  datatype Option<+T> = None | Some(value: T)
  datatype Key = Key(run: string, phase: string)
  datatype Status = Pending | Running | Finished
  datatype Row = Row(status: Status, generation: nat)
  type Rows = map<Key, Row>

  datatype Op =
    | Enqueue(key: Key, continuation: bool)
    | Claim(key: Key)
    | Finish(key: Key, generation: Option<nat>)
    | Reset(run: string)

  predicate Known(phase: string) {
    phase == "plan" || phase == "execute" || phase == "requirement_analysis"
  }

  /** Whether an enqueue creates a round; otherwise one is waiting or under way. */
  predicate Opens(rows: Rows, key: Key, continuation: bool) {
    && Known(key.phase)
    && !(key in rows && (rows[key].status == Pending || (rows[key].status == Running && !continuation)))
  }

  function Generation(rows: Rows, key: Key): nat {
    if key in rows then rows[key].generation else 0
  }

  function Step(rows: Rows, op: Op): Rows {
    match op
    case Enqueue(key, continuation) =>
      if Opens(rows, key, continuation) then rows[key := Row(Pending, Generation(rows, key) + 1)] else rows
    case Claim(key) =>
      if key in rows && rows[key].status == Pending then rows[key := rows[key].(status := Running)] else rows
    case Finish(key, generation) =>
      if key in rows && rows[key].status == Running && (generation == None || generation == Some(rows[key].generation))
      then rows[key := rows[key].(status := Finished)] else rows
    case Reset(run) =>
      map k | k in rows :: if k.run == run then rows[k].(status := Finished) else rows[k]
  }

  function Exec(rows: Rows, ops: seq<Op>): Rows
    decreases |ops|
  {
    if ops == [] then rows else Exec(Step(rows, ops[0]), ops[1..])
  }

  lemma {:induction false} ExecExtends(rows: Rows, ops: seq<Op>, op: Op)
    ensures Exec(rows, ops + [op]) == Step(Exec(rows, ops), op)
    decreases |ops|
  {
    if ops == [] {
      assert ([] + [op])[1..] == [];
    } else {
      assert (ops + [op])[1..] == ops[1..] + [op];
      ExecExtends(Step(rows, ops[0]), ops[1..], op);
    }
  }

  class Queue {
    var rows: Rows
    /** What was asked of this queue, in order. */
    ghost var log: seq<Op>

    ghost predicate Valid()
      reads this
    {
      rows == Exec(map[], log)
    }

    constructor ()
      ensures Valid() && rows == map[] && log == []
    {
      rows := map[];
      log := [];
    }

    /** Whatever this queue has been asked: the rounds of a key are numbered without a gap, and each
        was handed out at most once, in the order they were opened. */
    lemma EachRoundOnce(key: Key)
      requires Valid()
      ensures Opened(map[], log, key) == seq(Generation(rows, key), i => 1 + i)
      ensures Ascending(Claimed(map[], log, key), 1, Generation(rows, key))
    {
      GenerationsAreConsecutive(map[], log, key);
      ClaimsIncrease(map[], log, key);
    }

    ghost method Log(op: Op)
      requires Valid()
      modifies this`log
      ensures log == old(log) + [op] && Exec(map[], log) == Step(rows, op)
    {
      ExecExtends(map[], log, op);
      log := log + [op];
    }

    /** `None` is the error for an unknown phase. */
    method Enqueue(key: Key, continuation: bool) returns (created: Option<bool>)
      requires Valid()
      modifies this
      ensures Valid() && log == old(log) + [Op.Enqueue(key, continuation)]
      ensures rows == Step(old(rows), Op.Enqueue(key, continuation))
      ensures created == None <==> key.phase !in {"plan", "execute", "requirement_analysis"}
      ensures created == Some(true) <==>
                && key.phase in {"plan", "execute", "requirement_analysis"}
                && (key in old(rows) ==> old(rows)[key].status == Finished
                                         || (old(rows)[key].status == Running && continuation))
      ensures created == Some(true) ==>
                rows == old(rows)[key := Row(Pending, if key in old(rows) then old(rows)[key].generation + 1 else 1)]
      ensures created != Some(true) ==> rows == old(rows)
    {
      Log(Op.Enqueue(key, continuation));
      if key.phase != "plan" && key.phase != "execute" && key.phase != "requirement_analysis" {
        return None;
      }
      var generation := 1;
      if key in rows {
        if rows[key].status == Pending || (rows[key].status == Running && !continuation) {
          return Some(false);
        }
        generation := rows[key].generation + 1;
      }
      rows := rows[key := Row(Pending, generation)];
      return Some(true);
    }

    method Claim(key: Key) returns (taken: Option<nat>)
      requires Valid()
      modifies this
      ensures Valid() && log == old(log) + [Op.Claim(key)]
      ensures rows == Step(old(rows), Op.Claim(key))
      ensures taken == if key in old(rows) && old(rows)[key].status == Pending
                       then Some(old(rows)[key].generation) else None
      ensures rows == if taken.Some? then old(rows)[key := Row(Running, taken.value)] else old(rows)
    {
      Log(Op.Claim(key));
      if key !in rows || rows[key].status != Pending {
        return None;
      }
      taken := Some(rows[key].generation);
      rows := rows[key := rows[key].(status := Running)];
    }

    method Finish(key: Key, generation: Option<nat>) returns (did: bool)
      requires Valid()
      modifies this
      ensures Valid() && log == old(log) + [Op.Finish(key, generation)]
      ensures rows == Step(old(rows), Op.Finish(key, generation))
      ensures did <==> rows != old(rows)
      ensures did <==> key in old(rows) && old(rows)[key].status == Running
                       && (generation == None || generation == Some(old(rows)[key].generation))
      ensures did ==> rows == old(rows)[key := Row(Finished, old(rows)[key].generation)]
    {
      Log(Op.Finish(key, generation));
      did := key in rows && rows[key].status == Running;
      if did && generation.Some? {
        did := rows[key].generation == generation.value;
      }
      if did {
        ghost var was := rows[key];
        rows := rows[key := rows[key].(status := Finished)];
        assert rows[key] != was;
      }
    }

    method Reset(run: string)
      requires Valid()
      modifies this
      ensures Valid() && log == old(log) + [Op.Reset(run)]
      ensures rows == Step(old(rows), Op.Reset(run))
      ensures rows.Keys == old(rows).Keys
      ensures forall k :: k in rows ==>
                if k.run == run then rows[k] == Row(Finished, old(rows)[k].generation) else rows[k] == old(rows)[k]
    {
      Log(Op.Reset(run));
      rows := map k | k in rows :: if k.run == run then rows[k].(status := Finished) else rows[k];
    }
  }

  // ---------- generations over a run ----------

  /** The generations that the enqueues of a run create for a key, in order. */
  function Opened(rows: Rows, ops: seq<Op>, key: Key): seq<nat>
    decreases |ops|
  {
    if ops == [] then []
    else
      var rest := Opened(Step(rows, ops[0]), ops[1..], key);
      if ops[0].Enqueue? && ops[0].key == key && Opens(rows, key, ops[0].continuation)
      then [Generation(rows, key) + 1] + rest else rest
  }

  /** The generations that the claims of a run hand out for a key, in order. */
  function Claimed(rows: Rows, ops: seq<Op>, key: Key): seq<nat>
    decreases |ops|
  {
    if ops == [] then []
    else
      var rest := Claimed(Step(rows, ops[0]), ops[1..], key);
      if ops[0] == Claim(key) && key in rows && rows[key].status == Pending then [rows[key].generation] + rest else rest
  }

  /** New generations are consecutive: none is skipped and none is used twice. */
  lemma {:induction false} GenerationsAreConsecutive(rows: Rows, ops: seq<Op>, key: Key)
    ensures Opened(rows, ops, key) == seq(|Opened(rows, ops, key)|, i => Generation(rows, key) + 1 + i)
    ensures Generation(Exec(rows, ops), key) == Generation(rows, key) + |Opened(rows, ops, key)|
    decreases |ops|
  {
    if ops != [] {
      GenerationsAreConsecutive(Step(rows, ops[0]), ops[1..], key);
    }
  }

  /** The oldest generation that can still be handed out. */
  function NextClaim(rows: Rows, key: Key): nat {
    if key in rows && rows[key].status == Pending then rows[key].generation else Generation(rows, key) + 1
  }

  ghost predicate Ascending(c: seq<nat>, low: nat, high: nat) {
    && (forall i :: 0 <= i < |c| ==> low <= c[i] <= high)
    && forall i, j :: 0 <= i < j < |c| ==> c[i] < c[j]
  }

  /** Each generation is handed out at most once, in increasing order, and only once created. */
  lemma {:induction false} ClaimsIncrease(rows: Rows, ops: seq<Op>, key: Key)
    ensures Ascending(Claimed(rows, ops, key), NextClaim(rows, key), Generation(Exec(rows, ops), key))
    decreases |ops|
  {
    if ops != [] {
      var n := Step(rows, ops[0]);
      ClaimsIncrease(n, ops[1..], key);
      GenerationsAreConsecutive(n, ops[1..], key);
      var c, rest := Claimed(rows, ops, key), Claimed(n, ops[1..], key);
      if ops[0] == Claim(key) && key in rows && rows[key].status == Pending {
        assert NextClaim(n, key) == rows[key].generation + 1;
        forall i | 0 < i < |c| ensures c[i] == rest[i - 1] {}
      } else {
        assert NextClaim(n, key) >= NextClaim(rows, key) && c == rest;
      }
    }
  }

  // ---------- a slow worker ----------

  /** Whether some step of the run ends or replaces the round of `key` that is running. */
  predicate Disturbed(rows: Rows, ops: seq<Op>, key: Key)
    decreases |ops|
  {
    ops != [] && (Disturbs(rows, ops[0], key) || Disturbed(Step(rows, ops[0]), ops[1..], key))
  }

  predicate Disturbs(rows: Rows, op: Op, key: Key) {
    match op
    case Enqueue(k, continuation) => k == key && Opens(rows, key, continuation)
    case Claim(_) => false
    case Finish(k, generation) => k == key && (generation == None || generation == Some(Generation(rows, key)))
    case Reset(run) => run == key.run
  }

  lemma {:induction false} RetiredForGood(rows: Rows, ops: seq<Op>, key: Key, g: nat)
    requires key in rows && (rows[key].generation > g || (rows[key].generation == g && rows[key].status == Finished))
    ensures var n := Exec(rows, ops);
            key in n && (n[key].generation > g || (n[key].generation == g && n[key].status == Finished))
    decreases |ops|
  {
    if ops != [] { RetiredForGood(Step(rows, ops[0]), ops[1..], key, g); }
  }

  lemma {:induction false} RunningUntilDisturbed(rows: Rows, ops: seq<Op>, key: Key)
    requires key in rows && rows[key].status == Running
    ensures var n := Exec(rows, ops);
            && key in n && (n[key] == rows[key] <==> !Disturbed(rows, ops, key))
            && (Disturbed(rows, ops, key) ==>
                  n[key].generation > rows[key].generation
                  || (n[key].generation == rows[key].generation && n[key].status == Finished))
    decreases |ops|
  {
    if ops != [] {
      var n := Step(rows, ops[0]);
      if Disturbs(rows, ops[0], key) {
        RetiredForGood(n, ops[1..], key, rows[key].generation);
      } else {
        RunningUntilDisturbed(n, ops[1..], key);
      }
    }
  }

  /** A worker that took a generation retires its round exactly when nothing has ended or replaced
      that round since; otherwise its finish changes nothing, so it never retires a later round. */
  lemma OwnRoundOnly(rows: Rows, ops: seq<Op>, key: Key)
    requires key in rows && rows[key].status == Pending
    ensures var g := rows[key].generation;
            var taken := Step(rows, Claim(key));
            var n := Exec(taken, ops);
            Step(n, Finish(key, Some(g))) ==
              if Disturbed(taken, ops, key) then n else n[key := Row(Finished, g)]
  {
    RunningUntilDisturbed(Step(rows, Claim(key)), ops, key);
  }

  /** Without a generation the promise is gone: the caller retires a round it never took. */
  lemma WithoutGenerationRetiresAnother(rows: Rows, key: Key)
    requires key in rows && rows[key].status == Pending && Known(key.phase)
    ensures var g := rows[key].generation;
            Exec(rows, [Claim(key), Enqueue(key, true), Claim(key), Finish(key, None)])
              == rows[key := Row(Finished, g + 1)]
  {
    var a := Step(rows, Claim(key));
    var b := Step(a, Enqueue(key, true));
    var c := Step(b, Claim(key));
    var d := Step(c, Finish(key, None));
    assert Exec(d, []) == d;
    assert Exec(c, [Finish(key, None)]) == d;
    var last, later := [Claim(key), Finish(key, None)], [Enqueue(key, true), Claim(key), Finish(key, None)];
    assert last[1..] == [Finish(key, None)];
    assert Exec(b, last) == d;
    assert later[1..] == last;
    assert Exec(a, later) == d;
    assert [Claim(key), Enqueue(key, true), Claim(key), Finish(key, None)][1..] == later;
  }

  /** Leaving the generation out makes a difference exactly when a later round is running by then. */
  lemma GenerationMattersWhen(rows: Rows, ops: seq<Op>, key: Key)
    requires key in rows && rows[key].status == Pending
    ensures var g := rows[key].generation;
            var n := Exec(Step(rows, Claim(key)), ops);
            && key in n
            && (Step(n, Finish(key, None)) != Step(n, Finish(key, Some(g)))
                <==> n[key].status == Running && n[key].generation > g)
  {
    RunningUntilDisturbed(Step(rows, Claim(key)), ops, key);
    var g, n := rows[key].generation, Exec(Step(rows, Claim(key)), ops);
    if n[key].status == Running && n[key].generation > g {
      assert Step(n, Finish(key, None))[key].status == Finished;
    }
  }

  // ---------- a waiting round ----------

  /** A round that waits goes on waiting, the same generation, until it is claimed or its run is
      reset: no enqueue, finish or work on another key takes it away. */
  lemma {:induction false} WaitsUntilTaken(rows: Rows, ops: seq<Op>, key: Key)
    requires key in rows && rows[key].status == Pending
    requires forall op :: op in ops ==> op != Claim(key) && op != Reset(key.run)
    ensures key in Exec(rows, ops) && Exec(rows, ops)[key] == rows[key]
    decreases |ops|
  {
    if ops != [] {
      assert ops[0] in ops;
      assert forall op :: op in ops[1..] ==> op in ops;
      WaitsUntilTaken(Step(rows, ops[0]), ops[1..], key);
    }
  }

  /** In a run that does not reset it a waiting round is either handed out or waiting still. */
  lemma {:induction false} HandedOutOrWaiting(rows: Rows, ops: seq<Op>, key: Key)
    requires key in rows && rows[key].status == Pending && Reset(key.run) !in ops
    ensures rows[key].generation in Claimed(rows, ops, key)
            || (Claim(key) !in ops && key in Exec(rows, ops) && Exec(rows, ops)[key] == rows[key])
    decreases |ops|
  {
    if ops != [] && ops[0] != Claim(key) {
      assert Reset(key.run) != ops[0];
      HandedOutOrWaiting(Step(rows, ops[0]), ops[1..], key);
    }
  }
}
