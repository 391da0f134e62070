/** The audit rows of dispatches: how attempts are numbered when several processes insert at
    once, and how the rework figure of gate 3 is counted. */
module Audit {
  datatype Role = Regression | Spec | Architecture | Risk | Scope | Beacon
  datatype Claim = Claim(check: string, got: string)
  datatype Verdict = Verdict(role: Role, failed: bool, claims: seq<Claim>)
  datatype Resolution = Pending | Merged | Reworked | HumanOverride | Escalated

  /** `dispatched` is false for rows that never reached the harness. */
  datatype Attempt = Attempt(task: string, no: nat, dispatched: bool, resolution: Resolution, verdicts: seq<Verdict>)

  // ---------- numbering under racing inserters ----------

  const INSERT_RETRIES: nat := 8

  /** What one caller of open_attempt is doing; `seen` is the largest number it read, `from` the
      number of rows its task had when the call began. */
  datatype Inserter =
    | Idle
    | Reading(task: string, tries: nat, since: nat)
    | Inserting(task: string, seen: nat, tries: nat, since: nat)
    | Opened(task: string, no: nat)
    | GaveUp(task: string, since: nat)

  /** Which attempt numbers exist for each task. */
  datatype Table = Table(rows: map<string, set<nat>>, callers: map<nat, Inserter>)

  function Numbers(t: Table, task: string): set<nat> {
    if task in t.rows then t.rows[task] else {}
  }

  function CallerAt(t: Table, w: nat): Inserter {
    if w in t.callers then t.callers[w] else Idle
  }

  /** The greatest member, 0 for the empty set. */
  ghost function MaxOf(s: set<nat>): (m: nat)
    ensures s == {} ==> m == 0
    ensures s != {} ==> m in s && forall x :: x in s ==> x <= m
  {
    if s == {} then 0
    else
      var a :| a in s;
      var m := MaxOf(s - {a});
      assert forall x :: x in s ==> x == a || x in s - {a};
      if a <= m then m else a
  }

  datatype Action = Begin(task: string) | ReadMax | Insert

  /** Reading the maximum and inserting are separate steps; the uniqueness constraint of
      (task, number) makes the loser start over. */
  ghost function Step(t: Table, w: nat, a: Action): Table {
    match (CallerAt(t, w), a)
    case (Idle, Begin(task)) => t.(callers := t.callers[w := Reading(task, INSERT_RETRIES, |Numbers(t, task)|)])
    case (Reading(task, tries, since), ReadMax) =>
      t.(callers := t.callers[w := if tries == 0 then GaveUp(task, since)
                                   else Inserting(task, MaxOf(Numbers(t, task)), tries, since)])
    case (Inserting(task, seen, tries, since), Insert) =>
      if tries == 0 then t
      else if seen + 1 in Numbers(t, task) then t.(callers := t.callers[w := Reading(task, tries - 1, since)])
      else Table(t.rows[task := Numbers(t, task) + {seen + 1}], t.callers[w := Opened(task, seen + 1)])
    case _ => t
  }

  ghost function Exec(t: Table, run: seq<(nat, Action)>): Table
    decreases |run|
  {
    if run == [] then t else Exec(Step(t, run[0].0, run[0].1), run[1..])
  }

  /** Numbers of a task are 1, 2, ..., n without gaps. */
  ghost predicate Gapless(t: Table) {
    forall task, k :: k in Numbers(t, task) <==> 1 <= k <= |Numbers(t, task)|
  }

  /** What a caller read was a number of rows then; every lost race is a row someone else added. */
  ghost predicate CallerOk(t: Table, c: Inserter) {
    match c
    case Idle => true
    case Reading(task, tries, since) =>
      tries <= INSERT_RETRIES && since + (INSERT_RETRIES - tries) <= |Numbers(t, task)|
    case Inserting(task, seen, tries, since) =>
      seen <= |Numbers(t, task)| && tries <= INSERT_RETRIES && since + (INSERT_RETRIES - tries) <= seen
    case Opened(task, no) => no in Numbers(t, task)
    case GaveUp(task, since) => since + INSERT_RETRIES <= |Numbers(t, task)|
  }

  ghost predicate CallersConsistent(t: Table) {
    forall w :: CallerOk(t, CallerAt(t, w))
  }

  ghost predicate DistinctTickets(t: Table) {
    forall v, w :: CallerAt(t, v).Opened? && CallerAt(t, v) == CallerAt(t, w) ==> v == w
  }

  lemma GreatestIsCount(t: Table, task: string)
    requires Gapless(t)
    ensures MaxOf(Numbers(t, task)) == |Numbers(t, task)|
  {
    var n := |Numbers(t, task)|;
    assert n > 0 ==> n in Numbers(t, task);
  }

  /** An insert that passes the uniqueness check adds the next number. */
  lemma InsertIsNext(t: Table, w: nat)
    requires Gapless(t) && CallersConsistent(t) && CallerAt(t, w).Inserting?
    requires CallerAt(t, w).seen + 1 !in Numbers(t, CallerAt(t, w).task)
    ensures CallerAt(t, w).seen == |Numbers(t, CallerAt(t, w).task)|
  {
    assert CallerOk(t, CallerAt(t, w));
  }

  lemma StepKeepsGapless(t: Table, w: nat, a: Action)
    requires Gapless(t) && CallersConsistent(t)
    ensures Gapless(Step(t, w, a))
  {
    var u, c := Step(t, w, a), CallerAt(t, w);
    if c.Inserting? && a == Insert && c.tries > 0 && c.seen + 1 !in Numbers(t, c.task) {
      InsertIsNext(t, w);
      assert Numbers(u, c.task) == Numbers(t, c.task) + {c.seen + 1};
      assert |Numbers(u, c.task)| == c.seen + 1;
      forall task, k ensures k in Numbers(u, task) <==> 1 <= k <= |Numbers(u, task)| {
        if task != c.task {
          assert Numbers(u, task) == Numbers(t, task);
        }
        assert k in Numbers(t, task) <==> 1 <= k <= |Numbers(t, task)|;
      }
    } else {
      assert forall task :: Numbers(u, task) == Numbers(t, task);
    }
  }

  lemma RowsOnlyGrow(t: Table, w: nat, a: Action, task: string)
    ensures Numbers(t, task) <= Numbers(Step(t, w, a), task)
    ensures |Numbers(t, task)| <= |Numbers(Step(t, w, a), task)|
  {
    var u, c := Step(t, w, a), CallerAt(t, w);
    if c.Inserting? && task == c.task && Numbers(u, task) != Numbers(t, task) {
      assert Numbers(u, task) == Numbers(t, task) + {c.seen + 1};
    }
  }

  lemma OwnStepKeepsCaller(t: Table, w: nat, a: Action)
    requires Gapless(t) && CallerOk(t, CallerAt(t, w))
    ensures CallerOk(Step(t, w, a), CallerAt(Step(t, w, a), w))
  {
    var c := CallerAt(t, w);
    if c.Reading? {
      GreatestIsCount(t, c.task);
    }
  }

  lemma StepKeepsCallers(t: Table, w: nat, a: Action)
    requires Gapless(t) && CallersConsistent(t)
    ensures CallersConsistent(Step(t, w, a))
  {
    var u := Step(t, w, a);
    forall v ensures CallerOk(u, CallerAt(u, v)) {
      assert CallerOk(t, CallerAt(t, v));
      if v == w {
        OwnStepKeepsCaller(t, w, a);
      } else {
        assert CallerAt(u, v) == CallerAt(t, v);
        var task := if CallerAt(t, v).Idle? then "" else CallerAt(t, v).task;
        RowsOnlyGrow(t, w, a, task);
      }
    }
  }

  lemma StepKeepsTickets(t: Table, w: nat, a: Action)
    requires Gapless(t) && CallersConsistent(t) && DistinctTickets(t)
    ensures DistinctTickets(Step(t, w, a))
  {
    var u := Step(t, w, a);
    assert forall v :: v != w ==> CallerAt(u, v) == CallerAt(t, v);
  }

  /** However inserts race, the attempts of each task are numbered exactly 1..n, no number is
      handed out twice, and giving up means at least as many rows of that task were added by
      others during the call as there are retries. */
  lemma {:induction false} NumberingSurvivesRaces(t: Table, run: seq<(nat, Action)>)
    requires Gapless(t) && CallersConsistent(t) && DistinctTickets(t)
    ensures Gapless(Exec(t, run)) && CallersConsistent(Exec(t, run)) && DistinctTickets(Exec(t, run))
    decreases |run|
  {
    if run != [] {
      StepKeepsGapless(t, run[0].0, run[0].1);
      StepKeepsCallers(t, run[0].0, run[0].1);
      StepKeepsTickets(t, run[0].0, run[0].1);
      NumberingSurvivesRaces(Step(t, run[0].0, run[0].1), run[1..]);
    }
  }

  /** A caller nobody interferes with gets the next number. */
  lemma UndisturbedInsert(t: Table, w: nat, task: string)
    requires Gapless(t) && CallerAt(t, w) == Idle
    ensures var n := |Numbers(t, task)| + 1;
            var u := Step(Step(Step(t, w, Begin(task)), w, ReadMax), w, Insert);
            && CallerAt(u, w) == Opened(task, n) && Numbers(u, task) == Numbers(t, task) + {n}
            && forall v :: v != w ==> CallerAt(u, v) == CallerAt(t, v)
  {
    GreatestIsCount(t, task);
    var a := Step(t, w, Begin(task));
    assert Numbers(a, task) == Numbers(t, task);
    var b := Step(a, w, ReadMax);
    assert Numbers(b, task) == Numbers(t, task) && CallerAt(b, w).Inserting?;
    assert |Numbers(t, task)| + 1 !in Numbers(t, task);
  }

  /** A lost race costs one of the eight tries and no row; with none left the caller gives up. */
  lemma LosingCostsATry(t: Table, w: nat)
    ensures CallerAt(t, w).Inserting? && CallerAt(t, w).tries > 0
            && CallerAt(t, w).seen + 1 in Numbers(t, CallerAt(t, w).task) ==>
              var c, u := CallerAt(t, w), Step(t, w, Insert);
              CallerAt(u, w) == Reading(c.task, c.tries - 1, c.since) && u.rows == t.rows
    ensures CallerAt(t, w).Reading? ==>
              var c, u := CallerAt(t, w), Step(t, w, ReadMax);
              u.rows == t.rows && (CallerAt(u, w).GaveUp? <==> c.tries == 0)
  {
  }

  lemma ThreeSteps(t: Table, w: nat, a: Action, b: Action, c: Action)
    ensures Exec(t, [(w, a), (w, b), (w, c)]) == Step(Step(Step(t, w, a), w, b), w, c)
  {
    var run: seq<(nat, Action)> := [(w, a), (w, b), (w, c)];
    assert run[1..] == [(w, b), (w, c)] && run[1..][1..] == [(w, c)] && run[1..][1..][1..] == [];
    var u := Step(Step(t, w, a), w, b);
    assert Exec(u, [(w, c)]) == Exec(Step(u, w, c), []);
  }

  lemma {:induction false} ExecSplits(t: Table, first: seq<(nat, Action)>, rest: seq<(nat, Action)>)
    ensures Exec(t, first + rest) == Exec(Exec(t, first), rest)
    decreases |first|
  {
    if first == [] {
      assert first + rest == rest;
    } else {
      assert (first + rest)[1..] == first[1..] + rest;
      ExecSplits(Step(t, first[0].0, first[0].1), first[1..], rest);
    }
  }

  lemma StartsWell()
    ensures var t := Table(map[], map[]); Gapless(t) && CallersConsistent(t) && DistinctTickets(t)
  {
  }

  /** Callers one after another fill a task with as many attempts as there are callers. */
  lemma {:induction false} AttemptsPileUp(task: string, n: nat) returns (run: seq<(nat, Action)>)
    ensures var t := Exec(Table(map[], map[]), run);
            && Gapless(t) && |Numbers(t, task)| == n && forall w :: w >= n ==> CallerAt(t, w) == Idle
  {
    run := [];
    if n > 0 {
      var before := AttemptsPileUp(task, n - 1);
      var t := Exec(Table(map[], map[]), before);
      var more := [(n - 1, Begin(task)), (n - 1, ReadMax), (n - 1, Insert)];
      run := before + more;
      ExecSplits(Table(map[], map[]), before, more);
      ThreeSteps(t, n - 1, Begin(task), ReadMax, Insert);
      assert n !in Numbers(t, task);
      UndisturbedInsert(t, n - 1, task);
      StartsWell();
      NumberingSurvivesRaces(Table(map[], map[]), run);
    }
  }

  /** Giving up means that at least eight rows of the task came in during the call. */
  lemma GivingUpMeansEight(t: Table, w: nat)
    requires CallersConsistent(t) && CallerAt(t, w).GaveUp?
    ensures |Numbers(t, CallerAt(t, w).task)| >= CallerAt(t, w).since + 8
  {
    assert CallerOk(t, CallerAt(t, w));
  }

  // ---------- what one dispatch leaves behind ----------

  predicate HarnessFault(v: Verdict) {
    exists c :: c in v.claims && c.check == "harness"
  }

  predicate UpstreamBroke(row: Attempt) {
    exists v :: v in row.verdicts && HarnessFault(v)
  }

  /** The rows of one dispatch: a single undispatched escalation, or rounds of one task of which
      all but the last were sent back and the last was merged or escalated. */
  ghost predicate DispatchTrace(rows: seq<Attempt>) {
    && (forall i :: 0 <= i < |rows| ==> rows[i].task == rows[0].task)
    && (forall i :: 0 <= i < |rows| - 1 ==> rows[i].dispatched && rows[i].resolution == Reworked)
    && (rows != [] ==> rows[|rows| - 1].resolution in {Merged, Escalated})
    && (|rows| > 1 ==> rows[|rows| - 1].dispatched)
    && (|rows| == 1 && !rows[0].dispatched ==> rows[0].resolution == Escalated)
  }

  function Concat(traces: seq<seq<Attempt>>): seq<Attempt> {
    if traces == [] then [] else Concat(traces[..|traces| - 1]) + traces[|traces| - 1]
  }

  function ReworkRounds(traces: seq<seq<Attempt>>): nat {
    if traces == [] then 0
    else ReworkRounds(traces[..|traces| - 1]) + if traces[|traces| - 1] == [] then 0 else |traces[|traces| - 1]| - 1
  }

  /** Rows that were dispatched and sent back, either for a broken upstream or for a finding. */
  function CountReworked(rows: seq<Attempt>, upstream: bool): nat {
    if rows == [] then 0
    else
      var row := rows[|rows| - 1];
      CountReworked(rows[..|rows| - 1], upstream)
      + if row.dispatched && row.resolution == Reworked && UpstreamBroke(row) == upstream then 1 else 0
  }

  lemma {:induction false} CountReworkedAppend(a: seq<Attempt>, b: seq<Attempt>, upstream: bool)
    ensures CountReworked(a + b, upstream) == CountReworked(a, upstream) + CountReworked(b, upstream)
  {
    if b == [] {
      assert a + b == a;
    } else {
      assert (a + b)[..|a + b| - 1] == a + b[..|b| - 1];
      CountReworkedAppend(a, b[..|b| - 1], upstream);
    }
  }

  lemma {:induction false} AllReworked(rows: seq<Attempt>)
    requires forall i :: 0 <= i < |rows| ==> rows[i].dispatched && rows[i].resolution == Reworked
    ensures CountReworked(rows, true) + CountReworked(rows, false) == |rows|
  {
    if rows != [] {
      AllReworked(rows[..|rows| - 1]);
    }
  }

  lemma TraceReworks(rows: seq<Attempt>)
    requires DispatchTrace(rows)
    ensures CountReworked(rows, true) + CountReworked(rows, false) == if rows == [] then 0 else |rows| - 1
  {
    if rows != [] {
      AllReworked(rows[..|rows| - 1]);
    }
  }

  /** Over dispatches one after another, the rework figure and the upstream figure of gate 3
      together are exactly the extra rounds that were run. */
  lemma {:induction false} InSequence(traces: seq<seq<Attempt>>)
    requires forall t :: t in traces ==> DispatchTrace(t)
    ensures CountReworked(Concat(traces), true) + CountReworked(Concat(traces), false) == ReworkRounds(traces)
  {
    if traces != [] {
      var init, last := traces[..|traces| - 1], traces[|traces| - 1];
      InSequence(init);
      TraceReworks(last);
      CountReworkedAppend(Concat(init), last, true);
      CountReworkedAppend(Concat(init), last, false);
    }
  }

  function CountOne(row: Attempt, upstream: bool): nat {
    if row.dispatched && row.resolution == Reworked && UpstreamBroke(row) == upstream then 1 else 0
  }

  /** Taking out one row takes out its own contribution, wherever it stands. */
  lemma CountWithout(rows: seq<Attempt>, k: nat, upstream: bool)
    requires k < |rows|
    ensures CountReworked(rows, upstream)
            == CountReworked(rows[..k] + rows[k + 1..], upstream) + CountOne(rows[k], upstream)
  {
    assert rows == rows[..k] + ([rows[k]] + rows[k + 1..]);
    CountReworkedAppend(rows[..k], [rows[k]] + rows[k + 1..], upstream);
    CountReworkedAppend([rows[k]], rows[k + 1..], upstream);
    CountReworkedAppend(rows[..k], rows[k + 1..], upstream);
    assert [rows[k]][..0] == [];
  }

  /** The rows that were dispatched and sent back, and whether some claim named `harness` on them. */
  function Reworks(rows: seq<Attempt>, upstream: bool): set<int> {
    set i | 0 <= i < |rows| && IsRework(rows[i], upstream)
  }

  predicate IsRework(row: Attempt, upstream: bool) {
    row.dispatched && row.resolution == Reworked && NamesHarness(row) == upstream
  }

  predicate NamesHarness(row: Attempt) {
    exists v, c {:trigger c in v.claims, v in row.verdicts} ::
      v in row.verdicts && c in v.claims && c.check == "harness"
  }

  /** The figure is the number of those rows. */
  lemma {:induction false} CountIs(rows: seq<Attempt>, upstream: bool)
    ensures CountReworked(rows, upstream) == |Reworks(rows, upstream)|
    decreases |rows|
  {
    if rows != [] {
      var init, last := rows[..|rows| - 1], rows[|rows| - 1];
      CountIs(init, upstream);
      assert rows == init + [last];
      OneReworkMore(init, last, upstream);
    }
  }

  lemma OneReworkMore(init: seq<Attempt>, last: Attempt, upstream: bool)
    ensures |Reworks(init + [last], upstream)| == |Reworks(init, upstream)| + CountOne(last, upstream)
  {
    BrokeIs(last);
    ReworksGrow(init, last, upstream);
    assert |init| !in Reworks(init, upstream);
  }

  lemma ReworksGrow(init: seq<Attempt>, last: Attempt, upstream: bool)
    ensures Reworks(init + [last], upstream) ==
            Reworks(init, upstream) + if IsRework(last, upstream) then {|init|} else {}
  {
    var rows := init + [last];
    forall i | 0 <= i < |rows| ensures rows[i] == if i < |init| then init[i] else last {}
  }

  lemma BrokeIs(row: Attempt)
    ensures UpstreamBroke(row) <==> NamesHarness(row)
  {
    if v, c {:trigger c in v.claims, v in row.verdicts} :|
      v in row.verdicts && c in v.claims && c.check == "harness"
    {
      assert HarnessFault(v);
    }
  }

  lemma WithoutOne(rows: seq<Attempt>, k: nat)
    requires k < |rows|
    ensures multiset(rows[..k] + rows[k + 1..]) == multiset(rows) - multiset{rows[k]}
  {
    assert rows == rows[..k] + [rows[k]] + rows[k + 1..];
  }

  lemma Partner(a: seq<Attempt>, b: seq<Attempt>) returns (k: nat)
    requires a != [] && multiset(a) == multiset(b)
    ensures k < |b| && b[k] == a[0] && multiset(a[..0] + a[1..]) == multiset(b[..k] + b[k + 1..])
  {
    assert a[0] in multiset(a);
    k :| k < |b| && b[k] == a[0];
    WithoutOne(a, 0);
    WithoutOne(b, k);
  }

  /** The figures depend on which rows were written, not on their order. */
  lemma {:induction false} CountIgnoresOrder(a: seq<Attempt>, b: seq<Attempt>, upstream: bool)
    requires multiset(a) == multiset(b)
    ensures CountReworked(a, upstream) == CountReworked(b, upstream)
    decreases |a|
  {
    if a == [] {
      assert |multiset(b)| == |b|;
    } else {
      var k := Partner(a, b);
      CountWithout(a, 0, upstream);
      CountWithout(b, k, upstream);
      CountIgnoresOrder(a[..0] + a[1..], b[..k] + b[k + 1..], upstream);
    }
  }

  /** The audit was written by these dispatches, in whatever order their rows came. */
  ghost predicate WrittenBy(rows: seq<Attempt>, traces: seq<seq<Attempt>>) {
    (forall t :: t in traces ==> DispatchTrace(t)) && multiset(rows) == multiset(Concat(traces))
  }

  /** Over any audit written by dispatches, one after another or side by side, the rework figure
      and the upstream figure of gate 3 together are exactly the extra rounds that were run. */
  lemma ReworkPlusUpstreamIsExtraRounds(rows: seq<Attempt>, traces: seq<seq<Attempt>>)
    requires WrittenBy(rows, traces)
    ensures CountReworked(rows, true) + CountReworked(rows, false) == ReworkRounds(traces)
  {
    CountIgnoresOrder(rows, Concat(traces), true);
    CountIgnoresOrder(rows, Concat(traces), false);
    InSequence(traces);
  }

  // ---------- counting per task and summing up ----------

  /** The sum of the values of a map. */
  ghost function Sum(m: map<string, nat>): nat
    decreases |m|
  {
    if m == map[] then 0
    else
      var k :| k in m;
      m[k] + Sum(m - {k})
  }

  lemma {:induction false} SumWithout(m: map<string, nat>, k: string)
    requires k in m
    ensures Sum(m) == m[k] + Sum(m - {k})
    decreases |m|
  {
    var j :| j in m && Sum(m) == m[j] + Sum(m - {j});
    if j != k {
      SumWithout(m - {j}, k);
      SumWithout(m - {k}, j);
      assert m - {j} - {k} == m - {k} - {j};
    }
  }

  lemma SumUpdate(m: map<string, nat>, k: string, v: nat)
    ensures Sum(m[k := v]) == v + if k in m then Sum(m) - m[k] else Sum(m)
    ensures k in m ==> m[k] <= Sum(m)
  {
    SumWithout(m[k := v], k);
    assert m[k := v] - {k} == m - {k};
    if k in m {
      SumWithout(m, k);
    } else {
      assert m - {k} == m;
    }
  }

  function DispatchedTasks(rows: seq<Attempt>): set<string> {
    set row | row in rows && row.dispatched :: row.task
  }

  /** Counts one row of a dispatch. */
  method Tally(reworks: map<string, nat>, row: Attempt) returns (r: map<string, nat>, upstream: nat)
    ensures r.Keys == reworks.Keys + if row.dispatched then {row.task} else {}
    ensures Sum(r) == Sum(reworks)
                      + if row.dispatched && row.resolution == Reworked && !UpstreamBroke(row) then 1 else 0
    ensures upstream == if row.dispatched && row.resolution == Reworked && UpstreamBroke(row) then 1 else 0
  {
    r, upstream := reworks, 0;
    if row.dispatched {
      if row.task !in r {
        SumUpdate(r, row.task, 0);
        r := r[row.task := 0];
      }
      if row.resolution == Reworked {
        if UpstreamBroke(row) {
          upstream := 1;
        } else {
          SumUpdate(r, row.task, r[row.task] + 1);
          r := r[row.task := r[row.task] + 1];
        }
      }
    }
  }

  /** gate3_rework: rework rounds per task, upstream failures apart. */
  method Gate3Rework(rows: seq<Attempt>) returns (reworks: map<string, nat>, upstream: nat)
    ensures reworks.Keys == DispatchedTasks(rows)
    ensures Sum(reworks) == CountReworked(rows, false)
    ensures upstream == CountReworked(rows, true)
    ensures forall traces :: WrittenBy(rows, traces) ==> Sum(reworks) + upstream == ReworkRounds(traces)
  {
    reworks, upstream := map[], 0;
    for i := 0 to |rows|
      invariant reworks.Keys == DispatchedTasks(rows[..i])
      invariant Sum(reworks) == CountReworked(rows[..i], false)
      invariant upstream == CountReworked(rows[..i], true)
    {
      assert rows[..i + 1] == rows[..i] + [rows[i]];
      assert rows[..i + 1][..i] == rows[..i];
      var broken;
      reworks, broken := Tally(reworks, rows[i]);
      upstream := upstream + broken;
    }
    assert rows[..|rows|] == rows;
    forall traces | WrittenBy(rows, traces) ensures Sum(reworks) + upstream == ReworkRounds(traces) {
      ReworkPlusUpstreamIsExtraRounds(rows, traces);
    }
  }
}
