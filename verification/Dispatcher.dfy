/** The dispatch-and-judge loop. The worker is an adversary: what it leaves behind in each round
    is arbitrary. Gates, grading and supervisors enter as arbitrary functions and reports. */
module Dispatcher {
  import opened Audit

  datatype Class = A | B | C | D

  function Severity(c: Class): nat {
    match c case A => 0 case B => 1 case C => 2 case D => 3
  }

  /** Only A and B may run without a human. */
  predicate Unmanned(c: Class) {
    c == A || c == B
  }

  datatype Outcome = Merge | Escalate | HardGate

  /** A gate compares with its value before dispatch or looks for something never allowed. */
  datatype Gate<!Repo> =
    | Differential(name: string, probe: Repo -> string, breached: (string, string) -> bool)
    | Absolute(name: string, finds: (Repo, seq<string>) -> bool)

  /** One round as the worker and the supervisors make it. */
  datatype Round<Repo> = Round(repo: Repo, ok: bool, stalled: bool, changed: seq<string>, reviews: seq<Verdict>)

  datatype Task = Task(id: string, maxRounds: int, specResolves: bool)

  /** What a task is judged by: gates, acceptance criteria and the grading of changed paths. */
  datatype Judge<!Repo> = Judge(gates: seq<Gate<Repo>>, criteria: Repo -> seq<string>, grade: seq<string> -> Class)

  const STALL_STREAK_LIMIT: nat := 2
  const ERROR_PREFIX := "supervisor-"

  // ---------- merging the reports of one round ----------

  predicate IsFault(c: Claim) {
    ERROR_PREFIX <= c.check
  }

  /** Claims of gating reports that are faults of the supervisor itself. */
  function Faults(reports: seq<Verdict>): seq<Claim> {
    if reports == [] then []
    else
      var r := reports[|reports| - 1];
      Faults(reports[..|reports| - 1]) + if r.role == Beacon then [] else Pick(r.claims, true)
  }

  /** Findings: those of the architecture supervisor when soft, of all others when not. */
  function Findings(reports: seq<Verdict>, soft: bool): seq<Claim> {
    if reports == [] then []
    else
      var r := reports[|reports| - 1];
      Findings(reports[..|reports| - 1], soft)
      + if r.role == Beacon || (r.role == Architecture) != soft then [] else Pick(r.claims, false)
  }

  function Pick(claims: seq<Claim>, faults: bool): seq<Claim> {
    if claims == [] then []
    else
      var c := claims[|claims| - 1];
      Pick(claims[..|claims| - 1], faults) + if IsFault(c) == faults then [c] else []
  }

  datatype Merger = Merger(blocking: bool, feedback: seq<Claim>, faults: seq<Claim>)

  /** The claims of one report: the faults of the supervisor itself, and its findings. */
  method SplitClaims(claims: seq<Claim>) returns (faults: seq<Claim>, findings: seq<Claim>)
    ensures faults == Pick(claims, true) && findings == Pick(claims, false)
  {
    faults, findings := [], [];
    for j := 0 to |claims|
      invariant faults == Pick(claims[..j], true) && findings == Pick(claims[..j], false)
    {
      assert claims[..j + 1][..j] == claims[..j];
      if IsFault(claims[j]) {
        faults := faults + [claims[j]];
      } else {
        findings := findings + [claims[j]];
      }
    }
    assert claims[..|claims|] == claims;
  }

  method MergeReports(reports: seq<Verdict>, isLast: bool) returns (m: Merger)
    ensures m.faults == Faults(reports)
    ensures m.feedback == Findings(reports, false) + if isLast then [] else Findings(reports, true)
    ensures m.blocking <==> !Approved(reports, isLast)
  {
    var faults, hard, soft := [], [], [];
    for i := 0 to |reports|
      invariant faults == Faults(reports[..i])
      invariant hard == Findings(reports[..i], false) && soft == Findings(reports[..i], true)
    {
      var r := reports[i];
      assert reports[..i + 1][..i] == reports[..i];
      if r.role != Beacon {
        var own, findings := SplitClaims(r.claims);
        faults := faults + own;
        if r.role == Architecture {
          soft := soft + findings;
        } else {
          hard := hard + findings;
        }
      }
    }
    assert reports[..|reports|] == reports;
    var feedback := hard;
    if soft != [] && !isLast {
      feedback := feedback + soft;
    }
    ApprovedMeansNothingPicked(reports, isLast);
    m := Merger(feedback != [] || faults != [], feedback, faults);
  }

  /** No gating report carries a claim, but for architecture findings in the last round. */
  ghost predicate Approved(reports: seq<Verdict>, isLast: bool) {
    forall r, c {:trigger r in reports, c in r.claims} :: r in reports && r.role != Beacon && c in r.claims ==>
      r.role == Architecture && isLast && !IsFault(c)
  }

  lemma {:induction false} PickMembers(claims: seq<Claim>, faults: bool)
    ensures forall c :: c in Pick(claims, faults) <==> c in claims && IsFault(c) == faults
  {
    if claims != [] {
      PickMembers(claims[..|claims| - 1], faults);
      assert claims == claims[..|claims| - 1] + [claims[|claims| - 1]];
    }
  }

  lemma {:induction false} FaultMembers(reports: seq<Verdict>)
    ensures forall c {:trigger c in Faults(reports)} :: c in Faults(reports) <==>
              exists r :: r in reports && r.role != Beacon && c in r.claims && IsFault(c)
  {
    if reports != [] {
      var init, last := reports[..|reports| - 1], reports[|reports| - 1];
      FaultMembers(init);
      PickMembers(last.claims, true);
      assert forall r :: r in reports <==> r in init || r == last;
    }
  }

  lemma {:induction false} FindingMembers(reports: seq<Verdict>, soft: bool)
    ensures forall c {:trigger c in Findings(reports, soft)} :: c in Findings(reports, soft) <==>
              exists r :: r in reports && r.role != Beacon && (r.role == Architecture) == soft
                          && c in r.claims && !IsFault(c)
  {
    if reports != [] {
      var init, last := reports[..|reports| - 1], reports[|reports| - 1];
      FindingMembers(init, soft);
      PickMembers(last.claims, false);
      assert forall r :: r in reports <==> r in init || r == last;
    }
  }

  lemma SomeClaim(cs: seq<Claim>)
    ensures cs == [] || exists c :: c in cs
  {
    if cs != [] {
      assert cs[0] in cs;
    }
  }

  lemma ApprovedMeansNothingPicked(reports: seq<Verdict>, isLast: bool)
    ensures Approved(reports, isLast) <==>
              Faults(reports) == [] && Findings(reports, false) == [] && (isLast || Findings(reports, true) == [])
  {
    FaultMembers(reports);
    FindingMembers(reports, false);
    FindingMembers(reports, true);
    var f, h, s := Faults(reports), Findings(reports, false), Findings(reports, true);
    SomeClaim(f);
    SomeClaim(h);
    SomeClaim(s);
    if f == [] && h == [] && (isLast || s == []) {
      forall r, c {:trigger r in reports, c in r.claims} | r in reports && r.role != Beacon && c in r.claims
        ensures r.role == Architecture && isLast && !IsFault(c)
      {
        assert c !in Faults(reports) && c !in Findings(reports, false);
        assert !isLast ==> c !in Findings(reports, true);
      }
    }
  }

  /** Merging looks at claims only: a failed gating report is let through exactly when it names
      nothing that gates, so a report that fails without a claim never blocks. */
  lemma OnlyClaimsBlock(reports: seq<Verdict>, r: Verdict, isLast: bool)
    requires Approved(reports, isLast)
    ensures Approved(reports + [r], isLast) <==>
              r.role == Beacon || r.claims == []
              || (r.role == Architecture && isLast && forall c :: c in r.claims ==> !IsFault(c))
  {
    var all := reports + [r];
    assert r in all;
    if Approved(all, isLast) && r.role != Beacon && r.claims != [] {
      assert r.claims[0] in r.claims;
    }
    if r.role == Beacon || r.claims == []
       || (r.role == Architecture && isLast && forall c :: c in r.claims ==> !IsFault(c)) {
      forall x, c | x in all && x.role != Beacon && c in x.claims
        ensures x.role == Architecture && isLast && !IsFault(c)
      {
        assert x in reports || x == r;
      }
    }
  }

  // ---------- judging one round ----------

  function Snapshot<Repo>(gates: seq<Gate<Repo>>, repo: Repo): (s: seq<string>)
    ensures |s| == |gates|
  {
    seq(|gates|, i requires 0 <= i < |gates| => if gates[i].Differential? then gates[i].probe(repo) else "")
  }

  predicate Breaches<Repo>(gate: Gate<Repo>, before: string, repo: Repo, changed: seq<string>) {
    match gate
    case Differential(_, probe, breached) => breached(before, probe(repo))
    case Absolute(_, finds) => finds(repo, changed)
  }

  /** The first gate in order that stops the round; |gates| when none does. */
  function FirstBreach<Repo>(gates: seq<Gate<Repo>>, before: seq<string>, repo: Repo, changed: seq<string>,
                             i: nat): (k: nat)
    requires |before| == |gates| && i <= |gates|
    ensures i <= k <= |gates|
    ensures forall j :: i <= j < k ==> !Breaches(gates[j], before[j], repo, changed)
    ensures k < |gates| ==> Breaches(gates[k], before[k], repo, changed)
    decreases |gates| - i
  {
    if i == |gates| || Breaches(gates[i], before[i], repo, changed) then i
    else FirstBreach(gates, before, repo, changed, i + 1)
  }

  function Blocked(check: string): Verdict {
    Verdict(Regression, true, [Claim(check, "")])
  }

  /** The reports of one round; `before` and `criteria` are those taken ahead of round 1. */
  function Review<Repo>(j: Judge<Repo>, before: seq<string>, criteria: seq<string>, e: Round<Repo>): seq<Verdict>
    requires |before| == |j.gates|
  {
    if !e.ok then [Blocked("harness")]
    else if e.changed == [] then [Blocked("diff")]
    else
      var k := FirstBreach(j.gates, before, e.repo, e.changed, 0);
      if k < |j.gates| then [Blocked(j.gates[k].name)]
      else if criteria != j.criteria(e.repo) then [Blocked("spec-criteria-mutated")]
      else e.reviews
  }

  // ---------- the meaning of a whole dispatch ----------

  /** Everything one dispatch depends on. */
  datatype Case<!Repo> = Case(j: Judge<Repo>, start: Repo, rounds: nat -> Round<Repo>, maxRounds: int)

  function ReviewIn<Repo>(c: Case<Repo>, r: nat): seq<Verdict> {
    Review(c.j, Snapshot(c.j.gates, c.start), c.j.criteria(c.start), c.rounds(r))
  }

  /** Stalls in a row up to and including round r. */
  function StallsAt<Repo>(c: Case<Repo>, r: nat): nat {
    if r == 0 || !c.rounds(r).stalled then 0 else 1 + StallsAt(c, r - 1)
  }

  function Post<Repo>(c: Case<Repo>, r: nat): Class {
    c.j.grade(c.rounds(r).changed)
  }

  function Worse(a: Class, b: Class): Class {
    if Severity(b) > Severity(a) then b else a
  }

  /** The grade after round r: the worst seen so far. */
  function GradeAt<Repo>(c: Case<Repo>, pre: Class, r: nat): Class {
    if r == 0 then pre else Worse(GradeAt(c, pre, r - 1), Post(c, r))
  }

  /** Round r merges: nothing of what the task is judged by was touched since before round 1,
      the changed paths are still graded A or B, and no report stands against it. */
  ghost predicate Passes<Repo>(c: Case<Repo>, r: nat) {
    var e := c.rounds(r);
    && StallsAt(c, r) < STALL_STREAK_LIMIT
    && Post(c, r) in {A, B}
    && e.ok && e.changed != []
    && (forall k :: 0 <= k < |c.j.gates| ==>
          !Breaches(c.j.gates[k], Snapshot(c.j.gates, c.start)[k], e.repo, e.changed))
    && c.j.criteria(e.repo) == c.j.criteria(c.start)
    && Approved(e.reviews, r == c.maxRounds)
  }

  /** Round r is the last one that is played. */
  ghost predicate Ends<Repo>(c: Case<Repo>, r: nat) {
    || StallsAt(c, r) >= STALL_STREAK_LIMIT
    || Post(c, r) in {C, D}
    || Approved(ReviewIn(c, r), r == c.maxRounds)
    || Faults(ReviewIn(c, r)) != []
  }

  lemma BlockedBlocks(check: string, isLast: bool)
    ensures !Approved([Blocked(check)], isLast)
  {
    var reports := [Blocked(check)];
    var r := reports[0];
    assert r in reports && r.claims[0] in r.claims;
    assert r.role == Regression;
  }

  lemma ApprovedReviewMeansPass<Repo>(c: Case<Repo>, r: nat)
    ensures Passes(c, r) <==>
              StallsAt(c, r) < STALL_STREAK_LIMIT && Unmanned(Post(c, r)) && Approved(ReviewIn(c, r), r == c.maxRounds)
  {
    var e, before := c.rounds(r), Snapshot(c.j.gates, c.start);
    var k := FirstBreach(c.j.gates, before, e.repo, e.changed, 0);
    forall name: string ensures !Approved([Blocked(name)], r == c.maxRounds) {
      BlockedBlocks(name, r == c.maxRounds);
    }
    if e.ok && e.changed != [] && k < |c.j.gates| {
      assert Breaches(c.j.gates[k], before[k], e.repo, e.changed);
    }
  }

  /** A gate that compares for plain difference has, when a round merges, the value it had
      before round 1, whatever happened in between. */
  lemma MergedMeansUntouched<Repo>(c: Case<Repo>, r: nat, k: nat)
    requires Passes(c, r) && k < |c.j.gates| && c.j.gates[k].Differential?
    requires forall a, b :: c.j.gates[k].breached(a, b) <==> a != b
    ensures c.j.gates[k].probe(c.rounds(r).repo) == c.j.gates[k].probe(c.start)
  {
    assert !Breaches(c.j.gates[k], Snapshot(c.j.gates, c.start)[k], c.rounds(r).repo, c.rounds(r).changed);
  }

  lemma {:induction false} GradeNeverDecreases<Repo>(c: Case<Repo>, pre: Class, q: nat, r: nat)
    requires q <= r
    ensures Severity(GradeAt(c, pre, q)) <= Severity(GradeAt(c, pre, r))
    ensures 1 <= q ==> Severity(Post(c, q)) <= Severity(GradeAt(c, pre, r))
  {
    if q < r {
      GradeNeverDecreases(c, pre, q, r - 1);
    }
  }

  /** The grade after r rounds is the worst of the declared one and those of the changes. */
  lemma {:induction false} GradeIsTheWorst<Repo>(c: Case<Repo>, pre: Class, r: nat)
    ensures GradeAt(c, pre, r) == A <==> pre == A && forall q :: 1 <= q <= r ==> Post(c, q) == A
    ensures GradeAt(c, pre, r) in {A, B} <==> pre in {A, B} && forall q :: 1 <= q <= r ==> Post(c, q) in {A, B}
    ensures GradeAt(c, pre, r) == D <==> pre == D || exists q :: 1 <= q <= r && Post(c, q) == D
  {
    if r > 0 {
      GradeIsTheWorst(c, pre, r - 1);
    }
  }

  /** The stall breaker acts exactly when this call and the one before have stalled, or the streak
      had reached two before. */
  lemma StalledOut<Repo>(c: Case<Repo>, r: nat)
    requires forall q :: 1 <= q < r ==> StallsAt(c, q) < STALL_STREAK_LIMIT
    ensures StallsAt(c, r) >= STALL_STREAK_LIMIT <==> r >= 2 && c.rounds(r).stalled && c.rounds(r - 1).stalled
  {
    if r >= 1 {
      assert StallsAt(c, r) == if c.rounds(r).stalled then 1 + StallsAt(c, r - 1) else 0;
    }
    if r >= 2 {
      assert StallsAt(c, r - 1) < STALL_STREAK_LIMIT;
      assert StallsAt(c, r - 1) == if c.rounds(r - 1).stalled then 1 + StallsAt(c, r - 2) else 0;
    }
  }

  /** A claim is a fault of the supervisor exactly when its check is called `supervisor-` something. */
  lemma FaultsByName(c: Claim)
    ensures IsFault(c) <==> exists rest :: c.check == "supervisor-" + rest
  {
    if IsFault(c) {
      assert c.check == "supervisor-" + c.check[|ERROR_PREFIX|..];
    }
  }

  /** A worker that failed, or changed nothing, is told so and nothing else. */
  lemma FailureIsNamed<Repo>(c: Case<Repo>, r: nat)
    ensures !c.rounds(r).ok ==> Sent(c, r, "harness")
    ensures c.rounds(r).ok && c.rounds(r).changed == [] ==> Sent(c, r, "diff")
  {
    NotAFault("harness");
    NotAFault("diff");
  }

  /** The first gate that is breached is named, and no other. */
  lemma BreachIsNamed<Repo>(c: Case<Repo>, r: nat, k: nat)
    requires c.rounds(r).ok && c.rounds(r).changed != []
    requires k < |c.j.gates| && BreachedFirst(c, r, k) && !IsFault(Claim(c.j.gates[k].name, ""))
    ensures Sent(c, r, c.j.gates[k].name)
  {
    BreachIsFirst(c, r, k);
    OnlyFinding(c.j.gates[k].name);
  }

  /** When all gates are passed, changed criteria are named; else the supervisors are heard. */
  lemma ChangedCriteriaAreNamed<Repo>(c: Case<Repo>, r: nat)
    requires c.rounds(r).ok && c.rounds(r).changed != [] && BreachedFirst(c, r, |c.j.gates|)
    ensures if c.j.criteria(c.rounds(r).repo) != c.j.criteria(c.start) then Sent(c, r, "spec-criteria-mutated")
            else ReviewIn(c, r) == c.rounds(r).reviews
  {
    BreachIsFirst(c, r, |c.j.gates|);
    NotAFault("spec-criteria-mutated");
  }

  lemma NotAFault(check: string)
    requires |check| >= 2 && (check[0] != 's' || check[1] != 'u')
    ensures Findings([Blocked(check)], false) == [Claim(check, "")]
  {
    assert ERROR_PREFIX[0] == 's' && ERROR_PREFIX[1] == 'u';
    OnlyFinding(check);
  }

  /** The worker is told just that. */
  predicate Sent<Repo>(c: Case<Repo>, r: nat, check: string) {
    Findings(ReviewIn(c, r), false) == [Claim(check, "")]
  }

  /** The gates before the k-th are passed, and the k-th is not, if there is one. */
  ghost predicate BreachedFirst<Repo>(c: Case<Repo>, r: nat, k: nat)
    requires k <= |c.j.gates|
  {
    var e, before := c.rounds(r), Snapshot(c.j.gates, c.start);
    && (forall i :: 0 <= i < k ==> !Breaches(c.j.gates[i], before[i], e.repo, e.changed))
    && (k < |c.j.gates| ==> Breaches(c.j.gates[k], before[k], e.repo, e.changed))
  }

  lemma BreachIsFirst<Repo>(c: Case<Repo>, r: nat, k: nat)
    requires k <= |c.j.gates| && BreachedFirst(c, r, k)
    ensures FirstBreach(c.j.gates, Snapshot(c.j.gates, c.start), c.rounds(r).repo, c.rounds(r).changed, 0) == k
  {
  }

  lemma OnlyFinding(check: string)
    requires !IsFault(Claim(check, ""))
    ensures Findings([Blocked(check)], false) == [Claim(check, "")]
  {
    var reports := [Blocked(check)];
    assert reports[..0] == [] && Findings(reports[..0], false) == [];
    var claims := [Claim(check, "")];
    assert claims[..0] == [] && Pick(claims[..0], false) == [];
    assert Pick(claims, false) == claims;
  }

  /** While rounds go on the grade stays A or B. */
  lemma {:induction false} GradeStaysUnmanned<Repo>(c: Case<Repo>, pre: Class, r: nat)
    requires Unmanned(pre) && forall q :: 1 <= q <= r ==> Unmanned(Post(c, q))
    ensures Unmanned(GradeAt(c, pre, r))
  {
    if r > 0 {
      GradeStaysUnmanned(c, pre, r - 1);
    }
  }

  // ---------- the dispatcher ----------

  datatype Report = Report(outcome: Outcome, rounds: int, grade: Class, feedback: seq<Claim>)
  datatype Decision = GoOn(feedback: seq<Claim>) | Stop(outcome: Outcome, why: seq<Claim>)

  function NextNo(rows: seq<Attempt>, task: string): nat {
    if rows == [] then 1
    else
      var rest, last := NextNo(rows[..|rows| - 1], task), rows[|rows| - 1];
      if last.task == task && last.no >= rest then last.no + 1 else rest
  }

  /** An attempt is numbered one past the highest number of its task, starting with one. */
  lemma {:induction false} NextNoIs(rows: seq<Attempt>, task: string)
    ensures forall i :: 0 <= i < |rows| && rows[i].task == task ==> rows[i].no < NextNo(rows, task)
    ensures NextNo(rows, task) == 1
            || exists i :: 0 <= i < |rows| && rows[i].task == task && rows[i].no + 1 == NextNo(rows, task)
  {
    if rows != [] {
      var k := |rows| - 1;
      NextNoIs(rows[..k], task);
      assert forall i :: 0 <= i < k ==> rows[..k][i] == rows[i];
      var rest := NextNo(rows[..k], task);
      if rest != 1 && !(rows[k].task == task && rows[k].no >= rest) {
        var i :| 0 <= i < k && rows[..k][i].task == task && rows[..k][i].no + 1 == rest;
        assert rows[i].no + 1 == NextNo(rows, task);
      }
    }
  }

  class Dispatcher<Repo(0)> {
    const judge: Judge<Repo>
    const declared: Class
    var audit: seq<Attempt>
    /** The feedback handed to the worker with each call of the harness. */
    var prompts: seq<seq<Claim>>

    constructor (judge: Judge<Repo>, declared: Class)
      ensures this.judge == judge && this.declared == declared && audit == [] && prompts == []
    {
      this.judge, this.declared := judge, declared;
      audit, prompts := [], [];
    }

    method OpenAttempt(task: string, dispatched: bool)
      modifies this`audit
      ensures audit == old(audit) + [Attempt(task, NextNo(old(audit), task), dispatched, Pending, [])]
    {
      audit := audit + [Attempt(task, NextNo(audit, task), dispatched, Pending, [])];
    }

    /** Settles the newest attempt. */
    method Finalize(resolution: Resolution, verdicts: seq<Verdict>)
      requires audit != []
      modifies this`audit
      ensures |audit| == |old(audit)| && audit[..|audit| - 1] == old(audit)[..|audit| - 1]
      ensures audit[|audit| - 1] == old(audit)[|audit| - 1].(resolution := resolution, verdicts := verdicts)
    {
      audit := audit[|audit| - 1 := audit[|audit| - 1].(resolution := resolution, verdicts := verdicts)];
    }

    /** A task that is never dispatched still leaves one escalated row. */
    method RecordBlocked(task: string, check: string)
      modifies this`audit
      ensures audit == old(audit) + [Attempt(task, NextNo(old(audit), task), false, Escalated,
                                             [Verdict(Risk, true, [Claim(check, "")])])]
    {
      OpenAttempt(task, false);
      Finalize(Escalated, [Verdict(Risk, true, [Claim(check, "")])]);
    }

    /** What an ended round gives as the reason: the faults of the supervisors, if that ended it. */
    static ghost function WhyEnded(c: Case<Repo>, r: nat): seq<Claim> {
      if StallsAt(c, r) < STALL_STREAK_LIMIT && Post(c, r) in {A, B} && !Passes(c, r) then Faults(ReviewIn(c, r))
      else []
    }

    /** The verdicts of a round: none after the stalls, else the risk verdict, and the reports unless
        the risk stopped it. */
    static ghost predicate Recorded(c: Case<Repo>, declared: Class, r: nat, verdicts: seq<Verdict>)
      requires 1 <= r
    {
      if StallsAt(c, r) >= STALL_STREAK_LIMIT then verdicts == []
      else
        && verdicts != []
        && verdicts[0] == (if Severity(Post(c, r)) > Severity(GradeAt(c, declared, r - 1))
                           then Verdict(Risk, true, [Claim("post-diff-grading", "")]) else Verdict(Risk, false, []))
        && verdicts[1..] == (if Post(c, r) in {A, B} then ReviewIn(c, r) else [])
    }

    /** A round whose worker failed counts as broken upstream; one with sound work does not unless a
        supervisor says so. */
    static lemma UpstreamIsTheWorker(c: Case<Repo>, declared: Class, r: nat, row: Attempt)
      requires 1 <= r && Recorded(c, declared, r, row.verdicts)
      requires StallsAt(c, r) < STALL_STREAK_LIMIT && Post(c, r) in {A, B}
      ensures !c.rounds(r).ok ==> UpstreamBroke(row)
      ensures ReviewIn(c, r) == c.rounds(r).reviews && (forall v :: v in c.rounds(r).reviews ==> !HarnessFault(v)) ==>
                !UpstreamBroke(row)
    {
      var vs := row.verdicts;
      assert vs == [vs[0]] + vs[1..];
      if !c.rounds(r).ok {
        var blocked := Blocked("harness");
        assert vs[1] == blocked && blocked in vs && blocked.claims[0] in blocked.claims;
        assert HarnessFault(blocked);
      }
      assert "post-diff-grading" != "harness";
    }

    /** What a round has to be judged to be, whatever the worker did. */
    static ghost predicate Judged(c: Case<Repo>, declared: Class, r: nat, grade: Class,
                                  d: Decision, newGrade: Class, newStalls: nat)
      requires 1 <= r
    {
      && newStalls == StallsAt(c, r)
      && newGrade == (if StallsAt(c, r) >= STALL_STREAK_LIMIT then grade else GradeAt(c, declared, r))
      && (d.Stop? <==> Ends(c, r))
      && (d.Stop? ==>
            && (d.outcome == Merge <==> Passes(c, r))
            && (d.outcome == HardGate <==> StallsAt(c, r) < STALL_STREAK_LIMIT && Post(c, r) == D)
            && d.why == WhyEnded(c, r))
      && (d.GoOn? ==>
            d.feedback == Findings(ReviewIn(c, r), false)
                          + if r == c.maxRounds then [] else Findings(ReviewIn(c, r), true))
    }

    /** Judges what the worker left: stalls first, then the grade of what it changed, then the reports. */
    method JudgeRound(ghost c: Case<Repo>, e: Round<Repo>, r: nat, isLast: bool, before: seq<string>,
                      criteria: seq<string>, grade: Class, stalls: nat)
      returns (d: Decision, newGrade: Class, newStalls: nat, verdicts: seq<Verdict>)
      requires 1 <= r && c.j == judge && e == c.rounds(r) && isLast == (r == c.maxRounds)
      requires before == Snapshot(judge.gates, c.start) && criteria == judge.criteria(c.start)
      requires stalls == StallsAt(c, r - 1) && grade == GradeAt(c, declared, r - 1) && Unmanned(grade)
      ensures Judged(c, declared, r, grade, d, newGrade, newStalls) && Recorded(c, declared, r, verdicts)
    {
      ApprovedReviewMeansPass(c, r);
      newGrade := grade;
      newStalls := if e.stalled then stalls + 1 else 0;
      if e.stalled && newStalls >= STALL_STREAK_LIMIT {
        return Stop(Escalate, []), newGrade, newStalls, [];
      }
      var post := judge.grade(e.changed);
      var risk := Verdict(Risk, false, []);
      if Severity(post) > Severity(grade) {
        newGrade := post;
        risk := Verdict(Risk, true, [Claim("post-diff-grading", "")]);
        if !Unmanned(post) {
          return Stop(if post == D then HardGate else Escalate, []), newGrade, newStalls, [risk];
        }
      }
      var reports := Review(judge, before, criteria, e);
      var merged := MergeReports(reports, isLast);
      d := if !merged.blocking then Stop(Merge, [])
           else if merged.faults != [] then Stop(Escalate, merged.faults)
           else GoOn(merged.feedback);
      verdicts := [risk] + reports;
    }

    /** One round: hand the feedback to the worker, judge what it left, settle the attempt. */
    method PlayRound(task: Task, ghost c: Case<Repo>, e: Round<Repo>, r: nat, before: seq<string>,
                     criteria: seq<string>, grade: Class, stalls: nat, feedback: seq<Claim>)
      returns (d: Decision, newGrade: Class, newStalls: nat)
      requires 1 <= r && c.j == judge && c.maxRounds == task.maxRounds && e == c.rounds(r)
      requires before == Snapshot(judge.gates, c.start) && criteria == judge.criteria(c.start)
      requires stalls == StallsAt(c, r - 1) && grade == GradeAt(c, declared, r - 1) && Unmanned(grade)
      modifies this
      ensures |audit| == |old(audit)| + 1 && audit[..|old(audit)|] == old(audit)
      ensures prompts == old(prompts) + [feedback]
      ensures Judged(c, declared, r, grade, d, newGrade, newStalls)
      ensures var row := audit[|old(audit)|];
              && row.task == task.id && row.dispatched && row.no == NextNo(old(audit), task.id)
              && Recorded(c, declared, r, row.verdicts)
              && row.resolution == (if d.GoOn? then (if r == c.maxRounds then Escalated else Reworked)
                                    else if d.outcome == Merge then Audit.Merged else Escalated)
    {
      OpenAttempt(task.id, true);
      prompts := prompts + [feedback];
      var verdicts;
      d, newGrade, newStalls, verdicts := JudgeRound(c, e, r, r == task.maxRounds, before, criteria, grade, stalls);
      Finalize(if d.Stop? then (if d.outcome == Merge then Audit.Merged else Escalated)
               else if r == task.maxRounds then Escalated else Reworked, verdicts);
    }

    static ghost predicate RowOk(task: Task, c: Case<Repo>, declared: Class, row: Attempt, r: nat)
      requires r >= 1
    {
      row.task == task.id && row.dispatched && Recorded(c, declared, r, row.verdicts)
    }

    /** What the loop has written after n rounds: one dispatched row and one call of the harness
        each, every call after the first carrying what the round before was sent back for. */
    static ghost predicate Written(task: Task, c: Case<Repo>, declared: Class,
                                   rows: seq<Attempt>, calls: seq<seq<Claim>>,
                                   was: seq<Attempt>, asked: seq<seq<Claim>>, n: nat)
    {
      && |rows| == |was| + n && was <= rows && RowsOk(task, c, declared, rows, |was|)
      && |calls| == |asked| + n && asked <= calls && CallsOk(c, calls, |asked|)
    }

    static ghost predicate RowsOk(task: Task, c: Case<Repo>, declared: Class, rows: seq<Attempt>, from: nat) {
      forall i :: from <= i < |rows| ==> RowOk(task, c, declared, rows[i], i - from + 1)
    }

    static ghost predicate CallsOk(c: Case<Repo>, calls: seq<seq<Claim>>, from: nat) {
      forall k :: from <= k < |calls| ==> calls[k] == FeedbackOf(c, k - from)
    }

    static lemma WrittenOneMore(task: Task, c: Case<Repo>, declared: Class,
                                rows: seq<Attempt>, calls: seq<seq<Claim>>,
                                was: seq<Attempt>, asked: seq<seq<Claim>>, n: nat, row: Attempt)
      requires Written(task, c, declared, rows, calls, was, asked, n) && row.task == task.id && row.dispatched
      requires Recorded(c, declared, n + 1, row.verdicts)
      ensures Written(task, c, declared, rows + [row], calls + [FeedbackOf(c, n)], was, asked, n + 1)
    {
      RowsOkMore(task, c, declared, rows, |was|, row);
      CallsOkMore(c, calls, |asked|, n);
    }

    static lemma RowsOkMore(task: Task, c: Case<Repo>, declared: Class, rows: seq<Attempt>, from: nat, row: Attempt)
      requires from <= |rows| && RowsOk(task, c, declared, rows, from)
      requires RowOk(task, c, declared, row, |rows| - from + 1)
      ensures RowsOk(task, c, declared, rows + [row], from)
    {
      forall i | from <= i < |rows + [row]| ensures RowOk(task, c, declared, (rows + [row])[i], i - from + 1) {
        assert i < |rows| ==> (rows + [row])[i] == rows[i];
      }
    }

    static lemma CallsOkMore(c: Case<Repo>, calls: seq<seq<Claim>>, from: nat, n: nat)
      requires |calls| == from + n && CallsOk(c, calls, from)
      ensures CallsOk(c, calls + [FeedbackOf(c, n)], from)
    {
      var more := calls + [FeedbackOf(c, n)];
      forall k | from <= k < |more| ensures more[k] == FeedbackOf(c, k - from) {
        assert more[k] == if k < |calls| then calls[k] else FeedbackOf(c, n);
      }
    }

    static function FeedbackOf(c: Case<Repo>, r: nat): seq<Claim> {
      if r == 0 then [] else Findings(ReviewIn(c, r), false) + Findings(ReviewIn(c, r), true)
    }

    /** What the worker is told after a round: nothing before the first, and then just what gating
        supervisors found, their own faults left out, with what is found in the architecture last. */
    static lemma FeedbackIs(c: Case<Repo>, r: nat) returns (k: nat)
      ensures FeedbackOf(c, 0) == []
      ensures forall x :: x in FeedbackOf(c, r) <==>
                r > 0 && exists v :: v in ReviewIn(c, r) && v.role != Beacon && x in v.claims && !IsFault(x)
      ensures k <= |FeedbackOf(c, r)|
      ensures forall x :: x in FeedbackOf(c, r)[..k] ==>
                exists v :: v in ReviewIn(c, r) && v.role != Beacon && v.role != Architecture && x in v.claims
      ensures forall x :: x in FeedbackOf(c, r)[k..] ==>
                exists v :: v in ReviewIn(c, r) && v.role == Architecture && x in v.claims
    {
      if r == 0 { return 0; }
      var reports := ReviewIn(c, r);
      FindingMembers(reports, false);
      FindingMembers(reports, true);
      k := |Findings(reports, false)|;
      assert FeedbackOf(c, r)[..k] == Findings(reports, false) && FeedbackOf(c, r)[k..] == Findings(reports, true);
      forall x, v | v in reports && v.role != Beacon && x in v.claims && !IsFault(x) ensures x in FeedbackOf(c, r) {
        assert x in Findings(reports, v.role == Architecture);
      }
    }

    /** All rows from `from` on but the one at `last` were sent back. */
    static ghost predicate SentBack(rows: seq<Attempt>, from: nat, last: int) {
      forall i :: from <= i < |rows| && i != last ==> rows[i].resolution == Reworked
    }

    static predicate Settled(rows: seq<Attempt>) {
      rows != [] && (rows[|rows| - 1].resolution == Audit.Merged || rows[|rows| - 1].resolution == Escalated)
    }

    /** The meaning of a finished loop. */
    static ghost predicate Finished(c: Case<Repo>, declared: Class, report: Report, n: nat)
    {
      && n <= (if c.maxRounds < 0 then 0 else c.maxRounds)
      && (forall r :: 1 <= r < n ==> !Ends(c, r))
      && (n == c.maxRounds || (n >= 1 && Ends(c, n)) || (n == 0 && c.maxRounds <= 0))
      && (report.outcome == Merge <==> n >= 1 && Passes(c, n))
      && (report.outcome == HardGate <==> n >= 1 && StallsAt(c, n) < STALL_STREAK_LIMIT && Post(c, n) == D)
      && report.grade == (if n >= 1 && StallsAt(c, n) >= STALL_STREAK_LIMIT then GradeAt(c, declared, n - 1)
                          else GradeAt(c, declared, n))
      && report.feedback == (if n == 0 then [] else if Ends(c, n) then WhyEnded(c, n)
                             else Findings(ReviewIn(c, n), false))
    }

    /** At least one round is played when any is allowed, and the last is the first that ends. */
    static lemma RoundsPlayed(c: Case<Repo>, declared: Class, report: Report, n: nat)
      requires Finished(c, declared, report, n)
      ensures if c.maxRounds <= 0 then n == 0
              else 1 <= n <= c.maxRounds && (n < c.maxRounds ==> Ends(c, n)) && forall r :: 1 <= r < n ==> !Ends(c, r)
    {
    }

    /** The round is reached, and it meets this. */
    static ghost predicate Reached(c: Case<Repo>, r: nat) {
      1 <= r <= c.maxRounds && forall q :: 1 <= q < r ==> !Ends(c, q)
    }

    static lemma LastIsReached(c: Case<Repo>, declared: Class, report: Report, n: nat, r: nat)
      requires Finished(c, declared, report, n) && Reached(c, r) && Ends(c, r)
      ensures n == r
    {
    }

    /** A task is merged exactly when some round passes and none before it ends, and stopped by the
        hard gate exactly when some round that is reached leaves changes of class D. */
    static lemma MergesWhen(c: Case<Repo>, declared: Class, report: Report, n: nat)
      requires Finished(c, declared, report, n)
      ensures report.outcome == Merge <==> exists r :: Reached(c, r) && Passes(c, r)
      ensures report.outcome == HardGate <==>
                exists r :: Reached(c, r) && StallsAt(c, r) < STALL_STREAK_LIMIT && Post(c, r) == D
    {
      if n >= 1 { assert Reached(c, n); }
      if r :| Reached(c, r) && Passes(c, r) {
        ApprovedReviewMeansPass(c, r);
        LastIsReached(c, declared, report, n, r);
      }
      if r :| Reached(c, r) && StallsAt(c, r) < STALL_STREAK_LIMIT && Post(c, r) == D {
        LastIsReached(c, declared, report, n, r);
      }
    }

    /** Rounds 1 to n all went on. */
    static ghost predicate AllWentOn(c: Case<Repo>, n: nat) {
      forall r :: 1 <= r <= n ==> !Ends(c, r)
    }

    static function Rounds(report: Report): nat {
      if report.rounds < 0 then 0 else report.rounds
    }

    static lemma TraceShape(task: Task, c: Case<Repo>, declared: Class,
                            rows: seq<Attempt>, calls: seq<seq<Claim>>,
                            was: seq<Attempt>, asked: seq<seq<Claim>>, n: nat)
      requires Written(task, c, declared, rows, calls, was, asked, n) && SentBack(rows, |was|, |was| + n - 1)
      requires n >= 1 ==> Settled(rows)
      ensures DispatchTrace(rows[|was|..])
    {
      var trace := rows[|was|..];
      forall i | 0 <= i < |trace|
        ensures trace[i] == rows[|was| + i] && trace[i].task == task.id && trace[i].dispatched
      {
        assert RowOk(task, c, declared, rows[|was| + i], |was| + i - |was| + 1);
      }
    }

    static lemma PrefixAndLast(rows: seq<Attempt>, init: seq<Attempt>)
      requires |rows| == |init| + 1 && rows[..|init|] == init
      ensures rows == init + [rows[|init|]]
    {
    }

    static lemma OneRowMore(rows: seq<Attempt>, was: nat, n: nat, row: Attempt)
      requires 1 <= n && |rows| == was + n - 1 && SentBack(rows, was, -1)
      requires row.resolution == Reworked || row.resolution == Audit.Merged || row.resolution == Escalated
      ensures SentBack(rows + [row], was, was + n - 1)
      ensures row.resolution != Reworked ==> Settled(rows + [row])
      ensures row.resolution == Reworked ==> SentBack(rows + [row], was, -1)
    {
    }

    /** PlayRound in the course of a loop. */
    method NextRound(task: Task, ghost c: Case<Repo>, e: Round<Repo>, n: nat, before: seq<string>,
                     criteria: seq<string>, grade: Class, stalls: nat, feedback: seq<Claim>,
                     ghost was: seq<Attempt>, ghost asked: seq<seq<Claim>>)
      returns (d: Decision, newGrade: Class, newStalls: nat)
      requires 1 <= n <= task.maxRounds && c.j == judge && c.maxRounds == task.maxRounds && e == c.rounds(n)
      requires before == Snapshot(judge.gates, c.start) && criteria == judge.criteria(c.start)
      requires stalls == StallsAt(c, n - 1) && grade == GradeAt(c, declared, n - 1) && Unmanned(grade)
      requires Written(task, c, declared, audit, prompts, was, asked, n - 1) && SentBack(audit, |was|, -1)
               && feedback == FeedbackOf(c, n - 1)
      modifies this
      ensures Written(task, c, declared, audit, prompts, was, asked, n)
      ensures Judged(c, declared, n, grade, d, newGrade, newStalls)
      ensures SentBack(audit, |was|, |was| + n - 1)
      ensures d.Stop? || n == task.maxRounds ==> Settled(audit)
      ensures d.GoOn? && n < task.maxRounds ==> SentBack(audit, |was|, -1)
    {
      ghost var rows, calls := audit, prompts;
      d, newGrade, newStalls := PlayRound(task, c, e, n, before, criteria, grade, stalls, feedback);
      RoundWritten(task, c, declared, rows, calls, was, asked, n, audit, prompts);
    }

    static lemma RoundWritten(task: Task, c: Case<Repo>, declared: Class,
                              rows: seq<Attempt>, calls: seq<seq<Claim>>, was: seq<Attempt>, asked: seq<seq<Claim>>,
                              n: nat, audit: seq<Attempt>, prompts: seq<seq<Claim>>)
      requires n >= 1 && Written(task, c, declared, rows, calls, was, asked, n - 1) && SentBack(rows, |was|, -1)
      requires |audit| == |rows| + 1 && audit[..|rows|] == rows && prompts == calls + [FeedbackOf(c, n - 1)]
      requires var row := audit[|rows|];
               && row.task == task.id && row.dispatched && Recorded(c, declared, n, row.verdicts)
               && row.resolution in {Reworked, Audit.Merged, Escalated}
      ensures Written(task, c, declared, audit, prompts, was, asked, n) && SentBack(audit, |was|, |was| + n - 1)
      ensures audit[|rows|].resolution != Reworked ==> Settled(audit)
      ensures audit[|rows|].resolution == Reworked ==> SentBack(audit, |was|, -1)
    {
      PrefixAndLast(audit, rows);
      WrittenOneMore(task, c, declared, rows, calls, was, asked, n - 1, audit[|rows|]);
      OneRowMore(rows, |was|, n, audit[|rows|]);
    }

    /** Up to max_rounds rounds against baselines taken once, before the first. */
    method Loop(task: Task, start: Repo, rounds: nat -> Round<Repo>) returns (report: Report)
      requires declared in {A, B}
      modifies this
      ensures var c := Case(judge, start, rounds, task.maxRounds);
              && Finished(c, declared, report, Rounds(report))
              && Written(task, c, declared, audit, prompts, old(audit), old(prompts), Rounds(report))
              && DispatchTrace(audit[|old(audit)|..])
    {
      ghost var c := Case(judge, start, rounds, task.maxRounds);
      ghost var was, asked := audit, prompts;
      var before, criteria := Snapshot(judge.gates, start), judge.criteria(start);
      var feedback: seq<Claim> := [];
      var grade, stalls, n := declared, 0, 0;
      while n < task.maxRounds
        invariant 0 <= n && (n <= task.maxRounds || n == 0)
        invariant Written(task, c, declared, audit, prompts, was, asked, n) && AllWentOn(c, n)
        invariant stalls == StallsAt(c, n) && grade == GradeAt(c, declared, n) && Unmanned(grade)
        invariant n == 0 || n < task.maxRounds ==> feedback == FeedbackOf(c, n) && SentBack(audit, |was|, -1)
        invariant SentBack(audit, |was|, |was| + n - 1)
        invariant n >= 1 && n == task.maxRounds ==> Settled(audit) && feedback == Findings(ReviewIn(c, n), false)
      {
        n := n + 1;
        var d;
        ghost var held := grade;
        d, grade, stalls := NextRound(task, c, rounds(n), n, before, criteria, grade, stalls, feedback, was, asked);
        if d.Stop? {
          TraceShape(task, c, declared, audit, prompts, was, asked, n);
          report := Report(d.outcome, n, grade, d.why);
          StopsHere(c, n, held, d, stalls, report);
          return;
        }
        feedback := d.feedback;
        GoingOn(c, n);
      }
      TraceShape(task, c, declared, audit, prompts, was, asked, n);
      report := Report(Escalate, task.maxRounds, grade, feedback);
      RoundsUsedUp(c, n, report);
    }

    lemma StopsHere(c: Case<Repo>, n: nat, held: Class, d: Decision, stalls: nat, report: Report)
      requires 1 <= n <= c.maxRounds && AllWentOn(c, n - 1) && held == GradeAt(c, declared, n - 1) && d.Stop?
      requires Judged(c, declared, n, held, d, report.grade, stalls)
      requires report.outcome == d.outcome && report.feedback == d.why
      ensures Finished(c, declared, report, n)
    {
    }

    lemma RoundsUsedUp(c: Case<Repo>, n: nat, report: Report)
      requires AllWentOn(c, n) && n == (if c.maxRounds < 0 then 0 else c.maxRounds)
      requires report.outcome == Escalate && report.grade == GradeAt(c, declared, n)
      requires report.feedback == if n == 0 then [] else Findings(ReviewIn(c, n), false)
      ensures Finished(c, declared, report, n)
    {
      if n >= 1 {
        assert !Ends(c, n);
        GoingOn(c, n);
      }
    }

    lemma GoingOn(c: Case<Repo>, n: nat)
      requires n >= 1 && !Ends(c, n)
      ensures !Passes(c, n) && StallsAt(c, n) < STALL_STREAK_LIMIT && Unmanned(Post(c, n))
      ensures Unmanned(GradeAt(c, declared, n - 1)) ==> Unmanned(GradeAt(c, declared, n))
      ensures AllWentOn(c, n - 1) ==> AllWentOn(c, n)
    {
      ApprovedReviewMeansPass(c, n);
    }

    /** A dispatch. Nothing reaches the harness when the declared grade or a dangling
        specification reference forbids it. */
    method Run(task: Task, start: Repo, rounds: nat -> Round<Repo>) returns (report: Report)
      modifies this
      ensures old(audit) <= audit && DispatchTrace(audit[|old(audit)|..])
      ensures declared in {C, D} || !task.specResolves ==>
                && prompts == old(prompts) && report.rounds == 0
                && report.outcome == (if declared == D then HardGate else Escalate)
                && audit == old(audit) + [Attempt(task.id, NextNo(old(audit), task.id), false, Escalated,
                     [Verdict(Risk, true, [Claim(if declared in {C, D} then "pre-dispatch-grading"
                                                 else "pre-dispatch-spec-ref", "")])])]
      ensures declared in {A, B} && task.specResolves ==>
                var c := Case(judge, start, rounds, task.maxRounds);
                && Finished(c, declared, report, Rounds(report))
                && Written(task, c, declared, audit, prompts, old(audit), old(prompts), Rounds(report))
                && (task.maxRounds >= 1 ==> 1 <= Rounds(report) <= task.maxRounds)
                && (report.outcome == Merge <==> exists r :: Reached(c, r) && Passes(c, r))
      ensures |prompts| - |old(prompts)| <= (if task.maxRounds < 0 then 0 else task.maxRounds)
      ensures report.outcome == Merge ==>
                && declared in {A, B} && task.specResolves && 1 <= report.rounds <= task.maxRounds
                && Passes(Case(judge, start, rounds, task.maxRounds), report.rounds)
                && report.grade in {A, B} && Severity(declared) <= Severity(report.grade)
    {
      if !Unmanned(declared) {
        RecordBlocked(task.id, "pre-dispatch-grading");
        return Report(if declared == D then HardGate else Escalate, 0, declared, []);
      }
      if !task.specResolves {
        RecordBlocked(task.id, "pre-dispatch-spec-ref");
        return Report(Escalate, 0, declared, []);
      }
      report := Loop(task, start, rounds);
      MergesWhen(Case(judge, start, rounds, task.maxRounds), declared, report, Rounds(report));
      if report.outcome == Merge {
        var c := Case(judge, start, rounds, task.maxRounds);
        MergedGrade(c, report.rounds);
      }
    }

    /** The harness is not called again once two calls in a row have stalled, once the changed paths
        are graded C or D, or once a supervisor is out of order. */
    static lemma NoCallAfterTheEnd(c: Case<Repo>, declared: Class, report: Report, n: nat, r: nat)
      requires Finished(c, declared, report, n) && 1 <= r < n
      ensures StallsAt(c, r) < STALL_STREAK_LIMIT && Post(c, r) in {A, B} && Faults(ReviewIn(c, r)) == []
      ensures r >= 2 ==> !(c.rounds(r).stalled && c.rounds(r - 1).stalled)
    {
      assert !Ends(c, r);
      match Post(c, r) { case A => case B => case C => case D => }
      assert StallsAt(c, r) == if c.rounds(r).stalled then 1 + StallsAt(c, r - 1) else 0;
    }

    lemma MergedGrade(c: Case<Repo>, n: nat)
      requires Unmanned(declared) && n >= 1 && Passes(c, n) && forall r :: 1 <= r < n ==> !Ends(c, r)
      ensures Unmanned(GradeAt(c, declared, n)) && Severity(declared) <= Severity(GradeAt(c, declared, n))
    {
      forall q | 1 <= q <= n ensures Unmanned(Post(c, q)) {
        if q < n {
          assert !Ends(c, q);
        }
      }
      GradeStaysUnmanned(c, declared, n);
      GradeNeverDecreases(c, declared, 0, n);
    }
  }
}
