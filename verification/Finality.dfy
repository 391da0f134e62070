/** Which queued files can ever be claimed, and so whether what the sweep reports as deadlocked is. */
module Finality {
  import opened Names
  import opened Dependencies
  import opened Queue

  // ---------- the files that can be claimed ----------

  /** Queued and running files whose own name is taken under done/. Merging one gives it a suffix,
      and what is read back from that name is its stem as it stands. */
  function Taken(fs: Fs): set<FileName> {
    set p | p in fs && Live(p.dir) && Path(Done, p.name) in fs :: p.name
  }

  /** Another queued or running file may take the name that this one would get under done/. */
  ghost predicate Contested(fs: Fs, p: Path) {
    exists q, k :: q in fs && Live(q.dir) && q != p && 1 <= k && Candidate(q.name, k) == p.name
  }

  ghost function Takable(fs: Fs): set<FileName> {
    Taken(fs) + set p | p in fs && Live(p.dir) && Contested(fs, p) :: p.name
  }

  function Ids(names: set<FileName>): set<Id> {
    set n | n in names :: IdOf(n)
  }

  /** What can be merged once the queued files X are claimed: the names in `raw` also give their
      stems. */
  function Supply(fs: Fs, X: set<FileName>, raw: set<FileName>): set<Id> {
    Base(fs) + Ids(X) + set n | n in raw && (n in X || Path(Running, n) in fs) :: n.stem
  }

  /** Every queued file whose prerequisites X can supply is in X. */
  ghost predicate Complete(fs: Fs, X: set<FileName>, raw: set<FileName>) {
    && X <= NamesIn(fs, Inbox)
    && forall p :: p in fs && p.dir == Inbox && Satisfied(fs[p].needs, Supply(fs, X, raw)) ==> p.name in X
  }

  /** The least such set. */
  ghost function Claimables(fs: Fs, raw: set<FileName>): (X: set<FileName>)
    ensures X <= NamesIn(fs, Inbox)
  {
    set n | n in NamesIn(fs, Inbox) && forall X :: Complete(fs, X, raw) ==> n in X
  }

  lemma ClaimablesAreLeast(fs: Fs, raw: set<FileName>)
    ensures Complete(fs, Claimables(fs, raw), raw)
    ensures forall X :: Complete(fs, X, raw) ==> Claimables(fs, raw) <= X
  {
    var C := Claimables(fs, raw);
    forall p | p in fs && p.dir == Inbox && Satisfied(fs[p].needs, Supply(fs, C, raw)) ensures p.name in C {
      assert p.name in NamesIn(fs, Inbox);
      forall X | Complete(fs, X, raw) ensures p.name in X {
        assert C <= X;
        SupplyGrows(fs, C, X, raw);
      }
    }
  }

  lemma SupplyGrows(fs: Fs, X: set<FileName>, Y: set<FileName>, raw: set<FileName>)
    requires X <= Y
    ensures Supply(fs, X, raw) <= Supply(fs, Y, raw)
  {
  }

  // ---------- nothing else is ever claimed ----------

  /** A state that a run of claims and finishes can have reached from `start`. */
  ghost predicate Downstream(start: Fs, fs: Fs, raw: set<FileName>) {
    && InboxFrom(start, fs, raw) && RunningFrom(start, fs, raw) && Solo(start, fs)
    && IdsIn(fs, Done) <= Supply(start, Claimables(start, raw), raw)
  }

  /** Nothing has come into the inbox and only claimable files have left it. */
  ghost predicate InboxFrom(start: Fs, fs: Fs, raw: set<FileName>) {
    && (forall p :: p in fs && p.dir == Inbox ==> p in start && start[p] == fs[p])
    && forall p :: p in start && p.dir == Inbox && p.name !in Claimables(start, raw) ==> p in fs
  }

  /** What is running was running or was claimed. */
  ghost predicate RunningFrom(start: Fs, fs: Fs, raw: set<FileName>) {
    && (forall p :: p in fs && p.dir == Running ==> p in start || p.name in Claimables(start, raw))
    && forall n :: Path(Running, n) in fs && Path(Inbox, n) in fs ==> Path(Running, n) in start
  }

  /** A queued or running file whose own name is taken by now had a takable name. */
  ghost predicate Solo(start: Fs, fs: Fs) {
    forall n :: n in Taken(fs) ==> n in Takable(start)
  }

  /** Where a queued or running file was at the start. */
  lemma LiveAtStart(start: Fs, fs: Fs, raw: set<FileName>, p: Path) returns (q: Path)
    requires InboxFrom(start, fs, raw) && RunningFrom(start, fs, raw) && p in fs && Live(p.dir)
    ensures q in start && Live(q.dir) && q.name == p.name
  {
    q := if p in start then p else Path(Inbox, p.name);
    if p !in start {
      assert p.name in NamesIn(start, Inbox);
    }
  }

  lemma ReadyIsClaimable(start: Fs, fs: Fs, raw: set<FileName>, name: FileName)
    requires Downstream(start, fs, raw) && Ready(fs, name)
    ensures name in Claimables(start, raw)
  {
    ClaimablesAreLeast(start, raw);
    assert Path(Inbox, name) in start;
  }

  /** What a merge adds to done/: the identity, or the raw stem when the own name was taken. */
  lemma MergedIdentity(fs: Fs, name: FileName, dst: Path)
    requires Archive(fs, Path(Running, name), Done) == Some((Path(Running, name), dst))
    ensures dst.name == name || (name in Taken(fs) && IdOf(dst.name) == name.stem)
    ensures exists k :: 1 <= k && dst.name == Candidate(name, k)
  {
    var k := Slot(fs, Done, name, 1).value;
    if k >= 2 {
      assert Path(Done, Candidate(name, 1)) in fs;
      SuffixIsStripped(name, k);
    }
  }

  lemma ClaimStaysDownstream(start: Fs, fs: Fs, raw: set<FileName>, name: FileName)
    requires Downstream(start, fs, raw) && Ready(fs, name) && Path(Running, name) !in fs
    ensures Downstream(start, Move(fs, Path(Inbox, name), Path(Running, name)), raw)
  {
    ReadyIsClaimable(start, fs, raw, name);
    var src, dst := Path(Inbox, name), Path(Running, name);
    IdsAfterMove(fs, src, dst, Done);
    var v := Move(fs, src, dst);
    forall n | n in Taken(v) ensures n in Taken(fs) {
      var p :| p in v && Live(p.dir) && Path(Done, p.name) in v && p.name == n;
      assert Path(Done, n) in fs && (if p == dst then src in fs else p in fs);
    }
  }

  lemma FinishStaysDownstream(start: Fs, fs: Fs, raw: set<FileName>, name: FileName, dst: Path)
    requires Downstream(start, fs, raw) && Takable(start) <= raw
    requires Path(Running, name) in fs && dst !in fs && !Live(dst.dir)
    requires dst.dir == Done ==> Archive(fs, Path(Running, name), Done) == Some((Path(Running, name), dst))
    ensures Downstream(start, Move(fs, Path(Running, name), dst), raw)
  {
    var src := Path(Running, name);
    IdsAfterMove(fs, src, dst, Done);
    SoloKept(start, fs, raw, name, dst);
    if dst.dir == Done {
      MergedIdentity(fs, name, dst);
      assert src in start ==> name in NamesIn(start, Running) && IdOf(name) in IdsIn(start, Running);
      assert IdOf(dst.name) in Supply(start, Claimables(start, raw), raw);
    }
  }

  lemma SoloKept(start: Fs, fs: Fs, raw: set<FileName>, name: FileName, dst: Path)
    requires Downstream(start, fs, raw)
    requires Path(Running, name) in fs && dst !in fs && !Live(dst.dir)
    requires dst.dir == Done ==> Archive(fs, Path(Running, name), Done) == Some((Path(Running, name), dst))
    ensures Solo(start, Move(fs, Path(Running, name), dst))
  {
    var v := Move(fs, Path(Running, name), dst);
    forall n | n in Taken(v) ensures n in Takable(start) {
      var p :| p in v && Live(p.dir) && Path(Done, p.name) in v && p.name == n;
      if Path(Done, n) !in fs {
        MergedIdentity(fs, name, dst);
        TakenOnTheWay(start, fs, raw, name, p);
      }
    }
  }

  lemma TakenOnTheWay(start: Fs, fs: Fs, raw: set<FileName>, name: FileName, p: Path)
    requires InboxFrom(start, fs, raw) && RunningFrom(start, fs, raw)
    requires Path(Running, name) in fs && p in fs && Live(p.dir) && p != Path(Running, name)
    requires exists k :: 1 <= k && Candidate(name, k) == p.name
    ensures p.name in Takable(start)
  {
    var k :| 1 <= k && Candidate(name, k) == p.name;
    var q := LiveAtStart(start, fs, raw, Path(Running, name));
    var r := LiveAtStart(start, fs, raw, p);
    if name == p.name {
      q, r := Path(Running, name), p;
    }
    assert q != r && Contested(start, r);
  }

  lemma FinishGoes(fs: Fs, op: Op, src: Path, dst: Path)
    requires op.Finish? && Route(fs, op) == Some((src, dst))
    ensures src == Path(Running, op.name) && src in fs && dst !in fs && !Live(dst.dir)
    ensures op.outcome == Merged ==> dst.dir == Done
    ensures dst.dir == Done ==> Archive(fs, src, Done) == Some((src, dst))
  {
  }

  lemma StepStaysDownstream(start: Fs, w: World, op: Op, raw: set<FileName>)
    requires Downstream(start, w.fs, raw) && Takable(start) <= raw && (op.Claim? || op.Finish?)
    ensures Downstream(start, Apply(w, op).fs, raw)
  {
    if Route(w.fs, op).Some? {
      var src, dst := Route(w.fs, op).value.0, Route(w.fs, op).value.1;
      RouteCounts(w, op, src, dst);
      if op.Claim? {
        ClaimStaysDownstream(start, w.fs, raw, op.name);
      } else {
        FinishGoes(w.fs, op, src, dst);
        FinishStaysDownstream(start, w.fs, raw, op.name, dst);
      }
    }
  }

  lemma {:induction false} RunStaysDownstream(start: Fs, w: World, ops: seq<Op>, raw: set<FileName>)
    requires Downstream(start, w.fs, raw) && Takable(start) <= raw && OnlyClaimsAndFinishes(ops)
    ensures Downstream(start, Exec(w, ops).fs, raw)
    decreases |ops|
  {
    if ops != [] {
      assert ops[0] in ops && forall op :: op in ops[1..] ==> op in ops;
      StepStaysDownstream(start, w, ops[0], raw);
      RunStaysDownstream(start, Apply(w, ops[0]), ops[1..], raw);
    }
  }

  lemma StartIsDownstream(fs: Fs, raw: set<FileName>)
    ensures Downstream(fs, fs, raw)
  {
  }

  /** Whatever is claimed and however it ends, a queued file outside the least set stays queued and
      is never claimable. */
  lemma OthersAreNeverClaimed(w: World, ops: seq<Op>, name: FileName)
    requires Path(Inbox, name) in w.fs && name !in Claimables(w.fs, Takable(w.fs)) && OnlyClaimsAndFinishes(ops)
    ensures Path(Inbox, name) in Exec(w, ops).fs && !Ready(Exec(w, ops).fs, name)
  {
    var raw := Takable(w.fs);
    StartIsDownstream(w.fs, raw);
    RunStaysDownstream(w.fs, w, ops, raw);
    if Ready(Exec(w, ops).fs, name) {
      ReadyIsClaimable(w.fs, Exec(w, ops).fs, raw, name);
    }
  }

  // ---------- all of these can be claimed ----------

  /** The identity of the file has been merged, and its stem as well if its own name was taken. */
  predicate Delivered(start: Fs, fs: Fs, name: FileName) {
    IdOf(name) in IdsIn(fs, Done) && (name in Taken(start) ==> name.stem in IdsIn(fs, Done))
  }

  /** A file is still where it was, or in flight, or merged. */
  predicate Handled(start: Fs, fs: Fs, p: Path)
    requires p in start
  {
    (p in fs && fs[p] == start[p]) || Path(Running, p.name) in fs || Delivered(start, fs, p.name)
  }

  /** A state that a run in which everything merges can have reached. */
  ghost predicate Accounted(start: Fs, fs: Fs) {
    && (forall p :: p in start && p.dir == Done ==> p in fs)
    && IdsIn(start, Done) <= IdsIn(fs, Done)
    && forall p :: p in start && Live(p.dir) ==> Handled(start, fs, p)
  }

  lemma ClaimKeepsAccount(start: Fs, fs: Fs, name: FileName)
    requires Accounted(start, fs) && Path(Inbox, name) in fs && Path(Running, name) !in fs
    ensures Accounted(start, Move(fs, Path(Inbox, name), Path(Running, name)))
  {
    var v := Move(fs, Path(Inbox, name), Path(Running, name));
    IdsAfterMove(fs, Path(Inbox, name), Path(Running, name), Done);
    assert Path(Running, name) in v;
    forall p | p in start && Live(p.dir) ensures Handled(start, v, p) {
      assert Handled(start, fs, p);
    }
  }

  lemma MergeKeepsAccount(start: Fs, fs: Fs, name: FileName, dst: Path)
    requires Accounted(start, fs) && Path(Running, name) in fs
    requires Archive(fs, Path(Running, name), Done) == Some((Path(Running, name), dst))
    ensures Accounted(start, Move(fs, Path(Running, name), dst))
  {
    var v := Move(fs, Path(Running, name), dst);
    IdsAfterMove(fs, Path(Running, name), dst, Done);
    MergeDelivers(start, fs, name, dst);
    forall p | p in start && Live(p.dir) ensures Handled(start, v, p) {
      assert Handled(start, fs, p);
      StillHandled(start, fs, name, dst, p);
    }
  }

  lemma StillHandled(start: Fs, fs: Fs, name: FileName, dst: Path, p: Path)
    requires p in start && Live(p.dir) && Handled(start, fs, p) && Path(Running, name) in fs && dst !in fs
    requires IdsIn(fs, Done) <= IdsIn(Move(fs, Path(Running, name), dst), Done)
    requires Delivered(start, Move(fs, Path(Running, name), dst), name)
    ensures Handled(start, Move(fs, Path(Running, name), dst), p)
  {
    if p.name != name {
      assert p != Path(Running, name) && Path(Running, p.name) != Path(Running, name);
    }
  }

  lemma MergeDelivers(start: Fs, fs: Fs, name: FileName, dst: Path)
    requires forall p :: p in start && p.dir == Done ==> p in fs
    requires Archive(fs, Path(Running, name), Done) == Some((Path(Running, name), dst))
    ensures Delivered(start, Move(fs, Path(Running, name), dst), name)
  {
    IdsAfterMove(fs, Path(Running, name), dst, Done);
    MergedIdentity(fs, name, dst);
    if dst.name != name {
      assert Path(Done, name) in fs;
    } else {
      assert Path(Done, name) !in fs;
    }
  }

  lemma {:induction false} RunKeepsAccount(start: Fs, w: World, ops: seq<Op>)
    requires Accounted(start, w.fs) && EverythingMerges(ops)
    ensures Accounted(start, Exec(w, ops).fs)
    decreases |ops|
  {
    if ops != [] {
      assert ops[0] in ops && forall op :: op in ops[1..] ==> op in ops;
      StepKeepsAccount(start, w, ops[0]);
      RunKeepsAccount(start, Apply(w, ops[0]), ops[1..]);
    }
  }

  lemma StepKeepsAccount(start: Fs, w: World, op: Op)
    requires Accounted(start, w.fs) && (op.Claim? || (op.Finish? && op.outcome == Merged))
    ensures Accounted(start, Apply(w, op).fs)
  {
    if Route(w.fs, op).Some? {
      var src, dst := Route(w.fs, op).value.0, Route(w.fs, op).value.1;
      RouteCounts(w, op, src, dst);
      if op.Claim? {
        ClaimKeepsAccount(start, w.fs, op.name);
      } else {
        FinishGoes(w.fs, op, src, dst);
        MergeKeepsAccount(start, w.fs, op.name, dst);
      }
    }
  }

  lemma {:induction false} InboxUnchanged(w: World, ops: seq<Op>, p: Path)
    requires OnlyClaimsAndFinishes(ops) && p.dir == Inbox && p in Exec(w, ops).fs
    ensures p in w.fs && Exec(w, ops).fs[p] == w.fs[p]
    decreases |ops|
  {
    if ops != [] {
      assert ops[0] in ops && forall op :: op in ops[1..] ==> op in ops;
      InboxUnchanged(Apply(w, ops[0]), ops[1..], p);
      InboxGainsNothing(w, ops[0], p);
    }
  }

  lemma InboxGainsNothing(w: World, op: Op, p: Path)
    requires (op.Claim? || op.Finish?) && p.dir == Inbox && p in Apply(w, op).fs
    ensures p in w.fs && Apply(w, op).fs[p] == w.fs[p]
  {
    if Route(w.fs, op).Some? {
      RouteCounts(w, op, Route(w.fs, op).value.0, Route(w.fs, op).value.1);
    }
  }

  /** In any run in which everything merges and which leaves nothing to do, every file of the least
      set has left the inbox, and all that the set can supply has been merged. */
  lemma ClaimablesGetMerged(w: World, ops: seq<Op>)
    requires EverythingMerges(ops) && Drained(Exec(w, ops).fs)
    ensures var C := Claimables(w.fs, Taken(w.fs));
            && C !! NamesIn(Exec(w, ops).fs, Inbox)
            && Supply(w.fs, C, Taken(w.fs)) <= IdsIn(Exec(w, ops).fs, Done)
  {
    var C, fs := Claimables(w.fs, Taken(w.fs)), Exec(w, ops).fs;
    RunKeepsAccount(w.fs, w, ops);
    GoneIsComplete(w.fs, fs);
    ClaimablesAreLeast(w.fs, Taken(w.fs));
    SupplyGrows(w.fs, C, Gone(w.fs, fs), Taken(w.fs));
    GoneIsDelivered(w.fs, fs);
    forall n | n in C ensures n !in NamesIn(fs, Inbox) {
      if Path(Inbox, n) in fs { InboxUnchanged(w, ops, Path(Inbox, n)); }
    }
  }

  ghost function Gone(start: Fs, fs: Fs): set<FileName> {
    set n | n in NamesIn(start, Inbox) && !(Path(Inbox, n) in fs && fs[Path(Inbox, n)] == start[Path(Inbox, n)])
  }

  lemma GoneIsDelivered(start: Fs, fs: Fs)
    requires Accounted(start, fs) && NamesIn(fs, Running) == {}
    ensures Supply(start, Gone(start, fs), Taken(start)) <= IdsIn(fs, Done)
  {
    forall p | p in start && (p.dir == Running || (p.dir == Inbox && p.name in Gone(start, fs)))
      ensures Delivered(start, fs, p.name)
    {
      assert Handled(start, fs, p);
      assert p.name !in NamesIn(fs, Running);
    }
    forall d | d in IdsIn(start, Running) ensures d in IdsIn(fs, Done) {
      var p :| p in start && p.dir == Running && IdOf(p.name) == d;
    }
    forall n | n in Gone(start, fs) ensures Path(Inbox, n) in start {}
    forall n | n in Taken(start) && Path(Running, n) in start ensures Path(Running, n).dir == Running {}
  }

  lemma GoneIsComplete(start: Fs, fs: Fs)
    requires Accounted(start, fs) && Drained(fs)
    ensures Complete(start, Gone(start, fs), Taken(start))
  {
    GoneIsDelivered(start, fs);
    forall p | p in start && p.dir == Inbox && Satisfied(start[p].needs, Supply(start, Gone(start, fs), Taken(start)))
      ensures p.name in Gone(start, fs)
    {
      assert p.name in NamesIn(start, Inbox) && p == Path(Inbox, p.name);
      assert !Ready(fs, p.name);
    }
  }

  /** A file that left the inbox in a run of claims and finishes was claimable at some point. */
  lemma {:induction false} ClaimedWasReady(w: World, ops: seq<Op>, name: FileName) returns (i: nat)
    requires OnlyClaimsAndFinishes(ops) && Path(Inbox, name) in w.fs && Path(Inbox, name) !in Exec(w, ops).fs
    ensures i <= |ops| && Ready(Exec(w, ops[..i]).fs, name)
    decreases |ops|
  {
    assert ops[0] in ops && forall op :: op in ops[1..] ==> op in ops;
    if Path(Inbox, name) in Apply(w, ops[0]).fs {
      i := ClaimedWasReady(Apply(w, ops[0]), ops[1..], name);
      assert ops[..i + 1][0] == ops[0] && ops[..i + 1][1..] == ops[1..][..i];
      i := i + 1;
    } else {
      i := 0;
    }
  }

  /** With room in done/, every file of the least set is claimable after some run. */
  lemma ClaimablesCanBeClaimed(w: World, name: FileName) returns (ops: seq<Op>)
    requires Room(w.fs) && name in Claimables(w.fs, Taken(w.fs))
    ensures OnlyClaimsAndFinishes(ops) && Ready(Exec(w, ops).fs, name)
  {
    ops := MergingRunExists(w);
    ClaimablesGetMerged(w, ops);
    assert name in NamesIn(w.fs, Inbox);
    var i := ClaimedWasReady(w, ops, name);
    ops := ops[..i];
  }

  // ---------- exactly which ----------

  /** No queued entry depends on the stem of a file whose own name may be taken, but is not yet. */
  ghost predicate Settled(fs: Fs) {
    forall p, n :: p in fs && p.dir == Inbox && n in Takable(fs) - Taken(fs) && n.stem in fs[p].needs ==> Plain(n.stem)
  }

  /** Some run of claims and finishes makes the file claimable. */
  ghost predicate CanBeClaimed(w: World, name: FileName) {
    exists ops :: OnlyClaimsAndFinishes(ops) && Ready(Exec(w, ops).fs, name)
  }

  lemma PlainSupply(fs: Fs, X: set<FileName>, n: FileName)
    requires (n in X || Path(Running, n) in fs) && Plain(n.stem)
    ensures n.stem in Base(fs) + Ids(X)
  {
    if Path(Running, n) in fs { assert IdOf(n) in IdsIn(fs, Running); }
  }

  /** In a settled queue the names that may still be taken make no difference. */
  lemma SettledMeansSame(fs: Fs)
    requires Settled(fs)
    ensures Claimables(fs, Takable(fs)) == Claimables(fs, Taken(fs))
  {
    var C := Claimables(fs, Taken(fs));
    ClaimablesAreLeast(fs, Taken(fs));
    ClaimablesAreLeast(fs, Takable(fs));
    forall p | p in fs && p.dir == Inbox && Satisfied(fs[p].needs, Supply(fs, C, Takable(fs))) ensures p.name in C {
      forall d | d in fs[p].needs ensures d in Supply(fs, C, Taken(fs)) {
        if d !in Supply(fs, C, Taken(fs)) {
          var n :| n in Takable(fs) && (n in C || Path(Running, n) in fs) && n.stem == d;
          PlainSupply(fs, C, n);
        }
      }
    }
    var D := Claimables(fs, Takable(fs));
    forall p | p in fs && p.dir == Inbox && Satisfied(fs[p].needs, Supply(fs, D, Taken(fs))) ensures p.name in D {
      assert Supply(fs, D, Taken(fs)) <= Supply(fs, D, Takable(fs));
    }
    assert Complete(fs, C, Takable(fs)) && Complete(fs, D, Taken(fs));
  }

  /** In a settled queue with room in done/, the files of the least set are exactly those that some
      run of claims and finishes makes claimable. */
  lemma ClaimablesAreExact(w: World, name: FileName)
    requires Room(w.fs) && Settled(w.fs) && Path(Inbox, name) in w.fs
    ensures CanBeClaimed(w, name) <==> name in Claimables(w.fs, Taken(w.fs))
  {
    SettledMeansSame(w.fs);
    if name in Claimables(w.fs, Taken(w.fs)) {
      var ops := ClaimablesCanBeClaimed(w, name);
    } else {
      forall ops | OnlyClaimsAndFinishes(ops) ensures !Ready(Exec(w, ops).fs, name) {
        OthersAreNeverClaimed(w, ops, name);
      }
    }
  }

  // ---------- what the sweep reports ----------

  /** No file of an identity outside ok is claimable after any run of claims and finishes. */
  ghost predicate NeverClaimable(w: World, ok: set<Id>) {
    forall name :: Path(Inbox, name) in w.fs && IdOf(name) !in ok ==> !CanBeClaimed(w, name)
  }

  /** A report of the sweep on a settled queue with room in done/ is final exactly when the least set
      of files has no identity that is reported. */
  lemma ReportsAreFinalWhen(w: World, ok: set<Id>)
    requires Room(w.fs) && Settled(w.fs)
    ensures NeverClaimable(w, ok) <==> Ids(Claimables(w.fs, Taken(w.fs))) <= ok
  {
    var C := Claimables(w.fs, Taken(w.fs));
    forall n | n in C ensures Path(Inbox, n) in w.fs && IdOf(n) in Ids(C) {
      assert n in NamesIn(w.fs, Inbox);
    }
    forall n | Path(Inbox, n) in w.fs ensures CanBeClaimed(w, n) <==> n in C {
      ClaimablesAreExact(w, n);
    }
  }

  /** What the sweep finds runnable, the least set can supply. */
  lemma SweepIsSupplied(fs: Fs, entries: map<Id, FileName>, ok: set<Id>, raw: set<FileName>)
    requires Sweep(fs, entries, ok)
    ensures Base(fs) + ok <= Supply(fs, Claimables(fs, raw), raw)
  {
    var C, g := Claimables(fs, raw), SweepGraph(fs, entries);
    var mine := set id | id in ok && entries[id] in C;
    ClaimablesAreLeast(fs, raw);
    forall id | id in g.Keys && Satisfied(g[id], Base(fs) + mine) ensures id in mine {
      forall d | d in g[id] ensures d in Supply(fs, C, raw) {}
      assert Path(Inbox, entries[id]) in fs && entries[id] in C;
      assert Satisfied(g[id], Base(fs) + ok);
    }
    assert Closed(g, Base(fs), mine);
  }

  /** In any run in which every claimed task merges and which ends with nothing in flight and
      nothing ready, every identity outside the deadlocked set has been merged. */
  lemma RunnableEntriesGetMerged(w: World, ops: seq<Op>, entries: map<Id, FileName>, ok: set<Id>)
    requires Sweep(w.fs, entries, ok)
    requires EverythingMerges(ops) && Drained(Exec(w, ops).fs)
    ensures Base(w.fs) + ok <= IdsIn(Exec(w, ops).fs, Done)
  {
    ClaimablesGetMerged(w, ops);
    SweepIsSupplied(w.fs, entries, ok, Taken(w.fs));
  }

  /** A file that misses nothing but runnable identities is claimable after some run. */
  lemma RunnableFileIsClaimable(w: World, entries: map<Id, FileName>, ok: set<Id>, p: Path) returns (ops: seq<Op>)
    requires Sweep(w.fs, entries, ok) && Room(w.fs)
    requires p in w.fs && p.dir == Inbox && Satisfied(w.fs[p].needs, Base(w.fs) + ok)
    ensures OnlyClaimsAndFinishes(ops) && Ready(Exec(w, ops).fs, p.name)
  {
    SweepIsSupplied(w.fs, entries, ok, Taken(w.fs));
    ClaimablesAreLeast(w.fs, Taken(w.fs));
    ops := ClaimablesCanBeClaimed(w, p.name);
  }

  /** When no entry depends on a raw stem and no file hides behind another of its identity, all
      claimable files have identities that the sweep finds runnable. */
  lemma AnsweredMeansOk(fs: Fs, ok: set<Id>, raw: set<FileName>)
    requires Answers(fs, Base(fs), ok) && NoRawNeeds(fs)
    ensures Ids(Claimables(fs, raw)) <= ok
  {
    var X := set n | n in NamesIn(fs, Inbox) && IdOf(n) in ok;
    ClaimablesAreLeast(fs, raw);
    forall p | p in fs && p.dir == Inbox && Satisfied(fs[p].needs, Supply(fs, X, raw)) ensures p.name in X {
      forall d | d in fs[p].needs ensures d in Base(fs) + ok {
        NeedsNoStem(fs, X, raw, p, d);
      }
      assert p.name in NamesIn(fs, Inbox);
    }
    assert Complete(fs, X, raw);
  }

  lemma RawStemListed(fs: Fs, n: FileName)
    requires n in NamesIn(fs, Inbox) || Path(Running, n) in fs
    ensures Plain(n.stem) || n.stem in RawStems(fs)
  {
    var p := if Path(Running, n) in fs then Path(Running, n) else Path(Inbox, n);
    assert p in fs && Live(p.dir) && p.name == n;
  }

  lemma NeedsNoStem(fs: Fs, X: set<FileName>, raw: set<FileName>, p: Path, d: Id)
    requires NoRawNeeds(fs) && p in fs && p.dir == Inbox && d in fs[p].needs
    requires X <= NamesIn(fs, Inbox) && d in Supply(fs, X, raw)
    ensures d in Base(fs) + Ids(X)
  {
    if d !in Base(fs) + Ids(X) {
      var n :| n in raw && (n in X || Path(Running, n) in fs) && n.stem == d;
      RawStemListed(fs, n);
      if Plain(n.stem) { PlainSupply(fs, X, n); }
    }
  }

  lemma NoRawNeedsSettles(fs: Fs)
    requires NoRawNeeds(fs)
    ensures Settled(fs)
  {
    forall p, n | p in fs && p.dir == Inbox && n in Takable(fs) && n.stem in fs[p].needs ensures Plain(n.stem) {
      var q :| q in fs && Live(q.dir) && q.name == n;
      assert n.stem !in RawStems(fs);
    }
  }

  /** A queued file whose identity the sweep finds deadlocked stays in the inbox and is never
      claimable, whatever is claimed and however it ends, until something is added or revived. */
  lemma DeadlockIsPermanent(w: World, ops: seq<Op>, entries: map<Id, FileName>, ok: set<Id>, name: FileName)
    requires Sweep(w.fs, entries, ok) && Answers(w.fs, Base(w.fs), ok) && NoRawNeeds(w.fs)
    requires Path(Inbox, name) in w.fs && IdOf(name) !in ok
    requires OnlyClaimsAndFinishes(ops)
    ensures Path(Inbox, name) in Exec(w, ops).fs && !Ready(Exec(w, ops).fs, name)
  {
    AnsweredMeansOk(w.fs, ok, Takable(w.fs));
    OthersAreNeverClaimed(w, ops, name);
  }

  /** With room in done/ and no entry that depends on a raw stem, what the sweep reports is final
      exactly when no queued file of a reported identity misses nothing but runnable identities,
      that is, when no such file hides behind another file of its identity. */
  lemma ReportsAreFinal(w: World, entries: map<Id, FileName>, ok: set<Id>)
    requires Sweep(w.fs, entries, ok) && NoRawNeeds(w.fs) && Room(w.fs)
    ensures NeverClaimable(w, ok) <==> Answers(w.fs, Base(w.fs), ok)
  {
    var C := Claimables(w.fs, Taken(w.fs));
    NoRawNeedsSettles(w.fs);
    ReportsAreFinalWhen(w, ok);
    if Answers(w.fs, Base(w.fs), ok) {
      AnsweredMeansOk(w.fs, ok, Taken(w.fs));
    } else {
      var p :| p in w.fs && p.dir == Inbox && Satisfied(w.fs[p].needs, Base(w.fs) + ok) && IdOf(p.name) !in ok;
      SweepIsSupplied(w.fs, entries, ok, Taken(w.fs));
      ClaimablesAreLeast(w.fs, Taken(w.fs));
      assert IdOf(p.name) in Ids(C);
    }
  }

  /** The file stays queued and is never claimable, whatever is claimed and however it ends. */
  ghost predicate StaysQueued(fs: Fs, name: FileName) {
    forall ops :: OnlyClaimsAndFinishes(ops) ==>
      var v := Exec(World(fs, multiset{}, multiset{}), ops).fs;
      Path(Inbox, name) in v && !Ready(v, name)
  }

  lemma UnclaimableStaysQueued(fs: Fs, name: FileName)
    requires Path(Inbox, name) in fs && name !in Claimables(fs, Takable(fs))
    ensures StaysQueued(fs, name)
  {
    forall ops | OnlyClaimsAndFinishes(ops)
      ensures var v := Exec(World(fs, multiset{}, multiset{}), ops).fs;
              Path(Inbox, name) in v && !Ready(v, name)
    {
      OthersAreNeverClaimed(World(fs, multiset{}, multiset{}), ops, name);
    }
  }

  /** In a settled queue with room in done/ that is so exactly for the files outside the least set. */
  lemma StaysQueuedWhen(fs: Fs, name: FileName)
    requires Room(fs) && Settled(fs) && Path(Inbox, name) in fs
    ensures StaysQueued(fs, name) <==> name !in Claimables(fs, Taken(fs))
  {
    SettledMeansSame(fs);
    if name in Claimables(fs, Taken(fs)) {
      var ops := ClaimablesCanBeClaimed(World(fs, multiset{}, multiset{}), name);
    } else {
      UnclaimableStaysQueued(fs, name);
    }
  }

  // ---------- inputs at which a report is not final ----------

  /** Two files of one identity, of which the sweep looks at the later one only: the identity is
      reported although the other file is claimable at once. */
  lemma TwinIsClaimable()
    ensures var first, second := FileName("T", Yaml), FileName("T", Yml);
            var fs: Fs := map[Path(Inbox, first) := Entry(0, []), Path(Inbox, second) := Entry(1, ["X"])];
            Sweep(fs, map["T" := second], {}) && Ready(fs, first) && IdOf(first) == "T"
  {
    var first, second := FileName("T", Yaml), FileName("T", Yml);
    var fs: Fs := map[Path(Inbox, first) := Entry(0, []), Path(Inbox, second) := Entry(1, ["X"])];
    assert Path(Inbox, first) in fs && Path(Inbox, second) in fs;
    assert Render(first) == "T.yaml" && Render(second) == "T.yml";
    assert Before(first, second);
    assert "X" in fs[Path(Inbox, second)].needs;
    var g := SweepGraph(fs, map["T" := second]);
    assert g == map["T" := ["X"]];
    assert Base(fs) == {};
    assert !Satisfied(g["T"], {});
  }
  /** `T.2` is queued again under a name that is taken in done/, and another entry depends on `T.2` as
      it stands. */
  function RawNeed(t: FileName, e: FileName): Fs {
    map[Path(Done, Candidate(t, 2)) := Entry(0, []), Path(Inbox, Candidate(t, 2)) := Entry(1, []),
        Path(Inbox, e) := Entry(2, [Candidate(t, 2).stem])]
  }

  /** The sweep reports that entry, and it is claimable after `T.2` was merged as `T.2.2`. */
  lemma RawNeedIsMet(t: FileName, e: FileName)
    requires Plain(t.stem) && Plain(e.stem) && t.stem != e.stem
    ensures var w := World(RawNeed(t, e), multiset{}, multiset{});
            && Sweep(w.fs, map[t.stem := Candidate(t, 2), e.stem := e], {t.stem})
            && Ready(Exec(w, [Claim(Candidate(t, 2)), Finish(Candidate(t, 2), Merged)]).fs, e)
  {
    RawNeedIsReported(t, e);
    RawNeedGetsReady(t, e);
  }

  lemma RawNeedIsReported(t: FileName, e: FileName)
    requires Plain(t.stem) && Plain(e.stem) && t.stem != e.stem
    ensures Sweep(RawNeed(t, e), map[t.stem := Candidate(t, 2), e.stem := e], {t.stem})
  {
    SuffixIsStripped(t, 2);
    TwoEntries(RawNeed(t, e), Candidate(t, 2), e);
    TwinInDone(RawNeed(t, e), Candidate(t, 2));
    FirstRunsSecondNot(t.stem, e.stem, Candidate(t, 2).stem);
  }

  lemma TwoEntries(fs: Fs, a: FileName, b: FileName)
    requires fs.Keys == {Path(Done, a), Path(Inbox, a), Path(Inbox, b)} && IdOf(a) != IdOf(b)
    ensures Representatives(fs, map[IdOf(a) := a, IdOf(b) := b])
    ensures SweepGraph(fs, map[IdOf(a) := a, IdOf(b) := b])
              == map[IdOf(a) := fs[Path(Inbox, a)].needs, IdOf(b) := fs[Path(Inbox, b)].needs]
  {
  }

  lemma TwinInDone(fs: Fs, a: FileName)
    requires Path(Done, a) in fs && forall p :: p in fs && (p.dir == Done || p.dir == Running) ==> p == Path(Done, a)
    ensures Base(fs) == {IdOf(a)}
  {
  }

  lemma FirstRunsSecondNot(a: Id, b: Id, d: Id)
    requires a != b && d != a && d != b
    ensures LeastClosed(map[a := [], b := [d]], {a}, {a})
  {
    var g: Graph := map[a := [], b := [d]];
    assert d in g[b];
    assert Satisfied(g[a], {});
  }

  lemma RawNeedGetsReady(t: FileName, e: FileName)
    requires Plain(t.stem) && Plain(e.stem) && t.stem != e.stem
    ensures var w := World(RawNeed(t, e), multiset{}, multiset{});
            Ready(Exec(w, [Claim(Candidate(t, 2)), Finish(Candidate(t, 2), Merged)]).fs, e)
  {
    var w, twin := World(RawNeed(t, e), multiset{}, multiset{}), Candidate(t, 2);
    SuffixIsStripped(t, 2);
    assert [Claim(twin), Finish(twin, Merged)][1..] == [Finish(twin, Merged)];
    var a := Apply(w, Claim(twin));
    assert Ready(w.fs, twin) && Path(Running, twin) !in w.fs;
    assert a.fs == Move(w.fs, Path(Inbox, twin), Path(Running, twin));
    assert Path(Running, twin) in a.fs && Path(Done, twin) in a.fs && Path(Inbox, e) in a.fs;
    MergedUnderItsStem(a, twin, e);
    assert Exec(a, [Finish(twin, Merged)]) == Apply(a, Finish(twin, Merged));
  }

  lemma MergedUnderItsStem(w: World, twin: FileName, e: FileName)
    requires Path(Running, twin) in w.fs && Path(Done, twin) in w.fs && Path(Done, Candidate(twin, 2)) !in w.fs
    requires Path(Inbox, e) in w.fs && w.fs[Path(Inbox, e)].needs == [twin.stem]
    ensures Ready(Apply(w, Finish(twin, Merged)).fs, e)
  {
    SuffixIsStripped(twin, 2);
    MergedAsSecond(w, twin);
    IdsAfterMove(w.fs, Path(Running, twin), Path(Done, Candidate(twin, 2)), Done);
  }

  lemma MergedAsSecond(w: World, n: FileName)
    requires Path(Running, n) in w.fs && Path(Done, n) in w.fs && Path(Done, Candidate(n, 2)) !in w.fs
    ensures Apply(w, Finish(n, Merged)).fs == Move(w.fs, Path(Running, n), Path(Done, Candidate(n, 2)))
  {
    assert Slot(w.fs, Done, n, 1) == Slot(w.fs, Done, n, 2) == Some(2);
    RouteCounts(w, Finish(n, Merged), Path(Running, n), Path(Done, Candidate(n, 2)));
  }

  /** A queue that is not settled: `T` is merged and queued again beside `T.2`, so the name `T.2` may
      be taken under done/ before the queued `T.2` gets there. */
  function Unsettled(t: FileName, twin: FileName, e: FileName): Fs {
    map[Path(Done, t) := Entry(0, []), Path(Inbox, t) := Entry(1, []),
        Path(Inbox, twin) := Entry(2, []), Path(Inbox, e) := Entry(3, [twin.stem])]
  }

  /** There the order of the merges decides: an entry outside the least set becomes claimable. */
  lemma OrderDecides(t: FileName, twin: FileName, e: FileName)
    requires Plain(t.stem) && Plain(e.stem) && t.stem != e.stem && twin == Candidate(t, 2)
    ensures var fs := Unsettled(t, twin, e);
            && e !in Claimables(fs, Taken(fs))
            && Ready(Exec(World(fs, multiset{}, multiset{}),
                          [Claim(t), Finish(t, Merged), Claim(twin), Finish(twin, Merged)]).fs, e)
  {
    SuffixIsStripped(t, 2);
    SuffixIsStripped(twin, 2);
    CandidateDiffers(t, 1, 2);
    CandidateDiffers(twin, 1, 2);
    OutsideTheLeastSet(t, twin, e);
    var w := World(Unsettled(t, twin, e), multiset{}, multiset{});
    assert Candidate(twin, 2) != t;
    TwinsInPlace(t, twin, e);
    ReadyInTheEnd(w, t, twin, e);
    FourOps(w, Claim(t), Finish(t, Merged), Claim(twin), Finish(twin, Merged));
  }

  predicate Twins(fs: Fs, t: FileName, twin: FileName, e: FileName) {
    && Path(Inbox, t) in fs && fs[Path(Inbox, t)].needs == [] && Path(Running, t) !in fs
    && Path(Inbox, twin) in fs && fs[Path(Inbox, twin)].needs == [] && Path(Running, twin) !in fs
    && Path(Done, t) in fs && Path(Done, twin) !in fs && Path(Done, Candidate(twin, 2)) !in fs
    && Path(Inbox, e) in fs && fs[Path(Inbox, e)].needs == [twin.stem]
  }

  lemma TwinsInPlace(t: FileName, twin: FileName, e: FileName)
    requires t != twin && e != t && e != twin && Candidate(twin, 2) != t
    ensures Twins(Unsettled(t, twin, e), t, twin, e)
  {
  }

  lemma ReadyInTheEnd(w: World, t: FileName, twin: FileName, e: FileName)
    requires twin == Candidate(t, 2) != t && Candidate(twin, 2) != twin && e != t && e != twin
    requires Twins(w.fs, t, twin, e)
    ensures var v := Apply(Apply(Apply(w, Claim(t)), Finish(t, Merged)), Claim(twin));
            Ready(Apply(v, Finish(twin, Merged)).fs, e)
  {
    MergeThenClaim(w, t, twin);
    var v := Apply(Apply(Apply(w, Claim(t)), Finish(t, Merged)), Claim(twin));
    MergedUnderItsStem(v, twin, e);
  }

  lemma FourOps(w: World, a: Op, b: Op, c: Op, d: Op)
    ensures Exec(w, [a, b, c, d]) == Apply(Apply(Apply(Apply(w, a), b), c), d)
  {
    var v := Apply(Apply(w, a), b);
    assert [a, b, c, d][1..] == [b, c, d] && [b, c, d][1..] == [c, d] && [c, d][1..] == [d] && [d][1..] == [];
    assert Exec(Apply(Apply(v, c), d), []) == Exec(Apply(v, c), [d]) == Exec(v, [c, d]);
    assert Exec(Apply(w, a), [b, c, d]) == Exec(v, [c, d]);
  }

  lemma OutsideTheLeastSet(t: FileName, twin: FileName, e: FileName)
    requires IdOf(t) == IdOf(twin) == t.stem != twin.stem && e != t && e != twin
    ensures var fs := Unsettled(t, twin, e); e !in Claimables(fs, Taken(fs))
  {
    var fs, X := Unsettled(t, twin, e), {t, twin};
    assert Path(Inbox, t) in fs && Path(Inbox, twin) in fs;
    assert Base(fs) + Ids(X) <= {t.stem};
    forall n | n in Taken(fs) ensures n == t {}
    assert Supply(fs, X, Taken(fs)) <= {t.stem} && twin.stem in fs[Path(Inbox, e)].needs;
    assert Complete(fs, X, Taken(fs));
  }

  lemma MergeThenClaim(w: World, t: FileName, twin: FileName)
    requires twin == Candidate(t, 2) && twin != t && Path(Running, t) !in w.fs && Path(Running, twin) !in w.fs
    requires Path(Inbox, t) in w.fs && w.fs[Path(Inbox, t)].needs == []
    requires Path(Inbox, twin) in w.fs && w.fs[Path(Inbox, twin)].needs == []
    requires Path(Done, t) in w.fs && Path(Done, twin) !in w.fs
    ensures Apply(Apply(Apply(w, Claim(t)), Finish(t, Merged)), Claim(twin)).fs
            == w.fs - {Path(Inbox, t), Path(Inbox, twin)}
               + map[Path(Done, twin) := w.fs[Path(Inbox, t)], Path(Running, twin) := w.fs[Path(Inbox, twin)]]
  {
    ClaimMoves(w, t);
    var a := Apply(w, Claim(t));
    MergedAsSecond(a, t);
    ClaimMoves(Apply(a, Finish(t, Merged)), twin);
  }

  lemma ClaimMoves(w: World, n: FileName)
    requires Path(Inbox, n) in w.fs && w.fs[Path(Inbox, n)].needs == [] && Path(Running, n) !in w.fs
    ensures Apply(w, Claim(n)).fs == Move(w.fs, Path(Inbox, n), Path(Running, n))
  {
    assert Ready(w.fs, n);
  }
}
