/** The backlog directories as one map from path to file, the atomic moves of the queue,
    and what holds over whole runs of them. */
module Queue {
  import opened Names
  import opened Dependencies

  datatype Option<+T> = None | Some(value: T)

  datatype Dir = Inbox | Running | Done | NeedsHuman | Blocked
  datatype Path = Path(dir: Dir, name: FileName)
  /** `item` identifies the file; `needs` is its depends_on list, empty when the YAML is unreadable. */
  datatype Entry = Entry(item: nat, needs: seq<Id>)
  type Fs = map<Path, Entry>

  datatype Outcome = Merged | Escalated | BlockedHardGate | Error | Unknown

  /** The one table from dispatch outcomes to archive directories. */
  function OutcomeDir(outcome: Outcome): Option<Dir> {
    match outcome
    case Merged => Some(Done)
    case Escalated => Some(NeedsHuman)
    case BlockedHardGate => Some(Blocked)
    case Error => Some(NeedsHuman)
    case Unknown => None
  }

  function IdOf(name: FileName): Id {
    BaseId(name.stem)
  }

  function NamesIn(fs: Fs, dir: Dir): set<FileName> {
    set p | p in fs && p.dir == dir :: p.name
  }

  function IdsIn(fs: Fs, dir: Dir): set<Id> {
    set p | p in fs && p.dir == dir :: IdOf(p.name)
  }

  /** Everything a sweep for deadlocks counts as satisfied from the start. */
  function Base(fs: Fs): set<Id> {
    IdsIn(fs, Done) + IdsIn(fs, Running)
  }

  predicate Ready(fs: Fs, name: FileName) {
    Path(Inbox, name) in fs && Satisfied(fs[Path(Inbox, name)].needs, IdsIn(fs, Done))
  }

  /** A file leaves src and appears at dst, which was free. */
  /** A claim depends on the file names under done/ as written: each prerequisite is the stem of a
      file there, or has a suffix added. */
  lemma ReadyByStems(fs: Fs, name: FileName)
    ensures Ready(fs, name) <==>
              && Path(Inbox, name) in fs
              && forall d :: d in fs[Path(Inbox, name)].needs ==>
                   exists p :: p in fs && p.dir == Done && Carries(p.name.stem, d)
  {
    forall d ensures d in IdsIn(fs, Done) <==> exists p :: p in fs && p.dir == Done && Carries(p.name.stem, d) {
      IdsByStems(fs, Done, d);
    }
  }

  lemma IdsByStems(fs: Fs, dir: Dir, d: Id)
    ensures d in IdsIn(fs, dir) <==> exists p :: p in fs && p.dir == dir && Carries(p.name.stem, d)
  {
    forall p | p in fs ensures Carries(p.name.stem, d) <==> IdOf(p.name) == d {
      CarriesIs(p.name.stem, d);
    }
  }

  /** The sweep takes as satisfied what is in done/ or running/ under such a name. */
  lemma BaseByStems(fs: Fs, d: Id)
    ensures d in Base(fs) <==>
              exists p :: p in fs && (p.dir == Done || p.dir == Running) && Carries(p.name.stem, d)
  {
    IdsByStems(fs, Done, d);
    IdsByStems(fs, Running, d);
  }

  function Move(fs: Fs, src: Path, dst: Path): Fs
    requires src in fs && dst !in fs
  {
    fs[dst := fs[src]] - {src}
  }

  /** The first free archive name, trying suffix n, n + 1, ... */
  function Slot(fs: Fs, dir: Dir, name: FileName, n: nat): (slot: Option<nat>)
    requires 1 <= n
    ensures slot.Some? ==> n <= slot.value <= MAX_SUFFIX && Path(dir, Candidate(name, slot.value)) !in fs
    ensures slot.Some? ==> forall k :: n <= k < slot.value ==> Path(dir, Candidate(name, k)) in fs
    ensures slot.None? ==> forall k :: n <= k <= MAX_SUFFIX ==> Path(dir, Candidate(name, k)) in fs
    decreases MAX_SUFFIX + 1 - n
  {
    if n > MAX_SUFFIX then None
    else if Path(dir, Candidate(name, n)) !in fs then Some(n)
    else Slot(fs, dir, name, n + 1)
  }

  /** Every archive name of n in dir is taken. */
  ghost predicate Full(fs: Fs, dir: Dir, n: FileName) {
    forall k :: 1 <= k <= MAX_SUFFIX ==> Path(dir, Candidate(n, k)) in fs
  }

  datatype Op =
    | Add(name: FileName, entry: Entry)
    /** Taken by claim_next, which looks at the dependencies, or directly, which does not. */
    | Claim(name: FileName)
    | Take(name: FileName)
    | Finish(name: FileName, outcome: Outcome)
    | ParkWaiting(name: FileName)
    | Recover(name: FileName)
    | Revive(from: Dir, name: FileName)

  /** The directories plus a tally of how often each item was claimed and revived. */
  datatype World = World(fs: Fs, claims: multiset<nat>, revivals: multiset<nat>)

  function Items(fs: Fs): set<nat> {
    set p | p in fs :: fs[p].item
  }

  function Contents(fs: Fs): set<Entry> {
    set p | p in fs :: fs[p]
  }

  /** Where an operation takes a file from and puts it; None when the operation is refused. */
  function Route(fs: Fs, op: Op): (r: Option<(Path, Path)>)
    ensures r.Some? ==> r.value.0 in fs && r.value.1 !in fs
  {
    match op
    case Add(_, _) => None
    case Claim(name) =>
      if Ready(fs, name) && Path(Running, name) !in fs
      then Some((Path(Inbox, name), Path(Running, name))) else None
    case Take(name) =>
      if Path(Inbox, name) in fs && Path(Running, name) !in fs
      then Some((Path(Inbox, name), Path(Running, name))) else None
    case Finish(name, outcome) =>
      if OutcomeDir(outcome).Some? then Archive(fs, Path(Running, name), OutcomeDir(outcome).value) else None
    case ParkWaiting(name) => Archive(fs, Path(Inbox, name), NeedsHuman)
    case Recover(name) => Archive(fs, Path(Running, name), NeedsHuman)
    case Revive(from, name) =>
      if (from == NeedsHuman || from == Blocked) && Path(from, name) in fs && Path(Inbox, name) !in fs
      then Some((Path(from, name), Path(Inbox, name))) else None
  }

  function Archive(fs: Fs, src: Path, dir: Dir): (r: Option<(Path, Path)>)
    ensures r.Some? ==> r.value.0 == src && src in fs && r.value.1 !in fs && r.value.1.dir == dir
    ensures r.Some? ==> exists n :: 1 <= n && r.value.1.name == Candidate(src.name, n)
  {
    if src !in fs then None
    else match Slot(fs, dir, src.name, 1)
      case None => None
      case Some(n) => Some((src, Path(dir, Candidate(src.name, n))))
  }

  /** One operation; a refused one leaves everything as it was. A new file is a new item. */
  function Apply(w: World, op: Op): World {
    if op.Add? then
      if Path(Inbox, op.name) !in w.fs && op.entry.item !in Items(w.fs)
      then w.(fs := w.fs[Path(Inbox, op.name) := op.entry]) else w
    else match Route(w.fs, op)
      case None => w
      case Some(r) =>
        var item := w.fs[r.0].item;
        World(Move(w.fs, r.0, r.1),
              if op.Claim? || op.Take? then w.claims + multiset{item} else w.claims,
              if op.Revive? then w.revivals + multiset{item} else w.revivals)
  }

  function Exec(w: World, ops: seq<Op>): World
    decreases |ops|
  {
    if ops == [] then w else Exec(Apply(w, ops[0]), ops[1..])
  }

  // ---------- conservation over every run ----------

  ghost predicate OnePlaceEach(fs: Fs) {
    forall p, q :: p in fs && q in fs && fs[p].item == fs[q].item ==> p == q
  }

  /** A queued item still has one dispatch to come for the one that was paid for. */
  ghost predicate Paid(fs: Fs, claims: multiset<nat>, revivals: multiset<nat>) {
    && (forall i :: i in claims ==> i in Items(fs))
    && forall p :: p in fs ==> claims[fs[p].item] + Queued(p) <= 1 + revivals[fs[p].item]
  }

  function Queued(p: Path): nat {
    if p.dir == Inbox then 1 else 0
  }

  lemma MoveKeepsItems(fs: Fs, src: Path, dst: Path)
    requires src in fs && dst !in fs
    ensures Items(Move(fs, src, dst)) == Items(fs) && Contents(Move(fs, src, dst)) == Contents(fs)
    ensures OnePlaceEach(fs) ==> OnePlaceEach(Move(fs, src, dst))
  {
    var after := Move(fs, src, dst);
    assert dst in after && after[dst] == fs[src];
    forall i | i in Items(fs) ensures i in Items(after) {
      var p :| p in fs && fs[p].item == i;
      assert p == src || (p in after && after[p] == fs[p]);
    }
    forall e | e in Contents(fs) ensures e in Contents(after) {
      var p :| p in fs && fs[p] == e;
      assert p == src || (p in after && after[p] == fs[p]);
    }
  }

  lemma MoveKeepsPaid(fs: Fs, src: Path, dst: Path, c: multiset<nat>, r: multiset<nat>, c': multiset<nat>,
                      r': multiset<nat>)
    requires src in fs && dst !in fs && OnePlaceEach(fs) && Paid(fs, c, r)
    requires forall i :: i != fs[src].item ==> c'[i] == c[i] && r'[i] == r[i]
    requires c'[fs[src].item] + Queued(dst) + r[fs[src].item] <= c[fs[src].item] + Queued(src) + r'[fs[src].item]
    ensures Paid(Move(fs, src, dst), c', r')
  {
    var v := Move(fs, src, dst);
    MoveKeepsItems(fs, src, dst);
    assert fs[src].item in Items(fs);
    forall i | i in c' ensures i in Items(v) {
      if i != fs[src].item { assert c[i] > 0; }
    }
    forall p | p in v ensures c'[v[p].item] + Queued(p) <= 1 + r'[v[p].item] {
      if p != dst {
        assert p in fs && v[p] == fs[p] && fs[p].item != fs[src].item;
      }
    }
  }

  lemma AddKeepsPaid(w: World, name: FileName, entry: Entry)
    requires OnePlaceEach(w.fs) && Paid(w.fs, w.claims, w.revivals)
    requires Path(Inbox, name) !in w.fs && entry.item !in Items(w.fs)
    ensures var fs := w.fs[Path(Inbox, name) := entry];
            && OnePlaceEach(fs) && Paid(fs, w.claims, w.revivals)
            && Items(w.fs) <= Items(fs) && Contents(w.fs) <= Contents(fs)
  {
    var fs := w.fs[Path(Inbox, name) := entry];
    forall i | i in Items(w.fs) ensures i in Items(fs) {
      var p :| p in w.fs && w.fs[p].item == i;
      assert p in fs && fs[p] == w.fs[p];
    }
    forall e | e in Contents(w.fs) ensures e in Contents(fs) {
      var p :| p in w.fs && w.fs[p] == e;
      assert p in fs && fs[p] == w.fs[p];
    }
    forall p | p in w.fs ensures w.fs[p].item != entry.item {
      assert w.fs[p].item in Items(w.fs);
    }
    assert w.claims[entry.item] == 0;
  }

  /** A claim counts for the one file it takes out of the inbox, a revive for the one it puts back. */
  lemma RouteCounts(w: World, op: Op, src: Path, dst: Path)
    requires Route(w.fs, op) == Some((src, dst))
    ensures var v, item := Apply(w, op), w.fs[src].item;
            && v.fs == Move(w.fs, src, dst)
            && v.claims == (if op.Claim? || op.Take? then w.claims + multiset{item} else w.claims)
            && v.revivals == (if op.Revive? then w.revivals + multiset{item} else w.revivals)
            && (op.Claim? || op.Take? ==> src.dir == Inbox && dst.dir == Running)
            && (dst.dir == Inbox ==> op.Revive?)
  {
  }

  /** A claim pays with the place in the inbox, a revive pays for the place it gives back. */
  lemma RouteKeepsPaid(w: World, op: Op, src: Path, dst: Path)
    requires OnePlaceEach(w.fs) && Paid(w.fs, w.claims, w.revivals) && Route(w.fs, op) == Some((src, dst))
    ensures var v := Apply(w, op);
            v.fs == Move(w.fs, src, dst) && Paid(v.fs, v.claims, v.revivals)
  {
    var v := Apply(w, op);
    RouteCounts(w, op, src, dst);
    MoveKeepsPaid(w.fs, src, dst, w.claims, w.revivals, v.claims, v.revivals);
  }

  lemma ApplyKeepsPaid(w: World, op: Op)
    requires OnePlaceEach(w.fs) && Paid(w.fs, w.claims, w.revivals)
    ensures var v := Apply(w, op);
            && OnePlaceEach(v.fs) && Paid(v.fs, v.claims, v.revivals)
            && Items(w.fs) <= Items(v.fs) && Contents(w.fs) <= Contents(v.fs)
  {
    if op.Add? {
      if Apply(w, op) != w {
        AddKeepsPaid(w, op.name, op.entry);
      }
    } else if Route(w.fs, op).Some? {
      var r := Route(w.fs, op).value;
      RouteKeepsPaid(w, op, r.0, r.1);
      MoveKeepsItems(w.fs, r.0, r.1);
    }
  }

  /** In every run from an empty queue each item is in exactly one directory, no item is
      ever lost, and an item is dispatched at most once more than a human revived it. */
  lemma {:induction false} ItemsAreConserved(w: World, ops: seq<Op>)
    requires OnePlaceEach(w.fs) && Paid(w.fs, w.claims, w.revivals)
    ensures OnePlaceEach(Exec(w, ops).fs)
    ensures Items(w.fs) <= Items(Exec(w, ops).fs) && Contents(w.fs) <= Contents(Exec(w, ops).fs)
    ensures forall i :: Exec(w, ops).claims[i] <= 1 + Exec(w, ops).revivals[i]
    decreases |ops|
  {
    if ops == [] {
      forall i ensures w.claims[i] <= 1 + w.revivals[i] {
        if i in w.claims {
          assert i in Items(w.fs);
        }
      }
    } else {
      ApplyKeepsPaid(w, ops[0]);
      ItemsAreConserved(Apply(w, ops[0]), ops[1..]);
    }
  }

  /** Nothing that was merged ever leaves done/ or is overwritten there. */
  lemma {:induction false} DoneNeverShrinks(w: World, ops: seq<Op>)
    ensures forall p :: p in w.fs && p.dir == Done ==> p in Exec(w, ops).fs && Exec(w, ops).fs[p] == w.fs[p]
    decreases |ops|
  {
    if ops != [] {
      DoneNeverShrinks(Apply(w, ops[0]), ops[1..]);
    }
  }

  /** Only a human's revive brings an item back into the inbox. */
  lemma OnlyReviveReturns(w: World, op: Op, p: Path, q: Path)
    requires OnePlaceEach(w.fs) && p in w.fs && p.dir != Inbox
    requires q in Apply(w, op).fs && q.dir == Inbox && Apply(w, op).fs[q].item == w.fs[p].item
    ensures op.Revive? && op.from == p.dir && op.name == p.name == q.name
  {
    assert w.fs[p].item in Items(w.fs);
  }

  // ---------- suffixes of archive names ----------

  /** The suffixes in use for a plain name form an initial segment of 1, 2, ... */
  ghost predicate Gapless(paths: set<Path>, dir: Dir) {
    forall name: FileName, k :: Plain(name.stem) && 2 <= k && Path(dir, Candidate(name, k)) in paths ==>
      Path(dir, Candidate(name, k - 1)) in paths
  }

  /** The name itself is a later archive name of a plain name whose one before is free. */
  ghost predicate JumpsAhead(paths: set<Path>, dir: Dir, name: FileName) {
    Path(dir, name) !in paths
    && exists t: FileName, k ::
         Plain(t.stem) && 2 <= k && name == Candidate(t, k) && Path(dir, Candidate(t, k - 1)) !in paths
  }

  /** Archiving leaves a gap exactly when the file's own name is free in the archive and is the
      k-th archive name of a plain name, k at least 2, whose one before is free. */
  lemma ArchivingLeavesGap(fs: Fs, src: Path, dir: Dir)
    requires src in fs && src.dir != dir && Gapless(fs.Keys, dir) && !Full(fs, dir, src.name)
    ensures Archive(fs, src, dir).Some?
    ensures Gapless(Move(fs, src, Archive(fs, src, dir).value.1).Keys, dir) <==> !JumpsAhead(fs.Keys, dir, src.name)
  {
    var n := Slot(fs, dir, src.name, 1).value;
    var made := Path(dir, Candidate(src.name, n));
    var after := Move(fs, src, made).Keys;
    if JumpsAhead(fs.Keys, dir, src.name) {
      var t: FileName, k :| Plain(t.stem) && 2 <= k && src.name == Candidate(t, k)
          && Path(dir, Candidate(t, k - 1)) !in fs.Keys;
      assert n == 1 by {
        assert Candidate(src.name, 1) == src.name;
      }
      CandidateDiffers(t, k - 1, k);
      assert Path(dir, Candidate(t, k)) in after && Path(dir, Candidate(t, k - 1)) !in after;
    } else {
      forall t: FileName, k | Plain(t.stem) && 2 <= k && Path(dir, Candidate(t, k)) in after
        ensures Path(dir, Candidate(t, k - 1)) in after
      {
        if Path(dir, Candidate(t, k)) == made {
          OnlyOwnSuffix(fs, dir, src.name, n, t, k);
        }
      }
    }
  }

  /** When the name found is the k-th archive name of a plain name, the one before is in use. */
  lemma OnlyOwnSuffix(fs: Fs, dir: Dir, name: FileName, n: nat, t: FileName, k: nat)
    requires Slot(fs, dir, name, 1) == Some(n) && !JumpsAhead(fs.Keys, dir, name)
    requires Plain(t.stem) && 2 <= k && Candidate(name, n) == Candidate(t, k)
    ensures Path(dir, Candidate(t, k - 1)) in fs
  {
    if n == 1 {
      assert Candidate(name, 1) == name;
    } else {
      SuffixIsStripped(name, n);
      CandidateKeepsId(t, k);
      assert name.stem == t.stem;
      CandidateInjective(name, n, t, k);
    }
  }

  /** Reviving leaves a gap behind exactly when it takes an archive name of a plain name whose
      next one is in use. */
  lemma RevivingLeavesGap(w: World, from: Dir, name: FileName)
    requires from in {NeedsHuman, Blocked} && Path(from, name) in w.fs && Path(Inbox, name) !in w.fs
    requires Gapless(w.fs.Keys, from)
    ensures Gapless(Apply(w, Revive(from, name)).fs.Keys, from) <==>
              !exists t: FileName, k :: Plain(t.stem) && 1 <= k && name == Candidate(t, k)
                                        && Path(from, Candidate(t, k + 1)) in w.fs.Keys
  {
    var before, after := w.fs.Keys, Apply(w, Revive(from, name)).fs.Keys;
    assert after == before - {Path(from, name)} + {Path(Inbox, name)};
    if t: FileName, k :|
      Plain(t.stem) && 1 <= k && name == Candidate(t, k) && Path(from, Candidate(t, k + 1)) in before
    {
      CandidateDiffers(t, k, k + 1);
      assert Path(from, Candidate(t, k + 1)) in after && Path(from, Candidate(t, k)) !in after;
    } else {
      forall t: FileName, k | Plain(t.stem) && 2 <= k && Path(from, Candidate(t, k)) in after
        ensures Path(from, Candidate(t, k - 1)) in after
      {
        assert Path(from, Candidate(t, k)) in before && Path(from, Candidate(t, k - 1)) in before;
        var j: nat := k - 1;
        assert Candidate(t, j + 1) == Candidate(t, k);
      }
    }
  }

  // ---------- the deadlock sweep ----------

  /** Which file stands for which queued identity: the last in name order of those that share it. */
  ghost predicate Representatives(fs: Fs, entries: map<Id, FileName>) {
    && (forall id :: id in entries ==> Path(Inbox, entries[id]) in fs && IdOf(entries[id]) == id)
    && forall p :: p in fs && p.dir == Inbox ==>
      IdOf(p.name) in entries && (p.name == entries[IdOf(p.name)] || Before(p.name, entries[IdOf(p.name)]))
  }

  lemma OneRepresentation(fs: Fs, a: map<Id, FileName>, b: map<Id, FileName>)
    requires Representatives(fs, a) && Representatives(fs, b)
    ensures a == b
  {
    forall id | id in a ensures id in b && a[id] == b[id] {
      assert Path(Inbox, a[id]) in fs && Path(Inbox, a[id]).dir == Inbox && id in b;
      assert Path(Inbox, b[id]) in fs && Path(Inbox, b[id]).dir == Inbox;
      if a[id] != b[id] {
        LessTransitive(Render(a[id]), Render(b[id]), Render(a[id]));
        LessIrreflexive(Render(a[id]));
      }
    }
    forall id | id in b ensures id in a {
      assert Path(Inbox, b[id]).dir == Inbox && Path(Inbox, b[id]) in fs;
    }
  }

  /** The graph that the sweep for deadlocks works on. */
  ghost function SweepGraph(fs: Fs, entries: map<Id, FileName>): Graph
    requires Representatives(fs, entries)
  {
    map id | id in entries :: fs[Path(Inbox, entries[id])].needs
  }

  /** The sweep looks at the files `entries` and finds the identities `ok` runnable. */
  ghost predicate Sweep(fs: Fs, entries: map<Id, FileName>, ok: set<Id>) {
    Representatives(fs, entries) && LeastClosed(SweepGraph(fs, entries), Base(fs), ok)
  }

  predicate Live(dir: Dir) {
    dir == Inbox || dir == Running
  }

  /** Stems of queued and running files that carry an archive suffix. */
  function RawStems(fs: Fs): set<Id> {
    set p | p in fs && Live(p.dir) && !Plain(p.name.stem) :: p.name.stem
  }

  /** No queued entry depends on a stem of that kind. */
  ghost predicate NoRawNeeds(fs: Fs) {
    forall p, d :: p in fs && p.dir == Inbox && d in fs[p].needs ==> d !in RawStems(fs)
  }

  /** No two queued files have one identity. */
  ghost predicate UniqueIds(fs: Fs) {
    forall m, n :: m in NamesIn(fs, Inbox) && n in NamesIn(fs, Inbox) && IdOf(m) == IdOf(n) ==> m == n
  }

  /** ok answers for base: every queued file, whether the sweep looks at it or not, whose
      prerequisites are in base or ok has its identity in ok. */
  ghost predicate Answers(fs: Fs, base: set<Id>, ok: set<Id>) {
    forall p :: p in fs && p.dir == Inbox && Satisfied(fs[p].needs, base + ok) ==> IdOf(p.name) in ok
  }

  lemma UniqueIdsAnswer(fs: Fs, entries: map<Id, FileName>, ok: set<Id>)
    requires Sweep(fs, entries, ok) && UniqueIds(fs)
    ensures Answers(fs, Base(fs), ok)
  {
    forall p | p in fs && p.dir == Inbox && Satisfied(fs[p].needs, Base(fs) + ok)
      ensures IdOf(p.name) in ok
    {
      assert p.name in NamesIn(fs, Inbox) && Path(Inbox, entries[IdOf(p.name)]) in fs;
      assert entries[IdOf(p.name)] in NamesIn(fs, Inbox);
      assert SweepGraph(fs, entries)[IdOf(p.name)] == fs[p].needs;
    }
  }

  // ---------- what claims and finishes do to identities ----------

  predicate OnlyClaimsAndFinishes(ops: seq<Op>) {
    forall op :: op in ops ==> op.Claim? || op.Finish?
  }

  predicate EverythingMerges(ops: seq<Op>) {
    forall op :: op in ops ==> op.Claim? || (op.Finish? && op.outcome == Merged)
  }

  lemma IdsAfterMove(fs: Fs, src: Path, dst: Path, dir: Dir)
    requires src in fs && dst !in fs
    ensures IdsIn(Move(fs, src, dst), dir) <= IdsIn(fs, dir) + (if dst.dir == dir then {IdOf(dst.name)} else {})
    ensures IdsIn(fs, dir) <= IdsIn(Move(fs, src, dst), dir) + (if src.dir == dir then {IdOf(src.name)} else {})
    ensures dst.dir == dir ==> IdOf(dst.name) in IdsIn(Move(fs, src, dst), dir)
    ensures src.dir == dir ==> IdOf(src.name) in IdsIn(fs, dir)
  {
    var v := Move(fs, src, dst);
    assert dst in v;
    forall d | d in IdsIn(fs, dir) && !(src.dir == dir && d == IdOf(src.name)) ensures d in IdsIn(v, dir) {
      var p :| p in fs && p.dir == dir && IdOf(p.name) == d;
      assert p in v;
    }
    forall d | d in IdsIn(v, dir) && !(dst.dir == dir && d == IdOf(dst.name)) ensures d in IdsIn(fs, dir) {
      var p :| p in v && p.dir == dir && IdOf(p.name) == d;
      assert p in fs;
    }
  }

  /** What an archive name can be read back as: the identity, or the raw stem of a suffixed name. */
  lemma ArchivedIdentity(name: FileName, n: nat)
    requires 1 <= n
    ensures IdOf(Candidate(name, n)) == IdOf(name) || IdOf(Candidate(name, n)) == name.stem
    ensures Plain(name.stem) ==> IdOf(Candidate(name, n)) == IdOf(name)
  {
    if n >= 2 {
      SuffixIsStripped(name, n);
    }
  }

  /** Nothing is in flight and nothing can be claimed. */
  ghost predicate Drained(fs: Fs) {
    NamesIn(fs, Running) == {} && forall name :: !Ready(fs, name)
  }

  // ---------- such runs exist ----------

  function Pending(fs: Fs): set<Path> {
    set p | p in fs && Live(p.dir)
  }

  function UpTo(n: nat): (r: set<nat>)
    ensures |r| == n && forall k :: k in r <==> 1 <= k <= n
  {
    if n == 0 then {} else UpTo(n - 1) + {n}
  }

  /** The archive names of `name` that are in use under done/. */
  function TakenSuffixes(fs: Fs, name: FileName): set<nat> {
    set k | k in UpTo(MAX_SUFFIX) && Path(Done, Candidate(name, k)) in fs
  }

  /** Done/ has a name left for every queued or running file, even after all the others. */
  ghost predicate Room(fs: Fs) {
    forall p :: p in Pending(fs) ==> |TakenSuffixes(fs, p.name)| + |Pending(fs)| <= MAX_SUFFIX
  }

  lemma {:induction false} NoMoreThanFiles(taken: set<nat>, name: FileName, files: set<Path>)
    requires forall k :: k in taken ==> 1 <= k && Path(Done, Candidate(name, k)) in files
    ensures |taken| <= |files|
  {
    if taken != {} {
      var k :| k in taken;
      forall j | j in taken - {k} ensures Path(Done, Candidate(name, j)) in files - {Path(Done, Candidate(name, k))} {
        if j < k { CandidateDiffers(name, j, k); } else { CandidateDiffers(name, k, j); }
      }
      NoMoreThanFiles(taken - {k}, name, files - {Path(Done, Candidate(name, k))});
    }
  }

  /** There is room while at most 200 files are queued, running or done. */
  lemma RoomWhileFew(fs: Fs)
    requires |Pending(fs)| + |set p | p in fs && p.dir == Done| <= 200
    ensures Room(fs)
  {
    forall p | p in Pending(fs) ensures |TakenSuffixes(fs, p.name)| + |Pending(fs)| <= MAX_SUFFIX {
      NoMoreThanFiles(TakenSuffixes(fs, p.name), p.name, set q | q in fs && q.dir == Done);
    }
  }

  lemma FullMeansAllTaken(fs: Fs, name: FileName)
    requires Slot(fs, Done, name, 1).None?
    ensures |TakenSuffixes(fs, name)| == MAX_SUFFIX
  {
    assert TakenSuffixes(fs, name) == UpTo(MAX_SUFFIX);
  }

  lemma RoomMeansSlot(fs: Fs, p: Path)
    requires Room(fs) && p in fs && Live(p.dir)
    ensures Slot(fs, Done, p.name, 1).Some?
  {
    assert p in Pending(fs) && |Pending(fs)| >= 1;
    if Slot(fs, Done, p.name, 1).None? {
      FullMeansAllTaken(fs, p.name);
    }
  }

  /** One more file under done/ uses up at most one archive name of any other file. */
  lemma OneSuffixMore(fs: Fs, src: Path, dst: Path, name: FileName)
    requires src in fs && dst !in fs && src.dir != Done
    ensures |TakenSuffixes(Move(fs, src, dst), name)| <= |TakenSuffixes(fs, name)| + if dst.dir == Done then 1 else 0
  {
    var before, after := TakenSuffixes(fs, name), TakenSuffixes(Move(fs, src, dst), name);
    if k :| k in after && k !in before {
      forall m | m in after && m !in before ensures m == k {
        if m < k { CandidateDiffers(name, m, k); }
        if k < m { CandidateDiffers(name, k, m); }
      }
      Subset(after, before + {k});
    } else {
      Subset(after, before);
    }
  }

  lemma PendingAfterMove(fs: Fs, src: Path, dst: Path)
    requires src in fs && dst !in fs && Live(src.dir)
    ensures Pending(Move(fs, src, dst)) == Pending(fs) - {src} + (if Live(dst.dir) then {dst} else {})
    ensures |Pending(Move(fs, src, dst))| == |Pending(fs)| - if Live(dst.dir) then 0 else 1
  {
    assert src in Pending(fs) && dst !in Pending(fs);
  }

  lemma RoomAfterMove(fs: Fs, src: Path, dst: Path)
    requires Room(fs) && src in fs && dst !in fs && Live(src.dir)
    requires dst.dir == Done || (dst.dir == Running && dst.name == src.name)
    ensures Room(Move(fs, src, dst))
  {
    PendingAfterMove(fs, src, dst);
    var v := Move(fs, src, dst);
    forall p | p in Pending(v) ensures |TakenSuffixes(v, p.name)| + |Pending(v)| <= MAX_SUFFIX {
      OneSuffixMore(fs, src, dst, p.name);
      assert if p == dst then src in Pending(fs) else p in Pending(fs);
    }
  }

  /** How many claims and finishes the queue can still see. */
  function StepsLeft(fs: Fs): nat {
    2 * |NamesIn(fs, Inbox)| + |NamesIn(fs, Running)|
  }

  lemma NamesAfterMove(fs: Fs, src: Path, dst: Path, dir: Dir)
    requires src in fs && dst !in fs
    ensures var v := Move(fs, src, dst);
            NamesIn(v, dir) == NamesIn(fs, dir) - (if src.dir == dir then {src.name} else {})
                                                + (if dst.dir == dir then {dst.name} else {})
  {
    var v := Move(fs, src, dst);
    forall n ensures n in NamesIn(v, dir) <==> Path(dir, n) in v {}
    forall n ensures n in NamesIn(fs, dir) <==> Path(dir, n) in fs {}
  }

  lemma StepsAfterMove(fs: Fs, src: Path, dst: Path)
    requires src in fs && dst !in fs
    requires (src.dir == Running && dst.dir == Done) || (src.dir == Inbox && dst.dir == Running)
    ensures StepsLeft(Move(fs, src, dst)) < StepsLeft(fs)
  {
    NamesAfterMove(fs, src, dst, Inbox);
    NamesAfterMove(fs, src, dst, Running);
    assert src.name in NamesIn(fs, src.dir) && dst.name !in NamesIn(fs, dst.dir);
  }

  /** From any state with room in done/ some run in which everything merges leaves nothing in
      flight and nothing to claim, after at most two steps for each queued file and one for each
      running file. */
  lemma {:induction false} MergingRunExists(w: World) returns (ops: seq<Op>)
    requires Room(w.fs)
    ensures EverythingMerges(ops) && Drained(Exec(w, ops).fs) && |ops| <= StepsLeft(w.fs)
    decreases StepsLeft(w.fs)
  {
    ops := [];
    if NamesIn(w.fs, Running) != {} {
      var name :| name in NamesIn(w.fs, Running);
      ops := MergeOne(w, Finish(name, Merged), Path(Running, name));
    } else if name :| Ready(w.fs, name) {
      assert name in NamesIn(w.fs, Running) <==> Path(Running, name) in w.fs;
      ops := MergeOne(w, Claim(name), Path(Inbox, name));
    }
  }

  lemma {:induction false} MergeOne(w: World, op: Op, src: Path) returns (ops: seq<Op>)
    requires Room(w.fs) && src in w.fs && Live(src.dir)
    requires if src.dir == Running then op == Finish(src.name, Merged)
             else op == Claim(src.name) && Route(w.fs, op).Some?
    ensures EverythingMerges(ops) && Drained(Exec(w, ops).fs) && |ops| <= StepsLeft(w.fs)
    decreases StepsLeft(w.fs), 0
  {
    RoomMeansSlot(w.fs, src);
    var dst := Route(w.fs, op).value.1;
    RoomAfterMove(w.fs, src, dst);
    StepsAfterMove(w.fs, src, dst);
    var rest := MergingRunExists(Apply(w, op));
    ops := [op] + rest;
    assert ops[1..] == rest;
  }
}
