/** Many processes adding, claiming, archiving, recovering and reviving at once. Each `link` and each
    `unlink` is a step of its own; a process can die between any two of them. */
module LinkProtocol {
  import opened Names
  import opened Queue

  /** Which file (by inode) each path names. */
  type Disk = map<Path, nat>
  type Worker = nat

  datatype Pc =
    | Free
    | Linked(name: FileName)
    | Owns(name: FileName)
    | Parking(src: Path, dir: Dir, n: nat)
    | Placed(src: Path, target: Path)
    /** The two names have been compared. */
    | Dropping(src: Path, target: Path, same: bool)
    | Stuck(src: Path, dir: Dir)

  /** `granted` records the archive names that a link has handed out, in order. */
  datatype State = State(disk: Disk, pcs: map<Worker, Pc>, granted: seq<Path>)

  datatype Action =
    | Link(name: FileName)
    | Unlink
    | ParkOwn(dir: Dir)
    | ParkDead(name: FileName)
    /** Recovery takes up a running file that nobody seems to look after. */
    | ParkStale(name: FileName)
    | TrySuffix
    | Compare
    | DropSource
    | Die
    | Arrive(name: FileName, inode: nat)
    | Return(from: Dir, name: FileName)

  type Run = seq<(Worker, Action)>

  function At(s: State, w: Worker): Pc {
    if w in s.pcs then s.pcs[w] else Free
  }

  predicate IsArchive(dir: Dir) {
    dir == Done || dir == NeedsHuman || dir == Blocked
  }

  predicate Arrives(disk: Disk, name: FileName, inode: nat) {
    Path(Inbox, name) !in disk && inode !in Inodes(disk)
  }

  predicate Returns(disk: Disk, from: Dir, name: FileName) {
    (from == NeedsHuman || from == Blocked) && Path(from, name) in disk && Path(Inbox, name) !in disk
  }

  /** The first archive name from the n-th on that is free. */
  function FreeName(disk: Disk, dir: Dir, name: FileName, n: nat): (target: Option<Path>)
    ensures target.Some? ==> target.value.dir == dir
    ensures target.None? ==> forall k :: n <= k <= MAX_SUFFIX ==> Path(dir, Candidate(name, k)) in disk
    decreases MAX_SUFFIX + 1 - n
  {
    if n > MAX_SUFFIX then None
    else if Path(dir, Candidate(name, n)) !in disk then Some(Path(dir, Candidate(name, n)))
    else FreeName(disk, dir, name, n + 1)
  }

  /** The next name to try. When the source is gone the link fails for another reason, and the
      first name that looks free is taken up without reserving it. */
  function Try(s: State, w: Worker, src: Path, dir: Dir, n: nat): State {
    var candidate := Path(dir, Candidate(src.name, n));
    if n > MAX_SUFFIX then s.(pcs := s.pcs[w := Stuck(src, dir)])
    else if src !in s.disk then
      match FreeName(s.disk, dir, src.name, 1)
      case None => s.(pcs := s.pcs[w := Stuck(src, dir)])
      case Some(target) => s.(pcs := s.pcs[w := Placed(src, target)])
    else if candidate in s.disk then s.(pcs := s.pcs[w := Parking(src, dir, n + 1)])
    else State(s.disk[candidate := s.disk[src]], s.pcs[w := Placed(src, candidate)], s.granted + [candidate])
  }

  /** Two names of one file: the old one goes. Two files: the source replaces the target. */
  function Drop(disk: Disk, src: Path, target: Path, same: bool): Disk {
    if src !in disk then disk
    else if same then disk - {src}
    else if target in disk && disk[target] == disk[src] then disk
    else disk[target := disk[src]] - {src}
  }

  /** One step of one process; a step that does not apply changes nothing. */
  function Step(s: State, w: Worker, a: Action): State {
    match (At(s, w), a)
    case (_, Die) => s.(pcs := s.pcs[w := Free])
    case (_, Arrive(name, inode)) =>
      if Arrives(s.disk, name, inode) then s.(disk := s.disk[Path(Inbox, name) := inode]) else s
    case (_, Return(from, name)) =>
      if Returns(s.disk, from, name)
      then s.(disk := s.disk[Path(Inbox, name) := s.disk[Path(from, name)]] - {Path(from, name)}) else s
    case (Free, Link(name)) =>
      if Path(Inbox, name) in s.disk && Path(Running, name) !in s.disk
      then s.(disk := s.disk[Path(Running, name) := s.disk[Path(Inbox, name)]], pcs := s.pcs[w := Linked(name)])
      else s
    case (Linked(name), Unlink) =>
      s.(disk := s.disk - {Path(Inbox, name)}, pcs := s.pcs[w := Owns(name)])
    case (Owns(name), ParkOwn(dir)) =>
      if IsArchive(dir) then s.(pcs := s.pcs[w := Parking(Path(Running, name), dir, 1)]) else s
    case (Free, ParkDead(name)) => TakeUp(s, w, Path(Inbox, name))
    case (Free, ParkStale(name)) => TakeUp(s, w, Path(Running, name))
    case (Parking(src, dir, n), TrySuffix) => Try(s, w, src, dir, n)
    case (Placed(src, target), Compare) =>
      if src !in s.disk || target !in s.disk then s.(pcs := s.pcs[w := Free])
      else s.(pcs := s.pcs[w := Dropping(src, target, s.disk[src] == s.disk[target])])
    case (Dropping(src, target, same), DropSource) =>
      s.(disk := Drop(s.disk, src, target, same), pcs := s.pcs[w := Free])
    case _ => s
  }

  function TakeUp(s: State, w: Worker, src: Path): State {
    if src in s.disk then s.(pcs := s.pcs[w := Parking(src, NeedsHuman, 1)]) else s
  }

  function Exec(s: State, run: Run): State
    decreases |run|
  {
    if run == [] then s else Exec(Step(s, run[0].0, run[0].1), run[1..])
  }

  function Inodes(disk: Disk): set<nat> {
    set p | p in disk :: disk[p]
  }

  /** Archiving goes from inbox/ or running/ into an archive, trying suffixes from 1 on. */
  predicate RoutedBy(pc: Pc) {
    match pc
    case Parking(src, dir, n) => IsArchive(dir) && !IsArchive(src.dir) && 1 <= n
    case Placed(src, target) => IsArchive(target.dir) && !IsArchive(src.dir)
    case Dropping(src, target, _) => IsArchive(target.dir) && !IsArchive(src.dir)
    case Stuck(_, dir) => IsArchive(dir)
    case _ => true
  }

  ghost predicate Routed(s: State) {
    forall w :: RoutedBy(At(s, w))
  }

  lemma RoutedKept(s: State, w: Worker, a: Action)
    requires Routed(s)
    ensures Routed(Step(s, w, a))
  {
    var t := Step(s, w, a);
    forall v ensures RoutedBy(At(t, v)) {
      assert RoutedBy(At(s, v)) && RoutedBy(At(s, w));
      if v != w { assert At(t, v) == At(s, v); }
    }
  }

  /** No process has started anything. */
  ghost predicate Idle(s: State) {
    (forall w :: At(s, w) == Free) && s.granted == []
  }

  // ---------- archive names, whatever the processes do ----------

  /** A process only goes on to the next suffix past names that are taken. */
  ghost predicate Tried(s: State) {
    forall w :: TriedBy(s.disk, At(s, w))
  }

  ghost predicate TriedBy(disk: Disk, pc: Pc) {
    match pc
    case Parking(src, dir, n) => forall k :: 1 <= k < n ==> Path(dir, Candidate(src.name, k)) in disk
    case Stuck(src, dir) => forall k :: 1 <= k <= MAX_SUFFIX ==> Path(dir, Candidate(src.name, k)) in disk
    case _ => true
  }

  ghost predicate Granted(s: State) {
    && (forall i :: 0 <= i < |s.granted| ==> s.granted[i] in s.disk && IsArchive(s.granted[i].dir))
    && forall i, j :: 0 <= i < j < |s.granted| ==> s.granted[i] != s.granted[j]
  }

  /** Archive names once taken stay taken. */
  ghost predicate NamesKept(s: State, t: State) {
    forall p :: p in s.disk && IsArchive(p.dir) ==> p in t.disk
  }

  predicate NoReturns(run: Run) {
    forall x :: x in run ==> !x.1.Return?
  }

  lemma NamesKeptByStep(s: State, w: Worker, a: Action)
    requires Routed(s) && !a.Return?
    ensures NamesKept(s, Step(s, w, a))
  {
    assert RoutedBy(At(s, w));
  }

  lemma TriedKept(s: State, w: Worker, a: Action)
    requires Tried(s) && Routed(s) && NamesKept(s, Step(s, w, a))
    ensures Tried(Step(s, w, a))
  {
    var t := Step(s, w, a);
    forall v ensures TriedBy(t.disk, At(t, v)) {
      assert TriedBy(s.disk, At(s, v)) && RoutedBy(At(s, v));
      if v == w {
        OwnTriesKept(s, w, a);
      } else {
        assert At(t, v) == At(s, v);
      }
    }
  }

  lemma OwnTriesKept(s: State, w: Worker, a: Action)
    requires TriedBy(s.disk, At(s, w)) && RoutedBy(At(s, w)) && NamesKept(s, Step(s, w, a))
    ensures TriedBy(Step(s, w, a).disk, At(Step(s, w, a), w))
  {
  }

  lemma GrantedKept(s: State, w: Worker, a: Action)
    requires Granted(s) && Routed(s) && NamesKept(s, Step(s, w, a))
    ensures Granted(Step(s, w, a))
  {
    assert RoutedBy(At(s, w));
  }

  /** Over all interleavings without revives, undisciplined ones included, from any disk: archive
      names stay taken, the names handed out by links are distinct, and only a full set of 200 names
      makes archiving fail. */
  lemma {:induction false} EveryInterleavingKeepsNames(s: State, run: Run)
    requires Routed(s) && Tried(s) && Granted(s) && NoReturns(run)
    ensures var t := Exec(s, run);
            Routed(t) && Tried(t) && Granted(t) && NamesKept(s, t)
    decreases |run|
  {
    if run != [] {
      var w, a := run[0].0, run[0].1;
      assert run[0] in run && forall x :: x in run[1..] ==> x in run;
      RoutedKept(s, w, a);
      NamesKeptByStep(s, w, a);
      TriedKept(s, w, a);
      GrantedKept(s, w, a);
      EveryInterleavingKeepsNames(Step(s, w, a), run[1..]);
    }
  }

  // ---------- suffixes without gaps ----------

  /** Neither a queued or running file, nor a file on its way to an archive, has a suffixed stem. */
  ghost predicate PlainSources(s: State) {
    && (forall p :: p in s.disk && !IsArchive(p.dir) ==> Plain(p.name.stem))
    && forall w :: PlainWork(At(s, w))
  }

  predicate PlainWork(pc: Pc) {
    match pc
    case Owns(name) => Plain(name.stem)
    case Linked(name) => Plain(name.stem)
    case Parking(src, _, _) => Plain(src.name.stem)
    case _ => true
  }

  /** In every archive the suffixes in use for a plain name form an initial segment of 1, 2, ... */
  ghost predicate InitialSegments(disk: Disk) {
    forall dir :: IsArchive(dir) ==> Gapless(disk.Keys, dir)
  }

  predicate PlainArrivals(run: Run) {
    forall x :: x in run && x.1.Arrive? ==> Plain(x.1.name.stem)
  }

  lemma PlainSourcesKept(s: State, w: Worker, a: Action)
    requires PlainSources(s) && Routed(s) && !a.Return? && (a.Arrive? ==> Plain(a.name.stem))
    ensures PlainSources(Step(s, w, a))
  {
    var t := Step(s, w, a);
    assert PlainWork(At(s, w)) && RoutedBy(At(s, w));
    forall v ensures PlainWork(At(t, v)) {
      assert PlainWork(At(s, v));
      if v != w { assert At(t, v) == At(s, v); }
    }
  }

  /** The only archive names a step adds are those that its process was about to try, or the target
      of a replacement. */
  lemma SegmentsKept(s: State, w: Worker, a: Action)
    requires InitialSegments(s.disk) && Tried(s) && PlainSources(s) && Routed(s) && NamesKept(s, Step(s, w, a))
    requires TargetsTaken(s) && !a.Return?
    ensures InitialSegments(Step(s, w, a).disk)
  {
    var t := Step(s, w, a);
    forall dir | IsArchive(dir) ensures Gapless(t.disk.Keys, dir) {
      forall name: FileName, k | Plain(name.stem) && 2 <= k && Path(dir, Candidate(name, k)) in t.disk.Keys
        ensures Path(dir, Candidate(name, k - 1)) in t.disk.Keys
      {
        var p := Path(dir, Candidate(name, k));
        assert Gapless(s.disk.Keys, dir);
        if p !in s.disk {
          assert TriedBy(s.disk, At(s, w)) && PlainWork(At(s, w)) && TargetTaken(s.disk, At(s, w));
          assert At(s, w).Parking? && p == Path(At(s, w).dir, Candidate(At(s, w).src.name, At(s, w).n));
          CandidateInjective(name, k, At(s, w).src.name, At(s, w).n);
        }
      }
    }
  }

  /** What has been compared with a target was compared with a file that was there. */
  predicate TargetTaken(disk: Disk, pc: Pc) {
    pc.Dropping? ==> pc.target in disk
  }

  ghost predicate TargetsTaken(s: State) {
    forall w :: TargetTaken(s.disk, At(s, w))
  }

  lemma TargetsTakenKept(s: State, w: Worker, a: Action)
    requires TargetsTaken(s) && Routed(s) && NamesKept(s, Step(s, w, a))
    ensures TargetsTaken(Step(s, w, a))
  {
    var t := Step(s, w, a);
    forall v ensures TargetTaken(t.disk, At(t, v)) {
      assert TargetTaken(s.disk, At(s, v)) && RoutedBy(At(s, v));
      if v != w { assert At(t, v) == At(s, v); }
    }
  }

  /** From plain queued and running stems and archives without gaps, no interleaving without revives
      makes a gap while what arrives has a plain stem. */
  lemma {:induction false} SuffixesHaveNoGaps(s: State, run: Run)
    requires Routed(s) && Tried(s) && TargetsTaken(s) && PlainSources(s) && InitialSegments(s.disk)
    requires NoReturns(run) && PlainArrivals(run)
    ensures PlainSources(Exec(s, run)) && InitialSegments(Exec(s, run).disk)
    decreases |run|
  {
    if run != [] {
      var w, a := run[0].0, run[0].1;
      assert run[0] in run && forall x :: x in run[1..] ==> x in run;
      RoutedKept(s, w, a);
      NamesKeptByStep(s, w, a);
      TriedKept(s, w, a);
      TargetsTakenKept(s, w, a);
      PlainSourcesKept(s, w, a);
      SegmentsKept(s, w, a);
      SuffixesHaveNoGaps(Step(s, w, a), run[1..]);
    }
  }

  // ---------- one process at a time works on a path ----------

  /** The paths under inbox/ and running/ that a process works on. */
  function Busy(pc: Pc): set<Path> {
    match pc
    case Linked(name) => {Path(Inbox, name), Path(Running, name)}
    case Owns(name) => {Path(Running, name)}
    case Parking(src, _, _) => {src}
    case Placed(src, _) => {src}
    case Dropping(src, _, _) => {src}
    case _ => {}
  }

  ghost predicate Exclusive(s: State) {
    forall v, w, p :: p in Busy(At(s, v)) && p in Busy(At(s, w)) ==> v == w
  }

  /** What a process works on is there, and two names it has linked are one file. */
  predicate InPlace(disk: Disk, pc: Pc) {
    match pc
    case Linked(name) => OneFile(disk, Path(Inbox, name), Path(Running, name))
    case Owns(name) => Path(Running, name) in disk
    case Parking(src, _, _) => src in disk
    case Placed(src, target) => OneFile(disk, src, target)
    case Dropping(src, target, same) => same && OneFile(disk, src, target)
    case _ => true
  }

  predicate OneFile(disk: Disk, p: Path, q: Path) {
    p in disk && q in disk && disk[p] == disk[q]
  }

  ghost predicate Guarded(s: State) {
    Routed(s) && Exclusive(s) && forall w :: InPlace(s.disk, At(s, w))
  }

  ghost predicate Unused(s: State, p: Path) {
    forall v :: p !in Busy(At(s, v))
  }

  predicate Archives(pc: Pc, target: Path) {
    (pc.Placed? || pc.Dropping?) && pc.target == target
  }

  /** A step that starts to work on a path finds nobody at it, and nothing is revived while it is
      being archived. Any process may die at any time, and claims may race for one name. */
  ghost predicate Advised(s: State, w: Worker, a: Action) {
    match a
    case Link(name) =>
      At(s, w).Free? && Path(Inbox, name) in s.disk && Path(Running, name) !in s.disk ==> Unused(s, Path(Inbox, name))
    case ParkDead(name) => At(s, w).Free? && Path(Inbox, name) in s.disk ==> Unused(s, Path(Inbox, name))
    case ParkStale(name) => At(s, w).Free? && Path(Running, name) in s.disk ==> Unused(s, Path(Running, name))
    case Return(from, name) => Returns(s.disk, from, name) ==> forall v :: !Archives(At(s, v), Path(from, name))
    case _ => true
  }

  ghost predicate AdvisedRun(s: State, run: Run)
    decreases |run|
  {
    run == [] || (Advised(s, run[0].0, run[0].1) && AdvisedRun(Step(s, run[0].0, run[0].1), run[1..]))
  }

  lemma ExclusiveKept(s: State, w: Worker, a: Action)
    requires Guarded(s) && Advised(s, w, a)
    ensures Exclusive(Step(s, w, a))
  {
    var t := Step(s, w, a);
    forall v | v != w ensures At(t, v) == At(s, v) {}
    forall v, p | v != w && p in Busy(At(s, v)) ensures p !in Busy(At(t, w)) {
      assert InPlace(s.disk, At(s, v));
    }
  }

  /** A step leaves every file alone but those its process works on and the one it revives. */
  lemma PathStays(s: State, w: Worker, a: Action, p: Path)
    requires InPlace(s.disk, At(s, w)) && RoutedBy(At(s, w)) && p in s.disk && p !in Busy(At(s, w))
    requires a.Return? && Returns(s.disk, a.from, a.name) ==> p != Path(a.from, a.name)
    ensures p in Step(s, w, a).disk && Step(s, w, a).disk[p] == s.disk[p]
  {
  }

  lemma OthersStayInPlace(s: State, w: Worker, a: Action, v: Worker)
    requires Guarded(s) && Advised(s, w, a) && v != w
    ensures InPlace(Step(s, w, a).disk, At(s, v))
  {
    assert InPlace(s.disk, At(s, w)) && InPlace(s.disk, At(s, v)) && RoutedBy(At(s, w)) && RoutedBy(At(s, v));
    forall p | p in s.disk && (p in Busy(At(s, v)) || Archives(At(s, v), p))
      ensures p in Step(s, w, a).disk && Step(s, w, a).disk[p] == s.disk[p]
    {
      PathStays(s, w, a, p);
    }
  }

  lemma OwnStaysInPlace(s: State, w: Worker, a: Action)
    requires Guarded(s) && Advised(s, w, a)
    ensures InPlace(Step(s, w, a).disk, At(Step(s, w, a), w))
  {
    assert InPlace(s.disk, At(s, w)) && RoutedBy(At(s, w));
    if a.Return? && Returns(s.disk, a.from, a.name) {
      assert !Archives(At(s, w), Path(a.from, a.name));
    }
  }

  lemma GuardedKept(s: State, w: Worker, a: Action)
    requires Guarded(s) && Advised(s, w, a)
    ensures Guarded(Step(s, w, a))
  {
    var t := Step(s, w, a);
    RoutedKept(s, w, a);
    ExclusiveKept(s, w, a);
    forall v ensures InPlace(t.disk, At(t, v)) {
      if v == w { OwnStaysInPlace(s, w, a); } else { OthersStayInPlace(s, w, a, v); }
    }
  }

  /** And no weaker advice would do: a step against it ends with two processes at one path or with a
      file gone from under a process. */
  lemma AdviceIsNeeded(s: State, w: Worker, a: Action)
    requires Guarded(s)
    ensures Guarded(Step(s, w, a)) <==> Advised(s, w, a)
  {
    if Advised(s, w, a) {
      GuardedKept(s, w, a);
    } else {
      var t := Step(s, w, a);
      if a.Return? {
        var v :| Archives(At(s, v), Path(a.from, a.name));
        assert At(t, v) == At(s, v) && InPlace(s.disk, At(s, v)) && !InPlace(t.disk, At(t, v));
      } else {
        var p := if a.ParkStale? then Path(Running, a.name) else Path(Inbox, a.name);
        var v :| p in Busy(At(s, v));
        assert v != w && At(t, v) == At(s, v) && p in Busy(At(t, w));
      }
    }
  }

  /** The name a process works on under running/. */
  predicate Holds(pc: Pc, name: FileName) {
    Path(Running, name) in Busy(pc)
  }

  ghost predicate OneOwner(s: State) {
    && (forall v, w, name :: Holds(At(s, v), name) && Holds(At(s, w), name) ==> v == w)
    && forall w, name :: Holds(At(s, w), name) ==> Path(Running, name) in s.disk
  }

  /** Archived files are neither removed nor overwritten, those in `gone` excepted. */
  ghost predicate ArchiveKept(s: State, t: State, gone: set<Path>) {
    forall p :: p in s.disk && IsArchive(p.dir) && p !in gone ==> p in t.disk && t.disk[p] == s.disk[p]
  }

  /** The archived files that a run may revive. */
  function Revived(run: Run): set<Path> {
    set x | x in run && x.1.Return? :: Path(x.1.from, x.1.name)
  }

  /** The files that a step or a run adds. */
  function Arrived(s: State, a: Action): set<nat> {
    if a.Arrive? && Arrives(s.disk, a.name, a.inode) then {a.inode} else {}
  }

  function ArrivedIn(s: State, run: Run): set<nat>
    decreases |run|
  {
    if run == [] then {} else Arrived(s, run[0].1) + ArrivedIn(Step(s, run[0].0, run[0].1), run[1..])
  }

  lemma GuardedMeansOneOwner(s: State)
    requires Guarded(s)
    ensures OneOwner(s)
  {
    forall w, name | Holds(At(s, w), name) ensures Path(Running, name) in s.disk {
      assert InPlace(s.disk, At(s, w));
    }
  }

  lemma ArchiveKeptByStep(s: State, w: Worker, a: Action)
    requires Guarded(s)
    ensures ArchiveKept(s, Step(s, w, a), Revived([(w, a)]))
  {
    assert InPlace(s.disk, At(s, w)) && RoutedBy(At(s, w));
    assert a.Return? ==> (w, a) in [(w, a)] && Path(a.from, a.name) in Revived([(w, a)]);
    forall p | p in s.disk && IsArchive(p.dir) && p !in Revived([(w, a)])
      ensures p in Step(s, w, a).disk && Step(s, w, a).disk[p] == s.disk[p]
    {
      PathStays(s, w, a, p);
    }
  }

  lemma InodesByStep(s: State, w: Worker, a: Action)
    requires Guarded(s)
    ensures Inodes(Step(s, w, a).disk) == Inodes(s.disk) + Arrived(s, a)
  {
    var t := Step(s, w, a);
    forall i | i in Inodes(s.disk) ensures i in Inodes(t.disk) {
      var p :| p in s.disk && s.disk[p] == i;
      FileStays(s, w, a, p);
    }
    if a.Arrive? && Arrives(s.disk, a.name, a.inode) {
      assert t.disk[Path(Inbox, a.name)] == a.inode;
    }
  }

  /** A file that loses a name in a step has another one. */
  lemma FileStays(s: State, w: Worker, a: Action, p: Path)
    requires Guarded(s) && p in s.disk
    ensures s.disk[p] in Inodes(Step(s, w, a).disk)
  {
    var t, pc := Step(s, w, a), At(s, w);
    assert InPlace(s.disk, pc) && RoutedBy(pc);
    if p in t.disk && t.disk[p] == s.disk[p] {
    } else if a.Return? && Returns(s.disk, a.from, a.name) && p == Path(a.from, a.name) {
      assert t.disk[Path(Inbox, a.name)] == s.disk[p];
    } else {
      PathStaysOr(s, w, a, p);
      var q := if pc.Linked? then Path(Running, pc.name) else pc.target;
      assert t.disk[q] == s.disk[p];
    }
  }

  lemma PathStaysOr(s: State, w: Worker, a: Action, p: Path)
    requires Guarded(s) && p in s.disk && !(p in Step(s, w, a).disk && Step(s, w, a).disk[p] == s.disk[p])
    requires a.Return? && Returns(s.disk, a.from, a.name) ==> p != Path(a.from, a.name)
    ensures var pc := At(s, w);
            (pc.Linked? && a == Unlink && p == Path(Inbox, pc.name)) || (pc.Dropping? && a == DropSource && p == pc.src)
  {
    assert InPlace(s.disk, At(s, w)) && RoutedBy(At(s, w));
    if p !in Busy(At(s, w)) { PathStays(s, w, a, p); }
  }

  /** Over all advised interleavings of any number of processes that add, claim, archive, recover and
      revive, with deaths anywhere: a running name has at most one owner and its file is there, no
      file is lost and none appears but those added, and no archived file is removed except by
      reviving it, or overwritten. */
  lemma {:induction false} EveryInterleavingIsSafe(s: State, run: Run)
    requires Guarded(s) && AdvisedRun(s, run)
    ensures var t := Exec(s, run);
            && Guarded(t) && OneOwner(t)
            && Inodes(t.disk) == Inodes(s.disk) + ArrivedIn(s, run)
            && ArchiveKept(s, t, Revived(run))
    decreases |run|
  {
    if run == [] {
      GuardedMeansOneOwner(s);
    } else {
      var w, a := run[0].0, run[0].1;
      GuardedKept(s, w, a);
      ArchiveKeptByStep(s, w, a);
      InodesByStep(s, w, a);
      EveryInterleavingIsSafe(Step(s, w, a), run[1..]);
      RevivedSplits(run);
    }
  }

  lemma RevivedSplits(run: Run)
    requires run != []
    ensures Revived(run) == Revived([run[0]]) + Revived(run[1..])
  {
    assert run == [run[0]] + run[1..];
    forall p | p in Revived(run) ensures p in Revived([run[0]]) + Revived(run[1..]) {
      var x :| x in run && x.1.Return? && p == Path(x.1.from, x.1.name);
      assert x in [run[0]] || x in run[1..];
    }
  }

  /** Any disk whatever, with no process under way, is a start. */
  lemma IdleIsGuarded(s: State)
    requires Idle(s)
    ensures Guarded(s) && Tried(s) && Granted(s) && TargetsTaken(s)
  {
  }

  // ---------- what a single step can do wrong ----------

  /** A path is the last name of its file. */
  predicate LastName(disk: Disk, p: Path) {
    p in disk && forall q :: q in disk && disk[q] == disk[p] ==> q == p
  }

  /** An archived file is overwritten or removed, other than by reviving it, exactly when a process
      drops a source that turned out to be another file than its target. */
  lemma OverwritesWhen(s: State, w: Worker, a: Action)
    requires Routed(s)
    ensures !ArchiveKept(s, Step(s, w, a), Revived([(w, a)])) <==>
              var pc := At(s, w);
              && pc.Dropping? && a == DropSource && !pc.same && pc.src in s.disk
              && pc.target in s.disk && s.disk[pc.target] != s.disk[pc.src]
  {
    var pc, t, gone := At(s, w), Step(s, w, a), Revived([(w, a)]);
    assert RoutedBy(pc);
    assert a.Return? ==> (w, a) in [(w, a)] && Path(a.from, a.name) in gone;
    if pc.Dropping? && a == DropSource && !pc.same && pc.src in s.disk
       && pc.target in s.disk && s.disk[pc.target] != s.disk[pc.src]
    {
      assert pc.target !in gone && t.disk[pc.target] != s.disk[pc.target];
    }
  }

  /** A file is lost exactly when the name taken away, or the name taken over, is its last one. */
  lemma LosesWhen(s: State, w: Worker, a: Action)
    requires Routed(s)
    ensures !(Inodes(s.disk) <= Inodes(Step(s, w, a).disk)) <==> Loses(s.disk, At(s, w), a)
  {
    var t, pc := Step(s, w, a), At(s, w);
    assert RoutedBy(pc);
    if Loses(s.disk, pc, a) {
      var p := Last(pc);
      assert s.disk[p] in Inodes(s.disk) && s.disk[p] !in Inodes(t.disk);
    } else {
      forall i | i in Inodes(s.disk) ensures i in Inodes(t.disk) {
        var p :| p in s.disk && s.disk[p] == i;
        NotTheLast(s, w, a, p);
      }
    }
  }

  predicate Loses(disk: Disk, pc: Pc, a: Action) {
    match (pc, a)
    case (Linked(name), Unlink) => LastName(disk, Path(Inbox, name))
    case (Dropping(src, target, same), DropSource) =>
      if same then LastName(disk, src)
      else src in disk && LastName(disk, target) && target != src
    case _ => false
  }

  function Last(pc: Pc): Path
    requires pc.Linked? || pc.Dropping?
  {
    match pc
    case Linked(name) => Path(Inbox, name)
    case Dropping(src, target, same) => if same then src else target
  }

  lemma NotTheLast(s: State, w: Worker, a: Action, p: Path)
    requires RoutedBy(At(s, w)) && !Loses(s.disk, At(s, w), a) && p in s.disk
    ensures s.disk[p] in Inodes(Step(s, w, a).disk)
  {
    var t, pc := Step(s, w, a), At(s, w);
    if p in t.disk && t.disk[p] == s.disk[p] {
    } else if a.Return? {
      assert t.disk[Path(Inbox, a.name)] == s.disk[p];
    } else if pc.Dropping? && !pc.same && p == pc.src {
      assert t.disk[pc.target] == s.disk[p];
    } else {
      assert p == Last(pc);
      var q :| q in s.disk && q != p && s.disk[q] == s.disk[p];
      assert q in t.disk && t.disk[q] == s.disk[q];
    }
  }

  /** A running name gets a second owner exactly when recovery takes up a name that somebody holds. */
  lemma SecondOwnerWhen(s: State, w: Worker, a: Action)
    requires Routed(s) && OneOwner(s)
    ensures !OneOwner(Step(s, w, a)) <==>
              At(s, w).Free? && a.ParkStale? && exists v :: Holds(At(s, v), a.name)
  {
    var t := Step(s, w, a);
    if At(s, w).Free? && a.ParkStale? && exists v :: Holds(At(s, v), a.name) {
      var v :| Holds(At(s, v), a.name);
      assert v != w && At(t, v) == At(s, v) && Holds(At(t, v), a.name) && Holds(At(t, w), a.name);
    } else {
      OwnersStay(s, w, a);
    }
  }

  lemma OwnersStay(s: State, w: Worker, a: Action)
    requires Routed(s) && OneOwner(s)
    requires !(At(s, w).Free? && a.ParkStale? && exists v :: Holds(At(s, v), a.name))
    ensures OneOwner(Step(s, w, a))
  {
    var t := Step(s, w, a);
    forall v | v != w ensures At(t, v) == At(s, v) {}
    forall name | Holds(At(t, w), name) ensures Holds(At(s, w), name) || NewlyHeld(s, w, a, name) {}
    forall name | Holds(At(t, w), name) ensures Path(Running, name) in t.disk {
      OwnNameThere(s, w, a, name);
    }
    forall v, name | v != w && Holds(At(s, v), name)
      ensures Path(Running, name) in t.disk && !Holds(At(t, w), name)
    {
      OthersNameThere(s, w, a, v, name);
    }
  }

  lemma OwnNameThere(s: State, w: Worker, a: Action, name: FileName)
    requires OneOwner(s) && RoutedBy(At(s, w)) && Holds(At(Step(s, w, a), w), name)
    ensures Path(Running, name) in Step(s, w, a).disk
  {
    assert Holds(At(s, w), name) || NewlyHeld(s, w, a, name);
  }

  lemma OthersNameThere(s: State, w: Worker, a: Action, v: Worker, name: FileName)
    requires OneOwner(s) && RoutedBy(At(s, w)) && v != w && Holds(At(s, v), name)
    requires !(At(s, w).Free? && a == ParkStale(name))
    ensures Path(Running, name) in Step(s, w, a).disk && !Holds(At(Step(s, w, a), w), name)
  {
    assert Path(Running, name) in s.disk && !Holds(At(s, w), name);
  }

  /** The process comes to hold a name by this step. */
  predicate NewlyHeld(s: State, w: Worker, a: Action, name: FileName) {
    && At(s, w).Free?
    && ((a == Link(name) && Path(Inbox, name) in s.disk && Path(Running, name) !in s.disk)
        || (a == ParkStale(name) && Path(Running, name) in s.disk))
  }

  // ---------- no file is doubled ----------

  predicate MidMove(pc: Pc, p: Path, q: Path) {
    match pc
    case Linked(name) => p == Path(Inbox, name) && q == Path(Running, name)
    case Placed(src, target) => p == src && q == target
    case Dropping(src, target, _) => p == src && q == target
    case _ => false
  }

  predicate Moving(pc: Pc) {
    pc.Linked? || pc.Placed? || pc.Dropping?
  }

  /** Two paths name one file only while some process is between its link and its unlink. */
  ghost predicate OneFileOnePlace(s: State) {
    forall p, q :: p in s.disk && q in s.disk && p != q && s.disk[p] == s.disk[q] ==>
      exists w :: MidMove(At(s, w), p, q) || MidMove(At(s, w), q, p)
  }

  ghost predicate Orderly(s: State) {
    Guarded(s) && OneFileOnePlace(s)
  }

  /** Advised, and nobody dies between a link and its unlink. */
  ghost predicate Disciplined(s: State, w: Worker, a: Action) {
    Advised(s, w, a) && (a == Die ==> !Moving(At(s, w)))
  }

  ghost predicate DisciplinedRun(s: State, run: Run)
    decreases |run|
  {
    run == [] || (Disciplined(s, run[0].0, run[0].1) && DisciplinedRun(Step(s, run[0].0, run[0].1), run[1..]))
  }

  /** The path whose file a step gives a new name. */
  function Origin(pc: Pc, a: Action): Path {
    match (pc, a)
    case (_, Return(from, name)) => Path(from, name)
    case (Parking(src, _, _), _) => src
    case (_, Link(name)) => Path(Inbox, name)
    case _ => Path(Inbox, FileName("", Yaml))
  }

  lemma NewNameHasOrigin(s: State, w: Worker, a: Action, p: Path)
    requires Guarded(s) && p !in s.disk && p in Step(s, w, a).disk && !a.Arrive?
    ensures var src := Origin(At(s, w), a);
            && src in s.disk && Step(s, w, a).disk[p] == s.disk[src]
            && if a.Return? then src !in Step(s, w, a).disk else MidMove(At(Step(s, w, a), w), src, p)
  {
    assert InPlace(s.disk, At(s, w));
  }

  /** Nobody else is moving that file. */
  lemma NobodyElseMovesIt(s: State, w: Worker, a: Action, p: Path, q: Path, v: Worker)
    requires Guarded(s) && Advised(s, w, a) && p !in s.disk && p in Step(s, w, a).disk && !a.Arrive?
    ensures var src := Origin(At(s, w), a);
            !MidMove(At(s, v), src, q) && !MidMove(At(s, v), q, src)
  {
    var src := Origin(At(s, w), a);
    NewNameHasOrigin(s, w, a, p);
    assert RoutedBy(At(s, v)) && RoutedBy(At(s, w));
    if a.Return? {
      assert !Archives(At(s, v), src);
    } else if At(s, w).Parking? {
      assert src in Busy(At(s, w));
      assert src in Busy(At(s, v)) ==> v == w;
    } else {
      assert src !in Busy(At(s, v));
    }
  }

  lemma ArrivalIsNew(s: State, w: Worker, a: Action, was: Path, made: Path)
    requires a.Arrive? && was in s.disk && made !in s.disk && made in Step(s, w, a).disk
    ensures Step(s, w, a).disk[made] != s.disk[was]
  {
    assert s.disk[was] in Inodes(s.disk);
  }

  lemma NewPairIsMidMove(s: State, w: Worker, a: Action, was: Path, made: Path)
    requires Orderly(s) && Advised(s, w, a) && was in s.disk && made !in s.disk
    requires var d := Step(s, w, a).disk; was in d && made in d && d[was] == d[made]
    ensures MidMove(At(Step(s, w, a), w), was, made)
  {
    var t, src := Step(s, w, a), Origin(At(s, w), a);
    OldNameSame(s, w, a, was);
    if a.Arrive? {
      ArrivalIsNew(s, w, a, was, made);
    } else {
      NewNameHasOrigin(s, w, a, made);
      if src != was {
        var v :| MidMove(At(s, v), src, was) || MidMove(At(s, v), was, src);
        NobodyElseMovesIt(s, w, a, made, was, v);
      }
    }
  }

  /** Under guard no name changes its file. */
  lemma OldNameSame(s: State, w: Worker, a: Action, p: Path)
    requires Guarded(s) && p in s.disk && p in Step(s, w, a).disk
    ensures Step(s, w, a).disk[p] == s.disk[p]
  {
    assert InPlace(s.disk, At(s, w)) && RoutedBy(At(s, w));
  }

  lemma OldPairStays(s: State, w: Worker, a: Action, p: Path, q: Path)
    requires Orderly(s) && Disciplined(s, w, a) && p in s.disk && q in s.disk && p != q
    requires var d := Step(s, w, a).disk; p in d && q in d && d[p] == d[q]
    ensures exists v :: MidMove(At(Step(s, w, a), v), p, q) || MidMove(At(Step(s, w, a), v), q, p)
  {
    OldNameSame(s, w, a, p);
    OldNameSame(s, w, a, q);
    var v :| MidMove(At(s, v), p, q) || MidMove(At(s, v), q, p);
    if v == w {
      if MidMove(At(s, v), p, q) { MidMoveEnds(s, w, a, p, q); } else { MidMoveEnds(s, w, a, q, p); }
    } else {
      assert At(Step(s, w, a), v) == At(s, v);
    }
  }

  /** A move ends with the old name gone. */
  lemma MidMoveEnds(s: State, w: Worker, a: Action, p: Path, q: Path)
    requires Guarded(s) && MidMove(At(s, w), p, q) && a != Die
    ensures MidMove(At(Step(s, w, a), w), p, q) || p !in Step(s, w, a).disk
  {
    assert InPlace(s.disk, At(s, w));
  }

  lemma PlacesKept(s: State, w: Worker, a: Action)
    requires Orderly(s) && Disciplined(s, w, a)
    ensures OneFileOnePlace(Step(s, w, a))
  {
    var t := Step(s, w, a);
    forall p, q | p in t.disk && q in t.disk && p != q && t.disk[p] == t.disk[q]
      ensures exists v :: MidMove(At(t, v), p, q) || MidMove(At(t, v), q, p)
    {
      if p in s.disk && q in s.disk {
        OldPairStays(s, w, a, p, q);
      } else if p in s.disk {
        NewPairIsMidMove(s, w, a, p, q);
      } else if q in s.disk {
        NewPairIsMidMove(s, w, a, q, p);
      } else {
        OneNewName(s, w, a, p, q);
      }
    }
  }

  lemma OneNewName(s: State, w: Worker, a: Action, p: Path, q: Path)
    requires Guarded(s) && p !in s.disk && q !in s.disk && p in Step(s, w, a).disk && q in Step(s, w, a).disk
    ensures p == q
  {
    assert InPlace(s.disk, At(s, w));
  }

  /** Over all disciplined interleavings two names for one file exist only while a process is
      between its link and its unlink. */
  lemma {:induction false} NoFileIsDoubled(s: State, run: Run)
    requires Orderly(s) && DisciplinedRun(s, run)
    ensures Orderly(Exec(s, run))
    decreases |run|
  {
    if run != [] {
      GuardedKept(s, run[0].0, run[0].1);
      PlacesKept(s, run[0].0, run[0].1);
      NoFileIsDoubled(Step(s, run[0].0, run[0].1), run[1..]);
    }
  }

  /** An idle disk on which no file has two names is a start for disciplined runs. */
  lemma IdleIsOrderly(s: State)
    requires Idle(s) && forall p, q :: p in s.disk && q in s.disk && s.disk[p] == s.disk[q] ==> p == q
    ensures Orderly(s)
  {
    IdleIsGuarded(s);
  }

  /** A process that dies leaves a file under two names exactly when it dies between a link and
      its unlink. */
  lemma DyingInBetween(s: State, w: Worker)
    requires Orderly(s)
    ensures OneFileOnePlace(Step(s, w, Die)) <==> !Moving(At(s, w))
  {
    if Moving(At(s, w)) {
      AbandonedPair(s, w);
    } else {
      PlacesKept(s, w, Die);
    }
  }

  lemma AbandonedPair(s: State, w: Worker)
    requires Guarded(s) && Moving(At(s, w))
    ensures !OneFileOnePlace(Step(s, w, Die))
  {
    var t, pc := Step(s, w, Die), At(s, w);
    var p := if pc.Linked? then Path(Inbox, pc.name) else pc.src;
    var q := if pc.Linked? then Path(Running, pc.name) else pc.target;
    assert InPlace(s.disk, pc) && RoutedBy(pc) && p in Busy(pc) && OneFile(t.disk, p, q) && p != q;
    forall v ensures !MidMove(At(t, v), p, q) && !MidMove(At(t, v), q, p) {
      if v != w { assert At(t, v) == At(s, v) && RoutedBy(At(s, v)) && p !in Busy(At(s, v)); }
    }
  }

  // ---------- a process that is left alone ----------

  lemma {:induction false} ExecSplits(s: State, first: Run, rest: Run)
    ensures Exec(s, first + rest) == Exec(Exec(s, first), rest)
    decreases |first|
  {
    if first == [] {
      assert first + rest == rest;
    } else {
      assert (first + rest)[1..] == first[1..] + rest;
      ExecSplits(Step(s, first[0].0, first[0].1), first[1..], rest);
    }
  }

  /** Left alone, a claim is one move from inbox/ to running/. */
  lemma ClaimAlone(s: State, w: Worker, name: FileName)
    requires At(s, w) == Free && Path(Inbox, name) in s.disk && Path(Running, name) !in s.disk
    ensures var t := Exec(s, [(w, Link(name)), (w, Unlink)]);
            && t.disk == s.disk[Path(Running, name) := s.disk[Path(Inbox, name)]] - {Path(Inbox, name)}
            && At(t, w) == Owns(name) && forall v :: v != w ==> At(t, v) == At(s, v)
  {
    var run: Run := [(w, Link(name)), (w, Unlink)];
    var a := Step(s, w, Link(name));
    assert run[1..] == [(w, Unlink)] && run[1..][1..] == [];
    assert Exec(a, run[1..]) == Exec(Step(a, w, Unlink), []);
  }

  predicate ByAlone(w: Worker, run: Run) {
    forall x :: x in run ==> x.0 == w && !x.1.Die? && !x.1.Arrive? && !x.1.Return?
  }

  lemma OneStepMore(s: State, w: Worker, a: Action, rest: Run)
    ensures Exec(s, [(w, a)] + rest) == Exec(Step(s, w, a), rest)
  {
    assert ([(w, a)] + rest)[1..] == rest;
  }

  /** Left alone, archiving is one move to the first free name. */
  lemma {:induction false} ParkAlone(s: State, w: Worker, src: Path, dir: Dir, n: nat, target: Path) returns (run: Run)
    requires At(s, w) == Parking(src, dir, n) && src in s.disk && src.dir != dir
    requires FreeName(s.disk, dir, src.name, n) == Some(target)
    ensures ByAlone(w, run)
    ensures var t := Exec(s, run); t.disk == s.disk[target := s.disk[src]] - {src} && At(t, w) == Free
    decreases MAX_SUFFIX + 1 - n
  {
    var t := Step(s, w, TrySuffix);
    var rest: Run;
    if Path(dir, Candidate(src.name, n)) in s.disk {
      rest := ParkAlone(t, w, src, dir, n + 1, target);
    } else {
      rest := [(w, Compare)] + [(w, DropSource)];
      LinkedThenDropped(t, w, src, target);
    }
    run := [(w, TrySuffix)] + rest;
    OneStepMore(s, w, TrySuffix, rest);
  }

  lemma LinkedThenDropped(s: State, w: Worker, src: Path, target: Path)
    requires At(s, w) == Placed(src, target) && src != target && OneFile(s.disk, src, target)
    ensures var t := Exec(s, [(w, Compare)] + [(w, DropSource)]);
            t.disk == s.disk - {src} && At(t, w) == Free
  {
    OneStepMore(s, w, Compare, [(w, DropSource)]);
    OneStepMore(Step(s, w, Compare), w, DropSource, []);
    assert [(w, DropSource)] + [] == [(w, DropSource)];
  }

  /** So an undisturbed process that claims a file and finishes it takes it from inbox/ to the first
      free name of its archive, and nothing else changes: the steps amount to the atomic moves. */
  lemma ClaimAndFinishAlone(s: State, w: Worker, name: FileName, dir: Dir, target: Path) returns (run: Run)
    requires At(s, w) == Free && Path(Inbox, name) in s.disk && Path(Running, name) !in s.disk
    requires dir in {Done, NeedsHuman, Blocked} && FreeName(s.disk, dir, name, 1) == Some(target)
    ensures ByAlone(w, run)
    ensures var t := Exec(s, run);
            t.disk == s.disk[target := s.disk[Path(Inbox, name)]] - {Path(Inbox, name)} && At(t, w) == Free
  {
    var claim := [(w, Link(name)), (w, Unlink)];
    ClaimAlone(s, w, name);
    var a := Exec(s, claim);
    var b := Step(a, w, ParkOwn(dir));
    SameFreeName(s.disk, a.disk, dir, name, 1);
    var rest := ParkAlone(b, w, Path(Running, name), dir, 1, target);
    OneStepMore(a, w, ParkOwn(dir), rest);
    ExecSplits(s, claim, [(w, ParkOwn(dir))] + rest);
    run := claim + ([(w, ParkOwn(dir))] + rest);
  }

  lemma {:induction false} SameFreeName(a: Disk, b: Disk, dir: Dir, name: FileName, n: nat)
    requires forall k :: Path(dir, Candidate(name, k)) in a <==> Path(dir, Candidate(name, k)) in b
    ensures FreeName(a, dir, name, n) == FreeName(b, dir, name, n)
    decreases MAX_SUFFIX + 1 - n
  {
    if n <= MAX_SUFFIX { SameFreeName(a, b, dir, name, n + 1); }
  }

  /** With all names taken, an undisturbed process is stuck and has changed nothing. */
  lemma {:induction false} StuckAlone(s: State, w: Worker, src: Path, dir: Dir, n: nat) returns (run: Run)
    requires At(s, w) == Parking(src, dir, n) && src in s.disk && 1 <= n <= MAX_SUFFIX + 1
    requires forall k :: n <= k <= MAX_SUFFIX ==> Path(dir, Candidate(src.name, k)) in s.disk
    ensures ByAlone(w, run)
    ensures Exec(s, run).disk == s.disk && At(Exec(s, run), w) == Stuck(src, dir)
    decreases MAX_SUFFIX + 1 - n
  {
    var rest: Run := [];
    if n <= MAX_SUFFIX {
      rest := StuckAlone(Step(s, w, TrySuffix), w, src, dir, n + 1);
    }
    run := [(w, TrySuffix)] + rest;
    OneStepMore(s, w, TrySuffix, rest);
  }

  /** When the source has gone, it takes the first name that looks free without reserving it, finds
      nothing under it and gives up; the disk stays as it is. */
  lemma SourceGoneAlone(s: State, w: Worker, src: Path, dir: Dir, n: nat)
    requires At(s, w) == Parking(src, dir, n) && src !in s.disk && n <= MAX_SUFFIX
    ensures var t := Step(s, w, TrySuffix);
            && t.disk == s.disk && t.granted == s.granted
            && match FreeName(s.disk, dir, src.name, 1)
               case None => At(t, w) == Stuck(src, dir)
               case Some(target) =>
                 && At(t, w) == Placed(src, target)
                 && Step(t, w, Compare).disk == s.disk && At(Step(t, w, Compare), w) == Free
  {
  }

  /** Dropping the source: of two names of one file it takes away the old one if the names were found
      to be one file; otherwise it is a rename, which replaces the target by another file and leaves
      two names of one file alone. */
  lemma DroppingDoes(s: State, w: Worker, src: Path, target: Path, same: bool)
    requires At(s, w) == Dropping(src, target, same)
    ensures var t := Step(s, w, DropSource);
            && At(t, w) == Free
            && (src !in s.disk ==> t.disk == s.disk)
            && (src in s.disk && same ==> t.disk == s.disk - {src})
            && (!same && OneFile(s.disk, src, target) ==> t.disk == s.disk)
            && (src in s.disk && !same && !OneFile(s.disk, src, target) && src != target ==>
                  src !in t.disk && target in t.disk && t.disk[target] == s.disk[src]
                  && forall p :: p != src && p != target ==> (p in t.disk <==> p in s.disk)
                                                             && (p in s.disk ==> t.disk[p] == s.disk[p]))
  {
  }

  // ---------- runs against the advice ----------

  lemma FourSteps(s: State, a: (Worker, Action), b: (Worker, Action), c: (Worker, Action), d: (Worker, Action))
    ensures var t := Step(Step(s, a.0, a.1), b.0, b.1);
            Exec(s, [a, b, c, d]) == Step(Step(t, c.0, c.1), d.0, d.1)
  {
    var t := Step(Step(s, a.0, a.1), b.0, b.1);
    assert [a, b, c, d][1..] == [b, c, d] && [b, c, d][1..] == [c, d] && [c, d][1..] == [d] && [d][1..] == [];
    assert Exec(Step(Step(t, c.0, c.1), d.0, d.1), []) == Exec(Step(t, c.0, c.1), [d]) == Exec(t, [c, d]);
    assert Exec(Step(s, a.0, a.1), [b, c, d]) == Exec(t, [c, d]);
  }

  /** A queue with one file waiting, the inode 0, and nobody at work. */
  function Waiting(name: FileName): State {
    State(map[Path(Inbox, name) := 0], map[], [])
  }

  // Two processes recover what a third left when it died between link and unlink of its claim.

  function Crash(name: FileName): Run {
    [(1, Link(name)), (1, Die), (2, ParkStale(name)), (3, ParkStale(name))]
  }

  function RecoverTwice(): Run {
    [(2, TrySuffix), (3, TrySuffix), (3, TrySuffix), (2, Compare)]
  }

  function ClaimAgain(name: FileName): Run {
    [(3, Compare), (2, DropSource), (2, Link(name)), (3, DropSource)]
  }

  lemma AfterCrash(name: FileName)
    ensures var running := Path(Running, name);
            Exec(Waiting(name), Crash(name)) ==
            State(map[Path(Inbox, name) := 0, running := 0],
                  map[1 := Free, 2 := Parking(running, NeedsHuman, 1), 3 := Parking(running, NeedsHuman, 1)], [])
  {
    FourSteps(Waiting(name), (1, Link(name)), (1, Die), (2, ParkStale(name)), (3, ParkStale(name)));
  }

  lemma AfterRecovery(s: State, name: FileName)
    requires s.disk == map[Path(Inbox, name) := 0, Path(Running, name) := 0]
    requires At(s, 2) == At(s, 3) == Parking(Path(Running, name), NeedsHuman, 1)
    ensures var t, running := Exec(s, RecoverTwice()), Path(Running, name);
            var first, second := Path(NeedsHuman, name), Path(NeedsHuman, Candidate(name, 2));
            && t.disk == map[Path(Inbox, name) := 0, running := 0, first := 0, second := 0]
            && At(t, 2) == Dropping(running, first, true) && At(t, 3) == Placed(running, second)
  {
    CandidateDiffers(name, 1, 2);
    FourSteps(s, (2, TrySuffix), (3, TrySuffix), (3, TrySuffix), (2, Compare));
  }

  lemma AfterClaim(s: State, name: FileName, first: Path, second: Path)
    requires s.disk == map[Path(Inbox, name) := 0, Path(Running, name) := 0, first := 0, second := 0]
    requires first.dir == second.dir == NeedsHuman
    requires At(s, 2) == Dropping(Path(Running, name), first, true) && At(s, 3) == Placed(Path(Running, name), second)
    ensures var t := Exec(s, ClaimAgain(name));
            && At(t, 2) == Linked(name) && At(t, 3) == Free
            && Path(Inbox, name) in t.disk && Path(Running, name) !in t.disk
  {
    FourSteps(s, (3, Compare), (2, DropSource), (2, Link(name)), (3, DropSource));
  }

  /** Then one of them has claimed the file that was still queued, the other has taken the running
      name away from under it, and the same file can be claimed a second time. */
  lemma TwoRecoverersShareAName(name: FileName)
    ensures var run := Crash(name) + RecoverTwice() + ClaimAgain(name);
            var t := Step(Exec(Waiting(name), run), 3, Link(name));
            At(t, 2) == Linked(name) && At(t, 3) == Linked(name) && !OneOwner(t)
  {
    var s := Waiting(name);
    ExecSplits(s, Crash(name) + RecoverTwice(), ClaimAgain(name));
    ExecSplits(s, Crash(name), RecoverTwice());
    AfterCrash(name);
    var a := Exec(s, Crash(name));
    AfterRecovery(a, name);
    AfterClaim(Exec(a, RecoverTwice()), name, Path(NeedsHuman, name), Path(NeedsHuman, Candidate(name, 2)));
    var t := Step(Exec(s, Crash(name) + RecoverTwice() + ClaimAgain(name)), 3, Link(name));
    assert Holds(At(t, 2), name) && Holds(At(t, 3), name);
  }

  // Two processes archive one queued file, and a new file arrives under its name.

  function ArchiveTwice(name: FileName): Run {
    [(1, ParkDead(name)), (2, ParkDead(name)), (1, TrySuffix), (2, TrySuffix)]
  }

  function ThenArrives(name: FileName): Run {
    [(2, TrySuffix), (1, Compare), (1, DropSource), (3, Arrive(name, 1))]
  }

  lemma AfterArchiving(name: FileName)
    ensures var t, inbox := Exec(Waiting(name), ArchiveTwice(name)), Path(Inbox, name);
            && t.disk == map[inbox := 0, Path(NeedsHuman, name) := 0]
            && At(t, 1) == Placed(inbox, Path(NeedsHuman, name)) && At(t, 2) == Parking(inbox, NeedsHuman, 2)
  {
    FourSteps(Waiting(name), (1, ParkDead(name)), (2, ParkDead(name)), (1, TrySuffix), (2, TrySuffix));
  }

  lemma AfterArrival(s: State, name: FileName)
    requires s.disk == map[Path(Inbox, name) := 0, Path(NeedsHuman, name) := 0]
    requires At(s, 1) == Placed(Path(Inbox, name), Path(NeedsHuman, name))
    requires At(s, 2) == Parking(Path(Inbox, name), NeedsHuman, 2)
    ensures var t, second := Exec(s, ThenArrives(name)), Path(NeedsHuman, Candidate(name, 2));
            && t.disk == map[Path(Inbox, name) := 1, Path(NeedsHuman, name) := 0, second := 0]
            && At(t, 2) == Placed(Path(Inbox, name), second)
  {
    CandidateDiffers(name, 1, 2);
    var first, second := Path(NeedsHuman, name), Path(NeedsHuman, Candidate(name, 2));
    FourSteps(s, (2, TrySuffix), (1, Compare), (1, DropSource), (3, Arrive(name, 1)));
    var a := Step(s, 2, TrySuffix);
    assert a.disk == map[Path(Inbox, name) := 0, first := 0, second := 0];
    var b := Step(a, 1, Compare);
    assert At(b, 1) == Dropping(Path(Inbox, name), first, true);
    FileOneArrives(Step(b, 1, DropSource), name);
  }

  lemma FileOneArrives(s: State, name: FileName)
    requires Path(Inbox, name) !in s.disk && forall p :: p in s.disk ==> s.disk[p] == 0
    ensures Step(s, 3, Arrive(name, 1)) == s.(disk := s.disk[Path(Inbox, name) := 1])
  {
    assert 1 !in Inodes(s.disk);
  }

  /** Then the second finds another file under the name of its source and puts it over the archived
      one; the new file is neither queued nor was it ever dispatched. */
  lemma TwoArchiversOverwrite(name: FileName)
    ensures var s := Exec(Waiting(name), ArchiveTwice(name) + ThenArrives(name));
            var t := Step(Step(s, 2, Compare), 2, DropSource);
            var second := Path(NeedsHuman, Candidate(name, 2));
            second in s.disk && second in t.disk && s.disk[second] == 0 && t.disk[second] == 1
            && Path(Inbox, name) !in t.disk
  {
    ExecSplits(Waiting(name), ArchiveTwice(name), ThenArrives(name));
    AfterArchiving(name);
    AfterArrival(Exec(Waiting(name), ArchiveTwice(name)), name);
  }

  // A queued file is claimed and archived at once, and a new file arrives under its name.

  function ClaimAndArchive(name: FileName): Run {
    [(1, Link(name)), (2, ParkDead(name)), (2, TrySuffix), (2, Compare)]
  }

  lemma AfterBoth(name: FileName)
    ensures var t := Exec(Waiting(name), ClaimAndArchive(name));
            var inbox, first := Path(Inbox, name), Path(NeedsHuman, name);
            && t.disk == map[inbox := 0, Path(Running, name) := 0, first := 0]
            && At(t, 1) == Linked(name) && At(t, 2) == Dropping(inbox, first, true)
  {
    FourSteps(Waiting(name), (1, Link(name)), (2, ParkDead(name)), (2, TrySuffix), (2, Compare));
  }

  lemma UnlinkTakesTheNewFile(s: State, name: FileName, first: Path)
    requires s.disk == map[Path(Inbox, name) := 0, Path(Running, name) := 0, first := 0] && first.dir == NeedsHuman
    requires At(s, 1) == Linked(name) && At(s, 2) == Dropping(Path(Inbox, name), first, true)
    ensures var arrived := Step(Step(s, 2, DropSource), 3, Arrive(name, 1));
            1 in Inodes(arrived.disk) && 1 !in Inodes(Step(arrived, 1, Unlink).disk)
  {
    var a := Step(s, 2, DropSource);
    FileOneArrives(a, name);
    var arrived := Step(a, 3, Arrive(name, 1));
    assert arrived.disk[Path(Inbox, name)] == 1;
  }

  /** Then the unlink of the claim takes away the only name of the new file. */
  lemma ClaimAndArchiveLose(name: FileName)
    ensures var s := Exec(Waiting(name), ClaimAndArchive(name));
            var arrived := Step(Step(s, 2, DropSource), 3, Arrive(name, 1));
            1 in Inodes(arrived.disk) && 1 !in Inodes(Step(arrived, 1, Unlink).disk)
  {
    AfterBoth(name);
    UnlinkTakesTheNewFile(Exec(Waiting(name), ClaimAndArchive(name)), name, Path(NeedsHuman, name));
  }
}
