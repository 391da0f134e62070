/** The queue operations as one process runs them: each method works on the directories in
    place and is tied to the atomic operations of Queue by the ghost log it extends. */
module Backlog {
  import opened Names
  import opened Dependencies
  import opened Queue
  import opened Finality

  /** An inbox entry that waits forever, and the prerequisites that will not come. */
  datatype Deadlock = Deadlock(name: FileName, id: Id, missing: seq<Id>)

  datatype Result<+T> = Ok(value: T) | Refused

  /** The members of need outside have, in order. */
  function Outside(need: seq<Id>, have: set<Id>): (r: seq<Id>)
    ensures r == [] <==> Satisfied(need, have)
    ensures forall d :: d in r <==> d in need && d !in have
  {
    if need == [] then []
    else if need[0] in have then Outside(need[1..], have)
    else [need[0]] + Outside(need[1..], have)
  }

  /** The file that stands for each identity: of several files with one identity the last in name order. */
  function Keyed(names: seq<FileName>): (m: map<Id, FileName>)
    ensures forall id :: id in m ==> m[id] in names && IdOf(m[id]) == id
    ensures forall n :: n in names ==> IdOf(n) in m
  {
    if names == [] then map[]
    else
      var last := names[|names| - 1];
      assert names == names[..|names| - 1] + [last];
      Keyed(names[..|names| - 1])[IdOf(last) := last]
  }

  lemma {:induction false} LastOneStands(names: seq<FileName>)
    requires InNameOrder(names)
    ensures forall n :: n in names ==> n == Keyed(names)[IdOf(n)] || Before(n, Keyed(names)[IdOf(n)])
    decreases |names|
  {
    if names != [] {
      var init, last := names[..|names| - 1], names[|names| - 1];
      LastOneStands(init);
      forall n | n in names ensures n == Keyed(names)[IdOf(n)] || Before(n, Keyed(names)[IdOf(n)]) {
        var i :| 0 <= i < |names| && names[i] == n;
        assert n != last ==> n in init && Before(n, last);
      }
    }
  }

  /** The reports are those of the sweep: one for each identity that is not runnable. */
  ghost predicate ReportsOf(fs: Fs, dead: map<Id, Deadlock>, entries: map<Id, FileName>, ok: set<Id>)
    requires Representatives(fs, entries)
  {
    && dead.Keys == entries.Keys - ok
    && forall id :: id in dead ==>
      dead[id] == Deadlock(entries[id], id, Outside(fs[Path(Inbox, entries[id])].needs, Base(fs) + ok))
  }

  ghost predicate DeadlocksOf(fs: Fs, dead: map<Id, Deadlock>) {
    forall entries, ok :: Sweep(fs, entries, ok) ==> ReportsOf(fs, dead, entries, ok)
  }

  lemma OnlyReports(fs: Fs, dead: map<Id, Deadlock>, entries: map<Id, FileName>, ok: set<Id>)
    requires Sweep(fs, entries, ok) && ReportsOf(fs, dead, entries, ok)
    ensures DeadlocksOf(fs, dead)
  {
    forall e, k | Sweep(fs, e, k)
      ensures ReportsOf(fs, dead, e, k)
    {
      OneRepresentation(fs, entries, e);
      assert k == ok;
    }
  }

  /** A reported file stays queued, whatever is claimed, unless it is in the least set of claimable
      files after all; with unique identities and no dependency on a raw stem it never is. */
  lemma ReportedStayQueued(fs: Fs, dead: map<Id, Deadlock>, entries: map<Id, FileName>, ok: set<Id>, id: Id)
    requires Sweep(fs, entries, ok) && ReportsOf(fs, dead, entries, ok) && id in dead
    ensures dead[id].name !in Claimables(fs, Takable(fs)) ==> StaysQueued(fs, dead[id].name)
    ensures NoRawNeeds(fs) && (UniqueIds(fs) || Answers(fs, Base(fs), ok)) ==> StaysQueued(fs, dead[id].name)
  {
    if NoRawNeeds(fs) && (UniqueIds(fs) || Answers(fs, Base(fs), ok)) {
      if UniqueIds(fs) { UniqueIdsAnswer(fs, entries, ok); }
      AnsweredMeansOk(fs, ok, Takable(fs));
    }
    if dead[id].name !in Claimables(fs, Takable(fs)) {
      UnclaimableStaysQueued(fs, dead[id].name);
    }
  }

  lemma ReportsStayQueued(fs: Fs, dead: map<Id, Deadlock>, entries: map<Id, FileName>, ok: set<Id>)
    requires Sweep(fs, entries, ok) && ReportsOf(fs, dead, entries, ok)
    ensures forall id :: id in dead && dead[id].name !in Claimables(fs, Takable(fs)) ==> StaysQueued(fs, dead[id].name)
    ensures UniqueIds(fs) && NoRawNeeds(fs) ==> forall id :: id in dead ==> StaysQueued(fs, dead[id].name)
  {
    forall id | id in dead
      ensures dead[id].name !in Claimables(fs, Takable(fs)) ==> StaysQueued(fs, dead[id].name)
      ensures UniqueIds(fs) && NoRawNeeds(fs) ==> StaysQueued(fs, dead[id].name)
    {
      ReportedStayQueued(fs, dead, entries, ok, id);
    }
  }

  lemma ListingRepresents(fs: Fs, names: seq<FileName>)
    requires InNameOrder(names) && forall n :: n in names <==> Path(Inbox, n) in fs
    ensures Representatives(fs, Keyed(names))
  {
    LastOneStands(names);
    forall p | p in fs && p.dir == Inbox ensures IdOf(p.name) in Keyed(names) {
      assert p.name in names;
    }
  }

  /** The two states agree on every directory but those of dirs. */
  ghost predicate SameOutside(fs: Fs, was: Fs, dirs: set<Dir>) {
    && (forall p :: p in was && p.dir !in dirs ==> p in fs && fs[p] == was[p])
    && forall p :: p in fs && p.dir !in dirs ==> p in was
  }

  /** Exactly the entries named in gone have left inbox/ and nothing has come into it. */
  ghost predicate LeftInbox(fs: Fs, was: Fs, gone: set<FileName>) {
    && (forall p :: p in fs && p.dir == Inbox ==> p in was && fs[p] == was[p])
    && forall p :: p in was && p.dir == Inbox ==> (p in fs <==> p.name !in gone)
  }

  /** They have gone to needs-human/, which has kept what it had; nothing else has changed. */
  ghost predicate Parked(fs: Fs, was: Fs, gone: set<FileName>) {
    && SameOutside(fs, was, {Inbox, NeedsHuman}) && LeftInbox(fs, was, gone)
    && (forall p :: p in was && p.dir == NeedsHuman ==> p in fs && fs[p] == was[p])
    && forall p :: p in fs && p.dir == NeedsHuman && p !in was ==> CameFrom(was, gone, fs[p])
  }

  predicate CameFrom(was: Fs, gone: set<FileName>, entry: Entry) {
    exists n :: n in gone && Path(Inbox, n) in was && was[Path(Inbox, n)] == entry
  }

  lemma ParkedOnlyRemoves(fs: Fs, was: Fs, gone: set<FileName>)
    requires Parked(fs, was, gone)
    ensures SameOutside(fs, was, {Inbox, NeedsHuman}) && NamesIn(fs, Inbox) <= NamesIn(was, Inbox)
  {
    forall n | n in NamesIn(fs, Inbox) ensures n in NamesIn(was, Inbox) {
      assert Path(Inbox, n) in fs;
    }
  }

  lemma ParkedOneMore(fs: Fs, was: Fs, gone: set<FileName>, name: FileName, target: Path)
    requires Parked(fs, was, gone) && Path(Inbox, name) in fs && target !in fs && target.dir == NeedsHuman
    ensures Parked(Move(fs, Path(Inbox, name), target), was, gone + {name})
  {
    var v, more := Move(fs, Path(Inbox, name), target), gone + {name};
    forall p | p in v && p.dir == NeedsHuman && p !in was ensures CameFrom(was, more, v[p]) {
      if p == target {
        assert name in more && Path(Inbox, name) in was;
      } else {
        assert CameFrom(was, gone, fs[p]);
        var n :| n in gone && Path(Inbox, n) in was && was[Path(Inbox, n)] == fs[p];
        assert n in more;
      }
    }
  }

  lemma {:induction false} ExecAppend(w: World, ops: seq<Op>, op: Op)
    ensures Exec(w, ops + [op]) == Apply(Exec(w, ops), op)
    decreases |ops|
  {
    if ops == [] {
      assert Exec(Apply(w, op), []) == Apply(w, op);
    } else {
      assert (ops + [op])[1..] == ops[1..] + [op];
      ExecAppend(Apply(w, ops[0]), ops[1..], op);
    }
  }

  /** The log has only grown, by nothing but moves within the queue and copies under these names. */
  predicate Since(was: seq<Op>, now: seq<Op>, names: set<FileName>) {
    was <= now && forall op :: op in now[|was|..] ==> !op.Revive? && (op.Add? ==> op.name in names)
  }

  lemma SinceGrows(was: seq<Op>, mid: seq<Op>, now: seq<Op>, names: set<FileName>)
    requires Since(was, mid, names) && Since(mid, now, names)
    ensures Since(was, now, names)
  {
    assert now[|was|..] == mid[|was|..] + now[|mid|..];
  }

  class Store {
    var fs: Fs
    /** Everything this queue went through since it was empty. */
    ghost var log: seq<Op>

    ghost predicate Valid()
      reads this
    {
      fs == History().fs
    }

    ghost function History(): World
      reads this
    {
      Exec(World(map[], multiset{}, multiset{}), log)
    }

    constructor ()
      ensures Valid() && fs == map[] && log == []
    {
      fs, log := map[], [];
    }

    /** Whatever this object went through: each item is in exactly one directory and was
        dispatched at most once more than it was revived. */
    lemma ValidMeansConserved()
      requires Valid()
      ensures OnePlaceEach(fs)
      ensures forall i :: History().claims[i] <= 1 + History().revivals[i]
    {
      ItemsAreConserved(World(map[], multiset{}, multiset{}), log);
    }

    /** Entries of a directory in name order. */
    method Listing(dir: Dir) returns (names: seq<FileName>)
      ensures InNameOrder(names)
      ensures forall n :: n in names <==> Path(dir, n) in fs
    {
      var rest := NamesIn(fs, dir);
      names := [];
      while rest != {}
        invariant InNameOrder(names)
        invariant rest <= NamesIn(fs, dir)
        invariant forall n :: n in names <==> Path(dir, n) in fs && n !in rest
      {
        var x :| x in rest;
        assert Path(dir, x) in fs;
        names := Insert(names, x);
        rest := rest - {x};
      }
    }

    /** A copy into inbox/; refused when the name is taken. Every copy is an item of its own. */
    method Add(name: FileName, entry: Entry) returns (ok: bool)
      requires Valid()
      modifies this
      ensures Valid() && log == old(log) + [Op.Add(name, entry)]
      ensures ok <==> Path(Inbox, name) !in old(fs) && entry.item !in Items(old(fs))
      ensures fs == if ok then old(fs)[Path(Inbox, name) := entry] else old(fs)
    {
      ExecAppend(World(map[], multiset{}, multiset{}), log, Op.Add(name, entry));
      ok := Path(Inbox, name) !in fs && entry.item !in Items(fs);
      if ok {
        fs := fs[Path(Inbox, name) := entry];
      }
      log := log + [Op.Add(name, entry)];
    }

    /** inbox/ to running/ by link and unlink; loses without harm when another process was faster. */
    method Claim(name: FileName) returns (ok: bool)
      requires Valid()
      modifies this
      ensures Valid() && log == old(log) + [if Ready(old(fs), name) then Op.Claim(name) else Op.Take(name)]
      ensures ok <==> Path(Inbox, name) in old(fs) && Path(Running, name) !in old(fs)
      ensures fs == if ok then Move(old(fs), Path(Inbox, name), Path(Running, name)) else old(fs)
    {
      ghost var op := if Ready(fs, name) then Op.Claim(name) else Op.Take(name);
      ExecAppend(World(map[], multiset{}, multiset{}), log, op);
      log := log + [op];
      var src, dst := Path(Inbox, name), Path(Running, name);
      ok := src in fs && dst !in fs;
      if ok {
        fs := fs[dst := fs[src]];
        fs := fs - {src};
      }
    }

    /** The first entry in name order whose prerequisites are merged and that can be taken. */
    method ClaimNext() returns (got: Option<FileName>)
      requires Valid()
      modifies this
      ensures Valid() && Since(old(log), log, {})
      ensures got.None? ==> fs == old(fs)
      ensures got.None? ==> forall n :: Ready(fs, n) ==> Path(Running, n) in fs
      ensures got.Some? ==> Ready(old(fs), got.value) && Path(Running, got.value) !in old(fs)
      ensures got.Some? ==> fs == Move(old(fs), Path(Inbox, got.value), Path(Running, got.value))
      ensures got.Some? ==> forall n :: Ready(old(fs), n) && Path(Running, n) !in old(fs) ==>
                              n == got.value || Before(got.value, n)
    {
      var merged := IdsIn(fs, Done);
      var names := Listing(Inbox);
      for i := 0 to |names|
        invariant Valid() && fs == old(fs) && Since(old(log), log, {})
        invariant forall j :: 0 <= j < i && Ready(fs, names[j]) ==> Path(Running, names[j]) in fs
      {
        assert names[i] in names;
        if Outside(fs[Path(Inbox, names[i])].needs, merged) == [] {
          var ok := Claim(names[i]);
          if ok {
            forall n | Ready(old(fs), n) && Path(Running, n) !in old(fs)
              ensures n == names[i] || Before(names[i], n)
            {
              var j :| 0 <= j < |names| && names[j] == n;
            }
            return Some(names[i]);
          }
        }
      }
      forall n | Ready(fs, n) ensures Path(Running, n) in fs {
        var j :| 0 <= j < |names| && names[j] == n;
      }
      return None;
    }

    /** The entries ClaimNext skips, with what each lacks. */
    method BlockedByDeps() returns (waiting: map<FileName, seq<Id>>)
      ensures forall n :: n in waiting <==> Path(Inbox, n) in fs && !Ready(fs, n)
      ensures forall n :: n in waiting ==> waiting[n] == Outside(fs[Path(Inbox, n)].needs, IdsIn(fs, Done))
      ensures exists entries :: Representatives(fs, entries)
    {
      var merged := IdsIn(fs, Done);
      var names := Listing(Inbox);
      ListingRepresents(fs, names);
      waiting := map[];
      for i := 0 to |names|
        invariant forall n :: n in waiting <==> n in names[..i] && !Ready(fs, n)
        invariant forall n :: n in waiting ==> waiting[n] == Outside(fs[Path(Inbox, n)].needs, merged)
      {
        assert names[i] in names;
        var missing := Outside(fs[Path(Inbox, names[i])].needs, merged);
        if missing != [] {
          waiting := waiting[names[i] := missing];
        }
      }
    }

    /** The sweep for entries whose prerequisites will never come. */
    method Deadlocked() returns (dead: map<Id, Deadlock>, ghost entries: map<Id, FileName>, ghost ok: set<Id>)
      ensures Sweep(fs, entries, ok) && ReportsOf(fs, dead, entries, ok) && DeadlocksOf(fs, dead)
      ensures forall id :: id in dead ==> dead[id].missing != []
      ensures forall id :: id in dead && dead[id].name !in Claimables(fs, Takable(fs)) ==>
                StaysQueued(fs, dead[id].name)
      ensures UniqueIds(fs) && NoRawNeeds(fs) ==> forall id :: id in dead ==> StaysQueued(fs, dead[id].name)
    {
      var base := IdsIn(fs, Done) + IdsIn(fs, Running);
      var names := Listing(Inbox);
      var byId := Keyed(names);
      entries := byId;
      ListingRepresents(fs, names);
      var g: Graph := map id | id in byId :: fs[Path(Inbox, byId[id])].needs;
      var order := KeysOf(g.Keys);
      var runnable := EventuallyRunnable(order, g, base);
      ok := runnable;
      dead := map id | id in g.Keys - runnable :: Deadlock(byId[id], id, Outside(g[id], base + runnable));
      OnlyReports(fs, dead, entries, ok);
      ReportsStayQueued(fs, dead, entries, ok);
    }

    method KeysOf(ids: set<Id>) returns (order: seq<Id>)
      ensures forall id :: id in order <==> id in ids
    {
      order := [];
      var left := ids;
      while left != {}
        invariant left <= ids && forall id :: id in order <==> id in ids && id !in left
      {
        var id :| id in left;
        order := order + [id];
        left := left - {id};
      }
    }

    /** Moves a file under the first free archive name; refused only when all 200 are taken. */
    method ParkFile(src: Path, dir: Dir) returns (target: Option<Path>)
      requires src in fs
      modifies this`fs
      ensures target.None? <==> forall k :: 1 <= k <= MAX_SUFFIX ==> Path(dir, Candidate(src.name, k)) in old(fs)
      ensures target.None? ==> fs == old(fs) && Slot(old(fs), dir, src.name, 1).None?
      ensures target.Some? ==>
                && Slot(old(fs), dir, src.name, 1).Some?
                && target.value == Path(dir, Candidate(src.name, Slot(old(fs), dir, src.name, 1).value))
                && target.value !in old(fs) && fs == Move(old(fs), src, target.value)
    {
      var n := 1;
      while n <= MAX_SUFFIX
        invariant 1 <= n <= MAX_SUFFIX + 1 && fs == old(fs)
        invariant forall k :: 1 <= k < n ==> Path(dir, Candidate(src.name, k)) in fs
        invariant Slot(fs, dir, src.name, 1) == Slot(fs, dir, src.name, n)
      {
        var candidate := Path(dir, Candidate(src.name, n));
        if candidate !in fs {
          fs := fs[candidate := fs[src]];
          fs := fs - {src};
          return Some(candidate);
        }
        n := n + 1;
      }
      return None;
    }

    /** running/ to the archive of the outcome. */
    method Finish(name: FileName, outcome: Outcome) returns (r: Result<Path>)
      requires Valid() && Path(Running, name) in fs
      modifies this
      ensures Valid() && log == old(log) + [Op.Finish(name, outcome)]
      ensures r.Refused? <==> outcome.Unknown? || forall k :: 1 <= k <= MAX_SUFFIX ==>
                Path(OutcomeDir(outcome).value, Candidate(name, k)) in old(fs)
      ensures r.Refused? ==> fs == old(fs)
      ensures r.Ok? ==>
                && (outcome.Merged? ==> r.value.dir == Done)
                && (outcome.BlockedHardGate? ==> r.value.dir == Blocked)
                && (outcome.Escalated? || outcome.Error? ==> r.value.dir == NeedsHuman)
      ensures r.Ok? ==>
                && r.value.dir == OutcomeDir(outcome).value && r.value !in old(fs)
                && fs == Move(old(fs), Path(Running, name), r.value)
                && exists k :: 1 <= k && r.value.name == Candidate(name, k)
    {
      ghost var op := Op.Finish(name, outcome);
      ExecAppend(World(map[], multiset{}, multiset{}), log, op);
      log := log + [op];
      if outcome == Unknown {
        return Refused;
      }
      var target := ParkFile(Path(Running, name), OutcomeDir(outcome).value);
      match target
      case None => return Refused;
      case Some(path) => return Ok(path);
    }

    method ParkEntry(name: FileName) returns (target: Option<Path>)
      requires Valid() && Path(Inbox, name) in fs
      modifies this
      ensures Valid() && log == old(log) + [ParkWaiting(name)]
      ensures target.None? ==> fs == old(fs) && Full(fs, NeedsHuman, name)
      ensures target.Some? ==> target.value !in old(fs) && target.value.dir == NeedsHuman
      ensures target.Some? ==> fs == Move(old(fs), Path(Inbox, name), target.value)
    {
      ExecAppend(World(map[], multiset{}, multiset{}), log, ParkWaiting(name));
      log := log + [ParkWaiting(name)];
      target := ParkFile(Path(Inbox, name), NeedsHuman);
    }

    /** Moves every deadlocked entry to needs-human/; stops at the first that cannot be archived. */
    method ParkDeadlocked()
      returns (ok: bool, dead: map<Id, Deadlock>, ghost entries: map<Id, FileName>, ghost runnable: set<Id>)
      requires Valid()
      modifies this
      ensures Valid() && Since(old(log), log, {})
      ensures Sweep(old(fs), entries, runnable)
      ensures dead.Keys == entries.Keys - runnable && forall id :: id in dead ==> dead[id].name == entries[id]
      ensures exists gone :: Parked(fs, old(fs), gone)
      ensures ok ==> Parked(fs, old(fs), set id | id in dead :: dead[id].name)
      ensures !ok ==> exists n :: Path(Inbox, n) in fs && Full(fs, NeedsHuman, n)
    {
      dead, entries, runnable := Deadlocked();
      ok := ParkAll(dead);
    }

    static ghost function NamesOf(dead: map<Id, Deadlock>, ids: set<Id>): set<FileName> {
      set id | id in ids && id in dead :: dead[id].name
    }

    static lemma OneNameMore(dead: map<Id, Deadlock>, left: set<Id>, id: Id)
      requires id in left && left <= dead.Keys
      ensures NamesOf(dead, dead.Keys - (left - {id})) == NamesOf(dead, dead.Keys - left) + {dead[id].name}
    {
      assert dead.Keys - (left - {id}) == (dead.Keys - left) + {id};
    }

    static lemma StillQueued(fs: Fs, was: Fs, dead: map<Id, Deadlock>, left: set<Id>, id: Id)
      requires id in left && left <= dead.Keys && Parked(fs, was, NamesOf(dead, dead.Keys - left))
      requires forall k :: k in dead ==> Path(Inbox, dead[k].name) in was && IdOf(dead[k].name) == k
      ensures Path(Inbox, dead[id].name) in fs && dead[id].name !in NamesOf(dead, dead.Keys - left)
    {
    }

    method ParkAll(dead: map<Id, Deadlock>) returns (ok: bool)
      requires Valid() && forall id :: id in dead ==> Path(Inbox, dead[id].name) in fs && IdOf(dead[id].name) == id
      modifies this
      ensures Valid() && Since(old(log), log, {})
      ensures exists gone :: Parked(fs, old(fs), gone)
      ensures ok ==> Parked(fs, old(fs), set id | id in dead :: dead[id].name)
      ensures !ok ==> exists n :: Path(Inbox, n) in fs && Full(fs, NeedsHuman, n)
    {
      var left := dead.Keys;
      while left != {}
        invariant Valid() && Since(old(log), log, {}) && left <= dead.Keys
        invariant Parked(fs, old(fs), NamesOf(dead, dead.Keys - left))
      {
        var id :| id in left;
        ghost var was := fs;
        StillQueued(fs, old(fs), dead, left, id);
        var target := ParkEntry(dead[id].name);
        if target.None? {
          ok := false;
          return;
        }
        ParkedOneMore(was, old(fs), NamesOf(dead, dead.Keys - left), dead[id].name, target.value);
        OneNameMore(dead, left, id);
        left := left - {id};
      }
      assert dead.Keys - {} == dead.Keys;
      assert NamesOf(dead, dead.Keys) == set id | id in dead :: dead[id].name;
      ok := true;
    }

    method RecoverEntry(name: FileName) returns (ok: bool)
      requires Valid() && Path(Running, name) in fs
      modifies this
      ensures Valid() && log == old(log) + [Op.Recover(name)]
      ensures SameOutside(fs, old(fs), {Running, NeedsHuman})
      ensures NamesIn(fs, Running) == NamesIn(old(fs), Running) - (if ok then {name} else {})
      ensures !ok ==> fs == old(fs) && Full(fs, NeedsHuman, name)
      ensures NamesIn(old(fs), NeedsHuman) <= NamesIn(fs, NeedsHuman)
    {
      ExecAppend(World(map[], multiset{}, multiset{}), log, Op.Recover(name));
      log := log + [Op.Recover(name)];
      ghost var was := fs;
      var target := ParkFile(Path(Running, name), NeedsHuman);
      if target.None? {
        return false;
      }
      NamesAfterMove(was, name, target.value);
      return true;
    }

    static lemma NamesAfterMove(was: Fs, name: FileName, dst: Path)
      requires Path(Running, name) in was && dst !in was && dst.dir == NeedsHuman
      ensures var fs := Move(was, Path(Running, name), dst);
              && NamesIn(fs, Running) == NamesIn(was, Running) - {name}
              && NamesIn(was, NeedsHuman) <= NamesIn(fs, NeedsHuman)
              && SameOutside(fs, was, {Running, NeedsHuman})
    {
      var fs := Move(was, Path(Running, name), dst);
      forall n | n in NamesIn(was, NeedsHuman) ensures n in NamesIn(fs, NeedsHuman) {
        assert Path(NeedsHuman, n) in fs;
      }
      forall n | n in NamesIn(was, Running) && n != name ensures n in NamesIn(fs, Running) {
        assert Path(Running, n) in fs;
      }
    }

    static lemma FullGrows(was: Fs, fs: Fs, n: FileName)
      requires Full(was, NeedsHuman, n) && NamesIn(was, NeedsHuman) <= NamesIn(fs, NeedsHuman)
      ensures Full(fs, NeedsHuman, n)
    {
      forall k | 1 <= k <= MAX_SUFFIX ensures Path(NeedsHuman, Candidate(n, k)) in fs {
        assert Candidate(n, k) in NamesIn(was, NeedsHuman);
      }
    }

    /** Moves what nobody looks after any more from running/ to needs-human/, never to inbox/;
        what cannot be archived stays for the next time. */
    method Recover(stale: set<FileName>) returns (recovered: set<FileName>)
      requires Valid()
      modifies this
      ensures Valid() && Since(old(log), log, {})
      ensures recovered <= stale && NamesIn(fs, Running) == NamesIn(old(fs), Running) - recovered
      ensures forall n :: n in stale && n in NamesIn(fs, Running) ==> Full(fs, NeedsHuman, n)
      ensures SameOutside(fs, old(fs), {Running, NeedsHuman})
      ensures NamesIn(old(fs), Running) == {} ==> fs == old(fs)
    {
      var names := Listing(Running);
      recovered := {};
      for i := 0 to |names|
        invariant Valid() && Since(old(log), log, {}) && SameOutside(fs, old(fs), {Running, NeedsHuman})
        invariant recovered <= stale && NamesIn(fs, Running) == NamesIn(old(fs), Running) - recovered
        invariant forall n :: n in recovered ==> n in names[..i]
        invariant names == [] ==> fs == old(fs)
        invariant forall n :: n in names[..i] && n in stale && n !in recovered ==> Full(fs, NeedsHuman, n)
      {
        var name := names[i];
        assert name in names && names[..i + 1] == names[..i] + [name];
        assert name in NamesIn(fs, Running) <==> Path(Running, name) in fs;
        if name in stale && Path(Running, name) in fs {
          ghost var was := fs;
          var ok := RecoverEntry(name);
          forall n | Full(was, NeedsHuman, n) ensures Full(fs, NeedsHuman, n) {
            FullGrows(was, fs, n);
          }
          if ok {
            recovered := recovered + {name};
          }
        }
      }
      assert names[..|names|] == names;
      if names != [] {
        assert names[0] in names && names[0] in NamesIn(old(fs), Running);
      }
    }

    static lemma ReviveMoves(w: World, from: Dir, name: FileName)
      ensures Apply(w, Op.Revive(from, name)).fs ==
              if Path(from, name) in w.fs && (from == NeedsHuman || from == Blocked) && Path(Inbox, name) !in w.fs
              then Move(w.fs, Path(from, name), Path(Inbox, name)) else w.fs
    {
    }

    /** A human puts an archived entry back into the inbox; refused as well when its old results
        cannot be archived because their 200 names are taken. */
    method Revive(from: Dir, name: FileName, resultsFull: bool) returns (ok: bool)
      requires Valid()
      modifies this
      ensures Valid() && log == old(log) + if resultsFull then [] else [Op.Revive(from, name)]
      ensures ok <==> Path(from, name) in old(fs) && (from == NeedsHuman || from == Blocked)
                      && !resultsFull && Path(Inbox, name) !in old(fs)
      ensures fs == if ok then Move(old(fs), Path(from, name), Path(Inbox, name)) else old(fs)
    {
      if resultsFull {
        return false;
      }
      ExecAppend(World(map[], multiset{}, multiset{}), log, Op.Revive(from, name));
      ReviveMoves(History(), from, name);
      log := log + [Op.Revive(from, name)];
      ok := Path(from, name) in fs && (from == NeedsHuman || from == Blocked) && Path(Inbox, name) !in fs;
      if ok {
        var entry := fs[Path(from, name)];
        fs := fs - {Path(from, name)};
        fs := fs[Path(Inbox, name) := entry];
      }
    }
  }
}
