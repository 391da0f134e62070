/** Capability packs: drafts under an optimistic lock, append-only evaluations, published versions,
    bindings and task snapshots, and operation keys that replay the first result. Every request is
    one transaction. */
module Packs {
  import opened PackDigest

  type Id = string
  datatype Option<+T> = None | Some(value: T)
  datatype Actor = Actor(id: string, admin: bool)
  datatype Upload = Upload(entry: Entry, size: nat)
  datatype Draft = Draft(revision: nat, files: seq<Entry>, digest: string, manifest: bool)
  datatype Evaluation = Evaluation(pack: Id, digest: string, passed: bool)
  datatype Version = Version(id: Id, pack: Id, number: nat, digest: string, files: seq<Entry>, evaluation: Id,
                             manifest: bool)
  datatype Binding = Binding(version: Id, number: nat, digest: string, revision: nat)
  datatype Task = Task(actor: string, agent: Id, pack: Id, version: Id, number: nat, digest: string, bound: nat)

  /** What an operation key stands for: a hash of the request, taken to be injective. */
  datatype Fingerprint =
    | OfDraft(source: Id, names: set<string>)
    | OfEvaluation(pack: Id, digest: string)
    | OfPublish(pack: Id, revision: int, evaluation: Id)
    | OfTask(agent: Id, pack: Id, inputs: multiset<Id>)
  datatype Value =
    | Drafted(pack: Id) | Registered(job: Id) | Evaluated(id: Id) | Published(version: Version)
    | Tasked(id: Id, task: Task)
  datatype Operation = Operation(mark: Fingerprint, value: Value)
  datatype Reply = Done(value: Value) | Updated | Conflict | Missing | Denied | Invalid

  const MANIFEST_NAME := "webuddy-pack.json"
  const MAX_FILES := 200
  const MAX_FILE_BYTES := 2 * 1024 * 1024
  const MAX_PACK_BYTES := 8 * 1024 * 1024

  datatype Db = Db(owners: map<Id, string>, drafts: map<Id, Draft>, evaluations: map<Id, Evaluation>,
                   versions: seq<Version>, bindings: map<(Id, Id), Binding>, tasks: map<Id, Task>,
                   artifacts: map<Id, string>, ops: map<(string, string), Operation>)

  datatype Request =
    | CreateDraft(id: Id, actor: Actor, key: string, source: Id, names: set<string>, picked: seq<Upload>,
                  contract: bool)
    | UpdateDraft(pack: Id, actor: Actor, expected: int, uploads: seq<Upload>, contract: bool)
    | BeginEvaluation(pack: Id, actor: Actor, key: string, digest: string, job: Id)
    | SaveEvaluation(id: Id, pack: Id, actor: Actor, key: string, digest: string, passed: bool)
    | Publish(id: Id, pack: Id, actor: Actor, key: string, expected: int, evaluation: Id)
    | Bind(agent: Id, version: Id, actor: Actor, expected: int)
    | Unbind(agent: Id, pack: Id, actor: Actor)
    | CreateTask(id: Id, agent: Id, pack: Id, actor: Actor, key: string, inputs: seq<Id>)

  // ---------- helpers of the requests ----------

  predicate Maintains(db: Db, pack: Id, actor: Actor)
    requires pack in db.owners
  {
    db.owners[pack] == actor.id || actor.admin
  }

  /** The answer of an operation key that has been used, if it has. */
  function Replay(db: Db, actor: Actor, key: string, mark: Fingerprint): Option<Reply> {
    if key == "" || (actor.id, key) !in db.ops then None
    else if db.ops[(actor.id, key)].mark != mark then Some(Conflict)
    else Some(Done(db.ops[(actor.id, key)].value))
  }

  function Record(db: Db, actor: Actor, key: string, mark: Fingerprint, value: Value): Db {
    if key == "" then db else db.(ops := db.ops[(actor.id, key) := Operation(mark, value)])
  }

  function Entries(us: seq<Upload>): (es: seq<Entry>)
    ensures |es| == |us| && forall i :: 0 <= i < |us| ==> es[i] == us[i].entry
  {
    seq(|us|, i requires 0 <= i < |us| => us[i].entry)
  }

  function Total(us: seq<Upload>): nat {
    if us == [] then 0 else us[0].size + Total(us[1..])
  }

  predicate Fits(us: seq<Upload>) {
    us != [] && |us| <= MAX_FILES && Total(us) <= MAX_PACK_BYTES
  }

  predicate Acceptable(u: Upload) {
    SafeMember(u.entry.path) && u.size <= MAX_FILE_BYTES
  }

  /** Selected artifacts that may not enter a pack are left out, the others kept in order. */
  function Kept(us: seq<Upload>): (r: seq<Upload>)
    ensures forall u :: u in r <==> u in us && Acceptable(u)
  {
    if us == [] then [] else (if Acceptable(us[0]) then [us[0]] else []) + Kept(us[1..])
  }

  function NewDraft(revision: nat, us: seq<Upload>, contract: bool): Draft {
    var es := Entries(us);
    Draft(revision, es, Encode(es), contract && exists e :: e in es && e.path == MANIFEST_NAME)
  }

  function LatestNumber(vs: seq<Version>, pack: Id): nat {
    if vs == [] then 0
    else
      var rest := LatestNumber(vs[..|vs| - 1], pack);
      var v := vs[|vs| - 1];
      if v.pack == pack && v.number > rest then v.number else rest
  }

  function Find(vs: seq<Version>, id: Id): (v: Option<Version>)
    ensures v.Some? ==> v.value in vs && v.value.id == id
    ensures v.None? ==> forall w :: w in vs ==> w.id != id
  {
    if vs == [] then None
    else if vs[0].id == id then Some(vs[0])
    else Find(vs[1..], id)
  }

  // ---------- the requests ----------

  function CreateDraftRefusal(db: Db, q: Request): Option<Reply>
    requires q.CreateDraft?
  {
    var replay := Replay(db, q.actor, q.key, OfDraft(q.source, q.names));
    if !Fits(Kept(q.picked)) then Some(Invalid)
    else if replay.Some? then replay
    else if q.id in db.owners || q.id in db.drafts then Some(Invalid)
    else None
  }

  function CreateDraftStep(db: Db, q: Request): (r: (Db, Reply))
    requires q.CreateDraft?
    ensures r.0 == db.(owners := r.0.owners, drafts := r.0.drafts, ops := r.0.ops)
  {
    var refusal := CreateDraftRefusal(db, q);
    if refusal.Some? then (db, refusal.value)
    else
      var made := db.(owners := db.owners[q.id := q.actor.id],
                      drafts := db.drafts[q.id := NewDraft(1, Kept(q.picked), q.contract)]);
      (Record(made, q.actor, q.key, OfDraft(q.source, q.names), Drafted(q.id)), Done(Drafted(q.id)))
  }

  function UpdateDraftRefusal(db: Db, q: Request): (r: Option<Reply>)
    requires q.UpdateDraft?
    ensures r.None? ==> q.pack in db.drafts && q.expected == db.drafts[q.pack].revision
                        && forall u :: u in q.uploads ==> Acceptable(u)
    ensures r.Some? ==> r != Some(Updated)
  {
    if (exists u :: u in q.uploads && !Acceptable(u)) || !Fits(q.uploads) then Some(Invalid)
    else if q.pack !in db.owners then Some(Missing)
    else if !Maintains(db, q.pack, q.actor) then Some(Denied)
    else if q.pack !in db.drafts then Some(Missing)
    else if q.expected != db.drafts[q.pack].revision then Some(Conflict)
    else None
  }

  function UpdateDraftStep(db: Db, q: Request): (r: (Db, Reply))
    requires q.UpdateDraft?
    ensures r.0 == db.(drafts := r.0.drafts)
  {
    var refusal := UpdateDraftRefusal(db, q);
    if refusal.Some? then (db, refusal.value)
    else
      (db.(drafts := db.drafts[q.pack := NewDraft(db.drafts[q.pack].revision + 1, q.uploads, q.contract)]), Updated)
  }

  function BeginEvaluationStep(db: Db, q: Request): (r: (Db, Reply))
    requires q.BeginEvaluation?
    ensures r.0 == db.(ops := r.0.ops)
  {
    var mark := OfEvaluation(q.pack, q.digest);
    if q.pack !in db.owners then (db, Missing)
    else if !Maintains(db, q.pack, q.actor) then (db, Denied)
    else
      var replay := Replay(db, q.actor, q.key, mark);
      if replay.Some? then (db, replay.value)
      else (Record(db, q.actor, q.key, mark, Registered(q.job)), Done(Registered(q.job)))
  }

  function SaveEvaluationStep(db: Db, q: Request): (r: (Db, Reply))
    requires q.SaveEvaluation?
    ensures r.0 == db.(evaluations := r.0.evaluations, ops := r.0.ops)
  {
    if q.pack !in db.owners then (db, Missing)
    else if !Maintains(db, q.pack, q.actor) then (db, Denied)
    else if q.id in db.evaluations then (db, Invalid)
    else
      var saved := db.(evaluations := db.evaluations[q.id := Evaluation(q.pack, q.digest, q.passed)]);
      (Record(saved, q.actor, q.key, OfEvaluation(q.pack, q.digest), Evaluated(q.id)), Done(Evaluated(q.id)))
  }

  /** The conditions of a publish, all looked at again inside its transaction. */
  function PublishRefusal(db: Db, q: Request): (r: Option<Reply>)
    requires q.Publish?
    ensures r.None? ==>
              && q.pack in db.owners && Maintains(db, q.pack, q.actor) && q.pack in db.drafts
              && q.expected == db.drafts[q.pack].revision && q.evaluation in db.evaluations
              && db.evaluations[q.evaluation] == Evaluation(q.pack, db.drafts[q.pack].digest, true)
              && db.drafts[q.pack].manifest
              && forall v :: v in db.versions ==> v.id != q.id
  {
    if q.pack !in db.owners then Some(Missing)
    else if !Maintains(db, q.pack, q.actor) then Some(Denied)
    else
      var replay := Replay(db, q.actor, q.key, OfPublish(q.pack, q.expected, q.evaluation));
      if replay.Some? then replay
      else if q.pack !in db.drafts then Some(Missing)
      else if q.expected != db.drafts[q.pack].revision || !db.drafts[q.pack].manifest then Some(Conflict)
      else if q.evaluation !in db.evaluations || db.evaluations[q.evaluation].pack != q.pack then Some(Missing)
      else if db.evaluations[q.evaluation].digest != db.drafts[q.pack].digest then Some(Conflict)
      else if !db.evaluations[q.evaluation].passed then Some(Conflict)
      else if Find(db.versions, q.id).Some? then Some(Invalid)
      else None
  }

  function NextVersion(db: Db, q: Request): Version
    requires q.Publish? && q.pack in db.drafts
  {
    var draft := db.drafts[q.pack];
    Version(q.id, q.pack, LatestNumber(db.versions, q.pack) + 1, draft.digest, draft.files, q.evaluation,
            draft.manifest)
  }

  function PublishStep(db: Db, q: Request): (r: (Db, Reply))
    requires q.Publish?
    ensures r.0 == db.(versions := r.0.versions, drafts := r.0.drafts, ops := r.0.ops)
    ensures r.0.drafts == db.drafts
            || (q.pack in db.drafts
                && r.0.drafts == db.drafts[q.pack := db.drafts[q.pack].(revision := db.drafts[q.pack].revision + 1)])
  {
    var refusal := PublishRefusal(db, q);
    if refusal.Some? then (db, refusal.value)
    else
      var version, draft := NextVersion(db, q), db.drafts[q.pack];
      var cut := db.(versions := db.versions + [version],
                     drafts := db.drafts[q.pack := draft.(revision := draft.revision + 1)]);
      (Record(cut, q.actor, q.key, OfPublish(q.pack, q.expected, q.evaluation), Published(version)),
       Done(Published(version)))
  }

  function BindStep(db: Db, q: Request): (r: (Db, Reply))
    requires q.Bind?
    ensures r.0 == db.(bindings := r.0.bindings)
  {
    var found := Find(db.versions, q.version);
    if found.None? || found.value.pack !in db.owners then (db, Missing)
    else
      var v := found.value;
      var slot := (q.agent, v.pack);
      var revision := if slot in db.bindings then db.bindings[slot].revision else 0;
      if !Maintains(db, v.pack, q.actor) then (db, Denied)
      else if q.expected != revision then (db, Conflict)
      else (db.(bindings := db.bindings[slot := Binding(v.id, v.number, v.digest, revision + 1)]), Updated)
  }

  function UnbindStep(db: Db, q: Request): (r: (Db, Reply))
    requires q.Unbind?
    ensures r.0 == db.(bindings := r.0.bindings)
  {
    if q.pack !in db.owners then (db, Missing)
    else if !Maintains(db, q.pack, q.actor) then (db, Denied)
    else (db.(bindings := db.bindings - {(q.agent, q.pack)}), Updated)
  }

  /** The first input file that is missing or someone else's refuses the task. */
  function InputsReply(db: Db, actor: Actor, inputs: seq<Id>): (r: Option<Reply>)
    ensures r.None? <==> forall i :: i in inputs ==> i in db.artifacts && (db.artifacts[i] == actor.id || actor.admin)
    ensures r.Some? ==> r.value == Missing || r.value == Denied
  {
    if inputs == [] then None
    else if inputs[0] !in db.artifacts then Some(Missing)
    else if db.artifacts[inputs[0]] != actor.id && !actor.admin then Some(Denied)
    else InputsReply(db, actor, inputs[1..])
  }

  function CreateTaskStep(db: Db, q: Request): (r: (Db, Reply))
    requires q.CreateTask?
    ensures r.0 == db.(tasks := r.0.tasks, ops := r.0.ops)
  {
    var mark := OfTask(q.agent, q.pack, multiset(q.inputs));
    var replay := Replay(db, q.actor, q.key, mark);
    if replay.Some? then (db, replay.value)
    else if (q.agent, q.pack) !in db.bindings then (db, Conflict)
    else
      var b := db.bindings[(q.agent, q.pack)];
      var found := Find(db.versions, b.version);
      var refused := InputsReply(db, q.actor, q.inputs);
      if found.None? then (db, Conflict)
      else if refused.Some? then (db, refused.value)
      else if q.id in db.tasks then (db, Invalid)
      else
        var task := Task(q.actor.id, q.agent, q.pack, b.version, found.value.number, found.value.digest, b.revision);
        var made := db.(tasks := db.tasks[q.id := task]);
        (Record(made, q.actor, q.key, mark, Tasked(q.id, task)), Done(Tasked(q.id, task)))
  }

  function Step(db: Db, q: Request): (Db, Reply) {
    match q
    case CreateDraft(_, _, _, _, _, _, _) => CreateDraftStep(db, q)
    case UpdateDraft(_, _, _, _, _) => UpdateDraftStep(db, q)
    case BeginEvaluation(_, _, _, _, _) => BeginEvaluationStep(db, q)
    case SaveEvaluation(_, _, _, _, _, _) => SaveEvaluationStep(db, q)
    case Publish(_, _, _, _, _, _) => PublishStep(db, q)
    case Bind(_, _, _, _) => BindStep(db, q)
    case Unbind(_, _, _) => UnbindStep(db, q)
    case CreateTask(_, _, _, _, _, _) => CreateTaskStep(db, q)
  }

  function Exec(db: Db, run: seq<Request>): Db
    decreases |run|
  {
    if run == [] then db else Exec(Step(db, run[0]).0, run[1..])
  }

  // ---------- what every state keeps ----------

  function CountOf(vs: seq<Version>, pack: Id): nat {
    if vs == [] then 0 else CountOf(vs[..|vs| - 1], pack) + if vs[|vs| - 1].pack == pack then 1 else 0
  }

  /** The k-th version of a pack to be published has number k. */
  ghost predicate Numbered(vs: seq<Version>) {
    forall k :: 0 <= k < |vs| ==> vs[k].number == CountOf(vs[..k], vs[k].pack) + 1
  }

  /** A version's own content has a passing evaluation. */
  predicate Evidenced(evaluations: map<Id, Evaluation>, v: Version) {
    && v.evaluation in evaluations && evaluations[v.evaluation] == Evaluation(v.pack, v.digest, true)
    && v.digest == Encode(v.files)
  }

  predicate DraftOk(d: Draft) {
    && d.digest == Encode(d.files) && (forall e :: e in d.files ==> SafeMember(e.path))
    && (d.manifest ==> HoldsContract(d.files))
  }

  /** The files include the tool contract. */
  predicate HoldsContract(files: seq<Entry>) {
    exists e :: e in files && e.path == "webuddy-pack.json"
  }

  predicate PinsVersion(vs: seq<Version>, version: Id, pack: Id, number: nat, digest: string) {
    exists v :: v in vs && v.id == version && v.pack == pack && v.number == number && v.digest == digest
  }

  predicate BindingOk(vs: seq<Version>, slot: (Id, Id), b: Binding) {
    PinsVersion(vs, b.version, slot.1, b.number, b.digest)
  }

  predicate TaskOk(vs: seq<Version>, t: Task) {
    PinsVersion(vs, t.version, t.pack, t.number, t.digest)
  }

  ghost predicate DistinctIds(vs: seq<Version>) {
    forall i, j :: 0 <= i < j < |vs| ==> vs[i].id != vs[j].id
  }

  ghost predicate VersionsOk(db: Db) {
    Numbered(db.versions) && DistinctIds(db.versions)
    && forall v :: v in db.versions ==>
         Evidenced(db.evaluations, v) && AllSafe(v.files) && v.manifest && HoldsContract(v.files)
  }

  ghost predicate Inv(db: Db) {
    && VersionsOk(db)
    && (forall p :: p in db.drafts ==> DraftOk(db.drafts[p]))
    && (forall s :: s in db.bindings ==> BindingOk(db.versions, s, db.bindings[s]))
    && (forall t :: t in db.tasks ==> TaskOk(db.versions, db.tasks[t]))
  }

  /** What no request ever takes back. */
  ghost predicate Grows(a: Db, b: Db) {
    && a.versions <= b.versions
    && (forall e :: e in a.evaluations ==> e in b.evaluations && b.evaluations[e] == a.evaluations[e])
    && (forall t :: t in a.tasks ==> t in b.tasks && b.tasks[t] == a.tasks[t])
    && (forall p :: p in a.owners ==> p in b.owners && b.owners[p] == a.owners[p])
    && (forall p :: p in a.drafts ==> p in b.drafts && b.drafts[p].revision >= a.drafts[p].revision)
  }

  /** Which tables a request can touch at all. */
  lemma Touches(db: Db, q: Request)
    ensures !q.Publish? ==> Step(db, q).0.versions == db.versions
    ensures !q.SaveEvaluation? ==> Step(db, q).0.evaluations == db.evaluations
    ensures !q.Bind? && !q.Unbind? ==> Step(db, q).0.bindings == db.bindings
    ensures !q.CreateTask? ==> Step(db, q).0.tasks == db.tasks
    ensures !q.CreateDraft? ==> Step(db, q).0.owners == db.owners
    ensures !q.CreateDraft? && !q.UpdateDraft? && !q.Publish? ==> Step(db, q).0.drafts == db.drafts
  {
  }

  lemma DraftGrows(db: Db, q: Request, p: Id)
    requires p in db.drafts
    ensures p in Step(db, q).0.drafts && Step(db, q).0.drafts[p].revision >= db.drafts[p].revision
  {
    Touches(db, q);
  }

  lemma VersionsGrow(db: Db, q: Request)
    ensures db.versions <= Step(db, q).0.versions
  {
    Touches(db, q);
  }

  lemma EvaluationsGrow(db: Db, q: Request)
    ensures var n := Step(db, q).0;
            forall e :: e in db.evaluations ==> e in n.evaluations && n.evaluations[e] == db.evaluations[e]
  {
    Touches(db, q);
  }

  lemma TasksGrow(db: Db, q: Request)
    ensures var n := Step(db, q).0;
            forall t :: t in db.tasks ==> t in n.tasks && n.tasks[t] == db.tasks[t]
  {
    Touches(db, q);
  }

  lemma OwnersGrow(db: Db, q: Request)
    ensures var n := Step(db, q).0;
            forall p :: p in db.owners ==> p in n.owners && n.owners[p] == db.owners[p]
  {
    Touches(db, q);
  }

  lemma StepGrows(db: Db, q: Request)
    ensures Grows(db, Step(db, q).0)
  {
    VersionsGrow(db, q);
    EvaluationsGrow(db, q);
    TasksGrow(db, q);
    OwnersGrow(db, q);
    forall p | p in db.drafts
      ensures p in Step(db, q).0.drafts && Step(db, q).0.drafts[p].revision >= db.drafts[p].revision
    {
      DraftGrows(db, q, p);
    }
  }

  /** Versions, evaluations and task snapshots are never changed or removed, in any run. */
  lemma {:induction false} RunGrows(db: Db, run: seq<Request>)
    ensures Grows(db, Exec(db, run))
    decreases |run|
  {
    if run != [] {
      StepGrows(db, run[0]);
      RunGrows(Step(db, run[0]).0, run[1..]);
    }
  }

  lemma {:induction false} LatestIsCount(vs: seq<Version>, pack: Id)
    requires Numbered(vs)
    ensures LatestNumber(vs, pack) == CountOf(vs, pack)
    decreases |vs|
  {
    if vs != [] {
      var init := vs[..|vs| - 1];
      forall k | 0 <= k < |init| ensures init[..k] == vs[..k] {}
      LatestIsCount(init, pack);
    }
  }

  /** What a publish that cuts a version has found and what it adds. */
  lemma CutFacts(db: Db, q: Request)
    requires q.Publish? && Step(db, q).0.versions != db.versions
    ensures q.pack in db.drafts && q.expected == db.drafts[q.pack].revision
    ensures var d := db.drafts[q.pack];
            var v := Version(q.id, q.pack, LatestNumber(db.versions, q.pack) + 1, d.digest, d.files, q.evaluation,
                             d.manifest);
            && Step(db, q).0.versions == db.versions + [v]
            && (forall w :: w in db.versions ==> w.id != q.id)
            && d.manifest
            && q.evaluation in db.evaluations && db.evaluations[q.evaluation] == Evaluation(q.pack, d.digest, true)
            && q.pack in Step(db, q).0.drafts && Step(db, q).0.drafts[q.pack] == d.(revision := d.revision + 1)
  {
  }

  lemma NumberedAppends(vs: seq<Version>, v: Version)
    requires Numbered(vs) && DistinctIds(vs) && v.number == LatestNumber(vs, v.pack) + 1
    requires forall w :: w in vs ==> w.id != v.id
    ensures Numbered(vs + [v]) && DistinctIds(vs + [v])
  {
    LatestIsCount(vs, v.pack);
    var now := vs + [v];
    forall k | 0 <= k < |vs| ensures now[..k] == vs[..k] {}
    assert now[..|vs|] == vs;
  }

  lemma VersionsStep(db: Db, q: Request)
    requires Inv(db)
    ensures VersionsOk(Step(db, q).0)
  {
    var n := Step(db, q).0;
    Touches(db, q);
    EvaluationsGrow(db, q);
    if n.versions != db.versions {
      CutFacts(db, q);
      assert DraftOk(db.drafts[q.pack]);
      NumberedAppends(db.versions, n.versions[|db.versions|]);
    }
  }

  lemma NewDraftOk(revision: nat, us: seq<Upload>, contract: bool)
    requires forall u :: u in us ==> Acceptable(u)
    ensures DraftOk(NewDraft(revision, us, contract))
  {
    forall e | e in Entries(us) ensures SafeMember(e.path) {
      var i :| 0 <= i < |us| && Entries(us)[i] == e;
      assert us[i] in us;
    }
  }

  lemma MadeDraftOk(db: Db, q: Request, p: Id)
    requires q.CreateDraft? && p in CreateDraftStep(db, q).0.drafts
    ensures (p in db.drafts && CreateDraftStep(db, q).0.drafts[p] == db.drafts[p])
            || DraftOk(CreateDraftStep(db, q).0.drafts[p])
  {
    NewDraftOk(1, Kept(q.picked), q.contract);
  }

  lemma ReplacedDraftOk(db: Db, q: Request, p: Id)
    requires q.UpdateDraft? && p in UpdateDraftStep(db, q).0.drafts
    ensures (p in db.drafts && UpdateDraftStep(db, q).0.drafts[p] == db.drafts[p])
            || DraftOk(UpdateDraftStep(db, q).0.drafts[p])
  {
    if UpdateDraftStep(db, q).0 != db {
      NewDraftOk(db.drafts[q.pack].revision + 1, q.uploads, q.contract);
    }
  }

  lemma CutDraftOk(db: Db, q: Request, p: Id)
    requires q.Publish? && p in PublishStep(db, q).0.drafts
    ensures p in db.drafts && (DraftOk(db.drafts[p]) ==> DraftOk(PublishStep(db, q).0.drafts[p]))
  {
  }

  lemma DraftsStep(db: Db, q: Request, p: Id)
    requires Inv(db) && p in Step(db, q).0.drafts
    ensures DraftOk(Step(db, q).0.drafts[p])
  {
    if q.CreateDraft? {
      MadeDraftOk(db, q, p);
    } else if q.UpdateDraft? {
      ReplacedDraftOk(db, q, p);
    } else if q.Publish? {
      CutDraftOk(db, q, p);
    } else {
      Touches(db, q);
    }
  }

  lemma PinsStay(db: Db, q: Request, version: Id, pack: Id, number: nat, digest: string)
    requires PinsVersion(db.versions, version, pack, number, digest)
    ensures PinsVersion(Step(db, q).0.versions, version, pack, number, digest)
  {
    StepGrows(db, q);
    var v :| v in db.versions && v.id == version && v.pack == pack && v.number == number && v.digest == digest;
    assert v in Step(db, q).0.versions;
  }

  lemma BoundFacts(db: Db, q: Request, s: (Id, Id))
    requires q.Bind? && s in BindStep(db, q).0.bindings
    requires s in db.bindings ==> db.bindings[s] != BindStep(db, q).0.bindings[s]
    ensures BindingOk(db.versions, s, BindStep(db, q).0.bindings[s])
  {
    assert Find(db.versions, q.version).Some?;
  }

  lemma BindingsStep(db: Db, q: Request, s: (Id, Id))
    requires s in db.bindings ==> BindingOk(db.versions, s, db.bindings[s])
    requires s in Step(db, q).0.bindings
    ensures BindingOk(Step(db, q).0.versions, s, Step(db, q).0.bindings[s])
  {
    var b := Step(db, q).0.bindings[s];
    Touches(db, q);
    if s in db.bindings && db.bindings[s] == b {
      assert BindingOk(db.versions, s, b);
    } else {
      BoundFacts(db, q, s);
    }
    PinsStay(db, q, b.version, s.1, b.number, b.digest);
  }

  lemma SameIdSameVersion(vs: seq<Version>, v: Version, w: Version)
    requires DistinctIds(vs) && v in vs && w in vs && v.id == w.id
    ensures v == w
  {
  }

  lemma TasksStep(db: Db, q: Request, t: Id)
    requires DistinctIds(db.versions) && forall s :: s in db.bindings ==> BindingOk(db.versions, s, db.bindings[s])
    requires t in db.tasks ==> TaskOk(db.versions, db.tasks[t])
    requires t in Step(db, q).0.tasks
    ensures TaskOk(Step(db, q).0.versions, Step(db, q).0.tasks[t])
  {
    var task := Step(db, q).0.tasks[t];
    Touches(db, q);
    if t in db.tasks {
      TasksGrow(db, q);
      assert TaskOk(db.versions, task);
    } else {
      assert q.CreateTask? && t in CreateTaskStep(db, q).0.tasks;
      FrozenFacts(db, q, t);
    }
    PinsStay(db, q, task.version, task.pack, task.number, task.digest);
  }

  lemma FrozenFacts(db: Db, q: Request, t: Id)
    requires q.CreateTask? && DistinctIds(db.versions) && t !in db.tasks && t in CreateTaskStep(db, q).0.tasks
    requires forall s :: s in db.bindings ==> BindingOk(db.versions, s, db.bindings[s])
    ensures TaskOk(db.versions, CreateTaskStep(db, q).0.tasks[t])
    ensures var task := CreateTaskStep(db, q).0.tasks[t];
            && t == q.id && task.actor == q.actor.id && task.agent == q.agent && task.pack == q.pack
            && task.version == db.bindings[(q.agent, q.pack)].version
            && task.bound == db.bindings[(q.agent, q.pack)].revision
  {
    var b := db.bindings[(q.agent, q.pack)];
    assert BindingOk(db.versions, (q.agent, q.pack), b);
    var v :| v in db.versions && v.id == b.version && v.pack == q.pack && v.number == b.number && v.digest == b.digest;
    SameIdSameVersion(db.versions, v, Find(db.versions, b.version).value);
  }

  lemma {:induction false} InvRun(db: Db, run: seq<Request>)
    requires Inv(db)
    ensures Inv(Exec(db, run))
    decreases |run|
  {
    if run != [] {
      var n := Step(db, run[0]).0;
      VersionsStep(db, run[0]);
      forall p | p in n.drafts ensures DraftOk(n.drafts[p]) { DraftsStep(db, run[0], p); }
      forall s | s in n.bindings ensures BindingOk(n.versions, s, n.bindings[s]) { BindingsStep(db, run[0], s); }
      forall t | t in n.tasks ensures TaskOk(n.versions, n.tasks[t]) { TasksStep(db, run[0], t); }
      InvRun(n, run[1..]);
    }
  }

  // ---------- what every run guarantees ----------

  function Empty(artifacts: map<Id, string>): Db {
    Db(map[], map[], map[], [], map[], map[], artifacts, map[])
  }

  /** Whatever files an evaluation was run against, a version published on it holds exactly them. */
  lemma PublishedMeansEvaluated(artifacts: map<Id, string>, run: seq<Request>, v: Version, files: seq<Entry>)
    requires v in Exec(Empty(artifacts), run).versions && AllSafe(files)
    ensures var evaluations := Exec(Empty(artifacts), run).evaluations;
            && v.evaluation in evaluations && evaluations[v.evaluation].pack == v.pack
            && evaluations[v.evaluation].passed
            && (evaluations[v.evaluation].digest == Encode(files) <==> SamePerPath(v.files, files))
            && (evaluations[v.evaluation].digest == Encode(files) ==> multiset(v.files) == multiset(files))
  {
    InvRun(Empty(artifacts), run);
    assert Evidenced(Exec(Empty(artifacts), run).evaluations, v);
    DigestIdentifies(v.files, files);
  }

  /** A candidate edited after its evaluation cannot be published on it. */
  lemma StaleEvidenceIsRefused(artifacts: map<Id, string>, run: seq<Request>, q: Request, files: seq<Entry>)
    requires q.Publish? && AllSafe(files)
    ensures var db := Exec(Empty(artifacts), run);
            && q.pack in db.drafts && q.evaluation in db.evaluations
            && db.evaluations[q.evaluation].digest == Encode(files)
            && multiset(files) != multiset(db.drafts[q.pack].files)
            ==> Step(db, q).0.versions == db.versions
  {
    var db := Exec(Empty(artifacts), run);
    InvRun(Empty(artifacts), run);
    if Step(db, q).0.versions != db.versions {
      CutFacts(db, q);
      assert DraftOk(db.drafts[q.pack]);
      DigestIdentifies(files, db.drafts[q.pack].files);
    }
  }

  lemma {:induction false} NumberAtMost(vs: seq<Version>, j: nat)
    requires Numbered(vs) && j < |vs|
    ensures 1 <= vs[j].number <= CountOf(vs, vs[j].pack)
    decreases |vs|
  {
    var init := vs[..|vs| - 1];
    forall k | 0 <= k < |init| ensures init[..k] == vs[..k] && init[k] == vs[k] {}
    if j < |init| {
      NumberAtMost(init, j);
    }
  }

  lemma NumbersAscend(vs: seq<Version>, j: nat, k: nat)
    requires Numbered(vs) && j < k < |vs| && vs[j].pack == vs[k].pack
    ensures vs[j].number < vs[k].number
  {
    var init := vs[..k];
    forall i | 0 <= i < k ensures init[..i] == vs[..i] && init[i] == vs[i] {}
    NumberAtMost(init, j);
  }

  lemma {:induction false} NumberIsTaken(vs: seq<Version>, pack: Id, n: nat) returns (k: nat)
    requires Numbered(vs) && 1 <= n <= CountOf(vs, pack)
    ensures k < |vs| && vs[k].pack == pack && vs[k].number == n
    decreases |vs|
  {
    var init := vs[..|vs| - 1];
    forall i | 0 <= i < |init| ensures init[..i] == vs[..i] && init[i] == vs[i] {}
    if n <= CountOf(init, pack) {
      k := NumberIsTaken(init, pack, n);
    } else {
      k := |init|;
    }
  }

  /** In every reachable state the versions of a pack are numbered 1 to n, each number once, in
      the order they were cut. */
  lemma VersionsAreNumbered(artifacts: map<Id, string>, run: seq<Request>, pack: Id, n: nat)
    ensures var vs := Exec(Empty(artifacts), run).versions;
            && ((exists k :: 0 <= k < |vs| && vs[k].pack == pack && vs[k].number == n) <==> 1 <= n <= CountOf(vs, pack))
            && forall j, k :: 0 <= j < k < |vs| && vs[j].pack == vs[k].pack ==> vs[j].number < vs[k].number
  {
    InvRun(Empty(artifacts), run);
    NumbersAreExact(Exec(Empty(artifacts), run).versions, pack, n);
  }

  lemma NumbersAreExact(vs: seq<Version>, pack: Id, n: nat)
    requires Numbered(vs)
    ensures (exists k :: 0 <= k < |vs| && vs[k].pack == pack && vs[k].number == n) <==> 1 <= n <= CountOf(vs, pack)
    ensures forall j, k :: 0 <= j < k < |vs| && vs[j].pack == vs[k].pack ==> vs[j].number < vs[k].number
  {
    forall j, k | 0 <= j < k < |vs| && vs[j].pack == vs[k].pack ensures vs[j].number < vs[k].number {
      NumbersAscend(vs, j, k);
    }
    forall k | 0 <= k < |vs| && vs[k].pack == pack ensures 1 <= vs[k].number <= CountOf(vs, pack) {
      NumberAtMost(vs, k);
    }
    if 1 <= n <= CountOf(vs, pack) {
      var k := NumberIsTaken(vs, pack, n);
    }
  }

  /** A request that has used up the draft revision it expected. */
  predicate Takes(db: Db, q: Request) {
    || (q.Publish? && Step(db, q).0.versions != db.versions)
    || (q.UpdateDraft? && Step(db, q).1 == Updated)
  }

  lemma TakingMovesOn(db: Db, q: Request)
    requires Takes(db, q)
    ensures q.pack in db.drafts && q.expected == db.drafts[q.pack].revision
    ensures q.pack in Step(db, q).0.drafts && Step(db, q).0.drafts[q.pack].revision > q.expected
  {
    if q.Publish? { CutFacts(db, q); }
  }

  /** Of all publishes and draft changes that hold one expected revision of a pack at most one
      takes effect, whatever happens in between; so one revision cuts at most one version. */
  lemma OneTakerPerRevision(db: Db, a: Request, between: seq<Request>, b: Request)
    requires (a.Publish? || a.UpdateDraft?) && (b.Publish? || b.UpdateDraft?)
    requires a.pack == b.pack && a.expected == b.expected && Takes(db, a)
    ensures !Takes(Exec(Step(db, a).0, between), b)
  {
    TakingMovesOn(db, a);
    var n := Exec(Step(db, a).0, between);
    RunGrows(Step(db, a).0, between);
    if Takes(n, b) {
      TakingMovesOn(n, b);
    }
  }

  // ---------- who may do what, and when it takes effect ----------

  /** The pack a request changes, if it is there. */
  function PackOf(db: Db, q: Request): Option<Id> {
    match q
    case UpdateDraft(p, _, _, _, _) => Some(p)
    case BeginEvaluation(p, _, _, _, _) => Some(p)
    case SaveEvaluation(_, p, _, _, _, _) => Some(p)
    case Publish(_, p, _, _, _, _) => Some(p)
    case Bind(_, v, _, _) => var found := Find(db.versions, v); if found.Some? then Some(found.value.pack) else None
    case Unbind(_, p, _) => Some(p)
    case _ => None
  }

  /** Neither the owner of the pack nor an admin: every request to change the pack is denied and
      leaves all tables as they are. Only unusable uploads are refused before that. */
  lemma StrangersAreDenied(db: Db, q: Request, p: Id)
    requires PackOf(db, q) == Some(p) && p in db.owners
    requires q.actor.id != db.owners[p] && !q.actor.admin
    ensures Step(db, q).0 == db
    ensures Step(db, q).1 == Denied || (q.UpdateDraft? && Step(db, q).1 == Invalid)
    ensures q.UpdateDraft? && Step(db, q).1 == Invalid <==>
              q.UpdateDraft? && ((exists u :: u in q.uploads && !Acceptable(u)) || !Fits(q.uploads))
  {
  }

  /** All that belongs to a pack: its owner, draft, versions, evaluations and bindings. */
  ghost predicate Untouched(a: Db, b: Db, p: Id) {
    && (p in a.owners <==> p in b.owners) && (p in a.owners ==> b.owners[p] == a.owners[p])
    && (p in a.drafts <==> p in b.drafts) && (p in a.drafts ==> b.drafts[p] == a.drafts[p])
    && (forall v: Version :: v.pack == p ==> (v in a.versions <==> v in b.versions))
    && (forall e :: e in a.evaluations ==> e in b.evaluations && b.evaluations[e] == a.evaluations[e])
    && (forall e :: e in b.evaluations && b.evaluations[e].pack == p ==> e in a.evaluations)
    && (forall g :: (g, p) in a.bindings <==> (g, p) in b.bindings)
    && (forall g :: (g, p) in a.bindings ==> b.bindings[(g, p)] == a.bindings[(g, p)])
  }

  lemma OtherPacksStay(db: Db, q: Request, p: Id)
    requires p in db.owners && PackOf(db, q) != Some(p)
    ensures Untouched(db, Step(db, q).0, p)
  {
    Touches(db, q);
    EvaluationsGrow(db, q);
    OwnersGrow(db, q);
    if q.Publish? && Step(db, q).0.versions != db.versions { CutFacts(db, q); }
  }

  lemma UntouchedTwice(a: Db, b: Db, c: Db, p: Id)
    requires Untouched(a, b, p) && Untouched(b, c, p)
    ensures Untouched(a, c, p)
  {
  }

  /** So over any run whose requests all come from people who are neither the owner of a pack nor
      admins, whatever they ask, the pack stays exactly as it was. */
  lemma {:induction false} StrangersChangeNothing(db: Db, run: seq<Request>, p: Id)
    requires p in db.owners
    requires forall q :: q in run ==> q.actor.id != db.owners[p] && !q.actor.admin
    ensures Untouched(db, Exec(db, run), p)
    decreases |run|
  {
    if run != [] {
      var q, n := run[0], Step(db, run[0]).0;
      assert q in run && forall r :: r in run[1..] ==> r in run;
      if PackOf(db, q) == Some(p) { StrangersAreDenied(db, q, p); } else { OtherPacksStay(db, q, p); }
      StrangersChangeNothing(n, run[1..], p);
      UntouchedTwice(db, n, Exec(n, run[1..]), p);
    }
  }

  /** A version is cut exactly when the actor is the owner or an admin, the draft is the expected one
      and holds the tool contract, and the evaluation named is a passing one of just this content. */
  lemma PublishesWhen(db: Db, q: Request)
    requires q.Publish? && (q.key == "" || (q.actor.id, q.key) !in db.ops)
    requires forall v :: v in db.versions ==> v.id != q.id
    ensures Step(db, q).0.versions != db.versions <==>
              && q.pack in db.owners && (q.actor.id == db.owners[q.pack] || q.actor.admin)
              && q.pack in db.drafts && q.expected == db.drafts[q.pack].revision && db.drafts[q.pack].manifest
              && q.evaluation in db.evaluations && db.evaluations[q.evaluation].pack == q.pack
              && db.evaluations[q.evaluation].digest == db.drafts[q.pack].digest
              && db.evaluations[q.evaluation].passed
  {
  }

  /** A draft is replaced exactly under these conditions, by the uploads in their order; it holds the
      contract exactly when the manifest is valid and among them. */
  lemma UpdatesWhen(db: Db, q: Request)
    requires q.UpdateDraft?
    ensures Step(db, q).1 == Updated <==>
              && (forall u :: u in q.uploads ==> Acceptable(u)) && Fits(q.uploads)
              && q.pack in db.owners && (q.actor.id == db.owners[q.pack] || q.actor.admin)
              && q.pack in db.drafts && q.expected == db.drafts[q.pack].revision
    ensures Step(db, q).1 == Updated ==>
              var d := Step(db, q).0.drafts[q.pack];
              && d.revision == db.drafts[q.pack].revision + 1 && |d.files| == |q.uploads|
              && (forall i :: 0 <= i < |d.files| ==> d.files[i] == q.uploads[i].entry)
              && (d.manifest <==> q.contract && HoldsContract(d.files))
    ensures Step(db, q).1 != Updated ==> Step(db, q).0 == db
  {
  }

  /** An evaluation is saved exactly for an owner or admin, as it is given. */
  lemma EvaluatesWhen(db: Db, q: Request)
    requires q.SaveEvaluation? && q.id !in db.evaluations
    ensures q.pack in db.owners && (q.actor.id == db.owners[q.pack] || q.actor.admin) ==>
              Step(db, q).0.evaluations == db.evaluations[q.id := Evaluation(q.pack, q.digest, q.passed)]
    ensures !(q.pack in db.owners && (q.actor.id == db.owners[q.pack] || q.actor.admin)) ==> Step(db, q).0 == db
  {
  }

  /** An evaluation is begun, and its job noted under the request's key, exactly for the owner or an
      admin; the key then stands for this pack, these files and this job. */
  lemma BeginsWhen(db: Db, q: Request)
    requires q.BeginEvaluation? && q.key != "" && (q.actor.id, q.key) !in db.ops
    ensures q.pack in db.owners && (q.actor.id == db.owners[q.pack] || q.actor.admin) ==>
              && Step(db, q).1 == Done(Registered(q.job))
              && Step(db, q).0 == db.(ops := db.ops[(q.actor.id, q.key) :=
                                        Operation(OfEvaluation(q.pack, q.digest), Registered(q.job))])
    ensures !(q.pack in db.owners && (q.actor.id == db.owners[q.pack] || q.actor.admin)) ==>
              Step(db, q).0 == db && Step(db, q).1 in {Missing, Denied}
  {
  }

  /** A binding is set exactly when the version is there, the actor may, and nobody else has changed
      the binding since; it pins that version. */
  lemma BindsWhen(db: Db, q: Request)
    requires q.Bind? && DistinctIds(db.versions)
    ensures Step(db, q).1 == Updated <==> exists v :: v in db.versions && MayBind(db, q, v)
    ensures forall v :: v in db.versions && MayBind(db, q, v) ==>
              && (q.agent, v.pack) in Step(db, q).0.bindings
              && Step(db, q).0.bindings[(q.agent, v.pack)] == Binding(v.id, v.number, v.digest, q.expected + 1)
    ensures Step(db, q).1 != Updated ==> Step(db, q).0 == db
  {
    var found := Find(db.versions, q.version);
    forall v | v in db.versions && v.id == q.version ensures found == Some(v) {
      SameIdSameVersion(db.versions, v, found.value);
    }
  }

  predicate MayBind(db: Db, q: Request, v: Version)
    requires q.Bind?
  {
    && v.id == q.version && v.pack in db.owners && (q.actor.id == db.owners[v.pack] || q.actor.admin)
    && q.expected == if (q.agent, v.pack) in db.bindings then db.bindings[(q.agent, v.pack)].revision else 0
  }

  /** A binding is taken away by the owner or an admin, and no other binding with it. */
  lemma UnbindsWhen(db: Db, q: Request)
    requires q.Unbind? && q.pack in db.owners
    ensures q.actor.id == db.owners[q.pack] || q.actor.admin ==>
              && Step(db, q).1 == Updated && (q.agent, q.pack) !in Step(db, q).0.bindings
              && forall s :: s in db.bindings && s != (q.agent, q.pack) ==>
                   s in Step(db, q).0.bindings && Step(db, q).0.bindings[s] == db.bindings[s]
  {
  }

  /** A task is made exactly when the agent is bound to the pack, the version is still there, and each
      input file is there and the actor's own, unless an admin asks. */
  lemma CreatesTaskWhen(db: Db, q: Request)
    requires q.CreateTask? && (q.key == "" || (q.actor.id, q.key) !in db.ops) && q.id !in db.tasks
    ensures Step(db, q).0.tasks != db.tasks <==>
              && (q.agent, q.pack) in db.bindings
              && (exists v :: v in db.versions && v.id == db.bindings[(q.agent, q.pack)].version)
              && forall i :: i in q.inputs ==> i in db.artifacts && (db.artifacts[i] == q.actor.id || q.actor.admin)
  {
    TaskIsMade(db, q);
    if (q.agent, q.pack) in db.bindings && Find(db.versions, db.bindings[(q.agent, q.pack)].version).Some? {
      assert Find(db.versions, db.bindings[(q.agent, q.pack)].version).value in db.versions;
    }
  }

  lemma TaskIsMade(db: Db, q: Request)
    requires q.CreateTask? && (q.key == "" || (q.actor.id, q.key) !in db.ops) && q.id !in db.tasks
    ensures Step(db, q).0.tasks != db.tasks <==>
              && (q.agent, q.pack) in db.bindings && InputsReply(db, q.actor, q.inputs).None?
              && Find(db.versions, db.bindings[(q.agent, q.pack)].version).Some?
  {
    assert Step(db, q) == CreateTaskStep(db, q);
    assert q.id in Step(db, q).0.tasks ==> Step(db, q).0.tasks != db.tasks;
  }

  // ---------- operation keys ----------

  /** A saved evaluation records its key without looking whether it has been used. */
  predicate Overwrites(db: Db, q: Request, who: string, key: string) {
    && q.SaveEvaluation? && q.actor.id == who && q.key == key
    && q.pack in db.owners && Maintains(db, q.pack, q.actor) && q.id !in db.evaluations
  }

  predicate Overwritten(db: Db, run: seq<Request>, who: string, key: string)
    decreases |run|
  {
    run != [] && (Overwrites(db, run[0], who, key) || Overwritten(Step(db, run[0]).0, run[1..], who, key))
  }

  lemma KeyStep(db: Db, q: Request, who: string, key: string)
    requires key != "" && (who, key) in db.ops
    ensures (who, key) in Step(db, q).0.ops
    ensures if Overwrites(db, q, who, key) then Step(db, q).0.ops[(who, key)].mark.OfEvaluation?
            else Step(db, q).0.ops[(who, key)] == db.ops[(who, key)]
  {
  }

  lemma {:induction false} KeyRun(db: Db, run: seq<Request>, who: string, key: string)
    requires key != "" && (who, key) in db.ops
    ensures (who, key) in Exec(db, run).ops
    ensures !Overwritten(db, run, who, key) ==> Exec(db, run).ops[(who, key)] == db.ops[(who, key)]
    ensures Overwritten(db, run, who, key) || db.ops[(who, key)].mark.OfEvaluation? ==>
              Exec(db, run).ops[(who, key)].mark.OfEvaluation?
    decreases |run|
  {
    if run != [] {
      KeyStep(db, run[0], who, key);
      KeyRun(Step(db, run[0]).0, run[1..], who, key);
    }
  }

  /** The fingerprint a request is recorded under. */
  function MarkOf(q: Request): Fingerprint
    requires q.Publish? || q.CreateTask?
  {
    if q.Publish? then OfPublish(q.pack, q.expected, q.evaluation) else OfTask(q.agent, q.pack, multiset(q.inputs))
  }

  /** The request sent once more; the row it would insert gets a new id. */
  function Again(q: Request, id: Id): (r: Request)
    requires q.Publish? || q.CreateTask?
    ensures (r.Publish? <==> q.Publish?) && (r.CreateTask? <==> q.CreateTask?)
    ensures MarkOf(r) == MarkOf(q) && r.actor == q.actor && r.key == q.key && r.pack == q.pack
  {
    match q
    case Publish(_, pack, actor, key, expected, evaluation) => Publish(id, pack, actor, key, expected, evaluation)
    case CreateTask(_, agent, pack, actor, key, inputs) => CreateTask(id, agent, pack, actor, key, inputs)
  }

  lemma PublishIsRecorded(db: Db, q: Request)
    requires q.Publish? && q.key != "" && PublishStep(db, q).1.Done?
    ensures var (n, r) := PublishStep(db, q);
            && (q.actor.id, q.key) in n.ops && n.ops[(q.actor.id, q.key)] == Operation(MarkOf(q), r.value)
            && q.pack in db.owners && Maintains(db, q.pack, q.actor)
  {
  }

  lemma TaskIsRecorded(db: Db, q: Request)
    requires q.CreateTask? && q.key != "" && CreateTaskStep(db, q).1.Done?
    ensures var (n, r) := CreateTaskStep(db, q);
            (q.actor.id, q.key) in n.ops && n.ops[(q.actor.id, q.key)] == Operation(MarkOf(q), r.value)
  {
  }

  /** Sending a successful publish or task request again, after any run, changes nothing and gives
      the first result, exactly when no evaluation was saved under its key in between; if one was,
      the repetition is refused as a conflict. */
  lemma RepetitionsReplay(db: Db, q: Request, between: seq<Request>, id: Id)
    requires (q.Publish? || q.CreateTask?) && q.key != "" && Step(db, q).1.Done?
    ensures var n := Exec(Step(db, q).0, between);
            Step(n, Again(q, id)) ==
              if Overwritten(Step(db, q).0, between, q.actor.id, q.key) then (n, Conflict) else (n, Step(db, q).1)
  {
    var first := Step(db, q).0;
    if q.Publish? { PublishIsRecorded(db, q); } else { TaskIsRecorded(db, q); }
    KeyRun(first, between, q.actor.id, q.key);
    StepGrows(db, q);
    RunGrows(first, between);
    Repeated(Exec(first, between), Again(q, id));
  }

  lemma Repeated(n: Db, q: Request)
    requires (q.Publish? || q.CreateTask?) && q.key != "" && (q.actor.id, q.key) in n.ops
    requires q.Publish? ==> q.pack in n.owners && Maintains(n, q.pack, q.actor)
    ensures var op := n.ops[(q.actor.id, q.key)];
            Step(n, q) == if op.mark == MarkOf(q) then (n, Done(op.value)) else (n, Conflict)
  {
  }

  /** A maintainer publishes under a key and then saves an evaluation under the same key: the
      repeated publish is refused. */
  lemma SavingUnderAKeyOverwrites(db: Db, q: Request, save: Request, id: Id)
    requires q.Publish? && q.key != "" && Step(db, q).1.Done? && save.SaveEvaluation?
    requires save.pack == q.pack && save.actor == q.actor && save.key == q.key && save.id !in Step(db, q).0.evaluations
    ensures var n := Exec(Step(db, q).0, [save]);
            Step(n, Again(q, id)) == (n, Conflict)
  {
    PublishIsRecorded(db, q);
    StepGrows(db, q);
    assert Overwrites(Step(db, q).0, save, q.actor.id, q.key);
    assert Overwritten(Step(db, q).0, [save], q.actor.id, q.key);
    RepetitionsReplay(db, q, [save], id);
  }

  // A concrete run in which a repeated publish is refused.

  const MAKER := Actor("maker", false)

  function TheFile(): Upload { Upload(Entry(MANIFEST_NAME, "00"), 1) }

  lemma TheFileIsAcceptable()
    ensures Acceptable(TheFile())
  {
    PlainNameIsSafe(MANIFEST_NAME);
  }

  /** A draft of one file and its passing evaluation. */
  function Drafting(u: Upload): seq<Request> {
    [CreateDraft("p", MAKER, "", "s", {}, [u], true),
     SaveEvaluation("e", "p", MAKER, "", Encode(Entries([u])), true)]
  }

  lemma DraftingRun(u: Upload)
    requires Acceptable(u) && u.size == 1
    ensures Exec(Empty(map[]), Drafting(u)) ==
            Empty(map[]).(owners := map["p" := "maker"], drafts := map["p" := NewDraft(1, [u], true)],
                          evaluations := map["e" := Evaluation("p", Encode(Entries([u])), true)])
  {
    var run := Drafting(u);
    CreatingTheDraft(u, run[0]);
    InTurn(Empty(map[]), run[0], run[1]);
    SavingTheEvaluation(Step(Empty(map[]), run[0]).0, run[1]);
  }

  lemma InTurn(db: Db, a: Request, b: Request)
    ensures Exec(db, [a, b]) == Step(Step(db, a).0, b).0
  {
    assert [a, b][1..] == [b] && [b][1..] == [];
    assert Exec(Step(db, a).0, [b]) == Step(Step(db, a).0, b).0;
  }

  lemma SavingTheEvaluation(db: Db, q: Request)
    requires q.SaveEvaluation? && q.key == "" && q.pack in db.owners && db.owners[q.pack] == q.actor.id
    requires q.id !in db.evaluations
    ensures Step(db, q).0 ==
            db.(evaluations := db.evaluations[q.id := Evaluation(q.pack, q.digest, q.passed)])
  {
  }

  lemma CreatingTheDraft(u: Upload, q: Request)
    requires Acceptable(u) && u.size == 1 && q.CreateDraft? && q.key == "" && q.picked == [u]
    ensures Step(Empty(map[]), q).0 ==
            Empty(map[]).(owners := map[q.id := q.actor.id], drafts := map[q.id := NewDraft(1, [u], q.contract)])
  {
    OneUpload(u);
  }

  lemma OneUpload(u: Upload)
    requires Acceptable(u) && u.size == 1
    ensures Kept([u]) == [u] && Fits([u])
  {
    assert [u][1..] == [] && Kept([u][1..]) == [];
  }

  // A concrete update that lists one path with two contents.

  function OtherFile(): Upload { Upload(Entry(MANIFEST_NAME, "11"), 1) }

  lemma TwoUploads(u: Upload, v: Upload)
    requires Acceptable(u) && Acceptable(v) && u.size == v.size == 1
    ensures Fits([u, v]) && Entries([u, v]) == [u.entry, v.entry] && forall w :: w in [u, v] ==> Acceptable(w)
  {
    assert [u, v][1..] == [v] && [v][1..] == [];
    assert Total([v]) == 1;
  }

  /** The owner may replace the draft by the two, in either order. */
  lemma TwoContentsAreAccepted(db: Db, q: Request, u: Upload, v: Upload)
    requires q.UpdateDraft? && q.uploads == [u, v] && Acceptable(u) && Acceptable(v) && u.size == v.size == 1
    requires q.pack in db.owners && db.owners[q.pack] == q.actor.id
    requires q.pack in db.drafts && db.drafts[q.pack].revision == q.expected
    ensures Step(db, q).1 == Updated && Step(db, q).0.drafts[q.pack].digest == Encode([u.entry, v.entry])
  {
    TwoUploads(u, v);
  }

  lemma OrderShowsInTheDigest(a: Entry, b: Entry)
    requires SafeMember(a.path) && a.path == b.path && a != b
    ensures Encode([a, b]) != Encode([b, a])
  {
    assert [a, b][1..] == [b] && [b, a][1..] == [a] && [a][1..] == [] && [b][1..] == [];
    assert At([b], a.path) == [b] && At([a], a.path) == [a];
    assert At([a, b], a.path)[0] == a && At([b, a], a.path)[0] == b;
    DigestIdentifies([a, b], [b, a]);
  }

  /** After the draft was made: both orders are accepted, and they have different digests. */
  lemma OneNameTwoContents()
    ensures var u, v := TheFile(), OtherFile();
            var db := Exec(Empty(map[]), Drafting(u));
            var one := Step(db, UpdateDraft("p", MAKER, 1, [u, v], true));
            var other := Step(db, UpdateDraft("p", MAKER, 1, [v, u], true));
            && one.1 == Updated && other.1 == Updated
            && one.0.drafts["p"].digest != other.0.drafts["p"].digest
  {
    var u, v := TheFile(), OtherFile();
    TheFileIsAcceptable();
    DraftingRun(u);
    var db := Exec(Empty(map[]), Drafting(u));
    TwoContentsAreAccepted(db, UpdateDraft("p", MAKER, 1, [u, v], true), u, v);
    TwoContentsAreAccepted(db, UpdateDraft("p", MAKER, 1, [v, u], true), v, u);
    OrderShowsInTheDigest(u.entry, v.entry);
  }

  /** The same publish under a key, before and after an evaluation was saved under that key. */
  lemma RepetitionRefused()
    ensures var publish := Publish("v", "p", MAKER, "k", 1, "e");
            var (published, first) := Step(Exec(Empty(map[]), Drafting(TheFile())), publish);
            var saved := Exec(published, [SaveEvaluation("f", "p", MAKER, "k", "", true)]);
            first.Done? && Step(saved, publish) == (saved, Conflict)
  {
    var u, publish := TheFile(), Publish("v", "p", MAKER, "k", 1, "e");
    TheFileIsAcceptable();
    DraftingRun(u);
    FirstPublish(Exec(Empty(map[]), Drafting(u)), u, publish);
    SavingUnderAKeyOverwrites(Exec(Empty(map[]), Drafting(u)), publish,
                              SaveEvaluation("f", "p", MAKER, "k", "", true), "v");
  }

  lemma FirstPublish(db: Db, u: Upload, q: Request)
    requires u.entry.path == MANIFEST_NAME && q.Publish? && q.pack in db.owners && db.owners[q.pack] == q.actor.id
    requires q.pack in db.drafts && db.drafts[q.pack] == NewDraft(1, [u], true) && q.expected == 1
    requires db.evaluations == map[q.evaluation := Evaluation(q.pack, Encode(Entries([u])), true)]
    requires db.ops == map[] && db.versions == []
    ensures Step(db, q).1.Done? && Step(db, q).0.evaluations == db.evaluations
  {
    assert Entries([u])[0].path == MANIFEST_NAME;
  }

  // ---------- the store ----------

  lemma {:induction false} ExecSplits(db: Db, run: seq<Request>, k: nat)
    requires k <= |run|
    ensures Exec(db, run) == Exec(Exec(db, run[..k]), run[k..])
    ensures k + 1 == |run| ==> Exec(db, run) == Step(Exec(db, run[..k]), run[k]).0
    decreases |run|
  {
    if k == 0 {
      assert run[0..] == run && run[..0] == [];
    } else {
      assert run[..k][0] == run[0] && run[..k][1..] == run[1..][..k - 1] && run[1..][k - 1..] == run[k..];
      ExecSplits(Step(db, run[0]).0, run[1..], k - 1);
    }
    if k + 1 == |run| {
      assert run[k..][1..] == [];
    }
  }

  /** The tables; every method is one transaction. */
  class Store {
    var owners: map<Id, string>
    var drafts: map<Id, Draft>
    var evaluations: map<Id, Evaluation>
    var versions: seq<Version>
    var bindings: map<(Id, Id), Binding>
    var tasks: map<Id, Task>
    const artifacts: map<Id, string>
    var ops: map<(string, string), Operation>
    /** Every request this store has seen since it was empty. */
    ghost var log: seq<Request>

    function Tables(): Db
      reads this
    {
      Db(owners, drafts, evaluations, versions, bindings, tasks, artifacts, ops)
    }

    ghost predicate Valid()
      reads this
    {
      Tables() == Exec(Empty(artifacts), log)
    }

    constructor (artifacts: map<Id, string>)
      ensures Valid() && log == [] && this.artifacts == artifacts
    {
      this.artifacts := artifacts;
      owners, drafts, evaluations, versions := map[], map[], map[], [];
      bindings, tasks, ops, log := map[], map[], map[], [];
    }

    /** Every version in this store has a passing evaluation of its own pack, and whatever files that
        evaluation was run against are the version's files. */
    lemma VersionsAreEvidenced(v: Version, files: seq<Entry>)
      requires Valid() && v in versions && AllSafe(files)
      ensures v.evaluation in evaluations && evaluations[v.evaluation].pack == v.pack
              && evaluations[v.evaluation].passed
      ensures evaluations[v.evaluation].digest == Encode(files) ==> multiset(v.files) == multiset(files)
    {
      PublishedMeansEvaluated(artifacts, log, v, files);
    }

    /** The versions of a pack in this store are numbered 1 to n in the order they were cut. */
    lemma VersionsCountUp(pack: Id, n: nat)
      requires Valid()
      ensures (exists k :: 0 <= k < |versions| && versions[k].pack == pack && versions[k].number == n)
              <==> 1 <= n <= CountOf(versions, pack)
    {
      InvRun(Empty(artifacts), log);
      NumbersAreExact(versions, pack, n);
    }

    /** Whatever versions, evaluations and task snapshots this store had at an earlier time it still
        has, unchanged. */
    lemma NothingIsTakenBack(k: nat)
      requires Valid() && k <= |log|
      ensures Grows(Exec(Empty(artifacts), log[..k]), Tables())
    {
      ExecSplits(Empty(artifacts), log, k);
      RunGrows(Exec(Empty(artifacts), log[..k]), log[k..]);
    }

    ghost method Log(q: Request)
      modifies this`log
      ensures log == old(log) + [q]
      ensures Exec(Empty(artifacts), log) == Step(Exec(Empty(artifacts), old(log)), q).0
    {
      ExecSplits(Empty(artifacts), log + [q], |log|);
      log := log + [q];
    }

    method ReplayOp(actor: Actor, key: string, mark: Fingerprint) returns (r: Option<Reply>)
      ensures r == Replay(Tables(), actor, key, mark)
    {
      if key == "" || (actor.id, key) !in ops {
        return None;
      }
      var op := ops[(actor.id, key)];
      if op.mark != mark {
        return Some(Conflict);
      }
      return Some(Done(op.value));
    }

    method RecordOp(actor: Actor, key: string, mark: Fingerprint, value: Value)
      modifies this`ops
      ensures Tables() == Record(old(Tables()), actor, key, mark, value)
    {
      if key != "" {
        ops := ops[(actor.id, key) := Operation(mark, value)];
      }
    }

    static method CheckUploads(uploads: seq<Upload>) returns (fine: bool)
      ensures fine <==> (forall u :: u in uploads ==> Acceptable(u)) && Fits(uploads)
      ensures fine <==>
                && 1 <= |uploads| <= 200 && Total(uploads) <= 8 * 1024 * 1024
                && forall u :: u in uploads ==> SafeMember(u.entry.path) && u.size <= 2 * 1024 * 1024
    {
      var total := 0;
      for i := 0 to |uploads|
        invariant forall u :: u in uploads[..i] ==> Acceptable(u)
        invariant total + Total(uploads[i..]) == Total(uploads)
      {
        if !SafeMember(uploads[i].entry.path) || uploads[i].size > MAX_FILE_BYTES {
          assert uploads[i] in uploads;
          return false;
        }
        assert uploads[..i + 1] == uploads[..i] + [uploads[i]];
        assert uploads[i..][1..] == uploads[i + 1..];
        total := total + uploads[i].size;
      }
      assert uploads[..|uploads|] == uploads;
      return |uploads| != 0 && |uploads| <= MAX_FILES && total <= MAX_PACK_BYTES;
    }

    method CreateDraft(id: Id, actor: Actor, key: string, source: Id, names: set<string>, picked: seq<Upload>,
                       contract: bool)
      returns (r: Reply)
      requires Valid()
      modifies this
      ensures Valid() && log == old(log) + [Request.CreateDraft(id, actor, key, source, names, picked, contract)]
      ensures Tables() == Step(old(Tables()), Request.CreateDraft(id, actor, key, source, names, picked, contract)).0
      ensures r == CreateDraftStep(old(Tables()),
                                   Request.CreateDraft(id, actor, key, source, names, picked, contract)).1
    {
      ghost var q := Request.CreateDraft(id, actor, key, source, names, picked, contract);
      var refusal := CheckNewDraft(id, actor, key, source, names, picked, contract);
      Log(q);
      if refusal.Some? {
        return refusal.value;
      }
      InsertDraft(id, actor, key, OfDraft(source, names), NewDraft(1, Kept(picked), contract));
      return Done(Drafted(id));
    }

    method InsertDraft(id: Id, actor: Actor, key: string, mark: Fingerprint, draft: Draft)
      modifies this`owners, this`drafts, this`ops
      ensures Tables() == Record(old(Tables()).(owners := old(owners)[id := actor.id],
                                                drafts := old(drafts)[id := draft]),
                                 actor, key, mark, Drafted(id))
    {
      owners, drafts := owners[id := actor.id], drafts[id := draft];
      RecordOp(actor, key, mark, Drafted(id));
    }

    method CheckNewDraft(id: Id, actor: Actor, key: string, source: Id, names: set<string>, picked: seq<Upload>,
                         contract: bool)
      returns (r: Option<Reply>)
      ensures r == CreateDraftRefusal(Tables(), Request.CreateDraft(id, actor, key, source, names, picked, contract))
    {
      if !Fits(Kept(picked)) {
        return Some(Invalid);
      }
      r := ReplayOp(actor, key, OfDraft(source, names));
      if r.None? && (id in owners || id in drafts) {
        return Some(Invalid);
      }
    }

    /** The key of an evaluation is recorded when it is asked for, before it runs. */
    method BeginEvaluation(pack: Id, actor: Actor, key: string, digest: string, job: Id) returns (r: Reply)
      requires Valid()
      modifies this
      ensures Valid() && log == old(log) + [Request.BeginEvaluation(pack, actor, key, digest, job)]
      ensures Tables() == Step(old(Tables()), Request.BeginEvaluation(pack, actor, key, digest, job)).0
      ensures r == BeginEvaluationStep(old(Tables()), Request.BeginEvaluation(pack, actor, key, digest, job)).1
    {
      Log(Request.BeginEvaluation(pack, actor, key, digest, job));
      if pack !in owners {
        return Missing;
      }
      if owners[pack] != actor.id && !actor.admin {
        return Denied;
      }
      var mark := OfEvaluation(pack, digest);
      var replay := ReplayOp(actor, key, mark);
      if replay.Some? {
        return replay.value;
      }
      RecordOp(actor, key, mark, Registered(job));
      return Done(Registered(job));
    }

    method Unbind(agent: Id, pack: Id, actor: Actor) returns (r: Reply)
      requires Valid()
      modifies this
      ensures Valid() && log == old(log) + [Request.Unbind(agent, pack, actor)]
      ensures Tables() == Step(old(Tables()), Request.Unbind(agent, pack, actor)).0
      ensures r == UnbindStep(old(Tables()), Request.Unbind(agent, pack, actor)).1
    {
      Log(Request.Unbind(agent, pack, actor));
      if pack !in owners {
        return Missing;
      }
      if owners[pack] != actor.id && !actor.admin {
        return Denied;
      }
      bindings := bindings - {(agent, pack)};
      return Updated;
    }

    method UpdateDraft(pack: Id, actor: Actor, expected: int, uploads: seq<Upload>, contract: bool) returns (r: Reply)
      requires Valid()
      modifies this
      ensures Valid() && log == old(log) + [Request.UpdateDraft(pack, actor, expected, uploads, contract)]
      ensures Tables() == Step(old(Tables()), Request.UpdateDraft(pack, actor, expected, uploads, contract)).0
      ensures r == UpdateDraftStep(old(Tables()), Request.UpdateDraft(pack, actor, expected, uploads, contract)).1
    {
      ghost var q := Request.UpdateDraft(pack, actor, expected, uploads, contract);
      var refusal := CheckUpdate(pack, actor, expected, uploads, contract);
      Log(q);
      if refusal.Some? {
        return refusal.value;
      }
      ReplaceDraft(pack, NewDraft(drafts[pack].revision + 1, uploads, contract));
      return Updated;
    }

    method ReplaceDraft(pack: Id, draft: Draft)
      modifies this`drafts
      ensures Tables() == old(Tables()).(drafts := old(drafts)[pack := draft])
    {
      drafts := drafts[pack := draft];
    }

    method CheckUpdate(pack: Id, actor: Actor, expected: int, uploads: seq<Upload>, contract: bool)
      returns (r: Option<Reply>)
      ensures r == UpdateDraftRefusal(Tables(), Request.UpdateDraft(pack, actor, expected, uploads, contract))
    {
      var fine := CheckUploads(uploads);
      if !fine {
        return Some(Invalid);
      }
      if pack !in owners {
        return Some(Missing);
      }
      if owners[pack] != actor.id && !actor.admin {
        return Some(Denied);
      }
      if pack !in drafts {
        return Some(Missing);
      }
      return if expected != drafts[pack].revision then Some(Conflict) else None;
    }

    method SaveEvaluation(id: Id, pack: Id, actor: Actor, key: string, digest: string, passed: bool) returns (r: Reply)
      requires Valid()
      modifies this
      ensures Valid() && log == old(log) + [Request.SaveEvaluation(id, pack, actor, key, digest, passed)]
      ensures Tables() == Step(old(Tables()), Request.SaveEvaluation(id, pack, actor, key, digest, passed)).0
      ensures r == SaveEvaluationStep(old(Tables()), Request.SaveEvaluation(id, pack, actor, key, digest, passed)).1
    {
      Log(Request.SaveEvaluation(id, pack, actor, key, digest, passed));
      if pack !in owners {
        return Missing;
      }
      if owners[pack] != actor.id && !actor.admin {
        return Denied;
      }
      if id in evaluations {
        return Invalid;
      }
      evaluations := evaluations[id := Evaluation(pack, digest, passed)];
      RecordOp(actor, key, OfEvaluation(pack, digest), Evaluated(id));
      return Done(Evaluated(id));
    }

    method Publish(id: Id, pack: Id, actor: Actor, key: string, expected: int, evaluation: Id) returns (r: Reply)
      requires Valid()
      modifies this
      ensures Valid() && log == old(log) + [Request.Publish(id, pack, actor, key, expected, evaluation)]
      ensures Tables() == Step(old(Tables()), Request.Publish(id, pack, actor, key, expected, evaluation)).0
      ensures r == PublishStep(old(Tables()), Request.Publish(id, pack, actor, key, expected, evaluation)).1
    {
      ghost var q := Request.Publish(id, pack, actor, key, expected, evaluation);
      var refusal := CheckPublish(id, pack, actor, key, expected, evaluation);
      Log(q);
      if refusal.Some? {
        return refusal.value;
      }
      var draft := drafts[pack];
      var version := Version(id, pack, LatestNumber(versions, pack) + 1, draft.digest, draft.files, evaluation,
                             draft.manifest);
      InsertVersion(version, actor, key, OfPublish(pack, expected, evaluation));
      return Done(Published(version));
    }

    /** The draft's revision moves on with every version that is cut from it. */
    method InsertVersion(version: Version, actor: Actor, key: string, mark: Fingerprint)
      requires version.pack in drafts
      modifies this`versions, this`drafts, this`ops
      ensures var d := old(drafts)[version.pack];
              Tables() == Record(old(Tables()).(versions := old(versions) + [version],
                                                drafts := old(drafts)[version.pack := d.(revision := d.revision + 1)]),
                                 actor, key, mark, Published(version))
    {
      versions := versions + [version];
      drafts := drafts[version.pack := drafts[version.pack].(revision := drafts[version.pack].revision + 1)];
      RecordOp(actor, key, mark, Published(version));
    }

    method CheckPublish(id: Id, pack: Id, actor: Actor, key: string, expected: int, evaluation: Id)
      returns (r: Option<Reply>)
      ensures r == PublishRefusal(Tables(), Request.Publish(id, pack, actor, key, expected, evaluation))
    {
      if pack !in owners {
        return Some(Missing);
      }
      if owners[pack] != actor.id && !actor.admin {
        return Some(Denied);
      }
      r := ReplayOp(actor, key, OfPublish(pack, expected, evaluation));
      if r.Some? {
        return;
      }
      if pack !in drafts {
        return Some(Missing);
      }
      if expected != drafts[pack].revision || !drafts[pack].manifest {
        return Some(Conflict);
      }
      if evaluation !in evaluations || evaluations[evaluation].pack != pack {
        return Some(Missing);
      }
      if evaluations[evaluation].digest != drafts[pack].digest || !evaluations[evaluation].passed {
        return Some(Conflict);
      }
      return if Find(versions, id).Some? then Some(Invalid) else None;
    }

    method Bind(agent: Id, version: Id, actor: Actor, expected: int) returns (r: Reply)
      requires Valid()
      modifies this
      ensures Valid() && log == old(log) + [Request.Bind(agent, version, actor, expected)]
      ensures Tables() == Step(old(Tables()), Request.Bind(agent, version, actor, expected)).0
      ensures r == BindStep(old(Tables()), Request.Bind(agent, version, actor, expected)).1
    {
      Log(Request.Bind(agent, version, actor, expected));
      var found := Find(versions, version);
      if found.None? || found.value.pack !in owners {
        return Missing;
      }
      var v := found.value;
      if owners[v.pack] != actor.id && !actor.admin {
        return Denied;
      }
      var revision := 0;
      if (agent, v.pack) in bindings {
        revision := bindings[(agent, v.pack)].revision;
      }
      if expected != revision {
        return Conflict;
      }
      bindings := bindings[(agent, v.pack) := Binding(v.id, v.number, v.digest, revision + 1)];
      return Updated;
    }

    method CreateTask(id: Id, agent: Id, pack: Id, actor: Actor, key: string, inputs: seq<Id>) returns (r: Reply)
      requires Valid()
      modifies this
      ensures Valid() && log == old(log) + [Request.CreateTask(id, agent, pack, actor, key, inputs)]
      ensures Tables() == Step(old(Tables()), Request.CreateTask(id, agent, pack, actor, key, inputs)).0
      ensures r == CreateTaskStep(old(Tables()), Request.CreateTask(id, agent, pack, actor, key, inputs)).1
    {
      Log(Request.CreateTask(id, agent, pack, actor, key, inputs));
      var mark := OfTask(agent, pack, multiset(inputs));
      var replay := ReplayOp(actor, key, mark);
      if replay.Some? {
        return replay.value;
      }
      if (agent, pack) !in bindings {
        return Conflict;
      }
      var b := bindings[(agent, pack)];
      var found := Find(versions, b.version);
      if found.None? {
        return Conflict;
      }
      for i := 0 to |inputs|
        invariant InputsReply(Tables(), actor, inputs[i..]) == InputsReply(Tables(), actor, inputs)
      {
        assert inputs[i..][1..] == inputs[i + 1..];
        if inputs[i] !in artifacts {
          return Missing;
        }
        if artifacts[inputs[i]] != actor.id && !actor.admin {
          return Denied;
        }
      }
      if id in tasks {
        return Invalid;
      }
      var task := Task(actor.id, agent, pack, b.version, found.value.number, found.value.digest, b.revision);
      tasks := tasks[id := task];
      RecordOp(actor, key, mark, Tasked(id, task));
      return Done(Tasked(id, task));
    }
  }
}
