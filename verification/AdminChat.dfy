/** Sender, background job and any number of pollers racing on the messages of one admin
    conversation. Every write to the conversation is one transaction; pollers look at job
    records outside of it and apply what they saw later. */
module AdminChat {
  datatype Option<+T> = None | Some(value: T)

  type JobId = nat
  datatype Status = Pending | Running | CancelRequested | Completed | Failed | Cancelled | Interrupted
  /** How far the process that sent the question got with dispatching it. */
  datatype Stage = Queued | Registered | Handled
  datatype Msg = User(text: string) | Reply(job: JobId, status: Status, text: string, stage: Stage, boot: nat)
  type Conv = seq<Msg>
  datatype Job = Job(status: Status, error: string)
  /** What a poller found under a job id, and the stage the message was in when it read it. */
  datatype Seen = Seen(job: Option<Job>, stage: Stage)

  const PLACEHOLDER := "正在回答"
  const RESTARTED := "服务重启，任务中断"
  const LOST := "任务记录丢失"
  const UNSAVED := "任务已结束，但回答未能保存"
  const NO_RECEIPT := "服务重启时没有收到回执"
  const NOT_SUBMITTED := "任务未能派发"

  predicate Open(m: Msg) {
    m.Reply? && (m.status == Pending || m.status == Running)
  }

  predicate Terminal(s: Status) {
    s == Completed || s == Failed || s == Cancelled || s == Interrupted
  }

  // ---------- what one transaction does to one message ----------

  /** Reconciling a message with what a poller saw. */
  function ResolveOne(m: Msg, seen: map<JobId, Seen>, boot: nat): Msg {
    if !Open(m) || m.job !in seen then m
    else match seen[m.job].job
      case None =>
        if m.stage != seen[m.job].stage then m
        else if m.boot != boot then m.(status := Interrupted, text := RESTARTED)
        else if m.stage == Queued then m
        else m.(status := Interrupted, text := LOST)
      case Some(job) =>
        if !Terminal(job.status) then m
        else if job.status == Completed && m.text == PLACEHOLDER then m.(status := Interrupted, text := UNSAVED)
        else m.(status := job.status,
                text := if job.error != "" then job.error else if job.status == Interrupted then RESTARTED else m.text)
  }

  function SettleOne(m: Msg, job: JobId, status: Status, text: string): Msg {
    if Open(m) && m.job == job then m.(status := status, text := text, stage := Handled) else m
  }

  function MarkOne(m: Msg, job: JobId): Msg {
    if m.Reply? && m.job == job && m.stage == Queued then m.(stage := Registered) else m
  }

  function Resolve(conv: Conv, seen: map<JobId, Seen>, boot: nat): Conv {
    seq(|conv|, i requires 0 <= i < |conv| => ResolveOne(conv[i], seen, boot))
  }

  function Settle(conv: Conv, job: JobId, status: Status, text: string): Conv {
    seq(|conv|, i requires 0 <= i < |conv| => SettleOne(conv[i], job, status, text))
  }

  function Mark(conv: Conv, job: JobId): Conv {
    seq(|conv|, i requires 0 <= i < |conv| => MarkOne(conv[i], job))
  }

  ghost predicate UniqueJobs(conv: Conv) {
    forall i, j :: 0 <= i < |conv| && 0 <= j < |conv| ==>
      conv[i].Reply? && conv[j].Reply? && conv[i].job == conv[j].job ==> i == j
  }

  // ---------- the protocol ----------

  /** Where the request that asked the question stands. */
  datatype Sender = NoSender | Persisted | Inserted | Refused | Started
  /** Where the background thread stands; `Ending` has done all it does to the message. */
  datatype Worker = NoWorker | Ready | Answering | Ending(status: Status, error: string)
  datatype Poller = Looking(todo: map<JobId, Stage>, seen: map<JobId, Seen>)

  datatype State = State(conv: Conv, jobs: map<JobId, Job>, boot: nat,
                         senders: map<JobId, Sender>, workers: map<JobId, Worker>, pollers: map<nat, Poller>)

  datatype Action =
    | AskUser(text: string)
    | Persist(job: JobId)
    | Insert(job: JobId)
    | Submit(job: JobId)
    | SubmitFails(job: JobId)
    | Refuse(job: JobId)
    | ReportRefusal(job: JobId, text: string)
    | MarkIt(job: JobId)
    | Begin(job: JobId)
    | Answer(job: JobId, text: string)
    | Fail(job: JobId, cancelled: bool, saved: bool, text: string, error: string)
    | Finish(job: JobId)
    | AskCancel(job: JobId)
    | PollRead(poller: nat)
    | PollLook(poller: nat, job: JobId)
    | PollApply(poller: nat)
    | Restart

  function SenderOf(s: State, j: JobId): Sender {
    if j in s.senders then s.senders[j] else NoSender
  }

  function WorkerOf(s: State, j: JobId): Worker {
    if j in s.workers then s.workers[j] else NoWorker
  }

  function JobOf(s: State, j: JobId): Option<Job> {
    if j in s.jobs then Some(s.jobs[j]) else None
  }

  predicate HasReply(conv: Conv, j: JobId) {
    exists m :: m in conv && m.Reply? && m.job == j
  }

  predicate Enabled(s: State, a: Action) {
    match a
    case Persist(j) => j !in s.jobs && j !in s.senders && j !in s.workers && !HasReply(s.conv, j)
    case Insert(j) => SenderOf(s, j) == Persisted
    case Submit(j) => SenderOf(s, j) == Inserted
    case SubmitFails(j) => SenderOf(s, j) == Inserted
    case Refuse(j) => SenderOf(s, j) == Persisted
    case ReportRefusal(j, _) => SenderOf(s, j) == Refused
    case MarkIt(j) => SenderOf(s, j) == Started
    case Begin(j) => WorkerOf(s, j) == Ready
    case Answer(j, _) => WorkerOf(s, j) == Answering
    case Fail(j, _, _, _, _) => WorkerOf(s, j) == Ready || WorkerOf(s, j) == Answering
    case Finish(j) => WorkerOf(s, j).Ending?
    case AskCancel(j) => j in s.jobs && (s.jobs[j].status == Pending || s.jobs[j].status == Running)
    case PollLook(p, j) => p in s.pollers && j in s.pollers[p].todo
    case PollApply(p) => p in s.pollers
    case _ => true
  }

  /** What a step does to a message that is there already. */
  function After(s: State, a: Action, m: Msg): Msg {
    match a
    case ReportRefusal(j, text) => SettleOne(m, j, Failed, text)
    case MarkIt(j) => MarkOne(m, j)
    case Answer(j, text) => SettleOne(m, j, Completed, text)
    case Fail(j, cancelled, saved, text, _) =>
      if saved then SettleOne(m, j, if cancelled then Cancelled else Failed, text) else m
    case PollApply(p) => if p in s.pollers then ResolveOne(m, s.pollers[p].seen, s.boot) else m
    case _ => m
  }

  function Added(s: State, a: Action): Conv {
    match a
    case AskUser(text) => [User(text)]
    case Persist(j) => [Reply(j, Pending, PLACEHOLDER, Queued, s.boot)]
    case _ => []
  }

  function NextConv(s: State, a: Action): Conv {
    seq(|s.conv|, i requires 0 <= i < |s.conv| => After(s, a, s.conv[i])) + Added(s, a)
  }

  function NextJobs(s: State, a: Action): map<JobId, Job> {
    match a
    case Insert(j) => s.jobs[j := Job(Pending, "")]
    case SubmitFails(j) => s.jobs[j := Job(Interrupted, NOT_SUBMITTED)]
    case Begin(j) => if j in s.jobs && s.jobs[j].status == Pending then s.jobs[j := Job(Running, "")] else s.jobs
    case Finish(j) =>
      if WorkerOf(s, j).Ending? then s.jobs[j := Job(s.workers[j].status, s.workers[j].error)] else s.jobs
    case AskCancel(j) => s.jobs[j := Job(CancelRequested, "")]
    case Restart =>
      map j | j in s.jobs :: if Terminal(s.jobs[j].status) then s.jobs[j] else Job(Interrupted, NO_RECEIPT)
    case _ => s.jobs
  }

  function NextSenders(s: State, a: Action): map<JobId, Sender> {
    match a
    case Persist(j) => s.senders[j := Persisted]
    case Insert(j) => s.senders[j := Inserted]
    case Submit(j) => s.senders[j := Started]
    case SubmitFails(j) => s.senders[j := Refused]
    case Refuse(j) => s.senders[j := Refused]
    case ReportRefusal(j, _) => s.senders - {j}
    case MarkIt(j) => s.senders - {j}
    case Restart => map[]
    case _ => s.senders
  }

  function NextWorkers(s: State, a: Action): map<JobId, Worker> {
    match a
    case Submit(j) => s.workers[j := Ready]
    case Begin(j) => s.workers[j := Answering]
    case Answer(j, _) => s.workers[j := Ending(Completed, "")]
    case Fail(j, cancelled, _, _, error) => s.workers[j := Ending(if cancelled then Cancelled else Failed, error)]
    case Finish(j) => s.workers - {j}
    case Restart => map[]
    case _ => s.workers
  }

  function Unresolved(conv: Conv): map<JobId, Stage> {
    if conv == [] then map[]
    else
      var m := conv[|conv| - 1];
      if Open(m) then Unresolved(conv[..|conv| - 1])[m.job := m.stage] else Unresolved(conv[..|conv| - 1])
  }

  function NextPollers(s: State, a: Action): map<nat, Poller> {
    match a
    case PollRead(p) => s.pollers[p := Looking(Unresolved(s.conv), map[])]
    case PollLook(p, j) =>
      if p in s.pollers && j in s.pollers[p].todo then
        var l := s.pollers[p];
        s.pollers[p := l.(seen := l.seen[j := Seen(JobOf(s, j), l.todo[j])])]
      else s.pollers
    case PollApply(p) => s.pollers - {p}
    case Restart => map[]
    case _ => s.pollers
  }

  function Next(s: State, a: Action): State {
    if !Enabled(s, a) then s
    else State(NextConv(s, a), NextJobs(s, a), if a.Restart? then s.boot + 1 else s.boot,
               NextSenders(s, a), NextWorkers(s, a), NextPollers(s, a))
  }

  function Exec(s: State, run: seq<Action>): State
    decreases |run|
  {
    if run == [] then s else Exec(Next(s, run[0]), run[1..])
  }

  /** Every step either leaves the stored conversation alone, adds to its end, or does to it what one
      of the transactions of `Conversation` does. */
  lemma StepsAreTransactions(s: State, a: Action)
    requires Enabled(s, a)
    ensures Next(s, a).conv ==
            match a
            case AskUser(_) => s.conv + Added(s, a)
            case Persist(_) => s.conv + Added(s, a)
            case PollApply(p) => Resolve(s.conv, s.pollers[p].seen, s.boot)
            case MarkIt(j) => Mark(s.conv, j)
            case Answer(j, text) => Settle(s.conv, j, Completed, text)
            case ReportRefusal(j, text) => Settle(s.conv, j, Failed, text)
            case Fail(j, cancelled, saved, text, _) =>
              if saved then Settle(s.conv, j, if cancelled then Cancelled else Failed, text) else s.conv
            case _ => s.conv
  {
  }

  // ---------- the invariant ----------

  /** What is known about a message that this process dispatched. */
  predicate LiveOk(m: Msg, job: Option<Job>, sender: Sender, worker: Worker)
    requires m.Reply?
  {
    && (Open(m) ==> m.text == PLACEHOLDER && m.status == Pending)
    && (Open(m) || Terminal(m.status))
    && (m.stage == Registered && Open(m) ==> job.Some?)
    && (m.stage == Handled ==> !Open(m))
    && (sender == Persisted ==> job.None? && worker == NoWorker && Open(m) && m.stage == Queued)
    && (sender == Inserted ==>
        job.Some? && !Terminal(job.value.status) && worker == NoWorker && Open(m) && m.stage == Queued)
    && (sender == Refused ==> worker == NoWorker && (job.Some? ==> job.value.status == Interrupted))
    && (sender == Refused && Open(m) ==> m.stage == Queued)
    && (sender == Started ==> job.Some?)
    && (sender == NoSender && Open(m) ==> job.Some?)
    && (worker == Ready || worker == Answering ==> job.Some? && !Terminal(job.value.status) && Open(m))
    && (worker.Ending? ==> job.Some? && !Terminal(job.value.status) && Terminal(worker.status)
                           && worker.status != Interrupted)
    && (worker.Ending? && worker.status == Completed ==> !Open(m))
    && (worker == NoWorker && job.Some? && sender != Inserted ==> Terminal(job.value.status))
    && (worker == NoWorker && job.Some? && job.value.status == Completed ==> !Open(m))
    && (job.Some? && job.value.status == Interrupted ==> worker == NoWorker && job.value.error == NOT_SUBMITTED)
  }

  predicate MsgOk(s: State, m: Msg) {
    m.Reply? ==> m.boot <= s.boot
                 && (m.boot == s.boot ==> LiveOk(m, JobOf(s, m.job), SenderOf(s, m.job), WorkerOf(s, m.job)))
                 && (m.boot < s.boot ==> m.job !in s.senders && m.job !in s.workers
                                         && (m.job in s.jobs ==> Terminal(s.jobs[m.job].status))
                                         && (Open(m) ==> Waits(m, JobOf(s, m.job))))
  }

  /** An open message of an earlier process still shows the placeholder, and was never answered. */
  predicate Waits(m: Msg, job: Option<Job>)
    requires m.Reply?
  {
    m.text == PLACEHOLDER && m.status == Pending && (job.Some? ==> job.value.status != Completed)
  }

  /** What a poller holds about a message of this process is still sound, however old it is. */
  predicate PollerOk(s: State, l: Poller, m: Msg) {
    m.Reply? && m.boot == s.boot ==>
      && (m.job in l.todo && l.todo[m.job] == Registered ==> m.job in s.jobs)
      && (m.job in l.todo && l.todo[m.job] == Handled ==> !Open(m))
      && (m.job in l.seen ==>
            var o := l.seen[m.job];
            && (o.job.None? && o.stage == Handled ==> !Open(m))
            && (o.job.None? ==> o.stage != Registered)
            && (o.job.Some? && Terminal(o.job.value.status) ==> JobOf(s, m.job) == o.job))
  }

  /** What it holds about a message of an earlier process is how things are. */
  predicate PollerKnows(s: State, l: Poller, m: Msg) {
    m.Reply? && m.boot < s.boot && m.job in l.seen ==> l.seen[m.job].job == JobOf(s, m.job)
  }

  ghost predicate Inv(s: State) {
    && UniqueJobs(s.conv)
    && (forall m :: m in s.conv ==> MsgOk(s, m))
    && (forall m, p :: m in s.conv && p in s.pollers ==>
          PollerOk(s, s.pollers[p], m) && PollerKnows(s, s.pollers[p], m))
    && (forall p :: p in s.pollers ==> Observes(s.conv, s.pollers[p]))
    && (forall j :: j in s.senders || j in s.workers ==> HasLive(s, j))
  }

  /** A poller only ever looks up jobs it read from the conversation. */
  ghost predicate Observes(conv: Conv, l: Poller) {
    l.seen.Keys <= l.todo.Keys && forall j :: j in l.todo ==> HasReply(conv, j)
  }

  predicate HasLive(s: State, j: JobId) {
    exists m :: m in s.conv && m.Reply? && m.job == j && m.boot == s.boot
  }

  // ---------- an ended message stays as it is ----------

  /** Every message keeps its place, its job and its process; an ended one keeps everything. */
  ghost predicate Settled(was: Conv, now: Conv) {
    && |was| <= |now|
    && forall i :: 0 <= i < |was| ==>
      && (was[i].User? ==> now[i] == was[i])
      && (was[i].Reply? ==> now[i].Reply? && now[i].job == was[i].job && now[i].boot == was[i].boot)
      && (was[i].Reply? && Terminal(was[i].status) && was[i].stage != Queued ==> now[i] == was[i])
      && (was[i].Reply? && Terminal(was[i].status) ==> now[i].status == was[i].status && now[i].text == was[i].text)
  }

  lemma StepSettles(s: State, a: Action)
    ensures Settled(s.conv, Next(s, a).conv)
  {
  }

  /** In every run an ended message keeps its status and text, and no message is ever dropped. */
  lemma {:induction false} EndedMessagesNeverChange(s: State, run: seq<Action>)
    ensures Settled(s.conv, Exec(s, run).conv)
    decreases |run|
  {
    if run != [] {
      StepSettles(s, run[0]);
      EndedMessagesNeverChange(Next(s, run[0]), run[1..]);
    }
  }

  // ---------- the invariant is kept ----------

  /** The job a step is about; polls and questions are about none. */
  function Concerns(a: Action): Option<JobId> {
    match a
    case AskUser(_) => None
    case PollRead(_) => None
    case PollLook(_, _) => None
    case PollApply(_) => None
    case Restart => None
    case _ => Some(a.job)
  }

  lemma OtherJobsStep(s: State, a: Action, m: Msg)
    requires Enabled(s, a) && m.Reply? && MsgOk(s, m) && Concerns(a) != Some(m.job)
    requires a.PollApply? ==> PollerOk(s, s.pollers[a.poller], m)
    ensures MsgOk(Next(s, a), After(s, a, m))
  {
  }

  lemma OwnJobStep(s: State, a: Action, m: Msg)
    requires Enabled(s, a) && m.Reply? && MsgOk(s, m) && Concerns(a) == Some(m.job) && !a.Persist?
    ensures MsgOk(Next(s, a), After(s, a, m))
  {
  }

  lemma LiveStep(s: State, a: Action, m: Msg)
    requires Enabled(s, a) && m in s.conv && m.Reply? && MsgOk(s, m)
    requires a.PollApply? ==> PollerOk(s, s.pollers[a.poller], m)
    ensures MsgOk(Next(s, a), After(s, a, m))
  {
    if Concerns(a) == Some(m.job) {
      assert !a.Persist?;
      OwnJobStep(s, a, m);
    } else {
      OtherJobsStep(s, a, m);
    }
  }

  /** Steps keep a message's place: message i afterwards is what the step made of message i. */
  lemma Places(s: State, a: Action)
    requires Enabled(s, a)
    ensures |Next(s, a).conv| == |s.conv| + |Added(s, a)|
    ensures forall i :: 0 <= i < |s.conv| ==> Next(s, a).conv[i] == After(s, a, s.conv[i])
    ensures forall i :: |s.conv| <= i < |s.conv| + |Added(s, a)| ==> Next(s, a).conv[i] == Added(s, a)[i - |s.conv|]
    ensures forall i :: 0 <= i < |s.conv| && s.conv[i].Reply? ==>
              && Next(s, a).conv[i].Reply? && Next(s, a).conv[i].job == s.conv[i].job
              && Next(s, a).conv[i].boot == s.conv[i].boot
  {
  }

  lemma RepliesStay(s: State, a: Action, j: JobId)
    requires Enabled(s, a) && HasReply(s.conv, j)
    ensures HasReply(Next(s, a).conv, j)
  {
    var m :| m in s.conv && m.Reply? && m.job == j;
    var i :| 0 <= i < |s.conv| && s.conv[i] == m;
    Places(s, a);
    assert Next(s, a).conv[i] in Next(s, a).conv;
  }

  lemma LivesStay(s: State, a: Action, j: JobId)
    requires Enabled(s, a) && HasLive(s, j) && !a.Restart?
    ensures HasLive(Next(s, a), j)
  {
    var m :| m in s.conv && m.Reply? && m.job == j && m.boot == s.boot;
    var i :| 0 <= i < |s.conv| && s.conv[i] == m;
    Places(s, a);
    assert Next(s, a).conv[i] in Next(s, a).conv;
  }

  lemma UniqueStays(s: State, a: Action)
    requires Enabled(s, a) && UniqueJobs(s.conv)
    ensures UniqueJobs(Next(s, a).conv)
  {
    Places(s, a);
    if a.Persist? {
      forall i | 0 <= i < |s.conv| && s.conv[i].Reply?
        ensures s.conv[i].job != a.job
      {
        assert s.conv[i] in s.conv;
      }
    }
  }

  /** The jobs of the open messages, with their stages. */
  ghost predicate ReadOff(conv: Conv, todo: map<JobId, Stage>) {
    && (forall j :: j in todo ==> exists m :: m in conv && Open(m) && m.job == j && m.stage == todo[j])
    && (forall m :: m in conv && Open(m) ==> m.job in todo && todo[m.job] == m.stage)
    && forall m :: m in conv && m.Reply? && m.job in todo ==> Open(m)
  }

  /** That is what a poller reads. */
  lemma {:induction false} UnresolvedReads(conv: Conv)
    requires UniqueJobs(conv)
    ensures ReadOff(conv, Unresolved(conv))
    decreases |conv|
  {
    if conv != [] {
      var rest, last := conv[..|conv| - 1], conv[|conv| - 1];
      assert conv == rest + [last];
      UnresolvedReads(rest);
      LastJobIsNew(conv);
      OneMessageMore(rest, last, Unresolved(rest));
    }
  }

  lemma LastJobIsNew(conv: Conv)
    requires UniqueJobs(conv) && conv != []
    ensures var rest, last := conv[..|conv| - 1], conv[|conv| - 1];
            forall m :: m in rest && m.Reply? && last.Reply? ==> m.job != last.job
  {
    var rest, last := conv[..|conv| - 1], conv[|conv| - 1];
    forall m | m in rest && m.Reply? && last.Reply? ensures m.job != last.job {
      var i :| 0 <= i < |rest| && rest[i] == m;
      assert conv[i] == m && conv[|conv| - 1] == last;
    }
  }

  lemma OneMessageMore(rest: Conv, last: Msg, todo: map<JobId, Stage>)
    requires ReadOff(rest, todo) && forall m :: m in rest && m.Reply? && last.Reply? ==> m.job != last.job
    ensures ReadOff(rest + [last], if Open(last) then todo[last.job := last.stage] else todo)
  {
    var conv := rest + [last];
    assert last in conv && forall m :: m in rest ==> m in conv;
  }

  /** Job records are never removed, and a terminal one never changes. */
  lemma JobsSettle(s: State, a: Action, m: Msg)
    requires Enabled(s, a) && m.Reply? && m.boot == s.boot && MsgOk(s, m) && !a.Restart?
    ensures m.job in s.jobs ==> m.job in Next(s, a).jobs
    ensures m.job in s.jobs && Terminal(s.jobs[m.job].status) ==> JobOf(Next(s, a), m.job) == JobOf(s, m.job)
  {
  }

  lemma ReadIsSound(s: State, m: Msg)
    requires UniqueJobs(s.conv) && m in s.conv && m.Reply? && MsgOk(s, m)
    ensures PollerOk(s, Looking(Unresolved(s.conv), map[]), m)
  {
    UnresolvedReads(s.conv);
  }

  lemma LookIsSound(s: State, l: Poller, j: JobId, m: Msg)
    requires j in l.todo && m.Reply? && MsgOk(s, m) && PollerOk(s, l, m)
    ensures PollerOk(s, l.(seen := l.seen[j := Seen(JobOf(s, j), l.todo[j])]), m)
  {
  }

  /** What a poller holds survives any step of the others. */
  lemma HoldsOn(s: State, a: Action, l: Poller, m: Msg)
    requires Enabled(s, a) && m.Reply? && MsgOk(s, m) && PollerOk(s, l, m) && !a.Restart?
    ensures PollerOk(Next(s, a), l, After(s, a, m))
  {
    if m.boot == s.boot { JobsSettle(s, a, m); }
    assert After(s, a, m).boot == m.boot && After(s, a, m).job == m.job && (Open(After(s, a, m)) ==> Open(m));
  }

  lemma PollerStep(s: State, a: Action, p: nat, m: Msg)
    requires Enabled(s, a) && UniqueJobs(s.conv) && m in s.conv && m.Reply? && MsgOk(s, m)
    requires p in s.pollers ==> PollerOk(s, s.pollers[p], m)
    requires p in Next(s, a).pollers
    ensures PollerOk(Next(s, a), Next(s, a).pollers[p], After(s, a, m))
  {
    if a == PollRead(p) {
      ReadIsSound(s, m);
    } else if a.PollLook? && a.poller == p {
      LookIsSound(s, s.pollers[p], a.job, m);
    } else {
      HoldsOn(s, a, s.pollers[p], m);
    }
  }

  lemma EarlierStaysKnown(s: State, a: Action, p: nat, m: Msg)
    requires Enabled(s, a) && m.Reply? && MsgOk(s, m) && p in Next(s, a).pollers
    requires p in s.pollers ==> PollerKnows(s, s.pollers[p], m)
    ensures PollerKnows(Next(s, a), Next(s, a).pollers[p], After(s, a, m))
  {
    assert After(s, a, m).boot == m.boot && After(s, a, m).job == m.job;
  }

  lemma NewMessageOk(s: State, a: Action, m: Msg)
    requires Enabled(s, a) && Inv(s) && m in Added(s, a)
    ensures MsgOk(Next(s, a), m)
    ensures forall p :: p in Next(s, a).pollers ==>
              PollerOk(Next(s, a), Next(s, a).pollers[p], m) && PollerKnows(Next(s, a), Next(s, a).pollers[p], m)
  {
    if a.Persist? {
      forall p | p in s.pollers
        ensures m.job !in s.pollers[p].todo && m.job !in s.pollers[p].seen
      {
        assert Observes(s.conv, s.pollers[p]);
      }
    }
  }

  lemma PollersStay(s: State, a: Action, p: nat)
    requires Enabled(s, a) && Inv(s) && p in Next(s, a).pollers
    ensures Observes(Next(s, a).conv, Next(s, a).pollers[p])
  {
    var l := Next(s, a).pollers[p];
    UnresolvedReads(s.conv);
    forall j | j in l.todo
      ensures HasReply(Next(s, a).conv, j)
    {
      if a != PollRead(p) { assert Observes(s.conv, s.pollers[p]); }
      RepliesStay(s, a, j);
    }
    if a != PollRead(p) { assert Observes(s.conv, s.pollers[p]); }
  }

  lemma OwnersStay(s: State, a: Action, j: JobId)
    requires Enabled(s, a) && Inv(s) && (j in Next(s, a).senders || j in Next(s, a).workers)
    ensures HasLive(Next(s, a), j)
  {
    if a == Persist(j) {
      var n := Next(s, a);
      Places(s, a);
      assert n.conv[|s.conv|] == Added(s, a)[0];
      assert n.conv[|s.conv|] in n.conv;
    } else {
      assert j in s.senders || j in s.workers;
      LivesStay(s, a, j);
    }
  }

  lemma InvStep(s: State, a: Action)
    requires Inv(s)
    ensures Inv(Next(s, a))
  {
    if Enabled(s, a) {
      var n := Next(s, a);
      Places(s, a);
      UniqueStays(s, a);
      forall i | 0 <= i < |n.conv|
        ensures MsgOk(n, n.conv[i])
        ensures forall p :: p in n.pollers ==>
                  PollerOk(n, n.pollers[p], n.conv[i]) && PollerKnows(n, n.pollers[p], n.conv[i])
      {
        if i < |s.conv| {
          OldMessageOk(s, a, s.conv[i]);
        } else {
          NewMessageOk(s, a, n.conv[i]);
        }
      }
      forall p | p in n.pollers ensures Observes(n.conv, n.pollers[p]) { PollersStay(s, a, p); }
      forall j | j in n.senders || j in n.workers ensures HasLive(n, j) { OwnersStay(s, a, j); }
    }
  }

  lemma OldMessageOk(s: State, a: Action, m: Msg)
    requires Enabled(s, a) && Inv(s) && m in s.conv
    ensures MsgOk(Next(s, a), After(s, a, m))
    ensures forall p :: p in Next(s, a).pollers ==>
              && PollerOk(Next(s, a), Next(s, a).pollers[p], After(s, a, m))
              && PollerKnows(Next(s, a), Next(s, a).pollers[p], After(s, a, m))
  {
    if m.Reply? {
      assert a.PollApply? ==> PollerOk(s, s.pollers[a.poller], m);
      LiveStep(s, a, m);
      forall p | p in Next(s, a).pollers
        ensures PollerOk(Next(s, a), Next(s, a).pollers[p], After(s, a, m))
        ensures PollerKnows(Next(s, a), Next(s, a).pollers[p], After(s, a, m))
      {
        assert p in s.pollers ==> PollerOk(s, s.pollers[p], m) && PollerKnows(s, s.pollers[p], m);
        PollerStep(s, a, p, m);
        EarlierStaysKnown(s, a, p, m);
      }
    }
  }

  // ---------- what every run guarantees ----------

  function Init(): State {
    State([], map[], 0, map[], map[], map[])
  }

  lemma {:induction false} InvRun(s: State, run: seq<Action>)
    requires Inv(s)
    ensures Inv(Exec(s, run))
    decreases |run|
  {
    if run != [] {
      InvStep(s, run[0]);
      InvRun(Next(s, run[0]), run[1..]);
    }
  }

  /** `n` is `m` ended with the outcome that the record of its job carries in `s`. */
  predicate EndedAsRecorded(s: State, m: Msg, n: Msg) {
    && m.Reply? && n.Reply? && m.job in s.jobs && WorkerOf(s, m.job) == NoWorker
    && SenderOf(s, m.job) != Persisted && SenderOf(s, m.job) != Inserted
    && n.status == s.jobs[m.job].status && n.status in {Failed, Cancelled, Interrupted}
    && n.text == (if s.jobs[m.job].error != "" then s.jobs[m.job].error else m.text)
    && (n.status == Interrupted ==> n.text == NOT_SUBMITTED)
  }

  lemma ResolvesAsRecorded(s: State, l: Poller, m: Msg)
    requires m.Reply? && m.boot == s.boot && MsgOk(s, m) && PollerOk(s, l, m) && l.seen.Keys <= l.todo.Keys
    requires ResolveOne(m, l.seen, s.boot) != m
    ensures EndedAsRecorded(s, m, ResolveOne(m, l.seen, s.boot))
  {
    assert LiveOk(m, JobOf(s, m.job), SenderOf(s, m.job), WorkerOf(s, m.job));
    assert l.seen[m.job].job == JobOf(s, m.job) && Terminal(s.jobs[m.job].status);
  }

  /** A poll, however stale, ends a message of the running process only with the outcome its job
      record carries now; it never calls one lost, unsaved or restarted, and never ends one whose
      job is not there yet, waiting, or still answering. */
  lemma StalePollsNeverMislead(run: seq<Action>, p: nat, i: nat)
    requires Enabled(Exec(Init(), run), PollApply(p)) && i < |Exec(Init(), run).conv|
    ensures var s := Exec(Init(), run);
            var m, n := s.conv[i], Next(s, PollApply(p)).conv[i];
            m.Reply? && m.boot == s.boot && n != m ==> EndedAsRecorded(s, m, n)
  {
    InvRun(Init(), run);
    var s := Exec(Init(), run);
    PollMisleadsNone(s, p, i);
  }

  lemma PollMisleadsNone(s: State, p: nat, i: nat)
    requires Inv(s) && Enabled(s, PollApply(p)) && i < |s.conv|
    ensures var m, n := s.conv[i], Next(s, PollApply(p)).conv[i];
            m.Reply? && m.boot == s.boot && n != m ==> EndedAsRecorded(s, m, n)
  {
    var m, l := s.conv[i], s.pollers[p];
    assert MsgOk(s, m) && PollerOk(s, l, m) && Observes(s.conv, l);
    Places(s, PollApply(p));
    if m.Reply? && m.boot == s.boot && ResolveOne(m, l.seen, s.boot) != m {
      ResolvesAsRecorded(s, l, m);
    }
  }

  /** `n` is a message of an earlier process, ended as its job record says: interrupted by the restart
      when there is none. */
  predicate EndedAfterRestart(s: State, m: Msg, n: Msg)
    requires m.Reply?
  {
    if m.job !in s.jobs then n == m.(status := Interrupted, text := RESTARTED)
    else
      var job := s.jobs[m.job];
      && job.status in {Failed, Cancelled, Interrupted}
      && n == m.(status := job.status,
                 text := if job.error != "" then job.error else if job.status == Interrupted then RESTARTED else m.text)
  }

  /** A poll ends a message of an earlier process only with what its job record carries, or as
      interrupted by the restart; and no poll ever makes any message completed. */
  lemma EarlierMessagesEndAsRecorded(run: seq<Action>, p: nat, i: nat)
    requires Enabled(Exec(Init(), run), PollApply(p)) && i < |Exec(Init(), run).conv|
    ensures var s := Exec(Init(), run);
            var m, n := s.conv[i], Next(s, PollApply(p)).conv[i];
            && (m.Reply? && m.boot < s.boot && n != m ==> EndedAfterRestart(s, m, n))
            && (m.Reply? && n != m ==> n.Reply? && n.status in {Failed, Cancelled, Interrupted})
  {
    InvRun(Init(), run);
    var s := Exec(Init(), run);
    PollMisleadsNone(s, p, i);
    var m := s.conv[i];
    assert m in s.conv && MsgOk(s, m) && PollerKnows(s, s.pollers[p], m) && Observes(s.conv, s.pollers[p]);
    Places(s, PollApply(p));
  }

  /** A job that fails or is cancelled, or cannot be dispatched, ends its open message with just that
      and with the text given, and nothing that happens later changes it. */
  lemma EndingsStay(run: seq<Action>, a: Action, i: nat, later: seq<Action>)
    requires Enabled(Exec(Init(), run), a) && i < |Exec(Init(), run).conv|
    requires a.ReportRefusal? || (a.Fail? && a.saved)
    requires Open(Exec(Init(), run).conv[i]) && Exec(Init(), run).conv[i].job == a.job
    ensures var n := Exec(Next(Exec(Init(), run), a), later).conv;
            && i < |n| && n[i].Reply? && n[i].job == a.job && n[i].text == a.text
            && n[i].status == if a.Fail? && a.cancelled then Cancelled else Failed
  {
    Places(Exec(Init(), run), a);
    EndedMessagesNeverChange(Next(Exec(Init(), run), a), later);
  }

  /** Marking a queued message as registered does that to it and to no other. */
  lemma MarkingRegisters(s: State, j: JobId, i: nat)
    requires Enabled(s, MarkIt(j)) && i < |s.conv|
    ensures var n := Next(s, MarkIt(j)).conv;
            if s.conv[i].Reply? && s.conv[i].job == j && s.conv[i].stage == Queued
            then n[i] == s.conv[i].(stage := Registered) else n[i] == s.conv[i]
  {
    Places(s, MarkIt(j));
  }

  /** An answer always reaches its message, and nothing that happens later takes it away. */
  lemma AnswersStay(run: seq<Action>, job: JobId, text: string, later: seq<Action>) returns (i: nat)
    requires Enabled(Exec(Init(), run), Answer(job, text))
    ensures var s := Exec(Init(), run);
            var t := Exec(Next(s, Answer(job, text)), later);
            && i < |s.conv| && i < |t.conv|
            && Open(s.conv[i]) && s.conv[i].job == job
            && t.conv[i].Reply? && t.conv[i].job == job && t.conv[i].status == Completed && t.conv[i].text == text
  {
    var s := Exec(Init(), run);
    var a := Answer(job, text);
    InvRun(Init(), run);
    assert job in s.workers && HasLive(s, job);
    var m :| m in s.conv && m.Reply? && m.job == job && m.boot == s.boot;
    assert MsgOk(s, m);
    i :| 0 <= i < |s.conv| && s.conv[i] == m;
    Places(s, a);
    EndedMessagesNeverChange(Next(s, a), later);
  }

  /** Whether the running process may still end an open message itself. */
  predicate StillOwed(s: State, m: Msg) {
    m.Reply? && m.boot == s.boot && (m.job in s.jobs ==> !Terminal(s.jobs[m.job].status))
  }

  /** A poll that acts on a fresh look leaves a message open exactly while the running process
      may still end it: whatever an earlier process left open is ended by one poll. */
  lemma FreshPollsDecide(run: seq<Action>, p: nat, i: nat)
    requires i < |Exec(Init(), run).conv| && Open(Exec(Init(), run).conv[i])
    ensures var s := Exec(Init(), run);
            var t := Exec(s, [PollRead(p), PollLook(p, s.conv[i].job), PollApply(p)]);
            i < |t.conv| && (Open(t.conv[i]) <==> StillOwed(s, s.conv[i]))
  {
    InvRun(Init(), run);
    var s := Exec(Init(), run);
    ThreeSteps(s, PollRead(p), PollLook(p, s.conv[i].job), PollApply(p));
    FreshPoll(s, p, i);
  }

  lemma FreshPoll(s: State, p: nat, i: nat)
    requires Inv(s) && i < |s.conv| && Open(s.conv[i])
    ensures var t := Next(Next(Next(s, PollRead(p)), PollLook(p, s.conv[i].job)), PollApply(p));
            i < |t.conv| && (Open(t.conv[i]) <==> StillOwed(s, s.conv[i]))
  {
    var m := s.conv[i];
    assert m in s.conv && MsgOk(s, m);
    UnresolvedReads(s.conv);
    LookingChangesNothing(s, PollRead(p));
    var s1 := Next(s, PollRead(p));
    LookingChangesNothing(s1, PollLook(p, m.job));
    var s2 := Next(s1, PollLook(p, m.job));
    Places(s2, PollApply(p));
    FreshLook(s, m, s2.pollers[p].seen);
  }

  lemma LookingChangesNothing(s: State, a: Action)
    requires Enabled(s, a) && (a.PollRead? || a.PollLook?)
    ensures Next(s, a) == s.(pollers := NextPollers(s, a))
  {
    assert NextConv(s, a) == s.conv;
  }

  lemma FreshLook(s: State, m: Msg, seen: map<JobId, Seen>)
    requires Open(m) && MsgOk(s, m) && m.job in seen && seen[m.job] == Seen(JobOf(s, m.job), m.stage)
    ensures Open(ResolveOne(m, seen, s.boot)) <==> StillOwed(s, m)
  {
  }

  lemma ThreeSteps(s: State, a: Action, b: Action, c: Action)
    ensures Exec(s, [a, b, c]) == Next(Next(Next(s, a), b), c)
  {
    assert [a, b, c][1..] == [b, c] && [b, c][1..] == [c] && [c][1..] == [];
    assert Exec(Next(Next(s, a), b), [c]) == Next(Next(Next(s, a), b), c);
  }

  // ---------- the stored conversation ----------

  lemma {:induction false} ExecSplits(s: State, first: seq<Action>, rest: seq<Action>)
    ensures Exec(s, first + rest) == Exec(Exec(s, first), rest)
    decreases |first|
  {
    if first == [] {
      assert first + rest == rest;
    } else {
      assert (first + rest)[1..] == first[1..] + rest;
      ExecSplits(Next(s, first[0]), first[1..], rest);
    }
  }

  lemma ExecExtends(s: State, run: seq<Action>, a: Action)
    ensures Exec(s, run + [a]) == Next(Exec(s, run), a)
  {
    ExecSplits(s, run, [a]);
    assert [a][1..] == [];
    assert Exec(Next(Exec(s, run), a), []) == Next(Exec(s, run), a);
  }

  // ---------- every ending happens ----------

  lemma Then(run: seq<Action>, s: State, a: Action, conv: Conv) returns (more: seq<Action>, t: State)
    requires Exec(Init(), run) == s && Enabled(s, a) && NextConv(s, a) == conv
    ensures more == run + [a] && t == Next(s, a) && Exec(Init(), more) == t && t.conv == conv
  {
    ExecExtends(Init(), run, a);
    more, t := run + [a], Next(s, a);
  }

  lemma Dispatching(j: JobId) returns (run: seq<Action>, s: State)
    ensures Exec(Init(), run) == s && s.conv == [Reply(j, Status.Pending, PLACEHOLDER, Queued, 0)]
    ensures s == Init().(conv := s.conv, jobs := map[j := Job(Status.Pending, "")],
                         senders := map[j := Started], workers := map[j := Ready])
  {
    run, s := [], Init();
    var asked := [Reply(j, Status.Pending, PLACEHOLDER, Queued, 0)];
    run, s := Then(run, s, Persist(j), asked);
    run, s := Then(run, s, Insert(j), asked);
    run, s := Then(run, s, Submit(j), asked);
  }

  /** A question can be answered, with the record completed. */
  lemma CanBeAnswered(j: JobId, text: string) returns (run: seq<Action>)
    ensures var s := Exec(Init(), run);
            s.conv == [Reply(j, Completed, text, Handled, 0)] && s.jobs == map[j := Job(Completed, "")]
  {
    var s;
    run, s := Dispatching(j);
    var marked := [Reply(j, Status.Pending, PLACEHOLDER, Registered, 0)];
    run, s := Then(run, s, Begin(j), s.conv);
    run, s := Then(run, s, MarkIt(j), marked);
    run, s := Then(run, s, Answer(j, text), [Reply(j, Completed, text, Handled, 0)]);
    run, s := Then(run, s, Action.Finish(j), s.conv);
  }

  /** It can be cancelled while it is being answered. */
  lemma CanBeCancelled(j: JobId, text: string, error: string) returns (run: seq<Action>)
    ensures var s := Exec(Init(), run);
            s.conv == [Reply(j, Cancelled, text, Handled, 0)] && s.jobs == map[j := Job(Cancelled, error)]
  {
    var s;
    run, s := Dispatching(j);
    run, s := Then(run, s, Begin(j), s.conv);
    run, s := Then(run, s, AskCancel(j), s.conv);
    run, s := Then(run, s, Fail(j, true, true, text, error), [Reply(j, Cancelled, text, Handled, 0)]);
    run, s := Then(run, s, Action.Finish(j), s.conv);
  }

  /** It can be refused before there is a record. */
  lemma CanBeRefused(j: JobId, text: string) returns (run: seq<Action>)
    ensures var s := Exec(Init(), run);
            s.conv == [Reply(j, Failed, text, Handled, 0)] && s.jobs == map[]
  {
    var asked := [Reply(j, Status.Pending, PLACEHOLDER, Queued, 0)];
    var s := Init();
    run, s := Then([], s, Persist(j), asked);
    run, s := Then(run, s, Refuse(j), asked);
    run, s := Then(run, s, ReportRefusal(j, text), [Reply(j, Failed, text, Handled, 0)]);
  }

  /** Its record can be closed because the job could not be submitted. */
  lemma CanFailToDispatch(j: JobId, text: string) returns (run: seq<Action>)
    ensures var s := Exec(Init(), run);
            && s.conv == [Reply(j, Failed, text, Handled, 0)] && s.senders == map[]
            && s.jobs == map[j := Job(Interrupted, "任务未能派发")]
  {
    var asked := [Reply(j, Status.Pending, PLACEHOLDER, Queued, 0)];
    var s := Init();
    run, s := Then([], s, Persist(j), asked);
    run, s := Then(run, s, Insert(j), asked);
    run, s := Then(run, s, SubmitFails(j), asked);
    run, s := Then(run, s, ReportRefusal(j, text), [Reply(j, Failed, text, Handled, 0)]);
  }

  /** It can fail before it is begun, with the error on the record. */
  lemma CanFailBeforeItBegins(j: JobId, text: string, error: string) returns (run: seq<Action>)
    ensures var s := Exec(Init(), run);
            s.conv == [Reply(j, Failed, text, Handled, 0)] && s.jobs == map[j := Job(Failed, error)]
  {
    var s;
    run, s := Dispatching(j);
    run, s := Then(run, s, Fail(j, false, true, text, error), [Reply(j, Failed, text, Handled, 0)]);
    run, s := Then(run, s, Action.Finish(j), s.conv);
  }

  /** What a restart leaves: the records that were over, all others interrupted, and nobody at work. */
  lemma RestartDoes(s: State)
    ensures var t := Next(s, Restart);
            && t.boot == s.boot + 1 && t.conv == s.conv && t.jobs.Keys == s.jobs.Keys
            && t.senders == map[] && t.workers == map[] && t.pollers == map[]
            && forall j :: j in t.jobs ==>
                 t.jobs[j] == if s.jobs[j].status in {Completed, Failed, Cancelled, Interrupted} then s.jobs[j]
                              else Job(Interrupted, "服务重启时没有收到回执")
  {
    assert NextConv(s, Restart) == s.conv;
  }

  /** A job that begins runs, unless it has been asked to stop by then. */
  lemma BeginDoes(s: State, j: JobId)
    requires Enabled(s, Begin(j)) && j in s.jobs
    ensures Next(s, Begin(j)).jobs[j] == if s.jobs[j].status == Status.Pending then Job(Running, "") else s.jobs[j]
  {
  }

  /** What a poller has seen stays with it, however much happens, until it looks again, is done or
      the process restarts. */
  lemma PollersRemember(s: State, a: Action, p: nat)
    requires Enabled(s, a) && p in s.pollers && !a.Restart?
    requires (a.PollRead? || a.PollLook? || a.PollApply?) ==> a.poller != p
    ensures p in Next(s, a).pollers && Next(s, a).pollers[p] == s.pollers[p]
  {
  }

  lemma Restarting(j: JobId) returns (run: seq<Action>, s: State)
    ensures Exec(Init(), run) == s && s.conv == [Reply(j, Status.Pending, PLACEHOLDER, Queued, 0)]
    ensures s == Init().(conv := s.conv, jobs := map[j := Job(Interrupted, NO_RECEIPT)], boot := 1)
  {
    run, s := Dispatching(j);
    run, s := Then(run, s, Begin(j), s.conv);
    run, s := Then(run, s, Restart, s.conv);
  }

  /** And a restart while it is being answered ends it, at the next poll, as its record says. */
  lemma CanBeInterrupted(j: JobId, p: nat) returns (run: seq<Action>)
    ensures var s := Exec(Init(), run);
            s.boot == 1 && s.conv == [Reply(j, Interrupted, "服务重启时没有收到回执", Queued, 0)]
  {
    var s;
    run, s := Restarting(j);
    run, s := Then(run, s, PollRead(p), s.conv);
    assert Unresolved(s.conv[..0]) == map[];
    run, s := Then(run, s, PollLook(p, j), s.conv);
    run, s := Then(run, s, PollApply(p), [Reply(j, Interrupted, NO_RECEIPT, Queued, 0)]);
  }

  /** The step ends the message of a job in this way. */
  predicate Ends(a: Action, job: JobId, status: Status, text: string) {
    match a
    case Answer(j, t) => j == job && t == text && status == Completed
    case ReportRefusal(j, t) => j == job && t == text && status == Failed
    case Fail(j, cancelled, saved, t, _) =>
      saved && j == job && t == text && status == (if cancelled then Cancelled else Failed)
    case _ => false
  }

  /** What was seen ends an open message when its record is over, or when there is none although the
      message is as it was then and its sender is either gone or past the dispatch. */
  predicate MayEnd(m: Msg, seen: map<JobId, Seen>, boot: nat) {
    Open(m) && m.job in seen
    && match seen[m.job].job
       case Some(job) => job.status in {Completed, Failed, Cancelled, Interrupted}
       case None => m.stage == seen[m.job].stage && (m.boot != boot || m.stage in {Registered, Handled})
  }

  /** How it then ends: completed only with an answer, and with the reason as its text otherwise. */
  predicate EndedBy(m: Msg, n: Msg, seen: map<JobId, Seen>, boot: nat)
    requires m.Reply? && m.job in seen
  {
    && n.Reply? && n.job == m.job && n.stage == m.stage && n.boot == m.boot
    && match seen[m.job].job
       case None => n.status == Interrupted && n.text == if m.boot == boot then "任务记录丢失" else "服务重启，任务中断"
       case Some(job) =>
         var unsaved := job.status == Completed && m.text == "正在回答";
         && n.status == (if unsaved then Interrupted else job.status)
         && (unsaved ==> n.text == "任务已结束，但回答未能保存")
         && (!unsaved && job.error != "" ==> n.text == job.error)
         && (!unsaved && job.error == "" ==> n.text == if job.status == Interrupted then "服务重启，任务中断" else m.text)
  }

  /** The stored conversation; every method is one read-modify-write transaction and is told which
      step of the protocol it is. */
  class Conversation {
    var messages: Conv
    /** The steps of all processes so far. */
    ghost var log: seq<Action>

    ghost function History(): State
      reads this
    {
      Exec(Init(), log)
    }

    ghost predicate Valid()
      reads this
    {
      messages == History().conv
    }

    constructor ()
      ensures Valid() && messages == [] && log == []
    {
      messages, log := [], [];
    }

    /** Messages that had ended at any earlier time are unchanged, and none was dropped. */
    lemma EndedStayAsTheyWere(k: nat)
      requires Valid() && k <= |log|
      ensures Settled(Exec(Init(), log[..k]).conv, messages)
    {
      assert log == log[..k] + log[k..];
      ExecSplits(Init(), log[..k], log[k..]);
      EndedMessagesNeverChange(Exec(Init(), log[..k]), log[k..]);
    }

    /** A step of some process that does not touch the stored messages. */
    ghost method Elsewhere(a: Action)
      requires Valid() && Enabled(History(), a) && Next(History(), a).conv == messages
      modifies this`log
      ensures Valid() && log == old(log) + [a]
    {
      ExecExtends(Init(), log, a);
      log := log + [a];
    }

    method Append(m: Msg, ghost a: Action)
      modifies this
      ensures messages == old(messages) + [m] && log == old(log) + [a]
      ensures old(Valid() && Enabled(History(), a) && Added(History(), a) == [m]) ==> Valid()
    {
      ghost var s := History();
      ExecExtends(Init(), log, a);
      if Enabled(s, a) && Added(s, a) == [m] { StepsAreTransactions(s, a); }
      messages, log := messages + [m], log + [a];
    }

    /** Applies a poller's observations to the messages as they are now. */
    method ApplySeen(seen: map<JobId, Seen>, boot: nat, ghost p: nat) returns (changed: bool)
      modifies this
      ensures messages == Resolve(old(messages), seen, boot) && log == old(log) + [PollApply(p)]
      ensures old(Valid() && p in History().pollers && History().pollers[p].seen == seen && History().boot == boot) ==>
                Valid()
      ensures changed <==> messages != old(messages)
      ensures |messages| == |old(messages)|
      ensures forall i :: 0 <= i < |messages| ==>
                if MayEnd(old(messages)[i], seen, boot) then EndedBy(old(messages)[i], messages[i], seen, boot)
                else messages[i] == old(messages)[i]
    {
      ghost var s := History();
      ExecExtends(Init(), log, PollApply(p));
      if p in s.pollers { StepsAreTransactions(s, PollApply(p)); }
      log := log + [PollApply(p)];
      changed := false;
      for i := 0 to |messages|
        invariant |messages| == |old(messages)| && log == old(log) + [PollApply(p)]
        invariant forall k :: 0 <= k < i ==> messages[k] == ResolveOne(old(messages)[k], seen, boot)
        invariant forall k :: i <= k < |messages| ==> messages[k] == old(messages)[k]
        invariant changed <==> messages != old(messages)
      {
        var m := ResolveOne(messages[i], seen, boot);
        if m != messages[i] {
          messages := messages[i := m];
          changed := true;
          assert messages[i] != old(messages)[i];
        }
      }
    }

    /** Ends the open message of a job. */
    method SettleMsg(job: JobId, status: Status, text: string, ghost a: Action) returns (found: bool)
      requires UniqueJobs(messages)
      modifies this
      ensures messages == Settle(old(messages), job, status, text) && log == old(log) + [a]
      ensures old(Valid() && Enabled(History(), a)) && Ends(a, job, status, text) ==> Valid()
      ensures found <==> exists i :: 0 <= i < |old(messages)| && Open(old(messages)[i]) && old(messages)[i].job == job
    {
      ghost var s := History();
      ExecExtends(Init(), log, a);
      if Enabled(s, a) { StepsAreTransactions(s, a); }
      log := log + [a];
      for i := 0 to |messages|
        invariant messages == old(messages) && log == old(log) + [a]
        invariant forall k :: 0 <= k < i ==> !(Open(messages[k]) && messages[k].job == job)
      {
        if Open(messages[i]) && messages[i].job == job {
          messages := messages[i := messages[i].(status := status, text := text, stage := Handled)];
          return true;
        }
      }
      return false;
    }

    /** The message of a job that has not been dispatched. */
    static predicate IsQueued(m: Msg, job: JobId) {
      m.Reply? && m.job == job && m.stage == Queued
    }

    method MarkRegistered(job: JobId) returns (found: bool)
      requires UniqueJobs(messages)
      modifies this
      ensures messages == Mark(old(messages), job) && log == old(log) + [MarkIt(job)]
      ensures found <==> exists i :: 0 <= i < |old(messages)| && IsQueued(old(messages)[i], job)
      ensures old(Valid() && Enabled(History(), MarkIt(job))) ==> Valid()
    {
      ghost var s := History();
      ExecExtends(Init(), log, MarkIt(job));
      if Enabled(s, MarkIt(job)) { StepsAreTransactions(s, MarkIt(job)); }
      log := log + [MarkIt(job)];
      for i := 0 to |messages|
        invariant messages == old(messages) && log == old(log) + [MarkIt(job)]
        invariant forall k :: 0 <= k < i ==> MarkOne(messages[k], job) == messages[k] && !IsQueued(messages[k], job)
      {
        if IsQueued(messages[i], job) {
          messages := messages[i := messages[i].(stage := Registered)];
          return true;
        }
      }
      return false;
    }
  }
}
