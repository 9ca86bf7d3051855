/** The job ledger and its outbox (crates/vgi-bridge/src/bridge.rs, store.rs): an at-least-once protocol
    with duplicate requests, racing deliveries, crashes and restarts, acknowledgements and refusals.

    Each function `After...` is one stretch of a task between two waits, so every sequence of them is an
    interleaving of handlers, run tasks and sends. Jobs are of the kinds a run task carries out. A digest is
    that of a payload's canonical form, so the payload's canonical text stands for its own digest. */
module Ledger {
  import opened Wrappers

  datatype Job = Job(id: string, namespace: string, body: string)

  datatype JobState = Queued | Running | Finished

  datatype JobRecord = JobRecord(digest: string, namespace: string, payload: Option<string>, state: JobState,
                                 report: Option<string>, finishedAt: Option<int>)

  datatype OutKey = ResultOf(id: string) | EventKey(text: string)

  /** `namespace` is the one an event is about. */
  datatype OutboxEntry = OutboxEntry(namespace: Option<string>, payload: string, docIds: seq<string>, attempts: nat)

  datatype Refusal = JobIdReused | Unavailable | NotAdmitted

  datatype Reply = Accepted(id: string) | AlreadyFinished(id: string) | Refused(id: string, why: Refusal)

  /** Where the handling of one job document is. */
  datatype Handler =
    | Received(job: Job)
    | Unknown(job: Job)
    | Recorded(id: string)
    | ToSpawn(id: string)
    | Repeated(id: string, finished: bool, report: Option<string>)
    | PuttingBack(id: string, report: Option<string>)
  {
    /** It will spawn the job's run task. */
    predicate Spawns() {
      Recorded? || ToSpawn?
    }

    predicate HasReport() {
      (Repeated? || PuttingBack?) && report.Some?
    }
  }

  /** Where a run task is. */
  datatype Task =
    | Starting(id: string)
    | Queueing(id: string, payload: string)
    | Working(id: string, payload: string)
    | Reporting(id: string, report: string)
  {
    predicate HasPayload() {
      Queueing? || Working?
    }
  }

  /** Where one sending of an outbox entry is. `about` is the namespace an event is about; `since` counts the
      mirrored changes made before it began. An event is `Announcing` from the test whether its namespace is
      orphaned until it is put in the outbox, and every entry is `Screening` from being read there until its
      namespace is looked up again. */
  datatype Sender =
    | Announcing(key: OutKey, payload: string, about: Option<string>)
    | Picking(key: OutKey)
    | Screening(key: OutKey, payload: string, about: Option<string>, since: nat)
    | Flushing(key: OutKey, payload: string, about: Option<string>, since: nat)
    | Signing(key: OutKey, payload: string, about: Option<string>, since: nat)
    | Sending(key: OutKey, payload: string, about: Option<string>, since: nat, docId: string)
  {
    /** It passed the last look at its namespace. */
    predicate Screened() {
      Flushing? || Signing? || Sending?
    }

    /** The mirror was flushed for it. */
    predicate Cleared() {
      Signing? || Sending?
    }
  }

  /** What has happened, for the statements only. `pruned` counts how often a job left the ledger, which numbers
      its stays there: `results` and `runs` have the result and the content of each stay. `spawned`,
      `prunedHere` and `faulted` are of this process. */
  datatype Past = Past(replies: set<Reply>, recorded: set<(string, string)>, results: map<(string, nat), string>,
                       runs: map<(string, nat), string>, sent: set<(OutKey, string)>, docIds: set<string>,
                       pruned: multiset<string>, cleared: set<string>, spawned: multiset<string>,
                       prunedHere: multiset<string>, faulted: bool)

  /** `changes` counts the changes made to mirrored records, `settled` those the mirror is known to have dealt
      with: each is in the remote, or was too large for it and stays here only. */
  datatype State = State(jobs: map<string, JobRecord>, outbox: map<OutKey, OutboxEntry>, bound: set<string>,
                         orphaned: set<string>, handlers: map<nat, Handler>, tasks: map<nat, Task>,
                         senders: map<nat, Sender>, next: nat, changes: nat, settled: nat, past: Past)

  const FAILED := "forgeError"
  const MAX_DOC_IDS := 8
  const JOB_RETENTION := 30 * 86_400

  function QueuedJob(job: Job): JobRecord {
    JobRecord(job.body, job.namespace, Some(job.body), Queued, None, None)
  }

  function NewEntry(namespace: Option<string>, payload: string): OutboxEntry {
    OutboxEntry(namespace, payload, [], 0)
  }

  // ---- A job document ----

  function AfterDelivery(s: State, job: Job): State {
    s.(handlers := s.handlers[s.next := Received(job)], next := s.next + 1)
  }

  function Move(s: State, n: nat, h: Handler): State {
    s.(handlers := s.handlers[n := h])
  }

  function Close(s: State, n: nat, reply: Option<Reply>): State {
    s.(handlers := s.handlers - {n},
       past := s.past.(replies := s.past.replies + (if reply.Some? then {reply.value} else {})))
  }

  function AfterLookUp(s: State, n: nat, storeOk: bool): State
    requires n in s.handlers && s.handlers[n].Received?
  {
    var job := s.handlers[n].job;
    if !storeOk then Close(s, n, Some(Refused(job.id, Unavailable)))
    else if job.id !in s.jobs then Move(s, n, Unknown(job))
    else
      var e := s.jobs[job.id];
      if e.digest != job.body then Close(s, n, Some(Refused(job.id, JobIdReused)))
      else Move(s, n, Repeated(job.id, e.state.Finished?, e.report))
  }

  /** An orphaned namespace is bound again, if the store does it. */
  function Revived(s: State, namespace: string, storeOk: bool): State {
    if storeOk && namespace in s.orphaned
    then s.(orphaned := s.orphaned - {namespace}, bound := s.bound + {namespace}) else s
  }

  /** No job is admitted for a namespace that is orphaned still. */
  function AfterAdmission(s: State, n: nat, reviveOk: bool, admitted: bool, storeOk: bool): State
    requires n in s.handlers && s.handlers[n].Unknown?
  {
    var job := s.handlers[n].job;
    var s' := Revived(s, job.namespace, reviveOk);
    if !admitted || job.namespace in s'.orphaned then Close(s', n, Some(Refused(job.id, NotAdmitted)))
    else if !storeOk then Close(s', n, Some(Refused(job.id, Unavailable)))
    else if job.id in s.jobs then Close(s', n, None)
    else Move(s', n, Recorded(job.id)).(jobs := s.jobs[job.id := QueuedJob(job)])
  }

  function AfterAccepting(s: State, n: nat): State
    requires n in s.handlers && s.handlers[n].Recorded?
  {
    var id := s.handlers[n].id;
    Move(s, n, ToSpawn(id)).(past := s.past.(replies := s.past.replies + {Accepted(id)}))
  }

  function AfterSpawning(s: State, n: nat): State
    requires n in s.handlers && s.handlers[n].ToSpawn?
  {
    var id := s.handlers[n].id;
    s.(handlers := s.handlers - {n}, tasks := s.tasks[s.next := Starting(id)], next := s.next + 1,
       past := s.past.(spawned := s.past.spawned + multiset{id}))
  }

  function AfterRepeatAnswer(s: State, n: nat): State
    requires n in s.handlers && s.handlers[n].Repeated?
  {
    var h := s.handlers[n];
    if !h.finished then Close(s, n, Some(Accepted(h.id)))
    else Move(s, n, PuttingBack(h.id, h.report)).(past := s.past.(replies := s.past.replies + {AlreadyFinished(h.id)}))
  }

  function AfterPuttingBack(s: State, n: nat, storeOk: bool): State
    requires n in s.handlers && s.handlers[n].PuttingBack?
  {
    var h := s.handlers[n];
    var s' := BeginSend(s.(handlers := s.handlers - {n}), ResultOf(h.id));
    if storeOk && h.report.Some? && ResultOf(h.id) !in s.outbox then
      s'.(outbox := s.outbox[ResultOf(h.id) := NewEntry(None, h.report.value)],
          past := s.past.(cleared := s.past.cleared - {h.id}))
    else s'
  }

  // ---- A run task ----

  function MoveTask(s: State, t: nat, task: Task): State {
    s.(tasks := s.tasks[t := task])
  }

  function EndTask(s: State, t: nat): State {
    s.(tasks := s.tasks - {t})
  }

  function AfterStarting(s: State, t: nat, storeOk: bool): State
    requires t in s.tasks && s.tasks[t].Starting?
  {
    var id := s.tasks[t].id;
    if !storeOk || id !in s.jobs then MoveTask(s, t, Reporting(id, FAILED))
    else if s.jobs[id].state.Finished? then EndTask(s, t)
    else if s.jobs[id].payload.None? then MoveTask(s, t, Reporting(id, FAILED))
    else MoveTask(s, t, Queueing(id, s.jobs[id].payload.value))
  }

  function AfterTurn(s: State, t: nat, storeOk: bool): State
    requires t in s.tasks && s.tasks[t].Queueing?
  {
    var id, payload := s.tasks[t].id, s.tasks[t].payload;
    if !storeOk then MoveTask(s, t, Reporting(id, FAILED))
    else
      MoveTask(s, t, Working(id, payload))
        .(jobs := if id in s.jobs then s.jobs[id := s.jobs[id].(state := Running)] else s.jobs,
          past := s.past.(runs := s.past.runs[(id, s.past.pruned[id]) := payload]))
  }

  function AfterWork(s: State, t: nat, report: string): State
    requires t in s.tasks && s.tasks[t].Working?
  {
    MoveTask(s, t, Reporting(s.tasks[t].id, report))
  }

  function AfterFinishing(s: State, t: nat, now: int, storeOk: bool): State
    requires t in s.tasks && s.tasks[t].Reporting?
  {
    var id, report := s.tasks[t].id, s.tasks[t].report;
    if !storeOk then EndTask(s, t).(past := s.past.(faulted := true))
    else if id !in s.jobs || s.jobs[id].state.Finished? then EndTask(s, t)
    else
      BeginSend(EndTask(s, t), ResultOf(id))
        .(jobs := s.jobs[id := s.jobs[id].(state := Finished, report := Some(report), payload := None,
                                           finishedAt := Some(now))],
          outbox := s.outbox[ResultOf(id) := NewEntry(None, report)],
          past := s.past.(recorded := s.past.recorded + {(id, report)}, cleared := s.past.cleared - {id},
                          results := s.past.results[(id, s.past.pruned[id]) := report]))
  }

  // ---- Sending ----

  function BeginSend(s: State, key: OutKey): State {
    s.(senders := s.senders[s.next := Picking(key)], next := s.next + 1)
  }

  function MoveSender(s: State, m: nat, sender: Sender): State {
    s.(senders := s.senders[m := sender])
  }

  function EndSender(s: State, m: nat): State {
    s.(senders := s.senders - {m})
  }

  function AfterPosting(s: State, m: nat, storeOk: bool): State
    requires m in s.senders && s.senders[m].Announcing?
  {
    var p := s.senders[m];
    if !storeOk then EndSender(s, m)
    else MoveSender(s, m, Picking(p.key)).(outbox := s.outbox[p.key := NewEntry(p.about, p.payload)])
  }

  function AfterPicking(s: State, m: nat, storeOk: bool): State
    requires m in s.senders && s.senders[m].Picking?
  {
    var key := s.senders[m].key;
    if !storeOk || key !in s.outbox then EndSender(s, m)
    else MoveSender(s, m, Screening(key, s.outbox[key].payload, s.outbox[key].namespace, s.changes))
  }

  /** An event whose namespace was orphaned in the meantime goes no further, if the store can say so. */
  function AfterScreening(s: State, m: nat, storeOk: bool, deleteOk: bool): State
    requires m in s.senders && s.senders[m].Screening?
  {
    var p := s.senders[m];
    if p.about.Some? && storeOk && p.about.value in s.orphaned then
      EndSender(s, m).(outbox := if deleteOk then s.outbox - {p.key} else s.outbox)
    else MoveSender(s, m, Flushing(p.key, p.payload, p.about, p.since))
  }

  /** The mirror's flush is `true` only once nothing is pending: what `BridgeTasks.Bridge.AwaitMirror` counts as
      settled is what `MirrorTask.Mirror.Flush` vouches for. */
  function AfterFlush(s: State, m: nat, flushed: bool): State
    requires m in s.senders && s.senders[m].Flushing?
    requires flushed ==> s.settled == s.changes
  {
    var p := s.senders[m];
    if !flushed then EndSender(s, m) else MoveSender(s, m, Signing(p.key, p.payload, p.about, p.since))
  }

  function LastIds(ids: seq<string>): seq<string> {
    if |ids| > MAX_DOC_IDS then ids[1..] else ids
  }

  function AfterSigning(s: State, m: nat, docId: Option<string>): State
    requires m in s.senders && s.senders[m].Signing?
  {
    var p := s.senders[m];
    if docId.None? then EndSender(s, m)
    else
      MoveSender(s, m, Sending(p.key, p.payload, p.about, p.since, docId.value))
        .(outbox := if p.key in s.outbox
                    then s.outbox[p.key := s.outbox[p.key].(docIds := LastIds(s.outbox[p.key].docIds + [docId.value]),
                                                             attempts := s.outbox[p.key].attempts + 1)]
                    else s.outbox,
          past := s.past.(docIds := s.past.docIds + {docId.value}))
  }

  function AfterSending(s: State, m: nat): State
    requires m in s.senders && s.senders[m].Sending?
  {
    EndSender(s, m).(past := s.past.(sent := s.past.sent + {(s.senders[m].key, s.senders[m].payload)}))
  }

  /** An event is announced, unless its namespace is known to be orphaned. */
  function AfterEvent(s: State, text: string, namespace: string, payload: string, storeOk: bool): State {
    if storeOk && namespace in s.orphaned then s
    else s.(senders := s.senders[s.next := Announcing(EventKey(text), payload, Some(namespace))], next := s.next + 1)
  }

  /** A namespace is bound, for the first time or again. */
  function AfterBinding(s: State, namespace: string): State {
    s.(bound := s.bound + {namespace}, orphaned := s.orphaned - {namespace})
  }

  // ---- What the VTC answers ----

  function AfterResultAck(s: State, id: string, storeOk: bool): State {
    if !storeOk || ResultOf(id) !in s.outbox then s
    else s.(outbox := s.outbox - {ResultOf(id)}, past := s.past.(cleared := s.past.cleared + {id}))
  }

  /** The entry a document with this id was sent for. */
  predicate Threads(outbox: map<OutKey, OutboxEntry>, key: OutKey, thread: string) {
    key in outbox && thread in outbox[key].docIds
  }

  function AfterClearing(s: State, key: OutKey, deleteOk: bool): State {
    if !deleteOk then s
    else s.(outbox := s.outbox - {key},
            past := s.past.(cleared := s.past.cleared + (if key.ResultOf? then {key.id} else {})))
  }

  function EventsOf(outbox: map<OutKey, OutboxEntry>, namespace: string): set<OutKey> {
    set key | key in outbox && outbox[key].namespace == Some(namespace)
  }

  /** What the store does not manage in the course of a refusal: to list the outbox, to delete the entry refused,
      to orphan its namespace, or to drop the events in `kept` (all of them, if it cannot list them). */
  datatype Faults = Faults(listOk: bool, deleteOk: bool, orphanOk: bool, kept: set<OutKey>)

  function AfterOrphaning(s: State, namespace: string, storeOk: bool, kept: set<OutKey>): State {
    if !storeOk || namespace !in s.bound then s
    else s.(bound := s.bound - {namespace}, orphaned := s.orphaned + {namespace},
            outbox := s.outbox - (EventsOf(s.outbox, namespace) - kept))
  }

  datatype ErrorCode = UnknownJob | UnknownNamespace | OtherCode

  /** `key`: the entry the refusal threads to, if it threads to one. */
  function AfterRefusal(s: State, code: ErrorCode, key: Option<OutKey>, faults: Faults): State
    requires key.Some? ==> key.value in s.outbox
  {
    if code.OtherCode? || key.None? then s
    else
      var s' := AfterClearing(s, key.value, faults.deleteOk);
      if code.UnknownNamespace? && s.outbox[key.value].namespace.Some?
      then AfterOrphaning(s', s.outbox[key.value].namespace.value, faults.orphanOk, faults.kept) else s'
  }

  // ---- Time, upkeep and restarts ----

  function AfterChange(s: State): State {
    s.(changes := s.changes + 1)
  }

  function AfterWriteBack(s: State, n: nat): State {
    s.(settled := if s.settled < n <= s.changes then n else s.settled)
  }

  predicate Prunable(jobs: map<string, JobRecord>, outbox: map<OutKey, OutboxEntry>, id: string, now: int) {
    && id in jobs && jobs[id].state.Finished? && ResultOf(id) !in outbox
    && jobs[id].finishedAt.Some? && now - jobs[id].finishedAt.value > JOB_RETENTION
  }

  function AfterPruning(s: State, id: string, now: int): State {
    if !Prunable(s.jobs, s.outbox, id, now) then s
    else s.(jobs := s.jobs - {id}, past := s.past.(pruned := s.past.pruned + multiset{id},
                                                     prunedHere := s.past.prunedHere + multiset{id}))
  }

  function OpenJobs(jobs: map<string, JobRecord>): set<string> {
    set id | id in jobs && !jobs[id].state.Finished?
  }

  /** One run task for each open job. */
  predicate Resumes(s: State, tasks: map<nat, Task>) {
    && (forall t :: t in tasks ==> t < s.next + |tasks| && tasks[t].Starting? && tasks[t].id in OpenJobs(s.jobs))
    && (forall t, u :: t in tasks && u in tasks && tasks[t].id == tasks[u].id ==> t == u)
    && (forall id :: id in OpenJobs(s.jobs) ==> exists t :: t in tasks && tasks[t].id == id)
  }

  /** A crash, and the start of the next process: only the tables are left. */
  function AfterRestart(s: State, tasks: map<nat, Task>): State {
    s.(handlers := map[], tasks := tasks, senders := map[], next := s.next + |tasks|,
       past := s.past.(spawned := multiset(OpenJobs(s.jobs)), prunedHere := multiset{}, faulted := false))
  }

  // ---- Runs ----

  datatype HandlerMove = LookUp(storeOk: bool) | Admit(reviveOk: bool, admitted: bool, storeOk: bool) | Accept | Spawn
                       | AnswerRepeat | PutBack(storeOk: bool)

  datatype TaskMove = Start(storeOk: bool) | TakeTurn(storeOk: bool) | Work(report: string) | Finish(now: int,
                            storeOk: bool)

  datatype SenderMove = Post(storeOk: bool) | Pick(storeOk: bool) | Screen(storeOk: bool, deleteOk: bool)
                      | Flush(flushed: bool) | Sign(docId: Option<string>) | Send

  datatype Answer =
    | AckResult(id: string, storeOk: bool)
    | AckEvent(key: OutKey, thread: string, storeOk: bool)
    | RefuseDocument(code: ErrorCode, entry: Option<OutKey>, thread: string, faults: Faults)

  datatype Action =
    | Deliver(job: Job)
    | Handle(n: nat, handling: HandlerMove)
    | Perform(t: nat, running: TaskMove)
    | Transmit(m: nat, sending: SenderMove)
    | Resend(key: OutKey)
    | QueueEvent(text: string, namespace: string, payload: string, storeOk: bool)
    | Bind(namespace: string)
    | Hear(answer: Answer)
    | ChangeMirrored
    | WriteBack(upTo: nat)
    | Prune(id: string, now: int)
    | Restart(resumed: map<nat, Task>)

  predicate CanHandle(s: State, n: nat, move: HandlerMove) {
    n in s.handlers
    && match move
       case LookUp(_) => s.handlers[n].Received?
       case Admit(_, _, _) => s.handlers[n].Unknown?
       case Accept => s.handlers[n].Recorded?
       case Spawn => s.handlers[n].ToSpawn?
       case AnswerRepeat => s.handlers[n].Repeated?
       case PutBack(_) => s.handlers[n].PuttingBack?
  }

  function AfterHandling(s: State, n: nat, move: HandlerMove): State
    requires CanHandle(s, n, move)
  {
    match move
    case LookUp(storeOk) => AfterLookUp(s, n, storeOk)
    case Admit(reviveOk, admitted, storeOk) => AfterAdmission(s, n, reviveOk, admitted, storeOk)
    case Accept => AfterAccepting(s, n)
    case Spawn => AfterSpawning(s, n)
    case AnswerRepeat => AfterRepeatAnswer(s, n)
    case PutBack(storeOk) => AfterPuttingBack(s, n, storeOk)
  }

  predicate CanPerform(s: State, t: nat, move: TaskMove) {
    t in s.tasks
    && match move
       case Start(_) => s.tasks[t].Starting?
       case TakeTurn(_) => s.tasks[t].Queueing?
       case Work(_) => s.tasks[t].Working?
       case Finish(_, _) => s.tasks[t].Reporting?
  }

  function AfterPerforming(s: State, t: nat, move: TaskMove): State
    requires CanPerform(s, t, move)
  {
    match move
    case Start(storeOk) => AfterStarting(s, t, storeOk)
    case TakeTurn(storeOk) => AfterTurn(s, t, storeOk)
    case Work(report) => AfterWork(s, t, report)
    case Finish(now, storeOk) => AfterFinishing(s, t, now, storeOk)
  }

  /** A signed document's id is new; a flush that succeeds found every change settled. */
  predicate CanTransmit(s: State, m: nat, move: SenderMove) {
    m in s.senders
    && match move
       case Post(_) => s.senders[m].Announcing?
       case Pick(_) => s.senders[m].Picking?
       case Screen(_, _) => s.senders[m].Screening?
       case Flush(flushed) => s.senders[m].Flushing? && (flushed ==> s.settled == s.changes)
       case Sign(docId) => s.senders[m].Signing? && (docId.Some? ==> docId.value !in s.past.docIds)
       case Send => s.senders[m].Sending?
  }

  function AfterTransmitting(s: State, m: nat, move: SenderMove): State
    requires CanTransmit(s, m, move)
  {
    match move
    case Post(storeOk) => AfterPosting(s, m, storeOk)
    case Pick(storeOk) => AfterPicking(s, m, storeOk)
    case Screen(storeOk, deleteOk) => AfterScreening(s, m, storeOk, deleteOk)
    case Flush(flushed) => AfterFlush(s, m, flushed)
    case Sign(docId) => AfterSigning(s, m, docId)
    case Send => AfterSending(s, m)
  }

  /** An answer about a document threads to the entry it was sent for; a refusal may thread to none, or to one that
      cannot be found because the outbox cannot be listed. */
  predicate CanHear(s: State, answer: Answer) {
    match answer
    case AckResult(_, _) => true
    case AckEvent(key, thread, _) => Threads(s.outbox, key, thread)
    case RefuseDocument(_, entry, thread, faults) =>
      if entry.Some? then faults.listOk && Threads(s.outbox, entry.value, thread)
      else faults.listOk ==> forall key :: key in s.outbox ==> !Threads(s.outbox, key, thread)
  }

  function AfterHearing(s: State, answer: Answer): State
    requires CanHear(s, answer)
  {
    match answer
    case AckResult(id, storeOk) => AfterResultAck(s, id, storeOk)
    case AckEvent(key, _, storeOk) => AfterClearing(s, key, storeOk)
    case RefuseDocument(code, entry, _, faults) => AfterRefusal(s, code, entry, faults)
  }

  /** Whether the action can happen now. */
  predicate Enabled(s: State, a: Action) {
    match a
    case Handle(n, move) => CanHandle(s, n, move)
    case Perform(t, move) => CanPerform(s, t, move)
    case Transmit(m, move) => CanTransmit(s, m, move)
    case Hear(answer) => CanHear(s, answer)
    case Restart(resumed) => Resumes(s, resumed)
    case _ => true
  }

  function Step(s: State, a: Action): State
    requires Enabled(s, a)
  {
    match a
    case Deliver(job) => AfterDelivery(s, job)
    case Handle(n, move) => AfterHandling(s, n, move)
    case Perform(t, move) => AfterPerforming(s, t, move)
    case Transmit(m, move) => AfterTransmitting(s, m, move)
    case Resend(key) => BeginSend(s, key)
    case QueueEvent(text, namespace, payload, storeOk) => AfterEvent(s, text, namespace, payload, storeOk)
    case Bind(namespace) => AfterBinding(s, namespace)
    case Hear(answer) => AfterHearing(s, answer)
    case ChangeMirrored => AfterChange(s)
    case WriteBack(n) => AfterWriteBack(s, n)
    case Prune(id, now) => AfterPruning(s, id, now)
    case Restart(resumed) => AfterRestart(s, resumed)
  }

  // ---- What holds at every moment ----

  predicate WellFormed(r: JobRecord) {
    && r.state.Finished? == r.report.Some?
    && (r.state.Finished? ==> r.finishedAt.Some?)
    && r.payload == if r.state.Finished? then None else Some(r.digest)
  }

  /** Results: one a job while it is in the ledger, kept as it was recorded. */
  ghost predicate ResultsSound(jobs: map<string, JobRecord>, recorded: set<(string, string)>,
                               pruned: multiset<string>) {
    && (forall id :: id in jobs ==> WellFormed(jobs[id]))
    && (forall id :: id in jobs && jobs[id].report.Some? ==> (id, jobs[id].report.value) in recorded)
    && (forall id, r :: (id, r) in recorded && pruned[id] == 0 ==> id in jobs && jobs[id].report == Some(r))
  }

  /** Nothing but a recorded result is queued or sent for a job. */
  ghost predicate OutboxSound(outbox: map<OutKey, OutboxEntry>, recorded: set<(string, string)>) {
    forall key :: key in outbox && key.ResultOf? ==>
      outbox[key].namespace.None? && (key.id, outbox[key].payload) in recorded
  }

  ghost predicate SentSound(sent: set<(OutKey, string)>, recorded: set<(string, string)>) {
    forall key, r :: (key, r) in sent && key.ResultOf? ==> (key.id, r) in recorded
  }

  predicate SenderSound(p: Sender, recorded: set<(string, string)>, changes: nat, settled: nat) {
    && (p.Announcing? ==> p.key.EventKey?)
    && (!p.Picking? && p.key.ResultOf? ==> p.about.None? && (p.key.id, p.payload) in recorded)
    && (p.Screening? || p.Flushing? ==> p.since <= changes)
    && (p.Signing? || p.Sending? ==> p.since <= settled)
  }

  /** A document about to be sent is a recorded result, or an event, and waited for every mirrored change made
      before its sending began. */
  ghost predicate SendersSound(senders: map<nat, Sender>, recorded: set<(string, string)>, changes: nat, settled: nat) {
    settled <= changes && forall m :: m in senders ==> SenderSound(senders[m], recorded, changes, settled)
  }

  /** A finished job's result waits to be taken, or was acknowledged or refused since it was last put out. */
  ghost predicate ResultsKept(jobs: map<string, JobRecord>, outbox: map<OutKey, OutboxEntry>, cleared: set<string>) {
    forall id :: id in jobs && jobs[id].state.Finished? ==> ResultOf(id) in outbox || id in cleared
  }

  predicate SpawnerOf(handlers: map<nat, Handler>, n: nat) {
    n in handlers && handlers[n].Spawns()
  }

  predicate HandlerSound(h: Handler, jobs: map<string, JobRecord>, recorded: set<(string, string)>,
                         pruned: multiset<string>) {
    && (h.Repeated? ==> h.id in jobs || pruned[h.id] > 0)
    && (h.HasReport() ==> (h.id, h.report.value) in recorded)
    && (h.Spawns() ==> h.id in OpenJobs(jobs))
  }

  /** Nothing handled is about a job that is not in the ledger, save one finished, taken and pruned. */
  ghost predicate HandlersSound(handlers: map<nat, Handler>, jobs: map<string, JobRecord>, recorded: set<(string,
                                string)>,
                                pruned: multiset<string>) {
    forall n :: n in handlers ==> HandlerSound(handlers[n], jobs, recorded, pruned)
  }

  /** So with every job the VTC was told is accepted. */
  ghost predicate AnswersSound(replies: set<Reply>, jobs: map<string, JobRecord>, pruned: multiset<string>) {
    forall id :: Accepted(id) in replies ==> id in jobs || pruned[id] > 0
  }

  predicate TaskSound(task: Task, jobs: map<string, JobRecord>) {
    task.id in OpenJobs(jobs) && (task.HasPayload() ==> task.payload == jobs[task.id].digest)
  }

  /** Run tasks are of open jobs, and of the payload recorded. */
  ghost predicate TasksSound(tasks: map<nat, Task>, jobs: map<string, JobRecord>) {
    forall t :: t in tasks ==> TaskSound(tasks[t], jobs)
  }

  /** What ran in a job's present stay in the ledger is its content there. */
  ghost predicate RanSound(runs: map<(string, nat), string>, jobs: map<string, JobRecord>, pruned: multiset<string>) {
    forall id, g :: (id, g) in runs ==>
      g <= pruned[id] && (g == pruned[id] ==> id in jobs && jobs[id].digest == runs[(id, g)])
  }

  /** The results recorded are those of the jobs' stays in the ledger, the present one's being in the ledger. */
  ghost predicate StaysSound(results: map<(string, nat), string>, jobs: map<string, JobRecord>,
                             recorded: set<(string, string)>, pruned: multiset<string>) {
    && (forall id, g :: (id, g) in results ==>
          g <= pruned[id] && (g == pruned[id] ==> id in jobs && jobs[id].report == Some(results[(id, g)])))
    && (forall id :: id in jobs && jobs[id].report.Some? ==> (id, pruned[id]) in results)
    && (forall id, r :: (id, r) in recorded ==> OfAStay(results, id, r))
  }

  ghost predicate OfAStay(results: map<(string, nat), string>, id: string, r: string) {
    exists g: nat :: (id, g) in results && results[(id, g)] == r
  }

  /** At most one handler or task carries a job to its end. */
  ghost predicate OneRunner(handlers: map<nat, Handler>, tasks: map<nat, Task>) {
    && (forall t, u :: t in tasks && u in tasks && tasks[t].id == tasks[u].id ==> t == u)
    && (forall n, m :: SpawnerOf(handlers, n) && SpawnerOf(handlers, m) && handlers[n].id == handlers[m].id ==> n == m)
    && (forall n, t :: SpawnerOf(handlers, n) && t in tasks ==> handlers[n].id != tasks[t].id)
  }

  function ToBeSpawned(handlers: map<nat, Handler>): set<string> {
    set n | n in handlers && handlers[n].Spawns() :: handlers[n].id
  }

  function Underway(tasks: map<nat, Task>): set<string> {
    set t | t in tasks :: tasks[t].id
  }

  /** An open job has a runner in this process, unless the store failed to take its result. */
  ghost predicate NoneForgotten(handlers: map<nat, Handler>, tasks: map<nat, Task>, jobs: map<string, JobRecord>,
                                faulted: bool) {
    !faulted ==> OpenJobs(jobs) <= ToBeSpawned(handlers) + Underway(tasks)
  }

  /** In one process a job is spawned once for each time it is in the ledger there. */
  ghost predicate SpawnedOnce(handlers: map<nat, Handler>, jobs: map<string, JobRecord>, spawned: multiset<string>,
                              prunedHere: multiset<string>) {
    forall id :: spawned[id] <= prunedHere[id] + (if id in jobs && id !in ToBeSpawned(handlers) then 1 else 0)
  }

  ghost predicate DocIdsSound(outbox: map<OutKey, OutboxEntry>, docIds: set<string>) {
    && (forall key :: key in outbox ==> |outbox[key].docIds| <= MAX_DOC_IDS)
    && (forall key, d :: Threads(outbox, key, d) ==> d in docIds)
    && (forall key, key', d :: Threads(outbox, key, d) && Threads(outbox, key', d) ==> key == key')
  }

  predicate Numbered(handlers: map<nat, Handler>, tasks: map<nat, Task>, senders: map<nat, Sender>, next: nat) {
    && (forall n :: n in handlers ==> n < next)
    && (forall t :: t in tasks ==> t < next)
    && (forall m :: m in senders ==> m < next)
  }

  ghost predicate Valid(s: State) {
    && ResultsSound(s.jobs, s.past.recorded, s.past.pruned)
    && OutboxSound(s.outbox, s.past.recorded)
    && SentSound(s.past.sent, s.past.recorded)
    && SendersSound(s.senders, s.past.recorded, s.changes, s.settled)
    && ResultsKept(s.jobs, s.outbox, s.past.cleared)
    && HandlersSound(s.handlers, s.jobs, s.past.recorded, s.past.pruned)
    && AnswersSound(s.past.replies, s.jobs, s.past.pruned)
    && TasksSound(s.tasks, s.jobs)
    && RanSound(s.past.runs, s.jobs, s.past.pruned)
    && StaysSound(s.past.results, s.jobs, s.past.recorded, s.past.pruned)
    && OneRunner(s.handlers, s.tasks)
    && NoneForgotten(s.handlers, s.tasks, s.jobs, s.past.faulted)
    && SpawnedOnce(s.handlers, s.jobs, s.past.spawned, s.past.prunedHere)
    && DocIdsSound(s.outbox, s.past.docIds)
    && Numbered(s.handlers, s.tasks, s.senders, s.next)
  }

  // ---- Every action keeps it ----

  ghost predicate SameSpawners(a: map<nat, Handler>, b: map<nat, Handler>) {
    forall n :: SpawnerOf(a, n) == SpawnerOf(b, n) && (SpawnerOf(a, n) ==> a[n].id == b[n].id)
  }

  lemma SpawnersUnmoved(s: State, handlers: map<nat, Handler>)
    requires Valid(s) && SameSpawners(s.handlers, handlers)
    ensures OneRunner(handlers, s.tasks) && NoneForgotten(handlers, s.tasks, s.jobs, s.past.faulted)
    ensures SpawnedOnce(handlers, s.jobs, s.past.spawned, s.past.prunedHere)
  {
    hide ResultsSound, OutboxSound, SentSound, SendersSound, ResultsKept, HandlersSound, AnswersSound, TasksSound,
         RanSound, DocIdsSound, Numbered, StaysSound;
    var was, now := ToBeSpawned(s.handlers), ToBeSpawned(handlers);
    forall id ensures id in was <==> id in now {
      if id in was {
        var n :| n in s.handlers && s.handlers[n].Spawns() && s.handlers[n].id == id;
        assert SpawnerOf(s.handlers, n) && SpawnerOf(handlers, n);
      }
      if id in now {
        var n :| n in handlers && handlers[n].Spawns() && handlers[n].id == id;
        assert SpawnerOf(s.handlers, n) && SpawnerOf(handlers, n);
      }
    }
    assert was == now;
  }

  ghost predicate SameTasks(a: map<nat, Task>, b: map<nat, Task>) {
    a.Keys == b.Keys && forall t :: t in a ==> a[t].id == b[t].id
  }

  lemma TasksUnmoved(s: State, tasks: map<nat, Task>)
    requires Valid(s) && SameTasks(s.tasks, tasks)
    ensures OneRunner(s.handlers, tasks) && NoneForgotten(s.handlers, tasks, s.jobs, s.past.faulted)
  {
    hide ResultsSound, OutboxSound, SentSound, SendersSound, ResultsKept, HandlersSound, AnswersSound, TasksSound,
         RanSound, SpawnedOnce, DocIdsSound, Numbered, StaysSound;
    assert Underway(s.tasks) == Underway(tasks);
  }

  lemma DeliverStays(s: State, job: Job)
    requires Valid(s)
    ensures Valid(AfterDelivery(s, job))
  {
    hide ResultsSound, OutboxSound, SentSound, SendersSound, ResultsKept, AnswersSound, TasksSound, RanSound,
         OneRunner, NoneForgotten, SpawnedOnce, DocIdsSound, StaysSound;
    SpawnersUnmoved(s, AfterDelivery(s, job).handlers) by { assert Numbered(s.handlers, s.tasks, s.senders, s.next); }
  }

  /** A handler that spawns nothing ends, having answered. */
  lemma CloseStays(s: State, n: nat, reply: Option<Reply>)
    requires Valid(s) && n in s.handlers && !s.handlers[n].Spawns()
    requires reply.Some? && reply.value.Accepted? ==> reply.value.id in s.jobs || s.past.pruned[reply.value.id] > 0
    ensures Valid(Close(s, n, reply))
  {
    hide ResultsSound, OutboxSound, SentSound, SendersSound, ResultsKept, TasksSound, RanSound, OneRunner,
         NoneForgotten, SpawnedOnce, DocIdsSound, StaysSound;
    var s' := Close(s, n, reply);
    SpawnersUnmoved(s, s'.handlers);
    assert s'.past.recorded == s.past.recorded && s'.past.pruned == s.past.pruned;
  }

  /** A handler that spawns nothing goes on to a point where it still spawns nothing. */
  lemma MoveStays(s: State, n: nat, h: Handler)
    requires Valid(s) && n in s.handlers && !s.handlers[n].Spawns() && !h.Spawns()
    requires HandlerSound(h, s.jobs, s.past.recorded, s.past.pruned)
    ensures Valid(Move(s, n, h))
  {
    hide ResultsSound, OutboxSound, SentSound, SendersSound, ResultsKept, TasksSound, RanSound, OneRunner,
         NoneForgotten, SpawnedOnce, DocIdsSound, StaysSound;
    SpawnersUnmoved(s, Move(s, n, h).handlers);
  }

  lemma LookUpStays(s: State, n: nat, storeOk: bool)
    requires Valid(s) && n in s.handlers && s.handlers[n].Received?
    ensures Valid(AfterLookUp(s, n, storeOk))
  {
    hide OutboxSound, SentSound, SendersSound, ResultsKept, HandlersSound, AnswersSound, TasksSound, RanSound,
         OneRunner, NoneForgotten, SpawnedOnce, DocIdsSound, Numbered, StaysSound;
    var job := s.handlers[n].job;
    if !storeOk {
      CloseStays(s, n, Some(Refused(job.id, Unavailable)));
    } else if job.id !in s.jobs {
      MoveStays(s, n, Unknown(job));
    } else if s.jobs[job.id].digest != job.body {
      CloseStays(s, n, Some(Refused(job.id, JobIdReused)));
    } else {
      MoveStays(s, n, Repeated(job.id, s.jobs[job.id].state.Finished?, s.jobs[job.id].report));
    }
  }

  lemma AcceptStays(s: State, n: nat)
    requires Valid(s) && n in s.handlers && s.handlers[n].Recorded?
    ensures Valid(AfterAccepting(s, n))
  {
    hide ResultsSound, OutboxSound, SentSound, SendersSound, ResultsKept, TasksSound, RanSound, OneRunner,
         NoneForgotten, SpawnedOnce, DocIdsSound, StaysSound;
    assert HandlerSound(s.handlers[n], s.jobs, s.past.recorded, s.past.pruned);
    SpawnersUnmoved(s, AfterAccepting(s, n).handlers);
  }

  lemma AnswerRepeatStays(s: State, n: nat)
    requires Valid(s) && n in s.handlers && s.handlers[n].Repeated?
    ensures Valid(AfterRepeatAnswer(s, n))
  {
    hide ResultsSound, OutboxSound, SentSound, SendersSound, ResultsKept, TasksSound, RanSound, OneRunner,
         NoneForgotten, SpawnedOnce, DocIdsSound, Numbered, StaysSound;
    var h := s.handlers[n];
    assert HandlerSound(h, s.jobs, s.past.recorded, s.past.pruned);
    if !h.finished {
      CloseStays(s, n, Some(Accepted(h.id)));
    } else {
      MoveStays(s, n, PuttingBack(h.id, h.report));
    }
  }

  lemma BeginSendStays(s: State, key: OutKey)
    requires Valid(s)
    ensures Valid(BeginSend(s, key))
  {
    hide ResultsSound, OutboxSound, SentSound, ResultsKept, HandlersSound, AnswersSound, TasksSound, RanSound,
         OneRunner, NoneForgotten, SpawnedOnce, DocIdsSound, StaysSound;
  }

  /** A result that is recorded is put out anew. */
  lemma PutOutStays(s: State, id: string, report: string)
    requires Valid(s) && (id, report) in s.past.recorded && ResultOf(id) !in s.outbox
    ensures Valid(s.(outbox := s.outbox[ResultOf(id) := NewEntry(None, report)],
                     past := s.past.(cleared := s.past.cleared - {id})))
  {
    hide ResultsSound, SentSound, SendersSound, HandlersSound, AnswersSound, TasksSound, RanSound, OneRunner,
         NoneForgotten, SpawnedOnce, Numbered, StaysSound;
    EntryAdded(s.outbox, ResultOf(id), NewEntry(None, report), s.past.docIds);
  }

  lemma EntryAdded(outbox: map<OutKey, OutboxEntry>, key: OutKey, e: OutboxEntry, docIds: set<string>)
    requires DocIdsSound(outbox, docIds) && e.docIds == []
    ensures DocIdsSound(outbox[key := e], docIds)
  {
    var now := outbox[key := e];
    assert forall k, d :: Threads(now, k, d) ==> Threads(outbox, k, d);
  }

  lemma PutBackStays(s: State, n: nat, storeOk: bool)
    requires Valid(s) && n in s.handlers && s.handlers[n].PuttingBack?
    ensures Valid(AfterPuttingBack(s, n, storeOk))
  {
    hide ResultsSound, OutboxSound, SentSound, SendersSound, ResultsKept, AnswersSound, TasksSound, RanSound,
         OneRunner, NoneForgotten, SpawnedOnce, DocIdsSound, Numbered, StaysSound;
    var h := s.handlers[n];
    assert HandlerSound(h, s.jobs, s.past.recorded, s.past.pruned);
    CloseStays(s, n, None);
    var closed := s.(handlers := s.handlers - {n});
    assert closed == Close(s, n, None);
    BeginSendStays(closed, ResultOf(h.id));
    if storeOk && h.report.Some? && ResultOf(h.id) !in s.outbox {
      PutOutStays(BeginSend(closed, ResultOf(h.id)), h.id, h.report.value);
    }
  }

  lemma SpawnerAdded(handlers: map<nat, Handler>, n: nat, h: Handler)
    requires !SpawnerOf(handlers, n) && h.Spawns()
    ensures ToBeSpawned(handlers[n := h]) == ToBeSpawned(handlers) + {h.id}
  {
    var now := handlers[n := h];
    assert now[n] == h;
    forall id | id in ToBeSpawned(handlers) ensures id in ToBeSpawned(now) {
      var m :| m in handlers && handlers[m].Spawns() && handlers[m].id == id;
      assert m != n && now[m] == handlers[m];
    }
  }

  lemma SpawnerRemoved(handlers: map<nat, Handler>, tasks: map<nat, Task>, n: nat)
    requires SpawnerOf(handlers, n) && OneRunner(handlers, tasks)
    ensures ToBeSpawned(handlers - {n}) == ToBeSpawned(handlers) - {handlers[n].id}
  {
    var now := handlers - {n};
    forall id | id in ToBeSpawned(handlers) && id != handlers[n].id ensures id in ToBeSpawned(now) {
      var m :| m in handlers && handlers[m].Spawns() && handlers[m].id == id;
      assert m in now;
    }
    forall id | id in ToBeSpawned(now) ensures id != handlers[n].id {
      var m :| m in now && now[m].Spawns() && now[m].id == id;
      assert SpawnerOf(handlers, m) && m != n;
    }
  }

  lemma TaskRemoved(handlers: map<nat, Handler>, tasks: map<nat, Task>, t: nat)
    requires t in tasks && OneRunner(handlers, tasks)
    ensures Underway(tasks - {t}) == Underway(tasks) - {tasks[t].id}
    ensures OneRunner(handlers, tasks - {t})
  {
    var now := tasks - {t};
    forall id | id in Underway(tasks) && id != tasks[t].id ensures id in Underway(now) {
      var u :| u in tasks && tasks[u].id == id;
      assert u in now;
    }
  }

  lemma RecordedCounts(s: State, n: nat, job: Job)
    requires Valid(s) && n in s.handlers && !s.handlers[n].Spawns() && job.id !in s.jobs
    ensures var handlers, jobs := s.handlers[n := Recorded(job.id)], s.jobs[job.id := QueuedJob(job)];
      && NoneForgotten(handlers, s.tasks, jobs, s.past.faulted)
      && SpawnedOnce(handlers, jobs, s.past.spawned, s.past.prunedHere)
  {
    hide ResultsSound, OutboxSound, SentSound, SendersSound, ResultsKept, HandlersSound, AnswersSound, TasksSound,
         RanSound, OneRunner, DocIdsSound, Numbered, StaysSound;
    hide ToBeSpawned, Underway;
    var jobs := s.jobs[job.id := QueuedJob(job)];
    SpawnerAdded(s.handlers, n, Recorded(job.id));
    assert OpenJobs(jobs) == OpenJobs(s.jobs) + {job.id};
  }

  /** A new job is recorded, and will be spawned by the handler that recorded it. */
  lemma RecordStays(s: State, n: nat, job: Job)
    requires Valid(s) && n in s.handlers && !s.handlers[n].Spawns() && job.id !in s.jobs
    ensures Valid(Move(s, n, Recorded(job.id)).(jobs := s.jobs[job.id := QueuedJob(job)]))
  {
    hide OutboxSound, SentSound, SendersSound, HandlersSound, TasksSound, OneRunner, NoneForgotten, SpawnedOnce,
         DocIdsSound;
    RecordedCounts(s, n, job);
    RecordedApart(s, n, job);
  }

  lemma RecordedApart(s: State, n: nat, job: Job)
    requires Valid(s) && n in s.handlers && !s.handlers[n].Spawns() && job.id !in s.jobs
    ensures var handlers, jobs := s.handlers[n := Recorded(job.id)], s.jobs[job.id := QueuedJob(job)];
      && TasksSound(s.tasks, jobs) && HandlersSound(handlers, jobs, s.past.recorded, s.past.pruned)
      && OneRunner(handlers, s.tasks)
  {
    hide ResultsSound, OutboxSound, SentSound, SendersSound, ResultsKept, AnswersSound, RanSound, NoneForgotten,
         SpawnedOnce, DocIdsSound, Numbered, StaysSound;
    var handlers, jobs := s.handlers[n := Recorded(job.id)], s.jobs[job.id := QueuedJob(job)];
    forall t | t in s.tasks ensures TaskSound(s.tasks[t], jobs) && s.tasks[t].id != job.id {
      assert TaskSound(s.tasks[t], s.jobs);
    }
    forall m | m in handlers ensures HandlerSound(handlers[m], jobs, s.past.recorded, s.past.pruned) {
      assert m != n ==> HandlerSound(s.handlers[m], s.jobs, s.past.recorded, s.past.pruned);
    }
    forall m | m != n && SpawnerOf(handlers, m) ensures handlers[m].id != job.id && SpawnerOf(s.handlers, m) {
      assert HandlerSound(s.handlers[m], s.jobs, s.past.recorded, s.past.pruned);
    }
  }

  lemma AdmitStays(s: State, n: nat, reviveOk: bool, admitted: bool, storeOk: bool)
    requires Valid(s) && n in s.handlers && s.handlers[n].Unknown?
    ensures Valid(AfterAdmission(s, n, reviveOk, admitted, storeOk))
  {
    hide ResultsSound, OutboxSound, SentSound, SendersSound, ResultsKept, HandlersSound, AnswersSound, TasksSound,
         RanSound, OneRunner, NoneForgotten, SpawnedOnce, DocIdsSound, Numbered, StaysSound;
    var job := s.handlers[n].job;
    var s' := Revived(s, job.namespace, reviveOk);
    assert Valid(s');
    if !admitted || job.namespace in s'.orphaned {
      CloseStays(s', n, Some(Refused(job.id, NotAdmitted)));
    } else if !storeOk {
      CloseStays(s', n, Some(Refused(job.id, Unavailable)));
    } else if job.id in s.jobs {
      CloseStays(s', n, None);
    } else {
      RecordStays(s', n, job);
    }
  }

  lemma SpawnApart(s: State, n: nat)
    requires Valid(s) && n in s.handlers && s.handlers[n].ToSpawn?
    ensures var s' := AfterSpawning(s, n);
      && OneRunner(s'.handlers, s'.tasks) && TasksSound(s'.tasks, s.jobs)
      && Numbered(s'.handlers, s'.tasks, s'.senders, s'.next)
      && HandlersSound(s'.handlers, s.jobs, s.past.recorded, s.past.pruned)
  {
    hide ResultsSound, OutboxSound, SentSound, SendersSound, ResultsKept, AnswersSound, RanSound, NoneForgotten,
         SpawnedOnce, DocIdsSound, StaysSound;
    hide OpenJobs;
    assert SpawnerOf(s.handlers, n) && HandlerSound(s.handlers[n], s.jobs, s.past.recorded, s.past.pruned);
    assert TaskSound(Starting(s.handlers[n].id), s.jobs);
  }

  lemma SpawnStays(s: State, n: nat)
    requires Valid(s) && n in s.handlers && s.handlers[n].ToSpawn?
    ensures Valid(AfterSpawning(s, n))
  {
    hide ResultsSound, OutboxSound, SentSound, SendersSound, ResultsKept, HandlersSound, AnswersSound, TasksSound,
         RanSound, OneRunner, DocIdsSound, Numbered, StaysSound;
    hide ToBeSpawned, Underway;
    var s', id := AfterSpawning(s, n), s.handlers[n].id;
    SpawnApart(s, n);
    SpawnerRemoved(s.handlers, s.tasks, n);
    NextIsNew(s);
    TaskAdded(s.tasks, s.next, Starting(id));
    SpawnerIsListed(s.handlers, n);
    assert id in s.jobs by {
      assert TasksSound(s'.tasks, s.jobs) && s'.tasks[s.next] == Starting(id);
      TaskIsOpen(s'.tasks, s.jobs, s.next);
    }
  }

  lemma NextIsNew(s: State)
    requires Valid(s)
    ensures s.next !in s.handlers && s.next !in s.tasks && s.next !in s.senders
  {
  }

  lemma TaskIsOpen(tasks: map<nat, Task>, jobs: map<string, JobRecord>, t: nat)
    requires TasksSound(tasks, jobs) && t in tasks
    ensures tasks[t].id in jobs && !jobs[tasks[t].id].state.Finished?
  {
    assert TaskSound(tasks[t], jobs);
  }

  lemma SpawnerIsListed(handlers: map<nat, Handler>, n: nat)
    requires SpawnerOf(handlers, n)
    ensures handlers[n].id in ToBeSpawned(handlers)
  {
  }

  lemma TaskAdded(tasks: map<nat, Task>, t: nat, task: Task)
    requires t !in tasks
    ensures Underway(tasks[t := task]) == Underway(tasks) + {task.id}
  {
    var now := tasks[t := task];
    assert now[t] == task;
    forall id | id in Underway(tasks) ensures id in Underway(now) {
      var u :| u in tasks && tasks[u].id == id;
      assert now[u] == tasks[u];
    }
  }

  // Run tasks.

  lemma MoveTaskStays(s: State, t: nat, task: Task)
    requires Valid(s) && t in s.tasks && task.id == s.tasks[t].id && TaskSound(task, s.jobs)
    ensures Valid(MoveTask(s, t, task))
  {
    hide ResultsSound, OutboxSound, SentSound, SendersSound, ResultsKept, HandlersSound, AnswersSound, RanSound,
         OneRunner, NoneForgotten, SpawnedOnce, DocIdsSound, StaysSound;
    TasksUnmoved(s, MoveTask(s, t, task).tasks);
  }

  lemma StartStays(s: State, t: nat, storeOk: bool)
    requires Valid(s) && t in s.tasks && s.tasks[t].Starting?
    ensures Valid(AfterStarting(s, t, storeOk))
  {
    hide OutboxSound, SentSound, SendersSound, ResultsKept, HandlersSound, AnswersSound, RanSound, OneRunner,
         NoneForgotten, SpawnedOnce, DocIdsSound, Numbered, StaysSound;
    var id := s.tasks[t].id;
    assert TaskSound(s.tasks[t], s.jobs) && WellFormed(s.jobs[id]);
    MoveTaskStays(s, t, if storeOk then Queueing(id, s.jobs[id].digest) else Reporting(id, FAILED));
  }

  lemma WorkStays(s: State, t: nat, report: string)
    requires Valid(s) && t in s.tasks && s.tasks[t].Working?
    ensures Valid(AfterWork(s, t, report))
  {
    hide ResultsSound, OutboxSound, SentSound, SendersSound, ResultsKept, HandlersSound, AnswersSound, RanSound,
         OneRunner, NoneForgotten, SpawnedOnce, DocIdsSound, Numbered, StaysSound;
    assert TaskSound(s.tasks[t], s.jobs);
    MoveTaskStays(s, t, Reporting(s.tasks[t].id, report));
  }

  lemma RunningUnmoved(s: State, id: string, jobs: map<string, JobRecord>)
    requires Valid(s) && id in s.jobs && !s.jobs[id].state.Finished?
    requires jobs == s.jobs[id := s.jobs[id].(state := Running)]
    ensures OpenJobs(jobs) == OpenJobs(s.jobs)
    ensures TasksSound(s.tasks, jobs) && HandlersSound(s.handlers, jobs, s.past.recorded, s.past.pruned)
  {
    hide ResultsSound, OutboxSound, SentSound, SendersSound, ResultsKept, AnswersSound, RanSound, OneRunner,
         NoneForgotten, SpawnedOnce, DocIdsSound, Numbered, StaysSound;
    assert OpenJobs(jobs) == OpenJobs(s.jobs);
    hide OpenJobs;
    forall t | t in s.tasks ensures TaskSound(s.tasks[t], jobs) {
      TaskIsOpen(s.tasks, s.jobs, t);
    }
    forall n | n in s.handlers ensures HandlerSound(s.handlers[n], jobs, s.past.recorded, s.past.pruned) {
      assert HandlerSound(s.handlers[n], s.jobs, s.past.recorded, s.past.pruned);
    }
  }

  /** A job that is open goes to `Running`, and its payload to the forge. */
  lemma RunningStays(s: State, id: string)
    requires Valid(s) && id in s.jobs && !s.jobs[id].state.Finished?
    ensures Valid(s.(jobs := s.jobs[id := s.jobs[id].(state := Running)],
                     past := s.past.(runs := s.past.runs[(id, s.past.pruned[id]) := s.jobs[id].digest])))
  {
    hide OutboxSound, SentSound, SendersSound, HandlersSound, TasksSound, OneRunner, DocIdsSound, Numbered;
    hide ToBeSpawned, Underway;
    var jobs := s.jobs[id := s.jobs[id].(state := Running)];
    RunningUnmoved(s, id, jobs);
    hide OpenJobs;
    assert WellFormed(s.jobs[id]);
  }

  lemma TakeTurnStays(s: State, t: nat, storeOk: bool)
    requires Valid(s) && t in s.tasks && s.tasks[t].Queueing?
    ensures Valid(AfterTurn(s, t, storeOk))
  {
    hide ResultsSound, OutboxSound, SentSound, SendersSound, ResultsKept, HandlersSound, AnswersSound, RanSound,
         OneRunner, NoneForgotten, SpawnedOnce, DocIdsSound, Numbered, StaysSound;
    var id, payload := s.tasks[t].id, s.tasks[t].payload;
    assert TaskSound(s.tasks[t], s.jobs);
    if storeOk {
      RunningStays(s, id);
      var running := s.(jobs := s.jobs[id := s.jobs[id].(state := Running)],
                        past := s.past.(runs := s.past.runs[(id, s.past.pruned[id]) := payload]));
      assert TaskSound(Working(id, payload), running.jobs);
      MoveTaskStays(running, t, Working(id, payload));
    } else {
      MoveTaskStays(s, t, Reporting(id, FAILED));
    }
  }

  /** The jobs once `id` is finished with `report`. */
  function FinishedAs(jobs: map<string, JobRecord>, id: string, report: string, now: int): map<string, JobRecord>
    requires id in jobs
  {
    jobs[id := jobs[id].(state := Finished, report := Some(report), payload := None, finishedAt := Some(now))]
  }

  lemma FinishUnmoved(s: State, t: nat, report: string, now: int)
    requires Valid(s) && t in s.tasks && s.tasks[t].id in s.jobs
    ensures var jobs := FinishedAs(s.jobs, s.tasks[t].id, report, now);
      && OpenJobs(jobs) == OpenJobs(s.jobs) - {s.tasks[t].id}
      && TasksSound(s.tasks - {t}, jobs)
      && HandlersSound(s.handlers, jobs, s.past.recorded + {(s.tasks[t].id, report)}, s.past.pruned)
  {
    hide ResultsSound, OutboxSound, SentSound, SendersSound, ResultsKept, AnswersSound, RanSound, NoneForgotten,
         SpawnedOnce, DocIdsSound, Numbered, StaysSound;
    var id := s.tasks[t].id;
    var jobs := FinishedAs(s.jobs, id, report, now);
    assert OpenJobs(jobs) == OpenJobs(s.jobs) - {id};
    hide OpenJobs;
    forall u | u in s.tasks - {t} ensures TaskSound((s.tasks - {t})[u], jobs) {
      assert TaskSound(s.tasks[u], s.jobs) && s.tasks[u].id != id;
    }
    forall n | n in s.handlers
      ensures HandlerSound(s.handlers[n], jobs, s.past.recorded + {(id, report)}, s.past.pruned)
    {
      assert HandlerSound(s.handlers[n], s.jobs, s.past.recorded, s.past.pruned);
      assert SpawnerOf(s.handlers, n) ==> s.handlers[n].id != id;
    }
  }

  /** The notes kept of jobs' stays go with the result recorded. */
  lemma FinishNoted(s: State, t: nat, report: string, now: int)
    requires Valid(s) && t in s.tasks && s.tasks[t].id in s.jobs && !s.jobs[s.tasks[t].id].state.Finished?
    ensures var id, pruned := s.tasks[t].id, s.past.pruned;
      var jobs, recorded := FinishedAs(s.jobs, id, report, now), s.past.recorded + {(id, report)};
      && ResultsSound(jobs, recorded, pruned) && RanSound(s.past.runs, jobs, pruned)
      && StaysSound(s.past.results[(id, pruned[id]) := report], jobs, recorded, pruned)
  {
    hide OutboxSound, SentSound, SendersSound, ResultsKept, HandlersSound, AnswersSound, TasksSound, OneRunner,
         NoneForgotten, SpawnedOnce, DocIdsSound, Numbered;
    var id, g := s.tasks[t].id, s.past.pruned[s.tasks[t].id];
    assert WellFormed(s.jobs[id]);
    var results := s.past.results[(id, g) := report];
    assert (id, g) !in s.past.results;
    forall id', r | (id', r) in s.past.recorded + {(id, report)} ensures OfAStay(results, id', r) {
      if (id', r) in s.past.recorded {
        var h: nat :| (id', h) in s.past.results && s.past.results[(id', h)] == r;
        assert (id', h) in results && results[(id', h)] == r;
      } else {
        assert (id', g) in results;
      }
    }
  }

  /** A result is recorded and put out in one transaction. */
  lemma RecordedResultStays(s: State, t: nat, report: string, now: int)
    requires Valid(s) && t in s.tasks && s.tasks[t].Reporting? && s.tasks[t].report == report
    ensures Valid(AfterFinishing(s, t, now, true))
  {
    hide ResultsSound, RanSound, StaysSound, SendersSound, HandlersSound, TasksSound, OneRunner, DocIdsSound, Numbered;
    hide ToBeSpawned, Underway;
    var id := s.tasks[t].id;
    TaskIsOpen(s.tasks, s.jobs, t);
    FinishUnmoved(s, t, report, now);
    hide OpenJobs;
    TaskRemoved(s.handlers, s.tasks, t);
    EntryAdded(s.outbox, ResultOf(id), NewEntry(None, report), s.past.docIds);
    SendersMore(s, id, report, t);
    FinishNoted(s, t, report, now);
  }

  lemma SendersMore(s: State, id: string, report: string, t: nat)
    requires Valid(s)
    ensures SendersSound(s.senders[s.next := Picking(ResultOf(id))], s.past.recorded + {(id, report)}, s.changes,
                         s.settled)
    ensures Numbered(s.handlers, s.tasks - {t}, s.senders[s.next := Picking(ResultOf(id))], s.next + 1)
  {
    hide ResultsSound, OutboxSound, SentSound, ResultsKept, HandlersSound, AnswersSound, TasksSound, RanSound,
         OneRunner, NoneForgotten, SpawnedOnce, DocIdsSound, StaysSound;
    forall m | m in s.senders ensures SenderSound(s.senders[m], s.past.recorded + {(id, report)}, s.changes, s.settled) {
      assert SenderSound(s.senders[m], s.past.recorded, s.changes, s.settled);
    }
  }

  lemma FinishStays(s: State, t: nat, now: int, storeOk: bool)
    requires Valid(s) && t in s.tasks && s.tasks[t].Reporting?
    ensures Valid(AfterFinishing(s, t, now, storeOk))
  {
    if storeOk {
      RecordedResultStays(s, t, s.tasks[t].report, now);
    } else {
      hide ResultsSound, OutboxSound, SentSound, SendersSound, ResultsKept, HandlersSound, AnswersSound, RanSound,
         OneRunner, SpawnedOnce, DocIdsSound, StaysSound;
      TaskRemoved(s.handlers, s.tasks, t);
    }
  }

  // Sending, and what the VTC answers.

  /** Entries may leave the outbox, if a result that leaves is noted as cleared. */
  lemma EntriesLeave(s: State, keys: set<OutKey>, cleared: set<string>)
    requires Valid(s) && s.past.cleared <= cleared
    requires forall key :: key in keys && key in s.outbox && key.ResultOf? ==> key.id in cleared
    ensures Valid(s.(outbox := s.outbox - keys, past := s.past.(cleared := cleared)))
  {
    hide ResultsSound, SentSound, SendersSound, HandlersSound, AnswersSound, TasksSound, RanSound, OneRunner,
         NoneForgotten, SpawnedOnce, Numbered, StaysSound;
    var now := s.outbox - keys;
    assert forall key, d :: Threads(now, key, d) ==> Threads(s.outbox, key, d);
  }

  lemma PostStays(s: State, m: nat, storeOk: bool)
    requires Valid(s) && m in s.senders && s.senders[m].Announcing?
    ensures Valid(AfterPosting(s, m, storeOk))
  {
    hide ResultsSound, SentSound, HandlersSound, AnswersSound, TasksSound, RanSound, OneRunner, NoneForgotten,
         SpawnedOnce, DocIdsSound, StaysSound;
    var p := s.senders[m];
    assert SenderSound(p, s.past.recorded, s.changes, s.settled);
    EntryAdded(s.outbox, p.key, NewEntry(p.about, p.payload), s.past.docIds);
  }

  lemma PickStays(s: State, m: nat, storeOk: bool)
    requires Valid(s) && m in s.senders && s.senders[m].Picking?
    ensures Valid(AfterPicking(s, m, storeOk))
  {
    hide ResultsSound, SentSound, ResultsKept, HandlersSound, AnswersSound, TasksSound, RanSound, OneRunner,
         NoneForgotten, SpawnedOnce, DocIdsSound, StaysSound;
  }

  lemma ScreenStays(s: State, m: nat, storeOk: bool, deleteOk: bool)
    requires Valid(s) && m in s.senders && s.senders[m].Screening?
    ensures Valid(AfterScreening(s, m, storeOk, deleteOk))
  {
    hide ResultsSound, OutboxSound, SentSound, ResultsKept, HandlersSound, AnswersSound, TasksSound, RanSound,
         OneRunner, NoneForgotten, SpawnedOnce, DocIdsSound, StaysSound;
    var p := s.senders[m];
    assert SenderSound(p, s.past.recorded, s.changes, s.settled);
    if p.about.Some? && deleteOk {
      EntriesLeave(s, {p.key}, s.past.cleared);
      var left := s.(outbox := s.outbox - {p.key});
      assert Valid(left);
    }
  }

  lemma FlushStays(s: State, m: nat, flushed: bool)
    requires Valid(s) && m in s.senders && s.senders[m].Flushing? && (flushed ==> s.settled == s.changes)
    ensures Valid(AfterFlush(s, m, flushed))
  {
    hide ResultsSound, OutboxSound, SentSound, ResultsKept, HandlersSound, AnswersSound, TasksSound, RanSound,
         OneRunner, NoneForgotten, SpawnedOnce, DocIdsSound, StaysSound;
    assert SenderSound(s.senders[m], s.past.recorded, s.changes, s.settled);
  }

  /** A document's new id is noted on its entry, which keeps the last eight. */
  lemma IdNoted(s: State, key: OutKey, d: string)
    requires Valid(s) && key in s.outbox && d !in s.past.docIds
    ensures var e := s.outbox[key].(docIds := LastIds(s.outbox[key].docIds + [d]),
                                    attempts := s.outbox[key].attempts + 1);
      Valid(s.(outbox := s.outbox[key := e], past := s.past.(docIds := s.past.docIds + {d})))
  {
    hide ResultsSound, SentSound, SendersSound, HandlersSound, AnswersSound, TasksSound, RanSound, OneRunner,
         NoneForgotten, SpawnedOnce, Numbered, StaysSound;
    var e := s.outbox[key].(docIds := LastIds(s.outbox[key].docIds + [d]), attempts := s.outbox[key].attempts + 1);
    var now := s.outbox[key := e];
    forall k, t | Threads(now, k, t) ensures Threads(s.outbox, k, t) || (k == key && t == d) {
      assert k == key ==> t in s.outbox[key].docIds + [d];
    }
  }

  lemma SignStays(s: State, m: nat, docId: Option<string>)
    requires Valid(s) && m in s.senders && s.senders[m].Signing? && (docId.Some? ==> docId.value !in s.past.docIds)
    ensures Valid(AfterSigning(s, m, docId))
  {
    hide ResultsSound, OutboxSound, SentSound, ResultsKept, HandlersSound, AnswersSound, TasksSound, RanSound,
         OneRunner, NoneForgotten, SpawnedOnce, DocIdsSound, StaysSound;
    var p := s.senders[m];
    assert SenderSound(p, s.past.recorded, s.changes, s.settled);
    if docId.Some? {
      var noted := s.(past := s.past.(docIds := s.past.docIds + {docId.value}));
      if p.key in s.outbox {
        IdNoted(s, p.key, docId.value);
      } else {
        MoreIds(s.outbox, s.past.docIds, docId.value);
      }
    }
  }

  lemma MoreIds(outbox: map<OutKey, OutboxEntry>, docIds: set<string>, d: string)
    requires DocIdsSound(outbox, docIds)
    ensures DocIdsSound(outbox, docIds + {d})
  {
  }

  lemma SendStays(s: State, m: nat)
    requires Valid(s) && m in s.senders && s.senders[m].Sending?
    ensures Valid(AfterSending(s, m))
  {
    hide ResultsSound, OutboxSound, ResultsKept, HandlersSound, AnswersSound, TasksSound, RanSound, OneRunner,
         NoneForgotten, SpawnedOnce, DocIdsSound, StaysSound;
    assert SenderSound(s.senders[m], s.past.recorded, s.changes, s.settled);
  }

  lemma QueueEventStays(s: State, text: string, namespace: string, payload: string, storeOk: bool)
    requires Valid(s)
    ensures Valid(AfterEvent(s, text, namespace, payload, storeOk)) && Valid(AfterBinding(s, namespace))
  {
    hide ResultsSound, OutboxSound, SentSound, ResultsKept, HandlersSound, AnswersSound, TasksSound, RanSound,
         OneRunner, NoneForgotten, SpawnedOnce, DocIdsSound, StaysSound;
  }

  lemma OrphanStays(s: State, namespace: string, storeOk: bool, kept: set<OutKey>)
    requires Valid(s)
    ensures Valid(AfterOrphaning(s, namespace, storeOk, kept))
  {
    hide ResultsSound, SentSound, SendersSound, ResultsKept, HandlersSound, AnswersSound, TasksSound, RanSound,
         OneRunner, NoneForgotten, SpawnedOnce, DocIdsSound, Numbered, StaysSound;
    EntriesLeave(s, EventsOf(s.outbox, namespace) - kept, s.past.cleared);
  }

  lemma ClearingStays(s: State, key: OutKey, deleteOk: bool)
    requires Valid(s)
    ensures Valid(AfterClearing(s, key, deleteOk))
  {
    hide ResultsSound, OutboxSound, SentSound, SendersSound, ResultsKept, HandlersSound, AnswersSound, TasksSound,
         RanSound, OneRunner, NoneForgotten, SpawnedOnce, DocIdsSound, Numbered, StaysSound;
    EntriesLeave(s, {key}, s.past.cleared + (if key.ResultOf? then {key.id} else {}));
  }

  lemma RefusalStays(s: State, code: ErrorCode, key: Option<OutKey>, faults: Faults)
    requires Valid(s) && (key.Some? ==> key.value in s.outbox)
    ensures Valid(AfterRefusal(s, code, key, faults))
  {
    hide ResultsSound, OutboxSound, SentSound, SendersSound, ResultsKept, HandlersSound, AnswersSound, TasksSound,
         RanSound, OneRunner, NoneForgotten, SpawnedOnce, DocIdsSound, Numbered, StaysSound;
    if key.Some? {
      ClearingStays(s, key.value, faults.deleteOk);
      if s.outbox[key.value].namespace.Some? {
        OrphanStays(AfterClearing(s, key.value, faults.deleteOk), s.outbox[key.value].namespace.value, faults.orphanOk,
                    faults.kept);
      }
    }
  }

  // Upkeep and restarts.

  lemma WriteBackStays(s: State, n: nat)
    requires Valid(s)
    ensures Valid(AfterWriteBack(s, n)) && Valid(AfterChange(s))
  {
    hide ResultsSound, OutboxSound, SentSound, ResultsKept, HandlersSound, AnswersSound, TasksSound, RanSound,
         OneRunner, NoneForgotten, SpawnedOnce, DocIdsSound, Numbered, StaysSound;
    forall m, c: nat, w: nat | m in s.senders && s.changes <= c && s.settled <= w
      ensures SenderSound(s.senders[m], s.past.recorded, c, w)
    {
      assert SenderSound(s.senders[m], s.past.recorded, s.changes, s.settled);
    }
  }

  lemma PruneUnmoved(s: State, id: string)
    requires Valid(s) && id in s.jobs && s.jobs[id].state.Finished?
    ensures OpenJobs(s.jobs - {id}) == OpenJobs(s.jobs)
    ensures TasksSound(s.tasks, s.jobs - {id})
    ensures HandlersSound(s.handlers, s.jobs - {id}, s.past.recorded, s.past.pruned + multiset{id})
  {
    hide ResultsSound, OutboxSound, SentSound, SendersSound, ResultsKept, AnswersSound, RanSound, OneRunner,
         NoneForgotten, SpawnedOnce, DocIdsSound, Numbered, StaysSound;
    var jobs, pruned := s.jobs - {id}, s.past.pruned + multiset{id};
    assert OpenJobs(jobs) == OpenJobs(s.jobs);
    forall t | t in s.tasks ensures TaskSound(s.tasks[t], jobs) {
      TaskIsOpen(s.tasks, s.jobs, t);
    }
    forall n | n in s.handlers ensures HandlerSound(s.handlers[n], jobs, s.past.recorded, pruned) {
      assert HandlerSound(s.handlers[n], s.jobs, s.past.recorded, s.past.pruned);
    }
  }

  /** The notes of earlier stays are kept. */
  lemma PruneNoted(s: State, id: string)
    requires Valid(s) && id in s.jobs
    ensures var jobs, pruned := s.jobs - {id}, s.past.pruned + multiset{id};
      && ResultsSound(jobs, s.past.recorded, pruned) && AnswersSound(s.past.replies, jobs, pruned)
      && RanSound(s.past.runs, jobs, pruned) && StaysSound(s.past.results, jobs, s.past.recorded, pruned)
  {
    hide OutboxSound, SentSound, SendersSound, ResultsKept, HandlersSound, TasksSound, OneRunner, NoneForgotten,
         SpawnedOnce, DocIdsSound, Numbered, OfAStay;
  }

  lemma PruneStays(s: State, id: string, now: int)
    requires Valid(s)
    ensures Valid(AfterPruning(s, id, now))
  {
    if Prunable(s.jobs, s.outbox, id, now) {
      hide OutboxSound, SentSound, SendersSound, HandlersSound, TasksSound, OneRunner, DocIdsSound, Numbered;
      hide ToBeSpawned, Underway;
      PruneUnmoved(s, id);
      PruneNoted(s, id);
      hide OpenJobs, ResultsSound, AnswersSound, RanSound, StaysSound;
    }
  }

  lemma ResumedTasks(s: State, tasks: map<nat, Task>)
    requires Valid(s) && Resumes(s, tasks)
    ensures TasksSound(tasks, s.jobs) && OneRunner(map[], tasks) && OpenJobs(s.jobs) <= Underway(tasks)
  {
    hide ResultsSound, OutboxSound, SentSound, SendersSound, ResultsKept, HandlersSound, AnswersSound, RanSound,
         NoneForgotten, SpawnedOnce, DocIdsSound, Numbered, StaysSound;
    forall id | id in OpenJobs(s.jobs) ensures id in Underway(tasks) {
      var t :| t in tasks && tasks[t].id == id;
    }
  }

  lemma RespawnedOnce(jobs: map<string, JobRecord>, pruned: multiset<string>)
    ensures SpawnedOnce(map[], jobs, multiset(OpenJobs(jobs)), pruned) && ToBeSpawned(map[]) == {}
  {
    assert forall id :: multiset(OpenJobs(jobs))[id] == if id in OpenJobs(jobs) then 1 else 0;
    assert ToBeSpawned(map[]) == {};
  }

  lemma RestartStays(s: State, tasks: map<nat, Task>)
    requires Valid(s) && Resumes(s, tasks)
    ensures Valid(AfterRestart(s, tasks))
  {
    hide ResultsSound, OutboxSound, SentSound, ResultsKept, AnswersSound, TasksSound, RanSound, OneRunner,
         SpawnedOnce, DocIdsSound, StaysSound;
    hide Underway, ToBeSpawned, OpenJobs;
    RespawnedOnce(s.jobs, multiset{});
    ResumedTasks(s, tasks);
  }

  lemma HandlingStays(s: State, n: nat, move: HandlerMove)
    requires Valid(s) && CanHandle(s, n, move)
    ensures Valid(AfterHandling(s, n, move))
  {
    hide Valid;
    match move
    case LookUp(storeOk) => LookUpStays(s, n, storeOk);
    case Admit(reviveOk, admitted, storeOk) => AdmitStays(s, n, reviveOk, admitted, storeOk);
    case Accept => AcceptStays(s, n);
    case Spawn => SpawnStays(s, n);
    case AnswerRepeat => AnswerRepeatStays(s, n);
    case PutBack(storeOk) => PutBackStays(s, n, storeOk);
  }

  lemma PerformingStays(s: State, t: nat, move: TaskMove)
    requires Valid(s) && CanPerform(s, t, move)
    ensures Valid(AfterPerforming(s, t, move))
  {
    hide Valid;
    match move
    case Start(storeOk) => StartStays(s, t, storeOk);
    case TakeTurn(storeOk) => TakeTurnStays(s, t, storeOk);
    case Work(report) => WorkStays(s, t, report);
    case Finish(now, storeOk) => FinishStays(s, t, now, storeOk);
  }

  lemma TransmittingStays(s: State, m: nat, move: SenderMove)
    requires Valid(s) && CanTransmit(s, m, move)
    ensures Valid(AfterTransmitting(s, m, move))
  {
    hide Valid;
    match move
    case Post(storeOk) => PostStays(s, m, storeOk);
    case Pick(storeOk) => PickStays(s, m, storeOk);
    case Screen(storeOk, deleteOk) => ScreenStays(s, m, storeOk, deleteOk);
    case Flush(flushed) => FlushStays(s, m, flushed);
    case Sign(docId) => SignStays(s, m, docId);
    case Send => SendStays(s, m);
  }

  lemma HearingStays(s: State, answer: Answer)
    requires Valid(s) && CanHear(s, answer)
    ensures Valid(AfterHearing(s, answer))
  {
    hide Valid;
    match answer
    case AckResult(id, storeOk) => if ResultOf(id) in s.outbox { ClearingStays(s, ResultOf(id), storeOk); }
    case AckEvent(key, _, storeOk) => ClearingStays(s, key, storeOk);
    case RefuseDocument(code, entry, _, faults) => RefusalStays(s, code, entry, faults);
  }

  lemma StepStays(s: State, a: Action)
    requires Valid(s) && Enabled(s, a)
    ensures Valid(Step(s, a))
  {
    hide Valid;
    hide AfterHandling, AfterPerforming, AfterTransmitting, AfterHearing, CanHandle, CanPerform, CanTransmit, CanHear;
    match a
    case Deliver(job) => DeliverStays(s, job);
    case Handle(n, move) => HandlingStays(s, n, move);
    case Perform(t, move) => PerformingStays(s, t, move);
    case Transmit(m, move) => TransmittingStays(s, m, move);
    case Resend(key) => BeginSendStays(s, key);
    case QueueEvent(text, namespace, payload, storeOk) => QueueEventStays(s, text, namespace, payload, storeOk);
    case Bind(namespace) => QueueEventStays(s, "", namespace, "", true);
    case Hear(answer) => HearingStays(s, answer);
    case ChangeMirrored => WriteBackStays(s, 0);
    case WriteBack(n) => WriteBackStays(s, n);
    case Prune(id, now) => PruneStays(s, id, now);
    case Restart(resumed) => RestartStays(s, resumed);
  }

  // ---- Runs ----

  function Initial(): State {
    State(map[], map[], {}, {}, map[], map[], map[], 0, 0, 0,
          Past({}, {}, map[], map[], {}, {}, multiset{}, {}, multiset{}, multiset{}, false))
  }

  /** A run of any number of processes, one after the other, over the same tables. */
  ghost predicate Run(states: seq<State>, actions: seq<Action>) {
    && |states| == |actions| + 1
    && forall i :: 0 <= i < |actions| ==> Enabled(states[i], actions[i]) && states[i + 1] == Step(states[i], actions[i])
  }

  lemma {:induction false} RunsAreValid(states: seq<State>, actions: seq<Action>, i: nat)
    requires Run(states, actions) && i < |states| && Valid(states[0])
    ensures Valid(states[i])
  {
    hide Valid, Step, Enabled;
    if i > 0 {
      RunsAreValid(states, actions, i - 1);
      StepStays(states[i - 1], actions[i - 1]);
    }
  }

  lemma NothingHasHappened()
    ensures Valid(Initial())
  {
    assert forall m: map<nat, Handler> :: m == map[] ==> ToBeSpawned(m) == {};
  }

  /** `t` comes after `s`: while a job stays in the ledger its content stays, and once it is finished all of
      it does; what was answered, recorded and sent stays so. */
  ghost predicate Later(s: State, t: State) {
    PastGrows(s.past, t.past) && s.next <= t.next && JobsKept(s.jobs, s.past.pruned, t.jobs, t.past.pruned)
  }

  ghost predicate PastGrows(p: Past, q: Past) {
    && p.recorded <= q.recorded && p.replies <= q.replies && p.sent <= q.sent
    && Keeps(p.results, q.results) && Keeps(p.runs, q.runs)
  }

  ghost predicate Keeps(a: map<(string, nat), string>, b: map<(string, nat), string>) {
    forall k :: k in a ==> k in b && b[k] == a[k]
  }

  ghost predicate JobsKept(was: map<string, JobRecord>, wasPruned: multiset<string>, jobs: map<string, JobRecord>,
                           pruned: multiset<string>) {
    && wasPruned <= pruned
    && (forall id :: id in was && pruned[id] == wasPruned[id] ==>
          id in jobs && jobs[id].digest == was[id].digest && (was[id].state.Finished? ==> jobs[id] == was[id]))
  }

  lemma JobsKeptThrough(a: map<string, JobRecord>, p: multiset<string>, b: map<string, JobRecord>, q: multiset<string>,
                        c: map<string, JobRecord>, r: multiset<string>)
    requires JobsKept(a, p, b, q) && JobsKept(b, q, c, r)
    ensures JobsKept(a, p, c, r)
  {
    forall id | id in a && r[id] == p[id] ensures q[id] == p[id] {
      assert p[id] <= q[id] <= r[id];
    }
  }

  lemma LaterThrough(s: State, t: State, u: State)
    requires Later(s, t) && Later(t, u)
    ensures Later(s, u)
  {
    hide JobsKept;
    JobsKeptThrough(s.jobs, s.past.pruned, t.jobs, t.past.pruned, u.jobs, u.past.pruned);
  }

  lemma NothingLost(s: State)
    ensures JobsKept(s.jobs, s.past.pruned, s.jobs, s.past.pruned)
    ensures Keeps(s.past.results, s.past.results) && Keeps(s.past.runs, s.past.runs)
  {
  }

  lemma NoteKept(notes: map<(string, nat), string>, k: (string, nat), note: string)
    requires k in notes ==> notes[k] == note
    ensures Keeps(notes, notes[k := note])
  {
  }

  lemma AdmissionIsLater(s: State, n: nat, reviveOk: bool, admitted: bool, storeOk: bool)
    requires n in s.handlers && s.handlers[n].Unknown?
    ensures Later(s, AfterAdmission(s, n, reviveOk, admitted, storeOk))
    ensures AfterAdmission(s, n, reviveOk, admitted, storeOk).past.pruned == s.past.pruned
  {
    var job := s.handlers[n].job;
    if admitted && storeOk && job.id !in s.jobs && job.namespace !in Revived(s, job.namespace, reviveOk).orphaned {
      RecordingIsLater(s, n, reviveOk);
    } else {
      RefusalIsNoLoss(s, n, reviveOk, admitted, storeOk);
    }
    hide Later, AfterAdmission;
  }

  lemma RecordingIsLater(s: State, n: nat, reviveOk: bool)
    requires n in s.handlers && s.handlers[n].Unknown? && s.handlers[n].job.id !in s.jobs
    requires s.handlers[n].job.namespace !in Revived(s, s.handlers[n].job.namespace, reviveOk).orphaned
    ensures Later(s, AfterAdmission(s, n, reviveOk, true, true))
    ensures AfterAdmission(s, n, reviveOk, true, true).past.pruned == s.past.pruned
  {
    hide Keeps, JobsKept;
    NothingLost(s);
    NewJobKeeps(s.jobs, s.past.pruned, s.handlers[n].job);
  }

  lemma RefusalIsNoLoss(s: State, n: nat, reviveOk: bool, admitted: bool, storeOk: bool)
    requires n in s.handlers && s.handlers[n].Unknown?
    requires !admitted || !storeOk || s.handlers[n].job.id in s.jobs
             || s.handlers[n].job.namespace in Revived(s, s.handlers[n].job.namespace, reviveOk).orphaned
    ensures Later(s, AfterAdmission(s, n, reviveOk, admitted, storeOk))
    ensures AfterAdmission(s, n, reviveOk, admitted, storeOk).past.pruned == s.past.pruned
  {
    hide Later;
    SameLedgerIsLater(s, AfterAdmission(s, n, reviveOk, admitted, storeOk));
  }

  lemma NewJobKeeps(jobs: map<string, JobRecord>, pruned: multiset<string>, job: Job)
    requires job.id !in jobs
    ensures JobsKept(jobs, pruned, jobs[job.id := QueuedJob(job)], pruned)
  {
  }

  /** Where the ledger is the same and no note or answer is gone, it is later. */
  lemma SameLedgerIsLater(s: State, t: State)
    requires t.jobs == s.jobs && s.next <= t.next && t.past.pruned == s.past.pruned
    requires t.past.results == s.past.results && t.past.runs == s.past.runs && t.past.recorded == s.past.recorded
    requires s.past.replies <= t.past.replies && s.past.sent <= t.past.sent
    ensures Later(s, t)
  {
  }

  lemma LookUpIsLater(s: State, n: nat, storeOk: bool)
    requires n in s.handlers && s.handlers[n].Received?
    ensures Later(s, AfterLookUp(s, n, storeOk)) && AfterLookUp(s, n, storeOk).past.pruned == s.past.pruned
  {
    hide Later;
    SameLedgerIsLater(s, AfterLookUp(s, n, storeOk));
  }

  lemma RepeatIsLater(s: State, n: nat)
    requires n in s.handlers && s.handlers[n].Repeated?
    ensures Later(s, AfterRepeatAnswer(s, n)) && AfterRepeatAnswer(s, n).past.pruned == s.past.pruned
  {
    hide Later;
    SameLedgerIsLater(s, AfterRepeatAnswer(s, n));
  }

  lemma PutBackIsLater(s: State, n: nat, storeOk: bool)
    requires n in s.handlers && s.handlers[n].PuttingBack?
    ensures Later(s, AfterPuttingBack(s, n, storeOk)) && AfterPuttingBack(s, n, storeOk).past.pruned == s.past.pruned
  {
    hide Later;
    SameLedgerIsLater(s, AfterPuttingBack(s, n, storeOk));
  }

  lemma SpawningIsLater(s: State, n: nat)
    requires n in s.handlers
    ensures s.handlers[n].Recorded? ==>
      Later(s, AfterAccepting(s, n)) && AfterAccepting(s, n).past.pruned == s.past.pruned
    ensures s.handlers[n].ToSpawn? ==> Later(s, AfterSpawning(s, n)) && AfterSpawning(s, n).past.pruned == s.past.pruned
  {
    hide Later;
    match s.handlers[n]
    case Recorded(_) => SameLedgerIsLater(s, AfterAccepting(s, n));
    case ToSpawn(_) => SameLedgerIsLater(s, AfterSpawning(s, n));
    case _ =>
  }

  lemma HandlingIsLater(s: State, n: nat, move: HandlerMove)
    requires CanHandle(s, n, move)
    ensures Later(s, AfterHandling(s, n, move)) && AfterHandling(s, n, move).past.pruned == s.past.pruned
  {
    hide Later, AfterAdmission, AfterLookUp, AfterRepeatAnswer, AfterPuttingBack, AfterAccepting, AfterSpawning;
    match move
    case LookUp(storeOk) => LookUpIsLater(s, n, storeOk);
    case Admit(reviveOk, admitted, storeOk) => AdmissionIsLater(s, n, reviveOk, admitted, storeOk);
    case Accept => SpawningIsLater(s, n);
    case Spawn => SpawningIsLater(s, n);
    case AnswerRepeat => RepeatIsLater(s, n);
    case PutBack(storeOk) => PutBackIsLater(s, n, storeOk);
  }

  /** Nothing of a job's present stay that is noted is noted otherwise. */
  lemma NotesAgree(s: State, t: nat)
    requires Valid(s) && t in s.tasks
    ensures var k := (s.tasks[t].id, s.past.pruned[s.tasks[t].id]);
      && k !in s.past.results
      && (s.tasks[t].HasPayload() && k in s.past.runs ==> s.past.runs[k] == s.tasks[t].payload)
  {
    hide OutboxSound, SentSound, SendersSound, ResultsKept, HandlersSound, AnswersSound, OneRunner, NoneForgotten,
         SpawnedOnce, DocIdsSound, Numbered;
    TaskIsOpen(s.tasks, s.jobs, t);
    assert TaskSound(s.tasks[t], s.jobs) && WellFormed(s.jobs[s.tasks[t].id]);
  }

  lemma TurnIsLater(s: State, t: nat, storeOk: bool)
    requires Valid(s) && t in s.tasks && s.tasks[t].Queueing?
    ensures Later(s, AfterTurn(s, t, storeOk))
  {
    hide ResultsSound, OutboxSound, SentSound, SendersSound, ResultsKept, HandlersSound, AnswersSound, TasksSound,
         RanSound, OneRunner, NoneForgotten, SpawnedOnce, DocIdsSound, Numbered, StaysSound;
    hide Keeps;
    TaskIsOpen(s.tasks, s.jobs, t);
    NotesAgree(s, t);
    NothingLost(s);
    NoteKept(s.past.runs, (s.tasks[t].id, s.past.pruned[s.tasks[t].id]), s.tasks[t].payload);
  }

  lemma FinishingIsLater(s: State, t: nat, now: int, storeOk: bool)
    requires Valid(s) && t in s.tasks && s.tasks[t].Reporting?
    ensures Later(s, AfterFinishing(s, t, now, storeOk))
  {
    hide ResultsSound, OutboxSound, SentSound, SendersSound, ResultsKept, HandlersSound, AnswersSound, TasksSound,
         RanSound, OneRunner, NoneForgotten, SpawnedOnce, DocIdsSound, Numbered, StaysSound;
    hide Keeps;
    TaskIsOpen(s.tasks, s.jobs, t);
    NotesAgree(s, t);
    NothingLost(s);
    NoteKept(s.past.results, (s.tasks[t].id, s.past.pruned[s.tasks[t].id]), s.tasks[t].report);
  }

  lemma PerformingIsLater(s: State, t: nat, move: TaskMove)
    requires Valid(s) && CanPerform(s, t, move)
    ensures Later(s, AfterPerforming(s, t, move)) && AfterPerforming(s, t, move).past.pruned == s.past.pruned
  {
    hide Valid, JobsKept, Keeps;
    NothingLost(s);
    match move
    case TakeTurn(storeOk) => TurnIsLater(s, t, storeOk);
    case Finish(now, storeOk) => FinishingIsLater(s, t, now, storeOk);
    case _ =>
  }

  lemma PostIsLater(s: State, m: nat, storeOk: bool)
    requires m in s.senders && s.senders[m].Announcing?
    ensures Later(s, AfterPosting(s, m, storeOk)) && AfterPosting(s, m, storeOk).past.pruned == s.past.pruned
  {
    hide Later;
    SameLedgerIsLater(s, AfterPosting(s, m, storeOk));
  }

  lemma ScreenIsLater(s: State, m: nat, storeOk: bool, deleteOk: bool)
    requires m in s.senders && s.senders[m].Screening?
    ensures Later(s, AfterScreening(s, m, storeOk, deleteOk))
    ensures AfterScreening(s, m, storeOk, deleteOk).past.pruned == s.past.pruned
  {
    hide Later;
    SameLedgerIsLater(s, AfterScreening(s, m, storeOk, deleteOk));
  }

  lemma TransmittingIsLater(s: State, m: nat, move: SenderMove)
    requires CanTransmit(s, m, move)
    ensures Later(s, AfterTransmitting(s, m, move)) && AfterTransmitting(s, m, move).past.pruned == s.past.pruned
  {
    hide Later, AfterPosting, AfterScreening;
    match move
    case Post(storeOk) => PostIsLater(s, m, storeOk);
    case Pick(storeOk) => SameLedgerIsLater(s, AfterPicking(s, m, storeOk));
    case Screen(storeOk, deleteOk) => ScreenIsLater(s, m, storeOk, deleteOk);
    case Flush(flushed) => SameLedgerIsLater(s, AfterFlush(s, m, flushed));
    case Sign(docId) => SameLedgerIsLater(s, AfterSigning(s, m, docId));
    case Send => SameLedgerIsLater(s, AfterSending(s, m));
  }

  lemma HearingIsLater(s: State, answer: Answer)
    requires CanHear(s, answer)
    ensures Later(s, AfterHearing(s, answer)) && AfterHearing(s, answer).past.pruned == s.past.pruned
  {
    hide Later, AfterClearing, AfterRefusal;
    match answer
    case AckResult(id, storeOk) => SameLedgerIsLater(s, AfterResultAck(s, id, storeOk));
    case AckEvent(key, _, storeOk) => ClearingIsLater(s, key, storeOk);
    case RefuseDocument(code, entry, _, faults) => RefusalIsLater(s, code, entry, faults);
  }

  lemma ClearingIsLater(s: State, key: OutKey, deleteOk: bool)
    ensures Later(s, AfterClearing(s, key, deleteOk)) && AfterClearing(s, key, deleteOk).past.pruned == s.past.pruned
  {
    hide Later;
    SameLedgerIsLater(s, AfterClearing(s, key, deleteOk));
  }

  lemma OrphaningIsLater(s: State, namespace: string, storeOk: bool, kept: set<OutKey>)
    ensures Later(s, AfterOrphaning(s, namespace, storeOk, kept))
    ensures AfterOrphaning(s, namespace, storeOk, kept).past.pruned == s.past.pruned
  {
    hide EventsOf, Later;
    SameLedgerIsLater(s, AfterOrphaning(s, namespace, storeOk, kept));
  }

  lemma RefusalIsLater(s: State, code: ErrorCode, key: Option<OutKey>, faults: Faults)
    requires key.Some? ==> key.value in s.outbox
    ensures Later(s, AfterRefusal(s, code, key, faults))
    ensures AfterRefusal(s, code, key, faults).past.pruned == s.past.pruned
  {
    hide Later, AfterClearing, AfterOrphaning;
    LaterThanItself(s);
    if key.Some? {
      var cleared := AfterClearing(s, key.value, faults.deleteOk);
      ClearingIsLater(s, key.value, faults.deleteOk);
      if s.outbox[key.value].namespace.Some? {
        var namespace := s.outbox[key.value].namespace.value;
        OrphaningIsLater(cleared, namespace, faults.orphanOk, faults.kept);
        LaterThrough(s, cleared, AfterOrphaning(cleared, namespace, faults.orphanOk, faults.kept));
      }
    }
  }

  lemma UpkeepIsLater(s: State, a: Action)
    requires Enabled(s, a) && !a.Handle? && !a.Perform? && !a.Transmit? && !a.Hear?
    ensures Later(s, Step(s, a))
  {
    hide Resumes;
    NothingLost(s);
    if !a.Prune? {
      hide JobsKept;
    }
  }

  lemma StepIsLater(s: State, a: Action)
    requires Valid(s) && Enabled(s, a)
    ensures Later(s, Step(s, a))
  {
    hide Valid, Later;
    hide AfterHandling, AfterPerforming, AfterTransmitting, AfterHearing, CanHandle, CanPerform, CanTransmit, CanHear;
    match a
    case Handle(n, move) => HandlingIsLater(s, n, move);
    case Perform(t, move) => PerformingIsLater(s, t, move);
    case Transmit(m, move) => TransmittingIsLater(s, m, move);
    case Hear(answer) => HearingIsLater(s, answer);
    case _ => UpkeepIsLater(s, a);
  }

  lemma {:induction false} RunsGoOn(states: seq<State>, actions: seq<Action>, i: nat, j: nat)
    requires Run(states, actions) && Valid(states[0]) && i <= j < |states|
    ensures Later(states[i], states[j])
  {
    hide Valid, Step, Enabled;
    if i < j {
      RunsGoOn(states, actions, i, j - 1);
      RunsAreValid(states, actions, j - 1);
      StepIsLater(states[j - 1], actions[j - 1]);
      LaterThrough(states[i], states[j - 1], states[j]);
    } else {
      hide Later;
      LaterThanItself(states[i]);
    }
  }

  lemma LaterThanItself(s: State)
    ensures Later(s, s)
  {
  }

  /** MAIN RESULT. A finished job stays finished, with the result first recorded, for as long as it is in the
      ledger, through any deliveries, crashes and restarts. */
  lemma ResultsAreSettled(states: seq<State>, actions: seq<Action>, i: nat, j: nat, id: string)
    requires Run(states, actions) && states[0] == Initial() && i <= j < |states|
    requires id in states[i].jobs && states[i].jobs[id].state.Finished?
    requires states[j].past.pruned[id] == states[i].past.pruned[id]
    ensures id in states[j].jobs && states[j].jobs[id] == states[i].jobs[id]
  {
    hide Valid, Step, Enabled;
    NothingHasHappened();
    RunsGoOn(states, actions, i, j);
  }

  /** Job `id` is finished, its result taken, and that more than 30 days ago. */
  ghost predicate IsOver(jobs: map<string, JobRecord>, outbox: map<OutKey, OutboxEntry>, id: string, now: int) {
    && id in jobs && jobs[id].state == Finished && ResultOf(id) !in outbox
    && jobs[id].finishedAt.Some? && now - jobs[id].finishedAt.value > 2_592_000
  }

  /** A job leaves the ledger only in upkeep, finished, taken, and past its retention; and then it does. */
  lemma OnlyPruningRemoves(s: State, a: Action, id: string)
    requires Valid(s) && Enabled(s, a)
    ensures Step(s, a).past.pruned[id] > s.past.pruned[id] <==>
            a.Prune? && a.id == id && IsOver(s.jobs, s.outbox, id, a.now)
    ensures id in s.jobs && id !in Step(s, a).jobs <==> a.Prune? && a.id == id && IsOver(s.jobs, s.outbox, id, a.now)
  {
    hide Valid;
    hide AfterHandling, AfterPerforming, AfterTransmitting, AfterHearing, CanHandle, CanPerform, CanTransmit, CanHear;
    match a
    case Handle(n, move) => HandlingIsLater(s, n, move);
    case Perform(t, move) => PerformingIsLater(s, t, move);
    case Transmit(m, move) => TransmittingIsLater(s, m, move);
    case Hear(answer) => HearingIsLater(s, answer);
    case _ =>
  }

  /** Before the `j`th moment `id` was pruned, as it may be. */
  ghost predicate PrunedBefore(states: seq<State>, actions: seq<Action>, j: nat, id: string)
    requires |states| == |actions| + 1 && j < |states|
  {
    exists k, now :: 0 <= k < j && actions[k] == Prune(id, now) && IsOver(states[k].jobs, states[k].outbox, id, now)
  }

  lemma {:induction false} PrunedWasPrunable(states: seq<State>, actions: seq<Action>, j: nat, id: string)
    requires Run(states, actions) && states[0] == Initial() && j < |states| && states[j].past.pruned[id] > 0
    ensures PrunedBefore(states, actions, j, id)
  {
    hide Valid, Step, Enabled, IsOver;
    if j > 0 {
      if states[j - 1].past.pruned[id] > 0 {
        PrunedWasPrunable(states, actions, j - 1, id);
      } else {
        NothingHasHappened();
        RunsAreValid(states, actions, j - 1);
        OnlyPruningRemoves(states[j - 1], actions[j - 1], id);
        assert actions[j - 1] == Prune(id, actions[j - 1].now);
      }
    }
  }

  /** MAIN RESULT. Every job the VTC was told is accepted is in the ledger from then on, at any later moment,
      a crash among them, until it was finished, its result taken and its retention over. */
  lemma AcceptedIsDurable(states: seq<State>, actions: seq<Action>, i: nat, j: nat, id: string)
    requires Run(states, actions) && states[0] == Initial() && i <= j < |states|
    requires Accepted(id) in states[i].past.replies
    ensures id in states[j].jobs || PrunedBefore(states, actions, j, id)
  {
    hide Step, Enabled, PrunedBefore;
    hide ResultsSound, OutboxSound, SentSound, SendersSound, ResultsKept, HandlersSound, TasksSound, RanSound,
         OneRunner, NoneForgotten, SpawnedOnce, DocIdsSound, Numbered, StaysSound;
    NothingHasHappened();
    RunsAreValid(states, actions, j);
    RunsGoOn(states, actions, i, j);
    if id !in states[j].jobs {
      PrunedWasPrunable(states, actions, j, id);
    }
  }

  /** MAIN RESULT. In one process a job in the ledger is carried to its end by one run task, spawned once for
      each time it was in the ledger in that process; and none is forgotten while the store works. */
  lemma OneRunTaskPerJob(states: seq<State>, actions: seq<Action>, i: nat, id: string)
    requires Run(states, actions) && states[0] == Initial() && i < |states|
    ensures states[i].past.spawned[id] <= 1 + states[i].past.prunedHere[id]
    ensures var tasks := states[i].tasks; forall t, u :: t in tasks && u in tasks && tasks[t].id == tasks[u].id ==>
      t == u
    ensures id in states[i].jobs && states[i].jobs[id].state != Finished && !states[i].past.faulted ==>
      || (exists n :: n in states[i].handlers
                      && (states[i].handlers[n] == Recorded(id) || states[i].handlers[n] == ToSpawn(id)))
      || (exists t :: t in states[i].tasks && states[i].tasks[t].id == id)
  {
    hide Step, Enabled;
    hide ResultsSound, OutboxSound, SentSound, SendersSound, ResultsKept, HandlersSound, AnswersSound, TasksSound,
         RanSound, DocIdsSound, Numbered, StaysSound;
    NothingHasHappened();
    RunsAreValid(states, actions, i);
    RunnerIsThere(states[i].handlers, states[i].tasks, id);
    hide ToBeSpawned, Underway;
  }

  lemma RunnerIsThere(handlers: map<nat, Handler>, tasks: map<nat, Task>, id: string)
    ensures id in ToBeSpawned(handlers) + Underway(tasks) ==>
      || (exists n :: n in handlers && (handlers[n] == Recorded(id) || handlers[n] == ToSpawn(id)))
      || (exists t :: t in tasks && tasks[t].id == id)
  {
    if id in ToBeSpawned(handlers) {
      var n :| n in handlers && handlers[n].Spawns() && handlers[n].id == id;
      assert handlers[n] == Recorded(id) || handlers[n] == ToSpawn(id);
    }
  }

  /** MAIN RESULT. Each stay of a job in the ledger has one content that ran and one result, noted once and for all:
      the ledger's own, for the present stay. And every result sent for the job is that of one of its stays. */
  lemma OneContentAndOneResult(states: seq<State>, actions: seq<Action>, i: nat, j: nat, id: string)
    requires Run(states, actions) && states[0] == Initial() && i <= j < |states|
    ensures var s, g := states[i], states[i].past.pruned[id];
      && ((id, g) in s.past.runs ==> id in s.jobs && s.past.runs[(id, g)] == s.jobs[id].digest)
      && ((id, g) in s.past.results <==> id in s.jobs && s.jobs[id].report.Some?)
      && ((id, g) in s.past.results ==> s.jobs[id].report == Some(s.past.results[(id, g)]))
    ensures forall g :: (id, g) in states[i].past.results || (id, g) in states[i].past.runs ==>
      g <= states[i].past.pruned[id]
    ensures Keeps(states[i].past.results, states[j].past.results) && Keeps(states[i].past.runs, states[j].past.runs)
    ensures forall r :: (ResultOf(id), r) in states[i].past.sent ==> OfAStay(states[i].past.results, id, r)
  {
    hide Step, Enabled, Keeps, OfAStay;
    hide OutboxSound, SendersSound, ResultsKept, HandlersSound, AnswersSound, TasksSound, OneRunner, NoneForgotten,
         SpawnedOnce, DocIdsSound, Numbered;
    NothingHasHappened();
    RunsAreValid(states, actions, i);
    RunsGoOn(states, actions, i, j);
    forall r | (ResultOf(id), r) in states[i].past.sent ensures OfAStay(states[i].past.results, id, r) {
      assert SentSound(states[i].past.sent, states[i].past.recorded);
    }
  }

  // ---- What a run task comes to ----

  /** Action `a` is a move of task `t`. */
  predicate IsMoveOf(a: Action, t: nat) {
    a.Perform? && a.t == t
  }

  /** Task `t` is at `task`, unless a crash ended it; its number may then be another's that only begins. */
  predicate StillAt(s: State, t: nat, task: Task) {
    t in s.tasks ==> s.tasks[t] == task || s.tasks[t].Starting?
  }

  lemma HandlingKeepsTasks(s: State, n: nat, move: HandlerMove, t: nat)
    requires CanHandle(s, n, move)
    ensures var tasks := AfterHandling(s, n, move).tasks;
      t in tasks ==> (t in s.tasks && tasks[t] == s.tasks[t]) || tasks[t].Starting?
  {
    hide AfterAdmission, AfterLookUp, AfterRepeatAnswer, AfterPuttingBack;
    match move
    case LookUp(storeOk) => LookUpSpawnsNothing(s, n, storeOk);
    case Admit(reviveOk, admitted, storeOk) => AdmissionSpawnsNothing(s, n, reviveOk, admitted, storeOk);
    case AnswerRepeat => AnswerOfARepeat(s, n);
    case PutBack(storeOk) => PutBackOfARepeat(s, n, storeOk);
    case _ =>
  }

  lemma LookUpSpawnsNothing(s: State, n: nat, storeOk: bool)
    requires n in s.handlers && s.handlers[n].Received?
    ensures AfterLookUp(s, n, storeOk).tasks == s.tasks && AfterLookUp(s, n, storeOk).outbox == s.outbox
  {
  }

  lemma AdmissionSpawnsNothing(s: State, n: nat, reviveOk: bool, admitted: bool, storeOk: bool)
    requires n in s.handlers && s.handlers[n].Unknown?
    ensures AfterAdmission(s, n, reviveOk, admitted, storeOk).tasks == s.tasks
    ensures AfterAdmission(s, n, reviveOk, admitted, storeOk).outbox == s.outbox
  {
  }

  lemma PerformingKeepsTasks(s: State, u: nat, move: TaskMove, t: nat)
    requires CanPerform(s, u, move) && t != u
    ensures var tasks := AfterPerforming(s, u, move).tasks;
      (t in tasks <==> t in s.tasks) && (t in tasks ==> tasks[t] == s.tasks[t])
  {
    hide AfterFinishing, AfterTurn, AfterStarting;
    match move
    case Start(storeOk) => StartMoves(s, u, storeOk);
    case TakeTurn(storeOk) => TurnMoves(s, u, storeOk);
    case Work(_) =>
    case Finish(now, storeOk) => FinishMoves(s, u, now, storeOk);
  }

  lemma StartMoves(s: State, t: nat, storeOk: bool)
    requires t in s.tasks && s.tasks[t].Starting?
    ensures var tasks := AfterStarting(s, t, storeOk).tasks;
      tasks == if t in tasks then s.tasks[t := tasks[t]] else s.tasks - {t}
  {
  }

  lemma TurnMoves(s: State, t: nat, storeOk: bool)
    requires t in s.tasks && s.tasks[t].Queueing?
    ensures var tasks := AfterTurn(s, t, storeOk).tasks; t in tasks && tasks == s.tasks[t := tasks[t]]
  {
  }

  lemma FinishMoves(s: State, t: nat, now: int, storeOk: bool)
    requires t in s.tasks && s.tasks[t].Reporting?
    ensures AfterFinishing(s, t, now, storeOk).tasks == s.tasks - {t}
  {
  }

  lemma OthersMove(s: State, a: Action, t: nat, task: Task)
    requires Enabled(s, a) && StillAt(s, t, task) && !IsMoveOf(a, t)
    ensures StillAt(Step(s, a), t, task)
  {
    hide AfterHandling, AfterPerforming, AfterTransmitting, AfterHearing, CanHandle, CanPerform, CanTransmit, CanHear;
    match a
    case Handle(n, move) => HandlingKeepsTasks(s, n, move, t);
    case Perform(u, move) => PerformingKeepsTasks(s, u, move, t);
    case Transmit(m, move) => TransmittingKeepsTasks(s, m, move);
    case Hear(answer) => HearingKeepsTasks(s, answer);
    case _ =>
  }

  lemma TransmittingKeepsTasks(s: State, m: nat, move: SenderMove)
    requires CanTransmit(s, m, move)
    ensures AfterTransmitting(s, m, move).tasks == s.tasks
  {
  }

  lemma HearingKeepsTasks(s: State, answer: Answer)
    requires CanHear(s, answer)
    ensures AfterHearing(s, answer).tasks == s.tasks
  {
  }

  lemma {:induction false} TaskWaits(states: seq<State>, actions: seq<Action>, i: nat, j: nat, t: nat, task: Task)
    requires Run(states, actions) && i <= j < |states| && StillAt(states[i], t, task)
    requires forall k :: i <= k < j ==> !IsMoveOf(actions[k], t)
    ensures StillAt(states[j], t, task)
    decreases j
  {
    hide Step, Enabled, StillAt;
    if i < j {
      TaskWaits(states, actions, i, j - 1, t, task);
      OthersMove(states[j - 1], actions[j - 1], t, task);
    }
  }

  /** MAIN RESULT. What a run task's work came to is the job's result: if its next move is to finish, and the store takes
      it, the job is finished with that report, the report is in the outbox, and it is this stay's result. */
  lemma WorkIsReported(states: seq<State>, actions: seq<Action>, i: nat, j: nat, t: nat, report: string, now: int)
    requires Run(states, actions) && states[0] == Initial() && i < j < |actions|
    requires actions[i] == Perform(t, Work(report)) && actions[j] == Perform(t, Finish(now, true))
    requires forall k :: i < k < j ==> !IsMoveOf(actions[k], t)
    ensures t in states[i].tasks
    ensures var id, s := states[i].tasks[t].id, states[j + 1];
      && id in s.jobs && s.jobs[id].state == Finished && s.jobs[id].report == Some(report)
      && s.jobs[id].finishedAt == Some(now) && s.jobs[id].payload == None
      && ResultOf(id) in s.outbox && s.outbox[ResultOf(id)] == OutboxEntry(None, report, [], 0)
      && (id, s.past.pruned[id]) in s.past.results && s.past.results[(id, s.past.pruned[id])] == report
  {
    hide ResultsSound, OutboxSound, SentSound, SendersSound, ResultsKept, HandlersSound, AnswersSound, RanSound,
         OneRunner, NoneForgotten, SpawnedOnce, DocIdsSound, Numbered, StaysSound;
    assert Enabled(states[i], actions[i]) && Enabled(states[j], actions[j]);
    TaskWaits(states, actions, i + 1, j, t, Reporting(states[i].tasks[t].id, report));
    NothingHasHappened();
    RunsAreValid(states, actions, j);
    TaskIsOpen(states[j].tasks, states[j].jobs, t);
  }

  /** MAIN RESULT. And that work is the job's own: a task that starts and then takes its turn, the store working, comes
      to work on the payload recorded in the ledger; and the ledger has the job running. */
  lemma TurnIsTheJobs(states: seq<State>, actions: seq<Action>, i: nat, j: nat, t: nat)
    requires Run(states, actions) && states[0] == Initial() && i < j < |actions|
    requires actions[i] == Perform(t, Start(true)) && actions[j] == Perform(t, TakeTurn(true))
    requires forall k :: i < k < j ==> !IsMoveOf(actions[k], t)
    ensures t in states[i].tasks
    ensures var id, s := states[i].tasks[t].id, states[j + 1];
      && id in states[i].jobs && states[i].jobs[id].payload.Some?
      && t in s.tasks && s.tasks[t] == Working(id, states[i].jobs[id].payload.value)
      && id in s.jobs && s.jobs[id].state == Running && s.jobs[id].payload == states[i].jobs[id].payload
  {
    hide OutboxSound, SentSound, SendersSound, ResultsKept, HandlersSound, AnswersSound, RanSound,
         OneRunner, NoneForgotten, SpawnedOnce, DocIdsSound, Numbered, StaysSound;
    assert Enabled(states[i], actions[i]) && Enabled(states[j], actions[j]);
    NothingHasHappened();
    RunsAreValid(states, actions, i);
    RunsAreValid(states, actions, j);
    TaskIsOpen(states[i].tasks, states[i].jobs, t);
    var id := states[i].tasks[t].id;
    assert WellFormed(states[i].jobs[id]);
    TaskWaits(states, actions, i + 1, j, t, Queueing(id, states[i].jobs[id].payload.value));
    TaskIsOpen(states[j].tasks, states[j].jobs, t);
    assert TaskSound(states[j].tasks[t], states[j].jobs) && WellFormed(states[j].jobs[id]);
  }

  /** The handler of a document whose job is in the ledger, at whatever point it is. */
  predicate HandlesRepeat(s: State, n: nat) {
    n in s.handlers && match s.handlers[n]
                       case Received(job) => job.id in s.jobs
                       case Repeated(_, _, _) => true
                       case PuttingBack(_, _) => true
                       case _ => false
  }

  lemma LookUpOfARepeat(s: State, n: nat, storeOk: bool)
    requires n in s.handlers && s.handlers[n].Received? && HandlesRepeat(s, n)
    ensures var s', job := AfterLookUp(s, n, storeOk), s.handlers[n].job;
      && Unworked(s, s') && s'.outbox == s.outbox
      && (n in s'.handlers ==> s'.handlers[n] == Repeated(job.id, s.jobs[job.id].state.Finished?, s.jobs[job.id].report))
      && (s.jobs[job.id].digest != job.body ==>
            n !in s'.handlers && forall id :: Accepted(id) in s'.past.replies ==> Accepted(id) in s.past.replies)
  {
  }

  /** No job was changed, and none spawned or run. */
  predicate Unworked(s: State, t: State) {
    t.jobs == s.jobs && t.tasks == s.tasks && t.past.spawned == s.past.spawned && t.past.runs == s.past.runs
  }

  lemma AnswerOfARepeat(s: State, n: nat)
    requires n in s.handlers && s.handlers[n].Repeated?
    ensures var s', h := AfterRepeatAnswer(s, n), s.handlers[n];
      && Unworked(s, s') && s'.outbox == s.outbox
      && (n in s'.handlers ==> h.finished && s'.handlers[n] == PuttingBack(h.id, h.report))
  {
  }

  lemma PutBackOfARepeat(s: State, n: nat, storeOk: bool)
    requires n in s.handlers && s.handlers[n].PuttingBack?
    ensures var s', h := AfterPuttingBack(s, n, storeOk), s.handlers[n];
      && Unworked(s, s') && n !in s'.handlers
      && s'.outbox == if storeOk && h.report.Some? && ResultOf(h.id) !in s.outbox
                      then s.outbox[ResultOf(h.id) := NewEntry(None, h.report.value)] else s.outbox
  {
  }

  /** MAIN RESULT. From the look into the ledger to its end, the handling of a repeat changes no job, spawns nothing
      and runs nothing; all it ever adds to the outbox is the result it found in the ledger, if none waits there; and
      other content under the id is refused at once. */
  lemma RepeatsChangeNothing(s: State, n: nat, move: HandlerMove)
    requires CanHandle(s, n, move) && HandlesRepeat(s, n)
    ensures var s', h := AfterHandling(s, n, move), s.handlers[n];
      && Unworked(s, s')
      && (n in s'.handlers ==> HandlesRepeat(s', n))
      && (s'.outbox == s.outbox
          || (h.PuttingBack? && h.report.Some? && ResultOf(h.id) !in s.outbox
              && s'.outbox == s.outbox[ResultOf(h.id) := NewEntry(None, h.report.value)]))
      && (h.Received? && s.jobs[h.job.id].digest != h.job.body ==>
            n !in s'.handlers && forall id :: Accepted(id) in s'.past.replies ==> Accepted(id) in s.past.replies)
      && (h.Received? && n in s'.handlers ==>
            s'.handlers[n] == Repeated(h.job.id, s.jobs[h.job.id].state.Finished?, s.jobs[h.job.id].report))
      && (h.Repeated? && n in s'.handlers ==> s'.handlers[n] == PuttingBack(h.id, h.report))
  {
    hide AfterLookUp, AfterRepeatAnswer, AfterPuttingBack;
    match move
    case LookUp(storeOk) => LookUpOfARepeat(s, n, storeOk);
    case AnswerRepeat => AnswerOfARepeat(s, n);
    case PutBack(storeOk) => PutBackOfARepeat(s, n, storeOk);
  }

  lemma HandlingKeepsEntries(s: State, n: nat, move: HandlerMove)
    requires CanHandle(s, n, move)
    ensures s.outbox.Keys <= AfterHandling(s, n, move).outbox.Keys
  {
    hide AfterAdmission, AfterLookUp, AfterRepeatAnswer;
    match move
    case LookUp(storeOk) => LookUpSpawnsNothing(s, n, storeOk);
    case Admit(reviveOk, admitted, storeOk) => AdmissionSpawnsNothing(s, n, reviveOk, admitted, storeOk);
    case AnswerRepeat => AnswerOfARepeat(s, n);
    case _ =>
  }

  lemma PerformingKeepsEntries(s: State, t: nat, move: TaskMove)
    requires CanPerform(s, t, move)
    ensures s.outbox.Keys <= AfterPerforming(s, t, move).outbox.Keys
  {
  }

  lemma TransmittingKeepsResults(s: State, m: nat, move: SenderMove, id: string)
    requires Valid(s) && CanTransmit(s, m, move) && ResultOf(id) in s.outbox
    ensures ResultOf(id) in AfterTransmitting(s, m, move).outbox
  {
    hide ResultsSound, SentSound, ResultsKept, HandlersSound, AnswersSound, TasksSound, RanSound, OneRunner,
         NoneForgotten, SpawnedOnce, DocIdsSound, Numbered, StaysSound;
    assert SenderSound(s.senders[m], s.past.recorded, s.changes, s.settled);
    assert s.outbox[ResultOf(id)].namespace.None?;
  }

  lemma OrphaningKeepsResults(s: State, namespace: string, storeOk: bool, kept: set<OutKey>, id: string)
    requires ResultOf(id) in s.outbox && s.outbox[ResultOf(id)].namespace.None?
    ensures ResultOf(id) in AfterOrphaning(s, namespace, storeOk, kept).outbox
  {
  }

  lemma HearingClears(s: State, answer: Answer, id: string)
    requires Valid(s) && CanHear(s, answer) && ResultOf(id) in s.outbox
    requires ResultOf(id) !in AfterHearing(s, answer).outbox
    ensures Clears(s, answer, id)
  {
    hide ResultsSound, SentSound, SendersSound, ResultsKept, HandlersSound, AnswersSound, TasksSound, RanSound,
         OneRunner, NoneForgotten, SpawnedOnce, DocIdsSound, Numbered, StaysSound;
    hide AfterOrphaning;
    assert s.outbox[ResultOf(id)].namespace.None?;
    if answer.RefuseDocument? && answer.entry.Some? && s.outbox[answer.entry.value].namespace.Some?
       && ResultOf(id) in AfterClearing(s, answer.entry.value, answer.faults.deleteOk).outbox {
      OrphaningKeepsResults(AfterClearing(s, answer.entry.value, answer.faults.deleteOk),
                            s.outbox[answer.entry.value].namespace.value, answer.faults.orphanOk, answer.faults.kept, id);
    }
  }

  /** `answer` is the VTC's to the result of job `id`. */
  predicate Clears(s: State, answer: Answer, id: string)
    requires ResultOf(id) in s.outbox
  {
    || (answer.AckResult? && answer.id == id)
    || (answer.AckEvent? && answer.key == ResultOf(id) && answer.thread in s.outbox[ResultOf(id)].docIds)
    || (answer.RefuseDocument? && !answer.code.OtherCode? && answer.entry == Some(ResultOf(id))
        && answer.thread in s.outbox[ResultOf(id)].docIds)
  }

  /** MAIN RESULT. A result leaves the outbox only when the VTC answers it: it acknowledged the job's result,
      or its answer or its refusal (that it does not know the job, or the namespace) threads to one of the
      last eight documents the result was sent in. */
  lemma ResultsLeaveWhenAnswered(states: seq<State>, actions: seq<Action>, i: nat, id: string)
    requires Run(states, actions) && states[0] == Initial() && i < |actions|
    requires ResultOf(id) in states[i].outbox && ResultOf(id) !in states[i + 1].outbox
    ensures actions[i].Hear? && Clears(states[i], actions[i].answer, id)
    ensures |states[i].outbox[ResultOf(id)].docIds| <= 8
  {
    hide ResultsSound, OutboxSound, SentSound, SendersSound, ResultsKept, HandlersSound, AnswersSound, TasksSound,
         RanSound, OneRunner, NoneForgotten, SpawnedOnce, Numbered, StaysSound;
    hide AfterHandling, AfterPerforming, AfterTransmitting, AfterHearing, CanHandle, CanPerform, CanTransmit, CanHear;
    NothingHasHappened();
    RunsAreValid(states, actions, i);
    var s := states[i];
    match actions[i]
    case Handle(n, move) => HandlingKeepsEntries(s, n, move);
    case Perform(t, move) => PerformingKeepsEntries(s, t, move);
    case Transmit(m, move) => TransmittingKeepsResults(s, m, move, id);
    case Hear(answer) => HearingClears(s, answer, id);
    case _ =>
  }

  /** MAIN RESULT. At every moment a finished job's result waits in the outbox, or the VTC answered it since it
      was last put there. */
  lemma ResultsWaitToBeTaken(states: seq<State>, actions: seq<Action>, i: nat, id: string)
    requires Run(states, actions) && states[0] == Initial() && i < |states|
    requires id in states[i].jobs && states[i].jobs[id].state.Finished?
    ensures ResultOf(id) in states[i].outbox || id in states[i].past.cleared
  {
    hide Step, Enabled;
    hide ResultsSound, OutboxSound, SentSound, SendersSound, HandlersSound, AnswersSound, TasksSound, RanSound,
         OneRunner, NoneForgotten, SpawnedOnce, DocIdsSound, Numbered, StaysSound;
    NothingHasHappened();
    RunsAreValid(states, actions, i);
  }

  /** Handling an identical repeat of a finished job puts its result back, as it is in the ledger. */
  lemma RepeatsPutTheResultBack(s: State, n: nat)
    requires Valid(s) && n in s.handlers && s.handlers[n].PuttingBack? && s.handlers[n].report.Some?
    ensures var s', id := AfterPuttingBack(s, n, true), s.handlers[n].id;
      && ResultOf(id) in s'.outbox && id !in s'.past.cleared - s.past.cleared
      && OfAStay(s.past.results, id, s'.outbox[ResultOf(id)].payload)
      && (s.past.pruned[id] == 0 ==> id in s.jobs && s.jobs[id].report == Some(s'.outbox[ResultOf(id)].payload))
  {
    hide SentSound, SendersSound, ResultsKept, AnswersSound, TasksSound, RanSound, OneRunner, NoneForgotten,
         SpawnedOnce, DocIdsSound, Numbered;
    assert HandlerSound(s.handlers[n], s.jobs, s.past.recorded, s.past.pruned);
  }

  /** `m` was picked when `since` mirrored changes had been made, if it is still being sent. */
  predicate Since(s: State, m: nat, since: nat) {
    m < s.next && (m in s.senders ==> !s.senders[m].Picking? && !s.senders[m].Announcing? && s.senders[m].since == since)
  }

  /** A handler starts at most one sending. */
  lemma HandlingSenders(s: State, n: nat, move: HandlerMove)
    requires CanHandle(s, n, move)
    ensures var t := AfterHandling(s, n, move);
      && s.next <= t.next
      && (t.senders == s.senders || exists key :: t.senders == s.senders[s.next := Picking(key)] && t.next == s.next + 1)
  {
    if move.PutBack? {
      PutBackSends(s, n, move.storeOk);
    }
  }

  lemma PutBackSends(s: State, n: nat, storeOk: bool)
    requires n in s.handlers && s.handlers[n].PuttingBack?
    ensures var t := AfterPuttingBack(s, n, storeOk);
      t.senders == s.senders[s.next := Picking(ResultOf(s.handlers[n].id))] && t.next == s.next + 1
  {
  }

  /** So does a run task. */
  lemma PerformingSenders(s: State, t: nat, move: TaskMove)
    requires CanPerform(s, t, move)
    ensures var u := AfterPerforming(s, t, move);
      && s.next <= u.next
      && (u.senders == s.senders || exists key :: u.senders == s.senders[s.next := Picking(key)] && u.next == s.next + 1)
  {
    if move.Finish? {
      FinishSends(s, t, move.now, move.storeOk);
    }
  }

  lemma FinishSends(s: State, t: nat, now: int, storeOk: bool)
    requires t in s.tasks && s.tasks[t].Reporting?
    ensures var u := AfterFinishing(s, t, now, storeOk);
      || (u.senders == s.senders && u.next == s.next)
      || (u.senders == s.senders[s.next := Picking(ResultOf(s.tasks[t].id))] && u.next == s.next + 1)
  {
  }

  /** A sending's step leaves the others alone, and the count it began with. */
  lemma TransmittingSenders(s: State, k: nat, move: SenderMove)
    requires CanTransmit(s, k, move)
    ensures var t := AfterTransmitting(s, k, move);
      && t.next == s.next
      && t.senders.Keys <= s.senders.Keys
      && (forall m :: m in t.senders && m != k ==> t.senders[m] == s.senders[m])
      && (k in t.senders && !s.senders[k].Announcing? && !s.senders[k].Picking? ==>
            !t.senders[k].Announcing? && !t.senders[k].Picking?
            && t.senders[k].since == s.senders[k].since && t.senders[k].about == s.senders[k].about)
      && (k in t.senders && t.senders[k].Cleared() && !s.senders[k].Cleared() ==> move == Flush(true))
      && (k in t.senders && t.senders[k].Screened() && !s.senders[k].Screened() ==>
            move.Screen? && s.senders[k].Screening?
            && (s.senders[k].about.Some? && move.storeOk ==> s.senders[k].about.value !in s.orphaned))
  {
    hide AfterPosting, AfterPicking, AfterScreening, AfterSigning;
    match move
    case Post(storeOk) => PostSends(s, k, storeOk);
    case Pick(storeOk) => PickSends(s, k, storeOk);
    case Screen(storeOk, deleteOk) => ScreenSends(s, k, storeOk, deleteOk);
    case Sign(docId) => SignSends(s, k, docId);
    case _ =>
  }

  lemma PostSends(s: State, k: nat, storeOk: bool)
    requires k in s.senders && s.senders[k].Announcing?
    ensures var t := AfterPosting(s, k, storeOk);
      t.next == s.next && t.senders == if storeOk then s.senders[k := Picking(s.senders[k].key)] else s.senders - {k}
  {
  }

  lemma PickSends(s: State, k: nat, storeOk: bool)
    requires k in s.senders && s.senders[k].Picking?
    ensures var t := AfterPicking(s, k, storeOk); var key := s.senders[k].key;
      && t.next == s.next
      && t.senders == if storeOk && key in s.outbox
                      then s.senders[k := Screening(key, s.outbox[key].payload, s.outbox[key].namespace, s.changes)]
                      else s.senders - {k}
  {
  }

  lemma ScreenSends(s: State, k: nat, storeOk: bool, deleteOk: bool)
    requires k in s.senders && s.senders[k].Screening?
    ensures var t := AfterScreening(s, k, storeOk, deleteOk); var p := s.senders[k];
      && t.next == s.next
      && t.senders == if p.about.Some? && storeOk && p.about.value in s.orphaned then s.senders - {k}
                      else s.senders[k := Flushing(p.key, p.payload, p.about, p.since)]
  {
  }

  lemma SignSends(s: State, k: nat, docId: Option<string>)
    requires k in s.senders && s.senders[k].Signing?
    ensures var t := AfterSigning(s, k, docId); var p := s.senders[k];
      && t.next == s.next
      && t.senders == if docId.None? then s.senders - {k}
                      else s.senders[k := Sending(p.key, p.payload, p.about, p.since, docId.value)]
  {
  }

  lemma HearingSenders(s: State, answer: Answer)
    requires CanHear(s, answer)
    ensures AfterHearing(s, answer).senders == s.senders && AfterHearing(s, answer).next == s.next
  {
  }

  lemma StepKeepsSince(s: State, a: Action, m: nat, since: nat)
    requires Enabled(s, a) && Since(s, m, since)
    ensures Since(Step(s, a), m, since)
  {
    hide AfterHandling, AfterPerforming, AfterTransmitting, AfterHearing, CanHandle, CanPerform, CanTransmit, CanHear;
    match a
    case Handle(n, move) => HandlingSenders(s, n, move);
    case Perform(t, move) => PerformingSenders(s, t, move);
    case Hear(answer) => HearingSenders(s, answer);
    case Transmit(k, move) => TransmittingSenders(s, k, move);
    case _ =>
  }

  lemma PickSetsSince(s: State, m: nat, storeOk: bool)
    requires Valid(s) && m in s.senders && s.senders[m].Picking?
    ensures Since(AfterPicking(s, m, storeOk), m, s.changes)
  {
    hide ResultsSound, OutboxSound, SentSound, SendersSound, ResultsKept, HandlersSound, AnswersSound, TasksSound,
         RanSound, OneRunner, NoneForgotten, SpawnedOnce, DocIdsSound, StaysSound;
  }

  lemma {:induction false} SenderKeepsItsCount(states: seq<State>, actions: seq<Action>, i: nat, j: nat, m: nat,
                                               storeOk: bool)
    requires Run(states, actions) && Valid(states[0]) && i < j < |states| && actions[i] == Transmit(m, Pick(storeOk))
    ensures Since(states[j], m, states[i].changes)
  {
    if i + 1 < j {
      hide Valid, Step, Enabled, Since;
      SenderKeepsItsCount(states, actions, i, j - 1, m, storeOk);
      StepKeepsSince(states[j - 1], actions[j - 1], m, states[i].changes);
    } else {
      hide Valid;
      RunsAreValid(states, actions, i);
      PickSetsSince(states[i], m, storeOk);
    }
  }

  lemma StepClears(s: State, a: Action, m: nat)
    requires Enabled(s, a) && m < s.next && m in Step(s, a).senders && Step(s, a).senders[m].Cleared()
    ensures (m in s.senders && s.senders[m].Cleared()) || (m in s.senders && a == Transmit(m, Flush(true)))
  {
    hide AfterHandling, AfterPerforming, AfterTransmitting, AfterHearing, CanHandle, CanPerform, CanTransmit, CanHear;
    match a
    case Handle(n, move) => HandlingSenders(s, n, move);
    case Perform(t, move) => PerformingSenders(s, t, move);
    case Hear(answer) => HearingSenders(s, answer);
    case Transmit(k, move) => TransmittingSenders(s, k, move);
    case _ =>
  }

  /** Between the `i`th moment and the `j`th a flush was passed for sender `m`. */
  ghost predicate FlushedBetween(actions: seq<Action>, i: nat, j: nat, m: nat, k: nat) {
    i < k < j <= |actions| && actions[k] == Transmit(m, Flush(true))
  }

  lemma PickClearsNothing(states: seq<State>, actions: seq<Action>, i: nat, m: nat, storeOk: bool)
    requires Run(states, actions) && i < |actions| && actions[i] == Transmit(m, Pick(storeOk))
    ensures m in states[i + 1].senders ==> !states[i + 1].senders[m].Cleared()
  {
    assert Enabled(states[i], actions[i]);
    PickSends(states[i], m, storeOk);
  }

  lemma SenderIsKnown(states: seq<State>, actions: seq<Action>, i: nat, j: nat, m: nat, storeOk: bool)
    requires Run(states, actions) && Valid(states[0]) && i < j < |states| && actions[i] == Transmit(m, Pick(storeOk))
    ensures m < states[j].next
  {
    SenderKeepsItsCount(states, actions, i, j, m, storeOk);
  }

  lemma {:induction false} ClearedWasFlushed(states: seq<State>, actions: seq<Action>, i: nat, j: nat, m: nat,
                                             storeOk: bool) returns (k: nat)
    requires Run(states, actions) && Valid(states[0]) && i < j < |states| && actions[i] == Transmit(m, Pick(storeOk))
    requires m in states[j].senders && states[j].senders[m].Cleared()
    ensures FlushedBetween(actions, i, j, m, k)
  {
    hide Valid, Step, Enabled;
    k := 0;
    var s, a := states[j - 1], actions[j - 1];
    if i + 1 < j {
      SenderIsKnown(states, actions, i, j - 1, m, storeOk);
      StepClears(s, a, m);
      if m in s.senders && s.senders[m].Cleared() {
        k := ClearedWasFlushed(states, actions, i, j - 1, m, storeOk);
      } else {
        k := j - 1;
      }
    } else {
      PickClearsNothing(states, actions, i, m, storeOk);
    }
  }

  /** When a flush is passed for a sender picked at `i`, the changes made before that are settled. */
  lemma FlushSettles(states: seq<State>, actions: seq<Action>, i: nat, k: nat, m: nat, storeOk: bool)
    requires Run(states, actions) && Valid(states[0]) && i < k < |actions|
    requires actions[i] == Transmit(m, Pick(storeOk)) && actions[k] == Transmit(m, Flush(true))
    ensures states[i].changes <= states[k].settled
  {
    hide ResultsSound, OutboxSound, SentSound, ResultsKept, HandlersSound, AnswersSound, TasksSound, RanSound,
         OneRunner, NoneForgotten, SpawnedOnce, DocIdsSound, Numbered, StaysSound;
    SenderKeepsItsCount(states, actions, i, k, m, storeOk);
    RunsAreValid(states, actions, k);
    assert Enabled(states[k], actions[k]);
    assert SenderSound(states[k].senders[m], states[k].past.recorded, states[k].changes, states[k].settled);
  }

  /** How many changes to mirrored records there are among `actions`. */
  ghost function ChangesAmong(actions: seq<Action>): nat {
    if |actions| == 0 then 0
    else ChangesAmong(actions[..|actions| - 1]) + if actions[|actions| - 1] == ChangeMirrored then 1 else 0
  }

  lemma StepCountsChanges(s: State, a: Action)
    requires Enabled(s, a)
    ensures Step(s, a).changes == s.changes + if a == ChangeMirrored then 1 else 0
  {
    match a
    case Handle(n, move) => HandlingChangesNothing(s, n, move);
    case Perform(t, move) => assert AfterPerforming(s, t, move).changes == s.changes;
    case Transmit(m, move) => TransmittingChangesNothing(s, m, move);
    case Hear(answer) => HearingChangesNothing(s, answer);
    case _ =>
  }

  lemma HandlingChangesNothing(s: State, n: nat, move: HandlerMove)
    requires CanHandle(s, n, move)
    ensures AfterHandling(s, n, move).changes == s.changes
  {
  }

  lemma TransmittingChangesNothing(s: State, m: nat, move: SenderMove)
    requires CanTransmit(s, m, move)
    ensures AfterTransmitting(s, m, move).changes == s.changes
  {
  }

  lemma HearingChangesNothing(s: State, answer: Answer)
    requires CanHear(s, answer)
    ensures AfterHearing(s, answer).changes == s.changes
  {
  }

  lemma {:induction false} ChangesAreCounted(states: seq<State>, actions: seq<Action>, i: nat)
    requires Run(states, actions) && states[0] == Initial() && i <= |actions|
    ensures states[i].changes == ChangesAmong(actions[..i])
  {
    hide Step, Enabled;
    if i > 0 {
      ChangesAreCounted(states, actions, i - 1);
      StepCountsChanges(states[i - 1], actions[i - 1]);
      assert actions[..i][..i - 1] == actions[..i - 1];
    }
  }

  /** MAIN RESULT. State before report: between the start of a document's sending and its going out, in every
      interleaving, there is a moment at which the mirror's flush was passed for it, with every change made before
      the sending began dealt with. `BridgeTasks.ReportsFollowTheRemote` says what the remote held then. */
  lemma StateBeforeReport(states: seq<State>, actions: seq<Action>, i: nat, j: nat, m: nat, storeOk: bool)
    returns (k: nat)
    requires Run(states, actions) && states[0] == Initial() && i < j < |actions|
    requires actions[i] == Transmit(m, Pick(storeOk)) && actions[j] == Transmit(m, Send)
    ensures FlushedBetween(actions, i, j, m, k)
    ensures ChangesAmong(actions[..i]) <= states[k].settled == ChangesAmong(actions[..k])
  {
    NothingHasHappened();
    hide Valid;
    ChangesAreCounted(states, actions, i);
    assert Enabled(states[j], actions[j]);
    k := ClearedWasFlushed(states, actions, i, j, m, storeOk);
    FlushSettles(states, actions, i, k, m, storeOk);
    ChangesAreCounted(states, actions, k);
    assert Enabled(states[k], actions[k]);
  }

  // ---- Events of orphaned namespaces ----

  /** At some moment before the `j`th, sender `m` was screened: its namespace was not orphaned then, unless the
      store could not say. */
  ghost predicate ScreenedBefore(states: seq<State>, actions: seq<Action>, j: nat, m: nat, about: Option<string>)
    requires |states| == |actions| + 1 && j < |states|
  {
    exists i, storeOk, deleteOk :: 0 <= i < j && actions[i] == Transmit(m, Screen(storeOk, deleteOk))
      && (about.Some? && storeOk ==> about.value !in states[i].orphaned)
  }

  lemma StepKeepsScreening(s: State, a: Action, m: nat)
    requires Enabled(s, a) && m in Step(s, a).senders && Step(s, a).senders[m].Screened()
    ensures (m in s.senders && s.senders[m].Screened() && s.senders[m].about == Step(s, a).senders[m].about)
            || (a.Transmit? && a.m == m && a.sending.Screen?
                && (Step(s, a).senders[m].about.Some? && a.sending.storeOk ==>
                      Step(s, a).senders[m].about.value !in s.orphaned))
  {
    hide AfterHandling, AfterPerforming, AfterTransmitting, AfterHearing, CanHandle, CanPerform, CanTransmit, CanHear;
    match a
    case Handle(n, move) => HandlingSenders(s, n, move);
    case Perform(t, move) => PerformingSenders(s, t, move);
    case Hear(answer) => HearingSenders(s, answer);
    case Transmit(k, move) => TransmittingSenders(s, k, move);
    case _ =>
  }

  /** MAIN RESULT. Whatever is on its way to be sent, or is sent, was looked at once more after it was read from the
      outbox: an event of a namespace orphaned by then goes no further. */
  lemma {:induction false} NothingPassesUnscreened(states: seq<State>, actions: seq<Action>, j: nat, m: nat)
    requires Run(states, actions) && states[0] == Initial() && j < |states|
    requires m in states[j].senders && states[j].senders[m].Screened()
    ensures ScreenedBefore(states, actions, j, m, states[j].senders[m].about)
  {
    hide Step, Enabled;
    assert j > 0;
    var s, a := states[j - 1], actions[j - 1];
    StepKeepsScreening(s, a, m);
    if m in s.senders && s.senders[m].Screened() && s.senders[m].about == states[j].senders[m].about {
      NothingPassesUnscreened(states, actions, j - 1, m);
    } else {
      assert a == Transmit(m, Screen(a.sending.storeOk, a.sending.deleteOk));
    }
  }

  ghost predicate Reachable(s: State) {
    exists states, actions :: Run(states, actions) && states[0] == Initial() && states[|actions|] == s
  }

  lemma StepIsReachable(s: State, a: Action, t: State)
    requires Reachable(s) && Enabled(s, a) && t == Step(s, a)
    ensures Reachable(t)
  {
    hide Step, Enabled, Initial;
    var states, actions :| Run(states, actions) && states[0] == Initial() && states[|actions|] == s;
    assert Run(states + [t], actions + [a]);
    assert (states + [t])[|actions + [a]|] == t;
  }

  /** The state of a bridge with one namespace "n", one event "e" of it in the outbox, sent or about to be in the
      document "d", and another sender at work. */
  function OneEvent(docIds: seq<string>, sender: Sender, other: Sender): State {
    State(map[], map[EventKey("e") := OutboxEntry(Some("n"), "p", docIds, |docIds|)], {"n"}, {}, map[], map[],
          map[0 := sender, 1 := other], 2, 0, 0, Initial().past.(docIds := set d | d in docIds))
  }

  lemma OneEventIsPosted()
    ensures Reachable(OneEvent([], Picking(EventKey("e")), Announcing(EventKey("f"), "q", Some("n"))))
  {
    var none: seq<Action> := [];
    assert Run([Initial()], none) && [Initial()][|none|] == Initial();
    var s0 := AfterBinding(Initial(), "n");
    StepIsReachable(Initial(), Bind("n"), s0);
    var s1 := AfterEvent(s0, "e", "n", "p", true);
    StepIsReachable(s0, QueueEvent("e", "n", "p", true), s1);
    var s2 := AfterEvent(s1, "f", "n", "q", true);
    StepIsReachable(s1, QueueEvent("f", "n", "q", true), s2);
    var s3 := OneEvent([], Picking(EventKey("e")), Announcing(EventKey("f"), "q", Some("n")));
    StepIsReachable(s2, Transmit(0, Post(true)), s3);
  }

  lemma OneEventMoves(p: Sender, q: Sender, other: Sender, move: SenderMove)
    requires Reachable(OneEvent([], p, other)) && CanTransmit(OneEvent([], p, other), 0, move)
    requires AfterTransmitting(OneEvent([], p, other), 0, move) == OneEvent([], q, other)
    ensures Reachable(OneEvent([], q, other))
  {
    StepIsReachable(OneEvent([], p, other), Transmit(0, move), OneEvent([], q, other));
  }

  lemma OneEventIsScreened()
    ensures Reachable(OneEvent([], Flushing(EventKey("e"), "p", Some("n"), 0),
                               Announcing(EventKey("f"), "q", Some("n"))))
  {
    var e, other := EventKey("e"), Announcing(EventKey("f"), "q", Some("n"));
    OneEventIsPosted();
    OneEventMoves(Picking(e), Screening(e, "p", Some("n"), 0), other, Pick(true));
    OneEventMoves(Screening(e, "p", Some("n"), 0), Flushing(e, "p", Some("n"), 0), other, Screen(true, true));
  }

  lemma OneEventIsSigned()
    ensures Reachable(OneEvent(["d"], Sending(EventKey("e"), "p", Some("n"), 0, "d"),
                               Announcing(EventKey("f"), "q", Some("n"))))
  {
    hide Reachable;
    var e, other := EventKey("e"), Announcing(EventKey("f"), "q", Some("n"));
    OneEventIsScreened();
    OneEventMoves(Flushing(e, "p", Some("n"), 0), Signing(e, "p", Some("n"), 0), other, Flush(true));
    var s := OneEvent([], Signing(e, "p", Some("n"), 0), other);
    var t := OneEvent(["d"], Sending(e, "p", Some("n"), 0, "d"), other);
    assert LastIds([] + ["d"]) == ["d"];
    assert AfterSigning(s, 0, Some("d")).outbox == t.outbox && AfterSigning(s, 0, Some("d")).senders == t.senders;
    assert AfterSigning(s, 0, Some("d")).past.docIds == t.past.docIds;
    StepIsReachable(s, Transmit(0, Sign(Some("d"))), t);
  }

  /** That look is needed: an event announced before its namespace was orphaned can be put in the outbox after. And it
      is all there is: what passed it before can be sent after. */
  lemma EventsOutliveTheirNamespace() returns (s: State, t: State)
    ensures Reachable(s) && "n" in s.orphaned && EventKey("f") in s.outbox
    ensures s.outbox[EventKey("f")].namespace == Some("n")
    ensures Reachable(t) && "n" in t.orphaned && (EventKey("e"), "p") in t.past.sent
  {
    OneEventIsSigned();
    var e, f := EventKey("e"), EventKey("f");
    var s0 := OneEvent(["d"], Sending(e, "p", Some("n"), 0, "d"), Announcing(f, "q", Some("n")));
    assert Threads(s0.outbox, e, "d");
    var refusal := RefuseDocument(UnknownNamespace, Some(e), "d", Faults(true, true, true, {}));
    var s1 := Step(s0, Hear(refusal));
    StepIsReachable(s0, Hear(refusal), s1);
    s := Step(s1, Transmit(1, Post(true)));
    StepIsReachable(s1, Transmit(1, Post(true)), s);
    t := Step(s, Transmit(0, Send));
    StepIsReachable(s, Transmit(0, Send), t);
  }
}
