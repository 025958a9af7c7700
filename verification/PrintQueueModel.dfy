/** The receipt print queue between its await points.

    One action per stretch of code that runs without yielding: a call arriving, a timer firing, a
    snapshot being serialized or renamed, the transport answering. `Restart` is a crash at any
    moment followed by loading the last snapshot. */
module PrintQueueModel {
  import opened Wrappers

  type Id = nat
  type ProcId = nat

  datatype Status = Pending | Accepted | Spooled | Sent | Printed | Error | Unknown

  datatype Job = Job(key: string, status: Status, attempts: int)

  type Jobs = map<Id, Job>

  /** The statuses `process` does not refuse. */
  predicate Sendable(status: Status) {
    status !in {Printed, Unknown, Accepted, Spooled}
  }

  predicate Handed(status: Status) {
    status in {Accepted, Spooled}
  }

  /** What a transport may report. */
  type Report = s: Status | s in {Accepted, Spooled, Printed, Error, Unknown} witness Printed

  /** How a send ends: with a report, with an ordinary error, or with an UnknownPrintError. */
  datatype Outcome = Returned(status: Report) | Threw | ThrewUnknown

  datatype Resolution = ConfirmNotPrinted | ConfirmPrinted | Cancel

  /** Where a call of `process` past its guard is waiting: for the snapshot before the send, for the
      transport, for the snapshot of the result, or for the snapshot in its catch block. A snapshot is
      named by its place in the queue of writes. */
  datatype Stage = Saving(ticket: nat) | Sending | SavingResult(ticket: nat, result: Report)
      | SavingFailure(ticket: nat)

  datatype Proc = Proc(id: Id, stage: Stage)

  /** Where a call of `monitor` is waiting; `attempt` counts its loop. */
  datatype Watch = Sleeping(attempt: nat) | Querying(attempt: nat) | SavingStatus(attempt: nat, ticket: nat)
      | SavingLast(ticket: nat)

  /** What happened to one job over all restarts: sends started, sends that ended in an ordinary error,
      resolutions applied, and repeated `enqueue` calls. */
  datatype Tally = Tally(started: nat, blank: nat, notPrinted: nat, canceled: nat, reenqueued: nat)

  /** Sends that may have put something on paper. */
  function MayHavePrinted(t: Tally): int {
    t.started - t.blank
  }

  /** The jobs in memory, and the writes of their snapshots. Writes are named 1, 2, ... as they are
      requested: `issued` were, `done` are on disk, and `temp` is the next one once it is serialized.
      After a failed write (`broken`) every later one fails too. */
  datatype Store = Store(jobs: Jobs, tally: map<Id, Tally>, issued: nat, done: nat, temp: Option<Jobs>, broken: bool,
      disk: Jobs)

  /** `calls`, `monitorCalls`: calls of `process` and `monitor` that have not reached their guard.
      `adds`: calls of `enqueue` awaiting the snapshot of their new job. */
  datatype Queue = Queue(
    max: int, store: Store, active: set<Id>, retryAfterActive: set<Id>, retryTimers: multiset<Id>,
    calls: multiset<Id>, adds: map<Id, nat>, procs: map<ProcId, Proc>,
    monitorCalls: multiset<Id>, monitoring: map<Id, Watch>)

  datatype Action =
    | Add(newId: Id, key: string)
    | AddAgain(id: Id)
    | Added(id: Id)
    | TimerFires(id: Id)
    | Process(id: Id, p: ProcId)
    | StartSend(p: ProcId)
    | SendEnds(p: ProcId, outcome: Outcome)
    | Finish(p: ProcId)
    | SaveFails(p: ProcId)
    | Monitor(id: Id)
    | Wake(id: Id, hasQuery: bool)
    | QueryEnds(id: Id, report: Report)
    | WatchEnds(id: Id)
    | Resolve(id: Id, resolution: Resolution)
    | Serialize
    | Rename
    | WriteFails
    | Restart

  predicate HasKey(jobs: Jobs, key: string) {
    exists id :: id in jobs && jobs[id].key == key
  }

  function TallyOf(st: Store, id: Id): Tally {
    if id in st.tally then st.tally[id] else Tally(0, 0, 0, 0, 0)
  }

  /** A job is changed, and what happened to it recorded. */
  function Put(st: Store, id: Id, job: Job, t: Tally): Store {
    st.(jobs := st.jobs[id := job], tally := st.tally[id := t])
  }

  /** Only the status of a job changes. */
  function SetStatus(st: Store, id: Id, status: Status): Store
    requires id in st.jobs
  {
    Put(st, id, st.jobs[id].(status := status), TallyOf(st, id))
  }

  /** `persist`: one more write is requested; its caller awaits number `issued`. */
  function Persist(st: Store): Store {
    st.(issued := st.issued + 1)
  }

  function Remove(m: multiset<Id>, id: Id): multiset<Id> {
    m - multiset{id}
  }

  predicate Resumed(st: Store, ticket: nat) {
    st.done >= ticket
  }

  /** A write that will never happen: its awaiter gets the error. */
  predicate Rejected(st: Store, ticket: nat) {
    st.broken && st.done < ticket
  }

  /** `enqueue` with a key no job has. */
  predicate CanAdd(q: Queue, newId: Id, key: string) {
    newId !in q.store.tally && newId !in q.store.jobs && !HasKey(q.store.jobs, key)
  }

  function DoAdd(q: Queue, newId: Id, key: string): Queue {
    q.(store := Persist(Put(q.store, newId, Job(key, Pending, 0), Tally(0, 0, 0, 0, 0))),
       adds := q.adds[newId := q.store.issued + 1])
  }

  /** `enqueue` with the key of job `id`. */
  function DoAddAgain(q: Queue, id: Id): Queue
    requires id in q.store.jobs
  {
    var job, t := q.store.jobs[id], TallyOf(q.store, id);
    q.(store := Put(q.store, id, job, t.(reenqueued := t.reenqueued + 1)),
       calls := if Sendable(job.status) then q.calls + multiset{id} else q.calls)
  }

  function DoAdded(q: Queue, id: Id): Queue {
    q.(adds := q.adds - {id}, calls := q.calls + multiset{id})
  }

  function DoTimerFires(q: Queue, id: Id): Queue {
    q.(retryTimers := Remove(q.retryTimers, id), calls := q.calls + multiset{id})
  }

  /** `process` up to its first snapshot. */
  predicate Starts(q: Queue, id: Id) {
    id in q.store.jobs && id !in q.active && Sendable(q.store.jobs[id].status)
  }

  function DoProcess(q: Queue, id: Id, p: ProcId): Queue {
    if !Starts(q, id) then q.(calls := Remove(q.calls, id)) else
    var job := q.store.jobs[id];
    q.(calls := Remove(q.calls, id), active := q.active + {id},
       store := Persist(Put(q.store, id, job.(attempts := job.attempts + 1, status := Accepted), TallyOf(q.store, id))),
       procs := q.procs[p := Proc(id, Saving(q.store.issued + 1))])
  }

  predicate CanStartSend(q: Queue, p: ProcId) {
    && p in q.procs && q.procs[p].stage.Saving? && Resumed(q.store, q.procs[p].stage.ticket)
    && q.procs[p].id in q.store.jobs
  }

  function DoStartSend(q: Queue, p: ProcId): Queue
    requires CanStartSend(q, p)
  {
    var id := q.procs[p].id;
    var t := TallyOf(q.store, id);
    q.(procs := q.procs[p := Proc(id, Sending)],
      store := Put(q.store, id, q.store.jobs[id], t.(started := t.started + 1)))
  }

  /** Ordinary errors, thrown or reported, mean that nothing was printed. */
  predicate Blank(outcome: Outcome) {
    outcome == Threw || outcome == Returned(Error)
  }

  function EndStatus(outcome: Outcome): Status {
    match outcome
    case Returned(status) => status
    case Threw => Error
    case ThrewUnknown => Unknown
  }

  predicate CanSendEnd(q: Queue, p: ProcId) {
    p in q.procs && q.procs[p].stage.Sending? && q.procs[p].id in q.store.jobs
  }

  function DoSendEnds(q: Queue, p: ProcId, outcome: Outcome): Queue
    requires CanSendEnd(q, p)
  {
    var id, ticket := q.procs[p].id, q.store.issued + 1;
    var t := TallyOf(q.store, id);
    var t' := if Blank(outcome) then t.(blank := t.blank + 1) else t;
    q.(store := Persist(Put(q.store, id, q.store.jobs[id].(status := EndStatus(outcome)), t')),
       procs := q.procs[p := Proc(id, if outcome.Returned? then SavingResult(ticket, outcome.status)
         else SavingFailure(ticket))])
  }

  /** The `finally` block of `process`. */
  function Leave(q: Queue, p: ProcId): Queue
    requires p in q.procs
  {
    var id := q.procs[p].id;
    q.(active := q.active - {id}, procs := q.procs - {p}, retryAfterActive := q.retryAfterActive - {id},
       calls := if id in q.retryAfterActive then q.calls + multiset{id} else q.calls)
  }

  predicate CanFinish(q: Queue, p: ProcId) {
    && p in q.procs && (q.procs[p].stage.SavingResult? || q.procs[p].stage.SavingFailure?)
    && Resumed(q.store, q.procs[p].stage.ticket) && q.procs[p].id in q.store.jobs
  }

  /** The rest of `process` after its last snapshot was written. */
  function DoFinish(q: Queue, p: ProcId): Queue
    requires CanFinish(q, p)
  {
    var id, stage := q.procs[p].id, q.procs[p].stage;
    var job := q.store.jobs[id];
    Leave(q, p).(
      monitorCalls := if stage.SavingResult? && Handed(stage.result) then q.monitorCalls + multiset{id}
        else q.monitorCalls,
      retryTimers := if stage.SavingFailure? && job.status == Error && job.attempts < q.max
                     then q.retryTimers + multiset{id} else q.retryTimers)
  }

  predicate CanSaveFail(q: Queue, p: ProcId) {
    p in q.procs && !q.procs[p].stage.Sending? && Rejected(q.store, q.procs[p].stage.ticket)
      && q.procs[p].id in q.store.jobs
  }

  /** A snapshot of `process` is rejected: outside its catch block the error leads into it, and the
      snapshot there is rejected too. */
  function DoSaveFails(q: Queue, p: ProcId): Queue
    requires CanSaveFail(q, p)
  {
    if q.procs[p].stage.SavingFailure? then Leave(q, p)
    else Leave(q, p).(store := Persist(SetStatus(q.store, q.procs[p].id, Error)))
  }

  function DoMonitor(q: Queue, id: Id): Queue {
    q.(monitorCalls := Remove(q.monitorCalls, id),
       monitoring := if id in q.monitoring then q.monitoring else q.monitoring[id := Sleeping(0)])
  }

  const WATCH_LIMIT: nat := 20

  predicate CanWake(q: Queue, id: Id) {
    id in q.monitoring && q.monitoring[id].Sleeping?
  }

  function DoWake(q: Queue, id: Id, hasQuery: bool): Queue
    requires CanWake(q, id)
  {
    if id !in q.store.jobs || q.store.jobs[id].status in {Printed, Error, Unknown} || !hasQuery then
      q.(monitoring := q.monitoring - {id})
    else q.(monitoring := q.monitoring[id := Querying(q.monitoring[id].attempt)])
  }

  predicate CanQueryEnd(q: Queue, id: Id) {
    id in q.monitoring && q.monitoring[id].Querying? && id in q.store.jobs
  }

  function DoQueryEnds(q: Queue, id: Id, report: Report): Queue
    requires CanQueryEnd(q, id)
  {
    var ticket := q.store.issued + 1;
    q.(store := Persist(SetStatus(q.store, id, report)),
       monitoring := q.monitoring[id := if Handed(report) then SavingStatus(q.monitoring[id].attempt, ticket)
         else SavingLast(ticket)])
  }

  /** A watch's snapshot is written or rejected, or its query fails. */
  predicate CanWatchEnd(q: Queue, id: Id) {
    && id in q.monitoring
    && match q.monitoring[id]
       case Sleeping(_) => false
       case Querying(_) => true
       case SavingStatus(_, ticket) => Resumed(q.store, ticket) || Rejected(q.store, ticket)
       case SavingLast(ticket) => Resumed(q.store, ticket) || Rejected(q.store, ticket)
  }

  /** The watch sleeps again, gives up after its last round, or ends. */
  function DoWatchEnds(q: Queue, id: Id): Queue
    requires CanWatchEnd(q, id)
  {
    var w := q.monitoring[id];
    if !w.SavingStatus? || !Resumed(q.store, w.ticket) then q.(monitoring := q.monitoring - {id})
    else if w.attempt + 1 < WATCH_LIMIT then q.(monitoring := q.monitoring[id := Sleeping(w.attempt + 1)])
    else if id in q.store.jobs && Handed(q.store.jobs[id].status) then
      q.(store := Persist(SetStatus(q.store, id, Unknown)),
        monitoring := q.monitoring[id := SavingLast(q.store.issued + 1)])
    else q.(monitoring := q.monitoring - {id})
  }

  predicate CanResolve(q: Queue, id: Id) {
    id in q.store.jobs && q.store.jobs[id].status == Unknown
  }

  /** `resolve` of a job whose outcome is unknown; it returns any other job as it is. */
  function DoResolve(q: Queue, id: Id, resolution: Resolution): Queue
    requires CanResolve(q, id)
  {
    var t := TallyOf(q.store, id);
    match resolution
    case ConfirmPrinted => q.(store := Persist(SetStatus(q.store, id, Printed)))
    case Cancel =>
      q.(store := Persist(Put(q.store, id, q.store.jobs[id].(status := Error), t.(canceled := t.canceled + 1))))
    case ConfirmNotPrinted =>
      q.(store := Persist(Put(q.store, id, q.store.jobs[id].(status := Pending, attempts := 0),
        t.(notPrinted := t.notPrinted + 1))),
         retryAfterActive := if id in q.active then q.retryAfterActive + {id} else q.retryAfterActive,
         calls := if id in q.active then q.calls else q.calls + multiset{id})
  }

  /** A write serializes the jobs as they are when its turn comes, and then replaces the file. */
  predicate CanSerialize(q: Queue) {
    !q.store.broken && q.store.done < q.store.issued && q.store.temp.None?
  }

  function DoSerialize(q: Queue): Queue {
    q.(store := q.store.(temp := Some(q.store.jobs)))
  }

  predicate CanRename(q: Queue) {
    !q.store.broken && q.store.temp.Some?
  }

  function DoRename(q: Queue): Queue
    requires CanRename(q)
  {
    q.(store := q.store.(disk := q.store.temp.value, temp := None, done := q.store.done + 1))
  }

  function DoWriteFails(q: Queue): Queue {
    q.(store := q.store.(broken := true, temp := None))
  }

  /** The jobs that `load` hands to `process`. */
  function ToResume(jobs: Jobs, max: int): set<Id> {
    set id | id in jobs && Sendable(jobs[id].status) && jobs[id].attempts < max
  }

  function ToWatch(jobs: Jobs): set<Id> {
    set id | id in jobs && Handed(jobs[id].status)
  }

  function ResumeCalls(jobs: Jobs, max: int): multiset<Id> {
    multiset(ToResume(jobs, max))
  }

  function WatchCalls(jobs: Jobs): multiset<Id> {
    multiset(ToWatch(jobs))
  }

  function DoRestart(q: Queue): Queue {
    Queue(q.max, Store(q.store.disk, q.store.tally, 0, 0, None, false, q.store.disk), {}, {}, multiset{},
          ResumeCalls(q.store.disk, q.max), map[], map[], WatchCalls(q.store.disk), map[])
  }

  predicate Enabled(q: Queue, a: Action) {
    match a
    case Add(newId, key) => CanAdd(q, newId, key)
    case AddAgain(id) => id in q.store.jobs
    case Added(id) => id in q.adds && Resumed(q.store, q.adds[id])
    case TimerFires(id) => id in q.retryTimers
    case Process(id, p) => id in q.calls && p !in q.procs
    case StartSend(p) => CanStartSend(q, p)
    case SendEnds(p, _) => CanSendEnd(q, p)
    case Finish(p) => CanFinish(q, p)
    case SaveFails(p) => CanSaveFail(q, p)
    case Monitor(id) => id in q.monitorCalls
    case Wake(id, _) => CanWake(q, id)
    case QueryEnds(id, _) => CanQueryEnd(q, id)
    case WatchEnds(id) => CanWatchEnd(q, id)
    case Resolve(id, _) => CanResolve(q, id)
    case Serialize => CanSerialize(q)
    case Rename => CanRename(q)
    case WriteFails => !q.store.broken && q.store.done < q.store.issued
    case Restart => true
  }

  function Next(q: Queue, a: Action): Queue
    requires Enabled(q, a)
  {
    match a
    case Add(newId, key) => DoAdd(q, newId, key)
    case AddAgain(id) => DoAddAgain(q, id)
    case Added(id) => DoAdded(q, id)
    case TimerFires(id) => DoTimerFires(q, id)
    case Process(id, p) => DoProcess(q, id, p)
    case StartSend(p) => DoStartSend(q, p)
    case SendEnds(p, outcome) => DoSendEnds(q, p, outcome)
    case Finish(p) => DoFinish(q, p)
    case SaveFails(p) => DoSaveFails(q, p)
    case Monitor(id) => DoMonitor(q, id)
    case Wake(id, hasQuery) => DoWake(q, id, hasQuery)
    case QueryEnds(id, report) => DoQueryEnds(q, id, report)
    case WatchEnds(id) => DoWatchEnds(q, id)
    case Resolve(id, resolution) => DoResolve(q, id, resolution)
    case Serialize => DoSerialize(q)
    case Rename => DoRename(q)
    case WriteFails => DoWriteFails(q)
    case Restart => DoRestart(q)
  }

  predicate IsRun(q: Queue, run: seq<Action>)
    decreases |run|
  {
    run == [] || (Enabled(q, run[0]) && IsRun(Next(q, run[0]), run[1..]))
  }

  function Exec(q: Queue, run: seq<Action>): Queue
    requires IsRun(q, run)
    decreases |run|
  {
    if run == [] then q else Exec(Next(q, run[0]), run[1..])
  }

  /** A process that has just loaded an empty file. */
  function Fresh(max: int): Queue {
    Queue(max, Store(map[], map[], 0, 0, None, false, map[]), {}, {}, multiset{}, multiset{}, map[], map[], multiset{},
      map[])
  }
}
