/** The print queue's calls, watches and snapshots fit together in every run, whatever the transport does. */
module PrintQueueShape {
  import opened Wrappers
  import opened PrintQueueModel

  // ----- the invariant

  predicate Recorded(jobs: Jobs, tally: map<Id, Tally>) {
    jobs.Keys <= tally.Keys
  }

  /** No two jobs have the same idempotency key. */
  ghost predicate OneJobPerKey(jobs: Jobs) {
    forall i, j :: i in jobs && j in jobs && i != j ==> jobs[i].key != jobs[j].key
  }

  ghost predicate JobsOk(jobs: Jobs, tally: map<Id, Tally>) {
    Recorded(jobs, tally) && OneJobPerKey(jobs)
  }

  ghost predicate StoreOk(st: Store) {
    && JobsOk(st.jobs, st.tally) && JobsOk(st.disk, st.tally) && (st.temp.Some? ==> JobsOk(st.temp.value, st.tally))
    && st.done <= st.issued && (st.temp.Some? ==> !st.broken && st.done < st.issued)
  }

  predicate AcceptedIn(jobs: Jobs, id: Id) {
    id in jobs && jobs[id].status == Accepted
  }

  /** What a call of `process` past its guard relies on. Before a send the snapshot it waits for
      says that the job was handed over. */
  ghost predicate ProcOk(st: Store, proc: Proc) {
    var id := proc.id;
    && id in st.jobs && id in st.tally
    && match proc.stage
       case Saving(ticket) =>
         && st.jobs[id].status == Accepted && 0 < ticket <= st.issued
         && (st.done >= ticket ==> AcceptedIn(st.disk, id))
         && (st.temp.Some? && st.done + 1 >= ticket ==> AcceptedIn(st.temp.value, id))
       case Sending =>
         st.jobs[id].status == Accepted && AcceptedIn(st.disk, id) && (st.temp.Some? ==> AcceptedIn(st.temp.value, id))
       case SavingResult(ticket, result) =>
         && ticket <= st.issued && st.jobs[id].status in {result, Pending, Printed, Error}
         && (result != Unknown ==> st.jobs[id].status == result)
       case SavingFailure(ticket) =>
         ticket <= st.issued && st.jobs[id].status in {Pending, Printed, Error, Unknown}
  }

  ghost predicate ProcsOk(st: Store, procs: map<ProcId, Proc>) {
    forall p :: p in procs ==> ProcOk(st, procs[p])
  }

  /** The active set is the jobs of the calls past their guard, one call a job. */
  ghost predicate ActiveOk(procs: map<ProcId, Proc>, active: set<Id>) {
    && (forall p :: p in procs ==> procs[p].id in active)
    && (forall p, r :: p in procs && r in procs && p != r ==> procs[p].id != procs[r].id)
    && (forall id :: id in active ==> exists p :: p in procs && procs[p].id == id)
  }

  /** The watches of a job that may still write its status. */
  function Watches(monitorCalls: multiset<Id>, monitoring: map<Id, Watch>, id: Id): nat {
    monitorCalls[id] + if id in monitoring && !monitoring[id].SavingLast? then 1 else 0
  }

  /** There is at most one, and only while the job is handed over and no `process` call has it. */
  ghost predicate WatchOk(watches: nat, jobs: Jobs, active: set<Id>, id: Id) {
    watches > 0 ==> watches == 1 && id in jobs && Handed(jobs[id].status) && id !in active
  }

  ghost predicate WatchesOk(q: Queue) {
    forall id :: WatchOk(Watches(q.monitorCalls, q.monitoring, id), q.store.jobs, q.active, id)
  }

  ghost predicate Inv(q: Queue) {
    StoreOk(q.store) && ProcsOk(q.store, q.procs) && ActiveOk(q.procs, q.active) && WatchesOk(q)
  }

  // ----- what is stored

  /** A new state of a job, old or new, whose key no other job has. */
  lemma PutStored(st: Store, id: Id, job: Job, t: Tally)
    requires StoreOk(st) && (id in st.jobs ==> job.key == st.jobs[id].key)
    requires id !in st.jobs ==> !HasKey(st.jobs, job.key)
    ensures StoreOk(Put(st, id, job, t)) && StoreOk(Persist(Put(st, id, job, t)))
  {
  }

  // ----- one process call a job

  lemma Enter(procs: map<ProcId, Proc>, active: set<Id>, p: ProcId, proc: Proc)
    requires ActiveOk(procs, active) && p !in procs && proc.id !in active
    ensures ActiveOk(procs[p := proc], active + {proc.id})
  {
    var procs' := procs[p := proc];
    forall id | id in active + {proc.id} ensures exists r :: r in procs' && procs'[r].id == id {
      if id == proc.id { assert procs'[p].id == id; }
      else { var r :| r in procs && procs[r].id == id; assert procs'[r].id == id; }
    }
  }

  lemma ChangeStage(procs: map<ProcId, Proc>, active: set<Id>, p: ProcId, proc: Proc)
    requires ActiveOk(procs, active) && p in procs && proc.id == procs[p].id
    ensures ActiveOk(procs[p := proc], active)
  {
    var procs' := procs[p := proc];
    forall id | id in active ensures exists r :: r in procs' && procs'[r].id == id {
      var r :| r in procs && procs[r].id == id;
      assert procs'[r].id == id;
    }
  }

  lemma LeaveActive(procs: map<ProcId, Proc>, active: set<Id>, p: ProcId)
    requires ActiveOk(procs, active) && p in procs
    ensures ActiveOk(procs - {p}, active - {procs[p].id})
  {
    var procs' := procs - {p};
    forall id | id in active - {procs[p].id} ensures exists r :: r in procs' && procs'[r].id == id {
      var r :| r in procs && procs[r].id == id;
      assert procs'[r].id == id;
    }
  }

  // ----- what a step leaves alone

  /** Nothing but job `id`, what is recorded of it, and the number of writes requested changed. */
  ghost predicate OnlyJob(st: Store, st': Store, id: Id) {
    && st'.issued >= st.issued && st'.done == st.done && st'.temp == st.temp && st'.disk == st.disk
       && st'.broken == st.broken
    && (forall j :: j in st.jobs && j != id ==> j in st'.jobs && st'.jobs[j] == st.jobs[j])
    && (forall j :: j in st.tally && j != id ==> j in st'.tally && st'.tally[j] == st.tally[j])
  }

  lemma OtherProcs(st: Store, st': Store, id: Id, procs: map<ProcId, Proc>, active: set<Id>, p: ProcId)
    requires ProcsOk(st, procs) && ActiveOk(procs, active) && OnlyJob(st, st', id)
    requires p in procs && procs[p].id == id
    ensures forall r :: r in procs && r != p ==> ProcOk(st', procs[r])
  {
    forall r | r in procs && r != p ensures ProcOk(st', procs[r]) {
      assert ProcOk(st, procs[r]);
    }
  }

  lemma NoProc(st: Store, st': Store, id: Id, procs: map<ProcId, Proc>, active: set<Id>)
    requires ProcsOk(st, procs) && ActiveOk(procs, active) && OnlyJob(st, st', id) && id !in active
    ensures ProcsOk(st', procs)
  {
    forall r | r in procs ensures ProcOk(st', procs[r]) {
      assert ProcOk(st, procs[r]);
    }
  }

  /** A job whose record changes but not its state. */
  lemma SameProcs(st: Store, st': Store, id: Id, procs: map<ProcId, Proc>)
    requires ProcsOk(st, procs) && OnlyJob(st, st', id)
    requires id in st.jobs && id in st'.jobs && st'.jobs[id] == st.jobs[id]
    requires id in st'.tally
    ensures ProcsOk(st', procs)
  {
    hide AcceptedIn;
    forall r | r in procs ensures ProcOk(st', procs[r]) {
      assert ProcOk(st, procs[r]);
    }
  }

  /** Watches stay as they are when no job that one of them may rely on loses its status. */
  lemma KeptWatches(q: Queue, q': Queue, id: Id)
    requires WatchesOk(q) && OnlyJob(q.store, q'.store, id) && q'.active <= q.active + {id}
    requires q'.monitorCalls == q.monitorCalls && q'.monitoring == q.monitoring
    requires id in q.store.jobs && Handed(q.store.jobs[id].status) && id !in q.active ==>
               id in q'.store.jobs && Handed(q'.store.jobs[id].status) && id !in q'.active
    ensures WatchesOk(q')
  {
    hide Watches;
  }

  /** The watches of job `id` change, and at most one may still write, for a job handed over. */
  lemma OneWatch(q: Queue, q': Queue, id: Id)
    requires WatchesOk(q) && OnlyJob(q.store, q'.store, id) && q'.active <= q.active
    requires forall j :: j != id ==>
               Watches(q'.monitorCalls, q'.monitoring, j) == Watches(q.monitorCalls, q.monitoring, j)
    requires WatchOk(Watches(q'.monitorCalls, q'.monitoring, id), q'.store.jobs, q'.active, id)
    ensures WatchesOk(q')
  {
    hide Watches;
  }

  // ----- each action

  lemma ActiveHasJob(q: Queue)
    requires ProcsOk(q.store, q.procs) && ActiveOk(q.procs, q.active)
    ensures q.active <= q.store.jobs.Keys
  {
    forall id | id in q.active ensures id in q.store.jobs {
      var p :| p in q.procs && q.procs[p].id == id;
      assert ProcOk(q.store, q.procs[p]);
    }
  }

  lemma ProcFacts(q: Queue, p: ProcId)
    requires Inv(q) && p in q.procs
    ensures ProcOk(q.store, q.procs[p]) && q.procs[p].id in q.active
    ensures WatchOk(Watches(q.monitorCalls, q.monitoring, q.procs[p].id), q.store.jobs, q.active, q.procs[p].id)
  {
  }

  lemma StatusStored(st: Store, id: Id, status: Status)
    requires StoreOk(st) && id in st.jobs
    ensures StoreOk(SetStatus(st, id, status)) && StoreOk(Persist(SetStatus(st, id, status)))
  {
    hide StoreOk;
    PutStored(st, id, st.jobs[id].(status := status), TallyOf(st, id));
  }

  lemma AddKeeps(q: Queue, newId: Id, key: string)
    requires Inv(q) && CanAdd(q, newId, key)
    ensures Inv(DoAdd(q, newId, key))
  {
    hide StoreOk, ProcOk, ActiveOk, WatchesOk, HasKey;
    PutStored(q.store, newId, Job(key, Pending, 0), Tally(0, 0, 0, 0, 0));
    ActiveHasJob(q);
    NoProc(q.store, DoAdd(q, newId, key).store, newId, q.procs, q.active);
    KeptWatches(q, DoAdd(q, newId, key), newId);
  }

  lemma AgainStored(st: Store, id: Id)
    requires StoreOk(st) && id in st.jobs
    ensures var st' := Put(st, id, st.jobs[id], TallyOf(st, id).(reenqueued := TallyOf(st, id).reenqueued + 1));
            StoreOk(st') && OnlyJob(st, st', id)
  {
    PutStored(st, id, st.jobs[id], TallyOf(st, id).(reenqueued := TallyOf(st, id).reenqueued + 1));
  }

  lemma AddAgainKeeps(q: Queue, id: Id)
    requires Inv(q) && id in q.store.jobs
    ensures Inv(DoAddAgain(q, id))
  {
    hide StoreOk, ProcOk, ActiveOk, WatchesOk, OnlyJob;
    AgainStored(q.store, id);
    SameProcs(q.store, DoAddAgain(q, id).store, id, q.procs);
    KeptWatches(q, DoAddAgain(q, id), id);
  }

  lemma ProcessKeeps(q: Queue, id: Id, p: ProcId)
    requires Inv(q) && p !in q.procs
    ensures Inv(DoProcess(q, id, p))
  {
    hide StoreOk, ProcOk, ActiveOk, WatchesOk, OnlyJob;
    var q' := DoProcess(q, id, p);
    if Starts(q, id) {
      ProcessStored(q.store, id);
      NoProc(q.store, q'.store, id, q.procs, q.active);
      Enter(q.procs, q.active, p, q'.procs[p]);
      KeptWatches(q, q', id);
    } else {
      assert WatchesOk(q') by { KeepsWatches(q, q'); }
    }
  }

  lemma KeepsWatches(q: Queue, q': Queue)
    requires WatchesOk(q) && q'.store.jobs == q.store.jobs && q'.active == q.active
    requires q'.monitorCalls == q.monitorCalls && q'.monitoring == q.monitoring
    ensures WatchesOk(q')
  {
  }

  lemma ProcessStored(st: Store, id: Id)
    requires StoreOk(st) && id in st.jobs && Sendable(st.jobs[id].status)
    ensures var st' := Persist(Put(st, id, st.jobs[id].(attempts := st.jobs[id].attempts + 1, status := Accepted),
            TallyOf(st, id)));
            StoreOk(st') && ProcOk(st', Proc(id, Saving(st.issued + 1))) && OnlyJob(st, st', id)
  {
    PutStored(st, id, st.jobs[id].(attempts := st.jobs[id].attempts + 1, status := Accepted), TallyOf(st, id));
  }

  /** When a send starts, the snapshots already say that the job was handed over. */
  lemma StartSendStored(st: Store, proc: Proc)
    requires StoreOk(st) && ProcOk(st, proc) && proc.stage.Saving? && Resumed(st, proc.stage.ticket)
    ensures var t := TallyOf(st, proc.id);
            var st' := Put(st, proc.id, st.jobs[proc.id], t.(started := t.started + 1));
            StoreOk(st') && ProcOk(st', Proc(proc.id, Sending)) && OnlyJob(st, st', proc.id)
  {
    hide JobsOk;
    var t := TallyOf(st, proc.id);
    PutStored(st, proc.id, st.jobs[proc.id], t.(started := t.started + 1));
  }

  lemma StartSendKeeps(q: Queue, p: ProcId)
    requires Inv(q) && CanStartSend(q, p)
    ensures Inv(DoStartSend(q, p))
  {
    hide StoreOk, ProcOk, ActiveOk, WatchesOk, OnlyJob;
    StartSendStored(q.store, q.procs[p]);
    StageKeeps(q, DoStartSend(q, p), p);
  }

  /** A `process` call goes on to another stage, possibly changing its job. */
  lemma StageKeeps(q: Queue, q': Queue, p: ProcId)
    requires Inv(q) && p in q.procs && p in q'.procs && q'.procs == q.procs[p := q'.procs[p]]
    requires q'.procs[p].id == q.procs[p].id && OnlyJob(q.store, q'.store, q.procs[p].id)
    requires q'.active == q.active && q'.monitorCalls == q.monitorCalls && q'.monitoring == q.monitoring
    requires StoreOk(q'.store) && ProcOk(q'.store, q'.procs[p])
    ensures Inv(q')
  {
    hide StoreOk, ProcOk, ActiveOk, WatchesOk, OnlyJob;
    var id := q.procs[p].id;
    ProcFacts(q, p);
    OtherProcs(q.store, q'.store, id, q.procs, q.active, p);
    ChangeStage(q.procs, q.active, p, q'.procs[p]);
    KeptWatches(q, q', id);
  }

  lemma SendEndsStored(st: Store, proc: Proc, outcome: Outcome, proc': Proc)
    requires StoreOk(st) && ProcOk(st, proc) && proc.stage.Sending?
    requires proc' == Proc(proc.id, if outcome.Returned? then SavingResult(st.issued + 1, outcome.status)
             else SavingFailure(st.issued + 1))
    ensures var t := TallyOf(st, proc.id);
            var t' := if Blank(outcome) then t.(blank := t.blank + 1) else t;
            var st' := Persist(Put(st, proc.id, st.jobs[proc.id].(status := EndStatus(outcome)), t'));
            StoreOk(st') && ProcOk(st', proc') && OnlyJob(st, st', proc.id)
  {
    hide StoreOk, AcceptedIn;
    var t := TallyOf(st, proc.id);
    var t' := if Blank(outcome) then t.(blank := t.blank + 1) else t;
    PutStored(st, proc.id, st.jobs[proc.id].(status := EndStatus(outcome)), t');
  }

  lemma SendEndsKeeps(q: Queue, p: ProcId, outcome: Outcome)
    requires Inv(q) && CanSendEnd(q, p)
    ensures Inv(DoSendEnds(q, p, outcome))
  {
    hide StoreOk, ProcOk, ActiveOk, WatchesOk, OnlyJob;
    var q' := DoSendEnds(q, p, outcome);
    SendEndsStored(q.store, q.procs[p], outcome, q'.procs[p]);
    StageKeeps(q, q', p);
  }

  lemma LeaveProcs(q: Queue, q': Queue, p: ProcId)
    requires ProcsOk(q.store, q.procs) && ActiveOk(q.procs, q.active) && p in q.procs
    requires OnlyJob(q.store, q'.store, q.procs[p].id)
    requires q'.procs == q.procs - {p} && q'.active == q.active - {q.procs[p].id}
    ensures ProcsOk(q'.store, q'.procs) && ActiveOk(q'.procs, q'.active)
  {
    hide ProcOk, ActiveOk, OnlyJob;
    OtherProcs(q.store, q'.store, q.procs[p].id, q.procs, q.active, p);
    LeaveActive(q.procs, q.active, p);
  }

  lemma ResultStands(st: Store, proc: Proc)
    requires ProcOk(st, proc) && proc.stage.SavingResult? && Handed(proc.stage.result)
    ensures Handed(st.jobs[proc.id].status)
  {
  }

  lemma FinishKeeps(q: Queue, p: ProcId)
    requires Inv(q) && CanFinish(q, p)
    ensures Inv(DoFinish(q, p))
  {
    hide StoreOk, ProcOk, ActiveOk, WatchesOk;
    var q', id := DoFinish(q, p), q.procs[p].id;
    ProcFacts(q, p);
    if q.procs[p].stage.SavingResult? && Handed(q.procs[p].stage.result) { ResultStands(q.store, q.procs[p]); }
    LeaveProcs(q, q', p);
    OneWatch(q, q', id);
  }

  lemma SaveFailsKeeps(q: Queue, p: ProcId)
    requires Inv(q) && CanSaveFail(q, p)
    ensures Inv(DoSaveFails(q, p))
  {
    hide StoreOk, ProcOk, ActiveOk, WatchesOk;
    var q', id := DoSaveFails(q, p), q.procs[p].id;
    ProcFacts(q, p);
    StatusStored(q.store, id, Error);
    LeaveProcs(q, q', p);
    OneWatch(q, q', id);
  }

  lemma WatchOf(q: Queue, id: Id)
    requires WatchesOk(q)
    ensures WatchOk(Watches(q.monitorCalls, q.monitoring, id), q.store.jobs, q.active, id)
  {
  }

  lemma MonitorKeeps(q: Queue, id: Id)
    requires Inv(q) && id in q.monitorCalls
    ensures Inv(DoMonitor(q, id))
  {
    hide StoreOk, ProcOk, ActiveOk, WatchesOk;
    WatchOf(q, id);
    OneWatch(q, DoMonitor(q, id), id);
  }

  lemma WakeKeeps(q: Queue, id: Id, hasQuery: bool)
    requires Inv(q) && CanWake(q, id)
    ensures Inv(DoWake(q, id, hasQuery))
  {
    hide StoreOk, ProcOk, ActiveOk, WatchesOk;
    WatchOf(q, id);
    OneWatch(q, DoWake(q, id, hasQuery), id);
  }

  /** A watch writes the status of its job; it is the only one, and no `process` call has the job. */
  lemma WatchWrites(q: Queue, q': Queue, id: Id, status: Status)
    requires Inv(q) && id in q.monitoring && !q.monitoring[id].SavingLast? && id in q.store.jobs
    requires id in q'.monitoring && (Handed(status) || q'.monitoring[id].SavingLast?)
    requires q' == q.(store := Persist(SetStatus(q.store, id, status)),
             monitoring := q.monitoring[id := q'.monitoring[id]])
    ensures Inv(q')
  {
    hide StoreOk, ProcOk, ActiveOk, WatchesOk;
    WatchOf(q, id);
    StatusStored(q.store, id, status);
    NoProc(q.store, q'.store, id, q.procs, q.active);
    OneWatch(q, q', id);
  }

  lemma QueryEndsKeeps(q: Queue, id: Id, report: Report)
    requires Inv(q) && CanQueryEnd(q, id)
    ensures Inv(DoQueryEnds(q, id, report))
  {
    hide StoreOk, ProcOk, ActiveOk, WatchesOk;
    WatchWrites(q, DoQueryEnds(q, id, report), id, report);
  }

  lemma WatchEndsKeeps(q: Queue, id: Id)
    requires Inv(q) && CanWatchEnd(q, id)
    ensures Inv(DoWatchEnds(q, id))
  {
    hide StoreOk, ProcOk, ActiveOk, WatchesOk;
    var q' := DoWatchEnds(q, id);
    if q'.store == q.store { FewerWatches(q, q', id); } else { WatchWrites(q, q', id, Unknown); }
  }

  lemma FewerWatches(q: Queue, q': Queue, id: Id)
    requires WatchesOk(q) && id in q.monitoring
    requires q' == q.(monitoring := q'.monitoring)
    requires q'.monitoring == q.monitoring - {id} ||
             (id in q'.monitoring && !q.monitoring[id].SavingLast?
               && q'.monitoring == q.monitoring[id := q'.monitoring[id]])
    ensures WatchesOk(q')
  {
    hide WatchesOk;
    WatchOf(q, id);
    OneWatch(q, q', id);
  }

  /** A `process` call of a job with unknown outcome is saving it, and may find it resolved afterwards. */
  lemma ResolveProc(st: Store, st': Store, proc: Proc)
    requires ProcOk(st, proc) && OnlyJob(st, st', proc.id) && proc.id in st'.tally
    requires st.jobs[proc.id].status == Unknown && proc.id in st'.jobs
             && st'.jobs[proc.id].status in {Pending, Printed, Error}
    ensures ProcOk(st', proc)
  {
  }

  /** The job's state and record after the operator resolved it. */
  function ResolvedJob(job: Job, r: Resolution): Job {
    match r
    case ConfirmPrinted => job.(status := Printed)
    case Cancel => job.(status := Error)
    case ConfirmNotPrinted => job.(status := Pending, attempts := 0)
  }

  function ResolvedTally(t: Tally, r: Resolution): Tally {
    match r
    case ConfirmPrinted => t
    case Cancel => t.(canceled := t.canceled + 1)
    case ConfirmNotPrinted => t.(notPrinted := t.notPrinted + 1)
  }

  lemma ResolvePuts(q: Queue, id: Id, r: Resolution)
    requires CanResolve(q, id)
    ensures DoResolve(q, id, r).store ==
            Persist(Put(q.store, id, ResolvedJob(q.store.jobs[id], r), ResolvedTally(TallyOf(q.store, id), r)))
  {
    match r
    case ConfirmPrinted =>
    case Cancel =>
    case ConfirmNotPrinted =>
  }

  lemma ResolveStored(st: Store, id: Id, r: Resolution)
    requires StoreOk(st) && id in st.jobs
    ensures var st' := Persist(Put(st, id, ResolvedJob(st.jobs[id], r), ResolvedTally(TallyOf(st, id), r)));
            StoreOk(st') && OnlyJob(st, st', id)
  {
    hide StoreOk;
    PutStored(st, id, ResolvedJob(st.jobs[id], r), ResolvedTally(TallyOf(st, id), r));
  }

  lemma ResolveKeeps(q: Queue, id: Id, r: Resolution)
    requires Inv(q) && CanResolve(q, id)
    ensures Inv(DoResolve(q, id, r))
  {
    hide StoreOk, ProcOk, WatchesOk, OnlyJob;
    var q' := DoResolve(q, id, r);
    ResolvePuts(q, id, r);
    ResolveStored(q.store, id, r);
    if id in q.active {
      var p :| p in q.procs && q.procs[p].id == id;
      hide ActiveOk;
      ResolveProc(q.store, q'.store, q.procs[p]);
      OtherProcs(q.store, q'.store, id, q.procs, q.active, p);
    } else {
      NoProc(q.store, q'.store, id, q.procs, q.active);
    }
    hide ActiveOk;
    KeptWatches(q, q', id);
  }

  /** The three steps of the writes: what a waiting call relies on follows from the jobs as they are. */
  lemma FilesProc(st: Store, proc: Proc)
    requires ProcOk(st, proc) && !st.broken
    ensures st.temp.None? ==> ProcOk(st.(temp := Some(st.jobs)), proc)
    ensures st.temp.Some? ==> ProcOk(st.(disk := st.temp.value, temp := None, done := st.done + 1), proc)
    ensures ProcOk(st.(broken := true, temp := None), proc)
  {
  }

  lemma FilesStored(st: Store)
    requires StoreOk(st) && !st.broken
    ensures st.done < st.issued ==> StoreOk(st.(temp := Some(st.jobs)))
    ensures st.temp.Some? ==> StoreOk(st.(disk := st.temp.value, temp := None, done := st.done + 1))
    ensures StoreOk(st.(broken := true, temp := None))
  {
  }

  lemma FilesKeep(q: Queue)
    requires Inv(q) && !q.store.broken
    ensures CanSerialize(q) ==> Inv(DoSerialize(q))
    ensures CanRename(q) ==> Inv(DoRename(q))
    ensures Inv(DoWriteFails(q))
  {
    hide StoreOk, ProcOk, ActiveOk;
    FilesStored(q.store);
    forall p | p in q.procs
      ensures q.store.temp.None? ==> ProcOk(DoSerialize(q).store, q.procs[p])
      ensures q.store.temp.Some? ==> ProcOk(DoRename(q).store, q.procs[p])
      ensures ProcOk(DoWriteFails(q).store, q.procs[p])
    {
      FilesProc(q.store, q.procs[p]);
    }
  }

  lemma RestartKeeps(q: Queue)
    requires Inv(q)
    ensures Inv(DoRestart(q))
  {
    assert StoreOk(DoRestart(q).store);
  }

  lemma StepKeeps(q: Queue, a: Action)
    requires Inv(q) && Enabled(q, a)
    ensures Inv(Next(q, a))
  {
    hide StoreOk, ProcOk, ActiveOk;
    match a
    case Add(newId, key) => AddKeeps(q, newId, key);
    case AddAgain(id) => AddAgainKeeps(q, id);
    case Added(id) =>
    case TimerFires(id) =>
    case Process(id, p) => ProcessKeeps(q, id, p);
    case StartSend(p) => StartSendKeeps(q, p);
    case SendEnds(p, outcome) => SendEndsKeeps(q, p, outcome);
    case Finish(p) => FinishKeeps(q, p);
    case SaveFails(p) => SaveFailsKeeps(q, p);
    case Monitor(id) => MonitorKeeps(q, id);
    case Wake(id, hasQuery) => WakeKeeps(q, id, hasQuery);
    case QueryEnds(id, report) => QueryEndsKeeps(q, id, report);
    case WatchEnds(id) => WatchEndsKeeps(q, id);
    case Resolve(id, resolution) => ResolveKeeps(q, id, resolution);
    case Serialize => FilesKeep(q);
    case Rename => FilesKeep(q);
    case WriteFails => FilesKeep(q);
    case Restart => RestartKeeps(q);
  }

  // ----- whole runs

  lemma FreshOk(max: int)
    ensures Inv(Fresh(max))
  {
  }

  lemma {:induction false} RunKeeps(q: Queue, run: seq<Action>)
    requires Inv(q) && IsRun(q, run)
    ensures Inv(Exec(q, run))
    decreases |run|
  {
    hide Inv, Enabled, Next;
    if run != [] {
      StepKeeps(q, run[0]);
      RunKeeps(Next(q, run[0]), run[1..]);
    }
  }

  lemma FreshKeeps(max: int, run: seq<Action>)
    requires IsRun(Fresh(max), run)
    ensures Inv(Exec(Fresh(max), run))
  {
    hide Inv, Fresh;
    FreshOk(max);
    RunKeeps(Fresh(max), run);
  }

  /** In every run, at most one send of a job is in flight within a process. */
  lemma {:induction false} OneSendAtATime(max: int, run: seq<Action>, p: ProcId, r: ProcId)
    requires IsRun(Fresh(max), run)
    requires var procs := Exec(Fresh(max), run).procs;
             && p in procs && r in procs && procs[p].id == procs[r].id
             && procs[p].stage.Sending? && procs[r].stage.Sending?
    ensures p == r
  {
    hide StoreOk, ProcsOk, WatchesOk, Exec, IsRun, Fresh;
    FreshKeeps(max, run);
  }

  /** In every run, a job being sent is handed over on disk, and no restart from there sends it. */
  lemma {:induction false} SentIsOnDisk(max: int, run: seq<Action>, p: ProcId)
    requires IsRun(Fresh(max), run)
    requires var procs := Exec(Fresh(max), run).procs; p in procs && procs[p].stage.Sending?
    ensures var q := Exec(Fresh(max), run);
            && AcceptedIn(q.store.disk, q.procs[p].id)
            && q.procs[p].id !in DoRestart(q).calls && q.procs[p].id in DoRestart(q).monitorCalls
  {
    hide StoreOk, ActiveOk, WatchesOk, Exec, IsRun, Fresh;
    FreshKeeps(max, run);
    assert ProcOk(Exec(Fresh(max), run).store, Exec(Fresh(max), run).procs[p]);
  }

  /** In every run, jobs are one per idempotency key, in memory and on disk. */
  lemma {:induction false} KeysStayUnique(max: int, run: seq<Action>)
    requires IsRun(Fresh(max), run)
    ensures OneJobPerKey(Exec(Fresh(max), run).store.jobs) && OneJobPerKey(Exec(Fresh(max), run).store.disk)
  {
    hide OneJobPerKey, ProcsOk, ActiveOk, WatchesOk, Exec, IsRun, Fresh;
    FreshKeeps(max, run);
  }
}
