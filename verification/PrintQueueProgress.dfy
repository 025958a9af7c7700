/** No receipt of the print queue is forgotten: what is pending will be processed, and what was handed
    over is watched. */
module PrintQueueProgress {
  import opened Wrappers
  import opened PrintQueueModel
  import opened PrintQueueShape
  import opened PrintQueueSafety
  import opened PrintQueueCancel

  // ----- the order of steps

  predicate Follows(before: Stage, after: Stage) {
    match before
    case Saving(_) => after.Sending?
    case Sending => after.SavingResult? || after.SavingFailure?
    case _ => false
  }

  /** A call of `process` saves, sends and saves again in this order, and nothing else starts a send. */
  lemma StepsInOrder(q: Queue, a: Action, p: ProcId)
    requires Enabled(q, a) && p in q.procs && p in Next(q, a).procs
    ensures var before, after := q.procs[p], Next(q, a).procs[p];
            after.id == before.id && (after == before || Follows(before.stage, after.stage))
  {
    hide HasKey, Put, Persist, Resumed, Rejected, Remove, TallyOf;
  }

  predicate FollowsWatch(before: Watch, after: Watch) {
    match before
    case Sleeping(n) => after == Querying(n)
    case Querying(n) => (after.SavingStatus? && after.attempt == n) || after.SavingLast?
    case SavingStatus(n, _) => after == Sleeping(n + 1) || after.SavingLast?
    case SavingLast(_) => false
  }

  /** A watch sleeps, asks and saves, one round after the other. */
  lemma WatchesInOrder(q: Queue, a: Action, id: Id)
    requires Enabled(q, a) && id in q.monitoring && id in Next(q, a).monitoring
    ensures var before, after := q.monitoring[id], Next(q, a).monitoring[id];
            after == before || FollowsWatch(before, after)
  {
    hide HasKey, Put, Persist, Rejected, Remove, TallyOf;
  }

  // ----- pending jobs

  /** Something will hand the job to `process`: its own `enqueue`, a call, a timer, or the end of the
      call that has it. */
  predicate Coming(q: Queue, id: Id) {
    if id in q.active then id in q.retryAfterActive else id in q.adds || id in q.calls || id in q.retryTimers
  }

  ghost predicate PendingComes(q: Queue) {
    forall id :: id in q.store.jobs && q.store.jobs[id].status == Pending ==> Coming(q, id)
  }

  /** A pending job has no attempt behind it, so a restart resumes it. */
  ghost predicate Untried(jobs: Jobs) {
    forall id :: id in jobs && jobs[id].status == Pending ==> jobs[id].attempts == 0
  }

  ghost predicate UntriedOk(st: Store) {
    Untried(st.jobs) && Untried(st.disk) && (st.temp.Some? ==> Untried(st.temp.value))
  }

  /** What an `enqueue` waits for was requested. */
  ghost predicate AddsOk(q: Queue) {
    forall id :: id in q.adds ==> q.adds[id] <= q.store.issued
  }

  ghost predicate ProgressOk(q: Queue) {
    q.max >= 1 && PendingComes(q) && UntriedOk(q.store) && AddsOk(q)
  }

  /** A step that touches one job. */
  lemma OneJob(q: Queue, q': Queue, id: Id)
    requires ProgressOk(q) && q'.max == q.max && OnlyJob(q.store, q'.store, id)
    requires forall j :: j in q'.store.jobs ==> j in q.store.jobs || j == id
    requires id in q'.store.jobs && q'.store.jobs[id].status == Pending ==>
             q'.store.jobs[id].attempts == 0 && Coming(q', id)
    requires forall j :: j != id ==>
               && (j in q.active <==> j in q'.active) && (j in q.retryAfterActive ==> j in q'.retryAfterActive)
               && (j in q.adds ==> j in q'.adds) && (j in q.calls ==> j in q'.calls)
               && (j in q.retryTimers ==> j in q'.retryTimers)
    requires forall j :: j in q'.adds ==> (j in q.adds && q'.adds[j] == q.adds[j]) || q'.adds[j] <= q'.store.issued
    ensures ProgressOk(q')
  {
  }

  lemma AddProgress(q: Queue, newId: Id, key: string)
    requires Inv(q) && ProgressOk(q) && CanAdd(q, newId, key)
    ensures ProgressOk(DoAdd(q, newId, key))
  {
    hide ProgressOk, StoreOk, ProcOk, WatchesOk, HasKey;
    ActiveHasJob(q);
    NewJob(q, newId, key);
  }

  lemma NewJob(q: Queue, newId: Id, key: string)
    requires ProgressOk(q) && CanAdd(q, newId, key) && newId !in q.active
    ensures ProgressOk(DoAdd(q, newId, key))
  {
    hide ProgressOk, HasKey;
    OldAdds(q);
    OneJob(q, DoAdd(q, newId, key), newId);
  }

  lemma OldAdds(q: Queue)
    requires ProgressOk(q)
    ensures forall id :: id in q.adds ==> q.adds[id] <= q.store.issued
  {
  }

  lemma PendingFacts(q: Queue, id: Id)
    requires ProgressOk(q) && id in q.store.jobs && q.store.jobs[id].status == Pending
    ensures Coming(q, id) && q.store.jobs[id].attempts == 0
  {
  }

  lemma CallsProgress(q: Queue, q': Queue, id: Id)
    requires ProgressOk(q) && q' == q.(calls := q'.calls, adds := q'.adds, retryTimers := q'.retryTimers)
    requires q'.adds.Keys <= q.adds.Keys && (forall j :: j in q'.adds ==> q'.adds[j] == q.adds[j])
    requires forall j :: j != id ==>
               && (j in q.adds ==> j in q'.adds) && (j in q.calls ==> j in q'.calls)
               && (j in q.retryTimers ==> j in q'.retryTimers)
    requires id in q'.calls
    ensures ProgressOk(q')
  {
  }

  lemma AgainProgress(q: Queue, id: Id)
    requires ProgressOk(q) && id in q.store.jobs
    ensures ProgressOk(DoAddAgain(q, id))
  {
    hide ProgressOk;
    if q.store.jobs[id].status == Pending { PendingFacts(q, id); }
    OldAdds(q);
    OneJob(q, DoAddAgain(q, id), id);
  }

  lemma ProcessProgress(q: Queue, id: Id, p: ProcId)
    requires ProgressOk(q) && id in q.calls
    ensures ProgressOk(DoProcess(q, id, p))
  {
    hide ProgressOk, Remove, Sendable, TallyOf;
    if id in q.store.jobs && q.store.jobs[id].status == Pending {
      PendingFacts(q, id);
      if id !in q.active { PendingStarts(q, id); }
    }
    OldAdds(q);
    OthersCalled(q.calls, id);
    OneJob(q, DoProcess(q, id, p), id);
  }

  lemma PendingStarts(q: Queue, id: Id)
    requires id in q.store.jobs && q.store.jobs[id].status == Pending && id !in q.active
    ensures Starts(q, id)
  {
  }

  lemma OthersCalled(calls: multiset<Id>, id: Id)
    ensures forall j :: j != id ==> (j in calls <==> j in Remove(calls, id))
  {
  }

  lemma StartSendProgress(q: Queue, p: ProcId)
    requires Inv(q) && ProgressOk(q) && CanStartSend(q, p)
    ensures ProgressOk(DoStartSend(q, p))
  {
    hide ProgressOk, StoreOk, ActiveOk, WatchesOk;
    assert ProcOk(q.store, q.procs[p]);
    OldAdds(q);
    OneJob(q, DoStartSend(q, p), q.procs[p].id);
  }

  lemma SendEndsProgress(q: Queue, p: ProcId, outcome: Outcome)
    requires ProgressOk(q) && CanSendEnd(q, p)
    ensures ProgressOk(DoSendEnds(q, p, outcome))
  {
    hide ProgressOk;
    OldAdds(q);
    OneJob(q, DoSendEnds(q, p, outcome), q.procs[p].id);
  }

  /** The end of a call hands the job on if that was asked for meanwhile. */
  lemma FinishProgress(q: Queue, p: ProcId)
    requires Inv(q) && ProgressOk(q) && CanFinish(q, p)
    ensures ProgressOk(DoFinish(q, p))
  {
    hide ProgressOk, StoreOk, ProcsOk, WatchesOk;
    var id := q.procs[p].id;
    if q.store.jobs[id].status == Pending { PendingFacts(q, id); }
    OldAdds(q);
    OneJob(q, DoFinish(q, p), id);
  }

  lemma SaveFailsProgress(q: Queue, p: ProcId)
    requires Inv(q) && ProgressOk(q) && CanSaveFail(q, p)
    ensures ProgressOk(DoSaveFails(q, p))
  {
    hide ProgressOk, StoreOk, ProcsOk, WatchesOk;
    var id := q.procs[p].id;
    if q.store.jobs[id].status == Pending { PendingFacts(q, id); }
    OldAdds(q);
    OneJob(q, DoSaveFails(q, p), id);
  }

  /** Watches leave pending jobs alone. */
  lemma WatchProgress(q: Queue, q': Queue, id: Id, status: Status)
    requires ProgressOk(q) && q' == q.(store := q'.store, monitoring := q'.monitoring, monitorCalls := q'.monitorCalls)
    requires q'.store == q.store
             || (id in q.store.jobs && status != Pending && q'.store == Persist(SetStatus(q.store, id, status)))
    ensures ProgressOk(q')
  {
    hide ProgressOk;
    if id in q.store.jobs && q.store.jobs[id].status == Pending { PendingFacts(q, id); }
    OldAdds(q);
    OneJob(q, q', id);
  }

  lemma ResolveProgress(q: Queue, id: Id, r: Resolution)
    requires ProgressOk(q) && CanResolve(q, id)
    ensures ProgressOk(DoResolve(q, id, r))
  {
    hide ProgressOk;
    OldAdds(q);
    OneJob(q, DoResolve(q, id, r), id);
  }

  lemma FilesProgress(q: Queue)
    requires ProgressOk(q)
    ensures ProgressOk(DoSerialize(q)) && ProgressOk(DoWriteFails(q)) && ProgressOk(DoRestart(q))
    ensures CanRename(q) ==> ProgressOk(DoRename(q))
  {
  }

  lemma StepProgress(q: Queue, a: Action)
    requires Inv(q) && ProgressOk(q) && Enabled(q, a)
    ensures ProgressOk(Next(q, a))
  {
    hide Inv, ProgressOk, DoResolve, DoSaveFails, DoSendEnds, DoFinish, DoProcess, DoAddAgain, DoAdd, DoStartSend,
         HasKey, CanFinish, CanSaveFail, CanSendEnd, CanStartSend, CanResolve, DoRestart;
    match a
    case Add(newId, key) => AddProgress(q, newId, key);
    case AddAgain(id) => AgainProgress(q, id);
    case Added(id) => CallsProgress(q, DoAdded(q, id), id);
    case TimerFires(id) => CallsProgress(q, DoTimerFires(q, id), id);
    case Process(id, p) => ProcessProgress(q, id, p);
    case StartSend(p) => StartSendProgress(q, p);
    case SendEnds(p, outcome) => SendEndsProgress(q, p, outcome);
    case Finish(p) => FinishProgress(q, p);
    case SaveFails(p) => SaveFailsProgress(q, p);
    case Monitor(id) => WatchProgress(q, DoMonitor(q, id), id, Unknown);
    case Wake(id, hasQuery) => WatchProgress(q, DoWake(q, id, hasQuery), id, Unknown);
    case QueryEnds(id, report) => WatchProgress(q, DoQueryEnds(q, id, report), id, report);
    case WatchEnds(id) => WatchProgress(q, DoWatchEnds(q, id), id, Unknown);
    case Resolve(id, r) => ResolveProgress(q, id, r);
    case Serialize => FilesProgress(q);
    case Rename => FilesProgress(q);
    case WriteFails => FilesProgress(q);
    case Restart => FilesProgress(q);
  }

  lemma {:induction false} RunProgress(q: Queue, run: seq<Action>)
    requires Inv(q) && ProgressOk(q) && IsRun(q, run)
    ensures Inv(Exec(q, run)) && ProgressOk(Exec(q, run))
    decreases |run|
  {
    hide Inv, ProgressOk, Enabled, Next;
    if run != [] {
      StepKeeps(q, run[0]);
      StepProgress(q, run[0]);
      RunProgress(Next(q, run[0]), run[1..]);
    }
  }

  lemma FreshProgress(max: int, run: seq<Action>)
    requires max >= 1 && IsRun(Fresh(max), run)
    ensures Inv(Exec(Fresh(max), run)) && ProgressOk(Exec(Fresh(max), run))
  {
    hide Inv, IsRun, Exec;
    FreshOk(max);
    RunProgress(Fresh(max), run);
  }

  /** In every run, crashes, failed writes and resolutions included: a pending job waits for its
      `enqueue`, a call of `process` or a timer, and one that a call still has is called again when
      that ends. */
  lemma {:induction false} PendingIsNotForgotten(max: int, run: seq<Action>, id: Id)
    requires max >= 1 && IsRun(Fresh(max), run)
    requires id in Exec(Fresh(max), run).store.jobs && Exec(Fresh(max), run).store.jobs[id].status == Pending
    ensures var q := Exec(Fresh(max), run);
            && (id !in q.active ==> id in q.adds || id in q.calls || id in q.retryTimers)
            && (id in q.active ==> id in q.retryAfterActive)
  {
    hide Inv, ProgressOk, IsRun, Exec;
    FreshProgress(max, run);
    PendingFacts(Exec(Fresh(max), run), id);
  }

  // ----- and they are sent

  lemma {:induction false} Nothing(q: Queue)
    ensures Leads(q, [], q)
  {
  }

  /** Whatever happened before, unless a write failed: some run without faults sends a pending job. */
  lemma {:induction false} PendingCanBeSent(max: int, past: seq<Action>, id: Id)
    requires max >= 1 && IsRun(Fresh(max), past) && !Exec(Fresh(max), past).store.broken
    requires id in Exec(Fresh(max), past).store.jobs && Exec(Fresh(max), past).store.jobs[id].status == Pending
    ensures exists run, q' ::
              Leads(Exec(Fresh(max), past), run, q') && OneMore(Exec(Fresh(max), past).store, q'.store, id)
  {
    hide Inv, ProgressOk, Exec, IsRun, Leads, OneMore;
    FreshProgress(max, past);
    var q := Exec(Fresh(max), past);
    var run, q' := SendPending(q, id);
  }

  lemma {:induction false} SendPending(q: Queue, id: Id) returns (run: seq<Action>, q': Queue)
    requires Inv(q) && ProgressOk(q) && !q.store.broken
    requires id in q.store.jobs && q.store.jobs[id].status == Pending
    ensures Leads(q, run, q') && OneMore(q.store, q'.store, id)
  {
    hide Inv, ProgressOk, Leads, OneMore, Coming;
    Nothing(q);
    WritesOrdered(q);
    var disk;
    run, disk := CatchUp(q, [], q);
    PendingFacts(q, id);
    AfterWrites(q, disk, id);
    var q2;
    run, q2 := Released(q, run, Written(q, disk), id);
    run, q2 := Called(q, run, q2, id);
    var p := Beyond(q2.procs.Keys);
    run, q' := Attempt(q, run, q2, id, p);
    SameTallied(q, disk, q'.store, id);
  }

  /** The job is in no call's hands, and waits for something that can happen now. */
  predicate Due(q: Queue, id: Id) {
    && id in q.store.jobs && q.store.jobs[id].status == Pending && id !in q.active
    && ((id in q.adds && Resumed(q.store, q.adds[id])) || id in q.calls || id in q.retryTimers)
  }

  /** The call that has the job can end, and hands it on. */
  ghost predicate Ending(q: Queue, id: Id) {
    && id in q.store.jobs && q.store.jobs[id].status == Pending && id in q.retryAfterActive
    && exists p :: p in q.procs && q.procs[p].id == id && CanFinish(q, p)
  }

  lemma {:induction false} Released(q0: Queue, run: seq<Action>, q: Queue, id: Id)
      returns (run': seq<Action>, q': Queue)
    requires Leads(q0, run, q) && (Due(q, id) || Ending(q, id))
    ensures Leads(q0, run', q') && q'.store == q.store && Due(q', id)
  {
    hide Leads, CanFinish;
    if Due(q, id) {
      run', q' := run, q;
    } else {
      var p :| p in q.procs && q.procs[p].id == id && CanFinish(q, p);
      Extend(q0, run, q, Finish(p));
      run', q' := run + [Finish(p)], DoFinish(q, p);
    }
  }

  lemma {:induction false} Called(q0: Queue, run: seq<Action>, q: Queue, id: Id) returns (run': seq<Action>, q': Queue)
    requires Leads(q0, run, q) && Due(q, id)
    ensures Leads(q0, run', q') && q'.store == q.store && id in q'.calls && Starts(q', id)
  {
    hide Leads;
    if id in q.calls {
      run', q' := run, q;
    } else if id in q.retryTimers {
      Extend(q0, run, q, TimerFires(id));
      run', q' := run + [TimerFires(id)], DoTimerFires(q, id);
    } else {
      Extend(q0, run, q, Added(id));
      run', q' := run + [Added(id)], DoAdded(q, id);
    }
  }

  lemma SameTallied(q: Queue, disk: Jobs, st': Store, id: Id)
    requires OneMore(Written(q, disk).store, st', id)
    ensures OneMore(q.store, st', id)
  {
    hide MayHavePrinted;
    assert TallyOf(Written(q, disk).store, id) == TallyOf(q.store, id);
  }

  lemma WritesOrdered(q: Queue)
    requires Inv(q)
    ensures q.store.done <= q.store.issued && (q.store.temp.Some? ==> q.store.done < q.store.issued)
    ensures ActiveOk(q.procs, q.active) && ProcsOk(q.store, q.procs)
  {
    hide JobsOk, WatchesOk;
  }

  lemma AfterWrites(q: Queue, disk: Jobs, id: Id)
    requires Inv(q) && ProgressOk(q) && id in q.store.jobs && q.store.jobs[id].status == Pending && Coming(q, id)
    ensures Due(Written(q, disk), id) || Ending(Written(q, disk), id)
  {
    hide StoreOk, WatchesOk, PendingComes, UntriedOk;
    if id in q.active {
      var p :| p in q.procs && q.procs[p].id == id;
      assert ProcOk(q.store, q.procs[p]);
      assert CanFinish(Written(q, disk), p);
    }
  }

  // ----- jobs handed over

  /** The step ends a watch of the job that should go on: the transport cannot be asked, or its query
      or a snapshot failed, or the watch is not begun because an old one has not quite ended. */
  predicate Drops(q: Queue, a: Action, id: Id) {
    || a == Wake(id, false)
    || (a == WatchEnds(id) && id in q.monitoring
        && (q.monitoring[id].Querying?
           || (q.monitoring[id].SavingStatus? && !Resumed(q.store, q.monitoring[id].ticket))))
    || (a == Monitor(id) && id in q.monitoring && q.monitoring[id].SavingLast?)
  }

  ghost predicate NeverDrops(q: Queue, run: seq<Action>, id: Id)
    requires IsRun(q, run)
    decreases |run|
  {
    run == [] || (!Drops(q, run[0], id) && NeverDrops(Next(q, run[0]), run[1..], id))
  }

  predicate Attended(q: Queue, id: Id) {
    id in q.store.jobs && Handed(q.store.jobs[id].status) ==>
      id in q.active || Watches(q.monitorCalls, q.monitoring, id) > 0
  }

  lemma ProcAttended(q: Queue, p: ProcId, a: Action, id: Id)
    requires Inv(q) && Attended(q, id) && Enabled(q, a) && (a.Finish? || a.SaveFails?) && a.p == p
    ensures Attended(Next(q, a), id)
  {
    hide StoreOk, ActiveOk, WatchesOk;
    assert ProcOk(q.store, q.procs[p]);
  }

  lemma StillActive(q: Queue, p: ProcId)
    requires Inv(q) && p in q.procs
    ensures q.procs[p].id in q.active
  {
    hide StoreOk, ProcsOk, WatchesOk;
  }

  lemma SendAttended(q: Queue, a: Action, id: Id)
    requires Inv(q) && Attended(q, id) && Enabled(q, a) && (a.StartSend? || a.SendEnds?)
    ensures Attended(Next(q, a), id)
  {
    hide Inv, TallyOf;
    StillActive(q, a.p);
  }

  /** Steps that hand no job over and end no watch. */
  lemma QuietAttended(q: Queue, q': Queue, id: Id)
    requires Attended(q, id) && q.active <= q'.active
    requires q'.monitorCalls == q.monitorCalls && q'.monitoring == q.monitoring
    requires id in q'.store.jobs && Handed(q'.store.jobs[id].status) ==>
               id in q'.active || (id in q.store.jobs && Handed(q.store.jobs[id].status))
    ensures Attended(q', id)
  {
    hide Watches;
  }

  lemma MonitorAttended(q: Queue, j: Id, id: Id)
    requires Attended(q, id) && j in q.monitorCalls && !Drops(q, Monitor(j), id)
    ensures Attended(DoMonitor(q, j), id)
  {
  }

  lemma WakeAttended(q: Queue, j: Id, hasQuery: bool, id: Id)
    requires Attended(q, id) && CanWake(q, j) && !Drops(q, Wake(j, hasQuery), id)
    ensures Attended(DoWake(q, j, hasQuery), id)
  {
  }

  lemma QueryEndsAttended(q: Queue, j: Id, report: Report, id: Id)
    requires Attended(q, id) && CanQueryEnd(q, j)
    ensures Attended(DoQueryEnds(q, j, report), id)
  {
    hide TallyOf;
  }

  lemma WatchEndsAttended(q: Queue, j: Id, id: Id)
    requires Attended(q, id) && CanWatchEnd(q, j) && !Drops(q, WatchEnds(j), id)
    ensures Attended(DoWatchEnds(q, j), id)
  {
    hide TallyOf, Resumed, Rejected;
  }

  lemma ResolveAttended(q: Queue, j: Id, r: Resolution, id: Id)
    requires Attended(q, id) && CanResolve(q, j)
    ensures Attended(DoResolve(q, j, r), id)
  {
    hide Attended, TallyOf;
    QuietAttended(q, DoResolve(q, j, r), id);
  }

  lemma ProcessAttended(q: Queue, j: Id, p: ProcId, id: Id)
    requires Attended(q, id)
    ensures Attended(DoProcess(q, j, p), id)
  {
    hide Attended, TallyOf, Remove, Sendable;
    QuietAttended(q, DoProcess(q, j, p), id);
  }

  lemma RestartAttended(q: Queue, id: Id)
    ensures Attended(DoRestart(q), id)
  {
  }

  lemma StepAttended(q: Queue, a: Action, id: Id)
    requires Inv(q) && Attended(q, id) && Enabled(q, a) && !Drops(q, a, id)
    ensures Attended(Next(q, a), id)
  {
    hide Inv, Attended, Drops, DoFinish, DoSaveFails, DoSendEnds, DoStartSend, DoMonitor, DoWake, DoQueryEnds,
         DoWatchEnds, DoRestart, DoResolve, DoProcess, CanResolve, HasKey, CanFinish, CanSaveFail, CanSendEnd,
           CanStartSend, CanWake, CanQueryEnd,
         CanWatchEnd, TallyOf, Remove, Sendable;
    match a
    case Finish(p) => ProcAttended(q, p, a, id);
    case SaveFails(p) => ProcAttended(q, p, a, id);
    case StartSend(_) => SendAttended(q, a, id);
    case SendEnds(_, _) => SendAttended(q, a, id);
    case Monitor(j) => MonitorAttended(q, j, id);
    case Wake(j, hasQuery) => WakeAttended(q, j, hasQuery, id);
    case QueryEnds(j, report) => QueryEndsAttended(q, j, report, id);
    case WatchEnds(j) => WatchEndsAttended(q, j, id);
    case Restart => RestartAttended(q, id);
    case Resolve(j, r) => ResolveAttended(q, j, r, id);
    case Process(j, p) => ProcessAttended(q, j, p, id);
    case _ => QuietAttended(q, Next(q, a), id);
  }

  lemma {:induction false} RunAttended(q: Queue, run: seq<Action>, id: Id)
    requires Inv(q) && Attended(q, id) && IsRun(q, run) && NeverDrops(q, run, id)
    ensures Attended(Exec(q, run), id)
    decreases |run|
  {
    hide Inv, Attended, Enabled, Next, Drops;
    if run != [] {
      StepKeeps(q, run[0]);
      StepAttended(q, run[0], id);
      RunAttended(Next(q, run[0]), run[1..], id);
    }
  }

  /** In every run that drops no watch of it, restarts included: a job handed over is still in the
      hands of its call, or is watched, or is about to be. */
  lemma {:induction false} HandedIsWatched(max: int, run: seq<Action>, id: Id)
    requires IsRun(Fresh(max), run) && NeverDrops(Fresh(max), run, id)
    requires id in Exec(Fresh(max), run).store.jobs && Handed(Exec(Fresh(max), run).store.jobs[id].status)
    ensures var q := Exec(Fresh(max), run);
            id in q.active || id in q.monitorCalls || (id in q.monitoring && !q.monitoring[id].SavingLast?)
  {
    hide Inv, IsRun, Exec, NeverDrops;
    FreshOk(max);
    RunAttended(Fresh(max), run, id);
  }
}
