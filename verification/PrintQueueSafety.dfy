/** How often one receipt can reach paper, over any interleaving, failed snapshot and restart. */
module PrintQueueSafety {
  import opened Wrappers
  import opened PrintQueueModel
  import opened PrintQueueShape

  /** How many more sends of the job may print before there are more than the operator accounted for. */
  function Budget(t: Tally): int {
    1 + t.notPrinted + t.canceled - MayHavePrinted(t)
  }

  /** Every job that `process` would send has budget. */
  ghost predicate Covered(jobs: Jobs, tally: map<Id, Tally>) {
    forall id :: id in jobs && Sendable(jobs[id].status) ==> id in tally && Budget(tally[id]) >= 1
  }

  /** No restart sends a job whose budget is spent, and in memory one may look sendable only once
      snapshots fail, as nothing is sent then. */
  ghost predicate Paid(st: Store) {
    && (forall id :: id in st.tally ==> Budget(st.tally[id]) >= 0)
    && (st.broken || Covered(st.jobs, st.tally)) && Covered(st.disk, st.tally)
    && (st.temp.Some? ==> Covered(st.temp.value, st.tally))
  }

  /** A call waiting for the snapshot before its send has budget, unless it waits in vain. */
  ghost predicate SendsPaid(st: Store, procs: map<ProcId, Proc>) {
    forall p :: p in procs && procs[p].stage.Saving? ==>
      Budget(TallyOf(st, procs[p].id)) >= 1 || Rejected(st, procs[p].stage.ticket)
  }

  ghost predicate Accounted(q: Queue) {
    Paid(q.store) && SendsPaid(q.store, q.procs)
  }

  // ----- what a step may spend

  ghost predicate NotResent(st: Store, id: Id) {
    && (id in st.disk ==> !Sendable(st.disk[id].status))
    && (st.temp.Some? && id in st.temp.value ==> !Sendable(st.temp.value[id].status))
  }

  lemma PutCovered(jobs: Jobs, tally: map<Id, Tally>, id: Id, t: Tally)
    requires Covered(jobs, tally)
    requires id in tally ==> Budget(t) >= Budget(tally[id]) || !(id in jobs && Sendable(jobs[id].status))
    ensures Covered(jobs, tally[id := t])
  {
    hide Budget, Sendable;
  }

  /** A new state of one job, possibly with budget spent: then neither snapshot may resend it. */
  lemma PutPaid(st: Store, id: Id, job: Job, t: Tally)
    requires Paid(st) && Budget(t) >= 0 && (Sendable(job.status) ==> Budget(t) >= 1 || st.broken)
    requires Budget(t) >= Budget(TallyOf(st, id)) || NotResent(st, id)
    ensures Paid(Put(st, id, job, t)) && Paid(Persist(Put(st, id, job, t)))
  {
    hide Budget, Sendable;
    PutCovered(st.disk, st.tally, id, t);
    if st.temp.Some? { PutCovered(st.temp.value, st.tally, id, t); }
  }

  /** One job changes; calls about to send it are new and have budget, or lose none. */
  lemma PutAccounted(q: Queue, q': Queue, id: Id, job: Job, t: Tally)
    requires Accounted(q) && Budget(t) >= 0 && (Sendable(job.status) ==> Budget(t) >= 1 || q.store.broken)
    requires Budget(t) >= Budget(TallyOf(q.store, id)) || NotResent(q.store, id)
    requires q'.store == Put(q.store, id, job, t) || q'.store == Persist(Put(q.store, id, job, t))
    requires forall p :: p in q'.procs && q'.procs[p].stage.Saving? ==>
               || (&& p in q.procs && q'.procs[p] == q.procs[p]
                   && (q.procs[p].id != id || Budget(t) >= Budget(TallyOf(q.store, id))))
               || (q'.procs[p].id == id && Budget(t) >= 1)
    ensures Accounted(q')
  {
    hide Budget, Sendable, NotResent, Paid;
    PutPaid(q.store, id, job, t);
  }

  lemma JobBudget(q: Queue, id: Id)
    requires Inv(q) && Accounted(q) && id in q.store.jobs
    ensures Budget(TallyOf(q.store, id)) >= 0
    ensures Sendable(q.store.jobs[id].status) ==> Budget(TallyOf(q.store, id)) >= 1 || q.store.broken
  {
    hide Budget, Sendable, ProcsOk, ActiveOk, WatchesOk;
  }

  /** A job's status changes, and what is recorded of it stays. */
  lemma StatusAccounted(q: Queue, q': Queue, id: Id, status: Status)
    requires Inv(q) && Accounted(q) && id in q.store.jobs && (Sendable(status) ==> q.store.broken)
    requires q'.store == Persist(SetStatus(q.store, id, status)) && q'.procs.Keys <= q.procs.Keys
    requires forall p :: p in q'.procs ==> q'.procs[p] == q.procs[p]
    ensures Accounted(q')
  {
    hide Budget, Sendable, Inv, Accounted;
    JobBudget(q, id);
    PutAccounted(q, q', id, q.store.jobs[id].(status := status), TallyOf(q.store, id));
  }

  // ----- each action

  lemma AddAccounted(q: Queue, newId: Id, key: string)
    requires Accounted(q) && CanAdd(q, newId, key)
    ensures Accounted(DoAdd(q, newId, key))
  {
    hide Accounted, HasKey;
    PutAccounted(q, DoAdd(q, newId, key), newId, Job(key, Pending, 0), Tally(0, 0, 0, 0, 0));
  }

  lemma AddAgainAccounted(q: Queue, id: Id)
    requires Inv(q) && Accounted(q) && id in q.store.jobs
    ensures Accounted(DoAddAgain(q, id))
  {
    hide Accounted, Inv, Sendable, Budget, TallyOf, NotResent;
    var t := TallyOf(q.store, id);
    JobBudget(q, id);
    AgainCostsNothing(t);
    PutAccounted(q, DoAddAgain(q, id), id, q.store.jobs[id], t.(reenqueued := t.reenqueued + 1));
  }

  lemma AgainCostsNothing(t: Tally)
    ensures Budget(t.(reenqueued := t.reenqueued + 1)) == Budget(t)
  {
  }

  lemma ProcessAccounted(q: Queue, id: Id, p: ProcId)
    requires Inv(q) && Accounted(q) && p !in q.procs
    ensures Accounted(DoProcess(q, id, p))
  {
    hide Accounted, Inv, Budget;
    if Starts(q, id) {
      var job := q.store.jobs[id].(attempts := q.store.jobs[id].attempts + 1, status := Accepted);
      JobBudget(q, id);
      if q.store.broken {
        ProcessInVain(q, id, p);
      } else {
        PutAccounted(q, DoProcess(q, id, p), id, job, TallyOf(q.store, id));
      }
    } else {
      assert DoProcess(q, id, p).store == q.store;
      SameAccounted(q, DoProcess(q, id, p));
    }
  }

  /** Once snapshots fail, a new call waits in vain. */
  lemma ProcessInVain(q: Queue, id: Id, p: ProcId)
    requires Inv(q) && Accounted(q) && p !in q.procs && Starts(q, id) && q.store.broken
    ensures Accounted(DoProcess(q, id, p))
  {
    hide Budget, Paid, ProcsOk, ActiveOk, WatchesOk, JobsOk;
    var t := TallyOf(q.store, id);
    JobBudget(q, id);
    PutPaid(q.store, id, q.store.jobs[id].(attempts := q.store.jobs[id].attempts + 1, status := Accepted), t);
  }

  lemma SameAccounted(q: Queue, q': Queue)
    requires Accounted(q) && q'.store == q.store && q'.procs.Keys <= q.procs.Keys
    requires forall p :: p in q'.procs && q'.procs[p].stage.Saving? ==> q'.procs[p] == q.procs[p]
    ensures Accounted(q')
  {
    hide Paid;
  }

  /** The send spends budget, and the snapshots already say that the job was handed over. */
  lemma StartSendAccounted(q: Queue, p: ProcId)
    requires Inv(q) && Accounted(q) && CanStartSend(q, p)
    ensures Accounted(DoStartSend(q, p))
  {
    hide Accounted, Inv, Budget, TallyOf, Sendable, NotResent, Persist, Resumed;
    var id := q.procs[p].id;
    var t := TallyOf(q.store, id);
    AboutToSend(q, p);
    OthersElsewhere(q, p);
    SendSpends(t);
    PutAccounted(q, DoStartSend(q, p), id, q.store.jobs[id], t.(started := t.started + 1));
  }

  lemma SendSpends(t: Tally)
    ensures Budget(t.(started := t.started + 1)) == Budget(t) - 1
  {
  }

  lemma AboutToSend(q: Queue, p: ProcId)
    requires Inv(q) && Accounted(q) && CanStartSend(q, p)
    ensures NotResent(q.store, q.procs[p].id) && !Sendable(q.store.jobs[q.procs[p].id].status)
    ensures Budget(TallyOf(q.store, q.procs[p].id)) >= 1
  {
    hide Budget, Paid, JobsOk, ActiveOk, WatchesOk;
    assert ProcOk(q.store, q.procs[p]);
  }

  lemma OthersElsewhere(q: Queue, p: ProcId)
    requires Inv(q) && p in q.procs
    ensures forall r :: r in q.procs && r != p ==> q.procs[r].id != q.procs[p].id
  {
    hide StoreOk, ProcsOk, WatchesOk;
  }

  lemma SendEndsAccounted(q: Queue, p: ProcId, outcome: Outcome)
    requires Inv(q) && Accounted(q) && CanSendEnd(q, p)
    ensures Accounted(DoSendEnds(q, p, outcome))
  {
    hide Accounted, Inv, Budget;
    var id, t := q.procs[p].id, TallyOf(q.store, q.procs[p].id);
    var t' := if Blank(outcome) then t.(blank := t.blank + 1) else t;
    JobBudget(q, id);
    BlankGivesBack(t);
    PutAccounted(q, DoSendEnds(q, p, outcome), id, q.store.jobs[id].(status := EndStatus(outcome)), t');
  }

  lemma BlankGivesBack(t: Tally)
    ensures Budget(t.(blank := t.blank + 1)) == Budget(t) + 1
  {
  }

  lemma SaveFailsAccounted(q: Queue, p: ProcId)
    requires Inv(q) && Accounted(q) && CanSaveFail(q, p)
    ensures Accounted(DoSaveFails(q, p))
  {
    hide Accounted, Inv;
    var q' := DoSaveFails(q, p);
    if q.procs[p].stage.SavingFailure? { SameAccounted(q, q'); } else { StatusAccounted(q, q', q.procs[p].id, Error); }
  }

  lemma WatchEndsAccounted(q: Queue, id: Id)
    requires Inv(q) && Accounted(q) && CanWatchEnd(q, id)
    ensures Accounted(DoWatchEnds(q, id))
  {
    hide Accounted, Inv;
    var q' := DoWatchEnds(q, id);
    if q'.store == q.store { SameAccounted(q, q'); } else { StatusAccounted(q, q', id, Unknown); }
  }

  lemma ResolveAccounted(q: Queue, id: Id, r: Resolution)
    requires Inv(q) && Accounted(q) && CanResolve(q, id)
    ensures Accounted(DoResolve(q, id, r))
  {
    hide Accounted, Inv, DoResolve;
    JobBudget(q, id);
    ResolvePuts(q, id, r);
    ResolveProcs(q, id, r);
    PutAccounted(q, DoResolve(q, id, r), id, ResolvedJob(q.store.jobs[id], r), ResolvedTally(TallyOf(q.store, id), r));
  }

  lemma ResolveProcs(q: Queue, id: Id, r: Resolution)
    requires CanResolve(q, id)
    ensures DoResolve(q, id, r).procs == q.procs
  {
  }

  lemma FilesAccounted(q: Queue)
    requires Inv(q) && Accounted(q) && !q.store.broken
    ensures CanSerialize(q) ==> Accounted(DoSerialize(q))
    ensures CanRename(q) ==> Accounted(DoRename(q))
    ensures Accounted(DoWriteFails(q))
  {
    hide Budget, Covered, JobsOk, ActiveOk, WatchesOk;
    forall p | p in q.procs && q.procs[p].stage.Saving? ensures Budget(TallyOf(q.store, q.procs[p].id)) >= 1 {}
  }

  lemma RestartAccounted(q: Queue)
    requires Accounted(q)
    ensures Accounted(DoRestart(q))
  {
    hide Budget, Covered, ResumeCalls, WatchCalls;
  }

  /** Every step keeps the account, if the transport's query reports no error. */
  lemma StepAccounted(q: Queue, a: Action)
    requires Inv(q) && Accounted(q) && Enabled(q, a) && (a.QueryEnds? ==> a.report != Error)
    ensures Accounted(Next(q, a))
  {
    hide Inv, Accounted, DoWatchEnds, DoResolve, DoSaveFails, DoSendEnds, Starts, HasKey;
    match a
    case Add(newId, key) => AddAccounted(q, newId, key);
    case AddAgain(id) => AddAgainAccounted(q, id);
    case Added(id) => SameAccounted(q, DoAdded(q, id));
    case TimerFires(id) => SameAccounted(q, DoTimerFires(q, id));
    case Process(id, p) => ProcessAccounted(q, id, p);
    case StartSend(p) => StartSendAccounted(q, p);
    case SendEnds(p, outcome) => SendEndsAccounted(q, p, outcome);
    case Finish(p) => SameAccounted(q, DoFinish(q, p));
    case SaveFails(p) => SaveFailsAccounted(q, p);
    case Monitor(id) => SameAccounted(q, DoMonitor(q, id));
    case Wake(id, hasQuery) => SameAccounted(q, DoWake(q, id, hasQuery));
    case QueryEnds(id, report) => StatusAccounted(q, DoQueryEnds(q, id, report), id, report);
    case WatchEnds(id) => WatchEndsAccounted(q, id);
    case Resolve(id, resolution) => ResolveAccounted(q, id, resolution);
    case Serialize => FilesAccounted(q);
    case Rename => FilesAccounted(q);
    case WriteFails => FilesAccounted(q);
    case Restart => RestartAccounted(q);
  }

  // ----- whole runs

  /** The transport's contract: its query never reports an error for a job it accepted. */
  predicate Reliable(run: seq<Action>) {
    forall i :: 0 <= i < |run| && run[i].QueryEnds? ==> run[i].report != Error
  }

  predicate NoCancel(run: seq<Action>) {
    forall i :: 0 <= i < |run| && run[i].Resolve? ==> run[i].resolution != Cancel
  }

  lemma {:induction false} RunAccounted(q: Queue, run: seq<Action>)
    requires Inv(q) && Accounted(q) && IsRun(q, run) && Reliable(run)
    ensures Accounted(Exec(q, run))
    decreases |run|
  {
    hide Inv, Accounted, Enabled, Next;
    if run != [] {
      StepKeeps(q, run[0]);
      StepAccounted(q, run[0]);
      RunAccounted(Next(q, run[0]), run[1..]);
    }
  }

  lemma FreshAccounted(max: int, run: seq<Action>)
    requires IsRun(Fresh(max), run) && Reliable(run)
    ensures Accounted(Exec(Fresh(max), run))
  {
    hide Exec, IsRun;
    FreshOk(max);
    RunAccounted(Fresh(max), run);
  }

  /** Over any interleaving of enqueues, timers, watches, resolutions, failed writes and restarts,
      the sends of a job that may have printed number at most one plus its resolutions other than
      `confirm_printed`. */
  lemma {:induction false} PrintsAreAccountedFor(max: int, run: seq<Action>, id: Id)
    requires IsRun(Fresh(max), run) && Reliable(run)
    ensures var t := TallyOf(Exec(Fresh(max), run).store, id);
            MayHavePrinted(t) <= 1 + t.notPrinted + t.canceled
  {
    hide Accounted, Exec, IsRun, Fresh;
    FreshAccounted(max, run);
    WithinBudget(Exec(Fresh(max), run), id);
  }

  lemma WithinBudget(q: Queue, id: Id)
    requires Accounted(q)
    ensures var t := TallyOf(q.store, id); MayHavePrinted(t) <= 1 + t.notPrinted + t.canceled
  {
    hide Covered, SendsPaid;
  }

  lemma NothingRecorded(max: int, id: Id)
    ensures TallyOf(Fresh(max).store, id).canceled == 0
  {
  }

  /** Every action leaves what is recorded of the cancellations, except one. */
  ghost predicate SameCanceled(st: Store, st': Store, id: Id) {
    TallyOf(st', id).canceled == TallyOf(st, id).canceled
  }

  lemma PutCanceled(st: Store, j: Id, job: Job, t: Tally, id: Id)
    requires t.canceled == TallyOf(st, j).canceled
    ensures SameCanceled(st, Put(st, j, job, t), id) && SameCanceled(st, Persist(Put(st, j, job, t)), id)
  {
  }

  lemma StepCancels(q: Queue, a: Action, id: Id)
    requires Enabled(q, a) && (a.Resolve? ==> a.resolution != Cancel)
    ensures SameCanceled(q.store, Next(q, a).store, id)
  {
    forall j: Id, job: Job, t: Tally | t.canceled == TallyOf(q.store, j).canceled
      ensures SameCanceled(q.store, Put(q.store, j, job, t), id)
              && SameCanceled(q.store, Persist(Put(q.store, j, job, t)), id)
    {
      PutCanceled(q.store, j, job, t, id);
    }
    if a.Resolve? {
      ResolvePuts(q, a.id, a.resolution);
      hide DoResolve, TallyOf, Put, Persist, SameCanceled;
    } else {
      NewCanceled(q, a, id);
    }
  }

  lemma NewCanceled(q: Queue, a: Action, id: Id)
    requires Enabled(q, a) && !a.Resolve?
    ensures SameCanceled(q.store, Next(q, a).store, id)
  {
    hide Sendable, Handed, HasKey, ToResume, ToWatch, Remove, Resumed, Rejected, DoResolve, DoSendEnds;
    if a.SendEnds? { EndCanceled(q, a.p, a.outcome, id); }
    if a.Process? {}
    if a.SaveFails? {}
    if a.QueryEnds? {}
    if a.WatchEnds? {}
  }

  lemma EndCanceled(q: Queue, p: ProcId, outcome: Outcome, id: Id)
    requires CanSendEnd(q, p)
    ensures SameCanceled(q.store, DoSendEnds(q, p, outcome).store, id)
  {
    hide EndStatus;
  }

  lemma {:induction false} RunCancels(q: Queue, run: seq<Action>, id: Id)
    requires IsRun(q, run) && NoCancel(run)
    ensures TallyOf(Exec(q, run).store, id).canceled == TallyOf(q.store, id).canceled
    decreases |run|
  {
    if run != [] {
      StepCancels(q, run[0], id);
      hide Enabled, Next;
      RunCancels(Next(q, run[0]), run[1..], id);
    }
  }

  /** Without cancellations: at most one print plus one for each time the operator confirmed that
      nothing was printed. */
  lemma {:induction false} PrintsWithoutCancel(max: int, run: seq<Action>, id: Id)
    requires IsRun(Fresh(max), run) && Reliable(run) && NoCancel(run)
    ensures var t := TallyOf(Exec(Fresh(max), run).store, id);
            MayHavePrinted(t) <= 1 + t.notPrinted
  {
    PrintsAreAccountedFor(max, run, id);
    RunCancels(Fresh(max), run, id);
    NothingRecorded(max, id);
    hide Fresh, Exec, IsRun;
  }
}
