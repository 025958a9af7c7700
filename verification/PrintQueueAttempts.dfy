/** How often the queue tries one receipt. */
module PrintQueueAttempts {
  import opened Wrappers
  import opened PrintQueueModel
  import opened PrintQueueShape

  function Allowance(max: int, t: Tally): int {
    (if max < 1 then 1 else max) + t.reenqueued
  }

  function One(b: bool): nat {
    if b then 1 else 0
  }

  /** Calls of `process` to come that nothing can take back. */
  function Coming(q: Queue, id: Id): nat {
    q.retryTimers[id] + q.calls[id] + One(id in q.adds)
  }

  /** Whether something may still lead to another call: a running one, a watch, or the operator. */
  predicate Open(q: Queue, id: Id) {
    id in q.active || (id in q.store.jobs && (Handed(q.store.jobs[id].status) || q.store.jobs[id].status == Unknown))
  }

  /** Each client request keeps at most one line of calls going, and a line goes on from a failed
      attempt only while attempts are left. */
  ghost predicate LinesOk(q: Queue, id: Id) {
    && (id in q.retryAfterActive ==> id in q.active && id in q.store.jobs && q.store.jobs[id].status == Pending)
    && (if id in q.store.jobs then
          var t := TallyOf(q.store, id);
          && Coming(q, id) + One(Open(q, id)) <= 1 + t.reenqueued
          && q.store.jobs[id].attempts + Coming(q, id) + One(id in q.retryAfterActive) <= Allowance(q.max, t)
        else Coming(q, id) == 0)
  }

  ghost predicate Within(jobs: Jobs, max: int, st: Store) {
    forall id :: id in jobs ==> jobs[id].attempts <= Allowance(max, TallyOf(st, id))
  }

  ghost predicate AttemptsOk(q: Queue) {
    && (forall id :: LinesOk(q, id))
    && Within(q.store.disk, q.max, q.store) && (q.store.temp.Some? ==> Within(q.store.temp.value, q.max, q.store))
  }

  /** A step that concerns job `id` only. */
  ghost predicate Elsewhere(q: Queue, q': Queue, id: Id) {
    && q'.max == q.max && OnlyJob(q.store, q'.store, id)
    && TallyOf(q'.store, id).reenqueued >= TallyOf(q.store, id).reenqueued
    && (forall j :: j != id ==>
          && Coming(q', j) == Coming(q, j) && (j in q'.store.jobs <==> j in q.store.jobs)
          && (j in q'.active <==> j in q.active) && (j in q'.retryAfterActive <==> j in q.retryAfterActive)
          && TallyOf(q'.store, j) == TallyOf(q.store, j))
  }

  lemma StepElsewhere(q: Queue, q': Queue, id: Id)
    requires AttemptsOk(q) && Elsewhere(q, q', id) && LinesOk(q', id)
    ensures AttemptsOk(q')
  {
    forall j | j != id ensures LinesOk(q', j) {
      assert LinesOk(q, j);
    }
  }

  lemma LineOf(q: Queue, id: Id)
    requires AttemptsOk(q)
    ensures LinesOk(q, id)
  {
  }

  lemma AddLines(q: Queue, newId: Id, key: string)
    requires Inv(q) && AttemptsOk(q) && CanAdd(q, newId, key)
    ensures AttemptsOk(DoAdd(q, newId, key))
  {
    hide AttemptsOk, LinesOk, HasKey, Inv;
    NotActive(q, newId);
    LineOf(q, newId);
    AddLine(q, newId, key);
    StepElsewhere(q, DoAdd(q, newId, key), newId);
  }

  lemma NotActive(q: Queue, id: Id)
    requires Inv(q) && id !in q.store.jobs
    ensures id !in q.active
  {
    hide StoreOk, WatchesOk;
    ActiveHasJob(q);
  }

  lemma AddLine(q: Queue, newId: Id, key: string)
    requires LinesOk(q, newId) && CanAdd(q, newId, key) && newId !in q.active
    ensures LinesOk(DoAdd(q, newId, key), newId)
  {
    hide HasKey;
  }

  lemma AgainLines(q: Queue, id: Id)
    requires LinesOk(q, id) && id in q.store.jobs
    ensures LinesOk(DoAddAgain(q, id), id)
  {
    hide Sendable;
  }

  lemma AddAgainLines(q: Queue, id: Id)
    requires AttemptsOk(q) && id in q.store.jobs
    ensures AttemptsOk(DoAddAgain(q, id))
  {
    hide AttemptsOk, LinesOk, Sendable, Allowance, Open, Handed;
    LineOf(q, id);
    AgainLines(q, id);
    StepElsewhere(q, DoAddAgain(q, id), id);
  }

  /** A call on its way gets one step closer to its guard. */
  lemma SameComing(q: Queue, q': Queue, id: Id)
    requires AttemptsOk(q)
    requires q' == q.(calls := q'.calls, adds := q'.adds, retryTimers := q'.retryTimers)
    requires forall j :: if j == id then Coming(q', j) <= Coming(q, j) else Coming(q', j) == Coming(q, j)
    ensures AttemptsOk(q')
  {
    hide AttemptsOk, LinesOk, Coming, Open, Allowance;
    LineOf(q, id);
    SameLine(q, q', id);
    StepElsewhere(q, q', id);
  }

  lemma SameLine(q: Queue, q': Queue, id: Id)
    requires LinesOk(q, id) && q' == q.(calls := q'.calls, adds := q'.adds, retryTimers := q'.retryTimers)
    requires Coming(q', id) <= Coming(q, id)
    ensures LinesOk(q', id)
  {
    hide Coming, Allowance;
  }

  lemma ProcessLine(q: Queue, id: Id, p: ProcId)
    requires LinesOk(q, id) && id in q.calls && Starts(q, id)
    ensures LinesOk(DoProcess(q, id, p), id)
  {
  }

  lemma ProcessLines(q: Queue, id: Id, p: ProcId)
    requires AttemptsOk(q) && id in q.calls
    ensures AttemptsOk(DoProcess(q, id, p))
  {
    hide AttemptsOk, LinesOk, Allowance, Open, Handed, Sendable, Starts;
    var q' := DoProcess(q, id, p);
    if Starts(q, id) {
      LineOf(q, id);
      ProcessLine(q, id, p);
      StepElsewhere(q, q', id);
    } else {
      SameComing(q, q', id);
    }
  }

  lemma StartSendLine(q: Queue, p: ProcId)
    requires CanStartSend(q, p) && LinesOk(q, q.procs[p].id)
    ensures LinesOk(DoStartSend(q, p), q.procs[p].id)
  {
    hide Handed;
  }

  lemma StartSendLines(q: Queue, p: ProcId)
    requires AttemptsOk(q) && CanStartSend(q, p)
    ensures AttemptsOk(DoStartSend(q, p))
  {
    hide AttemptsOk, LinesOk, Allowance, Open, Handed;
    var q', id := DoStartSend(q, p), q.procs[p].id;
    LineOf(q, id);
    StartSendLine(q, p);
    StepElsewhere(q, q', id);
  }

  lemma SendEndsLine(q: Queue, p: ProcId, outcome: Outcome)
    requires CanSendEnd(q, p) && LinesOk(q, q.procs[p].id) && ProcOk(q.store, q.procs[p]) && q.procs[p].id in q.active
    ensures LinesOk(DoSendEnds(q, p, outcome), q.procs[p].id)
  {
    hide EndStatus, Handed;
  }

  lemma SendEndsLines(q: Queue, p: ProcId, outcome: Outcome)
    requires Inv(q) && AttemptsOk(q) && CanSendEnd(q, p)
    ensures AttemptsOk(DoSendEnds(q, p, outcome))
  {
    hide Inv, AttemptsOk, LinesOk, ProcOk, EndStatus, Allowance, Open;
    var q', id := DoSendEnds(q, p, outcome), q.procs[p].id;
    ProcFacts(q, p);
    LineOf(q, id);
    SendEndsLine(q, p, outcome);
    StepElsewhere(q, q', id);
  }

  lemma FinishLine(q: Queue, p: ProcId)
    requires CanFinish(q, p) && LinesOk(q, q.procs[p].id) && ProcOk(q.store, q.procs[p]) && q.procs[p].id in q.active
    ensures LinesOk(DoFinish(q, p), q.procs[p].id)
  {
  }

  lemma FinishLines(q: Queue, p: ProcId)
    requires Inv(q) && AttemptsOk(q) && CanFinish(q, p)
    ensures AttemptsOk(DoFinish(q, p))
  {
    hide Inv, AttemptsOk, LinesOk, ProcOk, Allowance, Open, Handed;
    var q', id := DoFinish(q, p), q.procs[p].id;
    ProcFacts(q, p);
    LineOf(q, id);
    FinishLine(q, p);
    StepElsewhere(q, q', id);
  }

  lemma FailedLines(q: Queue, p: ProcId)
    requires CanSaveFail(q, p) && q.procs[p].id in q.active && LinesOk(q, q.procs[p].id)
    ensures LinesOk(DoSaveFails(q, p), q.procs[p].id)
  {
    if q.procs[p].stage.SavingFailure? { } else { }
  }

  lemma SaveFailsLines(q: Queue, p: ProcId)
    requires Inv(q) && AttemptsOk(q) && CanSaveFail(q, p)
    ensures AttemptsOk(DoSaveFails(q, p))
  {
    hide Inv, AttemptsOk, LinesOk, ProcOk, Allowance, Open;
    var q', id := DoSaveFails(q, p), q.procs[p].id;
    ProcFacts(q, p);
    LineOf(q, id);
    FailedLines(q, p);
    StepElsewhere(q, q', id);
  }

  /** A watch writes the status of a job that was handed over. */
  lemma WatchLines(q: Queue, q': Queue, id: Id, status: Status)
    requires Inv(q) && AttemptsOk(q) && id in q.monitoring && !q.monitoring[id].SavingLast? && id in q.store.jobs
    requires q' == q.(store := Persist(SetStatus(q.store, id, status)), monitoring := q'.monitoring)
    ensures AttemptsOk(q')
  {
    hide Inv, AttemptsOk, LinesOk, Allowance, Open, Handed;
    WatchFacts(q, id);
    LineOf(q, id);
    WatchLine(q, q', id, status);
    StepElsewhere(q, q', id);
  }

  lemma WatchFacts(q: Queue, id: Id)
    requires Inv(q) && id in q.monitoring && !q.monitoring[id].SavingLast?
    ensures id in q.store.jobs && Handed(q.store.jobs[id].status) && id !in q.active
  {
    hide StoreOk, ProcsOk, ActiveOk;
    assert WatchOk(Watches(q.monitorCalls, q.monitoring, id), q.store.jobs, q.active, id);
  }

  lemma WatchLine(q: Queue, q': Queue, id: Id, status: Status)
    requires LinesOk(q, id) && id in q.store.jobs && Handed(q.store.jobs[id].status) && id !in q.active
    requires q' == q.(store := Persist(SetStatus(q.store, id, status)), monitoring := q'.monitoring)
    ensures LinesOk(q', id)
  {
  }

  lemma WatchEndsLines(q: Queue, id: Id)
    requires Inv(q) && AttemptsOk(q) && CanWatchEnd(q, id)
    ensures AttemptsOk(DoWatchEnds(q, id))
  {
    hide Inv, AttemptsOk;
    var q' := DoWatchEnds(q, id);
    if q'.store == q.store { MonitorLines(q, q'); } else { WatchLines(q, q', id, Unknown); }
  }

  /** What the operator decides, seen from the lines of calls. */
  lemma ResolvedLines(q: Queue, id: Id, r: Resolution)
    requires LinesOk(q, id) && CanResolve(q, id)
    ensures LinesOk(DoResolve(q, id, r), id)
  {
    match r
    case ConfirmPrinted =>
    case Cancel =>
    case ConfirmNotPrinted =>
      if id in q.active { } else { }
  }

  lemma ResolveLines(q: Queue, id: Id, r: Resolution)
    requires AttemptsOk(q) && CanResolve(q, id)
    ensures AttemptsOk(DoResolve(q, id, r))
  {
    hide AttemptsOk, LinesOk, Allowance, Open, Handed, ResolvedJob;
    LineOf(q, id);
    ResolvedLines(q, id, r);
    ResolvePuts(q, id, r);
    assert ResolvedTally(TallyOf(q.store, id), r).reenqueued == TallyOf(q.store, id).reenqueued;
    StepElsewhere(q, DoResolve(q, id, r), id);
  }

  lemma FilesLines(q: Queue)
    requires AttemptsOk(q)
    ensures AttemptsOk(DoSerialize(q)) && (CanRename(q) ==> AttemptsOk(DoRename(q))) && AttemptsOk(DoWriteFails(q))
  {
    forall id ensures LinesOk(DoSerialize(q), id) && LinesOk(DoWriteFails(q), id)
      && (CanRename(q) ==> LinesOk(DoRename(q), id))
    {
      assert LinesOk(q, id);
    }
    forall id | id in q.store.jobs ensures q.store.jobs[id].attempts <= Allowance(q.max, TallyOf(q.store, id)) {
      assert LinesOk(q, id);
    }
  }

  lemma RestartLines(q: Queue)
    requires AttemptsOk(q)
    ensures AttemptsOk(DoRestart(q))
  {
    assert Within(q.store.disk, q.max, q.store);
  }

  lemma StepLines(q: Queue, a: Action)
    requires Inv(q) && AttemptsOk(q) && Enabled(q, a)
    ensures AttemptsOk(Next(q, a))
  {
    hide Inv, LinesOk, Within;
    match a
    case Add(newId, key) => AddLines(q, newId, key);
    case AddAgain(id) => AddAgainLines(q, id);
    case Added(id) => SameComing(q, DoAdded(q, id), id);
    case TimerFires(id) => SameComing(q, DoTimerFires(q, id), id);
    case Process(id, p) => ProcessLines(q, id, p);
    case StartSend(p) => StartSendLines(q, p);
    case SendEnds(p, outcome) => SendEndsLines(q, p, outcome);
    case Finish(p) => FinishLines(q, p);
    case SaveFails(p) => SaveFailsLines(q, p);
    case QueryEnds(id, report) => WatchLines(q, DoQueryEnds(q, id, report), id, report);
    case WatchEnds(id) => WatchEndsLines(q, id);
    case Resolve(id, r) => ResolveLines(q, id, r);
    case Serialize => FilesLines(q);
    case Rename => FilesLines(q);
    case WriteFails => FilesLines(q);
    case Restart => RestartLines(q);
    case Monitor(id) => MonitorLines(q, DoMonitor(q, id));
    case Wake(id, hasQuery) => MonitorLines(q, DoWake(q, id, hasQuery));
  }

  lemma MonitorLines(q: Queue, q': Queue)
    requires AttemptsOk(q) && q' == q.(monitorCalls := q'.monitorCalls, monitoring := q'.monitoring)
    ensures AttemptsOk(q')
  {
    forall id ensures LinesOk(q', id) { assert LinesOk(q, id); }
  }

  lemma {:induction false} RunLines(q: Queue, run: seq<Action>)
    requires Inv(q) && AttemptsOk(q) && IsRun(q, run)
    ensures AttemptsOk(Exec(q, run)) && Exec(q, run).max == q.max
    decreases |run|
  {
    hide Inv, AttemptsOk, Enabled, Next;
    if run != [] {
      StepKeeps(q, run[0]);
      StepLines(q, run[0]);
      SameMax(q, run[0]);
      RunLines(Next(q, run[0]), run[1..]);
    }
  }

  lemma SameMax(q: Queue, a: Action)
    requires Enabled(q, a)
    ensures Next(q, a).max == q.max
  {
  }

  /** In every run, whatever timers, watches, the transport, restarts and the operator do, a job's attempts never exceed
      the maximum (at least one) plus the client's repeated requests for it. */
  lemma {:induction false} AttemptsBounded(max: int, run: seq<Action>, id: Id)
    requires IsRun(Fresh(max), run) && id in Exec(Fresh(max), run).store.jobs
    ensures var st := Exec(Fresh(max), run).store;
            st.jobs[id].attempts <= (if max < 1 then 1 else max) + TallyOf(st, id).reenqueued
  {
    FreshOk(max);
    RunLines(Fresh(max), run);
    assert LinesOk(Exec(Fresh(max), run), id);
  }
}
