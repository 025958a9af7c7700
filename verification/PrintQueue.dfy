/** The print queue object. Each method is the code between two await points; whole runs are treated
    with the model, whose invariants every method keeps. */
module PrintQueueObject {
  import opened Wrappers
  import opened PrintQueueModel
  import opened PrintQueueShape
  import opened PrintQueueSafety
  import opened PrintQueueAttempts

  /** The statuses of a job that `process` leaves alone. */
  predicate Refused(status: Status) {
    status in {Printed, Unknown, Accepted, Spooled}
  }

  class PrintQueue {
    const maxAttempts: int
    // The jobs, with the tail of the snapshot writes and the file they replace.
    var store: Store
    var active: set<Id>
    var retryAfterActive: set<Id>
    var retryTimers: multiset<Id>
    var monitoring: map<Id, Watch>
    // The calls that are suspended.
    var calls: multiset<Id>
    var adds: map<Id, nat>
    var procs: map<ProcId, Proc>
    var monitorCalls: multiset<Id>

    ghost function State(): Queue
      reads this
    {
      Queue(maxAttempts, store, active, retryAfterActive, retryTimers, calls, adds, procs, monitorCalls, monitoring)
    }

    /** Calls, watches and snapshots fit together, and attempts stay within what clients asked for. */
    ghost predicate Valid()
      reads this
    {
      Inv(State()) && AttemptsOk(State())
    }

    /** No job can print more often than the operator accounted for. */
    ghost predicate OnAccount()
      reads this
    {
      Accounted(State())
    }

    constructor (maxAttempts: int)
      ensures State() == Fresh(maxAttempts) && Valid() && OnAccount()
    {
      this.maxAttempts := maxAttempts;
      store := Store(map[], map[], 0, 0, None, false, map[]);
      active, retryAfterActive, retryTimers, monitoring := {}, {}, multiset{}, map[];
      calls, adds, procs, monitorCalls := multiset{}, map[], map[], multiset{};
    }

    /** The caller gets the one job with its key, new or known. */
    method Enqueue(key: string, newId: Id) returns (id: Id)
      requires Valid() && newId !in store.tally && newId !in store.jobs
      modifies this
      ensures Valid() && (old(OnAccount()) ==> OnAccount())
      ensures id in store.jobs && forall j :: j in store.jobs ==> (store.jobs[j].key == key <==> j == id)
      ensures HasKey(old(store.jobs), key) ==>
                && store.jobs == old(store.jobs) && adds == old(adds)
                && calls == old(calls) + if Refused(store.jobs[id].status) then multiset{} else multiset{id}
      ensures !HasKey(old(store.jobs), key) ==>
                && store.jobs == old(store.jobs)[newId := Job(key, Pending, 0)] && id in adds && calls == old(calls)
      ensures if HasKey(old(store.jobs), key)
              then id in old(store.jobs) && State() == DoAddAgain(old(State()), id)
              else id == newId && CanAdd(old(State()), id, key) && State() == DoAdd(old(State()), id, key)
    {
      hide Inv, AttemptsOk, Accounted, Sendable, TallyOf, OneJobPerKey;
      ghost var before := State();
      if existing :| existing in store.jobs && store.jobs[existing].key == key {
        id := existing;
        var job, t := store.jobs[id], TallyOf(store, id);
        store := Put(store, id, job, t.(reenqueued := t.reenqueued + 1));
        RefusedMeans(job.status);
        if Sendable(job.status) {
          calls := calls + multiset{id};
        }
        KeptAgain(before, id);
      } else {
        id := newId;
        store := Persist(Put(store, id, Job(key, Pending, 0), Tally(0, 0, 0, 0, 0)));
        adds := adds[id := store.issued];
        KeptAdd(before, newId, key);
      }
      UniqueKeys(State(), id);
    }

    /** `enqueue` goes on once its snapshot is written, and hands its job to `process`. */
    method Added(id: Id)
      requires Valid() && Enabled(State(), Action.Added(id))
      modifies this
      ensures Valid() && (old(OnAccount()) ==> OnAccount())
      ensures State() == DoAdded(old(State()), id)
      ensures id !in adds && calls == old(calls) + multiset{id} && store == old(store)
    {
      hide Inv, AttemptsOk, Accounted;
      ghost var before := State();
      adds := adds - {id};
      calls := calls + multiset{id};
      Kept(before, Action.Added(id));
    }

    method TimerFires(id: Id)
      requires Valid() && id in retryTimers
      modifies this
      ensures Valid() && (old(OnAccount()) ==> OnAccount())
      ensures State() == DoTimerFires(old(State()), id)
      ensures calls == old(calls) + multiset{id} && store == old(store)
    {
      hide Inv, AttemptsOk, Accounted;
      ghost var before := State();
      retryTimers := retryTimers - multiset{id};
      calls := calls + multiset{id};
      Kept(before, Action.TimerFires(id));
    }

    /** `process` reaches its guard. A job it starts counts one more attempt, within what was asked
        for, and is in nobody else's hands; a job already being processed is left alone. */
    method Process(id: Id, p: ProcId)
      requires Valid() && id in calls && p !in procs
      modifies this
      ensures Valid() && (old(OnAccount()) ==> OnAccount())
      ensures State() == DoProcess(old(State()), id, p)
      ensures p in procs <==> id in old(store.jobs) && old(id !in active) && !Refused(old(store.jobs)[id].status)
      ensures p !in procs ==> store == old(store) && procs == old(procs)
      ensures p in procs ==>
                && procs[p].id == id && id in active
                && store.jobs == old(store.jobs)[id := store.jobs[id]] && store.jobs[id].status == Accepted
                && store.jobs[id].attempts == old(store.jobs)[id].attempts + 1
                && store.jobs[id].attempts <= Allowance(maxAttempts, TallyOf(store, id))
                && forall r :: r in procs && procs[r].id == id ==> r == p
    {
      hide Inv, AttemptsOk, Accounted, Sendable, Remove, TallyOf, Allowance;
      ghost var before := State();
      if id in store.jobs { RefusedMeans(store.jobs[id].status); }
      calls := Remove(calls, id);
      if id in store.jobs && id !in active && Sendable(store.jobs[id].status) {
        var job := store.jobs[id];
        active := active + {id};
        store := Persist(Put(store, id, job.(attempts := job.attempts + 1, status := Accepted), TallyOf(store, id)));
        procs := procs[p := Proc(id, Saving(store.issued))];
      }
      Kept(before, Action.Process(id, p));
      if p in procs { Alone(State(), p); AttemptsAllowed(State(), id); }
    }

    /** The snapshot is written, so the transport may have the job: the file says so already, no
        restart from it sends the job, and no other call is sending it. */
    method StartSend(p: ProcId)
      requires Valid() && CanStartSend(State(), p)
      modifies this
      ensures Valid() && (old(OnAccount()) ==> OnAccount())
      ensures State() == DoStartSend(old(State()), p)
      ensures AcceptedIn(store.disk, procs[p].id) && procs[p].id !in ToResume(store.disk, maxAttempts)
      ensures forall r :: r in procs && procs[r].id == procs[p].id ==> r == p
    {
      hide Inv, AttemptsOk, Accounted, TallyOf;
      ghost var before := State();
      var id := procs[p].id;
      var t := TallyOf(store, id);
      store := Put(store, id, store.jobs[id], t.(started := t.started + 1));
      procs := procs[p := Proc(id, Sending)];
      Kept(before, Action.StartSend(p));
      Alone(State(), p);
      OnDisk(State(), p);
    }

    /** The transport answered or failed; the catch block tells an UnknownPrintError apart. Only an
        ordinary error takes back that the send may have printed. */
    method SendEnds(p: ProcId, outcome: Outcome)
      requires Valid() && CanSendEnd(State(), p)
      modifies this
      ensures Valid() && (old(OnAccount()) ==> OnAccount())
      ensures State() == DoSendEnds(old(State()), p, outcome)
      ensures var id := procs[p].id;
              && store.jobs[id].status ==
                 (match outcome case Returned(s) => s case Threw => Error case ThrewUnknown => Unknown)
              && store.jobs[id].attempts == old(store.jobs)[id].attempts
              && MayHavePrinted(TallyOf(store, id)) ==
                   MayHavePrinted(old(TallyOf(store, procs[p].id)))
                   - if outcome in {Threw, Returned(Error)} then 1 else 0
    {
      hide Inv, AttemptsOk, Accounted, Sendable;
      ghost var before := State();
      var id := procs[p].id;
      var job, t := store.jobs[id], TallyOf(store, id);
      match outcome {
        case Returned(status) =>
          store := Put(store, id, job.(status := status), if status == Error then t.(blank := t.blank + 1) else t);
          store := Persist(store);
          procs := procs[p := Proc(id, SavingResult(store.issued, status))];
        case Threw =>
          store := Put(store, id, job.(status := Error), t.(blank := t.blank + 1));
          store := Persist(store);
          procs := procs[p := Proc(id, SavingFailure(store.issued))];
        case ThrewUnknown =>
          store := Put(store, id, job.(status := Unknown), t);
          store := Persist(store);
          procs := procs[p := Proc(id, SavingFailure(store.issued))];
      }
      Kept(before, Action.SendEnds(p, outcome));
    }

    /** The `finally` block. */
    method LeaveProcess(p: ProcId)
      requires p in procs
      modifies this`active, this`procs, this`retryAfterActive, this`calls
      ensures State() == Leave(old(State()), p)
    {
      var id := procs[p].id;
      active := active - {id};
      procs := procs - {p};
      if id in retryAfterActive {
        calls := calls + multiset{id};
      }
      retryAfterActive := retryAfterActive - {id};
    }

    /** The last snapshot of `process` is written. Nobody has the job then, at most one watch may write
        it, a watch begins exactly for a job handed over, a timer is set exactly for an error with
        attempts left, and the job is called again exactly if that was asked for meanwhile. */
    method Finish(p: ProcId)
      requires Valid() && CanFinish(State(), p)
      modifies this
      ensures Valid() && (old(OnAccount()) ==> OnAccount())
      ensures State() == DoFinish(old(State()), p)
      ensures var id, stage := old(procs[p].id), old(procs[p].stage);
              && id !in active && (forall r :: r in procs ==> procs[r].id != id)
              && Watches(monitorCalls, monitoring, id) <= 1 && store == old(store)
              && monitorCalls == old(monitorCalls)
                   + (if stage.SavingResult? && stage.result in {Accepted, Spooled} then multiset{id} else multiset{})
              && retryTimers == old(retryTimers)
                   + (if stage.SavingFailure? && store.jobs[id].status == Error && store.jobs[id].attempts < maxAttempts
                      then multiset{id} else multiset{})
              && calls == old(calls) + if id in old(retryAfterActive) then multiset{id} else multiset{}
    {
      hide Inv, AttemptsOk, Accounted, Watches, Resumed, TallyOf;
      ghost var before := State();
      var id, stage := procs[p].id, procs[p].stage;
      if stage.SavingResult? {
        if stage.result == Accepted || stage.result == Spooled {
          monitorCalls := monitorCalls + multiset{id};
        }
      } else if store.jobs[id].status == Error && store.jobs[id].attempts < maxAttempts {
        retryTimers := retryTimers + multiset{id};
      }
      LeaveProcess(p);
      assert State() == DoFinish(before, p);
      KeptFinish(before, p);
      FinishMeans(before, p);
    }

    /** A snapshot of `process` was rejected; the one its catch block asks for is rejected too. Nobody
        has the job then, and no later snapshot is written in this process. */
    method SaveFails(p: ProcId)
      requires Valid() && CanSaveFail(State(), p)
      modifies this
      ensures Valid() && (old(OnAccount()) ==> OnAccount())
      ensures State() == DoSaveFails(old(State()), p)
      ensures var id := old(procs[p].id);
              && id !in active && (forall r :: r in procs ==> procs[r].id != id)
              && store.broken && store.done == old(store.done) && store.disk == old(store.disk)
              && TallyOf(store, id) == old(TallyOf(store, procs[p].id))
              && (!old(procs[p].stage.SavingFailure?) ==> store.jobs[id].status == Error)
    {
      hide Inv, AttemptsOk, Accounted;
      ghost var before := State();
      var id := procs[p].id;
      if !procs[p].stage.SavingFailure? {
        store := Persist(SetStatus(store, id, Error));
      }
      LeaveProcess(p);
      Kept(before, Action.SaveFails(p));
      Nobodys(State(), id);
    }

    /** `monitor` reaches its guard: there is one watch of the job, however often it is called. */
    method Monitor(id: Id)
      requires Valid() && id in monitorCalls
      modifies this
      ensures Valid() && (old(OnAccount()) ==> OnAccount())
      ensures State() == DoMonitor(old(State()), id)
      ensures id in monitoring && Watches(monitorCalls, monitoring, id) <= 1
      ensures monitoring == if id in old(monitoring) then old(monitoring) else old(monitoring)[id := Sleeping(0)]
    {
      hide Inv, AttemptsOk, Accounted, Watches;
      ghost var before := State();
      monitorCalls := monitorCalls - multiset{id};
      if id !in monitoring {
        monitoring := monitoring[id := Sleeping(0)];
      }
      Kept(before, Action.Monitor(id));
      OneWatcher(State(), id);
    }

    /** A watch asks the transport while its job may still be printing. */
    method Wake(id: Id, hasQuery: bool)
      requires Valid() && CanWake(State(), id)
      modifies this
      ensures Valid() && (old(OnAccount()) ==> OnAccount())
      ensures State() == DoWake(old(State()), id, hasQuery)
      ensures id in monitoring <==> hasQuery && id in store.jobs && store.jobs[id].status !in {Printed, Error, Unknown}
      ensures id in monitoring ==> monitoring[id] == Querying(old(monitoring)[id].attempt)
    {
      hide Inv, AttemptsOk, Accounted;
      ghost var before := State();
      if id !in store.jobs || store.jobs[id].status in {Printed, Error, Unknown} || !hasQuery {
        monitoring := monitoring - {id};
      } else {
        monitoring := monitoring[id := Querying(monitoring[id].attempt)];
      }
      Kept(before, Action.Wake(id, hasQuery));
    }

    /** A watch writes what the query reported: only its own job, which no `process` call has. The
        account holds on unless the transport breaks its contract and reports an error. */
    method QueryEnds(id: Id, report: Report)
      requires Valid() && CanQueryEnd(State(), id)
      modifies this
      ensures Valid() && (old(OnAccount()) && report != Error ==> OnAccount())
      ensures State() == DoQueryEnds(old(State()), id, report)
      ensures id !in active && (forall r :: r in procs ==> procs[r].id != id)
      ensures store.jobs == old(store.jobs)[id := old(store.jobs)[id].(status := report)]
      ensures calls == old(calls) && retryTimers == old(retryTimers)
    {
      hide Inv, AttemptsOk, Accounted;
      ghost var before := State();
      store := Persist(SetStatus(store, id, report));
      if report == Accepted || report == Spooled {
        monitoring := monitoring[id := SavingStatus(monitoring[id].attempt, store.issued)];
      } else {
        monitoring := monitoring[id := SavingLast(store.issued)];
      }
      KeptQueryEnds(before, id, report);
    }

    /** The snapshot a watch awaits is written or rejected, or its query failed. It may write its job
        once more: a job still handed over after the last round becomes unknown. */
    method WatchEnds(id: Id)
      requires Valid() && CanWatchEnd(State(), id)
      modifies this
      ensures Valid() && (old(OnAccount()) ==> OnAccount())
      ensures State() == DoWatchEnds(old(State()), id)
      ensures store.jobs != old(store.jobs) ==>
                && id in old(store.jobs) && Handed(old(store.jobs)[id].status) && id !in active
                && store.jobs == old(store.jobs)[id := old(store.jobs)[id].(status := Unknown)]
      ensures var watch := old(monitoring)[id];
              if !watch.SavingStatus? || !Resumed(old(store), watch.ticket) then id !in monitoring
              else if watch.attempt + 1 < 20 then id in monitoring && monitoring[id] == Sleeping(watch.attempt + 1)
              else id in store.jobs ==> store.jobs[id].status !in {Accepted, Spooled}
    {
      hide Inv, AttemptsOk, Accounted;
      ghost var before := State();
      var watch := monitoring[id];
      if !watch.SavingLast? { Unattended(before, id); }
      if watch.SavingStatus? && Resumed(store, watch.ticket) && watch.attempt + 1 < WATCH_LIMIT {
        monitoring := monitoring[id := Sleeping(watch.attempt + 1)];
      } else if watch.SavingStatus? && Resumed(store, watch.ticket) && id in store.jobs
                && store.jobs[id].status in {Accepted, Spooled} {
        store := Persist(SetStatus(store, id, Unknown));
        monitoring := monitoring[id := SavingLast(store.issued)];
      } else {
        monitoring := monitoring - {id};
      }
      Kept(before, Action.WatchEnds(id));
    }

    /** Only a job of unknown outcome is resolved. Each resolution but `confirm_printed` allows one
        more print, and `confirm_not_printed` asks for one more call, now or after the running one. */
    method Resolve(id: Id, resolution: Resolution)
      requires Valid()
      modifies this
      ensures Valid() && (old(OnAccount()) ==> OnAccount())
      ensures if CanResolve(old(State()), id)
              then State() == DoResolve(old(State()), id, resolution) else State() == old(State())
      ensures CanResolve(old(State()), id) ==>
                && store.jobs == old(store.jobs)[id := store.jobs[id]]
                && store.jobs[id].status == (match resolution case ConfirmPrinted => Printed
                                                              case ConfirmNotPrinted => Pending
                                                              case Cancel => Error)
                && store.jobs[id].attempts ==
                     (if resolution.ConfirmNotPrinted? then 0 else old(store.jobs)[id].attempts)
                && Budget(TallyOf(store, id)) == Budget(old(TallyOf(store, id)))
                   + (if resolution.ConfirmPrinted? then 0 else 1)
                && (resolution.ConfirmNotPrinted? ==>
                   store.jobs[id].status == Pending && (id in calls || id in retryAfterActive))
                && (!resolution.ConfirmNotPrinted? ==> calls == old(calls) && retryAfterActive == old(retryAfterActive))
    {
      hide Inv, AttemptsOk, Accounted, Budget, TallyOf, Put, Persist;
      ghost var before := State();
      if id !in store.jobs || store.jobs[id].status != Unknown {
        return;
      }
      var job, t := store.jobs[id], TallyOf(store, id);
      match resolution {
        case ConfirmPrinted =>
          store := Put(store, id, job.(status := Printed), t);
        case ConfirmNotPrinted =>
          store := Put(store, id, job.(status := Pending, attempts := 0), t.(notPrinted := t.notPrinted + 1));
          if id in active {
            retryAfterActive := retryAfterActive + {id};
          } else {
            calls := calls + multiset{id};
          }
        case Cancel =>
          store := Put(store, id, job.(status := Error), t.(canceled := t.canceled + 1));
      }
      store := Persist(store);
      assert State() == DoResolve(before, id, resolution);
      KeptResolve(before, id, resolution);
      ResolveMeans(before, id, resolution);
    }

    /** The next queued write serializes the jobs. */
    method Serialize()
      requires Valid() && CanSerialize(State())
      modifies this
      ensures Valid() && (old(OnAccount()) ==> OnAccount())
      ensures State() == DoSerialize(old(State()))
    {
      hide Inv, AttemptsOk, Accounted;
      ghost var before := State();
      store := store.(temp := Some(store.jobs));
      Kept(before, Action.Serialize);
    }

    method Rename()
      requires Valid() && CanRename(State())
      modifies this
      ensures Valid() && (old(OnAccount()) ==> OnAccount())
      ensures State() == DoRename(old(State()))
    {
      hide Inv, AttemptsOk, Accounted;
      ghost var before := State();
      store := store.(disk := store.temp.value, temp := None, done := store.done + 1);
      Kept(before, Action.Rename);
    }

    /** A write that is under way fails. */
    method WriteFails()
      requires Valid() && !store.broken && store.done < store.issued
      modifies this
      ensures Valid() && (old(OnAccount()) ==> OnAccount())
      ensures State() == DoWriteFails(old(State()))
    {
      hide Inv, AttemptsOk, Accounted;
      ghost var before := State();
      store := store.(broken := true, temp := None);
      Kept(before, Action.WriteFails);
    }

    /** A crash loses everything that was running. */
    method Crash()
      modifies this`active, this`retryAfterActive, this`retryTimers, this`monitoring, this`adds, this`procs
      ensures active == {} && retryAfterActive == {} && retryTimers == multiset{} && monitoring == map[]
      ensures adds == map[] && procs == map[]
    {
      active, retryAfterActive, retryTimers, monitoring, adds, procs := {}, {}, multiset{}, map[], map[], map[];
    }

    /** `load` in the next process: only the file is left. Each job it resumes is called once, has
        attempts left and was not handed over, so it has budget; each job handed over is watched. */
    method Restart()
      requires Valid()
      modifies this
      ensures Valid() && (old(OnAccount()) ==> OnAccount())
      ensures State() == DoRestart(old(State()))
      ensures store.jobs == old(store.disk)
      ensures forall id :: id in calls <==>
                id in store.jobs && !Refused(store.jobs[id].status) && store.jobs[id].attempts < maxAttempts
      ensures forall id :: id in calls ==>
                && id in store.jobs && calls[id] == 1 && store.jobs[id].attempts < maxAttempts
                && !Handed(store.jobs[id].status) && id !in monitorCalls
                && (old(OnAccount()) ==> Budget(TallyOf(store, id)) >= 1)
      ensures forall id :: id in store.jobs && Handed(store.jobs[id].status) ==> monitorCalls[id] == 1
    {
      hide Inv, AttemptsOk, Accounted, ResumeCalls, WatchCalls;
      ghost var before := State();
      Crash();
      store := Store(store.disk, store.tally, 0, 0, None, false, store.disk);
      calls := ResumeCalls(store.jobs, maxAttempts);
      monitorCalls := WatchCalls(store.jobs);
      Kept(before, Action.Restart);
      Restarted(before);
    }
  }

  // ----- what the methods rest on

  lemma RefusedMeans(status: Status)
    ensures Refused(status) <==> !Sendable(status)
  {
  }

  lemma Kept(q: Queue, a: Action)
    requires Inv(q) && AttemptsOk(q) && Enabled(q, a)
    ensures Inv(Next(q, a)) && AttemptsOk(Next(q, a))
    ensures Accounted(q) && (a.QueryEnds? ==> a.report != Error) ==> Accounted(Next(q, a))
  {
    hide Inv, AttemptsOk, Accounted, Enabled, Next;
    StepKeeps(q, a);
    StepLines(q, a);
    if Accounted(q) && (a.QueryEnds? ==> a.report != Error) { StepAccounted(q, a); }
  }

  lemma KeptAgain(q: Queue, id: Id)
    requires Inv(q) && AttemptsOk(q) && id in q.store.jobs
    ensures Inv(DoAddAgain(q, id)) && AttemptsOk(DoAddAgain(q, id))
    ensures Accounted(q) ==> Accounted(DoAddAgain(q, id))
  {
    hide Inv, AttemptsOk, Accounted;
    Kept(q, AddAgain(id));
  }

  lemma KeptAdd(q: Queue, newId: Id, key: string)
    requires Inv(q) && AttemptsOk(q) && CanAdd(q, newId, key)
    ensures Inv(DoAdd(q, newId, key)) && AttemptsOk(DoAdd(q, newId, key))
    ensures Accounted(q) ==> Accounted(DoAdd(q, newId, key))
  {
    hide Inv, AttemptsOk, Accounted, HasKey;
    Kept(q, Add(newId, key));
  }

  lemma KeptFinish(q: Queue, p: ProcId)
    requires Inv(q) && AttemptsOk(q) && CanFinish(q, p)
    ensures Inv(DoFinish(q, p)) && AttemptsOk(DoFinish(q, p))
    ensures Accounted(q) ==> Accounted(DoFinish(q, p))
  {
    hide Inv, AttemptsOk, Accounted;
    Kept(q, Finish(p));
  }

  lemma FinishMeans(q: Queue, p: ProcId)
    requires Inv(q) && CanFinish(q, p)
    ensures var q', id, stage := DoFinish(q, p), q.procs[p].id, q.procs[p].stage;
            && id !in q'.active && (forall r :: r in q'.procs ==> q'.procs[r].id != id)
            && Watches(q'.monitorCalls, q'.monitoring, id) <= 1 && q'.store == q.store
            && q'.monitorCalls == q.monitorCalls
                 + (if stage.SavingResult? && stage.result in {Accepted, Spooled} then multiset{id} else multiset{})
            && q'.retryTimers == q.retryTimers
                 + (if stage.SavingFailure? && q.store.jobs[id].status == Error && q.store.jobs[id].attempts < q.max
                    then multiset{id} else multiset{})
            && q'.calls == q.calls + if id in q.retryAfterActive then multiset{id} else multiset{}
  {
    hide Inv, Watches;
    FinishKeeps(q, p);
    Nobodys(DoFinish(q, p), q.procs[p].id);
    OneWatcher(DoFinish(q, p), q.procs[p].id);
  }

  lemma KeptResolve(q: Queue, id: Id, r: Resolution)
    requires Inv(q) && AttemptsOk(q) && CanResolve(q, id)
    ensures Inv(DoResolve(q, id, r)) && AttemptsOk(DoResolve(q, id, r))
    ensures Accounted(q) ==> Accounted(DoResolve(q, id, r))
  {
    hide Inv, AttemptsOk, Accounted, DoResolve;
    Kept(q, Resolve(id, r));
  }

  lemma KeptQueryEnds(q: Queue, id: Id, report: Report)
    requires Inv(q) && AttemptsOk(q) && CanQueryEnd(q, id)
    ensures Inv(DoQueryEnds(q, id, report)) && AttemptsOk(DoQueryEnds(q, id, report))
    ensures Accounted(q) && report != Error ==> Accounted(DoQueryEnds(q, id, report))
    ensures id !in q.active && forall r :: r in q.procs ==> q.procs[r].id != id
  {
    hide Inv, AttemptsOk, Accounted;
    Kept(q, QueryEnds(id, report));
    Unattended(q, id);
    Nobodys(q, id);
  }

  lemma UniqueKeys(q: Queue, id: Id)
    requires Inv(q) && id in q.store.jobs
    ensures forall j :: j in q.store.jobs ==> (q.store.jobs[j].key == q.store.jobs[id].key <==> j == id)
  {
    hide ProcsOk, ActiveOk, WatchesOk;
  }

  lemma Alone(q: Queue, p: ProcId)
    requires Inv(q) && p in q.procs
    ensures forall r :: r in q.procs && q.procs[r].id == q.procs[p].id ==> r == p
  {
    hide StoreOk, ProcsOk, WatchesOk;
  }

  lemma Nobodys(q: Queue, id: Id)
    requires Inv(q) && id !in q.active
    ensures forall r :: r in q.procs ==> q.procs[r].id != id
  {
    hide StoreOk, ProcsOk, WatchesOk;
  }

  lemma AttemptsAllowed(q: Queue, id: Id)
    requires AttemptsOk(q) && id in q.store.jobs
    ensures q.store.jobs[id].attempts <= Allowance(q.max, TallyOf(q.store, id))
  {
    hide Within, Allowance;
    LineOf(q, id);
  }

  lemma OnDisk(q: Queue, p: ProcId)
    requires Inv(q) && p in q.procs && q.procs[p].stage.Sending?
    ensures AcceptedIn(q.store.disk, q.procs[p].id) && q.procs[p].id !in ToResume(q.store.disk, q.max)
  {
    hide StoreOk, ActiveOk, WatchesOk;
    assert ProcOk(q.store, q.procs[p]);
  }

  lemma OneWatcher(q: Queue, id: Id)
    requires Inv(q)
    ensures Watches(q.monitorCalls, q.monitoring, id) <= 1
  {
    hide StoreOk, ProcsOk, ActiveOk, Watches;
    WatchOf(q, id);
  }

  lemma Unattended(q: Queue, id: Id)
    requires Inv(q) && id in q.monitoring && !q.monitoring[id].SavingLast?
    ensures id !in q.active
  {
    hide Inv;
    WatchFacts(q, id);
  }

  lemma ResolveMeans(q: Queue, id: Id, r: Resolution)
    requires CanResolve(q, id)
    ensures var q' := DoResolve(q, id, r);
            && id in q'.store.jobs && q'.store.jobs == q.store.jobs[id := q'.store.jobs[id]]
            && q'.store.jobs[id].status == (match r case ConfirmPrinted => Printed
                                                    case ConfirmNotPrinted => Pending
                                                    case Cancel => Error)
            && q'.store.jobs[id].attempts == (if r.ConfirmNotPrinted? then 0 else q.store.jobs[id].attempts)
            && Budget(TallyOf(q'.store, id)) == Budget(TallyOf(q.store, id)) + (if r.ConfirmPrinted? then 0 else 1)
            && (r.ConfirmNotPrinted? ==>
                  q'.store.jobs[id].status == Pending && (id in q'.calls || id in q'.retryAfterActive))
            && (!r.ConfirmNotPrinted? ==> q'.calls == q.calls && q'.retryAfterActive == q.retryAfterActive)
  {
    hide Budget, TallyOf;
    ResolvedAccount(q, id, r);
  }

  lemma ResolvedAccount(q: Queue, id: Id, r: Resolution)
    requires CanResolve(q, id)
    ensures Budget(TallyOf(DoResolve(q, id, r).store, id)) == Budget(TallyOf(q.store, id))
            + (if r.ConfirmPrinted? then 0 else 1)
  {
    hide DoResolve;
    ResolvePuts(q, id, r);
  }

  lemma Restarted(q: Queue)
    requires Inv(q)
    ensures var q' := DoRestart(q);
            && (forall id :: id in q'.calls <==>
                  id in q'.store.jobs && !Refused(q'.store.jobs[id].status) && q'.store.jobs[id].attempts < q.max)
            && (forall id :: id in q'.calls ==>
                  && id in q'.store.jobs && q'.calls[id] == 1 && q'.store.jobs[id].attempts < q.max
                  && !Handed(q'.store.jobs[id].status) && id !in q'.monitorCalls
                  && (Accounted(q) ==> Budget(TallyOf(q'.store, id)) >= 1))
            && (forall id :: id in q'.store.jobs && Handed(q'.store.jobs[id].status) ==> q'.monitorCalls[id] == 1)
  {
    hide Inv, Budget, SendsPaid;
  }
}
