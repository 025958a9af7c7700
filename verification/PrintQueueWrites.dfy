/** The snapshots of the print queue: each change asks for one, and whoever waits for one waits for
    one that was asked for. */
module PrintQueueWrites {
  import opened Wrappers
  import opened PrintQueueModel
  import opened PrintQueueShape

  ghost predicate Saved(q: Queue, q': Queue) {
    && q'.store.issued in {q.store.issued, q.store.issued + 1}
    && (q'.store.jobs != q.store.jobs ==> q'.store.issued == q.store.issued + 1)
  }

  lemma CallSaves(q: Queue, a: Action)
    requires Enabled(q, a) && (a.Process? || a.StartSend? || a.SendEnds? || a.Finish? || a.SaveFails?)
    ensures Saved(q, Next(q, a))
  {
    hide HasKey, Resumed, Rejected, Remove, TallyOf, Sendable, Handed, EndStatus, DoWatchEnds, DoQueryEnds, DoResolve;
    if a.StartSend? { assert Next(q, a).store.jobs == q.store.jobs; }
  }

  lemma WatchSaves(q: Queue, id: Id, report: Report)
    ensures CanQueryEnd(q, id) ==> Saved(q, DoQueryEnds(q, id, report))
    ensures CanWatchEnd(q, id) ==> Saved(q, DoWatchEnds(q, id))
  {
    hide Resumed, Rejected, TallyOf, Handed;
  }

  lemma OtherSaves(q: Queue, a: Action)
    requires Enabled(q, a) && !a.Restart? && !a.QueryEnds? && !a.WatchEnds? && !a.Monitor? && !a.Wake?
             && !(a.Process? || a.StartSend? || a.SendEnds? || a.Finish? || a.SaveFails?)
    ensures Saved(q, Next(q, a))
  {
    hide HasKey, Resumed, Rejected, Remove, TallyOf, Sendable, Handed, DoProcess, DoStartSend, DoSendEnds, DoFinish,
         DoSaveFails, DoQueryEnds, DoWatchEnds, DoRestart, DoMonitor, DoWake;
    if a.AddAgain? { assert Next(q, a).store.jobs == q.store.jobs; }
  }

  /** Every change of a job asks for one snapshot, and no action asks for two. */
  lemma EveryChangeIsSaved(q: Queue, a: Action)
    requires Enabled(q, a) && !a.Restart?
    ensures Next(q, a).store.issued in {q.store.issued, q.store.issued + 1}
    ensures Next(q, a).store.jobs != q.store.jobs ==> Next(q, a).store.issued == q.store.issued + 1
  {
    hide DoProcess, DoStartSend, DoSendEnds, DoFinish, DoSaveFails, DoQueryEnds, DoWatchEnds, DoResolve, DoAdd,
         DoAddAgain,
         HasKey, CanQueryEnd, CanWatchEnd;
    if a.Process? || a.StartSend? || a.SendEnds? || a.Finish? || a.SaveFails? {
      CallSaves(q, a);
    } else if a.QueryEnds? {
      WatchSaves(q, a.id, a.report);
    } else if a.WatchEnds? {
      WatchSaves(q, a.id, Printed);
    } else if a.Monitor? || a.Wake? {
      assert Next(q, a).store == q.store;
    } else {
      OtherSaves(q, a);
    }
  }

  // ----- what calls and watches wait for

  predicate TicketOk(w: Watch, issued: nat) {
    (w.SavingStatus? || w.SavingLast?) ==> w.ticket <= issued
  }

  ghost predicate TicketsOk(q: Queue) {
    forall id :: id in q.monitoring ==> TicketOk(q.monitoring[id], q.store.issued)
  }

  lemma TicketsLater(q: Queue, q': Queue)
    requires TicketsOk(q) && Saved(q, q')
    requires forall id :: id in q'.monitoring ==> id in q.monitoring && q'.monitoring[id] == q.monitoring[id]
    ensures TicketsOk(q')
  {
    hide TicketOk;
    forall id | id in q'.monitoring ensures TicketOk(q'.monitoring[id], q'.store.issued) {
      TicketLater(q.monitoring[id], q.store.issued, q'.store.issued);
    }
  }

  lemma TicketLater(w: Watch, issued: nat, issued': nat)
    requires TicketOk(w, issued) && issued <= issued'
    ensures TicketOk(w, issued')
  {
  }

  lemma WatchTickets(q: Queue, a: Action)
    requires TicketsOk(q) && Enabled(q, a) && (a.Monitor? || a.Wake? || a.QueryEnds? || a.WatchEnds?)
    ensures TicketsOk(Next(q, a))
  {
    hide Remove, TallyOf, Rejected, Resumed, DoResolve, DoProcess, DoSendEnds, DoFinish, DoSaveFails, HasKey;
  }

  lemma StepTickets(q: Queue, a: Action)
    requires TicketsOk(q) && Enabled(q, a)
    ensures TicketsOk(Next(q, a))
  {
    hide TicketsOk, DoQueryEnds, DoWatchEnds, DoMonitor, DoWake, HasKey, Remove, TallyOf, Put, Persist, Sendable;
    if a.Monitor? || a.Wake? || a.QueryEnds? || a.WatchEnds? {
      WatchTickets(q, a);
    } else if a.Restart? {
      NoTickets(q);
    } else {
      EveryChangeIsSaved(q, a);
      TicketsLater(q, Next(q, a));
    }
  }

  lemma NoTickets(q: Queue)
    ensures TicketsOk(DoRestart(q))
  {
  }

  /** A new job is in every snapshot from the one its `enqueue` waits for on. */
  ghost predicate Recorded(q: Queue) {
    forall id :: id in q.adds ==>
      && id in q.store.jobs && q.adds[id] <= q.store.issued
      && (q.store.done >= q.adds[id] ==> id in q.store.disk)
      && (q.store.temp.Some? && q.store.done + 1 >= q.adds[id] ==> id in q.store.temp.value)
  }

  lemma AddRecords(q: Queue, newId: Id, key: string)
    requires StoreOk(q.store) && Recorded(q) && CanAdd(q, newId, key)
    ensures Recorded(DoAdd(q, newId, key))
  {
    hide HasKey, JobsOk;
  }

  /** Steps that leave the files, the adds and the jobs there are. */
  lemma StillRecorded(q: Queue, q': Queue)
    requires Recorded(q) && q'.adds.Keys <= q.adds.Keys && (forall id :: id in q'.adds ==> q'.adds[id] == q.adds[id])
    requires q'.store.issued >= q.store.issued && q'.store.done == q.store.done && q'.store.disk == q.store.disk
    requires q'.store.temp in {q.store.temp, None} && q.store.jobs.Keys <= q'.store.jobs.Keys
    ensures Recorded(q')
  {
  }

  lemma FilesRecord(q: Queue)
    requires Recorded(q)
    ensures Recorded(DoSerialize(q)) && Recorded(DoRestart(q)) && (CanRename(q) ==> Recorded(DoRename(q)))
  {
  }

  lemma SendRecords(q: Queue, a: Action)
    requires Recorded(q) && Enabled(q, a) && (a.Process? || a.StartSend? || a.SendEnds?)
    ensures Recorded(Next(q, a))
  {
    hide Recorded, HasKey, Remove, TallyOf, Sendable, Handed, EndStatus, Blank, DoWatchEnds, DoQueryEnds, DoRestart,
         DoFinish, DoSaveFails, DoResolve;
    StillRecorded(q, Next(q, a));
  }

  lemma EndRecords(q: Queue, p: ProcId)
    requires Recorded(q)
    ensures CanFinish(q, p) ==> Recorded(DoFinish(q, p))
    ensures CanSaveFail(q, p) ==> Recorded(DoSaveFails(q, p))
  {
    hide Recorded, TallyOf, Handed, Resumed, Rejected;
    if CanFinish(q, p) { StillRecorded(q, DoFinish(q, p)); }
    if CanSaveFail(q, p) { StillRecorded(q, DoSaveFails(q, p)); }
  }

  lemma ResolveRecords(q: Queue, id: Id, r: Resolution)
    requires Recorded(q) && CanResolve(q, id)
    ensures Recorded(DoResolve(q, id, r))
  {
    hide Recorded, TallyOf;
    StillRecorded(q, DoResolve(q, id, r));
  }

  lemma OtherRecords(q: Queue, a: Action)
    requires Recorded(q) && Enabled(q, a)
    requires a.AddAgain? || a.Added? || a.TimerFires? || a.Monitor? || a.Wake? || a.QueryEnds? || a.WatchEnds?
             || a.WriteFails?
    ensures Recorded(Next(q, a))
  {
    hide Recorded, HasKey, Remove, TallyOf, Sendable, Handed, Resumed, Rejected, DoProcess, DoStartSend, DoSendEnds,
         DoFinish, DoSaveFails, DoResolve, DoRestart;
    StillRecorded(q, Next(q, a));
  }

  lemma StepRecords(q: Queue, a: Action)
    requires StoreOk(q.store) && Recorded(q) && Enabled(q, a)
    ensures Recorded(Next(q, a))
  {
    hide Recorded, StoreOk, HasKey, DoRestart, DoRename, DoSerialize, DoAdd, DoProcess, DoStartSend, DoSendEnds,
         DoFinish, DoSaveFails, DoResolve, DoAddAgain, DoQueryEnds, DoWatchEnds, DoMonitor, DoWake, Remove, CanFinish,
         CanSaveFail, CanResolve;
    match a
    case Add(newId, key) => AddRecords(q, newId, key);
    case Serialize => FilesRecord(q);
    case Rename => FilesRecord(q);
    case Restart => FilesRecord(q);
    case Process(_, _) => SendRecords(q, a);
    case StartSend(_) => SendRecords(q, a);
    case SendEnds(_, _) => SendRecords(q, a);
    case Finish(p) => EndRecords(q, p);
    case SaveFails(p) => EndRecords(q, p);
    case Resolve(id, r) => ResolveRecords(q, id, r);
    case _ => OtherRecords(q, a);
  }

  lemma {:induction false} RunWrites(q: Queue, run: seq<Action>)
    requires Inv(q) && TicketsOk(q) && Recorded(q) && IsRun(q, run)
    ensures Inv(Exec(q, run)) && TicketsOk(Exec(q, run)) && Recorded(Exec(q, run))
    decreases |run|
  {
    hide StoreOk, ProcsOk, ActiveOk, WatchesOk, TicketsOk, Recorded, Enabled, Next;
    if run != [] {
      StepKeeps(q, run[0]);
      StepTickets(q, run[0]);
      StepRecords(q, run[0]);
      RunWrites(Next(q, run[0]), run[1..]);
    }
  }

  lemma FreshWrites(max: int, run: seq<Action>)
    requires IsRun(Fresh(max), run)
    ensures Inv(Exec(Fresh(max), run)) && TicketsOk(Exec(Fresh(max), run)) && Recorded(Exec(Fresh(max), run))
  {
    hide IsRun, Exec;
    FreshOk(max);
    RunWrites(Fresh(max), run);
  }

  /** In every run: each call and watch that awaits a snapshot awaits one that was asked for. */
  lemma {:induction false} AwaitedWasAskedFor(max: int, run: seq<Action>)
    requires IsRun(Fresh(max), run)
    ensures var q := Exec(Fresh(max), run);
            && (forall id :: id in q.adds ==> q.adds[id] <= q.store.issued)
            && (forall p :: p in q.procs && !q.procs[p].stage.Sending? ==> q.procs[p].stage.ticket <= q.store.issued)
            && (forall id :: id in q.monitoring && (q.monitoring[id].SavingStatus? || q.monitoring[id].SavingLast?) ==>
                  q.monitoring[id].ticket <= q.store.issued)
  {
    hide StoreOk, ActiveOk, WatchesOk, IsRun, Exec;
    FreshWrites(max, run);
    var q := Exec(Fresh(max), run);
    forall p | p in q.procs && !q.procs[p].stage.Sending? ensures q.procs[p].stage.ticket <= q.store.issued {
      assert ProcOk(q.store, q.procs[p]);
    }
  }

  /** In every run: when an `enqueue` goes on, and so when it answers, its job is in the file, and a
      restart would resume or watch it unless it is done. */
  lemma {:induction false} AnsweredIsOnFile(max: int, run: seq<Action>, id: Id)
    requires IsRun(Fresh(max), run) && Enabled(Exec(Fresh(max), run), Added(id))
    ensures id in Exec(Fresh(max), run).store.disk
  {
    hide Inv, TicketsOk, IsRun, Exec;
    FreshWrites(max, run);
  }

  /** No call goes on, and no watch, before the fate of the snapshot it awaits is known; a send starts, and
      a call ends as usual, only once it is written. */
  lemma AwaitsWrites(q: Queue, a: Action)
    requires Enabled(q, a)
    ensures a.StartSend? || a.Finish? ==> q.store.done >= q.procs[a.p].stage.ticket
    ensures a.SaveFails? ==> q.store.broken && q.store.done < q.procs[a.p].stage.ticket
    ensures a.WatchEnds? && !q.monitoring[a.id].Querying? ==>
              q.store.done >= q.monitoring[a.id].ticket || q.store.broken
  {
    hide HasKey;
  }
}
