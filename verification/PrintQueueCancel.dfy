/** An operator's cancellation does not keep a receipt from being printed again, and nothing else
    breaks the bound of one print plus confirmed failures. */
module PrintQueueCancel {
  import opened Wrappers
  import opened PrintQueueModel
  import opened PrintQueueSafety
  import opened PrintQueueShape

  lemma {:induction false} Concat(q: Queue, a: seq<Action>, b: seq<Action>)
    requires IsRun(q, a) && IsRun(Exec(q, a), b)
    ensures IsRun(q, a + b) && Exec(q, a + b) == Exec(Exec(q, a), b)
    decreases |a|
  {
    hide Enabled, Next;
    if a == [] {
      assert a + b == b;
    } else {
      Concat(Next(q, a[0]), a[1..], b);
      assert (a + b)[1..] == a[1..] + b;
    }
  }

  predicate Harmless(run: seq<Action>) {
    Reliable(run) && NoCancel(run)
  }

  /** A faultless run without cancellations leads from one state to the other. */
  ghost predicate Leads(q0: Queue, run: seq<Action>, q: Queue) {
    IsRun(q0, run) && Harmless(run) && Exec(q0, run) == q
  }

  lemma {:induction false} Extend(q0: Queue, run: seq<Action>, q: Queue, a: Action)
    requires Leads(q0, run, q) && Enabled(q, a)
    requires (a.QueryEnds? ==> a.report != Error) && (a.Resolve? ==> a.resolution != Cancel)
    ensures Leads(q0, run + [a], Next(q, a))
  {
    hide Enabled, Next;
    assert IsRun(q, [a]) && Exec(q, [a]) == Next(q, a) by {
      assert [a][1..] == [];
    }
    Concat(q0, run, [a]);
  }

  /** All requested writes were done; only the files changed. */
  function Written(q: Queue, disk: Jobs): Queue {
    q.(store := q.store.(done := q.store.issued, temp := None, disk := disk))
  }

  /** While no write fails, the writes catch up. */
  lemma {:induction false} CatchUp(q0: Queue, run: seq<Action>, q: Queue) returns (run': seq<Action>, disk: Jobs)
    requires Leads(q0, run, q)
    requires !q.store.broken && q.store.done <= q.store.issued && (q.store.temp.Some? ==> q.store.done < q.store.issued)
    ensures Leads(q0, run', Written(q, disk))
    decreases q.store.issued - q.store.done, q.store.temp.None?
  {
    hide Leads;
    if q.store.temp.Some? {
      Extend(q0, run, q, Rename);
      run', disk := CatchUp(q0, run + [Rename], DoRename(q));
    } else if q.store.done < q.store.issued {
      Extend(q0, run, q, Serialize);
      run', disk := CatchUp(q0, run + [Serialize], DoSerialize(q));
    } else {
      run', disk := run, q.store.disk;
    }
  }

  /** A `process` call that has to do with the job ends, once its snapshot is written. */
  lemma {:induction false} Idle(q0: Queue, run: seq<Action>, q: Queue, id: Id) returns (run': seq<Action>, q': Queue)
    requires Leads(q0, run, q) && ProcsOk(q.store, q.procs) && ActiveOk(q.procs, q.active)
    requires id in q.store.jobs && q.store.jobs[id].status == Error && q.store.done == q.store.issued
    ensures Leads(q0, run', q') && q'.store == q.store && id !in q'.active
  {
    hide Leads;
    if id in q.active {
      var p :| p in q.procs && q.procs[p].id == id;
      assert ProcOk(q.store, q.procs[p]);
      Extend(q0, run, q, Finish(p));
      run', q' := run + [Finish(p)], DoFinish(q, p);
    } else {
      run', q' := run, q;
    }
  }

  lemma {:induction false} Beyond(ids: set<ProcId>) returns (b: ProcId)
    ensures forall i :: i in ids ==> i < b
  {
    if ids == {} { return 0; }
    var i :| i in ids;
    b := Beyond(ids - {i});
    assert ids == (ids - {i}) + {i};
    if b <= i { b := i + 1; }
  }

  /** One more send of the job may have printed, and no resolution intervened. */
  predicate OneMore(st: Store, st': Store, id: Id) {
    var t, t' := TallyOf(st, id), TallyOf(st', id);
    MayHavePrinted(t') == MayHavePrinted(t) + 1 && t'.notPrinted == t.notPrinted
  }

  /** An idle failed job is sent again when the client repeats its request. */
  lemma {:induction false} Resend(q0: Queue, run: seq<Action>, q: Queue, id: Id) returns (run': seq<Action>, q': Queue)
    requires Leads(q0, run, q) && !q.store.broken && q.store.done == q.store.issued && q.store.temp.None?
    requires id in q.store.jobs && q.store.jobs[id].status == Error && id !in q.active
    ensures Leads(q0, run', q') && OneMore(q.store, q'.store, id)
  {
    hide Leads, OneMore;
    var p := Beyond(q.procs.Keys);
    Again(q0, run, q, id);
    run', q' := Attempt(q0, run + [AddAgain(id)], DoAddAgain(q, id), id, p);
    SameMore(q, q'.store, id);
  }

  lemma SameMore(q: Queue, st': Store, id: Id)
    requires id in q.store.jobs && OneMore(DoAddAgain(q, id).store, st', id)
    ensures OneMore(q.store, st', id)
  {
  }

  lemma {:induction false} Again(q0: Queue, run: seq<Action>, q: Queue, id: Id)
    requires Leads(q0, run, q) && id in q.store.jobs && q.store.jobs[id].status == Error && id !in q.active
    ensures Leads(q0, run + [AddAgain(id)], DoAddAgain(q, id))
    ensures Starts(DoAddAgain(q, id), id) && id in DoAddAgain(q, id).calls
  {
    hide Leads;
    Extend(q0, run, q, AddAgain(id));
  }

  lemma {:induction false} Attempt(q0: Queue, run: seq<Action>, q: Queue, id: Id, p: ProcId)
      returns (run': seq<Action>, q': Queue)
    requires Leads(q0, run, q) && !q.store.broken && q.store.done == q.store.issued && q.store.temp.None?
    requires Starts(q, id) && id in q.calls && p !in q.procs
    ensures Leads(q0, run', q') && OneMore(q.store, q'.store, id)
  {
    hide Leads;
    var disk;
    Extend(q0, run, q, Process(id, p));
    var q1 := DoProcess(q, id, p);
    hide OneMore;
    run', disk := CatchUp(q0, run + [Process(id, p)], q1);
    Extend(q0, run', Written(q1, disk), StartSend(p));
    run', q' := run' + [StartSend(p)], DoStartSend(Written(q1, disk), p);
    StartMore(q, id, p, disk);
  }

  lemma StartMore(q: Queue, id: Id, p: ProcId, disk: Jobs)
    requires Starts(q, id) && id in q.calls && p !in q.procs
    requires CanStartSend(Written(DoProcess(q, id, p), disk), p)
    ensures OneMore(q.store, DoStartSend(Written(DoProcess(q, id, p), disk), p).store, id)
  {
  }

  /** Suppose a job's outcome is unknown, nothing was cancelled before, and the operator's account
      is used up. After the next resolution a faultless run without cancellations can exceed the
      bound if and only if that resolution is a cancellation. */
  lemma {:induction false} OnlyCancelExceeds(max: int, past: seq<Action>, id: Id, r: Resolution)
    requires IsRun(Fresh(max), past) && Reliable(past)
    requires var q := Exec(Fresh(max), past);
             && CanResolve(q, id) && !q.store.broken && TallyOf(q.store, id).canceled == 0
             && MayHavePrinted(TallyOf(q.store, id)) == 1 + TallyOf(q.store, id).notPrinted
    ensures var resolved := DoResolve(Exec(Fresh(max), past), id, r);
            r == Cancel <==>
            exists run :: IsRun(resolved, run) && Harmless(run)
              && MayHavePrinted(TallyOf(Exec(resolved, run).store, id)) >
                   1 + TallyOf(Exec(resolved, run).store, id).notPrinted
  {
    hide Exec, IsRun, Inv, Accounted, DoResolve, MayHavePrinted, TallyOf;
    var q := Exec(Fresh(max), past);
    FreshKeeps(max, past);
    FreshAccounted(max, past);
    var resolved := DoResolve(q, id, r);
    if r == Cancel {
      var run, after := LeakAfterCancel(q, id);
      Exceeds(q, resolved, run, after, id);
    } else {
      ResolveKeeps(q, id, r);
      ResolveAccounted(q, id, r);
      forall run | IsRun(resolved, run) && Harmless(run)
        ensures MayHavePrinted(TallyOf(Exec(resolved, run).store, id)) <=
                  1 + TallyOf(Exec(resolved, run).store, id).notPrinted
      {
        WithinAccount(q, r, run, id);
      }
    }
  }

  /** A resolution other than a cancellation leaves every harmless continuation within the account. */
  lemma WithinAccount(q: Queue, r: Resolution, run: seq<Action>, id: Id)
    requires CanResolve(q, id) && r != Cancel && TallyOf(q.store, id).canceled == 0
    requires Inv(DoResolve(q, id, r)) && Accounted(DoResolve(q, id, r)) && IsRun(DoResolve(q, id, r), run)
             && Harmless(run)
    ensures var t := TallyOf(Exec(DoResolve(q, id, r), run).store, id); MayHavePrinted(t) <= 1 + t.notPrinted
  {
    hide Exec, IsRun, Inv, Accounted, DoResolve, TallyOf, MayHavePrinted;
    var resolved := DoResolve(q, id, r);
    RunAccounted(resolved, run);
    RunCancels(resolved, run, id);
    ResolvedTallies(q, id, r);
    WithinBudget(Exec(resolved, run), id);
  }

  /** What a resolution adds to the operator's account. */
  lemma ResolvedTallies(q: Queue, id: Id, r: Resolution)
    requires CanResolve(q, id)
    ensures TallyOf(DoResolve(q, id, r).store, id) == ResolvedTally(TallyOf(q.store, id), r)
  {
    hide DoResolve, ResolvedTally;
    ResolvePuts(q, id, r);
  }

  lemma Exceeds(q: Queue, resolved: Queue, run: seq<Action>, after: Queue, id: Id)
    requires CanResolve(q, id) && resolved == DoResolve(q, id, Cancel)
    requires MayHavePrinted(TallyOf(q.store, id)) == 1 + TallyOf(q.store, id).notPrinted
    requires Leads(resolved, run, after) && OneMore(q.store, after.store, id)
    ensures IsRun(resolved, run) && Harmless(run)
    ensures var t := TallyOf(Exec(resolved, run).store, id); MayHavePrinted(t) > 1 + t.notPrinted
  {
    hide Harmless, IsRun, Exec;
  }

  lemma {:induction false} LeakAfterCancel(q: Queue, id: Id) returns (run: seq<Action>, q': Queue)
    requires Inv(q) && CanResolve(q, id) && !q.store.broken
    ensures Leads(DoResolve(q, id, Cancel), run, q') && OneMore(q.store, q'.store, id)
  {
    hide Inv, Leads, OneMore, StoreOk, ProcsOk, ActiveOk, WatchesOk;
    var resolved := DoResolve(q, id, Cancel);
    ResolveKeeps(q, id, Cancel);
    NothingDone(resolved);
    KeptStore(resolved);
    var disk;
    run, disk := CatchUp(resolved, [], resolved);
    WrittenKeeps(resolved, run, disk);
    run, q' := Idle(resolved, run, Written(resolved, disk), id);
    var idle := q';
    run, q' := Resend(resolved, run, idle, id);
    SameAccount(q, idle.store, q'.store, id);
  }

  lemma NothingDone(q: Queue)
    ensures Leads(q, [], q)
  {
  }

  lemma KeptStore(q: Queue)
    requires Inv(q)
    ensures q.store.done <= q.store.issued && (q.store.temp.Some? ==> q.store.done < q.store.issued)
  {
    hide JobsOk, ProcsOk, ActiveOk, WatchesOk;
  }

  /** A cancellation does not change how much may have printed. */
  lemma SameAccount(q: Queue, st: Store, st': Store, id: Id)
    requires CanResolve(q, id) && st.tally == DoResolve(q, id, Cancel).store.tally && OneMore(st, st', id)
    ensures OneMore(q.store, st', id)
  {
    hide DoResolve, CanResolve, TallyOf, MayHavePrinted, ResolvedTally;
    SameTally(st, DoResolve(q, id, Cancel).store, id);
    ResolvedTallies(q, id, Cancel);
    CancelPrintsNothing(TallyOf(q.store, id));
  }

  lemma SameTally(st: Store, st': Store, id: Id)
    requires st.tally == st'.tally
    ensures TallyOf(st, id) == TallyOf(st', id)
  {
  }

  lemma CancelPrintsNothing(t: Tally)
    ensures MayHavePrinted(ResolvedTally(t, Cancel)) == MayHavePrinted(t)
            && ResolvedTally(t, Cancel).notPrinted == t.notPrinted
  {
  }

  lemma WrittenKeeps(q: Queue, run: seq<Action>, disk: Jobs)
    requires Inv(q) && Leads(q, run, Written(q, disk))
    ensures ProcsOk(Written(q, disk).store, q.procs) && ActiveOk(q.procs, q.active)
  {
    hide StoreOk, ProcsOk, ActiveOk, WatchesOk, IsRun, Exec;
    RunKeeps(q, run);
  }
}
