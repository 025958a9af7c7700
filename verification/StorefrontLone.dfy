/** One worker with nobody else around gets through all its candidates. */
module StorefrontLone {
  import opened Wrappers
  import opened StorefrontCleanup
  import opened StorefrontTheorems

  /** A run leads from one state to the other, and the second is as consistent as the first. */
  ghost predicate Leads(start: Db, s: State, e: State) {
    Inv(start, e) && exists run :: IsRun(s, run) && Exec(s, run) == e
  }

  lemma Here(start: Db, s: State)
    requires Inv(start, s)
    ensures Leads(start, s, s)
  {
    hide Inv;
    assert IsRun(s, []) && Exec(s, []) == s;
  }

  lemma {:induction false} Extend(s: State, run: seq<Action>, a: Action)
    requires IsRun(s, run) && Enabled(Exec(s, run), a)
    ensures IsRun(s, run + [a]) && Exec(s, run + [a]) == Next(Exec(s, run), a)
    decreases |run|
  {
    hide Enabled, Next;
    if run == [] {
      assert run + [a] == [a];
    } else {
      Extend(Next(s, run[0]), run[1..], a);
      assert (run + [a])[1..] == run[1..] + [a];
    }
  }

  lemma Then(start: Db, s: State, m: State, a: Action)
    requires Leads(start, s, m) && Enabled(m, a)
    ensures Leads(start, s, Next(m, a))
  {
    hide Inv, Enabled, Next;
    var run :| IsRun(s, run) && Exec(s, run) == m;
    StepKeeps(start, m, a);
    Extend(s, run, a);
  }

  predicate Alone(s: State, w: WorkerId, worker: Worker) {
    s.workers == map[w := worker]
  }

  /** The items of a canceled order, one after the other. */
  lemma {:induction false} GivesBack(start: Db, s: State, m: State, w: WorkerId) returns (m': State)
    requires Leads(start, s, m) && w in m.workers && Alone(m, w, m.workers[w]) && Running(m, w)
    requires m.workers[w].phase.Holding?
    ensures Leads(start, s, m') && w in m'.workers && m'.workers[w].phase.Holding? && m'.db == m.db && m'.log == m.log
    ensures Alone(m', w, m.workers[w].(phase := m'.workers[w].phase))
    ensures m'.workers[w].phase.given == |m'.workers[w].phase.order.items|
    decreases |m.workers[w].phase.order.items| - m.workers[w].phase.given
  {
    hide Inv, Leads;
    var phase := m.workers[w].phase;
    GivenOk(start, s, m, w);
    if phase.given == |phase.order.items| {
      m' := m;
    } else {
      Then(start, s, m, Increment(w));
      m' := GivesBack(start, s, Next(m, Increment(w)), w);
    }
  }

  lemma GivenOk(start: Db, s: State, m: State, w: WorkerId)
    requires Leads(start, s, m) && w in m.workers && m.workers[w].phase.Holding?
    ensures Inv(start, m) && m.workers[w].phase.given <= |m.workers[w].phase.order.items|
  {
    hide Inv;
    Facts(start, m, w);
  }

  /** One candidate: restored if it can be, counted exactly then, and left behind either way. */
  lemma {:induction false} OneCandidate(start: Db, s: State, m: State, w: WorkerId) returns (m': State)
    requires Leads(start, s, m) && w in m.workers && Alone(m, w, m.workers[w]) && Running(m, w)
    requires m.workers[w].phase.Between?
    ensures var worker, id := m.workers[w], m.workers[w].candidates[m.workers[w].done];
            && Leads(start, s, m') && m'.db == Restore(m.db, id)
            && Alone(m', w, worker.(done := worker.done + 1,
                                    expired := worker.expired + if Restorable(m.db, id) then 1 else 0))
            && m'.log == m.log + if Restorable(m.db, id) then [id] else []
  {
    hide Inv, Leads, Restore;
    var worker := m.workers[w];
    var id := worker.candidates[worker.done];
    Then(start, s, m, Find(w));
    var found := Next(m, Find(w));
    if Restorable(m.db, id) {
      Then(start, s, found, Cancel(w));
      var holding := GivesBack(start, s, Next(found, Cancel(w)), w);
      GivenOk(start, s, holding, w);
      CommitIsRestore(start, holding, w);
      Then(start, s, holding, Commit(w));
      m' := Next(holding, Commit(w));
    } else {
      m' := found;
      Unchanged(m.db, id);
    }
  }

  lemma Unchanged(db: Db, id: OrderId)
    requires !Restorable(db, id)
    ensures Restore(db, id) == db
  {
  }

  /** With nobody else around, a worker gets through its candidates: the committed state is that of
      restoring each in turn, and it counts those it restored. */
  lemma {:induction false} LoneWorker(s: State, w: WorkerId, candidates: seq<OrderId>)
    requires Init(s)
    ensures exists run ::
              && IsRun(s, run) && Exec(s, run).db == RestoreAll(s.db, candidates)
              && Exec(s, run).workers ==
                   map[w := Worker(candidates, |candidates|, Between, CountRestored(s.db, candidates))]
  {
    hide Inv, RestoreAll, CountRestored;
    InitKeeps(s);
    Here(s.db, s);
    hide Leads;
    Then(s.db, s, s, Begin(w, candidates));
    var begun := Next(s, Begin(w, candidates));
    NothingYet(s.db, candidates);
    var e := Through(s.db, s, begun, w, candidates, |candidates|);
    assert candidates[..|candidates|] == candidates;
    EndsAt(s.db, s, e);
  }

  lemma EndsAt(start: Db, s: State, e: State)
    requires Leads(start, s, e)
    ensures exists run :: IsRun(s, run) && Exec(s, run) == e
  {
    hide Inv;
  }

  lemma NothingYet(db: Db, candidates: seq<OrderId>)
    ensures RestoreAll(db, candidates[..0]) == db && CountRestored(db, candidates[..0]) == 0
  {
  }

  lemma {:induction false} Through(start: Db, s: State, begun: State, w: WorkerId, candidates: seq<OrderId>, n: nat)
      returns (m: State)
    requires Leads(start, s, begun) && begun.workers == map[w := Worker(candidates, 0, Between, 0)]
    requires n <= |candidates|
    ensures Leads(start, s, m) && m.db == RestoreAll(begun.db, candidates[..n])
    ensures m.workers == map[w := Worker(candidates, n, Between, CountRestored(begun.db, candidates[..n]))]
  {
    hide Leads, Restore, Restorable;
    if n == 0 {
      m := begun;
      NothingYet(begun.db, candidates);
    } else {
      var before := Through(start, s, begun, w, candidates, n - 1);
      assert candidates[..n][..n - 1] == candidates[..n - 1];
      m := OneCandidate(start, s, before, w);
    }
  }
}
