/** What the clean-up keeps under any interleaving of workers. */
module StorefrontTheorems {
  import opened Wrappers
  import opened StorefrontCleanup

  // ----- stock

  /** What the orders not yet restored hold of a product. */
  function HeldBy(orders: seq<Order>, id: ProductId, product: Product): int {
    if orders == [] then 0 else
    var order := orders[|orders| - 1];
    HeldBy(orders[..|orders| - 1], id, product) + if order.restored then 0 else Amount(order, order.items, id, product)
  }

  lemma {:induction false} AmountOfSame(order: Order, items: seq<Item>, id: ProductId, p: Product, q: Product)
    requires p.tenant == q.tenant && p.branch == q.branch
    ensures Amount(order, items, id, p) == Amount(order, items, id, q)
  {
    if items != [] { AmountOfSame(order, items[..|items| - 1], id, p, q); }
  }

  lemma {:induction false} HeldOfSame(orders: seq<Order>, id: ProductId, p: Product, q: Product)
    requires p.tenant == q.tenant && p.branch == q.branch
    ensures HeldBy(orders, id, p) == HeldBy(orders, id, q)
  {
    if orders != [] {
      var order := orders[|orders| - 1];
      HeldOfSame(orders[..|orders| - 1], id, p, q);
      AmountOfSame(order, order.items, id, p, q);
    }
  }

  lemma {:induction false} HeldWithout(orders: seq<Order>, i: nat, id: ProductId, product: Product)
    requires i < |orders| && !orders[i].restored
    ensures HeldBy(orders[i := CanceledOrder(orders[i])], id, product) ==
            HeldBy(orders, id, product) - Amount(orders[i], orders[i].items, id, product)
  {
    hide Amount;
    var n := |orders| - 1;
    var after := orders[i := CanceledOrder(orders[i])];
    if i < n {
      assert after[..n] == orders[..n][i := CanceledOrder(orders[i])];
      HeldWithout(orders[..n], i, id, product);
    } else {
      assert after[..n] == orders[..n];
    }
  }

  /** A product's stock plus what unrestored orders hold of it. */
  function Total(db: Db, id: ProductId): int
    requires id in db.products
  {
    db.products[id].quantity + HeldBy(db.orders, id, db.products[id])
  }

  lemma {:induction false} RestoreConserves(db: Db, order: OrderId, id: ProductId)
    requires id in db.products
    ensures id in Restore(db, order).products && Total(Restore(db, order), id) == Total(db, id)
  {
    hide Amount;
    if Restorable(db, order) {
      HeldWithout(db.orders, order, id, db.products[id]);
      HeldOfSame(Restore(db, order).orders, id, db.products[id], Restore(db, order).products[id]);
    }
  }

  lemma {:induction false} RestoreAllConserves(db: Db, ids: seq<OrderId>, id: ProductId)
    requires id in db.products
    ensures id in RestoreAll(db, ids).products && Total(RestoreAll(db, ids), id) == Total(db, id)
  {
    hide Total, Restore;
    if ids != [] {
      RestoreAllConserves(db, ids[..|ids| - 1], id);
      RestoreConserves(RestoreAll(db, ids[..|ids| - 1]), ids[|ids| - 1], id);
    }
  }

  // ----- the invariant

  /** What a transaction that canceled its order knows: the order is still the one it read, and what
      it wrote is the committed stock plus the items given back so far. */
  ghost predicate WritesOk(products: map<ProductId, Product>, order: Order, items: seq<Item>, writes: map<ProductId,
      int>)
  {
    && (forall p :: p in writes ==> p in products)
    && (forall p :: p in products ==>
          (if p in writes then writes[p] else products[p].quantity) == products[p].quantity
            + Amount(order, items, p, products[p]))
  }

  ghost predicate WorkerOk(db: Db, w: Worker) {
    && (!w.phase.Between? ==>
          && Current(w).Some? && Current(w).value < |db.orders|
          && w.phase.order.status == Pending && !w.phase.order.restored
          && db.orders[Current(w).value] in {w.phase.order, CanceledOrder(w.phase.order)})
    && (w.phase.Holding? ==>
          && db.orders[Current(w).value] == w.phase.order && w.phase.given <= |w.phase.order.items|
          && WritesOk(db.products, w.phase.order, w.phase.order.items[..w.phase.given], w.phase.writes))
  }

  ghost predicate LocksOk(workers: map<WorkerId, Worker>) {
    forall u, w :: u in workers && w in workers && u != w && workers[u].phase.Holding? && workers[w].phase.Holding? ==>
      && Current(workers[u]) != Current(workers[w])
      && forall p :: p in workers[u].phase.writes ==> p !in workers[w].phase.writes
  }

  /** The candidates behind a worker need nothing more. */
  ghost predicate DoneOk(db: Db, w: Worker) {
    w.done <= |w.candidates| && forall i :: 0 <= i < w.done ==> !Restorable(db, w.candidates[i])
  }

  ghost predicate LogOk(start: Db, db: Db, log: seq<OrderId>) {
    && db == RestoreAll(start, log) && CountRestored(start, log) == |log|
    && (forall i :: 0 <= i < |log| ==> Restorable(start, log[i]))
    && (forall i, j :: 0 <= i < j < |log| ==> log[i] != log[j])
    && |db.orders| == |start.orders|
    && (forall id :: 0 <= id < |db.orders| ==> db.orders[id] == if id in log then CanceledOrder(start.orders[id])
       else start.orders[id])
  }

  ghost predicate WorkersOk(db: Db, workers: map<WorkerId, Worker>) {
    forall w :: w in workers ==> WorkerOk(db, workers[w]) && DoneOk(db, workers[w])
  }

  ghost predicate Inv(start: Db, s: State) {
    WorkersOk(s.db, s.workers) && LocksOk(s.workers) && LogOk(start, s.db, s.log)
  }

  predicate Init(s: State) {
    s.workers == map[] && s.log == []
  }

  lemma InitKeeps(s: State)
    requires Init(s)
    ensures Inv(s.db, s)
  {
  }

  lemma Facts(start: Db, s: State, w: WorkerId)
    requires Inv(start, s) && w in s.workers
    ensures WorkerOk(s.db, s.workers[w]) && DoneOk(s.db, s.workers[w])
  {
  }

  /** A worker goes on without committing. */
  lemma GoesOn(start: Db, s: State, w: WorkerId, worker: Worker)
    requires Inv(start, s) && WorkerOk(s.db, worker) && DoneOk(s.db, worker)
    requires worker.phase.Holding? ==>
               forall u :: u in s.workers && u != w && s.workers[u].phase.Holding? ==>
                 && Current(s.workers[u]) != Current(worker)
                 && forall p :: p in worker.phase.writes ==> p !in s.workers[u].phase.writes
    ensures Inv(start, Puts(s, w, worker))
  {
    hide WorkerOk, DoneOk, LogOk;
  }

  lemma SkipsKeeps(start: Db, s: State, w: WorkerId)
    requires Inv(start, s) && Running(s, w) && !Restorable(s.db, Current(s.workers[w]).value)
    ensures Inv(start, Skips(s, w))
  {
    hide Inv;
    Facts(start, s, w);
    GoesOn(start, s, w, s.workers[w].(done := s.workers[w].done + 1, phase := Between));
  }

  lemma FindKeeps(start: Db, s: State, w: WorkerId)
    requires Inv(start, s) && Enabled(s, Find(w))
    ensures Inv(start, Next(s, Find(w)))
  {
    hide Inv;
    var id := Current(s.workers[w]).value;
    if Restorable(s.db, id) {
      Facts(start, s, w);
      GoesOn(start, s, w, s.workers[w].(phase := Found(s.db.orders[id])));
    } else {
      SkipsKeeps(start, s, w);
    }
  }

  lemma NothingWritten(products: map<ProductId, Product>, order: Order)
    ensures WritesOk(products, order, order.items[..0], map[])
  {
  }

  lemma CancelKeeps(start: Db, s: State, w: WorkerId)
    requires Inv(start, s) && Enabled(s, Cancel(w))
    ensures Inv(start, Next(s, Cancel(w)))
  {
    hide Inv, WritesOk;
    var id := Current(s.workers[w]).value;
    if Restorable(s.db, id) {
      Facts(start, s, w);
      NothingWritten(s.db.products, s.workers[w].phase.order);
      GoesOn(start, s, w, s.workers[w].(phase := Holding(s.workers[w].phase.order, 0, map[])));
    } else {
      SkipsKeeps(start, s, w);
    }
  }

  lemma OneMoreWritten(products: map<ProductId, Product>, phase: Phase)
    requires phase.Holding? && phase.given < |phase.order.items|
    requires WritesOk(products, phase.order, phase.order.items[..phase.given], phase.writes)
    ensures WritesOk(products, phase.order, phase.order.items[..phase.given + 1], Added(products, phase).writes)
  {
    var items := phase.order.items[..phase.given + 1];
    assert items[..phase.given] == phase.order.items[..phase.given];
  }

  lemma Others(start: Db, s: State, w: WorkerId, u: WorkerId)
    requires Inv(start, s) && w in s.workers && u in s.workers && u != w && s.workers[u].phase.Holding?
             && s.workers[w].phase.Holding?
    ensures Current(s.workers[u]) != Current(s.workers[w])
    ensures forall p :: p in s.workers[w].phase.writes ==> p !in s.workers[u].phase.writes
  {
    hide WorkersOk, LogOk;
  }

  lemma IncrementKeeps(start: Db, s: State, w: WorkerId)
    requires Inv(start, s) && Enabled(s, Increment(w))
    ensures Inv(start, Next(s, Increment(w)))
  {
    hide Inv, WritesOk, Amount;
    var worker := s.workers[w];
    Facts(start, s, w);
    OneMoreWritten(s.db.products, worker.phase);
    forall u | u in s.workers && u != w && s.workers[u].phase.Holding?
      ensures Current(s.workers[u]) != Current(worker)
      ensures forall p :: p in Added(s.db.products, worker.phase).writes ==> p !in s.workers[u].phase.writes
    {
      Others(start, s, w, u);
    }
    GoesOn(start, s, w, worker.(phase := Added(s.db.products, worker.phase)));
  }

  /** Committing has the effect of the whole transaction at once on what is committed by then. */
  lemma CommitIsRestore(start: Db, s: State, w: WorkerId)
    requires Inv(start, s) && Enabled(s, Commit(w))
    ensures Restorable(s.db, Current(s.workers[w]).value)
    ensures Committed(s, w).db == Restore(s.db, Current(s.workers[w]).value)
  {
    hide Inv, Amount;
    Facts(start, s, w);
    var phase := s.workers[w].phase;
    assert phase.order.items[..phase.given] == phase.order.items;
    assert Written(s.db.products, phase.writes) == GiveBack(s.db.products, phase.order, phase.order.items);
  }

  lemma LogMore(start: Db, db: Db, log: seq<OrderId>, id: OrderId)
    requires LogOk(start, db, log) && Restorable(db, id)
    ensures LogOk(start, Restore(db, id), log + [id])
  {
    hide GiveBack;
    assert (log + [id])[..|log|] == log;
    assert id !in log;
  }

  lemma WritesStay(before: map<ProductId, Product>, after: map<ProductId, Product>, order: Order, items: seq<Item>,
      writes: map<ProductId, int>)
    requires WritesOk(before, order, items, writes) && before.Keys == after.Keys
    requires forall p :: p in before ==> after[p].tenant == before[p].tenant && after[p].branch == before[p].branch
    requires forall p :: p in writes && p in before ==> after[p] == before[p]
    ensures WritesOk(after, order, items, writes)
  {
    forall p | p in before ensures Amount(order, items, p, after[p]) == Amount(order, items, p, before[p]) {
      AmountOfSame(order, items, p, after[p], before[p]);
    }
    hide Amount;
  }

  /** A commit leaves the other workers with what they know. */
  lemma CommitOthers(start: Db, s: State, w: WorkerId, u: WorkerId)
    requires Inv(start, s) && Enabled(s, Commit(w)) && u in s.workers && u != w
    ensures WorkerOk(Committed(s, w).db, s.workers[u]) && DoneOk(Committed(s, w).db, s.workers[u])
  {
    hide Inv, WritesOk;
    Facts(start, s, w);
    Facts(start, s, u);
    var worker := s.workers[u];
    if worker.phase.Holding? {
      Others(start, s, w, u);
      WritesStay(s.db.products, Committed(s, w).db.products, worker.phase.order,
        worker.phase.order.items[..worker.phase.given], worker.phase.writes);
    }
  }

  lemma CommitKeeps(start: Db, s: State, w: WorkerId)
    requires Inv(start, s) && Enabled(s, Commit(w))
    ensures Inv(start, Committed(s, w))
  {
    hide WorkerOk, DoneOk, LogOk, Restore, Written;
    var s', id := Committed(s, w), Current(s.workers[w]).value;
    CommitIsRestore(start, s, w);
    LogMore(start, s.db, s.log, id);
    forall u | u in s.workers && u != w ensures WorkerOk(s'.db, s.workers[u]) && DoneOk(s'.db, s.workers[u]) {
      CommitOthers(start, s, w, u);
    }
    CommitOwn(start, s, w);
  }

  lemma CommitOwn(start: Db, s: State, w: WorkerId)
    requires Inv(start, s) && Enabled(s, Commit(w))
    ensures WorkerOk(Committed(s, w).db, Committed(s, w).workers[w])
            && DoneOk(Committed(s, w).db, Committed(s, w).workers[w])
  {
    hide Inv, WritesOk;
    Facts(start, s, w);
  }

  lemma CrashKeeps(start: Db, s: State, w: WorkerId)
    requires Inv(start, s)
    ensures Inv(start, s.(workers := s.workers - {w}))
  {
    hide WorkerOk, DoneOk, LogOk;
  }

  lemma StepKeeps(start: Db, s: State, a: Action)
    requires Inv(start, s) && Enabled(s, a)
    ensures Inv(start, Next(s, a))
  {
    hide Inv;
    match a
    case Begin(w, candidates) => GoesOn(start, s, w, Worker(candidates, 0, Between, 0));
    case Find(w) => FindKeeps(start, s, w);
    case Cancel(w) => CancelKeeps(start, s, w);
    case Increment(w) => IncrementKeeps(start, s, w);
    case Commit(w) => CommitKeeps(start, s, w);
    case Crash(w) => CrashKeeps(start, s, w);
  }

  lemma {:induction false} RunKeeps(start: Db, s: State, run: seq<Action>)
    requires Inv(start, s) && IsRun(s, run)
    ensures Inv(start, Exec(s, run))
    decreases |run|
  {
    hide Inv, Enabled, Next;
    if run != [] {
      StepKeeps(start, s, run[0]);
      RunKeeps(start, Next(s, run[0]), run[1..]);
    }
  }

  // ----- the order of a worker's steps

  predicate Follows(before: Phase, after: Phase) {
    match before
    case Between => after.Found?
    case Found(order) => after.Between? || after == Holding(order, 0, map[])
    case Holding(order, given, _) =>
      after.Between? || (after.Holding? && after.order == order && after.given == given + 1)
  }

  /** A worker reads the order, cancels it, gives back one item after the other and commits, or leaves
      the order alone; the committed state changes at the end of all that only. */
  lemma StepsInOrder(s: State, a: Action, w: WorkerId)
    requires Enabled(s, a) && w in s.workers
    ensures w in Next(s, a).workers ==>
              var before, after := s.workers[w].phase, Next(s, a).workers[w].phase;
              after == before || Follows(before, after)
    ensures a.w == w && Next(s, a).db != s.db ==>
              s.workers[w].phase.Holding? && s.workers[w].phase.given == |s.workers[w].phase.order.items|
  {
    hide GiveBack, Written, Affects, ProductLocked, OrderLocked;
  }

  // ----- the theorems

  /** Any interleaving ends as if the restored orders had been restored one after the other. */
  lemma {:induction false} Serializable(s: State, run: seq<Action>)
    requires Init(s) && IsRun(s, run)
    ensures Exec(s, run).db == RestoreAll(s.db, Exec(s, run).log)
    ensures CountRestored(s.db, Exec(s, run).log) == |Exec(s, run).log|
  {
    hide WorkersOk, LocksOk;
    InitKeeps(s);
    RunKeeps(s.db, s, run);
  }

  /** A product's stock plus what unrestored orders hold of it never changes. */
  lemma {:induction false} StockIsConserved(s: State, run: seq<Action>, id: ProductId)
    requires Init(s) && IsRun(s, run) && id in s.db.products
    ensures id in Exec(s, run).db.products && Total(Exec(s, run).db, id) == Total(s.db, id)
  {
    hide Total, RestoreAll;
    Serializable(s, run);
    RestoreAllConserves(s.db, Exec(s, run).log, id);
  }

  /** Each order is restored at most once, exactly those restored changed, from pending to canceled,
      and a worker that is through leaves none of its candidates to restore. */
  lemma {:induction false} RestoredExactlyOnce(s: State, run: seq<Action>)
    requires Init(s) && IsRun(s, run)
    ensures var now := Exec(s, run);
            && |now.db.orders| == |s.db.orders|
            && (forall i, j :: 0 <= i < j < |now.log| ==> now.log[i] != now.log[j])
            && (forall id :: 0 <= id < |s.db.orders| ==>
                  (id in now.log <==> now.db.orders[id].restored && !s.db.orders[id].restored)
                  && (id !in now.log ==> now.db.orders[id] == s.db.orders[id])
                  && (id in now.log ==>
                        s.db.orders[id].status == Pending
                        && now.db.orders[id] == s.db.orders[id].(status := Canceled, restored := true)))
            && (forall w, i :: w in now.workers && 0 <= i < now.workers[w].done ==>
                  i < |now.workers[w].candidates| && !Restorable(now.db, now.workers[w].candidates[i]))
  {
    hide WorkerOk, LocksOk, RestoreAll, CountRestored;
    InitKeeps(s);
    RunKeeps(s.db, s, run);
    var now := Exec(s, run);
    forall w | w in now.workers ensures DoneOk(now.db, now.workers[w]) { Facts(s.db, now, w); }
    assert forall i :: 0 <= i < |now.log| ==> now.log[i] < |s.db.orders| && Restorable(s.db, now.log[i]);
  }

  /** A worker waits for nobody but one that has canceled the same order, or added to the same product,
      and not committed yet. */
  lemma WaitsForHolder(s: State, w: WorkerId)
    requires Running(s, w)
    ensures s.workers[w].phase.Found? && !Enabled(s, Cancel(w)) ==>
              exists u :: u in s.workers && u != w && s.workers[u].phase.Holding?
                          && s.workers[u].done < |s.workers[u].candidates|
                          && s.workers[u].candidates[s.workers[u].done] == s.workers[w].candidates[s.workers[w].done]
    ensures s.workers[w].phase.Holding? && s.workers[w].phase.given < |s.workers[w].phase.order.items|
              && !Enabled(s, Increment(w)) ==>
              var product := s.workers[w].phase.order.items[s.workers[w].phase.given].product;
              exists u ::
                u in s.workers && u != w && s.workers[u].phase.Holding? && product in s.workers[u].phase.writes
  {
  }
}
