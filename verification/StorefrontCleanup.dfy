/** Expired reservations: orders canceled and their stock given back, by any number of workers. */
module StorefrontCleanup {
  import opened Wrappers

  type OrderId = nat
  type ProductId = nat
  type WorkerId = nat

  datatype Status = Pending | Canceled | Settled

  datatype Item = Item(product: ProductId, quantity: int)
  datatype Order = Order(tenant: string, branch: string, status: Status, restored: bool, items: seq<Item>)
  datatype Product = Product(tenant: string, branch: string, quantity: int)

  datatype Db = Db(orders: seq<Order>, products: map<ProductId, Product>)

  predicate Restorable(db: Db, id: OrderId) {
    id < |db.orders| && db.orders[id].status == Pending && !db.orders[id].restored
  }

  /** How much of a product some items of an order stand for: none unless it is of the order's tenant and branch. */
  function Amount(order: Order, items: seq<Item>, id: ProductId, product: Product): int {
    if items == [] then 0 else
    var item := items[|items| - 1];
    Amount(order, items[..|items| - 1], id, product) +
    if item.product == id && product.tenant == order.tenant && product.branch == order.branch then item.quantity else 0
  }

  function GiveBack(products: map<ProductId, Product>, order: Order, items: seq<Item>): map<ProductId, Product> {
    map id | id in products :: products[id].(quantity := products[id].quantity + Amount(order, items, id, products[id]))
  }

  function CanceledOrder(order: Order): Order {
    order.(status := Canceled, restored := true)
  }

  /** One order's transaction, all at once. */
  function Restore(db: Db, id: OrderId): Db {
    if !Restorable(db, id) then db else
    Db(db.orders[id := CanceledOrder(db.orders[id])], GiveBack(db.products, db.orders[id], db.orders[id].items))
  }

  function RestoreAll(db: Db, ids: seq<OrderId>): Db {
    if ids == [] then db else Restore(RestoreAll(db, ids[..|ids| - 1]), ids[|ids| - 1])
  }

  function CountRestored(db: Db, ids: seq<OrderId>): nat {
    if ids == [] then 0 else
    var front := ids[..|ids| - 1];
    CountRestored(db, front) + if Restorable(RestoreAll(db, front), ids[|ids| - 1]) then 1 else 0
  }

  lemma GiveBackOne(products: map<ProductId, Product>, order: Order, items: seq<Item>, k: nat)
    requires k < |items|
    ensures var item := items[k];
            var before, after := GiveBack(products, order, items[..k]), GiveBack(products, order, items[..k + 1]);
            if item.product in before && before[item.product].tenant == order.tenant
              && before[item.product].branch == order.branch
            then after == before[item.product := before[item.product].(quantity := before[item.product].quantity
              + item.quantity)]
            else after == before
  {
    assert items[..k + 1][..k] == items[..k];
    var before, after := GiveBack(products, order, items[..k]), GiveBack(products, order, items[..k + 1]);
    assert after.Keys == before.Keys;
  }

  // ----- one worker by itself

  class Cleanup {
    var orders: seq<Order>
    var products: map<ProductId, Product>

    constructor (db: Db)
      ensures orders == db.orders && products == db.products
    {
      orders, products := db.orders, db.products;
    }

    /** The loop of transactions over the candidates found before it. */
    method Expire(candidates: seq<OrderId>, dryRun: bool) returns (expired: nat)
      modifies this
      ensures Db(orders, products) == if dryRun then old(Db(orders, products))
              else RestoreAll(old(Db(orders, products)), candidates)
      ensures expired == if dryRun then 0 else CountRestored(old(Db(orders, products)), candidates)
      ensures |orders| == |old(orders)| && products.Keys == old(products).Keys
      ensures forall id :: 0 <= id < |orders| ==>
                orders[id] ==
                  if !dryRun && id in candidates && old(orders)[id].status == Pending && !old(orders)[id].restored
                  then old(orders)[id].(status := Canceled, restored := true) else old(orders)[id]
    {
      hide Amount, GiveBack;
      expired := 0;
      if dryRun { return; }
      ghost var start := Db(orders, products);
      for i := 0 to |candidates|
        invariant Db(orders, products) == RestoreAll(start, candidates[..i])
        invariant expired == CountRestored(start, candidates[..i])
      {
        assert candidates[..i + 1][..i] == candidates[..i];
        ghost var before := Db(orders, products);
        var id := candidates[i];
        if id < |orders| && orders[id].status == Pending && !orders[id].restored {
          var order := orders[id];
          orders := orders[id := order.(status := Canceled, restored := true)];
          NothingBack(products, order);
          for k := 0 to |order.items|
            invariant orders == before.orders[id := CanceledOrder(order)]
            invariant products == GiveBack(before.products, order, order.items[..k])
          {
            GiveBackOne(before.products, order, order.items, k);
            var item := order.items[k];
            if item.product in products && products[item.product].tenant == order.tenant
              && products[item.product].branch == order.branch {
              products := products[item.product := products[item.product].(quantity := products[item.product].quantity
                + item.quantity)];
            }
          }
          assert order.items[..|order.items|] == order.items;
          expired := expired + 1;
        }
      }
      assert candidates[..|candidates|] == candidates;
      OrdersAfter(start, candidates);
    }
  }

  lemma {:induction false} OrdersAfter(db: Db, ids: seq<OrderId>)
    ensures var after := RestoreAll(db, ids);
            && |after.orders| == |db.orders| && after.products.Keys == db.products.Keys
            && forall id :: 0 <= id < |db.orders| ==>
                 after.orders[id] ==
                   if id in ids && db.orders[id].status == Pending && !db.orders[id].restored
                   then db.orders[id].(status := Canceled, restored := true) else db.orders[id]
  {
    hide Amount;
    if ids != [] {
      OrdersAfter(db, ids[..|ids| - 1]);
      assert forall id :: id in ids <==> id in ids[..|ids| - 1] || id == ids[|ids| - 1];
    }
  }

  lemma NothingBack(products: map<ProductId, Product>, order: Order)
    ensures GiveBack(products, order, order.items[..0]) == products
  {
  }

  // ----- many workers at once

  /** Holding: the order is canceled in the transaction, its row locked, and the first `given` items
      are added in it; `writes` are the quantities written so far, their rows locked. */
  datatype Phase =
    | Between
    | Found(order: Order)
    | Holding(order: Order, given: nat, writes: map<ProductId, int>)

  /** `done` candidates are behind the worker. */
  datatype Worker = Worker(candidates: seq<OrderId>, done: nat, phase: Phase, expired: nat)

  /** `log` records the orders restored, in the order of the commits. */
  datatype State = State(db: Db, workers: map<WorkerId, Worker>, log: seq<OrderId>)

  datatype Action =
    | Begin(w: WorkerId, candidates: seq<OrderId>)
    | Find(w: WorkerId)
    | Cancel(w: WorkerId)
    | Increment(w: WorkerId)
    | Commit(w: WorkerId)
    | Crash(w: WorkerId)

  predicate OrderLocked(workers: map<WorkerId, Worker>, id: OrderId) {
    exists u :: u in workers && workers[u].phase.Holding? && Current(workers[u]) == Some(id)
  }

  function Current(w: Worker): Option<OrderId> {
    if w.done < |w.candidates| then Some(w.candidates[w.done]) else None
  }

  predicate ProductLocked(workers: map<WorkerId, Worker>, w: WorkerId, id: ProductId) {
    exists u :: u in workers && u != w && workers[u].phase.Holding? && id in workers[u].phase.writes
  }

  predicate Running(s: State, w: WorkerId) {
    w in s.workers && Current(s.workers[w]).Some?
  }

  predicate Affects(products: map<ProductId, Product>, order: Order, item: Item) {
    item.product in products && products[item.product].tenant == order.tenant
      && products[item.product].branch == order.branch
  }

  predicate Enabled(s: State, a: Action) {
    match a
    case Begin(w, _) => w !in s.workers
    case Find(w) => Running(s, w) && s.workers[w].phase.Between?
    case Cancel(w) => Running(s, w) && s.workers[w].phase.Found? && !OrderLocked(s.workers, Current(s.workers[w]).value)
    case Increment(w) =>
      && Running(s, w) && s.workers[w].phase.Holding? && s.workers[w].phase.given < |s.workers[w].phase.order.items|
      && var item := s.workers[w].phase.order.items[s.workers[w].phase.given];
         Affects(s.db.products, s.workers[w].phase.order, item) ==> !ProductLocked(s.workers, w, item.product)
    case Commit(w) => Running(s, w) && s.workers[w].phase.Holding?
      && s.workers[w].phase.given == |s.workers[w].phase.order.items|
    case Crash(w) => w in s.workers
  }

  function Puts(s: State, w: WorkerId, worker: Worker): State {
    s.(workers := s.workers[w := worker])
  }

  /** The transaction returns without having changed anything. */
  function Skips(s: State, w: WorkerId): State
    requires Running(s, w)
  {
    Puts(s, w, s.workers[w].(done := s.workers[w].done + 1, phase := Between))
  }

  function Added(products: map<ProductId, Product>, phase: Phase): Phase
    requires phase.Holding? && phase.given < |phase.order.items|
  {
    var item := phase.order.items[phase.given];
    if !Affects(products, phase.order, item) then phase.(given := phase.given + 1) else
    var quantity := if item.product in phase.writes then phase.writes[item.product]
      else products[item.product].quantity;
    phase.(given := phase.given + 1, writes := phase.writes[item.product := quantity + item.quantity])
  }

  function Written(products: map<ProductId, Product>, writes: map<ProductId, int>): map<ProductId, Product> {
    map id | id in products :: if id in writes then products[id].(quantity := writes[id]) else products[id]
  }

  /** On a commit the order and its products change together, and the worker counts it. */
  function Committed(s: State, w: WorkerId): State
    requires Running(s, w) && s.workers[w].phase.Holding?
  {
    var worker, id := s.workers[w], Current(s.workers[w]).value;
    State(Db(if id < |s.db.orders| then s.db.orders[id := CanceledOrder(s.db.orders[id])] else s.db.orders,
             Written(s.db.products, worker.phase.writes)),
          s.workers[w := worker.(done := worker.done + 1, phase := Between, expired := worker.expired + 1)],
          s.log + [id])
  }

  function Next(s: State, a: Action): State
    requires Enabled(s, a)
  {
    match a
    case Begin(w, candidates) => Puts(s, w, Worker(candidates, 0, Between, 0))
    case Find(w) =>
      var id := Current(s.workers[w]).value;
      if Restorable(s.db, id) then Puts(s, w, s.workers[w].(phase := Found(s.db.orders[id]))) else Skips(s, w)
    case Cancel(w) =>
      if Restorable(s.db, Current(s.workers[w]).value)
        then Puts(s, w, s.workers[w].(phase := Holding(s.workers[w].phase.order, 0, map[]))) else Skips(s, w)
    case Increment(w) => Puts(s, w, s.workers[w].(phase := Added(s.db.products, s.workers[w].phase)))
    case Commit(w) => Committed(s, w)
    case Crash(w) => s.(workers := s.workers - {w})
  }

  predicate IsRun(s: State, run: seq<Action>)
    decreases |run|
  {
    run == [] || (Enabled(s, run[0]) && IsRun(Next(s, run[0]), run[1..]))
  }

  function Exec(s: State, run: seq<Action>): State
    requires IsRun(s, run)
    decreases |run|
  {
    if run == [] then s else Exec(Next(s, run[0]), run[1..])
  }
}
