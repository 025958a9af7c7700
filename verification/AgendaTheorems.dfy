/** What the booking protocol guarantees over whole runs. */
module AgendaTheorems {
  import opened WhiteSpace
  import opened Wrappers
  import opened AgendaSchedule
  import opened AgendaLocks
  import opened AgendaBooking

  lemma {:induction false} RunKeeps(s: State, run: seq<Action>)
    requires Inv(s) && IsRun(s, run) && HonestRun(s, run)
    ensures Inv(Exec(s, run))
    decreases |run|
  {
    if run != [] {
      StepKeeps(s, run[0]);
      hide Inv;
      RunKeeps(Next(s, run[0]), run[1..]);
    }
  }

  /** In every reachable state of any interleaving of create, update and remove, two active
      appointments of one branch that share a pet or an attendant do not overlap. */
  lemma {:induction false} NeverDoubleBooked(s: State, run: seq<Action>)
    requires Init(s) && IsRun(s, run) && HonestRun(s, run)
    ensures NoDoubleBooking(Exec(s, run).rows)
  {
    RunKeeps(s, run);
  }

  /** At most one update commits for an appointment and version, and the one about to commit was
      computed from the row as it is committed now. */
  lemma {:induction false} NoLostUpdate(s: State, run: seq<Action>)
    requires Init(s) && IsRun(s, run) && HonestRun(s, run)
    ensures var now := Exec(s, run);
            && (forall i, j :: 0 <= i < j < |now.updates| ==> now.updates[i] != now.updates[j])
            && (forall t :: CanCommit(now, t) && now.txs[t].req.Update? ==>
                  && now.txs[t].phase.id in now.rows
                  && now.txs[t].existing == Some(now.rows[now.txs[t].phase.id])
                  && Some(DoCommit(now, t).rows[now.txs[t].phase.id]) ==
                     Proposed(now.txs[t].req, now.txs[t].attendant, now.txs[t].existing))
  {
    RunKeeps(s, run);
    RunKeepsProposal(s, run);
    var now := Exec(s, run);
    forall t | CanCommit(now, t) && now.txs[t].req.Update?
      ensures now.txs[t].phase.id in now.rows && now.txs[t].existing == Some(now.rows[now.txs[t].phase.id])
    {
      assert TxOk(now.rows, now.txs[t]);
    }
  }

  /** What a transaction past its locks is going to write is what its request makes of the row it read. */
  ghost predicate Proposals(s: State) {
    forall t :: t in s.txs && !s.txs[t].phase.Acquiring? ==>
      Proposed(s.txs[t].req, s.txs[t].attendant, s.txs[t].existing) == Some(s.txs[t].phase.next)
  }

  lemma {:induction false} RunKeepsProposal(s: State, run: seq<Action>)
    requires Inv(s) && Proposals(s) && IsRun(s, run) && HonestRun(s, run)
    ensures Proposals(Exec(s, run))
    decreases |run|
  {
    if run != [] {
      StepKeeps(s, run[0]);
      StepKeepsProposal(s, run[0]);
      hide Inv, Proposals;
      RunKeepsProposal(Next(s, run[0]), run[1..]);
    }
  }

  lemma StepKeepsProposal(s: State, a: Action)
    requires Inv(s) && Proposals(s) && Enabled(s, a)
    ensures Proposals(Next(s, a))
  {
    hide Inv, Proposed, CanBegin, ResolveSchedule, NextPet, NextAttendant, Clear, WrittenRow, CanRemove, FreshId,
         RowLocked;
    if a.Write? { WriteIsAsChecked(s, a.t); }
  }

  /** The name a transaction settled on when it began: the one its request gives, trimmed, or the row's. */
  ghost predicate Named(s: State) {
    forall t :: t in s.txs ==>
      var tx := s.txs[t];
      && tx.before.Some? == tx.req.Update?
      && (tx.req.Create? ==> tx.req.attendant.Some?)
      && (tx.req.attendant.Some? ==> tx.attendant == Trim(tx.req.attendant.value) && tx.attendant != "")
      && (tx.req.attendant.None? && tx.before.Some? ==> tx.attendant == tx.before.value.attendant)
  }

  lemma StepKeepsNames(s: State, a: Action)
    requires Named(s) && Enabled(s, a)
    ensures Named(Next(s, a))
  {
    hide Proposed, LockKeys, ResolveSchedule, NextPet, Clear, WrittenRow, CanRemove, FreshId, RowLocked, Trim,
         Resources;
  }

  lemma {:induction false} RunKeepsNames(s: State, run: seq<Action>)
    requires Named(s) && IsRun(s, run)
    ensures Named(Exec(s, run))
    decreases |run|
  {
    if run != [] {
      StepKeepsNames(s, run[0]);
      hide Named, Enabled, Next;
      RunKeepsNames(Next(s, run[0]), run[1..]);
    }
  }

  lemma CommitAsks(now: State, t: TxId)
    requires Inv(now) && Proposals(now) && Named(now) && CanCommit(now, t)
    ensures var req, id := now.txs[t].req, now.txs[t].phase.id;
            var row := DoCommit(now, t).rows[id];
            && DoCommit(now, t).rows == now.rows[id := row] && row.scope == req.scope
            && (req.pet.Some? ==> row.pet == req.pet)
            && (req.attendant.Some? ==> row.attendant == Trim(req.attendant.value) && row.attendant != "")
            && (req.status.Some? ==> row.status == req.status.value)
            && (req.Create? ==>
                  && id !in now.rows && row.pet.Some? && req.attendant.Some?
                  && (req.status.None? ==> row.status == Scheduled)
                  && Some(row.slot) == ResolveSchedule(req.schedule, None) && !row.deleted && row.version == 1)
            && (req.Update? ==>
                  && id == req.id && id in now.rows
                  && var past := now.rows[id];
                     && (req.pet.None? ==> row.pet == past.pet)
                     && (req.attendant.None? ==> row.attendant == past.attendant)
                     && (req.status.None? ==> row.status == past.status) && TransitionAllowed(past.status, row.status)
                     && Some(row.slot) == ResolveSchedule(req.schedule, Some(past.slot))
                     && row.deleted == past.deleted && row.version == past.version + 1)
  {
    hide Trim, ResolveSchedule, LocksOk, ClearOk, UpdatesOk, NoDoubleBooking, TransitionAllowed;
    assert TxOk(now.rows, now.txs[t]);
  }

  lemma {:induction false} Reached(s: State, run: seq<Action>)
    requires Init(s) && IsRun(s, run) && HonestRun(s, run)
    ensures Inv(Exec(s, run)) && Proposals(Exec(s, run)) && Named(Exec(s, run))
  {
    RunKeeps(s, run);
    RunKeepsProposal(s, run);
    RunKeepsNames(s, run);
  }

  /** What commits is what was asked for: each column is the request's where it names one, and otherwise
      that of the row as committed just before, or the default of a new one; no other row changes. */
  lemma {:induction false} CommitsWhatWasAsked(s: State, run: seq<Action>, t: TxId)
    requires Init(s) && IsRun(s, run) && HonestRun(s, run) && CanCommit(Exec(s, run), t)
    ensures var now, req, id := Exec(s, run), Exec(s, run).txs[t].req, Exec(s, run).txs[t].phase.id;
            var row := DoCommit(now, t).rows[id];
            && DoCommit(now, t).rows == now.rows[id := row] && row.scope == req.scope
            && (req.pet.Some? ==> row.pet == req.pet)
            && (req.attendant.Some? ==> row.attendant == Trim(req.attendant.value) && row.attendant != "")
            && (req.status.Some? ==> row.status == req.status.value)
            && (req.Create? ==>
                  && id !in now.rows && row.pet.Some? && req.attendant.Some?
                  && (req.status.None? ==> row.status == Scheduled)
                  && Some(row.slot) == ResolveSchedule(req.schedule, None) && !row.deleted && row.version == 1)
            && (req.Update? ==>
                  && id == req.id && id in now.rows
                  && var past := now.rows[id];
                     && (req.pet.None? ==> row.pet == past.pet)
                     && (req.attendant.None? ==> row.attendant == past.attendant)
                     && (req.status.None? ==> row.status == past.status) && TransitionAllowed(past.status, row.status)
                     && Some(row.slot) == ResolveSchedule(req.schedule, Some(past.slot))
                     && row.deleted == past.deleted && row.version == past.version + 1)
  {
    hide Trim, ResolveSchedule, Exec, IsRun, HonestRun, Inv, Proposals, Named, DoCommit, TransitionAllowed;
    Reached(s, run);
    CommitAsks(Exec(s, run), t);
  }

  /** The branch an action works for. */
  function ScopeOf(s: State, a: Action): Scope
    requires Enabled(s, a)
  {
    match a
    case Begin(_, req) => req.scope
    case Remove(scope, _) => scope
    case _ => s.txs[a.t].req.scope
  }

  /** In every run: no action changes an appointment of another branch, and none moves one to another. */
  lemma {:induction false} BranchesStayApart(s: State, run: seq<Action>, a: Action, id: Id)
    requires Init(s) && IsRun(s, run) && HonestRun(s, run) && Enabled(Exec(s, run), a) && id in Exec(s, run).rows
    ensures var now, later := Exec(s, run), Next(Exec(s, run), a);
            && id in later.rows && later.rows[id].scope == now.rows[id].scope
            && (now.rows[id].scope != ScopeOf(now, a) ==> later.rows[id] == now.rows[id])
  {
    hide Exec, IsRun, HonestRun, Inv, Next, Enabled;
    Reached(s, run);
    StepStaysApart(Exec(s, run), a, id);
  }

  lemma StepStaysApart(now: State, a: Action, id: Id)
    requires Inv(now) && Enabled(now, a) && id in now.rows
    ensures id in Next(now, a).rows && Next(now, a).rows[id].scope == now.rows[id].scope
    ensures now.rows[id].scope != ScopeOf(now, a) ==> Next(now, a).rows[id] == now.rows[id]
  {
    hide Inv, Proposed, CanBegin, LockKeys, ResolveSchedule, Clear, WrittenRow, RowLocked;
    if a.Commit? { CommitStaysApart(now, a.t); }
  }

  lemma CommitStaysApart(now: State, t: TxId)
    requires Inv(now) && CanCommit(now, t)
    ensures var tx := now.txs[t];
            && tx.phase.next.scope == tx.req.scope
            && (tx.phase.id in now.rows ==> now.rows[tx.phase.id].scope == tx.req.scope)
  {
    hide LocksOk, ClearOk, UpdatesOk, NoDoubleBooking;
    assert TxOk(now.rows, now.txs[t]);
  }

  // ----- time: one pet's active bookings never add up to more than the time there is

  function Max(a: int, b: int): int {
    if a < b then b else a
  }

  function Min(a: int, b: int): int {
    if a < b then a else b
  }

  /** The part of [lo, hi) that an appointment occupies. */
  function Occupied(slot: Slot, lo: int, hi: int): int
    requires WellFormed(slot)
  {
    Max(0, Min(slot.endAt.value, hi) - Max(slot.startAt.value, lo))
  }

  ghost predicate BookingsOf(rows: map<Id, Appointment>, scope: Scope, pet: string, ids: seq<Id>) {
    && (forall i :: 0 <= i < |ids| ==>
          && ids[i] in rows && Active(rows[ids[i]]) && rows[ids[i]].scope == scope
          && rows[ids[i]].pet == Some(pet) && WellFormed(rows[ids[i]].slot))
    && (forall i, j :: 0 <= i < j < |ids| ==> ids[i] != ids[j])
  }

  predicate Timed(rows: map<Id, Appointment>, ids: seq<Id>) {
    forall i :: 0 <= i < |ids| ==> ids[i] in rows && WellFormed(rows[ids[i]].slot)
  }

  function TotalOccupied(rows: map<Id, Appointment>, ids: seq<Id>, lo: int, hi: int): int
    requires Timed(rows, ids)
  {
    if ids == [] then 0
    else Occupied(rows[ids[|ids| - 1]].slot, lo, hi) + TotalOccupied(rows, ids[..|ids| - 1], lo, hi)
  }

  ghost function Latest(rows: map<Id, Appointment>, ids: seq<Id>): (k: nat)
    requires ids != [] && Timed(rows, ids)
    ensures k < |ids|
    ensures forall i :: 0 <= i < |ids| ==> rows[ids[i]].slot.startAt.value <= rows[ids[k]].slot.startAt.value
  {
    if |ids| == 1 then 0 else
    var k := Latest(rows, ids[..|ids| - 1]);
    if rows[ids[k]].slot.startAt.value < rows[ids[|ids| - 1]].slot.startAt.value then |ids| - 1 else k
  }

  lemma {:induction false} TotalWithout(rows: map<Id, Appointment>, ids: seq<Id>, k: nat, lo: int, hi: int)
    requires k < |ids| && Timed(rows, ids)
    ensures TotalOccupied(rows, ids, lo, hi) ==
            Occupied(rows[ids[k]].slot, lo, hi) + TotalOccupied(rows, ids[..k] + ids[k + 1..], lo, hi)
  {
    var n := |ids| - 1;
    if k == n {
      assert ids[..k] + ids[k + 1..] == ids[..n];
    } else {
      TotalWithout(rows, ids[..n], k, lo, hi);
      assert (ids[..k] + ids[k + 1..])[..n - 1] == ids[..n][..k] + ids[..n][k + 1..];
    }
  }

  lemma {:induction false} SameTotal(rows: map<Id, Appointment>, ids: seq<Id>, lo: int, hi: int, cut: int)
    requires Timed(rows, ids) && forall i :: 0 <= i < |ids| ==> rows[ids[i]].slot.endAt.value <= cut
    ensures TotalOccupied(rows, ids, lo, hi) == TotalOccupied(rows, ids, lo, Min(hi, cut))
  {
    if ids != [] {
      SameTotal(rows, ids[..|ids| - 1], lo, hi, cut);
    }
  }

  /** Every other booking of the pet has ended when the one that starts last begins. */
  lemma OthersEndBefore(rows: map<Id, Appointment>, scope: Scope, pet: string, ids: seq<Id>, k: nat)
    requires NoDoubleBooking(rows) && BookingsOf(rows, scope, pet, ids) && k < |ids|
    requires forall i :: 0 <= i < |ids| ==> rows[ids[i]].slot.startAt.value <= rows[ids[k]].slot.startAt.value
    ensures var rest := ids[..k] + ids[k + 1..];
            && BookingsOf(rows, scope, pet, rest)
            && forall i :: 0 <= i < |rest| ==> rows[rest[i]].slot.endAt.value <= rows[ids[k]].slot.startAt.value
  {
    var rest := ids[..k] + ids[k + 1..];
    forall i | 0 <= i < |rest| ensures rows[rest[i]].slot.endAt.value <= rows[ids[k]].slot.startAt.value {
      assert rest[i] == ids[if i < k then i else i + 1];
      assert !DoubleBooked(rows[rest[i]], rows[ids[k]]);
    }
  }

  lemma RoomForLast(last: Slot, lo: int, hi: int)
    requires WellFormed(last)
    ensures Occupied(last, lo, hi) + Max(0, Min(hi, last.startAt.value) - lo) <= Max(0, hi - lo)
  {
  }

  lemma {:induction false} CapacityOf(rows: map<Id, Appointment>, scope: Scope, pet: string, ids: seq<Id>, lo: int,
      hi: int)
    requires NoDoubleBooking(rows) && BookingsOf(rows, scope, pet, ids)
    ensures TotalOccupied(rows, ids, lo, hi) <= Max(0, hi - lo)
    decreases |ids|
  {
    hide NoDoubleBooking;
    if ids != [] {
      var k := Latest(rows, ids);
      var last := rows[ids[k]].slot;
      var rest := ids[..k] + ids[k + 1..];
      OthersEndBefore(rows, scope, pet, ids, k);
      TotalWithout(rows, ids, k, lo, hi);
      SameTotal(rows, rest, lo, hi, last.startAt.value);
      RoomForLast(last, lo, hi);
      CapacityOf(rows, scope, pet, rest, lo, Min(hi, last.startAt.value));
    }
  }

  /** In every reachable state, whatever part of a time window one pet's active bookings occupy
      adds up to at most the window. */
  lemma {:induction false} NeverOverCapacity(
    s: State, run: seq<Action>, scope: Scope, pet: string, ids: seq<Id>, lo: int, hi: int)
    requires Init(s) && IsRun(s, run) && HonestRun(s, run)
    requires BookingsOf(Exec(s, run).rows, scope, pet, ids)
    ensures TotalOccupied(Exec(s, run).rows, ids, lo, hi) <= Max(0, hi - lo)
  {
    NeverDoubleBooked(s, run);
    CapacityOf(Exec(s, run).rows, scope, pet, ids, lo, hi);
  }

  // ----- waiting

  /** The key a transaction in its lock loop asks for next. */
  predicate Wants(s: State, t: TxId, key: Key) {
    && t in s.txs && s.txs[t].phase.Acquiring? && s.txs[t].phase.held < |s.txs[t].keys|
    && s.txs[t].keys[s.txs[t].phase.held] == key
  }

  /** `t` cannot go on before `u` ends: `u` holds the lock `t` asks for, or the row `t` is to update. */
  ghost predicate Waits(s: State, t: TxId, u: TxId) {
    || (exists key :: Wants(s, t, key) && key in s.locks && s.locks[key] == u)
    || (&& t in s.txs && u in s.txs && s.txs[t].phase.Checking? && s.txs[t].phase.checked == 2
        && s.txs[u].phase.Written? && s.txs[u].phase.id == s.txs[t].phase.id)
  }

  ghost predicate Blocked(s: State, t: TxId) {
    exists u :: Waits(s, t, u)
  }

  /** The holder of a key asks only for later keys. */
  lemma HolderAsksLater(s: State, t: TxId, u: TxId, key: Key, later: Key)
    requires LocksOk(s.txs, s.locks) && Wants(s, t, key) && key in s.locks && s.locks[key] == u && Wants(s, u, later)
    ensures Less(key, later)
  {
    var tx := s.txs[u];
    assert key in tx.keys[..tx.phase.held];
    var i :| 0 <= i < tx.phase.held && tx.keys[i] == key;
    assert Less(tx.keys[i], tx.keys[tx.phase.held]);
  }

  ghost predicate WaitChain(s: State, chain: seq<TxId>) {
    forall i :: 0 <= i < |chain| - 1 ==> Waits(s, chain[i], chain[i + 1])
  }

  /** Only a transaction that has written can block one past its locks, so what waits for a
      transaction in its lock loop is in its lock loop itself, and so back along the chain. */
  lemma {:induction false} ChainAcquires(s: State, chain: seq<TxId>, i: nat, j: nat)
    requires WaitChain(s, chain) && i <= j < |chain|
    requires chain[j] in s.txs && s.txs[chain[j]].phase.Acquiring?
    ensures chain[i] in s.txs && s.txs[chain[i]].phase.Acquiring?
    decreases j - i
  {
    if i < j {
      ChainAcquires(s, chain, i + 1, j);
      assert Waits(s, chain[i], chain[i + 1]);
    }
  }

  lemma {:induction false} ChainAsksLater(s: State, chain: seq<TxId>, n: nat, first: Key, last: Key)
    requires LocksOk(s.txs, s.locks) && WaitChain(s, chain) && 1 <= n < |chain|
    requires Wants(s, chain[0], first) && Wants(s, chain[n], last)
    ensures Less(first, last)
  {
    assert Waits(s, chain[n - 1], chain[n - 1 + 1]);
    ChainAcquires(s, chain, n - 1, n);
    var key :| Wants(s, chain[n - 1], key);
    HolderAsksLater(s, chain[n - 1], chain[n], key, last);
    if n > 1 {
      ChainAsksLater(s, chain, n - 1, first, key);
      LessTransitive(first, key, last);
    }
  }

  /** No reachable state has booking transactions waiting for each other in a cycle. The versions
      the clients name play no part in it. */
  lemma {:induction false} NoDeadlock(s: State, run: seq<Action>, chain: seq<TxId>)
    requires Init(s) && IsRun(s, run) && WaitChain(Exec(s, run), chain) && |chain| >= 2
    ensures chain[0] != chain[|chain| - 1]
  {
    var now, n := Exec(s, run), |chain| - 1;
    RunKeepsLocks(s, run);
    if chain[0] == chain[n] {
      assert Waits(now, chain[0], chain[0 + 1]);
      assert Waits(now, chain[n - 1], chain[n - 1 + 1]);
      ChainAcquires(now, chain, 0, n - 1);
      var key :| Wants(now, chain[0], key);
      ChainAsksLater(now, chain, n, key, key);
      LessIrreflexive(key);
    }
  }

  lemma {:induction false} RunKeepsLocks(s: State, run: seq<Action>)
    requires LocksOk(s.txs, s.locks) && IsRun(s, run)
    ensures LocksOk(Exec(s, run).txs, Exec(s, run).locks)
    decreases |run|
  {
    if run != [] {
      StepKeepsLocks(s, run[0]);
      hide LocksOk;
      RunKeepsLocks(Next(s, run[0]), run[1..]);
    }
  }

  lemma StepKeepsLocks(s: State, a: Action)
    requires LocksOk(s.txs, s.locks) && Enabled(s, a)
    ensures LocksOk(Next(s, a).txs, Next(s, a).locks)
  {
    match a
    case Begin(t, req) => PhaseLocks(s, t, DoBegin(s, t, req).txs[t]);
    case Acquire(t) => AcquireLocks(s, t);
    case Prepare(t, newId) => PhaseLocks(s, t, DoPrepare(s, t, newId).txs[t]);
    case Check(t) => PhaseLocks(s, t, DoCheck(s, t).txs[t]);
    case Write(t) => PhaseLocks(s, t, DoWrite(s, t).txs[t]);
    case Commit(t) => LeaveLocks(s, t);
    case Abort(t) => LeaveLocks(s, t);
    case Remove(scope, id) =>
  }

  /** The transactions asking for a key beyond `key`. */
  ghost function Beyond(s: State, key: Key): set<TxId> {
    set t | t in s.txs && s.txs[t].phase.Acquiring? && s.txs[t].phase.held < |s.txs[t].keys|
            && Less(key, s.txs[t].keys[s.txs[t].phase.held])
  }

  /** Following a blocked transaction's wait leads to one that is not blocked. */
  lemma {:induction false} SomeoneFree(s: State, t: TxId, key: Key) returns (u: TxId)
    requires LocksOk(s.txs, s.locks) && Wants(s, t, key)
    ensures u in s.txs && !Blocked(s, u)
    decreases |Beyond(s, key)|
  {
    if !Blocked(s, t) { return t; }
    var v := s.locks[key];
    if exists later :: Wants(s, v, later) {
      var later :| Wants(s, v, later);
      HolderAsksLater(s, t, v, key, later);
      LessIrreflexive(later);
      forall x | x in Beyond(s, later) ensures x in Beyond(s, key) {
        LessTransitive(key, later, s.txs[x].keys[s.txs[x].phase.held]);
      }
      assert v in Beyond(s, key) && v !in Beyond(s, later);
      assert Beyond(s, later) <= Beyond(s, key) - {v};
      CardinalitySmaller(Beyond(s, later), Beyond(s, key), v);
      u := SomeoneFree(s, v, later);
    } else if Blocked(s, v) {
      u :| Waits(s, v, u);
    } else {
      u := v;
    }
  }

  lemma CardinalitySmaller(a: set<TxId>, b: set<TxId>, x: TxId)
    requires a <= b - {x} && x in b
    ensures |a| < |b|
  {
    CardinalityAtMost(a, b - {x});
  }

  lemma {:induction false} CardinalityAtMost(a: set<TxId>, b: set<TxId>)
    requires a <= b
    ensures |a| <= |b|
  {
    if a != {} {
      var x :| x in a;
      CardinalityAtMost(a - {x}, b - {x});
    }
  }

  /** Whenever transactions are running, one of them waits for nobody. */
  lemma {:induction false} SomeoneCanGoOn(s: State, run: seq<Action>)
    requires Init(s) && IsRun(s, run) && Exec(s, run).txs != map[]
    ensures exists u :: u in Exec(s, run).txs && !Blocked(Exec(s, run), u)
  {
    var now := Exec(s, run);
    RunKeepsLocks(s, run);
    var t :| t in now.txs;
    if Blocked(now, t) {
      if exists key :: Wants(now, t, key) {
        var key :| Wants(now, t, key);
        var u := SomeoneFree(now, t, key);
      } else {
        var u :| Waits(now, t, u);
        assert !Blocked(now, u);
      }
    }
  }

  /** Not waiting means the next statement can be executed now: it takes the lock, or it reads or
      writes and either succeeds or is refused. Only the write of an update depends on others. */
  lemma NotBlockedMeansReady(s: State, t: TxId)
    requires LocksOk(s.txs, s.locks) && t in s.txs && !Blocked(s, t)
    ensures s.txs[t].phase.Acquiring? && s.txs[t].phase.held < |s.txs[t].keys| ==> CanAcquire(s, t)
    ensures s.txs[t].phase.Checking? && s.txs[t].phase.checked == 2 ==> !RowLocked(s, s.txs[t].phase.id)
    ensures s.txs[t].phase.Written? ==> CanCommit(s, t)
  {
    var tx := s.txs[t];
    if tx.phase.Acquiring? && tx.phase.held < |tx.keys| {
      var key := tx.keys[tx.phase.held];
      assert Wants(s, t, key);
      if key in s.locks { assert Waits(s, t, s.locks[key]); }
    }
    if tx.phase.Checking? && tx.phase.checked == 2 && RowLocked(s, tx.phase.id) {
      var u :| u in s.txs && s.txs[u].phase.Written? && s.txs[u].phase.id == tx.phase.id;
      assert Waits(s, t, u);
    }
  }
}
