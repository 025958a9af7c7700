/** Pet agenda booking as interleaved transactions over one appointment table.

    One action per await point: the read before the transaction, each advisory lock, each read,
    the write, the commit. A write is seen by nobody else until its transaction commits, and it
    holds the lock of its row until then. `remove` is a single statement outside any transaction. */
module AgendaBooking {
  import opened WhiteSpace
  import opened Wrappers
  import opened AgendaSchedule
  import opened AgendaLocks

  type Id = nat
  type TxId = nat

  datatype Appointment = Appointment(
    scope: Scope, pet: Option<string>, attendant: string, slot: Slot, status: Status, deleted: bool, version: int)

  datatype Request =
    | Create(scope: Scope, pet: Option<string>, attendant: Option<string>, schedule: ScheduleDto,
      status: Option<Status>)
    | Update(scope: Scope, id: Id, expectedVersion: int, pet: Option<string>, attendant: Option<string>,
             schedule: ScheduleDto, status: Option<Status>)

  /** Acquiring: `held` keys are held. Checking: `next` is the row to be written as `id`, and the
      first `checked` of its two resources were found free. Written: the write is done, not committed. */
  datatype Phase =
    | Acquiring(held: nat)
    | Checking(id: Id, next: Appointment, checked: nat)
    | Written(id: Id, next: Appointment)

  /** `before` is the row `update` reads ahead of its transaction (None for `create`), `attendant`
      the name it settles on then, and `existing` the row it reads again once it holds its locks. */
  datatype Tx = Tx(req: Request, before: Option<Appointment>, attendant: string, keys: seq<Key>,
                   existing: Option<Appointment>, phase: Phase)

  /** `updates` records the (appointment, expected version) of every committed update. */
  datatype State = State(rows: map<Id, Appointment>, txs: map<TxId, Tx>, locks: map<Key, TxId>, updates: seq<(Id, int)>)

  // ----- the property the protocol is for

  predicate Active(a: Appointment) {
    !a.deleted && !Ignored(a.status)
  }

  predicate SharePet(a: Appointment, b: Appointment) {
    a.pet.Some? && a.pet == b.pet
  }

  predicate ShareAttendant(a: Appointment, b: Appointment) {
    Fold(a.attendant) == Fold(b.attendant)
  }

  /** The query's `startAt < endAt' && endAt > startAt'`; a null column satisfies no comparison. */
  predicate Overlap(a: Slot, b: Slot) {
    && a.startAt.Some? && a.endAt.Some? && b.startAt.Some? && b.endAt.Some?
    && a.startAt.value < b.endAt.value && a.endAt.value > b.startAt.value
  }

  predicate DoubleBooked(a: Appointment, b: Appointment) {
    Active(a) && Active(b) && a.scope == b.scope && (SharePet(a, b) || ShareAttendant(a, b)) && Overlap(a.slot, b.slot)
  }

  ghost predicate NoDoubleBooking(rows: map<Id, Appointment>) {
    forall i, j :: i in rows && j in rows && i != j ==> !DoubleBooked(rows[i], rows[j])
  }

  // ----- actions

  datatype Action =
    | Begin(t: TxId, req: Request)
    | Acquire(t: TxId)
    | Prepare(t: TxId, newId: Id)
    | Check(t: TxId)
    | Write(t: TxId)
    | Commit(t: TxId)
    | Abort(t: TxId)
    | Remove(scope: Scope, id: Id)

  /** `findScopedAgenda`. */
  predicate Found(s: State, scope: Scope, id: Id) {
    id in s.rows && s.rows[id].scope == scope && !s.rows[id].deleted
  }

  function NextAttendant(req: Request, before: Option<Appointment>): Option<string> {
    if req.Update? && req.attendant.None? && before.Some? then Some(before.value.attendant) else Required(req.attendant)
  }

  function NextPet(req: Request, row: Option<Appointment>): Option<string> {
    if req.pet.None? && row.Some? then row.value.pet else req.pet
  }

  /** What has to be locked: what the row occupies now, and what it is to occupy. */
  function Resources(req: Request, before: Option<Appointment>, attendant: string): seq<Resource> {
    var wanted := [Resource(NextPet(req, before), attendant)];
    if before.Some? then [Resource(before.value.pet, before.value.attendant)] + wanted else wanted
  }

  predicate CanBegin(s: State, t: TxId, req: Request) {
    && t !in s.txs
    && match req
       case Create(_, _, _, schedule, _) => ResolveSchedule(schedule, None).Some? && Required(req.attendant).Some?
       case Update(scope, id, _, _, _, _, _) => Found(s, scope, id) && NextAttendant(req, Some(s.rows[id])).Some?
  }

  function DoBegin(s: State, t: TxId, req: Request): State
    requires CanBegin(s, t, req)
  {
    var before := if req.Update? then Some(s.rows[req.id]) else None;
    var attendant := NextAttendant(req, before).value;
    s.(txs := s.txs[t := Tx(req, before, attendant, LockKeys(req.scope, Resources(req, before, attendant)), None,
      Acquiring(0))])
  }

  predicate CanAcquire(s: State, t: TxId) {
    && t in s.txs && s.txs[t].phase.Acquiring? && s.txs[t].phase.held < |s.txs[t].keys|
    && s.txs[t].keys[s.txs[t].phase.held] !in s.locks
  }

  function DoAcquire(s: State, t: TxId): State
    requires CanAcquire(s, t)
  {
    var tx := s.txs[t];
    s.(txs := s.txs[t := tx.(phase := Acquiring(tx.phase.held + 1))], locks := s.locks[tx.keys[tx.phase.held] := t])
  }

  /** The row a transaction means to write, from the request and the row it read under its locks. */
  function Proposed(req: Request, attendant: string, existing: Option<Appointment>): Option<Appointment> {
    var pet := NextPet(req, existing);
    var slot := ResolveSchedule(req.schedule, if existing.Some? then Some(existing.value.slot) else None);
    var status := if req.status.Some? then req.status.value else if existing.Some? then existing.value.status
      else Scheduled;
    if pet.None? || slot.None? then None
    else if existing.None? then Some(Appointment(req.scope, pet, attendant, slot.value, status, false, 1))
    else if !TransitionAllowed(existing.value.status, status) then None
    else Some(existing.value.(pet := pet, attendant := attendant, slot := slot.value, status := status,
                              version := existing.value.version + 1))
  }

  predicate FreshId(s: State, id: Id) {
    id !in s.rows && forall t :: t in s.txs && !s.txs[t].phase.Acquiring? ==> s.txs[t].phase.id != id
  }

  predicate LockedAll(s: State, t: TxId) {
    t in s.txs && s.txs[t].phase == Acquiring(|s.txs[t].keys|)
  }

  predicate CanPrepare(s: State, t: TxId, newId: Id) {
    && LockedAll(s, t)
    && var tx := s.txs[t];
       match tx.req
       case Create(_, _, _, _, _) => FreshId(s, newId) && Proposed(tx.req, tx.attendant, None).Some?
       case Update(scope, id, expectedVersion, _, _, _, _) =>
         Found(s, scope, id) && s.rows[id].version == expectedVersion
           && Proposed(tx.req, tx.attendant, Some(s.rows[id])).Some?
  }

  function DoPrepare(s: State, t: TxId, newId: Id): State
    requires CanPrepare(s, t, newId)
  {
    var tx := s.txs[t];
    var id := if tx.req.Update? then tx.req.id else newId;
    var existing := if tx.req.Update? then Some(s.rows[id]) else None;
    s.(txs := s.txs[t := tx.(existing := existing,
      phase := Checking(id, Proposed(tx.req, tx.attendant, existing).value, 0))])
  }

  /** One query of `assertNoTimeConflict`: the first by pet, the second by attendant. */
  ghost predicate Clear(rows: map<Id, Appointment>, id: Id, next: Appointment, which: nat) {
    forall j :: j in rows && j != id && Active(rows[j]) && rows[j].scope == next.scope
      && (if which == 0 then rows[j].pet == next.pet else Fold(rows[j].attendant) == Fold(Trim(next.attendant)))
      ==> !Overlap(rows[j].slot, next.slot)
  }

  ghost predicate CanCheck(s: State, t: TxId) {
    && t in s.txs && s.txs[t].phase.Checking? && s.txs[t].phase.checked < 2
    && (Ignored(s.txs[t].phase.next.status)
       || Clear(s.rows, s.txs[t].phase.id, s.txs[t].phase.next, s.txs[t].phase.checked))
  }

  function DoCheck(s: State, t: TxId): State
    requires t in s.txs && s.txs[t].phase.Checking?
  {
    var tx := s.txs[t];
    s.(txs := s.txs[t := tx.(phase := tx.phase.(checked := tx.phase.checked + 1))])
  }

  predicate RowLocked(s: State, id: Id) {
    exists u :: u in s.txs && s.txs[u].phase.Written? && s.txs[u].phase.id == id
  }

  /** The insert, or the conditional `updateMany` on the row as it is committed now. */
  predicate CanWrite(s: State, t: TxId) {
    && t in s.txs && s.txs[t].phase.Checking? && s.txs[t].phase.checked == 2
    && var tx := s.txs[t];
       tx.req.Update? ==>
         && !RowLocked(s, tx.phase.id) && Found(s, tx.req.scope, tx.phase.id)
         && s.rows[tx.phase.id].version == tx.req.expectedVersion
  }

  /** The update sets only the columns the request names and adds one to the stored version. */
  function WrittenRow(s: State, tx: Tx): Appointment
    requires tx.phase.Checking? && (tx.req.Update? ==> tx.phase.id in s.rows)
  {
    if tx.req.Create? then tx.phase.next else
    var row := s.rows[tx.phase.id];
    row.(pet := tx.phase.next.pet, attendant := tx.phase.next.attendant, slot := tx.phase.next.slot,
         status := if tx.req.status.Some? then tx.req.status.value else row.status, version := row.version + 1)
  }

  function DoWrite(s: State, t: TxId): State
    requires CanWrite(s, t)
  {
    var tx := s.txs[t];
    s.(txs := s.txs[t := tx.(phase := Written(tx.phase.id, WrittenRow(s, tx)))])
  }

  /** The end of a transaction releases every lock it holds. */
  function Leave(s: State, t: TxId): State {
    s.(txs := s.txs - {t}, locks := map k | k in s.locks && s.locks[k] != t :: s.locks[k])
  }

  predicate CanCommit(s: State, t: TxId) {
    t in s.txs && s.txs[t].phase.Written?
  }

  function DoCommit(s: State, t: TxId): State
    requires CanCommit(s, t)
  {
    var tx := s.txs[t];
    Leave(s, t).(rows := s.rows[tx.phase.id := tx.phase.next],
                 updates := if tx.req.Update? then s.updates + [(tx.req.id, tx.req.expectedVersion)] else s.updates)
  }

  predicate CanRemove(s: State, scope: Scope, id: Id) {
    id in s.rows && s.rows[id].scope == scope && !RowLocked(s, id)
  }

  function DoRemove(s: State, id: Id): State
    requires id in s.rows
  {
    s.(rows := s.rows[id := s.rows[id].(deleted := true)])
  }

  ghost predicate Enabled(s: State, a: Action) {
    match a
    case Begin(t, req) => CanBegin(s, t, req)
    case Acquire(t) => CanAcquire(s, t)
    case Prepare(t, newId) => CanPrepare(s, t, newId)
    case Check(t) => CanCheck(s, t)
    case Write(t) => CanWrite(s, t)
    case Commit(t) => CanCommit(s, t)
    case Abort(t) => t in s.txs
    case Remove(scope, id) => CanRemove(s, scope, id)
  }

  ghost function Next(s: State, a: Action): State
    requires Enabled(s, a)
  {
    match a
    case Begin(t, req) => DoBegin(s, t, req)
    case Acquire(t) => DoAcquire(s, t)
    case Prepare(t, newId) => DoPrepare(s, t, newId)
    case Check(t) => DoCheck(s, t)
    case Write(t) => DoWrite(s, t)
    case Commit(t) => DoCommit(s, t)
    case Abort(t) => Leave(s, t)
    case Remove(_, id) => DoRemove(s, id)
  }

  /** The client names a version it has seen: none later than the row's when the call starts. */
  ghost predicate Honest(s: State, a: Action) {
    a.Begin? && a.req.Update? && a.req.id in s.rows ==> a.req.expectedVersion <= s.rows[a.req.id].version
  }

  ghost predicate IsRun(s: State, run: seq<Action>)
    decreases |run|
  {
    run == [] || (Enabled(s, run[0]) && IsRun(Next(s, run[0]), run[1..]))
  }

  ghost predicate HonestRun(s: State, run: seq<Action>)
    requires IsRun(s, run)
    decreases |run|
  {
    run == [] || (Honest(s, run[0]) && HonestRun(Next(s, run[0]), run[1..]))
  }

  ghost function Exec(s: State, run: seq<Action>): State
    requires IsRun(s, run)
    decreases |run|
  {
    if run == [] then s else Exec(Next(s, run[0]), run[1..])
  }

  // ----- the invariant

  function Held(tx: Tx): seq<Key> {
    if tx.phase.Acquiring? && tx.phase.held <= |tx.keys| then tx.keys[..tx.phase.held] else tx.keys
  }

  ghost predicate LocksOk(txs: map<TxId, Tx>, locks: map<Key, TxId>) {
    && (forall k :: k in locks ==> locks[k] in txs && k in Held(txs[locks[k]]))
    && (forall t, k :: t in txs && k in Held(txs[t]) ==> k in locks && locks[k] == t)
    && (forall t :: t in txs ==>
          Ascending(txs[t].keys) && (txs[t].phase.Acquiring? ==> txs[t].phase.held <= |txs[t].keys|))
  }

  /** `past` is a committed form of row `id`: the row has not gone back, and at the same version
      it differs at most in being deleted. */
  ghost predicate Seen(rows: map<Id, Appointment>, id: Id, past: Appointment) {
    && id in rows && rows[id].scope == past.scope && past.version <= rows[id].version
    && (past.version == rows[id].version ==> rows[id].(deleted := past.deleted) == past)
  }

  ghost predicate Covers(keys: seq<Key>, row: Appointment) {
    PetKey(row.scope, row.pet) in keys && AttendantKey(row.scope, row.attendant) in keys
  }

  /** What an update transaction knows: it started from a committed row not older than the
      version it expects, and its keys cover that row and what the request turns it into. */
  ghost predicate StartOk(rows: map<Id, Appointment>, tx: Tx) {
    && tx.before.Some? == tx.req.Update?
    && Trimmed(tx.attendant)
    && PetKey(tx.req.scope, NextPet(tx.req, tx.before)) in tx.keys
    && AttendantKey(tx.req.scope, tx.attendant) in tx.keys
    && (tx.req.Update? ==>
          && Seen(rows, tx.req.id, tx.before.value) && !tx.before.value.deleted && tx.before.value.scope == tx.req.scope
          && tx.req.expectedVersion <= tx.before.value.version && Covers(tx.keys, tx.before.value))
  }

  ghost predicate NextOk(rows: map<Id, Appointment>, tx: Tx) {
    !tx.phase.Acquiring? ==>
      var id, next := tx.phase.id, tx.phase.next;
      && tx.existing == tx.before
      && next.scope == tx.req.scope && next.attendant == tx.attendant && next.pet.Some? && WellFormed(next.slot)
      && Covers(tx.keys, next)
      && (tx.phase.Checking? ==> tx.phase.checked <= 2)
      && (tx.req.Create? ==> id !in rows)
      && (tx.req.Update? ==> tx.before.Some? && UpdateOk(rows, tx, id, tx.before.value, next))
  }

  /** The row is still at the version the update expects, and `next` is its successor. */
  ghost predicate UpdateOk(rows: map<Id, Appointment>, tx: Tx, id: Id, before: Appointment, next: Appointment)
    requires tx.req.Update?
  {
    && id == tx.req.id && before.version == tx.req.expectedVersion
    && id in rows && rows[id].version == tx.req.expectedVersion
    && next == before.(pet := next.pet, attendant := next.attendant, slot := next.slot,
                       status := if tx.req.status.Some? then tx.req.status.value else before.status,
                       version := before.version + 1)
    && (tx.phase.Written? ==> rows[id] == before)
  }

  function Checked(tx: Tx): nat {
    match tx.phase
    case Acquiring(_) => 0
    case Checking(_, _, checked) => checked
    case Written(_, _) => 2
  }

  ghost predicate ClearOk(rows: map<Id, Appointment>, tx: Tx) {
    !tx.phase.Acquiring? && !Ignored(tx.phase.next.status) ==>
      && (Checked(tx) >= 1 ==> Clear(rows, tx.phase.id, tx.phase.next, 0))
      && (Checked(tx) >= 2 ==> Clear(rows, tx.phase.id, tx.phase.next, 1))
  }

  ghost predicate TxOk(rows: map<Id, Appointment>, tx: Tx) {
    StartOk(rows, tx) && NextOk(rows, tx) && ClearOk(rows, tx)
  }

  ghost predicate TargetsOk(txs: map<TxId, Tx>) {
    forall t, u :: t in txs && u in txs && t != u && !txs[t].phase.Acquiring? && !txs[u].phase.Acquiring? ==>
      txs[t].phase.id != txs[u].phase.id
  }

  ghost predicate UpdatesOk(rows: map<Id, Appointment>, updates: seq<(Id, int)>) {
    && (forall i :: 0 <= i < |updates| ==> updates[i].0 in rows && updates[i].1 < rows[updates[i].0].version)
    && (forall i, j :: 0 <= i < j < |updates| ==> updates[i] != updates[j])
  }

  ghost predicate RowsOk(rows: map<Id, Appointment>) {
    forall i :: i in rows ==> Trimmed(rows[i].attendant)
  }

  ghost predicate TxsOk(rows: map<Id, Appointment>, txs: map<TxId, Tx>) {
    forall t :: t in txs ==> TxOk(rows, txs[t])
  }

  ghost predicate Inv(s: State) {
    && LocksOk(s.txs, s.locks) && TxsOk(s.rows, s.txs) && TargetsOk(s.txs)
    && UpdatesOk(s.rows, s.updates) && RowsOk(s.rows) && NoDoubleBooking(s.rows)
  }

  /** No transaction running, and appointments that already satisfy what is to be kept. Rows with
      null dates may be among them. */
  ghost predicate Init(s: State) {
    s.txs == map[] && s.locks == map[] && s.updates == [] && RowsOk(s.rows) && NoDoubleBooking(s.rows)
  }

  lemma BeginKeeps(s: State, t: TxId, req: Request)
    requires Inv(s) && CanBegin(s, t, req) && Honest(s, Begin(t, req))
    ensures Inv(DoBegin(s, t, req))
  {
    hide TxOk, LocksOk, NoDoubleBooking, RowsOk, UpdatesOk, LockKeys, Resources, NextAttendant, ResolveSchedule,
         Required, Found;
    BeginStarts(s, t, req);
    PhaseLocks(s, t, DoBegin(s, t, req).txs[t]);
  }

  /** A transaction may start, or go on, as long as the keys it holds stay the same. */
  lemma PhaseLocks(s: State, t: TxId, tx: Tx)
    requires LocksOk(s.txs, s.locks) && Ascending(tx.keys) && (tx.phase.Acquiring? ==> tx.phase.held <= |tx.keys|)
    requires Held(tx) == if t in s.txs then Held(s.txs[t]) else []
    ensures LocksOk(s.txs[t := tx], s.locks)
  {
  }

  /** The keys of a new transaction cover the row it starts from and what it asks for. */
  lemma BeginStarts(s: State, t: TxId, req: Request)
    requires Inv(s) && CanBegin(s, t, req) && Honest(s, Begin(t, req))
    ensures TxOk(s.rows, DoBegin(s, t, req).txs[t])
    ensures Ascending(DoBegin(s, t, req).txs[t].keys)
  {
    var tx := DoBegin(s, t, req).txs[t];
    var resources := Resources(req, tx.before, tx.attendant);
    assert resources[|resources| - 1] in resources && resources[0] in resources;
  }

  lemma AcquireKeeps(s: State, t: TxId)
    requires Inv(s) && CanAcquire(s, t)
    ensures Inv(DoAcquire(s, t))
  {
    hide TxOk, LocksOk, NoDoubleBooking, RowsOk, UpdatesOk;
    StillAcquiring(s.rows, s.txs[t], DoAcquire(s, t).txs[t].phase);
    AcquireLocks(s, t);
  }

  lemma StillAcquiring(rows: map<Id, Appointment>, tx: Tx, phase: Phase)
    requires TxOk(rows, tx) && phase.Acquiring?
    ensures TxOk(rows, tx.(phase := phase))
  {
  }

  lemma AcquireLocks(s: State, t: TxId)
    requires LocksOk(s.txs, s.locks) && CanAcquire(s, t)
    ensures LocksOk(DoAcquire(s, t).txs, DoAcquire(s, t).locks)
  {
    var key := s.txs[t].keys[s.txs[t].phase.held];
    assert Held(DoAcquire(s, t).txs[t]) == Held(s.txs[t]) + [key];
  }

  /** A transaction past its lock loop owns each of its keys. */
  lemma Owns(s: State, t: TxId, key: Key)
    requires LocksOk(s.txs, s.locks) && t in s.txs && key in s.txs[t].keys
    requires !s.txs[t].phase.Acquiring? || LockedAll(s, t)
    ensures key in s.locks && s.locks[key] == t
  {
    assert Held(s.txs[t]) == s.txs[t].keys;
  }

  /** So two transactions past their lock loops have no key in common. */
  lemma Exclusion(s: State, t: TxId, u: TxId, key: Key)
    requires LocksOk(s.txs, s.locks) && t in s.txs && u in s.txs && t != u
    requires !s.txs[t].phase.Acquiring? || LockedAll(s, t)
    requires !s.txs[u].phase.Acquiring? || LockedAll(s, u)
    ensures !(key in s.txs[t].keys && key in s.txs[u].keys)
  {
    if key in s.txs[t].keys { Owns(s, t, key); }
    if key in s.txs[u].keys { Owns(s, u, key); }
  }

  /** If the version check passes, the row read before locking is the row read under lock. */
  lemma VersionCheckPins(s: State, t: TxId, newId: Id)
    requires Inv(s) && CanPrepare(s, t, newId) && s.txs[t].req.Update?
    ensures s.txs[t].before == Some(s.rows[s.txs[t].req.id])
    ensures Covers(s.txs[t].keys, s.rows[s.txs[t].req.id])
    ensures Covers(s.txs[t].keys, Proposed(s.txs[t].req, s.txs[t].attendant, Some(s.rows[s.txs[t].req.id])).value)
  {
    assert TxOk(s.rows, s.txs[t]);
  }

  /** Two update transactions past their locks cannot have pinned the same row. */
  lemma OneUpdaterPerRow(s: State, t: TxId, u: TxId)
    requires Inv(s) && t in s.txs && u in s.txs && t != u
    requires LockedAll(s, t) && !s.txs[u].phase.Acquiring?
    requires s.txs[t].req.Update? && s.txs[u].req.Update? && s.txs[t].req.id == s.txs[u].req.id
    ensures s.txs[t].before != Some(s.rows[s.txs[t].req.id])
  {
    var id := s.txs[t].req.id;
    assert TxOk(s.rows, s.txs[t]) && TxOk(s.rows, s.txs[u]);
    Exclusion(s, t, u, PetKey(s.rows[id].scope, s.rows[id].pet));
  }

  lemma PrepareKeeps(s: State, t: TxId, newId: Id)
    requires Inv(s) && CanPrepare(s, t, newId)
    ensures Inv(DoPrepare(s, t, newId))
  {
    var tx := DoPrepare(s, t, newId).txs[t];
    PrepareStarts(s, t, newId);
    PhaseLocks(s, t, tx);
    PrepareTarget(s, t, newId);
    hide TxOk, LocksOk, NoDoubleBooking, RowsOk, UpdatesOk, CanPrepare, Proposed;
  }

  lemma TxFacts(s: State, t: TxId)
    requires Inv(s) && t in s.txs
    ensures TxOk(s.rows, s.txs[t]) && Ascending(s.txs[t].keys)
    ensures s.txs[t].phase.Acquiring? ==> s.txs[t].phase.held <= |s.txs[t].keys|
  {
    hide TxOk, NoDoubleBooking, RowsOk, UpdatesOk, TargetsOk, Ascending;
  }

  /** What a transaction reads under its locks, and proposes, is covered by them. */
  lemma Prepared(rows: map<Id, Appointment>, tx: Tx, id: Id)
    requires TxOk(rows, tx) && tx.phase.Acquiring? && Proposed(tx.req, tx.attendant, tx.before).Some?
    requires if tx.req.Create? then id !in rows
             else && id == tx.req.id && id in rows && tx.before == Some(rows[id])
                  && rows[id].version == tx.req.expectedVersion
    ensures TxOk(rows, tx.(existing := tx.before,
            phase := Checking(id, Proposed(tx.req, tx.attendant, tx.before).value, 0)))
  {
    hide PetKey, AttendantKey, Clear, ResolveSchedule;
  }

  lemma PrepareStarts(s: State, t: TxId, newId: Id)
    requires Inv(s) && CanPrepare(s, t, newId)
    ensures TxOk(s.rows, DoPrepare(s, t, newId).txs[t])
    ensures Held(DoPrepare(s, t, newId).txs[t]) == Held(s.txs[t])
    ensures Ascending(s.txs[t].keys)
  {
    hide Inv, TxOk, Proposed, Ascending;
    TxFacts(s, t);
    if s.txs[t].req.Update? { VersionCheckPins(s, t, newId); } else { CreateStarts(s.rows, s.txs[t]); }
    Prepared(s.rows, s.txs[t], DoPrepare(s, t, newId).txs[t].phase.id);
  }

  lemma CreateStarts(rows: map<Id, Appointment>, tx: Tx)
    requires TxOk(rows, tx) && tx.req.Create?
    ensures tx.before.None?
  {
    hide NextOk, ClearOk;
  }

  lemma PrepareTarget(s: State, t: TxId, newId: Id)
    requires Inv(s) && CanPrepare(s, t, newId)
    ensures TargetsOk(DoPrepare(s, t, newId).txs)
  {
    var tx := DoPrepare(s, t, newId).txs[t];
    forall u | u in s.txs && u != t && !s.txs[u].phase.Acquiring? ensures s.txs[u].phase.id != tx.phase.id {
      assert TxOk(s.rows, s.txs[u]);
      if tx.req.Update? && s.txs[u].req.Update? && s.txs[u].req.id == tx.req.id {
        VersionCheckPins(s, t, newId);
        OneUpdaterPerRow(s, t, u);
      }
    }
    hide NoDoubleBooking, UpdatesOk, Proposed, LocksOk;
  }

  /** A transaction past its locks goes on to another phase with the same target. */
  lemma PhaseKeeps(s: State, t: TxId, phase: Phase)
    requires Inv(s) && t in s.txs && TxOk(s.rows, s.txs[t].(phase := phase))
    requires !s.txs[t].phase.Acquiring? && !phase.Acquiring? && phase.id == s.txs[t].phase.id
    ensures Inv(s.(txs := s.txs[t := s.txs[t].(phase := phase)]))
  {
    hide TxOk, NoDoubleBooking, RowsOk, UpdatesOk;
    PhaseLocks(s, t, s.txs[t].(phase := phase));
    hide LocksOk, Held;
  }

  lemma CheckKeeps(s: State, t: TxId)
    requires Inv(s) && CanCheck(s, t)
    ensures Inv(DoCheck(s, t))
  {
    hide Clear;
    OneMoreChecked(s.rows, s.txs[t]);
    hide Inv;
    PhaseKeeps(s, t, DoCheck(s, t).txs[t].phase);
  }

  lemma OneMoreChecked(rows: map<Id, Appointment>, tx: Tx)
    requires TxOk(rows, tx) && tx.phase.Checking? && tx.phase.checked < 2
    requires Ignored(tx.phase.next.status) || Clear(rows, tx.phase.id, tx.phase.next, tx.phase.checked)
    ensures TxOk(rows, tx.(phase := tx.phase.(checked := tx.phase.checked + 1)))
  {
    hide Clear, Covers, Seen;
  }

  /** The conditional update finds the very row the transaction computed from, so what it writes
      is what was checked. */
  lemma WriteIsAsChecked(s: State, t: TxId)
    requires Inv(s) && CanWrite(s, t)
    ensures WrittenRow(s, s.txs[t]) == s.txs[t].phase.next
    ensures s.txs[t].req.Update? ==> s.txs[t].existing == Some(s.rows[s.txs[t].phase.id])
  {
    assert TxOk(s.rows, s.txs[t]);
  }

  lemma WriteKeeps(s: State, t: TxId)
    requires Inv(s) && CanWrite(s, t)
    ensures Inv(DoWrite(s, t))
  {
    WriteIsAsChecked(s, t);
    WriteStarts(s.rows, s.txs[t]);
    hide Inv, WrittenRow;
    PhaseKeeps(s, t, Written(s.txs[t].phase.id, s.txs[t].phase.next));
  }

  lemma WriteStarts(rows: map<Id, Appointment>, tx: Tx)
    requires TxOk(rows, tx) && tx.phase.Checking? && tx.phase.checked == 2
    requires tx.req.Update? ==> tx.existing == if tx.phase.id in rows then Some(rows[tx.phase.id]) else None
    ensures TxOk(rows, tx.(phase := Written(tx.phase.id, tx.phase.next)))
  {
    hide Clear, Covers, Seen;
  }

  lemma LeaveLocks(s: State, t: TxId)
    requires LocksOk(s.txs, s.locks)
    ensures LocksOk(Leave(s, t).txs, Leave(s, t).locks)
  {
    forall u, k | u in s.txs && u != t && k in Held(s.txs[u])
      ensures k in Leave(s, t).locks && Leave(s, t).locks[k] == u
    {
      assert s.locks[k] == u;
    }
  }

  lemma AbortKeeps(s: State, t: TxId)
    requires Inv(s)
    ensures Inv(Leave(s, t))
  {
    LeaveLocks(s, t);
    hide TxOk, LocksOk, NoDoubleBooking, RowsOk, UpdatesOk;
  }

  /** The two searches of the conflict check exclude every double booking with the new row. */
  lemma ClearMeansFree(rows: map<Id, Appointment>, id: Id, next: Appointment, j: Id)
    requires next.pet.Some? && Trimmed(next.attendant)
    requires Ignored(next.status) || (Clear(rows, id, next, 0) && Clear(rows, id, next, 1))
    requires j in rows && j != id
    ensures !DoubleBooked(rows[j], next) && !DoubleBooked(next, rows[j])
  {
  }

  lemma CommitRows(s: State, t: TxId)
    requires Inv(s) && CanCommit(s, t)
    ensures RowsOk(DoCommit(s, t).rows) && NoDoubleBooking(DoCommit(s, t).rows)
  {
    var tx := s.txs[t];
    assert TxOk(s.rows, tx);
    forall j | j in s.rows && j != tx.phase.id
      ensures !DoubleBooked(s.rows[j], tx.phase.next) && !DoubleBooked(tx.phase.next, s.rows[j])
    {
      ClearMeansFree(s.rows, tx.phase.id, tx.phase.next, j);
    }
    hide DoubleBooked, Clear, UpdatesOk, Covers, Seen, LocksOk, TargetsOk;
  }

  /** A commit leaves what every other transaction relies on: it writes another row, and one that
      shares no resource with theirs unless they are still waiting for its locks. */
  lemma CommitOthers(s: State, t: TxId, u: TxId)
    requires Inv(s) && CanCommit(s, t) && u in s.txs && u != t
    ensures TxOk(DoCommit(s, t).rows, s.txs[u])
  {
    var id, next := s.txs[t].phase.id, s.txs[t].phase.next;
    assert TxOk(s.rows, s.txs[t]) && TxOk(s.rows, s.txs[u]);
    if !s.txs[u].phase.Acquiring? {
      var other := s.txs[u].phase.next;
      Exclusion(s, t, u, PetKey(next.scope, next.pet));
      Exclusion(s, t, u, AttendantKey(next.scope, next.attendant));
      assert next.scope == other.scope ==> next.pet != other.pet && Fold(next.attendant) != Fold(other.attendant);
      hide LocksOk, NoDoubleBooking, UpdatesOk, PetKey, AttendantKey, Fold;
      CommitOther(s.rows, id, next, s.txs[u]);
    } else {
      hide LocksOk, NoDoubleBooking, UpdatesOk, PetKey, AttendantKey;
    }
  }

  lemma CommitOther(rows: map<Id, Appointment>, id: Id, next: Appointment, tx: Tx)
    requires TxOk(rows, tx) && !tx.phase.Acquiring? && tx.phase.id != id
    requires id in rows ==> rows[id].scope == next.scope && rows[id].version < next.version
    requires next.scope == tx.phase.next.scope ==>
               next.pet != tx.phase.next.pet && Fold(next.attendant) != Fold(tx.phase.next.attendant)
    ensures TxOk(rows[id := next], tx)
  {
    hide PetKey, AttendantKey, Covers;
  }

  lemma CommitUpdates(s: State, t: TxId)
    requires Inv(s) && CanCommit(s, t)
    ensures UpdatesOk(DoCommit(s, t).rows, DoCommit(s, t).updates)
  {
    assert TxOk(s.rows, s.txs[t]);
    hide NoDoubleBooking, ClearOk, LocksOk, TargetsOk, Covers, Seen;
  }

  lemma CommitKeeps(s: State, t: TxId)
    requires Inv(s) && CanCommit(s, t)
    ensures Inv(DoCommit(s, t))
  {
    var s' := DoCommit(s, t);
    LeaveLocks(s, t);
    CommitRows(s, t);
    CommitUpdates(s, t);
    forall u | u in s.txs && u != t ensures TxOk(s'.rows, s.txs[u]) {
      CommitOthers(s, t, u);
    }
    hide TxOk, LocksOk, NoDoubleBooking, RowsOk, UpdatesOk;
  }

  lemma RemoveOthers(rows: map<Id, Appointment>, id: Id, tx: Tx)
    requires TxOk(rows, tx) && id in rows
    requires !(tx.phase.Written? && tx.phase.id == id)
    ensures TxOk(rows[id := rows[id].(deleted := true)], tx)
  {
    hide PetKey, AttendantKey, Fold, Covers, NextPet;
  }

  lemma RemoveRows(rows: map<Id, Appointment>, updates: seq<(Id, int)>, id: Id)
    requires id in rows && RowsOk(rows) && NoDoubleBooking(rows) && UpdatesOk(rows, updates)
    ensures var after := rows[id := rows[id].(deleted := true)];
            RowsOk(after) && NoDoubleBooking(after) && UpdatesOk(after, updates)
  {
    hide Overlap, SharePet, ShareAttendant, Trimmed, Ignored;
  }

  lemma RemoveKeeps(s: State, scope: Scope, id: Id)
    requires Inv(s) && CanRemove(s, scope, id)
    ensures Inv(DoRemove(s, id))
  {
    hide TxOk, LocksOk, NoDoubleBooking, RowsOk, UpdatesOk;
    RemoveRows(s.rows, s.updates, id);
    forall u | u in s.txs ensures TxOk(DoRemove(s, id).rows, s.txs[u]) {
      RemoveOthers(s.rows, id, s.txs[u]);
    }
  }

  lemma StepKeeps(s: State, a: Action)
    requires Inv(s) && Enabled(s, a) && Honest(s, a)
    ensures Inv(Next(s, a))
  {
    match a
    case Begin(t, req) => BeginKeeps(s, t, req);
    case Acquire(t) => AcquireKeeps(s, t);
    case Prepare(t, newId) => PrepareKeeps(s, t, newId);
    case Check(t) => CheckKeeps(s, t);
    case Write(t) => WriteKeeps(s, t);
    case Commit(t) => CommitKeeps(s, t);
    case Abort(t) => AbortKeeps(s, t);
    case Remove(scope, id) => RemoveKeeps(s, scope, id);
  }
}
