/** What the booking protocol needs of the version a client names, and what happens without it. */
module AgendaVersions {
  import opened WhiteSpace
  import opened Wrappers
  import opened AgendaSchedule
  import opened AgendaLocks
  import opened AgendaBooking

  // ----- exactly when the version check ties the two reads of an update together

  ghost predicate Pinned(rows: map<Id, Appointment>, tx: Tx) {
    && (tx.req.Update? ==> tx.before.Some? && !tx.before.value.deleted && Seen(rows, tx.req.id, tx.before.value))
    && (!tx.phase.Acquiring? && tx.req.Create? ==> tx.phase.id !in rows)
    && (!tx.phase.Acquiring? && tx.req.Update? ==> tx.phase.id == tx.req.id)
    && (tx.phase.Written? && tx.req.Update? ==>
          && tx.phase.next.scope == rows[tx.phase.id].scope && tx.phase.next.version == rows[tx.phase.id].version + 1
          && rows[tx.phase.id].version == tx.req.expectedVersion && !rows[tx.phase.id].deleted)
  }

  ghost predicate Separate(t: Tx, u: Tx) {
    !t.phase.Acquiring? && !u.phase.Acquiring? && t.phase.id == u.phase.id ==>
      t.req.Update? && u.req.Update? && !(t.phase.Written? && u.phase.Written?)
  }

  ghost predicate Weak(s: State) {
    && (forall t :: t in s.txs ==> Pinned(s.rows, s.txs[t]))
    && (forall t, u :: t in s.txs && u in s.txs && t != u ==> Separate(s.txs[t], s.txs[u]))
  }

  lemma CommitPinned(rows: map<Id, Appointment>, tx: Tx, other: Tx)
    requires Pinned(rows, tx) && Pinned(rows, other) && Separate(tx, other) && tx.phase.Written?
    ensures Pinned(rows[tx.phase.id := tx.phase.next], other)
  {
  }

  lemma CommitKeepsWeak(s: State, t: TxId)
    requires Weak(s) && CanCommit(s, t)
    ensures Weak(DoCommit(s, t))
  {
    forall u | u in s.txs && u != t ensures Pinned(DoCommit(s, t).rows, s.txs[u]) {
      CommitPinned(s.rows, s.txs[t], s.txs[u]);
    }
    hide Pinned, Separate;
  }

  lemma RemoveKeepsWeak(s: State, scope: Scope, id: Id)
    requires Weak(s) && CanRemove(s, scope, id)
    ensures Weak(DoRemove(s, id))
  {
    hide Separate;
    forall u | u in s.txs ensures Pinned(DoRemove(s, id).rows, s.txs[u]) {
      assert Pinned(s.rows, s.txs[u]);
    }
  }

  /** A transaction that starts or goes on is the only thing that changes. */
  lemma OneTxKeepsWeak(s: State, t: TxId, tx: Tx, locks: map<Key, TxId>)
    requires Weak(s) && Pinned(s.rows, tx)
    requires forall u :: u in s.txs && u != t ==> Separate(tx, s.txs[u]) && Separate(s.txs[u], tx)
    ensures Weak(s.(txs := s.txs[t := tx], locks := locks))
  {
    hide Pinned, Separate;
  }

  lemma StepKeepsWeak(s: State, a: Action)
    requires Weak(s) && Enabled(s, a)
    ensures Weak(Next(s, a))
  {
    hide Proposed, Clear, LockKeys, Resources, NextPet, NextAttendant, ResolveSchedule, Held;
    match a
    case Commit(t) => CommitKeepsWeak(s, t);
    case Remove(scope, id) => RemoveKeepsWeak(s, scope, id);
    case Abort(t) => hide Pinned, Separate;
    case Begin(t, req) => OneTxKeepsWeak(s, t, DoBegin(s, t, req).txs[t], s.locks);
    case Acquire(t) => OneTxKeepsWeak(s, t, DoAcquire(s, t).txs[t], DoAcquire(s, t).locks);
    case Prepare(t, newId) => OneTxKeepsWeak(s, t, DoPrepare(s, t, newId).txs[t], s.locks);
    case Check(t) => OneTxKeepsWeak(s, t, DoCheck(s, t).txs[t], s.locks);
    case Write(t) => OneTxKeepsWeak(s, t, DoWrite(s, t).txs[t], s.locks);
  }

  lemma {:induction false} RunKeepsWeak(s: State, run: seq<Action>)
    requires Weak(s) && IsRun(s, run)
    ensures Weak(Exec(s, run))
    decreases |run|
  {
    if run != [] {
      StepKeepsWeak(s, run[0]);
      hide Weak;
      RunKeepsWeak(Next(s, run[0]), run[1..]);
    }
  }

  /** Whatever versions clients name, an update that passes its version check read the same row
      before and after locking if and only if it named a version no later than the first read. */
  lemma {:induction false} PinnedExactlyWhenHonest(s: State, run: seq<Action>, t: TxId, newId: Id)
    requires s.txs == map[] && IsRun(s, run) && CanPrepare(Exec(s, run), t, newId) && Exec(s, run).txs[t].req.Update?
    ensures var now := Exec(s, run);
            var tx := now.txs[t];
            && tx.before.Some?
            && (tx.before.value == now.rows[tx.req.id] <==> tx.req.expectedVersion <= tx.before.value.version)
  {
    RunKeepsWeak(s, run);
  }

  // ----- whatever versions clients name, no update is lost

  /** Every committed update named an earlier version of its row, and each (row, version) once. */
  ghost predicate Counted(s: State) {
    && (forall i :: 0 <= i < |s.updates| ==>
          s.updates[i].0 in s.rows && s.updates[i].1 < s.rows[s.updates[i].0].version)
    && (forall i, j :: 0 <= i < j < |s.updates| ==> s.updates[i] != s.updates[j])
  }

  lemma StepCounts(s: State, a: Action)
    requires Weak(s) && Counted(s) && Enabled(s, a)
    ensures Counted(Next(s, a))
  {
    hide Proposed, Clear, LockKeys, Resources, NextPet, NextAttendant, ResolveSchedule, Held, Separate, Weak;
    if a.Commit? {
      CommitCounts(s, a.t);
    }
  }

  lemma CommitCounts(s: State, t: TxId)
    requires Weak(s) && Counted(s) && CanCommit(s, t)
    ensures Counted(DoCommit(s, t))
  {
    hide Separate;
    assert Pinned(s.rows, s.txs[t]);
  }

  lemma {:induction false} RunCounts(s: State, run: seq<Action>)
    requires Weak(s) && Counted(s) && IsRun(s, run)
    ensures Weak(Exec(s, run)) && Counted(Exec(s, run))
    decreases |run|
  {
    hide Weak, Counted, Enabled, Next;
    if run != [] {
      StepKeepsWeak(s, run[0]);
      StepCounts(s, run[0]);
      RunCounts(Next(s, run[0]), run[1..]);
    }
  }

  /** Honest or not: an update replaces a row that is not deleted and still at the version it named, and
      at most one commits for each row and version. */
  lemma {:induction false} NoLostUpdateWhatever(s: State, run: seq<Action>)
    requires s.txs == map[] && s.updates == [] && IsRun(s, run)
    ensures var now := Exec(s, run);
            && (forall i, j :: 0 <= i < j < |now.updates| ==> now.updates[i] != now.updates[j])
            && (forall t :: CanCommit(now, t) && now.txs[t].req.Update? ==>
                  && now.txs[t].req.id in now.rows && !now.rows[now.txs[t].req.id].deleted
                  && now.rows[now.txs[t].req.id].version == now.txs[t].req.expectedVersion
                  && now.txs[t].phase.id == now.txs[t].req.id
                  && now.txs[t].phase.next.version == now.txs[t].req.expectedVersion + 1)
  {
    RunCounts(s, run);
    hide Separate, Exec, IsRun;
    var now := Exec(s, run);
    forall t | CanCommit(now, t) && now.txs[t].req.Update?
      ensures now.txs[t].req.id in now.rows && !now.rows[now.txs[t].req.id].deleted
      ensures now.rows[now.txs[t].req.id].version == now.txs[t].req.expectedVersion
      ensures now.txs[t].phase.id == now.txs[t].req.id
      ensures now.txs[t].phase.next.version == now.txs[t].req.expectedVersion + 1
    {
      assert Pinned(now.rows, now.txs[t]);
    }
  }

  // ----- a client that guesses the next version double-books a pet

  lemma {:induction false} Extend(s: State, run: seq<Action>, a: Action)
    requires IsRun(s, run) && Enabled(Exec(s, run), a)
    ensures IsRun(s, run + [a]) && Exec(s, run + [a]) == Next(Exec(s, run), a)
    decreases |run|
  {
    hide Enabled, Next;
    if run == [] {
      assert run + [a] == [a];
    } else {
      Extend(Next(s, run[0]), run[1..], a);
      assert (run + [a])[1..] == run[1..] + [a];
    }
  }

  function Owned(keys: seq<Key>, n: nat, t: TxId): map<Key, TxId>
    requires n <= |keys|
  {
    map k | k in keys[..n] :: t
  }

  function WithLocks(s: State, t: TxId, n: nat): State
    requires t in s.txs && n <= |s.txs[t].keys|
  {
    s.(txs := s.txs[t := s.txs[t].(phase := Acquiring(n))], locks := s.locks + Owned(s.txs[t].keys, n, t))
  }

  lemma OwnOne(locks: map<Key, TxId>, keys: seq<Key>, n: nat, t: TxId)
    requires n < |keys| && Ascending(keys)
    requires forall k :: k in keys ==> k !in locks
    ensures keys[n] !in locks + Owned(keys, n, t)
    ensures (locks + Owned(keys, n, t))[keys[n] := t] == locks + Owned(keys, n + 1, t)
  {
    forall i | 0 <= i < n ensures keys[i] != keys[n] {
      LessIrreflexive(keys[i]);
    }
    assert keys[..n + 1] == keys[..n] + [keys[n]];
  }

  lemma LockOne(s: State, t: TxId, n: nat)
    requires t in s.txs && Ascending(s.txs[t].keys) && n < |s.txs[t].keys|
    requires forall k :: k in s.txs[t].keys ==> k !in s.locks
    ensures CanAcquire(WithLocks(s, t, n), t)
    ensures DoAcquire(WithLocks(s, t, n), t) == WithLocks(s, t, n + 1)
  {
    hide Ascending, Owned;
    OwnOne(s.locks, s.txs[t].keys, n, t);
    var txs := s.txs[t := s.txs[t].(phase := Acquiring(n))];
    assert txs[t := txs[t].(phase := Acquiring(n + 1))] == s.txs[t := s.txs[t].(phase := Acquiring(n + 1))];
  }

  lemma NoLocks(s: State, t: TxId)
    requires t in s.txs && s.txs[t].phase == Acquiring(0)
    ensures WithLocks(s, t, 0) == s
  {
    assert s.txs[t := s.txs[t].(phase := Acquiring(0))] == s.txs;
    assert s.locks + Owned(s.txs[t].keys, 0, t) == s.locks;
  }

  /** A transaction none of whose keys is held can run through its lock loop. */
  lemma {:induction false} LockAll(s0: State, run: seq<Action>, s: State, t: TxId, n: nat) returns (run': seq<Action>)
    requires IsRun(s0, run) && Exec(s0, run) == s
    requires t in s.txs && s.txs[t].phase == Acquiring(0) && Ascending(s.txs[t].keys) && n <= |s.txs[t].keys|
    requires forall k :: k in s.txs[t].keys ==> k !in s.locks
    ensures IsRun(s0, run') && Exec(s0, run') == WithLocks(s, t, n)
    decreases n
  {
    hide Ascending, WithLocks, IsRun, Exec, CanAcquire, DoAcquire;
    if n == 0 {
      run' := run;
      NoLocks(s, t);
    } else {
      var shorter := LockAll(s0, run, s, t, n - 1);
      LockOne(s, t, n - 1);
      Extend(s0, shorter, Acquire(t));
      run' := shorter + [Acquire(t)];
    }
  }

  const BRANCH: Scope := Scope("t", None)
  const HOUR: int := 3_600_000

  function Timed(from: int): ScheduleDto {
    ScheduleDto(At(from), Absent, Absent, false, None)
  }

  function Booking(pet: string, attendant: string, from: int, version: int): Appointment {
    Appointment(BRANCH, Some(pet), attendant, Slot(Some(from), Some(from + HOUR), from), Scheduled, false, version)
  }

  /** One appointment of pet p at hour 0, version 1. */
  const START: State := State(map[1 := Booking("p", "ana", 0, 1)], map[], map[], [])

  // The guess moves the appointment to hour 0, naming version 2 while the row is at version 1; the
  // move takes it to pet q at hour 2 meanwhile, and the addition books q with another attendant at hour 0.
  const GUESS: Request := Update(BRANCH, 1, 2, None, None, Timed(0), None)
  const MOVE: Request := Update(BRANCH, 1, 1, Some("q"), None, Timed(2 * HOUR), None)
  const ADD: Request := Create(BRANCH, Some("q"), Some("bia"), Timed(0), None)

  function Started(req: Request, before: Option<Appointment>, attendant: string): Tx {
    Tx(req, before, attendant, LockKeys(BRANCH, Resources(req, before, attendant)), None, Acquiring(0))
  }

  const GUESS_TX: Tx := Started(GUESS, Some(Booking("p", "ana", 0, 1)), "ana")
  const MOVE_TX: Tx := Started(MOVE, Some(Booking("p", "ana", 0, 1)), "ana")
  const ADD_TX: Tx := Started(ADD, None, "bia")

  /** The guess, locking p and ana, and the addition, locking q and bia, do not exclude each other. */
  lemma DifferentKeys(k: Key)
    requires k in GUESS_TX.keys
    ensures k !in ADD_TX.keys
  {
    var g := Resources(GUESS, GUESS_TX.before, "ana");
    var a := Resources(ADD, None, "bia");
    assert g == [Resource(Some("p"), "ana"), Resource(Some("p"), "ana")];
    assert a == [Resource(Some("q"), "bia")];
    assert k == PetKey(BRANCH, Some("p")) || k == AttendantKey(BRANCH, "ana");
    KeysDiffer(k);
  }

  lemma KeysDiffer(k: Key)
    requires k == PetKey(BRANCH, Some("p")) || k == AttendantKey(BRANCH, "ana")
    ensures k != PetKey(BRANCH, Some("q")) && k != AttendantKey(BRANCH, "bia")
  {
    assert PetKey(BRANCH, Some("p"))[|PetKey(BRANCH, Some("p"))| - 1] == 'p';
    assert PetKey(BRANCH, Some("q"))[|PetKey(BRANCH, Some("q"))| - 1] == 'q';
    assert PetKey(BRANCH, Some("p"))[7] == 'p' && PetKey(BRANCH, Some("q"))[7] == 'p';
    assert AttendantKey(BRANCH, "ana")[7] == 'a' && AttendantKey(BRANCH, "bia")[7] == 'a';
    var front := "agenda:attendant:" + "t" + ":" + "none" + ":";
    assert AttendantKey(BRANCH, "ana") == front + Fold(Trim("ana"))
           && AttendantKey(BRANCH, "bia") == front + Fold(Trim("bia"));
    assert Fold(Trim("ana"))[0] == 'a' && Fold(Trim("bia"))[0] == 'b';
    assert AttendantKey(BRANCH, "ana")[|front|] == 'a' && AttendantKey(BRANCH, "bia")[|front|] == 'b';
  }

  function AfterBegin(): State {
    START.(txs := map[0 := GUESS_TX, 1 := MOVE_TX])
  }

  function Moved(): Appointment {
    Booking("q", "ana", 2 * HOUR, 2)
  }

  function AfterMove(): State {
    State(map[1 := Moved()], map[0 := GUESS_TX], map[], [(1, 1)])
  }

  lemma {:induction false} ReachMove() returns (run: seq<Action>)
    ensures IsRun(START, run) && Exec(START, run) == AfterBegin()
  {
    hide LockKeys, Required, ResolveSchedule, NextPet;
    BeginGuess();
    Extend(START, [], Begin(0, GUESS));
    var guessing := START.(txs := map[0 := GUESS_TX]);
    Extend(START, [] + [Begin(0, GUESS)], Begin(1, MOVE));
    run := [] + [Begin(0, GUESS)] + [Begin(1, MOVE)];
    assert DoBegin(guessing, 1, MOVE).txs == map[0 := GUESS_TX, 1 := MOVE_TX];
  }

  lemma BeginGuess()
    ensures CanBegin(START, 0, GUESS) && DoBegin(START, 0, GUESS) == START.(txs := map[0 := GUESS_TX])
  {
    hide LockKeys, Required, ResolveSchedule;
    assert DoBegin(START, 0, GUESS).txs == map[0 := GUESS_TX];
  }

  /** The transaction `t` of `s` once it has read its row and found both resources free. */
  function WithChecked(s: State, t: TxId, id: Id, existing: Option<Appointment>, next: Appointment, checked: nat): State
    requires t in s.txs
  {
    s.(txs := s.txs[t := s.txs[t].(existing := existing, phase := Checking(id, next, checked))])
  }

  lemma {:induction false} ToChecked(s0: State, run: seq<Action>, s: State, t: TxId, id: Id,
      existing: Option<Appointment>, next: Appointment)
    returns (run': seq<Action>)
    requires IsRun(s0, run) && Exec(s0, run) == s
    requires CanPrepare(s, t, id) && Proposed(s.txs[t].req, s.txs[t].attendant, existing) == Some(next)
    requires if s.txs[t].req.Update? then id == s.txs[t].req.id && existing == Some(s.rows[id]) else existing == None
    requires Ignored(next.status) || (Clear(s.rows, id, next, 0) && Clear(s.rows, id, next, 1))
    ensures IsRun(s0, run') && Exec(s0, run') == WithChecked(s, t, id, existing, next, 2)
  {
    hide Proposed, Clear, Exec, IsRun, FreshId;
    Extend(s0, run, Prepare(t, id));
    var s1 := WithChecked(s, t, id, existing, next, 0);
    assert DoPrepare(s, t, id) == s1;
    hide CanPrepare;
    Extend(s0, run + [Prepare(t, id)], Check(t));
    var s2 := WithChecked(s, t, id, existing, next, 1);
    assert DoCheck(s1, t) == s2;
    Extend(s0, run + [Prepare(t, id)] + [Check(t)], Check(t));
    assert DoCheck(s2, t) == WithChecked(s, t, id, existing, next, 2);
    run' := run + [Prepare(t, id)] + [Check(t)] + [Check(t)];
  }

  function Committed(s: State, t: TxId, next: Appointment): State
    requires t in s.txs && !s.txs[t].phase.Acquiring?
  {
    var tx := s.txs[t];
    Leave(s, t).(rows := s.rows[tx.phase.id := next],
                 updates := if tx.req.Update? then s.updates + [(tx.req.id, tx.req.expectedVersion)] else s.updates)
  }

  lemma {:induction false} ToCommitted(s0: State, run: seq<Action>, s: State, t: TxId, next: Appointment)
    returns (run': seq<Action>)
    requires IsRun(s0, run) && Exec(s0, run) == s
    requires CanWrite(s, t) && WrittenRow(s, s.txs[t]) == next
    ensures IsRun(s0, run') && Exec(s0, run') == Committed(s, t, next)
  {
    hide Exec, IsRun, WrittenRow;
    Extend(s0, run, Write(t));
    var written := DoWrite(s, t);
    assert written.txs - {t} == s.txs - {t};
    hide CanWrite;
    Extend(s0, run + [Write(t)], Commit(t));
    run' := run + [Write(t)] + [Commit(t)];
  }

  /** The move runs from its lock loop to its commit while the guess waits to be scheduled. */
  lemma {:induction false} ReachMoved() returns (run: seq<Action>)
    ensures IsRun(START, run) && Exec(START, run) == AfterMove()
  {
    hide LockKeys, Exec, IsRun;
    run := ReachMove();
    run := LockAll(START, run, AfterBegin(), 1, |MOVE_TX.keys|);
    var s := WithLocks(AfterBegin(), 1, |MOVE_TX.keys|);
    var before := Booking("p", "ana", 0, 1);
    assert Proposed(MOVE, "ana", Some(before)) == Some(Moved());
    run := ToChecked(START, run, s, 1, 1, Some(before), Moved());
    hide Proposed;
    s := WithChecked(s, 1, 1, Some(before), Moved(), 2);
    run := ToCommitted(START, run, s, 1, Moved());
    assert Committed(s, 1, Moved()).txs == map[0 := GUESS_TX];
    assert Committed(s, 1, Moved()).locks == map[];
  }

  function Added(): Appointment {
    Booking("q", "bia", 0, 1)
  }

  /** What the guess turns the moved row into: it is kept on pet q, whose lock it does not hold. */
  function Guessed(): Appointment {
    Booking("q", "ana", 0, 3)
  }

  function AfterAddBegin(): State {
    AfterMove().(txs := map[0 := GUESS_TX, 2 := ADD_TX])
  }

  /** The addition has found pet q free, and holds its locks. */
  function AddChecked(): State {
    WithChecked(WithLocks(AfterAddBegin(), 2, |ADD_TX.keys|), 2, 2, None, Added(), 2)
  }

  /** So has the guess, which the addition's uncommitted row does not concern. */
  function GuessChecked(): State {
    WithChecked(WithLocks(AddChecked(), 0, |GUESS_TX.keys|), 0, 1, Some(Moved()), Guessed(), 2)
  }

  lemma {:induction false} ReachAddBegin() returns (run: seq<Action>)
    ensures IsRun(START, run) && Exec(START, run) == AfterAddBegin()
  {
    hide LockKeys, Exec, IsRun;
    run := ReachMoved();
    assert Trim("bia") == "bia";
    Extend(START, run, Begin(2, ADD));
    run := run + [Begin(2, ADD)];
    assert DoBegin(AfterMove(), 2, ADD).txs == AfterAddBegin().txs;
  }

  lemma {:induction false} ReachAddChecked() returns (run: seq<Action>)
    ensures IsRun(START, run) && Exec(START, run) == AddChecked()
  {
    hide LockKeys, Exec, IsRun;
    run := ReachAddBegin();
    run := LockAll(START, run, AfterAddBegin(), 2, |ADD_TX.keys|);
    assert Proposed(ADD, "bia", None) == Some(Added());
    run := ToChecked(START, run, WithLocks(AfterAddBegin(), 2, |ADD_TX.keys|), 2, 2, None, Added());
  }

  lemma GuessUnlocked(k: Key)
    requires k in GUESS_TX.keys
    ensures k !in AddChecked().locks
  {
    hide LockKeys;
    DifferentKeys(k);
  }

  lemma GuessReady()
    ensures var s := WithLocks(AddChecked(), 0, |GUESS_TX.keys|);
            && s.txs[0].req == GUESS && s.txs[0].attendant == "ana" && CanPrepare(s, 0, 1)
            && s.rows == AfterMove().rows && Clear(s.rows, 1, Guessed(), 0) && Clear(s.rows, 1, Guessed(), 1)
    ensures Proposed(GUESS, "ana", Some(Moved())) == Some(Guessed())
  {
    hide LockKeys;
  }

  lemma {:induction false} ReachGuessChecked() returns (run: seq<Action>)
    ensures IsRun(START, run) && Exec(START, run) == GuessChecked()
  {
    hide LockKeys, Exec, IsRun, WithLocks, WithChecked, Proposed, Clear, CanPrepare;
    run := ReachAddChecked();
    forall k | k in GUESS_TX.keys ensures k !in AddChecked().locks { GuessUnlocked(k); }
    GuessStarts();
    run := LockAll(START, run, AddChecked(), 0, |GUESS_TX.keys|);
    GuessReady();
    run := ToChecked(START, run, WithLocks(AddChecked(), 0, |GUESS_TX.keys|), 0, 1, Some(Moved()), Guessed());
  }

  lemma GuessStarts()
    ensures 0 in AddChecked().txs && AddChecked().txs[0] == GUESS_TX && Ascending(GUESS_TX.keys)
  {
    hide LockKeys;
  }

  /** The assumption on versions is needed: a client that names the version after the current one
      lets pet q be booked twice for the same hour. */
  lemma {:induction false} GuessedVersionDoubleBooks() returns (run: seq<Action>)
    ensures Init(START) && IsRun(START, run) && !NoDoubleBooking(Exec(START, run).rows)
  {
    hide LockKeys, Exec, IsRun, WithLocks;
    run := ReachGuessChecked();
    BothWrite();
    run := ToCommitted(START, run, GuessChecked(), 0, Guessed());
    run := ToCommitted(START, run, Committed(GuessChecked(), 0, Guessed()), 2, Added());
  }

  lemma BothWrite()
    ensures CanWrite(GuessChecked(), 0) && WrittenRow(GuessChecked(), GuessChecked().txs[0]) == Guessed()
    ensures var s := Committed(GuessChecked(), 0, Guessed());
            && CanWrite(s, 2) && WrittenRow(s, s.txs[2]) == Added()
            && !NoDoubleBooking(Committed(s, 2, Added()).rows)
  {
    hide LockKeys;
    var s := GuessChecked();
    assert s.txs[0] == GUESS_TX.(existing := Some(Moved()), phase := Checking(1, Guessed(), 2));
    assert s.txs[2] == ADD_TX.(existing := None, phase := Checking(2, Added(), 2));
    var rows := s.rows[1 := Guessed()][2 := Added()];
    assert DoubleBooked(rows[1], rows[2]);
  }
}
