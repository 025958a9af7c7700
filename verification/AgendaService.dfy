/** The booking operations as one caller sees them: their results, their errors, the table after them. */
module AgendaService {
  import opened WhiteSpace
  import opened Wrappers
  import opened AgendaSchedule
  import opened AgendaLocks
  import opened AgendaBooking
  import opened AgendaVersions

  datatype Failure = BadRequest | NotFound | VersionConflict

  datatype Result = Ok(id: Id, row: Appointment) | Err(failure: Failure)

  /** What `assertNoTimeConflict` looks for. */
  predicate Conflicting(rows: map<Id, Appointment>, j: Id, id: Id, next: Appointment, which: nat) {
    j in rows && j != id && Active(rows[j]) && rows[j].scope == next.scope
    && (if which == 0 then rows[j].pet == next.pet else Fold(rows[j].attendant) == Fold(Trim(next.attendant)))
    && Overlap(rows[j].slot, next.slot)
  }

  /** The row may be written as it is: its status occupies no time, or both searches find nothing. */
  ghost predicate Admissible(rows: map<Id, Appointment>, id: Id, next: Appointment) {
    Ignored(next.status) || (Clear(rows, id, next, 0) && Clear(rows, id, next, 1))
  }

  /** An appointment that takes time the other one needs, from its pet or from its attendant. */
  predicate InTheWay(row: Appointment, next: Appointment)
    requires next.slot.startAt.Some? && next.slot.endAt.Some?
  {
    && !row.deleted && row.scope == next.scope && row.status in {Scheduled, Confirmed, InProgress}
    && (row.pet == next.pet || Fold(row.attendant) == Fold(Trim(next.attendant)))
    && row.slot.startAt.Some? && row.slot.startAt.value < next.slot.endAt.value
    && row.slot.endAt.Some? && row.slot.endAt.value > next.slot.startAt.value
  }

  lemma WayMeans(rows: map<Id, Appointment>, id: Id, next: Appointment)
    requires next.slot.startAt.Some? && next.slot.endAt.Some?
    ensures Ignored(next.status) <==> next.status !in {Scheduled, Confirmed, InProgress}
    ensures forall j :: j in rows && j != id ==>
              (InTheWay(rows[j], next) <==> Conflicting(rows, j, id, next, 0) || Conflicting(rows, j, id, next, 1))
  {
    forall status: Status ensures Ignored(status) <==> status !in {Scheduled, Confirmed, InProgress} {
      match status
      case Scheduled =>
      case Confirmed =>
      case InProgress =>
      case Completed =>
      case Canceled =>
      case NoShow =>
    }
    hide Fold, Trim;
  }

  predicate Given(value: Option<string>) {
    value.Some? && !Blank(value.value)
  }

  class AgendaPetService {
    var rows: map<Id, Appointment>

    constructor (rows: map<Id, Appointment>)
      ensures this.rows == rows
    {
      this.rows := rows;
    }

    function Visible(scope: Scope, id: Id): (r: bool)
      reads this
      ensures r <==> id in rows && rows[id].scope == scope && !rows[id].deleted
    {
      id in rows && rows[id].scope == scope && !rows[id].deleted
    }

    /** There is a conflict exactly if the new row takes time and another row of its branch that takes
        time, for the same pet or under the same name, begins before it ends and ends after it begins. */
    method TimeConflict(id: Id, next: Appointment) returns (conflict: bool)
      requires next.slot.startAt.Some? && next.slot.endAt.Some?
      ensures conflict <==> !Admissible(rows, id, next)
      ensures conflict <==>
                && next.status in {Scheduled, Confirmed, InProgress}
                && exists j :: j in rows && j != id && InTheWay(rows[j], next)
    {
      WayMeans(rows, id, next);
      if Ignored(next.status) { return false; }
      var petConflict := exists j :: j in rows && Conflicting(rows, j, id, next, 0);
      if petConflict { return true; }
      conflict := exists j :: j in rows && Conflicting(rows, j, id, next, 1);
    }

    /** `newId` is the identifier the table gives the new row; `linked` says that the request names a
        client and a pet of that client, both found in its scope. */
    method Create(req: Request, linked: bool, service: Option<string>, newId: Id) returns (r: Result)
      requires req.Create? && newId !in rows
      modifies this
      ensures var slot := ResolveSchedule(req.schedule, None);
              if !linked || !Given(service) || !Given(req.attendant) || req.pet.None? || slot.None?
                then r == Err(BadRequest)
              else
                var row := Appointment(req.scope, req.pet, Trim(req.attendant.value), slot.value,
                                       if req.status.Some? then req.status.value else Scheduled, false, 1);
                r == if Admissible(old(rows), newId, row) then Ok(newId, row) else Err(BadRequest)
      ensures rows == if r.Ok? then old(rows)[newId := r.row] else old(rows)
    {
      NamedUnlessBlank(req.attendant);
      NamedUnlessBlank(service);
      var slot := ResolveSchedule(req.schedule, None);
      if slot.None? { return Err(BadRequest); }
      var status := if req.status.Some? then req.status.value else Scheduled;
      var attendant := Required(req.attendant);
      if attendant.None? || req.pet.None? || !linked { return Err(BadRequest); }
      var next := Appointment(req.scope, req.pet, attendant.value, slot.value, status, false, 1);
      var conflict := TimeConflict(newId, next);
      if conflict || Required(service).None? { return Err(BadRequest); }
      rows := rows[newId := next];
      return Ok(newId, next);
    }

    /** `linked` is as above, for the client and pet the row is to have; the service is None when the
        request does not name it. */
    method Update(req: Request, linked: bool, service: Option<string>) returns (r: Result)
      requires req.Update?
      modifies this
      ensures !old(Visible(req.scope, req.id)) <==> r == Err(NotFound)
      ensures old(Visible(req.scope, req.id)) ==>
                var existing := old(rows)[req.id];
                var pet := if req.pet.Some? then req.pet else existing.pet;
                var slot := ResolveSchedule(req.schedule, Some(existing.slot));
                var status := if req.status.Some? then req.status.value else existing.status;
                if req.attendant.Some? && !Given(req.attendant) then r == Err(BadRequest)
                else if existing.version != req.expectedVersion then r == Err(VersionConflict)
                else if !linked || (service.Some? && !Given(service)) || pet.None? || slot.None?
                        || !TransitionAllowed(existing.status, status) then r == Err(BadRequest)
                else
                  var name := if req.attendant.Some? then Trim(req.attendant.value) else existing.attendant;
                  var row := Appointment(existing.scope, pet, name, slot.value, status, existing.deleted,
                                         existing.version + 1);
                  r == if Admissible(old(rows), req.id, row) then Ok(req.id, row) else Err(BadRequest)
      ensures rows == if r.Ok? then old(rows)[req.id := r.row] else old(rows)
    {
      NamedUnlessBlank(req.attendant);
      NamedUnlessBlank(service);
      if !Visible(req.scope, req.id) { return Err(NotFound); }
      var existing := rows[req.id];
      var attendant := if req.attendant.None? then Some(existing.attendant) else Required(req.attendant);
      if attendant.None? { return Err(BadRequest); }
      if existing.version != req.expectedVersion { return Err(VersionConflict); }
      var pet := if req.pet.Some? then req.pet else existing.pet;
      var slot := ResolveSchedule(req.schedule, Some(existing.slot));
      if !linked || pet.None? || slot.None? { return Err(BadRequest); }
      var status := if req.status.Some? then req.status.value else existing.status;
      if !TransitionAllowed(existing.status, status) { return Err(BadRequest); }
      var next := existing.(pet := pet, attendant := attendant.value, slot := slot.value, status := status,
                            version := existing.version + 1);
      var conflict := TimeConflict(req.id, next);
      if conflict || (service.Some? && Required(service).None?) { return Err(BadRequest); }
      rows := rows[req.id := next];
      return Ok(req.id, next);
    }

    /** Removing leaves everything but the mark of deletion. */
    method Remove(scope: Scope, id: Id) returns (ok: bool)
      modifies this
      ensures ok == old(Visible(scope, id))
      ensures rows == if ok then old(rows)[id := old(rows)[id].(deleted := true)] else old(rows)
    {
      if !Visible(scope, id) { return false; }
      rows := rows[id := rows[id].(deleted := true)];
      return true;
    }
  }

  lemma NamedUnlessBlank(name: Option<string>)
    ensures Required(name) == if Given(name) then Some(Trim(name.value)) else None
  {
    hide Trim;
    if name.Some? { var i, j := TrimCuts(name.value); }
  }

  // ----- names that are not trimmed

  lemma TrimShortens(s: string)
    requires !Trimmed(s)
    ensures |Trim(s)| < |s|
  {
    hide Trim;
    var i, j := TrimCuts(s);
    assert s[i..j] != s;
  }

  /** Every name stored with white space around it slips past the search, which compares trimmed
      names: an update that keeps the name moves one appointment of the attendant onto another. */
  lemma UntrimmedNameSlips(name: string)
    requires !Trimmed(name)
    ensures var rows := map[1 := Booking("p", name, 0, 1), 2 := Booking("q", name, 2 * HOUR, 1)];
            var next := Proposed(Update(BRANCH, 2, 1, None, None, Timed(0), None), name, Some(rows[2]));
            && NoDoubleBooking(rows) && next.Some?
            && Admissible(rows, 2, next.value) && DoubleBooked(rows[1], next.value)
  {
    hide Trim;
    TrimShortens(name);
    var rows := map[1 := Booking("p", name, 0, 1), 2 := Booking("q", name, 2 * HOUR, 1)];
    assert |Fold(Trim(name))| < |Fold(name)|;
  }

  // ----- the operations are runs of the interleaved protocol with nobody else around

  lemma LockedState(s: State, t: TxId)
    requires s.txs.Keys == {t} && s.locks == map[] && t in s.txs
    ensures var locked := WithLocks(s, t, |s.txs[t].keys|);
            && locked.rows == s.rows && locked.updates == s.updates && locked.txs.Keys == {t}
            && locked.txs[t] == s.txs[t].(phase := Acquiring(|s.txs[t].keys|))
            && forall k :: k in locked.locks ==> locked.locks[k] == t
  {
  }

  /** The row that a request asks for, from the row there is. */
  predicate AsksFor(req: Request, before: Option<Appointment>, next: Appointment) {
    match before
    case None =>
      && Given(req.attendant) && req.pet.Some? && ResolveSchedule(req.schedule, None) == Some(next.slot)
      && next == Appointment(req.scope, req.pet, Trim(req.attendant.value), next.slot,
                             if req.status.Some? then req.status.value else Scheduled, false, 1)
    case Some(row) =>
      var status := if req.status.Some? then req.status.value else row.status;
      && (req.attendant.Some? ==> Given(req.attendant)) && (req.pet.Some? || row.pet.Some?)
      && ResolveSchedule(req.schedule, Some(row.slot)) == Some(next.slot) && TransitionAllowed(row.status, status)
      && next == Appointment(row.scope, if req.pet.Some? then req.pet else row.pet,
                             if req.attendant.Some? then Trim(req.attendant.value) else row.attendant, next.slot,
                             status, row.deleted, row.version + 1)
  }

  lemma AskedIsProposed(req: Request, before: Option<Appointment>, next: Appointment)
    requires req.Update? == before.Some? && AsksFor(req, before, next)
    ensures NextAttendant(req, before).Some? && Proposed(req, NextAttendant(req, before).value, before) == Some(next)
  {
    hide Trim, ResolveSchedule, TransitionAllowed;
    NamedUnlessBlank(req.attendant);
  }

  /** A call that the service accepts, with nobody else around, runs through the protocol: begin,
      lock everything, read under lock, check twice, write, commit. */
  lemma {:induction false} LoneCall(s: State, t: TxId, req: Request, newId: Id, next: Appointment)
      returns (run: seq<Action>)
    requires s.txs == map[] && s.locks == map[]
    requires if req.Create? then newId !in s.rows
             else newId == req.id && Found(s, req.scope, req.id) && s.rows[req.id].version == req.expectedVersion
    requires AsksFor(req, if req.Update? then Some(s.rows[req.id]) else None, next) && Admissible(s.rows, newId, next)
    ensures IsRun(s, run) && Exec(s, run).rows == s.rows[newId := next] && Exec(s, run).txs == map[]
            && Exec(s, run).locks == map[]
  {
    hide Proposed, NextAttendant, Clear, LockKeys, Exec, IsRun, WithLocks, CanPrepare, CanBegin, ResolveSchedule;
    var existing := if req.Update? then Some(s.rows[req.id]) else None;
    AskedIsProposed(req, existing, next);
    AskedCanBegin(s, t, req, next);
    var attendant := NextAttendant(req, existing).value;
    LoneBegin(s, t, req);
    var begun := DoBegin(s, t, req);
    Extend(s, [], Begin(t, req));
    var locked := LockAll(s, [] + [Begin(t, req)], begun, t, |begun.txs[t].keys|);
    LockedState(begun, t);
    var all := WithLocks(begun, t, |begun.txs[t].keys|);
    LonePrepare(s, t, req, newId, attendant, next, all);
    var checked := ToChecked(s, locked, all, t, newId, existing, next);
    var ready := WithChecked(all, t, newId, existing, next, 2);
    LoneWrite(s, t, req, newId, attendant, next, ready);
    run := ToCommitted(s, checked, ready, t, next);
  }

  lemma AskedCanBegin(s: State, t: TxId, req: Request, next: Appointment)
    requires s.txs == map[] && (req.Update? ==> Found(s, req.scope, req.id))
    requires AsksFor(req, if req.Update? then Some(s.rows[req.id]) else None, next)
    ensures CanBegin(s, t, req)
  {
    hide Trim, ResolveSchedule;
    NamedUnlessBlank(req.attendant);
  }

  lemma LoneBegin(s: State, t: TxId, req: Request)
    requires s.txs == map[] && s.locks == map[] && CanBegin(s, t, req)
    ensures IsRun(s, []) && Exec(s, []) == s && (req.Update? ==> Found(s, req.scope, req.id))
    ensures DoBegin(s, t, req).txs.Keys == {t} && DoBegin(s, t, req).txs[t].phase == Acquiring(0)
    ensures Ascending(DoBegin(s, t, req).txs[t].keys) && DoBegin(s, t, req).rows == s.rows
            && DoBegin(s, t, req).locks == map[]
    ensures var tx := DoBegin(s, t, req).txs[t];
            var before := if req.Update? then Some(s.rows[req.id]) else None;
            tx.req == req && Some(tx.attendant) == NextAttendant(req, before)
  {
    hide LockKeys, ResolveSchedule, Required;
  }

  lemma LonePrepare(s: State, t: TxId, req: Request, newId: Id, attendant: string, next: Appointment, all: State)
    requires s.txs == map[] && CanBegin(s, t, req)
    requires var before := if req.Update? then Some(s.rows[req.id]) else None;
             Proposed(req, attendant, before) == Some(next)
    requires if req.Update? then newId == req.id && s.rows[req.id].version == req.expectedVersion else newId !in s.rows
    requires all.rows == s.rows && all.txs.Keys == {t} && all.txs[t].req == req && all.txs[t].attendant == attendant
    requires all.txs[t].phase == Acquiring(|all.txs[t].keys|)
    ensures CanPrepare(all, t, newId)
  {
    hide Proposed, NextAttendant;
  }

  lemma LoneWrite(s: State, t: TxId, req: Request, newId: Id, attendant: string, next: Appointment, ready: State)
    requires req.Update? ==> Found(s, req.scope, req.id)
    requires var before := if req.Update? then Some(s.rows[req.id]) else None;
             Proposed(req, attendant, before) == Some(next)
    requires if req.Update? then newId == req.id && s.rows[req.id].version == req.expectedVersion else newId !in s.rows
    requires ready.rows == s.rows && ready.txs.Keys == {t} && ready.txs[t].req == req
             && ready.txs[t].phase == Checking(newId, next, 2)
    ensures CanWrite(ready, t) && WrittenRow(ready, ready.txs[t]) == next
  {
    hide ResolveSchedule;
  }
}
