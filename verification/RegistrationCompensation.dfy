/** Compensation never takes a completed registration's identity, as long as each compensating
    delete reaches the provider within its lease. */
module RegistrationCompensation {
  import opened Wrappers
  import opened Registration
  import opened RegistrationCore

  predicate RowKept(row: Intent, identities: map<User, Identity>) {
    row.state == Completed ==> row.user.Some? && row.user.value in identities
  }

  ghost predicate RowsKept(intents: map<Id, Intent>, identities: map<User, Identity>) {
    forall id :: id in intents ==> RowKept(intents[id], identities)
  }

  predicate Relies(at: Step) {
    at.Adopting? || at.Ready? || at.Fenced?
  }

  predicate Pending(at: Step, now: int) {
    at.Deleting? && now < at.deadline
  }

  /** The owner of a claim can rely on the identity it found; a compensation within its lease still
      owns the intent. */
  predicate WorkerKept(intents: map<Id, Intent>, identities: map<User, Identity>, now: int, w: Worker) {
    w.phase.Owner? && w.phase.id in intents ==>
      && (Relies(w.phase.at) && intents[w.phase.id].token == Some(w.phase.token) ==> w.phase.at.user in identities)
      && (Pending(w.phase.at, now) ==>
            && Current(intents[w.phase.id], w.phase.token, CompensationRequired)
            && intents[w.phase.id].lease == Some(w.phase.at.deadline))
  }

  ghost predicate WorkersKept(
      intents: map<Id, Intent>, identities: map<User, Identity>, now: int, workers: map<Call, Worker>)
  {
    forall t :: t in workers ==> WorkerKept(intents, identities, now, workers[t])
  }

  ghost predicate Kept(s: State) {
    RowsKept(s.intents, s.identities) && WorkersKept(s.intents, s.identities, s.now, s.workers)
  }

  // ----- the shapes of a step

  lemma WorkerChanges(s: State, t: Call, w: Worker)
    requires Kept(s) && WorkerKept(s.intents, s.identities, s.now, w)
    ensures Kept(s.(workers := s.workers[t := w]))
  {
    hide RowsKept, WorkerKept;
  }

  lemma GoesKept(s: State, t: Call, at: Step)
    requires Kept(s) && Owns(s, t)
             && WorkerKept(s.intents, s.identities, s.now, s.workers[t].(phase := s.workers[t].phase.(at := at)))
    ensures Kept(Goes(s, t, at))
  {
    hide Kept, WorkerKept;
    WorkerChanges(s, t, s.workers[t].(phase := s.workers[t].phase.(at := at)));
  }

  lemma PlainKept(s: State, t: Call, at: Step)
    requires Kept(s) && Owns(s, t) && !Relies(at) && !at.Deleting?
    ensures Kept(Goes(s, t, at))
  {
    hide Kept;
    GoesKept(s, t, at);
  }

  lemma StopsKept(s: State, t: Call)
    requires Kept(s)
    ensures Kept(Stops(s, t))
  {
    hide RowsKept, WorkerKept;
  }

  lemma GrowKept(s: State, user: User, identity: Identity, made: map<User, Id>)
    requires Kept(s)
    ensures Kept(s.(identities := s.identities[user := identity], made := made))
  {
  }

  /** No compensation of this intent is still within its lease. */
  ghost predicate NonePending(s: State, id: Id) {
    forall t :: t in s.workers && s.workers[t].phase.Owner? && s.workers[t].phase.id == id ==>
      !Pending(s.workers[t].phase.at, s.now)
  }

  /** The owner of a claim is not disturbed by one either. */
  lemma OwnerUndisturbed(s: State, t: Call, at: Step)
    requires Core(s) && Kept(s) && Owns(s, t)
             && s.intents[s.workers[t].phase.id].token == Some(s.workers[t].phase.token)
    requires !at.Deleting?
    ensures NonePending(Goes(s, t, at), s.workers[t].phase.id) && NonePending(Stops(s, t), s.workers[t].phase.id)
  {
    hide RowsOk, TenantsOk, IdentitiesOk, RowsKept, Held;
    forall u | u in s.workers && u != t && s.workers[u].phase.Owner? && s.workers[u].phase.id == s.workers[t].phase.id
      ensures !Pending(s.workers[u].phase.at, s.now)
    {
      assert WorkerKept(s.intents, s.identities, s.now, s.workers[u]) && TokensDiffer(s.workers);
    }
  }

  lemma LapsedUndisturbed(s: State, id: Id)
    requires Kept(s) && id in s.intents
             && (Lapsed(s.intents[id].lease, s.now) || s.intents[id].state != CompensationRequired)
    ensures NonePending(s, id)
  {
    hide RowsKept;
    forall u | u in s.workers && s.workers[u].phase.Owner? && s.workers[u].phase.id == id
      ensures !Pending(s.workers[u].phase.at, s.now)
    {
      assert WorkerKept(s.intents, s.identities, s.now, s.workers[u]);
    }
  }

  lemma PutsKept(s: State, id: Id, row: Intent)
    requires Kept(s) && id in s.intents && NonePending(s, id) && RowKept(row, s.identities)
    requires row.token.None? || row.token == s.intents[id].token
    ensures Kept(Puts(s, id, row))
  {
    forall t | t in s.workers ensures WorkerKept(s.intents[id := row], s.identities, s.now, s.workers[t]) {
      assert WorkerKept(s.intents, s.identities, s.now, s.workers[t]);
    }
    hide RowKept, WorkerKept;
  }

  lemma TakesKept(s: State, t: Call, id: Id, row: Intent)
    requires Core(s) && Kept(s) && t in s.workers && row.token == Some(s.nextToken) && row.state == Claimed
    requires if id in s.intents then NonePending(s, id)
             else forall u :: u in s.workers && s.workers[u].phase.Owner? ==> s.workers[u].phase.id != id
    ensures Kept(Takes(s, t, id, row))
  {
    hide RowsOk, TenantsOk, IdentitiesOk, TokensDiffer;
    forall u | u in s.workers && u != t ensures WorkerKept(s.intents[id := row], s.identities, s.now, s.workers[u]) {
      assert WorkerKept(s.intents, s.identities, s.now, s.workers[u]);
      assert WorkerOk(s.intents, s.made, s.nextToken, s.workers[u]);
    }
    hide RowKept;
  }

  // ----- each step

  lemma CreateKept(s: State, t: Call, id: Id)
    requires Core(s) && Kept(s) && t in s.workers && id !in s.intents
    ensures Kept(Takes(s, t, id, NewIntent(s.workers[t].input, s.nextToken, s.now)))
  {
    hide Kept, RowsOk, TenantsOk, IdentitiesOk, TokensDiffer;
    forall u | u in s.workers && s.workers[u].phase.Owner? ensures s.workers[u].phase.id != id {
      assert WorkerOk(s.intents, s.made, s.nextToken, s.workers[u]);
    }
    TakesKept(s, t, id, NewIntent(s.workers[t].input, s.nextToken, s.now));
  }

  lemma ReclaimKept(s: State, t: Call)
    requires Core(s) && Kept(s) && Enabled(s, Reclaim(t))
    ensures Kept(DoReclaim(s, t))
  {
    hide Core, Kept, Held;
    var id := s.workers[t].phase.id;
    StopsKept(s, t);
    if Reclaimable(s.intents[id], s.now) {
      LapsedUndisturbed(s, id);
      TakesKept(s, t, id, ReclaimedRow(s.intents[id], s.nextToken, s.now));
    }
  }

  lemma RecoverKept(s: State, t: Call)
    requires Core(s) && Kept(s) && Enabled(s, Recover(t))
    ensures Kept(DoRecover(s, t))
  {
    hide Core, Kept, Held;
    var id := s.workers[t].phase.id;
    StopsKept(s, t);
    if s.intents[id].state == FailedRetryable {
      LapsedUndisturbed(s, id);
      TakesKept(s, t, id, RecoveredRow(s.intents[id], s.workers[t].input.payload, s.nextToken, s.now));
    }
  }

  /** An owner goes on, or stops, and changes its row in the same step. */
  lemma OwnerPutsKept(s: State, t: Call, at: Step, row: Intent)
    requires Core(s) && Kept(s) && Owns(s, t)
             && s.intents[s.workers[t].phase.id].token == Some(s.workers[t].phase.token)
    requires !at.Deleting? && (Relies(at) ==> at.user in s.identities)
    requires RowKept(row, s.identities) && (row.token.None? || row.token == Some(s.workers[t].phase.token))
    ensures Kept(Puts(Goes(s, t, at), s.workers[t].phase.id, row))
            && Kept(Puts(Stops(s, t), s.workers[t].phase.id, row))
  {
    hide Core, Kept, NonePending, RowKept;
    OwnerUndisturbed(s, t, at);
    GoesKept(s, t, at);
    StopsKept(s, t);
    PutsKept(Goes(s, t, at), s.workers[t].phase.id, row);
    PutsKept(Stops(s, t), s.workers[t].phase.id, row);
  }

  lemma ReferKept(s: State, t: Call, referred: Referred)
    requires Core(s) && Kept(s) && Owns(s, t)
    ensures Kept(DoRefer(s, t, referred))
  {
    hide Core, Kept;
    var id := s.workers[t].phase.id;
    StopsKept(s, t);
    PlainKept(s, t, Profile);
    PlainKept(s, t, Final("REFERRAL_UNAVAILABLE"));
    if Current(s.intents[id], s.workers[t].phase.token, Claimed) {
      OwnerPutsKept(s, t, Profile, s.intents[id].(version := s.intents[id].version + 1));
    }
  }

  lemma FoundKept(s: State, t: Call, found: Option<User>)
    requires Core(s) && Kept(s) && Owns(s, t) && Found(s, t, found)
    ensures Kept(DoFindIdentity(s, t, found))
    ensures Kept(DoFindAgain(s, t, found))
  {
    hide Core, Kept, EmailTaken;
    PlainKept(s, t, Creating);
    PlainKept(s, t, Conflicted);
    PlainKept(s, t, Final("AUTH_EMAIL_EXISTS"));
    if found.Some? {
      GoesKept(s, t, Adopting(found.value, Some("AUTH_LOOKUP_FAILED_BEFORE_CREATE")));
      GoesKept(s, t, Adopting(found.value, None));
    }
  }

  lemma CreateIdentityKept(s: State, t: Call, user: User, created: bool, heard: bool, code: string)
    requires Kept(s) && Owns(s, t) && (heard ==> created)
    ensures Kept(DoCreateIdentity(s, t, user, created, heard, code))
  {
    hide Kept, EmailTaken;
    var w := s.workers[t];
    PlainKept(s, t, Conflicted);
    PlainKept(s, t, Retry(code));
    if created {
      var identity, made := Identity(w.input.email, Some(w.phase.id)), s.made[user := w.phase.id];
      GrowKept(s, user, identity, made);
      var s1 := s.(identities := s.identities[user := identity], made := made);
      var at := if heard then Adopting(user, Some("AUTH_CREATE_FAILED")) else Retry(code);
      GoesKept(s1, t, at);
      assert Goes(s1, t, at) == Goes(s, t, at).(identities := s1.identities, made := s1.made);
    }
  }

  lemma OwnerKept(s: State, t: Call)
    requires Kept(s) && Owns(s, t)
    ensures WorkerKept(s.intents, s.identities, s.now, s.workers[t])
  {
    hide RowsKept, WorkerKept;
  }

  lemma AuthClaimKept(s: State, t: Call, heard: bool)
    requires Core(s) && Kept(s) && Owns(s, t) && StepOf(s, t).Adopting?
    ensures Kept(DoAuthClaim(s, t, heard))
  {
    hide Core, Kept;
    var id, at := s.workers[t].phase.id, StepOf(s, t);
    OwnerKept(s, t);
    StopsKept(s, t);
    var error := if at.onError.Some? then Retry(at.onError.value) else Referral;
    PlainKept(s, t, error);
    if Current(s.intents[id], s.workers[t].phase.token, Claimed) {
      var row := AuthCreatedRow(s.intents[id], at.user, s.now);
      OwnerPutsKept(s, t, Ready(at.user), row);
      OwnerPutsKept(s, t, error, row);
    }
  }

  lemma MarkKept(s: State, t: Call)
    requires Core(s) && Kept(s) && Owns(s, t) && Marking(StepOf(s, t)).Some?
    ensures Kept(DoMark(s, t))
  {
    hide Core, Kept;
    var id, to := s.workers[t].phase.id, Marking(StepOf(s, t)).value;
    StopsKept(s, t);
    var row := MarkedRow(s.intents[id], Some(s.workers[t].phase.token), to.0, to.1);
    if row == s.intents[id] {
      assert s.intents[id := row] == s.intents;
    } else {
      OwnerPutsKept(s, t, Referral, row);
    }
  }

  lemma FenceKept(s: State, t: Call)
    requires Kept(s) && Owns(s, t) && StepOf(s, t).Ready?
    ensures Kept(DoFence(s, t))
  {
    hide Kept;
    OwnerKept(s, t);
    GoesKept(s, t, Fenced(StepOf(s, t).user));
    PlainKept(s, t, Failed(StepOf(s, t).user));
  }

  lemma CommitKept(s: State, t: Call, tenant: nat, heard: bool)
    requires Core(s) && Kept(s) && Owns(s, t) && StepOf(s, t).Fenced?
    ensures Kept(DoCommit(s, t, tenant, heard))
  {
    hide Core, Kept;
    var id, user := s.workers[t].phase.id, StepOf(s, t).user;
    CommitReady(s, t);
    OwnerKept(s, t);
    OwnerPutsKept(s, t, Failed(user), CompletedRow(s.intents[id], user, tenant));
    var ended := if heard then Stops(s, t) else Goes(s, t, Failed(user));
    var next := Puts(ended, id, CompletedRow(s.intents[id], user, tenant));
    TenantsIrrelevant(next, DoCommit(s, t, tenant, heard).tenants);
  }

  lemma TenantsIrrelevant(s: State, tenants: seq<Tenancy>)
    requires Kept(s)
    ensures Kept(s.(tenants := tenants))
  {
    hide RowsKept, WorkersKept;
  }

  lemma ClaimCompensationKept(s: State, t: Call)
    requires Core(s) && Kept(s) && Owns(s, t) && StepOf(s, t).Failed?
    ensures Kept(DoClaimCompensation(s, t))
  {
    hide Core, Kept;
    var id, user := s.workers[t].phase.id, StepOf(s, t).user;
    StopsKept(s, t);
    if Current(s.intents[id], s.workers[t].phase.token, AuthCreated) {
      var row, at := CompensatingRow(s.intents[id], s.now), Deleting(user, s.now + LEASE_MS);
      OwnerPutsKept(s, t, Referral, row);
      var next := Puts(Goes(s, t, Referral), id, row);
      GoesKept(next, t, at);
      assert Goes(next, t, at).workers == Goes(s, t, at).workers;
    }
  }

  /** A timely delete takes an identity that no completed intent has and no current owner relies on. */
  lemma DeleteKept(s: State, t: Call, deleted: bool, heard: bool)
    requires Core(s) && Kept(s) && Owns(s, t) && StepOf(s, t).Deleting? && Timely(s, Delete(t, deleted, heard))
    ensures Kept(DoDelete(s, t, deleted, heard))
  {
    hide Core, Kept;
    PlainKept(s, t, Concluding(heard));
    if deleted {
      OwnerKept(s, t);
      DeleteRows(s, t);
      DeleteWorkers(s, t, heard);
      Assembled(DoDelete(s, t, deleted, heard));
    }
  }

  lemma Assembled(s: State)
    requires RowsKept(s.intents, s.identities) && WorkersKept(s.intents, s.identities, s.now, s.workers)
    ensures Kept(s)
  {
    hide RowsKept, WorkersKept;
  }

  lemma DeleteRows(s: State, t: Call)
    requires Core(s) && Kept(s) && Owns(s, t) && StepOf(s, t).Deleting?
             && s.intents[s.workers[t].phase.id].state != Completed
    ensures RowsKept(s.intents, s.identities - {StepOf(s, t).user})
  {
    hide TenantsOk, IdentitiesOk, TokensDiffer, WorkersKept;
    OwnerFacts(s, t);
    forall id | id in s.intents && s.intents[id].state == Completed
      ensures s.intents[id].user != Some(StepOf(s, t).user)
    {
      assert RowOk(s.intents[id], id, s.nextToken, s.made);
    }
  }

  lemma DeleteWorkers(s: State, t: Call, heard: bool)
    requires Core(s) && Kept(s) && Owns(s, t) && StepOf(s, t).Deleting?
    requires s.intents[s.workers[t].phase.id].token == Some(s.workers[t].phase.token)
    ensures WorkersKept(s.intents, s.identities - {StepOf(s, t).user}, s.now, Goes(s, t, Concluding(heard)).workers)
  {
    hide TenantsOk, IdentitiesOk, RowsOk, RowsKept;
    OwnerFacts(s, t);
    forall u | u in s.workers && u != t
      ensures WorkerKept(s.intents, s.identities - {StepOf(s, t).user}, s.now, s.workers[u])
    {
      assert WorkerKept(s.intents, s.identities, s.now, s.workers[u])
             && WorkerOk(s.intents, s.made, s.nextToken, s.workers[u]);
    }
  }

  lemma TickKept(s: State, ms: nat)
    requires Kept(s)
    ensures Kept(s.(now := s.now + ms))
  {
    forall t | t in s.workers ensures WorkerKept(s.intents, s.identities, s.now + ms, s.workers[t]) {
      assert WorkerKept(s.intents, s.identities, s.now, s.workers[t]);
    }
    hide RowsKept, WorkerKept;
  }

  lemma LookKept(s: State, t: Call, id: Id)
    requires Kept(s) && t in s.workers && id in s.intents
    ensures Kept(DoLook(s, t, id))
  {
    hide Kept;
    StopsKept(s, t);
    var next := Judge(s.intents[id], id, s.workers[t].input, s.now);
    if next.Some? { WorkerChanges(s, t, s.workers[t].(phase := next.value)); }
  }

  lemma ProbeKept(s: State, t: Call)
    requires Kept(s) && Enabled(s, Probe(t))
    ensures Kept(DoProbe(s, t))
  {
    hide Kept, HasAccount, EmailTaken;
    StopsKept(s, t);
    WorkerChanges(s, t, s.workers[t].(phase := Recovering(s.workers[t].phase.id, s.workers[t].phase.seen)));
  }

  lemma StepKept(s: State, a: Action)
    requires Core(s) && Kept(s) && Enabled(s, a) && Timely(s, a)
    ensures Kept(Next(s, a))
  {
    hide Core, Kept, DoLook, DoReclaim, DoProbe, DoRecover, DoRefer, DoFindIdentity, DoCreateIdentity, DoFindAgain,
         DoAuthClaim, DoMark, DoFence, DoCommit, DoClaimCompensation, DoDelete, HasAccount, EmailTaken, AnyClash,
         FreshTenant, Held, Goes, Stops, Takes;
    match a
    case Start(t, input) => WorkerChanges(s, t, Worker(input, Starting));
    case Create(t, id) => CreateKept(s, t, id);
    case Look(t, id) => LookKept(s, t, id);
    case Reclaim(t) => ReclaimKept(s, t);
    case Probe(t) => ProbeKept(s, t);
    case Recover(t) => RecoverKept(s, t);
    case Refer(t, referred) => ReferKept(s, t, referred);
    case CheckProfile(t) => PlainKept(s, t, Lookup); StopsKept(s, t);
    case FindIdentity(t, found) => FoundKept(s, t, found);
    case LookupFails(t) => PlainKept(s, t, Retry("AUTH_LOOKUP_FAILED_BEFORE_CREATE"));
    case CreateIdentity(t, user, created, heard, code) => CreateIdentityKept(s, t, user, created, heard, code);
    case FindAgain(t, found) => FoundKept(s, t, found);
    case AuthClaim(t, heard) => AuthClaimKept(s, t, heard);
    case Mark(t) => MarkKept(s, t);
    case Fence(t) => FenceKept(s, t);
    case TransactionFails(t) => PlainKept(s, t, Failed(StepOf(s, t).user));
    case Commit(t, tenant, heard) => CommitKept(s, t, tenant, heard);
    case ClaimCompensation(t) => ClaimCompensationKept(s, t);
    case Delete(t, deleted, heard) => DeleteKept(s, t, deleted, heard);
    case Crash(t) => StopsKept(s, t);
    case Tick(ms) => TickKept(s, ms);
    case Outside(user, email) => GrowKept(s, user, Identity(email, None), s.made);
  }
}
