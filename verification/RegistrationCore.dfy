/** What every step of a registration keeps, whatever the timing. */
module RegistrationCore {
  import opened Wrappers
  import opened Registration

  predicate RowOk(row: Intent, id: Id, nextToken: Token, made: map<User, Id>) {
    && (row.tenant.Some? <==> row.state == Completed)
    && (row.token.Some? ==> row.token.value < nextToken)
    && (row.state in {Completed, FailedRetryable, FailedFinal} ==> row.token.None?)
    && (row.user.Some? ==> row.user.value in made && made[row.user.value] == id)
  }

  ghost predicate RowsOk(intents: map<Id, Intent>, nextToken: Token, made: map<User, Id>) {
    && (forall id :: id in intents ==> RowOk(intents[id], id, nextToken, made))
    && (forall i, j :: i in intents && j in intents && i != j ==>
          intents[i].email != intents[j].email && intents[i].key != intents[j].key)
  }

  predicate OwnedBy(row: Intent, tenancy: Tenancy) {
    row.state == Completed && row.tenant == Some(tenancy.tenant) && row.email == tenancy.email
  }

  predicate HasOwner(intents: map<Id, Intent>, tenancy: Tenancy) {
    exists id :: id in intents && OwnedBy(intents[id], tenancy)
  }

  ghost predicate TenantsOk(intents: map<Id, Intent>, tenants: seq<Tenancy>) {
    && (forall i :: 0 <= i < |tenants| ==> HasOwner(intents, tenants[i]))
    && (forall id :: id in intents && intents[id].tenant.Some? ==>
       Tenancy(intents[id].tenant.value, intents[id].email) in tenants)
    && (forall i, j :: 0 <= i < j < |tenants| ==>
       tenants[i].tenant != tenants[j].tenant && tenants[i].email != tenants[j].email)
  }

  function UserOf(at: Step): Option<User> {
    match at
    case Adopting(user, _) => Some(user)
    case Ready(user) => Some(user)
    case Fenced(user) => Some(user)
    case Failed(user) => Some(user)
    case Deleting(user, _) => Some(user)
    case _ => None
  }

  predicate Known(intents: map<Id, Intent>, id: Id, input: Input) {
    id in intents && intents[id].email == input.email
  }

  predicate WorkerOk(intents: map<Id, Intent>, made: map<User, Id>, nextToken: Token, w: Worker) {
    match w.phase
    case Starting => true
    case Reclaiming(id) => Known(intents, id, w.input)
    case Probing(id, _) => Known(intents, id, w.input)
    case Recovering(id, _) => Known(intents, id, w.input)
    case Owner(id, token, at) =>
      && Known(intents, id, w.input) && token < nextToken
      && (UserOf(at).Some? ==> UserOf(at).value in made && made[UserOf(at).value] == id)
      && (at.Fenced? ==> Current(intents[id], token, AuthCreated))
  }

  ghost predicate WorkersOk(
      intents: map<Id, Intent>, made: map<User, Id>, nextToken: Token, workers: map<Call, Worker>)
  {
    && (forall t :: t in workers ==> WorkerOk(intents, made, nextToken, workers[t]))
    && TokensDiffer(workers)
  }

  ghost predicate TokensDiffer(workers: map<Call, Worker>) {
    forall t, u :: t in workers && u in workers && t != u && workers[t].phase.Owner? && workers[u].phase.Owner? ==>
      workers[t].phase.token != workers[u].phase.token
  }

  ghost predicate IdentitiesOk(identities: map<User, Identity>, made: map<User, Id>) {
    forall u :: u in identities && identities[u].intent.Some? ==> u in made && made[u] == identities[u].intent.value
  }

  ghost predicate Core(s: State) {
    && RowsOk(s.intents, s.nextToken, s.made) && TenantsOk(s.intents, s.tenants)
    && WorkersOk(s.intents, s.made, s.nextToken, s.workers) && IdentitiesOk(s.identities, s.made)
  }

  // ----- the shapes of a step

  lemma GoesCore(s: State, t: Call, at: Step)
    requires Core(s) && Owns(s, t)
    requires WorkerOk(s.intents, s.made, s.nextToken, s.workers[t].(phase := s.workers[t].phase.(at := at)))
    ensures Core(Goes(s, t, at))
  {
    hide RowsOk, TenantsOk, IdentitiesOk, WorkerOk;
  }

  lemma PhaseCore(s: State, t: Call, w: Worker)
    requires Core(s) && !w.phase.Owner? && WorkerOk(s.intents, s.made, s.nextToken, w)
    ensures Core(s.(workers := s.workers[t := w]))
  {
    hide RowsOk, TenantsOk, IdentitiesOk, WorkerOk;
  }

  lemma StopsCore(s: State, t: Call)
    requires Core(s)
    ensures Core(Stops(s, t))
  {
    hide RowsOk, TenantsOk, IdentitiesOk, WorkerOk;
  }

  lemma PutRows(intents: map<Id, Intent>, id: Id, row: Intent, nextToken: Token, made: map<User, Id>)
    requires RowsOk(intents, nextToken, made) && RowOk(row, id, nextToken, made)
    requires id in intents ==> row.email == intents[id].email && row.key == intents[id].key
    requires id !in intents ==> forall i :: i in intents ==> row.email != intents[i].email && row.key != intents[i].key
    ensures RowsOk(intents[id := row], nextToken, made)
  {
    hide RowOk;
  }

  lemma PutTenants(intents: map<Id, Intent>, id: Id, row: Intent, tenants: seq<Tenancy>)
    requires TenantsOk(intents, tenants) && row.state != Completed && row.tenant.None?
    requires id in intents ==> intents[id].state != Completed
    ensures TenantsOk(intents[id := row], tenants)
  {
    forall i | 0 <= i < |tenants| ensures HasOwner(intents[id := row], tenants[i]) {
      var j :| j in intents && OwnedBy(intents[j], tenants[i]);
      assert intents[id := row][j] == intents[j];
    }
  }

  lemma PutWorkers(intents: map<Id, Intent>, id: Id, row: Intent, made: map<User, Id>, nextToken: Token,
      workers: map<Call, Worker>)
    requires WorkersOk(intents, made, nextToken, workers)
             && (id in intents ==> row.email == intents[id].email && !Held(workers, id))
    ensures WorkersOk(intents[id := row], made, nextToken, workers)
  {
    hide UserOf;
    assert forall t :: t in workers ==> WorkerOk(intents, made, nextToken, workers[t]);
  }

  /** A row that no transaction holds changes, without being completed before or after. */
  lemma PutsCore(s: State, id: Id, row: Intent)
    requires Core(s) && RowOk(row, id, s.nextToken, s.made) && row.state != Completed
    requires id in s.intents ==>
               && row.email == s.intents[id].email && row.key == s.intents[id].key
               && s.intents[id].state != Completed && !Held(s.workers, id)
    requires id !in s.intents ==> forall i :: i in s.intents ==>
             row.email != s.intents[i].email && row.key != s.intents[i].key
    ensures Core(Puts(s, id, row))
  {
    PutRows(s.intents, id, row, s.nextToken, s.made);
    PutTenants(s.intents, id, row, s.tenants);
    PutWorkers(s.intents, id, row, s.made, s.nextToken, s.workers);
    hide RowsOk, TenantsOk, WorkersOk, IdentitiesOk;
  }

  lemma HigherToken(s: State)
    requires Core(s)
    ensures Core(s.(nextToken := s.nextToken + 1))
  {
    hide TenantsOk, IdentitiesOk;
  }

  /** A claim: the row is put under the next token, and the call becomes its owner. */
  lemma TakesCore(s: State, t: Call, id: Id, row: Intent)
    requires Core(s) && t in s.workers && !s.workers[t].phase.Owner? && RowOk(row, id, s.nextToken + 1, s.made)
             && row.state == Claimed
    requires row.email == s.workers[t].input.email
    requires id in s.intents ==>
               && row.email == s.intents[id].email && row.key == s.intents[id].key
               && s.intents[id].state != Completed && !Held(s.workers, id)
    requires id !in s.intents ==> forall i :: i in s.intents ==>
             row.email != s.intents[i].email && row.key != s.intents[i].key
    ensures Core(Takes(s, t, id, row))
  {
    hide Core, RowOk, Held;
    HigherToken(s);
    var s1 := s.(nextToken := s.nextToken + 1);
    PutsCore(s1, id, row);
    Unused(s);
    BecomesOwner(Puts(s1, id, row), t, id, s.nextToken);
  }

  lemma Unused(s: State)
    requires Core(s)
    ensures forall u :: u in s.workers && s.workers[u].phase.Owner? ==> s.workers[u].phase.token < s.nextToken
  {
    hide RowsOk, TenantsOk, IdentitiesOk, TokensDiffer;
    assert forall u :: u in s.workers ==> WorkerOk(s.intents, s.made, s.nextToken, s.workers[u]);
  }

  lemma BecomesOwner(s: State, t: Call, id: Id, token: Token)
    requires Core(s) && t in s.workers && token < s.nextToken && id in s.intents
             && s.intents[id].email == s.workers[t].input.email
    requires forall u :: u in s.workers && s.workers[u].phase.Owner? ==> s.workers[u].phase.token < token
    ensures Core(s.(workers := s.workers[t := s.workers[t].(phase := Owner(id, token, Referral))]))
  {
    hide RowsOk, TenantsOk, IdentitiesOk;
    assert WorkerOk(s.intents, s.made, s.nextToken, s.workers[t].(phase := Owner(id, token, Referral)));
  }

  lemma NotHeldGoes(s: State, t: Call, at: Step, id: Id)
    requires Owns(s, t) && !Held(s.workers, id) && !at.Fenced?
    ensures !Held(Goes(s, t, at).workers, id) && !Held(Stops(s, t).workers, id)
  {
  }

  /** An owner goes on, and changes its row in the same step. */
  lemma GoesPutsCore(s: State, t: Call, at: Step, row: Intent)
    requires Core(s) && Owns(s, t) && !at.Fenced? && RowFree(s, t) && row.state != Completed
    requires WorkerOk(s.intents, s.made, s.nextToken, s.workers[t].(phase := s.workers[t].phase.(at := at)))
    requires var id := s.workers[t].phase.id;
             && RowOk(row, id, s.nextToken, s.made) && s.intents[id].state != Completed
             && row.email == s.intents[id].email && row.key == s.intents[id].key
    ensures Core(Puts(Goes(s, t, at), s.workers[t].phase.id, row))
  {
    hide Core, RowOk, WorkerOk;
    var id := s.workers[t].phase.id;
    GoesCore(s, t, at);
    NotHeldGoes(s, t, at, id);
    PutsCore(Goes(s, t, at), id, row);
  }

  lemma OwnerFacts(s: State, t: Call)
    requires Core(s) && t in s.workers && !s.workers[t].phase.Starting?
    ensures WorkerOk(s.intents, s.made, s.nextToken, s.workers[t])
    ensures s.workers[t].phase.id in s.intents
    ensures RowOk(s.intents[s.workers[t].phase.id], s.workers[t].phase.id, s.nextToken, s.made)
  {
  }

  // ----- each step

  lemma LookCore(s: State, t: Call, id: Id)
    requires Core(s) && t in s.workers && Clashes(s.intents, s.workers[t].input, id)
    ensures Core(DoLook(s, t, id))
  {
    hide Core;
    StopsCore(s, t);
    var next := Judge(s.intents[id], id, s.workers[t].input, s.now);
    if next.Some? { PhaseCore(s, t, s.workers[t].(phase := next.value)); }
  }

  lemma ProbeCore(s: State, t: Call)
    requires Core(s) && Enabled(s, Probe(t))
    ensures Core(DoProbe(s, t))
  {
    var w := s.workers[t];
    OwnerFacts(s, t);
    StopsCore(s, t);
    PhaseCore(s, t, w.(phase := Recovering(w.phase.id, w.phase.seen)));
  }

  lemma ReclaimCore(s: State, t: Call)
    requires Core(s) && Enabled(s, Reclaim(t))
    ensures Core(DoReclaim(s, t))
  {
    hide Core, Held;
    StopsCore(s, t);
    var id := s.workers[t].phase.id;
    OwnerFacts(s, t);
    if Reclaimable(s.intents[id], s.now) { TakesCore(s, t, id, ReclaimedRow(s.intents[id], s.nextToken, s.now)); }
  }

  lemma RecoverCore(s: State, t: Call)
    requires Core(s) && Enabled(s, Recover(t))
    ensures Core(DoRecover(s, t))
  {
    hide Core, Held;
    StopsCore(s, t);
    var id := s.workers[t].phase.id;
    OwnerFacts(s, t);
    if s.intents[id].state == FailedRetryable && s.intents[id].tenant.None? {
      TakesCore(s, t, id, RecoveredRow(s.intents[id], s.workers[t].input.payload, s.nextToken, s.now));
    }
  }

  lemma CreateCore(s: State, t: Call, id: Id)
    requires Core(s) && Enabled(s, Create(t, id))
    ensures Core(Next(s, Create(t, id)))
  {
    var row := NewIntent(s.workers[t].input, s.nextToken, s.now);
    forall i | i in s.intents ensures row.email != s.intents[i].email && row.key != s.intents[i].key {
      assert !Clashes(s.intents, s.workers[t].input, i);
    }
    hide Core;
    TakesCore(s, t, id, row);
  }

  lemma ReferCore(s: State, t: Call, referred: Referred)
    requires Core(s) && Owns(s, t) && StepOf(s, t).Referral? && (referred.Valid? ==> RowFree(s, t))
    ensures Core(DoRefer(s, t, referred))
  {
    hide Core, Held;
    var id := s.workers[t].phase.id;
    OwnerFacts(s, t);
    StopsCore(s, t);
    GoesCore(s, t, Profile);
    GoesCore(s, t, Final("REFERRAL_UNAVAILABLE"));
    if referred.Valid? && Current(s.intents[id], s.workers[t].phase.token, Claimed) {
      GoesPutsCore(s, t, Profile, s.intents[id].(version := s.intents[id].version + 1));
    }
  }

  lemma FindIdentityCore(s: State, t: Call, found: Option<User>)
    requires Core(s) && Owns(s, t) && Found(s, t, found)
    ensures Core(DoFindIdentity(s, t, found))
  {
    hide RowsOk, TenantsOk, WorkersOk, Held;
    OwnerFacts(s, t);
    GoesCore(s, t, DoFindIdentity(s, t, found).workers[t].phase.at);
  }

  lemma FindAgainCore(s: State, t: Call, found: Option<User>)
    requires Core(s) && Owns(s, t) && Found(s, t, found)
    ensures Core(DoFindAgain(s, t, found))
  {
    hide RowsOk, TenantsOk, WorkersOk, Held;
    OwnerFacts(s, t);
    GoesCore(s, t, DoFindAgain(s, t, found).workers[t].phase.at);
  }

  lemma MadeCore(s: State, user: User, identity: Identity, id: Id)
    requires Core(s) && Fresh(s, user) && (identity.intent.Some? ==> identity.intent == Some(id))
    ensures Core(s.(identities := s.identities[user := identity], made := s.made[user := id]))
  {
    hide TenantsOk, TokensDiffer;
  }

  lemma CreateIdentityCore(s: State, t: Call, user: User, created: bool, heard: bool, code: string)
    requires Core(s) && Owns(s, t) && StepOf(s, t).Creating? && Fresh(s, user) && (heard ==> created)
    ensures Core(DoCreateIdentity(s, t, user, created, heard, code))
  {
    hide Core, EmailTaken;
    var w := s.workers[t];
    OwnerFacts(s, t);
    GoesCore(s, t, Conflicted);
    GoesCore(s, t, Retry(code));
    if created {
      MadeCore(s, user, Identity(w.input.email, Some(w.phase.id)), w.phase.id);
      var s1 := s.(identities := s.identities[user := Identity(w.input.email, Some(w.phase.id))],
        made := s.made[user := w.phase.id]);
      OwnerFacts(s1, t);
      var at := if heard then Adopting(user, Some("AUTH_CREATE_FAILED")) else Retry(code);
      GoesCore(s1, t, at);
      assert Goes(s1, t, at) == Goes(s, t, at).(identities := s1.identities, made := s1.made);
    }
  }

  lemma AuthClaimCore(s: State, t: Call, heard: bool)
    requires Core(s) && Owns(s, t) && StepOf(s, t).Adopting? && RowFree(s, t)
    ensures Core(DoAuthClaim(s, t, heard))
  {
    hide Core, Held;
    var id, at := s.workers[t].phase.id, StepOf(s, t);
    OwnerFacts(s, t);
    StopsCore(s, t);
    NotHeldGoes(s, t, Ready(at.user), id);
    var error := if at.onError.Some? then Retry(at.onError.value) else Referral;
    GoesCore(s, t, error);
    if Current(s.intents[id], s.workers[t].phase.token, Claimed) {
      var row := AuthCreatedRow(s.intents[id], at.user, s.now);
      GoesPutsCore(s, t, Ready(at.user), row);
      GoesPutsCore(s, t, error, row);
      PutsCore(Stops(s, t), id, row);
    }
  }

  lemma MarkCore(s: State, t: Call)
    requires Core(s) && Owns(s, t) && Marking(StepOf(s, t)).Some? && RowFree(s, t)
    ensures Core(DoMark(s, t))
  {
    hide Core, Held;
    var id, to := s.workers[t].phase.id, Marking(StepOf(s, t)).value;
    OwnerFacts(s, t);
    StopsCore(s, t);
    var row := MarkedRow(s.intents[id], Some(s.workers[t].phase.token), to.0, to.1);
    if s.intents[id].state == Completed {
      assert s.intents[id := row] == s.intents;
    } else {
      NotHeldGoes(s, t, Referral, id);
      PutsCore(Stops(s, t), id, row);
    }
  }

  lemma FenceCore(s: State, t: Call)
    requires Core(s) && Owns(s, t) && StepOf(s, t).Ready?
    ensures Core(DoFence(s, t))
  {
    hide RowsOk, TenantsOk, WorkersOk, Held;
    OwnerFacts(s, t);
    GoesCore(s, t, DoFence(s, t).workers[t].phase.at);
  }

  lemma ClaimCompensationCore(s: State, t: Call)
    requires Core(s) && Owns(s, t) && StepOf(s, t).Failed? && RowFree(s, t)
    ensures Core(DoClaimCompensation(s, t))
  {
    hide Core, Held;
    var id, user := s.workers[t].phase.id, StepOf(s, t).user;
    OwnerFacts(s, t);
    StopsCore(s, t);
    if Current(s.intents[id], s.workers[t].phase.token, AuthCreated) {
      var row := CompensatingRow(s.intents[id], s.now);
      GoesPutsCore(s, t, Deleting(user, s.now + LEASE_MS), row);
    }
  }

  lemma DeleteCore(s: State, t: Call, deleted: bool, heard: bool)
    requires Core(s) && Owns(s, t) && StepOf(s, t).Deleting?
    ensures Core(DoDelete(s, t, deleted, heard))
  {
    hide RowsOk, TenantsOk, WorkersOk;
    OwnerFacts(s, t);
    GoesCore(s, t, Concluding(heard));
  }

  /** A transaction about to commit holds its claim, and its address has no tenant yet. */
  lemma CommitReady(s: State, t: Call)
    requires Core(s) && Owns(s, t) && StepOf(s, t).Fenced?
    ensures var id := s.workers[t].phase.id;
            && Current(s.intents[id], s.workers[t].phase.token, AuthCreated) && s.intents[id].tenant.None?
            && s.intents[id].email == s.workers[t].input.email
            && StepOf(s, t).user in s.made && s.made[StepOf(s, t).user] == id
  {
    hide TenantsOk;
    OwnerFacts(s, t);
  }

  lemma NoTenantYet(s: State, t: Call, i: nat)
    requires Core(s) && Owns(s, t) && StepOf(s, t).Fenced? && i < |s.tenants|
    ensures s.tenants[i].email != s.workers[t].input.email
  {
    CommitReady(s, t);
    assert HasOwner(s.intents, s.tenants[i]);
    var id :| id in s.intents && OwnedBy(s.intents[id], s.tenants[i]);
    assert s.workers[t].phase.id in s.intents;
    hide WorkersOk, IdentitiesOk;
  }

  lemma CommitTenants(intents: map<Id, Intent>, tenants: seq<Tenancy>, id: Id, row: Intent, tenancy: Tenancy)
    requires TenantsOk(intents, tenants) && id in intents && intents[id].tenant.None? && intents[id].state != Completed
    requires OwnedBy(row, tenancy) && row.email == intents[id].email
    requires forall i :: 0 <= i < |tenants| ==> tenants[i].tenant != tenancy.tenant && tenants[i].email != tenancy.email
    ensures TenantsOk(intents[id := row], tenants + [tenancy])
  {
    var intents', tenants' := intents[id := row], tenants + [tenancy];
    forall i | 0 <= i < |tenants'| ensures HasOwner(intents', tenants'[i]) {
      if i < |tenants| {
        assert HasOwner(intents, tenants[i]);
        var j :| j in intents && OwnedBy(intents[j], tenants[i]);
        assert intents'[j] == intents[j];
      } else {
        assert OwnedBy(intents'[id], tenancy);
      }
    }
    hide HasOwner, OwnedBy;
  }

  lemma CommitWorkers(s: State, t: Call, row: Intent)
    requires Core(s) && Owns(s, t) && StepOf(s, t).Fenced?
    requires row.email == s.intents[s.workers[t].phase.id].email
    ensures WorkersOk(s.intents[s.workers[t].phase.id := row], s.made, s.nextToken,
            Goes(s, t, Failed(StepOf(s, t).user)).workers)
  {
    hide RowsOk, TenantsOk, IdentitiesOk;
    var id := s.workers[t].phase.id;
    CommitReady(s, t);
    forall u | u in s.workers && u != t ensures WorkerOk(s.intents[id := row], s.made, s.nextToken, s.workers[u]) {
      assert WorkerOk(s.intents, s.made, s.nextToken, s.workers[u]) && TokensDiffer(s.workers);
    }
    assert WorkerOk(s.intents[id := row], s.made, s.nextToken, Goes(s, t, Failed(StepOf(s, t).user)).workers[t]);
  }

  lemma CommitCore(s: State, t: Call, tenant: nat, heard: bool)
    requires Core(s) && Owns(s, t) && StepOf(s, t).Fenced? && FreshTenant(s.tenants, tenant)
    ensures Core(DoCommit(s, t, tenant, heard))
  {
    hide RowsOk, TenantsOk, WorkersOk, IdentitiesOk;
    var id := s.workers[t].phase.id;
    var row := CompletedRow(s.intents[id], StepOf(s, t).user, tenant);
    CommitReady(s, t);
    OwnerFacts(s, t);
    PutRows(s.intents, id, row, s.nextToken, s.made);
    forall i | 0 <= i < |s.tenants| ensures s.tenants[i].email != s.workers[t].input.email { NoTenantYet(s, t, i); }
    CommitTenants(s.intents, s.tenants, id, row, Tenancy(tenant, s.workers[t].input.email));
    CommitWorkers(s, t, row);
    var failed := DoCommit(s, t, tenant, false);
    assert Core(failed);
    StopsCore(failed, t);
    assert Stops(failed, t).workers == Stops(s, t).workers;
  }

  lemma TransactionFailsCore(s: State, t: Call)
    requires Core(s) && Owns(s, t) && (StepOf(s, t).Ready? || StepOf(s, t).Fenced?)
    ensures Core(Goes(s, t, Failed(StepOf(s, t).user)))
  {
    hide Core;
    OwnerFacts(s, t);
    GoesCore(s, t, Failed(StepOf(s, t).user));
  }

  lemma PlainCore(s: State, t: Call, at: Step)
    requires Core(s) && Owns(s, t) && UserOf(at).None? && !at.Fenced?
    ensures Core(Goes(s, t, at))
  {
    hide Core;
    OwnerFacts(s, t);
    GoesCore(s, t, at);
  }

  lemma OutsideCore(s: State, user: User, email: string)
    requires Core(s) && Fresh(s, user)
    ensures Core(s.(identities := s.identities[user := Identity(email, None)]))
  {
    hide RowsOk, TenantsOk, WorkersOk;
  }

  lemma StartCore(s: State, t: Call, input: Input)
    requires Core(s)
    ensures Core(s.(workers := s.workers[t := Worker(input, Starting)]))
  {
    hide Core;
    PhaseCore(s, t, Worker(input, Starting));
  }

  lemma TickCore(s: State, ms: nat)
    requires Core(s)
    ensures Core(s.(now := s.now + ms))
  {
    hide RowsOk, TenantsOk, WorkersOk, IdentitiesOk;
  }

  lemma StepCore(s: State, a: Action)
    requires Core(s) && Enabled(s, a)
    ensures Core(Next(s, a))
  {
    hide Core, DoLook, DoReclaim, DoProbe, DoRecover, DoRefer, DoFindIdentity, DoCreateIdentity, DoFindAgain,
         DoAuthClaim, DoMark, DoFence, DoCommit, DoClaimCompensation, DoDelete, HasAccount, EmailTaken, Clashes,
         AnyClash, FreshTenant, Held, Found, Goes, Stops, Takes;
    match a
    case Start(t, input) => StartCore(s, t, input);
    case Create(t, id) => CreateCore(s, t, id);
    case Look(t, id) => LookCore(s, t, id);
    case Reclaim(t) => ReclaimCore(s, t);
    case Probe(t) => ProbeCore(s, t);
    case Recover(t) => RecoverCore(s, t);
    case Refer(t, referred) => ReferCore(s, t, referred);
    case CheckProfile(t) => PlainCore(s, t, Lookup); StopsCore(s, t);
    case FindIdentity(t, found) => FindIdentityCore(s, t, found);
    case LookupFails(t) => PlainCore(s, t, Retry("AUTH_LOOKUP_FAILED_BEFORE_CREATE"));
    case CreateIdentity(t, user, created, heard, code) => CreateIdentityCore(s, t, user, created, heard, code);
    case FindAgain(t, found) => FindAgainCore(s, t, found);
    case AuthClaim(t, heard) => AuthClaimCore(s, t, heard);
    case Mark(t) => MarkCore(s, t);
    case Fence(t) => FenceCore(s, t);
    case TransactionFails(t) => TransactionFailsCore(s, t);
    case Commit(t, tenant, heard) => CommitCore(s, t, tenant, heard);
    case ClaimCompensation(t) => ClaimCompensationCore(s, t);
    case Delete(t, deleted, heard) => DeleteCore(s, t, deleted, heard);
    case Crash(t) => StopsCore(s, t);
    case Tick(ms) => TickCore(s, ms);
    case Outside(user, email) => OutsideCore(s, user, email);
  }
}
