/** What the state and the code of an intent tell about the attempt that set them. */
module RegistrationCodes {
  import opened Wrappers
  import opened Registration
  import opened RegistrationCore
  import opened RegistrationTheorems

  const LOOKUP_FAILED := "AUTH_LOOKUP_FAILED_BEFORE_CREATE"
  const ROLLED_BACK := "REGISTER_TRANSACTION_ROLLED_BACK"

  predicate Gone(user: Option<User>, identities: map<User, Identity>) {
    user.Some? && user.value !in identities
  }

  /** A failed row says that it was rolled back only when its identity is gone. */
  predicate RowTold(row: Intent, identities: map<User, Identity>) {
    match row.state
    case FailedRetryable =>
      if row.code == ROLLED_BACK then Gone(row.user, identities) else row.code in CREATE_FAILURES + {LOOKUP_FAILED}
    case CompensationRequired =>
      row.code == if row.token.Some? then "REGISTER_TRANSACTION_FAILED" else "AUTH_ROLLBACK_FAILED"
    case FailedFinal => row.code in {"REFERRAL_UNAVAILABLE", "AUTH_EMAIL_EXISTS"}
    case _ => row.code == ""
  }

  /** What a call is going to record, and how its row stands while it owns it. */
  predicate StepTold(at: Step, row: Intent, owned: bool, identities: map<User, Identity>) {
    match at
    case Retry(code) => code in CREATE_FAILURES + {LOOKUP_FAILED}
    case Final(code) => code in {"REFERRAL_UNAVAILABLE", "AUTH_EMAIL_EXISTS"}
    case Adopting(_, onError) => onError.Some? ==> onError.value in {LOOKUP_FAILED, "AUTH_CREATE_FAILED"}
    case Ready(user) => owned && row.state == AuthCreated ==> row.user == Some(user)
    case Fenced(user) => owned && row.state == AuthCreated ==> row.user == Some(user)
    case Failed(user) => owned && row.state == AuthCreated ==> row.user == Some(user)
    case Deleting(user, _) => owned ==> row.user == Some(user)
    case Concluding(deleted) => owned && deleted ==> Gone(row.user, identities)
    case _ => true
  }

  predicate WorkerTold(intents: map<Id, Intent>, identities: map<User, Identity>, w: Worker) {
    w.phase.Owner? && w.phase.id in intents ==>
      StepTold(w.phase.at, intents[w.phase.id], intents[w.phase.id].token == Some(w.phase.token), identities)
  }

  ghost predicate RowsTold(intents: map<Id, Intent>, identities: map<User, Identity>) {
    forall id :: id in intents ==> RowTold(intents[id], identities)
  }

  ghost predicate WorkersTold(intents: map<Id, Intent>, identities: map<User, Identity>, workers: map<Call, Worker>) {
    forall t :: t in workers ==> WorkerTold(intents, identities, workers[t])
  }

  ghost predicate Told(s: State) {
    RowsTold(s.intents, s.identities) && WorkersTold(s.intents, s.identities, s.workers)
  }

  // ----- the shapes of a step

  lemma WorkerTells(s: State, t: Call, w: Worker)
    requires Told(s) && WorkerTold(s.intents, s.identities, w)
    ensures Told(s.(workers := s.workers[t := w]))
  {
    hide RowsTold, WorkerTold;
  }

  lemma GoesTold(s: State, t: Call, at: Step)
    requires Told(s) && Owns(s, t)
    requires var row := s.intents[s.workers[t].phase.id];
             StepTold(at, row, row.token == Some(s.workers[t].phase.token), s.identities)
    ensures Told(Goes(s, t, at))
  {
    hide Told, StepTold;
    WorkerTells(s, t, s.workers[t].(phase := s.workers[t].phase.(at := at)));
  }

  lemma StopsTold(s: State, t: Call)
    requires Told(s)
    ensures Told(Stops(s, t))
  {
    hide RowsTold, WorkerTold;
  }

  lemma OwnTold(s: State, t: Call)
    requires Told(s) && Owns(s, t)
    ensures var row := s.intents[s.workers[t].phase.id];
            && RowTold(row, s.identities)
            && StepTold(StepOf(s, t), row, row.token == Some(s.workers[t].phase.token), s.identities)
  {
    hide RowTold, StepTold;
    assert WorkerTold(s.intents, s.identities, s.workers[t]);
  }

  /** The owner of a row writes it, and goes on or stops. */
  lemma WriteTold(s: State, t: Call, at: Step, row: Intent)
    requires Core(s) && Told(s) && Owns(s, t)
    requires s.intents[s.workers[t].phase.id].token == Some(s.workers[t].phase.token)
    requires RowTold(row, s.identities) && row.token in {None, Some(s.workers[t].phase.token)}
    requires StepTold(at, row, row.token.Some?, s.identities)
    ensures Told(Puts(Goes(s, t, at), s.workers[t].phase.id, row))
  {
    hide RowsOk, TenantsOk, IdentitiesOk, WorkerOk, RowTold, StepTold;
    var id := s.workers[t].phase.id;
    forall u | u in s.workers && u != t ensures WorkerTold(s.intents[id := row], s.identities, s.workers[u]) {
      assert WorkerTold(s.intents, s.identities, s.workers[u]) && TokensDiffer(s.workers);
      if s.workers[u].phase.Owner? && s.workers[u].phase.id == id {
        Unowned(s.workers[u].phase.at, s.intents[id], row, s.identities);
      }
    }
  }

  /** What a call whose claim was replaced knows does not depend on the row. */
  lemma Unowned(at: Step, row: Intent, row': Intent, identities: map<User, Identity>)
    requires StepTold(at, row, false, identities)
    ensures StepTold(at, row', false, identities)
  {
  }

  lemma WriteAndStopTold(s: State, t: Call, row: Intent)
    requires Core(s) && Told(s) && Owns(s, t)
    requires s.intents[s.workers[t].phase.id].token == Some(s.workers[t].phase.token)
    requires RowTold(row, s.identities) && row.token in {None, Some(s.workers[t].phase.token)}
    ensures Told(Puts(Stops(s, t), s.workers[t].phase.id, row))
  {
    hide Core, Told, RowTold;
    WriteTold(s, t, Referral, row);
    var went := Puts(Goes(s, t, Referral), s.workers[t].phase.id, row);
    StopsTold(went, t);
    assert Stops(went, t).workers == Stops(s, t).workers;
  }

  lemma TakesTold(s: State, t: Call, id: Id, row: Intent)
    requires Core(s) && Told(s) && t in s.workers && row.token == Some(s.nextToken) && RowTold(row, s.identities)
    requires id in s.intents
             || (forall u :: u in s.workers && s.workers[u].phase.Owner? ==> s.workers[u].phase.id != id)
    ensures Told(Takes(s, t, id, row))
  {
    hide RowsOk, TenantsOk, IdentitiesOk, TokensDiffer, RowTold, StepTold;
    forall u | u in s.workers && u != t ensures WorkerTold(s.intents[id := row], s.identities, s.workers[u]) {
      assert WorkerTold(s.intents, s.identities, s.workers[u]);
      assert WorkerOk(s.intents, s.made, s.nextToken, s.workers[u]);
      if s.workers[u].phase.Owner? && s.workers[u].phase.id == id {
        NoLonger(s.workers[u].phase.at, s.intents[id], s.intents[id].token == Some(s.workers[u].phase.token), row,
          s.identities);
      }
    }
    StartsTold(row, s.identities);
  }

  lemma NoLonger(at: Step, row: Intent, owned: bool, row': Intent, identities: map<User, Identity>)
    requires StepTold(at, row, owned, identities)
    ensures StepTold(at, row', false, identities)
  {
  }

  lemma StartsTold(row: Intent, identities: map<User, Identity>)
    ensures StepTold(Referral, row, true, identities)
  {
  }

  /** Identities appear only for users never seen, so what is gone stays gone. */
  lemma IdentitiesTold(s: State, s': State)
    requires Core(s) && Told(s) && s'.intents == s.intents && s'.workers == s.workers
    requires forall u :: u in s'.identities ==> u in s.identities || u !in s.made
    ensures Told(s')
  {
    hide TenantsOk, WorkersOk, IdentitiesOk, RowTold, StepTold;
    forall id | id in s.intents ensures RowTold(s.intents[id], s'.identities) {
      assert RowTold(s.intents[id], s.identities) && RowOk(s.intents[id], id, s.nextToken, s.made);
      RowStaysTold(s.intents[id], s.identities, s'.identities);
    }
    forall t | t in s.workers ensures WorkerTold(s.intents, s'.identities, s.workers[t]) {
      assert WorkerTold(s.intents, s.identities, s.workers[t]);
      if s.workers[t].phase.Owner? && s.workers[t].phase.id in s.intents {
        var row := s.intents[s.workers[t].phase.id];
        StepStaysTold(s.workers[t].phase.at, row, row.token == Some(s.workers[t].phase.token), s.identities,
          s'.identities);
      }
    }
  }

  lemma RowStaysTold(row: Intent, identities: map<User, Identity>, identities': map<User, Identity>)
    requires RowTold(row, identities)
    requires row.user.Some? && row.user.value in identities' ==> row.user.value in identities
    ensures RowTold(row, identities')
  {
  }

  lemma StepStaysTold(at: Step, row: Intent, owned: bool, identities: map<User, Identity>, identities': map<User,
      Identity>)
    requires StepTold(at, row, owned, identities)
    requires row.user.Some? && row.user.value in identities' ==> row.user.value in identities
    ensures StepTold(at, row, owned, identities')
  {
  }

  // ----- each action

  lemma ClaimsTold(s: State, a: Action)
    requires Core(s) && Told(s) && Enabled(s, a) && Claims(a)
    ensures Told(Next(s, a))
  {
    hide Core, Told, AnyClash, Held, Takes, Stops;
    StopsTold(s, a.t);
    NobodyOwnsNew(s);
    if a.Create? {
      TakesTold(s, a.t, a.id, NewIntent(s.workers[a.t].input, s.nextToken, s.now));
    } else if a.Reclaim? {
      var id := s.workers[a.t].phase.id;
      TakesTold(s, a.t, id, ReclaimedRow(s.intents[id], s.nextToken, s.now));
    } else {
      var w := s.workers[a.t];
      TakesTold(s, a.t, w.phase.id, RecoveredRow(s.intents[w.phase.id], w.input.payload, s.nextToken, s.now));
    }
  }

  lemma NobodyOwnsNew(s: State)
    requires Core(s)
    ensures forall u :: u in s.workers && s.workers[u].phase.Owner? ==> s.workers[u].phase.id in s.intents
  {
    hide RowsOk, TenantsOk, IdentitiesOk, TokensDiffer;
    forall u | u in s.workers && s.workers[u].phase.Owner? ensures s.workers[u].phase.id in s.intents {
      assert WorkerOk(s.intents, s.made, s.nextToken, s.workers[u]);
    }
  }

  lemma ReferTold(s: State, t: Call, referred: Referred)
    requires Core(s) && Told(s) && Owns(s, t) && StepOf(s, t).Referral?
    ensures Told(DoRefer(s, t, referred))
  {
    hide Core, Told, Goes, Puts, Stops;
    var id := s.workers[t].phase.id;
    OwnTold(s, t);
    StopsTold(s, t);
    GoesTold(s, t, Profile);
    GoesTold(s, t, Final("REFERRAL_UNAVAILABLE"));
    if Current(s.intents[id], s.workers[t].phase.token, Claimed) {
      WriteTold(s, t, Profile, s.intents[id].(version := s.intents[id].version + 1));
    }
  }

  lemma AuthClaimTold(s: State, t: Call, heard: bool)
    requires Core(s) && Told(s) && Owns(s, t) && StepOf(s, t).Adopting?
    ensures Told(DoAuthClaim(s, t, heard))
  {
    hide Core, Told, Goes, Puts, Stops;
    var id, at := s.workers[t].phase.id, StepOf(s, t);
    OwnTold(s, t);
    StopsTold(s, t);
    if at.onError.Some? { GoesTold(s, t, Retry(at.onError.value)); }
    if Current(s.intents[id], s.workers[t].phase.token, Claimed) {
      var row := AuthCreatedRow(s.intents[id], at.user, s.now);
      WriteTold(s, t, Ready(at.user), row);
      WriteAndStopTold(s, t, row);
      if at.onError.Some? { WriteTold(s, t, Retry(at.onError.value), row); }
    }
  }

  lemma CodeStays(code: string)
    requires code in CREATE_FAILURES
             + {LOOKUP_FAILED, ROLLED_BACK, "AUTH_ROLLBACK_FAILED", "REFERRAL_UNAVAILABLE", "AUTH_EMAIL_EXISTS"}
    ensures ShortCode(code) == code
  {
  }

  lemma MarkTold(s: State, t: Call)
    requires Core(s) && Told(s) && Owns(s, t) && Marking(StepOf(s, t)).Some?
    ensures Told(DoMark(s, t))
  {
    hide Core, Told, Puts, ShortCode;
    var id, to := s.workers[t].phase.id, Marking(StepOf(s, t)).value;
    OwnTold(s, t);
    StopsTold(s, t);
    CodeStays(to.1);
    var row := MarkedRow(s.intents[id], Some(s.workers[t].phase.token), to.0, to.1);
    if Markable(s.intents[id], Some(s.workers[t].phase.token)) {
      WriteAndStopTold(s, t, row);
    } else {
      SamePut(Stops(s, t), id);
    }
  }

  lemma SamePut(s: State, id: Id)
    requires id in s.intents
    ensures Puts(s, id, s.intents[id]) == s
  {
  }

  lemma CommitTold(s: State, t: Call, tenant: nat, heard: bool)
    requires Core(s) && Told(s) && Owns(s, t) && StepOf(s, t).Fenced?
    ensures Told(DoCommit(s, t, tenant, heard))
  {
    hide Core, Goes, Puts, Stops, RowsTold, WorkersTold;
    var id, user := s.workers[t].phase.id, StepOf(s, t).user;
    CommitReady(s, t);
    var row := CompletedRow(s.intents[id], user, tenant);
    WriteTold(s, t, Failed(user), row);
    WriteAndStopTold(s, t, row);
  }

  lemma ClaimCompensationTold(s: State, t: Call)
    requires Core(s) && Told(s) && Owns(s, t) && StepOf(s, t).Failed?
    ensures Told(DoClaimCompensation(s, t))
  {
    hide Core, Told, Goes, Puts, Stops;
    var id, user := s.workers[t].phase.id, StepOf(s, t).user;
    OwnTold(s, t);
    StopsTold(s, t);
    if Current(s.intents[id], s.workers[t].phase.token, AuthCreated) {
      WriteTold(s, t, Deleting(user, s.now + LEASE_MS), CompensatingRow(s.intents[id], s.now));
    }
  }

  lemma DeleteTold(s: State, t: Call, deleted: bool, heard: bool)
    requires Core(s) && Told(s) && Owns(s, t) && StepOf(s, t).Deleting? && (heard ==> deleted)
    ensures Told(DoDelete(s, t, deleted, heard))
  {
    hide Core, Told;
    var after := if deleted then s.(identities := s.identities - {StepOf(s, t).user}) else s;
    IdentitiesTold(s, after);
    OwnTold(after, t);
    GoesTold(after, t, Concluding(heard));
  }

  lemma CreateIdentityTold(s: State, t: Call, user: User, created: bool, heard: bool, code: string)
    requires Core(s) && Told(s) && Enabled(s, CreateIdentity(t, user, created, heard, code))
    ensures Told(DoCreateIdentity(s, t, user, created, heard, code))
  {
    hide Core, Told, EmailTaken;
    var w := s.workers[t];
    var after := s.(identities := s.identities[user := Identity(w.input.email, Some(w.phase.id))],
                    made := s.made[user := w.phase.id]);
    IdentitiesTold(s, after);
    GoesTold(s, t, Conflicted);
    if heard {
      GoesTold(after, t, Adopting(user, Some("AUTH_CREATE_FAILED")));
    } else {
      GoesTold(s, t, Retry(code));
      GoesTold(after, t, Retry(code));
    }
  }

  lemma FindTold(s: State, t: Call, found: Option<User>)
    requires Core(s) && Told(s) && Owns(s, t) && Found(s, t, found)
    ensures Told(DoFindIdentity(s, t, found)) && Told(DoFindAgain(s, t, found))
  {
    hide Core, Told, Found, Goes;
    GoesTold(s, t, Creating);
    GoesTold(s, t, Conflicted);
    GoesTold(s, t, Final("AUTH_EMAIL_EXISTS"));
    if found.Some? {
      GoesTold(s, t, Adopting(found.value, Some("AUTH_LOOKUP_FAILED_BEFORE_CREATE")));
      GoesTold(s, t, Adopting(found.value, None));
    }
  }

  lemma FenceTold(s: State, t: Call)
    requires Core(s) && Told(s) && Owns(s, t) && (StepOf(s, t).Ready? || StepOf(s, t).Fenced?)
    ensures Told(Goes(s, t, Failed(StepOf(s, t).user))) && Told(Goes(s, t, Fenced(StepOf(s, t).user)))
  {
    hide Core, Told, Goes;
    OwnTold(s, t);
    GoesTold(s, t, Failed(StepOf(s, t).user));
    GoesTold(s, t, Fenced(StepOf(s, t).user));
  }

  /** Calls that own nothing yet. */
  lemma PhaseTold(s: State, t: Call, w: Worker)
    requires Told(s) && !w.phase.Owner?
    ensures Told(s.(workers := s.workers[t := w]))
  {
    hide Told;
    WorkerTells(s, t, w);
  }

  lemma StartingTold(s: State, a: Action)
    requires Told(s) && Enabled(s, a) && (a.Start? || a.Look? || a.Probe?)
    ensures Told(Next(s, a))
  {
    hide Told, HasAccount, EmailTaken;
    StopsTold(s, a.t);
    if a.Start? { PhaseTold(s, a.t, Worker(a.input, Starting)); }
    if a.Look? {
      var judged := Judge(s.intents[a.id], a.id, s.workers[a.t].input, s.now);
      if judged.Some? { PhaseTold(s, a.t, s.workers[a.t].(phase := judged.value)); }
    }
    if a.Probe? {
      var w := s.workers[a.t];
      PhaseTold(s, a.t, w.(phase := Recovering(w.phase.id, w.phase.seen)));
    }
  }

  lemma PlainTold(s: State, t: Call, at: Step)
    requires Told(s) && Owns(s, t) && (at.Lookup? || at == Retry(LOOKUP_FAILED))
    ensures Told(Goes(s, t, at))
  {
    hide Told;
    GoesTold(s, t, at);
  }

  lemma StepTells(s: State, a: Action)
    requires Core(s) && Told(s) && Enabled(s, a)
    ensures Told(Next(s, a))
  {
    hide Core, Told, DoLook, DoReclaim, DoProbe, DoRecover, DoRefer, DoFindIdentity, DoCreateIdentity, DoFindAgain,
         DoAuthClaim, DoMark, DoCommit, DoClaimCompensation, DoDelete, HasAccount, EmailTaken, Clashes, AnyClash,
         FreshTenant, Held, Found, Goes, Stops, Takes;
    match a
    case Start(_, _) => StartingTold(s, a);
    case Create(_, _) => ClaimsTold(s, a);
    case Look(_, _) => StartingTold(s, a);
    case Reclaim(_) => ClaimsTold(s, a);
    case Probe(_) => StartingTold(s, a);
    case Recover(_) => ClaimsTold(s, a);
    case Refer(t, referred) => ReferTold(s, t, referred);
    case CheckProfile(t) => PlainTold(s, t, Lookup); StopsTold(s, t);
    case FindIdentity(t, found) => FindTold(s, t, found);
    case LookupFails(t) => PlainTold(s, t, Retry(LOOKUP_FAILED));
    case CreateIdentity(t, user, created, heard, code) => CreateIdentityTold(s, t, user, created, heard, code);
    case FindAgain(t, found) => FindTold(s, t, found);
    case AuthClaim(t, heard) => AuthClaimTold(s, t, heard);
    case Mark(t) => MarkTold(s, t);
    case Fence(t) => FenceTold(s, t);
    case TransactionFails(t) => FenceTold(s, t);
    case Commit(t, tenant, heard) => CommitTold(s, t, tenant, heard);
    case ClaimCompensation(t) => ClaimCompensationTold(s, t);
    case Delete(t, deleted, heard) => DeleteTold(s, t, deleted, heard);
    case Crash(t) => StopsTold(s, t);
    case Tick(ms) => IdentitiesTold(s, s.(now := s.now + ms));
    case Outside(user, email) => IdentitiesTold(s, s.(identities := s.identities[user := Identity(email, None)]));
  }

  lemma {:induction false} RunTells(s: State, run: seq<Action>)
    requires Core(s) && Told(s) && IsRun(s, run)
    ensures Told(Exec(s, run))
    decreases |run|
  {
    hide Core, Told, Enabled, Next;
    if run != [] {
      StepCore(s, run[0]);
      StepTells(s, run[0]);
      RunTells(Next(s, run[0]), run[1..]);
    }
  }

  // ----- the theorems

  /** In every run: an intent that says it was rolled back names an identity that is gone; every other
      retryable failure has a code of the lookup or of the creation; an intent is given up for good only
      for the referral or for an address in use; one whose compensation was left over says whether its
      delete failed or is still owned. */
  lemma {:induction false} CodesTell(s: State, run: seq<Action>, id: Id)
    requires Init(s) && IsRun(s, run) && id in Exec(s, run).intents
    ensures var row, identities := Exec(s, run).intents[id], Exec(s, run).identities;
            && (row.state == FailedRetryable && row.code == "REGISTER_TRANSACTION_ROLLED_BACK" ==>
                  row.user.Some? && row.user.value !in identities)
            && (row.state == FailedRetryable && row.code != "REGISTER_TRANSACTION_ROLLED_BACK" ==>
                  row.code == "AUTH_LOOKUP_FAILED_BEFORE_CREATE" || row.code in CREATE_FAILURES)
            && (row.state == FailedFinal ==> row.code in {"REFERRAL_UNAVAILABLE", "AUTH_EMAIL_EXISTS"})
            && (row.state == CompensationRequired ==>
                  row.code == if row.token.Some? then "REGISTER_TRANSACTION_FAILED" else "AUTH_ROLLBACK_FAILED")
  {
    hide Core, WorkersTold;
    InitCore(s);
    NothingTold(s);
    RunTells(s, run);
    assert RowTold(Exec(s, run).intents[id], Exec(s, run).identities);
  }

  lemma NothingTold(s: State)
    requires Init(s)
    ensures Told(s)
  {
  }

  /** A compensation that still owns its intent ends as rolled back if and only if it heard of its
      delete, and otherwise as one still required. */
  lemma DeleteConcludes(s: State, t: Call, deleted: bool, heard: bool)
    requires Owns(s, t) && StepOf(s, t).Deleting? && RowFree(s, t) && Enabled(s, Delete(t, deleted, heard))
    requires var row := s.intents[s.workers[t].phase.id];
             row.token == Some(s.workers[t].phase.token) && row.state == CompensationRequired
    ensures var once, id := Next(s, Delete(t, deleted, heard)), s.workers[t].phase.id;
            && Enabled(once, Mark(t))
            && var done := Next(once, Mark(t));
               && t !in done.workers && done.intents[id].token.None? && done.intents[id].lease.None?
               && (heard ==> StepOf(s, t).user !in done.identities && done.intents[id].state == FailedRetryable
                             && done.intents[id].code == "REGISTER_TRANSACTION_ROLLED_BACK")
               && (!heard ==> done.intents[id].state == CompensationRequired
                              && done.intents[id].code == "AUTH_ROLLBACK_FAILED")
  {
    hide DoLook, DoReclaim, DoProbe, DoRecover, DoRefer, DoFindIdentity, DoCreateIdentity, DoFindAgain, DoAuthClaim,
         DoFence, DoCommit, DoClaimCompensation, DoDelete, DoMark, AnyClash, Clashes, HasAccount, EmailTaken, Found,
         FreshTenant, Held;
    DeletedThenMarked(s, t, deleted, heard);
  }

  lemma DeletedThenMarked(s: State, t: Call, deleted: bool, heard: bool)
    requires Owns(s, t) && StepOf(s, t).Deleting? && RowFree(s, t) && (heard ==> deleted)
    requires var row := s.intents[s.workers[t].phase.id];
             row.token == Some(s.workers[t].phase.token) && row.state == CompensationRequired
    ensures var once, id := DoDelete(s, t, deleted, heard), s.workers[t].phase.id;
            && Owns(once, t) && StepOf(once, t) == Concluding(heard) && RowFree(once, t)
            && var done := DoMark(once, t);
               && t !in done.workers && id in done.intents
               && done.intents[id] == s.intents[id].(
                    state := if heard then FailedRetryable else CompensationRequired,
                    code := if heard then "REGISTER_TRANSACTION_ROLLED_BACK" else "AUTH_ROLLBACK_FAILED",
                    token := None, lease := None, version := s.intents[id].version + 1)
               && (deleted ==> StepOf(s, t).user !in done.identities)
  {
    hide ShortCode;
    CodeStays("AUTH_ROLLBACK_FAILED");
    CodeStays("REGISTER_TRANSACTION_ROLLED_BACK");
    var id, once := s.workers[t].phase.id, DoDelete(s, t, deleted, heard);
    assert forall u :: u in once.workers && u != t ==> once.workers[u] == s.workers[u];
    assert !Held(once.workers, id);
  }
}
