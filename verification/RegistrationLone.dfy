/** A registration call that owns its intent, with nobody else around: each way it can end. */
module RegistrationLone {
  import opened Wrappers
  import opened Registration
  import Late = RegistrationLateDelete

  ghost predicate Leads(s: State, e: State) {
    Late.Leads(s, e)
  }

  lemma Here(s: State)
    ensures Leads(s, s)
  {
    assert IsRun(s, []) && Exec(s, []) == s;
  }

  lemma Then(s: State, m: State, a: Action, e: State)
    requires Leads(s, m) && Enabled(m, a) && Next(m, a) == e
    ensures Leads(s, e)
  {
    hide Enabled, Next;
    Late.Then(s, m, a, e);
  }

  /** The call owns the intent, which has its address, and is the only one. */
  predicate AtWork(s: State, t: Call, at: Step) {
    && s.workers.Keys == {t} && Owns(s, t) && StepOf(s, t) == at
    && RowOf(s, t).token == Some(s.workers[t].phase.token) && RowOf(s, t).email == s.workers[t].input.email
  }

  function RowOf(s: State, t: Call): Intent
    requires Owns(s, t)
  {
    s.intents[s.workers[t].phase.id]
  }

  /** Nothing but the row, its version aside, and the place of the call differ. */
  predicate OnlyMoved(s: State, m: State, t: Call) {
    && Owns(s, t) && Owns(m, t) && m.workers[t] ==
       s.workers[t].(phase := s.workers[t].phase.(at := m.workers[t].phase.at))
    && m.intents == s.intents[s.workers[t].phase.id := RowOf(s, t).(version := RowOf(m, t).version)]
    && m.tenants == s.tenants && m.identities == s.identities && m.made == s.made && m.now == s.now
  }

  /** Whatever the referral, if it is not invalid, the call goes on to the provider. */
  lemma ReferAndCheck(s: State, t: Call, referred: Referred) returns (m: State)
    requires AtWork(s, t, Referral) && RowOf(s, t).state == Claimed && !referred.Invalid?
    requires !HasAccount(s.tenants, s.workers[t].input.email)
    ensures Leads(s, m) && AtWork(m, t, Lookup) && OnlyMoved(s, m, t)
  {
    hide Leads, HasAccount;
    Here(s);
    Referred(s, t, referred);
    var s1 := DoRefer(s, t, referred);
    Then(s, s, Refer(t, referred), s1);
    m := Goes(s1, t, Lookup);
    Then(s, s1, CheckProfile(t), m);
  }

  lemma Referred(s: State, t: Call, referred: Referred)
    requires AtWork(s, t, Referral) && RowOf(s, t).state == Claimed && !referred.Invalid?
    ensures var m := DoRefer(s, t, referred); AtWork(m, t, Profile) && OnlyMoved(s, m, t)
    ensures !Held(s.workers, s.workers[t].phase.id)
  {
  }

  /** The intent's identity: found at the provider, or created there. */
  predicate Found(s: State, t: Call, user: User)
    requires Owns(s, t)
  {
    user in s.identities && s.identities[user] == Identity(s.workers[t].input.email, Some(s.workers[t].phase.id))
  }

  function WithIdentity(s: State, t: Call, user: User): State
    requires Owns(s, t)
  {
    if user in s.identities then s else
    s.(identities := s.identities[user := Identity(s.workers[t].input.email, Some(s.workers[t].phase.id))],
       made := s.made[user := s.workers[t].phase.id])
  }

  lemma Identify(s: State, t: Call, user: User) returns (m: State)
    requires AtWork(s, t, Lookup) && RowOf(s, t).state == Claimed
    requires Found(s, t, user) || (Fresh(s, user) && !EmailTaken(s.identities, s.workers[t].input.email))
    ensures Leads(s, m) && m.workers.Keys == {t} && Owns(m, t) && StepOf(m, t).Adopting? && StepOf(m, t).user == user
    ensures OnlyMoved(WithIdentity(s, t, user), m, t) && m.intents == s.intents
  {
    hide Leads, EmailTaken;
    Here(s);
    if Found(s, t, user) {
      TakenBy(s, user);
      m := Goes(s, t, Adopting(user, Some("AUTH_LOOKUP_FAILED_BEFORE_CREATE")));
      Then(s, s, FindIdentity(t, Some(user)), m);
    } else {
      var s1 := Goes(s, t, Creating);
      Then(s, s, FindIdentity(t, None), s1);
      m := DoCreateIdentity(s1, t, user, true, true, "");
      Then(s, s1, CreateIdentity(t, user, true, true, ""), m);
    }
  }

  lemma TakenBy(s: State, user: User)
    requires user in s.identities
    ensures EmailTaken(s.identities, s.identities[user].email)
  {
  }

  lemma Adopt(s: State, t: Call, user: User) returns (m: State)
    requires s.workers.Keys == {t} && Owns(s, t) && StepOf(s, t).Adopting? && StepOf(s, t).user == user
    requires Current(RowOf(s, t), s.workers[t].phase.token, Claimed)
    ensures Leads(s, m) && AtReady(s, m, t, user)
  {
    hide Leads, Held;
    Here(s);
    Freed(s, t);
    m := DoAuthClaim(s, t, true);
    Then(s, s, AuthClaim(t, true), m);
  }

  lemma Freed(s: State, t: Call)
    requires s.workers.Keys == {t} && Owns(s, t) && !StepOf(s, t).Fenced?
    ensures RowFree(s, t)
  {
  }

  /** The identity is recorded, and nothing else changed. */
  predicate AtReady(s: State, m: State, t: Call, user: User) {
    && Owns(s, t) && Owns(m, t) && m.workers == map[t := s.workers[t].(phase := s.workers[t].phase.(at := Ready(user)))]
    && m.intents == s.intents[s.workers[t].phase.id := AuthCreatedRow(RowOf(s, t), user, s.now)]
    && m.tenants == s.tenants && m.identities == s.identities && m.made == s.made && m.now == s.now
  }

  lemma CommitsAlone(s: State, t: Call, user: User, tenant: nat) returns (e: State)
    requires s.workers.Keys == {t} && Owns(s, t) && StepOf(s, t) == Ready(user) && FreshTenant(s.tenants, tenant)
    requires Current(RowOf(s, t), s.workers[t].phase.token, AuthCreated)
    ensures Leads(s, e) && e.workers == map[] && e.identities == s.identities
    ensures e.tenants == s.tenants + [Tenancy(tenant, s.workers[t].input.email)]
    ensures e.intents == s.intents[s.workers[t].phase.id := CompletedRow(RowOf(s, t), user, tenant)]
  {
    hide Leads, FreshTenant;
    Here(s);
    Freed(s, t);
    var fenced := Goes(s, t, Fenced(user));
    Then(s, s, Fence(t), fenced);
    e := DoCommit(fenced, t, tenant, true);
    Then(s, fenced, Commit(t, tenant, true), e);
    assert e.intents == s.intents[s.workers[t].phase.id := CompletedRow(RowOf(s, t), user, tenant)];
  }

  lemma Joined(s: State, m: State, e: State)
    requires Leads(s, m) && Leads(m, e)
    ensures Leads(s, e)
  {
    var run :| IsRun(s, run) && Exec(s, run) == m;
    var rest :| IsRun(m, rest) && Exec(m, rest) == e;
    RunsJoin(s, run, rest);
  }

  lemma {:induction false} RunsJoin(s: State, run: seq<Action>, rest: seq<Action>)
    requires IsRun(s, run) && IsRun(Exec(s, run), rest)
    ensures IsRun(s, run + rest) && Exec(s, run + rest) == Exec(Exec(s, run), rest)
    decreases |run|
  {
    hide Enabled, Next;
    if run == [] {
      assert run + rest == rest;
    } else {
      RunsJoin(Next(s, run[0]), run[1..], rest);
      assert (run + rest)[1..] == run[1..] + rest;
    }
  }

  /** Undisturbed, with no account and no other identity at its address, whatever its referral unless
      invalid, and whether it finds the identity of an earlier attempt or creates one: the call
      completes its intent with its identity and one tenant. */
  lemma {:induction false} CompletesAlone(s: State, t: Call, referred: Referred, user: User, tenant: nat)
    requires AtWork(s, t, Referral) && RowOf(s, t).state == Claimed && !referred.Invalid?
    requires forall i :: 0 <= i < |s.tenants| ==>
               s.tenants[i].email != s.workers[t].input.email && s.tenants[i].tenant != tenant
    requires Found(s, t, user) || NotYet(s, t, user)
    ensures exists e :: Leads(s, e) && e.workers == map[] && Completes(s, t, user, tenant, e)
  {
    hide Leads, OnlyMoved, Fresh, EmailTaken, FreshTenant, HasAccount, NotYet, Completes;
    NoAccount(s, s.workers[t].input.email, tenant);
    if NotYet(s, t, user) { NotTaken(s, t, user); }
    var m1 := ReferAndCheck(s, t, referred);
    var m2 := IdentifyMoved(s, m1, t, user);
    Joined(s, m1, m2);
    var m3 := AdoptMoved(s, m2, t, user);
    Joined(s, m2, m3);
    var e := CommitMoved(s, m3, t, user, tenant);
    Joined(s, m3, e);
  }

  /** No identity has the address, and the provider never gave this one. */
  predicate NotYet(s: State, t: Call, user: User)
    requires Owns(s, t)
  {
    && user !in s.identities && user !in s.made
    && forall u :: u in s.identities ==> s.identities[u].email != s.workers[t].input.email
  }

  lemma NotTaken(s: State, t: Call, user: User)
    requires Owns(s, t) && NotYet(s, t, user)
    ensures Fresh(s, user) && !EmailTaken(s.identities, s.workers[t].input.email)
  {
  }

  lemma NoAccount(s: State, email: string, tenant: nat)
    requires forall i :: 0 <= i < |s.tenants| ==> s.tenants[i].email != email && s.tenants[i].tenant != tenant
    ensures !HasAccount(s.tenants, email) && FreshTenant(s.tenants, tenant)
  {
  }

  /** The intent is COMPLETED with that identity and tenant, and all other intents, tenants and
      identities are as they were. */
  predicate Completes(s: State, t: Call, user: User, tenant: nat, e: State)
    requires Owns(s, t)
  {
    var id, input := s.workers[t].phase.id, s.workers[t].input;
    && id in e.intents && e.intents == s.intents[id := e.intents[id]]
    && e.intents[id].state == Completed && e.intents[id].user == Some(user) && e.intents[id].tenant == Some(tenant)
    && e.intents[id].email == s.intents[id].email && e.intents[id].key == s.intents[id].key
    && e.intents[id].token.None? && e.intents[id].lease.None?
    && e.tenants == s.tenants + [Tenancy(tenant, input.email)]
    && e.identities == s.identities[user := Identity(input.email, Some(id))]
  }

  lemma IdentifyMoved(s: State, m: State, t: Call, user: User) returns (m': State)
    requires AtWork(s, t, Referral) && RowOf(s, t).state == Claimed && AtWork(m, t, Lookup) && OnlyMoved(s, m, t)
    requires Found(s, t, user) || (Fresh(s, user) && !EmailTaken(s.identities, s.workers[t].input.email))
    ensures Leads(m, m') && Identified(s, m', t, user)
  {
    hide Leads, EmailTaken;
    m' := Identify(m, t, user);
  }

  predicate Identified(s: State, m: State, t: Call, user: User) {
    && Owns(s, t) && m.workers.Keys == {t} && Owns(m, t) && StepOf(m, t).Adopting? && StepOf(m, t).user == user
    && m.workers[t].input == s.workers[t].input && m.workers[t].phase.id == s.workers[t].phase.id
    && Current(RowOf(m, t), m.workers[t].phase.token, Claimed)
    && m.intents == s.intents[s.workers[t].phase.id := RowOf(s, t).(version := RowOf(m, t).version)]
    && m.tenants == s.tenants
    && m.identities == s.identities[user := Identity(s.workers[t].input.email, Some(s.workers[t].phase.id))]
  }

  predicate Recorded(s: State, m: State, t: Call, user: User) {
    && Owns(s, t) && m.workers.Keys == {t} && Owns(m, t) && StepOf(m, t) == Ready(user)
    && m.workers[t].input == s.workers[t].input && m.workers[t].phase.id == s.workers[t].phase.id
    && Current(RowOf(m, t), m.workers[t].phase.token, AuthCreated)
    && RowOf(m, t).email == RowOf(s, t).email && RowOf(m, t).key == RowOf(s, t).key
    && m.intents == s.intents[s.workers[t].phase.id := RowOf(m, t)]
    && m.tenants == s.tenants
    && m.identities == s.identities[user := Identity(s.workers[t].input.email, Some(s.workers[t].phase.id))]
  }

  lemma AdoptMoved(s: State, m: State, t: Call, user: User) returns (m': State)
    requires Identified(s, m, t, user)
    ensures Leads(m, m') && Recorded(s, m', t, user)
  {
    hide Leads;
    m' := Adopt(m, t, user);
  }

  lemma CommitMoved(s: State, m: State, t: Call, user: User, tenant: nat) returns (e: State)
    requires Recorded(s, m, t, user) && FreshTenant(s.tenants, tenant)
    ensures Leads(m, e) && e.workers == map[] && Completes(s, t, user, tenant, e)
  {
    hide Leads, FreshTenant;
    e := CommitsAlone(m, t, user, tenant);
  }

  // ----- the failures

  /** The intent is released as failed, nothing else of it changed but the identity recorded, and
      there is no new tenant. */
  predicate Fails(s: State, t: Call, state: Provisioning, code: string, e: State)
    requires Owns(s, t)
  {
    var id := s.workers[t].phase.id;
    && e.workers == map[] && e.tenants == s.tenants
    && id in e.intents && e.intents == s.intents[id := e.intents[id]]
    && e.intents[id].state == state && e.intents[id].code == code
    && e.intents[id].token.None? && e.intents[id].lease.None? && e.intents[id].tenant == s.intents[id].tenant
    && e.intents[id].email == s.intents[id].email && e.intents[id].key == s.intents[id].key
    && e.intents[id].payload == s.intents[id].payload
  }

  lemma MarksAlone(s: State, m: State, t: Call, at: Step, state: Provisioning, code: string) returns (e: State)
    requires Owns(s, t) && m.workers.Keys == {t} && Owns(m, t) && StepOf(m, t) == at
             && Marking(at) == Some((state, code))
    requires m.workers[t].phase.id == s.workers[t].phase.id && m.tenants == s.tenants && |code| <= 120
    requires Markable(RowOf(m, t), Some(m.workers[t].phase.token)) && RowOf(m, t).tenant == RowOf(s, t).tenant
    requires m.intents == s.intents[s.workers[t].phase.id := RowOf(m, t)]
    requires RowOf(m, t).email == RowOf(s, t).email && RowOf(m, t).key == RowOf(s, t).key
    requires RowOf(m, t).payload == RowOf(s, t).payload
    ensures Leads(m, e) && Fails(s, t, state, code, e) && e.identities == m.identities
  {
    hide Leads, Held;
    Here(m);
    assert !at.Fenced?;
    Freed(m, t);
    e := DoMark(m, t);
    Then(m, m, Mark(t), e);
  }

  /** An invalid referral gives the intent up for good. */
  lemma {:induction false} InvalidReferralFails(s: State, t: Call)
    requires AtWork(s, t, Referral) && RowOf(s, t).state == Claimed
    ensures exists e ::
              Leads(s, e) && Fails(s, t, FailedFinal, "REFERRAL_UNAVAILABLE", e) && e.identities == s.identities
  {
    hide Leads, Held;
    Here(s);
    var m := Goes(s, t, Final("REFERRAL_UNAVAILABLE"));
    Then(s, s, Refer(t, Invalid), m);
    var e := MarksAlone(s, m, t, Final("REFERRAL_UNAVAILABLE"), FailedFinal, "REFERRAL_UNAVAILABLE");
    Joined(s, m, e);
  }

  /** So does an identity of the address that is not the intent's own. */
  lemma {:induction false} ForeignIdentityFails(s: State, t: Call, user: User)
    requires AtWork(s, t, Lookup) && RowOf(s, t).state == Claimed
    requires user in s.identities && s.identities[user].email == s.workers[t].input.email
             && s.identities[user].intent != Some(s.workers[t].phase.id)
    ensures exists e :: Leads(s, e) && Fails(s, t, FailedFinal, "AUTH_EMAIL_EXISTS", e) && e.identities == s.identities
  {
    hide Leads, Held;
    Here(s);
    TakenBy(s, user);
    var m1 := Goes(s, t, Conflicted);
    Then(s, s, FindIdentity(t, Some(user)), m1);
    var m2 := Goes(m1, t, Final("AUTH_EMAIL_EXISTS"));
    Then(s, m1, FindAgain(t, Some(user)), m2);
    var e := MarksAlone(s, m2, t, Final("AUTH_EMAIL_EXISTS"), FailedFinal, "AUTH_EMAIL_EXISTS");
    Joined(s, m2, e);
  }

  /** A failed lookup may be retried. */
  lemma {:induction false} LookupFailureFails(s: State, t: Call)
    requires AtWork(s, t, Lookup) && RowOf(s, t).state == Claimed
    ensures exists e :: Leads(s, e) && e.identities == s.identities
                        && Fails(s, t, FailedRetryable, "AUTH_LOOKUP_FAILED_BEFORE_CREATE", e)
  {
    hide Leads, Held;
    Here(s);
    var m := Goes(s, t, Retry("AUTH_LOOKUP_FAILED_BEFORE_CREATE"));
    Then(s, s, LookupFails(t), m);
    var e := MarksAlone(s, m, t, Retry("AUTH_LOOKUP_FAILED_BEFORE_CREATE"), FailedRetryable,
                        "AUTH_LOOKUP_FAILED_BEFORE_CREATE");
    Joined(s, m, e);
  }

  /** So may a failed creation, under the provider's code, whether or not it created the identity. */
  lemma {:induction false} CreationFailureFails(s: State, t: Call, user: User, created: bool, code: string)
    requires AtWork(s, t, Creating) && RowOf(s, t).state == Claimed && code in CREATE_FAILURES
    requires NotYet(s, t, user)
    ensures exists e :: Leads(s, e) && Fails(s, t, FailedRetryable, code, e)
                        && (user in e.identities <==> created)
  {
    hide Leads, Held, EmailTaken, NotYet;
    NotTaken(s, t, user);
    Here(s);
    var m := DoCreateIdentity(s, t, user, created, false, code);
    Then(s, s, CreateIdentity(t, user, created, false, code), m);
    var e := MarksAlone(s, m, t, Retry(code), FailedRetryable, code);
    Joined(s, m, e);
  }

  lemma ClaimsCompensation(s: State, t: Call, user: User) returns (m: State)
    requires AtWork(s, t, Ready(user)) && RowOf(s, t).state == AuthCreated
    ensures Leads(s, m) && AtWork(m, t, Deleting(user, s.now + LEASE_MS))
            && RowOf(m, t) == CompensatingRow(RowOf(s, t), s.now)
    ensures m.workers[t].phase.id == s.workers[t].phase.id && m.tenants == s.tenants && m.identities == s.identities
    ensures m.intents == s.intents[s.workers[t].phase.id := RowOf(m, t)]
  {
    hide Leads, Held;
    Here(s);
    var failed := Goes(s, t, Failed(user));
    Then(s, s, TransactionFails(t), failed);
    Freed(failed, t);
    m := DoClaimCompensation(failed, t);
    Then(s, failed, ClaimCompensation(t), m);
  }

  lemma DeletesAlone(s: State, t: Call, user: User, deadline: int, deleted: bool, heard: bool) returns (m: State)
    requires AtWork(s, t, Deleting(user, deadline)) && (heard ==> deleted)
    ensures Leads(s, m) && AtWork(m, t, Concluding(heard)) && RowOf(m, t) == RowOf(s, t) && m.intents == s.intents
    ensures m.workers[t].phase.id == s.workers[t].phase.id && m.tenants == s.tenants
    ensures m.identities == if deleted then s.identities - {user} else s.identities
  {
    hide Leads;
    Here(s);
    m := DoDelete(s, t, deleted, heard);
    Then(s, s, Delete(t, deleted, heard), m);
  }

  /** When the transaction fails, the identity is deleted and the intent rolled back if the delete is
      heard of; otherwise compensation stays required. */
  lemma {:induction false} TransactionFailureFails(s: State, t: Call, user: User, deleted: bool, heard: bool)
    requires AtWork(s, t, Ready(user)) && RowOf(s, t).state == AuthCreated && (heard ==> deleted)
    ensures exists e :: Leads(s, e) && e.identities == (if deleted then s.identities - {user} else s.identities)
              && if heard then Fails(s, t, FailedRetryable, "REGISTER_TRANSACTION_ROLLED_BACK", e)
                 else Fails(s, t, CompensationRequired, "AUTH_ROLLBACK_FAILED", e)
  {
    hide Leads, Fails;
    var m1 := ClaimsCompensation(s, t, user);
    var m2 := DeletesAlone(m1, t, user, s.now + LEASE_MS, deleted, heard);
    Joined(s, m1, m2);
    var state := if heard then FailedRetryable else CompensationRequired;
    var code := if heard then "REGISTER_TRANSACTION_ROLLED_BACK" else "AUTH_ROLLBACK_FAILED";
    var e := MarksAlone(s, m2, t, Concluding(heard), state, code);
    Joined(s, m2, e);
  }
}
