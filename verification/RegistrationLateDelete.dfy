/** Why the delete of a compensation has to reach the provider within its lease. */
module RegistrationLateDelete {
  import opened Wrappers
  import opened Registration

  lemma {:induction false} Extend(s: State, run: seq<Action>, a: Action)
    requires IsRun(s, run) && Enabled(Exec(s, run), a)
    ensures IsRun(s, run + [a]) && Exec(s, run + [a]) == Next(Exec(s, run), a)
    decreases |run|
  {
    hide Enabled, Next;
    if run == [] {
      assert run + [a] == [a];
    } else {
      Extend(Next(s, run[0]), run[1..], a);
      assert (run + [a])[1..] == run[1..] + [a];
    }
  }

  ghost predicate Leads(s: State, s': State) {
    exists run :: IsRun(s, run) && Exec(s, run) == s'
  }

  lemma Then(s: State, m: State, a: Action, e: State)
    requires Leads(s, m) && Enabled(m, a) && Next(m, a) == e
    ensures Leads(s, e)
  {
    hide Enabled, Next;
    var run :| IsRun(s, run) && Exec(s, run) == m;
    Extend(s, run, a);
  }

  const EMPTY: State := State(map[], [], map[], map[], map[], 0, 0)

  /** The address's only intent, and one call that owns it. */
  function Alone(input: Input, row: Intent, at: Step, identities: map<User, Identity>, made: map<User, Id>): State {
    State(map[0 := row], [], identities, made, map[0 := Worker(input, Owner(0, 0, at))], 1, 0)
  }

  /** The first call is about to delete identity 7, its lease over; a second call goes on. */
  function Late(input: Input, row: Intent, tenants: seq<Tenancy>, identities: map<User, Identity>,
      workers: map<Call, Worker>, nextToken: Token): State
  {
    State(map[0 := row], tenants, identities, map[7 := 0], map[0 := Deleter(input)] + workers, nextToken, LEASE_MS)
  }

  function Deleter(input: Input): Worker {
    Worker(input, Owner(0, 0, Deleting(7, LEASE_MS)))
  }

  function Seven(input: Input): map<User, Identity> {
    map[7 := Identity(input.email, Some(0))]
  }

  // The intent as the calls leave it, one after the other.

  function Opened(input: Input): Intent {
    NewIntent(input, 0, 0)
  }

  function Created(input: Input): Intent {
    AuthCreatedRow(Opened(input), 7, 0)
  }

  function Compensating(input: Input): Intent {
    CompensatingRow(Created(input), 0)
  }

  function Taken(input: Input): Intent {
    ReclaimedRow(Compensating(input), 1, LEASE_MS)
  }

  function Adopted(input: Input): Intent {
    AuthCreatedRow(Taken(input), 7, LEASE_MS)
  }

  function Second(input: Input, phase: Phase): map<Call, Worker> {
    map[1 := Worker(input, phase)]
  }

  // ----- one step more

  lemma ByStart(s: State, m: State, t: Call, input: Input)
    requires Leads(s, m) && t !in m.workers
    ensures Leads(s, m.(workers := m.workers[t := Worker(input, Starting)]))
  {
    hide Leads;
    Then(s, m, Start(t, input), m.(workers := m.workers[t := Worker(input, Starting)]));
  }

  lemma ByCreate(s: State, m: State, t: Call, id: Id)
    requires Leads(s, m) && t in m.workers && m.workers[t].phase.Starting? && id !in m.intents
             && !AnyClash(m.intents, m.workers[t].input)
    ensures Leads(s, Takes(m, t, id, NewIntent(m.workers[t].input, m.nextToken, m.now)))
  {
    hide Leads;
    Then(s, m, Create(t, id), Takes(m, t, id, NewIntent(m.workers[t].input, m.nextToken, m.now)));
  }

  lemma ByLook(s: State, m: State, t: Call, id: Id)
    requires Leads(s, m) && t in m.workers && m.workers[t].phase.Starting? && Clashes(m.intents, m.workers[t].input, id)
    ensures Leads(s, DoLook(m, t, id))
  {
    hide Leads;
    Then(s, m, Look(t, id), DoLook(m, t, id));
  }

  lemma ByReclaim(s: State, m: State, t: Call)
    requires Leads(s, m) && t in m.workers && m.workers[t].phase.Reclaiming? && m.workers[t].phase.id in m.intents
             && !Held(m.workers, m.workers[t].phase.id)
    ensures Leads(s, DoReclaim(m, t))
  {
    hide Leads;
    Then(s, m, Reclaim(t), DoReclaim(m, t));
  }

  lemma ByCheckProfile(s: State, m: State, t: Call)
    requires Leads(s, m) && Owns(m, t) && StepOf(m, t).Profile? && m.tenants == []
    ensures Leads(s, Goes(m, t, Lookup))
  {
    hide Leads;
    Then(s, m, CheckProfile(t), Goes(m, t, Lookup));
  }

  lemma ByFindIdentity(s: State, m: State, t: Call, found: Option<User>)
    requires Leads(s, m) && Owns(m, t) && StepOf(m, t).Lookup? && Found(m, t, found)
    ensures Leads(s, DoFindIdentity(m, t, found))
  {
    hide Leads;
    Then(s, m, FindIdentity(t, found), DoFindIdentity(m, t, found));
  }

  lemma ByTransactionFails(s: State, m: State, t: Call)
    requires Leads(s, m) && Owns(m, t) && StepOf(m, t).Ready?
    ensures Leads(s, Goes(m, t, Failed(StepOf(m, t).user)))
  {
    hide Leads;
    Then(s, m, TransactionFails(t), Goes(m, t, Failed(StepOf(m, t).user)));
  }

  lemma ByRefer(s: State, m: State, t: Call)
    requires Leads(s, m) && Owns(m, t) && StepOf(m, t).Referral?
    ensures Leads(s, Goes(m, t, Profile))
  {
    hide Leads;
    Then(s, m, Refer(t, Without), Goes(m, t, Profile));
  }

  lemma ByCreateIdentity(s: State, m: State, t: Call, user: User)
    requires Leads(s, m) && Owns(m, t) && StepOf(m, t).Creating? && Fresh(m, user)
    ensures Leads(s, DoCreateIdentity(m, t, user, true, true, ""))
  {
    hide Leads;
    Then(s, m, CreateIdentity(t, user, true, true, ""), DoCreateIdentity(m, t, user, true, true, ""));
  }

  lemma ByAuthClaim(s: State, m: State, t: Call)
    requires Leads(s, m) && Owns(m, t) && StepOf(m, t).Adopting? && RowFree(m, t)
    ensures Leads(s, DoAuthClaim(m, t, true))
  {
    hide Leads;
    Then(s, m, AuthClaim(t, true), DoAuthClaim(m, t, true));
  }

  lemma ByClaimCompensation(s: State, m: State, t: Call)
    requires Leads(s, m) && Owns(m, t) && StepOf(m, t).Failed? && RowFree(m, t)
    ensures Leads(s, DoClaimCompensation(m, t))
  {
    hide Leads;
    Then(s, m, ClaimCompensation(t), DoClaimCompensation(m, t));
  }

  lemma ByFence(s: State, m: State, t: Call)
    requires Leads(s, m) && Owns(m, t) && StepOf(m, t).Ready? && RowFree(m, t)
    ensures Leads(s, DoFence(m, t))
  {
    hide Leads;
    Then(s, m, Fence(t), DoFence(m, t));
  }

  lemma ByCommit(s: State, m: State, t: Call, tenant: nat)
    requires Leads(s, m) && Owns(m, t) && StepOf(m, t).Fenced? && FreshTenant(m.tenants, tenant)
    ensures Leads(s, DoCommit(m, t, tenant, true))
  {
    hide Leads;
    Then(s, m, Commit(t, tenant, true), DoCommit(m, t, tenant, true));
  }

  // ----- the run

  lemma StartedAlone(input: Input)
    ensures Leads(EMPTY, Alone(input, Opened(input), Creating, map[], map[]))
  {
    hide Leads, Enabled, Next;
    Nowhere();
    ByStart(EMPTY, EMPTY, 0, input);
    var s0 := EMPTY.(workers := map[0 := Worker(input, Starting)]);
    ByCreate(EMPTY, s0, 0, 0);
    var s1 := Alone(input, Opened(input), Referral, map[], map[]);
    assert Takes(s0, 0, 0, Opened(input)) == s1;
    ByRefer(EMPTY, s1, 0);
    var s2 := Alone(input, Opened(input), Profile, map[], map[]);
    assert Goes(s1, 0, Profile) == s2;
    ByCheckProfile(EMPTY, s2, 0);
    var s3 := Alone(input, Opened(input), Lookup, map[], map[]);
    assert Goes(s2, 0, Lookup) == s3;
    ByFindIdentity(EMPTY, s3, 0, None);
    assert DoFindIdentity(s3, 0, None) == Alone(input, Opened(input), Creating, map[], map[]);
  }

  lemma Nowhere()
    ensures Leads(EMPTY, EMPTY)
  {
    assert IsRun(EMPTY, []) && Exec(EMPTY, []) == EMPTY;
  }

  lemma ReachCreated(input: Input)
    ensures Leads(EMPTY, Alone(input, Created(input), Ready(7), Seven(input), map[7 := 0]))
  {
    hide Leads, Enabled, Next;
    StartedAlone(input);
    var s0 := Alone(input, Opened(input), Creating, map[], map[]);
    ByCreateIdentity(EMPTY, s0, 0, 7);
    var s1 := Alone(input, Opened(input), Adopting(7, Some("AUTH_CREATE_FAILED")), Seven(input), map[7 := 0]);
    assert DoCreateIdentity(s0, 0, 7, true, true, "") == s1;
    ByAuthClaim(EMPTY, s1, 0);
    assert DoAuthClaim(s1, 0, true) == Alone(input, Created(input), Ready(7), Seven(input), map[7 := 0]);
  }

  /** The first call's transaction fails, and it claims the compensation. */
  lemma ReachDeleting(input: Input)
    ensures Leads(EMPTY, Alone(input, Compensating(input), Deleting(7, LEASE_MS), Seven(input), map[7 := 0]))
  {
    hide Leads, Enabled, Next;
    ReachCreated(input);
    var s0 := Alone(input, Created(input), Ready(7), Seven(input), map[7 := 0]);
    ByTransactionFails(EMPTY, s0, 0);
    var s1 := Alone(input, Created(input), Failed(7), Seven(input), map[7 := 0]);
    assert Goes(s0, 0, Failed(7)) == s1;
    ByClaimCompensation(EMPTY, s1, 0);
    assert DoClaimCompensation(s1, 0) ==
           Alone(input, Compensating(input), Deleting(7, LEASE_MS), Seven(input), map[7 := 0]);
  }

  lemma Stalls(m: State)
    requires Leads(EMPTY, m)
    ensures Leads(EMPTY, m.(now := m.now + LEASE_MS))
  {
    hide Leads;
    Then(EMPTY, m, Tick(LEASE_MS), m.(now := m.now + LEASE_MS));
  }

  /** It then stalls for a minute, and a second call starts and finds the intent lapsed. */
  lemma ReachSecond(input: Input)
    ensures Leads(EMPTY, Late(input, Compensating(input), [], Seven(input), Second(input, Reclaiming(0)), 1))
  {
    hide Leads, Enabled, Next;
    ReachDeleting(input);
    Stalls(Alone(input, Compensating(input), Deleting(7, LEASE_MS), Seven(input), map[7 := 0]));
    var s0 := Late(input, Compensating(input), [], Seven(input), map[], 1);
    assert Alone(input, Compensating(input), Deleting(7, LEASE_MS), Seven(input), map[7 := 0]).(now := LEASE_MS) == s0;
    ByStart(EMPTY, s0, 1, input);
    var s1 := Late(input, Compensating(input), [], Seven(input), Second(input, Starting), 1);
    assert s0.(workers := s0.workers[1 := Worker(input, Starting)]) == s1;
    ByLook(EMPTY, s1, 1, 0);
    assert DoLook(s1, 1, 0) == Late(input, Compensating(input), [], Seven(input), Second(input, Reclaiming(0)), 1);
  }

  lemma ReachTakeover(input: Input)
    ensures Leads(EMPTY, Late(input, Taken(input), [], Seven(input), Second(input, Owner(0, 1, Profile)), 2))
  {
    hide Leads, Enabled, Next;
    ReachSecond(input);
    var s0 := Late(input, Compensating(input), [], Seven(input), Second(input, Reclaiming(0)), 1);
    ByReclaim(EMPTY, s0, 1);
    var s1 := Late(input, Taken(input), [], Seven(input), Second(input, Owner(0, 1, Referral)), 2);
    assert DoReclaim(s0, 1) == s1;
    ByRefer(EMPTY, s1, 1);
    assert Goes(s1, 1, Profile) == Late(input, Taken(input), [], Seven(input), Second(input, Owner(0, 1, Profile)), 2);
  }

  function AdoptingLate(input: Input): State {
    Late(input, Taken(input), [], Seven(input),
      Second(input, Owner(0, 1, Adopting(7, Some("AUTH_LOOKUP_FAILED_BEFORE_CREATE")))), 2)
  }

  /** The second call finds the identity and adopts it. */
  lemma ReachAdopting(input: Input)
    ensures Leads(EMPTY, AdoptingLate(input))
  {
    hide Leads, Enabled, Next;
    ReachTakeover(input);
    var s0 := Late(input, Taken(input), [], Seven(input), Second(input, Owner(0, 1, Profile)), 2);
    ByCheckProfile(EMPTY, s0, 1);
    var s1 := Late(input, Taken(input), [], Seven(input), Second(input, Owner(0, 1, Lookup)), 2);
    assert Goes(s0, 1, Lookup) == s1;
    ByFindIdentity(EMPTY, s1, 1, Some(7));
    assert DoFindIdentity(s1, 1, Some(7)) == AdoptingLate(input);
  }

  lemma ReachFenced(input: Input)
    ensures Leads(EMPTY, Late(input, Adopted(input), [], Seven(input), Second(input, Owner(0, 1, Fenced(7))), 2))
  {
    hide Leads, Enabled, Next;
    ReachAdopting(input);
    ByAuthClaim(EMPTY, AdoptingLate(input), 1);
    var s1 := Late(input, Adopted(input), [], Seven(input), Second(input, Owner(0, 1, Ready(7))), 2);
    assert DoAuthClaim(AdoptingLate(input), 1, true) == s1;
    ByFence(EMPTY, s1, 1);
    assert DoFence(s1, 1) == Late(input, Adopted(input), [], Seven(input), Second(input, Owner(0, 1, Fenced(7))), 2);
  }

  /** Without the lease's limit on the delete, a run ends with a completed registration that has no
      identity: the stalled delete takes the one that the second call adopted. */
  lemma {:induction false} LateDeleteOrphans(input: Input)
    ensures exists run :: IsRun(EMPTY, run) && !TimelyRun(EMPTY, run)
              && 0 in Exec(EMPTY, run).intents && Exec(EMPTY, run).intents[0].state == Completed
              && Exec(EMPTY, run).intents[0].user == Some(7) && 7 !in Exec(EMPTY, run).identities
  {
    hide Leads, Enabled, Next, IsRun, Exec, TimelyRun;
    ReachFenced(input);
    var fenced := Late(input, Adopted(input), [], Seven(input), Second(input, Owner(0, 1, Fenced(7))), 2);
    ByCommit(EMPTY, fenced, 1, 0);
    var completed := Late(input, CompletedRow(Adopted(input), 7, 0), [Tenancy(0, input.email)], Seven(input), map[], 2);
    assert DoCommit(fenced, 1, 0, true) == completed;
    Untimely(input, completed);
  }

  lemma Untimely(input: Input, completed: State)
    requires Leads(EMPTY, completed) && completed ==
             Late(input, CompletedRow(Adopted(input), 7, 0), [Tenancy(0, input.email)], Seven(input), map[], 2)
    ensures exists run :: IsRun(EMPTY, run) && !TimelyRun(EMPTY, run)
              && 0 in Exec(EMPTY, run).intents && Exec(EMPTY, run).intents[0].state == Completed
              && Exec(EMPTY, run).intents[0].user == Some(7) && 7 !in Exec(EMPTY, run).identities
  {
    var run :| IsRun(EMPTY, run) && Exec(EMPTY, run) == completed;
    hide IsRun, TimelyRun, Exec, Leads;
    Extend(EMPTY, run, Delete(0, true, true));
    LastUntimely(EMPTY, run, Delete(0, true, true));
  }

  lemma {:induction false} LastUntimely(s: State, run: seq<Action>, a: Action)
    requires IsRun(s, run) && Enabled(Exec(s, run), a) && !Timely(Exec(s, run), a)
    ensures IsRun(s, run + [a]) && !TimelyRun(s, run + [a])
    decreases |run|
  {
    hide Enabled, Next, Timely;
    Extend(s, run, a);
    if run == [] {
      assert run + [a] == [a];
    } else {
      assert (run + [a])[1..] == run[1..] + [a];
      LastUntimely(Next(s, run[0]), run[1..], a);
    }
  }
}
