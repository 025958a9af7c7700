/** What registration guarantees over whole runs. */
module RegistrationTheorems {
  import opened Wrappers
  import opened Registration
  import opened RegistrationCore
  import opened RegistrationCompensation

  lemma {:induction false} RunCore(s: State, run: seq<Action>)
    requires Core(s) && IsRun(s, run)
    ensures Core(Exec(s, run))
    decreases |run|
  {
    hide Core, Enabled, Next;
    if run != [] {
      StepCore(s, run[0]);
      RunCore(Next(s, run[0]), run[1..]);
    }
  }

  lemma InitCore(s: State)
    requires Init(s)
    ensures Core(s) && Kept(s)
  {
  }

  /** An intent owns a tenant exactly when it is COMPLETED, every tenant has such an intent of the
      same address, and no address has two. */
  lemma {:induction false} TenantExactlyWhenCompleted(s: State, run: seq<Action>)
    requires Init(s) && IsRun(s, run)
    ensures var now := Exec(s, run);
            && (forall id :: id in now.intents ==>
               (now.intents[id].tenant.Some? <==> now.intents[id].state == Completed))
            && (forall id :: id in now.intents && now.intents[id].state == Completed ==>
                  Tenancy(now.intents[id].tenant.value, now.intents[id].email) in now.tenants)
            && (forall i :: 0 <= i < |now.tenants| ==> HasOwner(now.intents, now.tenants[i]))
            && (forall i, j :: 0 <= i < j < |now.tenants| ==> now.tenants[i].email != now.tenants[j].email)
  {
    InitCore(s);
    RunCore(s, run);
    hide WorkersOk, IdentitiesOk, HasOwner;
  }

  lemma {:induction false} RunKept(s: State, run: seq<Action>)
    requires Core(s) && Kept(s) && IsRun(s, run) && TimelyRun(s, run)
    ensures Kept(Exec(s, run))
    decreases |run|
  {
    hide Core, Kept, Enabled, Next, Timely;
    if run != [] {
      StepCore(s, run[0]);
      StepKept(s, run[0]);
      RunKept(Next(s, run[0]), run[1..]);
    }
  }

  // ----- what a step may do to an intent

  /** A settled intent does not change at all, and a token is only ever replaced by a new one. */
  predicate Evolves(before: Intent, after: Intent, nextToken: Token) {
    && after.email == before.email && after.key == before.key
    && (before.state in {Completed, FailedFinal} ==> after == before)
    && (after.token.Some? ==> after.token == before.token || after.token.value >= nextToken)
  }

  predicate Claims(a: Action) {
    a.Create? || a.Reclaim? || a.Recover?
  }

  predicate OwnerWrites(a: Action) {
    a.Refer? || a.AuthClaim? || a.Mark? || a.Commit? || a.ClaimCompensation?
  }

  lemma OthersKeepIntents(s: State, a: Action)
    requires Enabled(s, a) && !Claims(a) && !OwnerWrites(a)
    ensures Next(s, a).intents == s.intents && Next(s, a).nextToken == s.nextToken
  {
    hide HasAccount, EmailTaken, AnyClash, FreshTenant, Held, Found, Fresh, DoLook, DoProbe, DoFindIdentity,
         DoCreateIdentity, DoFindAgain, DoFence, DoDelete, DoReclaim, DoRecover, DoRefer, DoAuthClaim, DoMark, DoCommit,
         DoClaimCompensation;
  }

  lemma ClaimsEvolve(s: State, a: Action, id: Id)
    requires Enabled(s, a) && Claims(a) && id in s.intents && RowOk(s.intents[id], id, s.nextToken, s.made)
    ensures id in Next(s, a).intents && Evolves(s.intents[id], Next(s, a).intents[id], s.nextToken)
    ensures s.nextToken <= Next(s, a).nextToken
  {
    hide AnyClash, Held, DoLook, DoProbe, DoRefer, DoFindIdentity, DoCreateIdentity, DoFindAgain, DoAuthClaim, DoMark,
         DoFence, DoCommit, DoClaimCompensation, DoDelete;
  }

  /** What an owner writes, whatever the step: nothing unless its token is the row's, and then no new token. */
  lemma OwnerWriteEvolves(s: State, t: Call, id: Id)
    requires Owns(s, t) && id in s.intents && RowOk(s.intents[id], id, s.nextToken, s.made)
    ensures forall referred :: Evolves(s.intents[id], DoRefer(s, t, referred).intents[id], s.nextToken)
    ensures Marking(StepOf(s, t)).Some? ==> Evolves(s.intents[id], DoMark(s, t).intents[id], s.nextToken)
    ensures StepOf(s, t).Failed? ==> Evolves(s.intents[id], DoClaimCompensation(s, t).intents[id], s.nextToken)
  {
    hide Held;
  }

  lemma ClaimedEvolves(s: State, t: Call, heard: bool, id: Id)
    requires Owns(s, t) && StepOf(s, t).Adopting? && id in s.intents && RowOk(s.intents[id], id, s.nextToken, s.made)
    ensures Evolves(s.intents[id], DoAuthClaim(s, t, heard).intents[id], s.nextToken)
  {
  }

  lemma CommittedEvolves(s: State, t: Call, tenant: nat, heard: bool, id: Id)
    requires Core(s) && Owns(s, t) && StepOf(s, t).Fenced? && id in s.intents
    ensures Evolves(s.intents[id], DoCommit(s, t, tenant, heard).intents[id], s.nextToken)
  {
    hide Core;
    CommitReady(s, t);
  }

  lemma OwnersEvolve(s: State, a: Action, id: Id)
    requires Core(s) && Enabled(s, a) && OwnerWrites(a) && id in s.intents
             && RowOk(s.intents[id], id, s.nextToken, s.made)
    ensures id in Next(s, a).intents && Evolves(s.intents[id], Next(s, a).intents[id], s.nextToken)
    ensures s.nextToken == Next(s, a).nextToken
  {
    hide Core, FreshTenant, Held, Fresh, RowOk, Evolves, ReclaimedRow, RecoveredRow, AuthCreatedRow, CompletedRow,
         CompensatingRow, MarkedRow, DoLook, DoReclaim, DoProbe, DoRecover, DoFindIdentity, DoCreateIdentity,
         DoFindAgain, DoFence, DoDelete;
    if a.AuthClaim? {
      ClaimedEvolves(s, a.t, a.heard, id);
    } else if a.Commit? {
      CommittedEvolves(s, a.t, a.tenant, a.heard, id);
    } else {
      OwnerWriteEvolves(s, a.t, id);
    }
  }

  lemma StepEvolves(s: State, a: Action, id: Id)
    requires Core(s) && Enabled(s, a) && id in s.intents
    ensures id in Next(s, a).intents && Evolves(s.intents[id], Next(s, a).intents[id], s.nextToken)
    ensures s.nextToken <= Next(s, a).nextToken
  {
    hide Core, Enabled, Next, RowOk;
    IntentFacts(s, id);
    if Claims(a) { ClaimsEvolve(s, a, id); }
    else if OwnerWrites(a) { OwnersEvolve(s, a, id); }
    else { OthersKeepIntents(s, a); }
  }

  lemma IntentFacts(s: State, id: Id)
    requires Core(s) && id in s.intents
    ensures RowOk(s.intents[id], id, s.nextToken, s.made)
  {
  }

  lemma {:induction false} RunEvolves(s: State, run: seq<Action>, id: Id)
    requires Core(s) && IsRun(s, run) && id in s.intents
    ensures id in Exec(s, run).intents && Evolves(s.intents[id], Exec(s, run).intents[id], s.nextToken)
    ensures s.nextToken <= Exec(s, run).nextToken
    decreases |run|
  {
    hide Core, Enabled, Next;
    if run != [] {
      StepCore(s, run[0]);
      StepEvolves(s, run[0], id);
      RunEvolves(Next(s, run[0]), run[1..], id);
    }
  }

  /** COMPLETED and FAILED_FINAL intents never change again. */
  lemma {:induction false} SettledForGood(s: State, before: seq<Action>, after: seq<Action>, id: Id)
    requires Init(s) && IsRun(s, before) && IsRun(Exec(s, before), after)
    requires id in Exec(s, before).intents && Exec(s, before).intents[id].state in {Completed, FailedFinal}
    ensures id in Exec(Exec(s, before), after).intents
    ensures Exec(Exec(s, before), after).intents[id] == Exec(s, before).intents[id]
  {
    InitCore(s);
    RunCore(s, before);
    RunEvolves(Exec(s, before), after, id);
  }

  // ----- a completed registration has its identity

  /** What the provider holds for an intent has the intent's address and mark. */
  ghost predicate Marked(s: State) {
    forall u :: u in s.identities && u in s.made ==>
      && s.made[u] in s.intents
      && s.identities[u] == Identity(s.intents[s.made[u]].email, Some(s.made[u]))
  }

  /** Only the call that creates an identity, or deletes its own, and the world outside change any. */
  lemma IdentitiesFrom(s: State, a: Action, u: User)
    requires Core(s) && Enabled(s, a) && u in Next(s, a).identities && u in Next(s, a).made
    ensures || (u in s.identities && u in s.made && Next(s, a).identities[u] == s.identities[u]
                && Next(s, a).made[u] == s.made[u])
            || (a.CreateIdentity? && Owns(s, a.t) && Next(s, a).made[u] == s.workers[a.t].phase.id
                && Next(s, a).identities[u] == Identity(s.workers[a.t].input.email, Some(s.workers[a.t].phase.id)))
  {
    hide Core, HasAccount, EmailTaken, AnyClash, FreshTenant, Held, Found, Judge, Claims, DoLook, DoProbe, DoRefer,
         DoFindIdentity, DoFindAgain, DoAuthClaim, DoMark, DoFence, DoCommit, DoClaimCompensation, DoReclaim, DoRecover;
    if !a.CreateIdentity? && !a.Delete? && !a.Outside? {
      if Early(a) {
        EarlyKeepsIdentities(s, a);
      } else if Late(a) {
        LateKeepsIdentities(s, a);
      } else {
        OtherKeepsIdentities(s, a);
      }
    }
  }

  lemma EarlyKeepsIdentities(s: State, a: Action)
    requires Enabled(s, a) && Early(a) && !a.CreateIdentity?
    ensures Next(s, a).identities == s.identities && Next(s, a).made == s.made
  {
    hide HasAccount, EmailTaken, AnyClash, Held, Found, Fresh, DoLook, DoReclaim, DoProbe, DoRecover, DoAuthClaim,
         DoMark, DoFence, DoCommit, DoClaimCompensation, DoDelete;
  }

  lemma LateKeepsIdentities(s: State, a: Action)
    requires Enabled(s, a) && Late(a) && !a.Delete?
    ensures Next(s, a).identities == s.identities && Next(s, a).made == s.made
  {
    hide HasAccount, EmailTaken, AnyClash, FreshTenant, Held, Fresh, DoLook, DoReclaim, DoProbe, DoRecover, DoRefer,
         DoFindIdentity, DoCreateIdentity, DoFindAgain, MarkedRow, CompletedRow, AuthCreatedRow, CompensatingRow;
  }

  lemma OtherKeepsIdentities(s: State, a: Action)
    requires Enabled(s, a) && !Early(a) && !Late(a) && !a.Outside?
    ensures Next(s, a).identities == s.identities && Next(s, a).made == s.made
  {
    hide HasAccount, EmailTaken, AnyClash, Held, Judge, DoRefer, DoFindIdentity, DoCreateIdentity, DoFindAgain,
         DoAuthClaim, DoMark, DoFence, DoCommit, DoClaimCompensation, DoDelete, ReclaimedRow, RecoveredRow;
  }

  lemma StepMarked(s: State, a: Action)
    requires Core(s) && Marked(s) && Enabled(s, a)
    ensures Marked(Next(s, a))
  {
    forall u | u in Next(s, a).identities && u in Next(s, a).made
      ensures Next(s, a).made[u] in Next(s, a).intents
      ensures Next(s, a).identities[u] ==
              Identity(Next(s, a).intents[Next(s, a).made[u]].email, Some(Next(s, a).made[u]))
    {
      hide Core, Enabled, Next;
      IdentitiesFrom(s, a, u);
      if a.CreateIdentity? && Owns(s, a.t) { OwnAddress(s, a.t); }
      StepEvolves(s, a, Next(s, a).made[u]);
    }
  }

  lemma OwnAddress(s: State, t: Call)
    requires Core(s) && Owns(s, t)
    ensures s.intents[s.workers[t].phase.id].email == s.workers[t].input.email
  {
    hide RowsOk, TenantsOk, IdentitiesOk, TokensDiffer;
    assert WorkerOk(s.intents, s.made, s.nextToken, s.workers[t]);
  }

  lemma {:induction false} RunMarked(s: State, run: seq<Action>)
    requires Core(s) && Marked(s) && IsRun(s, run)
    ensures Marked(Exec(s, run))
    decreases |run|
  {
    hide Core, Marked, Enabled, Next;
    if run != [] {
      StepCore(s, run[0]);
      StepMarked(s, run[0]);
      RunMarked(Next(s, run[0]), run[1..]);
    }
  }

  /** With timely deletes, every completed registration has its identity at the provider, with its
      address and mark, even when its commit was reported as an error. */
  lemma {:induction false} CompletedKeepsIdentity(s: State, run: seq<Action>, id: Id)
    requires Init(s) && IsRun(s, run) && TimelyRun(s, run)
    requires id in Exec(s, run).intents && Exec(s, run).intents[id].state == Completed
    ensures var now := Exec(s, run);
            && now.intents[id].user.Some? && now.intents[id].user.value in now.identities
            && now.identities[now.intents[id].user.value] == Identity(now.intents[id].email, Some(id))
            && now.intents[id].user.value in now.made && now.made[now.intents[id].user.value] == id
  {
    InitCore(s);
    RunCore(s, run);
    RunKept(s, run);
    RunMarked(s, run);
    hide WorkersOk, IdentitiesOk, TenantsOk, WorkersKept;
    assert RowOk(Exec(s, run).intents[id], id, Exec(s, run).nextToken, Exec(s, run).made);
  }

  // ----- a call whose token was replaced

  /** The action is a step of a call that owns, or owned, the intent under the token. */
  predicate Under(s: State, a: Action, id: Id, token: Token) {
    && !a.Tick? && !a.Outside? && Owns(s, a.t)
    && s.workers[a.t].phase.id == id && s.workers[a.t].phase.token == token
  }

  lemma ReplacedStepInert(s: State, a: Action, id: Id, token: Token)
    requires Core(s) && Enabled(s, a) && Under(s, a, id, token) && s.intents[id].token != Some(token)
    ensures Next(s, a).intents == s.intents && Next(s, a).tenants == s.tenants
  {
    hide Core, HasAccount, EmailTaken, AnyClash, FreshTenant, Held, Found, Fresh;
    if a.Commit? { CommitReady(s, a.t); }
  }

  /** Once a token was replaced, no step under it changes any intent or tenant, then or ever. */
  lemma {:induction false} ReplacedTokenIsInert(s: State, run: seq<Action>, a: Action, id: Id, token: Token)
    requires Core(s) && id in s.intents && token < s.nextToken && s.intents[id].token != Some(token)
    requires IsRun(s, run) && Enabled(Exec(s, run), a) && Under(Exec(s, run), a, id, token)
    ensures Next(Exec(s, run), a).intents == Exec(s, run).intents
            && Next(Exec(s, run), a).tenants == Exec(s, run).tenants
  {
    hide Core, Enabled, Next;
    RunCore(s, run);
    RunEvolves(s, run, id);
    ReplacedStepInert(Exec(s, run), a, id, token);
  }

  // ----- the order of a call's steps

  predicate Follows(before: Step, after: Step) {
    match before
    case Referral => after.Profile? || after.Final?
    case Profile => after.Lookup?
    case Lookup => after.Creating? || after.Adopting? || after.Conflicted? || after.Retry?
    case Creating => after.Adopting? || after.Conflicted? || after.Retry?
    case Conflicted => after.Adopting? || after.Final?
    case Adopting(user, _) => after == Ready(user) || after.Retry?
    case Ready(user) => after == Fenced(user) || after == Failed(user)
    case Fenced(user) => after == Failed(user)
    case Failed(user) => after.Deleting? && after.user == user
    case Deleting(_, _) => after.Concluding?
    case _ => false
  }

  predicate Early(a: Action) {
    a.Refer? || a.CheckProfile? || a.FindIdentity? || a.LookupFails? || a.CreateIdentity? || a.FindAgain?
  }

  predicate Late(a: Action) {
    || a.AuthClaim? || a.Mark? || a.Fence? || a.TransactionFails? || a.Commit? || a.ClaimCompensation? || a.Delete?
  }

  ghost predicate InOrder(s: State, s': State, t: Call) {
    Owns(s, t) && t in s'.workers ==>
      && Owns(s', t) && s'.workers[t].phase.id == s.workers[t].phase.id
      && (StepOf(s', t) == StepOf(s, t) || Follows(StepOf(s, t), StepOf(s', t)))
  }

  /** A step of an owner moves nobody else. */
  lemma EarlyMovesOne(s: State, a: Action)
    requires Enabled(s, a) && Early(a)
    ensures Owns(s, a.t) && forall t :: t != a.t && t in Next(s, a).workers ==>
                              t in s.workers && Next(s, a).workers[t] == s.workers[t]
  {
    hide HasAccount, EmailTaken, AnyClash, Held, Found, Fresh, DoLook, DoReclaim, DoProbe, DoRecover, DoAuthClaim,
         DoMark, DoFence, DoCommit, DoClaimCompensation, DoDelete;
  }

  lemma EarlyKeepsIntents(s: State, a: Action, id: Id)
    requires Enabled(s, a) && Early(a)
    ensures id in Next(s, a).intents <==> id in s.intents
  {
    hide HasAccount, EmailTaken, AnyClash, Held, Found, Fresh, DoLook, DoReclaim, DoProbe, DoRecover, DoAuthClaim,
         DoMark, DoFence, DoCommit, DoClaimCompensation, DoDelete;
  }

  lemma EarlyGoes(s: State, a: Action)
    requires Enabled(s, a) && Early(a)
    ensures InOrder(s, Next(s, a), a.t)
  {
    hide HasAccount, EmailTaken, AnyClash, Held, Found, Fresh, DoLook, DoReclaim, DoProbe, DoRecover, DoAuthClaim,
         DoMark, DoFence, DoCommit, DoClaimCompensation, DoDelete;
  }

  lemma EarlyInOrder(s: State, a: Action, t: Call)
    requires Enabled(s, a) && Early(a) && Owns(s, t)
    ensures InOrder(s, Next(s, a), t)
  {
    hide Enabled, Next, Follows;
    if t == a.t {
      EarlyGoes(s, a);
    } else {
      EarlyMovesOne(s, a);
      EarlyKeepsIntents(s, a, s.workers[t].phase.id);
    }
  }

  lemma LateMovesOne(s: State, a: Action)
    requires Enabled(s, a) && Late(a)
    ensures Owns(s, a.t) && forall t :: t != a.t && t in Next(s, a).workers ==>
                              t in s.workers && Next(s, a).workers[t] == s.workers[t]
  {
    hide HasAccount, EmailTaken, AnyClash, FreshTenant, Held, Fresh, DoLook, DoReclaim, DoProbe, DoRecover, DoRefer,
         DoFindIdentity, DoCreateIdentity, DoFindAgain, MarkedRow, CompletedRow, AuthCreatedRow, CompensatingRow;
  }

  lemma LateKeepsIntents(s: State, a: Action, id: Id)
    requires Enabled(s, a) && Late(a)
    ensures id in Next(s, a).intents <==> id in s.intents
  {
    hide HasAccount, EmailTaken, AnyClash, FreshTenant, Held, Fresh, DoLook, DoReclaim, DoProbe, DoRecover, DoRefer,
         DoFindIdentity, DoCreateIdentity, DoFindAgain, MarkedRow, CompletedRow, AuthCreatedRow, CompensatingRow;
  }

  lemma LateGoes(s: State, a: Action)
    requires Enabled(s, a) && Late(a)
    ensures InOrder(s, Next(s, a), a.t)
  {
    hide HasAccount, EmailTaken, AnyClash, FreshTenant, Held, Fresh, DoLook, DoReclaim, DoProbe, DoRecover, DoRefer,
         DoFindIdentity, DoCreateIdentity, DoFindAgain, MarkedRow, CompletedRow, AuthCreatedRow, CompensatingRow;
  }

  lemma LateInOrder(s: State, a: Action, t: Call)
    requires Enabled(s, a) && Late(a) && Owns(s, t)
    ensures InOrder(s, Next(s, a), t)
  {
    hide Enabled, Next, Follows;
    if t == a.t {
      LateGoes(s, a);
    } else {
      LateMovesOne(s, a);
      LateKeepsIntents(s, a, s.workers[t].phase.id);
    }
  }

  lemma OtherInOrder(s: State, a: Action, t: Call)
    requires Enabled(s, a) && !Early(a) && !Late(a) && Owns(s, t)
    ensures InOrder(s, Next(s, a), t)
  {
    hide HasAccount, EmailTaken, AnyClash, Held, Judge, DoRefer, DoFindIdentity, DoCreateIdentity, DoFindAgain,
         DoAuthClaim, DoMark, DoFence, DoCommit, DoClaimCompensation, DoDelete, ReclaimedRow, RecoveredRow;
  }

  /** The owner of an intent takes its steps in this order, and keeps its intent. */
  lemma StepsInOrder(s: State, a: Action, t: Call)
    requires Enabled(s, a) && Owns(s, t) && t in Next(s, a).workers
    ensures Owns(Next(s, a), t) && Next(s, a).workers[t].phase.id == s.workers[t].phase.id
    ensures var before, after := StepOf(s, t), StepOf(Next(s, a), t); after == before || Follows(before, after)
  {
    hide Enabled, Next, Follows;
    if Early(a) {
      EarlyInOrder(s, a, t);
    } else if Late(a) {
      LateInOrder(s, a, t);
    } else {
      OtherInOrder(s, a, t);
    }
  }

  // ----- no unsettled intent is ever stuck

  /** Some run leads to a call with the same data that owns the intent. */
  ghost predicate CanBeClaimed(s: State, id: Id, input: Input) {
    exists run, t :: IsRun(s, run) && OwnerNow(Exec(s, run), t, id, input)
  }

  predicate OwnerNow(s: State, t: Call, id: Id, input: Input) {
    && t in s.workers && s.workers[t].input == input && s.workers[t].phase.Owner? && s.workers[t].phase.id == id
    && id in s.intents && Current(s.intents[id], s.workers[t].phase.token, Claimed)
  }

  lemma {:induction false} OneStepEarlier(s: State, a: Action, id: Id, input: Input)
    requires Enabled(s, a) && CanBeClaimed(Next(s, a), id, input)
    ensures CanBeClaimed(s, id, input)
  {
    hide Enabled, Next, OwnerNow;
    var run, t :| IsRun(Next(s, a), run) && OwnerNow(Exec(Next(s, a), run), t, id, input);
    assert ([a] + run)[0] == a && ([a] + run)[1..] == run;
    assert IsRun(s, [a] + run) && OwnerNow(Exec(s, [a] + run), t, id, input);
  }

  ghost function AboveAll(ks: set<nat>): (r: nat)
    ensures forall k :: k in ks ==> k < r
  {
    if ks == {} then 0 else
    var k :| k in ks;
    var r := AboveAll(ks - {k});
    assert ks == ks - {k} + {k};
    if r > k then r else k + 1
  }

  lemma ReclaimNow(s: State, t: Call, id: Id)
    requires Enabled(s, Reclaim(t)) && s.workers[t].phase.id == id && Reclaimable(s.intents[id], s.now)
    ensures CanBeClaimed(s, id, s.workers[t].input)
  {
    hide CanBeClaimed, Held;
    var s' := DoReclaim(s, t);
    ClaimedNow(s', t, id, s.workers[t].input);
    OneStepEarlier(s, Reclaim(t), id, s.workers[t].input);
  }

  lemma ClaimedNow(s: State, t: Call, id: Id, input: Input)
    requires OwnerNow(s, t, id, input)
    ensures CanBeClaimed(s, id, input)
  {
    hide OwnerNow;
    assert IsRun(s, []) && Exec(s, []) == s;
  }

  /** With the lease lapsed and no transaction at the row: start, look it up, claim it. */
  lemma ClaimLapsed(s: State, id: Id, input: Input)
    requires id in s.intents && Reclaimable(s.intents[id], s.now) && !Held(s.workers, id)
    requires s.intents[id].email == input.email && s.intents[id].key == input.key
             && s.intents[id].payload == input.payload
    ensures CanBeClaimed(s, id, input)
  {
    hide CanBeClaimed;
    var t := AboveAll(s.workers.Keys);
    var started := s.(workers := s.workers[t := Worker(input, Starting)]);
    var looked := started.(workers := s.workers[t := Worker(input, Reclaiming(id))]);
    assert looked.workers == started.workers[t := Worker(input, Reclaiming(id))];
    assert DoLook(started, t, id) == looked;
    assert !Held(looked.workers, id);
    ReclaimNow(looked, t, id);
    OneStepEarlier(started, Look(t, id), id, input);
    OneStepEarlier(s, Start(t, input), id, input);
  }

  lemma ClaimLater(s: State, id: Id, input: Input)
    requires id in s.intents && s.intents[id].state !in {Completed, FailedFinal} && !Held(s.workers, id)
    requires s.intents[id].email == input.email && s.intents[id].key == input.key
             && s.intents[id].payload == input.payload
    ensures CanBeClaimed(s, id, input)
  {
    hide CanBeClaimed, Held;
    var lease := s.intents[id].lease;
    var ms := if lease.Some? && lease.value > s.now then lease.value - s.now else 0;
    var later := s.(now := s.now + ms);
    assert Lapsed(lease, later.now);
    var state := s.intents[id].state;
    assert state.Claimed? || state.AuthCreated? || state.Unknown? || state.CompensationRequired?
           || state.FailedRetryable?;
    ClaimLapsed(later, id, input);
    OneStepEarlier(s, Tick(ms), id, input);
  }

  lemma FreedByCrash(s: State, u: Call, id: Id)
    requires Core(s) && Owns(s, u) && StepOf(s, u).Fenced? && s.workers[u].phase.id == id
    ensures !Held(Stops(s, u).workers, id)
  {
    hide RowsOk, TenantsOk, IdentitiesOk;
    forall t | t in s.workers && t != u && s.workers[t].phase.Owner? && s.workers[t].phase.at.Fenced?
      ensures s.workers[t].phase.id != id
    {
      assert WorkerOk(s.intents, s.made, s.nextToken, s.workers[t])
             && WorkerOk(s.intents, s.made, s.nextToken, s.workers[u]);
      assert TokensDiffer(s.workers);
    }
  }

  /** Wherever calls crashed, compensation included: an intent that is not settled can be claimed by
      a later call with the same address, key and payload, once its lease lapsed. */
  lemma {:induction false} NeverStuck(s: State, run: seq<Action>, id: Id, input: Input)
    requires Init(s) && IsRun(s, run)
    requires id in Exec(s, run).intents && Exec(s, run).intents[id].state !in {Completed, FailedFinal}
    requires var row := Exec(s, run).intents[id];
             row.email == input.email && row.key == input.key && row.payload == input.payload
    ensures CanBeClaimed(Exec(s, run), id, input)
  {
    hide Core, Kept, CanBeClaimed;
    InitCore(s);
    RunCore(s, run);
    var here := Exec(s, run);
    if Held(here.workers, id) {
      var u :| u in here.workers && here.workers[u].phase.Owner? && here.workers[u].phase.at.Fenced?
        && here.workers[u].phase.id == id;
      FreedByCrash(here, u, id);
      ClaimLater(Stops(here, u), id, input);
      OneStepEarlier(here, Crash(u), id, input);
    } else {
      ClaimLater(here, id, input);
    }
  }
}
