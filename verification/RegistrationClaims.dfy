/** Claiming an intent: who gets it, when, and what becomes of its row. */
module RegistrationClaims {
  import opened Wrappers
  import opened Registration
  import opened RegistrationCore
  import opened RegistrationTheorems

  // ----- what each statement decides

  /** The lease is over, or there is none. */
  predicate Over(row: Intent, now: int) {
    row.lease.None? || row.lease.value <= now
  }

  /** Nobody settled the intent. */
  predicate Unsettled(row: Intent) {
    row.state !in {Completed, FailedFinal}
  }

  /** A failure after which nothing of the attempt is left. */
  predicate SafelyFailed(row: Intent) {
    && row.state == FailedRetryable && row.token.None? && row.tenant.None?
    && row.code in {"AUTH_LOOKUP_FAILED_BEFORE_CREATE", "REGISTER_TRANSACTION_ROLLED_BACK", "password_policy",
                    "rate_limited"}
  }

  /** The intent a call finds has its address or its key. With its address and its data the call goes on
      to claim it if it is unsettled and not leased; with other data it goes on to recover it only from a
      safe failure; otherwise it stops. */
  lemma LookMeans(s: State, t: Call, id: Id)
    requires Enabled(s, Look(t, id))
    ensures var row, input, next := s.intents[id], s.workers[t].input, Next(s, Look(t, id));
            && (row.email == input.email || row.key == input.key)
            && next == s.(workers := next.workers)
            && next.workers ==
                 if row.email == input.email && row.payload == input.payload && Unsettled(row) && Over(row, s.now)
                   then s.workers[t := Worker(input, Reclaiming(id))]
                 else if && row.email == input.email && row.payload != input.payload
                         && SafelyFailed(row) && Over(row, s.now)
                   then s.workers[t := Worker(input, Probing(id, row))]
                 else s.workers - {t}
  {
  }

  lemma UnsettledMeans(row: Intent)
    ensures Unsettled(row) <==>
              row.state in {Claimed, AuthCreated, Unknown, CompensationRequired, FailedRetryable}
  {
    match row.state
    case Claimed =>
    case AuthCreated =>
    case Unknown =>
    case CompensationRequired =>
    case Completed =>
    case FailedRetryable =>
    case FailedFinal =>
  }

  /** The claim takes the intent exactly if it is still unsettled and not leased: under a new token and a
      minute's lease, with the rest of the row as it was. */
  lemma ReclaimMeans(s: State, t: Call)
    requires Enabled(s, Reclaim(t))
    ensures var id, next := s.workers[t].phase.id, Next(s, Reclaim(t));
            var row := s.intents[id];
            if Unsettled(row) && Over(row, s.now) then
              && next.workers == s.workers[t := Worker(s.workers[t].input, Owner(id, s.nextToken, Referral))]
              && next.intents == s.intents[id :=
                   row.(state := Claimed, token := Some(s.nextToken), lease := Some(s.now + 60_000), code := "",
                        version := row.version + 1)]
              && next.nextToken > s.nextToken
            else next == s.(workers := s.workers - {t})
  {
    hide Held;
    UnsettledMeans(s.intents[s.workers[t].phase.id]);
  }

  /** Other data goes on only if neither an account nor an identity is found for the address or the intent. */
  lemma ProbeMeans(s: State, t: Call)
    requires Enabled(s, Probe(t))
    ensures var w, next := s.workers[t], Next(s, Probe(t));
            && next == s.(workers := next.workers)
            && next.workers ==
                 if || (exists i :: 0 <= i < |s.tenants| && s.tenants[i].email == w.input.email)
                    || (exists u :: u in s.identities && s.identities[u].email == w.input.email)
                    || (w.phase.seen.user.Some? && w.phase.seen.user.value in s.identities)
                 then s.workers - {t} else s.workers[t := w.(phase := Recovering(w.phase.id, w.phase.seen))]
  {
  }

  /** A recovery that succeeds replaces the data, forgets the identity, and claims the intent. */
  lemma RecoverMeans(s: State, t: Call)
    requires Enabled(s, Recover(t))
    ensures var w, next := s.workers[t], Next(s, Recover(t));
            var id, row := w.phase.id, s.intents[w.phase.id];
            if t in next.workers then
              && next.workers == s.workers[t := Worker(w.input, Owner(id, s.nextToken, Referral))]
              && next.intents == s.intents[id :=
                   row.(payload := w.input.payload, user := None, state := Claimed, token := Some(s.nextToken),
                        lease := Some(s.now + 60_000), code := "", version := row.version + 1)]
              && next.nextToken > s.nextToken && Over(row, s.now) && row.version == w.phase.seen.version
            else next == s.(workers := s.workers - {t})
  {
    hide Held;
  }

  /** A call whose address and key no intent has gets a new one. */
  lemma FreshIsCreated(s: State, t: Call, input: Input, id: Id)
    requires t !in s.workers && id !in s.intents
    requires forall i :: i in s.intents ==> s.intents[i].email != input.email && s.intents[i].key != input.key
    ensures Enabled(s, Start(t, input)) && Enabled(Next(s, Start(t, input)), Create(t, id))
    ensures var next := Next(Next(s, Start(t, input)), Create(t, id));
            && next.intents == s.intents[id := Intent(input.email, input.key, input.payload, Claimed, Some(s.nextToken),
                                                      Some(s.now + 60_000), None, None, "", 0)]
            && next.workers == s.workers[t := Worker(input, Owner(id, s.nextToken, Referral))]
            && next.nextToken > s.nextToken
  {
  }

  /** A call meets a conflict at the provider only for an identity of its address that is not its
      intent's own, and adopts only its intent's own. */
  lemma FoundMeans(s: State, t: Call, found: Option<User>)
    requires Enabled(s, FindIdentity(t, found))
    ensures var next, email := Next(s, FindIdentity(t, found)), s.workers[t].input.email;
            && (found.None? ==> forall u :: u in s.identities ==> s.identities[u].email != email)
            && (found.Some? ==> found.value in s.identities && s.identities[found.value].email == email)
            && Owns(next, t)
            && (StepOf(next, t).Creating? <==> found.None?)
            && (StepOf(next, t).Conflicted? <==>
                  found.Some? && s.identities[found.value].intent != Some(s.workers[t].phase.id))
            && (found.Some? && s.identities[found.value].intent == Some(s.workers[t].phase.id) ==>
                  StepOf(next, t).Adopting? && StepOf(next, t).user == found.value)
  {
  }

  /** A call for an address that has an account ends there. */
  lemma AccountStops(s: State, t: Call)
    requires Enabled(s, CheckProfile(t))
    ensures var next := Next(s, CheckProfile(t));
            && next == s.(workers := next.workers)
            && (t !in next.workers <==>
                  exists i :: 0 <= i < |s.tenants| && s.tenants[i].email == s.workers[t].input.email)
            && (t in next.workers ==> Owns(next, t) && StepOf(next, t).Lookup?)
  {
  }

  /** The identity is recorded exactly in an intent the call still owns. Otherwise, and also when the
      answer is lost, the call goes on to release the intent to be retried, if it knows a code for it. */
  lemma AuthClaimMeans(s: State, t: Call, heard: bool)
    requires Enabled(s, AuthClaim(t, heard))
    ensures var next, phase := Next(s, AuthClaim(t, heard)), s.workers[t].phase;
            var row := s.intents[phase.id];
            var current := row.token == Some(phase.token) && row.state == Claimed;
            && next == s.(workers := next.workers, intents := next.intents)
            && next.intents == (if !current then s.intents else s.intents[phase.id :=
                 row.(state := AuthCreated, user := Some(phase.at.user), lease := Some(s.now + 60_000), code := "",
                      version := row.version + 1)])
            && next.workers ==
                 if current && heard
                   then s.workers[t := s.workers[t].(phase := phase.(at := Ready(phase.at.user)))]
                 else if phase.at.onError.Some?
                   then s.workers[t := s.workers[t].(phase := phase.(at := Retry(phase.at.onError.value)))]
                 else s.workers - {t}
  {
    hide Held;
  }

  // ----- leases

  /** An intent with a token is leased. */
  ghost predicate Leased(intents: map<Id, Intent>) {
    forall id :: id in intents && intents[id].token.Some? ==> intents[id].lease.Some?
  }

  /** What a step may do to a row: take it over, renew its lease, release it, or leave its claim alone.
      Only an unsettled row whose lease is over is taken over; a lease that begins lasts a minute. */
  predicate ClaimKept(before: Intent, after: Intent, now: int) {
    && (after != before ==> after.version == before.version + 1)
    && (after.token.Some? ==> after.lease.Some?)
    && (after.token.Some? && after.token != before.token ==>
          Unsettled(before) && Over(before, now) && after.state == Claimed && after.lease == Some(now + 60_000))
    && (after.lease.Some? && after.lease != before.lease ==> after.lease == Some(now + 60_000))
    && (after.state in {Claimed, AuthCreated} && after.state != before.state ==> after.lease == Some(now + 60_000))
    && (after.state in {AuthCreated, Completed} && after.state != before.state ==> after.code == "")
    && (after.state == Completed && before.state != Completed ==> after.lease.None?)
  }

  lemma TakingKeeps(s: State, a: Action, id: Id)
    requires Core(s) && Enabled(s, a) && Claims(a) && id in s.intents && Leased(s.intents)
    ensures id in Next(s, a).intents && ClaimKept(s.intents[id], Next(s, a).intents[id], s.now)
  {
    hide Core, AnyClash, Held, Leased, DoReclaim, DoRecover, Unsettled;
    assert s.intents[id].token.Some? ==> s.intents[id].lease.Some? by { LeasedAt(s, id); }
    if a.Reclaim? {
      ReclaimMeans(s, a.t);
    } else if a.Recover? {
      RecoverMeans(s, a.t);
      if a.t in Next(s, a).workers { RecoverIsUnsettled(s, a.t); }
    }
  }

  lemma LeasedAt(s: State, id: Id)
    requires Leased(s.intents) && id in s.intents
    ensures s.intents[id].token.Some? ==> s.intents[id].lease.Some?
  {
  }

  lemma RecoverIsUnsettled(s: State, t: Call)
    requires Enabled(s, Recover(t)) && t in Next(s, Recover(t)).workers
    ensures Unsettled(s.intents[s.workers[t].phase.id])
  {
  }

  lemma OwnerKeeps(s: State, t: Call, id: Id)
    requires Core(s) && Owns(s, t) && id in s.intents && Leased(s.intents)
    ensures forall referred :: ClaimKept(s.intents[id], DoRefer(s, t, referred).intents[id], s.now)
    ensures Marking(StepOf(s, t)).Some? ==> ClaimKept(s.intents[id], DoMark(s, t).intents[id], s.now)
    ensures StepOf(s, t).Failed? ==> ClaimKept(s.intents[id], DoClaimCompensation(s, t).intents[id], s.now)
  {
    hide Core, Held, ShortCode, Unsettled, Over;
  }

  lemma AdoptingKeeps(s: State, t: Call, heard: bool, id: Id)
    requires Owns(s, t) && StepOf(s, t).Adopting? && id in s.intents && Leased(s.intents)
    ensures ClaimKept(s.intents[id], DoAuthClaim(s, t, heard).intents[id], s.now)
  {
    hide Unsettled, Over;
  }

  lemma CommittingKeeps(s: State, t: Call, tenant: nat, heard: bool, id: Id)
    requires Owns(s, t) && StepOf(s, t).Fenced? && id in s.intents && Leased(s.intents)
    ensures ClaimKept(s.intents[id], DoCommit(s, t, tenant, heard).intents[id], s.now)
  {
    hide Unsettled, Over;
  }

  lemma StepKeepsClaims(s: State, a: Action, id: Id)
    requires Core(s) && Leased(s.intents) && Enabled(s, a) && id in s.intents
    ensures id in Next(s, a).intents && ClaimKept(s.intents[id], Next(s, a).intents[id], s.now)
  {
    hide Core, Leased, ClaimKept, HasAccount, EmailTaken, AnyClash, FreshTenant, Held, Found, DoLook, DoReclaim,
         DoProbe, DoRecover, DoFindIdentity, DoCreateIdentity, DoFindAgain, DoAuthClaim, DoFence, DoDelete,
         ReclaimedRow, RecoveredRow, MarkedRow, CompensatingRow, CompletedRow, AuthCreatedRow;
    if Claims(a) {
      TakingKeeps(s, a, id);
    } else if a.AuthClaim? {
      AdoptingKeeps(s, a.t, a.heard, id);
      StaysThere(s, a, id);
    } else if a.Commit? {
      CommittingKeeps(s, a.t, a.tenant, a.heard, id);
    } else if OwnerWrites(a) {
      OwnerKeeps(s, a.t, id);
    } else {
      OthersKeepIntents(s, a);
      Untouched(s.intents[id], s.now, s, id);
    }
  }

  lemma StaysThere(s: State, a: Action, id: Id)
    requires Enabled(s, a) && a.AuthClaim? && id in s.intents
    ensures id in Next(s, a).intents
  {
    hide Held;
  }

  lemma Untouched(row: Intent, now: int, s: State, id: Id)
    requires id in s.intents && row == s.intents[id] && Leased(s.intents)
    ensures ClaimKept(row, row, now)
  {
  }

  lemma StepKeepsLeases(s: State, a: Action)
    requires Core(s) && Leased(s.intents) && Enabled(s, a)
    ensures Leased(Next(s, a).intents)
  {
    forall id | id in Next(s, a).intents && Next(s, a).intents[id].token.Some?
      ensures Next(s, a).intents[id].lease.Some?
    {
      hide Core, Enabled, Next;
      if id in s.intents {
        StepKeepsClaims(s, a, id);
      } else {
        NewIsLeased(s, a, id);
      }
    }
  }

  lemma NewIsLeased(s: State, a: Action, id: Id)
    requires Enabled(s, a) && id in Next(s, a).intents && id !in s.intents
    ensures Next(s, a).intents[id].lease == Some(s.now + 60_000)
  {
    hide HasAccount, EmailTaken, AnyClash, FreshTenant, Held, Found, Fresh, Judge, DoRefer, DoFindIdentity,
         DoCreateIdentity, DoFindAgain, DoAuthClaim, DoMark, DoFence, DoCommit, DoClaimCompensation, DoDelete;
    if Early(a) {
      EarlyKeepsIntents(s, a, id);
    } else if Late(a) {
      LateKeepsIntents(s, a, id);
    }
  }

  lemma {:induction false} RunKeepsLeases(s: State, run: seq<Action>)
    requires Core(s) && Leased(s.intents) && IsRun(s, run)
    ensures Core(Exec(s, run)) && Leased(Exec(s, run).intents)
    decreases |run|
  {
    hide Core, Leased, Enabled, Next;
    if run != [] {
      StepCore(s, run[0]);
      StepKeepsLeases(s, run[0]);
      RunKeepsLeases(Next(s, run[0]), run[1..]);
    }
  }

  /** In every run: an intent that a call has claimed is leased, and no other call gets it before its
      lease is over; it is never taken over once settled; every claim and every renewal lasts a minute;
      every change of the row is one version. */
  lemma {:induction false} LeasesAreRespected(s: State, run: seq<Action>, a: Action, id: Id)
    requires Init(s) && IsRun(s, run) && Enabled(Exec(s, run), a) && id in Exec(s, run).intents
    ensures var now := Exec(s, run);
            var before := now.intents[id];
            && id in Next(now, a).intents
            && var after := Next(now, a).intents[id];
               && (before.token.Some? ==> before.lease.Some?)
               && (before.token.Some? && after.token.Some? && after.token != before.token ==>
                     before.lease.value <= now.now && before.state !in {Completed, FailedFinal}
                     && after.state == Claimed && after.lease == Some(now.now + 60_000))
               && (after.lease.Some? && after.lease != before.lease ==> after.lease == Some(now.now + 60_000))
               && (after.state == AuthCreated && before.state != AuthCreated ==>
                     after.lease == Some(now.now + 60_000) && after.code == "")
               && (after.state == Completed && before.state != Completed ==> after.lease.None? && after.code == "")
               && (after != before ==> after.version == before.version + 1)
  {
    hide Core, Enabled, Next, IsRun, Exec;
    InitCore(s);
    NothingLeased(s);
    RunKeepsLeases(s, run);
    StepKeepsClaims(Exec(s, run), a, id);
    LeasedAt(Exec(s, run), id);
  }

  lemma NothingLeased(s: State)
    requires Init(s)
    ensures Leased(s.intents)
  {
  }

  // ----- a recovery is of the row that was probed

  predicate Past(row: Intent, seen: Intent) {
    seen.version <= row.version && (seen.version == row.version ==> seen == row)
  }

  predicate SeenOk(intents: map<Id, Intent>, w: Worker) {
    match w.phase
    case Probing(id, seen) => id in intents && Past(intents[id], seen)
    case Recovering(id, seen) => id in intents && Past(intents[id], seen)
    case _ => true
  }

  ghost predicate AllSeen(s: State) {
    forall t :: t in s.workers ==> SeenOk(s.intents, s.workers[t])
  }

  lemma StepKeepsSeen(s: State, a: Action)
    requires Core(s) && Leased(s.intents) && AllSeen(s) && Enabled(s, a)
    ensures AllSeen(Next(s, a))
  {
    forall t | t in Next(s, a).workers ensures SeenOk(Next(s, a).intents, Next(s, a).workers[t]) {
      hide Core, Leased, Enabled, Next, AllSeen;
      OneSeen(s, a, t);
    }
  }

  lemma OneSeen(s: State, a: Action, t: Call)
    requires Core(s) && Leased(s.intents) && AllSeen(s) && Enabled(s, a) && t in Next(s, a).workers
    ensures SeenOk(Next(s, a).intents, Next(s, a).workers[t])
  {
    hide Core, Leased, Past, ClaimKept, AllSeen, Enabled, Next;
    var phase := Next(s, a).workers[t].phase;
    if phase.Probing? || phase.Recovering? {
      SeenFrom(s, a, t);
      StepKeepsClaims(s, a, phase.id);
      LaterIsPast(s.intents[phase.id], Next(s, a).intents[phase.id], phase.seen, s.now);
    }
  }

  lemma LaterIsPast(row: Intent, row': Intent, seen: Intent, now: int)
    requires Past(row, seen) && ClaimKept(row, row', now)
    ensures Past(row', seen)
  {
  }

  predicate Waits(phase: Phase) {
    phase.Probing? || phase.Recovering?
  }

  lemma OtherWaits(s: State, a: Action, t: Call)
    requires Enabled(s, a) && !Early(a) && !Late(a) && t in Next(s, a).workers && Waits(Next(s, a).workers[t].phase)
    ensures || (t in s.workers && Next(s, a).workers[t] == s.workers[t])
            || (a.Look? && a.id in s.intents && Next(s, a).workers[t].phase == Probing(a.id, s.intents[a.id]))
            || (a.Probe? && t in s.workers && Waits(s.workers[t].phase)
                && Next(s, a).workers[t].phase.id == s.workers[t].phase.id
                && Next(s, a).workers[t].phase.seen == s.workers[t].phase.seen)
  {
    hide HasAccount, EmailTaken, AnyClash, Held, DoRefer, DoFindIdentity, DoCreateIdentity, DoFindAgain, DoAuthClaim,
         DoMark, DoFence, DoCommit, DoClaimCompensation, DoDelete, ReclaimedRow, RecoveredRow;
  }

  /** What a call has seen, it has seen before this step or sees now. */
  lemma SeenFrom(s: State, a: Action, t: Call)
    requires AllSeen(s) && Enabled(s, a) && t in Next(s, a).workers && Waits(Next(s, a).workers[t].phase)
    ensures var phase := Next(s, a).workers[t].phase;
            phase.id in s.intents && Past(s.intents[phase.id], phase.seen)
  {
    hide Enabled, Next;
    if Early(a) {
      EarlyMovesOne(s, a);
      EarlyInOrder(s, a, a.t);
    } else if Late(a) {
      LateMovesOne(s, a);
      LateInOrder(s, a, a.t);
    } else {
      OtherWaits(s, a, t);
    }
    if t in s.workers { assert SeenOk(s.intents, s.workers[t]); }
  }

  lemma {:induction false} RunKeepsSeen(s: State, run: seq<Action>)
    requires Core(s) && Leased(s.intents) && AllSeen(s) && IsRun(s, run)
    ensures AllSeen(Exec(s, run))
    decreases |run|
  {
    hide Core, Leased, AllSeen, Enabled, Next;
    if run != [] {
      StepCore(s, run[0]);
      StepKeepsLeases(s, run[0]);
      StepKeepsSeen(s, run[0]);
      RunKeepsSeen(Next(s, run[0]), run[1..]);
    }
  }

  /** In every run: a recovery replaces the row only as it was when the call looked, in every column:
      whatever changed it meanwhile makes the recovery stop. */
  lemma {:induction false} RecoveryIsOfWhatWasSeen(s: State, run: seq<Action>, t: Call)
    requires Init(s) && IsRun(s, run) && Enabled(Exec(s, run), Recover(t))
    requires t in Next(Exec(s, run), Recover(t)).workers
    ensures var now := Exec(s, run); now.intents[now.workers[t].phase.id] == now.workers[t].phase.seen
  {
    hide Core, Leased, IsRun, Exec;
    InitCore(s);
    NothingLeased(s);
    NobodySaw(s);
    RunKeepsSeen(s, run);
    RecoverMeans(Exec(s, run), t);
    assert SeenOk(Exec(s, run).intents, Exec(s, run).workers[t]);
  }

  lemma NobodySaw(s: State)
    requires Init(s)
    ensures AllSeen(s)
  {
  }

  // ----- other data can recover a safe failure

  /** With nobody else around, no account and no identity for it: a call with other data that finds the
      intent after a safe failure gets it, with its own data. */
  lemma {:induction false} OtherDataCanRecover(s: State, t: Call, input: Input, id: Id)
    requires s.workers == map[] && id in s.intents && SafelyFailed(s.intents[id]) && Over(s.intents[id], s.now)
    requires s.intents[id].email == input.email && s.intents[id].payload != input.payload
    requires forall i :: 0 <= i < |s.tenants| ==> s.tenants[i].email != input.email
    requires forall u :: u in s.identities ==> s.identities[u].email != input.email
    requires s.intents[id].user.Some? ==> s.intents[id].user.value !in s.identities
    ensures var run := [Start(t, input), Look(t, id), Probe(t), Recover(t)];
            && IsRun(s, run)
            && Exec(s, run).workers == map[t := Worker(input, Owner(id, s.nextToken, Referral))]
            && id in Exec(s, run).intents
            && Exec(s, run).intents == s.intents[id := Exec(s, run).intents[id]]
            && Exec(s, run).intents[id].payload == input.payload && Exec(s, run).intents[id].state == Claimed
            && Exec(s, run).intents[id].token == Some(s.nextToken) && Exec(s, run).intents[id].user.None?
  {
    var row := s.intents[id];
    var s1 := s.(workers := map[t := Worker(input, Starting)]);
    var s2 := s.(workers := map[t := Worker(input, Probing(id, row))]);
    var s3 := s.(workers := map[t := Worker(input, Recovering(id, row))]);
    RecoverySteps(s, t, input, id);
    hide Enabled, Next;
    var s4 := Next(s3, Recover(t));
    FourSteps(s, Start(t, input), s1, Look(t, id), s2, Probe(t), s3, Recover(t), s4);
  }

  lemma RecoverySteps(s: State, t: Call, input: Input, id: Id)
    requires s.workers == map[] && id in s.intents && SafelyFailed(s.intents[id]) && Over(s.intents[id], s.now)
    requires s.intents[id].email == input.email && s.intents[id].payload != input.payload
    requires forall i :: 0 <= i < |s.tenants| ==> s.tenants[i].email != input.email
    requires forall u :: u in s.identities ==> s.identities[u].email != input.email
    requires s.intents[id].user.Some? ==> s.intents[id].user.value !in s.identities
    ensures var s1 := s.(workers := map[t := Worker(input, Starting)]);
            var s2 := s.(workers := map[t := Worker(input, Probing(id, s.intents[id]))]);
            var s3 := s.(workers := map[t := Worker(input, Recovering(id, s.intents[id]))]);
            && Enabled(s, Start(t, input)) && Next(s, Start(t, input)) == s1
            && Enabled(s1, Look(t, id)) && Next(s1, Look(t, id)) == s2
            && Enabled(s2, Probe(t)) && Next(s2, Probe(t)) == s3
            && Enabled(s3, Recover(t))
            && var s4 := Next(s3, Recover(t));
               && s4.workers == map[t := Worker(input, Owner(id, s.nextToken, Referral))]
               && id in s4.intents && s4.intents == s.intents[id := s4.intents[id]]
               && s4.intents[id].payload == input.payload && s4.intents[id].state == Claimed
               && s4.intents[id].token == Some(s.nextToken) && s4.intents[id].user.None?
  {
    hide DoRefer, DoFindIdentity, DoCreateIdentity, DoFindAgain, DoAuthClaim, DoMark, DoFence, DoCommit,
         DoClaimCompensation, DoDelete, DoReclaim, AnyClash, Found, Fresh, FreshTenant;
  }

  lemma FourSteps(s: State, a: Action, s1: State, b: Action, s2: State, c: Action, s3: State, d: Action, s4: State)
    requires Enabled(s, a) && Next(s, a) == s1 && Enabled(s1, b) && Next(s1, b) == s2
    requires Enabled(s2, c) && Next(s2, c) == s3 && Enabled(s3, d) && Next(s3, d) == s4
    ensures IsRun(s, [a, b, c, d]) && Exec(s, [a, b, c, d]) == s4
  {
    hide Enabled, Next;
    assert [a, b, c, d][1..] == [b, c, d] && [b, c, d][1..] == [c, d] && [c, d][1..] == [d] && [d][1..] == [];
    assert IsRun(s3, [d]) && Exec(s3, [d]) == s4;
    assert IsRun(s2, [c, d]) && Exec(s2, [c, d]) == s4;
    assert IsRun(s1, [b, c, d]) && Exec(s1, [b, c, d]) == s4;
  }
}
