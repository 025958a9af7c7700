/** When a row of the audit outbox can be claimed: not before it was asked for, not under another
    claim's lease, and not before the delay of its last attempt is over. */
module AuditLeases {
  import opened Wrappers
  import opened AuditRecord
  import opened AuditOutbox
  import opened AuditTheorems

  /** The step neither claims the row nor ends one of its deliveries in a failure. */
  predicate Leaves(s: State, a: Action, id: Id) {
    && !(a.Claim? && a.id == id)
    && !(a.Reschedule? && a.t in s.deliveries && s.deliveries[a.t].id == id)
  }

  ghost predicate LeftAlone(s: State, run: seq<Action>, id: Id)
    requires IsRun(s, run)
    decreases |run|
  {
    run == [] || (Leaves(s, run[0], id) && LeftAlone(Next(s, run[0]), run[1..], id))
  }

  predicate Unclaimed(run: seq<Action>, id: Id) {
    forall i :: 0 <= i < |run| && run[i].Claim? ==> run[i].id != id
  }

  // ----- under a lease

  predicate Leased(row: Row, token: Token, end: int) {
    (row.status == Processing && row.token == Some(token) && row.lease == Some(end)) || row.status == Delivered
  }

  /** The claim's row, and the delivery it started as long as that lasts. */
  predicate UnderClaim(s: State, id: Id, token: Token, end: int) {
    && id in s.rows && Leased(s.rows[id], token, end)
    && token < s.nextToken && (token in s.deliveries ==> s.deliveries[token].id == id)
  }

  lemma StepKeepsLease(s: State, a: Action, id: Id, token: Token, end: int)
    requires Enabled(s, a) && Leaves(s, a, id) && UnderClaim(s, id, token, end)
    ensures UnderClaim(Next(s, a), id, token, end)
  {
    hide Held, InsertBusy, Backoff, EventExists, DoFind, DoInsert, DoFinalize, DoJudge;
    if token !in s.deliveries {
      NotRevived(s, a, token);
    } else if token in Next(s, a).deliveries {
      DeliveryStays(s, a, token);
    }
    if !WritesRow(a) { OthersKeepRows(s, a); }
  }

  lemma {:induction false} RunKeepsLease(s: State, run: seq<Action>, id: Id, token: Token, end: int)
    requires IsRun(s, run) && LeftAlone(s, run, id) && UnderClaim(s, id, token, end)
    ensures UnderClaim(Exec(s, run), id, token, end)
    decreases |run|
  {
    hide Enabled, Next, Leaves, UnderClaim;
    if run != [] {
      StepKeepsLease(s, run[0], id, token, end);
      RunKeepsLease(Next(s, run[0]), run[1..], id, token, end);
    }
  }

  /** A claimed row whose delivery neither committed nor failed can be claimed again exactly from the
      end of the lease on, and nobody can claim it before; a delivered one never. */
  lemma {:induction false} ClaimsRespectLeases(
      s: State, id: Id, t: int, leaseMs: nat, run: seq<Action>, now: int, leaseMs': nat)
    requires Enabled(s, Claim(id, t, leaseMs)) && IsRun(Next(s, Claim(id, t, leaseMs)), run)
    requires LeftAlone(Next(s, Claim(id, t, leaseMs)), run, id)
    ensures var late := Exec(Next(s, Claim(id, t, leaseMs)), run);
            && id in late.rows && late.rows[id].status in {Processing, Delivered}
            && (Enabled(late, Claim(id, now, leaseMs')) <==>
                  late.rows[id].status == Processing && now >= t + leaseMs && !Held(late.deliveries, id))
  {
    hide Held, Exec, IsRun, LeftAlone;
    RunKeepsLease(Next(s, Claim(id, t, leaseMs)), run, id, s.nextToken, t + leaseMs);
  }

  /** The delivery of that claim goes on exactly if it looks before the end of the lease and the row
      is not delivered yet; otherwise it is gone. */
  lemma {:induction false} FindsUnderLease(s: State, id: Id, t: int, leaseMs: nat, run: seq<Action>, now: int)
    requires Enabled(s, Claim(id, t, leaseMs)) && IsRun(Next(s, Claim(id, t, leaseMs)), run)
    requires LeftAlone(Next(s, Claim(id, t, leaseMs)), run, id)
    requires var late := Exec(Next(s, Claim(id, t, leaseMs)), run);
             Enabled(late, Find(s.nextToken, now))
    ensures var late := Exec(Next(s, Claim(id, t, leaseMs)), run);
            && id in late.rows
            && (s.nextToken in Next(late, Find(s.nextToken, now)).deliveries <==>
                  late.rows[id].status == Processing && now < t + leaseMs)
  {
    hide Held, Exec, IsRun, LeftAlone;
    RunKeepsLease(Next(s, Claim(id, t, leaseMs)), run, id, s.nextToken, t + leaseMs);
  }

  /** A delivery whose claim was replaced finds nothing, neither to deliver nor to reschedule; nor does
      one whose row is settled find it to deliver. */
  lemma ReplacedFindsNothing(s: State, t: Token, now: int)
    requires IsIn(s, t)
    ensures var row := s.rows[s.deliveries[t].id];
            && (Enabled(s, Find(t, now)) && (row.token != Some(t) || row.status != Processing) ==>
                  t !in Next(s, Find(t, now)).deliveries)
            && (Enabled(s, Judge(t)) && row.token != Some(t) ==> t !in Next(s, Judge(t)).deliveries)
  {
    hide Held;
  }

  // ----- waiting

  predicate Waiting(row: Row, until: int) {
    row.status in {Pending, FailedRetryable} && row.available == until
  }

  lemma StepKeepsWaiting(s: State, a: Action, id: Id, until: int)
    requires Inv(s) && Enabled(s, a) && !(a.Claim? && a.id == id) && id in s.rows && Waiting(s.rows[id], until)
    ensures id in Next(s, a).rows && Waiting(Next(s, a).rows[id], until)
  {
    hide Held, InsertBusy, Backoff, EventExists, DoFind, DoInsert, DoFinalize, DoJudge, RowsOk, EventsOk;
    if !WritesRow(a) { OthersKeepRows(s, a); }
  }

  lemma {:induction false} RunKeepsWaiting(s: State, run: seq<Action>, id: Id, until: int)
    requires Inv(s) && IsRun(s, run) && Unclaimed(run, id) && id in s.rows && Waiting(s.rows[id], until)
    ensures Inv(Exec(s, run)) && id in Exec(s, run).rows && Waiting(Exec(s, run).rows[id], until)
    decreases |run|
  {
    hide Inv, Enabled, Next, Waiting;
    if run != [] {
      StepKeeps(s, run[0]);
      StepKeepsWaiting(s, run[0], id, until);
      RunKeepsWaiting(Next(s, run[0]), run[1..], id, until);
    }
  }

  lemma WaitingMeans(s: State, id: Id, until: int, now: int, leaseMs: nat)
    requires Inv(s) && id in s.rows && Waiting(s.rows[id], until)
    ensures Enabled(s, Claim(id, now, leaseMs)) <==> now >= until
  {
    hide RowsOk, EventsOk;
  }

  /** What was enqueued can be claimed from then on. */
  lemma {:induction false} ClaimsFollowEnqueue(
      s: State, before: seq<Action>, content: Record, t: int, run: seq<Action>, now: int, leaseMs: nat)
    requires Init(s) && IsRun(s, before) && Enabled(Exec(s, before), Enqueue(content, t))
    requires IsRun(Next(Exec(s, before), Enqueue(content, t)), run)
    requires Unclaimed(run, (content.tenantId, content.operationId))
    ensures var late := Exec(Next(Exec(s, before), Enqueue(content, t)), run);
            Enabled(late, Claim((content.tenantId, content.operationId), now, leaseMs)) <==> now >= t
  {
    hide Inv, Exec, IsRun;
    InitKeeps(s);
    RunKeeps(s, before);
    var s1, id := Exec(s, before), (content.tenantId, content.operationId);
    StepKeeps(s1, Enqueue(content, t));
    var s2 := Next(s1, Enqueue(content, t));
    RunKeepsWaiting(s2, run, id, t);
    WaitingMeans(Exec(s2, run), id, t, now, leaseMs);
  }

  /** After a failure under the current claim, the row's n-th, it waits for the n-th delay: it can be
      claimed again exactly from its end on, if attempts are left, and otherwise never. */
  lemma {:induction false} RetriesWait(
      s: State, before: seq<Action>, token: Token, t: int, run: seq<Action>, now: int, leaseMs: nat)
    requires Init(s) && IsRun(s, before) && Enabled(Exec(s, before), Reschedule(token, t))
    requires IsRun(Next(Exec(s, before), Reschedule(token, t)), run)
    requires var s1 := Exec(s, before);
             var id := s1.deliveries[token].id;
             s1.rows[id].status == Processing && s1.rows[id].token == Some(token) && Unclaimed(run, id)
    ensures var id, n := Exec(s, before).deliveries[token].id, ClaimsOf(before, Exec(s, before).deliveries[token].id);
            var late := Exec(Next(Exec(s, before), Reschedule(token, t)), run);
            Enabled(late, Claim(id, now, leaseMs)) <==> n < s.max && now >= t + Backoff(n)
  {
    hide Inv, Exec, IsRun, Unclaimed, Backoff;
    InitKeeps(s);
    RunKeeps(s, before);
    RunKeepsMax(s, before);
    var s1 := Exec(s, before);
    var id := s1.deliveries[token].id;
    AttemptsCountClaims(s, before, id);
    var n := ClaimsOf(before, id);
    StepKeeps(s1, Reschedule(token, t));
    Rescheduled(s1, token, t, id);
    var s2 := Next(s1, Reschedule(token, t));
    if n < s.max {
      RunKeepsWaiting(s2, run, id, t + Backoff(n));
      WaitingMeans(Exec(s2, run), id, t + Backoff(n), now, leaseMs);
    } else {
      RunEvolves(s2, run, id);
    }
  }

  lemma Rescheduled(s: State, token: Token, t: int, id: Id)
    requires Inv(s) && Enabled(s, Reschedule(token, t)) && s.deliveries[token].id == id
    requires s.rows[id].status == Processing && s.rows[id].token == Some(token)
    ensures var row, n := Next(s, Reschedule(token, t)).rows[id], s.rows[id].attempts;
            if n < s.max then Waiting(row, t + Backoff(n)) else row.status == FailedFinal
  {
    hide RowsOk, EventsOk, Backoff, Held;
  }
}
