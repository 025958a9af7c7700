/** What the audit outbox guarantees over whole runs: any number of workers, crashes, lapsed
    leases, stale claims, and commits reported as errors. */
module AuditTheorems {
  import opened Wrappers
  import opened AuditRecord
  import opened AuditOutbox

  lemma InitKeeps(s: State)
    requires Init(s)
    ensures Inv(s)
  {
  }

  lemma {:induction false} RunKeeps(s: State, run: seq<Action>)
    requires Inv(s) && IsRun(s, run)
    ensures Inv(Exec(s, run))
    decreases |run|
  {
    if run != [] {
      StepKeeps(s, run[0]);
      hide Inv;
      RunKeeps(Next(s, run[0]), run[1..]);
    }
  }

  /** A row has an authoritative event exactly when it is DELIVERED, never two, and the event says
      what the row recorded. */
  lemma {:induction false} DeliveredExactlyOnce(s: State, run: seq<Action>)
    requires Init(s) && IsRun(s, run)
    ensures var now := Exec(s, run);
            && (forall id :: id in now.rows ==> (now.rows[id].status == Delivered <==> EventExists(now.events, id)))
            && (forall i, j :: 0 <= i < j < |now.events| ==> now.events[i].outboxEventId != now.events[j].outboxEventId)
            && (forall i :: 0 <= i < |now.events| ==>
                  && now.events[i].outboxEventId in now.rows
                  && now.events[i] == Authoritative(now.events[i].outboxEventId,
                     now.rows[now.events[i].outboxEventId].content))
  {
    RunKeeps(s, run);
    hide RowsOk, DeliveriesOk, Authoritative;
  }

  // ----- what a step may do to a row

  /** Content never changes; a settled row does not change at all; a token is replaced by a new one only. */
  predicate Evolves(before: Row, after: Row, nextToken: Token) {
    && after.content == before.content
    && (before.status in {Delivered, FailedFinal} ==> after == before)
    && (after.token == before.token || (after.token.Some? && after.token.value >= nextToken))
  }

  predicate WritesRow(a: Action) {
    a.Enqueue? || a.Claim? || a.Commit? || a.CommitUnheard? || a.Reschedule?
  }

  lemma OthersKeepRows(s: State, a: Action)
    requires Enabled(s, a) && !WritesRow(a)
    ensures Next(s, a).rows == s.rows && Next(s, a).events == s.events && Next(s, a).nextToken == s.nextToken
  {
    hide InsertBusy, Held, DoFind, DoInsert, DoFinalize, DoJudge, DoEnqueue, DoClaim, Published, DoReschedule;
  }

  lemma PublishedEvolves(s: State, t: Token, id: Id)
    requires Inv(s) && Enabled(s, Commit(t)) && id in s.rows
    ensures id in Published(s, t).rows && Evolves(s.rows[id], Published(s, t).rows[id], s.nextToken)
    ensures Published(s, t).nextToken == s.nextToken
  {
    hide Inv, Held, InsertBusy;
    CommitReady(s, t);
  }

  lemma RescheduledEvolves(s: State, t: Token, now: int, id: Id)
    requires Enabled(s, Reschedule(t, now)) && id in s.rows
    ensures id in DoReschedule(s, t, now).rows && Evolves(s.rows[id], DoReschedule(s, t, now).rows[id], s.nextToken)
    ensures DoReschedule(s, t, now).nextToken == s.nextToken
  {
    hide Held, InsertBusy, Backoff;
  }

  lemma StepEvolves(s: State, a: Action, id: Id)
    requires Inv(s) && Enabled(s, a) && id in s.rows
    ensures id in Next(s, a).rows && Evolves(s.rows[id], Next(s, a).rows[id], s.nextToken)
    ensures s.nextToken <= Next(s, a).nextToken
  {
    hide Inv, InsertBusy, Held, DoFind, DoInsert, DoFinalize, DoJudge, Published, DoReschedule;
    if a.Commit? || a.CommitUnheard? {
      PublishedEvolves(s, a.t, id);
    } else if a.Reschedule? {
      RescheduledEvolves(s, a.t, a.now, id);
    } else if !WritesRow(a) {
      OthersKeepRows(s, a);
    }
  }

  lemma {:induction false} RunEvolves(s: State, run: seq<Action>, id: Id)
    requires Inv(s) && IsRun(s, run) && id in s.rows
    ensures id in Exec(s, run).rows && Evolves(s.rows[id], Exec(s, run).rows[id], s.nextToken)
    ensures s.nextToken <= Exec(s, run).nextToken
    decreases |run|
  {
    if run != [] {
      StepKeeps(s, run[0]);
      StepEvolves(s, run[0], id);
      hide Inv;
      RunEvolves(Next(s, run[0]), run[1..], id);
    }
  }

  /** DELIVERED and FAILED_FINAL rows never change again. */
  lemma {:induction false} SettledForGood(s: State, before: seq<Action>, after: seq<Action>, id: Id)
    requires Init(s) && IsRun(s, before) && IsRun(Exec(s, before), after)
    requires id in Exec(s, before).rows && Exec(s, before).rows[id].status in {Delivered, FailedFinal}
    ensures id in Exec(Exec(s, before), after).rows
    ensures Exec(Exec(s, before), after).rows[id] == Exec(s, before).rows[id]
  {
    RunKeeps(s, before);
    RunEvolves(Exec(s, before), after, id);
  }

  /** So what is delivered in the end is what was enqueued, and could not come from other content. */
  lemma {:induction false} DeliversWhatWasEnqueued(s: State, before: seq<Action>, content: Record, now: int,
      after: seq<Action>, i: nat)
    requires Init(s) && IsRun(s, before) && Enabled(Exec(s, before), Enqueue(content, now))
    requires IsRun(DoEnqueue(Exec(s, before), content, now), after)
    requires i < |Exec(DoEnqueue(Exec(s, before), content, now), after).events|
    requires Exec(DoEnqueue(Exec(s, before), content, now), after).events[i].outboxEventId ==
             (content.tenantId, content.operationId)
    ensures var event := Exec(DoEnqueue(Exec(s, before), content, now), after).events[i];
            && event == Authoritative((content.tenantId, content.operationId), content)
            && forall other: Record ::
                 other.operationId == content.operationId && event == Authoritative(event.outboxEventId, other) ==>
                   SameRecorded(other, content)
  {
    var id := (content.tenantId, content.operationId);
    RunKeeps(s, before);
    var start := Exec(s, before);
    EnqueueKeeps(start, content, now);
    var next := DoEnqueue(start, content, now);
    RunKeeps(next, after);
    RunEvolves(next, after, id);
    hide Authoritative, RowsOk, DeliveriesOk, SameRecorded;
    forall other: Record | other.operationId == content.operationId
      && Authoritative(id, other) == Authoritative(id, content)
      ensures SameRecorded(other, content)
    {
      EventTellsContent(id, other, content);
    }
  }

  // ----- stale claims

  predicate By(a: Action, t: Token) {
    !a.Enqueue? && !a.Claim? && a.t == t
  }

  predicate Replaced(s: State, t: Token) {
    IsIn(s, t) && s.rows[s.deliveries[t].id].token != Some(t)
  }

  lemma ReplacedStepInert(s: State, a: Action, t: Token)
    requires Inv(s) && Enabled(s, a) && By(a, t) && Replaced(s, t)
    ensures Next(s, a).rows == s.rows && Next(s, a).events == s.events
  {
    hide Inv, Backoff, InsertBusy, Held, DoFind, DoInsert, DoFinalize, DoJudge, Published;
    if a.Commit? || a.CommitUnheard? {
      CommitReady(s, t);
    } else if !WritesRow(a) {
      OthersKeepRows(s, a);
    }
  }

  lemma StaysReplaced(s: State, a: Action, t: Token)
    requires Inv(s) && Enabled(s, a) && Replaced(s, t) && t in Next(s, a).deliveries
    ensures Replaced(Next(s, a), t)
  {
    assert t < s.nextToken;
    StepEvolves(s, a, s.deliveries[t].id);
    DeliveryStays(s, a, t);
    hide Inv, Enabled, Next;
  }

  lemma DeliveryStays(s: State, a: Action, t: Token)
    requires Enabled(s, a) && t in s.deliveries && t in Next(s, a).deliveries && t < s.nextToken
    ensures Next(s, a).deliveries[t].id == s.deliveries[t].id
  {
    hide Backoff, EventExists, InsertBusy, Held, Authoritative, ClaimedRow, FailedRow, DeliveredRow;
  }

  lemma NotRevived(s: State, a: Action, t: Token)
    requires Enabled(s, a) && t !in s.deliveries && t < s.nextToken
    ensures t !in Next(s, a).deliveries && t < Next(s, a).nextToken
  {
    hide Backoff, EventExists, InsertBusy, Held, Authoritative;
  }

  lemma {:induction false} EndedForGood(s: State, run: seq<Action>, t: Token)
    requires IsRun(s, run) && t !in s.deliveries && t < s.nextToken
    ensures t !in Exec(s, run).deliveries
    decreases |run|
  {
    if run != [] {
      NotRevived(s, run[0], t);
      EndedForGood(Next(s, run[0]), run[1..], t);
    }
  }

  /** A claim whose token was replaced changes nothing, then or at any later time. */
  lemma {:induction false} ReplacedClaimIsInert(s: State, run: seq<Action>, a: Action, t: Token)
    requires Inv(s) && Replaced(s, t)
    requires IsRun(s, run) && Enabled(Exec(s, run), a) && By(a, t)
    ensures Next(Exec(s, run), a).rows == Exec(s, run).rows && Next(Exec(s, run), a).events == Exec(s, run).events
    decreases |run|
  {
    if run == [] {
      ReplacedStepInert(s, a, t);
    } else {
      var next := Next(s, run[0]);
      StepKeeps(s, run[0]);
      if t in next.deliveries {
        StaysReplaced(s, run[0], t);
        ReplacedClaimIsInert(next, run[1..], a, t);
      } else {
        assert t < s.nextToken;
        StepEvolves(s, run[0], s.deliveries[t].id);
        EndedForGood(next, run[1..], t);
      }
    }
  }

  // ----- the order of a delivery's steps

  predicate Follows(before: Phase, after: Phase) {
    match before
    case Claimed => after.Found? || after.Failing?
    case Found(_) => after.Inserted? || after.Failing?
    case Inserted(_) => after.Updated? || after.Failing?
    case Updated(_) => after.Failing?
    case Failing => after.Judged?
    case Judged(_) => false
  }

  /** No action takes a delivery past a step, or back: it reads its row, inserts, updates, and fails
      only then. A row is rescheduled at the end of a failed delivery only. */
  lemma StepsInOrder(s: State, a: Action, t: Token)
    requires Enabled(s, a) && t in s.deliveries && t < s.nextToken
    ensures t in Next(s, a).deliveries ==>
              var before, after := s.deliveries[t].phase, Next(s, a).deliveries[t].phase;
              after == before || Follows(before, after)
    ensures By(a, t) && (Next(s, a).rows != s.rows || Next(s, a).events != s.events) ==>
              s.deliveries[t].phase.Updated? || (a.Reschedule? && s.deliveries[t].phase.Judged?)
  {
    hide Backoff, EventExists, InsertBusy, Held, Authoritative, ClaimedRow, FailedRow, DeliveredRow;
  }

  // ----- attempts and waiting

  function ClaimsOf(run: seq<Action>, id: Id): nat {
    if run == [] then 0 else (if run[0].Claim? && run[0].id == id then 1 else 0) + ClaimsOf(run[1..], id)
  }

  function Attempts(s: State, id: Id): nat {
    if id in s.rows then s.rows[id].attempts else 0
  }

  lemma StepCounts(s: State, a: Action, id: Id)
    requires Enabled(s, a)
    ensures Attempts(Next(s, a), id) == Attempts(s, id) + ClaimsOf([a], id)
  {
    hide Backoff, EventExists, InsertBusy, Held, Authoritative;
  }

  lemma {:induction false} AttemptsCountClaims(s: State, run: seq<Action>, id: Id)
    requires IsRun(s, run)
    ensures Attempts(Exec(s, run), id) == Attempts(s, id) + ClaimsOf(run, id)
    decreases |run|
  {
    if run != [] {
      StepCounts(s, run[0], id);
      AttemptsCountClaims(Next(s, run[0]), run[1..], id);
    }
  }

  lemma StepKeepsMax(s: State, a: Action)
    requires Enabled(s, a)
    ensures Next(s, a).max == s.max
  {
    hide Backoff, EventExists, InsertBusy, Held, Authoritative;
  }

  lemma {:induction false} RunKeepsMax(s: State, run: seq<Action>)
    requires IsRun(s, run)
    ensures Exec(s, run).max == s.max
    decreases |run|
  {
    if run != [] {
      StepKeepsMax(s, run[0]);
      RunKeepsMax(Next(s, run[0]), run[1..]);
    }
  }

  /** The claims that took the row over while it was PROCESSING: the lapsed ones before them. */
  ghost function LapsesOf(s: State, run: seq<Action>, id: Id): nat
    requires IsRun(s, run)
    decreases |run|
  {
    if run == [] then 0 else
    (if run[0].Claim? && run[0].id == id && s.rows[id].status == Processing then 1 else 0)
      + LapsesOf(Next(s, run[0]), run[1..], id)
  }

  /** The delays of the row's retries, added up. */
  ghost function DelaysOf(s: State, run: seq<Action>, id: Id): int
    requires IsRun(s, run)
    decreases |run|
  {
    if run == [] then 0 else
    var next := Next(s, run[0]);
    (if run[0].Reschedule? && id in s.rows && s.rows[id].status == Processing
        && id in next.rows && next.rows[id].status == FailedRetryable
     then next.rows[id].available - run[0].now else 0)
      + DelaysOf(next, run[1..], id)
  }

  function Lapses(s: State, id: Id): nat {
    if id in s.rows then s.rows[id].lapses else 0
  }

  function Waited(s: State, id: Id): nat {
    if id in s.rows then s.rows[id].waited else 0
  }

  lemma StepTallies(s: State, a: Action, id: Id)
    requires Enabled(s, a)
    ensures Lapses(Next(s, a), id) ==
            Lapses(s, id) + if a.Claim? && a.id == id && s.rows[id].status == Processing then 1 else 0
    ensures Waited(Next(s, a), id) ==
            Waited(s, id) + if a.Reschedule? && id in s.rows && s.rows[id].status == Processing
                               && id in Next(s, a).rows && Next(s, a).rows[id].status == FailedRetryable
                            then Next(s, a).rows[id].available - a.now else 0
  {
    hide Backoff, EventExists, InsertBusy, Held, Authoritative, DoFind, DoInsert, DoFinalize, DoJudge;
    if !WritesRow(a) { OthersKeepRows(s, a); }
  }

  lemma {:induction false} TalliesCount(s: State, run: seq<Action>, id: Id)
    requires IsRun(s, run)
    ensures Lapses(Exec(s, run), id) == Lapses(s, id) + LapsesOf(s, run, id)
    ensures Waited(Exec(s, run), id) == Waited(s, id) + DelaysOf(s, run, id)
    decreases |run|
  {
    hide Enabled, Next, Lapses, Waited;
    if run != [] {
      StepTallies(s, run[0], id);
      TalliesCount(Next(s, run[0]), run[1..], id);
    }
  }

  /** A row is claimed at most `max` times plus its lapsed claims, is given up only with its attempts
      used up and retried only with some left, and waits a bounded time in all: with the usual maximum
      of 8, at most 127 seconds. */
  lemma {:induction false} AttemptsBounded(s: State, run: seq<Action>, id: Id)
    requires Init(s) && IsRun(s, run) && id in Exec(s, run).rows
    ensures var row := Exec(s, run).rows[id];
            && ClaimsOf(run, id) <= s.max + LapsesOf(s, run, id)
            && (row.status == FailedRetryable ==> ClaimsOf(run, id) < s.max)
            && (row.status == FailedFinal ==> ClaimsOf(run, id) >= s.max)
            && DelaysOf(s, run, id) <= TotalBackoff(s.max - 1)
            && (s.max == 8 ==> DelaysOf(s, run, id) <= 127_000)
            && (ClaimsOf(run, id) >= s.max ==> row.status in {Processing, Delivered, FailedFinal})
  {
    hide Inv, TotalBackoff, Waits, LapsesOf, DelaysOf, IsRun, Exec;
    InitKeeps(s);
    RunKeeps(s, run);
    AttemptsCountClaims(s, run, id);
    TalliesCount(s, run, id);
    RunKeepsMax(s, run);
    RowFacts(Exec(s, run), id);
    WaitsLess(Exec(s, run).rows[id], s.max);
    TotalGrows(Waits(Exec(s, run).rows[id], s.max), s.max - 1);
    TotalBackoffIs(s.max - 1);
    Powers();
  }

  lemma RowFacts(s: State, id: Id)
    requires Inv(s) && id in s.rows
    ensures s.max > 0 && RowOk(s.rows[id], s.nextToken, s.max)
  {
    hide EventsOk, DeliveriesOk;
  }

  lemma WaitsLess(row: Row, max: nat)
    requires max > 0
    ensures Waits(row, max) <= max - 1
  {
  }

  // ----- rows whose deliveries are not lost end settled

  /** The step loses the claim of a row: its delivery crashes, or finds its lease over. */
  predicate Loses(s: State, a: Action, id: Id) {
    || (a.Crash? && a.t in s.deliveries && s.deliveries[a.t].id == id)
    || (a.Find? && IsIn(s, a.t) && s.deliveries[a.t].id == id && s.rows[id].token == Some(a.t)
        && s.rows[id].lease.Some? && s.rows[id].lease.value <= a.now)
  }

  /** No claim of the row lapses, whatever happens to others and whatever errors occur. */
  predicate Undisturbed(s: State, run: seq<Action>, id: Id)
    requires IsRun(s, run)
    decreases |run|
  {
    run == [] || (!Loses(s, run[0], id) && Undisturbed(Next(s, run[0]), run[1..], id))
  }

  predicate UnderWay(s: State, id: Id) {
    exists t :: t in s.deliveries && s.deliveries[t].id == id
  }

  /** While a row is PROCESSING, the delivery of its current claim is under way. */
  predicate Attended(s: State, id: Id) {
    id in s.rows && s.rows[id].status == Processing ==>
      && s.rows[id].token.Some? && s.rows[id].token.value in s.deliveries
      && s.deliveries[s.rows[id].token.value].id == id
  }

  lemma DeliveriesGo(s: State, a: Action, id: Id)
    requires Inv(s) && Attended(s, id) && Enabled(s, a) && !Loses(s, a, id) && a.Find?
    ensures Attended(Next(s, a), id)
  {
    hide EventsOk, DeliveriesOk, TotalBackoff, Waits;
    if id in s.rows { RowFacts(s, id); }
  }

  lemma StepAttends(s: State, a: Action, id: Id)
    requires Inv(s) && Attended(s, id) && Enabled(s, a) && !Loses(s, a, id)
    ensures Attended(Next(s, a), id)
  {
    hide Inv, EventExists, InsertBusy, Held, Authoritative, Backoff;
    if a.Find? {
      DeliveriesGo(s, a, id);
    } else if a.Commit? || a.CommitUnheard? {
      CommitReady(s, a.t);
    } else if a.Claim? {
      TokenUnused(s);
    }
  }

  lemma {:induction false} RunAttends(s: State, run: seq<Action>, id: Id)
    requires Inv(s) && Attended(s, id) && IsRun(s, run) && Undisturbed(s, run, id)
    ensures Attended(Exec(s, run), id)
    decreases |run|
  {
    hide Inv, Attended, Enabled, Next, Loses;
    if run != [] {
      StepKeeps(s, run[0]);
      StepAttends(s, run[0], id);
      RunAttends(Next(s, run[0]), run[1..], id);
    }
  }

  /** Without lapsed claims, a row none of whose deliveries is under way is settled once it was
      claimed `max` times; before that it is delivered already or waits to be claimed. */
  lemma {:induction false} SettledWithoutLapses(s: State, run: seq<Action>, id: Id)
    requires Init(s) && IsRun(s, run) && Undisturbed(s, run, id)
    requires id in Exec(s, run).rows && !UnderWay(Exec(s, run), id)
    ensures var row := Exec(s, run).rows[id];
            if ClaimsOf(run, id) >= s.max then row.status in {Delivered, FailedFinal}
            else row.status in {Pending, FailedRetryable, Delivered}
  {
    hide Inv, Exec, IsRun, Undisturbed, TotalBackoff;
    InitKeeps(s);
    RunAttends(s, run, id);
    AttemptsBounded(s, run, id);
    EveryStatus(Exec(s, run).rows[id].status);
  }

  lemma EveryStatus(status: Status)
    ensures status in {Pending, Processing, Delivered, FailedRetryable, FailedFinal}
  {
  }

  // ----- no row is ever stuck

  ghost predicate CanBeDelivered(s: State, id: Id) {
    exists run :: IsRun(s, run) && id in Exec(s, run).rows && Exec(s, run).rows[id].status == Delivered
  }

  lemma {:induction false} OneStepEarlier(s: State, a: Action, id: Id)
    requires Enabled(s, a) && CanBeDelivered(Next(s, a), id)
    ensures CanBeDelivered(s, id)
  {
    var run :| IsRun(Next(s, a), run) && id in Exec(Next(s, a), run).rows
      && Exec(Next(s, a), run).rows[id].status == Delivered;
    assert ([a] + run)[0] == a && ([a] + run)[1..] == run;
    hide Enabled, Next;
    assert IsRun(s, [a] + run) && Exec(s, [a] + run) == Exec(Next(s, a), run);
  }

  lemma CanCommit(s: State, id: Id, t: Token)
    requires Enabled(s, Commit(t)) && s.deliveries[t].id == id
    ensures CanBeDelivered(s, id)
  {
    var s' := Next(s, Commit(t));
    assert s'.rows[id].status == Delivered;
    assert IsRun(s', []) && Exec(s', []) == s';
    OneStepEarlier(s, Commit(t), id);
  }

  /** A delivery that found its claim, with nobody else at the row: insert the event, update the row, commit. */
  lemma CanGoOn(s: State, id: Id, t: Token)
    requires Enabled(s, Insert(t)) && s.deliveries[t].id == id && !Held(s.deliveries, id)
    requires s.rows[id].status == Processing && s.rows[id].token == Some(t)
    ensures CanBeDelivered(s, id)
  {
    hide EventExists, Authoritative, CanBeDelivered, InsertBusy;
    var inserted := DoInsert(s, t);
    assert !Held(inserted.deliveries, id);
    var updated := DoFinalize(inserted, t);
    CanCommit(updated, id, t);
    OneStepEarlier(inserted, Finalize(t), id);
    OneStepEarlier(s, Insert(t), id);
  }

  lemma StaysFree(deliveries: map<Token, Delivery>, id: Id, t: Token, d: Delivery)
    requires !InsertBusy(deliveries, id) && !Held(deliveries, id) && (d.phase.Claimed? || d.phase.Found?)
    ensures !InsertBusy(deliveries[t := d], id) && !Held(deliveries[t := d], id)
  {
  }

  /** Nobody else is at the row: claim it and find it. */
  lemma CanClaim(s: State, id: Id, now: int)
    requires s.nextToken !in s.deliveries && Enabled(s, Claim(id, now, 1)) && !InsertBusy(s.deliveries, id)
    ensures CanBeDelivered(s, id)
  {
    hide CanBeDelivered, InsertBusy, Held, Authoritative, EventExists;
    var t := s.nextToken;
    var row := ClaimedRow(s.rows[id], t, now, 1);
    var claimed := DoClaim(s, id, now, 1);
    var found := DoFind(claimed, t, now);
    StaysFree(s.deliveries, id, t, Delivery(id, Found(row.content)));
    assert found.deliveries == s.deliveries[t := Delivery(id, Found(row.content))];
    CanGoOn(found, id, t);
    OneStepEarlier(claimed, Find(t, now), id);
    OneStepEarlier(s, Claim(id, now, 1), id);
  }

  lemma TokenUnused(s: State)
    requires Inv(s)
    ensures s.nextToken !in s.deliveries
  {
  }

  /** A time at which the row can be claimed. */
  lemma SomeTime(s: State, id: Id) returns (now: int)
    requires Inv(s) && id in s.rows && s.rows[id].status !in {Delivered, FailedFinal}
    ensures Eligible(s.rows[id], now)
  {
    hide EventsOk, DeliveriesOk, TotalBackoff;
    assert RowOk(s.rows[id], s.nextToken, s.max);
    now := if s.rows[id].status == Processing then s.rows[id].lease.value else s.rows[id].available;
  }

  /** A delivery holding the row, or inserting its event, is the only one that does. */
  lemma FreedByCrash(s: State, u: Token, id: Id)
    requires Inv(s) && u in s.deliveries && Uncommitted(s.deliveries[u], id) && id in s.rows
             && s.rows[id].status != Delivered
    ensures !InsertBusy(Ends(s, u).deliveries, id) && !Held(Ends(s, u).deliveries, id)
  {
    forall t | t in s.deliveries && t != u
      ensures !Uncommitted(s.deliveries[t], id) && !(s.deliveries[t].id == id && s.deliveries[t].phase.Updated?)
    {
      assert DeliveryOk(s.rows, t, s.deliveries[t]);
    }
    hide RowsOk, EventsOk, DeliveryOk, Uncommitted, OneInserts;
  }

  lemma NotHeld(s: State, id: Id)
    requires Inv(s) && id in s.rows && s.rows[id].status != Delivered && !InsertBusy(s.deliveries, id)
    ensures !Held(s.deliveries, id)
  {
    forall t | t in s.deliveries ensures !(s.deliveries[t].id == id && s.deliveries[t].phase.Updated?) {
      assert DeliveryOk(s.rows, t, s.deliveries[t]) && !Uncommitted(s.deliveries[t], id);
    }
    hide RowsOk, EventsOk, DeliveryOk, Uncommitted, OneInserts;
  }

  /** Whatever happened before, a row that is not settled can still be delivered. */
  lemma {:induction false} NeverStuck(s: State, run: seq<Action>, id: Id)
    requires Init(s) && IsRun(s, run)
    requires id in Exec(s, run).rows && Exec(s, run).rows[id].status !in {Delivered, FailedFinal}
    ensures CanBeDelivered(Exec(s, run), id)
  {
    hide Inv, Eligible, CanBeDelivered, Uncommitted, Held, DoClaim, Exec, IsRun;
    InitKeeps(s);
    RunKeeps(s, run);
    var here := Exec(s, run);
    TokenUnused(here);
    var now := SomeTime(here, id);
    if InsertBusy(here.deliveries, id) {
      var u :| u in here.deliveries && Uncommitted(here.deliveries[u], id);
      FreedByCrash(here, u, id);
      CanClaim(Ends(here, u), id, now);
      OneStepEarlier(here, Crash(u), id);
    } else {
      NotHeld(here, id);
      CanClaim(here, id, now);
    }
  }
}
