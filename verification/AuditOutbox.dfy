/** The audit outbox: rows claimed under a lease and a fresh token, delivered, retried or given up.

    One action per database statement, commit, error or crash. What a delivery writes inside its
    transaction is seen by nobody else until it commits. Every action that looks at a clock carries
    its own reading, and no property below needs the readings to be in order. */
module AuditOutbox {
  import opened Wrappers
  import opened JsonText
  import opened AuditRecord

  /** A row is named by its unique tenant and operation. */
  type Id = (string, string)
  type Token = nat

  datatype Status = Pending | Processing | Delivered | FailedRetryable | FailedFinal

  /** `lapses` counts the claims that took the row over while it was PROCESSING, and `waited` adds
      up the delays before retries; no step reads either. */
  datatype Row = Row(content: Record, status: Status, token: Option<Token>, lease: Option<int>, available: int,
                     attempts: nat, lapses: nat, waited: nat)

  datatype Event = Event(
    outboxEventId: Id, eventType: string, severity: string, actorProfileId: Option<string>, actorRole: Option<string>,
    tenantId: string, branchId: Option<string>, contextKind: string, targetType: Option<string>,
      targetId: Option<string>,
    action: string, outcome: string, reasonCode: Option<string>, requestId: Option<string>,
    ipHash: Option<string>, userAgentHash: Option<string>, metadata: Json, beforeState: Json, afterState: Json)

  /** `value ?? undefined`: an empty JSON column stays empty. */
  function Column(value: Json): Json {
    if value.Null? then Undefined else value
  }

  function Authoritative(id: Id, r: Record): (e: Event)
    ensures e.outboxEventId == id
  {
    Event(id, r.eventType, r.severity, r.actorProfileId, r.actorRole, r.tenantId, r.branchId, r.contextKind,
          r.targetType, r.targetId, r.action, r.outcome, r.reasonCode, r.requestId, r.ipHash, r.userAgentHash,
          Column(r.metadata), Column(r.beforeState), Column(r.afterState))
  }

  /** Inserted: the upsert is done, `added` being the event it inserted, if any. Updated: so is the
      conditional update, and the row is locked. Failing and Judged are the two statements of `fail`. */
  datatype Phase =
    | Claimed
    | Found(content: Record)
    | Inserted(added: Option<Event>)
    | Updated(added: Option<Event>)
    | Failing
    | Judged(attempts: nat)

  datatype Delivery = Delivery(id: Id, phase: Phase)

  /** Each claim starts one delivery, named by its token. */
  datatype State = State(rows: map<Id, Row>, events: seq<Event>, deliveries: map<Token, Delivery>, nextToken: Token,
      max: nat)

  datatype Action =
    | Enqueue(content: Record, now: int)
    | Claim(id: Id, now: int, leaseMs: nat)
    | Find(t: Token, now: int)
    | Insert(t: Token)
    | Finalize(t: Token)
    | Commit(t: Token)
    | CommitUnheard(t: Token)
    | Error(t: Token)
    | Crash(t: Token)
    | Judge(t: Token)
    | Reschedule(t: Token, now: int)

  function PositiveInt(configured: Option<int>, fallback: nat): (n: nat)
    requires fallback > 0
    ensures n > 0
  {
    if configured.Some? && configured.value > 0 then configured.value else fallback
  }

  /** No tables yet, and the configured number of attempts or 8. */
  ghost predicate Init(s: State) {
    s.rows == map[] && s.events == [] && s.deliveries == map[] && exists configured ::
      s.max == PositiveInt(configured, 8)
  }

  function Power2(n: nat): nat {
    if n == 0 then 1 else 2 * Power2(n - 1)
  }

  /** The delay after the given attempt failed. */
  function Backoff(attempts: nat): nat {
    var delay := 1000 * Power2(if attempts > 0 then attempts - 1 else 0);
    if delay < 300000 then delay else 300000
  }

  /** The delay starts at a second and doubles with each attempt, up to five minutes. */
  lemma {:induction false} BackoffDoubles(attempts: nat)
    ensures Backoff(1) == 1000
    ensures attempts >= 1 ==>
              Backoff(attempts + 1) == if Backoff(attempts) < 150000 then 2 * Backoff(attempts) else 300000
  {
    assert Power2(0) == 1;
    if attempts >= 1 { assert Power2(attempts) == 2 * Power2(attempts - 1); }
  }

  predicate SameColumn(v: Json, w: Json) {
    v == w || (v in {Undefined, Null} && w in {Undefined, Null})
  }

  /** The same, an empty JSON column being null. */
  predicate SameRecorded(r: Record, s: Record) {
    && r == s.(metadata := r.metadata, beforeState := r.beforeState, afterState := r.afterState)
    && SameColumn(r.metadata, s.metadata) && SameColumn(r.beforeState, s.beforeState)
    && SameColumn(r.afterState, s.afterState)
  }

  /** An event tells everything of its row but the operation, which its row's name tells. */
  lemma EventTellsContent(id: Id, r: Record, s: Record)
    requires r.operationId == s.operationId
    ensures Authoritative(id, r) == Authoritative(id, s) <==> SameRecorded(r, s)
  {
  }

  /** The event of a call's row says what the call said, field by field; the row is named by the call's
      tenant and operation. */
  lemma EventCarriesCall(id: Id, input: Input)
    ensures var e := Authoritative(id, Data(input));
            && e.outboxEventId == id && e.tenantId == input.tenantId && e.outcome == input.outcome
            && e.branchId == (if input.branchId == Some("") then None else input.branchId)
            && e.actorProfileId == (if input.actorProfileId == Some("") then None else input.actorProfileId)
            && e.eventType ==
                 (match TextField(Some(input.eventType), 120) case Some(text) => text case None => "unknown")
            && e.action == (match TextField(Some(input.action), 120) case Some(text) => text case None => "unknown")
            && e.severity == (if input.severity.Some? then input.severity.value else "LOW")
            && e.contextKind == (if input.contextKind.Some? then input.contextKind.value else "NORMAL")
            && e.actorRole == TextField(input.actorRole, 40) && e.requestId == TextField(input.requestId, 128)
            && e.targetType == TextField(input.targetType, 80) && e.targetId == TextField(input.targetId, 160)
            && e.reasonCode == TextField(input.reasonCode, 120)
            && e.ipHash == input.ipHash && e.userAgentHash == input.userAgentHash
            && SameColumn(e.metadata, input.metadata) && SameColumn(e.beforeState, input.beforeState)
            && SameColumn(e.afterState, input.afterState)
            && Data(input).tenantId == input.tenantId
            && Data(input).operationId ==
                 (match TextField(Some(input.operationId), 200) case Some(text) => text case None => "")
  {
    hide TextField;
  }

  predicate Held(deliveries: map<Token, Delivery>, id: Id) {
    exists t :: t in deliveries && deliveries[t].id == id && deliveries[t].phase.Updated?
  }

  predicate Uncommitted(d: Delivery, id: Id) {
    d.id == id && (d.phase.Inserted? || d.phase.Updated?) && d.phase.added.Some?
  }

  predicate InsertBusy(deliveries: map<Token, Delivery>, id: Id) {
    exists t :: t in deliveries && Uncommitted(deliveries[t], id)
  }

  predicate EventExists(events: seq<Event>, id: Id) {
    exists i :: 0 <= i < |events| && events[i].outboxEventId == id
  }

  predicate Eligible(row: Row, now: int) {
    || (row.status in {Pending, FailedRetryable} && row.available <= now)
    || (row.status == Processing && row.lease.Some? && row.lease.value <= now)
  }

  function ClaimedRow(row: Row, token: Token, now: int, leaseMs: nat): Row {
    row.(status := Processing, token := Some(token), lease := Some(now + leaseMs), attempts := row.attempts + 1,
         lapses := if row.status == Processing then row.lapses + 1 else row.lapses)
  }

  function DeliveredRow(row: Row): Row {
    row.(status := Delivered, lease := None)
  }

  /** The conditional update of `fail`. */
  function FailedRow(row: Row, t: Token, attempts: nat, max: nat, now: int): Row {
    if row.status != Processing || row.token != Some(t) then row
    else if attempts >= max then row.(status := FailedFinal, available := now + Backoff(attempts), lease := None)
    else row.(status := FailedRetryable, available := now + Backoff(attempts), lease := None,
              waited := row.waited + Backoff(attempts))
  }

  predicate IsIn(s: State, t: Token) {
    t in s.deliveries && s.deliveries[t].id in s.rows
  }

  predicate InTransaction(phase: Phase) {
    phase.Claimed? || phase.Found? || phase.Inserted? || phase.Updated?
  }

  predicate Enabled(s: State, a: Action) {
    match a
    case Enqueue(content, _) => (content.tenantId, content.operationId) !in s.rows
    case Claim(id, now, _) => id in s.rows && Eligible(s.rows[id], now) && !Held(s.deliveries, id)
    case Find(t, _) => IsIn(s, t) && s.deliveries[t].phase.Claimed?
    case Insert(t) => IsIn(s, t) && s.deliveries[t].phase.Found? && !InsertBusy(s.deliveries, s.deliveries[t].id)
    case Finalize(t) => IsIn(s, t) && s.deliveries[t].phase.Inserted? && !Held(s.deliveries, s.deliveries[t].id)
    case Commit(t) => IsIn(s, t) && s.deliveries[t].phase.Updated?
    case CommitUnheard(t) => IsIn(s, t) && s.deliveries[t].phase.Updated?
    case Error(t) => IsIn(s, t) && InTransaction(s.deliveries[t].phase)
    case Crash(t) => t in s.deliveries
    case Judge(t) => IsIn(s, t) && s.deliveries[t].phase.Failing?
    case Reschedule(t, _) => IsIn(s, t) && s.deliveries[t].phase.Judged? && !Held(s.deliveries, s.deliveries[t].id)
  }

  function Goes(s: State, t: Token, phase: Phase): State
    requires t in s.deliveries
  {
    s.(deliveries := s.deliveries[t := s.deliveries[t].(phase := phase)])
  }

  function Ends(s: State, t: Token): State {
    s.(deliveries := s.deliveries - {t})
  }

  function DoEnqueue(s: State, content: Record, now: int): State {
    s.(rows := s.rows[(content.tenantId, content.operationId) := Row(content, Pending, None, None, now, 0, 0, 0)])
  }

  function DoClaim(s: State, id: Id, now: int, leaseMs: nat): State
    requires id in s.rows
  {
    s.(rows := s.rows[id := ClaimedRow(s.rows[id], s.nextToken, now, leaseMs)],
       deliveries := s.deliveries[s.nextToken := Delivery(id, Claimed)], nextToken := s.nextToken + 1)
  }

  /** A delivery that does not find its claim any more stops without a trace. */
  function DoFind(s: State, t: Token, now: int): (next: State)
    requires IsIn(s, t)
    ensures next.rows == s.rows && next.events == s.events && next.nextToken == s.nextToken
  {
    var row := s.rows[s.deliveries[t].id];
    if row.status == Processing && row.token == Some(t) && row.lease.Some? && row.lease.value > now
      then Goes(s, t, Found(row.content)) else Ends(s, t)
  }

  function DoInsert(s: State, t: Token): (next: State)
    requires IsIn(s, t) && s.deliveries[t].phase.Found?
    ensures next.rows == s.rows && next.events == s.events && next.nextToken == s.nextToken
  {
    var d := s.deliveries[t];
    Goes(s, t, Inserted(if EventExists(s.events, d.id) then None else Some(Authoritative(d.id, d.phase.content))))
  }

  function DoFinalize(s: State, t: Token): (next: State)
    requires IsIn(s, t) && s.deliveries[t].phase.Inserted?
    ensures next.rows == s.rows && next.events == s.events && next.nextToken == s.nextToken
  {
    var row := s.rows[s.deliveries[t].id];
    if row.status == Processing && row.token == Some(t) then Goes(s, t, Updated(s.deliveries[t].phase.added))
      else Goes(s, t, Failing)
  }

  /** What a commit makes visible: the row's new status and the event together. */
  function Published(s: State, t: Token): State
    requires IsIn(s, t) && s.deliveries[t].phase.Updated?
  {
    var d := s.deliveries[t];
    s.(rows := s.rows[d.id := DeliveredRow(s.rows[d.id])],
       events := if d.phase.added.Some? then s.events + [d.phase.added.value] else s.events)
  }

  function DoJudge(s: State, t: Token): (next: State)
    requires IsIn(s, t)
    ensures next.rows == s.rows && next.events == s.events && next.nextToken == s.nextToken
  {
    var row := s.rows[s.deliveries[t].id];
    if row.token == Some(t) then Goes(s, t, Judged(row.attempts)) else Ends(s, t)
  }

  function DoReschedule(s: State, t: Token, now: int): State
    requires IsIn(s, t) && s.deliveries[t].phase.Judged?
  {
    var d := s.deliveries[t];
    Ends(s, t).(rows := s.rows[d.id := FailedRow(s.rows[d.id], t, d.phase.attempts, s.max, now)])
  }

  function Next(s: State, a: Action): State
    requires Enabled(s, a)
  {
    match a
    case Enqueue(content, now) => DoEnqueue(s, content, now)
    case Claim(id, now, leaseMs) => DoClaim(s, id, now, leaseMs)
    case Find(t, now) => DoFind(s, t, now)
    case Insert(t) => DoInsert(s, t)
    case Finalize(t) => DoFinalize(s, t)
    case Commit(t) => Ends(Published(s, t), t)
    case CommitUnheard(t) => Goes(Published(s, t), t, Failing)
    case Error(t) => Goes(s, t, Failing)
    case Crash(t) => Ends(s, t)
    case Judge(t) => DoJudge(s, t)
    case Reschedule(t, now) => DoReschedule(s, t, now)
  }

  predicate IsRun(s: State, run: seq<Action>)
    decreases |run|
  {
    run == [] || (Enabled(s, run[0]) && IsRun(Next(s, run[0]), run[1..]))
  }

  function Exec(s: State, run: seq<Action>): State
    requires IsRun(s, run)
    decreases |run|
  {
    if run == [] then s else Exec(Next(s, run[0]), run[1..])
  }

  // ----- the invariant

  /** The longest a row waits in all over its first `n` attempts. */
  function TotalBackoff(n: nat): nat {
    if n == 0 then 0 else TotalBackoff(n - 1) + Backoff(n)
  }

  /** How many attempts, at most, a row has waited after. */
  function Waits(row: Row, max: nat): nat
    requires max > 0
  {
    var n := if row.status == FailedRetryable then row.attempts else if row.attempts > 0 then row.attempts - 1 else 0;
    if n < max then n else max - 1
  }

  predicate RowOk(row: Row, nextToken: Token, max: nat)
    requires max > 0
  {
    && (row.status == Pending <==> row.attempts == 0)
    && (row.attempts > 0 <==> row.token.Some?)
    && (row.token.Some? ==> row.token.value < nextToken)
    && (row.status == Processing ==> row.lease.Some?)
    && (row.status == FailedRetryable ==> row.attempts < max)
    && (row.status == FailedFinal ==> row.attempts >= max)
    && row.attempts <= max + row.lapses
    && row.waited <= TotalBackoff(Waits(row, max))
  }

  ghost predicate RowsOk(rows: map<Id, Row>, nextToken: Token, max: nat) {
    && max > 0
    && (forall id :: id in rows ==> RowOk(rows[id], nextToken, max))
    && (forall id :: id in rows ==> id == (rows[id].content.tenantId, rows[id].content.operationId))
  }

  ghost predicate EventsOk(rows: map<Id, Row>, events: seq<Event>) {
    && (forall i :: 0 <= i < |events| ==>
          && events[i].outboxEventId in rows && rows[events[i].outboxEventId].status == Delivered
          && events[i] == Authoritative(events[i].outboxEventId, rows[events[i].outboxEventId].content))
    && (forall id :: id in rows && rows[id].status == Delivered ==> EventExists(events, id))
    && (forall i, j :: 0 <= i < j < |events| ==> events[i].outboxEventId != events[j].outboxEventId)
  }

  predicate AddedOk(row: Row, id: Id, added: Option<Event>) {
    if added.Some? then row.status != Delivered && added.value == Authoritative(id, row.content)
      else row.status == Delivered
  }

  ghost predicate DeliveryOk(rows: map<Id, Row>, t: Token, d: Delivery) {
    && d.id in rows
    && match d.phase
       case Found(content) => content == rows[d.id].content
       case Inserted(added) => AddedOk(rows[d.id], d.id, added)
       case Updated(added) => rows[d.id].status == Processing && rows[d.id].token == Some(t)
         && AddedOk(rows[d.id], d.id, added)
       case Judged(attempts) => rows[d.id].token == Some(t) ==> rows[d.id].attempts == attempts
       case _ => true
  }

  ghost predicate OneInserts(deliveries: map<Token, Delivery>) {
    forall t, u :: t in deliveries && u in deliveries && t != u ==>
      !(Uncommitted(deliveries[t], deliveries[t].id) && Uncommitted(deliveries[u], deliveries[t].id))
  }

  ghost predicate DeliveriesOk(rows: map<Id, Row>, deliveries: map<Token, Delivery>, nextToken: Token) {
    && (forall t :: t in deliveries ==> t < nextToken && DeliveryOk(rows, t, deliveries[t]))
    && OneInserts(deliveries)
  }

  ghost predicate Inv(s: State) {
    RowsOk(s.rows, s.nextToken, s.max) && EventsOk(s.rows, s.events) && DeliveriesOk(s.rows, s.deliveries, s.nextToken)
  }

  /** Nine doubling delays, then five minutes each. */
  lemma {:induction false} TotalBackoffIs(n: nat)
    ensures TotalBackoff(n) == if n <= 9 then 1000 * (Power2(n) - 1) else 511_000 + 300_000 * (n - 9)
    ensures n > 0 ==> Backoff(n) == if n <= 9 then 1000 * Power2(n - 1) else 300_000
  {
    hide Backoff;
    Powers();
    if n == 0 {
    } else {
      TotalBackoffIs(n - 1);
      BackoffDoubles(n - 1);
      assert Power2(n) == 2 * Power2(n - 1);
    }
  }

  lemma Powers()
    ensures Power2(0) == 1 && Power2(1) == 2 && Power2(2) == 4 && Power2(3) == 8 && Power2(4) == 16
    ensures Power2(5) == 32 && Power2(6) == 64 && Power2(7) == 128 && Power2(8) == 256 && Power2(9) == 512
  {
    assert Power2(3) == 8;
    assert Power2(6) == 64;
  }

  lemma {:induction false} TotalGrows(m: nat, n: nat)
    requires m <= n
    ensures TotalBackoff(m) <= TotalBackoff(n)
  {
    if m < n { TotalGrows(m, n - 1); }
  }

  lemma ClaimedRowOk(row: Row, nextToken: Token, max: nat, now: int, leaseMs: nat)
    requires max > 0 && RowOk(row, nextToken, max) && row.status in {Pending, FailedRetryable, Processing}
    ensures RowOk(ClaimedRow(row, nextToken, now, leaseMs), nextToken + 1, max)
  {
    TotalGrows(Waits(row, max), Waits(ClaimedRow(row, nextToken, now, leaseMs), max));
    hide TotalBackoff;
  }

  lemma FailedRowOk(row: Row, nextToken: Token, max: nat, t: Token, attempts: nat, now: int)
    requires max > 0 && RowOk(row, nextToken, max) && (row.token == Some(t) ==> row.attempts == attempts)
    ensures RowOk(FailedRow(row, t, attempts, max, now), nextToken, max)
  {
    hide Backoff;
  }

  /** A new phase of one delivery, with the tables unchanged. */
  lemma GoesKeeps(s: State, t: Token, phase: Phase)
    requires Inv(s) && t in s.deliveries && DeliveryOk(s.rows, t, s.deliveries[t].(phase := phase))
    requires Uncommitted(s.deliveries[t].(phase := phase), s.deliveries[t].id) ==>
               Uncommitted(s.deliveries[t], s.deliveries[t].id) || !InsertBusy(s.deliveries, s.deliveries[t].id)
    ensures Inv(Goes(s, t, phase))
  {
    hide RowsOk, EventsOk, DeliveryOk;
  }

  lemma EndsKeeps(s: State, t: Token)
    requires Inv(s)
    ensures Inv(Ends(s, t))
  {
    hide RowsOk, EventsOk, DeliveryOk, Uncommitted;
  }

  lemma PutRowsOk(rows: map<Id, Row>, id: Id, row: Row, before: Token, after: Token, max: nat)
    requires RowsOk(rows, before, max) && before <= after && RowOk(row, after, max)
    requires id == (row.content.tenantId, row.content.operationId)
    ensures RowsOk(rows[id := row], after, max)
  {
    hide TotalBackoff, Waits;
  }

  lemma PutEventsOk(rows: map<Id, Row>, id: Id, row: Row, events: seq<Event>)
    requires EventsOk(rows, events) && row.status != Delivered && (id in rows ==> rows[id].status != Delivered)
    ensures EventsOk(rows[id := row], events)
  {
    hide Authoritative, EventExists;
  }

  lemma PutDeliveryOk(rows: map<Id, Row>, id: Id, row: Row, t: Token, d: Delivery)
    requires DeliveryOk(rows, t, d) && row.status != Delivered && !(d.id == id && d.phase.Updated?)
    requires id in rows ==> row.content == rows[id].content && rows[id].status != Delivered
    requires id in rows && row.token == Some(t) ==> row.token == rows[id].token && row.attempts == rows[id].attempts
    ensures DeliveryOk(rows[id := row], t, d)
  {
    hide Authoritative;
  }

  /** A row changes its status, without being delivered before or after, while nobody holds it. */
  lemma RowChanges(s: State, id: Id, row: Row, after: Token)
    requires Inv(s) && s.nextToken <= after && RowOk(row, after, s.max)
    requires id == (row.content.tenantId, row.content.operationId) && row.status != Delivered
    requires id in s.rows ==>
               row.content == s.rows[id].content && s.rows[id].status != Delivered && !Held(s.deliveries, id)
    requires id in s.rows ==>
               (row.token == s.rows[id].token && row.attempts == s.rows[id].attempts) || row.token == Some(s.nextToken)
    ensures Inv(s.(rows := s.rows[id := row], nextToken := after))
  {
    PutRowsOk(s.rows, id, row, s.nextToken, after, s.max);
    PutEventsOk(s.rows, id, row, s.events);
    hide RowOk;
    forall t | t in s.deliveries ensures DeliveryOk(s.rows[id := row], t, s.deliveries[t]) {
      assert !(s.deliveries[t].id == id && s.deliveries[t].phase.Updated?) by {
        if id !in s.rows { assert DeliveryOk(s.rows, t, s.deliveries[t]); }
      }
      PutDeliveryOk(s.rows, id, row, t, s.deliveries[t]);
    }
    hide DeliveryOk, Uncommitted, Held, RowsOk, EventsOk;
  }

  lemma EnqueueKeeps(s: State, content: Record, now: int)
    requires Inv(s) && Enabled(s, Enqueue(content, now))
    ensures Inv(DoEnqueue(s, content, now))
  {
    hide Held, EventsOk, DeliveriesOk;
    RowChanges(s, (content.tenantId, content.operationId), Row(content, Pending, None, None, now, 0, 0, 0),
      s.nextToken);
  }

  /** Each claim starts a delivery of its own. */
  lemma NewDelivery(s: State, id: Id)
    requires Inv(s) && id in s.rows && s.nextToken > 0 && s.nextToken - 1 !in s.deliveries
    ensures Inv(s.(deliveries := s.deliveries[s.nextToken - 1 := Delivery(id, Claimed)]))
  {
    assert DeliveryOk(s.rows, s.nextToken - 1, Delivery(id, Claimed));
    hide RowsOk, EventsOk, DeliveryOk;
  }

  lemma ClaimKeeps(s: State, id: Id, now: int, leaseMs: nat)
    requires Inv(s) && Enabled(s, Claim(id, now, leaseMs))
    ensures Inv(DoClaim(s, id, now, leaseMs))
  {
    ClaimedRowOk(s.rows[id], s.nextToken, s.max, now, leaseMs);
    var row := ClaimedRow(s.rows[id], s.nextToken, now, leaseMs);
    assert s.nextToken !in s.deliveries;
    hide RowOk, EventsOk, Held, DeliveryOk, OneInserts;
    RowChanges(s, id, row, s.nextToken + 1);
    hide RowsOk, DeliveriesOk;
    NewDelivery(s.(rows := s.rows[id := row], nextToken := s.nextToken + 1), id);
  }

  lemma InsertKeeps(s: State, t: Token)
    requires Inv(s) && Enabled(s, Insert(t))
    ensures Inv(DoInsert(s, t))
  {
    assert DeliveryOk(s.rows, t, s.deliveries[t]);
    hide Authoritative;
    GoesKeeps(s, t, DoInsert(s, t).deliveries[t].phase);
  }

  lemma FinalizeKeeps(s: State, t: Token)
    requires Inv(s) && Enabled(s, Finalize(t))
    ensures Inv(DoFinalize(s, t))
  {
    assert DeliveryOk(s.rows, t, s.deliveries[t]);
    GoesKeeps(s, t, DoFinalize(s, t).deliveries[t].phase);
  }

  /** A delivery about to commit holds its claim, and brings the event its row still lacks. */
  lemma CommitReady(s: State, t: Token)
    requires Inv(s) && Enabled(s, Commit(t))
    ensures var d := s.deliveries[t];
            && s.rows[d.id].status == Processing && s.rows[d.id].token == Some(t)
            && d.phase.added == Some(Authoritative(d.id, s.rows[d.id].content))
  {
    assert DeliveryOk(s.rows, t, s.deliveries[t]);
  }

  lemma PublishedEvents(s: State, t: Token)
    requires Inv(s) && Enabled(s, Commit(t))
    ensures EventsOk(Published(s, t).rows, Published(s, t).events)
  {
    hide RowsOk, DeliveriesOk, Authoritative, Held, InsertBusy;
    CommitReady(s, t);
    var s', id := Published(s, t), s.deliveries[t].id;
    assert forall i :: 0 <= i < |s.events| ==> s.events[i].outboxEventId != id;
    assert s'.events[|s.events|].outboxEventId == id;
    forall i | i in s'.rows && s'.rows[i].status == Delivered ensures EventExists(s'.events, i) {
      if i != id {
        assert EventExists(s.events, i);
        var k :| 0 <= k < |s.events| && s.events[k].outboxEventId == i;
        assert s'.events[k].outboxEventId == i;
      }
    }
  }

  lemma PublishedOthers(s: State, t: Token, u: Token)
    requires Inv(s) && Enabled(s, Commit(t)) && u in s.deliveries && u != t
    ensures DeliveryOk(Published(s, t).rows, u, s.deliveries[u])
  {
    CommitReady(s, t);
    hide RowsOk, EventsOk, Authoritative;
    assert DeliveryOk(s.rows, u, s.deliveries[u]);
    assert !(Uncommitted(s.deliveries[t], s.deliveries[t].id) && Uncommitted(s.deliveries[u], s.deliveries[t].id));
  }

  lemma PublishedRows(s: State, t: Token)
    requires Inv(s) && Enabled(s, Commit(t))
    ensures RowsOk(Published(s, t).rows, s.nextToken, s.max)
  {
    CommitReady(s, t);
    hide EventsOk, DeliveriesOk;
    var id := s.deliveries[t].id;
    PutRowsOk(s.rows, id, DeliveredRow(s.rows[id]), s.nextToken, s.nextToken, s.max);
  }

  lemma PublishedDeliveries(s: State, t: Token)
    requires Inv(s) && Enabled(s, Commit(t))
    ensures DeliveriesOk(Published(s, t).rows, Goes(s, t, Failing).deliveries, s.nextToken)
  {
    forall u | u in s.deliveries && u != t ensures DeliveryOk(Published(s, t).rows, u, s.deliveries[u]) {
      PublishedOthers(s, t, u);
    }
    assert OneInserts(Goes(s, t, Failing).deliveries) by { hide DeliveryOk, Published; }
    var rows := Published(s, t).rows;
    assert DeliveryOk(rows, t, s.deliveries[t].(phase := Failing));
    hide RowsOk, EventsOk, Enabled, Published, DeliveryOk, OneInserts;
  }

  lemma CommitKeeps(s: State, t: Token)
    requires Inv(s) && Enabled(s, Commit(t))
    ensures Inv(Ends(Published(s, t), t)) && Inv(Goes(Published(s, t), t, Failing))
  {
    hide RowsOk, EventsOk, DeliveriesOk, DeliveredRow;
    PublishedEvents(s, t);
    PublishedRows(s, t);
    PublishedDeliveries(s, t);
    var s' := Published(s, t);
    hide Enabled, Published;
    assert Inv(Goes(s', t, Failing));
    EndsKeeps(Goes(s', t, Failing), t);
    assert Ends(s', t).deliveries == Ends(Goes(s', t, Failing), t).deliveries;
  }

  lemma RescheduleKeeps(s: State, t: Token, now: int)
    requires Inv(s) && Enabled(s, Reschedule(t, now))
    ensures Inv(DoReschedule(s, t, now))
  {
    var d := s.deliveries[t];
    assert DeliveryOk(s.rows, t, d);
    var row := FailedRow(s.rows[d.id], t, d.phase.attempts, s.max, now);
    FailedRowOk(s.rows[d.id], s.nextToken, s.max, t, d.phase.attempts, now);
    hide RowOk, EventsOk, DeliveriesOk, Backoff, Held;
    if row == s.rows[d.id] {
      assert s.rows[d.id := row] == s.rows;
    } else {
      RowChanges(s, d.id, row, s.nextToken);
    }
    EndsKeeps(s.(rows := s.rows[d.id := row]), t);
  }

  lemma StepKeeps(s: State, a: Action)
    requires Inv(s) && Enabled(s, a)
    ensures Inv(Next(s, a))
  {
    hide RowsOk, EventsOk;
    match a
    case Enqueue(content, now) => EnqueueKeeps(s, content, now);
    case Claim(id, now, leaseMs) => ClaimKeeps(s, id, now, leaseMs);
    case Find(t, now) =>
      EndsKeeps(s, t);
      if t in DoFind(s, t, now).deliveries { GoesKeeps(s, t, Found(s.rows[s.deliveries[t].id].content)); }
    case Insert(t) => InsertKeeps(s, t);
    case Finalize(t) => FinalizeKeeps(s, t);
    case Commit(t) => CommitKeeps(s, t);
    case CommitUnheard(t) => CommitKeeps(s, t);
    case Error(t) => GoesKeeps(s, t, Failing);
    case Crash(t) => EndsKeeps(s, t);
    case Judge(t) =>
      EndsKeeps(s, t);
      if t in DoJudge(s, t).deliveries { GoesKeeps(s, t, Judged(s.rows[s.deliveries[t].id].attempts)); }
    case Reschedule(t, now) => RescheduleKeeps(s, t, now);
  }
}
