/** Delivering one claim as its worker sees it: `deliver` and `fail` with nobody else around. */
module AuditService {
  import opened Wrappers
  import opened AuditRecord
  import opened AuditOutbox
  import opened AuditTheorems

  /** How the delivery's transaction ends, once it found its claim. */
  datatype Ending = Commits | Fails | CommitsUnheard

  predicate Holds(rows: map<Id, Row>, id: Id, token: Token, now: int) {
    && id in rows && rows[id].status == Processing && rows[id].token == Some(token)
    && rows[id].lease.Some? && rows[id].lease.value > now
  }

  class AuditOutboxService {
    var rows: map<Id, Row>
    var events: seq<Event>
    const max: nat

    constructor (rows: map<Id, Row>, events: seq<Event>, configured: Option<int>)
      ensures this.rows == rows && this.events == events
      ensures this.max == if configured.Some? && configured.value > 0 then configured.value else 8
    {
      this.rows, this.events, this.max := rows, events, PositiveInt(configured, 8);
    }

    /** A stale claim changes nothing; a failed transaction leaves no event and schedules a retry or
        gives up; a commit whose answer was lost is not undone by the failure handling after it. */
    method Deliver(id: Id, token: Token, now: int, ending: Ending) returns (delivered: bool)
      modifies this
      ensures delivered <==> old(Holds(rows, id, token, now)) && ending == Commits
      ensures !old(Holds(rows, id, token, now)) ==> rows == old(rows) && events == old(events)
      ensures old(Holds(rows, id, token, now)) && ending != Fails ==>
                && rows == old(rows)[id := old(rows)[id].(status := Delivered, lease := None)]
                && events == old(events) + if EventExists(old(events), id) then []
                   else [Authoritative(id, old(rows)[id].content)]
      ensures old(Holds(rows, id, token, now)) && ending == Fails ==>
                && events == old(events) && id in rows && rows == old(rows)[id := rows[id]]
                && var row, n := rows[id], old(rows)[id].attempts;
                   && row.status == (if n >= max then FailedFinal else FailedRetryable)
                   && row.available == now + Backoff(n) && row.lease.None?
                   && row.token == Some(token) && row.attempts == n && row.content == old(rows)[id].content
    {
      if !Holds(rows, id, token, now) { return false; }
      if ending != Fails {
        if !EventExists(events, id) { events := events + [Authoritative(id, rows[id].content)]; }
        rows := rows[id := DeliveredRow(rows[id])];
      }
      if ending != Commits { Fail(id, token, now); }
      return ending == Commits;
    }

    /** Only a row still PROCESSING under the token is rescheduled, or given up with its attempts used up. */
    method Fail(id: Id, token: Token, now: int)
      modifies this
      ensures events == old(events)
      ensures if id in old(rows) && old(rows)[id].token == Some(token) && old(rows)[id].status == Processing then
                && id in rows && rows == old(rows)[id := rows[id]]
                && var row, n := rows[id], old(rows)[id].attempts;
                   && row.status == (if n >= max then FailedFinal else FailedRetryable)
                   && row.available == now + Backoff(n) && row.lease.None?
                   && row.token == Some(token) && row.attempts == n && row.content == old(rows)[id].content
              else rows == old(rows)
      ensures rows == if id in old(rows) && old(rows)[id].token == Some(token)
                      then old(rows)[id := FailedRow(old(rows)[id], token, old(rows)[id].attempts, max, now)]
                      else old(rows)
    {
      if id !in rows || rows[id].token != Some(token) { return; }
      var attempts := rows[id].attempts;
      if rows[id].status == Processing {
        var delay := Backoff(attempts);
        if attempts >= max {
          rows := rows[id := rows[id].(status := FailedFinal, available := now + delay, lease := None)];
        } else {
          rows := rows[id := rows[id].(status := FailedRetryable, available := now + delay, lease := None,
            waited := rows[id].waited + delay)];
        }
      }
    }
  }

  // ----- the method is a run of the interleaved protocol

  /** The steps of a delivery that finds its claim. */
  function Steps(t: Token, now: int, ending: Ending): seq<Action> {
    match ending
    case Commits => [Find(t, now), Insert(t), Finalize(t), Commit(t)]
    case Fails => [Find(t, now), Error(t), Judge(t), Reschedule(t, now)]
    case CommitsUnheard => [Find(t, now), Insert(t), Finalize(t), CommitUnheard(t), Judge(t), Reschedule(t, now)]
  }

  function RowAfter(row: Row, t: Token, max: nat, now: int, ending: Ending): Row {
    if ending == Fails then FailedRow(row, t, row.attempts, max, now) else DeliveredRow(row)
  }

  ghost predicate Leads(s: State, run: seq<Action>, e: State) {
    IsRun(s, run) && Exec(s, run) == e
  }

  lemma Cons(s: State, a: Action, m: State, rest: seq<Action>, e: State)
    requires Enabled(s, a) && Next(s, a) == m && Leads(m, rest, e)
    ensures Leads(s, [a] + rest, e)
  {
    hide Enabled, Next;
    assert ([a] + rest)[1..] == rest;
  }

  /** The only delivery under way, in the given phase. */
  function Alone(rows: map<Id, Row>, events: seq<Event>, t: Token, id: Id, phase: Phase, nextToken: Token,
      max: nat): State
  {
    State(rows, events, map[t := Delivery(id, phase)], nextToken, max)
  }

  lemma FailedAlone(rows: map<Id, Row>, events: seq<Event>, t: Token, id: Id, nextToken: Token, max: nat, now: int)
    requires id in rows && rows[id].token == Some(t)
    ensures Leads(Alone(rows, events, t, id, Failing, nextToken, max), [Judge(t), Reschedule(t, now)],
                  State(rows[id := FailedRow(rows[id], t, rows[id].attempts, max, now)], events, map[], nextToken, max))
  {
    hide FailedRow, Leads;
    var failing := Alone(rows, events, t, id, Failing, nextToken, max);
    var judged := Alone(rows, events, t, id, Judged(rows[id].attempts), nextToken, max);
    var done := State(rows[id := FailedRow(rows[id], t, rows[id].attempts, max, now)], events, map[], nextToken, max);
    assert Next(judged, Reschedule(t, now)).deliveries == map[];
    EndHere(done);
    Cons(judged, Reschedule(t, now), done, [], done);
    Cons(failing, Judge(t), judged, [Reschedule(t, now)] + [], done);
    assert [Judge(t)] + ([Reschedule(t, now)] + []) == [Judge(t), Reschedule(t, now)];
  }

  lemma EndHere(s: State)
    ensures Leads(s, [], s)
  {
  }

  /** The transaction up to its commit. */
  lemma WrittenAlone(rows: map<Id, Row>, events: seq<Event>, t: Token, id: Id, nextToken: Token, max: nat, now: int,
      rest: seq<Action>, e: State)
    requires Holds(rows, id, t, now) && !EventExists(events, id)
    requires Leads(Alone(rows, events, t, id, Updated(Some(Authoritative(id, rows[id].content))), nextToken, max),
                   rest, e)
    ensures Leads(Alone(rows, events, t, id, Claimed, nextToken, max), [Find(t, now), Insert(t), Finalize(t)] + rest, e)
  {
    hide Authoritative, Leads, EventExists;
    var added := Some(Authoritative(id, rows[id].content));
    var found := Alone(rows, events, t, id, Found(rows[id].content), nextToken, max);
    var inserted := Alone(rows, events, t, id, Inserted(added), nextToken, max);
    Cons(inserted, Finalize(t), Alone(rows, events, t, id, Updated(added), nextToken, max), rest, e);
    Cons(found, Insert(t), inserted, [Finalize(t)] + rest, e);
    Cons(Alone(rows, events, t, id, Claimed, nextToken, max), Find(t, now), found,
         [Insert(t)] + ([Finalize(t)] + rest), e);
    assert [Find(t, now)] + ([Insert(t)] + ([Finalize(t)] + rest)) == [Find(t, now), Insert(t), Finalize(t)] + rest;
  }

  /** Each ending's steps lead where the method says, for a claim whose row has no event yet. */
  lemma {:induction false} LoneDelivery(rows: map<Id, Row>, events: seq<Event>, t: Token, id: Id, nextToken: Token,
      max: nat, now: int, ending: Ending)
    requires Holds(rows, id, t, now) && !EventExists(events, id)
    ensures Leads(Alone(rows, events, t, id, Claimed, nextToken, max), Steps(t, now, ending),
                  State(rows[id := RowAfter(rows[id], t, max, now, ending)],
                        if ending == Fails then events else events + [Authoritative(id, rows[id].content)], map[],
                          nextToken, max))
  {
    hide Authoritative, Leads, EventExists;
    var claimed, e := rows[id].content, events + [Authoritative(id, rows[id].content)];
    var updated := Alone(rows, events, t, id, Updated(Some(Authoritative(id, claimed))), nextToken, max);
    var delivered := rows[id := DeliveredRow(rows[id])];
    match ending
    case Fails => LoneFailure(rows, events, t, id, nextToken, max, now);
    case Commits =>
      var done := State(delivered, e, map[], nextToken, max);
      assert Next(updated, Commit(t)) == done;
      EndHere(done);
      Cons(updated, Commit(t), done, [], done);
      WrittenAlone(rows, events, t, id, nextToken, max, now, [Commit(t)] + [], done);
      assert [Find(t, now), Insert(t), Finalize(t)] + ([Commit(t)] + []) == Steps(t, now, ending);
    case CommitsUnheard =>
      var failing := Alone(delivered, e, t, id, Failing, nextToken, max);
      var done := State(delivered, e, map[], nextToken, max);
      assert Next(updated, CommitUnheard(t)) == failing;
      FailedAlone(delivered, e, t, id, nextToken, max, now);
      assert delivered[id := FailedRow(delivered[id], t, delivered[id].attempts, max, now)] == delivered;
      Cons(updated, CommitUnheard(t), failing, [Judge(t), Reschedule(t, now)], done);
      WrittenAlone(rows, events, t, id, nextToken, max, now, [CommitUnheard(t)] + [Judge(t), Reschedule(t, now)], done);
      assert [Find(t, now), Insert(t), Finalize(t)] + ([CommitUnheard(t)] + [Judge(t), Reschedule(t, now)]) ==
             Steps(t, now, ending);
  }

  lemma LoneFailure(rows: map<Id, Row>, events: seq<Event>, t: Token, id: Id, nextToken: Token, max: nat, now: int)
    requires Holds(rows, id, t, now)
    ensures Leads(Alone(rows, events, t, id, Claimed, nextToken, max), Steps(t, now, Fails),
                  State(rows[id := FailedRow(rows[id], t, rows[id].attempts, max, now)], events, map[], nextToken, max))
  {
    hide Authoritative, Leads, EventExists, FailedRow;
    var done := State(rows[id := FailedRow(rows[id], t, rows[id].attempts, max, now)], events, map[], nextToken, max);
    var found := Alone(rows, events, t, id, Found(rows[id].content), nextToken, max);
    FailedAlone(rows, events, t, id, nextToken, max, now);
    Cons(found, Error(t), Alone(rows, events, t, id, Failing, nextToken, max), [Judge(t), Reschedule(t, now)], done);
    Cons(Alone(rows, events, t, id, Claimed, nextToken, max), Find(t, now), found,
      [Error(t)] + [Judge(t), Reschedule(t, now)], done);
    assert [Find(t, now)] + ([Error(t)] + [Judge(t), Reschedule(t, now)]) == Steps(t, now, Fails);
  }
}
