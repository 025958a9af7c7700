/** The intent table's own operations, as one call sees them: answers, refusals, the row after them. */
module RegistrationIntents {
  import opened Wrappers
  import opened Registration
  import opened RegistrationCore
  import opened RegistrationClaims

  datatype Refusal =
    KeyConflict | AlreadyCompleted | DataConflict | AccountRequiresReconciliation | RequiresSupport | InProgress

  datatype Answer = Owned(id: Id, token: Token) | AlreadyDone(id: Id) | Refused(why: Refusal)

  /** The search of the table: by address or by key. */
  predicate Matches(row: Intent, input: Input) {
    row.email == input.email || row.key == input.key
  }

  /** Nothing of an earlier attempt is left outside the intent. */
  predicate NothingLeft(row: Intent, tenants: seq<Tenancy>, identities: map<User, Identity>) {
    && (forall i :: 0 <= i < |tenants| ==> tenants[i].email != row.email)
    && (forall u :: u in identities ==> identities[u].email != row.email)
    && (row.user.Some? ==> row.user.value !in identities)
  }

  class RegistrationIntentTable {
    var intents: map<Id, Intent>
    var nextToken: Token

    constructor ()
      ensures intents == map[] && nextToken == 0
    {
      intents, nextToken := map[], 0;
    }

    /** `claimRegistrationIntent`; `pick` is the row its search returns when there is one. */
    method ClaimRegistrationIntent(
        input: Input, newId: Id, pick: Id, tenants: seq<Tenancy>, identities: map<User, Identity>, now: int)
      returns (answer: Answer)
      requires newId !in intents
      requires || (pick in intents && Matches(intents[pick], input))
               || (forall i :: i in intents ==> !Matches(intents[i], input))
      modifies this
      ensures !(pick in old(intents) && Matches(old(intents)[pick], input)) ==>
                && answer == Owned(newId, old(nextToken))
                && intents == old(intents)[newId := Intent(input.email, input.key, input.payload, Claimed,
                     Some(old(nextToken)), Some(now + 60_000), None, None, "", 0)]
      ensures pick in old(intents) && Matches(old(intents)[pick], input) ==>
                var row := old(intents)[pick];
                var same := row.email == input.email && row.payload == input.payload;
                var other := row.email == input.email && row.payload != input.payload;
                && (answer.Owned? <==>
                      || (same && Unsettled(row) && Over(row, now))
                      || (other && SafelyFailed(row) && Over(row, now) && NothingLeft(row, tenants, identities)))
                && (answer.AlreadyDone? <==> same && row.state == Completed)
                && (answer == Refused(KeyConflict) <==> row.email != input.email)
                && (answer == Refused(InProgress) <==> same && Unsettled(row) && !Over(row, now))
                && (answer == Refused(RequiresSupport) <==> same && row.state == FailedFinal)
                && (answer == Refused(AlreadyCompleted) <==> other && row.state == Completed)
                && (answer == Refused(DataConflict) <==>
                      other && row.state != Completed && !(SafelyFailed(row) && Over(row, now)))
                && (answer == Refused(AccountRequiresReconciliation) <==>
                      other && SafelyFailed(row) && Over(row, now) && !NothingLeft(row, tenants, identities))
                && (answer.AlreadyDone? ==> answer.id == pick)
                && (answer.Owned? ==>
                      && answer == Owned(pick, old(nextToken))
                      && intents == old(intents)[pick :=
                           row.(state := Claimed, token := Some(old(nextToken)), lease := Some(now + 60_000),
                                code := "", payload := input.payload, user := if same then row.user else None,
                                version := row.version + 1)])
      ensures !answer.Owned? ==> intents == old(intents)
      ensures nextToken == old(nextToken) + if answer.Owned? then 1 else 0
    {
      var clash := AnyClash(intents, input);
      var token := nextToken;
      if !clash {
        intents, nextToken := intents[newId := NewIntent(input, token, now)], nextToken + 1;
        return Owned(newId, token);
      }
      var existing := intents[pick];
      if existing.email != input.email { return Refused(KeyConflict); }
      if existing.payload != input.payload {
        if existing.state == Completed { return Refused(AlreadyCompleted); }
        if !Recoverable(existing, now) { return Refused(DataConflict); }
        if HasAccount(tenants, existing.email) || EmailTaken(identities, existing.email)
           || (existing.user.Some? && existing.user.value in identities) {
          return Refused(AccountRequiresReconciliation);
        }
        intents, nextToken := intents[pick := RecoveredRow(existing, input.payload, token, now)], nextToken + 1;
        return Owned(pick, token);
      }
      if existing.state == Completed { return AlreadyDone(pick); }
      if existing.state == FailedFinal { return Refused(RequiresSupport); }
      if !Lapsed(existing.lease, now) { return Refused(InProgress); }
      UnsettledMeans(existing);
      intents, nextToken := intents[pick := ReclaimedRow(existing, token, now)], nextToken + 1;
      return Owned(pick, token);
    }

    method ClaimRegistrationCompensation(id: Id, token: Option<Token>, now: int) returns (claimed: bool)
      modifies this
      ensures claimed <==> && token.Some? && id in old(intents) && old(intents)[id].token == token
                           && old(intents)[id].state == AuthCreated
      ensures intents == if !claimed then old(intents) else
                old(intents)[id := old(intents)[id].(
                  state := CompensationRequired, code := "REGISTER_TRANSACTION_FAILED", lease := Some(now + 60_000),
                  version := old(intents)[id].version + 1)]
      ensures nextToken == old(nextToken)
    {
      if token.None? || id !in intents || intents[id].token != token || intents[id].state != AuthCreated {
        return false;
      }
      intents := intents[id := intents[id].(state := CompensationRequired, code := "REGISTER_TRANSACTION_FAILED",
                                            lease := Some(now + LEASE_MS), version := intents[id].version + 1)];
      return true;
    }

    /** The three `mark` methods: they differ in the state and the code they set. A row marked as
        failed, but not for good, can be claimed again at once: by the same data, or, if nothing of
        the attempt was persisted and the failure is a known safe one, by other data. */
    method Mark(id: Id, state: Provisioning, code: string, token: Option<Token>) returns (marked: bool)
      requires state in {FailedRetryable, CompensationRequired, FailedFinal}
      modifies this
      ensures marked <==> && id in old(intents) && old(intents)[id].state != Completed
                          && (token.Some? ==> old(intents)[id].token == token)
      ensures !marked ==> intents == old(intents)
      ensures marked ==>
                && id in intents
                && intents == old(intents)[id := old(intents)[id].(
                     state := state, code := intents[id].code, token := None, lease := None,
                     version := old(intents)[id].version + 1)]
                && intents[id].code <= code && |intents[id].code| <= 120
                && (|code| > 120 ==> |intents[id].code| == 120) && (|code| <= 120 ==> intents[id].code == code)
                && forall now :: && (Reclaimable(intents[id], now) <==> state != FailedFinal)
                                 && (Recoverable(intents[id], now) <==>
                                       && state == FailedRetryable && code in SAFE_FAILURES
                                       && intents[id].tenant.None?)
      ensures nextToken == old(nextToken)
    {
      if id !in intents || intents[id].state == Completed || (token.Some? && intents[id].token != token) {
        return false;
      }
      ghost var before := intents[id];
      intents := intents[id := intents[id].(state := state, code := ShortCode(code), token := None, lease := None,
                                            version := intents[id].version + 1)];
      FailureReleases(before, token, state, code);
      return true;
    }
  }

  lemma {:induction false} FailureReleases(row: Intent, token: Option<Token>, state: Provisioning, code: string)
    requires Markable(row, token) && state in {FailedRetryable, CompensationRequired, FailedFinal}
    ensures var after := MarkedRow(row, token, state, code);
            forall now :: (Reclaimable(after, now) <==> state != FailedFinal)
                       && (Recoverable(after, now) <==>
                             state == FailedRetryable && code in SAFE_FAILURES && after.tenant.None?)
  {
    SafeFailuresShort(code);
  }

  lemma SafeFailuresShort(code: string)
    ensures ShortCode(code) in SAFE_FAILURES <==> code in SAFE_FAILURES
  {
    forall safe | safe in SAFE_FAILURES ensures |safe| < 120 {}
  }
}
