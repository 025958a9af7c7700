/** Registration: an intent claimed under a token and a lease, an identity at an outside provider,
    a tenant created in one database transaction, and compensation when that transaction fails.

    One action per database statement, provider call, transaction end or crash, by any number of
    calls at once. A call that throws without writing anything simply stops, like one that crashes. */
module Registration {
  import opened Wrappers

  type Id = nat
  type Call = nat
  type Token = nat
  type User = nat

  datatype Provisioning =
    Claimed | AuthCreated | Unknown | CompensationRequired | Completed | FailedRetryable | FailedFinal

  /** `version` stands for the time of the last change, which every update renews. */
  datatype Intent = Intent(
    email: string, key: string, payload: string, state: Provisioning, token: Option<Token>, lease: Option<int>,
    user: Option<User>, tenant: Option<nat>, code: string, version: nat)

  datatype Input = Input(email: string, key: string, payload: string)

  /** Where the owner of a claim is in its call. Adopting: it is about to record the identity, and
      an error there sends it on with that code, or ends it. Deleting: the compensation's lease ends
      at `deadline`. */
  datatype Step =
    | Referral
    | Profile
    | Lookup
    | Creating
    | Conflicted
    | Adopting(user: User, onError: Option<string>)
    | Retry(code: string)
    | Final(code: string)
    | Ready(user: User)
    | Fenced(user: User)
    | Failed(user: User)
    | Deleting(user: User, deadline: int)
    | Concluding(deleted: bool)

  datatype Phase =
    | Starting
    | Reclaiming(id: Id)
    | Probing(id: Id, seen: Intent)
    | Recovering(id: Id, seen: Intent)
    | Owner(id: Id, token: Token, at: Step)

  datatype Worker = Worker(input: Input, phase: Phase)

  datatype Identity = Identity(email: string, intent: Option<Id>)

  datatype Tenancy = Tenancy(tenant: nat, email: string)

  /** `made` remembers which intent each identity was created for. */
  datatype State = State(
    intents: map<Id, Intent>, tenants: seq<Tenancy>, identities: map<User, Identity>, made: map<User, Id>,
    workers: map<Call, Worker>, nextToken: Token, now: int)

  datatype Referred = Without | Valid | Invalid

  datatype Action =
    | Start(t: Call, input: Input)
    | Create(t: Call, id: Id)
    | Look(t: Call, id: Id)
    | Reclaim(t: Call)
    | Probe(t: Call)
    | Recover(t: Call)
    | Refer(t: Call, referred: Referred)
    | CheckProfile(t: Call)
    | FindIdentity(t: Call, found: Option<User>)
    | LookupFails(t: Call)
    | CreateIdentity(t: Call, user: User, created: bool, heard: bool, code: string)
    | FindAgain(t: Call, found: Option<User>)
    | AuthClaim(t: Call, heard: bool)
    | Mark(t: Call)
    | Fence(t: Call)
    | TransactionFails(t: Call)
    | Commit(t: Call, tenant: nat, heard: bool)
    | ClaimCompensation(t: Call)
    | Delete(t: Call, deleted: bool, heard: bool)
    | Crash(t: Call)
    | Tick(ms: nat)
    | Outside(user: User, email: string)

  const LEASE_MS := 60000

  // ----- reading

  predicate Clashes(intents: map<Id, Intent>, input: Input, id: Id) {
    id in intents && (intents[id].key == input.key || intents[id].email == input.email)
  }

  predicate AnyClash(intents: map<Id, Intent>, input: Input) {
    exists id :: id in intents && Clashes(intents, input, id)
  }

  predicate Lapsed(lease: Option<int>, now: int) {
    lease.None? || lease.value <= now
  }

  const SAFE_FAILURES :=
    {"AUTH_LOOKUP_FAILED_BEFORE_CREATE", "REGISTER_TRANSACTION_ROLLED_BACK", "password_policy", "rate_limited"}

  /** What an error of `createUser` may be recorded as: the provider's codes, but for an address in use. */
  const CREATE_FAILURES :=
    {"invalid_credentials", "password_policy", "identity_not_found", "email_not_verified", "rate_limited",
     "provider_unavailable", "provider_timeout", "conflict", "compensation_required", "recovery_finalization_failed",
     "unknown_provider_error", "AUTH_CREATE_FAILED"}

  predicate Recoverable(row: Intent, now: int) {
    row.code in SAFE_FAILURES && row.state == FailedRetryable && row.token.None? && row.tenant.None?
      && Lapsed(row.lease, now)
  }

  predicate Reclaimable(row: Intent, now: int) {
    row.state in {Claimed, AuthCreated, Unknown, CompensationRequired, FailedRetryable} && Lapsed(row.lease, now)
  }

  /** What a call does with the intent it found: go on to claim it, to recover it, or give up. */
  function Judge(row: Intent, id: Id, input: Input, now: int): Option<Phase> {
    if row.email != input.email then None
    else if row.payload != input.payload then if Recoverable(row, now) then Some(Probing(id, row)) else None
    else if row.state in {Completed, FailedFinal} then None
    else if Lapsed(row.lease, now) then Some(Reclaiming(id)) else None
  }

  predicate HasAccount(tenants: seq<Tenancy>, email: string) {
    exists i :: 0 <= i < |tenants| && tenants[i].email == email
  }

  predicate EmailTaken(identities: map<User, Identity>, email: string) {
    exists u :: u in identities && identities[u].email == email
  }

  /** A transaction that passed its fence holds the row until it ends. */
  predicate Held(workers: map<Call, Worker>, id: Id) {
    exists t :: t in workers && workers[t].phase.Owner? && workers[t].phase.at.Fenced? && workers[t].phase.id == id
  }

  // ----- the intent's row

  function NewIntent(input: Input, token: Token, now: int): Intent {
    Intent(input.email, input.key, input.payload, Claimed, Some(token), Some(now + LEASE_MS), None, None, "", 0)
  }

  function ReclaimedRow(row: Intent, token: Token, now: int): Intent {
    row.(state := Claimed, token := Some(token), lease := Some(now + LEASE_MS), code := "", version := row.version + 1)
  }

  function RecoveredRow(row: Intent, payload: string, token: Token, now: int): Intent {
    ReclaimedRow(row, token, now).(payload := payload, user := None)
  }

  function AuthCreatedRow(row: Intent, user: User, now: int): Intent {
    row.(state := AuthCreated, user := Some(user), lease := Some(now + LEASE_MS), code := "",
      version := row.version + 1)
  }

  function CompletedRow(row: Intent, user: User, tenant: nat): Intent {
    row.(state := Completed, user := Some(user), tenant := Some(tenant), token := None, lease := None, code := "",
         version := row.version + 1)
  }

  function CompensatingRow(row: Intent, now: int): Intent {
    row.(state := CompensationRequired, code := "REGISTER_TRANSACTION_FAILED", lease := Some(now + LEASE_MS),
         version := row.version + 1)
  }

  /** The column holds no longer codes. */
  function ShortCode(code: string): string {
    if |code| <= 120 then code else code[..120]
  }

  /** The fence of the `mark` methods: the claim's own token, if the caller has one, and never over
      COMPLETED. */
  predicate Markable(row: Intent, token: Option<Token>) {
    (token.Some? ==> row.token == token) && row.state != Completed
  }

  function MarkedRow(row: Intent, token: Option<Token>, state: Provisioning, code: string): Intent {
    if !Markable(row, token) then row
    else row.(state := state, code := ShortCode(code), token := None, lease := None, version := row.version + 1)
  }

  function Marking(at: Step): (r: Option<(Provisioning, string)>) {
    match at
    case Retry(code) => Some((FailedRetryable, code))
    case Final(code) => Some((FailedFinal, code))
    case Concluding(deleted) =>
      if deleted then Some((FailedRetryable, "REGISTER_TRANSACTION_ROLLED_BACK"))
      else Some((CompensationRequired, "AUTH_ROLLBACK_FAILED"))
    case _ => None
  }

  // ----- steps

  predicate Owns(s: State, t: Call) {
    t in s.workers && s.workers[t].phase.Owner? && s.workers[t].phase.id in s.intents
  }

  function StepOf(s: State, t: Call): Step
    requires Owns(s, t)
  {
    s.workers[t].phase.at
  }

  /** No transaction of another call holds the row this call is about to change. */
  predicate RowFree(s: State, t: Call)
    requires Owns(s, t)
  {
    !Held(s.workers, s.workers[t].phase.id)
  }

  predicate Found(s: State, t: Call, found: Option<User>)
    requires t in s.workers
  {
    if found.Some? then found.value in s.identities && s.identities[found.value].email == s.workers[t].input.email
    else !EmailTaken(s.identities, s.workers[t].input.email)
  }

  predicate Fresh(s: State, user: User) {
    user !in s.identities && user !in s.made
  }

  predicate FreshTenant(tenants: seq<Tenancy>, tenant: nat) {
    forall i :: 0 <= i < |tenants| ==> tenants[i].tenant != tenant
  }

  predicate Enabled(s: State, a: Action) {
    match a
    case Start(t, _) => t !in s.workers
    case Create(t, id) => t in s.workers && s.workers[t].phase.Starting? && id !in s.intents
      && !AnyClash(s.intents, s.workers[t].input)
    case Look(t, id) => t in s.workers && s.workers[t].phase.Starting? && Clashes(s.intents, s.workers[t].input, id)
    case Reclaim(t) =>
      t in s.workers && s.workers[t].phase.Reclaiming? && s.workers[t].phase.id in s.intents
        && !Held(s.workers, s.workers[t].phase.id)
    case Probe(t) => t in s.workers && s.workers[t].phase.Probing?
    case Recover(t) =>
      t in s.workers && s.workers[t].phase.Recovering? && s.workers[t].phase.id in s.intents
        && !Held(s.workers, s.workers[t].phase.id)
    case Refer(t, referred) => Owns(s, t) && StepOf(s, t).Referral? && (referred.Valid? ==> RowFree(s, t))
    case CheckProfile(t) => Owns(s, t) && StepOf(s, t).Profile?
    case FindIdentity(t, found) => Owns(s, t) && StepOf(s, t).Lookup? && Found(s, t, found)
    case LookupFails(t) => Owns(s, t) && StepOf(s, t).Lookup?
    case CreateIdentity(t, user, created, heard, code) =>
      Owns(s, t) && StepOf(s, t).Creating? && Fresh(s, user) && (if heard then created else code in CREATE_FAILURES)
    case FindAgain(t, found) => Owns(s, t) && StepOf(s, t).Conflicted? && Found(s, t, found)
    case AuthClaim(t, _) => Owns(s, t) && StepOf(s, t).Adopting? && RowFree(s, t)
    case Mark(t) => Owns(s, t) && Marking(StepOf(s, t)).Some? && RowFree(s, t)
    case Fence(t) => Owns(s, t) && StepOf(s, t).Ready? && RowFree(s, t)
    case TransactionFails(t) => Owns(s, t) && (StepOf(s, t).Ready? || StepOf(s, t).Fenced?)
    case Commit(t, tenant, _) => Owns(s, t) && StepOf(s, t).Fenced? && FreshTenant(s.tenants, tenant)
    case ClaimCompensation(t) => Owns(s, t) && StepOf(s, t).Failed? && RowFree(s, t)
    case Delete(t, deleted, heard) => Owns(s, t) && StepOf(s, t).Deleting? && (heard ==> deleted)
    case Crash(t) => t in s.workers
    case Tick(_) => true
    case Outside(user, email) => Fresh(s, user) && !EmailTaken(s.identities, email)
  }

  function Goes(s: State, t: Call, at: Step): State
    requires Owns(s, t)
  {
    s.(workers := s.workers[t := s.workers[t].(phase := s.workers[t].phase.(at := at))])
  }

  function Stops(s: State, t: Call): State {
    s.(workers := s.workers - {t})
  }

  function Puts(s: State, id: Id, row: Intent): State {
    s.(intents := s.intents[id := row])
  }

  /** A claim that succeeds: the row is this call's, under a token nobody had before. */
  function Takes(s: State, t: Call, id: Id, row: Intent): State
    requires t in s.workers
  {
    s.(intents := s.intents[id := row], nextToken := s.nextToken + 1,
       workers := s.workers[t := s.workers[t].(phase := Owner(id, s.nextToken, Referral))])
  }

  function DoLook(s: State, t: Call, id: Id): (next: State)
    requires t in s.workers && id in s.intents
    ensures next.intents == s.intents && next.nextToken == s.nextToken
  {
    var next := Judge(s.intents[id], id, s.workers[t].input, s.now);
    if next.Some? then s.(workers := s.workers[t := s.workers[t].(phase := next.value)]) else Stops(s, t)
  }

  function DoReclaim(s: State, t: Call): State
    requires t in s.workers && s.workers[t].phase.Reclaiming? && s.workers[t].phase.id in s.intents
  {
    var id := s.workers[t].phase.id;
    if Reclaimable(s.intents[id], s.now) then Takes(s, t, id, ReclaimedRow(s.intents[id], s.nextToken, s.now))
      else Stops(s, t)
  }

  /** A recovery goes on only if neither an account nor an identity exists. */
  function DoProbe(s: State, t: Call): (next: State)
    requires t in s.workers && s.workers[t].phase.Probing?
    ensures next.intents == s.intents && next.nextToken == s.nextToken
  {
    var w := s.workers[t];
    if HasAccount(s.tenants, w.input.email) || EmailTaken(s.identities, w.input.email)
       || (w.phase.seen.user.Some? && w.phase.seen.user.value in s.identities)
      then Stops(s, t)
      else s.(workers := s.workers[t := w.(phase := Recovering(w.phase.id, w.phase.seen))])
  }

  /** The update names everything it read, so it only succeeds on the row as it was read. */
  function DoRecover(s: State, t: Call): State
    requires t in s.workers && s.workers[t].phase.Recovering? && s.workers[t].phase.id in s.intents
  {
    var w := s.workers[t];
    var row := s.intents[w.phase.id];
    if row.email == w.input.email && row.payload == w.phase.seen.payload && row.version == w.phase.seen.version
       && row.user == w.phase.seen.user && row.code == w.phase.seen.code && row.state == FailedRetryable
       && row.token.None? && row.tenant.None? && Lapsed(row.lease, s.now)
      then Takes(s, t, w.phase.id, RecoveredRow(row, w.input.payload, s.nextToken, s.now))
      else Stops(s, t)
  }

  /** The fence of an owner's conditional updates. */
  predicate Current(row: Intent, token: Token, state: Provisioning) {
    row.token == Some(token) && row.state == state
  }

  function DoRefer(s: State, t: Call, referred: Referred): State
    requires Owns(s, t)
  {
    var id, token := s.workers[t].phase.id, s.workers[t].phase.token;
    match referred
    case Without => Goes(s, t, Profile)
    case Invalid => Goes(s, t, Final("REFERRAL_UNAVAILABLE"))
    case Valid =>
      if Current(s.intents[id], token, Claimed)
        then Puts(Goes(s, t, Profile), id, s.intents[id].(version := s.intents[id].version + 1)) else Stops(s, t)
  }

  function DoFindIdentity(s: State, t: Call, found: Option<User>): (next: State)
    requires Owns(s, t) && Found(s, t, found)
    ensures next.intents == s.intents && next.nextToken == s.nextToken
  {
    if found.None? then Goes(s, t, Creating)
    else if s.identities[found.value].intent == Some(s.workers[t].phase.id)
      then Goes(s, t, Adopting(found.value, Some("AUTH_LOOKUP_FAILED_BEFORE_CREATE")))
    else Goes(s, t, Conflicted)
  }

  /** The provider refuses a second identity for an address; otherwise it may create one, and it
      may report an error whether it did or not. */
  function DoCreateIdentity(s: State, t: Call, user: User, created: bool, heard: bool, code: string): (next: State)
    requires Owns(s, t)
    ensures next.intents == s.intents && next.nextToken == s.nextToken
  {
    var w := s.workers[t];
    if EmailTaken(s.identities, w.input.email) then Goes(s, t, Conflicted) else
    var next := Goes(s, t, if heard then Adopting(user, Some("AUTH_CREATE_FAILED")) else Retry(code));
    if created
      then next.(identities := s.identities[user := Identity(w.input.email, Some(w.phase.id))],
        made := s.made[user := w.phase.id])
      else next
  }

  function DoFindAgain(s: State, t: Call, found: Option<User>): (next: State)
    requires Owns(s, t) && Found(s, t, found)
    ensures next.intents == s.intents && next.nextToken == s.nextToken
  {
    if found.Some? && s.identities[found.value].intent == Some(s.workers[t].phase.id)
      then Goes(s, t, Adopting(found.value, None)) else Goes(s, t, Final("AUTH_EMAIL_EXISTS"))
  }

  function AfterClaimError(s: State, t: Call, onError: Option<string>): State
    requires Owns(s, t)
  {
    if onError.Some? then Goes(s, t, Retry(onError.value)) else Stops(s, t)
  }

  function DoAuthClaim(s: State, t: Call, heard: bool): State
    requires Owns(s, t) && StepOf(s, t).Adopting?
  {
    var id, at := s.workers[t].phase.id, StepOf(s, t);
    if !Current(s.intents[id], s.workers[t].phase.token, Claimed) then AfterClaimError(s, t, at.onError)
    else
      var next := if heard then Goes(s, t, Ready(at.user)) else AfterClaimError(s, t, at.onError);
      Puts(next, id, AuthCreatedRow(s.intents[id], at.user, s.now))
  }

  function DoMark(s: State, t: Call): State
    requires Owns(s, t) && Marking(StepOf(s, t)).Some?
  {
    var id, to := s.workers[t].phase.id, Marking(StepOf(s, t)).value;
    Puts(Stops(s, t), id, MarkedRow(s.intents[id], Some(s.workers[t].phase.token), to.0, to.1))
  }

  function DoFence(s: State, t: Call): (next: State)
    requires Owns(s, t) && StepOf(s, t).Ready?
    ensures next.intents == s.intents && next.nextToken == s.nextToken
  {
    if Current(s.intents[s.workers[t].phase.id], s.workers[t].phase.token, AuthCreated)
      then Goes(s, t, Fenced(StepOf(s, t).user)) else Goes(s, t, Failed(StepOf(s, t).user))
  }

  /** The tenant and the completed intent become visible together; the error report, if any, after. */
  function DoCommit(s: State, t: Call, tenant: nat, heard: bool): State
    requires Owns(s, t) && StepOf(s, t).Fenced?
  {
    var id, user := s.workers[t].phase.id, StepOf(s, t).user;
    var next := if heard then Stops(s, t) else Goes(s, t, Failed(user));
    Puts(next, id, CompletedRow(s.intents[id], user, tenant)).(tenants := s.tenants
      + [Tenancy(tenant, s.workers[t].input.email)])
  }

  function DoClaimCompensation(s: State, t: Call): State
    requires Owns(s, t) && StepOf(s, t).Failed?
  {
    var id := s.workers[t].phase.id;
    if Current(s.intents[id], s.workers[t].phase.token, AuthCreated)
      then Puts(Goes(s, t, Deleting(StepOf(s, t).user, s.now + LEASE_MS)), id, CompensatingRow(s.intents[id], s.now))
      else Stops(s, t)
  }

  function DoDelete(s: State, t: Call, deleted: bool, heard: bool): (next: State)
    requires Owns(s, t) && StepOf(s, t).Deleting?
    ensures next.intents == s.intents && next.nextToken == s.nextToken
  {
    var next := Goes(s, t, Concluding(heard));
    if deleted then next.(identities := s.identities - {StepOf(s, t).user}) else next
  }

  function Next(s: State, a: Action): State
    requires Enabled(s, a)
  {
    match a
    case Start(t, input) => s.(workers := s.workers[t := Worker(input, Starting)])
    case Create(t, id) => Takes(s, t, id, NewIntent(s.workers[t].input, s.nextToken, s.now))
    case Look(t, id) => DoLook(s, t, id)
    case Reclaim(t) => DoReclaim(s, t)
    case Probe(t) => DoProbe(s, t)
    case Recover(t) => DoRecover(s, t)
    case Refer(t, referred) => DoRefer(s, t, referred)
    case CheckProfile(t) => if HasAccount(s.tenants, s.workers[t].input.email) then Stops(s, t) else Goes(s, t, Lookup)
    case FindIdentity(t, found) => DoFindIdentity(s, t, found)
    case LookupFails(t) => Goes(s, t, Retry("AUTH_LOOKUP_FAILED_BEFORE_CREATE"))
    case CreateIdentity(t, user, created, heard, code) => DoCreateIdentity(s, t, user, created, heard, code)
    case FindAgain(t, found) => DoFindAgain(s, t, found)
    case AuthClaim(t, heard) => DoAuthClaim(s, t, heard)
    case Mark(t) => DoMark(s, t)
    case Fence(t) => DoFence(s, t)
    case TransactionFails(t) => Goes(s, t, Failed(StepOf(s, t).user))
    case Commit(t, tenant, heard) => DoCommit(s, t, tenant, heard)
    case ClaimCompensation(t) => DoClaimCompensation(s, t)
    case Delete(t, deleted, heard) => DoDelete(s, t, deleted, heard)
    case Crash(t) => Stops(s, t)
    case Tick(ms) => s.(now := s.now + ms)
    case Outside(user, email) => s.(identities := s.identities[user := Identity(email, None)])
  }

  /** A compensating delete reaches the provider before the compensation's lease ends. */
  predicate Timely(s: State, a: Action) {
    a.Delete? && a.deleted && Owns(s, a.t) && StepOf(s, a.t).Deleting? ==> s.now < StepOf(s, a.t).deadline
  }

  predicate IsRun(s: State, run: seq<Action>)
    decreases |run|
  {
    run == [] || (Enabled(s, run[0]) && IsRun(Next(s, run[0]), run[1..]))
  }

  predicate TimelyRun(s: State, run: seq<Action>)
    requires IsRun(s, run)
    decreases |run|
  {
    run == [] || (Timely(s, run[0]) && TimelyRun(Next(s, run[0]), run[1..]))
  }

  function Exec(s: State, run: seq<Action>): State
    requires IsRun(s, run)
    decreases |run|
  {
    if run == [] then s else Exec(Next(s, run[0]), run[1..])
  }

  predicate Init(s: State) {
    s.intents == map[] && s.tenants == [] && s.identities == map[] && s.made == map[] && s.workers == map[]
  }
}
