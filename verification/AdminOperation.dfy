/** Administrative operations made once per idempotency key, by any number of concurrent calls. */
module AdminOperation {
  import opened Wrappers

  datatype Slot = Slot(tenantScope: string, operation: string, idempotencyKey: string)
  datatype Input = Input(slot: Slot, target: string)
  datatype Record = Record(target: string, result: string)

  /** The committed effects of one run of the action. */
  datatype Effect = Effect(slot: Slot, target: string, result: string)

  /** Unheard: the call failed, but its transaction had been committed. */
  datatype Outcome =
    | BadRequest
    | Conflict
    | Success(result: string, replayed: bool)
    | Failure
    | Unheard

  predicate Alphanumeric(c: char) {
    'A' <= c <= 'Z' || 'a' <= c <= 'z' || '0' <= c <= '9'
  }

  predicate ValidKey(key: string) {
    && 8 <= |key| <= 128 && Alphanumeric(key[0])
    && forall i :: 1 <= i < |key| ==> Alphanumeric(key[i]) || key[i] in {'.', '_', ':', '-'}
  }

  /** A letter or digit, then 7 to 127 letters, digits, dots, underscores, colons or hyphens. */
  lemma KeyPattern(first: char, rest: string)
    ensures ValidKey([first] + rest) <==>
              && ('A' <= first <= 'Z' || 'a' <= first <= 'z' || '0' <= first <= '9')
              && 7 <= |rest| <= 127
              && forall i :: 0 <= i < |rest| ==>
                   'A' <= rest[i] <= 'Z' || 'a' <= rest[i] <= 'z' || '0' <= rest[i] <= '9' || rest[i] in "._:-"
    ensures !ValidKey("")
  {
    var key := [first] + rest;
    assert key[0] == first && forall i :: 0 <= i < |rest| ==> rest[i] == key[i + 1];
  }

  function Replay(records: map<Slot, Record>, input: Input): Outcome {
    if input.slot in records && records[input.slot].target == input.target
      then Success(records[input.slot].result, true) else Conflict
  }

  // ----- one call by itself

  class AdminOperationService {
    var records: map<Slot, Record>
    var effects: seq<Effect>

    constructor ()
      ensures records == map[] && effects == []
    {
      records, effects := map[], [];
    }

    /** `result` is what the action returns if it runs. */
    method Execute(input: Input, result: string) returns (outcome: Outcome)
      modifies this
      ensures !ValidKey(input.slot.idempotencyKey) ==> outcome == BadRequest
      ensures ValidKey(input.slot.idempotencyKey) && input.slot in old(records) ==>
                var recorded := old(records)[input.slot];
                && (outcome == Success(recorded.result, true) <==> recorded.target == input.target)
                && (outcome == Conflict <==> recorded.target != input.target)
      ensures ValidKey(input.slot.idempotencyKey) && input.slot !in old(records) ==>
                && outcome == Success(result, false)
                && records == old(records)[input.slot := Record(input.target, result)]
                && effects == old(effects) + [Effect(input.slot, input.target, result)]
      ensures !ValidKey(input.slot.idempotencyKey) || input.slot in old(records) ==>
                records == old(records) && effects == old(effects)
    {
      if !ValidKey(input.slot.idempotencyKey) { return BadRequest; }
      if input.slot in records {
        if records[input.slot].target != input.target { return Conflict; }
        return Success(records[input.slot].result, true);
      }
      effects := effects + [Effect(input.slot, input.target, result)];
      records := records[input.slot := Record(input.target, result)];
      return Success(result, false);
    }
  }

  // ----- many calls at once

  type CallId = nat

  /** Acted: the action ran in the transaction. Inserted: so did the insert of the record, and the
      unique index makes other inserts for the slot wait. Replaying: the transaction was undone. */
  datatype Phase = Started | Absent | Acted(result: string) | Inserted(result: string) | Replaying

  datatype Call = Call(input: Input, phase: Phase)

  datatype Report = Report(input: Input, outcome: Outcome)

  datatype State = State(records: map<Slot, Record>, effects: seq<Effect>, calls: map<CallId, Call>,
      reports: seq<Report>)

  datatype Action =
    | Start(c: CallId, input: Input)
    | Look(c: CallId)
    | Act(c: CallId, result: string)
    | ActionClashes(c: CallId)
    | Insert(c: CallId)
    | Commit(c: CallId, heard: bool)
    | ReplayNow(c: CallId)
    | Fail(c: CallId)
    | Crash(c: CallId)

  predicate InsertBusy(calls: map<CallId, Call>, slot: Slot) {
    exists c :: c in calls && calls[c].phase.Inserted? && calls[c].input.slot == slot
  }

  predicate Enabled(s: State, a: Action) {
    match a
    case Start(c, _) => c !in s.calls
    case Look(c) => c in s.calls && s.calls[c].phase.Started?
    case Act(c, _) => c in s.calls && s.calls[c].phase.Absent?
    case ActionClashes(c) => c in s.calls && s.calls[c].phase.Absent?
    case Insert(c) => c in s.calls && s.calls[c].phase.Acted? && !InsertBusy(s.calls, s.calls[c].input.slot)
    case Commit(c, _) => c in s.calls && s.calls[c].phase.Inserted?
    case ReplayNow(c) => c in s.calls && s.calls[c].phase.Replaying?
    case Fail(c) => c in s.calls
    case Crash(c) => c in s.calls
  }

  function Goes(s: State, c: CallId, phase: Phase): State
    requires c in s.calls
  {
    s.(calls := s.calls[c := s.calls[c].(phase := phase)])
  }

  function Ends(s: State, c: CallId, outcome: Outcome): State
    requires c in s.calls
  {
    s.(calls := s.calls - {c}, reports := s.reports + [Report(s.calls[c].input, outcome)])
  }

  /** The record and the action's effects become visible together. */
  function Committed(s: State, c: CallId): State
    requires c in s.calls && s.calls[c].phase.Inserted?
  {
    var input, result := s.calls[c].input, s.calls[c].phase.result;
    s.(records := s.records[input.slot := Record(input.target, result)],
       effects := s.effects + [Effect(input.slot, input.target, result)])
  }

  function Next(s: State, a: Action): State
    requires Enabled(s, a)
  {
    match a
    case Start(c, input) =>
      if ValidKey(input.slot.idempotencyKey) then s.(calls := s.calls[c := Call(input, Started)])
      else s.(reports := s.reports + [Report(input, BadRequest)])
    case Look(c) =>
      if s.calls[c].input.slot in s.records then Ends(s, c, Replay(s.records, s.calls[c].input)) else Goes(s, c, Absent)
    case Act(c, result) => Goes(s, c, Acted(result))
    case ActionClashes(c) => Goes(s, c, Replaying)
    case Insert(c) =>
      if s.calls[c].input.slot in s.records then Goes(s, c, Replaying)
        else Goes(s, c, Inserted(s.calls[c].phase.result))
    case Commit(c, heard) =>
      Ends(Committed(s, c), c, if heard then Success(s.calls[c].phase.result, false) else Unheard)
    case ReplayNow(c) => Ends(s, c, Replay(s.records, s.calls[c].input))
    case Fail(c) => Ends(s, c, Failure)
    case Crash(c) => s.(calls := s.calls - {c})
  }

  predicate IsRun(s: State, run: seq<Action>)
    decreases |run|
  {
    run == [] || (Enabled(s, run[0]) && IsRun(Next(s, run[0]), run[1..]))
  }

  function Exec(s: State, run: seq<Action>): State
    requires IsRun(s, run)
    decreases |run|
  {
    if run == [] then s else Exec(Next(s, run[0]), run[1..])
  }

  predicate Init(s: State) {
    s == State(map[], [], map[], [])
  }

  // ----- what is kept

  function EffectsOf(effects: seq<Effect>, slot: Slot): nat {
    if effects == [] then 0
    else EffectsOf(effects[..|effects| - 1], slot) + if effects[|effects| - 1].slot == slot then 1 else 0
  }

  /** The calls for the slot that ran the action for good: they say so, or their answer was lost. */
  predicate Performed(r: Report, slot: Slot) {
    r.input.slot == slot && (r.outcome.Unheard? || (r.outcome.Success? && !r.outcome.replayed))
  }

  function PerformedOf(reports: seq<Report>, slot: Slot): nat {
    if reports == [] then 0
    else PerformedOf(reports[..|reports| - 1], slot) + if Performed(reports[|reports| - 1], slot) then 1 else 0
  }

  ghost predicate EffectsOk(s: State) {
    && (forall slot :: EffectsOf(s.effects, slot) == if slot in s.records then 1 else 0)
    && (forall i :: 0 <= i < |s.effects| ==>
          && s.effects[i].slot in s.records
          && s.records[s.effects[i].slot] == Record(s.effects[i].target, s.effects[i].result))
  }

  ghost predicate ReportsOk(records: map<Slot, Record>, reports: seq<Report>) {
    && (forall slot :: PerformedOf(reports, slot) == if slot in records then 1 else 0)
    && (forall i :: 0 <= i < |reports| && reports[i].outcome.Success? ==>
          && reports[i].input.slot in records
          && records[reports[i].input.slot] == Record(reports[i].input.target, reports[i].outcome.result))
  }

  ghost predicate CallsOk(records: map<Slot, Record>, calls: map<CallId, Call>) {
    && (forall c :: c in calls && calls[c].phase.Inserted? ==> calls[c].input.slot !in records)
    && (forall c, d :: c in calls && d in calls && c != d && calls[c].phase.Inserted? && calls[d].phase.Inserted? ==>
          calls[c].input.slot != calls[d].input.slot)
  }

  ghost predicate Inv(s: State) {
    EffectsOk(s) && ReportsOk(s.records, s.reports) && CallsOk(s.records, s.calls)
  }

  lemma ReportMore(records: map<Slot, Record>, reports: seq<Report>, r: Report)
    requires ReportsOk(records, reports)
    requires r.outcome in {BadRequest, Conflict, Failure} || r.outcome == Replay(records, r.input)
    ensures ReportsOk(records, reports + [r])
  {
    assert (reports + [r])[..|reports|] == reports;
  }

  lemma EndsKeeps(s: State, c: CallId, outcome: Outcome)
    requires Inv(s) && c in s.calls
             && (outcome in {Conflict, Failure} || outcome == Replay(s.records, s.calls[c].input))
    ensures Inv(Ends(s, c, outcome))
  {
    hide ReportsOk;
    ReportMore(s.records, s.reports, Report(s.calls[c].input, outcome));
  }

  lemma GoesKeeps(s: State, c: CallId, phase: Phase)
    requires Inv(s) && c in s.calls
    requires phase.Inserted? ==> s.calls[c].input.slot !in s.records && !InsertBusy(s.calls, s.calls[c].input.slot)
    ensures Inv(Goes(s, c, phase))
  {
    hide EffectsOf, ReportsOk;
  }

  lemma CommitReports(records: map<Slot, Record>, reports: seq<Report>, r: Report, record: Record)
    requires ReportsOk(records, reports) && r.input.slot !in records && Performed(r, r.input.slot)
    requires record.target == r.input.target && (r.outcome.Success? ==> r.outcome.result == record.result)
    ensures ReportsOk(records[r.input.slot := record], reports + [r])
  {
    assert (reports + [r])[..|reports|] == reports;
  }

  lemma CommitEffects(s: State, c: CallId)
    requires EffectsOk(s) && c in s.calls && s.calls[c].phase.Inserted? && s.calls[c].input.slot !in s.records
    ensures EffectsOk(Committed(s, c))
  {
    var s' := Committed(s, c);
    assert s'.effects[..|s.effects|] == s.effects;
  }

  lemma CommitKeeps(s: State, c: CallId, heard: bool)
    requires Inv(s) && Enabled(s, Commit(c, heard))
    ensures Inv(Next(s, Commit(c, heard)))
  {
    hide EffectsOf, ReportsOk;
    var call := s.calls[c];
    CommitEffects(s, c);
    CommitReports(s.records, s.reports,
      Report(call.input, if heard then Success(call.phase.result, false) else Unheard),
                  Record(call.input.target, call.phase.result));
  }

  lemma StartKeeps(s: State, c: CallId, input: Input)
    requires Inv(s) && c !in s.calls
    ensures Inv(Next(s, Start(c, input)))
  {
    hide ReportsOk, ValidKey;
    ReportMore(s.records, s.reports, Report(input, BadRequest));
  }

  lemma CrashKeeps(s: State, c: CallId)
    requires Inv(s)
    ensures Inv(s.(calls := s.calls - {c}))
  {
    hide EffectsOf, ReportsOk;
  }

  lemma StepKeeps(s: State, a: Action)
    requires Inv(s) && Enabled(s, a)
    ensures Inv(Next(s, a))
  {
    hide Inv, ValidKey, InsertBusy, Replay;
    match a
    case Start(c, input) => StartKeeps(s, c, input);
    case Look(c) => EndsKeeps(s, c, Replay(s.records, s.calls[c].input)); GoesKeeps(s, c, Absent);
    case Act(c, result) => GoesKeeps(s, c, Acted(result));
    case ActionClashes(c) => GoesKeeps(s, c, Replaying);
    case Insert(c) =>
      GoesKeeps(s, c, Replaying);
      if s.calls[c].input.slot !in s.records { GoesKeeps(s, c, Inserted(s.calls[c].phase.result)); }
    case Commit(c, heard) => CommitKeeps(s, c, heard);
    case ReplayNow(c) => EndsKeeps(s, c, Replay(s.records, s.calls[c].input));
    case Fail(c) => EndsKeeps(s, c, Failure);
    case Crash(c) => CrashKeeps(s, c);
  }

  lemma {:induction false} RunKeeps(s: State, run: seq<Action>)
    requires Inv(s) && IsRun(s, run)
    ensures Inv(Exec(s, run))
    decreases |run|
  {
    hide Inv, Enabled, Next;
    if run != [] {
      StepKeeps(s, run[0]);
      RunKeeps(Next(s, run[0]), run[1..]);
    }
  }

  /** For each slot the action's effects are committed once if it is recorded and never otherwise,
      and exactly one call performed it. Every success names the recorded target and returns the
      recorded result, so a call for another target never succeeds. */
  lemma {:induction false} PerformedAtMostOnce(s: State, run: seq<Action>, slot: Slot)
    requires Init(s) && IsRun(s, run)
    ensures var now := Exec(s, run);
            && EffectsOf(now.effects, slot) == PerformedOf(now.reports, slot) == (if slot in now.records then 1 else 0)
            && (forall r :: r in now.reports && r.outcome.Success? && r.input.slot == slot ==>
                  slot in now.records && now.records[slot] == Record(r.input.target, r.outcome.result))
            && (forall e :: e in now.effects && e.slot == slot ==>
                  slot in now.records && now.records[slot] == Record(e.target, e.result))
  {
    hide CallsOk;
    InitKeeps(s);
    RunKeeps(s, run);
  }

  lemma RecordStays(s: State, a: Action, slot: Slot)
    requires Inv(s) && Enabled(s, a) && slot in s.records
    ensures slot in Next(s, a).records && Next(s, a).records[slot] == s.records[slot]
  {
    hide EffectsOk, ReportsOk, ValidKey, InsertBusy;
  }

  /** What is recorded stays recorded, unchanged. */
  lemma {:induction false} RecordedForGood(s: State, before: seq<Action>, after: seq<Action>, slot: Slot)
    requires Init(s) && IsRun(s, before) && IsRun(Exec(s, before), after) && slot in Exec(s, before).records
    ensures slot in Exec(Exec(s, before), after).records
    ensures Exec(Exec(s, before), after).records[slot] == Exec(s, before).records[slot]
  {
    hide Enabled, Next, EffectsOk, ReportsOk, CallsOk;
    assert Inv(s) by { InitKeeps(s); }
    RunKeeps(s, before);
    StaysOver(Exec(s, before), after, slot);
  }

  lemma InitKeeps(s: State)
    requires Init(s)
    ensures Inv(s)
  {
  }

  lemma {:induction false} StaysOver(s: State, run: seq<Action>, slot: Slot)
    requires Inv(s) && IsRun(s, run) && slot in s.records
    ensures slot in Exec(s, run).records && Exec(s, run).records[slot] == s.records[slot]
    decreases |run|
  {
    hide Inv, Enabled, Next;
    if run != [] {
      StepKeeps(s, run[0]);
      RecordStays(s, run[0], slot);
      StaysOver(Next(s, run[0]), run[1..], slot);
    }
  }

  // ----- the order of a call's steps

  predicate Follows(before: Phase, after: Phase) {
    match before
    case Started => after.Absent?
    case Absent => after.Acted? || after.Replaying?
    case Acted(_) => after.Inserted? || after.Replaying?
    case Inserted(_) => false
    case Replaying => false
  }

  /** A call looks, acts, inserts and commits in this order; only the last has an effect. */
  lemma StepsInOrder(s: State, a: Action, c: CallId)
    requires Enabled(s, a) && c in s.calls
    ensures c in Next(s, a).calls ==>
              var before, after := s.calls[c].phase, Next(s, a).calls[c].phase;
              after == before || Follows(before, after)
    ensures !a.Start? && a.c == c && (Next(s, a).records != s.records || Next(s, a).effects != s.effects) ==>
              s.calls[c].phase.Inserted?
  {
    hide ValidKey, InsertBusy, Replay;
  }

  // ----- calls for what is recorded

  /** Conflict is reported for another target only, or after a clash for a slot that is not recorded. */
  lemma ConflictMeans(s: State, a: Action)
    requires Enabled(s, a) && !a.Start?
    requires Next(s, a).reports == s.reports + [Report(s.calls[a.c].input, Conflict)]
    ensures var input := s.calls[a.c].input;
            if input.slot in s.records then s.records[input.slot].target != input.target
            else a.ReplayNow? && s.calls[a.c].phase.Replaying?
  {
    hide InsertBusy, ValidKey;
    assert (s.reports + [Report(s.calls[a.c].input, Conflict)])[|s.reports|] == Report(s.calls[a.c].input, Conflict);
  }

  /** A step of a call under the recorded target, if it does not fail: the call goes on, or it reports
      the recorded result. */
  lemma RecordedStep(s: State, a: Action, c: CallId)
    requires Inv(s) && Enabled(s, a) && c in s.calls && !(a.Crash? && a.c == c) && !(a.Fail? && a.c == c)
    requires s.calls[c].input.slot in s.records && s.records[s.calls[c].input.slot].target == s.calls[c].input.target
    ensures var now, input := Next(s, a), s.calls[c].input;
            if c in now.calls then now.calls[c].input == input
            else Report(input, Success(s.records[input.slot].result, true)) in now.reports
  {
    hide EffectsOk, ReportsOk, ValidKey, InsertBusy;
  }

  lemma StepReports(s: State, a: Action)
    requires Enabled(s, a)
    ensures forall r :: r in s.reports ==> r in Next(s, a).reports
  {
    hide ValidKey, InsertBusy, Replay;
  }

  lemma {:induction false} RunReports(s: State, run: seq<Action>, r: Report)
    requires IsRun(s, run) && r in s.reports
    ensures r in Exec(s, run).reports
    decreases |run|
  {
    hide Enabled, Next;
    if run != [] {
      StepReports(s, run[0]);
      RunReports(Next(s, run[0]), run[1..], r);
    }
  }

  predicate NeitherFailsNorCrashes(run: seq<Action>, c: CallId) {
    forall i :: 0 <= i < |run| && (run[i].Fail? || run[i].Crash?) ==> run[i].c != c
  }

  /** Whatever the others do, a call under the target recorded before it looks, or before it clashes,
      ends with the recorded result as a replay, unless it fails. */
  lemma {:induction false} RecordedIsReplayed(s: State, before: seq<Action>, c: CallId, after: seq<Action>)
    requires Init(s) && IsRun(s, before) && IsRun(Exec(s, before), after) && NeitherFailsNorCrashes(after, c)
    requires var now := Exec(s, before);
             && c in now.calls && now.calls[c].input.slot in now.records
             && now.records[now.calls[c].input.slot].target == now.calls[c].input.target
    ensures var now := Exec(s, before);
            var end, input := Exec(now, after), now.calls[c].input;
            c in end.calls || Report(input, Success(now.records[input.slot].result, true)) in end.reports
  {
    hide Inv;
    InitKeeps(s);
    RunKeeps(s, before);
    ReplayedOver(Exec(s, before), c, after);
  }

  lemma {:induction false} ReplayedOver(s: State, c: CallId, run: seq<Action>)
    requires Inv(s) && IsRun(s, run) && NeitherFailsNorCrashes(run, c) && c in s.calls
    requires s.calls[c].input.slot in s.records && s.records[s.calls[c].input.slot].target == s.calls[c].input.target
    ensures var end, input := Exec(s, run), s.calls[c].input;
            c in end.calls || Report(input, Success(s.records[input.slot].result, true)) in end.reports
    decreases |run|
  {
    hide Inv, Enabled, Next;
    if run != [] {
      var next, input := Next(s, run[0]), s.calls[c].input;
      assert !(run[0].Crash? && run[0].c == c) && !(run[0].Fail? && run[0].c == c);
      StepKeeps(s, run[0]);
      RecordStays(s, run[0], input.slot);
      RecordedStep(s, run[0], c);
      if c in next.calls {
        assert NeitherFailsNorCrashes(run[1..], c);
        ReplayedOver(next, c, run[1..]);
      } else {
        RunReports(next, run[1..], Report(input, Success(s.records[input.slot].result, true)));
      }
    }
  }

  /** And it can: its own steps lead there from wherever it is. */
  lemma {:induction false} RecordedCanEnd(s: State, c: CallId) returns (run: seq<Action>)
    requires Inv(s) && c in s.calls
    requires s.calls[c].input.slot in s.records && s.records[s.calls[c].input.slot].target == s.calls[c].input.target
    ensures IsRun(s, run) && c !in Exec(s, run).calls && NeitherFailsNorCrashes(run, c)
    ensures Report(s.calls[c].input, Success(s.records[s.calls[c].input.slot].result, true)) in Exec(s, run).reports
    decreases if s.calls[c].phase.Absent? then 2 else if s.calls[c].phase.Acted? then 1 else 0
  {
    hide EffectsOk, ReportsOk, ValidKey, IsRun, Exec;
    var input, phase := s.calls[c].input, s.calls[c].phase;
    if phase.Started? {
      run := [Look(c)];
      OneStep(s, Look(c));
    } else if phase.Replaying? {
      run := [ReplayNow(c)];
      OneStep(s, ReplayNow(c));
    } else {
      var a := if phase.Absent? then Act(c, "") else Insert(c);
      assert !phase.Inserted?;
      GoesKeeps(s, c, if phase.Absent? then Acted("") else Replaying);
      var rest := RecordedCanEnd(Next(s, a), c);
      run := [a] + rest;
      MoreSteps(s, a, rest);
    }
  }

  lemma OneStep(s: State, a: Action)
    requires Enabled(s, a)
    ensures IsRun(s, [a]) && Exec(s, [a]) == Next(s, a)
  {
    hide Enabled, Next;
    assert [a][1..] == [];
  }

  lemma MoreSteps(s: State, a: Action, rest: seq<Action>)
    requires Enabled(s, a) && IsRun(Next(s, a), rest)
    ensures IsRun(s, [a] + rest) && Exec(s, [a] + rest) == Exec(Next(s, a), rest)
  {
    hide Enabled, Next;
    assert ([a] + rest)[1..] == rest;
  }

  // ----- a call that nothing disturbs

  /** The steps of a call for a slot not yet recorded, and of one for a slot that is. */
  function LoneRun(s: State, c: CallId, input: Input, result: string): seq<Action> {
    if !ValidKey(input.slot.idempotencyKey) then [Start(c, input)]
    else if input.slot in s.records then [Start(c, input), Look(c)]
    else [Start(c, input), Look(c), Act(c, result), Insert(c), Commit(c, true)]
  }

  ghost predicate Leads(s: State, run: seq<Action>, e: State) {
    IsRun(s, run) && Exec(s, run) == e
  }

  lemma Cons(s: State, a: Action, m: State, rest: seq<Action>, e: State)
    requires Enabled(s, a) && Next(s, a) == m && Leads(m, rest, e)
    ensures Leads(s, [a] + rest, e)
  {
    hide Enabled, Next;
    assert ([a] + rest)[1..] == rest;
  }

  lemma Stays(s: State)
    ensures Leads(s, [], s)
  {
  }

  /** Undisturbed, a call does what `Execute` does by itself, and reports it. */
  lemma {:induction false} LoneCall(s: State, c: CallId, input: Input, result: string)
    requires s.calls == map[]
    ensures IsRun(s, LoneRun(s, c, input, result))
    ensures var now := Exec(s, LoneRun(s, c, input, result));
            && now.calls == map[] && |now.reports| == |s.reports| + 1
            && now.reports[|s.reports|].outcome ==
                 (if !ValidKey(input.slot.idempotencyKey) then BadRequest
                  else if input.slot !in s.records then Success(result, false)
                  else if s.records[input.slot].target == input.target then Success(s.records[input.slot].result, true)
                  else Conflict)
            && (!ValidKey(input.slot.idempotencyKey) || input.slot in s.records ==>
               now.records == s.records && now.effects == s.effects)
            && (ValidKey(input.slot.idempotencyKey) && input.slot !in s.records ==>
                  && now.records == s.records[input.slot := Record(input.target, result)]
                  && now.effects == s.effects + [Effect(input.slot, input.target, result)])
  {
    hide ValidKey;
    if !ValidKey(input.slot.idempotencyKey) {
      LoneRefused(s, c, input);
    } else if input.slot in s.records {
      LoneReplay(s, c, input);
    } else {
      LoneFirst(s, c, input, result);
    }
  }

  lemma LoneRefused(s: State, c: CallId, input: Input)
    requires s.calls == map[] && !ValidKey(input.slot.idempotencyKey)
    ensures Leads(s, [Start(c, input)], s.(reports := s.reports + [Report(input, BadRequest)]))
  {
    hide ValidKey, Leads;
    var done := s.(reports := s.reports + [Report(input, BadRequest)]);
    Stays(done);
    Cons(s, Start(c, input), done, [], done);
    assert [Start(c, input)] + [] == [Start(c, input)];
  }

  lemma LoneReplay(s: State, c: CallId, input: Input)
    requires s.calls == map[] && ValidKey(input.slot.idempotencyKey) && input.slot in s.records
    ensures Leads(s, [Start(c, input), Look(c)], s.(reports := s.reports + [Report(input, Replay(s.records, input))]))
  {
    hide ValidKey, Replay, Leads;
    var started := s.(calls := map[c := Call(input, Started)]);
    var done := s.(reports := s.reports + [Report(input, Replay(s.records, input))]);
    Stays(done);
    assert Next(started, Look(c)).calls == map[];
    Cons(started, Look(c), done, [], done);
    Cons(s, Start(c, input), started, [Look(c)] + [], done);
    assert [Start(c, input)] + ([Look(c)] + []) == [Start(c, input), Look(c)];
  }

  function AfterPerforming(s: State, input: Input, result: string): State {
    State(s.records[input.slot := Record(input.target, result)], s.effects + [Effect(input.slot, input.target, result)],
          map[], s.reports + [Report(input, Success(result, false))])
  }

  lemma LoneSecondHalf(s: State, c: CallId, input: Input, result: string)
    requires s.calls == map[c := Call(input, Acted(result))] && input.slot !in s.records
    ensures Leads(s, [Insert(c), Commit(c, true)], AfterPerforming(s, input, result))
  {
    hide ValidKey, Replay, Leads;
    var inserted := s.(calls := map[c := Call(input, Inserted(result))]);
    var done := AfterPerforming(s, input, result);
    Stays(done);
    assert Next(inserted, Commit(c, true)).calls == map[];
    Cons(inserted, Commit(c, true), done, [], done);
    Cons(s, Insert(c), inserted, [Commit(c, true)] + [], done);
    assert [Insert(c)] + ([Commit(c, true)] + []) == [Insert(c), Commit(c, true)];
  }

  lemma LoneFirst(s: State, c: CallId, input: Input, result: string)
    requires s.calls == map[] && ValidKey(input.slot.idempotencyKey) && input.slot !in s.records
    ensures Leads(s, [Start(c, input), Look(c), Act(c, result), Insert(c), Commit(c, true)],
            AfterPerforming(s, input, result))
  {
    hide ValidKey, Replay, Leads, AfterPerforming, Committed, InsertBusy;
    var started := s.(calls := map[c := Call(input, Started)]);
    var absent := s.(calls := map[c := Call(input, Absent)]);
    var acted := s.(calls := map[c := Call(input, Acted(result))]);
    var done, rest := AfterPerforming(s, input, result), [Insert(c), Commit(c, true)];
    SamePerformed(s, acted, input, result);
    LoneSecondHalf(acted, c, input, result);
    Cons(absent, Act(c, result), acted, rest, done);
    Cons(started, Look(c), absent, [Act(c, result)] + rest, done);
    Cons(s, Start(c, input), started, [Look(c)] + ([Act(c, result)] + rest), done);
    assert [Start(c, input)] + ([Look(c)] + ([Act(c, result)] + rest)) ==
           [Start(c, input), Look(c), Act(c, result), Insert(c), Commit(c, true)];
  }

  lemma SamePerformed(s: State, s': State, input: Input, result: string)
    requires s' == s.(calls := s'.calls)
    ensures AfterPerforming(s', input, result) == AfterPerforming(s, input, result)
  {
  }
}
