/** The parts of the pet agenda that only compute from their inputs: appointment status
    transitions, attendant names, and the interval an appointment request asks for. */
module AgendaSchedule {
  import opened WhiteSpace
  import opened Wrappers

  datatype Status = Scheduled | Confirmed | InProgress | Completed | Canceled | NoShow

  /** CONFLICT_IGNORED_STATUSES: an appointment in such a status occupies nobody's time. */
  predicate Ignored(status: Status) {
    status in {Canceled, Completed, NoShow}
  }

  /** STATUS_TRANSITIONS. */
  function Transitions(status: Status): set<Status> {
    match status
    case Scheduled => {Confirmed, InProgress, Completed, Canceled, NoShow}
    case Confirmed => {InProgress, Completed, Canceled, NoShow}
    case InProgress => {Completed, Canceled, NoShow}
    case Completed => {}
    case Canceled => {}
    case NoShow => {}
  }

  predicate TransitionAllowed(current: Status, next: Status) {
    current == next || next in Transitions(current)
  }

  /** How far an appointment has progressed; the three ignored statuses end its life. */
  function Stage(status: Status): nat {
    match status
    case Scheduled => 0
    case Confirmed => 1
    case InProgress => 2
    case _ => 3
  }

  predicate StatusPath(path: seq<Status>) {
    forall i :: 0 <= i < |path| - 1 ==> TransitionAllowed(path[i], path[i + 1])
  }

  /** Along any run of accepted status updates the stage never goes back, and an appointment
      that stopped occupying time never changes status again. */
  lemma {:induction false} StatusOnlyAdvances(path: seq<Status>, i: nat, j: nat)
    requires StatusPath(path) && i <= j < |path|
    ensures Stage(path[i]) <= Stage(path[j])
    ensures Ignored(path[i]) ==> path[j] == path[i]
    ensures Stage(path[i]) == Stage(path[j]) ==> path[i] == path[j]
    decreases j - i
  {
    if i < j {
      StatusOnlyAdvances(path, i, j - 1);
      assert TransitionAllowed(path[j - 1], path[j - 1 + 1]);
    }
  }

  // ----- attendant names

  /** The case folding shared by the lock key and the case-insensitive query. */
  function Fold(s: string): string {
    seq(|s|, i requires 0 <= i < |s| => Lower(s[i]))
  }

  /** The letters of Portuguese: A to Z, and those with accents. */
  function Lower(c: char): char {
    if 'A' <= c <= 'Z' || ('\U{c0}' <= c <= '\U{de}' && c != '\U{d7}') then (c as int + 32) as char else c
  }

  /** `required`: a missing or blank value is refused. */
  function Required(value: Option<string>): (r: Option<string>)
    ensures r.Some? ==> Trimmed(r.value) && r.value != []
  {
    if value.None? || Trim(value.value) == [] then None else Some(Trim(value.value))
  }

  // ----- intervals; times are milliseconds

  const DEFAULT_DURATION: int := 60 * 60 * 1000

  /** A date argument: not given, given but not parseable, or parsed. */
  datatype DateField = Absent | Malformed | At(time: int)

  /** `dataHora` is what the concatenation of `data` and `hora` parses to when both are given. */
  datatype ScheduleDto = ScheduleDto(startAt: DateField, endAt: DateField, data: DateField, hasHora: bool,
      dataHora: Option<int>)

  /** The date columns of a row: `startAt` and `endAt` are null on legacy rows, `data` never is. */
  datatype Slot = Slot(startAt: Option<int>, endAt: Option<int>, data: int)

  predicate WellFormed(slot: Slot) {
    slot.startAt.Some? && slot.endAt.Some? && slot.startAt.value < slot.endAt.value
  }

  function Parse(field: DateField): Option<int> {
    if field.At? then Some(field.time) else None
  }

  function RequestedStart(dto: ScheduleDto, fallback: Option<Slot>): Option<int> {
    if !dto.startAt.Absent? then Parse(dto.startAt)
    else if !dto.data.Absent? && dto.hasHora then dto.dataHora
    else if fallback.None? then None
    else if fallback.value.startAt.Some? then fallback.value.startAt
    else Some(fallback.value.data)
  }

  predicate KeepsEnd(dto: ScheduleDto, fallback: Option<Slot>) {
    fallback.Some? && fallback.value.endAt.Some? && dto.startAt.Absent? && dto.data.Absent? && !dto.hasHora
  }

  /** `resolveSchedule`; None is a BadRequestException. */
  function ResolveSchedule(dto: ScheduleDto, fallback: Option<Slot>): (r: Option<Slot>)
    ensures r.Some? ==> WellFormed(r.value)
  {
    var startAt := RequestedStart(dto, fallback);
    if startAt.None? then None else
    var endAt :=
      if !dto.endAt.Absent? then Parse(dto.endAt)
      else if KeepsEnd(dto, fallback) then fallback.value.endAt
      else Some(startAt.value + DEFAULT_DURATION);
    if endAt.None? || endAt.value <= startAt.value || dto.data.Malformed? then None
    else Some(Slot(startAt, endAt, if dto.data.At? then dto.data.time else startAt.value))
  }

  /** Which request is refused, and which interval an accepted one gets: an explicit start, or date
      and time, or what the row has; an explicit end, or the row's when no date is named, or an hour. */
  lemma ScheduleChosen(dto: ScheduleDto, fallback: Option<Slot>)
    ensures var named := !dto.startAt.Absent? || (!dto.data.Absent? && dto.hasHora);
            var dated := !dto.startAt.Absent? || !dto.data.Absent? || dto.hasHora;
            var startAt := RequestedStart(dto, fallback);
            && (!named ==> startAt == if fallback.None? then None
                                      else if fallback.value.startAt.Some? then fallback.value.startAt
                                      else Some(fallback.value.data))
            && (ResolveSchedule(dto, fallback).None? <==>
                  || startAt.None? || dto.data.Malformed? || dto.endAt.Malformed?
                  || (dto.endAt.At? && dto.endAt.time <= startAt.value)
                  || (dto.endAt.Absent? && !dated && fallback.Some? && fallback.value.endAt.Some?
                      && fallback.value.endAt.value <= startAt.value))
            && match ResolveSchedule(dto, fallback)
               case None => true
               case Some(slot) =>
                 && slot.startAt == startAt && slot.startAt.value < slot.endAt.value
                 && slot.data == (if dto.data.At? then dto.data.time else startAt.value)
                 && !dto.startAt.Malformed? && (dto.startAt.At? ==> slot.startAt == Some(dto.startAt.time))
                 && (dto.startAt.Absent? && named ==> slot.startAt == dto.dataHora)
                 && (dto.endAt.At? ==> slot.endAt == Some(dto.endAt.time))
                 && (dto.endAt.Absent? && dated ==> slot.endAt == Some(startAt.value + 3_600_000))
  {
  }

  /** An update that names no date keeps a well-formed interval as it is; naming any date
      without an explicit end resets the length to one hour, whatever it was. */
  lemma ScheduleOnlyMovesWhenAsked(dto: ScheduleDto, slot: Slot)
    requires WellFormed(slot) && dto.endAt.Absent?
    ensures dto.startAt.Absent? && dto.data.Absent? && !dto.hasHora ==>
              ResolveSchedule(dto, Some(slot)) == Some(slot.(data := slot.startAt.value))
    ensures !(dto.startAt.Absent? && dto.data.Absent? && !dto.hasHora) && ResolveSchedule(dto, Some(slot)).Some? ==>
              var r := ResolveSchedule(dto, Some(slot)).value;
              r.endAt.value - r.startAt.value == 3_600_000
  {
  }
}
