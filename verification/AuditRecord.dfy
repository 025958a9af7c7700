/** What an audit operation records, and when recording it again is refused. */
module AuditRecord {
  import opened Wrappers
  import opened JsonText
  import opened StableJson
  import opened WhiteSpace

  /** A call's input, with the fingerprints and sanitized JSON values taken as given. `Undefined`
      is a JSON column left empty. */
  datatype Input = Input(
    tenantId: string, branchId: Option<string>, actorProfileId: Option<string>, actorRole: Option<string>,
    requestId: Option<string>, operationId: string, eventType: string, action: string, outcome: string,
    severity: Option<string>, contextKind: Option<string>, targetType: Option<string>, targetId: Option<string>,
    reasonCode: Option<string>, ipHash: Option<string>, userAgentHash: Option<string>,
    metadata: Json, beforeState: Json, afterState: Json)

  datatype Record = Record(
    tenantId: string, branchId: Option<string>, actorProfileId: Option<string>, actorRole: Option<string>,
    requestId: Option<string>, operationId: string, eventType: string, action: string, outcome: string,
    severity: string, contextKind: string, targetType: Option<string>, targetId: Option<string>,
    reasonCode: Option<string>, ipHash: Option<string>, userAgentHash: Option<string>,
    metadata: Json, beforeState: Json, afterState: Json)

  // ----- text fields

  function OneLine(s: string): (r: string)
    ensures |r| == |s| && forall i :: 0 <= i < |r| ==> r[i] == if s[i] == '\r' || s[i] == '\n' then ' ' else s[i]
  {
    if s == [] then "" else [if s[0] == '\r' || s[0] == '\n' then ' ' else s[0]] + OneLine(s[1..])
  }

  function TextField(value: Option<string>, max: nat): Option<string> {
    if value.None? then None else
    var s := Trim(OneLine(value.value));
    var cut := if |s| <= max then s else s[..max];
    if cut == [] then None else Some(cut)
  }

  lemma OneLineBlank(s: string)
    ensures Blank(OneLine(s)) <==> Blank(s)
  {
    var line := OneLine(s);
    assert forall i :: 0 <= i < |s| ==> (IsSpace(line[i]) <==> IsSpace(s[i]));
  }

  /** A text field is the text on one line, trimmed and then cut to its length; it is null exactly
      when it is missing or only white space. A cut text may end in white space, none begins with it. */
  lemma TextFieldIsClean(value: Option<string>, max: nat)
    ensures TextField(value, max).None? <==> value.None? || Blank(value.value) || max == 0
    ensures TextField(value, max).Some? ==>
              var text, line := TextField(value, max).value, OneLine(value.value);
              && text <= Trim(line) && (|text| == max || (|text| < max && text == Trim(line)))
              && text != "" && !IsSpace(text[0]) && '\r' !in text && '\n' !in text
  {
    hide Trim, IsSpace;
    if value.Some? {
      var line := OneLine(value.value);
      OneLineBlank(value.value);
      var i, j := TrimCuts(line);
      var t := Trim(line);
      assert Trimmed(t);
      forall k | 0 <= k < |t| ensures t[k] != '\r' && t[k] != '\n' { assert t[k] == line[i + k]; }
    }
  }

  function Or(value: Option<string>, other: string): string {
    if value.Some? then value.value else other
  }

  /** `value || null`. */
  function NonEmpty(value: Option<string>): Option<string> {
    if value == Some("") then None else value
  }

  function Data(input: Input): Record {
    Record(
      input.tenantId, NonEmpty(input.branchId), NonEmpty(input.actorProfileId), TextField(input.actorRole, 40),
      TextField(input.requestId, 128), Or(TextField(Some(input.operationId), 200), ""),
      Or(TextField(Some(input.eventType), 120), "unknown"), Or(TextField(Some(input.action), 120), "unknown"),
      input.outcome, Or(input.severity, "LOW"), Or(input.contextKind, "NORMAL"),
      TextField(input.targetType, 80), TextField(input.targetId, 160), TextField(input.reasonCode, 120),
      input.ipHash, input.userAgentHash, input.metadata, input.beforeState, input.afterState)
  }

  // ----- the payload hash

  function Nullable(value: Option<string>): Json {
    if value.Some? then Str(value.value) else Null
  }

  const FIELDS: seq<string> := [
    "tenantId", "branchId", "actorProfileId", "actorRole", "requestId", "operationId", "eventType", "action",
    "outcome", "severity", "contextKind", "targetType", "targetId", "reasonCode", "ipHash", "userAgentHash",
    "metadata", "beforeState", "afterState"]

  function Scalars(r: Record): (v: seq<Option<string>>)
    ensures |v| == 16
  {
    [Some(r.tenantId), r.branchId, r.actorProfileId, r.actorRole, r.requestId, Some(r.operationId), Some(r.eventType),
     Some(r.action), Some(r.outcome), Some(r.severity), Some(r.contextKind), r.targetType, r.targetId, r.reasonCode,
     r.ipHash, r.userAgentHash]
  }

  function Nullables(values: seq<Option<string>>): (r: seq<Json>)
    ensures |r| == |values| && forall i :: 0 <= i < |r| ==> r[i] == Nullable(values[i])
  {
    if values == [] then [] else [Nullable(values[0])] + Nullables(values[1..])
  }

  function Values(r: Record): seq<Json> {
    Nullables(Scalars(r)) + [r.metadata, r.beforeState, r.afterState]
  }

  function Zip(keys: seq<string>, values: seq<Json>): (r: seq<Entry>)
    requires |keys| == |values|
    ensures |r| == |keys| && forall i :: 0 <= i < |r| ==> r[i] == Keyed(keys[i], values[i])
  {
    if keys == [] then [] else [Keyed(keys[0], values[0])] + Zip(keys[1..], values[1..])
  }

  function ToJson(r: Record): Json {
    Obj(Zip(FIELDS, Values(r)))
  }

  function PayloadHash(r: Record, hash: string -> string, rank: Collation): string {
    hash(Stable(ToJson(r), rank))
  }

  // ----- enqueue

  datatype Stored = Stored(content: Record, payloadHash: string)

  type Table = map<(string, string), Stored>

  datatype Outcome = Recorded(stored: Stored) | ScopeRequired | IdentityConflict

  /** The insert that does nothing on a conflict, and the comparison with the row found after it.
      An error undoes the caller's transaction. */
  function Enqueue(table: Table, input: Input, hash: string -> string, rank: Collation): (Table, Outcome) {
    if input.tenantId == "" || input.operationId == "" then (table, ScopeRequired) else
    var data := Data(input);
    var key := (data.tenantId, data.operationId);
    var mine := Stored(data, PayloadHash(data, hash, rank));
    var after := if key in table then table else table[key := mine];
    if after[key].payloadHash != mine.payloadHash then (table, IdentityConflict) else (after, Recorded(after[key]))
  }

  // ----- what counts as the same content

  /** Every field equal, the JSON fields up to the order of their properties. */
  ghost predicate SameContent(r: Record, s: Record) {
    && r == s.(metadata := r.metadata, beforeState := r.beforeState, afterState := r.afterState)
    && Same(r.metadata, s.metadata) && Same(r.beforeState, s.beforeState) && Same(r.afterState, s.afterState)
  }

  ghost predicate Distinct(keys: seq<string>) {
    forall i, j :: 0 <= i < j < |keys| ==> keys[i] != keys[j]
  }

  /** Objects with the same list of keys are the same exactly when they are so key by key. */
  lemma {:induction false} SameByKey(keys: seq<string>, v: seq<Json>, w: seq<Json>)
    requires |keys| == |v| == |w| && Distinct(keys)
    ensures Same(Obj(Zip(keys, v)), Obj(Zip(keys, w))) <==> forall i :: 0 <= i < |keys| ==> Same(v[i], w[i])
  {
    var a, b := Zip(keys, v), Zip(keys, w);
    if Same(Obj(a), Obj(b)) {
      hide Same;
      forall i | 0 <= i < |keys| ensures Same(v[i], w[i]) {
        var j := PartnerOf(a, b, i);
        assert a[i].key == keys[i] && b[j].key == keys[j];
      }
    }
    if forall i :: 0 <= i < |keys| ==> Same(v[i], w[i]) {
      hide Same;
      forall i | 0 <= i < |keys| ensures HasRight(a[i], b) && HasLeft(a, b[i]) { assert Partners(a[i], b[i]); }
      AllPartnered(a, b);
    }
  }

  /** Enough of a key to tell the fields apart. */
  function Mark(key: string): int {
    if |key| < 2 then 0 else (|key| * 128 + key[0] as int) * 128 + key[1] as int
  }

  lemma FieldsDistinct()
    ensures Distinct(FIELDS)
  {
    var marks := [146021, 143730, 241891, 159971, 162149, 194544, 160502, 110819, 129013, 145893, 193007, 178785,
      146017, 178533, 111856, 228083, 145125, 192869, 176358];
    assert forall i :: 0 <= i < |FIELDS| ==> Mark(FIELDS[i]) == marks[i];
    hide Mark;
    assert forall i, j :: 0 <= i < j < |marks| ==> marks[i] != marks[j];
  }

  lemma SameScalar(v: Option<string>, w: Option<string>)
    ensures Same(Nullable(v), Nullable(w)) <==> v == w
  {
  }

  lemma ScalarsDetermine(r: Record, s: Record)
    ensures (forall i :: 0 <= i < 16 ==> Scalars(r)[i] == Scalars(s)[i]) <==>
            r == s.(metadata := r.metadata, beforeState := r.beforeState, afterState := r.afterState)
  {
    var v, w := Scalars(r), Scalars(s);
    if forall i :: 0 <= i < 16 ==> v[i] == w[i] {
      assert v[0] == w[0] && v[1] == w[1] && v[2] == w[2] && v[3] == w[3];
      assert v[4] == w[4] && v[5] == w[5] && v[6] == w[6] && v[7] == w[7];
      assert v[8] == w[8] && v[9] == w[9] && v[10] == w[10] && v[11] == w[11];
      assert v[12] == w[12] && v[13] == w[13] && v[14] == w[14] && v[15] == w[15];
    }
  }

  lemma SameValues(r: Record, s: Record)
    ensures (forall i :: 0 <= i < 19 ==> Same(Values(r)[i], Values(s)[i])) <==>
            && (forall i :: 0 <= i < 16 ==> Scalars(r)[i] == Scalars(s)[i])
            && Same(r.metadata, s.metadata) && Same(r.beforeState, s.beforeState) && Same(r.afterState, s.afterState)
  {
    var v, w := Values(r), Values(s);
    hide Scalars, Same;
    assert v[16] == r.metadata && v[17] == r.beforeState && v[18] == r.afterState;
    assert w[16] == s.metadata && w[17] == s.beforeState && w[18] == s.afterState;
    forall i | 0 <= i < 16 ensures Same(v[i], w[i]) <==> Scalars(r)[i] == Scalars(s)[i] {
      SameScalar(Scalars(r)[i], Scalars(s)[i]);
    }
  }

  lemma {:induction false} SameRecords(r: Record, s: Record)
    ensures Same(ToJson(r), ToJson(s)) <==> SameContent(r, s)
  {
    FieldsDistinct();
    ScalarsDetermine(r, s);
    SameValues(r, s);
    hide Scalars, Distinct, Same;
    SameByKey(FIELDS, Values(r), Values(s));
  }

  ghost predicate Injective(hash: string -> string) {
    forall x, y :: hash(x) == hash(y) ==> x == y
  }

  ghost predicate KeysSeparated(r: Record, rank: Collation) {
    Separated(ToJson(r), rank)
  }

  /** Equal hashes mean equal content, and the other way round when the collation tells the keys apart. */
  lemma {:induction false} HashDecidesContent(r: Record, s: Record, hash: string -> string, rank: Collation)
    requires Injective(hash)
    ensures PayloadHash(r, hash, rank) == PayloadHash(s, hash, rank) ==> SameContent(r, s)
    ensures KeysSeparated(r, rank) && KeysSeparated(s, rank) && SameContent(r, s) ==>
              PayloadHash(r, hash, rank) == PayloadHash(s, hash, rank)
  {
    hide Stable, Separated, SameContent, Same;
    SameRecords(r, s);
    if PayloadHash(r, hash, rank) == PayloadHash(s, hash, rank) {
      StableNeverConfuses(ToJson(r), ToJson(s), rank);
    }
    if KeysSeparated(r, rank) && KeysSeparated(s, rank) {
      StableDecidesSame(ToJson(r), ToJson(s), rank);
    }
  }

  // ----- over any sequence of calls

  /** What `Enqueue` keeps: a stored hash is the hash of the stored content. */
  ghost predicate HashesOk(table: Table, hash: string -> string, rank: Collation) {
    forall k :: k in table ==> table[k].payloadHash == PayloadHash(table[k].content, hash, rank)
  }

  /** The table after the calls, one after the other. */
  function EnqueueAll(table: Table, inputs: seq<Input>, hash: string -> string, rank: Collation): Table
    decreases |inputs|
  {
    if inputs == [] then table else EnqueueAll(Enqueue(table, inputs[0], hash, rank).0, inputs[1..], hash, rank)
  }

  function KeyOf(input: Input): (string, string) {
    (input.tenantId, Data(input).operationId)
  }

  predicate Scoped(input: Input) {
    input.tenantId != "" && input.operationId != ""
  }

  lemma OneCallKeeps(table: Table, input: Input, hash: string -> string, rank: Collation, key: (string, string))
    requires HashesOk(table, hash, rank)
    ensures var next := Enqueue(table, input, hash, rank).0;
            HashesOk(next, hash, rank) && (key in table ==> key in next && next[key] == table[key])
  {
    hide PayloadHash, Data;
  }

  /** Nothing recorded ever changes. */
  lemma {:induction false} RecordedStays(table: Table, inputs: seq<Input>, hash: string -> string, rank: Collation,
      key: (string, string))
    requires HashesOk(table, hash, rank)
    ensures HashesOk(EnqueueAll(table, inputs, hash, rank), hash, rank)
    ensures key in table ==>
              key in EnqueueAll(table, inputs, hash, rank) && EnqueueAll(table, inputs, hash, rank)[key] == table[key]
    decreases |inputs|
  {
    if inputs != [] {
      var next := Enqueue(table, inputs[0], hash, rank).0;
      OneCallKeeps(table, inputs[0], hash, rank, key);
      hide Enqueue, HashesOk;
      RecordedStays(next, inputs[1..], hash, rank, key);
    }
  }

  /** After a first call and any others, a call for the same operation is refused exactly when its
      content differs from the first call's; otherwise it gets the row of the first. */
  lemma {:induction false} RefusedExactlyWhenDifferent(
    table: Table, first: Input, others: seq<Input>, again: Input, hash: string -> string, rank: Collation)
    requires HashesOk(table, hash, rank) && Injective(hash)
    requires Scoped(first) && Scoped(again) && KeyOf(again) == KeyOf(first) && KeyOf(first) !in table
    requires KeysSeparated(Data(first), rank) && KeysSeparated(Data(again), rank)
    ensures var now := EnqueueAll(Enqueue(table, first, hash, rank).0, others, hash, rank);
            var (after, outcome) := Enqueue(now, again, hash, rank);
            && after == now
            && (SameContent(Data(first), Data(again)) <==> outcome == Recorded(now[KeyOf(first)]))
            && (!SameContent(Data(first), Data(again)) <==> outcome == IdentityConflict)
            && KeyOf(first) in now && now[KeyOf(first)].content == Data(first)
  {
    var start := Enqueue(table, first, hash, rank).0;
    EnqueueAnswers(table, first, hash, rank);
    hide Enqueue, PayloadHash, SameContent, KeysSeparated, Data, KeyOf;
    OneCallKeeps(table, first, hash, rank, KeyOf(first));
    RecordedStays(start, others, hash, rank, KeyOf(first));
    var now := EnqueueAll(start, others, hash, rank);
    EnqueueAnswers(now, again, hash, rank);
    assert now[KeyOf(first)].payloadHash == PayloadHash(Data(first), hash, rank) by {
      assert KeyOf(first) in now && now[KeyOf(first)].content == Data(first);
    }
    HashDecidesContent(Data(first), Data(again), hash, rank);
  }

  /** One call: the first for its operation is recorded, a later one only compared. */
  lemma EnqueueAnswers(table: Table, input: Input, hash: string -> string, rank: Collation)
    requires Scoped(input)
    ensures var (after, outcome) := Enqueue(table, input, hash, rank);
            var mine := Stored(Data(input), PayloadHash(Data(input), hash, rank));
            && (KeyOf(input) !in table ==> after == table[KeyOf(input) := mine] && outcome == Recorded(mine))
            && (KeyOf(input) in table ==> after == table)
            && (KeyOf(input) in table && table[KeyOf(input)].payloadHash == mine.payloadHash ==>
               outcome == Recorded(table[KeyOf(input)]))
            && (KeyOf(input) in table && table[KeyOf(input)].payloadHash != mine.payloadHash ==>
               outcome == IdentityConflict)
  {
    assert Data(input).tenantId == input.tenantId;
    hide Data, PayloadHash;
  }
}
