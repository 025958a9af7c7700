/** The advisory locks of the pet agenda: which keys a booking takes and in which order. */
module AgendaLocks {
  import opened WhiteSpace
  import opened Wrappers
  import opened AgendaSchedule

  type Key = string

  datatype Scope = Scope(tenant: string, branch: Option<string>)

  /** What a booking occupies: a pet (possibly none) and an attendant. */
  datatype Resource = Resource(pet: Option<string>, attendant: string)

  function OrNone(value: Option<string>): string {
    if value.Some? then value.value else "none"
  }

  function PetKey(scope: Scope, pet: Option<string>): Key {
    "agenda:pet:" + scope.tenant + ":" + OrNone(scope.branch) + ":" + OrNone(pet)
  }

  function AttendantKey(scope: Scope, attendant: string): Key {
    "agenda:attendant:" + scope.tenant + ":" + OrNone(scope.branch) + ":" + Fold(Trim(attendant))
  }

  // ----- the order of `sort()` on strings: by code unit, a proper prefix first

  predicate Less(a: Key, b: Key) {
    if b == [] then false
    else if a == [] then true
    else a[0] < b[0] || (a[0] == b[0] && Less(a[1..], b[1..]))
  }

  lemma LessIrreflexive(a: Key)
    ensures !Less(a, a)
  {
  }

  lemma {:induction false} LessTransitive(a: Key, b: Key, c: Key)
    requires Less(a, b) && Less(b, c)
    ensures Less(a, c)
  {
    if a != [] && a[0] == b[0] == c[0] {
      LessTransitive(a[1..], b[1..], c[1..]);
    }
  }

  lemma {:induction false} LessTotal(a: Key, b: Key)
    ensures Less(a, b) || a == b || Less(b, a)
  {
    if a != [] && b != [] && a[0] == b[0] {
      LessTotal(a[1..], b[1..]);
      assert a == [a[0]] + a[1..] && b == [b[0]] + b[1..];
    }
  }

  ghost predicate Ascending(keys: seq<Key>) {
    forall i, j :: 0 <= i < j < |keys| ==> Less(keys[i], keys[j])
  }

  /** Adds a key to an ascending sequence unless it is there already. */
  function Insert(key: Key, keys: seq<Key>): (r: seq<Key>)
    requires Ascending(keys)
    ensures Ascending(r)
    ensures forall k :: k in r <==> k == key || k in keys
  {
    if keys == [] then [key]
    else if key == keys[0] then keys
    else if Less(key, keys[0]) then
      assert forall j :: 0 <= j < |keys| ==> Less(key, keys[j]) by {
        forall j | 0 < j < |keys| ensures Less(key, keys[j]) { LessTransitive(key, keys[0], keys[j]); }
      }
      [key] + keys
    else
      var rest := Insert(key, keys[1..]);
      assert forall j :: 0 <= j < |rest| ==> Less(keys[0], rest[j]) by {
        LessTotal(key, keys[0]);
        forall j | 0 <= j < |rest| ensures Less(keys[0], rest[j]) { assert rest[j] in rest; }
      }
      assert keys == [keys[0]] + keys[1..];
      [keys[0]] + rest
  }

  /** The deduplicated, sorted keys of `withScheduleLocks`. */
  function LockKeys(scope: Scope, resources: seq<Resource>): (keys: seq<Key>)
    ensures Ascending(keys)
    ensures forall k :: k in keys <==> exists r ::
            r in resources && (k == PetKey(scope, r.pet) || k == AttendantKey(scope, r.attendant))
  {
    if resources == [] then []
    else
      var r := resources[0];
      assert forall q :: q in resources <==> q == r || q in resources[1..];
      Insert(PetKey(scope, r.pet), Insert(AttendantKey(scope, r.attendant), LockKeys(scope, resources[1..])))
  }
}
