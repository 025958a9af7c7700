/** When the text of `stableJson` depends on the order of properties. */
module StableOrder {
  import opened Wrappers
  import opened JsonText
  import opened StableJson

  /** As in every object of the language, no key occurs twice. */
  ghost predicate WellFormed(v: Json)
    decreases v
  {
    match v
    case Arr(items) => forall i :: 0 <= i < |items| ==> WellFormed(items[i])
    case Obj(entries) =>
      && (forall i, j :: 0 <= i < j < |entries| ==> entries[i].key != entries[j].key)
      && (forall i :: 0 <= i < |entries| ==> WellFormed(entries[i].value))
    case _ => true
  }

  // ----- a value is the same as itself

  lemma {:induction false} SameSelf(v: Json)
    ensures Same(v, v)
    decreases v, 1
  {
    match v
    case Arr(items) =>
      forall i | 0 <= i < |items| ensures Same(items[i], items[i]) { SameSelf(items[i]); }
    case Obj(entries) => ObjSelf(entries);
    case _ =>
  }

  lemma {:induction false} ObjSelf(entries: seq<Entry>)
    ensures Same(Obj(entries), Obj(entries))
    decreases Obj(entries), 0
  {
    hide Same, Partners, HasLeft, HasRight;
    forall k | 0 <= k < |entries| ensures HasRight(entries[k], entries) && HasLeft(entries, entries[k]) {
      SelfPartner(entries[k]);
      PartnersAt(entries, entries, k);
    }
    AllPartnered(entries, entries);
  }

  lemma {:induction false} SelfPartner(e: Entry)
    ensures Partners(e, e)
    decreases e, 2
  {
    SameSelf(e.value);
  }

  lemma PartnersAt(a: seq<Entry>, b: seq<Entry>, k: nat)
    requires |a| == |b| && k < |a| && Partners(a[k], b[k])
    ensures HasRight(a[k], b) && HasLeft(a, b[k])
  {
    hide Partners;
  }

  // ----- a separated value: every other order has the same text

  /** The same properties in another order have the same keys, so they are told apart as well. */
  lemma {:induction false} SeparatedCarries(v: Json, w: Json, rank: Collation)
    requires Separated(v, rank) && Same(v, w) && WellFormed(w)
    ensures Separated(w, rank)
    decreases w, 1
  {
    match w
    case Arr(items) =>
      forall i | 0 <= i < |items| ensures Separated(items[i], rank) { SeparatedCarries(v.items[i], items[i], rank); }
    case Obj(entries) => ObjCarries(v.entries, entries, rank);
    case _ =>
  }

  lemma {:induction false} ObjCarries(a: seq<Entry>, b: seq<Entry>, rank: Collation)
    requires Separated(Obj(a), rank) && Same(Obj(a), Obj(b)) && WellFormed(Obj(b))
    ensures Separated(Obj(b), rank)
    decreases Obj(b), 0
  {
    hide Same, Partners, WellFormed;
    forall i, j | 0 <= i < j < |b| ensures rank(b[i].key) != rank(b[j].key) {
      var k := PartnerFor(a, b, i);
      var l := PartnerFor(a, b, j);
      PartnersMean(a[k], b[i]); PartnersMean(a[l], b[j]);
      KeysDistinct(b, i, j);
      assert k != l;
      assert rank(a[k].key) != rank(a[l].key);
    }
    forall i | 0 <= i < |b| ensures Separated(b[i].value, rank) {
      var k := PartnerFor(a, b, i);
      PartnersMean(a[k], b[i]);
      KeysDistinct(b, i, i);
      SeparatedCarries(a[k].value, b[i].value, rank);
    }
  }

  lemma PartnersMean(e: Entry, f: Entry)
    requires Partners(e, f)
    ensures e.key == f.key && Same(e.value, f.value)
  {
  }

  lemma KeysDistinct(b: seq<Entry>, i: nat, j: nat)
    requires WellFormed(Obj(b)) && i < |b| && j < |b|
    ensures (i != j ==> b[i].key != b[j].key) && WellFormed(b[i].value)
  {
  }

  // ----- any other value: some order has another text

  /** The first property of rank `r`. */
  function FirstOf<T>(xs: seq<Keyed<T>>, rank: Collation, r: real): Option<Keyed<T>> {
    if xs == [] then None else if rank(xs[0].key) == r then Some(xs[0]) else FirstOf(xs[1..], rank, r)
  }

  lemma {:induction false} InsertFirst<T>(x: Keyed<T>, xs: seq<Keyed<T>>, rank: Collation, r: real)
    ensures FirstOf(Insert(x, xs, rank), rank, r) == if rank(x.key) == r then Some(x) else FirstOf(xs, rank, r)
  {
    if xs == [] || rank(x.key) <= rank(xs[0].key) {
      assert ([x] + xs)[1..] == xs;
    } else {
      InsertFirst(x, xs[1..], rank, r);
      assert ([xs[0]] + Insert(x, xs[1..], rank))[1..] == Insert(x, xs[1..], rank);
    }
  }

  /** Sorting is stable: of properties ranked alike the first stays the first. */
  lemma {:induction false} SortFirst<T>(xs: seq<Keyed<T>>, rank: Collation, r: real)
    ensures FirstOf(Sort(xs, rank), rank, r) == FirstOf(xs, rank, r)
  {
    hide Insert;
    if xs != [] {
      SortFirst(xs[1..], rank, r);
      InsertFirst(xs[0], Sort(xs[1..], rank), rank, r);
    }
  }

  lemma {:induction false} FirstIsBefore<T>(xs: seq<Keyed<T>>, rank: Collation, r: real, i: nat) returns (k: nat)
    requires i < |xs| && rank(xs[i].key) == r
    ensures k <= i && FirstOf(xs, rank, r) == Some(xs[k])
  {
    if rank(xs[0].key) == r {
      k := 0;
    } else {
      k := FirstIsBefore(xs[1..], rank, r, i - 1);
      k := k + 1;
    }
  }

  function ToFront(entries: seq<Entry>, j: nat): (r: seq<Entry>)
    requires j < |entries|
    ensures |r| == |entries| && r[0] == entries[j]
    ensures forall i :: 0 <= i < |r| ==> r[i] == entries[if i == 0 then j else if i <= j then i - 1 else i]
  {
    [entries[j]] + entries[..j] + entries[j + 1..]
  }

  lemma FrontSame(entries: seq<Entry>, j: nat)
    requires WellFormed(Obj(entries)) && j < |entries|
    ensures WellFormed(Obj(ToFront(entries, j))) && Same(Obj(entries), Obj(ToFront(entries, j)))
  {
    hide Same, Partners, HasLeft, HasRight;
    var front := ToFront(entries, j);
    forall i | 0 <= i < |entries| ensures HasRight(entries[i], front) {
      SelfIn(entries[i], front, if i == j then 0 else if i < j then i + 1 else i);
    }
    forall i | 0 <= i < |front| ensures HasLeft(entries, front[i]) {
      SelfIn(front[i], entries, if i == 0 then j else if i <= j then i - 1 else i);
    }
    AllPartnered(entries, front);
  }

  lemma SelfIn(e: Entry, b: seq<Entry>, k: nat)
    requires k < |b| && b[k] == e
    ensures HasRight(e, b) && HasLeft(b, e)
  {
    hide Partners;
    SelfPartner(e);
  }

  /** Of two keys ranked alike, the one moved to the front comes first in the text as well. */
  lemma FrontChanges(entries: seq<Entry>, i: nat, j: nat, rank: Collation)
    requires WellFormed(Obj(entries)) && i < j < |entries| && rank(entries[i].key) == rank(entries[j].key)
    ensures Canon(Obj(entries), rank) != Canon(Obj(ToFront(entries, j)), rank)
  {
    hide WellFormed, Sort;
    var r, front := rank(entries[j].key), ToFront(entries, j);
    var before, after := CanonEntries(entries, rank), CanonEntries(front, rank);
    var k := FirstIsBefore(before, rank, r, i);
    KeysDistinct(entries, k, j);
    SortFirst(before, rank, r);
    SortFirst(after, rank, r);
    assert FirstOf(after, rank, r) == Some(after[0]);
  }

  lemma ValueSame(entries: seq<Entry>, i: nat, value: Json)
    requires i < |entries| && Same(entries[i].value, value)
    ensures Same(Obj(entries), Obj(entries[i := Keyed(entries[i].key, value)]))
  {
    hide Same, Partners, HasLeft, HasRight;
    var changed := entries[i := Keyed(entries[i].key, value)];
    forall k | 0 <= k < |entries| ensures HasRight(entries[k], changed) && HasLeft(entries, changed[k]) {
      if k == i { MeansPartners(entries[k], changed[k]); } else { SelfPartner(entries[k]); }
      PartnersAt(entries, changed, k);
    }
    AllPartnered(entries, changed);
  }

  lemma ValueWellFormed(entries: seq<Entry>, i: nat, value: Json)
    requires WellFormed(Obj(entries)) && i < |entries| && WellFormed(value)
    ensures WellFormed(Obj(entries[i := Keyed(entries[i].key, value)]))
  {
  }

  lemma MeansPartners(e: Entry, f: Entry)
    requires e.key == f.key && Same(e.value, f.value)
    ensures Partners(e, f)
  {
  }

  lemma ValueChanges(entries: seq<Entry>, i: nat, value: Json, rank: Collation)
    requires WellFormed(Obj(entries)) && i < |entries| && Canon(entries[i].value, rank) != Canon(value, rank)
    ensures Canon(Obj(entries), rank) != Canon(Obj(entries[i := Keyed(entries[i].key, value)]), rank)
  {
    hide WellFormed, Sort;
    var changed := entries[i := Keyed(entries[i].key, value)];
    var before, after := CanonEntries(entries, rank), CanonEntries(changed, rank);
    if Sort(before, rank) == Sort(after, rank) {
      var k := SortedMembersAgree(before, after, rank, i);
      KeysDistinct(entries, i, k);
    }
  }

  lemma ItemSame(items: seq<Json>, i: nat, item: Json)
    requires WellFormed(Arr(items)) && i < |items| && WellFormed(item) && Same(items[i], item)
    ensures WellFormed(Arr(items[i := item])) && Same(Arr(items), Arr(items[i := item]))
  {
    forall k | 0 <= k < |items| && k != i ensures Same(items[k], items[k]) { SameSelf(items[k]); }
  }

  /** A value with keys ranked alike, at any depth, has an order of properties with another text. */
  lemma {:induction false} Reordered(v: Json, rank: Collation) returns (w: Json)
    requires WellFormed(v) && !Separated(v, rank)
    ensures WellFormed(w) && Same(v, w) && Canon(v, rank) != Canon(w, rank)
    decreases v
  {
    hide Same;
    w := v;
    match v
    case Arr(items) =>
      var i :| 0 <= i < |items| && !Separated(items[i], rank);
      var item := Reordered(items[i], rank);
      w := Arr(items[i := item]);
      ItemSame(items, i, item);
      assert CanonItems(items, rank)[i] != CanonItems(items[i := item], rank)[i];
    case Obj(entries) =>
      if i :| 0 <= i < |entries| && !Separated(entries[i].value, rank) {
        var value := Reordered(entries[i].value, rank);
        w := Obj(entries[i := Keyed(entries[i].key, value)]);
        ValueSame(entries, i, value);
        ValueWellFormed(entries, i, value);
        ValueChanges(entries, i, value, rank);
      } else {
        var i, j :| 0 <= i < j < |entries| && rank(entries[i].key) == rank(entries[j].key);
        w := Obj(ToFront(entries, j));
        FrontSame(entries, j);
        FrontChanges(entries, i, j, rank);
      }
    case _ =>
  }

  /** The text of a value is the text of all its reorderings exactly when the collation tells the
      keys of each of its objects apart. */
  lemma {:induction false} OrderIgnoredFor(v: Json, rank: Collation)
    requires WellFormed(v)
    ensures Separated(v, rank) <==> forall w :: WellFormed(w) && Same(v, w) ==> Stable(w, rank) == Stable(v, rank)
  {
    hide Same, Separated, Stable, Canon, WellFormed;
    if Separated(v, rank) {
      forall w | WellFormed(w) && Same(v, w) ensures Stable(w, rank) == Stable(v, rank) {
        SeparatedCarries(v, w, rank);
        StableDecidesSame(v, w, rank);
      }
    } else {
      var w := Reordered(v, rank);
      TextIsCanon(v, w, rank);
    }
  }

  // ----- all values at once

  ghost predicate TellsApart(rank: Collation) {
    forall k, l :: rank(k) == rank(l) ==> k == l
  }

  ghost predicate IgnoresOrder(rank: Collation) {
    forall v, w :: WellFormed(v) && WellFormed(w) && Same(v, w) ==> Stable(v, rank) == Stable(w, rank)
  }

  lemma {:induction false} ApartMeansSeparated(v: Json, rank: Collation)
    requires TellsApart(rank) && WellFormed(v)
    ensures Separated(v, rank)
    decreases v
  {
    match v
    case Arr(items) =>
      forall i | 0 <= i < |items| ensures Separated(items[i], rank) { ApartMeansSeparated(items[i], rank); }
    case Obj(entries) =>
      forall i | 0 <= i < |entries| ensures Separated(entries[i].value, rank) {
        ApartMeansSeparated(entries[i].value, rank);
      }
    case _ =>
  }

  function Pair(k: string, l: string): Json {
    Obj([Keyed(k, Null), Keyed(l, Null)])
  }

  lemma PairsPartner(k: string, l: string)
    ensures forall i :: 0 <= i < 2 ==> HasRight(Pair(k, l).entries[i], Pair(l, k).entries)
    ensures forall j :: 0 <= j < 2 ==> HasLeft(Pair(k, l).entries, Pair(l, k).entries[j])
  {
    var a, b := Pair(k, l).entries, Pair(l, k).entries;
    assert Same(Null, Null);
    assert Partners(a[0], b[1]) && Partners(a[1], b[0]);
  }

  lemma PairsAreSame(k: string, l: string)
    requires k != l
    ensures Same(Pair(k, l), Pair(l, k)) && WellFormed(Pair(k, l)) && WellFormed(Pair(l, k))
  {
    hide Same, HasLeft, HasRight;
    PairsPartner(k, l);
    AllPartnered(Pair(k, l).entries, Pair(l, k).entries);
  }

  /** Two keys of equal rank stay in the order given, so swapping them changes the text. */
  lemma {:induction false} TiesKeepOrder(k: string, l: string, rank: Collation)
    requires rank(k) == rank(l) && k != l
    ensures Same(Pair(k, l), Pair(l, k)) && WellFormed(Pair(k, l)) && WellFormed(Pair(l, k))
    ensures Stable(Pair(k, l), rank) != Stable(Pair(l, k), rank)
  {
    hide Same, WellFormed, Stable, Canon;
    PairsAreSame(k, l);
    TextIsCanon(Pair(k, l), Pair(l, k), rank);
    SortTie(k, l, rank);
    SortTie(l, k, rank);
    assert Pair(k, l).entries[0].key == k && Pair(l, k).entries[0].key == l;
  }

  lemma SortTie(k: string, l: string, rank: Collation)
    requires rank(k) == rank(l)
    ensures Canon(Pair(k, l), rank) == Pair(k, l)
  {
    var a := [Keyed(k, Null), Keyed(l, Null)];
    assert CanonEntries(a, rank) == a;
    assert a[1..] == [Keyed(l, Null)] && a[1..][1..] == [];
    assert Sort(a[1..], rank) == [Keyed(l, Null)];
  }

  /** The text ignores the order of properties exactly when the collation tells all keys apart. */
  lemma {:induction false} OrderIgnoredExactlyWhen(rank: Collation)
    ensures IgnoresOrder(rank) <==> TellsApart(rank)
  {
    hide Stable, Same, WellFormed;
    if TellsApart(rank) {
      forall v, w | WellFormed(v) && WellFormed(w) && Same(v, w) ensures Stable(v, rank) == Stable(w, rank) {
        ApartMeansSeparated(v, rank);
        OrderIgnoredFor(v, rank);
      }
    } else {
      var k, l :| rank(k) == rank(l) && k != l;
      TiesKeepOrder(k, l, rank);
    }
  }
}
