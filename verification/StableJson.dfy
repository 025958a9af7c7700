/** `stableJson`: the text of a value with the properties of every object sorted by key. */
module StableJson {
  import opened JsonText

  /** How `localeCompare` ranks keys: it may rank different keys alike. */
  type Collation = string -> real

  // ----- a stable sort by the rank of the key

  function Insert<T>(x: Keyed<T>, xs: seq<Keyed<T>>, rank: Collation): seq<Keyed<T>> {
    if xs == [] || rank(x.key) <= rank(xs[0].key) then [x] + xs else [xs[0]] + Insert(x, xs[1..], rank)
  }

  function Sort<T>(xs: seq<Keyed<T>>, rank: Collation): seq<Keyed<T>> {
    if xs == [] then [] else Insert(xs[0], Sort(xs[1..], rank), rank)
  }

  // ----- the function itself

  function Stable(v: Json, rank: Collation): string
    decreases v, 0
  {
    match v
    case Arr(items) => "[" + StableItems(items, rank) + "]"
    case Obj(entries) => "{" + Print(Sort(Pieces(entries, rank), rank)) + "}"
    case _ => Text(v)
  }

  function StableItems(items: seq<Json>, rank: Collation): string
    decreases items, 1
  {
    if items == [] then ""
    else if |items| == 1 then Stable(items[0], rank)
    else Stable(items[0], rank) + "," + StableItems(items[1..], rank)
  }

  /** Each property with the text of its value; sorting looks at the keys only. */
  function Pieces(entries: seq<Entry>, rank: Collation): seq<Keyed<string>>
    decreases entries, 1
  {
    if entries == [] then []
    else [Keyed(entries[0].key, Stable(entries[0].value, rank))] + Pieces(entries[1..], rank)
  }

  function PrintPiece(piece: Keyed<string>): string {
    Quote(piece.key) + ":" + piece.value
  }

  function Print(pieces: seq<Keyed<string>>): string {
    if pieces == [] then ""
    else if |pieces| == 1 then PrintPiece(pieces[0])
    else PrintPiece(pieces[0]) + "," + Print(pieces[1..])
  }

  // ----- when two values say the same

  /** Equal up to the order of properties at any depth, and to a missing value being null. */
  ghost predicate Same(v: Json, w: Json)
    decreases v
  {
    match (v, w)
    case (Arr(a), Arr(b)) => |a| == |b| && forall i :: 0 <= i < |a| ==> Same(a[i], b[i])
    case (Obj(a), Obj(b)) =>
      (forall i :: 0 <= i < |a| ==> HasRight(a[i], b)) && (forall j :: 0 <= j < |b| ==> HasLeft(a, b[j]))
    case (Arr(_), _) => false
    case (Obj(_), _) => false
    case _ => v == w || (v in {Undefined, Null} && w in {Undefined, Null})
  }

  ghost predicate Partners(e: Entry, f: Entry)
    decreases e, 0
  {
    e.key == f.key && Same(e.value, f.value)
  }

  ghost predicate HasRight(e: Entry, b: seq<Entry>)
    decreases e, 1
  {
    exists j :: 0 <= j < |b| && Partners(e, b[j])
  }

  ghost predicate HasLeft(a: seq<Entry>, f: Entry)
    decreases a
  {
    exists i :: 0 <= i < |a| && Partners(a[i], f)
  }

  /** The keys of every object, at any depth, are told apart by the collation. */
  ghost predicate Separated(v: Json, rank: Collation)
    decreases v
  {
    match v
    case Arr(items) => forall i :: 0 <= i < |items| ==> Separated(items[i], rank)
    case Obj(entries) =>
      && (forall i, j :: 0 <= i < j < |entries| ==> rank(entries[i].key) != rank(entries[j].key))
      && (forall i :: 0 <= i < |entries| ==> Separated(entries[i].value, rank))
    case _ => true
  }

  // ----- the value that the text spells out

  function Canon(v: Json, rank: Collation): Json
    decreases v, 0
  {
    match v
    case Undefined => Null
    case Arr(items) => Arr(CanonItems(items, rank))
    case Obj(entries) => Obj(Sort(CanonEntries(entries, rank), rank))
    case _ => v
  }

  function CanonItems(items: seq<Json>, rank: Collation): (r: seq<Json>)
    ensures |r| == |items| && forall i :: 0 <= i < |r| ==> r[i] == Canon(items[i], rank)
    decreases items, 1
  {
    if items == [] then [] else [Canon(items[0], rank)] + CanonItems(items[1..], rank)
  }

  function CanonEntries(entries: seq<Entry>, rank: Collation): (r: seq<Entry>)
    ensures |r| == |entries|
    ensures forall i :: 0 <= i < |r| ==> r[i] == Keyed(entries[i].key, Canon(entries[i].value, rank))
    decreases entries, 1
  {
    if entries == [] then []
    else [Keyed(entries[0].key, Canon(entries[0].value, rank))] + CanonEntries(entries[1..], rank)
  }

  function Texts(entries: seq<Entry>): seq<Keyed<string>> {
    if entries == [] then [] else [Keyed(entries[0].key, Text(entries[0].value))] + Texts(entries[1..])
  }

  lemma {:induction false} InsertTexts(x: Entry, xs: seq<Entry>, rank: Collation)
    ensures Texts(Insert(x, xs, rank)) == Insert(Keyed(x.key, Text(x.value)), Texts(xs), rank)
  {
    hide Text;
    if xs == [] || rank(x.key) <= rank(xs[0].key) {
      assert ([x] + xs)[1..] == xs;
    } else {
      InsertTexts(x, xs[1..], rank);
      assert ([xs[0]] + Insert(x, xs[1..], rank))[1..] == Insert(x, xs[1..], rank);
      assert Texts(xs)[1..] == Texts(xs[1..]);
    }
  }

  lemma {:induction false} SortTexts(xs: seq<Entry>, rank: Collation)
    ensures Texts(Sort(xs, rank)) == Sort(Texts(xs), rank)
  {
    hide Text, Insert;
    if xs != [] {
      SortTexts(xs[1..], rank);
      InsertTexts(xs[0], Sort(xs[1..], rank), rank);
      assert Texts(xs)[1..] == Texts(xs[1..]);
    }
  }

  lemma {:induction false} PrintTexts(xs: seq<Entry>)
    ensures Print(Texts(xs)) == TextEntries(xs)
  {
    hide Text;
    if xs != [] {
      assert Texts(xs)[1..] == Texts(xs[1..]);
      PrintTexts(xs[1..]);
    }
  }

  /** `stableJson` is the plain text of the canonical value. */
  lemma {:induction false} StableSpells(v: Json, rank: Collation)
    ensures Stable(v, rank) == Text(Canon(v, rank))
    decreases v, 0
  {
    match v
    case Arr(items) => StableItemsSpell(items, rank);
    case Obj(entries) =>
      PiecesSpell(entries, rank);
      SortTexts(CanonEntries(entries, rank), rank);
      PrintTexts(Sort(CanonEntries(entries, rank), rank));
    case _ =>
  }

  lemma {:induction false} StableItemsSpell(items: seq<Json>, rank: Collation)
    ensures StableItems(items, rank) == TextItems(CanonItems(items, rank))
    decreases items, 1
  {
    if items != [] {
      StableSpells(items[0], rank);
      StableItemsSpell(items[1..], rank);
      assert CanonItems(items, rank)[1..] == CanonItems(items[1..], rank);
    }
  }

  lemma {:induction false} PiecesSpell(entries: seq<Entry>, rank: Collation)
    ensures Pieces(entries, rank) == Texts(CanonEntries(entries, rank))
    decreases entries, 1
  {
    if entries != [] {
      StableSpells(entries[0].value, rank);
      PiecesSpell(entries[1..], rank);
      assert CanonEntries(entries, rank)[1..] == CanonEntries(entries[1..], rank);
    }
  }

  lemma {:induction false} InsertMembers<T(!new)>(x: Keyed<T>, xs: seq<Keyed<T>>, rank: Collation)
    ensures forall y :: y in Insert(x, xs, rank) <==> y == x || y in xs
  {
    if !(xs == [] || rank(x.key) <= rank(xs[0].key)) {
      InsertMembers(x, xs[1..], rank);
      assert xs == [xs[0]] + xs[1..];
    }
  }

  lemma {:induction false} SortMembers<T(!new)>(xs: seq<Keyed<T>>, rank: Collation)
    ensures forall y :: y in Sort(xs, rank) <==> y in xs
  {
    if xs != [] {
      SortMembers(xs[1..], rank);
      InsertMembers(xs[0], Sort(xs[1..], rank), rank);
      assert xs == [xs[0]] + xs[1..];
    }
  }

  lemma {:induction false} CanonDefined(v: Json, rank: Collation)
    ensures Defined(Canon(v, rank))
    decreases v
  {
    match v
    case Arr(items) =>
      forall i | 0 <= i < |items| ensures Defined(CanonItems(items, rank)[i]) { CanonDefined(items[i], rank); }
    case Obj(entries) =>
      var canon := CanonEntries(entries, rank);
      SortMembers(canon, rank);
      var sorted := Sort(canon, rank);
      forall i | 0 <= i < |sorted| ensures Defined(sorted[i].value) {
        assert sorted[i] in canon;
        var j :| 0 <= j < |canon| && canon[j] == sorted[i];
        CanonDefined(entries[j].value, rank);
      }
    case _ =>
  }

  /** Two values have the same text exactly when they have the same canonical value. */
  lemma {:induction false} TextIsCanon(v: Json, w: Json, rank: Collation)
    ensures Stable(v, rank) == Stable(w, rank) <==> Canon(v, rank) == Canon(w, rank)
  {
    StableSpells(v, rank);
    StableSpells(w, rank);
    if Stable(v, rank) == Stable(w, rank) {
      CanonDefined(v, rank);
      CanonDefined(w, rank);
      hide Text, Canon, Stable;
      assert Text(Canon(v, rank)) + "" == Text(Canon(w, rank)) + "";
      TextDecodes(Canon(v, rank), Canon(w, rank), "", "");
    }
  }

  // ----- the canonical value forgets the order of properties and nothing else

  ghost predicate Ascending<T>(xs: seq<Keyed<T>>, rank: Collation) {
    forall i, j :: 0 <= i < j < |xs| ==> rank(xs[i].key) < rank(xs[j].key)
  }

  lemma {:induction false} InsertAscends<T(!new)>(x: Keyed<T>, xs: seq<Keyed<T>>, rank: Collation)
    requires Ascending(xs, rank) && forall y :: y in xs ==> rank(y.key) != rank(x.key)
    ensures Ascending(Insert(x, xs, rank), rank)
  {
    if !(xs == [] || rank(x.key) <= rank(xs[0].key)) {
      InsertAscends(x, xs[1..], rank);
      InsertMembers(x, xs[1..], rank);
      var rest := Insert(x, xs[1..], rank);
      forall j | 0 <= j < |rest| ensures rank(xs[0].key) < rank(rest[j].key) {
        assert rest[j] in rest;
      }
    }
  }

  lemma {:induction false} SortAscends<T(!new)>(xs: seq<Keyed<T>>, rank: Collation)
    requires forall i, j :: 0 <= i < j < |xs| ==> rank(xs[i].key) != rank(xs[j].key)
    ensures Ascending(Sort(xs, rank), rank)
  {
    if xs != [] {
      SortAscends(xs[1..], rank);
      SortMembers(xs[1..], rank);
      InsertAscends(xs[0], Sort(xs[1..], rank), rank);
    }
  }

  ghost predicate Within<T(!new)>(xs: seq<T>, ys: seq<T>) {
    forall e :: e in xs ==> e in ys
  }

  lemma {:induction false} AscendingUnique<T(!new)>(xs: seq<Keyed<T>>, ys: seq<Keyed<T>>, rank: Collation)
    requires Ascending(xs, rank) && Ascending(ys, rank) && Within(xs, ys) && Within(ys, xs)
    ensures xs == ys
    decreases |xs|
  {
    assert (xs != [] ==> xs[0] in xs) && (ys != [] ==> ys[0] in ys);
    if xs != [] {
      assert xs[0] in ys;
      assert Ascending(xs[1..], rank) && Ascending(ys[1..], rank);
      hide Ascending, Within;
      SameHead(xs, ys, rank);
      TailMembers(xs, ys, rank);
      TailMembers(ys, xs, rank);
      AscendingUnique(xs[1..], ys[1..], rank);
      assert xs == [xs[0]] + xs[1..] && ys == [ys[0]] + ys[1..];
    }
  }

  lemma SameHead<T(!new)>(xs: seq<Keyed<T>>, ys: seq<Keyed<T>>, rank: Collation)
    requires Ascending(xs, rank) && Ascending(ys, rank) && xs != [] && ys != [] && Within(xs, ys) && Within(ys, xs)
    ensures xs[0] == ys[0]
  {
    assert xs[0] in ys && ys[0] in xs;
    var i :| 0 <= i < |xs| && xs[i] == ys[0];
    var j :| 0 <= j < |ys| && ys[j] == xs[0];
    assert i > 0 ==> rank(xs[0].key) < rank(xs[i].key);
    assert j > 0 ==> rank(ys[0].key) < rank(ys[j].key);
  }

  lemma TailMembers<T(!new)>(xs: seq<Keyed<T>>, ys: seq<Keyed<T>>, rank: Collation)
    requires Ascending(xs, rank) && xs != [] && ys != [] && xs[0] == ys[0] && Within(xs, ys)
    ensures Within(xs[1..], ys[1..])
  {
    forall e | e in xs[1..] ensures e in ys[1..] {
      assert e in ys && e != xs[0];
    }
  }

  /** Sorting by keys that the collation tells apart depends on the members only. */
  lemma {:induction false} SortAgrees<T(!new)>(xs: seq<Keyed<T>>, ys: seq<Keyed<T>>, rank: Collation)
    requires forall i, j :: 0 <= i < j < |xs| ==> rank(xs[i].key) != rank(xs[j].key)
    requires forall i, j :: 0 <= i < j < |ys| ==> rank(ys[i].key) != rank(ys[j].key)
    requires (forall i :: 0 <= i < |xs| ==> xs[i] in ys) && (forall j :: 0 <= j < |ys| ==> ys[j] in xs)
    ensures Sort(xs, rank) == Sort(ys, rank)
  {
    SortMembers(xs, rank); SortMembers(ys, rank);
    SortAscends(xs, rank); SortAscends(ys, rank);
    assert Within(Sort(xs, rank), Sort(ys, rank)) && Within(Sort(ys, rank), Sort(xs, rank));
    AscendingUnique(Sort(xs, rank), Sort(ys, rank), rank);
  }

  lemma {:induction false} SortedMembersAgree<T(!new)>(xs: seq<Keyed<T>>, ys: seq<Keyed<T>>, rank: Collation, i: nat)
      returns (j: nat)
    requires Sort(xs, rank) == Sort(ys, rank) && i < |xs|
    ensures j < |ys| && xs[i] == ys[j]
  {
    SortMembers(xs, rank); SortMembers(ys, rank);
    assert xs[i] in ys;
    j :| j < |ys| && ys[j] == xs[i];
  }

  /** Same values have the same canonical value. */
  lemma {:induction false} SameCanon(v: Json, w: Json, rank: Collation)
    requires Same(v, w) && Separated(v, rank) && Separated(w, rank)
    ensures Canon(v, rank) == Canon(w, rank)
    decreases v, 1
  {
    match (v, w)
    case (Arr(a), Arr(b)) =>
      forall i | 0 <= i < |a| ensures Canon(a[i], rank) == Canon(b[i], rank) { SameCanon(a[i], b[i], rank); }
    case (Obj(a), Obj(b)) =>
      SameCanonObj(a, b, rank);
    case _ =>
  }

  lemma PartnerOf(a: seq<Entry>, b: seq<Entry>, i: nat) returns (j: nat)
    requires Same(Obj(a), Obj(b)) && i < |a|
    ensures j < |b| && Partners(a[i], b[j])
  {
    hide Partners;
    assert HasRight(a[i], b);
    hide Same;
    j :| 0 <= j < |b| && Partners(a[i], b[j]);
  }

  lemma PartnerFor(a: seq<Entry>, b: seq<Entry>, j: nat) returns (i: nat)
    requires Same(Obj(a), Obj(b)) && j < |b|
    ensures i < |a| && Partners(a[i], b[j])
  {
    hide Partners;
    assert HasLeft(a, b[j]);
    hide Same;
    i :| 0 <= i < |a| && Partners(a[i], b[j]);
  }

  lemma {:induction false} SameCanonEntry(e: Entry, f: Entry, rank: Collation)
    requires Partners(e, f) && Separated(e.value, rank) && Separated(f.value, rank)
    ensures Keyed(e.key, Canon(e.value, rank)) == Keyed(f.key, Canon(f.value, rank))
    decreases e, 2
  {
    SameCanon(e.value, f.value, rank);
  }

  lemma {:induction false} SameCanonObj(a: seq<Entry>, b: seq<Entry>, rank: Collation)
    requires Same(Obj(a), Obj(b)) && Separated(Obj(a), rank) && Separated(Obj(b), rank)
    ensures Canon(Obj(a), rank) == Canon(Obj(b), rank)
    decreases Obj(a), 0
  {
    hide Same, Partners;
    var ca, cb := CanonEntries(a, rank), CanonEntries(b, rank);
    forall i | 0 <= i < |a| ensures ca[i] in cb {
      var j := PartnerOf(a, b, i);
      SameCanonEntry(a[i], b[j], rank);
      assert cb[j] == ca[i];
    }
    forall j | 0 <= j < |b| ensures cb[j] in ca {
      var i := PartnerFor(a, b, j);
      SameCanonEntry(a[i], b[j], rank);
      assert cb[j] == ca[i];
    }
    SortAgrees(ca, cb, rank);
  }

  /** Values with the same canonical value are the same. */
  lemma {:induction false} CanonSame(v: Json, w: Json, rank: Collation)
    requires Canon(v, rank) == Canon(w, rank)
    ensures Same(v, w)
    decreases v, 1
  {
    match (v, w)
    case (Arr(a), Arr(b)) =>
      forall i | 0 <= i < |a| ensures Same(a[i], b[i]) {
        assert CanonItems(a, rank)[i] == CanonItems(b, rank)[i];
        CanonSame(a[i], b[i], rank);
      }
    case (Obj(a), Obj(b)) =>
      CanonSameObj(a, b, rank);
    case _ =>
  }

  lemma {:induction false} CanonSameEntry(e: Entry, f: Entry, rank: Collation)
    requires e.key == f.key && Canon(e.value, rank) == Canon(f.value, rank)
    ensures Partners(e, f)
    decreases e, 2
  {
    CanonSame(e.value, f.value, rank);
  }

  lemma AllPartnered(a: seq<Entry>, b: seq<Entry>)
    requires forall i :: 0 <= i < |a| ==> HasRight(a[i], b)
    requires forall j :: 0 <= j < |b| ==> HasLeft(a, b[j])
    ensures Same(Obj(a), Obj(b))
  {
    hide HasLeft, HasRight;
  }

  lemma {:induction false} CanonSameObj(a: seq<Entry>, b: seq<Entry>, rank: Collation)
    requires Sort(CanonEntries(a, rank), rank) == Sort(CanonEntries(b, rank), rank)
    ensures Same(Obj(a), Obj(b))
    decreases Obj(a), 0
  {
    hide Same, Partners, Sort, Canon, CanonEntries;
    var ca, cb := CanonEntries(a, rank), CanonEntries(b, rank);
    forall i | 0 <= i < |a| ensures HasRight(a[i], b) {
      var j := SortedMembersAgree(ca, cb, rank, i);
      CanonSameEntry(a[i], b[j], rank);
      assert Partners(a[i], b[j]);
    }
    forall j | 0 <= j < |b| ensures HasLeft(a, b[j]) {
      var i := SortedMembersAgree(cb, ca, rank, j);
      CanonSameEntry(a[i], b[j], rank);
      assert Partners(a[i], b[j]);
    }
    AllPartnered(a, b);
  }

  /** Values whose keys the collation tells apart have the same text exactly when they differ at
      most in the order of properties. */
  lemma {:induction false} StableDecidesSame(v: Json, w: Json, rank: Collation)
    requires Separated(v, rank) && Separated(w, rank)
    ensures Stable(v, rank) == Stable(w, rank) <==> Same(v, w)
  {
    TextIsCanon(v, w, rank);
    if Same(v, w) { SameCanon(v, w, rank); }
    if Canon(v, rank) == Canon(w, rank) { CanonSame(v, w, rank); }
  }

  /** Without any condition: different values never have the same text. */
  lemma {:induction false} StableNeverConfuses(v: Json, w: Json, rank: Collation)
    requires Stable(v, rank) == Stable(w, rank)
    ensures Same(v, w)
  {
    TextIsCanon(v, w, rank);
    CanonSame(v, w, rank);
  }
}
