/** Paging through migration records by a signed cursor over their hashed keys. */
module MigrationBatch {
  import opened Wrappers

  datatype Record = Record(sourceProvider: string, sourceSubject: string, profileId: string)

  /** The hash of a record's three fields, read as a number: digests of equal length compare alike. */
  type Keying = Record -> nat

  /** A decoded cursor, whatever the caller sent in it. */
  datatype Cursor = Malformed | Cursor(v: int, k: nat, s: nat)

  datatype Error = InvalidBatchSize | DuplicateRecordKey | InvalidCursor

  datatype Plan = Plan(scanned: nat, eligible: nat, skipped: int, cursor: Option<Cursor>)

  datatype Result<T> = Ok(value: T) | Err(error: Error)

  const VERSION := 1

  function Insert(r: Record, rs: seq<Record>, key: Keying): seq<Record> {
    if rs == [] || key(r) <= key(rs[0]) then [r] + rs else [rs[0]] + Insert(r, rs[1..], key)
  }

  function Sort(rs: seq<Record>, key: Keying): seq<Record> {
    if rs == [] then [] else Insert(rs[0], Sort(rs[1..], key), key)
  }

  predicate DistinctKeys(rs: seq<Record>, key: Keying) {
    forall i, j :: 0 <= i < j < |rs| ==> key(rs[i]) != key(rs[j])
  }

  function Encode(k: nat, sign: nat -> nat): Cursor {
    Cursor(VERSION, k, sign(k))
  }

  /** The index after the record with that key. */
  function After(ordered: seq<Record>, k: nat, key: Keying): Option<nat> {
    if ordered == [] then None
    else if key(ordered[0]) == k then Some(1)
    else match After(ordered[1..], k, key)
         case None => None
         case Some(i) => Some(i + 1)
  }

  function Start(ordered: seq<Record>, cursor: Option<Cursor>, key: Keying, sign: nat -> nat): Option<nat> {
    match cursor
    case None => Some(0)
    case Some(Malformed) => None
    case Some(Cursor(v, k, s)) => if v != VERSION || s != sign(k) then None else After(ordered, k, key)
  }

  predicate Eligible(r: Record) {
    r.sourceProvider in {"supabase", "supertokens"} && r.sourceSubject != "" && r.profileId != ""
  }

  function CountEligible(rs: seq<Record>): nat {
    if rs == [] then 0 else CountEligible(rs[..|rs| - 1]) + if Eligible(rs[|rs| - 1]) then 1 else 0
  }

  function Least(a: nat, b: nat): nat {
    if a < b then a else b
  }

  /** The records a call looks at. */
  function Selected(records: seq<Record>, batchSize: int, cursor: Option<Cursor>, key: Keying,
      sign: nat -> nat): Result<seq<Record>>
  {
    if batchSize < 1 || batchSize > 100 then Err(InvalidBatchSize)
    else if !DistinctKeys(records, key) then Err(DuplicateRecordKey)
    else
      var ordered := Sort(records, key);
      match Start(ordered, cursor, key, sign)
      case None => Err(InvalidCursor)
      case Some(start) => Ok(ordered[Least(start, |ordered|)..Least(start + batchSize, |ordered|)])
  }

  function PlanBatch(records: seq<Record>, batchSize: int, cursor: Option<Cursor>, key: Keying,
      sign: nat -> nat): Result<Plan>
  {
    match Selected(records, batchSize, cursor, key, sign)
    case Err(e) => Err(e)
    case Ok(selected) =>
      var eligible := CountEligible(selected);
      Ok(Plan(|selected|, eligible, |selected| - eligible,
              if selected == [] then cursor else Some(Encode(key(selected[|selected| - 1]), sign))))
  }

  // ----- sorting

  ghost predicate Ascending(rs: seq<Record>, key: Keying) {
    forall i, j :: 0 <= i < j < |rs| ==> key(rs[i]) <= key(rs[j])
  }

  lemma {:induction false} InsertKeeps(r: Record, rs: seq<Record>, key: Keying)
    ensures multiset(Insert(r, rs, key)) == multiset(rs) + multiset{r}
  {
    if !(rs == [] || key(r) <= key(rs[0])) {
      InsertKeeps(r, rs[1..], key);
      assert rs == [rs[0]] + rs[1..];
    }
  }

  lemma {:induction false} InsertSorts(r: Record, rs: seq<Record>, key: Keying)
    requires Ascending(rs, key)
    ensures Ascending(Insert(r, rs, key), key)
    ensures rs != [] ==> key(Insert(r, rs, key)[0]) == Least(key(r), key(rs[0]))
  {
    if !(rs == [] || key(r) <= key(rs[0])) {
      InsertSorts(r, rs[1..], key);
      var rest := Insert(r, rs[1..], key);
      assert forall j :: 0 < j < |rest| ==> key(rest[0]) <= key(rest[j]);
    }
  }

  /** Sorting orders the records by key and neither loses nor invents any. */
  lemma {:induction false} SortSorts(rs: seq<Record>, key: Keying)
    ensures Ascending(Sort(rs, key), key) && multiset(Sort(rs, key)) == multiset(rs)
  {
    if rs != [] {
      SortSorts(rs[1..], key);
      InsertSorts(rs[0], Sort(rs[1..], key), key);
      InsertKeeps(rs[0], Sort(rs[1..], key), key);
      assert rs == [rs[0]] + rs[1..];
    }
  }

  lemma {:induction false} DistinctOnce(rs: seq<Record>, key: Keying)
    ensures DistinctKeys(rs, key) <==> forall r, q :: r in multiset(rs) && q in multiset(rs) && key(r) == key(q) ==>
            r == q && multiset(rs)[r] == 1
  {
    if rs != [] {
      var front, last := rs[..|rs| - 1], rs[|rs| - 1];
      assert rs == front + [last];
      DistinctOnce(front, key);
    }
  }

  lemma SameDistinct(rs: seq<Record>, qs: seq<Record>, key: Keying)
    requires multiset(rs) == multiset(qs)
    ensures DistinctKeys(rs, key) <==> DistinctKeys(qs, key)
  {
    DistinctOnce(rs, key);
    DistinctOnce(qs, key);
  }

  lemma SameFirst(rs: seq<Record>, qs: seq<Record>, key: Keying)
    requires multiset(rs) == multiset(qs) && Ascending(rs, key) && Ascending(qs, key) && DistinctKeys(rs, key)
             && rs != [] && qs != []
    ensures rs[0] == qs[0]
  {
    assert rs[0] in multiset(qs) && qs[0] in multiset(rs);
    assert rs[0] in qs && qs[0] in rs;
    var i :| 0 <= i < |qs| && qs[i] == rs[0];
    var j :| 0 <= j < |rs| && rs[j] == qs[0];
    assert key(qs[0]) <= key(qs[i]) && key(rs[0]) <= key(rs[j]);
  }

  lemma TailKeeps(rs: seq<Record>, key: Keying)
    requires rs != []
    ensures multiset(rs[1..]) == multiset(rs) - multiset{rs[0]}
    ensures Ascending(rs, key) ==> Ascending(rs[1..], key)
    ensures DistinctKeys(rs, key) ==> DistinctKeys(rs[1..], key)
  {
    assert rs == [rs[0]] + rs[1..];
  }

  lemma {:induction false} SortedUnique(rs: seq<Record>, qs: seq<Record>, key: Keying)
    requires multiset(rs) == multiset(qs) && Ascending(rs, key) && Ascending(qs, key) && DistinctKeys(rs, key)
    ensures rs == qs
    decreases |rs|
  {
    hide Ascending, DistinctKeys;
    assert |rs| == |multiset(rs)| && |qs| == |multiset(qs)|;
    if rs != [] {
      SameFirst(rs, qs, key);
      TailKeeps(rs, key);
      TailKeeps(qs, key);
      SortedUnique(rs[1..], qs[1..], key);
      assert rs == [rs[0]] + rs[1..] && qs == [qs[0]] + qs[1..];
    }
  }

  lemma {:induction false} SortAgrees(rs: seq<Record>, qs: seq<Record>, key: Keying)
    requires multiset(rs) == multiset(qs) && DistinctKeys(rs, key)
    ensures DistinctKeys(qs, key) && Sort(rs, key) == Sort(qs, key)
  {
    SameDistinct(rs, qs, key);
    SortSorts(rs, key);
    SortSorts(qs, key);
    SameDistinct(rs, Sort(rs, key), key);
    SortedUnique(Sort(rs, key), Sort(qs, key), key);
  }

  /** The order in which the records come does not matter to any call. */
  lemma {:induction false} InputOrderIrrelevant(
    rs: seq<Record>, qs: seq<Record>, batchSize: int, cursor: Option<Cursor>, key: Keying, sign: nat -> nat)
    requires multiset(rs) == multiset(qs)
    ensures Selected(rs, batchSize, cursor, key, sign) == Selected(qs, batchSize, cursor, key, sign)
    ensures PlanBatch(rs, batchSize, cursor, key, sign) == PlanBatch(qs, batchSize, cursor, key, sign)
  {
    hide Sort, DistinctKeys, Start, CountEligible;
    SameDistinct(rs, qs, key);
    if DistinctKeys(rs, key) { SortAgrees(rs, qs, key); }
  }

  // ----- cursors

  lemma {:induction false} AfterFinds(ordered: seq<Record>, k: nat, key: Keying)
    requires DistinctKeys(ordered, key)
    ensures After(ordered, k, key).Some? <==> exists j :: 0 <= j < |ordered| && key(ordered[j]) == k
    ensures forall j :: 0 <= j < |ordered| && key(ordered[j]) == k ==> After(ordered, k, key) == Some(j + 1)
  {
    if ordered != [] {
      var rest := ordered[1..];
      AfterFinds(rest, k, key);
      assert forall j :: 0 < j < |ordered| ==> ordered[j] == rest[j - 1];
      if i :| 0 <= i < |rest| && key(rest[i]) == k { assert key(ordered[i + 1]) == k; }
    }
  }

  lemma SortedDistinct(rs: seq<Record>, key: Keying)
    requires DistinctKeys(rs, key)
    ensures DistinctKeys(Sort(rs, key), key) && |Sort(rs, key)| == |rs|
  {
    SortSorts(rs, key);
    SameDistinct(rs, Sort(rs, key), key);
    assert |rs| == |multiset(rs)| && |Sort(rs, key)| == |multiset(Sort(rs, key))|;
  }

  ghost predicate HasKey(records: seq<Record>, k: nat, key: Keying) {
    exists r :: r in records && key(r) == k
  }

  /** A key is found exactly when one of the records has it. */
  lemma AfterSorted(records: seq<Record>, k: nat, key: Keying)
    requires DistinctKeys(records, key)
    ensures After(Sort(records, key), k, key).Some? <==> HasKey(records, k, key)
  {
    hide Sort, After;
    var ordered := Sort(records, key);
    SortedDistinct(records, key);
    SortSorts(records, key);
    AfterFinds(ordered, k, key);
    assert forall r :: r in records <==> r in multiset(records);
    if j :| 0 <= j < |ordered| && key(ordered[j]) == k { assert ordered[j] in multiset(ordered); }
    if r :| r in records && key(r) == k {
      assert r in multiset(ordered);
      var j :| 0 <= j < |ordered| && ordered[j] == r;
    }
  }

  /** A cursor is accepted exactly when it is the signed cursor of one of the records. */
  lemma {:induction false} AcceptedExactlyWhenOwn(records: seq<Record>, batchSize: int, cursor: Cursor, key: Keying,
      sign: nat -> nat)
    requires 1 <= batchSize <= 100 && DistinctKeys(records, key)
    ensures PlanBatch(records, batchSize, Some(cursor), key, sign).Ok? <==>
            cursor.Cursor? && HasKey(records, cursor.k, key) && cursor == Encode(cursor.k, sign)
    ensures PlanBatch(records, batchSize, Some(cursor), key, sign).Err? ==>
              PlanBatch(records, batchSize, Some(cursor), key, sign) == Err(InvalidCursor)
  {
    hide Sort, DistinctKeys, After, HasKey, CountEligible;
    if cursor.Cursor? { AfterSorted(records, cursor.k, key); }
  }

  // ----- feeding each cursor back

  /** How many records the first `i` calls have covered. */
  function Reach(i: nat, batchSize: nat, n: nat): nat {
    Least(i * batchSize, n)
  }

  /** The cursor after `i` calls, the first without one, each later one with the cursor returned before. */
  function CursorAfter(records: seq<Record>, batchSize: int, i: nat, key: Keying, sign: nat -> nat): Option<Cursor> {
    if i == 0 then None else
    var cursor := CursorAfter(records, batchSize, i - 1, key, sign);
    match PlanBatch(records, batchSize, cursor, key, sign)
    case Ok(plan) => plan.cursor
    case Err(_) => cursor
  }

  function CursorAt(ordered: seq<Record>, reach: nat, key: Keying, sign: nat -> nat): Option<Cursor>
    requires reach <= |ordered|
  {
    if reach == 0 then None else Some(Encode(key(ordered[reach - 1]), sign))
  }

  lemma StartAt(ordered: seq<Record>, reach: nat, key: Keying, sign: nat -> nat)
    requires reach <= |ordered| && DistinctKeys(ordered, key)
    ensures Start(ordered, CursorAt(ordered, reach, key, sign), key, sign) == Some(reach)
  {
    if reach > 0 { AfterFinds(ordered, key(ordered[reach - 1]), key); }
  }

  lemma NextReach(i: nat, batchSize: nat, n: nat)
    ensures Reach(i + 1, batchSize, n) == Least(Reach(i, batchSize, n) + batchSize, n)
    ensures Reach(i, batchSize, n) <= Reach(i + 1, batchSize, n) <= n
  {
    assert (i + 1) * batchSize == i * batchSize + batchSize;
  }

  /** A call whose cursor stands for the first `from` records looks at the next ones, and returns a
      cursor for those as well. */
  lemma OneCall(records: seq<Record>, batchSize: int, from: nat, key: Keying, sign: nat -> nat)
    requires 1 <= batchSize <= 100 && DistinctKeys(records, key) && from <= |Sort(records, key)|
    ensures var ordered := Sort(records, key);
            var to := Least(from + batchSize, |ordered|);
            var cursor := CursorAt(ordered, from, key, sign);
            && Selected(records, batchSize, cursor, key, sign) == Ok(ordered[from..to])
            && PlanBatch(records, batchSize, cursor, key, sign).Ok?
            && PlanBatch(records, batchSize, cursor, key, sign).value.cursor == CursorAt(ordered, to, key, sign)
  {
    hide Sort, DistinctKeys, Start, CountEligible;
    SortedDistinct(records, key);
    StartAt(Sort(records, key), from, key, sign);
  }

  /** The call numbered `i` looks at the next records in key order. */
  lemma {:induction false} PageAt(records: seq<Record>, batchSize: int, i: nat, key: Keying, sign: nat -> nat)
    requires 1 <= batchSize <= 100 && DistinctKeys(records, key)
    ensures var ordered := Sort(records, key);
            var from, to := Reach(i, batchSize, |ordered|), Reach(i + 1, batchSize, |ordered|);
            && from <= to <= |ordered|
            && CursorAfter(records, batchSize, i, key, sign) == CursorAt(ordered, from, key, sign)
            && Selected(records, batchSize, CursorAfter(records, batchSize, i, key, sign), key, sign) ==
               Ok(ordered[from..to])
  {
    hide Sort, Reach, DistinctKeys, Selected, PlanBatch, CursorAt;
    var ordered := Sort(records, key);
    NextReach(i, batchSize, |ordered|);
    if i == 0 {
      ReachNothing(batchSize, |ordered|);
      NoCursor(ordered, key, sign);
    } else {
      PageAt(records, batchSize, i - 1, key, sign);
      NextReach(i - 1, batchSize, |ordered|);
      OneCall(records, batchSize, Reach(i - 1, batchSize, |ordered|), key, sign);
    }
    OneCall(records, batchSize, Reach(i, batchSize, |ordered|), key, sign);
  }

  lemma NoCursor(ordered: seq<Record>, key: Keying, sign: nat -> nat)
    ensures CursorAt(ordered, 0, key, sign) == None
  {
  }

  lemma ReachNothing(batchSize: nat, n: nat)
    ensures Reach(0, batchSize, n) == 0
  {
  }

  /** The pages of the first `m` calls, one after the other. */
  function Pages(records: seq<Record>, batchSize: int, m: nat, key: Keying, sign: nat -> nat): seq<Record> {
    if m == 0 then [] else
    Pages(records, batchSize, m - 1, key, sign) +
    match Selected(records, batchSize, CursorAfter(records, batchSize, m - 1, key, sign), key, sign)
    case Ok(selected) => selected
    case Err(_) => []
  }

  lemma {:induction false} PagesReach(records: seq<Record>, batchSize: int, m: nat, key: Keying, sign: nat -> nat)
    requires 1 <= batchSize <= 100 && DistinctKeys(records, key)
    ensures Reach(m, batchSize, |Sort(records, key)|) <= |Sort(records, key)|
    ensures Pages(records, batchSize, m, key, sign) == Sort(records, key)[..Reach(m, batchSize, |Sort(records, key)|)]
  {
    hide Sort, Selected, CursorAfter, Reach, DistinctKeys;
    var ordered := Sort(records, key);
    if m == 0 {
      ReachNothing(batchSize, |ordered|);
    } else {
      PagesReach(records, batchSize, m - 1, key, sign);
      PageAt(records, batchSize, m - 1, key, sign);
      var from, to := Reach(m - 1, batchSize, |ordered|), Reach(m, batchSize, |ordered|);
      assert ordered[..from] + ordered[from..to] == ordered[..to];
    }
  }

  function PageCount(n: nat, batchSize: nat): nat
    requires batchSize > 0
  {
    (n + batchSize - 1) / batchSize
  }

  lemma PageCountCovers(n: nat, batchSize: nat, m: nat)
    requires batchSize > 0
    ensures m >= PageCount(n, batchSize) <==> Reach(m, batchSize, n) == n
  {
    var k := PageCount(n, batchSize);
    assert n + batchSize - 1 == k * batchSize + (n + batchSize - 1) % batchSize;
    if m >= k { Scaled(k, m, batchSize); } else { Scaled(m, k - 1, batchSize); }
  }

  lemma Scaled(m: int, n: int, batchSize: nat)
    requires m <= n
    ensures m * batchSize <= n * batchSize
  {
  }

  /** All records are covered after exactly n / batchSize calls, rounded up: each once, in key order.
      From then on pages are empty and the cursor stays. */
  lemma {:induction false} PagesPartition(records: seq<Record>, batchSize: int, m: nat, key: Keying, sign: nat -> nat)
    requires 1 <= batchSize <= 100 && DistinctKeys(records, key)
    ensures Pages(records, batchSize, m, key, sign) == Sort(records, key) <==> m >= PageCount(|records|, batchSize)
    ensures multiset(Sort(records, key)) == multiset(records) && Ascending(Sort(records, key), key)
    ensures m >= PageCount(|records|, batchSize) ==>
              && Selected(records, batchSize, CursorAfter(records, batchSize, m, key, sign), key, sign) == Ok([])
              && CursorAfter(records, batchSize, m + 1, key, sign) == CursorAfter(records, batchSize, m, key, sign)
  {
    hide Sort, Selected, PlanBatch, CursorAfter, Reach, DistinctKeys, Pages, PageCount, Ascending, CursorAt;
    var ordered := Sort(records, key);
    SortSorts(records, key);
    SortedDistinct(records, key);
    PagesReach(records, batchSize, m, key, sign);
    PageCountCovers(|ordered|, batchSize, m);
    PageCountCovers(|ordered|, batchSize, m + 1);
    PageAt(records, batchSize, m, key, sign);
    PageAt(records, batchSize, m + 1, key, sign);
    assert ordered[..|ordered|] == ordered;
  }

  // ----- what a call reports

  /** Which errors, and in which order they are looked for. */
  lemma RefusedExactlyWhen(records: seq<Record>, batchSize: int, cursor: Option<Cursor>, key: Keying, sign: nat -> nat)
    ensures var result := PlanBatch(records, batchSize, cursor, key, sign);
            && (result == Err(InvalidBatchSize) <==> !(1 <= batchSize <= 100))
            && (result == Err(DuplicateRecordKey) <==> 1 <= batchSize <= 100 && !DistinctKeys(records, key))
            && (result == Err(InvalidCursor) <==>
                  1 <= batchSize <= 100 && DistinctKeys(records, key) && cursor.Some?
                  && !(cursor.value.Cursor? && HasKey(records, cursor.value.k, key)
                       && cursor.value == Encode(cursor.value.k, sign)))
  {
    hide Sort, DistinctKeys, After, HasKey, CountEligible;
    if cursor.Some? && cursor.value.Cursor? && DistinctKeys(records, key) { AfterSorted(records, cursor.value.k, key); }
  }

  /** The records of a known provider with subject and profile, or the others, by their place. */
  function Matching(rs: seq<Record>, eligible: bool): set<int> {
    set i | 0 <= i < |rs| &&
      (eligible <==> rs[i].sourceProvider in {"supabase", "supertokens"} && |rs[i].sourceSubject| > 0
                     && |rs[i].profileId| > 0)
  }

  lemma MatchingMore(rs: seq<Record>, r: Record, eligible: bool)
    ensures Matching(rs + [r], eligible) == Matching(rs, eligible) + if eligible <==> Eligible(r) then {|rs|} else {}
    ensures |rs| !in Matching(rs, eligible)
  {
    var n, all := |rs|, rs + [r];
    assert all[n] == r && forall i :: 0 <= i < n ==> all[i] == rs[i];
  }

  lemma {:induction false} CountMeans(rs: seq<Record>)
    ensures CountEligible(rs) == |Matching(rs, true)| && |rs| - CountEligible(rs) == |Matching(rs, false)|
  {
    if rs == [] {
      assert Matching(rs, true) == {} && Matching(rs, false) == {};
    } else {
      hide Eligible, Matching;
      var front, last := rs[..|rs| - 1], rs[|rs| - 1];
      assert rs == front + [last];
      CountMeans(front);
      MatchingMore(front, last, true);
      MatchingMore(front, last, false);
    }
  }

  /** A plan counts the records looked at, those of a known provider with subject and profile, and the
      others. */
  lemma PlanCounts(records: seq<Record>, batchSize: int, cursor: Option<Cursor>, key: Keying, sign: nat -> nat)
    requires PlanBatch(records, batchSize, cursor, key, sign).Ok?
    ensures Selected(records, batchSize, cursor, key, sign).Ok?
    ensures var plan, page := PlanBatch(records, batchSize, cursor, key, sign).value,
                              Selected(records, batchSize, cursor, key, sign).value;
            plan.scanned == |page| && plan.eligible == |Matching(page, true)| && plan.skipped == |Matching(page, false)|
  {
    hide Selected, CountEligible, Matching;
    CountMeans(Selected(records, batchSize, cursor, key, sign).value);
  }

  lemma {:induction false} CountConcat(rs: seq<Record>, qs: seq<Record>)
    ensures CountEligible(rs + qs) == CountEligible(rs) + CountEligible(qs)
  {
    if qs == [] {
      assert rs + qs == rs;
    } else {
      assert (rs + qs)[..|rs + qs| - 1] == rs + qs[..|qs| - 1];
      CountConcat(rs, qs[..|qs| - 1]);
    }
  }

  lemma SameWithout(m: multiset<Record>, n: multiset<Record>, r: Record)
    requires m + multiset{r} == n + multiset{r}
    ensures m == n
  {
    assert m == m + multiset{r} - multiset{r} && n == n + multiset{r} - multiset{r};
  }

  lemma {:induction false} CountAnyOrder(rs: seq<Record>, qs: seq<Record>)
    requires multiset(rs) == multiset(qs)
    ensures CountEligible(rs) == CountEligible(qs)
    decreases |rs|
  {
    hide CountEligible;
    assert |rs| == |multiset(rs)| && |qs| == |multiset(qs)|;
    if rs != [] {
      var front, last := rs[..|rs| - 1], rs[|rs| - 1];
      assert rs == front + [last];
      assert last in multiset(qs);
      var j :| 0 <= j < |qs| && qs[j] == last;
      var rest := qs[..j] + qs[j + 1..];
      assert qs == qs[..j] + [last] + qs[j + 1..];
      assert multiset(qs) == multiset(rest) + multiset{last} && multiset(rs) == multiset(front) + multiset{last};
      SameWithout(multiset(front), multiset(rest), last);
      CountAnyOrder(front, rest);
      CountConcat(qs[..j] + [last], qs[j + 1..]);
      CountConcat(qs[..j], [last]);
      CountConcat(qs[..j], qs[j + 1..]);
      CountConcat(front, [last]);
    }
  }

  /** What the first `m` calls report as eligible, added up. */
  function EligibleSoFar(records: seq<Record>, batchSize: int, m: nat, key: Keying, sign: nat -> nat): nat {
    if m == 0 then 0 else
    EligibleSoFar(records, batchSize, m - 1, key, sign) +
    match PlanBatch(records, batchSize, CursorAfter(records, batchSize, m - 1, key, sign), key, sign)
    case Ok(plan) => plan.eligible
    case Err(_) => 0
  }

  lemma {:induction false} EligibleOfPages(records: seq<Record>, batchSize: int, m: nat, key: Keying, sign: nat -> nat)
    ensures EligibleSoFar(records, batchSize, m, key, sign) == CountEligible(Pages(records, batchSize, m, key, sign))
  {
    hide CursorAfter, Selected, CountEligible;
    if m == 0 {
      CountNothing();
    } else {
      EligibleOfPages(records, batchSize, m - 1, key, sign);
      match Selected(records, batchSize, CursorAfter(records, batchSize, m - 1, key, sign), key, sign)
      case Ok(selected) => CountConcat(Pages(records, batchSize, m - 1, key, sign), selected);
      case Err(_) =>
        var pages := Pages(records, batchSize, m - 1, key, sign);
        assert pages + [] == pages;
    }
  }

  lemma CountNothing()
    ensures CountEligible([]) == 0
  {
  }

  /** Over all pages, the eligible records are counted once each, in whatever order they came. */
  lemma {:induction false} EligibleOverall(records: seq<Record>, batchSize: int, m: nat, key: Keying, sign: nat -> nat)
    requires 1 <= batchSize <= 100 && DistinctKeys(records, key) && m >= PageCount(|records|, batchSize)
    ensures EligibleSoFar(records, batchSize, m, key, sign) == |Matching(records, true)|
  {
    hide Sort, DistinctKeys, PageCount, Pages, EligibleSoFar, CountEligible, Matching, Ascending;
    PagesPartition(records, batchSize, m, key, sign);
    EligibleOfPages(records, batchSize, m, key, sign);
    CountAnyOrder(Sort(records, key), records);
    CountMeans(records);
  }
}
