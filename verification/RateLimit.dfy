/** Fixed-window counting of sign-in attempts by address and by account. */
module RateLimit {
  import opened Wrappers

  datatype Kind = IP | ACCOUNT

  /** What is counted. The stored hash of kind and identity is taken as injective. */
  datatype Key = Key(action: string, kind: Kind, identity: string)

  datatype Slot = Slot(key: Key, start: int)
  datatype Bucket = Bucket(ends: int, count: nat)
  type Buckets = map<Slot, Bucket>

  datatype Rule = Rule(max: int, windowMs: int)
  type Limit = r: Rule | r.windowMs > 0 witness Rule(1, 1)

  /** The limit of each action. */
  type Limits = string -> Limit

  function WindowStart(now: int, windowMs: int): int
    requires windowMs > 0
  {
    now / windowMs * windowMs
  }

  function SlotAt(key: Key, now: int, limits: Limits): Slot {
    Slot(key, WindowStart(now, limits(key.action).windowMs))
  }

  /** A consumption, or a clean-up removing those of the named buckets whose window is over. */
  datatype Op =
    | Take(key: Key, now: int)
    | Clean(gone: set<Slot>, now: int)

  predicate Admits(b: Buckets, key: Key, now: int, limits: Limits) {
    SlotAt(key, now, limits) in b ==> b[SlotAt(key, now, limits)].count < limits(key.action).max
  }

  /** The upsert: a first attempt is counted whatever the limit, a later one only below it. */
  function Taken(b: Buckets, key: Key, now: int, limits: Limits): Buckets {
    var slot := SlotAt(key, now, limits);
    if slot !in b then b[slot := Bucket(slot.start + limits(key.action).windowMs, 1)]
    else if b[slot].count < limits(key.action).max then b[slot := b[slot].(count := b[slot].count + 1)]
    else b
  }

  function Cleaned(b: Buckets, gone: set<Slot>, now: int): Buckets {
    map slot | slot in b && !(slot in gone && b[slot].ends < now) :: b[slot]
  }

  function Step(b: Buckets, op: Op, limits: Limits): Buckets {
    match op
    case Take(key, now) => Taken(b, key, now, limits)
    case Clean(gone, now) => Cleaned(b, gone, now)
  }

  function Exec(b: Buckets, ops: seq<Op>, limits: Limits): Buckets {
    if ops == [] then b else Step(Exec(b, ops[..|ops| - 1], limits), ops[|ops| - 1], limits)
  }

  // ----- the store

  datatype Decision = Decision(allowed: bool, blockedBy: Option<Kind>, retryAfterSeconds: int)

  function Identities(action: string, ip: string, account: Option<string>): seq<Key> {
    [Key(action, IP, ip)] + if account.None? || account.value == "" then [] else [Key(action, ACCOUNT, account.value)]
  }

  /** The consumptions of one attempt. */
  function Takes(keys: seq<Key>, now: int): (ops: seq<Op>)
    ensures |ops| == |keys| && forall i :: 0 <= i < |ops| ==> ops[i] == Take(keys[i], now)
  {
    if keys == [] then [] else Takes(keys[..|keys| - 1], now) + [Take(keys[|keys| - 1], now)]
  }

  /** The first of the keys that is refused. */
  function FirstRefused(b: Buckets, keys: seq<Key>, now: int, limits: Limits): Option<Kind>
    decreases |keys|
  {
    if keys == [] then None
    else if !Admits(b, keys[0], now, limits) then Some(keys[0].kind)
    else FirstRefused(Taken(b, keys[0], now, limits), keys[1..], now, limits)
  }

  function RetryAfter(now: int, windowMs: int): int
    requires windowMs > 0
  {
    var ms := WindowStart(now, windowMs) + windowMs - now;
    var seconds := (ms + 999) / 1000;
    if seconds < 1 then 1 else seconds
  }

  class AuthRateLimitStore {
    var buckets: Buckets

    constructor ()
      ensures buckets == map[]
    {
      buckets := map[];
    }

    /** Every identity is counted, also after one was refused. */
    method Consume(action: string, ip: string, account: Option<string>, limits: Limits, now: int) returns (d: Decision)
      modifies this
      ensures buckets == Exec(old(buckets), Takes(Identities(action, ip, account), now), limits)
      ensures d.blockedBy == FirstRefused(old(buckets), Identities(action, ip, account), now, limits)
      ensures d.allowed == d.blockedBy.None?
      ensures d.retryAfterSeconds == RetryAfter(now, limits(action).windowMs)
      ensures var ipKey, named := Key(action, IP, ip), account.Some? && account.value != "";
              if !named then
                && d.blockedBy == (if Admits(old(buckets), ipKey, now, limits) then None else Some(IP))
                && buckets == Taken(old(buckets), ipKey, now, limits)
              else
                var accountKey := Key(action, ACCOUNT, account.value);
                && d.blockedBy == (if !Admits(old(buckets), ipKey, now, limits) then Some(IP)
                                   else if !Admits(old(buckets), accountKey, now, limits) then Some(ACCOUNT) else None)
                && buckets == Taken(Taken(old(buckets), ipKey, now, limits), accountKey, now, limits)
    {
      hide Exec, Takes, Identities, RetryAfter, WindowStart;
      var windowMs := limits(action).windowMs;
      var identities := Identities(action, ip, account);
      var blocked: Option<Kind> := None;
      IdentitiesOf(action, ip, account);
      NoTakes(buckets, identities, now, limits);
      for i := 0 to |identities|
        invariant buckets == Exec(old(buckets), Takes(identities[..i], now), limits)
        invariant FirstRefused(old(buckets), identities, now, limits) ==
                  if blocked.Some? then blocked else FirstRefused(buckets, identities[i..], now, limits)
      {
        var key := identities[i];
        var slot := SlotAt(key, now, limits);
        var before := buckets;
        if slot !in buckets {
          buckets := buckets[slot := Bucket(slot.start + windowMs, 1)];
        } else if buckets[slot].count < limits(action).max {
          buckets := buckets[slot := buckets[slot].(count := buckets[slot].count + 1)];
        } else if blocked.None? {
          blocked := Some(key.kind);
        }
        TakesMore(identities, i, now);
        ExecMore(old(buckets), Takes(identities[..i], now), Take(key, now), limits);
        assert identities[i..][0] == key && identities[i..][1..] == identities[i + 1..];
      }
      assert identities[..|identities|] == identities;
      IdentitiesMean(old(buckets), action, ip, account, now, limits);
      d := Decision(blocked.None?, blocked, RetryAfter(now, windowMs));
    }

    /** `chosen` is what the statement's query selects; where buckets end alike, the database may pick
        any of them. As many as allowed go, the longest over first, and nothing that still counts. */
    method CleanupExpired(chosen: set<Slot>, locked: set<Slot>, limit: nat, now: int) returns (deleted: nat)
      requires Selected(buckets, locked, limit, now, chosen)
      modifies this
      ensures forall limits :: buckets == Exec(old(buckets), [Clean(chosen, now)], limits)
      ensures buckets == old(buckets) - chosen
      ensures deleted == |chosen| == Min(limit, |Expired(old(buckets), locked, now)|)
      ensures forall slot :: slot in old(buckets) && (old(buckets)[slot].ends >= now || slot in locked) ==>
              slot in buckets
      ensures forall gone, kept :: gone in chosen && kept in Expired(buckets, locked, now) ==>
                old(buckets)[gone].ends <= buckets[kept].ends
    {
      hide Exec, Expired, Selected, Min;
      CleanedBy(buckets, locked, limit, now, chosen);
      buckets := buckets - chosen;
      deleted := |chosen|;
    }
  }

  function Min(m: nat, n: nat): nat {
    if m < n then m else n
  }

  /** The buckets whose window is over and that no other transaction has locked. */
  function Expired(b: Buckets, locked: set<Slot>, now: int): set<Slot> {
    set slot | slot in b && b[slot].ends < now && slot !in locked
  }

  /** Among them the query takes those that ended first, up to the limit. */
  ghost predicate Selected(b: Buckets, locked: set<Slot>, limit: nat, now: int, chosen: set<Slot>) {
    var expired := Expired(b, locked, now);
    && chosen <= expired && |chosen| == Min(limit, |expired|)
    && forall gone, kept :: gone in chosen && kept in expired - chosen ==> b[gone].ends <= b[kept].ends
  }

  lemma CleanedBy(b: Buckets, locked: set<Slot>, limit: nat, now: int, chosen: set<Slot>)
    requires Selected(b, locked, limit, now, chosen)
    ensures var after := b - chosen;
            && (forall limits :: after == Exec(b, [Clean(chosen, now)], limits))
            && |chosen| == Min(limit, |Expired(b, locked, now)|)
            && (forall slot :: slot in b && (b[slot].ends >= now || slot in locked) ==> slot in after)
            && forall gone, kept :: gone in chosen && kept in Expired(after, locked, now) ==>
               b[gone].ends <= after[kept].ends
  {
    hide Exec, Min;
    forall limits: Limits ensures b - chosen == Exec(b, [Clean(chosen, now)], limits) {
      hide Selected;
      ExecMore(b, [], Clean(chosen, now), limits);
      NothingDone(b, limits);
      assert [] + [Clean(chosen, now)] == [Clean(chosen, now)];
      AllGone(b, locked, limit, now, chosen);
    }
    assert forall kept :: kept in Expired(b - chosen, locked, now) ==> kept in Expired(b, locked, now) - chosen;
  }

  lemma NothingDone(b: Buckets, limits: Limits)
    ensures Exec(b, [], limits) == b
  {
  }

  lemma AllGone(b: Buckets, locked: set<Slot>, limit: nat, now: int, chosen: set<Slot>)
    requires Selected(b, locked, limit, now, chosen)
    ensures Cleaned(b, chosen, now) == b - chosen
  {
    hide Min;
    assert forall slot :: slot in chosen ==> slot in Expired(b, locked, now);
  }

  lemma {:induction false} EndsFirst(b: Buckets, slots: set<Slot>) returns (first: Slot)
    requires slots != {} && slots <= b.Keys
    ensures first in slots && forall slot :: slot in slots ==> b[first].ends <= b[slot].ends
  {
    first :| first in slots;
    var rest := slots - {first};
    if rest != {} {
      var next := EndsFirst(b, rest);
      if b[next].ends < b[first].ends { first := next; }
    }
  }

  /** There is always such a choice. */
  lemma {:induction false} SomeSelected(b: Buckets, locked: set<Slot>, limit: nat, now: int) returns (chosen: set<Slot>)
    ensures Selected(b, locked, limit, now, chosen)
  {
    chosen := {};
    if limit > 0 {
      chosen := SomeSelected(b, locked, limit - 1, now);
      var rest := Expired(b, locked, now) - chosen;
      if rest == {} {
        assert chosen == Expired(b, locked, now);
      } else {
        var first := EndsFirst(b, rest);
        SmallerSet(chosen, Expired(b, locked, now));
        chosen := chosen + {first};
        SmallerSet(chosen, Expired(b, locked, now));
      }
    }
  }

  lemma SmallerSet(small: set<Slot>, large: set<Slot>)
    requires small <= large
    ensures |small| <= |large| && (small != large ==> |small| < |large|)
  {
    assert large == small + (large - small);
    assert large - small == {} ==> small == large;
  }

  /** The address is counted, and the account if one is named; neither decides about the other. */
  lemma IdentitiesMean(b: Buckets, action: string, ip: string, account: Option<string>, now: int, limits: Limits)
    ensures var keys, ipKey := Identities(action, ip, account), Key(action, IP, ip);
            var after, refused := Exec(b, Takes(keys, now), limits), FirstRefused(b, keys, now, limits);
            if account.None? || account.value == "" then
              && refused == (if Admits(b, ipKey, now, limits) then None else Some(IP))
              && after == Taken(b, ipKey, now, limits)
            else
              var accountKey := Key(action, ACCOUNT, account.value);
              && refused == (if !Admits(b, ipKey, now, limits) then Some(IP)
                             else if !Admits(b, accountKey, now, limits) then Some(ACCOUNT) else None)
              && after == Taken(Taken(b, ipKey, now, limits), accountKey, now, limits)
  {
    hide WindowStart, Taken;
    var keys, ipKey := Identities(action, ip, account), Key(action, IP, ip);
    NoTakes(b, keys, now, limits);
    TakesMore(keys, 0, now);
    ExecMore(b, Takes(keys[..0], now), Take(ipKey, now), limits);
    if |keys| == 1 {
      assert keys[..1] == keys && keys[1..] == [];
    } else {
      var accountKey := keys[1];
      TakesMore(keys, 1, now);
      ExecMore(b, Takes(keys[..1], now), Take(accountKey, now), limits);
      assert keys[..2] == keys && keys[1..] == [accountKey] && keys[1..][1..] == [];
      OthersUntouched(b, ipKey, accountKey, now, limits);
      var after := Taken(b, ipKey, now, limits);
      assert FirstRefused(after, keys[1..], now, limits) ==
             if Admits(after, accountKey, now, limits) then None else Some(ACCOUNT);
    }
  }

  lemma OthersUntouched(b: Buckets, key: Key, other: Key, now: int, limits: Limits)
    requires key != other
    ensures Admits(Taken(b, key, now, limits), other, now, limits) <==> Admits(b, other, now, limits)
  {
    hide WindowStart;
  }

  lemma IdentitiesOf(action: string, ip: string, account: Option<string>)
    ensures forall i :: 0 <= i < |Identities(action, ip, account)| ==>
            Identities(action, ip, account)[i].action == action
  {
  }

  lemma NoTakes(b: Buckets, keys: seq<Key>, now: int, limits: Limits)
    ensures Exec(b, Takes(keys[..0], now), limits) == b && keys[0..] == keys
  {
  }

  lemma TakesMore(keys: seq<Key>, i: nat, now: int)
    requires i < |keys|
    ensures Takes(keys[..i + 1], now) == Takes(keys[..i], now) + [Take(keys[i], now)]
  {
    assert keys[..i + 1][..i] == keys[..i];
  }

  lemma ExecMore(b: Buckets, ops: seq<Op>, op: Op, limits: Limits)
    ensures Exec(b, ops + [op], limits) == Step(Exec(b, ops, limits), op, limits)
  {
    assert (ops + [op])[..|ops|] == ops;
  }

  // ----- counting admissions

  ghost predicate Ordered(ops: seq<Op>) {
    forall i, j :: 0 <= i < j < |ops| ==> ops[i].now <= ops[j].now
  }

  predicate CountsAt(b: Buckets, op: Op, key: Key, lo: int, hi: int, limits: Limits) {
    op.Take? && op.key == key && lo <= op.now < hi && Admits(b, key, op.now, limits)
  }

  /** How often the key was admitted from `lo` on and before `hi`, starting with an empty store. */
  function Count(ops: seq<Op>, key: Key, lo: int, hi: int, limits: Limits): nat {
    if ops == [] then 0 else
    var front := ops[..|ops| - 1];
    Count(front, key, lo, hi, limits)
    + if CountsAt(Exec(map[], front, limits), ops[|ops| - 1], key, lo, hi, limits) then 1 else 0
  }

  function Cap(key: Key, limits: Limits): nat {
    if limits(key.action).max < 1 then 1 else limits(key.action).max
  }

  predicate Aligned(start: int, windowMs: int)
    requires windowMs > 0
  {
    WindowStart(start, windowMs) == start
  }

  lemma WindowHolds(now: int, windowMs: int)
    requires windowMs > 0
    ensures WindowStart(now, windowMs) <= now < WindowStart(now, windowMs) + windowMs
    ensures Aligned(WindowStart(now, windowMs), windowMs)
  {
    assert now == now / windowMs * windowMs + now % windowMs;
    MultipleDivides(now / windowMs, windowMs);
  }

  lemma MultipleDivides(n: int, windowMs: int)
    requires windowMs > 0
    ensures n * windowMs / windowMs == n
  {
    var q := n * windowMs / windowMs;
    assert n * windowMs == q * windowMs + n * windowMs % windowMs;
    Difference(n, q, windowMs);
    SmallMultiple(n - q, windowMs);
  }

  lemma Difference(m: int, n: int, windowMs: int)
    ensures (m - n) * windowMs == m * windowMs - n * windowMs
  {
  }

  lemma WindowUnique(now: int, start: int, windowMs: int)
    requires windowMs > 0 && Aligned(start, windowMs)
    ensures start <= now < start + windowMs <==> WindowStart(now, windowMs) == start
  {
    WindowHolds(now, windowMs);
    var n, m := now / windowMs, start / windowMs;
    Difference(n, m, windowMs);
    if start <= now < start + windowMs { SmallMultiple(n - m, windowMs); }
  }

  lemma SmallMultiple(k: int, windowMs: int)
    requires windowMs > 0 && -windowMs < k * windowMs < windowMs
    ensures k == 0
  {
  }

  /** What the store holds of a window: the number admitted in it, or nothing if none was or the
      window is over. */
  ghost predicate Tallied(ops: seq<Op>, key: Key, start: int, limits: Limits) {
    var ends := start + limits(key.action).windowMs;
    var b, count := Exec(map[], ops, limits), Count(ops, key, start, ends, limits);
    && count <= Cap(key, limits)
    && (Slot(key, start) in b ==> b[Slot(key, start)] == Bucket(ends, count) && count >= 1)
    && (Slot(key, start) !in b ==> count == 0 || (ops != [] && ends < ops[|ops| - 1].now))
  }

  lemma {:induction false} AlwaysTallied(ops: seq<Op>, key: Key, start: int, limits: Limits)
    requires Ordered(ops) && Aligned(start, limits(key.action).windowMs)
    ensures Tallied(ops, key, start, limits)
  {
    hide WindowStart;
    if ops != [] {
      var front, op := ops[..|ops| - 1], ops[|ops| - 1];
      AlwaysTallied(front, key, start, limits);
      if op.Take? { WindowUnique(op.now, start, limits(key.action).windowMs); }
    }
  }

  /** In every aligned window each identity is admitted at most `max` times (once if `max` is less). */
  lemma {:induction false} AtMostMaxPerWindow(ops: seq<Op>, key: Key, start: int, limits: Limits)
    requires Ordered(ops) && Aligned(start, limits(key.action).windowMs)
    ensures Count(ops, key, start, start + limits(key.action).windowMs, limits) <= Cap(key, limits)
  {
    AlwaysTallied(ops, key, start, limits);
  }

  /** And nobody is refused before that: an attempt is admitted exactly while fewer than `max` were
      admitted in its window. */
  lemma {:induction false} AdmittedExactlyBelowMax(ops: seq<Op>, key: Key, now: int, limits: Limits)
    requires Ordered(ops) && (ops != [] ==> ops[|ops| - 1].now <= now)
    ensures var start, w := WindowStart(now, limits(key.action).windowMs), limits(key.action).windowMs;
            Admits(Exec(map[], ops, limits), key, now, limits) <==>
              Count(ops, key, start, start + w, limits) < Cap(key, limits)
  {
    hide WindowStart;
    var w := limits(key.action).windowMs;
    WindowHolds(now, w);
    AlwaysTallied(ops, key, WindowStart(now, w), limits);
  }

  lemma {:induction false} CountSplits(ops: seq<Op>, key: Key, lo: int, mid: int, hi: int, limits: Limits)
    requires lo <= mid <= hi
    ensures Count(ops, key, lo, hi, limits) == Count(ops, key, lo, mid, limits) + Count(ops, key, mid, hi, limits)
  {
    if ops != [] { CountSplits(ops[..|ops| - 1], key, lo, mid, hi, limits); }
  }

  /** In any interval as long as a window, wherever it starts, at most twice as many. */
  lemma {:induction false} AtMostTwiceAnywhere(ops: seq<Op>, key: Key, from: int, limits: Limits)
    requires Ordered(ops)
    ensures Count(ops, key, from, from + limits(key.action).windowMs, limits) <= 2 * Cap(key, limits)
  {
    hide WindowStart;
    var w := limits(key.action).windowMs;
    var first := WindowStart(from, w);
    WindowHolds(from, w);
    NextAligned(first, w);
    AtMostMaxPerWindow(ops, key, first, limits);
    AtMostMaxPerWindow(ops, key, first + w, limits);
    CountSplits(ops, key, first, from, first + w + w, limits);
    CountSplits(ops, key, from, from + w, first + w + w, limits);
    CountSplits(ops, key, first, first + w, first + w + w, limits);
  }

  lemma NextAligned(start: int, windowMs: int)
    requires windowMs > 0 && Aligned(start, windowMs)
    ensures Aligned(start + windowMs, windowMs)
  {
    var n := start / windowMs;
    assert start + windowMs == (n + 1) * windowMs;
    MultipleDivides(n + 1, windowMs);
  }

  // ----- cleaning up changes no decision

  function WithoutCleaning(ops: seq<Op>): seq<Op> {
    if ops == [] then [] else
    WithoutCleaning(ops[..|ops| - 1]) + if ops[|ops| - 1].Clean? then [] else [ops[|ops| - 1]]
  }

  function Ends(slot: Slot, limits: Limits): int {
    slot.start + limits(slot.key.action).windowMs
  }

  /** Both stores hold the same of every window not yet over. */
  ghost predicate Agree(b: Buckets, c: Buckets, now: int, limits: Limits) {
    forall slot :: Ends(slot, limits) >= now ==>
      && (slot in b <==> slot in c)
      && (slot in b ==> b[slot] == c[slot] && b[slot].ends == Ends(slot, limits))
  }

  lemma TakeAgrees(b: Buckets, c: Buckets, key: Key, before: int, now: int, limits: Limits)
    requires Agree(b, c, before, limits) && before <= now
    ensures Admits(b, key, now, limits) <==> Admits(c, key, now, limits)
    ensures Agree(Taken(b, key, now, limits), Taken(c, key, now, limits), now, limits)
  {
    hide WindowStart;
    WindowHolds(now, limits(key.action).windowMs);
    assert Ends(SlotAt(key, now, limits), limits) >= now;
  }

  lemma CleanAgrees(b: Buckets, c: Buckets, gone: set<Slot>, before: int, now: int, limits: Limits)
    requires Agree(b, c, before, limits) && before <= now
    ensures Agree(Cleaned(b, gone, now), c, now, limits)
  {
  }

  lemma {:induction false} CleaningAgrees(ops: seq<Op>, limits: Limits, now: int)
    requires Ordered(ops) && (ops != [] ==> ops[|ops| - 1].now <= now)
    ensures Agree(Exec(map[], ops, limits), Exec(map[], WithoutCleaning(ops), limits), now, limits)
  {
    hide Agree, Taken, Cleaned;
    if ops == [] {
      NothingAgrees(now, limits);
    } else {
      var front, op := ops[..|ops| - 1], ops[|ops| - 1];
      var before := if front == [] then op.now else front[|front| - 1].now;
      var b, c := Exec(map[], front, limits), Exec(map[], WithoutCleaning(front), limits);
      CleaningAgrees(front, limits, before);
      match op
      case Take(key, at) =>
        ExecMore(map[], WithoutCleaning(front), op, limits);
        TakeAgrees(b, c, key, before, at, limits);
        LaterAgrees(Taken(b, key, at, limits), Taken(c, key, at, limits), at, now, limits);
      case Clean(gone, at) =>
        assert WithoutCleaning(ops) == WithoutCleaning(front);
        CleanAgrees(b, c, gone, before, at, limits);
        LaterAgrees(Cleaned(b, gone, at), c, at, now, limits);
    }
  }

  lemma NothingAgrees(now: int, limits: Limits)
    ensures Agree(map[], map[], now, limits)
  {
  }

  lemma LaterAgrees(b: Buckets, c: Buckets, before: int, now: int, limits: Limits)
    requires Agree(b, c, before, limits) && before <= now
    ensures Agree(b, c, now, limits)
  {
  }

  /** A store that never cleans up decides every attempt alike. */
  lemma {:induction false} CleaningChangesNoDecision(ops: seq<Op>, key: Key, now: int, limits: Limits)
    requires Ordered(ops + [Take(key, now)])
    ensures Admits(Exec(map[], ops, limits), key, now, limits) <==>
            Admits(Exec(map[], WithoutCleaning(ops), limits), key, now, limits)
  {
    hide Exec, WithoutCleaning, Agree, Admits;
    var all := ops + [Take(key, now)];
    assert forall i :: 0 <= i < |ops| ==> all[i] == ops[i];
    assert all[|ops|] == Take(key, now);
    CleaningAgrees(ops, limits, now);
    TakeAgrees(Exec(map[], ops, limits), Exec(map[], WithoutCleaning(ops), limits), key, now, now, limits);
  }

  /** Waiting the announced seconds reaches a later window, and one second less does not, unless one is announced. */
  lemma {:induction false} WaitingReachesNextWindow(now: int, windowMs: int)
    requires windowMs > 0
    ensures var seconds := RetryAfter(now, windowMs);
            && seconds >= 1
            && WindowStart(now + 1000 * seconds, windowMs) >= WindowStart(now, windowMs) + windowMs
            && (seconds > 1 ==> WindowStart(now + 1000 * (seconds - 1), windowMs) == WindowStart(now, windowMs))
  {
    hide WindowStart;
    var seconds, start := RetryAfter(now, windowMs), WindowStart(now, windowMs);
    WindowHolds(now, windowMs);
    WindowHolds(now + 1000 * seconds, windowMs);
    WindowUnique(now + 1000 * (seconds - 1), start, windowMs);
    LaterWindow(now + 1000 * seconds, start + windowMs, windowMs);
  }

  lemma LaterWindow(now: int, start: int, windowMs: int)
    requires windowMs > 0 && now >= start && Aligned(start - windowMs, windowMs)
    ensures WindowStart(now, windowMs) >= start
  {
    NextAligned(start - windowMs, windowMs);
    WindowHolds(now, windowMs);
    var n, m := now / windowMs, start / windowMs;
    NotBelow(m, n, windowMs);
  }

  lemma NotBelow(m: int, n: int, windowMs: int)
    requires windowMs > 0 && m * windowMs < n * windowMs + windowMs
    ensures m * windowMs <= n * windowMs
  {
    if m > n {
      Difference(m, n, windowMs);
      SmallMultiple(m - n, windowMs);
    }
  }
}
