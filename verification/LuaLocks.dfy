/** The Redis seat locks: two Lua scripts, which run alone, over a store of keys. Expiry is left
    out: a key that has expired is a key that is not there. */
module LuaLocks {
  type Key = string

  type Store = map<Key, string>

  predicate Distinct(keys: seq<Key>) {
    forall i, j | 0 <= i < j < |keys| :: keys[i] != keys[j]
  }

  predicate AllFree(store: Store, keys: seq<Key>) {
    forall i | 0 <= i < |keys| :: keys[i] !in store
  }

  /** The store with every one of the keys set to the value. */
  function WithAll(store: Store, keys: seq<Key>, value: string): Store {
    map k | k in store.Keys + Members(keys) :: if k in keys then value else store[k]
  }

  function Members(keys: seq<Key>): set<Key> {
    set k | k in keys
  }

  /** The keys that hold this value. */
  function Owned(store: Store, keys: seq<Key>, value: string): set<Key> {
    set k | k in keys && k in store && store[k] == value
  }

  class Redis {
    var store: Store

    constructor ()
      ensures store == map[]
    {
      store := map[];
    }

    /** SET key value NX */
    method SetNx(key: Key, value: string) returns (ok: bool)
      modifies this
      ensures ok <==> key !in old(store)
      ensures store == if ok then old(store)[key := value] else old(store)
    {
      ok := key !in store;
      if ok { store := store[key := value]; }
    }

    /** ACQUIRE_SCRIPT: succeeds exactly when the keys are distinct and all free, and then sets
        exactly them; when it fails, the rollback leaves the store as it was. */
    method Acquire(keys: seq<Key>, lockValue: string) returns (result: int)
      modifies this
      ensures result == 1 || result == 0
      ensures result == 1 <==>
        (forall i, j | 0 <= i < j < |keys| :: keys[i] != keys[j]) && forall k | k in keys :: k !in old(store)
      ensures result == 1 ==> forall k :: k in store <==> k in old(store) || k in keys
      ensures result == 1 ==> forall k | k in store :: store[k] == if k in keys then lockValue else old(store)[k]
      ensures result == 1 <==> Distinct(keys) && AllFree(old(store), keys)
      ensures store == if result == 1 then WithAll(old(store), keys, lockValue) else old(store)
    {
      var acquired: seq<Key> := [];
      var i := 0;
      while i < |keys|
        invariant 0 <= i <= |keys| && acquired == keys[..i]
        invariant Distinct(acquired) && AllFree(old(store), acquired)
        invariant store == WithAll(old(store), acquired, lockValue)
      {
        var ok := SetNx(keys[i], lockValue);
        if !ok {
          Blocks(old(store), keys, i, lockValue);
          Rollback(acquired);
          WithoutAll(old(store), acquired, lockValue);
          return 0;
        }
        OneMore(old(store), keys, i, lockValue);
        acquired := acquired + [keys[i]];
        i := i + 1;
      }
      assert keys[..i] == keys;
      result := 1;
    }

    method Rollback(acquired: seq<Key>)
      modifies this
      ensures store == old(store) - Members(acquired)
    {
      var j := 0;
      while j < |acquired|
        invariant 0 <= j <= |acquired|
        invariant store == old(store) - Members(acquired[..j])
      {
        store := store - {acquired[j]};
        assert Members(acquired[..j + 1]) == Members(acquired[..j]) + {acquired[j]};
        j := j + 1;
      }
      assert acquired[..j] == acquired;
    }

    /** RELEASE_SCRIPT: removes exactly the keys that hold our value, and counts them. */
    method Release(keys: seq<Key>, lockValue: string) returns (released: nat)
      modifies this
      ensures forall k :: k in store <==> k in old(store) && !(k in keys && old(store)[k] == lockValue)
      ensures forall k | k in store :: store[k] == old(store)[k]
      ensures store == old(store) - Owned(old(store), keys, lockValue)
      ensures released == |Owned(old(store), keys, lockValue)|
    {
      released := 0;
      var i := 0;
      ghost var gone := {};
      while i < |keys|
        invariant 0 <= i <= |keys| && gone == Owned(old(store), keys[..i], lockValue)
        invariant store == old(store) - gone && released == |gone|
      {
        assert keys[..i + 1] == keys[..i] + [keys[i]];
        if keys[i] in store && store[keys[i]] == lockValue {
          store := store - {keys[i]};
          released, gone := released + 1, gone + {keys[i]};
        }
        i := i + 1;
      }
      assert keys[..i] == keys;
    }

    /** forceReleaseSeatLocks: removes the keys whoever holds them. */
    method ForceRelease(keys: seq<Key>)
      modifies this
      ensures store == old(store) - Members(keys)
    {
      if |keys| > 0 { store := store - Members(keys); }
    }
  }

  /** A key that cannot be set was held before the script, or is there twice. */
  lemma {:induction false} Blocks(store: Store, keys: seq<Key>, i: nat, value: string)
    requires i < |keys| && keys[i] in WithAll(store, keys[..i], value)
    ensures !(Distinct(keys) && AllFree(store, keys))
  {
    if keys[i] !in store {
      var j :| 0 <= j < i && keys[..i][j] == keys[i];
      assert keys[j] == keys[i];
    }
  }

  lemma {:induction false} OneMore(store: Store, keys: seq<Key>, i: nat, value: string)
    requires i < |keys| && Distinct(keys[..i]) && keys[i] !in WithAll(store, keys[..i], value)
    ensures keys[..i + 1] == keys[..i] + [keys[i]] && Distinct(keys[..i + 1])
    ensures WithAll(store, keys[..i + 1], value) == WithAll(store, keys[..i], value)[keys[i] := value]
  {
    assert keys[..i + 1] == keys[..i] + [keys[i]];
    forall j | 0 <= j < i ensures keys[j] != keys[i] { assert keys[..i][j] in Members(keys[..i]); }
  }

  lemma {:induction false} WithoutAll(store: Store, keys: seq<Key>, value: string)
    requires AllFree(store, keys)
    ensures WithAll(store, keys, value) - Members(keys) == store
  {
    forall k | k in store ensures k !in keys {}
    assert (WithAll(store, keys, value) - Members(keys)).Keys == store.Keys;
  }

  /** Acquire and then release is the identity: what was acquired is all that our value is on. */
  lemma {:induction false} ReleaseUndoesAcquire(store: Store, keys: seq<Key>, value: string)
    requires Distinct(keys) && AllFree(store, keys)
    ensures var held := WithAll(store, keys, value);
            Owned(held, keys, value) == Members(keys) && held - Owned(held, keys, value) == store
  {
    WithoutAll(store, keys, value);
    assert Owned(WithAll(store, keys, value), keys, value) == Members(keys);
  }

  /** Mutual exclusion: while a key is held, every acquisition of a list with that key fails. */
  lemma {:induction false} HeldKeyExcludes(store: Store, keys: seq<Key>, other: seq<Key>, value: string, k: Key)
    requires k in keys && k in other
    ensures !AllFree(WithAll(store, keys, value), other)
  {
    var j :| 0 <= j < |other| && other[j] == k;
    assert other[j] in WithAll(store, keys, value);
  }

  // ----- the keys -----

  /** The order of JavaScript's sort on strings. */
  predicate Le(a: string, b: string) {
    a == "" || (b != "" && (a[0] < b[0] || (a[0] == b[0] && Le(a[1..], b[1..]))))
  }

  lemma {:induction false} LeIsTotal(a: string, b: string)
    ensures Le(a, b) || Le(b, a)
    ensures Le(a, b) && Le(b, a) ==> a == b
  {
    if a != "" && b != "" && a[0] == b[0] {
      LeIsTotal(a[1..], b[1..]);
      assert a == [a[0]] + a[1..] && b == [b[0]] + b[1..];
    }
  }

  lemma {:induction false} LeIsTransitive(a: string, b: string, c: string)
    requires Le(a, b) && Le(b, c)
    ensures Le(a, c)
  {
    if a != "" && a[0] == b[0] && b[0] == c[0] { LeIsTransitive(a[1..], b[1..], c[1..]); }
  }

  predicate Sorted(s: seq<string>) {
    |s| > 1 ==> Le(s[0], s[1]) && Sorted(s[1..])
  }

  function Insert(x: string, s: seq<string>): seq<string> {
    if s == [] || Le(x, s[0]) then [x] + s else [s[0]] + Insert(x, s[1..])
  }

  function Sort(s: seq<string>): seq<string> {
    if s == [] then [] else Insert(s[0], Sort(s[1..]))
  }

  function Digits(n: nat): string {
    (if n < 10 then "" else Digits(n / 10)) + [('0' as int + n % 10) as char]
  }

  /** An integer in a template literal. */
  function Decimal(n: int): string {
    if n < 0 then "-" + Digits(-n) else Digits(n)
  }

  function Suffix(from: int, to: int): string {
    if from != 0 && to != 0 then ":" + Decimal(from) + ":" + Decimal(to) else ""
  }

  function Stem(sched: string): string {
    "booking:lock:seat:" + sched + ":"
  }

  function KeyOf(sched: string, seat: string, from: int, to: int): Key {
    Stem(sched) + seat + Suffix(from, to)
  }

  /** buildLockKeys */
  function BuildLockKeys(sched: string, seats: seq<string>, from: int, to: int): seq<Key> {
    var sorted := Sort(seats);
    seq(|sorted|, i requires 0 <= i < |sorted| => KeyOf(sched, sorted[i], from, to))
  }

  lemma {:induction false} InsertKeeps(x: string, s: seq<string>)
    requires Sorted(s)
    ensures Sorted(Insert(x, s)) && multiset(Insert(x, s)) == multiset(s) + multiset{x}
  {
    if s == [] || Le(x, s[0]) {
      assert ([x] + s)[1..] == s;
    } else {
      var rest := Insert(x, s[1..]);
      InsertKeeps(x, s[1..]);
      LeIsTotal(x, s[0]);
      assert ([s[0]] + rest)[1..] == rest && s == [s[0]] + s[1..];
    }
  }

  lemma {:induction false} SortKeeps(s: seq<string>)
    ensures Sorted(Sort(s)) && multiset(Sort(s)) == multiset(s)
  {
    if s != [] {
      SortKeeps(s[1..]);
      InsertKeeps(s[0], Sort(s[1..]));
      assert s == [s[0]] + s[1..];
    }
  }

  lemma {:induction false} HeadIsLeast(s: seq<string>, x: string)
    requires Sorted(s) && x in s
    ensures Le(s[0], x)
    decreases |s|
  {
    if |s| == 1 || x == s[0] {
      LeIsTotal(s[0], s[0]);
    } else {
      HeadIsLeast(s[1..], x);
      LeIsTransitive(s[0], s[1], x);
    }
  }

  lemma {:induction false} SortedIsUnique(s: seq<string>, t: seq<string>)
    requires Sorted(s) && Sorted(t) && multiset(s) == multiset(t)
    ensures s == t
    decreases |s|
  {
    assert |s| == |multiset(s)| && |t| == |multiset(t)|;
    if s != [] {
      assert s[0] in multiset(s) && t[0] in multiset(t);
      HeadIsLeast(s, t[0]);
      HeadIsLeast(t, s[0]);
      LeIsTotal(s[0], t[0]);
      assert s == [s[0]] + s[1..] && t == [t[0]] + t[1..];
      assert multiset(s[1..]) == multiset(s) - multiset{s[0]} == multiset(t) - multiset{t[0]} == multiset(t[1..]);
      SortedIsUnique(s[1..], t[1..]);
    }
  }

  /** Callers that ask for the same seats in any order take the same keys in the same order. */
  lemma {:induction false} SameSeatsSameKeys(sched: string, a: seq<string>, b: seq<string>, from: int, to: int)
    requires multiset(a) == multiset(b)
    ensures BuildLockKeys(sched, a, from, to) == BuildLockKeys(sched, b, from, to)
  {
    SortKeeps(a);
    SortKeeps(b);
    SortedIsUnique(Sort(a), Sort(b));
  }

  lemma {:induction false} NoRepeats(s: seq<string>)
    ensures (forall i, j | 0 <= i < j < |s| :: s[i] != s[j]) <==> forall x :: multiset(s)[x] <= 1
  {
    if s != [] {
      var rest := s[1..];
      NoRepeats(rest);
      assert s == [s[0]] + rest;
      assert multiset(s) == multiset{s[0]} + multiset(rest);
      if s[0] in rest {
        var j :| 0 <= j < |rest| && rest[j] == s[0];
        assert s[j + 1] == s[0] && multiset(s)[s[0]] > 1;
      } else {
        forall i, j | 0 <= i < j < |rest| ensures s[i + 1] == rest[i] && s[j + 1] == rest[j] {}
        forall x ensures multiset(s)[x] <= 1 <==> multiset(rest)[x] <= 1 {}
      }
    }
  }

  // ----- the text of a key -----

  lemma {:induction false} SameEnds(p: string, a: string, b: string, s: string)
    ensures p + a + s == p + b + s <==> a == b
  {
    if p + a + s == p + b + s {
      assert |a| == |b|;
      assert a == (p + a + s)[|p|..|p| + |a|] && b == (p + b + s)[|p|..|p| + |b|];
    }
  }

  predicate Plain(s: string) {
    forall c | c in s :: c == '-' || '0' <= c <= '9'
  }

  lemma {:induction false} DigitsArePlain(n: nat)
    ensures Digits(n) != "" && forall c | c in Digits(n) :: '0' <= c <= '9'
  {
    if n >= 10 { DigitsArePlain(n / 10); }
  }

  lemma {:induction false} DigitsDiffer(m: nat, n: nat)
    requires Digits(m) == Digits(n)
    ensures m == n
  {
    var a, b := Digits(m), Digits(n);
    assert a[|a| - 1] == b[|b| - 1] && a[..|a| - 1] == b[..|b| - 1];
    if m >= 10 { DigitsArePlain(m / 10); }
    if n >= 10 { DigitsArePlain(n / 10); }
    if m >= 10 && n >= 10 { DigitsDiffer(m / 10, n / 10); }
  }

  lemma {:induction false} DecimalIsPlain(n: int)
    ensures Plain(Decimal(n)) && Decimal(n) != "" && (Decimal(n)[0] == '-' <==> n < 0)
  {
    var digits := Digits(if n < 0 then -n else n);
    DigitsArePlain(if n < 0 then -n else n);
    assert digits[0] in digits;
  }

  lemma {:induction false} DecimalsDiffer(m: int, n: int)
    requires Decimal(m) == Decimal(n)
    ensures m == n
  {
    DecimalIsPlain(m);
    DecimalIsPlain(n);
    if m < 0 {
      assert Decimal(m)[1..] == Digits(-m) && Decimal(n)[1..] == Digits(-n);
      DigitsDiffer(-m, -n);
    } else {
      DigitsDiffer(m, n);
    }
  }

  lemma {:induction false} NoColonAfter(a: string, x: string)
    requires Plain(x)
    ensures var s := a + ":" + x; s[|a|] == ':' && forall i | |a| < i < |s| :: s[i] != ':'
  {
    var s := a + ":" + x;
    forall i | |a| < i < |s| ensures s[i] != ':' { assert s[i] == x[i - |a| - 1] && x[i - |a| - 1] in x; }
  }

  /** A last field without a colon can be told from what comes before it. */
  lemma {:induction false} LastField(a: string, x: string, b: string, y: string)
    requires Plain(x) && Plain(y) && a + ":" + x == b + ":" + y
    ensures a == b && x == y
  {
    var s, t := a + ":" + x, b + ":" + y;
    NoColonAfter(a, x);
    NoColonAfter(b, y);
    assert |a| == |b|;
    assert a == s[..|a|] && b == t[..|b|] && x == s[|a| + 1..] && y == t[|b| + 1..];
  }

  lemma {:induction false} Fields(p: string, from: int, to: int)
    requires from != 0 && to != 0
    ensures p + Suffix(from, to) == (p + ":" + Decimal(from)) + ":" + Decimal(to)
  {
    var x, y := Decimal(from), Decimal(to);
    assert p + (":" + x + ":" + y) == (p + ":" + x) + ":" + y;
  }

  /** The keys of two segments differ, for any schedules and seats, colons in their ids or not. */
  lemma {:induction false} SegmentsDiffer(p: string, q: string, f1: int, t1: int, f2: int, t2: int)
    requires f1 != 0 && t1 != 0 && f2 != 0 && t2 != 0 && p + Suffix(f1, t1) == q + Suffix(f2, t2)
    ensures f1 == f2 && t1 == t2
  {
    DecimalIsPlain(f1);
    DecimalIsPlain(f2);
    DecimalIsPlain(t1);
    DecimalIsPlain(t2);
    Fields(p, f1, t1);
    Fields(q, f2, t2);
    LastField(p + ":" + Decimal(f1), Decimal(t1), q + ":" + Decimal(f2), Decimal(t2));
    LastField(p, Decimal(f1), q, Decimal(f2));
    DecimalsDiffer(f1, f2);
    DecimalsDiffer(t1, t2);
  }

  lemma {:induction false} KeysDiffer(sched: string, a: string, b: string, from: int, to: int)
    ensures KeyOf(sched, a, from, to) == KeyOf(sched, b, from, to) <==> a == b
  {
    SameEnds(Stem(sched), a, b, Suffix(from, to));
  }

  /** The keys are distinct exactly when the seats are, so only a request that names a seat twice
      blocks itself. */
  lemma {:induction false} KeysDistinctIff(sched: string, seats: seq<string>, from: int, to: int)
    ensures Distinct(BuildLockKeys(sched, seats, from, to)) <==> Distinct(seats)
  {
    SortKeeps(seats);
    NoRepeats(seats);
    NoRepeats(Sort(seats));
    SameRepeats(sched, Sort(seats), BuildLockKeys(sched, seats, from, to), from, to);
  }

  lemma {:induction false} SameRepeats(sched: string, seats: seq<string>, keys: seq<Key>, from: int, to: int)
    requires |keys| == |seats| && forall i | 0 <= i < |keys| :: keys[i] == KeyOf(sched, seats[i], from, to)
    ensures Distinct(keys) <==> Distinct(seats)
  {
    forall i, j | 0 <= i < j < |keys| ensures keys[i] == keys[j] <==> seats[i] == seats[j] {
      KeysDiffer(sched, seats[i], seats[j], from, to);
    }
  }

  /** Schedules whose ids hold no colon never share a key either, nor do their seats. */
  lemma {:induction false} SchedulesNeverMeet(s1: string, a: string, s2: string, b: string, from: int, to: int)
    requires ':' !in s1 && ':' !in s2 && KeyOf(s1, a, from, to) == KeyOf(s2, b, from, to)
    ensures s1 == s2 && a == b
  {
    var p := |"booking:lock:seat:"|;
    var key := KeyOf(s1, a, from, to);
    assert key[p..p + |s1|] == s1 && key[p + |s1|] == ':';
    assert key[p..p + |s2|] == s2 && key[p + |s2|] == ':';
    KeysDiffer(s1, a, b, from, to);
  }

  /** Requests for different segments never share a key, even where the segments overlap: these
      locks alone do not exclude each other, the ledger does. */
  lemma {:induction false} DifferentSegmentsNeverMeet(store: Store, sched: string, a: seq<string>, b: seq<string>,
      f1: int, t1: int, f2: int, t2: int, value: string)
    requires f1 != 0 && t1 != 0 && f2 != 0 && t2 != 0 && (f1, t1) != (f2, t2)
    requires AllFree(store, BuildLockKeys(sched, b, f2, t2))
    ensures AllFree(WithAll(store, BuildLockKeys(sched, a, f1, t1), value), BuildLockKeys(sched, b, f2, t2))
  {
    var ka, kb := BuildLockKeys(sched, a, f1, t1), BuildLockKeys(sched, b, f2, t2);
    forall i, j | 0 <= i < |kb| && 0 <= j < |ka| ensures kb[i] != ka[j] {
      if kb[i] == ka[j] { SegmentsDiffer(Stem(sched) + Sort(a)[j], Stem(sched) + Sort(b)[i], f1, t1, f2, t2); }
    }
  }
}
