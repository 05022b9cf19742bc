/** The gateway's sliding-window limiter: a sorted set per key, pruned, added to and counted on
    every call. Times are milliseconds; the four commands of a call run together. A call has two:
    `now`, which the gateway read, and `at`, Redis's own when the commands run. */
module RateLimiter {
  datatype Option<+T> = None | Some(value: T)

  /** The sorted set of one key, by insertion, and the time at which the key expires. */
  datatype Window = Window(scores: seq<int>, deadline: Option<int>)

  const EMPTY := Window([], None)

  datatype Answer =
    | Allowed(remaining: int, resetTime: int)
    | Denied(resetTime: int, retryAfter: int)

  /** Math.ceil(ms / 1000) */
  function CeilSeconds(ms: int): (s: int)
    ensures 1000 * (s - 1) < ms <= 1000 * s
  {
    -((-ms) / 1000)
  }

  /** The elements later than `t`, in order. */
  function After(s: seq<int>, t: int): seq<int> {
    if s == [] then []
    else After(s[..|s| - 1], t) + if s[|s| - 1] > t then [s[|s| - 1]] else []
  }

  /** Each of them as often as before, and nothing at `t` or earlier. */
  lemma {:induction false} AfterKeeps(s: seq<int>, t: int, x: int)
    ensures multiset(After(s, t))[x] == if x > t then multiset(s)[x] else 0
  {
    if s != [] {
      var rest, last := s[..|s| - 1], s[|s| - 1];
      AfterKeeps(rest, t, x);
      assert s == rest + [last];
      assert multiset(s) == multiset(rest) + multiset{last};
    }
  }

  predicate Expired(k: Window, at: int) {
    k.deadline.Some? && at >= k.deadline.value
  }

  /** What is left of a key at this time. */
  function Live(k: Window, at: int): seq<int> {
    if Expired(k, at) then [] else k.scores
  }

  function Oldest(s: seq<int>): int
    requires s != []
  {
    if |s| == 1 then s[0]
    else
      var rest := Oldest(s[..|s| - 1]);
      if s[|s| - 1] < rest then s[|s| - 1] else rest
  }

  function Hit(k: Window, now: int, at: int, windowMs: int): Window {
    Window(After(Live(k, at), now - windowMs) + [now], Some(at + 1000 * CeilSeconds(windowMs)))
  }

  predicate Passes(k: Window, maxRequests: nat) {
    |k.scores| <= maxRequests
  }

  function Verdict(k: Window, now: int, maxRequests: nat, windowMs: int): Answer
    requires k.scores != []
  {
    if !Passes(k, maxRequests) then
      var resetTime := Oldest(k.scores) + windowMs;
      Denied(resetTime, CeilSeconds(resetTime - now))
    else Allowed(maxRequests - |k.scores|, now)
  }

  // ----- runs -----

  /** An answered call. */
  datatype Grant = Grant(now: int, allowed: bool)

  /** The key, its answered calls so far, the latest time at which one arrived, and up to where
      pruning and expiry have cut the set. */
  datatype State = State(key: Window, calls: seq<Grant>, last: int, cut: int)

  function Start(windowMs: int): State {
    State(EMPTY, [], 0, -windowMs)
  }

  /** When Redis is down a call is let through and leaves no trace. */
  datatype Call = Call(now: int, at: int, up: bool)

  /** An expired key has lost all its calls, and pruning removes up to the start of the window. */
  function CutBy(s: State, c: Call, windowMs: int): int {
    var lost := if Expired(s.key, c.at) && s.last > s.cut then s.last else s.cut;
    if c.now - windowMs > lost then c.now - windowMs else lost
  }

  function Next(s: State, c: Call, maxRequests: nat, windowMs: int): State {
    if !c.up then s
    else
      var key := Hit(s.key, c.now, c.at, windowMs);
      State(key, s.calls + [Grant(c.now, Passes(key, maxRequests))], c.at, CutBy(s, c, windowMs))
  }

  function Run(s: State, cs: seq<Call>, maxRequests: nat, windowMs: int): State
    decreases |cs|
  {
    if cs == [] then s else Run(Next(s, cs[0], maxRequests, windowMs), cs[1..], maxRequests, windowMs)
  }

  /** This call arrives in its turn, and at most `lag` after it has read its clock. */
  predicate InTurn(last: int, c: Call, lag: nat) {
    last <= c.at && c.now <= c.at <= c.now + lag && 0 <= c.now
  }

  predicate AllInTurn(last: int, cs: seq<Call>, lag: nat)
    decreases |cs|
  {
    cs != [] ==> InTurn(last, cs[0], lag) && AllInTurn(cs[0].at, cs[1..], lag)
  }

  function Times(calls: seq<Grant>): seq<int> {
    if calls == [] then [] else Times(calls[..|calls| - 1]) + [calls[|calls| - 1].now]
  }

  /** How many calls were answered with yes in the window [x, x + windowMs). */
  function Granted(calls: seq<Grant>, x: int, windowMs: int): nat {
    if calls == [] then 0
    else
      var c := calls[|calls| - 1];
      Granted(calls[..|calls| - 1], x, windowMs) + if c.allowed && x <= c.now < x + windowMs then 1 else 0
  }

  // ----- the set holds the recent calls -----

  lemma {:induction false} AfterAppend(s: seq<int>, x: int, t: int)
    ensures After(s + [x], t) == After(s, t) + if x > t then [x] else []
  {
    assert (s + [x])[..|s|] == s;
  }

  lemma {:induction false} AfterAfter(s: seq<int>, t: int, u: int)
    requires t <= u
    ensures After(After(s, t), u) == After(s, u)
  {
    if s != [] {
      var x := s[|s| - 1];
      AfterAfter(s[..|s| - 1], t, u);
      if x > t {
        AfterAppend(After(s[..|s| - 1], t), x, u);
      } else {
        assert After(s, t) == After(s[..|s| - 1], t) && After(s, u) == After(s[..|s| - 1], u);
      }
    }
  }

  lemma {:induction false} NoneAfter(s: seq<int>, t: int)
    requires forall i | 0 <= i < |s| :: s[i] <= t
    ensures After(s, t) == []
  {
    if s != [] { NoneAfter(s[..|s| - 1], t); }
  }

  lemma {:induction false} TimesAppend(calls: seq<Grant>, c: Grant)
    ensures Times(calls + [c]) == Times(calls) + [c.now]
  {
    assert (calls + [c])[..|calls|] == calls;
  }

  lemma {:induction false} AfterShrinks(s: seq<int>, t: int, u: int)
    requires t <= u
    ensures |After(s, u)| <= |After(s, t)|
  {
    if s != [] { AfterShrinks(s[..|s| - 1], t, u); }
  }

  /** No call lies in (t, u]. */
  predicate NoneBetween(s: seq<int>, t: int, u: int) {
    forall i | 0 <= i < |s| :: s[i] <= t || s[i] > u
  }

  /** Cutting further loses nothing exactly when nothing lies between. */
  lemma {:induction false} CutLosesNothingIff(s: seq<int>, t: int, u: int)
    requires t <= u
    ensures |After(s, u)| == |After(s, t)| <==> NoneBetween(s, t, u)
    ensures NoneBetween(s, t, u) ==> After(s, u) == After(s, t)
  {
    if s != [] {
      var rest := s[..|s| - 1];
      CutLosesNothingIff(rest, t, u);
      AfterShrinks(rest, t, u);
      assert NoneBetween(s, t, u) <==> NoneBetween(rest, t, u) && (s[|s| - 1] <= t || s[|s| - 1] > u);
    }
  }

  /** The set holds the calls after the cut, and the cut has reached no window yet to come. */
  predicate Sound(s: State, maxRequests: nat, windowMs: int, lag: nat) {
    && s.key.scores == After(Times(s.calls), s.cut) && s.cut <= s.last - windowMs
    && (forall i | 0 <= i < |Times(s.calls)| :: Times(s.calls)[i] <= s.last)
    && (s.key.deadline.Some? ==> s.key.deadline.value >= s.last + windowMs)
    && EachFits(s.calls, maxRequests, windowMs - lag)
  }

  /** Every call answered with yes found at most `maxRequests` calls, itself included, in the
      `span` that ends with it. */
  predicate EachFits(calls: seq<Grant>, maxRequests: nat, span: int) {
    calls != [] ==>
      var c := calls[|calls| - 1];
      && EachFits(calls[..|calls| - 1], maxRequests, span)
      && (c.allowed ==> |After(Times(calls), c.now - span)| <= maxRequests)
  }

  /** EXPIRE drops no entry that a call in time still counts: what the key loses, the cut of a call
      that has just read its clock would remove anyway. */
  lemma {:induction false} ExpiryDropsNothing(s: State, at: int, maxRequests: nat, windowMs: int, lag: nat, t: int)
    requires Sound(s, maxRequests, windowMs, lag) && s.last <= at && t >= at - windowMs
    ensures After(Live(s.key, at), t) == After(Times(s.calls), t)
  {
    AfterAfter(Times(s.calls), s.cut, t);
    if Expired(s.key, at) { NoneAfter(Times(s.calls), t); }
  }

  /** What a call finds after its pruning. */
  lemma {:induction false} KeptIs(s: State, c: Call, maxRequests: nat, windowMs: int, lag: nat)
    requires Sound(s, maxRequests, windowMs, lag) && s.last <= c.at && c.now <= c.at && windowMs > 0
    ensures After(Live(s.key, c.at), c.now - windowMs) == After(Times(s.calls), CutBy(s, c, windowMs))
    ensures c.now - windowMs <= CutBy(s, c, windowMs) <= c.at - windowMs
  {
    var times, cut, t := Times(s.calls), CutBy(s, c, windowMs), c.now - windowMs;
    if Expired(s.key, c.at) {
      NoneAfter(times, cut);
    } else if t >= s.cut {
      AfterAfter(times, s.cut, t);
    } else {
      NothingToCut(times, s.cut, t);
    }
  }

  lemma {:induction false} NothingToCut(s: seq<int>, cut: int, t: int)
    requires t <= cut
    ensures After(After(s, cut), t) == After(s, cut)
  {
    if s != [] {
      var x := s[|s| - 1];
      NothingToCut(s[..|s| - 1], cut, t);
      if x > cut {
        AfterAppend(After(s[..|s| - 1], cut), x, t);
      } else {
        assert After(s, cut) == After(s[..|s| - 1], cut);
      }
    }
  }

  lemma {:induction false} HitIs(s: State, c: Call, maxRequests: nat, windowMs: int, lag: nat)
    requires Sound(s, maxRequests, windowMs, lag) && InTurn(s.last, c, lag) && windowMs > lag
    ensures IsCutAt(Hit(s.key, c.now, c.at, windowMs).scores, Times(s.calls), c.now, CutBy(s, c, windowMs))
    ensures c.now - windowMs <= CutBy(s, c, windowMs) < c.now
  {
    KeptIs(s, c, maxRequests, windowMs, lag);
    HitAppends(s.key, Times(s.calls), c.now, c.at, windowMs, CutBy(s, c, windowMs));
  }

  /** The set is what a cut at `t` leaves of the earlier calls, and the call. */
  predicate IsCutAt(scores: seq<int>, times: seq<int>, now: int, t: int) {
    scores == After(times + [now], t)
  }

  lemma {:induction false} HitAppends(k: Window, times: seq<int>, now: int, at: int, windowMs: int, cut: int)
    requires After(Live(k, at), now - windowMs) == After(times, cut) && cut < now
    ensures IsCutAt(Hit(k, now, at, windowMs).scores, times, now, cut)
  {
    AfterAppend(times, now, cut);
  }

  lemma {:induction false} CutIff(scores: seq<int>, times: seq<int>, now: int, t: int, u: int)
    requires t <= u < now && IsCutAt(scores, times, now, u)
    ensures IsCutAt(scores, times, now, t) <==> NoneBetween(times, t, u)
  {
    SameCutIff(times, t, u, now);
  }

  /** What a call counts: its set is exactly the calls of the window that ends with it if and only if
      no earlier call lies in the gap that calls with later readings, or expiry, have already cut. */
  lemma {:induction false} HitHoldsIff(s: State, c: Call, maxRequests: nat, windowMs: int, lag: nat)
    requires Sound(s, maxRequests, windowMs, lag) && InTurn(s.last, c, lag) && windowMs > lag
    ensures IsCutAt(Hit(s.key, c.now, c.at, windowMs).scores, Times(s.calls), c.now, c.now - windowMs)
       <==> NoneBetween(Times(s.calls), c.now - windowMs, CutBy(s, c, windowMs))
  {
    HitIs(s, c, maxRequests, windowMs, lag);
    CutIff(Hit(s.key, c.now, c.at, windowMs).scores, Times(s.calls), c.now, c.now - windowMs, CutBy(s, c, windowMs));
  }

  lemma {:induction false} SameCutIff(s: seq<int>, t: int, u: int, x: int)
    requires t <= u < x
    ensures After(s + [x], u) == After(s + [x], t) <==> NoneBetween(s, t, u)
  {
    AfterAppend(s, x, t);
    AfterAppend(s, x, u);
    CutLosesNothingIff(s, t, u);
    SameBefore(After(s, u), After(s, t), x);
  }

  lemma {:induction false} SameBefore(a: seq<int>, b: seq<int>, x: int)
    ensures a + [x] == b + [x] <==> a == b
  {
    assert (a + [x])[..|a + [x]| - 1] == a && (b + [x])[..|b + [x]| - 1] == b;
  }

  /** A call that arrives as it reads its clock counts exactly its window. */
  lemma {:induction false} HitHolds(s: State, c: Call, maxRequests: nat, windowMs: int, lag: nat)
    requires Sound(s, maxRequests, windowMs, lag) && InTurn(s.last, c, lag) && windowMs > lag && c.now == c.at
    ensures IsCutAt(Hit(s.key, c.now, c.at, windowMs).scores, Times(s.calls), c.now, c.now - windowMs)
  {
    KeptIs(s, c, maxRequests, windowMs, lag);
    HitHoldsIff(s, c, maxRequests, windowMs, lag);
  }

  lemma {:induction false} FitsAppend(calls: seq<Grant>, c: Grant, maxRequests: nat, span: int)
    requires EachFits(calls, maxRequests, span)
    requires c.allowed ==> |After(Times(calls) + [c.now], c.now - span)| <= maxRequests
    ensures EachFits(calls + [c], maxRequests, span)
  {
    TimesAppend(calls, c);
    assert (calls + [c])[..|calls|] == calls;
  }

  lemma {:induction false} NextFits(s: State, c: Call, maxRequests: nat, windowMs: int, lag: nat)
    requires Sound(s, maxRequests, windowMs, lag) && InTurn(s.last, c, lag) && windowMs > lag
    ensures var allowed := Passes(Hit(s.key, c.now, c.at, windowMs), maxRequests);
            EachFits(s.calls + [Grant(c.now, allowed)], maxRequests, windowMs - lag)
  {
    var times := Times(s.calls) + [c.now];
    HitIs(s, c, maxRequests, windowMs, lag);
    KeptIs(s, c, maxRequests, windowMs, lag);
    AfterShrinks(times, CutBy(s, c, windowMs), c.now - (windowMs - lag));
    var allowed := Passes(Hit(s.key, c.now, c.at, windowMs), maxRequests);
    FitsAppend(s.calls, Grant(c.now, allowed), maxRequests, windowMs - lag);
  }

  lemma {:induction false} DeadlineIsLater(k: Window, c: Call, windowMs: int)
    ensures Hit(k, c.now, c.at, windowMs).deadline.Some?
    ensures Hit(k, c.now, c.at, windowMs).deadline.value >= c.at + windowMs
  {
  }

  lemma {:induction false} TimesStayBelow(times: seq<int>, now: int, last: int, at: int)
    requires (forall i | 0 <= i < |times| :: times[i] <= last) && last <= at && now <= at
    ensures forall i | 0 <= i < |times + [now]| :: (times + [now])[i] <= at
  {
  }

  lemma {:induction false} NextIsSound(s: State, c: Call, maxRequests: nat, windowMs: int, lag: nat)
    requires Sound(s, maxRequests, windowMs, lag) && InTurn(s.last, c, lag) && windowMs > lag
    ensures Sound(Next(s, c, maxRequests, windowMs), maxRequests, windowMs, lag)
  {
    if c.up {
      var key, cut := Hit(s.key, c.now, c.at, windowMs), CutBy(s, c, windowMs);
      var grant := Grant(c.now, Passes(key, maxRequests));
      NextFits(s, c, maxRequests, windowMs, lag);
      HitIs(s, c, maxRequests, windowMs, lag);
      KeptIs(s, c, maxRequests, windowMs, lag);
      TimesAppend(s.calls, grant);
      TimesStayBelow(Times(s.calls), c.now, s.last, c.at);
      DeadlineIsLater(s.key, c, windowMs);
      assert Sound(State(key, s.calls + [grant], c.at, cut), maxRequests, windowMs, lag);
    }
  }

  lemma {:induction false} RunIsSound(s: State, cs: seq<Call>, maxRequests: nat, windowMs: int, lag: nat)
    requires Sound(s, maxRequests, windowMs, lag) && AllInTurn(s.last, cs, lag) && windowMs > lag
    ensures Sound(Run(s, cs, maxRequests, windowMs), maxRequests, windowMs, lag)
    decreases |cs|
  {
    if cs != [] {
      var s1 := Next(s, cs[0], maxRequests, windowMs);
      NextIsSound(s, cs[0], maxRequests, windowMs, lag);
      Later(s1.last, cs[0].at, cs[1..], lag);
      RunIsSound(s1, cs[1..], maxRequests, windowMs, lag);
    }
  }

  lemma {:induction false} Later(last: int, at: int, cs: seq<Call>, lag: nat)
    requires last <= at && AllInTurn(at, cs, lag)
    ensures AllInTurn(last, cs, lag)
  {
  }

  // ----- the bound -----

  lemma {:induction false} GrantedAreAfter(calls: seq<Grant>, x: int, windowMs: int, t: int)
    requires t < x
    ensures Granted(calls, x, windowMs) <= |After(Times(calls), t)|
  {
    if calls != [] {
      var before := calls[..|calls| - 1];
      GrantedAreAfter(before, x, windowMs, t);
      AfterAppend(Times(before), calls[|calls| - 1].now, t);
    }
  }

  lemma {:induction false} FitsBound(calls: seq<Grant>, maxRequests: nat, span: int, x: int)
    requires EachFits(calls, maxRequests, span)
    ensures Granted(calls, x, span) <= maxRequests
  {
    if calls != [] {
      var c := calls[|calls| - 1];
      FitsBound(calls[..|calls| - 1], maxRequests, span, x);
      if c.allowed && x <= c.now < x + span { GrantedAreAfter(calls, x, span, c.now - span); }
    }
  }

  /** Sliding window bound: where calls reach Redis at most `lag` after their clock reading, each
      half-open span of `windowMs - lag` holds at most `maxRequests` calls that Redis answered with
      yes; without lag, that is the whole window. */
  lemma {:induction false} EveryWindowIsBounded(cs: seq<Call>, maxRequests: nat, windowMs: int, lag: nat, x: int)
    requires AllInTurn(0, cs, lag) && windowMs > 0
    ensures Granted(Run(Start(windowMs), cs, maxRequests, windowMs).calls, x, windowMs - lag) <= maxRequests
  {
    var calls := Run(Start(windowMs), cs, maxRequests, windowMs).calls;
    if windowMs > lag {
      RunIsSound(Start(windowMs), cs, maxRequests, windowMs, lag);
      FitsBound(calls, maxRequests, windowMs - lag, x);
    } else {
      NoneGranted(calls, x, windowMs - lag);
    }
  }

  lemma {:induction false} NoneGranted(calls: seq<Grant>, x: int, span: int)
    requires span <= 0
    ensures Granted(calls, x, span) == 0
  {
    if calls != [] { NoneGranted(calls[..|calls| - 1], x, span); }
  }

  lemma {:induction false} AfterTwo(x: int, y: int, t: int)
    ensures After([x], t) == if x > t then [x] else []
    ensures After([x, y], t) == After([x], t) + if y > t then [y] else []
  {
    assert [x][..0] == [] && [x, y][..1] == [x];
  }

  /** One call of a run, when what is left of the key is known. */
  lemma {:induction false} OneCall(s: State, c: Call, cs: seq<Call>, kept: seq<int>)
    requires c.up && kept == After(Live(s.key, c.at), c.now - 10)
    ensures var s' := State(Window(kept + [c.now], Some(c.at + 1000)),
                            s.calls + [Grant(c.now, |kept| < 2)], c.at, CutBy(s, c, 10));
            Run(s, [c] + cs, 2, 10) == Run(s', cs, 2, 10)
  {
    assert ([c] + cs)[1..] == cs;
    assert CeilSeconds(10) == 1;
  }

  const FIRST := Call(0, 0, true)
  const LATER := Call(10, 10, true)
  const LATE := Call(9, 10, true)
  const LATE_RUN := [FIRST] + ([FIRST] + ([LATER] + ([LATE] + [])))

  lemma {:induction false} LateRunIsInTurn()
    ensures AllInTurn(0, LATE_RUN, 1)
  {
    InTurnThen(10, LATE, [], 1);
    InTurnThen(0, LATER, [LATE] + [], 1);
    InTurnThen(0, FIRST, [LATER] + ([LATE] + []), 1);
    InTurnThen(0, FIRST, [FIRST] + ([LATER] + ([LATE] + [])), 1);
  }

  lemma {:induction false} InTurnThen(last: int, c: Call, cs: seq<Call>, lag: nat)
    requires InTurn(last, c, lag) && AllInTurn(c.at, cs, lag)
    ensures AllInTurn(last, [c] + cs, lag)
  {
    assert ([c] + cs)[1..] == cs;
  }

  /** No longer span is bounded: a call that read the clock at 9 and reaches Redis at 10, after one
      that read it at 10, does not see what that one pruned. With a lag of 1, three calls pass in
      the ten milliseconds of [0, 10), and two are allowed. */
  lemma {:induction false} ALateCallBreaksTheBound()
    ensures AllInTurn(0, LATE_RUN, 1) && Granted(Run(Start(10), LATE_RUN, 2, 10).calls, 0, 10 - 1 + 1) == 3
  {
    var y0, y10, y9 := Grant(0, true), Grant(10, true), Grant(9, true);
    LateRunIsInTurn();
    AfterTwo(0, 0, -10);
    AfterTwo(0, 0, 0);
    AfterTwo(10, 10, -1);
    OneCall(Start(10), FIRST, [FIRST] + ([LATER] + ([LATE] + [])), []);
    OneCall(State(Window([] + [0], Some(1000)), [] + [y0], 0, -10), FIRST, [LATER] + ([LATE] + []), [0]);
    OneCall(State(Window([0] + [0], Some(1000)), [] + [y0] + [y0], 0, -10), LATER, [LATE] + [], []);
    OneCall(State(Window([] + [10], Some(1010)), [] + [y0] + [y0] + [y10], 10, 0), LATE, [], [10]);
    GrantedAppend([], y0);
    GrantedAppend([] + [y0], y0);
    GrantedAppend([] + [y0] + [y0], y10);
    GrantedAppend([] + [y0] + [y0] + [y10], y9);
  }

  lemma {:induction false} GrantedAppend(calls: seq<Grant>, c: Grant)
    ensures Granted(calls + [c], 0, 10) == Granted(calls, 0, 10) + if c.allowed && 0 <= c.now < 10 then 1 else 0
  {
    assert (calls + [c])[..|calls|] == calls;
  }

  lemma {:induction false} AllAfter(s: seq<int>, t: int)
    ensures forall i | 0 <= i < |After(s, t)| :: After(s, t)[i] > t
  {
    if s != [] { AllAfter(s[..|s| - 1], t); }
  }

  lemma {:induction false} OldestIsIn(s: seq<int>)
    requires s != []
    ensures Oldest(s) in s && forall x | x in s :: Oldest(s) <= x
  {
    if |s| > 1 {
      OldestIsIn(s[..|s| - 1]);
      assert s == s[..|s| - 1] + [s[|s| - 1]];
    }
  }

  /** A call is denied exactly when the set holds more than the maximum. The denied caller is told when
      the oldest counted call leaves the window, and to wait for it in whole seconds, rounded up: at
      least one, and at most the window. */
  lemma {:induction false} DeniedWaits(k: Window, now: int, at: int, maxRequests: nat, windowMs: int)
    requires windowMs > 0
    ensures var key := Hit(k, now, at, windowMs);
            var answer := Verdict(key, now, maxRequests, windowMs);
            && (answer.Denied? <==> |key.scores| > maxRequests)
            && (answer.Denied? ==>
              && 1 <= answer.retryAfter <= CeilSeconds(windowMs) && answer.resetTime > now
              && 1000 * (answer.retryAfter - 1) < answer.resetTime - now <= 1000 * answer.retryAfter
              && answer.resetTime - windowMs in key.scores
              && forall x | x in key.scores :: answer.resetTime <= x + windowMs)
  {
    var key := Hit(k, now, at, windowMs);
    var kept := After(Live(k, at), now - windowMs);
    AllAfter(Live(k, at), now - windowMs);
    OldestIsIn(key.scores);
    assert key.scores[|kept|] == now;
    WholeSeconds(Oldest(key.scores) + windowMs - now, windowMs);
  }

  lemma {:induction false} WholeSeconds(ms: int, windowMs: int)
    ensures 1000 * (CeilSeconds(ms) - 1) < ms <= 1000 * CeilSeconds(ms)
    ensures 0 < ms <= windowMs ==> 1 <= CeilSeconds(ms) <= CeilSeconds(windowMs)
  {
  }

  /** The key outlives the window by less than a second. */
  lemma {:induction false} KeyOutlivesWindow(k: Window, now: int, at: int, windowMs: int)
    ensures var key := Hit(k, now, at, windowMs);
            key.deadline.Some? && windowMs <= key.deadline.value - at < windowMs + 1000
  {
    var seconds := CeilSeconds(windowMs);
    assert 1000 * (seconds - 1) < windowMs <= 1000 * seconds;
  }

  // ----- the code -----

  class Limiter {
    var sets: map<string, Window>

    constructor ()
      ensures sets == map[]
    {
      sets := map[];
    }

    function Of(key: string): Window
      reads this
    {
      if key in sets then sets[key] else EMPTY
    }

    /** rateLimiter while Redis answers, at its time `at`. */
    method RateLimit(key: string, maxRequests: nat, windowMs: int, now: int, at: int) returns (answer: Answer)
      requires windowMs > 0
      modifies this
      ensures sets == old(sets)[key := Hit(old(Of(key)), now, at, windowMs)]
      ensures answer == Verdict(sets[key], now, maxRequests, windowMs)
      ensures answer.Denied? <==> |sets[key].scores| > maxRequests
      ensures answer.Denied? ==>
        && 1 <= answer.retryAfter <= CeilSeconds(windowMs) && answer.resetTime - windowMs in sets[key].scores
        && 1000 * (answer.retryAfter - 1) < answer.resetTime - now <= 1000 * answer.retryAfter
      ensures answer.Allowed? ==>
        0 <= answer.remaining < maxRequests && answer.remaining + |sets[key].scores| == maxRequests
      ensures sets[key].deadline.Some? && windowMs <= sets[key].deadline.value - at < windowMs + 1000
    {
      DeniedWaits(Of(key), now, at, maxRequests, windowMs);
      KeyOutlivesWindow(Of(key), now, at, windowMs);
      var requestCount := Pipeline(key, windowMs, now, at);
      if requestCount > maxRequests {
        var oldest := Oldest(sets[key].scores);
        var resetTime := oldest + windowMs;
        return Denied(resetTime, CeilSeconds(resetTime - now));
      }
      answer := Allowed(maxRequests - requestCount, now);
    }

    /** The four commands of a call, which run together. */
    method Pipeline(key: string, windowMs: int, now: int, at: int) returns (requestCount: nat)
      modifies this
      ensures sets == old(sets)[key := Hit(old(Of(key)), now, at, windowMs)] && requestCount == |sets[key].scores|
    {
      ZRemRangeByScore(key, now - windowMs, at);
      ZAdd(key, now);
      requestCount := |sets[key].scores|;
      Expire(key, at, CeilSeconds(windowMs));
    }

    method ZRemRangeByScore(key: string, upto: int, at: int)
      modifies this
      ensures sets == old(sets)[key := Window(After(Live(old(Of(key)), at), upto), None)]
    {
      var live := Live(Of(key), at);
      var kept: seq<int> := [];
      var i := 0;
      while i < |live|
        invariant 0 <= i <= |live| && kept == After(live[..i], upto)
      {
        assert live[..i + 1][..i] == live[..i];
        if live[i] > upto { kept := kept + [live[i]]; }
        i := i + 1;
      }
      assert live[..i] == live;
      sets := sets[key := Window(kept, None)];
    }

    method ZAdd(key: string, score: int)
      requires key in sets
      modifies this
      ensures sets == old(sets)[key := old(sets)[key].(scores := old(sets)[key].scores + [score])]
    {
      sets := sets[key := sets[key].(scores := sets[key].scores + [score])];
    }

    method Expire(key: string, at: int, seconds: int)
      requires key in sets
      modifies this
      ensures sets == old(sets)[key := old(sets)[key].(deadline := Some(at + 1000 * seconds))]
    {
      sets := sets[key := sets[key].(deadline := Some(at + 1000 * seconds))];
    }
  }
}
