/**
The fixed-window limiter of lib/push-repository.ts.  Each request is one
database update, so a run is a sequence of request times.
*/
module RateLimiter {
  import opened Basics

  datatype Row = Row(count: int, windowStart: int)

  /** The window has run out. */
  predicate Expired(r: Row, now: int, windowSeconds: int) { r.windowStart <= now - windowSeconds }

  function Updated(r: Row, now: int, windowSeconds: int): Row {
    if Expired(r, now, windowSeconds) then Row(1, now) else Row(r.count + 1, r.windowStart)
  }

  /** consumeRateLimit and consumeGlobalRateLimit: no row means no update, and a count beyond the limit. */
  predicate Allows(row: Option<Row>, now: int, windowSeconds: int, limit: int) {
    (if row.Some? then Updated(row.value, now, windowSeconds).count else limit + 1) <= limit
  }

  /** The stored row, updated in place. */
  class Budget {
    var row: Option<Row>

    constructor (initial: Option<Row>)
      ensures row == initial
    {
      row := initial;
    }

    method ConsumeRateLimit(now: int, windowSeconds: int, limit: int) returns (allowed: bool)
      modifies this
      ensures allowed == Allows(old(row), now, windowSeconds, limit)
      ensures row == if old(row).Some? then Some(Updated(old(row).value, now, windowSeconds)) else None
    {
      var count := limit + 1;
      if row.Some? {
        var stored := row.value;
        if stored.windowStart <= now - windowSeconds {
          count := 1;
          row := Some(Row(1, now));
        } else {
          count := stored.count + 1;
          row := Some(Row(count, stored.windowStart));
        }
      }
      return count <= limit;
    }
  }

  /* ---- Runs ---- */

  predicate Sorted(times: seq<int>) { forall i, j :: 0 <= i < j < |times| ==> times[i] <= times[j] }

  /** How many of these requests are allowed within the closed interval. */
  function AllowedWithin(r: Row, times: seq<int>, windowSeconds: int, limit: int, from: int, to: int): (n: int)
    ensures 0 <= n <= |times|
    decreases |times|
  {
    if times == [] then 0
    else
      (if from <= times[0] <= to && Allows(Some(r), times[0], windowSeconds, limit) then 1 else 0)
      + AllowedWithin(Updated(r, times[0], windowSeconds), times[1..], windowSeconds, limit, from, to)
  }

  /** What the row still allows inside [from, from + windowSeconds]. */
  function Potential(r: Row, windowSeconds: int, limit: int, from: int): int {
    if r.windowStart > from then Max0(limit - r.count)
    else if r.windowStart > from - windowSeconds then Max0(limit - r.count) + limit
    else 2 * limit
  }

  lemma {:induction false} NothingLate(r: Row, times: seq<int>, windowSeconds: int, limit: int, from: int, to: int)
    requires forall k :: 0 <= k < |times| ==> times[k] > to
    ensures AllowedWithin(r, times, windowSeconds, limit, from, to) == 0
    decreases |times|
  {
    if times != [] { NothingLate(Updated(r, times[0], windowSeconds), times[1..], windowSeconds, limit, from, to); }
  }

  lemma {:induction false} PotentialBounds(r: Row, times: seq<int>, windowSeconds: int, limit: nat, from: int)
    requires Sorted(times) && windowSeconds >= 1 && r.count >= 0
    ensures AllowedWithin(r, times, windowSeconds, limit, from, from + windowSeconds) <= Potential(r, windowSeconds, limit, from)
    decreases |times|
  {
    if times != [] {
      if times[0] > from + windowSeconds {
        NothingLate(r, times, windowSeconds, limit, from, from + windowSeconds);
      } else {
        PotentialBounds(Updated(r, times[0], windowSeconds), times[1..], windowSeconds, limit, from);
      }
    }
  }

  /** The sliding bound: in any interval of the window's length, at most twice the limit gets through. */
  lemma AtMostTwiceTheLimit(r: Row, times: seq<int>, windowSeconds: int, limit: nat, from: int)
    requires Sorted(times) && windowSeconds >= 1 && r.count >= 0
    ensures AllowedWithin(r, times, windowSeconds, limit, from, from + windowSeconds) <= 2 * limit
  {
    PotentialBounds(r, times, windowSeconds, limit, from);
  }

  /** The row after the first `k` requests. */
  function RowAfter(r: Row, times: seq<int>, windowSeconds: int, k: nat): Row
    requires k <= |times|
  {
    if k == 0 then r else Updated(RowAfter(r, times, windowSeconds, k - 1), times[k - 1], windowSeconds)
  }

  /** Two requests were counted in the same stored window. */
  ghost predicate SameWindow(r: Row, times: seq<int>, windowSeconds: int, i: nat, j: nat)
    requires i <= j < |times|
  {
    forall k :: i < k <= j ==> !Expired(RowAfter(r, times, windowSeconds, k), times[k], windowSeconds)
  }

  /**
  Within a stored window requests are numbered from the one that opened it, and exactly the first `limit` of them
  are allowed.
  */
  lemma {:induction false} FirstOfEachWindowPass(r: Row, times: seq<int>, windowSeconds: int, limit: int, i: nat, j: nat)
    requires i <= j < |times| && SameWindow(r, times, windowSeconds, i, j)
    requires Expired(RowAfter(r, times, windowSeconds, i), times[i], windowSeconds)
    ensures RowAfter(r, times, windowSeconds, j + 1) == Row(j - i + 1, times[i])
    ensures Allows(Some(RowAfter(r, times, windowSeconds, j)), times[j], windowSeconds, limit) <==> j - i + 1 <= limit
    decreases j
  {
    if j > i {
      FirstOfEachWindowPass(r, times, windowSeconds, limit, i, j - 1);
    }
  }

  /** In the window that was stored when the run begins, exactly as many pass as its count still leaves. */
  lemma {:induction false} RestOfStoredWindowPasses(r: Row, times: seq<int>, windowSeconds: int, limit: int, j: nat)
    requires j < |times| && forall x :: 0 <= x <= j ==> !Expired(r, times[x], windowSeconds)
    ensures RowAfter(r, times, windowSeconds, j + 1) == Row(r.count + j + 1, r.windowStart)
    ensures Allows(Some(RowAfter(r, times, windowSeconds, j)), times[j], windowSeconds, limit) <==> r.count + j + 1 <= limit
    decreases j
  {
    if j > 0 {
      RestOfStoredWindowPasses(r, times, windowSeconds, limit, j - 1);
    }
  }

  /* ---- What an interval lets through, exactly ---- */

  /** How many requests come before time `t`. */
  function Before(times: seq<int>, t: int): (n: nat)
    requires Sorted(times)
    ensures n <= |times|
    ensures forall x :: 0 <= x < |times| ==> (times[x] < t <==> x < n)
  {
    if times == [] || times[0] >= t then 0 else 1 + Before(times[1..], t)
  }

  /** What the window a request falls into still allows, that request included. */
  function Room(r: Row, now: int, windowSeconds: int, limit: nat): int {
    if Expired(r, now, windowSeconds) then limit else Max0(limit - r.count)
  }

  lemma {:induction false} RowAfterFirst(r: Row, times: seq<int>, windowSeconds: int, k: nat)
    requires k < |times|
    ensures RowAfter(r, times, windowSeconds, k + 1) == RowAfter(Updated(r, times[0], windowSeconds), times[1..], windowSeconds, k)
    decreases k
  {
    if k > 0 { RowAfterFirst(r, times, windowSeconds, k - 1); }
  }

  lemma {:induction false} AllowedInTwoParts(r: Row, times: seq<int>, windowSeconds: int, limit: int, from: int, to: int, k: nat)
    requires k <= |times|
    ensures AllowedWithin(r, times, windowSeconds, limit, from, to)
         == AllowedWithin(r, times[..k], windowSeconds, limit, from, to)
          + AllowedWithin(RowAfter(r, times, windowSeconds, k), times[k..], windowSeconds, limit, from, to)
    decreases k
  {
    if k == 0 {
      assert times[0..] == times;
    } else {
      assert times[..k][1..] == times[1..][..k - 1] && times[1..][k - 1..] == times[k..];
      RowAfterFirst(r, times, windowSeconds, k - 1);
      AllowedInTwoParts(Updated(r, times[0], windowSeconds), times[1..], windowSeconds, limit, from, to, k - 1);
    }
  }

  lemma {:induction false} NothingOutside(r: Row, times: seq<int>, windowSeconds: int, limit: int, from: int, to: int)
    requires forall x :: 0 <= x < |times| ==> !(from <= times[x] <= to)
    ensures AllowedWithin(r, times, windowSeconds, limit, from, to) == 0
    decreases |times|
  {
    if times != [] { NothingOutside(Updated(r, times[0], windowSeconds), times[1..], windowSeconds, limit, from, to); }
  }

  /** Requests of one stored window, all inside the interval: the first ones pass, up to what is left. */
  lemma {:induction false} OneWindow(r: Row, times: seq<int>, windowSeconds: int, limit: nat, from: int, to: int)
    requires forall x :: 0 <= x < |times| ==> from <= times[x] <= to && !Expired(r, times[x], windowSeconds)
    ensures AllowedWithin(r, times, windowSeconds, limit, from, to) == Min(Max0(limit - r.count), |times|)
    decreases |times|
  {
    if times != [] { OneWindow(Updated(r, times[0], windowSeconds), times[1..], windowSeconds, limit, from, to); }
  }

  /** The same when the first request may open the window. */
  lemma FreshWindow(r: Row, times: seq<int>, windowSeconds: int, limit: nat, from: int, to: int)
    requires times != [] && (forall x :: 0 <= x < |times| ==> from <= times[x] <= to)
    requires forall x :: 0 <= x < |times| ==> !Expired(Updated(r, times[0], windowSeconds), times[x], windowSeconds)
    ensures AllowedWithin(r, times, windowSeconds, limit, from, to) == Min(Room(r, times[0], windowSeconds, limit), |times|)
  {
    OneWindow(Updated(r, times[0], windowSeconds), times[1..], windowSeconds, limit, from, to);
  }

  /** A window keeps its start until a request finds it expired. */
  lemma {:induction false} WindowKeepsStart(r: Row, times: seq<int>, windowSeconds: int, k: nat)
    requires 0 < k <= |times|
    requires forall x :: 0 <= x < k ==> !Expired(Updated(r, times[0], windowSeconds), times[x], windowSeconds)
    ensures RowAfter(r, times, windowSeconds, k).windowStart == Updated(r, times[0], windowSeconds).windowStart
    decreases k
  {
    if k > 1 { WindowKeepsStart(r, times, windowSeconds, k - 1); }
  }

  /** Requests all inside the interval: those before the first window runs out, and the rest. */
  lemma AllowedInTwoWindows(r: Row, times: seq<int>, windowSeconds: int, limit: nat, from: int, turn: nat)
    requires Sorted(times) && windowSeconds >= 1 && 0 < turn <= |times|
    requires forall x :: 0 <= x < |times| ==> from <= times[x] <= from + windowSeconds
    requires forall x :: 0 <= x < |times| ==> (Expired(Updated(r, times[0], windowSeconds), times[x], windowSeconds) <==> x >= turn)
    ensures AllowedWithin(r, times, windowSeconds, limit, from, from + windowSeconds)
         == Min(Room(r, times[0], windowSeconds, limit), turn) + Min(limit, |times| - turn)
  {
    var to := from + windowSeconds;
    AllowedInTwoParts(r, times, windowSeconds, limit, from, to, turn);
    FreshWindow(r, times[..turn], windowSeconds, limit, from, to);
    if turn < |times| {
      var next := RowAfter(r, times, windowSeconds, turn);
      WindowKeepsStart(r, times, windowSeconds, turn);
      assert Expired(next, times[turn], windowSeconds) && times[turn] > from;
      FreshWindow(next, times[turn..], windowSeconds, limit, from, to);
    }
  }

  lemma OnlyInside(r: Row, times: seq<int>, windowSeconds: int, limit: nat, from: int, i: nat, j: nat)
    requires Sorted(times) && windowSeconds >= 1
    requires i == Before(times, from) && j == Before(times, from + windowSeconds + 1) && i <= j
    ensures AllowedWithin(r, times, windowSeconds, limit, from, from + windowSeconds)
         == AllowedWithin(RowAfter(r, times, windowSeconds, i), times[i..j], windowSeconds, limit, from, from + windowSeconds)
  {
    var to := from + windowSeconds;
    AllowedInTwoParts(r, times, windowSeconds, limit, from, to, i);
    NothingOutside(r, times[..i], windowSeconds, limit, from, to);
    var row, rest := RowAfter(r, times, windowSeconds, i), times[i..];
    AllowedInTwoParts(row, rest, windowSeconds, limit, from, to, j - i);
    NothingOutside(RowAfter(row, rest, windowSeconds, j - i), rest[j - i..], windowSeconds, limit, from, to);
    assert rest[..j - i] == times[i..j];
  }

  /** The first request, from number `i` on, that comes when the window then open has run out. */
  function Turn(r: Row, times: seq<int>, windowSeconds: int, i: nat): nat
    requires Sorted(times) && i < |times|
  {
    Before(times, Updated(RowAfter(r, times, windowSeconds, i), times[i], windowSeconds).windowStart + windowSeconds)
  }

  /**
  The requests inside an interval of the window's length, numbers `i` to `j`, fall into at most two stored windows: the
  one that is open when the first of them comes, or that it opens, and one more when that has run out. Of each window
  the first requests pass, up to what it has left.
  */
  lemma AllowedInInterval(r: Row, times: seq<int>, windowSeconds: int, limit: nat, from: int, i: nat, j: nat)
    requires Sorted(times) && windowSeconds >= 1
    requires i == Before(times, from) && j == Before(times, from + windowSeconds + 1) && i < j
    ensures var row, turn := RowAfter(r, times, windowSeconds, i), Min(Turn(r, times, windowSeconds, i), j);
      i < turn && AllowedWithin(r, times, windowSeconds, limit, from, from + windowSeconds)
        == Min(Room(row, times[i], windowSeconds, limit), turn - i) + Min(limit, j - turn)
  {
    var row, turn := RowAfter(r, times, windowSeconds, i), Min(Turn(r, times, windowSeconds, i), j);
    OnlyInside(r, times, windowSeconds, limit, from, i, j);
    var inside := times[i..j];
    assert inside[0] == times[i];
    AllowedInTwoWindows(row, inside, windowSeconds, limit, from, turn - i);
  }

  /**
  The exact condition: such an interval lets more than `limit` through if and only if the row turns over inside it, and
  what passes before and after that adds up to more than `limit`. With no turnover it never does.
  */
  lemma ExceedsExactlyThen(r: Row, times: seq<int>, windowSeconds: int, limit: nat, from: int, i: nat, j: nat)
    requires Sorted(times) && windowSeconds >= 1 && r.count >= 0
    requires i == Before(times, from) && j == Before(times, from + windowSeconds + 1)
    ensures AllowedWithin(r, times, windowSeconds, limit, from, from + windowSeconds) > limit <==>
      i < j && Turn(r, times, windowSeconds, i) < j
      && Min(Room(RowAfter(r, times, windowSeconds, i), times[i], windowSeconds, limit), Turn(r, times, windowSeconds, i) - i)
         + Min(limit, j - Turn(r, times, windowSeconds, i)) > limit
  {
    if i < j {
      CountsStayNat(r, times, windowSeconds, i);
      AllowedInInterval(r, times, windowSeconds, limit, from, i, j);
    } else {
      NothingOutside(r, times, windowSeconds, limit, from, from + windowSeconds);
    }
  }

  lemma {:induction false} CountsStayNat(r: Row, times: seq<int>, windowSeconds: int, k: nat)
    requires r.count >= 0 && k <= |times|
    ensures RowAfter(r, times, windowSeconds, k).count >= 0
    decreases k
  {
    if k > 0 { CountsStayNat(r, times, windowSeconds, k - 1); }
  }

  /** The bound is reached: a full window just before its end, and a full one right after. */
  lemma TwiceTheLimitHappens(windowSeconds: int, limit: nat)
    requires windowSeconds >= 1
    ensures exists r: Row, times: seq<int> ::
      Sorted(times) && r.count >= 0 && AllowedWithin(r, times, windowSeconds, limit, 0, windowSeconds) == 2 * limit
  {
    var first := seq(limit, i => 0);
    var second := seq(limit, i => windowSeconds);
    var r := Row(0, -windowSeconds);
    if limit > 0 {
      Burst(r, first, second, windowSeconds, limit, 0);
      Burst(Row(limit, 0), second, [], windowSeconds, limit, windowSeconds);
      assert second + [] == second;
    } else {
      assert first + second == [];
    }
    assert Sorted(first + second) && AllowedWithin(r, first + second, windowSeconds, limit, 0, windowSeconds) == 2 * limit;
  }

  /** A full window of requests at once, then the rest. */
  lemma Burst(r: Row, burst: seq<int>, rest: seq<int>, windowSeconds: int, limit: nat, now: int)
    requires windowSeconds >= 1 && |burst| == limit >= 1 && (forall k :: 0 <= k < |burst| ==> burst[k] == now)
    requires 0 <= now <= windowSeconds && Expired(r, now, windowSeconds)
    ensures AllowedWithin(r, burst + rest, windowSeconds, limit, 0, windowSeconds)
         == limit + AllowedWithin(Row(limit, now), rest, windowSeconds, limit, 0, windowSeconds)
  {
    assert (burst + rest)[1..] == burst[1..] + rest;
    BurstOn(Row(1, now), burst[1..], rest, windowSeconds, limit, now);
  }

  lemma {:induction false} BurstOn(r: Row, burst: seq<int>, rest: seq<int>, windowSeconds: int, limit: nat, now: int)
    requires windowSeconds >= 1 && r.windowStart == now && r.count + |burst| == limit && (forall k :: 0 <= k < |burst| ==> burst[k] == now)
    requires 0 <= now <= windowSeconds
    ensures AllowedWithin(r, burst + rest, windowSeconds, limit, 0, windowSeconds)
         == |burst| + AllowedWithin(Row(limit, now), rest, windowSeconds, limit, 0, windowSeconds)
    decreases |burst|
  {
    if burst == [] {
      assert burst + rest == rest && r == Row(limit, now);
    } else {
      assert (burst + rest)[1..] == burst[1..] + rest;
      BurstOn(Row(r.count + 1, now), burst[1..], rest, windowSeconds, limit, now);
    }
  }
}
