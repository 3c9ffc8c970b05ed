/** The two sliding-window chat limiters: at most 10 messages per 60 seconds. One keeps a list and
    filters it, the other pops expired timestamps off a bounded deque. */
module RateLimiter {
  import opened Common

  const LIMIT: nat := 10
  const WINDOW: real := 60.0

  /** Later than `cut`; the deque variant (`closed`) also keeps a timestamp exactly at it. */
  predicate Later(closed: bool, cut: real, t: real) { t > cut || (closed && t == cut) }

  function Since(closed: bool, ts: seq<real>, cut: real): seq<real> {
    if ts == [] then []
    else
      var init, t := Since(closed, ts[..|ts| - 1], cut), ts[|ts| - 1];
      if Later(closed, cut, t) then init + [t] else init
  }

  predicate Ordered(ts: seq<real>) { forall i, j :: 0 <= i < j < |ts| ==> ts[i] <= ts[j] }

  predicate UpTo(ts: seq<real>, t: real) { forall i :: 0 <= i < |ts| ==> ts[i] <= t }

  // ---------------------------------------------------------------- the specification

  /** The messages a limiter accepts out of a run of arrival times: one is accepted exactly when fewer
      than ten were accepted in the 60 seconds before it. */
  function Accepted(closed: bool, nows: seq<real>): seq<real> {
    if nows == [] then []
    else
      var acc, now := Accepted(closed, nows[..|nows| - 1]), nows[|nows| - 1];
      if Admits(closed, acc, now) then acc + [now] else acc
  }

  predicate Admits(closed: bool, acc: seq<real>, now: real) { |Since(closed, acc, now - WINDOW)| < LIMIT }

  lemma SinceAppend(closed: bool, ts: seq<real>, t: real, cut: real)
    ensures Since(closed, ts + [t], cut) ==
            if Later(closed, cut, t) then Since(closed, ts, cut) + [t] else Since(closed, ts, cut)
  {
    assert (ts + [t])[..|ts|] == ts;
  }

  lemma {:induction false} SinceConcat(closed: bool, a: seq<real>, b: seq<real>, cut: real)
    ensures Since(closed, a + b, cut) == Since(closed, a, cut) + Since(closed, b, cut)
  {
    if b == [] {
      assert a + b == a;
    } else {
      SinceConcat(closed, a, b[..|b| - 1], cut);
      assert a + b == (a + b[..|b| - 1]) + [b[|b| - 1]];
      SinceAppend(closed, a + b[..|b| - 1], b[|b| - 1], cut);
    }
  }

  /** Filtering at one time and again later is filtering at the later time. */
  lemma {:induction false} SinceTwice(closed: bool, ts: seq<real>, cut: real, later: real)
    requires cut <= later
    ensures Since(closed, Since(closed, ts, cut), later) == Since(closed, ts, later)
  {
    if ts != [] {
      var init, t := ts[..|ts| - 1], ts[|ts| - 1];
      SinceTwice(closed, init, cut, later);
      SinceAppend(closed, Since(closed, init, cut), t, later);
    }
  }

  lemma {:induction false} SinceShrinks(closed: bool, ts: seq<real>, cut: real, later: real)
    requires cut <= later
    ensures |Since(closed, ts, later)| <= |Since(closed, ts, cut)|
  {
    if ts != [] { SinceShrinks(closed, ts[..|ts| - 1], cut, later); }
  }

  lemma {:induction false} AcceptedOrdered(closed: bool, nows: seq<real>, t: real)
    requires Ordered(nows) && UpTo(nows, t)
    ensures Ordered(Accepted(closed, nows)) && UpTo(Accepted(closed, nows), t)
  {
    if nows != [] {
      AcceptedOrdered(closed, nows[..|nows| - 1], nows[|nows| - 1]);
    }
  }

  /** The accepted messages in the 60 seconds after `x`. */
  function Within(closed: bool, ts: seq<real>, x: real): seq<real> {
    if ts == [] then []
    else
      var init, t := Within(closed, ts[..|ts| - 1], x), ts[|ts| - 1];
      if Later(closed, x, t) && t <= x + WINDOW then init + [t] else init
  }

  lemma {:induction false} WithinIsSince(closed: bool, ts: seq<real>, x: real)
    requires UpTo(ts, x + WINDOW)
    ensures Within(closed, ts, x) == Since(closed, ts, x)
  {
    if ts != [] { WithinIsSince(closed, ts[..|ts| - 1], x); }
  }

  /** With a clock that never steps back, no 60-second window of any run holds more than ten accepted
      messages. The window is (x, x + 60] for the list variant and [x, x + 60] for the deque. */
  lemma {:induction false} AtMostTenPerWindow(closed: bool, nows: seq<real>, x: real)
    requires Ordered(nows)
    ensures |Within(closed, Accepted(closed, nows), x)| <= LIMIT
  {
    if nows != [] {
      var init, now := nows[..|nows| - 1], nows[|nows| - 1];
      AtMostTenPerWindow(closed, init, x);
      var acc := Accepted(closed, init);
      if Admits(closed, acc, now) {
        assert (acc + [now])[..|acc|] == acc;
        if now <= x + WINDOW {
          AcceptedOrdered(closed, init, now);
          WithinIsSince(closed, acc, x);
          SinceShrinks(closed, acc, now - WINDOW, x);
        }
      }
    }
  }

  // ---------------------------------------------------------------- acceptance, message by message

  /** The messages accepted so far in a run, by position. */
  function AcceptedAt(closed: bool, nows: seq<real>): set<nat> {
    set j | 0 <= j < |nows| && Admits(closed, Accepted(closed, nows[..j]), nows[j])
  }

  /** Those of the messages `at` that lie less than 60 seconds before time `now`; for the deque also exactly 60. */
  function Near(closed: bool, nows: seq<real>, at: set<nat>, now: real): set<nat> {
    set i | i in at && i < |nows| && (now - nows[i] < 60.0 || (closed && now - nows[i] == 60.0))
  }

  function Recent(closed: bool, nows: seq<real>, now: real): set<nat> {
    Near(closed, nows, AcceptedAt(closed, nows), now)
  }

  lemma {:induction false} AcceptedAtStep(closed: bool, nows: seq<real>)
    requires nows != []
    ensures var n := |nows| - 1;
            AcceptedAt(closed, nows) ==
            AcceptedAt(closed, nows[..n]) + if Admits(closed, Accepted(closed, nows[..n]), nows[n]) then {n} else {}
  {
    var n := |nows| - 1;
    assert forall j :: 0 <= j < n ==> nows[..n][..j] == nows[..j];
  }

  lemma {:induction false} RecentIsSince(closed: bool, nows: seq<real>, now: real)
    ensures |Recent(closed, nows, now)| == |Since(closed, Accepted(closed, nows), now - WINDOW)|
  {
    if nows != [] {
      var n := |nows| - 1;
      var init, acc := nows[..n], Accepted(closed, nows[..n]);
      RecentIsSince(closed, init, now);
      RecentStep(closed, nows, now);
      SinceAppend(closed, acc, nows[n], now - WINDOW);
    }
  }

  lemma {:induction false} RecentStep(closed: bool, nows: seq<real>, now: real)
    requires nows != []
    ensures var n := |nows| - 1;
            var admitted := Admits(closed, Accepted(closed, nows[..n]), nows[n]);
            |Recent(closed, nows, now)| ==
            |Recent(closed, nows[..n], now)| + if admitted && Later(closed, now - WINDOW, nows[n]) then 1 else 0
  {
    var n := |nows| - 1;
    var admitted := Admits(closed, Accepted(closed, nows[..n]), nows[n]);
    AcceptedAtStep(closed, nows);
    NearStep(closed, nows, AcceptedAt(closed, nows[..n]), now, admitted);
  }

  lemma {:induction false} NearStep(closed: bool, nows: seq<real>, at: set<nat>, now: real, admitted: bool)
    requires nows != [] && forall i :: i in at ==> i < |nows| - 1
    ensures var n := |nows| - 1;
            |Near(closed, nows, at + if admitted then {n} else {}, now)| ==
            |Near(closed, nows[..n], at, now)| + if admitted && Later(closed, now - WINDOW, nows[n]) then 1 else 0
  {
    var n := |nows| - 1;
    assert Near(closed, nows, at + if admitted then {n} else {}, now) ==
           Near(closed, nows[..n], at, now) + if admitted && Later(closed, now - WINDOW, nows[n]) then {n} else {};
  }

  /** In every run, the j-th message is accepted exactly if fewer than ten of the messages accepted before it lie
      within the 60 seconds before it. */
  lemma AcceptanceLaw(closed: bool, nows: seq<real>, j: nat)
    requires j < |nows|
    ensures j in AcceptedAt(closed, nows) <==> |Recent(closed, nows[..j], nows[j])| < 10
  {
    RecentIsSince(closed, nows[..j], nows[j]);
  }

  // ---------------------------------------------------------------- the two implementations

  /** From now on, the stored timestamps answer like the whole history of accepted messages. */
  ghost predicate Represents(closed: bool, times: seq<real>, nows: seq<real>) {
    && Ordered(nows)
    && (forall now: real :: UpTo(nows, now) ==>
          Since(closed, times, now - WINDOW) == Since(closed, Accepted(closed, nows), now - WINDOW))
  }

  /** Dropping what has expired, and appending what was accepted, keeps the answer right. */
  lemma RepresentsStep(closed: bool, times: seq<real>, nows: seq<real>, now: real, times': seq<real>)
    requires Represents(closed, times, nows) && UpTo(nows, now)
    requires var recent := Since(closed, times, now - WINDOW);
             if |recent| < LIMIT then times' == recent + [now] else times' == recent || times' == times
    ensures Represents(closed, times', nows + [now])
    ensures |Since(closed, times, now - WINDOW)| < LIMIT <==> Admits(closed, Accepted(closed, nows), now)
    ensures Accepted(closed, nows + [now]) ==
            if Admits(closed, Accepted(closed, nows), now) then Accepted(closed, nows) + [now]
            else Accepted(closed, nows)
  {
    var more := nows + [now];
    assert more[..|nows|] == nows;
    assert Since(closed, times, now - WINDOW) == Since(closed, Accepted(closed, nows), now - WINDOW);
    forall later: real | UpTo(more, later)
      ensures Since(closed, times', later - WINDOW) == Since(closed, Accepted(closed, more), later - WINDOW)
    {
      assert later >= more[|nows|] == now;
      assert UpTo(nows, later) by { forall i | 0 <= i < |nows| ensures nows[i] <= later { assert nows[i] == more[i]; } }
      AnswersLater(closed, times, Accepted(closed, nows), now, times', later);
    }
  }

  lemma AnswersLater(closed: bool, times: seq<real>, acc: seq<real>, now: real, times': seq<real>, later: real)
    requires now <= later
    requires Since(closed, times, now - WINDOW) == Since(closed, acc, now - WINDOW)
    requires Since(closed, times, later - WINDOW) == Since(closed, acc, later - WINDOW)
    requires var recent := Since(closed, times, now - WINDOW);
             if |recent| < LIMIT then times' == recent + [now] else times' == recent || times' == times
    ensures Since(closed, times', later - WINDOW) ==
            Since(closed, if Admits(closed, acc, now) then acc + [now] else acc, later - WINDOW)
  {
    SinceTwice(closed, times, now - WINDOW, later - WINDOW);
    SinceAppend(closed, Since(closed, times, now - WINDOW), now, later - WINDOW);
    SinceAppend(closed, acc, now, later - WINDOW);
  }

  /** `_chat_rate_limits[client]`: a list that is filtered on every message and rewritten on acceptance. */
  class ListLimiter {
    var times: seq<real>
    ghost var nows: seq<real>

    ghost predicate Valid() reads this { Represents(false, times, nows) }

    constructor ()
      ensures Valid() && nows == []
    {
      times, nows := [], [];
    }

    method Message(now: real) returns (ok: bool)
      requires Valid() && UpTo(nows, now)
      modifies this
      ensures Valid() && nows == old(nows) + [now]
      ensures ok <==> Admits(false, Accepted(false, old(nows)), now)
      ensures Accepted(false, nows) == if ok then Accepted(false, old(nows)) + [now] else Accepted(false, old(nows))
    {
      var recent := Since(false, times, now - WINDOW);
      ok := |recent| < LIMIT;
      RepresentsStep(false, times, nows, now, if ok then recent + [now] else times);
      nows := nows + [now];
      if !ok { return; }
      times := recent + [now];
    }
  }

  /** `chat_rate_limits[session]`: a deque of at most ten timestamps. */
  class DequeLimiter {
    var times: seq<real>
    ghost var nows: seq<real>

    ghost predicate Valid()
      reads this
    {
      && Represents(true, times, nows)
      && Ordered(times) && |times| <= LIMIT
      && (forall now: real :: UpTo(nows, now) ==> UpTo(times, now))
    }

    constructor ()
      ensures Valid() && nows == []
    {
      times, nows := [], [];
    }

    /** The cleaning loop pops exactly what filtering would drop. */
    method Clean(cut: real) returns (ghost k: nat)
      requires Ordered(times)
      modifies this`times
      ensures times == Since(true, old(times), cut)
      ensures k <= |old(times)| && times == old(times)[k..]
    {
      k := 0;
      while times != [] && times[0] < cut
        invariant k <= |old(times)| && times == old(times)[k..]
        invariant Since(true, times, cut) == Since(true, old(times), cut)
        decreases |times|
      {
        SinceConcat(true, [times[0]], times[1..], cut);
        assert [times[0]] + times[1..] == times && [times[0]][..0] == [];
        assert Since(true, [times[0]], cut) == [];
        times := times[1..];
        k := k + 1;
      }
      NothingToDrop(times, cut);
    }

    /** The append never meets a full deque, so its bound never evicts. */
    method Message(now: real) returns (ok: bool)
      requires Valid() && UpTo(nows, now)
      modifies this
      ensures Valid() && nows == old(nows) + [now]
      ensures ok <==> Admits(true, Accepted(true, old(nows)), now)
      ensures Accepted(true, nows) == if ok then Accepted(true, old(nows)) + [now] else Accepted(true, old(nows))
      ensures ok ==> times == Since(true, old(times), now - WINDOW) + [now]
    {
      ghost var stored := times;
      ghost var k := Clean(now - WINDOW);
      ok := |times| < LIMIT;
      RepresentsStep(true, stored, nows, now, if ok then times + [now] else times);
      assert UpTo(stored, now);
      assert forall later: real :: UpTo(nows + [now], later) ==> (nows + [now])[|nows|] <= later;
      nows := nows + [now];
      if !ok { return; }
      times := DequeAppend(times, LIMIT, now);
    }
  }

  lemma {:induction false} NothingToDrop(ts: seq<real>, cut: real)
    requires Ordered(ts) && (ts != [] ==> ts[0] >= cut)
    ensures Since(true, ts, cut) == ts
  {
    if ts != [] {
      NothingToDrop(ts[..|ts| - 1], cut);
      assert ts == ts[..|ts| - 1] + [ts[|ts| - 1]];
    }
  }

  // ---------------------------------------------------------------- how they differ

  function ExactlyAt(ts: seq<real>, cut: real): nat {
    if ts == [] then 0 else ExactlyAt(ts[..|ts| - 1], cut) + (if ts[|ts| - 1] == cut then 1 else 0)
  }

  lemma {:induction false} ClosedCounts(ts: seq<real>, cut: real)
    ensures |Since(true, ts, cut)| == |Since(false, ts, cut)| + ExactlyAt(ts, cut)
  {
    if ts != [] { ClosedCounts(ts[..|ts| - 1], cut); }
  }

  /** On the same history the two variants disagree exactly when timestamps 60 seconds old make the
      difference between nine and ten; the deque is then the stricter. */
  lemma VariantsDiffer(acc: seq<real>, now: real)
    ensures Admits(true, acc, now) ==> Admits(false, acc, now)
    ensures Admits(true, acc, now) != Admits(false, acc, now) <==>
            var n := |Since(false, acc, now - WINDOW)|; n < LIMIT <= n + ExactlyAt(acc, now - WINDOW)
  {
    ClosedCounts(acc, now - WINDOW);
  }

  /** If no message arrives exactly 60 seconds after another, both variants accept the same messages. */
  lemma {:induction false} VariantsAgree(nows: seq<real>)
    requires forall i, j :: 0 <= i < j < |nows| ==> nows[j] - nows[i] != WINDOW
    ensures Accepted(true, nows) == Accepted(false, nows)
    ensures forall t :: t in Accepted(false, nows) ==> t in nows
  {
    if nows != [] {
      var init, now := nows[..|nows| - 1], nows[|nows| - 1];
      VariantsAgree(init);
      var acc := Accepted(false, init);
      forall i | 0 <= i < |acc| ensures acc[i] != now - WINDOW {
        assert acc[i] in acc;
        var k :| 0 <= k < |init| && init[k] == acc[i];
        assert nows[k] == acc[i];
      }
      NoneExactly(acc, now - WINDOW);
      ClosedCounts(acc, now - WINDOW);
    }
  }

  lemma {:induction false} NoneExactly(ts: seq<real>, cut: real)
    requires forall i :: 0 <= i < |ts| ==> ts[i] != cut
    ensures ExactlyAt(ts, cut) == 0
  {
    if ts != [] { NoneExactly(ts[..|ts| - 1], cut); }
  }
}
