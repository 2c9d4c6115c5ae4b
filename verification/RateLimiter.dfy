/** The sliding-window limiter of the SMS service (services/smsService.ts), in milliseconds. */
module RateLimiter {

  const RATE_LIMIT_MAX := 5
  const RATE_LIMIT_WINDOW_MS := 3_600_000

  /** The times later than the cutoff, in order. */
  function After(times: seq<int>, cutoff: int): seq<int> {
    if times == [] then []
    else
      var front, t := times[..|times| - 1], times[|times| - 1];
      if t > cutoff then After(front, cutoff) + [t] else After(front, cutoff)
  }

  datatype Message = Message(user: string, at: int)

  function TimesOf(m: map<string, seq<int>>, user: string): seq<int> { if user in m then m[user] else [] }

  predicate Allows(m: map<string, seq<int>>, msg: Message) {
    |After(TimesOf(m, msg.user), msg.at - RATE_LIMIT_WINDOW_MS)| < RATE_LIMIT_MAX
  }

  /** checkRateLimit on the map of timestamps. */
  function Checked(m: map<string, seq<int>>, msg: Message): map<string, seq<int>> {
    if Allows(m, msg)
    then m[msg.user := After(TimesOf(m, msg.user), msg.at - RATE_LIMIT_WINDOW_MS) + [msg.at]]
    else m
  }

  function MapAfter(run: seq<Message>): map<string, seq<int>> {
    if run == [] then map[] else Checked(MapAfter(run[..|run| - 1]), run[|run| - 1])
  }

  // ---------------------------------------------------------------------------
  // The full record
  // ---------------------------------------------------------------------------

  function Recorded(all: seq<int>, allowed: bool, at: int): seq<int> { if allowed then all + [at] else all }

  /** Every instant at which a message of `user` was allowed; nothing is discarded. */
  function AllowedTimes(run: seq<Message>, user: string): seq<int> {
    if run == [] then []
    else
      var past, msg := run[..|run| - 1], run[|run| - 1];
      Recorded(AllowedTimes(past, user), msg.user == user && Allows(MapAfter(past), msg), msg.at)
  }

  ghost predicate ClockForward(run: seq<Message>) {
    forall i, j :: 0 <= i <= j < |run| ==> run[i].at <= run[j].at
  }

  lemma {:induction false} AfterSnoc(times: seq<int>, t: int, cutoff: int)
    ensures After(times + [t], cutoff) == if t > cutoff then After(times, cutoff) + [t] else After(times, cutoff)
  {
    assert (times + [t])[..|times|] == times;
  }

  /** Filtering twice is filtering once with the later cutoff. */
  lemma {:induction false} AfterTwice(times: seq<int>, early: int, late: int)
    requires early <= late
    ensures After(After(times, early), late) == After(times, late)
  {
    if times != [] {
      var front, t := times[..|times| - 1], times[|times| - 1];
      AfterTwice(front, early, late);
      if t > early { AfterSnoc(After(front, early), t, late); }
    }
  }

  /** `stored` answers every question from `now` on as the full record `all` would. */
  ghost predicate Faithful(stored: seq<int>, all: seq<int>, now: int) {
    forall cutoff :: cutoff >= now - RATE_LIMIT_WINDOW_MS ==> After(stored, cutoff) == After(all, cutoff)
  }

  /** Dropping what has left the window and adding the new instant keeps that. */
  lemma StoreIsFaithful(stored: seq<int>, all: seq<int>, at: int, now: int)
    requires at <= now && Faithful(stored, all, at)
    ensures Faithful(After(stored, at - RATE_LIMIT_WINDOW_MS) + [at], all + [at], now)
  {
    var kept := After(stored, at - RATE_LIMIT_WINDOW_MS);
    forall cutoff | cutoff >= now - RATE_LIMIT_WINDOW_MS
      ensures After(kept + [at], cutoff) == After(all + [at], cutoff)
    {
      AfterSnoc(kept, at, cutoff);
      AfterTwice(stored, at - RATE_LIMIT_WINDOW_MS, cutoff);
      AfterSnoc(all, at, cutoff);
    }
  }

  lemma FaithfulNext(m: map<string, seq<int>>, all: seq<int>, msg: Message, user: string, now: int)
    requires msg.at <= now && Faithful(TimesOf(m, user), all, msg.at)
    ensures Faithful(TimesOf(Checked(m, msg), user), Recorded(all, msg.user == user && Allows(m, msg), msg.at), now)
  {
    if msg.user == user && Allows(m, msg) {
      StoreIsFaithful(TimesOf(m, user), all, msg.at, now);
    } else {
      assert TimesOf(Checked(m, msg), user) == TimesOf(m, user);
    }
  }

  lemma {:induction false} MapIsFaithful(run: seq<Message>, user: string, now: int)
    requires ClockForward(run) && (run != [] ==> run[|run| - 1].at <= now)
    ensures Faithful(TimesOf(MapAfter(run), user), AllowedTimes(run, user), now)
  {
    if run == [] {
    } else {
      var past, msg := run[..|run| - 1], run[|run| - 1];
      PrefixForward(run);
      MapIsFaithful(past, user, msg.at);
      FaithfulNext(MapAfter(past), AllowedTimes(past, user), msg, user, now);
    }
  }

  lemma PrefixForward(run: seq<Message>)
    requires run != [] && ClockForward(run)
    ensures var past := run[..|run| - 1];
            ClockForward(past) && (past != [] ==> past[|past| - 1].at <= run[|run| - 1].at)
  {
  }

  /** The positions of the times later than the cutoff. */
  function Later(times: seq<int>, cutoff: int): set<int> {
    set i | 0 <= i < |times| && cutoff < times[i]
  }

  /** The full record shows five allowed messages of the user in the hour before. */
  predicate RefusedByRecord(run: seq<Message>, msg: Message) {
    |Later(AllowedTimes(run, msg.user), msg.at - 3_600_000)| >= 5
  }

  lemma LaterSnoc(times: seq<int>, cutoff: int)
    requires times != []
    ensures var n := |times| - 1;
            Later(times, cutoff) == Later(times[..n], cutoff) + (if cutoff < times[n] then {n} else {})
  {
  }

  /** Filtering keeps as many times as there are later than the cutoff. */
  lemma {:induction false} AfterCounts(times: seq<int>, cutoff: int)
    ensures |After(times, cutoff)| == |Later(times, cutoff)|
  {
    if times != [] {
      var n := |times| - 1;
      AfterCounts(times[..n], cutoff);
      LaterSnoc(times, cutoff);
      assert n !in Later(times[..n], cutoff);
    }
  }

  /** With a clock that never steps back, a message is refused exactly when the full record shows
      five allowed in the hour before it. */
  lemma RefusedIffFiveInLastHour(run: seq<Message>, msg: Message)
    requires ClockForward(run + [msg])
    ensures !Allows(MapAfter(run), msg) <==> RefusedByRecord(run, msg)
  {
    var all := run + [msg];
    assert forall i :: 0 <= i < |run| ==> run[i] == all[i];
    assert all[|run|] == msg;
    MapIsFaithful(run, msg.user, msg.at);
    AfterCounts(AllowedTimes(run, msg.user), msg.at - RATE_LIMIT_WINDOW_MS);
  }

  // ---------------------------------------------------------------------------
  // Windows
  // ---------------------------------------------------------------------------

  /** How many of the times fall into [from, from + one hour). */
  function InWindow(times: seq<int>, from: int): nat {
    if times == [] then 0
    else
      InWindow(times[..|times| - 1], from) +
      (if from <= times[|times| - 1] < from + 3_600_000 then 1 else 0)
  }

  lemma {:induction false} InWindowSnoc(times: seq<int>, t: int, from: int)
    ensures InWindow(times + [t], from) ==
            InWindow(times, from) + (if from <= t < from + RATE_LIMIT_WINDOW_MS then 1 else 0)
  {
    assert (times + [t])[..|times|] == times;
  }

  lemma {:induction false} WindowWithinHour(times: seq<int>, from: int, cutoff: int)
    requires cutoff < from
    ensures InWindow(times, from) <= |After(times, cutoff)|
  {
    if times != [] { WindowWithinHour(times[..|times| - 1], from, cutoff); }
  }

  lemma OneMoreInWindow(times: seq<int>, at: int, from: int)
    requires InWindow(times, from) <= RATE_LIMIT_MAX && |After(times, at - RATE_LIMIT_WINDOW_MS)| < RATE_LIMIT_MAX
    ensures InWindow(times + [at], from) <= RATE_LIMIT_MAX
  {
    InWindowSnoc(times, at, from);
    if from <= at < from + RATE_LIMIT_WINDOW_MS {
      WindowWithinHour(times, from, at - RATE_LIMIT_WINDOW_MS);
    }
  }

  /** With a clock that never steps back, no half-open hour holds more than five allowed messages
      of a user. */
  lemma {:induction false} AtMostFivePerHour(run: seq<Message>, user: string, from: int)
    requires ClockForward(run)
    ensures InWindow(AllowedTimes(run, user), from) <= 5
  {
    if run != [] {
      var past, msg := run[..|run| - 1], run[|run| - 1];
      PrefixForward(run);
      AtMostFivePerHour(past, user, from);
      if msg.user == user && Allows(MapAfter(past), msg) {
        assert past + [msg] == run;
        RefusedIffFiveInLastHour(past, msg);
        AfterCounts(AllowedTimes(past, user), msg.at - RATE_LIMIT_WINDOW_MS);
        OneMoreInWindow(AllowedTimes(past, user), msg.at, from);
      }
    }
  }

  // ---------------------------------------------------------------------------
  // A clock that steps back
  // ---------------------------------------------------------------------------

  /** No message is stamped more than `back` milliseconds before an earlier one. */
  ghost predicate StepsBackAtMost(back: nat, run: seq<Message>) {
    forall i, j :: 0 <= i <= j < |run| ==> run[i].at - run[j].at <= back
  }

  ghost predicate AlwaysLimited(back: nat) {
    forall run, user, from | StepsBackAtMost(back, run) :: InWindow(AllowedTimes(run, user), from) <= RATE_LIMIT_MAX
  }

  ghost predicate AlwaysByRecord(back: nat) {
    forall run, msg | StepsBackAtMost(back, run + [msg]) :: !Allows(MapAfter(run), msg) <==> RefusedByRecord(run, msg)
  }

  function Zeros(n: nat): (s: seq<int>)
    ensures |s| == n
  {
    if n == 0 then [] else Zeros(n - 1) + [0]
  }

  /** `n` messages at 0. */
  function Burst(n: nat): (run: seq<Message>)
    ensures |run| == n && forall i :: 0 <= i < n ==> run[i] == Message("u", 0)
  {
    if n == 0 then [] else Burst(n - 1) + [Message("u", 0)]
  }

  lemma {:induction false} AfterZeros(n: nat, cutoff: int)
    ensures After(Zeros(n), cutoff) == if cutoff < 0 then Zeros(n) else []
  {
    if n > 0 {
      AfterZeros(n - 1, cutoff);
      AfterSnoc(Zeros(n - 1), 0, cutoff);
      assert Zeros(n) == Zeros(n - 1) + [0];
    }
  }

  lemma {:induction false} ZerosInWindow(n: nat)
    ensures InWindow(Zeros(n), 0) == n
  {
    if n > 0 {
      ZerosInWindow(n - 1);
      InWindowSnoc(Zeros(n - 1), 0, 0);
    }
  }

  /** What one more message does to the map and to the record. */
  lemma RunSnoc(run: seq<Message>, msg: Message)
    ensures MapAfter(run + [msg]) == Checked(MapAfter(run), msg)
    ensures AllowedTimes(run + [msg], msg.user) ==
            Recorded(AllowedTimes(run, msg.user), Allows(MapAfter(run), msg), msg.at)
  {
    assert (run + [msg])[..|run|] == run;
  }

  lemma {:induction false} BurstIsAllowed(n: nat)
    requires n <= RATE_LIMIT_MAX
    ensures TimesOf(MapAfter(Burst(n)), "u") == AllowedTimes(Burst(n), "u") == Zeros(n)
  {
    if n > 0 {
      BurstIsAllowed(n - 1);
      AfterZeros(n - 1, -RATE_LIMIT_WINDOW_MS);
      RunSnoc(Burst(n - 1), Message("u", 0));
    }
  }

  /** Five messages at 0 and one an hour later, which makes the limiter forget them. */
  lemma BurstForgotten() returns (run: seq<Message>)
    ensures run == Burst(RATE_LIMIT_MAX) + [Message("u", RATE_LIMIT_WINDOW_MS)]
    ensures AllowedTimes(run, "u") == Zeros(RATE_LIMIT_MAX) + [RATE_LIMIT_WINDOW_MS]
    ensures TimesOf(MapAfter(run), "u") == [RATE_LIMIT_WINDOW_MS]
  {
    var late := Message("u", RATE_LIMIT_WINDOW_MS);
    run := Burst(RATE_LIMIT_MAX) + [late];
    BurstIsAllowed(RATE_LIMIT_MAX);
    AfterZeros(RATE_LIMIT_MAX, 0);
    RunSnoc(Burst(RATE_LIMIT_MAX), late);
    assert [] + [late.at] == [late.at];
  }

  lemma SixInFirstHour(late: int, at: int)
    requires late == RATE_LIMIT_WINDOW_MS && at == RATE_LIMIT_WINDOW_MS - 1
    ensures InWindow(Zeros(RATE_LIMIT_MAX) + [late] + [at], 0) == RATE_LIMIT_MAX + 1
  {
    ZerosInWindow(RATE_LIMIT_MAX);
    InWindowSnoc(Zeros(RATE_LIMIT_MAX), late, 0);
    InWindowSnoc(Zeros(RATE_LIMIT_MAX) + [late], at, 0);
  }

  /** Of the burst and the late message, the record still counts all and the limiter just the last. */
  lemma WhatIsLeft(late: int)
    requires late > -1
    ensures After([late], -1) == [late] && |After(Zeros(RATE_LIMIT_MAX) + [late], -1)| == RATE_LIMIT_MAX + 1
  {
    AfterZeros(RATE_LIMIT_MAX, -1);
    AfterSnoc(Zeros(RATE_LIMIT_MAX), late, -1);
    AfterSnoc([], late, -1);
    assert [] + [late] == [late];
  }

  /** A message stamped a millisecond earlier is then let through as the sixth of the first hour. */
  lemma BackwardClockLetsSixThrough() returns (run: seq<Message>, msg: Message)
    ensures StepsBackAtMost(1, run + [msg])
    ensures Allows(MapAfter(run), msg) && RefusedByRecord(run, msg)
    ensures InWindow(AllowedTimes(run + [msg], msg.user), 0) > RATE_LIMIT_MAX
  {
    run := BurstForgotten();
    msg := Message("u", RATE_LIMIT_WINDOW_MS - 1);
    WhatIsLeft(RATE_LIMIT_WINDOW_MS);
    AfterCounts(AllowedTimes(run, "u"), -1);
    RunSnoc(run, msg);
    SixInFirstHour(RATE_LIMIT_WINDOW_MS, msg.at);
  }

  /** The limit holds in every run, and the limiter decides every message as the full record would,
      exactly when the clock never steps back. */
  lemma LimitedIffClockForward(back: nat)
    ensures AlwaysLimited(back) <==> back == 0
    ensures AlwaysByRecord(back) <==> back == 0
  {
    if back == 0 {
      forall run, user, from | StepsBackAtMost(back, run)
        ensures InWindow(AllowedTimes(run, user), from) <= RATE_LIMIT_MAX
      {
        AtMostFivePerHour(run, user, from);
      }
      forall run, msg | StepsBackAtMost(back, run + [msg])
        ensures !Allows(MapAfter(run), msg) <==> RefusedByRecord(run, msg)
      {
        RefusedIffFiveInLastHour(run, msg);
      }
    } else {
      var run, msg := BackwardClockLetsSixThrough();
      assert StepsBackAtMost(back, run + [msg]);
    }
  }

  /** The map after one more message, and when it is let through. */
  lemma CheckedNext(run: seq<Message>, msg: Message)
    ensures MapAfter(run + [msg]) == Checked(MapAfter(run), msg)
    ensures ClockForward(run + [msg]) ==> (Allows(MapAfter(run), msg) <==> !RefusedByRecord(run, msg))
  {
    RunSnoc(run, msg);
    if ClockForward(run + [msg]) { RefusedIffFiveInLastHour(run, msg); }
  }

  method Filter(stored: seq<int>, cutoff: int) returns (times: seq<int>)
    ensures times == After(stored, cutoff)
  {
    times := [];
    for i := 0 to |stored|
      invariant times == After(stored[..i], cutoff)
    {
      assert stored[..i + 1][..i] == stored[..i];
      if stored[i] > cutoff {
        times := times + [stored[i]];
      }
    }
    assert stored[..|stored|] == stored;
  }

  class Limiter {
    var rateLimitMap: map<string, seq<int>>
    ghost var run: seq<Message>

    ghost predicate IsCurrent()
      reads this
    {
      rateLimitMap == MapAfter(run)
    }

    constructor ()
      ensures IsCurrent() && run == []
    {
      rateLimitMap, run := map[], [];
    }

    method CheckRateLimit(user: string, now: int) returns (allowed: bool)
      requires IsCurrent()
      modifies this
      ensures IsCurrent() && run == old(run) + [Message(user, now)]
      ensures allowed == Allows(old(rateLimitMap), Message(user, now))
      ensures ClockForward(run) ==> (allowed <==> !RefusedByRecord(old(run), Message(user, now)))
    {
      var windowStart := now - RATE_LIMIT_WINDOW_MS;
      var stored := if user in rateLimitMap then rateLimitMap[user] else [];
      var times := Filter(stored, windowStart);
      CheckedNext(run, Message(user, now));
      run := run + [Message(user, now)];
      allowed := |times| < RATE_LIMIT_MAX;
      if allowed {
        times := times + [now];
        rateLimitMap := rateLimitMap[user := times];
      }
    }
  }
}
