/** acquireLock and releaseLock (lib/redis.ts) for one resource.  SETNX, the reply, GET and DEL
    are separate steps; the caller may time out before or after its SETNX lands; a release may
    be skipped because the circuit is open, or lose its DEL. */
module DistributedLock {
  import opened Wrappers

  datatype Held = Held(token: string, deadline: real)

  datatype Caller =
    | Requested(token: string, ttl: real)               // SETNX sent, caller waits
    | Abandoned(token: string, ttl: real)               // caller gave up, SETNX may still land
    | Answered(token: string, deadline: real, won: bool) // SETNX landed, reply on its way
    | Holding(token: string, deadline: real)            // acquired: true
    | Releasing(token: string, deadline: real)          // GET matched, DEL not landed
    | Done

  /** `minted` is history: the tokens ever generated. */
  datatype State = State(now: real, key: Option<Held>, callers: map<nat, Caller>, minted: set<string>)

  datatype Step =
    | Tick(dt: real)
    | Request(c: nat, token: string, ttl: real)
    | LandSetNx(c: nat)
    | TimeOut(c: nat)
    | Reply(c: nat)
    | SkipRelease(c: nat)
    | GetForRelease(c: nat)
    | LandDel(c: nat)
    | LoseDel(c: nat)

  const INIT := State(0.0, None, map[], {})

  predicate KeyLive(s: State) { s.key.Some? && s.now < s.key.value.deadline }

  predicate Enabled(s: State, step: Step) {
    match step
    case Tick(dt) => 0.0 <= dt
    case Request(c, t, ttl) => c !in s.callers && t !in s.minted && 0.0 < ttl
    case LandSetNx(c) => c in s.callers && (s.callers[c].Requested? || s.callers[c].Abandoned?)
    case TimeOut(c) => c in s.callers && (s.callers[c].Requested? || s.callers[c].Answered?)
    case Reply(c) => c in s.callers && s.callers[c].Answered?
    case SkipRelease(c) => c in s.callers && s.callers[c].Holding?
    case GetForRelease(c) => c in s.callers && s.callers[c].Holding?
    case LandDel(c) => c in s.callers && s.callers[c].Releasing?
    case LoseDel(c) => c in s.callers && s.callers[c].Releasing?
  }

  function Next(s: State, step: Step): State
    requires Enabled(s, step)
  {
    match step
    case Tick(dt) => s.(now := s.now + dt)
    case Request(c, t, ttl) => s.(callers := s.callers[c := Requested(t, ttl)], minted := s.minted + {t})
    case LandSetNx(c) =>
      var w := s.callers[c];
      var won := !KeyLive(s);
      State(s.now,
            if won then Some(Held(w.token, s.now + w.ttl)) else s.key,
            s.callers[c := if w.Abandoned? then Done else Answered(w.token, s.now + w.ttl, won)],
            s.minted)
    case TimeOut(c) =>
      var w := s.callers[c];
      s.(callers := s.callers[c := if w.Requested? then Abandoned(w.token, w.ttl) else Done])
    case Reply(c) =>
      var w := s.callers[c];
      s.(callers := s.callers[c := if w.won then Holding(w.token, w.deadline) else Done])
    case SkipRelease(c) => s.(callers := s.callers[c := Done])
    case GetForRelease(c) =>
      var w := s.callers[c];
      var matches := KeyLive(s) && s.key.value.token == w.token;
      s.(callers := s.callers[c := if matches then Releasing(w.token, w.deadline) else Done])
    case LandDel(c) => s.(key := None, callers := s.callers[c := Done])
    case LoseDel(c) => s.(callers := s.callers[c := Done])
  }

  /** How long past its own deadline a caller may still hold, and its DEL may still land. */
  datatype Slack = Slack(hold: real, del: real)

  /** Nobody holds, or is told that it holds, once its own deadline plus the slack has come. */
  ghost predicate HoldsInTime(slack: Slack, s: State, step: Step) {
    && (step.Tick? ==>
          forall c :: c in s.callers && s.callers[c].Holding? ==> s.now + step.dt < s.callers[c].deadline + slack.hold)
    && (step.Reply? && step.c in s.callers && s.callers[step.c].Answered? && s.callers[step.c].won ==>
          s.now < s.callers[step.c].deadline + slack.hold)
  }

  /** A DEL lands before its caller's deadline plus the slack. */
  predicate DelInTime(slack: Slack, s: State, step: Step) {
    step.LandDel? && step.c in s.callers && s.callers[step.c].Releasing? ==>
      s.now < s.callers[step.c].deadline + slack.del
  }

  ghost predicate Timely(slack: Slack, s: State, step: Step) {
    Enabled(s, step) && HoldsInTime(slack, s, step) && DelInTime(slack, s, step)
  }

  ghost predicate IsRun(slack: Slack, s: State, steps: seq<Step>)
    decreases |steps|
  {
    steps == [] || (Timely(slack, s, steps[0]) && IsRun(slack, Next(s, steps[0]), steps[1..]))
  }

  ghost function Exec(slack: Slack, s: State, steps: seq<Step>): State
    requires IsRun(slack, s, steps)
    decreases |steps|
  {
    if steps == [] then s else Exec(slack, Next(s, steps[0]), steps[1..])
  }

  ghost predicate MutuallyExclusive(s: State) {
    forall c, d :: c in s.callers && d in s.callers && s.callers[c].Holding? && s.callers[d].Holding? ==> c == d
  }

  // ---------------------------------------------------------------------------
  // Safety
  // ---------------------------------------------------------------------------

  /** The caller's SETNX set the key and its DEL has not landed. */
  predicate Owns(w: Caller) {
    w.Holding? || w.Releasing? || (w.Answered? && w.won)
  }

  ghost predicate TokensApart(s: State) {
    && (forall c :: c in s.callers && !s.callers[c].Done? ==> s.callers[c].token in s.minted)
    && (forall c, d | c in s.callers && d in s.callers && c != d && !s.callers[c].Done? && !s.callers[d].Done? ::
          s.callers[c].token != s.callers[d].token)
  }

  /** Until its deadline, the key is still the owner's. */
  ghost predicate OwnersKeepKey(s: State) {
    forall c :: c in s.callers && Owns(s.callers[c]) && s.now < s.callers[c].deadline ==>
      s.key == Some(Held(s.callers[c].token, s.callers[c].deadline))
  }

  ghost predicate HoldersInTime(s: State) {
    forall c :: c in s.callers && s.callers[c].Holding? ==> s.now < s.callers[c].deadline
  }

  ghost predicate Inv(s: State) {
    TokensApart(s) && OwnersKeepKey(s) && HoldersInTime(s)
  }

  lemma TokensApartStep(s: State, step: Step)
    requires Inv(s) && Enabled(s, step)
    ensures TokensApart(Next(s, step))
  {
  }

  lemma OwnersKeepKeyStep(slack: Slack, s: State, step: Step)
    requires Inv(s) && Timely(slack, s, step) && slack.del <= 0.0
    ensures OwnersKeepKey(Next(s, step))
  {
  }

  lemma {:induction false} InvRun(slack: Slack, s: State, steps: seq<Step>)
    requires Inv(s) && IsRun(slack, s, steps) && slack.hold <= 0.0 && slack.del <= 0.0
    ensures Inv(Exec(slack, s, steps))
    decreases |steps|
  {
    if steps != [] {
      TokensApartStep(s, steps[0]);
      OwnersKeepKeyStep(slack, s, steps[0]);
      InvRun(slack, Next(s, steps[0]), steps[1..]);
    }
  }

  /** With unique tokens, if every caller stops holding and every DEL lands before that caller's
      own deadline, no two callers ever hold the lock together. */
  lemma NoTwoHolders(slack: Slack, steps: seq<Step>)
    requires slack.hold <= 0.0 && slack.del <= 0.0
    requires IsRun(slack, INIT, steps)
    ensures MutuallyExclusive(Exec(slack, INIT, steps))
  {
    InvRun(slack, INIT, steps);
  }

  /** A step changes one caller at most; the key changes when a SETNX lands on a free key, and goes
      when a DEL lands, whoever holds it. */
  lemma StepTouchesOneCaller(s: State, step: Step)
    requires Enabled(s, step)
    ensures var s' := Next(s, step);
            && (forall d :: (step.Tick? || d != step.c) ==>
                  (d in s.callers <==> d in s'.callers) && (d in s.callers ==> s'.callers[d] == s.callers[d]))
            && (step.LandDel? ==> s'.key == None)
            && (!step.LandDel? && !step.LandSetNx? ==> s'.key == s.key)
            && (step.LandDel? || step.LoseDel? || step.SkipRelease? ==> s'.callers[step.c] == Done)
  {
  }

  // ---------------------------------------------------------------------------
  // Both conditions are needed
  // ---------------------------------------------------------------------------

  ghost predicate AlwaysExclusive(slack: Slack) {
    forall steps | IsRun(slack, INIT, steps) :: MutuallyExclusive(Exec(slack, INIT, steps))
  }

  lemma Then(slack: Slack, steps: seq<Step>, s: State, step: Step) returns (more: seq<Step>, end: State)
    requires IsRun(slack, INIT, steps) && Exec(slack, INIT, steps) == s && Timely(slack, s, step)
    ensures IsRun(slack, INIT, more) && Exec(slack, INIT, more) == end == Next(s, step)
  {
    more, end := steps + [step], Next(s, step);
    Snoc(slack, INIT, steps, s, step);
  }

  lemma Snoc(slack: Slack, s: State, steps: seq<Step>, mid: State, step: Step)
    requires IsRun(slack, s, steps) && Exec(slack, s, steps) == mid && Timely(slack, mid, step)
    ensures IsRun(slack, s, steps + [step]) && Exec(slack, s, steps + [step]) == Next(mid, step)
    decreases |steps|
  {
    if steps == [] {
      assert steps + [step] == [step];
    } else {
      assert (steps + [step])[1..] == steps[1..] + [step];
      Snoc(slack, Next(s, steps[0]), steps[1..], mid, step);
    }
  }

  /** The three steps by which a caller acquires a free key, on the state alone. */
  lemma AcquireSteps(slack: Slack, s: State, c: nat, token: string, ttl: real) returns (s1: State, s2: State, s3: State)
    requires c !in s.callers && token !in s.minted && !KeyLive(s) && 0.0 < ttl && 0.0 < ttl + slack.hold
    ensures Timely(slack, s, Request(c, token, ttl)) && s1 == Next(s, Request(c, token, ttl))
    ensures Timely(slack, s1, LandSetNx(c)) && s2 == Next(s1, LandSetNx(c))
    ensures Timely(slack, s2, Reply(c)) && s3 == Next(s2, Reply(c))
    ensures s3 == State(s.now, Some(Held(token, s.now + ttl)), s.callers[c := Holding(token, s.now + ttl)],
                        s.minted + {token})
  {
    s1 := Next(s, Request(c, token, ttl));
    s2 := Next(s1, LandSetNx(c));
    s3 := Next(s2, Reply(c));
    assert s3.callers == s.callers[c := Holding(token, s.now + ttl)];
  }

  lemma Acquire(slack: Slack, steps: seq<Step>, s: State, c: nat, token: string, ttl: real)
    returns (more: seq<Step>, end: State)
    requires IsRun(slack, INIT, steps) && Exec(slack, INIT, steps) == s
    requires c !in s.callers && token !in s.minted && !KeyLive(s) && 0.0 < ttl && 0.0 < ttl + slack.hold
    ensures IsRun(slack, INIT, more) && Exec(slack, INIT, more) == end
    ensures end == State(s.now, Some(Held(token, s.now + ttl)), s.callers[c := Holding(token, s.now + ttl)],
                         s.minted + {token})
  {
    var s1, s2, s3 := AcquireSteps(slack, s, c, token, ttl);
    more, end := Then(slack, steps, s, Request(c, token, ttl));
    more, end := Then(slack, more, s1, LandSetNx(c));
    more, end := Then(slack, more, s2, Reply(c));
  }

  /** Caller 0 still holds at its deadline, when caller 1 acquires. */
  lemma LateHolder(slack: Slack) returns (steps: seq<Step>, s: State)
    requires 0.0 < slack.hold
    ensures IsRun(slack, INIT, steps) && s == Exec(slack, INIT, steps) && !MutuallyExclusive(s)
  {
    steps, s := Acquire(slack, [], INIT, 0, "a", 30.0);
    steps, s := Then(slack, steps, s, Tick(30.0));
    steps, s := Acquire(slack, steps, s, 1, "b", 30.0);
    assert s.callers[0].Holding? && s.callers[1].Holding?;
  }

  /** Caller 0 reads its token back in time but its DEL lands at its deadline: it deletes the key
      of caller 1, and caller 2 acquires while caller 1 holds. */
  lemma LateDel(slack: Slack) returns (steps: seq<Step>, s: State)
    requires slack.hold <= 0.0 < slack.del
    ensures IsRun(slack, INIT, steps) && s == Exec(slack, INIT, steps) && !MutuallyExclusive(s)
  {
    var ttl := 30.0 - slack.hold;
    steps, s := Acquire(slack, [], INIT, 0, "a", ttl);
    steps, s := Then(slack, steps, s, GetForRelease(0));
    steps, s := Then(slack, steps, s, Tick(ttl));
    steps, s := Acquire(slack, steps, s, 1, "b", ttl);
    steps, s := Then(slack, steps, s, LandDel(0));
    steps, s := Acquire(slack, steps, s, 2, "c", ttl);
    assert s.callers[1].Holding? && s.callers[2].Holding?;
  }

  /** The lock excludes in every run exactly when neither a holder nor a DEL may outlast its
      caller's own deadline. */
  lemma ExclusiveIffInTime(slack: Slack)
    ensures AlwaysExclusive(slack) <==> slack.hold <= 0.0 && slack.del <= 0.0
  {
    if slack.hold <= 0.0 && slack.del <= 0.0 {
      forall steps | IsRun(slack, INIT, steps)
        ensures MutuallyExclusive(Exec(slack, INIT, steps))
      {
        NoTwoHolders(slack, steps);
      }
    } else if slack.hold <= 0.0 {
      var _, _ := LateDel(slack);
    } else {
      var _, _ := LateHolder(slack);
    }
  }

  // ---------------------------------------------------------------------------
  // The store and its commands
  // ---------------------------------------------------------------------------

  /** What befalls a releaseLock: refused by the breaker, or its DEL arrives or is lost. */
  datatype Release = NotAdmitted | Arrives | DelLost

  /** What befalls an acquireLock: refused by the breaker, answered in time, or timed out after
      or before its SETNX landed. */
  datatype Attempt = CircuitOpen | InTime | ReplyLost | InFlight

  class LockStore {
    var now: real
    var key: Option<Held>
    var callers: map<nat, Caller>
    ghost var minted: set<string>

    ghost function View(): State
      reads this
    {
      State(now, key, callers, minted)
    }

    constructor ()
      ensures View() == INIT
    {
      now, key, callers, minted := 0.0, None, map[], {};
    }

    method SetNx(c: nat) returns (acquired: bool)
      requires Enabled(View(), LandSetNx(c))
      modifies this
      ensures View() == Next(old(View()), LandSetNx(c))
      ensures acquired <==> old(key).None? || old(key).value.deadline <= now
      ensures var w := old(callers)[c];
              && key == (if acquired then Some(Held(w.token, now + w.ttl)) else old(key))
              && callers == old(callers)[c := if w.Abandoned? then Done else Answered(w.token, now + w.ttl, acquired)]
    {
      var w := callers[c];
      acquired := key.None? || key.value.deadline <= now;
      if acquired {
        key := Some(Held(w.token, now + w.ttl));
      }
      callers := callers[c := if w.Abandoned? then Done else Answered(w.token, now + w.ttl, acquired)];
    }

    /** acquireLock.  Only an answer in time can acquire, although the key may have been set. */
    method AcquireLock(c: nat, token: string, ttl: real, attempt: Attempt) returns (acquired: bool)
      requires Enabled(View(), Request(c, token, ttl))
      modifies this
      ensures attempt == CircuitOpen ==> View() == old(View())
      ensures var asked := Next(old(View()), Request(c, token, ttl));
              && (attempt == InTime ==> View() == Next(Next(asked, LandSetNx(c)), Reply(c)))
              && (attempt == ReplyLost ==> View() == Next(Next(asked, LandSetNx(c)), TimeOut(c)))
              && (attempt == InFlight ==> View() == Next(asked, TimeOut(c)))
      ensures acquired <==> attempt == InTime && (old(key).None? || old(key).value.deadline <= now)
      ensures attempt == CircuitOpen || attempt == InFlight ==> key == old(key)
      ensures attempt == InTime || attempt == ReplyLost ==>
                key == if old(key).None? || old(key).value.deadline <= now
                       then Some(Held(token, now + ttl)) else old(key)
      ensures attempt == InFlight ==> callers == old(callers)[c := Abandoned(token, ttl)]
      ensures attempt == ReplyLost || (attempt == InTime && !acquired) ==> callers == old(callers)[c := Done]
      ensures acquired ==>
                key == Some(Held(token, now + ttl)) && callers == old(callers)[c := Holding(token, now + ttl)]
      ensures !acquired ==>
                forall d :: d in callers && callers[d].Holding? ==> d in old(callers) && old(callers)[d].Holding?
    {
      if attempt == CircuitOpen {
        return false;
      }
      callers := callers[c := Requested(token, ttl)];
      minted := minted + {token};
      if attempt == InFlight {
        callers := callers[c := Abandoned(token, ttl)];
        return false;
      }
      var won := SetNx(c);
      if attempt == ReplyLost {
        callers := callers[c := Done];
        return false;
      }
      callers := callers[c := if won then Holding(token, callers[c].deadline) else Done];
      return won;
    }

    method GetToken(c: nat) returns (matches: bool)
      requires Enabled(View(), GetForRelease(c))
      modifies this
      ensures View() == Next(old(View()), GetForRelease(c))
      ensures matches <==>
              old(key).Some? && now < old(key).value.deadline && old(key).value.token == old(callers)[c].token
      ensures matches <==> Enabled(View(), LandDel(c))
    {
      var w := callers[c];
      matches := key.Some? && now < key.value.deadline && key.value.token == w.token;
      callers := callers[c := if matches then Releasing(w.token, w.deadline) else Done];
    }

    /** releaseLock when nothing interleaves: it deletes the key exactly when the call is admitted,
        the key still holds the caller's token and the DEL arrives. */
    method ReleaseLock(c: nat, release: Release)
      requires c in callers && callers[c].Holding?
      modifies this
      ensures View() == if release == NotAdmitted then Next(old(View()), SkipRelease(c))
                        else
                          var s := Next(old(View()), GetForRelease(c));
                          if !Enabled(s, LandDel(c)) then s
                          else Next(s, if release == Arrives then LandDel(c) else LoseDel(c))
      ensures callers == old(callers)[c := Done]
      ensures key == if release == Arrives && old(key).Some? && now < old(key).value.deadline &&
                        old(key).value.token == old(callers)[c].token
                     then None else old(key)
    {
      if release == NotAdmitted {
        callers := callers[c := Done];
        return;
      }
      var matches := GetToken(c);
      if matches {
        if release == Arrives {
          key := None;
        }
        callers := callers[c := Done];
      }
    }
  }
}
