/** The RPC connection pool (rpc/rpcPool.ts).  A request walks the endpoints from the pointer it
    read; each turn and each completed send is a step, and requests interleave at their awaits.
    Endpoints are named by position, since their URLs are distinct. */
module RpcPool {
  import opened Wrappers

  datatype Endpoint = Endpoint(
    healthy: bool, consecutiveFailures: nat, lastFailureAt: Option<int>, totalRequests: nat, totalFailures: nat)

  const FRESH_ENDPOINT := Endpoint(true, 0, None, 0, 0)

  /** What a request's turn at an endpoint came to, with the endpoint's health when the turn began. */
  datatype Turn = Skipped(wasHealthy: bool) | Failed(wasHealthy: bool) | Answered(wasHealthy: bool)

  /** `wasHealthy` is history. */
  datatype Phase = Looping | Sending(wasHealthy: bool) | Returned | Threw

  /** `turns` is history; its length is the loop's `offset`. */
  datatype Request = Request(start: nat, turns: seq<Turn>, phase: Phase)

  datatype Pool = Pool(endpoints: seq<Endpoint>, current: nat, requests: seq<Request>)

  datatype Config = Config(failureThreshold: nat, recoveryTimeoutMs: int)

  datatype Step =
    | Open
    | TakeTurn(r: nat, now: int)
    | Complete(r: nat, ok: bool, now: int)
    | Observe(now: int)          // getStatus, healthyCount
    | PickActive(now: int)       // activeUrl

  // ---------------------------------------------------------------------------
  // Endpoint records
  // ---------------------------------------------------------------------------

  function Recovered(cfg: Config, ep: Endpoint, now: int): Endpoint {
    if !ep.healthy && ep.lastFailureAt.Some? && now - ep.lastFailureAt.value >= cfg.recoveryTimeoutMs
    then ep.(healthy := true, consecutiveFailures := 0) else ep
  }

  function RecoverAll(cfg: Config, eps: seq<Endpoint>, now: int): (r: seq<Endpoint>)
    ensures |r| == |eps| && forall i :: 0 <= i < |eps| ==> r[i] == Recovered(cfg, eps[i], now)
  {
    seq(|eps|, i requires 0 <= i < |eps| => Recovered(cfg, eps[i], now))
  }

  function Succeeded(ep: Endpoint): Endpoint {
    ep.(consecutiveFailures := 0, totalRequests := ep.totalRequests + 1, healthy := true)
  }

  function FailedOnce(cfg: Config, ep: Endpoint, now: int): Endpoint {
    Endpoint(ep.healthy && ep.consecutiveFailures + 1 < cfg.failureThreshold,
             ep.consecutiveFailures + 1, Some(now), ep.totalRequests + 1, ep.totalFailures + 1)
  }

  /** The endpoint visited at an offset. */
  function Index(start: nat, offset: nat, n: nat): nat {
    if n == 0 then 0 else (start + offset) % n
  }

  /** The endpoints a request has sent to. */
  function Tried(q: Request, n: nat): set<nat> {
    set p | 0 <= p < |q.turns| && !q.turns[p].Skipped? :: Index(q.start, p, n)
  }

  /** The first healthy endpoint from `from` on, around the ring; `from` itself if there is none. */
  function FirstHealthy(eps: seq<Endpoint>, from: nat, offset: nat): nat
    requires |eps| > 0 && offset <= |eps|
    decreases |eps| - offset
  {
    if offset == |eps| then from
    else if eps[Index(from, offset, |eps|)].healthy then Index(from, offset, |eps|)
    else FirstHealthy(eps, from, offset + 1)
  }

  // ---------------------------------------------------------------------------
  // Steps
  // ---------------------------------------------------------------------------

  predicate Enabled(s: Pool, step: Step) {
    |s.endpoints| > 0 &&
    match step
    case TakeTurn(r, _) => r < |s.requests| && s.requests[r].phase == Looping
    case Complete(r, _, _) => r < |s.requests| && s.requests[r].phase.Sending?
    case _ => true
  }

  function Next(cfg: Config, s: Pool, step: Step): Pool
    requires Enabled(s, step)
  {
    var n := |s.endpoints|;
    match step
    case Open => s.(requests := s.requests + [Request(s.current, [], Looping)])
    case Observe(now) => s.(endpoints := RecoverAll(cfg, s.endpoints, now))
    case PickActive(now) =>
      var eps := RecoverAll(cfg, s.endpoints, now);
      s.(endpoints := eps, current := FirstHealthy(eps, s.current, 0))
    case TakeTurn(r, now) =>
      var q := s.requests[r];
      if |q.turns| >= n then s.(requests := s.requests[r := q.(phase := Threw)])
      else
        var eps := RecoverAll(cfg, s.endpoints, now);
        var i := Index(q.start, |q.turns|, n);
        var q' := if i in Tried(q, n) || !eps[i].healthy
                  then q.(turns := q.turns + [Skipped(eps[i].healthy)])
                  else q.(phase := Sending(eps[i].healthy));
        s.(endpoints := eps, requests := s.requests[r := q'])
    case Complete(r, ok, now) =>
      var q := s.requests[r];
      var i := Index(q.start, |q.turns|, n);
      if ok then
        Pool(s.endpoints[i := Succeeded(s.endpoints[i])],
             if |q.turns| == 0 then (i + 1) % n else s.current,
             s.requests[r := Request(q.start, q.turns + [Answered(q.phase.wasHealthy)], Returned)])
      else
        s.(endpoints := s.endpoints[i := FailedOnce(cfg, s.endpoints[i], now)],
           requests := s.requests[r := Request(q.start, q.turns + [Failed(q.phase.wasHealthy)], Looping)])
  }

  ghost predicate IsRun(cfg: Config, s: Pool, steps: seq<Step>)
    decreases |steps|
  {
    steps == [] || (Enabled(s, steps[0]) && IsRun(cfg, Next(cfg, s, steps[0]), steps[1..]))
  }

  ghost function Exec(cfg: Config, s: Pool, steps: seq<Step>): Pool
    requires IsRun(cfg, s, steps)
    decreases |steps|
  {
    if steps == [] then s else Exec(cfg, Next(cfg, s, steps[0]), steps[1..])
  }

  function Init(n: nat): Pool { Pool(seq(n, _ => FRESH_ENDPOINT), 0, []) }

  // ---------------------------------------------------------------------------
  // The walk around the ring
  // ---------------------------------------------------------------------------

  lemma IndexCases(start: nat, offset: nat, n: nat)
    requires start < n && offset < n
    ensures Index(start, offset, n) == if start + offset < n then start + offset else start + offset - n
  {
    if start + offset >= n { ModOnce(start + offset, n); } else { ModNone(start + offset, n); }
  }

  lemma ModNone(a: nat, n: nat)
    requires a < n
    ensures a % n == a
  {
  }

  lemma ModOnce(a: nat, n: nat)
    requires n <= a < 2 * n
    ensures a % n == a - n
  {
    var q, r := a / n, a % n;
    assert a == n * q + r && 0 <= r < n;
    if q >= 2 { MulAtLeast(n, q, 2); }
    if q <= 0 { MulAtLeast(n, 0, q); }
  }

  lemma MulAtLeast(n: nat, x: int, y: int)
    requires x >= y
    ensures n * x >= n * y
  {
  }

  /** Different offsets visit different endpoints. */
  lemma IndexInjective(start: nat, p: nat, q: nat, n: nat)
    requires start < n && p < n && q < n && p != q
    ensures Index(start, p, n) != Index(start, q, n)
  {
    IndexCases(start, p, n);
    IndexCases(start, q, n);
  }

  /** The offset at which a request from `start` reaches endpoint `i`. */
  function OffsetOf(start: nat, i: nat, n: nat): nat
    requires start < n && i < n
  {
    if start <= i then i - start else i + n - start
  }

  lemma OffsetOfIndex(start: nat, i: nat, n: nat)
    requires start < n && i < n
    ensures OffsetOf(start, i, n) < n && Index(start, OffsetOf(start, i, n), n) == i
  {
    IndexCases(start, OffsetOf(start, i, n), n);
  }

  // ---------------------------------------------------------------------------
  // Health
  // ---------------------------------------------------------------------------

  predicate HealthOk(cfg: Config, ep: Endpoint) {
    && (ep.healthy <==> ep.consecutiveFailures < cfg.failureThreshold)
    && (!ep.healthy ==> ep.lastFailureAt.Some?)
  }

  /** An endpoint is skipped exactly when it is unhealthy. */
  predicate TurnOk(t: Turn) { t.Skipped? <==> !t.wasHealthy }

  predicate RequestOk(q: Request, n: nat) {
    && q.start < n
    && |q.turns| <= n
    && (q.phase.Sending? ==> |q.turns| < n && q.phase.wasHealthy)
    && (q.phase == Threw ==> |q.turns| == n)
    && (q.phase == Returned ==> q.turns != [] && q.turns[|q.turns| - 1].Answered?)
    && (forall t :: t in q.turns ==> TurnOk(t))
    && forall p :: 0 <= p < |q.turns| && q.turns[p].Answered? ==> q.phase == Returned && p == |q.turns| - 1
  }

  ghost predicate Inv(cfg: Config, s: Pool) {
    && s.current < |s.endpoints|
    && (cfg.failureThreshold >= 1 ==> forall i :: 0 <= i < |s.endpoints| ==> HealthOk(cfg, s.endpoints[i]))
    && (forall r :: 0 <= r < |s.requests| ==> RequestOk(s.requests[r], |s.endpoints|))
  }

  /** The `tried` set never excludes an endpoint: the walk has not been there before. */
  lemma NotTried(q: Request, n: nat)
    requires q.start < n && |q.turns| < n
    ensures Index(q.start, |q.turns|, n) !in Tried(q, n)
  {
    forall p | 0 <= p < |q.turns|
      ensures Index(q.start, p, n) != Index(q.start, |q.turns|, n)
    {
      IndexInjective(q.start, p, |q.turns|, n);
    }
  }

  lemma FirstHealthyInRange(eps: seq<Endpoint>, from: nat, offset: nat)
    requires |eps| > 0 && offset <= |eps| && from < |eps|
    ensures FirstHealthy(eps, from, offset) < |eps|
    decreases |eps| - offset
  {
  }

  lemma TakeTurnInv(cfg: Config, s: Pool, r: nat, now: int)
    requires Inv(cfg, s) && Enabled(s, TakeTurn(r, now))
    ensures Inv(cfg, Next(cfg, s, TakeTurn(r, now)))
  {
    assert RequestOk(s.requests[r], |s.endpoints|);
    if |s.requests[r].turns| < |s.endpoints| { NotTried(s.requests[r], |s.endpoints|); }
  }

  lemma InvStep(cfg: Config, s: Pool, step: Step)
    requires Inv(cfg, s) && Enabled(s, step)
    ensures Inv(cfg, Next(cfg, s, step)) && |Next(cfg, s, step).endpoints| == |s.endpoints|
  {
    match step
    case Open =>
    case Observe(now) =>
    case PickActive(now) => FirstHealthyInRange(RecoverAll(cfg, s.endpoints, now), s.current, 0);
    case TakeTurn(r, now) => TakeTurnInv(cfg, s, r, now);
    case Complete(r, ok, now) => assert RequestOk(s.requests[r], |s.endpoints|);
  }

  // ---------------------------------------------------------------------------
  // Conservation of sends
  // ---------------------------------------------------------------------------

  /** Completed sends of a request to endpoint `i`; with `failed`, only the failed ones. */
  function Sends(q: Request, i: nat, n: nat, failed: bool): nat {
    SendsIn(q.start, q.turns, i, n, failed)
  }

  function SendsIn(start: nat, turns: seq<Turn>, i: nat, n: nat, failed: bool): nat {
    if turns == [] then 0
    else
      var p := |turns| - 1;
      SendsIn(start, turns[..p], i, n, failed) +
      (if Index(start, p, n) == i && !turns[p].Skipped? && (failed ==> turns[p].Failed?) then 1 else 0)
  }

  function TotalSends(qs: seq<Request>, i: nat, n: nat, failed: bool): nat {
    if qs == [] then 0
    else TotalSends(qs[..|qs| - 1], i, n, failed) + Sends(qs[|qs| - 1], i, n, failed)
  }

  lemma {:induction false} TotalAfterUpdate(qs: seq<Request>, r: nat, q: Request, i: nat, n: nat, failed: bool)
    requires r < |qs| && n > 0
    ensures TotalSends(qs[r := q], i, n, failed) + Sends(qs[r], i, n, failed) ==
            TotalSends(qs, i, n, failed) + Sends(q, i, n, failed)
  {
    var k := |qs| - 1;
    if r == k {
      assert qs[r := q][..k] == qs[..k];
    } else {
      assert qs[r := q][..k] == qs[..k][r := q];
      TotalAfterUpdate(qs[..k], r, q, i, n, failed);
    }
  }

  function Tally(ep: Endpoint, failed: bool): nat {
    if failed then ep.totalFailures else ep.totalRequests
  }

  /** Every counter equals the number of completed sends recorded by the requests. */
  ghost predicate Conserved(s: Pool) {
    |s.endpoints| > 0 &&
    forall i, failed :: 0 <= i < |s.endpoints| ==>
      Tally(s.endpoints[i], failed) == TotalSends(s.requests, i, |s.endpoints|, failed)
  }

  /** A step keeps the difference between the counter of `i` and the sends to `i`. */
  ghost predicate Balanced(s: Pool, s': Pool, i: nat, failed: bool) {
    i < |s.endpoints| == |s'.endpoints| &&
    Tally(s'.endpoints[i], failed) + TotalSends(s.requests, i, |s.endpoints|, failed) ==
    Tally(s.endpoints[i], failed) + TotalSends(s'.requests, i, |s.endpoints|, failed)
  }

  lemma TakeTurnBalances(cfg: Config, s: Pool, r: nat, now: int, i: nat, failed: bool)
    requires Enabled(s, TakeTurn(r, now)) && i < |s.endpoints|
    ensures Balanced(s, Next(cfg, s, TakeTurn(r, now)), i, failed)
  {
    var s', n := Next(cfg, s, TakeTurn(r, now)), |s.endpoints|;
    var q, q' := s.requests[r], s'.requests[r];
    TotalAfterUpdate(s.requests, r, q', i, n, failed);
    if q'.turns != q.turns { SendsSnoc(q.start, q.turns, q'.turns[|q.turns|], i, n, failed); }
  }

  lemma CompleteBalances(cfg: Config, s: Pool, r: nat, ok: bool, now: int, i: nat, failed: bool)
    requires Enabled(s, Complete(r, ok, now)) && i < |s.endpoints|
    ensures Balanced(s, Next(cfg, s, Complete(r, ok, now)), i, failed)
  {
    var s', n := Next(cfg, s, Complete(r, ok, now)), |s.endpoints|;
    var q, q' := s.requests[r], s'.requests[r];
    TotalAfterUpdate(s.requests, r, q', i, n, failed);
    SendsSnoc(q.start, q.turns, q'.turns[|q.turns|], i, n, failed);
  }

  lemma TallyStep(cfg: Config, s: Pool, step: Step, i: nat, failed: bool)
    requires Enabled(s, step) && i < |s.endpoints|
    ensures |Next(cfg, s, step).endpoints| == |s.endpoints| && Balanced(s, Next(cfg, s, step), i, failed)
  {
    match step
    case Open => assert Next(cfg, s, step).requests[..|s.requests|] == s.requests;
    case Observe(_) =>
    case PickActive(_) =>
    case TakeTurn(r, now) => TakeTurnBalances(cfg, s, r, now, i, failed);
    case Complete(r, ok, now) => CompleteBalances(cfg, s, r, ok, now, i, failed);
  }

  lemma SendsSnoc(start: nat, turns: seq<Turn>, t: Turn, i: nat, n: nat, failed: bool)
    ensures SendsIn(start, turns + [t], i, n, failed) == SendsIn(start, turns, i, n, failed) +
            (if Index(start, |turns|, n) == i && !t.Skipped? && (failed ==> t.Failed?) then 1 else 0)
  {
    assert (turns + [t])[..|turns|] == turns;
  }

  lemma ConservedStep(cfg: Config, s: Pool, step: Step)
    requires Conserved(s) && Enabled(s, step)
    ensures Conserved(Next(cfg, s, step))
  {
    forall i, failed | 0 <= i < |s.endpoints|
      ensures |Next(cfg, s, step).endpoints| == |s.endpoints|
      ensures Tally(Next(cfg, s, step).endpoints[i], failed) ==
              TotalSends(Next(cfg, s, step).requests, i, |s.endpoints|, failed)
    {
      TallyStep(cfg, s, step, i, failed);
    }
    TallyStep(cfg, s, step, 0, true);
  }

  // ---------------------------------------------------------------------------
  // Theorems
  // ---------------------------------------------------------------------------

  lemma RunKeeps(cfg: Config, s: Pool, steps: seq<Step>)
    requires Inv(cfg, s) && Conserved(s) && IsRun(cfg, s, steps)
    ensures Inv(cfg, Exec(cfg, s, steps)) && Conserved(Exec(cfg, s, steps))
    ensures |Exec(cfg, s, steps).endpoints| == |s.endpoints|
    decreases |steps|
  {
    if steps != [] {
      InvStep(cfg, s, steps[0]);
      ConservedStep(cfg, s, steps[0]);
      RunKeeps(cfg, Next(cfg, s, steps[0]), steps[1..]);
    }
  }

  /** In every interleaving an endpoint is healthy exactly while its consecutive failures are
      below a threshold of at least one, and its totals count the completed sends of all requests. */
  lemma HealthAndTotals(cfg: Config, n: nat, steps: seq<Step>, i: nat)
    requires n > 0 && IsRun(cfg, Init(n), steps) && i < n
    ensures var s := Exec(cfg, Init(n), steps);
            && |s.endpoints| == n
            && (cfg.failureThreshold >= 1 ==>
                  (s.endpoints[i].healthy <==> s.endpoints[i].consecutiveFailures < cfg.failureThreshold))
            && s.endpoints[i].totalRequests == TotalSends(s.requests, i, n, false)
            && s.endpoints[i].totalFailures == TotalSends(s.requests, i, n, true)
  {
    RunKeeps(cfg, Init(n), steps);
    var s := Exec(cfg, Init(n), steps);
    assert Tally(s.endpoints[i], false) == TotalSends(s.requests, i, n, false);
    assert Tally(s.endpoints[i], true) == TotalSends(s.requests, i, n, true);
  }

  lemma {:induction false} SendsAtMostOnce(start: nat, turns: seq<Turn>, i: nat, n: nat)
    requires start < n && i < n && |turns| <= n
    ensures SendsIn(start, turns, i, n, false) <= 1
    ensures SendsIn(start, turns, i, n, false) == 1 ==> OffsetOf(start, i, n) < |turns|
  {
    if turns != [] {
      var p := |turns| - 1;
      SendsAtMostOnce(start, turns[..p], i, n);
      OffsetOfIndex(start, i, n);
      if Index(start, p, n) == i && OffsetOf(start, i, n) != p {
        IndexInjective(start, p, OffsetOf(start, i, n), n);
      }
    }
  }

  /** A request contacts an endpoint at most once and only one that was healthy when the turn
      began, returns exactly with the first answer, and one that threw found every endpoint
      unhealthy at its turn or saw it fail. */
  lemma RequestOutcome(cfg: Config, n: nat, steps: seq<Step>, r: nat, i: nat)
    requires n > 0 && IsRun(cfg, Init(n), steps) && i < n
    requires r < |Exec(cfg, Init(n), steps).requests|
    ensures var q := Exec(cfg, Init(n), steps).requests[r];
            && Sends(q, i, n, false) <= 1
            && (q.phase.Sending? ==> q.phase.wasHealthy)
            && (q.phase == Returned <==> exists p :: 0 <= p < |q.turns| && q.turns[p].Answered?)
            && (forall p :: 0 <= p < |q.turns| && q.turns[p].Answered? ==> p == |q.turns| - 1)
            && (forall p :: 0 <= p < |q.turns| ==> (q.turns[p].Skipped? <==> !q.turns[p].wasHealthy))
            && (q.phase == Threw ==>
                  exists p :: 0 <= p < |q.turns| && Index(q.start, p, n) == i &&
                              (q.turns[p] == Skipped(false) || q.turns[p] == Failed(true)))
  {
    RunKeeps(cfg, Init(n), steps);
    var q := Exec(cfg, Init(n), steps).requests[r];
    assert RequestOk(q, n);
    SendsAtMostOnce(q.start, q.turns, i, n);
    assert forall p :: 0 <= p < |q.turns| ==> q.turns[p] in q.turns && TurnOk(q.turns[p]);
    if q.phase == Threw {
      OffsetOfIndex(q.start, i, n);
      var p := OffsetOf(q.start, i, n);
      assert q.turns[p] in q.turns;
    }
  }

  // ---------------------------------------------------------------------------
  // Health as a reading of the sends
  // ---------------------------------------------------------------------------

  lemma {:induction false} PrefixRun(cfg: Config, s: Pool, steps: seq<Step>, p: nat)
    requires IsRun(cfg, s, steps) && p <= |steps|
    ensures IsRun(cfg, s, steps[..p])
    decreases |steps|
  {
    if p > 0 {
      PrefixRun(cfg, Next(cfg, s, steps[0]), steps[1..], p - 1);
      assert steps[..p][1..] == steps[1..][..p - 1];
    }
  }

  /** The pool before step `p`. */
  ghost function Before(cfg: Config, n: nat, steps: seq<Step>, p: nat): Pool
    requires IsRun(cfg, Init(n), steps) && p <= |steps|
  {
    PrefixRun(cfg, Init(n), steps, p);
    Exec(cfg, Init(n), steps[..p])
  }

  lemma {:induction false} RunUnsnoc(cfg: Config, s: Pool, steps: seq<Step>, step: Step)
    requires IsRun(cfg, s, steps + [step])
    ensures IsRun(cfg, s, steps) && Enabled(Exec(cfg, s, steps), step)
    ensures Exec(cfg, s, steps + [step]) == Next(cfg, Exec(cfg, s, steps), step)
    decreases |steps|
  {
    if steps == [] {
      assert steps + [step] == [step];
    } else {
      assert (steps + [step])[1..] == steps[1..] + [step];
      RunUnsnoc(cfg, Next(cfg, s, steps[0]), steps[1..], step);
    }
  }

  /** From `s`, the step completes a send to endpoint `i`. */
  predicate SendsTo(s: Pool, step: Step, i: nat) {
    && step.Complete? && step.r < |s.requests| && |s.endpoints| > 0
    && Index(s.requests[step.r].start, |s.requests[step.r].turns|, |s.endpoints|) == i
  }

  /** From `s`, the step first looks which endpoints may recover. */
  predicate Looks(s: Pool, step: Step) {
    match step
    case TakeTurn(r, _) => r < |s.requests| && |s.requests[r].turns| < |s.endpoints|
    case Observe(_) => true
    case PickActive(_) => true
    case _ => false
  }

  ghost predicate SentTo(cfg: Config, n: nat, steps: seq<Step>, i: nat, p: int, ok: bool) {
    && IsRun(cfg, Init(n), steps) && 0 <= p < |steps|
    && SendsTo(Before(cfg, n, steps, p), steps[p], i) && steps[p].ok == ok
  }

  /** The last failed send to `i` before step `p`. */
  ghost predicate LastFailed(cfg: Config, n: nat, steps: seq<Step>, i: nat, p: nat, q: int) {
    IsRun(cfg, Init(n), steps) &&
    q < p && SentTo(cfg, n, steps, i, q, false) && forall k :: q < k < p ==> !SentTo(cfg, n, steps, i, k, false)
  }

  /** Step `p` finds `i` unhealthy with its last failure at least the recovery timeout ago. */
  ghost predicate RecoversAt(cfg: Config, n: nat, steps: seq<Step>, i: nat, p: int) {
    && IsRun(cfg, Init(n), steps) && i < n
    && 0 <= p < |steps| && Looks(Before(cfg, n, steps, p), steps[p])
    && i < |Before(cfg, n, steps, p).endpoints| && !Before(cfg, n, steps, p).endpoints[i].healthy
    && exists q :: LastFailed(cfg, n, steps, i, p, q) && steps[p].now - steps[q].now >= cfg.recoveryTimeoutMs
  }

  /** A success or a recovery starts a new streak. */
  ghost predicate ResetAt(cfg: Config, n: nat, steps: seq<Step>, i: nat, p: int) {
    SentTo(cfg, n, steps, i, p, true) || RecoversAt(cfg, n, steps, i, p)
  }

  ghost predicate StreakFrom(cfg: Config, n: nat, steps: seq<Step>, i: nat, m: nat) {
    && IsRun(cfg, Init(n), steps) && i < n
    && m <= |steps| && (m == 0 || ResetAt(cfg, n, steps, i, m - 1))
    && forall p :: m <= p < |steps| ==> !ResetAt(cfg, n, steps, i, p)
  }

  /** Failed sends to `i` among the steps `m..p`. */
  ghost function FailedSends(cfg: Config, n: nat, steps: seq<Step>, i: nat, m: nat, p: nat): nat
    requires IsRun(cfg, Init(n), steps) && m <= p <= |steps|
  {
    if m == p then 0
    else FailedSends(cfg, n, steps, i, m, p - 1) + (if SentTo(cfg, n, steps, i, p - 1, false) then 1 else 0)
  }

  /** What one step does to an endpoint. */
  lemma EndpointNext(cfg: Config, s: Pool, step: Step, i: nat)
    requires Enabled(s, step) && i < |s.endpoints|
    ensures |Next(cfg, s, step).endpoints| == |s.endpoints|
    ensures var ep, ep' := s.endpoints[i], Next(cfg, s, step).endpoints[i];
            if SendsTo(s, step, i) && step.ok then
              ep'.consecutiveFailures == 0 && ep'.lastFailureAt == ep.lastFailureAt
            else if SendsTo(s, step, i) then
              ep'.consecutiveFailures == ep.consecutiveFailures + 1 && ep'.lastFailureAt == Some(step.now)
            else if Looks(s, step) && !ep.healthy && ep.lastFailureAt.Some? &&
                    step.now - ep.lastFailureAt.value >= cfg.recoveryTimeoutMs then
              ep'.consecutiveFailures == 0 && ep'.lastFailureAt == ep.lastFailureAt
            else
              ep'.consecutiveFailures == ep.consecutiveFailures && ep'.lastFailureAt == ep.lastFailureAt
  {
  }

  /** The history of a run is that of its prefix. */
  lemma BeforeSnoc(cfg: Config, n: nat, hist: seq<Step>, step: Step, p: nat)
    requires IsRun(cfg, Init(n), hist + [step]) && IsRun(cfg, Init(n), hist) && p <= |hist|
    ensures Before(cfg, n, hist + [step], p) == Before(cfg, n, hist, p)
  {
    assert (hist + [step])[..p] == hist[..p];
  }

  lemma SentSnoc(cfg: Config, n: nat, hist: seq<Step>, step: Step, i: nat, p: int, ok: bool)
    requires IsRun(cfg, Init(n), hist + [step]) && IsRun(cfg, Init(n), hist) && p < |hist|
    ensures SentTo(cfg, n, hist + [step], i, p, ok) <==> SentTo(cfg, n, hist, i, p, ok)
  {
    if 0 <= p { BeforeSnoc(cfg, n, hist, step, p); }
  }

  lemma LastFailedSnoc(cfg: Config, n: nat, hist: seq<Step>, step: Step, i: nat, p: nat, q: int)
    requires IsRun(cfg, Init(n), hist + [step]) && IsRun(cfg, Init(n), hist) && p <= |hist|
    ensures LastFailed(cfg, n, hist + [step], i, p, q) <==> LastFailed(cfg, n, hist, i, p, q)
  {
    forall k | k < p
      ensures SentTo(cfg, n, hist + [step], i, k, false) <==> SentTo(cfg, n, hist, i, k, false)
    {
      SentSnoc(cfg, n, hist, step, i, k, false);
    }
  }

  lemma ResetSnoc(cfg: Config, n: nat, hist: seq<Step>, step: Step, i: nat, p: int)
    requires IsRun(cfg, Init(n), hist + [step]) && IsRun(cfg, Init(n), hist) && p < |hist| && i < n
    ensures ResetAt(cfg, n, hist + [step], i, p) <==> ResetAt(cfg, n, hist, i, p)
  {
    SentSnoc(cfg, n, hist, step, i, p, true);
    if 0 <= p {
      BeforeSnoc(cfg, n, hist, step, p);
      forall q
        ensures LastFailed(cfg, n, hist + [step], i, p, q) <==> LastFailed(cfg, n, hist, i, p, q)
      {
        LastFailedSnoc(cfg, n, hist, step, i, p, q);
      }
    }
  }

  lemma {:induction false} FailedSendsSnoc(cfg: Config, n: nat, hist: seq<Step>, step: Step, i: nat, m: nat, p: nat)
    requires IsRun(cfg, Init(n), hist + [step]) && IsRun(cfg, Init(n), hist) && m <= p <= |hist|
    ensures FailedSends(cfg, n, hist + [step], i, m, p) == FailedSends(cfg, n, hist, i, m, p)
  {
    if m < p {
      FailedSendsSnoc(cfg, n, hist, step, i, m, p - 1);
      SentSnoc(cfg, n, hist, step, i, p - 1, false);
    }
  }

  /** The time stamp is that of the last failed send. */
  ghost predicate Stamped(cfg: Config, n: nat, steps: seq<Step>, i: nat, stamp: Option<int>) {
    IsRun(cfg, Init(n), steps) &&
    match stamp
    case None => forall q :: !SentTo(cfg, n, steps, i, q, false)
    case Some(t) => exists q :: LastFailed(cfg, n, steps, i, |steps|, q) && steps[q].now == t
  }

  lemma {:induction false} StampReading(cfg: Config, n: nat, steps: seq<Step>, i: nat)
    requires IsRun(cfg, Init(n), steps) && i < n
    ensures |Exec(cfg, Init(n), steps).endpoints| == n
    ensures Stamped(cfg, n, steps, i, Exec(cfg, Init(n), steps).endpoints[i].lastFailureAt)
  {
    if steps != [] {
      var hist, step := steps[..|steps| - 1], steps[|steps| - 1];
      assert steps == hist + [step];
      RunUnsnoc(cfg, Init(n), hist, step);
      StampReading(cfg, n, hist, i);
      var s := Exec(cfg, Init(n), hist);
      assert Before(cfg, n, steps, |hist|) == s;
      EndpointNext(cfg, s, step, i);
      StampNext(cfg, n, hist, step, i, s.endpoints[i].lastFailureAt);
    }
  }

  lemma StampNext(cfg: Config, n: nat, hist: seq<Step>, step: Step, i: nat, stamp: Option<int>)
    requires IsRun(cfg, Init(n), hist + [step]) && IsRun(cfg, Init(n), hist) && Stamped(cfg, n, hist, i, stamp)
    ensures Stamped(cfg, n, hist + [step], i,
                    if SentTo(cfg, n, hist + [step], i, |hist|, false) then Some(step.now) else stamp)
  {
    var steps := hist + [step];
    forall q | q < |hist|
      ensures SentTo(cfg, n, steps, i, q, false) <==> SentTo(cfg, n, hist, i, q, false)
    {
      SentSnoc(cfg, n, hist, step, i, q, false);
    }
    if SentTo(cfg, n, steps, i, |hist|, false) {
      assert LastFailed(cfg, n, steps, i, |steps|, |hist|);
    } else if stamp.Some? {
      var q :| LastFailed(cfg, n, hist, i, |hist|, q) && hist[q].now == stamp.value;
      assert LastFailed(cfg, n, steps, i, |steps|, q);
    }
  }

  /** In every interleaving the failure count is the number of failed sends since the last success or
      recovery, and with a threshold of at least one the endpoint is healthy exactly while that is
      below the threshold. */
  lemma {:induction false} HealthReading(cfg: Config, n: nat, steps: seq<Step>, i: nat) returns (m: nat)
    requires IsRun(cfg, Init(n), steps) && i < n && cfg.failureThreshold >= 1
    ensures StreakFrom(cfg, n, steps, i, m) && |Exec(cfg, Init(n), steps).endpoints| == n
    ensures var ep := Exec(cfg, Init(n), steps).endpoints[i];
            && ep.consecutiveFailures == FailedSends(cfg, n, steps, i, m, |steps|)
            && (ep.healthy <==> FailedSends(cfg, n, steps, i, m, |steps|) < cfg.failureThreshold)
  {
    HealthAndTotals(cfg, n, steps, i);
    if steps == [] {
      m := 0;
    } else {
      var hist, step := steps[..|steps| - 1], steps[|steps| - 1];
      assert steps == hist + [step];
      RunUnsnoc(cfg, Init(n), hist, step);
      m := HealthReading(cfg, n, hist, i);
      m := StreakNext(cfg, n, hist, step, i, m);
    }
  }

  lemma StreakNext(cfg: Config, n: nat, hist: seq<Step>, step: Step, i: nat, m: nat) returns (m': nat)
    requires IsRun(cfg, Init(n), hist + [step]) && IsRun(cfg, Init(n), hist) && i < n
    requires Enabled(Exec(cfg, Init(n), hist), step) && StreakFrom(cfg, n, hist, i, m)
    requires Exec(cfg, Init(n), hist + [step]) == Next(cfg, Exec(cfg, Init(n), hist), step)
    requires |Exec(cfg, Init(n), hist).endpoints| == n
    requires Exec(cfg, Init(n), hist).endpoints[i].consecutiveFailures == FailedSends(cfg, n, hist, i, m, |hist|)
    ensures StreakFrom(cfg, n, hist + [step], i, m')
    ensures |Exec(cfg, Init(n), hist + [step]).endpoints| == n
    ensures Exec(cfg, Init(n), hist + [step]).endpoints[i].consecutiveFailures ==
            FailedSends(cfg, n, hist + [step], i, m', |hist| + 1)
  {
    m' := if ResetAt(cfg, n, hist + [step], i, |hist|) then |hist| + 1 else m;
    StreakFromNext(cfg, n, hist, step, i, m);
    CountNext(cfg, n, hist, step, i);
    FailedSendsSnoc(cfg, n, hist, step, i, m, |hist|);
  }

  /** The count starts over with a reset and grows with a failed send. */
  lemma CountNext(cfg: Config, n: nat, hist: seq<Step>, step: Step, i: nat)
    requires IsRun(cfg, Init(n), hist + [step]) && IsRun(cfg, Init(n), hist) && i < n
    requires Enabled(Exec(cfg, Init(n), hist), step) && |Exec(cfg, Init(n), hist).endpoints| == n
    ensures var s := Exec(cfg, Init(n), hist); var s' := Next(cfg, s, step);
            && |s'.endpoints| == n
            && s'.endpoints[i].consecutiveFailures ==
               if ResetAt(cfg, n, hist + [step], i, |hist|) then 0
               else s.endpoints[i].consecutiveFailures +
                    (if SentTo(cfg, n, hist + [step], i, |hist|, false) then 1 else 0)
  {
    var steps, s := hist + [step], Exec(cfg, Init(n), hist);
    assert steps[..|hist|] == hist && Before(cfg, n, steps, |hist|) == s;
    EndpointNext(cfg, s, step, i);
    RecoveryReading(cfg, n, hist, step, i);
  }

  lemma StreakFromNext(cfg: Config, n: nat, hist: seq<Step>, step: Step, i: nat, m: nat)
    requires IsRun(cfg, Init(n), hist + [step]) && IsRun(cfg, Init(n), hist) && i < n
    requires StreakFrom(cfg, n, hist, i, m)
    ensures StreakFrom(cfg, n, hist + [step], i,
                       if ResetAt(cfg, n, hist + [step], i, |hist|) then |hist| + 1 else m)
  {
    forall p | p < |hist|
      ensures ResetAt(cfg, n, hist + [step], i, p) <==> ResetAt(cfg, n, hist, i, p)
    {
      ResetSnoc(cfg, n, hist, step, i, p);
    }
  }

  /** The step recovers `i` in the log exactly when it does so in the pool. */
  lemma RecoveryReading(cfg: Config, n: nat, hist: seq<Step>, step: Step, i: nat)
    requires IsRun(cfg, Init(n), hist + [step]) && IsRun(cfg, Init(n), hist) && i < n
    requires |Exec(cfg, Init(n), hist).endpoints| == n
    ensures var s := Exec(cfg, Init(n), hist);
            RecoversAt(cfg, n, hist + [step], i, |hist|) <==>
            && Looks(s, step) && !s.endpoints[i].healthy && s.endpoints[i].lastFailureAt.Some?
            && step.now - s.endpoints[i].lastFailureAt.value >= cfg.recoveryTimeoutMs
  {
    var steps, s := hist + [step], Exec(cfg, Init(n), hist);
    assert steps[..|hist|] == hist && Before(cfg, n, steps, |hist|) == s;
    StampReading(cfg, n, hist, i);
    forall q
      ensures LastFailed(cfg, n, steps, i, |hist|, q) <==> LastFailed(cfg, n, hist, i, |hist|, q)
    {
      LastFailedSnoc(cfg, n, hist, step, i, |hist|, q);
    }
    assert forall q, q' ::
      LastFailed(cfg, n, hist, i, |hist|, q) && LastFailed(cfg, n, hist, i, |hist|, q') ==> q == q';
  }

  /** The health that a turn records is the endpoint's after the turn has looked for recoveries. */
  lemma TurnHealth(cfg: Config, s: Pool, r: nat, now: int)
    requires Enabled(s, TakeTurn(r, now)) && |s.requests[r].turns| < |s.endpoints|
    requires s.requests[r].start < |s.endpoints|
    ensures var q, s' := s.requests[r], Next(cfg, s, TakeTurn(r, now));
            var healthy := s'.endpoints[Index(q.start, |q.turns|, |s.endpoints|)].healthy;
            s'.requests[r] == if healthy then q.(phase := Sending(true)) else q.(turns := q.turns + [Skipped(false)])
  {
    NotTried(s.requests[r], |s.endpoints|);
  }

  // ---------------------------------------------------------------------------
  // The pool
  // ---------------------------------------------------------------------------

  datatype Attempt = Attempt(turnAt: int, ok: bool, doneAt: int)

  lemma RunSnoc(cfg: Config, s: Pool, steps: seq<Step>, step: Step)
    requires IsRun(cfg, s, steps) && Enabled(Exec(cfg, s, steps), step)
    ensures IsRun(cfg, s, steps + [step])
    ensures Exec(cfg, s, steps + [step]) == Next(cfg, Exec(cfg, s, steps), step)
    decreases |steps|
  {
    if steps == [] {
      assert steps + [step] == [step];
    } else {
      assert (steps + [step])[1..] == steps[1..] + [step];
      RunSnoc(cfg, Next(cfg, s, steps[0]), steps[1..], step);
    }
  }

  lemma TriedSnoc(q: Request, t: Turn, n: nat)
    ensures Tried(q.(turns := q.turns + [t]), n) ==
            Tried(q, n) + (if t.Skipped? then {} else {Index(q.start, |q.turns|, n)})
  {
    var q' := q.(turns := q.turns + [t]);
    forall i | i in Tried(q, n) + (if t.Skipped? then {} else {Index(q.start, |q.turns|, n)})
      ensures i in Tried(q', n)
    {
      if i in Tried(q, n) {
        var p :| 0 <= p < |q.turns| && !q.turns[p].Skipped? && Index(q.start, p, n) == i;
        assert !q'.turns[p].Skipped?;
      } else {
        assert !q'.turns[|q.turns|].Skipped?;
      }
    }
  }

  class RpcConnectionPool {
    const cfg: Config
    const endpoints: array<Endpoint>
    var currentIndex: nat
    ghost var requests: seq<Request>

    ghost function View(): Pool
      reads this, endpoints
    {
      Pool(endpoints[..], currentIndex, requests)
    }

    constructor (config: Config, n: nat)
      requires n > 0
      ensures fresh(endpoints) && cfg == config && View() == Init(n)
    {
      cfg := config;
      endpoints := new Endpoint[n](_ => FRESH_ENDPOINT);
      currentIndex, requests := 0, [];
    }

    method MaybeRecoverEndpoints(now: int)
      modifies endpoints
      ensures endpoints[..] == RecoverAll(cfg, old(endpoints[..]), now)
      ensures forall i :: 0 <= i < endpoints.Length ==>
                var ep := old(endpoints[i]);
                endpoints[i] ==
                if !ep.healthy && ep.lastFailureAt.Some? && now - ep.lastFailureAt.value >= cfg.recoveryTimeoutMs
                then ep.(healthy := true, consecutiveFailures := 0) else ep
    {
      for i := 0 to endpoints.Length
        invariant forall j :: 0 <= j < i ==> endpoints[j] == Recovered(cfg, old(endpoints[j]), now)
        invariant forall j :: i <= j < endpoints.Length ==> endpoints[j] == old(endpoints[j])
      {
        var ep := endpoints[i];
        if !ep.healthy && ep.lastFailureAt.Some? && now - ep.lastFailureAt.value >= cfg.recoveryTimeoutMs {
          endpoints[i] := ep.(healthy := true, consecutiveFailures := 0);
        }
      }
    }

    method RecordSuccess(i: nat)
      requires i < endpoints.Length
      modifies endpoints
      ensures endpoints[..] == old(endpoints[..])[i := Succeeded(old(endpoints[i]))]
      ensures endpoints[i] == old(endpoints[i]).(healthy := true, consecutiveFailures := 0,
                                                 totalRequests := old(endpoints[i]).totalRequests + 1)
    {
      var ep := endpoints[i];
      ep := ep.(consecutiveFailures := 0, totalRequests := ep.totalRequests + 1);
      if !ep.healthy {
        ep := ep.(healthy := true);
      }
      endpoints[i] := ep;
    }

    method RecordFailure(i: nat, now: int)
      requires i < endpoints.Length
      modifies endpoints
      ensures endpoints[..] == old(endpoints[..])[i := FailedOnce(cfg, old(endpoints[i]), now)]
      ensures var ep := old(endpoints[i]);
              endpoints[i] == Endpoint(ep.healthy && ep.consecutiveFailures + 1 < cfg.failureThreshold,
                                       ep.consecutiveFailures + 1, Some(now),
                                       ep.totalRequests + 1, ep.totalFailures + 1)
    {
      var ep := endpoints[i];
      ep := ep.(consecutiveFailures := ep.consecutiveFailures + 1, totalFailures := ep.totalFailures + 1,
                totalRequests := ep.totalRequests + 1, lastFailureAt := Some(now));
      if ep.consecutiveFailures >= cfg.failureThreshold {
        ep := ep.(healthy := false);
      }
      endpoints[i] := ep;
    }

    method PickEndpoint(now: int) returns (picked: Option<nat>)
      requires 0 < endpoints.Length && currentIndex < endpoints.Length
      modifies this, endpoints
      ensures View() == Next(cfg, old(View()), PickActive(now))
      ensures picked.Some? ==> picked.value == currentIndex < endpoints.Length && endpoints[currentIndex].healthy
      ensures picked.Some? ==>
                exists k ::
                  0 <= k < endpoints.Length && Index(old(currentIndex), k, endpoints.Length) == currentIndex &&
                  forall p :: 0 <= p < k ==> !endpoints[Index(old(currentIndex), p, endpoints.Length)].healthy
      ensures picked.None? ==> currentIndex == old(currentIndex)
      ensures picked.None? ==> forall i :: 0 <= i < endpoints.Length ==> !endpoints[i].healthy
    {
      MaybeRecoverEndpoints(now);
      ghost var eps := endpoints[..];
      var total, from := endpoints.Length, currentIndex;
      for i := 0 to total
        invariant currentIndex == from && requests == old(requests) && endpoints[..] == eps
        invariant FirstHealthy(eps, from, 0) == FirstHealthy(eps, from, i)
        invariant forall p :: 0 <= p < i ==> !eps[Index(from, p, total)].healthy
      {
        var idx := (from + i) % total;
        if endpoints[idx].healthy {
          currentIndex := idx;
          assert Index(from, i, total) == currentIndex;
          return Some(idx);
        }
      }
      forall i | 0 <= i < total
        ensures !endpoints[i].healthy
      {
        OffsetOfIndex(from, i, total);
        assert !eps[Index(from, OffsetOf(from, i, total), total)].healthy;
      }
      return None;
    }

    /** The head of a loop turn of request `r` at endpoint `idx`, up to the send. */
    method BeginTurn(ghost r: nat, idx: nat, tried: set<nat>, now: int) returns (skip: bool)
      requires Enabled(View(), TakeTurn(r, now)) && |requests[r].turns| < endpoints.Length
      requires idx == Index(requests[r].start, |requests[r].turns|, endpoints.Length)
      requires tried == Tried(requests[r], endpoints.Length)
      modifies this, endpoints
      ensures View() == Next(cfg, old(View()), TakeTurn(r, now))
      ensures skip <==> idx in tried || !endpoints[idx].healthy
    {
      ghost var q := requests[r];
      MaybeRecoverEndpoints(now);
      skip := idx in tried || !endpoints[idx].healthy;
      requests := requests[r := if skip then q.(turns := q.turns + [Skipped(endpoints[idx].healthy)])
                                else q.(phase := Sending(endpoints[idx].healthy))];
    }

    /** The rest of the turn, once the send has answered or failed. */
    method FinishTurn(ghost r: nat, idx: nat, offset: nat, ok: bool, now: int)
      requires Enabled(View(), Complete(r, ok, now)) && offset == |requests[r].turns|
      requires idx == Index(requests[r].start, offset, endpoints.Length)
      modifies this, endpoints
      ensures View() == Next(cfg, old(View()), Complete(r, ok, now))
      ensures currentIndex == if ok && offset == 0 then (idx + 1) % endpoints.Length else old(currentIndex)
      ensures endpoints[idx].totalRequests == old(endpoints[idx]).totalRequests + 1
      ensures endpoints[idx].totalFailures == old(endpoints[idx]).totalFailures + (if ok then 0 else 1)
    {
      ghost var q := requests[r];
      if ok {
        RecordSuccess(idx);
        requests := requests[r := Request(q.start, q.turns + [Answered(q.phase.wasHealthy)], Returned)];
        if offset == 0 {
          currentIndex := (idx + 1) % endpoints.Length;
        }
      } else {
        RecordFailure(idx, now);
        requests := requests[r := Request(q.start, q.turns + [Failed(q.phase.wasHealthy)], Looping)];
      }
    }

    /** request when no other request interleaves.  `script[k]` is what the node does at offset k:
        the clock at the turn, whether the send succeeds, and the clock when it completes. */
    method SendRequest(script: seq<Attempt>) returns (served: Option<nat>, ghost trace: seq<Step>)
      requires |script| == endpoints.Length > 0 && currentIndex < endpoints.Length
      modifies this, endpoints
      ensures IsRun(cfg, old(View()), trace) && View() == Exec(cfg, old(View()), trace)
      ensures |requests| == |old(requests)| + 1
      ensures served.None? <==> requests[|old(requests)|].phase == Threw
      ensures served.Some? ==> served.value < endpoints.Length && endpoints[served.value].healthy &&
                               requests[|old(requests)|].phase == Returned
    {
      ghost var s0 := View();
      ghost var r := |requests|;
      var n, startIndex := endpoints.Length, currentIndex;
      RunSnoc(cfg, s0, [], Open);
      trace := [] + [Open];
      requests := requests + [Request(startIndex, [], Looping)];
      var tried: set<nat> := {};
      for offset := 0 to n
        invariant |requests| == r + 1
        invariant requests[r].start == startIndex && |requests[r].turns| == offset && requests[r].phase == Looping
        invariant tried == Tried(requests[r], n)
        invariant IsRun(cfg, s0, trace) && View() == Exec(cfg, s0, trace)
      {
        var a := script[offset];
        ghost var q := requests[r];
        RunSnoc(cfg, s0, trace, TakeTurn(r, a.turnAt));
        trace := trace + [TakeTurn(r, a.turnAt)];
        var idx := (startIndex + offset) % n;
        var skip := BeginTurn(r, idx, tried, a.turnAt);
        if skip {
          TriedSnoc(q, Skipped(endpoints[idx].healthy), n);
          continue;
        }
        RunSnoc(cfg, s0, trace, Complete(r, a.ok, a.doneAt));
        trace := trace + [Complete(r, a.ok, a.doneAt)];
        FinishTurn(r, idx, offset, a.ok, a.doneAt);
        if a.ok {
          return Some(idx), trace;
        }
        tried := tried + {idx};
        TriedSnoc(q, Failed(true), n);
      }
      RunSnoc(cfg, s0, trace, TakeTurn(r, 0));
      trace := trace + [TakeTurn(r, 0)];
      requests := requests[r := requests[r].(phase := Threw)];
      served := None;
    }
  }
}
