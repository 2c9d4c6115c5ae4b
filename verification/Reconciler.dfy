/** The event-log reconciler (backend/reconciler.ts) and its database adapter
    (backend/src/services/reconciler.ts). */
module Reconciler {
  import opened Wrappers
  import opened Keys
  import OM = OrderedMap

  datatype EventType = Subscribe | Executed | Cancel | Other
  datatype ChainEvent = ChainEvent(
    kind: EventType, subscriber: string, merchant: string, token: string, amount: int, timestamp: int)

  /** An amount in the database: a bigint, or text together with what BigInt makes of it
      (None where BigInt throws). */
  datatype Amount = Big(n: int) | Text(text: string, denotes: Option<int>)

  datatype Subscription = Subscription(
    subscriber: string, merchant: string, token: string, amount: Amount,
    interval: int, nextPayment: int, lastPaymentAt: Option<int>)

  datatype Repair =
    | Insert(record: Subscription)
    | Update(previous: Subscription, next: Subscription)
    | Delete(subscriber: string, merchant: string)

  datatype Error = NoPrecedingSubscribe(key: string, timestamp: int) | Orphan(key: string)

  /** What reconcile returns, or that an unreadable amount made it throw. */
  datatype Outcome = Report(repairs: seq<Repair>, errors: seq<Error>) | Threw

  type Expected = OM.Map<Option<Subscription>>
  type DB = OM.Map<Subscription>

  function EventKey(e: ChainEvent): string { Join(e.subscriber, e.merchant, e.token) }

  function RecordKey(r: Subscription): string { Join(r.subscriber, r.merchant, r.token) }

  function ToBigInt(a: Amount): Option<int> {
    match a
    case Big(n) => Some(n)
    case Text(_, d) => d
  }

  // ---------------------------------------------------------------------------
  // Replay
  // ---------------------------------------------------------------------------

  function Subscribed(e: ChainEvent, prev: Option<Subscription>, interval: int): Subscription {
    var iv := if prev.Some? then prev.value.interval else interval;
    Subscription(e.subscriber, e.merchant, e.token, Big(e.amount), iv, e.timestamp + iv,
                 if prev.Some? then prev.value.lastPaymentAt else None)
  }

  function Paid(e: ChainEvent, cur: Subscription): Subscription {
    cur.(amount := Big(e.amount), lastPaymentAt := Some(e.timestamp), nextPayment := e.timestamp + cur.interval)
  }

  /** `expected.get(key)`, with undefined and null both read as None. */
  function Want(x: Expected, k: string): Option<Subscription> {
    if k in x.vals then x.vals[k] else None
  }

  function ReplayEvent(x: Expected, e: ChainEvent, interval: int): Expected {
    var k := EventKey(e);
    match e.kind
    case Subscribe => OM.Put(x, k, Some(Subscribed(e, Want(x, k), interval)))
    case Executed => if Want(x, k).None? then x else OM.Put(x, k, Some(Paid(e, Want(x, k).value)))
    case Cancel => OM.Put(x, k, None)
    case Other => x
  }

  function WithReplayError(errors: seq<Error>, x: Expected, e: ChainEvent): seq<Error> {
    if e.kind == Executed && Want(x, EventKey(e)).None?
    then errors + [NoPrecedingSubscribe(EventKey(e), e.timestamp)] else errors
  }

  function Replay(events: seq<ChainEvent>, interval: int): Expected {
    if events == [] then OM.Map([], map[])
    else ReplayEvent(Replay(events[..|events| - 1], interval), events[|events| - 1], interval)
  }

  function ReplayErrors(events: seq<ChainEvent>, interval: int): seq<Error> {
    if events == [] then []
    else
      var front := events[..|events| - 1];
      WithReplayError(ReplayErrors(front, interval), Replay(front, interval), events[|events| - 1])
  }

  // ---------------------------------------------------------------------------
  // What a replay says about the log
  // ---------------------------------------------------------------------------

  predicate Is(e: ChainEvent, kind: EventType, k: string) { e.kind == kind && EventKey(e) == k }

  /** No cancel of `k` from position `i` on. */
  ghost predicate NoCancelFrom(events: seq<ChainEvent>, k: string, i: int) {
    forall j :: i <= j < |events| && 0 <= j ==> !Is(events[j], Cancel, k)
  }

  /** `k` was subscribed at `i` and not cancelled since. */
  ghost predicate SubscribedAt(events: seq<ChainEvent>, k: string, i: int) {
    0 <= i < |events| && Is(events[i], Subscribe, k) && NoCancelFrom(events, k, i)
  }

  ghost predicate IsSubscribed(events: seq<ChainEvent>, k: string) {
    exists i :: SubscribedAt(events, k, i)
  }

  lemma SubscribedSnoc(events: seq<ChainEvent>, k: string)
    requires events != []
    ensures var e := events[|events| - 1];
            IsSubscribed(events, k) <==>
              Is(e, Subscribe, k) || (IsSubscribed(events[..|events| - 1], k) && !Is(e, Cancel, k))
  {
    var n := |events| - 1;
    var front, e := events[..n], events[n];
    if Is(e, Subscribe, k) {
      assert SubscribedAt(events, k, n);
    } else {
      if IsSubscribed(front, k) && !Is(e, Cancel, k) {
        var i :| SubscribedAt(front, k, i);
        assert SubscribedAt(events, k, i);
      }
      if IsSubscribed(events, k) {
        var i :| SubscribedAt(events, k, i);
        assert SubscribedAt(front, k, i) && !Is(events[n], Cancel, k);
      }
    }
  }

  /** The last event of `k` that moves its payment date. */
  ghost predicate LastCharge(events: seq<ChainEvent>, k: string, j: int) {
    && 0 <= j < |events| && (Is(events[j], Subscribe, k) || Is(events[j], Executed, k))
    && forall i :: j < i < |events| ==> !Is(events[i], Subscribe, k) && !Is(events[i], Executed, k)
  }

  ghost predicate ChargedAt(events: seq<ChainEvent>, k: string, w: Subscription) {
    exists j :: LastCharge(events, k, j) && w.amount == Big(events[j].amount) &&
                w.nextPayment == events[j].timestamp + w.interval
  }

  /** The replay expects a record exactly for subscribed keys, and takes amount and next payment
      from the key's last subscribe or payment, one default interval later. */
  lemma {:induction false} ReplayReading(events: seq<ChainEvent>, interval: int, k: string)
    ensures Want(Replay(events, interval), k).Some? <==> IsSubscribed(events, k)
    ensures var w := Want(Replay(events, interval), k);
            w.Some? ==> w.value.interval == interval && ChargedAt(events, k, w.value)
  {
    if events != [] {
      var n := |events| - 1;
      var front, e := events[..n], events[n];
      ReplayReading(front, interval, k);
      SubscribedSnoc(events, k);
      var w, w' := Want(Replay(front, interval), k), Want(Replay(events, interval), k);
      if Is(e, Subscribe, k) || Is(e, Executed, k) {
        assert LastCharge(events, k, n);
      } else if w'.Some? {
        assert w' == w;
        var j :| LastCharge(front, k, j) && w.value.amount == Big(front[j].amount) &&
                 w.value.nextPayment == front[j].timestamp + w.value.interval;
        assert LastCharge(events, k, j);
      }
    }
  }

  /** A payment at `p` counts for the current subscription. */
  ghost predicate PaidAt(events: seq<ChainEvent>, k: string, p: int) {
    0 <= p < |events| && Is(events[p], Executed, k) && IsSubscribed(events[..p], k) && NoCancelFrom(events, k, p)
  }

  ghost predicate LastPaidAt(events: seq<ChainEvent>, k: string, p: int) {
    PaidAt(events, k, p) && forall q :: p < q < |events| ==> !PaidAt(events, k, q)
  }

  lemma PaidAtSnoc(events: seq<ChainEvent>, k: string, p: int)
    requires events != []
    ensures var n := |events| - 1;
            PaidAt(events, k, p) <==>
              if p == n then Is(events[n], Executed, k) && IsSubscribed(events[..n], k)
              else PaidAt(events[..n], k, p) && !Is(events[n], Cancel, k)
  {
    var n := |events| - 1;
    var front := events[..n];
    assert forall j :: 0 <= j < n ==> front[j] == events[j];
    if 0 <= p < n {
      assert front[..p] == events[..p];
    }
  }

  ghost predicate NotPaid(events: seq<ChainEvent>, k: string) {
    forall p :: !PaidAt(events, k, p)
  }

  lemma LastPaidSnoc(events: seq<ChainEvent>, k: string, p: int)
    requires events != [] && !Is(events[|events| - 1], Executed, k) && !Is(events[|events| - 1], Cancel, k)
    requires LastPaidAt(events[..|events| - 1], k, p)
    ensures LastPaidAt(events, k, p)
  {
    PaidAtSnoc(events, k, p);
    forall q | p < q < |events|
      ensures !PaidAt(events, k, q)
    {
      PaidAtSnoc(events, k, q);
    }
  }

  lemma NotPaidSnoc(events: seq<ChainEvent>, k: string)
    requires events != [] && NotPaid(events[..|events| - 1], k)
    requires Is(events[|events| - 1], Executed, k) ==> !IsSubscribed(events[..|events| - 1], k)
    ensures NotPaid(events, k)
  {
    forall p
      ensures !PaidAt(events, k, p)
    {
      PaidAtSnoc(events, k, p);
    }
  }

  /** What last_payment_at says about the log. */
  ghost predicate LastPaymentTold(events: seq<ChainEvent>, k: string, last: Option<int>) {
    match last
    case Some(t) => exists p :: LastPaidAt(events, k, p) && t == events[p].timestamp
    case None => NotPaid(events, k)
  }

  /** last_payment_at is the time of the last payment since the key was subscribed. */
  lemma {:induction false} LastPaymentReading(events: seq<ChainEvent>, interval: int, k: string)
    requires Want(Replay(events, interval), k).Some?
    ensures LastPaymentTold(events, k, Want(Replay(events, interval), k).value.lastPaymentAt)
  {
    if events != [] {
      var n := |events| - 1;
      var front, e := events[..n], events[n];
      var w := Want(Replay(front, interval), k);
      ReplayReading(front, interval, k);
      if w.None? {
        NeverPaid(front, k);
        NotPaidSnoc(events, k);
      } else {
        LastPaymentReading(front, interval, k);
        if Is(e, Executed, k) {
          PaidAtSnoc(events, k, n);
          assert LastPaidAt(events, k, n);
        } else if w.value.lastPaymentAt.Some? {
          var p :| LastPaidAt(front, k, p) && w.value.lastPaymentAt.value == front[p].timestamp;
          LastPaidSnoc(events, k, p);
        } else {
          NotPaidSnoc(events, k);
        }
      }
    }
  }

  /** Without a subscription no payment counts. */
  lemma NeverPaid(events: seq<ChainEvent>, k: string)
    requires !IsSubscribed(events, k)
    ensures NotPaid(events, k)
  {
    forall p | PaidAt(events, k, p)
      ensures false
    {
      var i :| SubscribedAt(events[..p], k, i);
      assert SubscribedAt(events, k, i);
    }
  }

  // ---------------------------------------------------------------------------
  // Diff
  // ---------------------------------------------------------------------------

  datatype Verdict = InSync | Fix(repair: Repair) | Unreadable

  /** recordsMatch; None where it throws. */
  function RecordsMatch(a: Subscription, b: Subscription): Option<bool> {
    if a.token != b.token then Some(false)
    else if ToBigInt(a.amount).None? || ToBigInt(b.amount).None? then None
    else Some(ToBigInt(a.amount) == ToBigInt(b.amount) && a.interval == b.interval &&
              a.nextPayment == b.nextPayment && a.lastPaymentAt == b.lastPaymentAt)
  }

  function Decide(key: string, have: Option<Subscription>, want: Option<Subscription>): Verdict
  {
    if want.None? then
      if have.None? then InSync else Fix(Delete(Part(key, 0), Part(key, 1)))
    else if have.None? then Fix(Insert(want.value))
    else
      var match_ := RecordsMatch(have.value, want.value);
      if match_.None? then Unreadable
      else if match_.value then InSync
      else Fix(Update(have.value, want.value))
  }

  /** `readOnly` is the ReadOnlySubscriptionDB wrapper, which discards writes. */
  function Write(db: DB, key: string, want: Option<Subscription>, readOnly: bool): DB
  {
    if readOnly then db
    else if want.None? then OM.Drop(db, Rejoin(key))
    else OM.Put(db, RecordKey(want.value), want.value)
  }

  datatype Progress = Progress(db: DB, repairs: seq<Repair>, threw: bool)

  /** One turn of the diff loop. */
  function Visit(p: Progress, key: string, want: Option<Subscription>, readOnly: bool): Progress
  {
    match Decide(key, OM.Get(p.db, Rejoin(key)), want)
    case InSync => p
    case Fix(r) => Progress(Write(p.db, key, want, readOnly), p.repairs + [r], false)
    case Unreadable => p.(threw := true)
  }

  /** A throw ends the loop. */
  function Turn(p: Progress, key: string, want: Option<Subscription>, readOnly: bool): Progress {
    if p.threw then p else Visit(p, key, want, readOnly)
  }

  /** A wanted record belongs to the key it is filed under. */
  predicate WellFiled(x: Expected, k: string) {
    k in x.vals && x.vals[k].Some? ==> RecordKey(x.vals[k].value) == k && x.vals[k].value.amount.Big?
  }

  ghost predicate Keyed(x: Expected) {
    OM.Valid(x) && forall k {:trigger WellFiled(x, k)} :: WellFiled(x, k)
  }

  /** The diff loop after `n` keys. */
  ghost function Diff(x: Expected, db: DB, readOnly: bool, n: nat): Progress
    requires OM.Valid(x) && n <= |x.keys|
  {
    if n == 0 then Progress(db, [], false)
    else
      Turn(Diff(x, db, readOnly, n - 1), x.keys[n - 1], x.vals[x.keys[n - 1]], readOnly)
  }

  /** The stored records, in order, whose key the replay never saw. */
  function Orphans(db: DB, keys: seq<string>, x: Expected): seq<Error>
    requires forall k :: k in keys ==> k in db.vals
  {
    if keys == [] then []
    else
      var k := RecordKey(db.vals[keys[0]]);
      if k in x.vals then Orphans(db, keys[1..], x) else [Orphan(k)] + Orphans(db, keys[1..], x)
  }

  lemma PutKeyed(x: Expected, k: string, w: Option<Subscription>)
    requires Keyed(x)
    requires w.Some? ==> RecordKey(w.value) == k && w.value.amount.Big?
    ensures Keyed(OM.Put(x, k, w))
  {
    OM.PutValid(x, k, w);
    forall j
      ensures WellFiled(OM.Put(x, k, w), j)
    {
      assert WellFiled(x, j);
    }
  }

  lemma {:induction false} ReplayKeyed(events: seq<ChainEvent>, interval: int)
    ensures Keyed(Replay(events, interval))
  {
    if events != [] {
      var e := events[|events| - 1];
      var x := Replay(events[..|events| - 1], interval);
      var k := EventKey(e);
      ReplayKeyed(events[..|events| - 1], interval);
      assert WellFiled(x, k);
      match e.kind
      case Subscribe => PutKeyed(x, k, Some(Subscribed(e, Want(x, k), interval)));
      case Executed => if Want(x, k).Some? { PutKeyed(x, k, Some(Paid(e, Want(x, k).value))); }
      case Cancel => PutKeyed(x, k, None);
      case Other =>
    }
  }

  /** reconcile: the new database and what is returned. */
  ghost function Reconcile(events: seq<ChainEvent>, db: DB, interval: int, readOnly: bool): (DB, Outcome)
    requires OM.Valid(db)
  {
    ReplayKeyed(events, interval);
    var x := Replay(events, interval);
    var p := Diff(x, db, readOnly, |x.keys|);
    DiffValid(x, db, readOnly, |x.keys|);
    (p.db, if p.threw then Threw else Report(p.repairs, ReplayErrors(events, interval) + Orphans(p.db, p.db.keys, x)))
  }

  lemma {:induction false} DiffValid(x: Expected, db: DB, readOnly: bool, n: nat)
    requires Keyed(x) && n <= |x.keys| && OM.Valid(db)
    ensures OM.Valid(Diff(x, db, readOnly, n).db)
  {
    if n > 0 {
      DiffValid(x, db, readOnly, n - 1);
      var p := Diff(x, db, readOnly, n - 1);
      var key := x.keys[n - 1];
      assert WellFiled(x, key);
      OM.DropValid(p.db, Rejoin(key));
      if x.vals[key].Some? { OM.PutValid(p.db, RecordKey(x.vals[key].value), x.vals[key].value); }
    }
  }

  // ---------------------------------------------------------------------------
  // What a diff does to the database
  // ---------------------------------------------------------------------------

  ghost predicate EventsColonFree(events: seq<ChainEvent>) {
    forall i :: 0 <= i < |events| ==> TripleColonFree(events[i].subscriber, events[i].merchant, events[i].token)
  }

  /** Every lookup of the diff hits the key it is made for. */
  ghost predicate Canonical(x: Expected) {
    Keyed(x) && forall k {:trigger FindsItself(k)} :: k in x.vals ==> FindsItself(k)
  }

  predicate FindsItself(k: string) { Rejoin(k) == k }

  lemma {:induction false} ReplayCanonical(events: seq<ChainEvent>, interval: int)
    requires EventsColonFree(events)
    ensures Canonical(Replay(events, interval))
  {
    ReplayKeyed(events, interval);
    if events != [] {
      var e := events[|events| - 1];
      ReplayCanonical(events[..|events| - 1], interval);
      RejoinIsIdentity(e.subscriber, e.merchant, e.token);
      assert FindsItself(EventKey(e));
    }
  }

  /** The stored amount is the number `n`, as a bigint or as text. */
  predicate HoldsNumber(a: Amount, n: int) {
    match a
    case Big(m) => m == n
    case Text(_, d) => d == Some(n)
  }

  /** The stored record has the token, amount, interval and dates of the wanted one. */
  predicate SameRecord(have: Subscription, want: Subscription) {
    && have.token == want.token
    && want.amount.Big? && HoldsNumber(have.amount, want.amount.n)
    && have.interval == want.interval
    && have.nextPayment == want.nextPayment
    && have.lastPaymentAt == want.lastPaymentAt
  }

  /** The database agrees with the replay at `key`. */
  ghost predicate Agrees(x: Expected, db: DB, key: string) {
    key in x.vals &&
    if x.vals[key].None? then key !in db.vals
    else key in db.vals && SameRecord(db.vals[key], x.vals[key].value)
  }

  /** One turn of the writing loop settles its key and no other. */
  lemma VisitSettles(x: Expected, p: Progress, key: string)
    requires Canonical(x) && key in x.vals
    ensures var q := Visit(p, key, x.vals[key], false);
            && (!q.threw ==> Agrees(x, q.db, key))
            && (forall k :: k != key ==> OM.Get(q.db, k) == OM.Get(p.db, k))
            && OM.Outside(q.db.keys, x.vals.Keys) == OM.Outside(p.db.keys, x.vals.Keys)
  {
    assert WellFiled(x, key) && FindsItself(key);
    OM.OutsideSnoc(p.db.keys, key, x.vals.Keys);
    OM.OutsideWithout(p.db.keys, key, x.vals.Keys);
  }

  lemma AgreesFrame(x: Expected, d: DB, d': DB, key: string)
    requires key in x.vals && Agrees(x, d, key) && OM.Get(d, key) == OM.Get(d', key)
    ensures Agrees(x, d', key)
  {
  }

  /** Both loops have found the same so far. */
  predicate SameFindings(p: Progress, q: Progress) { p.repairs == q.repairs && p.threw == q.threw }

  /** With the same record at its key, a read-only turn reports what a writing turn does. */
  lemma TurnReportsTheSame(p: Progress, q: Progress, key: string, want: Option<Subscription>)
    requires OM.Get(p.db, Rejoin(key)) == OM.Get(q.db, Rejoin(key)) && SameFindings(p, q)
    ensures SameFindings(Turn(p, key, want, false), Turn(q, key, want, true))
  {
  }

  /** A turn for `key` may write at `k`: it puts under the key and deletes under the lookup. */
  predicate MayWrite(key: string, k: string) { k == key || k == Rejoin(key) }

  /** None of the first `n` turns may write at `k`. */
  ghost predicate NotVisited(keys: seq<string>, n: nat, k: string) {
    n <= |keys| &&
    forall i :: 0 <= i < n ==> !MayWrite(keys[i], k)
  }

  /** No turn writes where a later turn looks. */
  ghost predicate LookupsApart(x: Expected) {
    Keyed(x) && forall n :: 0 <= n < |x.keys| ==> NotVisited(x.keys, n, Rejoin(x.keys[n]))
  }

  lemma CanonicalApart(x: Expected)
    requires Canonical(x)
    ensures LookupsApart(x)
  {
    forall n, i | 0 <= i < n < |x.keys|
      ensures !MayWrite(x.keys[i], Rejoin(x.keys[n]))
    {
      assert x.keys[i] in x.vals && x.keys[n] in x.vals && x.keys[i] != x.keys[n];
      assert FindsItself(x.keys[i]) && FindsItself(x.keys[n]);
    }
  }

  /** Keys at which none of the first `n` turns writes hold what they held. */
  ghost predicate Untouched(d: DB, d': DB, keys: seq<string>, n: nat) {
    n <= |keys| &&
    forall k :: NotVisited(keys, n, k) ==> OM.Get(d', k) == OM.Get(d, k)
  }

  lemma TurnTouches(p: Progress, key: string, want: Option<Subscription>, k: string)
    requires want.Some? ==> RecordKey(want.value) == key
    requires !MayWrite(key, k)
    ensures OM.Get(Turn(p, key, want, false).db, k) == OM.Get(p.db, k)
  {
  }

  lemma UntouchedNext(d: DB, p: Progress, x: Expected, n: nat)
    requires Keyed(x) && n < |x.keys| && Untouched(d, p.db, x.keys, n)
    ensures Untouched(d, Turn(p, x.keys[n], x.vals[x.keys[n]], false).db, x.keys, n + 1)
  {
    var key := x.keys[n];
    assert WellFiled(x, key);
    forall k | NotVisited(x.keys, n + 1, k)
      ensures OM.Get(Turn(p, key, x.vals[key], false).db, k) == OM.Get(d, k)
    {
      assert !MayWrite(key, k) && NotVisited(x.keys, n, k);
      TurnTouches(p, key, x.vals[key], k);
    }
  }

  lemma {:induction false} DiffTouches(x: Expected, db: DB, n: nat)
    requires Keyed(x) && n <= |x.keys|
    ensures Untouched(db, Diff(x, db, false, n).db, x.keys, n)
  {
    if n > 0 {
      DiffTouches(x, db, n - 1);
      UntouchedNext(db, Diff(x, db, false, n - 1), x, n - 1);
    } else {
      assert Diff(x, db, false, n).db == db;
    }
  }

  lemma {:induction false} DiffKeepsOutside(x: Expected, db: DB, n: nat)
    requires Canonical(x) && n <= |x.keys|
    ensures OM.Outside(Diff(x, db, false, n).db.keys, x.vals.Keys) == OM.Outside(db.keys, x.vals.Keys)
  {
    if n > 0 {
      DiffKeepsOutside(x, db, n - 1);
      assert x.keys[n - 1] in x.vals;
      VisitSettles(x, Diff(x, db, false, n - 1), x.keys[n - 1]);
    }
  }

  /** The writing loop finds at key `n` what was there at the start. */
  lemma LookupUntouched(x: Expected, db: DB, n: nat)
    requires LookupsApart(x) && n < |x.keys|
    ensures OM.Get(Diff(x, db, false, n).db, Rejoin(x.keys[n])) == OM.Get(db, Rejoin(x.keys[n]))
  {
    DiffTouches(x, db, n);
    assert NotVisited(x.keys, n, Rejoin(x.keys[n]));
  }

  lemma DiffReportsNext(x: Expected, db: DB, n: nat)
    requires OM.Valid(x) && n < |x.keys|
    requires OM.Get(Diff(x, db, false, n).db, Rejoin(x.keys[n])) == OM.Get(db, Rejoin(x.keys[n]))
    requires Diff(x, db, true, n).db == db
    requires SameFindings(Diff(x, db, false, n), Diff(x, db, true, n))
    ensures SameFindings(Diff(x, db, false, n + 1), Diff(x, db, true, n + 1))
  {
    TurnReportsTheSame(Diff(x, db, false, n), Diff(x, db, true, n), x.keys[n], x.vals[x.keys[n]]);
  }

  lemma NoDiffYet(x: Expected, db: DB)
    requires OM.Valid(x)
    ensures SameFindings(Diff(x, db, false, 0), Diff(x, db, true, 0))
  {
  }

  /** After `n` keys the read-only diff has found the same as the writing diff. */
  lemma {:induction false} DiffReports(x: Expected, db: DB, n: nat)
    requires LookupsApart(x) && n <= |x.keys|
    ensures SameFindings(Diff(x, db, false, n), Diff(x, db, true, n))
  {
    if n == 0 {
      NoDiffYet(x, db);
    } else {
      DiffReports(x, db, n - 1);
      LookupUntouched(x, db, n - 1);
      DryDiffKeepsDB(x, db, n - 1);
      DiffReportsNext(x, db, n - 1);
    }
  }

  /** A diff that does not throw leaves the first `n` keys in agreement with the replay. */
  lemma {:induction false} DiffSettles(x: Expected, db: DB, n: nat)
    requires Canonical(x) && n <= |x.keys| && !Diff(x, db, false, n).threw
    ensures forall i :: 0 <= i < n ==> Agrees(x, Diff(x, db, false, n).db, x.keys[i])
  {
    if n > 0 {
      DiffSettles(x, db, n - 1);
      var p := Diff(x, db, false, n - 1);
      VisitSettles(x, p, x.keys[n - 1]);
      forall i | 0 <= i < n - 1
        ensures Agrees(x, Diff(x, db, false, n).db, x.keys[i])
      {
        AgreesFrame(x, p.db, Diff(x, db, false, n).db, x.keys[i]);
      }
    }
  }

  // ---------------------------------------------------------------------------
  // Theorems about reconcile
  // ---------------------------------------------------------------------------

  /** Every record is stored under its own key, as `upsert` does. */
  ghost predicate OwnKeys(db: DB) {
    OM.Valid(db) && forall k :: k in db.vals ==> RecordKey(db.vals[k]) == k
  }

  function OrphanErrors(keys: seq<string>): seq<Error> {
    if keys == [] then [] else [Orphan(keys[0])] + OrphanErrors(keys[1..])
  }

  lemma {:induction false} OrphansAreOutside(db: DB, keys: seq<string>, x: Expected)
    requires OwnKeys(db) && forall k :: k in keys ==> k in db.vals
    ensures Orphans(db, keys, x) == OrphanErrors(OM.Outside(keys, x.vals.Keys))
  {
    if keys != [] { OrphansAreOutside(db, keys[1..], x); }
  }

  lemma {:induction false} DiffOwnKeys(x: Expected, db: DB, readOnly: bool, n: nat)
    requires Keyed(x) && n <= |x.keys| && OwnKeys(db)
    ensures OwnKeys(Diff(x, db, readOnly, n).db)
  {
    DiffValid(x, db, readOnly, n);
    if n > 0 {
      DiffOwnKeys(x, db, readOnly, n - 1);
      assert WellFiled(x, x.keys[n - 1]);
    }
  }

  /** A dry run leaves the database as it is and reports exactly what the writing run reports. */
  lemma DryRunReportsTheSame(events: seq<ChainEvent>, db: DB, interval: int)
    requires EventsColonFree(events) && OwnKeys(db)
    ensures Reconcile(events, db, interval, true).0 == db
    ensures Reconcile(events, db, interval, true).1 == Reconcile(events, db, interval, false).1
  {
    ReplayCanonical(events, interval);
    var x := Replay(events, interval);
    var n := |x.keys|;
    CanonicalApart(x);
    DiffReports(x, db, n);
    DryDiffKeepsDB(x, db, n);
    DiffKeepsOutside(x, db, n);
    DiffOwnKeys(x, db, false, n);
    var p := Diff(x, db, false, n);
    OrphansAreOutside(p.db, p.db.keys, x);
    OrphansAreOutside(db, db.keys, x);
  }

  /** After reconcile every replayed key agrees with the replay and every other key is untouched. */
  lemma ReconcileRepairs(events: seq<ChainEvent>, db: DB, interval: int, k: string)
    requires EventsColonFree(events) && OM.Valid(db)
    requires Reconcile(events, db, interval, false).1.Report?
    ensures var x := Replay(events, interval); var db' := Reconcile(events, db, interval, false).0;
            if k in x.vals then Agrees(x, db', k) else OM.Get(db', k) == OM.Get(db, k)
  {
    ReplayCanonical(events, interval);
    var x := Replay(events, interval);
    DiffTouches(x, db, |x.keys|);
    DiffSettles(x, db, |x.keys|);
    if k in x.vals {
      assert k in x.keys;
    } else {
      forall i | 0 <= i < |x.keys|
        ensures !MayWrite(x.keys[i], k)
      {
        assert x.keys[i] in x.vals && FindsItself(x.keys[i]);
      }
    }
  }

  lemma {:induction false} NothingToDo(x: Expected, db: DB, readOnly: bool, n: nat)
    requires Canonical(x) && n <= |x.keys|
    requires forall i :: 0 <= i < n ==> Agrees(x, db, x.keys[i])
    ensures Diff(x, db, readOnly, n) == Progress(db, [], false)
  {
    if n > 0 {
      NothingToDo(x, db, readOnly, n - 1);
      assert FindsItself(x.keys[n - 1]) && WellFiled(x, x.keys[n - 1]);
    }
  }

  /** A second reconcile with the same events repairs nothing and repeats the errors. */
  lemma ReconcileIsIdempotent(events: seq<ChainEvent>, db: DB, interval: int)
    requires EventsColonFree(events) && OM.Valid(db)
    requires Reconcile(events, db, interval, false).1.Report?
    ensures var once := Reconcile(events, db, interval, false);
            && OM.Valid(once.0)
            && Reconcile(events, once.0, interval, false) == (once.0, Report([], once.1.errors))
  {
    ReplayCanonical(events, interval);
    var x := Replay(events, interval);
    DiffValid(x, db, false, |x.keys|);
    DiffSettles(x, db, |x.keys|);
    NothingToDo(x, Diff(x, db, false, |x.keys|).db, false, |x.keys|);
  }

  /** The stored amount under a wanted key is text that BigInt rejects. */
  ghost predicate UnreadableAt(x: Expected, db: DB, k: string) {
    && k in x.vals && x.vals[k].Some? && k in db.vals
    && db.vals[k].token == x.vals[k].value.token
    && db.vals[k].amount.Text? && db.vals[k].amount.denotes.None?
  }

  ghost predicate SomeUnreadable(x: Expected, db: DB) {
    exists k :: UnreadableAt(x, db, k)
  }

  lemma VisitThrows(x: Expected, p: Progress, key: string)
    requires Canonical(x) && key in x.vals && !p.threw
    ensures Visit(p, key, x.vals[key], true).threw <==> UnreadableAt(x, p.db, key)
  {
    assert WellFiled(x, key) && FindsItself(key);
  }

  ghost predicate UnreadableBefore(x: Expected, db: DB, n: nat) {
    n <= |x.keys| &&
    exists i :: 0 <= i < n && UnreadableAt(x, db, x.keys[i])
  }

  lemma UnreadableNext(x: Expected, db: DB, n: nat)
    requires n < |x.keys|
    ensures UnreadableBefore(x, db, n + 1) <==> UnreadableBefore(x, db, n) || UnreadableAt(x, db, x.keys[n])
  {
    if UnreadableBefore(x, db, n) {
      var i :| 0 <= i < n && UnreadableAt(x, db, x.keys[i]);
      assert UnreadableBefore(x, db, n + 1);
    }
  }

  lemma {:induction false} DryDiffKeepsDB(x: Expected, db: DB, n: nat)
    requires OM.Valid(x) && n <= |x.keys|
    ensures Diff(x, db, true, n).db == db
  {
    if n > 0 { DryDiffKeepsDB(x, db, n - 1); }
  }

  lemma {:induction false} DryDiffThrows(x: Expected, db: DB, n: nat)
    requires Canonical(x) && n <= |x.keys|
    ensures Diff(x, db, true, n).threw <==> UnreadableBefore(x, db, n)
  {
    if n > 0 {
      DryDiffThrows(x, db, n - 1);
      DryDiffThrowsNext(x, db, n);
      UnreadableNext(x, db, n - 1);
    }
  }

  lemma DryDiffThrowsNext(x: Expected, db: DB, n: nat)
    requires Canonical(x) && 0 < n <= |x.keys|
    ensures Diff(x, db, true, n).threw <==> Diff(x, db, true, n - 1).threw || UnreadableAt(x, db, x.keys[n - 1])
  {
    var p := Diff(x, db, true, n - 1);
    DryDiffKeepsDB(x, db, n - 1);
    if !p.threw { VisitThrows(x, p, x.keys[n - 1]); }
  }

  lemma DiffThrowsIff(x: Expected, db: DB)
    requires Canonical(x)
    ensures Diff(x, db, false, |x.keys|).threw <==> SomeUnreadable(x, db)
  {
    CanonicalApart(x);
    DiffReports(x, db, |x.keys|);
    DryDiffThrows(x, db, |x.keys|);
    if k :| UnreadableAt(x, db, k) {
      assert k in x.keys;
    }
  }

  /** reconcile throws exactly when some wanted key is stored with an unreadable amount. */
  lemma ReconcileThrowsIff(events: seq<ChainEvent>, db: DB, interval: int)
    requires EventsColonFree(events) && OM.Valid(db)
    ensures Reconcile(events, db, interval, false).1.Threw? <==> SomeUnreadable(Replay(events, interval), db)
  {
    ReplayCanonical(events, interval);
    DiffThrowsIff(Replay(events, interval), db);
  }

  // ---------------------------------------------------------------------------
  // What the report says
  // ---------------------------------------------------------------------------

  /** The repair that a key calls for, judged by the database as it was. */
  function RepairFor(x: Expected, db: DB, k: string): seq<Repair> {
    match (Want(x, k), OM.Get(db, k))
    case (None, None) => []
    case (None, Some(have)) => [Delete(have.subscriber, have.merchant)]
    case (Some(want), None) => [Insert(want)]
    case (Some(want), Some(have)) => if SameRecord(have, want) then [] else [Update(have, want)]
  }

  /** The repairs for the first `n` keys, in order. */
  function RepairsFor(x: Expected, db: DB, n: nat): seq<Repair>
    requires n <= |x.keys|
  {
    if n == 0 then [] else RepairsFor(x, db, n - 1) + RepairFor(x, db, x.keys[n - 1])
  }

  /** The names in a key that finds itself are those of any record stored under it. */
  lemma OwnParts(s: string, m: string, t: string)
    requires FindsItself(Join(s, m, t))
    ensures Part(Join(s, m, t), 0) == s && Part(Join(s, m, t), 1) == m
  {
    RejoinIsIdentity(s, m, t);
    SplitInvertsJoin(s, m, t);
  }

  lemma VisitRepairs(x: Expected, p: Progress, key: string)
    requires OM.Valid(x) && key in x.vals && WellFiled(x, key) && FindsItself(key)
    requires key in p.db.vals ==> RecordKey(p.db.vals[key]) == key
    ensures var q := Visit(p, key, x.vals[key], true);
            q.threw || q.repairs == p.repairs + RepairFor(x, p.db, key)
  {
    if key in p.db.vals {
      var have := p.db.vals[key];
      OwnParts(have.subscriber, have.merchant, have.token);
    }
  }

  lemma {:induction false} DryRepairs(x: Expected, db: DB, n: nat)
    requires Canonical(x) && OwnKeys(db) && n <= |x.keys| && !Diff(x, db, true, n).threw
    ensures Diff(x, db, true, n).repairs == RepairsFor(x, db, n)
  {
    if n > 0 {
      DryRepairs(x, db, n - 1);
      DryDiffKeepsDB(x, db, n - 1);
      var key := x.keys[n - 1];
      assert key in x.vals && WellFiled(x, key) && FindsItself(key);
      VisitRepairs(x, Diff(x, db, true, n - 1), key);
    }
  }

  /** Payments of keys that are not subscribed at the time, in order. */
  ghost function UnsubscribedPayments(events: seq<ChainEvent>, n: nat): seq<Error>
    requires n <= |events|
  {
    if n == 0 then []
    else
      var e := events[n - 1];
      if e.kind == Executed && !IsSubscribed(events[..n - 1], EventKey(e))
      then UnsubscribedPayments(events, n - 1) + [NoPrecedingSubscribe(EventKey(e), e.timestamp)]
      else UnsubscribedPayments(events, n - 1)
  }

  lemma {:induction false} ReplayErrorsReading(events: seq<ChainEvent>, interval: int, n: nat)
    requires n <= |events|
    ensures ReplayErrors(events[..n], interval) == UnsubscribedPayments(events, n)
  {
    if n > 0 {
      ReplayErrorsReading(events, interval, n - 1);
      ReplayReading(events[..n - 1], interval, EventKey(events[n - 1]));
      assert events[..n][..n - 1] == events[..n - 1];
    }
  }

  /** The keys that a log subscribes or cancels, each where it first does so. */
  function EnteredKeys(events: seq<ChainEvent>): seq<string> {
    if events == [] then []
    else
      var keys, e := EnteredKeys(events[..|events| - 1]), events[|events| - 1];
      if (e.kind == Subscribe || e.kind == Cancel) && EventKey(e) !in keys then keys + [EventKey(e)] else keys
  }

  lemma {:induction false} ReplayOrder(events: seq<ChainEvent>, interval: int)
    ensures Replay(events, interval).keys == EnteredKeys(events)
  {
    if events != [] {
      ReplayOrder(events[..|events| - 1], interval);
      ReplayKeyed(events[..|events| - 1], interval);
    }
  }

  /** The whole report, read off the log and the database: one repair per key that differs, in the
      order in which the log enters them, then the payments without a subscription, then the stored keys that the
      log never mentions.  It throws exactly when a wanted key is stored with unreadable amount. */
  lemma ReportReading(events: seq<ChainEvent>, db: DB, interval: int, readOnly: bool)
    requires EventsColonFree(events) && OwnKeys(db)
    ensures var x := Replay(events, interval);
            Reconcile(events, db, interval, readOnly).1 ==
            if SomeUnreadable(x, db) then Threw
            else Report(RepairsFor(x, db, |x.keys|),
                        UnsubscribedPayments(events, |events|) + OrphanErrors(OM.Outside(db.keys, x.vals.Keys)))
    ensures Replay(events, interval).keys == EnteredKeys(events)
  {
    var x := Replay(events, interval);
    ReplayOrder(events, interval);
    DryRunReportsTheSame(events, db, interval);
    ReconcileThrowsIff(events, db, interval);
    ReplayCanonical(events, interval);
    if !SomeUnreadable(x, db) {
      DryRepairs(x, db, |x.keys|);
      DryDiffKeepsDB(x, db, |x.keys|);
      OrphansAreOutside(db, db.keys, x);
      ReplayErrorsReading(events, interval, |events|);
      assert events[..|events|] == events;
    }
  }

  // ---------------------------------------------------------------------------
  // PrismaSubscriptionDB.load: a second replay, which deletes where the first keeps nulls
  // ---------------------------------------------------------------------------

  function LoadRow(db: DB, e: ChainEvent, interval: int): DB {
    var k := EventKey(e);
    match e.kind
    case Subscribe => OM.Put(db, k, Subscribed(e, OM.Get(db, k), interval))
    case Executed => if k in db.vals then OM.Put(db, k, Paid(e, db.vals[k])) else db
    case Cancel => OM.Drop(db, k)
    case Other => db
  }

  function Load(rows: seq<ChainEvent>, interval: int): DB {
    if rows == [] then OM.Map([], map[])
    else LoadRow(Load(rows[..|rows| - 1], interval), rows[|rows| - 1], interval)
  }

  /** `db` is `x` with its nulls left out. */
  ghost predicate Simulates(db: DB, x: Expected) {
    forall k :: OM.Get(db, k) == Want(x, k)
  }

  lemma LoadRowSimulates(db: DB, x: Expected, e: ChainEvent, interval: int)
    requires Simulates(db, x)
    ensures Simulates(LoadRow(db, e, interval), ReplayEvent(x, e, interval))
  {
    assert OM.Get(db, EventKey(e)) == Want(x, EventKey(e));
    forall k
      ensures OM.Get(LoadRow(db, e, interval), k) == Want(ReplayEvent(x, e, interval), k)
    {
      assert OM.Get(db, k) == Want(x, k);
    }
  }

  lemma PutOwnKeys(db: DB, k: string, r: Subscription)
    requires OwnKeys(db) && RecordKey(r) == k
    ensures OwnKeys(OM.Put(db, k, r))
  {
    OM.PutValid(db, k, r);
  }

  lemma LoadRowOwnKeys(db: DB, e: ChainEvent, interval: int)
    requires OwnKeys(db)
    ensures OwnKeys(LoadRow(db, e, interval))
  {
    var k := EventKey(e);
    match e.kind
    case Subscribe => PutOwnKeys(db, k, Subscribed(e, OM.Get(db, k), interval));
    case Executed => if k in db.vals { PutOwnKeys(db, k, Paid(e, db.vals[k])); }
    case Cancel => OM.DropValid(db, k);
    case Other =>
  }

  /** The loaded database is the replay with its nulls left out. */
  lemma {:induction false} LoadSimulatesReplay(rows: seq<ChainEvent>, interval: int)
    ensures OwnKeys(Load(rows, interval))
    ensures Simulates(Load(rows, interval), Replay(rows, interval))
  {
    if rows != [] {
      var front, e := rows[..|rows| - 1], rows[|rows| - 1];
      LoadSimulatesReplay(front, interval);
      LoadRowSimulates(Load(front, interval), Replay(front, interval), e, interval);
      LoadRowOwnKeys(Load(front, interval), e, interval);
    }
  }

  /** Reconciling the loaded database against the same log finds nothing: no repair, no orphan. */
  lemma LoadedDatabaseIsInSync(rows: seq<ChainEvent>, interval: int)
    requires EventsColonFree(rows)
    ensures OM.Valid(Load(rows, interval))
    ensures Reconcile(rows, Load(rows, interval), interval, false) ==
            (Load(rows, interval), Report([], ReplayErrors(rows, interval)))
  {
    LoadSimulatesReplay(rows, interval);
    ReplayCanonical(rows, interval);
    var x, db := Replay(rows, interval), Load(rows, interval);
    forall i | 0 <= i < |x.keys|
      ensures Agrees(x, db, x.keys[i])
    {
      assert OM.Get(db, x.keys[i]) == Want(x, x.keys[i]) && WellFiled(x, x.keys[i]);
    }
    NothingToDo(x, db, false, |x.keys|);
    forall k | k in db.keys
      ensures k in x.vals
    {
      assert OM.Get(db, k) == Want(x, k);
    }
    OM.OutsideNone(db.keys, x.vals.Keys);
    OrphansAreOutside(db, db.keys, x);
    assert ReplayErrors(rows, interval) + [] == ReplayErrors(rows, interval);
  }

  // ---------------------------------------------------------------------------
  // The loops
  // ---------------------------------------------------------------------------

  method ReplayOne(before: Expected, errors: seq<Error>, ev: ChainEvent, interval: int)
    returns (x: Expected, errors': seq<Error>)
    ensures x == ReplayEvent(before, ev, interval) && errors' == WithReplayError(errors, before, ev)
  {
    x, errors' := before, errors;
    var key := Join(ev.subscriber, ev.merchant, ev.token);
    var cur := if key in x.vals then x.vals[key] else None;
    match ev.kind
    case Subscribe =>
      var iv := if cur.Some? then cur.value.interval else interval;
      var last := if cur.Some? then cur.value.lastPaymentAt else None;
      var record := Subscription(ev.subscriber, ev.merchant, ev.token, Big(ev.amount), iv, ev.timestamp + iv, last);
      x := OM.Put(x, key, Some(record));
    case Executed =>
      if cur.None? {
        errors' := errors' + [NoPrecedingSubscribe(key, ev.timestamp)];
      } else {
        x := OM.Put(x, key, Some(cur.value.(amount := Big(ev.amount), lastPaymentAt := Some(ev.timestamp),
                                            nextPayment := ev.timestamp + cur.value.interval)));
      }
    case Cancel => x := OM.Put(x, key, None);
    case Other =>
  }

  method ReplayLog(events: seq<ChainEvent>, interval: int) returns (x: Expected, errors: seq<Error>)
    ensures x == Replay(events, interval) && errors == ReplayErrors(events, interval)
  {
    x, errors := OM.Map([], map[]), [];
    for i := 0 to |events|
      invariant x == Replay(events[..i], interval) && errors == ReplayErrors(events[..i], interval)
    {
      ReplaySnoc(events, interval, i);
      x, errors := ReplayOne(x, errors, events[i], interval);
    }
    assert events[..|events|] == events;
  }

  lemma ReplaySnoc(events: seq<ChainEvent>, interval: int, i: nat)
    requires i < |events|
    ensures Replay(events[..i + 1], interval) == ReplayEvent(Replay(events[..i], interval), events[i], interval)
    ensures ReplayErrors(events[..i + 1], interval) ==
            WithReplayError(ReplayErrors(events[..i], interval), Replay(events[..i], interval), events[i])
  {
    var front := events[..i + 1];
    assert front[..|front| - 1] == events[..i];
  }

  lemma {:induction false} OrphansSnoc(db: DB, keys: seq<string>, k: string, x: Expected)
    requires k in db.vals && forall k' :: k' in keys ==> k' in db.vals
    ensures Orphans(db, keys + [k], x) ==
            var key := RecordKey(db.vals[k]);
            if key in x.vals then Orphans(db, keys, x) else Orphans(db, keys, x) + [Orphan(key)]
  {
    if keys == [] {
      assert keys + [k] == [k];
    } else {
      assert (keys + [k])[1..] == keys[1..] + [k];
      OrphansSnoc(db, keys[1..], k, x);
    }
  }

  /** The orphans among the first `i` stored records. */
  function OrphansUpTo(db: DB, x: Expected, i: nat): seq<Error>
    requires OM.Valid(db) && i <= |db.keys|
  {
    Orphans(db, db.keys[..i], x)
  }

  lemma OrphansNext(db: DB, x: Expected, i: nat)
    requires OM.Valid(db) && i < |db.keys|
    ensures db.keys[i] in db.vals
    ensures var key := RecordKey(db.vals[db.keys[i]]);
            OrphansUpTo(db, x, i + 1) ==
            if key in x.vals then OrphansUpTo(db, x, i) else OrphansUpTo(db, x, i) + [Orphan(key)]
  {
    assert db.keys[i] in db.keys;
    OrphansSnoc(db, db.keys[..i], db.keys[i], x);
    assert db.keys[..i + 1] == db.keys[..i] + [db.keys[i]];
  }

  lemma OrphansEnds(db: DB, x: Expected)
    requires OM.Valid(db)
    ensures OrphansUpTo(db, x, 0) == [] && OrphansUpTo(db, x, |db.keys|) == Orphans(db, db.keys, x)
  {
    assert db.keys[..|db.keys|] == db.keys;
  }

  method FindOrphans(db: DB, x: Expected) returns (errors: seq<Error>)
    requires OM.Valid(db)
    ensures errors == Orphans(db, db.keys, x)
  {
    errors := [];
    OrphansEnds(db, x);
    for i := 0 to |db.keys|
      invariant errors == OrphansUpTo(db, x, i)
    {
      OrphansNext(db, x, i);
      var stored := db.vals[db.keys[i]];
      var key := Join(stored.subscriber, stored.merchant, stored.token);
      if key !in x.vals {
        errors := errors + [Orphan(key)];
      }
    }
  }

  /** One turn of the diff loop. */
  method DiffKey(db: DB, repairs: seq<Repair>, key: string, want: Option<Subscription>, readOnly: bool)
    returns (p: Progress)
    ensures p == Visit(Progress(db, repairs, false), key, want, readOnly)
  {
    var subscriber, merchant, token := Part(key, 0), Part(key, 1), Part(key, 2);
    var lookup := Join(subscriber, merchant, token);
    var have := OM.Get(db, lookup);
    p := Progress(db, repairs, false);
    if want.None? {
      if have.Some? {
        p := Progress(if readOnly then db else OM.Drop(db, lookup), repairs + [Delete(subscriber, merchant)], false);
      }
    } else if have.None? {
      p := Progress(if readOnly then db else OM.Put(db, RecordKey(want.value), want.value),
                    repairs + [Insert(want.value)], false);
    } else {
      var same := RecordsMatch(have.value, want.value);
      if same.None? {
        return p.(threw := true);
      }
      if !same.value {
        p := Progress(if readOnly then db else OM.Put(db, RecordKey(want.value), want.value),
                      repairs + [Update(have.value, want.value)], false);
      }
    }
  }

  method DiffAll(x: Expected, db: DB, readOnly: bool) returns (p: Progress)
    requires OM.Valid(x)
    ensures p == Diff(x, db, readOnly, |x.keys|)
  {
    p := Progress(db, [], false);
    for i := 0 to |x.keys|
      invariant p == Diff(x, db, readOnly, i) && !p.threw
    {
      var key := x.keys[i];
      p := DiffKey(p.db, p.repairs, key, x.vals[key], readOnly);
      if p.threw {
        ThrownStays(x, db, readOnly, i + 1, |x.keys|);
        return;
      }
    }
  }

  /** reconcile against `db`, or against `db` behind the read-only wrapper. */
  method ReconcileDB(events: seq<ChainEvent>, db: DB, interval: int, readOnly: bool)
    returns (after: DB, outcome: Outcome)
    requires OM.Valid(db)
    ensures OM.Valid(after)
    ensures (after, outcome) == Reconcile(events, db, interval, readOnly)
  {
    var x, errors := ReplayLog(events, interval);
    ReplayKeyed(events, interval);
    DiffValid(x, db, readOnly, |x.keys|);
    var p := DiffAll(x, db, readOnly);
    if p.threw {
      return p.db, Threw;
    }
    var orphans := FindOrphans(p.db, x);
    return p.db, Report(p.repairs, errors + orphans);
  }

  lemma ThrownStays(x: Expected, db: DB, readOnly: bool, i: nat, n: nat)
    requires OM.Valid(x) && i <= n <= |x.keys| && Diff(x, db, readOnly, i).threw
    ensures Diff(x, db, readOnly, n) == Diff(x, db, readOnly, i)
    decreases n
  {
    if i < n { ThrownStays(x, db, readOnly, i, n - 1); }
  }

  /** PrismaSubscriptionDB: the Map it keeps and what reconcile does to it. */
  class SubscriptionStore {
    var store: DB

    constructor (rows: seq<ChainEvent>, interval: int)
      ensures store == Load(rows, interval) && OwnKeys(store)
    {
      store := OM.Map([], map[]);
      new;
      for i := 0 to |rows|
        invariant store == Load(rows[..i], interval)
      {
        assert rows[..i + 1][..i] == rows[..i];
        var ev := rows[i];
        var key := Join(ev.subscriber, ev.merchant, ev.token);
        match ev.kind
        case Subscribe => store := OM.Put(store, key, Subscribed(ev, OM.Get(store, key), interval));
        case Executed =>
          if key in store.vals {
            store := OM.Put(store, key, Paid(ev, store.vals[key]));
          }
        case Cancel => store := OM.Drop(store, key);
        case Other =>
      }
      assert rows[..|rows|] == rows;
      LoadSimulatesReplay(rows, interval);
    }

    method ReconcileStore(events: seq<ChainEvent>, interval: int) returns (outcome: Outcome)
      requires OwnKeys(store)
      modifies this
      ensures OwnKeys(store)
      ensures (store, outcome) == Reconcile(events, old(store), interval, false)
    {
      ReplayKeyed(events, interval);
      var x := Replay(events, interval);
      DiffOwnKeys(x, store, false, |x.keys|);
      store, outcome := ReconcileDB(events, store, interval, false);
    }
  }
}
