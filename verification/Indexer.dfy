/** The cursor-based indexer (indexer.ts).  An event is persisted in one transaction, the
    cursor is saved after a whole page, and the process may die between any two of these.
    `log` is the chain's event log; a cursor is the number of log entries consumed, and an
    entry that decodeEvent rejects is None. */
module Indexer {
  import opened Wrappers

  datatype Kind = Subscribe | Executed | Cancel | PaymentTransferFailure
  datatype Event = Event(
    kind: Kind, subscriber: string, merchant: string, amount: string,
    txHash: string, ledgerSeq: int, occurredAt: int)

  type Log = seq<Option<Event>>

  datatype PaymentType = ExecutedPayment | FailedPayment | CancelPayment
  datatype PaymentKey = PaymentKey(txHash: string, eventType: PaymentType, subscriber: string, merchant: string)
  datatype PaymentRow = PaymentRow(amount: string, ledgerSeq: int, occurredAt: int)
  datatype Pair = Pair(subscriber: string, merchant: string)
  datatype Status = Active | Cancelled
  datatype SubscriptionRow = SubscriptionRow(amount: string, nextPayment: int, status: Status)

  datatype Tables = Tables(payments: map<PaymentKey, PaymentRow>, subscriptions: map<Pair, SubscriptionRow>)

  const MAX_EVENTS_PER_PAGE := 100

  const NO_ROWS := Tables(map[], map[])

  // ---------------------------------------------------------------------------
  // SQL statements
  // ---------------------------------------------------------------------------

  function PairOf(e: Event): Pair { Pair(e.subscriber, e.merchant) }

  function KeyOf(e: Event, ty: PaymentType): PaymentKey { PaymentKey(e.txHash, ty, e.subscriber, e.merchant) }

  /** INSERT ... ON CONFLICT DO NOTHING */
  function RecordPayment(t: Tables, e: Event, ty: PaymentType): Tables {
    if KeyOf(e, ty) in t.payments then t
    else t.(payments := t.payments[KeyOf(e, ty) := PaymentRow(e.amount, e.ledgerSeq, e.occurredAt)])
  }

  /** INSERT ... ON CONFLICT DO UPDATE of amount and status; next_payment keeps its first value. */
  function UpsertSubscription(t: Tables, e: Event): Tables {
    var k := PairOf(e);
    var next := if k in t.subscriptions then t.subscriptions[k].nextPayment else e.occurredAt;
    t.(subscriptions := t.subscriptions[k := SubscriptionRow(e.amount, next, Active)])
  }

  /** UPDATE ... SET status, a no-op without a row. */
  function SetStatus(t: Tables, k: Pair, st: Status): Tables {
    if k in t.subscriptions
    then t.(subscriptions := t.subscriptions[k := t.subscriptions[k].(status := st)])
    else t
  }

  function PersistEvent(t: Tables, e: Event): Tables {
    match e.kind
    case Subscribe => UpsertSubscription(t, e)
    case Executed => SetStatus(RecordPayment(t, e, ExecutedPayment), PairOf(e), Active)
    case Cancel => RecordPayment(SetStatus(t, PairOf(e), Cancelled), e, CancelPayment)
    case PaymentTransferFailure => RecordPayment(t, e, FailedPayment)
  }

  function Process(t: Tables, entry: Option<Event>): Tables {
    if entry.Some? then PersistEvent(t, entry.value) else t
  }

  /** One clean pass over the first `n` entries. */
  function CleanPass(log: Log, n: nat): Tables
    requires n <= |log|
  {
    if n == 0 then NO_ROWS else Process(CleanPass(log, n - 1), log[n - 1])
  }

  // ---------------------------------------------------------------------------
  // Runs
  // ---------------------------------------------------------------------------

  datatype Poll = Idle | Ready(pos: nat) | InPage(pos: nat, end: nat, size: nat)

  /** `furthest` is history: one past the last log entry ever processed. */
  datatype State = State(tables: Tables, cursor: nat, poll: Poll, furthest: nat)

  datatype Step = StartPoll | Fetch(n: nat) | PersistNext | SaveCursor | Crash

  const INIT := State(NO_ROWS, 0, Idle, 0)

  predicate Enabled(log: Log, s: State, step: Step) {
    match step
    case StartPoll => s.poll.Idle?
    case Fetch(n) => s.poll.Ready? && n <= MAX_EVENTS_PER_PAGE && s.poll.pos + n <= |log|
    case PersistNext => s.poll.InPage? && s.poll.pos < s.poll.end <= |log|
    case SaveCursor => s.poll.InPage? && s.poll.pos == s.poll.end
    case Crash => true
  }

  function Next(log: Log, s: State, step: Step): State
    requires Enabled(log, s, step)
  {
    match step
    case StartPoll => s.(poll := Ready(s.cursor))
    case Fetch(n) => s.(poll := if n == 0 then Idle else InPage(s.poll.pos, s.poll.pos + n, n))
    case PersistNext =>
      var p := s.poll.pos;
      State(Process(s.tables, log[p]), s.cursor, s.poll.(pos := p + 1),
            if s.furthest < p + 1 then p + 1 else s.furthest)
    case SaveCursor =>
      s.(cursor := s.poll.end, poll := if s.poll.size < MAX_EVENTS_PER_PAGE then Idle else Ready(s.poll.end))
    case Crash => s.(poll := Idle)
  }

  ghost predicate IsRun(log: Log, s: State, steps: seq<Step>)
    decreases |steps|
  {
    steps == [] || (Enabled(log, s, steps[0]) && IsRun(log, Next(log, s, steps[0]), steps[1..]))
  }

  ghost function Exec(log: Log, s: State, steps: seq<Step>): State
    requires IsRun(log, s, steps)
    decreases |steps|
  {
    if steps == [] then s else Exec(log, Next(log, s, steps[0]), steps[1..])
  }

  // ---------------------------------------------------------------------------
  // The last relevant event decides
  // ---------------------------------------------------------------------------

  /** The entry is about this subscription. */
  predicate Concerns(entry: Option<Event>, k: Pair) {
    entry.Some? && entry.value.subscriber == k.subscriber && entry.value.merchant == k.merchant
  }

  predicate SetsAmount(entry: Option<Event>, k: Pair) {
    Concerns(entry, k) && entry.value.kind == Subscribe
  }

  predicate SetsStatus(entry: Option<Event>, k: Pair) {
    Concerns(entry, k) && entry.value.kind != PaymentTransferFailure
  }

  function StatusSet(e: Event): Status { if e.kind == Cancel then Cancelled else Active }

  ghost predicate NoAmountIn(log: Log, p: nat, n: nat, k: Pair) {
    p <= n <= |log| &&
    forall i :: p <= i < n ==> !SetsAmount(log[i], k)
  }

  ghost predicate NoStatusIn(log: Log, p: nat, n: nat, k: Pair) {
    p <= n <= |log| &&
    forall i :: p <= i < n ==> !SetsStatus(log[i], k)
  }

  /** If entry `p` sets the amount of `k` and nothing up to `n` sets it again, the clean pass ends with it. */
  lemma {:induction false} LastAmount(log: Log, p: nat, n: nat, k: Pair)
    requires p < n <= |log| && SetsAmount(log[p], k) && NoAmountIn(log, p + 1, n, k)
    ensures k in CleanPass(log, n).subscriptions
    ensures CleanPass(log, n).subscriptions[k].amount == log[p].value.amount
  {
    if p + 1 < n { LastAmount(log, p, n - 1, k); }
  }

  lemma {:induction false} LastStatus(log: Log, p: nat, n: nat, k: Pair)
    requires p < n <= |log| && SetsStatus(log[p], k) && NoStatusIn(log, p + 1, n, k)
    ensures k in CleanPass(log, n).subscriptions ==>
              CleanPass(log, n).subscriptions[k].status == StatusSet(log[p].value)
  {
    if p + 1 < n { LastStatus(log, p, n - 1, k); }
  }

  /** The rows an entry would insert are already there. */
  predicate Inserted(t: Tables, entry: Option<Event>) {
    entry.Some? ==>
      match entry.value.kind
      case Subscribe => PairOf(entry.value) in t.subscriptions
      case Executed => KeyOf(entry.value, ExecutedPayment) in t.payments
      case Cancel => KeyOf(entry.value, CancelPayment) in t.payments
      case PaymentTransferFailure => KeyOf(entry.value, FailedPayment) in t.payments
  }

  lemma {:induction false} Persisted(log: Log, p: nat, n: nat)
    requires p < n <= |log|
    ensures Inserted(CleanPass(log, n), log[p])
  {
    if p + 1 < n {
      Persisted(log, p, n - 1);
      Grows(CleanPass(log, n - 1), log[n - 1]);
    }
  }

  lemma Grows(t: Tables, entry: Option<Event>)
    ensures t.payments.Keys <= Process(t, entry).payments.Keys
    ensures t.subscriptions.Keys <= Process(t, entry).subscriptions.Keys
  {
  }

  /** Processing an entry whose rows exist inserts nothing and changes at most the one subscription. */
  lemma ProcessInserted(t: Tables, entry: Option<Event>)
    requires Inserted(t, entry)
    ensures var t' := Process(t, entry);
            && t'.payments == t.payments && t'.subscriptions.Keys == t.subscriptions.Keys
            && forall k :: k in t.subscriptions ==>
                 t'.subscriptions[k] == SubscriptionRow(
                   if SetsAmount(entry, k) then entry.value.amount else t.subscriptions[k].amount,
                   t.subscriptions[k].nextPayment,
                   if SetsStatus(entry, k) then StatusSet(entry.value) else t.subscriptions[k].status)
  {
  }

  // ---------------------------------------------------------------------------
  // What a clean pass says about the log
  // ---------------------------------------------------------------------------

  /** The entry asks for a payment row under this key: the four columns of the conflict target agree. */
  predicate Pays(entry: Option<Event>, key: PaymentKey) {
    && entry.Some?
    && entry.value.txHash == key.txHash
    && entry.value.subscriber == key.subscriber
    && entry.value.merchant == key.merchant
    && (key.eventType == ExecutedPayment <==> entry.value.kind == Executed)
    && (key.eventType == FailedPayment <==> entry.value.kind == PaymentTransferFailure)
    && (key.eventType == CancelPayment <==> entry.value.kind == Cancel)
  }

  /** The row holds the other columns of the event. */
  predicate RowOf(row: PaymentRow, e: Event) {
    row.amount == e.amount && row.ledgerSeq == e.ledgerSeq && row.occurredAt == e.occurredAt
  }

  /** Entry `p` is the first of the `n` to ask for this payment row. */
  ghost predicate FirstPays(log: Log, n: nat, key: PaymentKey, p: int) {
    n <= |log| &&
    0 <= p < n && Pays(log[p], key) && forall i :: 0 <= i < p ==> !Pays(log[i], key)
  }

  /** There is one payment row per key that occurs, and it holds the first event's values. */
  lemma {:induction false} PaymentsReading(log: Log, n: nat, key: PaymentKey)
    requires n <= |log|
    ensures key in CleanPass(log, n).payments ==>
              exists p :: FirstPays(log, n, key, p) &&
                RowOf(CleanPass(log, n).payments[key], log[p].value)
    ensures key !in CleanPass(log, n).payments ==> forall i :: 0 <= i < n ==> !Pays(log[i], key)
  {
    if n > 0 {
      PaymentsReading(log, n - 1, key);
      if key in CleanPass(log, n - 1).payments {
        var p :| FirstPays(log, n - 1, key, p) &&
          RowOf(CleanPass(log, n - 1).payments[key], log[p].value);
        assert FirstPays(log, n, key, p);
      } else if Pays(log[n - 1], key) {
        assert FirstPays(log, n, key, n - 1);
      }
    }
  }

  ghost predicate FirstSubscribes(log: Log, n: nat, k: Pair, p: int) {
    n <= |log| &&
    0 <= p < n && SetsAmount(log[p], k) && forall i :: 0 <= i < p ==> !SetsAmount(log[i], k)
  }

  /** A subscription row exists from its first subscribe on, whose time is its next_payment for good.
      LastAmount and LastStatus say which event its amount and status come from. */
  lemma {:induction false} SubscriptionsReading(log: Log, n: nat, k: Pair)
    requires n <= |log|
    ensures k in CleanPass(log, n).subscriptions ==>
              exists p :: FirstSubscribes(log, n, k, p) &&
                CleanPass(log, n).subscriptions[k].nextPayment == log[p].value.occurredAt
    ensures k !in CleanPass(log, n).subscriptions ==> NoAmountIn(log, 0, n, k)
  {
    if n > 0 {
      SubscriptionsReading(log, n - 1, k);
      if k in CleanPass(log, n - 1).subscriptions {
        var p :| FirstSubscribes(log, n - 1, k, p) &&
          CleanPass(log, n - 1).subscriptions[k].nextPayment == log[p].value.occurredAt;
        assert FirstSubscribes(log, n, k, p);
      } else if SetsAmount(log[n - 1], k) {
        assert FirstSubscribes(log, n, k, n - 1);
      }
    }
  }

  // ---------------------------------------------------------------------------
  // Invariant
  // ---------------------------------------------------------------------------

  /** `t` is the clean pass over `n` entries, except that amounts and statuses which entries
      `p..n` are about to set again may still be out of date. */
  ghost predicate Settling(log: Log, t: Tables, p: nat, n: nat) {
    p <= n <= |log| &&
    var clean := CleanPass(log, n);
    && t.payments == clean.payments
    && t.subscriptions.Keys == clean.subscriptions.Keys
    && forall k :: k in t.subscriptions ==>
         && t.subscriptions[k].nextPayment == clean.subscriptions[k].nextPayment
         && (NoAmountIn(log, p, n, k) ==> t.subscriptions[k].amount == clean.subscriptions[k].amount)
         && (NoStatusIn(log, p, n, k) ==> t.subscriptions[k].status == clean.subscriptions[k].status)
  }

  function Position(s: State): nat {
    match s.poll
    case Idle => s.cursor
    case Ready(p) => p
    case InPage(p, _, _) => p
  }

  ghost predicate Inv(log: Log, s: State) {
    && s.cursor <= Position(s) <= s.furthest <= |log|
    && (s.poll.InPage? ==> s.poll.pos <= s.poll.end <= |log|)
    && Settling(log, s.tables, Position(s), s.furthest)
  }

  lemma Settled(log: Log, t: Tables, n: nat)
    requires n <= |log| && Settling(log, t, n, n)
    ensures t == CleanPass(log, n)
  {
    var clean := CleanPass(log, n);
    forall k | k in t.subscriptions
      ensures t.subscriptions[k] == clean.subscriptions[k]
    {
      assert NoAmountIn(log, n, n, k) && NoStatusIn(log, n, n, k);
    }
    assert t.subscriptions == clean.subscriptions;
  }

  /** Processing an entry again moves the out-of-date window past it. */
  lemma Reprocess(log: Log, t: Tables, p: nat, n: nat)
    requires p < n <= |log| && Settling(log, t, p, n)
    ensures Settling(log, Process(t, log[p]), p + 1, n)
  {
    var clean := CleanPass(log, n);
    var t' := Process(t, log[p]);
    Persisted(log, p, n);
    ProcessInserted(t, log[p]);
    forall k | k in t'.subscriptions
      ensures NoAmountIn(log, p + 1, n, k) ==> t'.subscriptions[k].amount == clean.subscriptions[k].amount
      ensures NoStatusIn(log, p + 1, n, k) ==> t'.subscriptions[k].status == clean.subscriptions[k].status
    {
      ReprocessOne(log, t, p, n, k);
    }
  }

  lemma ReprocessOne(log: Log, t: Tables, p: nat, n: nat, k: Pair)
    requires p < n <= |log| && Settling(log, t, p, n) && Inserted(t, log[p]) && k in t.subscriptions
    ensures k in Process(t, log[p]).subscriptions && k in CleanPass(log, n).subscriptions
    ensures var now, clean := Process(t, log[p]).subscriptions[k], CleanPass(log, n).subscriptions[k];
            && (NoAmountIn(log, p + 1, n, k) ==> now.amount == clean.amount)
            && (NoStatusIn(log, p + 1, n, k) ==> now.status == clean.status)
  {
    ProcessInserted(t, log[p]);
    if NoAmountIn(log, p + 1, n, k) {
      if SetsAmount(log[p], k) { LastAmount(log, p, n, k); } else { assert NoAmountIn(log, p, n, k); }
    }
    if NoStatusIn(log, p + 1, n, k) {
      if SetsStatus(log[p], k) { LastStatus(log, p, n, k); } else { assert NoStatusIn(log, p, n, k); }
    }
  }

  /** Falling back to an earlier position only widens the window. */
  lemma FallBack(log: Log, t: Tables, p: nat, q: nat, n: nat)
    requires q <= p <= n <= |log| && Settling(log, t, p, n)
    ensures Settling(log, t, q, n)
  {
    forall k | k in t.subscriptions
      ensures NoAmountIn(log, q, n, k) ==> NoAmountIn(log, p, n, k)
      ensures NoStatusIn(log, q, n, k) ==> NoStatusIn(log, p, n, k)
    {
    }
  }

  lemma InvStep(log: Log, s: State, step: Step)
    requires Inv(log, s) && Enabled(log, s, step)
    ensures Inv(log, Next(log, s, step))
  {
    match step
    case PersistNext =>
      var p := s.poll.pos;
      if p < s.furthest {
        Reprocess(log, s.tables, p, s.furthest);
      } else {
        Settled(log, s.tables, p);
      }
    case _ =>
      FallBack(log, s.tables, Position(s), Position(Next(log, s, step)), s.furthest);
  }

  lemma InvRun(log: Log, s: State, steps: seq<Step>)
    requires Inv(log, s) && IsRun(log, s, steps)
    ensures Inv(log, Exec(log, s, steps))
    decreases |steps|
  {
    if steps != [] {
      InvStep(log, s, steps[0]);
      InvRun(log, Next(log, s, steps[0]), steps[1..]);
    }
  }

  /** For every run with crashes at any point: the payments are at all times those of one clean
      pass over everything ever processed, and once the saved cursor has caught up with the
      furthest processed event, so are the subscriptions. */
  lemma CrashesLeaveNoTrace(log: Log, steps: seq<Step>)
    requires IsRun(log, INIT, steps)
    ensures var s := Exec(log, INIT, steps);
            s.furthest <= |log| && s.tables.payments == CleanPass(log, s.furthest).payments
    ensures var s := Exec(log, INIT, steps);
            s.cursor == s.furthest ==> s.tables == CleanPass(log, s.cursor)
  {
    InvRun(log, INIT, steps);
    var s := Exec(log, INIT, steps);
    if s.cursor == s.furthest {
      Settled(log, s.tables, s.cursor);
    }
  }

  lemma RunSnoc(log: Log, s: State, steps: seq<Step>, step: Step)
    requires IsRun(log, s, steps) && Enabled(log, Exec(log, s, steps), step)
    ensures IsRun(log, s, steps + [step])
    ensures Exec(log, s, steps + [step]) == Next(log, Exec(log, s, steps), step)
    decreases |steps|
  {
    if steps == [] {
      assert steps + [step] == [step];
    } else {
      assert (steps + [step])[1..] == steps[1..] + [step];
      RunSnoc(log, Next(log, s, steps[0]), steps[1..], step);
    }
  }

  lemma ExecConcat(log: Log, s: State, xs: seq<Step>, ys: seq<Step>)
    requires IsRun(log, s, xs) && IsRun(log, Exec(log, s, xs), ys)
    ensures IsRun(log, s, xs + ys) && Exec(log, s, xs + ys) == Exec(log, Exec(log, s, xs), ys)
    decreases |xs|
  {
    if xs == [] {
      assert xs + ys == ys;
    } else {
      assert (xs + ys)[1..] == xs[1..] + ys;
      ExecConcat(log, Next(log, s, xs[0]), xs[1..], ys);
    }
  }

  lemma Then(log: Log, steps: seq<Step>, s: State, step: Step) returns (more: seq<Step>, end: State)
    requires IsRun(log, INIT, steps) && Exec(log, INIT, steps) == s && Enabled(log, s, step)
    ensures IsRun(log, INIT, more) && Exec(log, INIT, more) == end == Next(log, s, step)
  {
    RunSnoc(log, INIT, steps, step);
    more, end := steps + [step], Next(log, s, step);
  }

  // ---------------------------------------------------------------------------
  // While the cursor lags behind
  // ---------------------------------------------------------------------------

  /** The cursor lags behind by at most one page. */
  ghost predicate WithinPage(s: State) {
    && s.cursor <= s.furthest <= s.cursor + MAX_EVENTS_PER_PAGE
    && (s.poll.Ready? ==> s.poll.pos == s.cursor)
    && (s.poll.InPage? ==> s.cursor <= s.poll.pos <= s.furthest && s.poll.end <= s.cursor + MAX_EVENTS_PER_PAGE)
  }

  lemma {:induction false} LagIsOnePage(log: Log, s: State, steps: seq<Step>)
    requires WithinPage(s) && IsRun(log, s, steps)
    ensures WithinPage(Exec(log, s, steps))
    decreases |steps|
  {
    if steps != [] { LagIsOnePage(log, Next(log, s, steps[0]), steps[1..]); }
  }

  /** With a single entry processed there is nothing to be out of date with. */
  ghost predicate OneEntryClean(log: Log, s: State) {
    |log| >= s.furthest && (s.furthest <= 1 ==> s.tables == CleanPass(log, s.furthest))
  }

  lemma ProcessTwice(entry: Option<Event>)
    ensures Process(Process(NO_ROWS, entry), entry) == Process(NO_ROWS, entry)
  {
  }

  lemma {:induction false} OneEntryStaysClean(log: Log, s: State, steps: seq<Step>)
    requires OneEntryClean(log, s) && WithinPage(s) && IsRun(log, s, steps)
    ensures OneEntryClean(log, Exec(log, s, steps))
    decreases |steps|
  {
    if steps != [] {
      if steps[0].PersistNext? && s.furthest <= 1 {
        assert CleanPass(log, 0) == NO_ROWS;
        ProcessTwice(log[0]);
      }
      OneEntryStaysClean(log, Next(log, s, steps[0]), steps[1..]);
    }
  }

  lemma {:induction false} ReachCursor(log: Log, c: nat) returns (steps: seq<Step>, s: State)
    requires c <= |log|
    ensures IsRun(log, INIT, steps) && Exec(log, INIT, steps) == s == State(CleanPass(log, c), c, Idle, c)
  {
    if c == 0 {
      steps, s := [], INIT;
    } else {
      steps, s := ReachCursor(log, c - 1);
      steps, s := Then(log, steps, s, StartPoll);
      steps, s := Then(log, steps, s, Fetch(1));
      steps, s := Then(log, steps, s, PersistNext);
      steps, s := Then(log, steps, s, SaveCursor);
    }
  }

  lemma {:induction false} PersistMany(log: Log, c: nat, n: nat, m: nat) returns (steps: seq<Step>, s: State)
    requires c + n <= |log| && 0 < n <= MAX_EVENTS_PER_PAGE && m <= n
    ensures IsRun(log, INIT, steps) && Exec(log, INIT, steps) == s
    ensures s == State(CleanPass(log, c + m), c, InPage(c + m, c + n, n), c + m)
  {
    if m == 0 {
      steps, s := ReachCursor(log, c);
      steps, s := Then(log, steps, s, StartPoll);
      steps, s := Then(log, steps, s, Fetch(n));
    } else {
      steps, s := PersistMany(log, c, n, m - 1);
      steps, s := Then(log, steps, s, PersistNext);
    }
  }

  /** From cursor `c` everything up to `f` is processed, the process dies, and the next poll
      fetches `n` entries and processes the first of them again. */
  lemma Rewind(log: Log, c: nat, f: nat, n: nat) returns (steps: seq<Step>, s: State)
    requires c < f <= |log| && f <= c + MAX_EVENTS_PER_PAGE && 0 < n <= f - c
    ensures IsRun(log, INIT, steps) && Exec(log, INIT, steps) == s
    ensures s == State(Process(CleanPass(log, f), log[c]), c, InPage(c + 1, c + n, n), f)
  {
    steps, s := PersistMany(log, c, f - c, f - c);
    steps, s := Then(log, steps, s, Crash);
    steps, s := Then(log, steps, s, StartPoll);
    steps, s := Then(log, steps, s, Fetch(n));
    steps, s := Then(log, steps, s, PersistNext);
  }

  const SUBSCRIBED := Event(Subscribe, "a", "m", "1", "x", 1, 1)

  /** A subscribe at `i`, its cancel at `i + 1`, and nothing else. */
  function CancelledLog(i: nat, n: nat): (log: Log)
    ensures |log| == n
  {
    seq(n, k => if k == i then Some(SUBSCRIBED) else if k == i + 1 then Some(SUBSCRIBED.(kind := Cancel)) else None)
  }

  /** Processing the subscribe again revives the subscription that the log has cancelled. */
  lemma SubscribeAgainRevives(i: nat, n: nat)
    requires i + 2 <= n
    ensures var log := CancelledLog(i, n);
            Process(CleanPass(log, n), log[i]) != CleanPass(log, n)
  {
    var log, k := CancelledLog(i, n), Pair("a", "m");
    LastAmount(log, i, n, k);
    LastStatus(log, i + 1, n, k);
    assert Process(CleanPass(log, n), log[i]).subscriptions[k].status == Active;
  }

  /** Whenever the cursor lags behind two or more entries, the subscriptions can be out of date. */
  lemma LaggingCursorShowsStaleStatus(c: nat, f: nat) returns (log: Log, steps: seq<Step>, s: State)
    requires c < f <= c + MAX_EVENTS_PER_PAGE && f >= 2
    ensures IsRun(log, INIT, steps) && s == Exec(log, INIT, steps)
    ensures s.cursor == c && s.furthest == f <= |log| && s.tables != CleanPass(log, f)
  {
    if c + 2 <= f {
      log := CancelledLog(c, f);
      steps, s := Rewind(log, c, f, f - c);
      SubscribeAgainRevives(c, f);
    } else {
      log := CancelledLog(c - 1, f);
      steps, s := Rewind(log, c - 1, f, 1);
      steps, s := Then(log, steps, s, SaveCursor);
      SubscribeAgainRevives(c - 1, f);
    }
  }

  /** Every run that ends with this cursor and this furthest entry shows the clean pass. */
  ghost predicate AlwaysClean(c: nat, f: nat) {
    forall log, steps | IsRun(log, INIT, steps) && Exec(log, INIT, steps).cursor == c &&
                        Exec(log, INIT, steps).furthest == f :: IsClean(log, Exec(log, INIT, steps))
  }

  ghost predicate IsClean(log: Log, s: State) {
    s.furthest <= |log| && s.tables == CleanPass(log, s.furthest)
  }

  /** The cursor never lags behind by more than a page, and the tables are sure to show the clean
      pass exactly when it has caught up or no more than one entry was ever processed. */
  lemma CleanIffCaughtUp(c: nat, f: nat)
    ensures AlwaysClean(c, f) <==> !(c < f <= c + 100 && f >= 2)
  {
    if !(c < f <= c + MAX_EVENTS_PER_PAGE && f >= 2) {
      forall log, steps | IsRun(log, INIT, steps) && Exec(log, INIT, steps).cursor == c &&
                          Exec(log, INIT, steps).furthest == f
        ensures IsClean(log, Exec(log, INIT, steps))
      {
        CrashesLeaveNoTrace(log, steps);
        LagIsOnePage(log, INIT, steps);
        OneEntryStaysClean(log, INIT, steps);
      }
    } else {
      var log, steps, s := LaggingCursorShowsStaleStatus(c, f);
      assert !IsClean(log, Exec(log, INIT, steps));
    }
  }

  // ---------------------------------------------------------------------------
  // The service
  // ---------------------------------------------------------------------------

  class IndexerService {
    var payments: map<PaymentKey, PaymentRow>
    var subscriptions: map<Pair, SubscriptionRow>
    var cursor: nat
    ghost var poll: Poll
    ghost var furthest: nat

    ghost function View(): State
      reads this
    {
      State(Tables(payments, subscriptions), cursor, poll, furthest)
    }

    constructor ()
      ensures View() == INIT
    {
      payments, subscriptions, cursor, poll, furthest := map[], map[], 0, Idle, 0;
    }

    method RecordPaymentRow(e: Event, ty: PaymentType)
      modifies this`payments
      ensures Tables(payments, subscriptions) == RecordPayment(old(Tables(payments, subscriptions)), e, ty)
    {
      var key := PaymentKey(e.txHash, ty, e.subscriber, e.merchant);
      if key !in payments {
        payments := payments[key := PaymentRow(e.amount, e.ledgerSeq, e.occurredAt)];
      }
    }

    method SetSubscriptionStatus(e: Event, st: Status)
      modifies this`subscriptions
      ensures Tables(payments, subscriptions) == SetStatus(old(Tables(payments, subscriptions)), PairOf(e), st)
    {
      var k := Pair(e.subscriber, e.merchant);
      if k in subscriptions {
        subscriptions := subscriptions[k := subscriptions[k].(status := st)];
      }
    }

    method Persist(e: Event)
      modifies this`payments, this`subscriptions
      ensures Tables(payments, subscriptions) == PersistEvent(old(Tables(payments, subscriptions)), e)
    {
      match e.kind
      case Subscribe =>
        var k := Pair(e.subscriber, e.merchant);
        if k in subscriptions {
          subscriptions := subscriptions[k := subscriptions[k].(amount := e.amount, status := Active)];
        } else {
          subscriptions := subscriptions[k := SubscriptionRow(e.amount, e.occurredAt, Active)];
        }
      case Executed =>
        RecordPaymentRow(e, ExecutedPayment);
        SetSubscriptionStatus(e, Active);
      case Cancel =>
        SetSubscriptionStatus(e, Cancelled);
        RecordPaymentRow(e, CancelPayment);
      case PaymentTransferFailure =>
        RecordPaymentRow(e, FailedPayment);
    }

    /** The inner loop of poll over the page `start..end`, dying once `budget` transactions have committed. */
    method PersistPage(log: Log, start: nat, end: nat, budget: nat)
      returns (left: nat, ok: bool, ghost trace: seq<Step>)
      requires poll.InPage? && poll.pos == start <= end == poll.end <= |log|
      modifies this
      ensures IsRun(log, old(View()), trace) && View() == Exec(log, old(View()), trace)
      ensures poll.InPage? && poll.end == end && poll.size == old(poll).size && cursor == old(cursor)
      ensures ok <==> end - start <= budget
      ensures ok ==> poll.pos == end && left == budget - (end - start)
    {
      ghost var s0 := View();
      trace, left, ok := [], budget, true;
      for pos := start to end
        invariant poll.InPage? && poll.pos == pos && poll.end == end
        invariant poll.size == old(poll).size && cursor == old(cursor)
        invariant left == budget - (pos - start)
        invariant IsRun(log, s0, trace) && View() == Exec(log, s0, trace)
      {
        if left == 0 {
          ok := false;
          return;
        }
        RunSnoc(log, s0, trace, PersistNext);
        trace := trace + [PersistNext];
        if log[pos].Some? {
          Persist(log[pos].value);
        }
        left := left - 1;
        poll := poll.(pos := pos + 1);
        furthest := if furthest < pos + 1 then pos + 1 else furthest;
      }
    }

    /** One page of poll: fetch, persist, save the cursor, or die
        once `budget` transactions have committed. */
    method PollPage(log: Log, size: nat, budget: nat) returns (left: nat, ok: bool, ghost trace: seq<Step>)
      requires poll == Ready(cursor) && 0 < size <= MAX_EVENTS_PER_PAGE && cursor + size <= |log|
      modifies this
      ensures IsRun(log, old(View()), trace) && View() == Exec(log, old(View()), trace)
      ensures ok <==> size <= budget
      ensures ok ==> left == budget - size && cursor == old(cursor) + size
      ensures ok ==> poll == if size < MAX_EVENTS_PER_PAGE then Idle else Ready(cursor)
      ensures !ok ==> poll == Idle && cursor == old(cursor)
    {
      ghost var s0 := View();
      ghost var page;
      var start := cursor;
      RunSnoc(log, s0, [], Fetch(size));
      trace, poll := [] + [Fetch(size)], InPage(start, start + size, size);
      left, ok, page := PersistPage(log, start, start + size, budget);
      ExecConcat(log, s0, trace, page);
      trace := trace + page;
      if ok {
        RunSnoc(log, s0, trace, SaveCursor);
        trace, cursor := trace + [SaveCursor], start + size;
        poll := if size < MAX_EVENTS_PER_PAGE then Idle else Ready(cursor);
      } else {
        RunSnoc(log, s0, trace, Crash);
        trace, poll := trace + [Crash], Idle;
      }
    }

    /** One poll against a node that shows `tip` entries, maybe fewer than before, dying once `budget` transactions have
        committed; `trace` is the run it made.  From a consistent state it leaves a consistent
        state, and a poll that is not cut short and sees at least as much as any before leaves
        exactly the clean pass. */
    method Poll(log: Log, tip: nat, budget: nat) returns (completed: bool, ghost trace: seq<Step>)
      requires poll.Idle? && Inv(log, View()) && tip <= |log|
      modifies this
      ensures IsRun(log, old(View()), trace) && View() == Exec(log, old(View()), trace)
      ensures poll.Idle? && Inv(log, View())
      ensures completed <==> tip - old(cursor) <= budget
      ensures completed ==> cursor == if tip < old(cursor) then old(cursor) else tip
      ensures completed && furthest <= cursor ==> Tables(payments, subscriptions) == CleanPass(log, cursor)
    {
      ghost var s0 := View();
      ghost var goal := if tip < cursor then cursor else tip;
      var left := budget;
      RunSnoc(log, s0, [], StartPoll);
      trace, poll := [] + [StartPoll], Ready(cursor);
      completed := true;
      var running := true;
      while running
        invariant IsRun(log, s0, trace) && View() == Exec(log, s0, trace)
        invariant running ==> completed && poll == Ready(cursor) && cursor <= goal
        invariant completed ==> left == budget - (cursor - old(cursor)) && old(cursor) <= cursor
        invariant !running ==>
                    poll.Idle? && (completed ==> cursor == goal) && (!completed ==> tip - old(cursor) > budget)
        decreases running, goal - cursor
      {
        var size := if tip < cursor then 0
                    else if tip - cursor < MAX_EVENTS_PER_PAGE then tip - cursor else MAX_EVENTS_PER_PAGE;
        if size == 0 {
          RunSnoc(log, s0, trace, Fetch(0));
          trace, poll, running := trace + [Fetch(0)], Idle, false;
        } else {
          ghost var page;
          left, completed, page := PollPage(log, size, left);
          ExecConcat(log, s0, trace, page);
          trace := trace + page;
          running := completed && size == MAX_EVENTS_PER_PAGE;
        }
      }
      InvRun(log, s0, trace);
      if completed && furthest <= cursor {
        Settled(log, Tables(payments, subscriptions), cursor);
      }
    }
  }
}
