/** The subscription lifecycle table (lib/subscriptionStateMachine.ts), the service that applies
    it to stored rows (services/subscriptionStateService.ts), and its agreement with the
    reconciler's replay. */
module Lifecycle {
  import opened Wrappers
  import R = Reconciler

  datatype State = ACTIVE | PAUSED | OVERDUE | CANCELLED | EXPIRED

  datatype Event = Subscribe | Executed | PaymentTransferFailure | Cancel | TtlExpired

  predicate IsTerminal(s: State) { s == CANCELLED || s == EXPIRED }

  /** The transition table; None is an entry it does not have. */
  function Transition(s: State, e: Event): Option<State> {
    match s
    case ACTIVE | PAUSED | OVERDUE =>
      (match e
       case Subscribe => Some(ACTIVE)
       case Executed => Some(ACTIVE)
       case PaymentTransferFailure => Some(OVERDUE)
       case Cancel => Some(CANCELLED)
       case TtlExpired => Some(EXPIRED))
    case CANCELLED | EXPIRED => if e == Subscribe then Some(ACTIVE) else None
  }

  function Advance(s: State, e: Event): State {
    var t := Transition(s, e);
    if t.Some? then t.value else s
  }

  function StateAfter(s: State, events: seq<Event>): State {
    if events == [] then s else Advance(StateAfter(s, events[..|events| - 1]), events[|events| - 1])
  }

  // ---------------------------------------------------------------------------
  // Declarative reading
  // ---------------------------------------------------------------------------

  predicate Ends(e: Event) { e == Cancel || e == TtlExpired }

  predicate IsPayment(e: Event) { e == Executed || e == PaymentTransferFailure }

  function StateNamed(e: Event): State {
    match e
    case Subscribe => ACTIVE
    case Executed => ACTIVE
    case PaymentTransferFailure => OVERDUE
    case Cancel => CANCELLED
    case TtlExpired => EXPIRED
  }

  /** `k` is where the events since the last subscribe begin. */
  ghost predicate SinceSubscribe(events: seq<Event>, k: nat) {
    && k <= |events|
    && (k == 0 || events[k - 1] == Subscribe)
    && forall i :: k <= i < |events| ==> events[i] != Subscribe
  }

  ghost predicate FirstEnd(events: seq<Event>, k: nat, j: int) {
    k <= j < |events| && Ends(events[j]) && forall i :: k <= i < j ==> !Ends(events[i])
  }

  ghost predicate LastPayment(events: seq<Event>, k: nat, j: int) {
    k <= j < |events| && IsPayment(events[j]) && forall i :: j < i < |events| ==> !IsPayment(events[i])
  }

  /** The state the events tell: an unfinished subscription is where its first terminal event put
      it, or else its last payment; one that was over before any subscribe stays over. */
  ghost predicate Tells(start: State, events: seq<Event>, k: nat, s: State) {
    var base := if k == 0 then start else ACTIVE;
    if IsTerminal(base) then s == base
    else
      && (forall j :: FirstEnd(events, k, j) ==> s == StateNamed(events[j]))
      && ((forall i :: k <= i < |events| ==> !Ends(events[i])) ==>
            && (forall j :: LastPayment(events, k, j) ==> s == StateNamed(events[j]))
            && ((forall i :: k <= i < |events| ==> !IsPayment(events[i])) ==> s == base))
  }

  /** Without a terminal event the state is not terminal. */
  lemma {:induction false} NotEnded(start: State, events: seq<Event>, k: nat)
    requires SinceSubscribe(events, k) && (k == 0 ==> !IsTerminal(start))
    requires forall i :: k <= i < |events| ==> !Ends(events[i])
    ensures !IsTerminal(StateAfter(start, events))
  {
    if k < |events| { NotEnded(start, events[..|events| - 1], k); }
  }

  lemma {:induction false} EndDecides(start: State, events: seq<Event>, k: nat, j: nat)
    requires SinceSubscribe(events, k) && (k == 0 ==> !IsTerminal(start)) && FirstEnd(events, k, j)
    ensures StateAfter(start, events) == StateNamed(events[j])
  {
    var front := events[..|events| - 1];
    if j == |events| - 1 {
      NotEnded(start, front, k);
    } else {
      EndDecides(start, front, k, j);
    }
  }

  lemma {:induction false} OverStaysOver(start: State, events: seq<Event>)
    requires SinceSubscribe(events, 0) && IsTerminal(start)
    ensures StateAfter(start, events) == start
  {
    if events != [] { OverStaysOver(start, events[..|events| - 1]); }
  }

  /** Without a terminal event the last event is a payment, and it decides. */
  lemma PaymentDecides(start: State, events: seq<Event>, k: nat)
    requires SinceSubscribe(events, k) && (k == 0 ==> !IsTerminal(start)) && k < |events|
    requires forall i :: k <= i < |events| ==> !Ends(events[i])
    ensures IsPayment(events[|events| - 1]) && StateAfter(start, events) == StateNamed(events[|events| - 1])
  {
    NotEnded(start, events[..|events| - 1], k);
  }

  /** Every event list has a last subscribe, or none. */
  lemma {:induction false} SomeSinceSubscribe(events: seq<Event>) returns (k: nat)
    ensures SinceSubscribe(events, k)
  {
    if events == [] || events[|events| - 1] == Subscribe {
      k := |events|;
    } else {
      k := SomeSinceSubscribe(events[..|events| - 1]);
    }
  }

  /** For every event list and every starting state, the table computes what the events tell. */
  lemma StateIsWhatEventsTell(start: State, events: seq<Event>, k: nat)
    requires SinceSubscribe(events, k)
    ensures Tells(start, events, k, StateAfter(start, events))
  {
    if k == 0 && IsTerminal(start) {
      OverStaysOver(start, events);
    } else {
      forall j | FirstEnd(events, k, j)
        ensures StateAfter(start, events) == StateNamed(events[j])
      {
        EndDecides(start, events, k, j);
      }
      if (forall i :: k <= i < |events| ==> !Ends(events[i])) && k < |events| {
        PaymentDecides(start, events, k);
        forall j | LastPayment(events, k, j)
          ensures j == |events| - 1
        {
        }
      }
    }
  }

  lemma FirstEndOf(events: seq<Event>, k: nat, i: nat) returns (j: nat)
    requires k <= i < |events| && Ends(events[i])
    ensures FirstEnd(events, k, j)
  {
    j := k;
    while !Ends(events[j])
      invariant k <= j <= i
      invariant forall p :: k <= p < j ==> !Ends(events[p])
      decreases i - j
    {
      j := j + 1;
    }
  }

  /** The events leave no room for a second answer. */
  lemma TellsDecides(start: State, events: seq<Event>, k: nat, s: State, t: State)
    requires SinceSubscribe(events, k) && Tells(start, events, k, s) && Tells(start, events, k, t)
    ensures s == t
  {
    if i :| k <= i < |events| && Ends(events[i]) {
      var j := FirstEndOf(events, k, i);
      assert FirstEnd(events, k, j);
    } else if k < |events| {
      assert LastPayment(events, k, |events| - 1);
    }
  }

  // ---------------------------------------------------------------------------
  // Agreement with the reconciler
  // ---------------------------------------------------------------------------

  /** A trace of one subscription as the reconciler reads it. */
  ghost predicate OneSubscription(trace: seq<R.ChainEvent>, key: string) {
    && (forall i :: 0 <= i < |trace| ==> R.EventKey(trace[i]) == key && trace[i].kind != R.Other)
    && (trace != [] ==> trace[0].kind == R.Subscribe)
  }

  function EventOf(k: R.EventType): Event {
    match k
    case Subscribe => Subscribe
    case Executed => Executed
    case Cancel => Cancel
    case Other => Subscribe
  }

  function EventsOf(trace: seq<R.ChainEvent>): (es: seq<Event>)
    ensures |es| == |trace|
  {
    seq(|trace|, i requires 0 <= i < |trace| => EventOf(trace[i].kind))
  }

  /** The lifecycle is CANCELLED exactly when the replay expects no record, and ACTIVE otherwise. */
  lemma {:induction false} CancelledIffReplayNull(trace: seq<R.ChainEvent>, key: string, interval: int)
    requires trace != [] && OneSubscription(trace, key)
    ensures StateAfter(ACTIVE, EventsOf(trace)) == CANCELLED <==> R.Want(R.Replay(trace, interval), key).None?
    ensures StateAfter(ACTIVE, EventsOf(trace)) in {ACTIVE, CANCELLED}
  {
    var n := |trace| - 1;
    assert EventsOf(trace)[..n] == EventsOf(trace[..n]);
    if n > 0 {
      CancelledIffReplayNull(trace[..n], key, interval);
    } else {
      assert trace[..n] == [];
    }
  }

  // ---------------------------------------------------------------------------
  // Stored rows
  // ---------------------------------------------------------------------------

  datatype Row = Row(status: State, amount: string, token: string)

  /** An event with the data it carries; "" stands for an absent field. */
  datatype Update = Update(event: Event, amount: string, token: string)

  /** applyEvent on the row of one (subscriber, merchant) pair. */
  function ApplyToRow(row: Option<Row>, u: Update): Option<Row> {
    var current := if row.Some? then row.value.status else ACTIVE;
    var next := Transition(current, u.event);
    if next.None? then row
    else if row.None? then Some(Row(next.value, if u.amount == "" then "0" else u.amount, u.token))
    else Some(Row(next.value,
                  if u.amount == "" then row.value.amount else u.amount,
                  if u.token == "" then row.value.token else u.token))
  }

  function RowAfter(updates: seq<Update>): Option<Row> {
    if updates == [] then None else ApplyToRow(RowAfter(updates[..|updates| - 1]), updates[|updates| - 1])
  }

  function EventsIn(updates: seq<Update>): (es: seq<Event>)
    ensures |es| == |updates|
  {
    seq(|updates|, i requires 0 <= i < |updates| => updates[i].event)
  }

  /** A stored row exists from the first event on and always holds the lifecycle state. */
  lemma {:induction false} RowHoldsState(updates: seq<Update>)
    ensures RowAfter(updates).Some? <==> updates != []
    ensures updates != [] ==> RowAfter(updates).value.status == StateAfter(ACTIVE, EventsIn(updates))
  {
    if updates != [] {
      var n := |updates| - 1;
      RowHoldsState(updates[..n]);
      assert EventsIn(updates)[..n] == EventsIn(updates[..n]);
    }
  }

  /** Update `i` changes the row: a finished subscription ignores everything but a subscribe. */
  predicate Applies(updates: seq<Update>, i: int) {
    0 <= i < |updates| &&
    (updates[i].event == Subscribe || !IsTerminal(StateAfter(ACTIVE, EventsIn(updates[..i]))))
  }

  function FieldOf(u: Update, amount: bool): string { if amount then u.amount else u.token }

  /** Update `i` is the last to change the row and carry the field. */
  ghost predicate LastCarried(updates: seq<Update>, amount: bool, i: int) {
    && Applies(updates, i) && FieldOf(updates[i], amount) != ""
    && forall j :: i < j && Applies(updates, j) ==> FieldOf(updates[j], amount) == ""
  }

  ghost predicate NeverCarried(updates: seq<Update>, amount: bool) {
    forall i :: Applies(updates, i) ==> FieldOf(updates[i], amount) == ""
  }

  /** What the updates say about a field. */
  ghost predicate FieldTold(updates: seq<Update>, amount: bool, value: string) {
    || (exists i :: LastCarried(updates, amount, i) && FieldOf(updates[i], amount) == value)
    || (NeverCarried(updates, amount) && value == (if amount then "0" else ""))
  }

  lemma AppliesSnoc(updates: seq<Update>, i: int)
    requires updates != [] && i < |updates| - 1
    ensures Applies(updates, i) <==> Applies(updates[..|updates| - 1], i)
  {
    if 0 <= i { assert updates[..|updates| - 1][..i] == updates[..i]; }
  }

  /** One more update sets the field if it applies and carries it. */
  lemma FieldNext(updates: seq<Update>, amount: bool, value: string)
    requires updates != [] && FieldTold(updates[..|updates| - 1], amount, value)
    ensures var n := |updates| - 1;
            FieldTold(updates, amount,
                      if Applies(updates, n) && FieldOf(updates[n], amount) != ""
                      then FieldOf(updates[n], amount) else value)
  {
    var n := |updates| - 1;
    if Applies(updates, n) && FieldOf(updates[n], amount) != "" {
      assert LastCarried(updates, amount, n);
    } else if i :| LastCarried(updates[..n], amount, i) && FieldOf(updates[..n][i], amount) == value {
      CarriedStays(updates, amount, i);
    } else {
      NeverCarriedStays(updates, amount);
    }
  }

  lemma CarriedStays(updates: seq<Update>, amount: bool, i: int)
    requires updates != [] && LastCarried(updates[..|updates| - 1], amount, i)
    requires Applies(updates, |updates| - 1) ==> FieldOf(updates[|updates| - 1], amount) == ""
    ensures LastCarried(updates, amount, i)
  {
    AppliesSnoc(updates, i);
    forall j | i < j && Applies(updates, j)
      ensures FieldOf(updates[j], amount) == ""
    {
      if j < |updates| - 1 {
        AppliesSnoc(updates, j);
        assert updates[..|updates| - 1][j] == updates[j];
      }
    }
  }

  lemma NeverCarriedStays(updates: seq<Update>, amount: bool)
    requires updates != [] && NeverCarried(updates[..|updates| - 1], amount)
    requires Applies(updates, |updates| - 1) ==> FieldOf(updates[|updates| - 1], amount) == ""
    ensures NeverCarried(updates, amount)
  {
    forall j | Applies(updates, j)
      ensures FieldOf(updates[j], amount) == ""
    {
      if j < |updates| - 1 {
        AppliesSnoc(updates, j);
        assert updates[..|updates| - 1][j] == updates[j];
      }
    }
  }

  /** The row is not finished, or the update subscribes anew. */
  predicate Takes(row: Option<Row>, u: Update) {
    u.event == Subscribe || row.None? || !IsTerminal(row.value.status)
  }

  /** What one update does to the fields, a missing row counting as "0" and no token. */
  lemma ApplyReading(row: Option<Row>, u: Update)
    ensures row.Some? || Takes(row, u) ==> ApplyToRow(row, u).Some?
    ensures ApplyToRow(row, u).Some? ==>
              var row' := ApplyToRow(row, u).value;
              && row'.amount == (if Takes(row, u) && u.amount != "" then u.amount
                                 else if row.Some? then row.value.amount else "0")
              && row'.token == (if Takes(row, u) && u.token != "" then u.token
                                else if row.Some? then row.value.token else "")
  {
  }

  lemma AppliesIffTakes(updates: seq<Update>)
    requires updates != []
    ensures var n := |updates| - 1;
            Applies(updates, n) <==> Takes(RowAfter(updates[..n]), updates[n])
  {
    var front := updates[..|updates| - 1];
    RowHoldsState(front);
    if front == [] { assert StateAfter(ACTIVE, EventsIn(front)) == ACTIVE; }
  }

  /** The row's amount and token are those of the last update that changed the row and carried one. */
  lemma {:induction false} RowHoldsLastFields(updates: seq<Update>)
    requires updates != []
    ensures RowAfter(updates).Some?
    ensures FieldTold(updates, true, RowAfter(updates).value.amount)
    ensures FieldTold(updates, false, RowAfter(updates).value.token)
  {
    var front := updates[..|updates| - 1];
    var row := RowAfter(front);
    ApplyReading(row, updates[|updates| - 1]);
    AppliesIffTakes(updates);
    RowHoldsState(front);
    if front == [] {
      assert NeverCarried(front, true) && NeverCarried(front, false);
    } else {
      RowHoldsLastFields(front);
    }
    FieldNext(updates, true, if row.Some? then row.value.amount else "0");
    FieldNext(updates, false, if row.Some? then row.value.token else "");
  }

  datatype Pair = Pair(subscriber: string, merchant: string)

  class SubscriptionStateService {
    var rows: map<Pair, Row>

    constructor ()
      ensures rows == map[]
    {
      rows := map[];
    }

    function RowFor(k: Pair): Option<Row>
      reads this
    {
      if k in rows then Some(rows[k]) else None
    }

    method ApplyEvent(k: Pair, u: Update) returns (state: State)
      modifies this
      ensures RowFor(k) == ApplyToRow(old(RowFor(k)), u)
      ensures forall o :: o != k ==> RowFor(o) == old(RowFor(o))
      ensures state == if RowFor(k).Some? then RowFor(k).value.status else ACTIVE
    {
      var current := if k in rows then rows[k].status else ACTIVE;
      var next := Transition(current, u.event);
      if next.None? {
        return current;
      }
      if k !in rows {
        rows := rows[k := Row(next.value, if u.amount == "" then "0" else u.amount, u.token)];
      } else {
        var row := rows[k].(status := next.value);
        if u.amount != "" {
          row := row.(amount := u.amount);
        }
        if u.token != "" {
          row := row.(token := u.token);
        }
        rows := rows[k := row];
      }
      return next.value;
    }
  }
}
