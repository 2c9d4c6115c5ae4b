/** Idempotency keys (services/idempotencyService.ts) around a payment submission
    (services/executePaymentHelper.ts), with working storage and calls one after another.
    The RPC node is an oracle: each call comes with what the node will answer. */
module Idempotency {
  import opened Wrappers

  datatype Status = Pending | Succeeded | Failed

  datatype Row = Row(
    subscriber: string, merchant: string, token: string, amount: string,
    status: Status, txHash: Option<string>, error: Option<string>)

  type Table = map<string, Row>

  datatype Params = Params(key: string, subscriber: string, merchant: string, token: string, amount: string)

  datatype Lookup = NotSeen | Conflict | Known(status: Status, txHash: Option<string>)

  datatype Decision = Proceed | Cached(txHash: string) | Reject

  /** `x || undefined`: an empty text counts as absent. */
  function Truthy(x: Option<string>): Option<string> { if x == Some("") then None else x }

  function CheckIdempotencyKey(t: Table, p: Params): Lookup {
    if p.key !in t then NotSeen
    else
      var row := t[p.key];
      if row.subscriber != p.subscriber || row.merchant != p.merchant || row.token != p.token || row.amount != p.amount
      then Conflict else Known(row.status, Truthy(row.txHash))
  }

  function HandleIdempotencyCheck(t: Table, p: Params): Decision {
    match CheckIdempotencyKey(t, p)
    case NotSeen => Proceed
    case Conflict => Reject
    case Known(status, hash) => if status == Succeeded && hash.Some? then Cached(hash.value) else Proceed
  }

  /** An upsert that leaves the parties of an existing row alone. */
  function RecordSuccess(t: Table, p: Params, hash: string): Table {
    if p.key in t then t[p.key := t[p.key].(status := Succeeded, txHash := Some(hash), error := None)]
    else t[p.key := Row(p.subscriber, p.merchant, p.token, p.amount, Succeeded, Some(hash), None)]
  }

  function RecordFailure(t: Table, p: Params, error: string): Table {
    if p.key in t then t[p.key := t[p.key].(status := Failed, error := Some(error))]
    else t[p.key := Row(p.subscriber, p.merchant, p.token, p.amount, Failed, None, Some(error))]
  }

  // ---------------------------------------------------------------------------
  // submitExecutePayment
  // ---------------------------------------------------------------------------

  datatype TxStatus = NotFound | Success | OnChainFailure | RpcError

  /** What the node answers to one call. */
  datatype Node =
    | NoAccount
    | SimulationFails(message: string)
    | SendFails(message: string)
    | Sends(hash: string, polls: seq<TxStatus>)

  /** `key` is "" when the caller passes none; `addressesValid` is what `new Address` decides. */
  datatype Call = Call(subscriber: string, merchant: string, key: string, addressesValid: bool, node: Node)

  datatype Result =
    | Paid(txHash: string, isRetry: bool)
    | BadInput | KeyConflict | AccountError | SimulationError | SendError | OnChainError | NotConfirmed | PollError

  const MAX_POLLS := 20

  function ParamsOf(c: Call): Params {
    Params(c.key, c.subscriber, c.merchant, "token_placeholder", "amount_placeholder")
  }

  function PollAt(polls: seq<TxStatus>, i: nat): TxStatus { if i < |polls| then polls[i] else NotFound }

  /** The result of polling from attempt `i` on. */
  function Poll(hash: string, polls: seq<TxStatus>, i: nat): Result
    requires i <= MAX_POLLS
    decreases MAX_POLLS - i
  {
    if i == MAX_POLLS then NotConfirmed
    else
      match PollAt(polls, i)
      case Success => Paid(hash, false)
      case OnChainFailure => OnChainError
      case RpcError => PollError
      case NotFound => Poll(hash, polls, i + 1)
  }

  function Execute(node: Node): Result {
    match node
    case NoAccount => AccountError
    case SimulationFails(_) => SimulationError
    case SendFails(_) => SendError
    case Sends(hash, polls) => Poll(hash, polls, 0)
  }

  /** Account and polling errors propagate without a record. */
  predicate RecordsFailure(r: Result) {
    r == SimulationError || r == SendError || r == OnChainError || r == NotConfirmed
  }

  /** `sent`: a transaction was handed to the node. */
  datatype Outcome = Outcome(table: Table, result: Result, sent: bool)

  function Submit(t: Table, c: Call, message: string): Outcome {
    if c.subscriber == "" || c.merchant == "" || !c.addressesValid then Outcome(t, BadInput, false)
    else
      match if c.key == "" then Proceed else HandleIdempotencyCheck(t, ParamsOf(c))
      case Cached(hash) => Outcome(t, Paid(hash, true), false)
      case Reject => Outcome(t, KeyConflict, false)
      case Proceed =>
        var r := Execute(c.node);
        var t' := if c.key == "" then t
                  else if r.Paid? then RecordSuccess(t, ParamsOf(c), r.txHash)
                  else if RecordsFailure(r) then RecordFailure(t, ParamsOf(c), message)
                  else t;
        Outcome(t', r, c.node.Sends?)
  }

  function After(run: seq<Call>): Table {
    if run == [] then map[] else Submit(After(run[..|run| - 1]), run[|run| - 1], "").table
  }

  function OutcomeAt(run: seq<Call>, i: nat): Outcome
    requires i < |run|
  {
    Submit(After(run[..i]), run[i], "")
  }

  /** Call `i` sent a transaction and saw it confirmed. */
  predicate Confirms(run: seq<Call>, i: nat) {
    i < |run| && OutcomeAt(run, i).sent && OutcomeAt(run, i).result.Paid?
  }

  predicate WellFormedCall(c: Call) { c.subscriber != "" && c.merchant != "" && c.addressesValid }

  predicate SameParties(c: Call, d: Call) { c.subscriber == d.subscriber && c.merchant == d.merchant }

  // ---------------------------------------------------------------------------
  // Theorems
  // ---------------------------------------------------------------------------

  /** The row of a confirmed payment. */
  predicate IsReceipt(t: Table, c: Call, hash: string) {
    && c.key in t
    && t[c.key].status == Succeeded && t[c.key].txHash == Some(hash)
    && t[c.key].subscriber == c.subscriber && t[c.key].merchant == c.merchant
    && t[c.key].token == "token_placeholder" && t[c.key].amount == "amount_placeholder"
  }

  /** Every row carries the fixed token and amount that the helper passes. */
  ghost predicate PlaceholderRows(t: Table) {
    forall k :: k in t ==> t[k].token == "token_placeholder" && t[k].amount == "amount_placeholder"
  }

  lemma {:induction false} RowsArePlaceholders(run: seq<Call>)
    ensures PlaceholderRows(After(run))
  {
    if run != [] { RowsArePlaceholders(run[..|run| - 1]); }
  }

  lemma ReceiptWritten(t: Table, c: Call)
    requires PlaceholderRows(t) && c.key != ""
    requires Submit(t, c, "").sent && Submit(t, c, "").result.Paid?
    ensures IsReceipt(Submit(t, c, "").table, c, Submit(t, c, "").result.txHash)
  {
  }

  lemma ReceiptKept(t: Table, c: Call, hash: string, d: Call)
    requires IsReceipt(t, c, hash) && hash != ""
    ensures IsReceipt(Submit(t, d, "").table, c, hash)
    ensures WellFormedCall(d) && d.key == c.key != "" ==>
              !Submit(t, d, "").sent &&
              Submit(t, d, "").result == if SameParties(c, d) then Paid(hash, true) else KeyConflict
  {
  }

  lemma {:induction false} ReceiptStays(run: seq<Call>, i: nat, n: nat)
    requires i < n <= |run| && run[i].key != "" && Confirms(run, i) && OutcomeAt(run, i).result.txHash != ""
    ensures IsReceipt(After(run[..n]), run[i], OutcomeAt(run, i).result.txHash)
  {
    assert run[..n][..n - 1] == run[..n - 1];
    if n == i + 1 {
      RowsArePlaceholders(run[..i]);
      ReceiptWritten(After(run[..i]), run[i]);
    } else {
      ReceiptStays(run, i, n - 1);
      ReceiptKept(After(run[..n - 1]), run[i], OutcomeAt(run, i).result.txHash, run[n - 1]);
    }
  }

  /** After a confirmed payment with a transaction hash, every later well-formed call with the
      same key sends nothing: it gets that hash, or a conflict if its parties differ. */
  lemma ConfirmedOnce(run: seq<Call>, i: nat, j: nat)
    requires i < j < |run| && run[i].key == run[j].key != "" && WellFormedCall(run[j])
    requires Confirms(run, i) && OutcomeAt(run, i).result.txHash != ""
    ensures !OutcomeAt(run, j).sent && !Confirms(run, j)
    ensures OutcomeAt(run, j).result ==
            if SameParties(run[i], run[j]) then Paid(OutcomeAt(run, i).result.txHash, true) else KeyConflict
  {
    ReceiptStays(run, i, j);
    ReceiptKept(After(run[..j]), run[i], OutcomeAt(run, i).result.txHash, run[j]);
  }

  /** A record never disappears and keeps its parties. */
  lemma {:induction false} RecordKeepsParties(run: seq<Call>, n: nat, k: string)
    requires n <= |run| && k in After(run[..n])
    ensures k in After(run) && After(run)[k].subscriber == After(run[..n])[k].subscriber
    ensures After(run)[k].merchant == After(run[..n])[k].merchant
  {
    if n < |run| {
      assert run[..|run| - 1][..n] == run[..n];
      RecordKeepsParties(run[..|run| - 1], n, k);
    } else {
      assert run[..n] == run;
    }
  }

  /** Poll `k` is the first decisive one within the 20. */
  ghost predicate FirstDecisive(polls: seq<TxStatus>, i: nat, k: int) {
    && i <= k < 20 && k < |polls| && polls[k] != NotFound
    && forall m :: i <= m < k ==> polls[m] == NotFound
  }

  /** Polling reads the statuses in order and stops at the first decisive one, or after 20: success
      returns the hash that was sent, a failure on chain and an RPC error each their own error. */
  lemma {:induction false} PollIsFirstDecisive(hash: string, polls: seq<TxStatus>, i: nat)
    requires i <= 20
    ensures Poll(hash, polls, i) == NotConfirmed <==>
            forall k :: i <= k < 20 && k < |polls| ==> polls[k] == NotFound
    ensures forall k :: FirstDecisive(polls, i, k) ==>
              match polls[k]
              case Success => Poll(hash, polls, i) == Paid(hash, false)
              case OnChainFailure => Poll(hash, polls, i) == OnChainError
              case RpcError => Poll(hash, polls, i) == PollError
              case NotFound => false
    ensures Poll(hash, polls, i) != NotConfirmed ==> exists k :: FirstDecisive(polls, i, k)
    decreases 20 - i
  {
    if i < 20 {
      PollIsFirstDecisive(hash, polls, i + 1);
      if i < |polls| && polls[i] != NotFound {
        assert FirstDecisive(polls, i, i);
      } else if Poll(hash, polls, i) != NotConfirmed {
        var k :| FirstDecisive(polls, i + 1, k);
        assert FirstDecisive(polls, i, k);
      }
    }
  }

  // ---------------------------------------------------------------------------
  // When a call is sent
  // ---------------------------------------------------------------------------

  /** The check answers with a hash instead of letting a call through. */
  predicate Settled(t: Table, key: string) {
    key in t && t[key].status == Succeeded && Truthy(t[key].txHash).Some?
  }

  /** Some call before `j` saw its payment under the key confirmed, with a hash. */
  ghost predicate ConfirmedBefore(run: seq<Call>, j: nat, key: string) {
    j <= |run| &&
    exists i :: 0 <= i < j && run[i].key == key && Confirms(run, i) && OutcomeAt(run, i).result.txHash != ""
  }

  lemma SettledStep(t: Table, c: Call, key: string)
    requires key != "" && !Settled(t, key) && Settled(Submit(t, c, "").table, key)
    ensures c.key == key && Submit(t, c, "").sent && Submit(t, c, "").result.Paid?
    ensures Submit(t, c, "").result.txHash != ""
  {
  }

  lemma {:induction false} SettledIffConfirmed(run: seq<Call>, j: nat, key: string)
    requires j <= |run| && key != ""
    ensures Settled(After(run[..j]), key) <==> ConfirmedBefore(run, j, key)
  {
    if i :| 0 <= i < j && run[i].key == key && Confirms(run, i) && OutcomeAt(run, i).result.txHash != "" {
      ReceiptStays(run, i, j);
    } else if j > 0 {
      SettledIffConfirmed(run, j - 1, key);
      assert run[..j][..j - 1] == run[..j - 1];
      if Settled(After(run[..j]), key) { SettledStep(After(run[..j - 1]), run[j - 1], key); }
    }
  }

  /** If let through, the call leaves a record: paid, or failed in a way that is recorded. */
  predicate LeavesRecord(c: Call) {
    WellFormedCall(c) && (Execute(c.node).Paid? || RecordsFailure(Execute(c.node)))
  }

  /** Call `i` is the first with the key to leave a record. */
  predicate FirstRecord(run: seq<Call>, i: int, key: string) {
    && 0 <= i < |run| && run[i].key == key && LeavesRecord(run[i])
    && forall h :: 0 <= h < i && run[h].key == key ==> !LeavesRecord(run[h])
  }

  ghost predicate HasFirstRecord(run: seq<Call>, key: string) {
    exists i :: FirstRecord(run, i, key)
  }

  lemma RecordStep(t: Table, c: Call, key: string)
    requires key != ""
    ensures var t' := Submit(t, c, "").table;
            && (key in t' <==> key in t || (c.key == key && LeavesRecord(c)))
            && (key in t' ==>
                  && t'[key].subscriber == (if key in t then t[key].subscriber else c.subscriber)
                  && t'[key].merchant == (if key in t then t[key].merchant else c.merchant))
  {
  }

  lemma FirstRecordSnoc(run: seq<Call>, key: string, i: int)
    requires run != []
    ensures FirstRecord(run, i, key) <==>
            || FirstRecord(run[..|run| - 1], i, key)
            || (i == |run| - 1 && run[i].key == key && LeavesRecord(run[i]) && !HasFirstRecord(run[..|run| - 1], key))
  {
    var n := |run| - 1;
    if i == n && run[i].key == key && LeavesRecord(run[i]) {
      if h :| 0 <= h < n && run[h].key == key && LeavesRecord(run[h]) { SomeFirstRecord(run[..n], h, key); }
    }
  }

  /** Some call with the key leaves a record, so there is a first one. */
  lemma {:induction false} SomeFirstRecord(run: seq<Call>, n: nat, key: string)
    requires n < |run| && run[n].key == key && LeavesRecord(run[n])
    ensures HasFirstRecord(run, key)
  {
    if h :| 0 <= h < n && run[h].key == key && LeavesRecord(run[h]) {
      SomeFirstRecord(run, h, key);
    } else {
      assert FirstRecord(run, n, key);
    }
  }

  /** A key has a record exactly when a call with it left one, and the record names the parties of
      the first such call. */
  lemma {:induction false} RecordOfFirst(run: seq<Call>, key: string)
    requires key != ""
    ensures key in After(run) <==> HasFirstRecord(run, key)
    ensures forall i :: FirstRecord(run, i, key) ==>
              key in After(run) &&
              After(run)[key].subscriber == run[i].subscriber && After(run)[key].merchant == run[i].merchant
  {
    if run != [] {
      var n := |run| - 1;
      var front := run[..n];
      RecordOfFirst(front, key);
      RecordStep(After(front), run[n], key);
      forall i
        ensures FirstRecord(run, i, key) <==>
                || FirstRecord(front, i, key)
                || (i == n && run[n].key == key && LeavesRecord(run[n]) && !HasFirstRecord(front, key))
      {
        FirstRecordSnoc(run, key, i);
      }
      if i :| FirstRecord(front, i, key) { assert FirstRecord(run, i, key); }
      if run[n].key == key && LeavesRecord(run[n]) { SomeFirstRecord(run, n, key); }
    }
  }

  /** Call `j` names the parties of the first call to leave a record under its key. */
  ghost predicate MatchesRecord(run: seq<Call>, j: nat) {
    j < |run| &&
    forall i :: i < j && FirstRecord(run, i, run[j].key) ==> SameParties(run[i], run[j])
  }

  lemma MatchesIffNoConflict(run: seq<Call>, j: nat)
    requires j < |run| && run[j].key != ""
    ensures MatchesRecord(run, j) <==> CheckIdempotencyKey(After(run[..j]), ParamsOf(run[j])) != Conflict
  {
    var past, key := run[..j], run[j].key;
    RecordOfFirst(past, key);
    RowsArePlaceholders(past);
    forall i | i < j
      ensures FirstRecord(past, i, key) <==> FirstRecord(run, i, key)
    {
    }
    if i :| FirstRecord(past, i, key) { assert i < j && past[i] == run[i]; }
  }

  /** In every run a call is sent exactly when it is well formed, the node takes it, and it has no
      key or a key under which no payment was confirmed with a hash and whose record, if any, has
      its parties.  A call with other parties gets a conflict. */
  lemma SentIff(run: seq<Call>, j: nat)
    requires j < |run|
    ensures OutcomeAt(run, j).sent <==>
            && WellFormedCall(run[j]) && run[j].node.Sends?
            && (run[j].key == "" || (!ConfirmedBefore(run, j, run[j].key) && MatchesRecord(run, j)))
    ensures OutcomeAt(run, j).result == KeyConflict <==>
            WellFormedCall(run[j]) && run[j].key != "" && !MatchesRecord(run, j)
  {
    ExecuteIsNoConflict(run[j].node);
    if run[j].key != "" {
      SettledIffConfirmed(run, j, run[j].key);
      MatchesIffNoConflict(run, j);
    }
  }

  lemma ExecuteIsNoConflict(node: Node)
    ensures Execute(node) != KeyConflict && Execute(node) != BadInput
    ensures Execute(node).Paid? ==> node.Sends? && Execute(node) == Paid(node.hash, false)
  {
    if node.Sends? {
      PollIsFirstDecisive(node.hash, node.polls, 0);
      if Execute(node) != NotConfirmed { var k :| FirstDecisive(node.polls, 0, k); }
    }
  }

  /** What each call of a run returns.  A malformed call is refused first, then a key with other
      parties; a confirmed key gives its hash back; everything else is what the node makes of it,
      and a call that was sent and paid returns the node's own hash as no retry. */
  lemma ResultReading(run: seq<Call>, j: nat)
    requires j < |run|
    ensures var c, result := run[j], OutcomeAt(run, j).result;
            && (result == BadInput <==> c.subscriber == "" || c.merchant == "" || !c.addressesValid)
            && (OutcomeAt(run, j).sent && result.Paid? ==> result == Paid(c.node.hash, false))
            && (!OutcomeAt(run, j).sent && result.Paid? ==>
                  result.isRetry && c.key != "" && ConfirmedBefore(run, j, c.key))
            && (WellFormedCall(c) && (c.key == "" || (!ConfirmedBefore(run, j, c.key) && MatchesRecord(run, j))) ==>
                  match c.node
                  case NoAccount => result == AccountError
                  case SimulationFails(_) => result == SimulationError
                  case SendFails(_) => result == SendError
                  case Sends(hash, polls) => result == Poll(hash, polls, 0))
  {
    SentIff(run, j);
    ExecuteIsNoConflict(run[j].node);
    if run[j].key != "" {
      SettledIffConfirmed(run, j, run[j].key);
      MatchesIffNoConflict(run, j);
    }
  }

  /** What a call that gets through leaves in its row: the outcome, and the message of a failure. */
  lemma RowReading(t: Table, c: Call, message: string)
    requires WellFormedCall(c) && c.key != "" && HandleIdempotencyCheck(t, ParamsOf(c)) == Proceed
    ensures var o := Submit(t, c, message);
            && (forall k :: k != c.key ==> (k in o.table <==> k in t) && (k in t ==> o.table[k] == t[k]))
            && (o.result.Paid? ==>
                  && c.key in o.table && o.table[c.key].status == Succeeded
                  && o.table[c.key].txHash == Some(o.result.txHash) && o.table[c.key].error == None)
            && (o.result in {SimulationError, SendError, OnChainError, NotConfirmed} ==>
                  && c.key in o.table && o.table[c.key].status == Failed && o.table[c.key].error == Some(message)
                  && o.table[c.key].txHash == (if c.key in t then t[c.key].txHash else None))
            && (o.result in {AccountError, PollError} ==> o.table == t)
  {
  }

  class PaymentService {
    var table: Table

    constructor ()
      ensures table == map[]
    {
      table := map[];
    }

    method PollTransaction(hash: string, polls: seq<TxStatus>) returns (r: Result)
      ensures r == Poll(hash, polls, 0)
    {
      for i := 0 to MAX_POLLS
        invariant Poll(hash, polls, 0) == Poll(hash, polls, i)
      {
        var status := if i < |polls| then polls[i] else NotFound;
        if status == RpcError {
          return PollError;
        }
        if status == Success {
          return Paid(hash, false);
        }
        if status == OnChainFailure {
          return OnChainError;
        }
      }
      return NotConfirmed;
    }

    method RecordOutcome(p: Params, r: Result, message: string)
      modifies this
      ensures table == if r.Paid? then RecordSuccess(old(table), p, r.txHash)
                       else if RecordsFailure(r) then RecordFailure(old(table), p, message) else old(table)
    {
      if r.Paid? {
        if p.key in table {
          table := table[p.key := table[p.key].(status := Succeeded, txHash := Some(r.txHash), error := None)];
        } else {
          table := table[p.key := Row(p.subscriber, p.merchant, p.token, p.amount, Succeeded, Some(r.txHash), None)];
        }
      } else if r == SimulationError || r == SendError || r == OnChainError || r == NotConfirmed {
        if p.key in table {
          table := table[p.key := table[p.key].(status := Failed, error := Some(message))];
        } else {
          table := table[p.key := Row(p.subscriber, p.merchant, p.token, p.amount, Failed, None, Some(message))];
        }
      }
    }

    method SubmitExecutePayment(c: Call, message: string) returns (r: Result, sent: bool)
      modifies this
      ensures Outcome(table, r, sent) == Submit(old(table), c, message)
    {
      if c.subscriber == "" || c.merchant == "" || !c.addressesValid {
        return BadInput, false;
      }
      var p := Params(c.key, c.subscriber, c.merchant, "token_placeholder", "amount_placeholder");
      if c.key != "" {
        var decision := HandleIdempotencyCheck(table, p);
        if decision.Cached? {
          return Paid(decision.txHash, true), false;
        }
        if decision.Reject? {
          return KeyConflict, false;
        }
      }
      match c.node {
        case NoAccount => return AccountError, false;
        case SimulationFails(_) => r, sent := SimulationError, false;
        case SendFails(_) => r, sent := SendError, false;
        case Sends(hash, polls) =>
          r := PollTransaction(hash, polls);
          sent := true;
      }
      if c.key != "" {
        RecordOutcome(p, r, message);
      }
    }
  }
}
