/** SEP-10 challenge issue and consumption (authService.ts).  The challenge key of an
    account holds the latest nonce; verification removes it with GETDEL before it looks
    at anything else.  XDR decoding and signature checks are given as data. */
module Challenges {
  import opened Wrappers

  type Account = string
  type Nonce = string

  const CHALLENGE_TTL: real := 300.0

  datatype Challenge = Challenge(nonce: Nonce, expiry: real)

  /** A submitted transaction: `nonce` is the value of its ManageData operation, if it has
      one; each signature is checked against the account's key, and a check may throw. */
  datatype SignatureCheck = Valid | Invalid | Threw
  datatype Tx = Tx(source: Account, nonce: Option<Nonce>, signatures: seq<SignatureCheck>)

  datatype Verdict =
    | Accepted(account: Account)
    | BadXdr | NoPendingChallenge | NoManageData | NonceMismatch | NoSignatures | NoValidSignature

  /** What happens at the endpoints.  `Submit(None)` is a body that does not decode. */
  datatype Event =
    | Generate(account: Account, nonce: Nonce, at: real)
    | Submit(tx: Option<Tx>, at: real)

  /** The event reads or writes the challenge key of `a`. */
  predicate Touches(e: Event, a: Account) {
    match e
    case Generate(b, _, _) => b == a
    case Submit(tx, _) => tx.Some? && tx.value.source == a
  }

  function Effect(pending: map<Account, Challenge>, e: Event): map<Account, Challenge> {
    match e
    case Generate(a, n, t) => pending[a := Challenge(n, t + CHALLENGE_TTL)]
    case Submit(tx, _) => if tx.Some? then pending - {tx.value.source} else pending
  }

  function Answer(pending: map<Account, Challenge>, tx: Option<Tx>, at: real): Verdict {
    if tx.None? then BadXdr
    else
      var x := tx.value;
      if x.source !in pending || pending[x.source].expiry <= at then NoPendingChallenge
      else if x.nonce.None? then NoManageData
      else if x.nonce.value != pending[x.source].nonce then NonceMismatch
      else if x.signatures == [] then NoSignatures
      else if Valid !in x.signatures then NoValidSignature
      else Accepted(x.source)
  }

  function Pending(log: seq<Event>): map<Account, Challenge> {
    if log == [] then map[] else Effect(Pending(log[..|log| - 1]), log[|log| - 1])
  }

  /** The answer to the submission at position `i` of the log. */
  function AnswerAt(log: seq<Event>, i: nat): Verdict
    requires i < |log| && log[i].Submit?
  {
    Answer(Pending(log[..i]), log[i].tx, log[i].at)
  }

  // ---------------------------------------------------------------------------
  // Declarative reading of the log
  // ---------------------------------------------------------------------------

  /** Position `j` is the last one before `i` that touches account `a`. */
  ghost predicate LastTouch(log: seq<Event>, i: nat, a: Account, j: int) {
    i <= |log| &&
    0 <= j < i && Touches(log[j], a) && forall k :: j < k < i ==> !Touches(log[k], a)
  }

  /** When submission `i` arrives, the challenge issued at `j` is live for its account: issued less
      than five minutes earlier, with nothing touching that account in between. */
  ghost predicate LiveFor(log: seq<Event>, i: nat, j: int) {
    && i < |log|
    && log[i].Submit? && log[i].tx.Some?
    && LastTouch(log, i, log[i].tx.value.source, j)
    && log[j].Generate?
    && log[i].at < log[j].at + 300.0
  }

  /** Submission `i` answers the challenge issued at `j`: it is live, the nonce is the same, and one
      signature is valid. */
  ghost predicate Answers(log: seq<Event>, i: nat, j: int) {
    && i < |log|
    && LiveFor(log, i, j)
    && log[i].tx.value.nonce == Some(log[j].nonce)
    && Valid in log[i].tx.value.signatures
  }

  ghost predicate AnswersSome(log: seq<Event>, i: nat) {
    exists j :: Answers(log, i, j)
  }

  lemma {:induction false} PendingReading(log: seq<Event>, a: Account)
    ensures a in Pending(log) ==>
              exists j :: LastTouch(log, |log|, a, j) && log[j].Generate? &&
                          Pending(log)[a] == Challenge(log[j].nonce, log[j].at + CHALLENGE_TTL)
    ensures a !in Pending(log) ==> forall j :: LastTouch(log, |log|, a, j) ==> log[j].Submit?
  {
    if log != [] {
      var n := |log| - 1;
      var front := log[..n];
      PendingReading(front, a);
      if Touches(log[n], a) {
        assert LastTouch(log, |log|, a, n);
      } else {
        assert forall j :: LastTouch(log, |log|, a, j) ==> LastTouch(front, n, a, j);
        assert forall j :: LastTouch(front, n, a, j) ==> LastTouch(log, |log|, a, j);
      }
    }
  }

  ghost predicate SomeLive(log: seq<Event>, i: nat) {
    exists j :: LiveFor(log, i, j)
  }

  /** At most one challenge is live for a submission, and it is one of the submission's own account. */
  lemma LiveIsOne(log: seq<Event>, i: nat, j: int, k: int)
    requires i < |log| && LiveFor(log, i, j) && LiveFor(log, i, k)
    ensures j == k && log[j].account == log[i].tx.value.source
  {
  }

  /** The store holds a live challenge exactly when the log shows one, with the same nonce. */
  lemma LiveReading(log: seq<Event>, i: nat)
    requires i < |log| && log[i].Submit? && log[i].tx.Some?
    ensures var a, pending := log[i].tx.value.source, Pending(log[..i]);
            && (a in pending && log[i].at < pending[a].expiry <==> SomeLive(log, i))
            && forall j :: LiveFor(log, i, j) ==> a in pending && pending[a].nonce == log[j].nonce
  {
    var a, pending := log[i].tx.value.source, Pending(log[..i]);
    PendingReading(log[..i], a);
    assert forall j :: LastTouch(log[..i], i, a, j) <==> LastTouch(log, i, a, j);
    if a in pending {
      var j :| LastTouch(log[..i], i, a, j) && log[..i][j].Generate? &&
               pending[a] == Challenge(log[..i][j].nonce, log[..i][j].at + CHALLENGE_TTL);
      assert log[i].at < pending[a].expiry ==> LiveFor(log, i, j);
      assert forall k :: LiveFor(log, i, k) ==> k == j;
    }
  }

  /** A submission is accepted, for exactly one account, if it answers a challenge: its source, which
      is the account the challenge was issued to. */
  lemma AcceptedIffAnswers(log: seq<Event>, i: nat, a: Account)
    requires i < |log| && log[i].Submit?
    ensures AnswerAt(log, i) == Accepted(a) <==> AnswersSome(log, i) && a == log[i].tx.value.source
    ensures forall j :: Answers(log, i, j) ==> log[j].account == log[i].tx.value.source
  {
    if log[i].tx.Some? {
      LiveReading(log, i);
      if j :| LiveFor(log, i, j) {
        LiveIsOne(log, i, j, j);
        assert forall k :: LiveFor(log, i, k) ==> k == j;
        assert log[i].tx.value.nonce == Some(log[j].nonce) && Valid in log[i].tx.value.signatures ==>
                 Answers(log, i, j);
      }
    }
  }

  /** Which refusal a submission gets, read off the log. */
  lemma RefusalReading(log: seq<Event>, i: nat)
    requires i < |log| && log[i].Submit?
    ensures var v, tx := AnswerAt(log, i), log[i].tx;
            && (v == BadXdr <==> tx.None?)
            && (v == NoPendingChallenge <==> tx.Some? && !SomeLive(log, i))
            && forall j :: LiveFor(log, i, j) ==>
                 && (v == NoManageData <==> tx.value.nonce.None?)
                 && (v == NonceMismatch <==> tx.value.nonce.Some? && tx.value.nonce.value != log[j].nonce)
                 && (v == NoSignatures <==> tx.value.nonce == Some(log[j].nonce) && |tx.value.signatures| == 0)
                 && (v == NoValidSignature <==>
                       tx.value.nonce == Some(log[j].nonce) && |tx.value.signatures| > 0 &&
                       forall k :: 0 <= k < |tx.value.signatures| ==> tx.value.signatures[k] != Valid)
  {
    if log[i].tx.Some? { LiveReading(log, i); }
  }

  /** A challenge is answered at most once, by anyone. */
  lemma ChallengeAnsweredOnce(log: seq<Event>, i: nat, k: nat, j: int)
    requires i < |log| && k < |log|
    requires Answers(log, i, j) && Answers(log, k, j)
    ensures i == k
  {
    assert Touches(log[i], log[j].account) && Touches(log[k], log[j].account);
  }

  /** With nonces never generated twice, no nonce is accepted twice. */
  lemma NonceAcceptedOnce(log: seq<Event>, i: nat, k: nat)
    requires forall p, q | 0 <= p < q < |log| && log[p].Generate? && log[q].Generate? :: log[p].nonce != log[q].nonce
    requires i < k < |log|
    requires log[i].Submit? && AnswerAt(log, i).Accepted?
    requires log[k].Submit? && AnswerAt(log, k).Accepted?
    ensures log[i].tx.value.nonce != log[k].tx.value.nonce
  {
    AcceptedIffAnswers(log, i, AnswerAt(log, i).account);
    AcceptedIffAnswers(log, k, AnswerAt(log, k).account);
    var p :| Answers(log, i, p);
    var q :| Answers(log, k, q);
    if p == q {
      ChallengeAnsweredOnce(log, i, k, p);
    }
  }

  class ChallengeService {
    var pending: map<Account, Challenge>
    ghost var log: seq<Event>

    ghost predicate IsCurrent()
      reads this
    {
      pending == Pending(log)
    }

    constructor ()
      ensures IsCurrent() && log == []
    {
      pending, log := map[], [];
    }

    method GenerateChallenge(account: Account, nonce: Nonce, now: real) returns (c: Challenge)
      requires IsCurrent()
      modifies this
      ensures IsCurrent() && log == old(log) + [Generate(account, nonce, now)]
      ensures c == Challenge(nonce, now + 300.0) && pending == old(pending)[account := c]
    {
      c := Challenge(nonce, now + CHALLENGE_TTL);
      pending := pending[account := c];
      log := log + [Generate(account, nonce, now)];
      assert log[..|log| - 1] == old(log);
    }

    method VerifyChallenge(tx: Option<Tx>, now: real) returns (v: Verdict)
      requires IsCurrent()
      modifies this
      ensures IsCurrent() && log == old(log) + [Submit(tx, now)]
      ensures v == AnswerAt(log, |log| - 1)
      ensures v.Accepted? <==> AnswersSome(log, |log| - 1)
      ensures v.Accepted? ==> v.account == tx.value.source
    {
      ghost var before := log;
      log := log + [Submit(tx, now)];
      assert log[..|log| - 1] == before;
      AcceptedIffAnswers(log, |log| - 1, if tx.Some? then tx.value.source else "");
      if tx.None? {
        return BadXdr;
      }
      var account := tx.value.source;
      var found := account in pending && now < pending[account].expiry;
      var nonce := if account in pending then pending[account].nonce else "";
      pending := pending - {account};
      if !found {
        return NoPendingChallenge;
      }
      if tx.value.nonce.None? {
        return NoManageData;
      }
      if tx.value.nonce.value != nonce {
        return NonceMismatch;
      }
      if |tx.value.signatures| == 0 {
        return NoSignatures;
      }
      var signatureValid := false;
      for i := 0 to |tx.value.signatures|
        invariant !signatureValid
        invariant Valid !in tx.value.signatures[..i]
      {
        if tx.value.signatures[i] == Valid {
          signatureValid := true;
          break;
        }
      }
      if !signatureValid {
        return NoValidSignature;
      }
      return Accepted(account);
    }
  }
}
