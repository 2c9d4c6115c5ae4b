/** Refresh-token rotation (authService.ts) as a protocol over Redis.
    Every Redis command is one atomic step, any number of calls interleave, and
    a call may be aborted between two commands.  Redis is a map whose entries
    carry the instant at which they stop being readable; time is real. */
module RefreshTokens {

  type Token = string
  type Family = string
  type Address = string

  const DAY: real := 86400.0
  const TOKEN_TTL: real := 30.0 * DAY
  const MARKER_TTL: real := TOKEN_TTL * 2.0

  datatype Record = Record(tokenId: string, familyId: Family, address: Address, token: Token, expiresAt: int)

  datatype Timed<+V> = Timed(value: V, expiry: real)

  /** Where a call to rotateRefreshToken stands; `start` is the instant of its GETDEL. */
  datatype Call =
    | Missed(token: Token)                            // GETDEL found nothing
    | Replayed(family: Family)                        // the used sentinel was found
    | Consumed(taken: Record, start: real)            // GETDEL removed `taken`
    | Checked(taken: Record, start: real)             // family was not revoked
    | Marked(taken: Record, start: real)              // used sentinel written
    | Rotated(taken: Record, start: real, issued: Record)   // returned `issued`
    | Denied                                          // threw

  /** The three key spaces, the calls, and three history variables:
      every token ever generated, the address each family was issued to, and the
      instant each family was first marked revoked. */
  datatype State = State(
    now: real,
    tokens: map<Token, Timed<Record>>,
    used: map<Token, Timed<Family>>,
    revoked: map<Family, real>,
    calls: map<nat, Call>,
    minted: set<Token>,
    owner: map<Family, Address>,
    revokedAt: map<Family, real>)

  datatype Step =
    | Tick(dt: real)
    | Issue(address: Address, family: Family, token: Token, tokenId: string)
    | GetDelToken(c: nat, presented: Token)
    | GetUsed(c: nat)
    | SetRevoked(c: nat)
    | GetRevoked(c: nat)
    | SetUsed(c: nat)
    | SetToken(c: nat, token: Token, tokenId: string)
    | Abort(c: nat)

  const INIT: State := State(0.0, map[], map[], map[], map[], {}, map[], map[])

  /** A rotation that removed the record of its family and has not stored the replacement. */
  predicate InFlight(call: Call) {
    call.Consumed? || call.Checked? || call.Marked?
  }

  /** A rotation that has, or still may, turn `taken` into a successor. */
  predicate Took(call: Call) {
    InFlight(call) || call.Rotated?
  }

  /** The revocation check of this rotation came out negative. */
  predicate PassedCheck(call: Call) {
    call.Checked? || call.Marked? || call.Rotated?
  }

  predicate Live<V>(m: map<string, Timed<V>>, k: string, now: real) {
    k in m && now < m[k].expiry
  }

  predicate IsRevoked(s: State, f: Family) {
    f in s.revoked && s.now < s.revoked[f]
  }

  predicate Enabled(s: State, step: Step) {
    match step
    case Tick(dt) => 0.0 <= dt
    case Issue(_, f, t, _) => f !in s.owner && t !in s.minted
    case GetDelToken(c, _) => c !in s.calls
    case GetUsed(c) => c in s.calls && s.calls[c].Missed?
    case SetRevoked(c) => c in s.calls && s.calls[c].Replayed?
    case GetRevoked(c) => c in s.calls && s.calls[c].Consumed?
    case SetUsed(c) => c in s.calls && s.calls[c].Checked?
    case SetToken(c, t, _) => c in s.calls && s.calls[c].Marked? && t !in s.minted
    case Abort(c) => c in s.calls && !s.calls[c].Rotated?
  }

  /** A rotation that holds a consumed record takes its next step less than `limit` after its GETDEL. */
  predicate Prompt(limit: real, s: State, step: Step) {
    (step.GetRevoked? || step.SetUsed? || step.SetToken?) && step.c in s.calls && InFlight(s.calls[step.c])
    ==> s.now < s.calls[step.c].start + limit
  }

  function NewRecord(s: State, tokenId: string, f: Family, a: Address, t: Token): Record {
    Record(tokenId, f, a, t, s.now.Floor + 30 * 24 * 60 * 60)
  }

  function Next(s: State, step: Step): State
    requires Enabled(s, step)
  {
    match step
    case Tick(dt) => s.(now := s.now + dt)
    case Issue(a, f, t, id) =>
      s.(tokens := s.tokens[t := Timed(NewRecord(s, id, f, a, t), s.now + TOKEN_TTL)],
         minted := s.minted + {t},
         owner := s.owner[f := a])
    case GetDelToken(c, t) =>
      var call := if Live(s.tokens, t, s.now) then Consumed(s.tokens[t].value, s.now) else Missed(t);
      s.(tokens := s.tokens - {t}, calls := s.calls[c := call])
    case GetUsed(c) =>
      var t := s.calls[c].token;
      s.(calls := s.calls[c := if Live(s.used, t, s.now) then Replayed(s.used[t].value) else Denied])
    case SetRevoked(c) =>
      var f := s.calls[c].family;
      s.(revoked := s.revoked[f := s.now + MARKER_TTL],
         calls := s.calls[c := Denied],
         revokedAt := if f in s.revokedAt then s.revokedAt else s.revokedAt[f := s.now])
    case GetRevoked(c) =>
      var call := s.calls[c];
      s.(calls := s.calls[c := if IsRevoked(s, call.taken.familyId) then Denied else Checked(call.taken, call.start)])
    case SetUsed(c) =>
      var call := s.calls[c];
      s.(used := s.used[call.taken.token := Timed(call.taken.familyId, s.now + MARKER_TTL)],
         calls := s.calls[c := Marked(call.taken, call.start)])
    case SetToken(c, t, id) =>
      var call := s.calls[c];
      var rec := NewRecord(s, id, call.taken.familyId, call.taken.address, t);
      s.(tokens := s.tokens[t := Timed(rec, s.now + TOKEN_TTL)],
         minted := s.minted + {t},
         calls := s.calls[c := Rotated(call.taken, call.start, rec)])
    case Abort(c) => s.(calls := s.calls[c := Denied])
  }

  ghost predicate IsRun(s: State, steps: seq<Step>)
    decreases |steps|
  {
    steps == [] || (Enabled(s, steps[0]) && IsRun(Next(s, steps[0]), steps[1..]))
  }

  ghost predicate IsPromptRun(limit: real, s: State, steps: seq<Step>)
    decreases |steps|
  {
    steps == [] ||
    (Enabled(s, steps[0]) && Prompt(limit, s, steps[0]) && IsPromptRun(limit, Next(s, steps[0]), steps[1..]))
  }

  ghost function Exec(s: State, steps: seq<Step>): State
    requires IsRun(s, steps)
    decreases |steps|
  {
    if steps == [] then s else Exec(Next(s, steps[0]), steps[1..])
  }

  // ---------------------------------------------------------------------------
  // Conservation: one carrier per family
  // ---------------------------------------------------------------------------

  /** What can still produce the next token of a family. */
  datatype Carrier = Stored(token: Token) | Held(call: nat)

  predicate Carries(s: State, x: Carrier, f: Family) {
    match x
    case Stored(t) => t in s.tokens && s.tokens[t].value.familyId == f
    case Held(c) => c in s.calls && InFlight(s.calls[c]) && s.calls[c].taken.familyId == f
  }

  ghost predicate OneCarrier(s: State) {
    forall f, x, y :: Carries(s, x, f) && Carries(s, y, f) ==> x == y
  }

  predicate Known(s: State, r: Record) {
    r.token in s.minted && r.familyId in s.owner && r.address == s.owner[r.familyId]
  }

  ghost predicate StoredKnown(s: State) {
    forall t :: t in s.tokens ==> s.tokens[t].value.token == t && Known(s, s.tokens[t].value)
  }

  ghost predicate CallsKnown(s: State) {
    && (forall c :: c in s.calls && Took(s.calls[c]) ==>
          Known(s, s.calls[c].taken) && s.calls[c].taken.token !in s.tokens)
    && (forall c :: c in s.calls && s.calls[c].Rotated? ==>
          Known(s, s.calls[c].issued) && s.calls[c].issued.familyId == s.calls[c].taken.familyId)
  }

  ghost predicate RecordsKnown(s: State) { StoredKnown(s) && CallsKnown(s) }

  ghost predicate TakenOnce(s: State) {
    forall c, d | c in s.calls && d in s.calls && Took(s.calls[c]) && Took(s.calls[d]) && c != d ::
      s.calls[c].taken.token != s.calls[d].taken.token
  }

  ghost predicate Inv(s: State) {
    RecordsKnown(s) && TakenOnce(s) && OneCarrier(s)
  }

  lemma StoredKnownStep(s: State, step: Step)
    requires RecordsKnown(s) && Enabled(s, step)
    ensures StoredKnown(Next(s, step))
  {
  }

  lemma CallsKnownStep(s: State, step: Step)
    requires RecordsKnown(s) && Enabled(s, step)
    ensures CallsKnown(Next(s, step))
  {
  }

  lemma TakenOnceStep(s: State, step: Step)
    requires Inv(s) && Enabled(s, step)
    ensures TakenOnce(Next(s, step))
  {
  }

  /** The carrier before the step that became carrier `x`. */
  function Origin(step: Step, x: Carrier): Carrier {
    match step
    case GetDelToken(c, t) => if x == Held(c) then Stored(t) else x
    case SetToken(c, t, _) => if x == Stored(t) then Held(c) else x
    case _ => x
  }

  /** Except for the first token of a fresh family, a carrier after a step was a carrier of the
      same family before it, or took over from one that the step removed. */
  lemma OriginCarries(s: State, step: Step, x: Carrier, f: Family)
    requires RecordsKnown(s) && Enabled(s, step) && Carries(Next(s, step), x, f)
    requires !(step.Issue? && step.family == f)
    ensures Carries(s, Origin(step, x), f)
  {
  }

  lemma OneCarrierStep(s: State, step: Step)
    requires Inv(s) && Enabled(s, step)
    ensures OneCarrier(Next(s, step))
  {
    var s' := Next(s, step);
    forall f, x, y | Carries(s', x, f) && Carries(s', y, f)
      ensures x == y
    {
      if step.Issue? && step.family == f {
        assert !Carries(s, x, f) && !Carries(s, y, f);
      } else {
        OriginCarries(s, step, x, f);
        OriginCarries(s, step, y, f);
        assert Origin(step, x) == Origin(step, y);
      }
    }
  }

  lemma InvRun(s: State, steps: seq<Step>)
    requires Inv(s) && IsRun(s, steps)
    ensures Inv(Exec(s, steps))
    decreases |steps|
  {
    if steps != [] {
      StoredKnownStep(s, steps[0]);
      CallsKnownStep(s, steps[0]);
      TakenOnceStep(s, steps[0]);
      OneCarrierStep(s, steps[0]);
      InvRun(Next(s, steps[0]), steps[1..]);
    }
  }

  // ---------------------------------------------------------------------------
  // Theorems about every interleaving
  // ---------------------------------------------------------------------------

  /** The carriers of a family as a set. */
  ghost function Carriers(s: State, f: Family): set<Carrier> {
    (set t | t in s.tokens && Carries(s, Stored(t), f) :: Stored(t)) +
    (set c | c in s.calls && Carries(s, Held(c), f) :: Held(c))
  }

  /** In every reachable state a family has at most one stored record or in-flight
      rotation, counting records whose time to live has ended. */
  lemma FamilyHasOneCarrier(steps: seq<Step>, f: Family)
    requires IsRun(INIT, steps)
    ensures |Carriers(Exec(INIT, steps), f)| <= 1
  {
    InvRun(INIT, steps);
    AtMostOneCarrier(Exec(INIT, steps), f);
  }

  lemma AtMostOneCarrier(s: State, f: Family)
    requires OneCarrier(s)
    ensures |Carriers(s, f)| <= 1
  {
    var cs := Carriers(s, f);
    if x :| x in cs {
      forall y | y in cs
        ensures y == x
      {
        assert Carries(s, x, f) && Carries(s, y, f);
      }
      assert cs == {x};
    }
  }

  /** No token is ever rotated successfully by two calls. */
  lemma TokenRotatesOnce(steps: seq<Step>, c: nat, d: nat)
    requires IsRun(INIT, steps)
    requires c in Exec(INIT, steps).calls && Exec(INIT, steps).calls[c].Rotated?
    requires d in Exec(INIT, steps).calls && Exec(INIT, steps).calls[d].Rotated?
    requires c != d
    ensures Exec(INIT, steps).calls[c].taken.token != Exec(INIT, steps).calls[d].taken.token
  {
    InvRun(INIT, steps);
  }

  /** Every record handed out belongs to the address its family was issued to, and a
      rotation stays in the family of the token it was given. */
  lemma FamilyKeepsAddress(steps: seq<Step>, c: nat)
    requires IsRun(INIT, steps)
    requires c in Exec(INIT, steps).calls && Exec(INIT, steps).calls[c].Rotated?
    ensures var s := Exec(INIT, steps); var call := s.calls[c];
            call.taken.familyId in s.owner && call.issued.familyId == call.taken.familyId &&
            call.issued.address == call.taken.address == s.owner[call.taken.familyId]
  {
    InvRun(INIT, steps);
  }

  /** A family's address never changes once set. */
  lemma OwnerIsStable(s: State, steps: seq<Step>, f: Family)
    requires IsRun(s, steps) && f in s.owner
    ensures f in Exec(s, steps).owner && Exec(s, steps).owner[f] == s.owner[f]
    decreases |steps|
  {
    if steps != [] { OwnerIsStable(Next(s, steps[0]), steps[1..], f); }
  }

  // ---------------------------------------------------------------------------
  // Replay detection
  // ---------------------------------------------------------------------------

  /** A token that was marked used has a sentinel naming its family, good for MARKER_TTL from
      the GETDEL that consumed it. */
  ghost predicate SentinelsOk(s: State) {
    && (forall c :: c in s.calls && InFlight(s.calls[c]) ==> s.calls[c].start <= s.now)
    && (forall c :: c in s.calls && (s.calls[c].Marked? || s.calls[c].Rotated?) ==>
          HasSentinel(s, s.calls[c].taken, s.calls[c].start))
  }

  predicate HasSentinel(s: State, r: Record, start: real) {
    r.token in s.used && s.used[r.token].value == r.familyId && start + MARKER_TTL <= s.used[r.token].expiry
  }

  lemma SentinelsStep(s: State, step: Step)
    requires Inv(s) && SentinelsOk(s) && Enabled(s, step)
    ensures SentinelsOk(Next(s, step))
  {
    var s' := Next(s, step);
    forall c | c in s'.calls && (s'.calls[c].Marked? || s'.calls[c].Rotated?)
      ensures HasSentinel(s', s'.calls[c].taken, s'.calls[c].start)
    {
      if step.SetUsed? && step.c != c {
        assert s.calls[c].taken.token != s.calls[step.c].taken.token;
      }
    }
  }

  lemma SentinelsRun(s: State, steps: seq<Step>)
    requires Inv(s) && SentinelsOk(s) && IsRun(s, steps)
    ensures SentinelsOk(Exec(s, steps)) && Inv(Exec(s, steps))
    decreases |steps|
  {
    if steps != [] {
      InvRun(s, steps[..1]);
      assert Exec(s, steps[..1]) == Next(s, steps[0]);
      SentinelsStep(s, steps[0]);
      SentinelsRun(Next(s, steps[0]), steps[1..]);
    }
  }

  /** Presenting a rotated token again within 60 days of its consumption is recognised, whatever
      happened in between: the three commands of that call end with the family revoked. */
  lemma ReplayRevokesFamily(steps: seq<Step>, c: nat, d: nat)
    requires IsRun(INIT, steps)
    requires var s := Exec(INIT, steps);
             c in s.calls && s.calls[c].Rotated? && d !in s.calls && s.now < s.calls[c].start + 5_184_000.0
    ensures var s := Exec(INIT, steps); var t := s.calls[c].taken;
            var replay := [GetDelToken(d, t.token), GetUsed(d), SetRevoked(d)];
            IsRun(s, replay) && IsRevoked(Exec(s, replay), t.familyId) &&
            d in Exec(s, replay).calls && Exec(s, replay).calls[d] == Denied
  {
    SentinelsRun(INIT, steps);
    var s := Exec(INIT, steps);
    var t := s.calls[c].taken;
    assert HasSentinel(s, t, s.calls[c].start) && t.token !in s.tokens;
    var s1 := Next(s, GetDelToken(d, t.token));
    var s2 := Next(s1, GetUsed(d));
    ThreeSteps(s, GetDelToken(d, t.token), GetUsed(d), SetRevoked(d));
  }

  lemma OneStep(s: State, a: Step)
    requires Enabled(s, a)
    ensures IsRun(s, [a]) && Exec(s, [a]) == Next(s, a)
  {
    assert [a][1..] == [];
    assert IsRun(Next(s, a), [a][1..]);
  }

  lemma ThreeSteps(s: State, a: Step, b: Step, c: Step)
    requires Enabled(s, a) && Enabled(Next(s, a), b) && Enabled(Next(Next(s, a), b), c)
    ensures IsRun(s, [a, b, c]) && Exec(s, [a, b, c]) == Next(Next(Next(s, a), b), c)
  {
    OneStep(s, a);
    RunSnoc(s, [a], b);
    RunSnoc(s, [a] + [b], c);
    assert [a] + [b] + [c] == [a, b, c];
  }

  // ---------------------------------------------------------------------------
  // What a step leaves alone, and what a holder can rely on
  // ---------------------------------------------------------------------------

  /** `k` is in both maps with the same value, or in neither. */
  predicate Same<K, V(==)>(m: map<K, V>, m': map<K, V>, k: K) {
    (k in m <==> k in m') && (k in m ==> m[k] == m'[k])
  }

  /** The token whose key the step reads or writes. */
  predicate NamesToken(step: Step, t: Token) {
    match step
    case Issue(_, _, u, _) => t == u
    case GetDelToken(_, u) => t == u
    case SetToken(_, u, _) => t == u
    case _ => false
  }

  /** A step writes one key of each store at most, and the key is the one it names. */
  lemma StepTouchesItsKey(s: State, step: Step)
    requires Enabled(s, step)
    ensures var s' := Next(s, step);
            && (step.Tick? ==> s' == s.(now := s.now + step.dt))
            && (!step.Tick? ==> s'.now == s.now)
            && (forall t :: !NamesToken(step, t) ==> Same(s.tokens, s'.tokens, t))
            && (step.GetDelToken? ==> step.presented !in s'.tokens)
            && (forall t :: !(step.SetUsed? && t == s.calls[step.c].taken.token) ==> Same(s.used, s'.used, t))
            && (forall f :: !(step.SetRevoked? && f == s.calls[step.c].family) ==> Same(s.revoked, s'.revoked, f))
            && (forall c :: step.Tick? || step.Issue? || c != step.c ==> Same(s.calls, s'.calls, c))
  {
  }

  ghost predicate NeverPresented(steps: seq<Step>, t: Token) {
    forall i :: 0 <= i < |steps| && steps[i].GetDelToken? ==> steps[i].presented != t
  }

  /** A stored token stays as it is until somebody presents it. */
  lemma {:induction false} TokenStays(s: State, steps: seq<Step>, t: Token)
    requires Inv(s) && IsRun(s, steps) && t in s.tokens && NeverPresented(steps, t)
    ensures t in Exec(s, steps).tokens && Exec(s, steps).tokens[t] == s.tokens[t]
    decreases |steps|
  {
    if steps != [] {
      assert Known(s, s.tokens[t].value);
      InvRun(s, steps[..1]);
      assert Exec(s, steps[..1]) == Next(s, steps[0]);
      TokenStaysOne(s, steps[0], t);
      TokenStays(Next(s, steps[0]), steps[1..], t);
    }
  }

  lemma TokenStaysOne(s: State, step: Step, t: Token)
    requires Enabled(s, step) && t in s.tokens && t in s.minted
    requires step.GetDelToken? ==> step.presented != t
    ensures t in Next(s, step).tokens && Next(s, step).tokens[t] == s.tokens[t]
  {
  }

  /** The step hands out `t` for `a` in family `f`: a first token, or the replacement of one. */
  predicate HandsOut(s: State, step: Step, t: Token, f: Family, a: Address) {
    || (step.Issue? && step.token == t && step.family == f && step.address == a)
    || (step.SetToken? && step.token == t && step.c in s.calls && s.calls[step.c].Marked? &&
        s.calls[step.c].taken.familyId == f && s.calls[step.c].taken.address == a)
  }

  /** The record that is handed out, with its end of life in whole seconds. */
  lemma HandedOutIsStored(s: State, step: Step, t: Token, f: Family, a: Address)
    requires Enabled(s, step) && HandsOut(s, step, t, f, a)
    ensures var s' := Next(s, step);
            && t in s'.tokens && s'.tokens[t].expiry == s.now + 2_592_000.0
            && s'.tokens[t].value ==
               Record(step.tokenId, f, a, t, s.now.Floor + 2_592_000)
  {
  }

  /** The commands of a rotation that nothing disturbs. */
  function Rotation(c: nat, t: Token, t2: Token, id: string): seq<Step> {
    [GetDelToken(c, t), GetRevoked(c), SetUsed(c), SetToken(c, t2, id)]
  }

  /** Rotating a live token of an unmarked family succeeds, in its family and for its address. */
  lemma LiveTokenRotates(s: State, c: nat, t: Token, t2: Token, id: string)
    requires Live(s.tokens, t, s.now) && !IsRevoked(s, s.tokens[t].value.familyId)
    requires c !in s.calls && t2 !in s.minted && t != t2
    ensures var taken := s.tokens[t].value;
            var issued := Record(id, taken.familyId, taken.address, t2, s.now.Floor + 2_592_000);
            && IsRun(s, Rotation(c, t, t2, id))
            && c in Exec(s, Rotation(c, t, t2, id)).calls
            && Exec(s, Rotation(c, t, t2, id)).calls[c] == Rotated(taken, s.now, issued)
            && t !in Exec(s, Rotation(c, t, t2, id)).tokens
            && t2 in Exec(s, Rotation(c, t, t2, id)).tokens
            && Exec(s, Rotation(c, t, t2, id)).tokens[t2] == Timed(issued, s.now + 2_592_000.0)
  {
    var s1 := Next(s, GetDelToken(c, t));
    var s2 := Next(s1, GetRevoked(c));
    var s3 := Next(s2, SetUsed(c));
    ThreeSteps(s, GetDelToken(c, t), GetRevoked(c), SetUsed(c));
    RunSnoc(s, [GetDelToken(c, t), GetRevoked(c), SetUsed(c)], SetToken(c, t2, id));
    assert [GetDelToken(c, t), GetRevoked(c), SetUsed(c)] + [SetToken(c, t2, id)] == Rotation(c, t, t2, id);
  }

  /** A token that was handed out and not presented since rotates within its 30 days, whatever ran
      in between, unless its family is marked. */
  lemma HandedOutTokenRotates(before: seq<Step>, step: Step, after: seq<Step>, t: Token, f: Family, a: Address,
                              c: nat, t2: Token, id: string)
    requires IsRun(INIT, before) && Enabled(Exec(INIT, before), step)
    requires HandsOut(Exec(INIT, before), step, t, f, a)
    requires IsRun(Next(Exec(INIT, before), step), after) && NeverPresented(after, t)
    requires var s := Exec(Next(Exec(INIT, before), step), after);
             && s.now < Exec(INIT, before).now + 2_592_000.0 && !IsRevoked(s, f)
             && c !in s.calls && t2 !in s.minted
    ensures var s := Exec(Next(Exec(INIT, before), step), after);
            && IsRun(s, Rotation(c, t, t2, id))
            && c in Exec(s, Rotation(c, t, t2, id)).calls
            && var call := Exec(s, Rotation(c, t, t2, id)).calls[c];
               call.Rotated? && call.issued.familyId == f && call.issued.address == a && call.issued.token == t2
  {
    var s0 := Exec(INIT, before);
    var s1 := Next(s0, step);
    InvRun(INIT, before);
    HandedOutIsStored(s0, step, t, f, a);
    RunSnoc(INIT, before, step);
    InvRun(INIT, before + [step]);
    TokenStays(s1, after, t);
    InvRun(s1, after);
    var s := Exec(s1, after);
    assert Known(s, s.tokens[t].value);
    LiveTokenRotates(s, c, t, t2, id);
  }

  // ---------------------------------------------------------------------------
  // Only a replay revokes
  // ---------------------------------------------------------------------------

  /** A token with a sentinel is gone, and no rotation still holds it before its own sentinel. */
  ghost predicate UsedSpent(s: State) {
    forall t :: t in s.used ==>
      && t in s.minted && t !in s.tokens
      && forall c :: c in s.calls && (s.calls[c].Consumed? || s.calls[c].Checked?) ==> s.calls[c].taken.token != t
  }

  /** What the steps so far say about who presented what. */
  ghost predicate CallsPresented(hist: seq<Step>, s: State) {
    && (forall c :: c in s.calls && s.calls[c].Missed? ==> GetDelToken(c, s.calls[c].token) in hist)
    && (forall c :: c in s.calls && InFlight(s.calls[c]) ==> GetDelToken(c, s.calls[c].taken.token) in hist)
  }

  ghost predicate PresentedBy(hist: seq<Step>, s: State, t: Token, c: nat) {
    GetDelToken(c, t) in hist && c in s.calls && !s.calls[c].Missed?
  }

  ghost predicate UsedPresented(hist: seq<Step>, s: State) {
    forall t :: t in s.used ==> exists c :: PresentedBy(hist, s, t, c)
  }

  predicate SentinelNames(s: State, t: Token, f: Family) { t in s.used && s.used[t].value == f }

  /** Two calls presented a token whose sentinel names `f`. */
  ghost predicate ReplaySeen(hist: seq<Step>, s: State, f: Family) {
    exists t, c, d :: c != d && GetDelToken(c, t) in hist && GetDelToken(d, t) in hist && SentinelNames(s, t, f)
  }

  ghost predicate RevokedByReplay(hist: seq<Step>, s: State) {
    && (forall c :: c in s.calls && s.calls[c].Replayed? ==> ReplaySeen(hist, s, s.calls[c].family))
    && (forall f :: f in s.revoked || f in s.revokedAt ==> ReplaySeen(hist, s, f))
  }

  ghost predicate ReplayInv(hist: seq<Step>, s: State) {
    Inv(s) && UsedSpent(s) && CallsPresented(hist, s) && UsedPresented(hist, s) && RevokedByReplay(hist, s)
  }

  lemma UsedSpentStep(s: State, step: Step)
    requires Inv(s) && UsedSpent(s) && Enabled(s, step)
    ensures UsedSpent(Next(s, step))
  {
  }

  lemma CallsPresentedStep(hist: seq<Step>, s: State, step: Step)
    requires CallsPresented(hist, s) && Inv(s) && Enabled(s, step)
    ensures CallsPresented(hist + [step], Next(s, step))
  {
  }

  lemma UsedPresentedStep(hist: seq<Step>, s: State, step: Step)
    requires CallsPresented(hist, s) && UsedPresented(hist, s) && Enabled(s, step)
    ensures UsedPresented(hist + [step], Next(s, step))
  {
    var s' := Next(s, step);
    forall t | t in s'.used
      ensures exists c :: PresentedBy(hist + [step], s', t, c)
    {
      if step.SetUsed? && t == s.calls[step.c].taken.token {
        assert PresentedBy(hist + [step], s', t, step.c);
      } else {
        var c :| PresentedBy(hist, s, t, c);
        assert PresentedBy(hist + [step], s', t, c);
      }
    }
  }

  /** A sentinel keeps naming the same family. */
  lemma ReplaySeenStep(hist: seq<Step>, s: State, step: Step, f: Family)
    requires UsedSpent(s) && Enabled(s, step) && ReplaySeen(hist, s, f)
    ensures ReplaySeen(hist + [step], Next(s, step), f)
  {
    var t, c, d :| c != d && GetDelToken(c, t) in hist && GetDelToken(d, t) in hist && SentinelNames(s, t, f);
    assert GetDelToken(c, t) in hist + [step] && GetDelToken(d, t) in hist + [step];
    assert SentinelNames(Next(s, step), t, f);
  }

  /** Finding a live sentinel is finding the second presentation. */
  lemma FoundSentinel(hist: seq<Step>, s: State, c: nat)
    requires CallsPresented(hist, s) && UsedPresented(hist, s) && Enabled(s, GetUsed(c))
    requires s.calls[c].token in s.used
    ensures ReplaySeen(hist, s, s.used[s.calls[c].token].value)
  {
    var t := s.calls[c].token;
    var d :| PresentedBy(hist, s, t, d);
    assert c != d && GetDelToken(c, t) in hist && GetDelToken(d, t) in hist && SentinelNames(s, t, s.used[t].value);
  }

  lemma RevokedByReplayStep(hist: seq<Step>, s: State, step: Step)
    requires ReplayInv(hist, s) && Enabled(s, step)
    ensures RevokedByReplay(hist + [step], Next(s, step))
  {
    var s' := Next(s, step);
    if step.GetUsed? && s.calls[step.c].token in s.used { FoundSentinel(hist, s, step.c); }
    forall c | c in s'.calls && s'.calls[c].Replayed?
      ensures ReplaySeen(hist + [step], s', s'.calls[c].family)
    {
      ReplaySeenStep(hist, s, step, s'.calls[c].family);
    }
    forall f | f in s'.revoked || f in s'.revokedAt
      ensures ReplaySeen(hist + [step], s', f)
    {
      ReplaySeenStep(hist, s, step, f);
    }
  }

  lemma {:induction false} ReplayInvRun(steps: seq<Step>)
    requires IsRun(INIT, steps)
    ensures ReplayInv(steps, Exec(INIT, steps))
  {
    InvRun(INIT, steps);
    if steps != [] {
      var hist, step := steps[..|steps| - 1], steps[|steps| - 1];
      assert steps == hist + [step];
      RunUnsnoc(INIT, hist, step);
      ReplayInvRun(hist);
      var s := Exec(INIT, hist);
      UsedSpentStep(s, step);
      CallsPresentedStep(hist, s, step);
      UsedPresentedStep(hist, s, step);
      RevokedByReplayStep(hist, s, step);
    }
  }

  lemma {:induction false} RunUnsnoc(s: State, steps: seq<Step>, step: Step)
    requires IsRun(s, steps + [step])
    ensures IsRun(s, steps) && Enabled(Exec(s, steps), step)
    ensures Exec(s, steps + [step]) == Next(Exec(s, steps), step)
    decreases |steps|
  {
    if steps == [] {
      assert steps + [step] == [step];
    } else {
      assert (steps + [step])[1..] == steps[1..] + [step];
      RunUnsnoc(Next(s, steps[0]), steps[1..], step);
    }
  }

  /** In every run a family is marked only if two calls presented the same token of it. */
  lemma RevocationNeedsReplay(steps: seq<Step>, f: Family)
    requires IsRun(INIT, steps) && f in Exec(INIT, steps).revoked
    ensures ReplaySeen(steps, Exec(INIT, steps), f)
  {
    ReplayInvRun(steps);
  }

  // ---------------------------------------------------------------------------
  // Revocation
  // ---------------------------------------------------------------------------

  /** What holds of a family first revoked at instant `r`: the marker lives for
      MARKER_TTL, stored records die before `r + limit + TOKEN_TTL`, and only
      rotations begun by `r` are past their check. */
  ghost predicate Fenced(limit: real, s: State, f: Family, r: real) {
    && r <= s.now
    && f in s.revoked && r + MARKER_TTL <= s.revoked[f]
    && (forall t :: t in s.tokens && s.tokens[t].value.familyId == f ==>
          s.tokens[t].expiry <= r + limit + TOKEN_TTL)
    && (forall c :: c in s.calls && s.calls[c].Consumed? && s.calls[c].taken.familyId == f ==>
          s.calls[c].start < r + limit + TOKEN_TTL)
    && (forall c :: c in s.calls && (s.calls[c].Checked? || s.calls[c].Marked?) && s.calls[c].taken.familyId == f ==>
          s.calls[c].start <= r)
  }

  /** Every family that is mentioned anywhere has been issued. */
  ghost predicate FamiliesIssued(s: State) {
    && (forall t :: t in s.tokens ==> s.tokens[t].value.familyId in s.owner)
    && (forall t :: t in s.used ==> s.used[t].value in s.owner)
    && (forall c :: c in s.calls && InFlight(s.calls[c]) ==> s.calls[c].taken.familyId in s.owner)
    && (forall c :: c in s.calls && s.calls[c].Replayed? ==> s.calls[c].family in s.owner)
    && s.revokedAt.Keys <= s.owner.Keys
  }

  ghost predicate ClocksOk(s: State) {
    && (forall t :: t in s.tokens ==> s.tokens[t].expiry <= s.now + TOKEN_TTL)
    && (forall c :: c in s.calls && InFlight(s.calls[c]) ==> s.calls[c].start <= s.now)
  }

  ghost predicate TimeInv(limit: real, s: State) {
    && FamiliesIssued(s)
    && ClocksOk(s)
    && (forall f :: f in s.revokedAt ==> Fenced(limit, s, f, s.revokedAt[f]))
  }

  /** The calls of a family whose revocation check came out negative. */
  ghost function Passed(s: State, f: Family): set<nat> {
    set c | c in s.calls && PassedCheck(s.calls[c]) && s.calls[c].taken.familyId == f
  }

  lemma FencedStep(limit: real, s: State, step: Step, f: Family)
    requires 0.0 <= limit <= 15.0 * DAY
    requires TimeInv(limit, s) && Enabled(s, step) && Prompt(limit, s, step)
    requires f in s.revokedAt
    ensures Fenced(limit, Next(s, step), f, s.revokedAt[f])
  {
    assert Fenced(limit, s, f, s.revokedAt[f]);
  }

  lemma PassedStep(limit: real, s: State, step: Step, f: Family)
    requires 0.0 <= limit <= 15.0 * DAY
    requires TimeInv(limit, s) && Enabled(s, step) && Prompt(limit, s, step)
    requires f in s.revokedAt
    ensures Passed(Next(s, step), f) <= Passed(s, f)
  {
    assert Fenced(limit, s, f, s.revokedAt[f]);
  }

  lemma FamiliesIssuedStep(s: State, step: Step)
    requires FamiliesIssued(s) && Enabled(s, step)
    ensures FamiliesIssued(Next(s, step))
  {
  }

  lemma ClocksOkStep(s: State, step: Step)
    requires ClocksOk(s) && Enabled(s, step)
    ensures ClocksOk(Next(s, step))
  {
  }

  /** A family revoked by this very step. */
  lemma FencedAtRevocation(limit: real, s: State, step: Step, f: Family)
    requires 0.0 <= limit
    requires TimeInv(limit, s) && Enabled(s, step)
    requires f in Next(s, step).revokedAt && f !in s.revokedAt
    ensures Fenced(limit, Next(s, step), f, Next(s, step).revokedAt[f])
  {
  }

  lemma TimeInvStep(limit: real, s: State, step: Step)
    requires 0.0 <= limit <= 15.0 * DAY
    requires TimeInv(limit, s) && Enabled(s, step) && Prompt(limit, s, step)
    ensures TimeInv(limit, Next(s, step))
  {
    var s' := Next(s, step);
    FamiliesIssuedStep(s, step);
    ClocksOkStep(s, step);
    forall f | f in s'.revokedAt
      ensures Fenced(limit, s', f, s'.revokedAt[f])
    {
      if f in s.revokedAt {
        FencedStep(limit, s, step, f);
      } else {
        FencedAtRevocation(limit, s, step, f);
      }
    }
  }

  lemma PassedFrozen(limit: real, s: State, steps: seq<Step>, f: Family)
    requires 0.0 <= limit <= 15.0 * DAY
    requires TimeInv(limit, s) && IsPromptRun(limit, s, steps)
    requires f in s.revokedAt
    ensures IsRun(s, steps) && Passed(Exec(s, steps), f) <= Passed(s, f)
    decreases |steps|
  {
    if steps != [] {
      PassedStep(limit, s, steps[0], f);
      TimeInvStep(limit, s, steps[0]);
      PassedFrozen(limit, Next(s, steps[0]), steps[1..], f);
    }
  }

  lemma TimeInvRun(limit: real, s: State, steps: seq<Step>)
    requires 0.0 <= limit <= 15.0 * DAY
    requires TimeInv(limit, s) && IsPromptRun(limit, s, steps)
    ensures IsRun(s, steps) && TimeInv(limit, Exec(s, steps))
    decreases |steps|
  {
    if steps != [] {
      TimeInvStep(limit, s, steps[0]);
      TimeInvRun(limit, Next(s, steps[0]), steps[1..]);
    }
  }

  /** Call `c` has passed its check in family `f` after `after`, although `f` was marked revoked by
      the end of `before` and the check came later. */
  ghost predicate Escapes(limit: real, before: seq<Step>, after: seq<Step>, f: Family, c: nat) {
    && IsPromptRun(limit, INIT, before) && IsRun(INIT, before)
    && IsPromptRun(limit, Exec(INIT, before), after) && IsRun(Exec(INIT, before), after)
    && f in Exec(INIT, before).revokedAt
    && c in Passed(Exec(Exec(INIT, before), after), f)
    && c !in Passed(Exec(INIT, before), f)
  }

  /** With calls shorter than `limit`, no rotation of a revoked family passes its check, ever. */
  ghost predicate RevocationIsFinal(limit: real) {
    forall before, after, f, c :: !Escapes(limit, before, after, f, c)
  }

  /** With calls shorter than `limit`, no rotation of a revoked family checked later returns a token, ever. */
  ghost predicate NoLateSuccess(limit: real) {
    forall before, after, f, c :: Escapes(limit, before, after, f, c) ==>
      !Exec(Exec(INIT, before), after).calls[c].Rotated?
  }

  lemma RevocationFinalWithin15Days(limit: real)
    requires 0.0 <= limit <= 15.0 * DAY
    ensures RevocationIsFinal(limit) && NoLateSuccess(limit)
  {
    forall before, after, f, c | Escapes(limit, before, after, f, c)
      ensures false
    {
      TimeInvRun(limit, INIT, before);
      PassedFrozen(limit, Exec(INIT, before), after, f);
    }
  }

  /** A prompt run `steps` leads from `s` to `end`. */
  ghost predicate Leads(limit: real, s: State, steps: seq<Step>, end: State) {
    IsPromptRun(limit, s, steps) && IsRun(s, steps) && Exec(s, steps) == end
  }

  /** Appending one admissible step to a prompt run. */
  lemma Extend(limit: real, s: State, steps: seq<Step>, mid: State, step: Step, end: State)
    requires Leads(limit, s, steps, mid)
    requires Enabled(mid, step) && Prompt(limit, mid, step) && Next(mid, step) == end
    ensures Leads(limit, s, steps + [step], end)
    decreases |steps|
  {
    if steps == [] {
      assert steps + [step] == [step];
    } else {
      assert (steps + [step])[1..] == steps[1..] + [step];
      Extend(limit, Next(s, steps[0]), steps[1..], mid, step, end);
    }
  }

  lemma Then(limit: real, s: State, steps: seq<Step>, mid: State, step: Step)
    returns (more: seq<Step>, end: State)
    requires Leads(limit, s, steps, mid) && Enabled(mid, step) && Prompt(limit, mid, step)
    ensures Leads(limit, s, more, end) && end == Next(mid, step)
  {
    more, end := steps + [step], Next(mid, step);
    Extend(limit, s, steps, mid, step, end);
  }

  /** Call 0 rotates t0 and stalls before storing its replacement. */
  lemma StalledRotation(limit: real) returns (steps: seq<Step>, s: State)
    requires 15.0 * DAY < limit
    ensures Leads(limit, INIT, steps, s)
    ensures s.now == 0.0 && s.tokens == map[] && s.minted == {"t0"} && s.revoked == map[] && s.revokedAt == map[]
    ensures s.used == map["t0" := Timed("f", MARKER_TTL)]
    ensures s.calls.Keys == {0}
    ensures s.calls[0].Marked? && s.calls[0].start == 0.0 && s.calls[0].taken.familyId == "f"
  {
    steps, s := [], INIT;
    steps, s := Then(limit, INIT, steps, s, Issue("a", "f", "t0", "1"));
    steps, s := Then(limit, INIT, steps, s, GetDelToken(0, "t0"));
    steps, s := Then(limit, INIT, steps, s, GetRevoked(0));
    steps, s := Then(limit, INIT, steps, s, SetUsed(0));
  }

  /** Call 1 replays t0 meanwhile, which revokes the family. */
  lemma RevokedWhileInFlight(limit: real) returns (steps: seq<Step>, s: State)
    requires 15.0 * DAY < limit
    ensures Leads(limit, INIT, steps, s)
    ensures s.now == 0.0 && s.tokens == map[] && s.minted == {"t0"}
    ensures s.revoked == map["f" := MARKER_TTL] && "f" in s.revokedAt
    ensures s.calls.Keys == {0, 1} && s.calls[1] == Denied
    ensures s.calls[0].Marked? && s.calls[0].start == 0.0 && s.calls[0].taken.familyId == "f"
  {
    steps, s := StalledRotation(limit);
    steps, s := Then(limit, INIT, steps, s, GetDelToken(1, "t0"));
    steps, s := Then(limit, INIT, steps, s, GetUsed(1));
    steps, s := Then(limit, INIT, steps, s, SetRevoked(1));
  }

  /** Call 0 stores t1 late; call 2 takes t1 just before it expires and checks once the marker is gone. */
  lemma SlowEscape(limit: real, s: State) returns (steps: seq<Step>, end: State)
    requires 15.0 * DAY < limit
    requires s.now == 0.0 && s.tokens == map[] && s.revoked == map["f" := MARKER_TTL] && s.minted == {"t0"}
    requires s.calls.Keys == {0, 1} && s.calls[0].Marked? && s.calls[0].start == 0.0 && s.calls[0].taken.familyId == "f"
    ensures Leads(limit, s, steps, end) && end.minted == {"t0", "t1"} && 2 in end.calls
    ensures end.calls[2].Checked? && end.calls[2].taken.familyId == "f" && end.now < end.calls[2].start + limit
  {
    var e := if limit - 15.0 * DAY < DAY then (limit - 15.0 * DAY) / 4.0 else DAY / 4.0;
    steps, end := [], s;
    steps, end := Then(limit, s, steps, end, Tick(limit - e));
    steps, end := Then(limit, s, steps, end, SetToken(0, "t1", "2"));
    steps, end := Then(limit, s, steps, end, Tick(TOKEN_TTL - e));
    steps, end := Then(limit, s, steps, end, GetDelToken(2, "t1"));
    steps, end := Then(limit, s, steps, end, Tick(limit - e));
    assert !IsRevoked(end, "f");
    steps, end := Then(limit, s, steps, end, GetRevoked(2));
  }

  /** A call that passed its check stores its replacement at once. */
  lemma CheckedSucceeds(limit: real, s: State, steps: seq<Step>, mid: State, c: nat, t: Token)
    returns (more: seq<Step>, end: State)
    requires Leads(limit, s, steps, mid) && c in mid.calls && mid.calls[c].Checked? && t !in mid.minted
    requires mid.now < mid.calls[c].start + limit
    ensures Leads(limit, s, more, end) && c in Passed(end, mid.calls[c].taken.familyId) && end.calls[c].Rotated?
  {
    more, end := Then(limit, s, steps, mid, SetUsed(c));
    more, end := Then(limit, s, more, end, SetToken(c, t, "3"));
  }

  /** Fifteen days is exactly the call length up to which a revoked family stays dead. */
  lemma RevocationFinalIffWithin15Days(limit: real)
    requires 0.0 <= limit
    ensures RevocationIsFinal(limit) <==> limit <= 1_296_000.0
    ensures NoLateSuccess(limit) <==> limit <= 1_296_000.0
  {
    if limit <= 15.0 * DAY {
      RevocationFinalWithin15Days(limit);
    } else {
      var before, s := RevokedWhileInFlight(limit);
      var after, end := SlowEscape(limit, s);
      after, end := CheckedSucceeds(limit, s, after, end, 2, "t2");
      assert Escapes(limit, before, after, "f", 2);
    }
  }

  // ---------------------------------------------------------------------------
  // The service
  // ---------------------------------------------------------------------------

  lemma RunSnoc(s: State, steps: seq<Step>, step: Step)
    requires IsRun(s, steps) && Enabled(Exec(s, steps), step)
    ensures IsRun(s, steps + [step]) && Exec(s, steps + [step]) == Next(Exec(s, steps), step)
    decreases |steps|
  {
    if steps == [] {
      assert steps + [step] == [step];
    } else {
      assert (steps + [step])[1..] == steps[1..] + [step];
      RunSnoc(Next(s, steps[0]), steps[1..], step);
    }
  }

  /** The service over its Redis connection: one method per Redis command of the two
      exported functions, and the two functions as they run when nothing interleaves. */
  class RefreshTokenService {
    var now: real
    var tokens: map<Token, Timed<Record>>
    var used: map<Token, Timed<Family>>
    var revoked: map<Family, real>
    var calls: map<nat, Call>
    ghost var minted: set<Token>
    ghost var owner: map<Family, Address>
    ghost var revokedAt: map<Family, real>

    ghost function View(): State
      reads this
    {
      State(now, tokens, used, revoked, calls, minted, owner, revokedAt)
    }

    constructor ()
      ensures View() == INIT
    {
      now, tokens, used, revoked, calls := 0.0, map[], map[], map[], map[];
      minted, owner, revokedAt := {}, map[], map[];
    }

    method IssueRefreshToken(address: Address, family: Family, token: Token, tokenId: string) returns (r: Record)
      requires Enabled(View(), Issue(address, family, token, tokenId))
      modifies this
      ensures View() == Next(old(View()), Issue(address, family, token, tokenId))
      ensures tokens == old(tokens)[token := Timed(r, now + 2_592_000.0)]
      ensures r == Record(tokenId, family, address, token, now.Floor + 2_592_000)
      ensures used == old(used) && revoked == old(revoked) && calls == old(calls)
    {
      r := Record(tokenId, family, address, token, now.Floor + 30 * 24 * 60 * 60);
      tokens := tokens[token := Timed(r, now + TOKEN_TTL)];
      minted, owner := minted + {token}, owner[family := address];
    }

    method GetDel(c: nat, token: Token) returns (found: bool)
      requires Enabled(View(), GetDelToken(c, token))
      modifies this
      ensures View() == Next(old(View()), GetDelToken(c, token))
      ensures found == old(Live(tokens, token, now)) && c in calls
      ensures found ==> calls[c] == Consumed(old(tokens)[token].value, now)
      ensures !found ==> calls[c] == Missed(token)
    {
      found := token in tokens && now < tokens[token].expiry;
      calls := calls[c := if found then Consumed(tokens[token].value, now) else Missed(token)];
      tokens := tokens - {token};
    }

    method ReadUsedSentinel(c: nat) returns (replay: bool)
      requires Enabled(View(), GetUsed(c))
      modifies this`calls
      ensures View() == Next(old(View()), GetUsed(c))
      ensures replay == Live(used, old(calls)[c].token, now) && c in calls
      ensures calls[c] == if replay then Replayed(used[old(calls)[c].token].value) else Denied
    {
      var t := calls[c].token;
      replay := t in used && now < used[t].expiry;
      calls := calls[c := if replay then Replayed(used[t].value) else Denied];
    }

    method RevokeFamily(c: nat)
      requires Enabled(View(), SetRevoked(c))
      modifies this
      ensures View() == Next(old(View()), SetRevoked(c))
    {
      var f := calls[c].family;
      revoked := revoked[f := now + MARKER_TTL];
      calls := calls[c := Denied];
      revokedAt := if f in revokedAt then revokedAt else revokedAt[f := now];
    }

    method ReadFamilyMarker(c: nat) returns (denied: bool)
      requires Enabled(View(), GetRevoked(c))
      modifies this`calls
      ensures View() == Next(old(View()), GetRevoked(c))
      ensures denied == IsRevoked(old(View()), old(calls)[c].taken.familyId) && c in calls
      ensures !denied ==> calls[c] == Checked(old(calls)[c].taken, old(calls)[c].start)
    {
      var call := calls[c];
      var f := call.taken.familyId;
      denied := f in revoked && now < revoked[f];
      calls := calls[c := if denied then Denied else Checked(call.taken, call.start)];
    }

    method MarkUsed(c: nat)
      requires Enabled(View(), SetUsed(c))
      modifies this
      ensures View() == Next(old(View()), SetUsed(c))
      ensures var taken := old(calls)[c].taken;
              && now == old(now) && tokens == old(tokens) && revoked == old(revoked) && minted == old(minted)
              && used == old(used)[taken.token := Timed(taken.familyId, now + 5_184_000.0)]
              && calls == old(calls)[c := Marked(taken, old(calls)[c].start)]
    {
      var call := calls[c];
      used := used[call.taken.token := Timed(call.taken.familyId, now + MARKER_TTL)];
      calls := calls[c := Marked(call.taken, call.start)];
    }

    method StoreReplacement(c: nat, token: Token, tokenId: string) returns (r: Record)
      requires Enabled(View(), SetToken(c, token, tokenId))
      modifies this
      ensures View() == Next(old(View()), SetToken(c, token, tokenId))
      ensures c in calls && calls[c] == Rotated(old(calls)[c].taken, old(calls)[c].start, r)
      ensures now == old(now) && used == old(used) && revoked == old(revoked)
      ensures var taken := old(calls)[c].taken;
              r == Record(tokenId, taken.familyId, taken.address, token, now.Floor + 2_592_000)
      ensures tokens == old(tokens)[token := Timed(r, now + 2_592_000.0)]
    {
      var taken, start := calls[c].taken, calls[c].start;
      r := Record(tokenId, taken.familyId, taken.address, token, now.Floor + 30 * 24 * 60 * 60);
      tokens := tokens[token := Timed(r, now + TOKEN_TTL)];
      minted := minted + {token};
      calls := calls[c := Rotated(taken, start, r)];
    }

    /** The branch of rotateRefreshToken for a token that GETDEL did not find: a live used
        sentinel revokes the family it names. */
    method RejectMissing(c: nat) returns (ghost trace: seq<Step>)
      requires c in calls && calls[c].Missed?
      modifies this
      ensures IsRun(old(View()), trace) && View() == Exec(old(View()), trace)
      ensures now == old(now) && tokens == old(tokens) && used == old(used) && calls == old(calls)[c := Denied]
      ensures revoked == if Live(old(used), old(calls)[c].token, old(now))
                         then old(revoked)[old(used)[old(calls)[c].token].value := now + 5_184_000.0]
                         else old(revoked)
    {
      ghost var s0 := View();
      var replay := ReadUsedSentinel(c);
      trace := [GetUsed(c)];
      if replay {
        RunSnoc(s0, trace, SetRevoked(c));
        trace := trace + [SetRevoked(c)];
        RevokeFamily(c);
      }
    }

    /** The two writes of a rotation whose check came out negative. */
    method StoreSuccessor(c: nat, newToken: Token, newId: string) returns (r: Record, ghost trace: seq<Step>)
      requires c in calls && calls[c].Checked? && newToken !in minted
      modifies this
      ensures trace == [SetUsed(c), SetToken(c, newToken, newId)]
      ensures IsRun(old(View()), trace) && View() == Exec(old(View()), trace)
      ensures now == old(now) && revoked == old(revoked)
      ensures tokens == old(tokens)[newToken := Timed(r, now + 2_592_000.0)]
      ensures r == Record(newId, old(calls)[c].taken.familyId, old(calls)[c].taken.address, newToken,
                          now.Floor + 2_592_000)
      ensures used == old(used)[old(calls)[c].taken.token := Timed(old(calls)[c].taken.familyId, now + 5_184_000.0)]
    {
      ghost var s0 := View();
      OneStep(s0, SetUsed(c));
      MarkUsed(c);
      RunSnoc(s0, [SetUsed(c)], SetToken(c, newToken, newId));
      r := StoreReplacement(c, newToken, newId);
      trace := [SetUsed(c)] + [SetToken(c, newToken, newId)];
    }

    /** The branch for a token that GETDEL consumed: it ends in a stored replacement exactly
        when the family is not marked. */
    method Replace(c: nat, newToken: Token, newId: string) returns (r: Record, ok: bool, ghost trace: seq<Step>)
      requires c in calls && calls[c].Consumed? && newToken !in minted
      modifies this
      ensures IsRun(old(View()), trace) && View() == Exec(old(View()), trace)
      ensures var f := old(calls)[c].taken.familyId;
              ok <==> f !in old(revoked) || old(revoked)[f] <= now
      ensures now == old(now) && revoked == old(revoked)
      ensures ok ==> tokens == old(tokens)[newToken := Timed(r, now + 2_592_000.0)]
      ensures ok ==> r == Record(newId, old(calls)[c].taken.familyId, old(calls)[c].taken.address, newToken,
                                 now.Floor + 2_592_000)
      ensures ok ==> used == old(used)[old(calls)[c].taken.token :=
                                         Timed(old(calls)[c].taken.familyId, now + 5_184_000.0)]
      ensures !ok ==> tokens == old(tokens) && used == old(used)
    {
      ghost var rest;
      r, ok := calls[c].taken, false;
      var denied := ReadFamilyMarker(c);
      trace := [GetRevoked(c)];
      if denied {
        return;
      }
      r, rest := StoreSuccessor(c, newToken, newId);
      trace := [GetRevoked(c)] + rest;
      assert trace[1..] == rest;
      ok := true;
    }

    /** rotateRefreshToken without interleaving; `trace` lists the Redis commands it issued.
        It succeeds exactly when the token is live and its family unmarked. */
    method RotateRefreshToken(c: nat, token: Token, newToken: Token, newId: string)
      returns (r: Record, ok: bool, ghost trace: seq<Step>)
      requires c !in calls && newToken !in minted
      modifies this
      ensures IsRun(old(View()), trace) && View() == Exec(old(View()), trace)
      ensures ok <==>
              && token in old(tokens) && now < old(tokens)[token].expiry
              && var f := old(tokens)[token].value.familyId; f !in old(revoked) || old(revoked)[f] <= now
      ensures ok ==> tokens == (old(tokens) - {token})[newToken := Timed(r, now + 2_592_000.0)]
      ensures ok ==> r == Record(newId, old(tokens)[token].value.familyId, old(tokens)[token].value.address, newToken,
                                 now.Floor + 2_592_000)
      ensures ok ==> Live(used, old(tokens)[token].value.token, now)
      ensures !ok ==> tokens == old(tokens) - {token}
      ensures !old(Live(tokens, token, now)) && Live(old(used), token, old(now)) ==>
                IsRevoked(View(), old(used)[token].value)
    {
      ghost var rest;
      var found := GetDel(c, token);
      if found {
        r, ok, rest := Replace(c, newToken, newId);
      } else {
        r, ok := Record("", "", "", token, 0), false;
        rest := RejectMissing(c);
      }
      trace := [GetDelToken(c, token)] + rest;
      assert trace[1..] == rest;
    }
  }
}
