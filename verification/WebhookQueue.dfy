/** The webhook delivery queue with dead letters (webhookQueue.ts).  `deliver` is two atomic
    parts around its `await`: `Begin` stores the job as delivering and calls the deliverer,
    `Finish` stores what came of it from the copy the call kept.  Calls interleave. */
module WebhookQueue {
  import opened Wrappers

  const MAX_ATTEMPTS := 5

  datatype Status = Pending | Delivering | Delivered | Failed | DeadLettered

  datatype Job = Job(
    id: string, merchant: string, url: string, payload: string,
    attempts: nat, lastError: Option<string>, status: Status)

  datatype DeadLetter = DeadLetter(job: Job, reason: string, replayCount: nat)

  /** `calls` holds the copy each delivery in progress works with.  History: how often the
      deliverer was called for an id, and how often the id was replayed. */
  datatype State = State(
    jobs: map<string, Job>,
    deadLetters: map<string, DeadLetter>,
    calls: map<nat, Job>,
    sent: map<string, nat>,
    replays: map<string, nat>)

  datatype Step =
    | Enqueue(id: string, merchant: string, url: string, payload: string)
    | Begin(c: nat, id: string)
    | Finish(c: nat, error: Option<string>)   // None: the deliverer reported success
    | Replay(id: string)

  const INIT := State(map[], map[], map[], map[], map[])

  function Count(m: map<string, nat>, id: string): nat { if id in m then m[id] else 0 }

  /** deliver goes on to call the deliverer. */
  predicate Deliverable(s: State, id: string) {
    id in s.jobs && s.jobs[id].status != Delivered && s.jobs[id].status != DeadLettered
  }

  /** replayDeadLetter goes on to re-enqueue. */
  predicate Replayable(s: State, id: string) {
    id in s.deadLetters && (id in s.jobs ==> s.jobs[id].status == DeadLettered)
  }

  predicate Enabled(s: State, step: Step) {
    match step
    case Begin(c, _) => c !in s.calls
    case Finish(c, _) => c in s.calls
    case _ => true
  }

  /** The deliveries of an id in progress. */
  function CallsFor(s: State, id: string): set<nat> { set c | c in s.calls && s.calls[c].id == id }

  /** With this step, at most `width` deliveries of one id are in progress. */
  predicate KeepsWidth(width: nat, s: State, step: Step) {
    step.Begin? ==> |CallsFor(s, step.id)| < width
  }

  /** No delivery of the same id is in progress. */
  ghost predicate NoOverlap(s: State, step: Step) {
    step.Begin? ==> forall d :: d in s.calls ==> s.calls[d].id != step.id
  }

  lemma NarrowIsNoOverlap(width: nat, s: State, step: Step)
    requires KeepsWidth(width, s, step) && width <= 1
    ensures NoOverlap(s, step)
  {
    if step.Begin? {
      assert CallsFor(s, step.id) == {};
      forall d | d in s.calls
        ensures s.calls[d].id != step.id
      {
        assert d !in CallsFor(s, step.id);
      }
    }
  }

  function Settle(job: Job, error: Option<string>): Job {
    if error.None? then job.(status := Delivered)
    else job.(lastError := error, status := if job.attempts >= MAX_ATTEMPTS then DeadLettered else Failed)
  }

  function Reason(job: Job): string {
    "Exhausted 5 delivery attempts. Last error: " + (if job.lastError.Some? then job.lastError.value else "unknown")
  }

  function Next(s: State, step: Step): State
    requires Enabled(s, step)
  {
    match step
    case Enqueue(id, m, u, p) =>
      if id in s.jobs then s else s.(jobs := s.jobs[id := Job(id, m, u, p, 0, None, Pending)])
    case Begin(c, id) =>
      if !Deliverable(s, id) then s
      else
        var job := s.jobs[id].(status := Delivering, attempts := s.jobs[id].attempts + 1);
        s.(jobs := s.jobs[job.id := job], calls := s.calls[c := job], sent := s.sent[id := Count(s.sent, id) + 1])
    case Finish(c, error) =>
      var job := Settle(s.calls[c], error);
      s.(jobs := s.jobs[job.id := job],
         deadLetters := if job.status == DeadLettered
                        then s.deadLetters[job.id := DeadLetter(job, Reason(job), 0)] else s.deadLetters,
         calls := s.calls - {c})
    case Replay(id) =>
      if !Replayable(s, id) then s
      else
        var entry := s.deadLetters[id];
        s.(jobs := s.jobs[entry.job.id := entry.job.(attempts := 0, status := Pending, lastError := None)],
           deadLetters := s.deadLetters[entry.job.id := entry.(replayCount := entry.replayCount + 1)],
           replays := s.replays[id := Count(s.replays, id) + 1])
  }

  ghost predicate IsRun(s: State, steps: seq<Step>)
    decreases |steps|
  {
    steps == [] || (Enabled(s, steps[0]) && IsRun(Next(s, steps[0]), steps[1..]))
  }

  /** A run in which at most `width` deliveries of one id overlap; different ids interleave freely. */
  ghost predicate IsRunOfWidth(width: nat, s: State, steps: seq<Step>)
    decreases |steps|
  {
    steps == [] ||
    (Enabled(s, steps[0]) && KeepsWidth(width, s, steps[0]) && IsRunOfWidth(width, Next(s, steps[0]), steps[1..]))
  }

  lemma {:induction false} WidthRunIsRun(width: nat, s: State, steps: seq<Step>)
    requires IsRunOfWidth(width, s, steps)
    ensures IsRun(s, steps)
    decreases |steps|
  {
    if steps != [] { WidthRunIsRun(width, Next(s, steps[0]), steps[1..]); }
  }

  ghost function Exec(s: State, steps: seq<Step>): State
    requires IsRun(s, steps)
    decreases |steps|
  {
    if steps == [] then s else Exec(Next(s, steps[0]), steps[1..])
  }

  // ---------------------------------------------------------------------------
  // Identity, in every run
  // ---------------------------------------------------------------------------

  /** What a job carries for its whole life. */
  predicate SameIdentity(a: Job, b: Job) {
    a.id == b.id && a.merchant == b.merchant && a.url == b.url && a.payload == b.payload
  }

  /** Every copy of a job carries the identity of the stored job. */
  ghost predicate CopiesMatch(s: State) {
    && (forall id :: id in s.jobs ==> s.jobs[id].id == id)
    && (forall c :: c in s.calls ==> s.calls[c].id in s.jobs && SameIdentity(s.calls[c], s.jobs[s.calls[c].id]))
    && (forall id :: id in s.deadLetters ==> id in s.jobs && SameIdentity(s.deadLetters[id].job, s.jobs[id]))
  }

  ghost predicate KeepsIdentities(s: State, s': State) {
    forall id :: id in s.jobs ==> id in s'.jobs && SameIdentity(s.jobs[id], s'.jobs[id])
  }

  lemma JobKeepsIdentity(s: State, step: Step, id: string)
    requires CopiesMatch(s) && Enabled(s, step) && id in s.jobs
    ensures id in Next(s, step).jobs && SameIdentity(s.jobs[id], Next(s, step).jobs[id])
  {
    match step
    case Enqueue(_, _, _, _) =>
    case Begin(_, _) =>
    case Finish(c, _) => assert SameIdentity(s.calls[c], s.jobs[s.calls[c].id]);
    case Replay(i) => if Replayable(s, i) { assert s.deadLetters[i].job.id == i; }
  }

  lemma CallKeepsIdentity(s: State, step: Step, c: nat)
    requires CopiesMatch(s) && Enabled(s, step) && c in Next(s, step).calls
    ensures var job := Next(s, step).calls[c];
            job.id in s.jobs && SameIdentity(job, s.jobs[job.id])
  {
  }

  lemma EntryKeepsIdentity(s: State, step: Step, id: string)
    requires CopiesMatch(s) && Enabled(s, step) && id in Next(s, step).deadLetters
    ensures id in s.jobs && SameIdentity(Next(s, step).deadLetters[id].job, s.jobs[id])
  {
    if step.Finish? { assert SameIdentity(s.calls[step.c], s.jobs[s.calls[step.c].id]); }
  }

  lemma JobsUnderTheirIds(s: State, step: Step)
    requires CopiesMatch(s) && Enabled(s, step)
    ensures forall id :: id in Next(s, step).jobs ==> Next(s, step).jobs[id].id == id
  {
  }

  lemma CopiesMatchStep(s: State, step: Step)
    requires CopiesMatch(s) && Enabled(s, step)
    ensures CopiesMatch(Next(s, step)) && KeepsIdentities(s, Next(s, step))
  {
    var s' := Next(s, step);
    JobsUnderTheirIds(s, step);
    forall id | id in s.jobs
      ensures id in s'.jobs && SameIdentity(s.jobs[id], s'.jobs[id])
    {
      JobKeepsIdentity(s, step, id);
    }
    assert KeepsIdentities(s, s');
    forall c | c in s'.calls
      ensures s'.calls[c].id in s'.jobs && SameIdentity(s'.calls[c], s'.jobs[s'.calls[c].id])
    {
      CallKeepsIdentity(s, step, c);
    }
    forall id | id in s'.deadLetters
      ensures id in s'.jobs && SameIdentity(s'.deadLetters[id].job, s'.jobs[id])
    {
      EntryKeepsIdentity(s, step, id);
    }
  }

  lemma {:induction false} CopiesMatchRun(s: State, steps: seq<Step>)
    requires CopiesMatch(s) && IsRun(s, steps)
    ensures CopiesMatch(Exec(s, steps)) && KeepsIdentities(s, Exec(s, steps))
    decreases |steps|
  {
    if steps != [] {
      CopiesMatchStep(s, steps[0]);
      CopiesMatchRun(Next(s, steps[0]), steps[1..]);
    }
  }

  /** A job never disappears and keeps its id, merchant, url and payload, however deliveries overlap. */
  lemma IdentityNeverChanges(before: seq<Step>, after: seq<Step>, id: string)
    requires IsRun(INIT, before) && IsRun(Exec(INIT, before), after) && id in Exec(INIT, before).jobs
    ensures id in Exec(Exec(INIT, before), after).jobs
    ensures SameIdentity(Exec(INIT, before).jobs[id], Exec(Exec(INIT, before), after).jobs[id])
  {
    CopiesMatchRun(INIT, before);
    CopiesMatchRun(Exec(INIT, before), after);
  }

  /** Step `i` is the first to enqueue the id. */
  ghost predicate FirstEnqueue(steps: seq<Step>, id: string, i: int) {
    && 0 <= i < |steps| && steps[i].Enqueue? && steps[i].id == id
    && forall j :: 0 <= j < i && steps[j].Enqueue? ==> steps[j].id != id
  }

  /** The job carries what the enqueue was given. */
  predicate Carries(job: Job, e: Step) {
    e.Enqueue? && job.id == e.id && job.merchant == e.merchant && job.url == e.url && job.payload == e.payload
  }

  ghost predicate FiledAs(steps: seq<Step>, s: State, id: string) {
    if id in s.jobs then exists i :: FirstEnqueue(steps, id, i) && Carries(s.jobs[id], steps[i])
    else forall i :: 0 <= i < |steps| && steps[i].Enqueue? ==> steps[i].id != id
  }

  lemma {:induction false} RunUnsnoc(s: State, steps: seq<Step>, step: Step)
    requires IsRun(s, steps + [step])
    ensures IsRun(s, steps) && Enabled(Exec(s, steps), step)
    ensures Exec(s, steps + [step]) == Next(Exec(s, steps), step)
    decreases |steps|
  {
    if steps == [] {
      assert steps + [step] == [step];
    } else {
      assert (steps + [step])[1..] == steps[1..] + [step];
      RunUnsnoc(Next(s, steps[0]), steps[1..], step);
    }
  }

  lemma FiledNext(hist: seq<Step>, s: State, step: Step, id: string)
    requires CopiesMatch(s) && Enabled(s, step) && FiledAs(hist, s, id)
    ensures FiledAs(hist + [step], Next(s, step), id)
  {
    var steps, s' := hist + [step], Next(s, step);
    if id in s.jobs {
      var i :| FirstEnqueue(hist, id, i) && Carries(s.jobs[id], hist[i]);
      JobKeepsIdentity(s, step, id);
      assert FirstEnqueue(steps, id, i) && Carries(s'.jobs[id], steps[i]);
    } else if id in s'.jobs {
      assert step.Enqueue? && step.id == id;
      assert FirstEnqueue(steps, id, |hist|) && Carries(s'.jobs[id], steps[|hist|]);
    }
  }

  lemma {:induction false} FiledRun(steps: seq<Step>, id: string)
    requires IsRun(INIT, steps)
    ensures FiledAs(steps, Exec(INIT, steps), id)
  {
    if steps != [] {
      var hist, step := steps[..|steps| - 1], steps[|steps| - 1];
      assert steps == hist + [step];
      RunUnsnoc(INIT, hist, step);
      FiledRun(hist, id);
      CopiesMatchRun(INIT, hist);
      FiledNext(hist, Exec(INIT, hist), step, id);
    }
  }

  /** In every run, however deliveries overlap, a job exists exactly from the first enqueue of its id
      on; the stored job, the copy of every delivery in progress and any dead letter carry the
      merchant, url and payload of that enqueue. */
  lemma CarriesFirstEnqueue(steps: seq<Step>, id: string, i: nat)
    requires IsRun(INIT, steps)
    ensures var s := Exec(INIT, steps);
            id in s.jobs <==> exists k :: FirstEnqueue(steps, id, k)
    ensures FirstEnqueue(steps, id, i) ==>
              var s := Exec(INIT, steps);
              && id in s.jobs && Carries(s.jobs[id], steps[i])
              && (forall c :: c in s.calls && s.calls[c].id == id ==> Carries(s.calls[c], steps[i]))
              && (id in s.deadLetters ==> Carries(s.deadLetters[id].job, steps[i]))
  {
    FiledRun(steps, id);
    CopiesMatchRun(INIT, steps);
  }

  // ---------------------------------------------------------------------------
  // Invariant
  // ---------------------------------------------------------------------------

  predicate WellFormed(job: Job) {
    match job.status
    case Pending => job.attempts == 0
    case Failed => 1 <= job.attempts < MAX_ATTEMPTS
    case Delivering => 1 <= job.attempts <= MAX_ATTEMPTS
    case Delivered => 1 <= job.attempts <= MAX_ATTEMPTS
    case DeadLettered => job.attempts == MAX_ATTEMPTS
  }

  predicate JobOk(s: State, id: string) {
    id in s.jobs ==>
      && s.jobs[id].id == id
      && WellFormed(s.jobs[id])
      && (s.jobs[id].status == DeadLettered ==> id in s.deadLetters)
  }

  ghost predicate JobsOk(s: State) {
    forall id :: id in s.jobs ==> JobOk(s, id)
  }

  ghost predicate InProgress(s: State, id: string) {
    exists c :: c in s.calls && s.calls[c].id == id
  }

  ghost predicate DeliveringInProgress(s: State) {
    forall id :: id in s.jobs && s.jobs[id].status == Delivering ==> InProgress(s, id)
  }

  /** The copy a delivery works with is what the store holds. */
  ghost predicate CallsMirror(s: State) {
    forall c :: c in s.calls ==>
      s.calls[c].id in s.jobs && s.jobs[s.calls[c].id] == s.calls[c] && s.calls[c].status == Delivering
  }

  ghost predicate CallsApart(s: State) {
    forall c, d | c in s.calls && d in s.calls && c != d :: s.calls[c].id != s.calls[d].id
  }

  /** Every call of the deliverer is one attempt of the current round, or one of the five of
      each round that a replay closed. */
  ghost predicate Balanced(s: State, id: string) {
    Count(s.sent, id) == MAX_ATTEMPTS * Count(s.replays, id) + (if id in s.jobs then s.jobs[id].attempts else 0)
  }

  ghost predicate CallsBalance(s: State) {
    forall id :: Balanced(s, id)
  }

  ghost predicate Inv(s: State) {
    JobsOk(s) && DeliveringInProgress(s) && CallsMirror(s) && CallsApart(s) && CopiesMatch(s) && CallsBalance(s)
  }

  /** A job once delivered stays as it is. */
  ghost predicate DeliveredFrozen(s: State, s': State) {
    forall id :: id in s.jobs && s.jobs[id].status == Delivered ==> id in s'.jobs && s'.jobs[id] == s.jobs[id]
  }

  lemma CallsApartStep(s: State, step: Step)
    requires JobsOk(s) && CallsApart(s) && Enabled(s, step) && NoOverlap(s, step)
    ensures CallsApart(Next(s, step))
  {
  }

  lemma CallMirrors(s: State, step: Step, c: nat)
    requires CopiesMatch(s) && CallsMirror(s) && CallsApart(s) && Enabled(s, step) && NoOverlap(s, step)
    requires c in Next(s, step).calls
    ensures var s' := Next(s, step);
            var job := s'.calls[c];
            job.id in s'.jobs && s'.jobs[job.id] == job && job.status == Delivering
  {
    match step
    case Enqueue(_, _, _, _) =>
    case Begin(d, id) => if c != d { assert s.calls[c].id != id; }
    case Finish(d, _) => assert s.calls[c].id != s.calls[d].id;
    case Replay(i) => if Replayable(s, i) { assert s.deadLetters[i].job.id == i; }
  }

  lemma CallsMirrorStep(s: State, step: Step)
    requires Inv(s) && Enabled(s, step) && NoOverlap(s, step)
    ensures CallsMirror(Next(s, step))
  {
    forall c | c in Next(s, step).calls
      ensures var s' := Next(s, step);
              var job := s'.calls[c];
              job.id in s'.jobs && s'.jobs[job.id] == job && job.status == Delivering
    {
      CallMirrors(s, step, c);
    }
  }

  lemma InProgressStep(s: State, step: Step)
    requires JobsOk(s) && DeliveringInProgress(s) && Enabled(s, step)
    ensures DeliveringInProgress(Next(s, step))
  {
    var s' := Next(s, step);
    forall id | id in s'.jobs && s'.jobs[id].status == Delivering
      ensures InProgress(s', id)
    {
      StillInProgress(s, step, id);
    }
  }

  lemma StillInProgress(s: State, step: Step, id: string)
    requires JobsOk(s) && DeliveringInProgress(s) && Enabled(s, step)
    requires id in Next(s, step).jobs && Next(s, step).jobs[id].status == Delivering
    ensures InProgress(Next(s, step), id)
  {
    var s' := Next(s, step);
    if step.Begin? && step.id == id && Deliverable(s, id) {
      assert s'.calls[step.c].id == id;
    } else {
      assert InProgress(s, id);
      var c :| c in s.calls && s.calls[c].id == id;
      assert s'.calls[c].id == id;
    }
  }

  /** A job that a delivery may start on still has an attempt left. */
  lemma AttemptLeft(s: State, step: Step)
    requires Inv(s) && step.Begin? && NoOverlap(s, step) && Deliverable(s, step.id)
    ensures s.jobs[step.id].attempts < MAX_ATTEMPTS
  {
    assert !InProgress(s, step.id);
  }

  lemma FinishKeepsJobOk(s: State, c: nat, error: Option<string>, id: string)
    requires c in s.calls && s.calls[c].status == Delivering && WellFormed(s.calls[c]) && JobOk(s, id)
    ensures JobOk(Next(s, Finish(c, error)), id)
  {
  }

  lemma ReplayKeepsJobOk(s: State, i: string, id: string)
    requires (i in s.deadLetters ==> s.deadLetters[i].job.id == i) && JobOk(s, id)
    ensures JobOk(Next(s, Replay(i)), id)
  {
  }

  lemma BeginKeepsJobOk(s: State, c: nat, i: string, id: string)
    requires c !in s.calls && JobOk(s, i) && JobOk(s, id)
    requires Deliverable(s, i) ==> s.jobs[i].attempts < MAX_ATTEMPTS
    ensures JobOk(Next(s, Begin(c, i)), id)
  {
  }

  lemma JobOkStep(s: State, step: Step, id: string)
    requires Inv(s) && Enabled(s, step) && NoOverlap(s, step)
    ensures JobOk(Next(s, step), id)
  {
    assert JobOk(s, id);
    match step
    case Enqueue(_, _, _, _) =>
    case Begin(c, i) =>
      if Deliverable(s, i) { AttemptLeft(s, step); }
      BeginKeepsJobOk(s, c, i, id);
    case Finish(c, error) =>
      assert s.jobs[s.calls[c].id] == s.calls[c];
      FinishKeepsJobOk(s, c, error, id);
    case Replay(i) => ReplayKeepsJobOk(s, i, id);
  }

  lemma JobsOkStep(s: State, step: Step)
    requires Inv(s) && Enabled(s, step) && NoOverlap(s, step)
    ensures JobsOk(Next(s, step))
  {
    forall id
      ensures JobOk(Next(s, step), id)
    {
      JobOkStep(s, step, id);
    }
  }

  lemma BalancedStep(s: State, step: Step, id: string)
    requires JobsOk(s) && CallsMirror(s) && CopiesMatch(s) && Enabled(s, step) && Balanced(s, id)
    ensures Balanced(Next(s, step), id)
  {
  }

  lemma CallsBalanceStep(s: State, step: Step)
    requires Inv(s) && Enabled(s, step)
    ensures CallsBalance(Next(s, step))
  {
    forall id
      ensures Balanced(Next(s, step), id)
    {
      assert Balanced(s, id);
      BalancedStep(s, step, id);
    }
  }

  lemma FrozenStep(s: State, step: Step)
    requires JobsOk(s) && CallsMirror(s) && CopiesMatch(s) && Enabled(s, step)
    ensures DeliveredFrozen(s, Next(s, step))
  {
    forall id | id in s.jobs && s.jobs[id].status == Delivered
      ensures id in Next(s, step).jobs && Next(s, step).jobs[id] == s.jobs[id]
    {
      JobFrozen(s, step, id);
    }
  }

  lemma JobFrozen(s: State, step: Step, id: string)
    requires JobsOk(s) && CallsMirror(s) && CopiesMatch(s) && Enabled(s, step)
    requires id in s.jobs && s.jobs[id].status == Delivered
    ensures id in Next(s, step).jobs && Next(s, step).jobs[id] == s.jobs[id]
  {
    match step
    case Enqueue(_, _, _, _) =>
    case Begin(_, _) =>
    case Finish(c, _) => assert s.jobs[s.calls[c].id] == s.calls[c];
    case Replay(i) => if Replayable(s, i) { assert s.deadLetters[i].job.id == i; }
  }

  lemma InvStep(s: State, step: Step)
    requires Inv(s) && Enabled(s, step) && NoOverlap(s, step)
    ensures Inv(Next(s, step))
  {
    CallsApartStep(s, step);
    CallsMirrorStep(s, step);
    InProgressStep(s, step);
    JobsOkStep(s, step);
    CopiesMatchStep(s, step);
    CallsBalanceStep(s, step);
  }

  lemma {:induction false} InvRun(width: nat, s: State, steps: seq<Step>)
    requires Inv(s) && IsRunOfWidth(width, s, steps) && width <= 1
    ensures IsRun(s, steps) && Inv(Exec(s, steps)) && DeliveredFrozen(s, Exec(s, steps))
    decreases |steps|
  {
    if steps != [] {
      NarrowIsNoOverlap(width, s, steps[0]);
      InvStep(s, steps[0]);
      FrozenStep(s, steps[0]);
      InvRun(width, Next(s, steps[0]), steps[1..]);
    }
  }

  // ---------------------------------------------------------------------------
  // Theorems
  // ---------------------------------------------------------------------------

  /** When deliveries of one id do not overlap: at most five attempts, a dead-lettered job has
      exactly five and an entry with its own identity, and the deliverer is called at most five
      times per round. */
  lemma AttemptsBounded(width: nat, steps: seq<Step>, id: string)
    requires IsRunOfWidth(width, INIT, steps) && width <= 1
    ensures IsRun(INIT, steps)
    ensures var s := Exec(INIT, steps);
            Count(s.sent, id) <= 5 * (1 + Count(s.replays, id))
    ensures var s := Exec(INIT, steps);
            id in s.jobs ==>
              && s.jobs[id].attempts <= 5
              && Count(s.sent, id) == 5 * Count(s.replays, id) + s.jobs[id].attempts
              && (s.jobs[id].status == DeadLettered ==>
                    s.jobs[id].attempts == 5 && id in s.deadLetters &&
                    SameIdentity(s.deadLetters[id].job, s.jobs[id]))
  {
    InvRun(width, INIT, steps);
    var s := Exec(INIT, steps);
    assert Balanced(s, id);
  }

  /** A dead-lettered job can be replayed, and starts afresh with what it was enqueued with. */
  lemma DeadLetterReplays(width: nat, steps: seq<Step>, id: string)
    requires IsRunOfWidth(width, INIT, steps) && IsRun(INIT, steps) && width <= 1
    requires id in Exec(INIT, steps).jobs && Exec(INIT, steps).jobs[id].status == DeadLettered
    ensures var s := Exec(INIT, steps); var s' := Next(s, Replay(id));
            && id in s'.jobs && Deliverable(s', id)
            && s'.jobs[id] == s.jobs[id].(attempts := 0, status := Pending, lastError := None)
  {
    InvRun(width, INIT, steps);
  }

  /** A delivered job is never written again, when deliveries of one id do not overlap. */
  lemma DeliveredIsFinal(width: nat, before: seq<Step>, after: seq<Step>, id: string)
    requires IsRunOfWidth(width, INIT, before) && IsRun(INIT, before) && width <= 1
    requires IsRunOfWidth(width, Exec(INIT, before), after)
    requires id in Exec(INIT, before).jobs && Exec(INIT, before).jobs[id].status == Delivered
    ensures IsRun(Exec(INIT, before), after) && id in Exec(Exec(INIT, before), after).jobs
    ensures Exec(Exec(INIT, before), after).jobs[id] == Exec(INIT, before).jobs[id]
  {
    InvRun(width, INIT, before);
    InvRun(width, Exec(INIT, before), after);
  }

  // ---------------------------------------------------------------------------
  // One delivery at a time is needed
  // ---------------------------------------------------------------------------

  ghost predicate AlwaysFiveAttempts(width: nat) {
    forall steps, id | IsRunOfWidth(width, INIT, steps) :: FiveAttempts(RunTo(width, steps), id)
  }

  ghost predicate AlwaysFiveCalls(width: nat) {
    forall steps, id | IsRunOfWidth(width, INIT, steps) :: FiveCalls(RunTo(width, steps), id)
  }

  ghost predicate AlwaysDeadAtFive(width: nat) {
    forall steps, id | IsRunOfWidth(width, INIT, steps) :: DeadAtFive(RunTo(width, steps), id)
  }

  ghost predicate AlwaysFinal(width: nat) {
    forall steps, step, id | IsRunOfWidth(width, INIT, steps + [step]) && IsRunOfWidth(width, INIT, steps) ::
      Final(RunTo(width, steps), RunTo(width, steps + [step]), id)
  }

  predicate FiveAttempts(s: State, id: string) { id in s.jobs ==> s.jobs[id].attempts <= MAX_ATTEMPTS }

  predicate FiveCalls(s: State, id: string) { Count(s.sent, id) <= MAX_ATTEMPTS * (1 + Count(s.replays, id)) }

  predicate DeadAtFive(s: State, id: string) {
    id in s.jobs && s.jobs[id].status == DeadLettered ==> s.jobs[id].attempts == MAX_ATTEMPTS
  }

  predicate Final(s: State, s': State, id: string) {
    id in s.jobs && s.jobs[id].status == Delivered ==> id in s'.jobs && s'.jobs[id] == s.jobs[id]
  }

  ghost function RunTo(width: nat, steps: seq<Step>): State
    requires IsRunOfWidth(width, INIT, steps)
  {
    WidthRunIsRun(width, INIT, steps);
    Exec(INIT, steps)
  }

  lemma {:induction false} RunSnoc(width: nat, s: State, steps: seq<Step>, step: Step)
    requires IsRunOfWidth(width, s, steps) && IsRun(s, steps)
    requires Enabled(Exec(s, steps), step) && KeepsWidth(width, Exec(s, steps), step)
    ensures IsRunOfWidth(width, s, steps + [step]) && IsRun(s, steps + [step])
    ensures Exec(s, steps + [step]) == Next(Exec(s, steps), step)
    decreases |steps|
  {
    if steps == [] {
      assert steps + [step] == [step];
    } else {
      assert (steps + [step])[1..] == steps[1..] + [step];
      RunSnoc(width, Next(s, steps[0]), steps[1..], step);
    }
  }

  lemma Then(width: nat, steps: seq<Step>, s: State, step: Step) returns (more: seq<Step>, end: State)
    requires IsRunOfWidth(width, INIT, steps) && RunTo(width, steps) == s
    requires Enabled(s, step) && KeepsWidth(width, s, step)
    ensures more == steps + [step] && IsRunOfWidth(width, INIT, more) && RunTo(width, more) == end == Next(s, step)
  {
    WidthRunIsRun(width, INIT, steps);
    RunSnoc(width, INIT, steps, step);
    more, end := steps + [step], Next(s, step);
  }

  /** Job j after `n` attempts, the last failed, with no delivery in progress. */
  predicate AtRest(s: State, n: nat) {
    "j" in s.jobs && s.jobs["j"].id == "j" && Deliverable(s, "j") && s.jobs["j"].attempts == n && s.calls == map[] &&
    Count(s.sent, "j") == n && s.replays == map[]
  }

  lemma {:induction false} FailTimes(width: nat, n: nat) returns (steps: seq<Step>, s: State)
    requires width >= 1 && n < MAX_ATTEMPTS
    ensures IsRunOfWidth(width, INIT, steps) && RunTo(width, steps) == s && AtRest(s, n)
  {
    if n == 0 {
      steps, s := Then(width, [], INIT, Enqueue("j", "m", "u", "p"));
    } else {
      steps, s := FailTimes(width, n - 1);
      assert CallsFor(s, "j") == {};
      steps, s := Then(width, steps, s, Begin(0, "j"));
      steps, s := Then(width, steps, s, Finish(0, Some("HTTP 500")));
    }
  }

  /** Two deliveries of job j in progress, the first with attempt n + 1, the second with n + 2. */
  lemma TwoInProgress(width: nat, n: nat) returns (steps: seq<Step>, s: State)
    requires width >= 2 && n < MAX_ATTEMPTS
    ensures IsRunOfWidth(width, INIT, steps) && RunTo(width, steps) == s
    ensures s.calls.Keys == {0, 1} && s.calls[0].id == s.calls[1].id == "j"
    ensures s.calls[0].attempts == n + 1 && s.calls[1].attempts == n + 2
    ensures Count(s.sent, "j") == n + 2 && s.replays == map[]
  {
    steps, s := FailTimes(width, n);
    assert CallsFor(s, "j") == {};
    steps, s := Then(width, steps, s, Begin(0, "j"));
    assert CallsFor(s, "j") == {0};
    steps, s := Then(width, steps, s, Begin(1, "j"));
  }

  /** Two overlapping deliveries after four failures make six attempts, both calls end in the
      dead letters, and the job is there with six. */
  lemma OverlapMakesSix(width: nat) returns (steps: seq<Step>, s: State)
    requires width >= 2
    ensures IsRunOfWidth(width, INIT, steps) && RunTo(width, steps) == s
    ensures !FiveAttempts(s, "j") && !FiveCalls(s, "j") && !DeadAtFive(s, "j")
  {
    steps, s := TwoInProgress(width, 4);
    steps, s := Then(width, steps, s, Finish(0, Some("HTTP 500")));
    steps, s := Then(width, steps, s, Finish(1, Some("HTTP 500")));
  }

  /** One of two overlapping deliveries succeeds, then the other fails and overwrites it. */
  lemma OverlapUndoesDelivery(width: nat) returns (steps: seq<Step>, last: Step)
    requires width >= 2
    ensures IsRunOfWidth(width, INIT, steps) && IsRunOfWidth(width, INIT, steps + [last])
    ensures !Final(RunTo(width, steps), RunTo(width, steps + [last]), "j")
  {
    var s;
    steps, s := TwoInProgress(width, 0);
    steps, s := Then(width, steps, s, Finish(0, None));
    last := Finish(1, Some("HTTP 500"));
    var _, _ := Then(width, steps, s, last);
  }

  /** Each bound holds in every run exactly when at most one delivery of an id is in progress. */
  lemma BoundedIffNoOverlap(width: nat)
    ensures AlwaysFiveAttempts(width) <==> width <= 1
    ensures AlwaysFiveCalls(width) <==> width <= 1
    ensures AlwaysDeadAtFive(width) <==> width <= 1
  {
    if width <= 1 {
      forall steps, id | IsRunOfWidth(width, INIT, steps)
        ensures FiveAttempts(RunTo(width, steps), id) && FiveCalls(RunTo(width, steps), id) &&
                DeadAtFive(RunTo(width, steps), id)
      {
        AttemptsBounded(width, steps, id);
      }
    } else {
      var steps, s := OverlapMakesSix(width);
      assert !FiveAttempts(RunTo(width, steps), "j") && !FiveCalls(RunTo(width, steps), "j") &&
             !DeadAtFive(RunTo(width, steps), "j");
    }
  }

  lemma {:induction false} WidthSplit(width: nat, s: State, steps: seq<Step>, step: Step)
    requires IsRunOfWidth(width, s, steps + [step]) && IsRunOfWidth(width, s, steps)
    ensures IsRun(s, steps) && IsRunOfWidth(width, Exec(s, steps), [step]) && IsRun(s, steps + [step])
    ensures Exec(s, steps + [step]) == Exec(Exec(s, steps), [step])
    decreases |steps|
  {
    if steps == [] {
      assert steps + [step] == [step];
    } else {
      assert (steps + [step])[1..] == steps[1..] + [step];
      WidthSplit(width, Next(s, steps[0]), steps[1..], step);
    }
  }

  /** A delivered job is final in every run exactly when deliveries of one id do not overlap. */
  lemma FinalIffNoOverlap(width: nat)
    ensures AlwaysFinal(width) <==> width <= 1
  {
    if width <= 1 {
      forall steps, step, id | IsRunOfWidth(width, INIT, steps + [step]) && IsRunOfWidth(width, INIT, steps)
        ensures Final(RunTo(width, steps), RunTo(width, steps + [step]), id)
      {
        WidthSplit(width, INIT, steps, step);
        var s := RunTo(width, steps);
        if id in s.jobs && s.jobs[id].status == Delivered { DeliveredIsFinal(width, steps, [step], id); }
      }
    } else {
      var steps, last := OverlapUndoesDelivery(width);
      assert !Final(RunTo(width, steps), RunTo(width, steps + [last]), "j");
    }
  }

  // ---------------------------------------------------------------------------
  // The queue
  // ---------------------------------------------------------------------------

  datatype Outcome =
    | DeliveredNow(attempt: nat)
    | FailedNow(attempt: nat)
    | DeadLetteredNow(attempts: nat)
    | AlreadyDelivered
    | AlreadyDeadLettered
    | NotFound

  class Queue {
    var jobs: map<string, Job>
    var deadLetters: map<string, DeadLetter>
    var calls: map<nat, Job>
    ghost var sent: map<string, nat>
    ghost var replays: map<string, nat>

    ghost function View(): State
      reads this
    {
      State(jobs, deadLetters, calls, sent, replays)
    }

    constructor ()
      ensures View() == INIT
    {
      jobs, deadLetters, calls, sent, replays := map[], map[], map[], map[], map[];
    }

    method EnqueueJob(id: string, merchant: string, url: string, payload: string) returns (added: bool)
      modifies this
      ensures View() == Next(old(View()), Enqueue(id, merchant, url, payload))
      ensures added == (id !in old(jobs))
      ensures added ==> jobs == old(jobs)[id := Job(id, merchant, url, payload, 0, None, Pending)]
      ensures deadLetters == old(deadLetters) && calls == old(calls) && (!added ==> jobs == old(jobs))
    {
      if id in jobs {
        return false;
      }
      jobs := jobs[id := Job(id, merchant, url, payload, 0, None, Pending)];
      return true;
    }

    /** deliver up to its await; `early` is the outcome when the deliverer is not called. */
    method BeginDelivery(c: nat, id: string) returns (early: Option<Outcome>)
      requires c !in calls && (id in jobs ==> jobs[id].id == id)
      modifies this
      ensures View() == Next(old(View()), Begin(c, id))
      ensures early.None? <==> Deliverable(old(View()), id)
      ensures early.None? ==>
                var job := old(jobs)[id].(status := Delivering, attempts := old(jobs)[id].attempts + 1);
                jobs == old(jobs)[id := job] && calls == old(calls)[c := job] && deadLetters == old(deadLetters)
      ensures early.Some? ==> View() == old(View())
      ensures early == if id !in old(jobs) then Some(NotFound)
                       else match old(jobs)[id].status
                            case Delivered => Some(AlreadyDelivered)
                            case DeadLettered => Some(AlreadyDeadLettered)
                            case _ => None
    {
      if id !in jobs {
        return Some(NotFound);
      }
      var job := jobs[id];
      if job.status == Delivered {
        return Some(AlreadyDelivered);
      }
      if job.status == DeadLettered {
        return Some(AlreadyDeadLettered);
      }
      var updated := job.(status := Delivering, attempts := job.attempts + 1);
      jobs := jobs[updated.id := updated];
      calls := calls[c := updated];
      sent := sent[id := Count(sent, id) + 1];
      return None;
    }

    /** deliver after its await. */
    method FinishDelivery(c: nat, error: Option<string>) returns (outcome: Outcome)
      requires c in calls
      modifies this
      ensures View() == Next(old(View()), Finish(c, error))
      ensures var job := old(calls)[c];
              && calls == old(calls) - {c}
              && (error.None? ==>
                    && outcome == DeliveredNow(job.attempts)
                    && jobs == old(jobs)[job.id := job.(status := Delivered)] && deadLetters == old(deadLetters))
              && (error.Some? && job.attempts < 5 ==>
                    && outcome == FailedNow(job.attempts)
                    && jobs == old(jobs)[job.id := job.(status := Failed, lastError := error)]
                    && deadLetters == old(deadLetters))
              && (error.Some? && job.attempts >= 5 ==>
                    var dead := job.(status := DeadLettered, lastError := error);
                    var reason := "Exhausted 5 delivery attempts. Last error: " + error.value;
                    && outcome == DeadLetteredNow(job.attempts)
                    && jobs == old(jobs)[job.id := dead]
                    && deadLetters == old(deadLetters)[job.id := DeadLetter(dead, reason, 0)])
    {
      var updated := calls[c];
      calls := calls - {c};
      if error.None? {
        jobs := jobs[updated.id := updated.(status := Delivered)];
        return DeliveredNow(updated.attempts);
      }
      var failed := updated.(status := Failed, lastError := error);
      if updated.attempts >= MAX_ATTEMPTS {
        var dead := failed.(status := DeadLettered);
        jobs := jobs[dead.id := dead];
        deadLetters := deadLetters[dead.id := DeadLetter(dead, Reason(dead), 0)];
        return DeadLetteredNow(dead.attempts);
      }
      jobs := jobs[failed.id := failed];
      return FailedNow(updated.attempts);
    }

    method ReplayDeadLetter(id: string) returns (replayed: bool)
      modifies this
      ensures View() == Next(old(View()), Replay(id))
      ensures replayed <==> id in old(deadLetters) && (id in old(jobs) ==> old(jobs)[id].status == DeadLettered)
      ensures !replayed ==> View() == old(View())
      ensures replayed ==>
                var entry := old(deadLetters)[id];
                && jobs == old(jobs)[entry.job.id := entry.job.(attempts := 0, status := Pending, lastError := None)]
                && deadLetters == old(deadLetters)[entry.job.id := entry.(replayCount := entry.replayCount + 1)]
                && calls == old(calls)
    {
      if id !in deadLetters {
        return false;
      }
      var entry := deadLetters[id];
      if id in jobs && jobs[id].status != DeadLettered {
        return false;
      }
      jobs := jobs[entry.job.id := entry.job.(attempts := 0, status := Pending, lastError := None)];
      deadLetters := deadLetters[entry.job.id := entry.(replayCount := entry.replayCount + 1)];
      replays := replays[id := Count(replays, id) + 1];
      return true;
    }
  }
}
